/** The key=value files of pkg/tools/auth.go: RecordMapToFile and ReadAppInfoFromFile. */
module AppFile {
  import opened Options
  import opened Strings

  const DELIMITER := '='
  const APP_INSTANCE_KEY := "appInstance"
  const APP_GROUP_KEY := "appGroup"
  const ACCESS_KEY := "AK"
  const SECRET_KEY := "SK"

  type Entry = (string, string)

  function Line(e: Entry): string {
    e.0 + [DELIMITER] + e.1 + "\n"
  }

  function Printed(entries: seq<Entry>): string {
    if entries == [] then "" else Line(entries[0]) + Printed(entries[1..])
  }

  lemma PrintedPair(first: Entry, second: Entry)
    ensures Printed([first, second]) == first.0 + "=" + first.1 + "\n" + second.0 + "=" + second.1 + "\n"
  {
    assert [first, second][1..] == [second] && [second][1..] == [];
    assert Printed([second]) == Line(second) + Printed([]) == Line(second);
    assert Printed([first, second]) == Line(first) + Line(second);
  }

  /** Without O_TRUNC the writes start at offset 0 and leave the rest of a longer file in place. */
  function Overwrite(previous: string, text: string): (after: string)
    ensures text <= after && |after| == if |previous| < |text| then |text| else |previous|
    ensures forall i | |text| <= i < |after| :: after[i] == previous[i]
  {
    if |previous| <= |text| then text else text + previous[|text|..]
  }

  predicate Fits(entries: seq<Entry>, room: Option<nat>) {
    room.Some? ==> |Printed(entries)| <= room.value
  }

  /** What the writes put down before they end or fail. */
  function Written(entries: seq<Entry>, room: Option<nat>): string {
    if Fits(entries, room) then Printed(entries) else Printed(entries)[..room.value]
  }

  datatype AppInfo = AppInfo(instance: string, group: string)

  function TakeLine(info: AppInfo, line: string): AppInfo {
    var kv := SplitN2(line, DELIMITER);
    if |kv| != 2 then info
    else if kv[0] == APP_INSTANCE_KEY then info.(instance := kv[1])
    else if kv[0] == APP_GROUP_KEY then info.(group := kv[1])
    else info
  }

  function TakeLines(lines: seq<string>): AppInfo {
    if lines == [] then AppInfo("", "")
    else TakeLine(TakeLines(lines[..|lines| - 1]), lines[|lines| - 1])
  }

  function Parsed(content: string): AppInfo {
    TakeLines(Split(TrimSpace(content), '\n'))
  }

  function KeyEntries(accessKey: string, secretKey: string, order: bool): seq<Entry> {
    var ak, sk := (ACCESS_KEY, accessKey), (SECRET_KEY, secretKey);
    if order then [ak, sk] else [sk, ak]
  }

  lemma NextLine(entries: seq<Entry>, i: nat, written: string)
    requires i < |entries| && written + Printed(entries[i..]) == Printed(entries)
    ensures (written + Line(entries[i])) + Printed(entries[i + 1..]) == Printed(entries)
  {
    assert entries[i..][1..] == entries[i + 1..];
    var line, rest := Line(entries[i]), Printed(entries[i + 1..]);
    assert (written + line) + rest == written + (line + rest);
  }

  lemma CutPrefix(a: string, b: string, n: nat)
    requires n <= |a|
    ensures (a + b)[..n] == a[..n]
  {
  }

  /** The write loop, up to its end or the first write that fails. */
  method WriteLines(entries: seq<Entry>, room: Option<nat>) returns (written: string, ok: bool)
    ensures written == Written(entries, room) && (ok <==> Fits(entries, room))
    ensures written <= Printed(entries) && (ok <==> written == Printed(entries))
    ensures !ok ==> room == Some(|written|)
    ensures room.Some? ==> |written| <= room.value
  {
    written := "";
    for i := 0 to |entries|
      invariant written + Printed(entries[i..]) == Printed(entries)
      invariant room.Some? ==> |written| <= room.value
    {
      NextLine(entries, i, written);
      var line := entries[i].0 + [DELIMITER] + entries[i].1 + "\n";
      if room.Some? && |written| + |line| > room.value {
        CutPrefix(written + line, Printed(entries[i + 1..]), room.value);
        return (written + line)[..room.value], false;
      }
      written := written + line;
    }
    assert written == Printed(entries);
    ok := true;
  }

  /** A file and the two process-wide keys that go with one of them. */
  class KeyFile {
    var content: Option<string>
    var accessKey: string
    var secretKey: string

    constructor (content: Option<string>)
      ensures this.content == content && accessKey == "" && secretKey == ""
    {
      this.content, accessKey, secretKey := content, "", "";
    }

    /**
     entries is a Go map in one of its iteration orders; opens says whether the file can be opened,
     room how many characters can be written before a write fails.
     */
    method RecordMapToFile(entries: seq<Entry>, truncate: bool, opens: bool, room: Option<nat>) returns (ok: bool)
      modifies this`content
      ensures ok <==> entries == [] || (opens && Fits(entries, room))
      ensures content == if entries == [] || !opens then old(content)
                         else Some(Overwrite(if truncate || old(content).None? then "" else old(content).value,
                                             Written(entries, room)))
    {
      if |entries| == 0 {
        return true;
      }
      if !opens {
        return false;
      }
      var before := if truncate || content.None? then "" else content.value;
      var written;
      written, ok := WriteLines(entries, room);
      content := Some(Overwrite(before, written));
    }

    method ReadAppInfoFromFile() returns (info: Option<AppInfo>)
      ensures info == if content.None? then None else Some(Parsed(content.value))
    {
      if content.None? {
        return None;
      }
      var slice := Split(TrimSpace(content.value), '\n');
      var appInstance, appGroup := "", "";
      for i := 0 to |slice|
        invariant AppInfo(appInstance, appGroup) == TakeLines(slice[..i])
      {
        assert slice[..i + 1][..i] == slice[..i];
        var kv := SplitN2(slice[i], DELIMITER);
        if |kv| != 2 {
          continue;
        }
        if kv[0] == APP_INSTANCE_KEY {
          appInstance := kv[1];
        } else if kv[0] == APP_GROUP_KEY {
          appGroup := kv[1];
        }
      }
      assert slice[..|slice|] == slice;
      return Some(AppInfo(appInstance, appGroup));
    }

    /** order is the iteration order of the two-entry map: access key first or secret key first. */
    method RecordSecretKeyToFile(accessKey: string, secretKey: string, order: bool, opens: bool, room: Option<nat>)
      returns (ok: bool)
      modifies this
      ensures ok <==> accessKey != "" && secretKey != "" && opens && Fits(KeyEntries(accessKey, secretKey, order), room)
      ensures ok ==> this.accessKey == accessKey && this.secretKey == secretKey
      ensures !ok ==> this.accessKey == old(this.accessKey) && this.secretKey == old(this.secretKey)
      ensures content == if accessKey == "" || secretKey == "" || !opens then old(content)
                         else Some(Written(KeyEntries(accessKey, secretKey, order), room))
    {
      if accessKey == "" || secretKey == "" {
        return false;
      }
      ok := RecordMapToFile(KeyEntries(accessKey, secretKey, order), true, opens, room);
      if ok {
        this.accessKey := accessKey;
        this.secretKey := secretKey;
      }
    }
  }

  /** What a full write leaves in the key file, spelled out. */
  lemma KeyText(accessKey: string, secretKey: string, order: bool)
    ensures Written(KeyEntries(accessKey, secretKey, order), None)
            == if order then ACCESS_KEY + "=" + accessKey + "\n" + SECRET_KEY + "=" + secretKey + "\n"
               else SECRET_KEY + "=" + secretKey + "\n" + ACCESS_KEY + "=" + accessKey + "\n"
  {
    var entries := KeyEntries(accessKey, secretKey, order);
    PrintedPair(entries[0], entries[1]);
  }

  /** What RecordApplicationToFile hands to RecordMapToFile, in either iteration order. */
  function AppEntries(instance: string, group: string, instanceFirst: bool): seq<Entry> {
    var i, g := (APP_INSTANCE_KEY, instance), (APP_GROUP_KEY, group);
    if instanceFirst then [i, g] else [g, i]
  }

  predicate EndsVisibly(value: string) {
    value == "" || !IsSpace(value[|value| - 1])
  }

  /** Keys that the parser finds again: visible first character, no delimiter, one line. */
  predicate PlainKey(key: string) {
    key != "" && !IsSpace(key[0]) && DELIMITER !in key && '\n' !in key
  }

  lemma TrimKeepsIff(value: string)
    ensures TrimRight(value) == value <==> EndsVisibly(value)
  {
    TrimRightStops(value);
  }

  /** What stands before the second value. */
  function BeforeLast(first: Entry, key: string): string {
    first.0 + [DELIMITER] + first.1 + ['\n'] + (key + [DELIMITER])
  }

  lemma PrintedTwo(first: Entry, second: Entry)
    ensures Printed([first, second]) == BeforeLast(first, second.0) + second.1 + "\n"
  {
    PrintedPair(first, second);
  }

  lemma TrimmedTwo(first: Entry, second: Entry)
    requires PlainKey(first.0)
    ensures TrimSpace(Printed([first, second])) == BeforeLast(first, second.0) + TrimRight(second.1)
  {
    var prefix := BeforeLast(first, second.0);
    PrintedTwo(first, second);
    assert (prefix + second.1 + "\n")[0] == first.0[0];
    TrimRightSpaces(prefix + second.1, "\n");
    assert prefix[|prefix| - 1] == DELIMITER;
    TrimRightKeeps(prefix, second.1);
  }

  lemma SplitTwo(line: string, key: string, value: string)
    requires '\n' !in line && '\n' !in key && '\n' !in value
    ensures Split(line + ['\n'] + (key + [DELIMITER]) + value, '\n') == [line, key + [DELIMITER] + value]
  {
    var last := key + [DELIMITER] + value;
    assert line + ['\n'] + (key + [DELIMITER]) + value == line + ['\n'] + last;
    SplitAfter(line, '\n', last);
    SplitWithout(last, '\n');
  }

  /** Printing two one-line entries and trimming, splitting the result gives the two lines, the second trimmed. */
  lemma TwoLines(first: Entry, second: Entry)
    requires PlainKey(first.0) && PlainKey(second.0) && '\n' !in first.1 && '\n' !in second.1
    ensures Split(TrimSpace(Printed([first, second])), '\n')
            == [first.0 + [DELIMITER] + first.1, second.0 + [DELIMITER] + TrimRight(second.1)]
  {
    TrimmedTwo(first, second);
    TrimRightStops(second.1);
    SplitTwo(first.0 + [DELIMITER] + first.1, second.0, TrimRight(second.1));
  }

  /** A line counts exactly if it starts with one of the two keys and the delimiter; the rest of it is the value. */
  lemma LineTaken(info: AppInfo, line: string)
    ensures TakeLine(info, line) == AppInfo(if "appInstance=" <= line then line[12..] else info.instance,
                                            if "appGroup=" <= line then line[9..] else info.group)
  {
    SplitN2Parts(line, DELIMITER);
    if DELIMITER in line {
      var kv := SplitN2(line, DELIMITER);
      KeyIsPrefix(line, kv, APP_INSTANCE_KEY);
      KeyIsPrefix(line, kv, APP_GROUP_KEY);
      assert APP_INSTANCE_KEY + [DELIMITER] == "appInstance=" && APP_GROUP_KEY + [DELIMITER] == "appGroup=";
    } else {
      assert "appInstance="[11] == DELIMITER && "appGroup="[8] == DELIMITER;
    }
  }

  lemma KeyIsPrefix(line: string, kv: seq<string>, key: string)
    requires |kv| == 2 && DELIMITER !in kv[0] && line == kv[0] + [DELIMITER] + kv[1] && DELIMITER !in key
    ensures kv[0] == key <==> key + [DELIMITER] <= line
    ensures kv[0] == key ==> line[|key| + 1..] == kv[1]
  {
    var prefix := key + [DELIMITER];
    assert forall k | 0 <= k < |kv[0]| :: line[k] == kv[0][k] && line[k] != DELIMITER;
    assert line[|kv[0]|] == DELIMITER;
    if prefix <= line {
      assert forall k | 0 <= k < |key| :: line[k] == prefix[k] == key[k] && line[k] != DELIMITER;
      assert line[|key|] == prefix[|key|] == DELIMITER;
      assert |key| == |kv[0]|;
    }
  }

  /** The last line with a key gives its value, whatever the other lines are; without one the value is empty. */
  lemma {:induction false} LastLineWins(lines: seq<string>, key: string, i: nat)
    requires key == "appInstance=" || key == "appGroup="
    requires i <= |lines| && forall j | i <= j < |lines| :: !(key <= lines[j])
    ensures var value := if key == "appInstance=" then TakeLines(lines).instance else TakeLines(lines).group;
            && (i == 0 ==> value == "")
            && (i > 0 && key <= lines[i - 1] ==> value == lines[i - 1][|key|..])
    decreases |lines|
  {
    if lines != [] {
      var init, last := lines[..|lines| - 1], lines[|lines| - 1];
      LineTaken(TakeLines(init), last);
      assert "appInstance="[3] != "appGroup="[3];
      if i < |lines| {
        LastLineWins(init, key, i);
      }
    }
  }

  lemma TwoLinesTaken(a: string, b: string)
    ensures TakeLines([a, b]) == TakeLine(TakeLine(AppInfo("", ""), a), b)
  {
    assert [a, b][..1] == [a] && [a][..0] == [];
    assert TakeLines([a]) == TakeLine(AppInfo("", ""), a);
  }

  /** One-line values come back as they are, but the one written last loses its trailing white space. */
  lemma ParsedOfPrinted(instance: string, group: string, instanceFirst: bool)
    requires '\n' !in instance && '\n' !in group
    ensures Parsed(Printed(AppEntries(instance, group, instanceFirst)))
            == if instanceFirst then AppInfo(instance, TrimRight(group)) else AppInfo(TrimRight(instance), group)
  {
    var entries := AppEntries(instance, group, instanceFirst);
    TwoLines(entries[0], entries[1]);
    SplitN2AtFirst(entries[0].0, DELIMITER, entries[0].1);
    SplitN2AtFirst(entries[1].0, DELIMITER, TrimRight(entries[1].1));
    TwoLinesTaken(entries[0].0 + [DELIMITER] + entries[0].1, entries[1].0 + [DELIMITER] + TrimRight(entries[1].1));
  }

  lemma {:induction false} TakenWithoutNewline(lines: seq<string>)
    requires forall i | 0 <= i < |lines| :: '\n' !in lines[i]
    ensures '\n' !in TakeLines(lines).instance && '\n' !in TakeLines(lines).group
  {
    if lines != [] {
      TakenWithoutNewline(lines[..|lines| - 1]);
    }
  }

  /** Whatever the file holds, no value read from it spans a line break. */
  lemma ParsedWithoutNewline(content: string)
    ensures '\n' !in Parsed(content).instance && '\n' !in Parsed(content).group
  {
    PiecesWithoutSeparator(TrimSpace(content), '\n');
    TakenWithoutNewline(Split(TrimSpace(content), '\n'));
  }

  lemma {:induction false} TrimLeftSkips(spaces: string, s: string)
    requires AllSpace(spaces)
    ensures TrimLeft(spaces + s) == TrimLeft(s)
  {
    if spaces == "" {
      assert spaces + s == s;
    } else {
      assert (spaces + s)[1..] == spaces[1..] + s;
      TrimLeftSkips(spaces[1..], s);
    }
  }

  /** White space before the first line, empty lines included, makes no difference. */
  lemma LeadingSpaceIgnored(spaces: string, content: string)
    requires AllSpace(spaces)
    ensures Parsed(spaces + content) == Parsed(content)
  {
    TrimLeftSkips(spaces, content);
  }

  /** In one order, the round trip is exact precisely for one-line values of which the last ends visibly. */
  lemma RoundTripInOrderIff(instance: string, group: string, instanceFirst: bool)
    ensures Parsed(Printed(AppEntries(instance, group, instanceFirst))) == AppInfo(instance, group)
            <==> '\n' !in instance && '\n' !in group && EndsVisibly(if instanceFirst then group else instance)
  {
    ParsedWithoutNewline(Printed(AppEntries(instance, group, instanceFirst)));
    if '\n' !in instance && '\n' !in group {
      ParsedOfPrinted(instance, group, instanceFirst);
      TrimKeepsIff(if instanceFirst then group else instance);
    }
  }

  /** In every order: exactly for one-line values that do not end in white space. */
  lemma RoundTripIff(instance: string, group: string)
    ensures (forall instanceFirst ::
               Parsed(Printed(AppEntries(instance, group, instanceFirst))) == AppInfo(instance, group))
            <==> '\n' !in instance && '\n' !in group && EndsVisibly(instance) && EndsVisibly(group)
  {
    RoundTripInOrderIff(instance, group, true);
    RoundTripInOrderIff(instance, group, false);
  }

  /** RecordApplicationToFile with truncation, then ReadAppInfoFromFile, on one file. */
  method RecordThenRead(file: KeyFile, instance: string, group: string, instanceFirst: bool)
    returns (info: Option<AppInfo>)
    modifies file
    ensures info.Some?
    ensures info.value == AppInfo(instance, group)
            <==> '\n' !in instance && '\n' !in group && EndsVisibly(if instanceFirst then group else instance)
  {
    var ok := file.RecordMapToFile(AppEntries(instance, group, instanceFirst), true, true, None);
    RoundTripInOrderIff(instance, group, instanceFirst);
    info := file.ReadAppInfoFromFile();
  }
}
