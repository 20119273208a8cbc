/** The functions of Go's strings package that the modelled files use. */
module Strings {
  function Split(s: string, sep: char): (pieces: seq<string>)
    ensures pieces != []
  {
    if s == [] then [[]]
    else
      var rest := Split(s[1..], sep);
      if s[0] == sep then [[]] + rest else [[s[0]] + rest[0]] + rest[1..]
  }

  function IndexOf(s: string, c: char): (i: nat)
    ensures i <= |s| && c !in s[..i]
    ensures i < |s| ==> s[i] == c
  {
    if s == [] || s[0] == c then 0 else 1 + IndexOf(s[1..], c)
  }

  /** strings.SplitN(s, sep, 2): one piece without a separator, else what is left and right of the first. */
  function SplitN2(s: string, sep: char): seq<string> {
    var i := IndexOf(s, sep);
    if i == |s| then [s] else [s[..i], s[i + 1..]]
  }

  predicate IsSpace(c: char) {
    || '\t' <= c <= '\r' || c == ' ' || c == '\U{85}' || c == '\U{A0}' || c == '\U{1680}'
    || '\U{2000}' <= c <= '\U{200A}' || c == '\U{2028}' || c == '\U{2029}' || c == '\U{202F}'
    || c == '\U{205F}' || c == '\U{3000}'
  }

  function TrimLeft(s: string): string {
    if s != [] && IsSpace(s[0]) then TrimLeft(s[1..]) else s
  }

  function TrimRight(s: string): string {
    if s != [] && IsSpace(s[|s| - 1]) then TrimRight(s[..|s| - 1]) else s
  }

  function TrimSpace(s: string): string {
    TrimRight(TrimLeft(s))
  }

  /** strings.Fields: the maximal runs of visible characters. */
  function Fields(s: string): (fields: seq<string>)
    ensures s != "" && !IsSpace(s[0]) ==> fields != []
  {
    if s == "" then []
    else if IsSpace(s[0]) then Fields(s[1..])
    else if |s| == 1 || IsSpace(s[1]) then [[s[0]]] + Fields(s[1..])
    else
      var rest := Fields(s[1..]);
      [[s[0]] + rest[0]] + rest[1..]
  }

  function ToLower(c: char): char {
    if 'A' <= c <= 'Z' then c - 'A' + 'a' else c
  }

  /** strings.EqualFold on letters that have no fold partner outside ASCII. */
  predicate EqualFold(s: string, t: string) {
    |s| == |t| && forall i | 0 <= i < |s| :: ToLower(s[i]) == ToLower(t[i])
  }

  lemma {:induction false} SplitWithout(s: string, sep: char)
    requires sep !in s
    ensures Split(s, sep) == [s]
  {
    if s != [] {
      SplitWithout(s[1..], sep);
      assert s == [s[0]] + s[1..];
    }
  }

  lemma {:induction false} SplitAfter(s: string, sep: char, rest: string)
    requires sep !in s
    ensures Split(s + [sep] + rest, sep) == [s] + Split(rest, sep)
  {
    var whole := s + [sep] + rest;
    if s == [] {
      assert whole[1..] == rest;
    } else {
      assert whole[1..] == s[1..] + [sep] + rest;
      SplitAfter(s[1..], sep, rest);
      assert s == [s[0]] + s[1..];
    }
  }

  lemma {:induction false} PiecesWithoutSeparator(s: string, sep: char)
    ensures forall i | 0 <= i < |Split(s, sep)| :: sep !in Split(s, sep)[i]
  {
    if s != [] {
      PiecesWithoutSeparator(s[1..], sep);
    }
  }

  lemma SplitN2AtFirst(key: string, sep: char, value: string)
    requires sep !in key
    ensures SplitN2(key + [sep] + value, sep) == [key, value]
  {
    var s := key + [sep] + value;
    var i := IndexOf(s, sep);
    assert s[|key|] == sep && forall k | 0 <= k < |key| :: s[k] == key[k];
    assert s[..|key|] == key && s[|key| + 1..] == value;
  }

  lemma {:induction false} TrimRightSpaces(s: string, spaces: string)
    requires forall i | 0 <= i < |spaces| :: IsSpace(spaces[i])
    ensures TrimRight(s + spaces) == TrimRight(s)
  {
    if spaces == [] {
      assert s + spaces == s;
    } else {
      var n := |spaces| - 1;
      assert (s + spaces)[..|s + spaces| - 1] == s + spaces[..n];
      TrimRightSpaces(s, spaces[..n]);
    }
  }

  lemma {:induction false} TrimRightStops(s: string)
    ensures TrimRight(s) <= s
    ensures TrimRight(s) != [] ==> !IsSpace(TrimRight(s)[|TrimRight(s)| - 1])
  {
    if s != [] && IsSpace(s[|s| - 1]) {
      TrimRightStops(s[..|s| - 1]);
    }
  }

  /** A prefix ending in a visible character survives trimming on the right. */
  lemma {:induction false} TrimRightKeeps(prefix: string, s: string)
    requires prefix != [] && !IsSpace(prefix[|prefix| - 1])
    ensures TrimRight(prefix + s) == prefix + TrimRight(s)
  {
    if s == [] {
      assert prefix + s == prefix;
    } else if IsSpace(s[|s| - 1]) {
      var t := prefix + s;
      assert t[..|t| - 1] == prefix + s[..|s| - 1];
      TrimRightKeeps(prefix, s[..|s| - 1]);
    }
  }

  /** One piece without a separator, else the parts around the first one. */
  lemma SplitN2Parts(s: string, sep: char)
    ensures sep !in s ==> SplitN2(s, sep) == [s]
    ensures sep in s ==>
              var kv := SplitN2(s, sep);
              |kv| == 2 && sep !in kv[0] && s == kv[0] + [sep] + kv[1]
  {
    var i := IndexOf(s, sep);
    if i < |s| {
      assert s == s[..i] + [sep] + s[i + 1..];
    } else {
      assert s[..i] == s;
    }
  }

  ghost predicate AllSpace(s: string) {
    forall i | 0 <= i < |s| :: IsSpace(s[i])
  }

  ghost predicate NoSpace(s: string) {
    forall i | 0 <= i < |s| :: !IsSpace(s[i])
  }

  lemma {:induction false} TrimLeftParts(s: string) returns (left: string)
    ensures s == left + TrimLeft(s) && AllSpace(left)
    ensures TrimLeft(s) != "" ==> !IsSpace(TrimLeft(s)[0])
  {
    if s != "" && IsSpace(s[0]) {
      left := TrimLeftParts(s[1..]);
      left := [s[0]] + left;
    } else {
      left := "";
    }
  }

  lemma {:induction false} TrimRightParts(s: string) returns (right: string)
    ensures s == TrimRight(s) + right && AllSpace(right)
    ensures TrimRight(s) != "" ==> !IsSpace(TrimRight(s)[|TrimRight(s)| - 1])
  {
    if s != "" && IsSpace(s[|s| - 1]) {
      right := TrimRightParts(s[..|s| - 1]);
      right := right + [s[|s| - 1]];
      assert s == s[..|s| - 1] + [s[|s| - 1]];
    } else {
      right := "";
    }
  }

  /** TrimSpace cuts white space, all of it, on both sides and nothing else. */
  lemma TrimSpaceParts(s: string) returns (left: string, right: string)
    ensures s == left + TrimSpace(s) + right && AllSpace(left) && AllSpace(right)
    ensures var t := TrimSpace(s); t != "" ==> !IsSpace(t[0]) && !IsSpace(t[|t| - 1])
  {
    left := TrimLeftParts(s);
    right := TrimRightParts(TrimLeft(s));
    var t := TrimSpace(s);
    assert left + (t + right) == left + t + right;
    assert t != "" ==> TrimLeft(s)[0] == t[0];
  }

  lemma {:induction false} FieldsOfWord(word: string)
    requires word != "" && NoSpace(word)
    ensures Fields(word) == [word]
  {
    if |word| > 1 {
      FieldsOfWord(word[1..]);
      assert word == [word[0]] + word[1..];
    } else {
      assert word == [word[0]] && word[1..] == "";
    }
  }

  /** White space ends a word; what follows it is split on its own. */
  lemma {:induction false} FieldsAfterWord(word: string, space: char, rest: string)
    requires word != "" && NoSpace(word) && IsSpace(space)
    ensures Fields(word + [space] + rest) == [word] + Fields(rest)
  {
    var s := word + [space] + rest;
    if |word| == 1 {
      assert s[0] == word[0] && s[1] == space && s[1..][1..] == rest;
      assert Fields(s[1..]) == Fields(rest) && word == [s[0]];
    } else {
      assert s[1..] == word[1..] + [space] + rest && s[0] == word[0] && s[1] == word[1];
      FieldsAfterWord(word[1..], space, rest);
      assert word == [word[0]] + word[1..];
    }
  }

  /** Leading white space does not matter, and nothing but white space has no words. */
  lemma {:induction false} FieldsAfterSpace(spaces: string, rest: string)
    requires AllSpace(spaces)
    ensures Fields(spaces + rest) == Fields(rest)
    ensures Fields(spaces) == []
  {
    if spaces == "" {
      assert spaces + rest == rest;
    } else {
      assert (spaces + rest)[1..] == spaces[1..] + rest;
      FieldsAfterSpace(spaces[1..], rest);
    }
  }

  /** Equal up to the case of ASCII letters: 32 apart, the smaller one upper-case. */
  lemma EqualFoldIff(s: string, t: string)
    ensures EqualFold(s, t)
            <==> |s| == |t| && forall i | 0 <= i < |s| ::
                   || s[i] == t[i]
                   || ('A' <= s[i] <= 'Z' && t[i] as int == s[i] as int + 32)
                   || ('A' <= t[i] <= 'Z' && s[i] as int == t[i] as int + 32)
  {
    if |s| == |t| {
      forall i | 0 <= i < |s|
        ensures ToLower(s[i]) == ToLower(t[i])
                <==> || s[i] == t[i]
                     || ('A' <= s[i] <= 'Z' && t[i] as int == s[i] as int + 32)
                     || ('A' <= t[i] <= 'Z' && s[i] as int == t[i] as int + 32)
      {
        ToLowerIff(s[i], t[i]);
      }
    }
  }

  lemma ToLowerIff(c: char, d: char)
    ensures ToLower(c) == ToLower(d)
            <==> || c == d
                 || ('A' <= c <= 'Z' && d as int == c as int + 32)
                 || ('A' <= d <= 'Z' && c as int == d as int + 32)
  {
  }
}
