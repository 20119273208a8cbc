/** The running cache and the status pollers of web/handler/chaosblade.go. */
module BladeHandler {
  import opened Names
  import Strings

  const CREATE_OPERATIONS := {"create", "c"}
  const PREPARE_OPERATIONS := {"prepare", "p"}
  const DESTROY_OPERATIONS := {"destroy", "d"}
  const REVOKE_OPERATIONS := {"revoke", "r"}
  const ASYNC_PARAMETERS := {"async", "a"}
  const JAVA_TYPE := "jvm"
  const UNKNOWN := "Unknown"

  predicate IsCreateOrPrepare(command: string) {
    command in PREPARE_OPERATIONS || command in CREATE_OPERATIONS
  }

  predicate IsDestroyOrRevoke(command: string) {
    command in REVOKE_OPERATIONS || command in DESTROY_OPERATIONS
  }

  /** No word is both a create or prepare and a destroy or revoke. */
  lemma AliasesDisjoint(command: string)
    ensures !(IsCreateOrPrepare(command) && IsDestroyOrRevoke(command))
  {
  }

  predicate IsRevoke(command: string) {
    command in REVOKE_OPERATIONS
  }

  predicate IsJavaAgentInstall(command: string, agentType: string) {
    command in PREPARE_OPERATIONS && agentType == JAVA_TYPE
  }

  predicate IsAsyncFlag(word: string) {
    |word| >= 2 && word[..2] == "--" && word[2..] in ASYNC_PARAMETERS
  }

  predicate AsksAsync(cmd: string)
    requires Strings.Fields(cmd) != []
  {
    var cmds := Strings.Fields(cmd);
    cmds[0] in CREATE_OPERATIONS && exists i | 0 <= i < |cmds| :: IsAsyncFlag(cmds[i])
  }

  lemma AsyncFlagIff(word: string)
    ensures IsAsyncFlag(word) <==> word == "--async" || word == "--a"
  {
    if |word| >= 2 {
      assert word == word[..2] + word[2..];
    }
    assert "--async"[2..] == "async" && "--a"[2..] == "a";
  }

  /** In the words of a command line: create or c first, and --async or --a anywhere. */
  lemma AsksAsyncIff(cmd: string)
    requires Strings.Fields(cmd) != []
    ensures var cmds := Strings.Fields(cmd);
            AsksAsync(cmd) <==> (cmds[0] == "create" || cmds[0] == "c") && ("--async" in cmds || "--a" in cmds)
  {
    var cmds := Strings.Fields(cmd);
    forall i | 0 <= i < |cmds| ensures IsAsyncFlag(cmds[i]) <==> cmds[i] == "--async" || cmds[i] == "--a" {
      AsyncFlagIff(cmds[i]);
    }
  }

  /** Which commands add to the cache, which take from it, and which install a JVM agent. */
  lemma CommandWords(command: string, arg: string)
    ensures IsCreateOrPrepare(command)
            <==> command == "create" || command == "c" || command == "prepare" || command == "p"
    ensures IsDestroyOrRevoke(command)
            <==> command == "destroy" || command == "d" || command == "revoke" || command == "r"
    ensures IsRevoke(command) <==> command == "revoke" || command == "r"
    ensures IsJavaAgentInstall(command, arg) <==> (command == "prepare" || command == "p") && arg == "jvm"
  {
  }

  method IsAsyncCreate(cmd: string) returns (async: bool)
    requires Strings.Fields(cmd) != []
    ensures async <==> AsksAsync(cmd)
    ensures var cmds := Strings.Fields(cmd);
            async <==> (cmds[0] == "create" || cmds[0] == "c") && ("--async" in cmds || "--a" in cmds)
  {
    AsksAsyncIff(cmd);
    var cmds := Strings.Fields(cmd);
    if cmds[0] !in CREATE_OPERATIONS {
      return false;
    }
    for i := 0 to |cmds|
      invariant forall j | 0 <= j < i :: !IsAsyncFlag(cmds[j])
    {
      if !(|cmds[i]| >= 2 && cmds[i][..2] == "--") {
        continue;
      }
      if cmds[i][2..] in ASYNC_PARAMETERS {
        return true;
      }
    }
    return false;
  }

  // Polling.

  datatype Preparation = Preparation(uid: string, programType: string, status: string, error: string)

  /** A value of decoded JSON; a type assertion to string panics on anything else. */
  datatype Json = Text(text: string) | NotText

  /** What "blade status" came back with: a failed call, or the Result field of its answer. */
  datatype StatusAnswer = CallFailed(message: string) | NoResult | Fields(fields: map<string, Json>) | OtherResult

  datatype Query = Found(record: Preparation) | QueryFailed | QueryPanics

  const RECORD_FIELDS := {"ProgramType", "Status", "Error"}

  predicate HasNonText(fields: map<string, Json>) {
    exists name :: name in RECORD_FIELDS && name in fields && fields[name].NotText?
  }

  function Field(fields: map<string, Json>, name: string): string
    requires name in RECORD_FIELDS && !HasNonText(fields)
  {
    if name in fields then fields[name].text else ""
  }

  function RecordOf(uid: string, fields: map<string, Json>): Preparation
    requires !HasNonText(fields)
  {
    Preparation(uid, Field(fields, "ProgramType"), Field(fields, "Status"), Field(fields, "Error"))
  }

  /** The value is the field's text, or empty without such a field. */
  predicate IsField(value: string, fields: map<string, Json>, name: string) {
    if name in fields then fields[name] == Text(value) else value == ""
  }

  /** Which answers panic, and what the record of any other holds. */
  lemma RecordFields(uid: string, fields: map<string, Json>)
    ensures HasNonText(fields)
            <==> || ("ProgramType" in fields && fields["ProgramType"].NotText?)
                 || ("Status" in fields && fields["Status"].NotText?)
                 || ("Error" in fields && fields["Error"].NotText?)
    ensures !HasNonText(fields) ==>
              var r := RecordOf(uid, fields);
              && r.uid == uid && IsField(r.programType, fields, "ProgramType")
              && IsField(r.status, fields, "Status") && IsField(r.error, fields, "Error")
  {
  }

  /** queryPreparationStatus: an error without a field map, a panic on a field that is no string. */
  method QueryPreparationStatus(uid: string, answer: StatusAnswer) returns (q: Query)
    ensures q.QueryFailed? <==> !answer.Fields?
    ensures q.QueryPanics? <==> answer.Fields? && HasNonText(answer.fields)
    ensures q.Found? ==>
              && q.record == RecordOf(uid, answer.fields) && q.record.uid == uid
              && IsField(q.record.programType, answer.fields, "ProgramType")
              && IsField(q.record.status, answer.fields, "Status")
              && IsField(q.record.error, answer.fields, "Error")
  {
    match answer {
      case CallFailed(_) => return QueryFailed;
      case NoResult => return QueryFailed;
      case OtherResult => return QueryFailed;
      case Fields(fields) =>
        RecordFields(uid, fields);
        var programType, status, error := "", "", "";
        if "ProgramType" in fields {
          if fields["ProgramType"].NotText? {
            return QueryPanics;
          }
          programType := fields["ProgramType"].text;
        }
        if "Status" in fields {
          if fields["Status"].NotText? {
            return QueryPanics;
          }
          status := fields["Status"].text;
        }
        if "Error" in fields {
          if fields["Error"].NotText? {
            return QueryPanics;
          }
          error := fields["Error"].text;
        }
        return Found(Preparation(uid, programType, status, error));
    }
  }

  /** One tick of the poller: the minute is over, or the status is asked for. */
  datatype Poll = Deadline | Asked(answer: StatusAnswer)

  predicate SeesRecord(p: Poll) {
    p.Asked? && p.answer.Fields? && !HasNonText(p.answer.fields)
  }

  predicate Panics(p: Poll) {
    p.Asked? && p.answer.Fields? && HasNonText(p.answer.fields)
  }

  function StatusOf(p: Poll): string
    requires SeesRecord(p)
  {
    Field(p.answer.fields, "Status")
  }

  function ErrorOf(p: Poll): string
    requires SeesRecord(p)
  {
    if Strings.EqualFold(StatusOf(p), ERROR) then Field(p.answer.fields, "Error") else ""
  }

  /** A tick that ends the polling: the deadline, a panic, or a record that is not Created in any letter case. */
  predicate Ends(p: Poll) {
    p.Deadline? || Panics(p) || (SeesRecord(p) && !Strings.EqualFold(StatusOf(p), CREATED))
  }

  /** The status of the latest record, Unknown if there was none. */
  function LastSeen(polls: seq<Poll>): string {
    if polls == [] then UNKNOWN
    else
      var last := polls[|polls| - 1];
      if SeesRecord(last) then StatusOf(last) else LastSeen(polls[..|polls| - 1])
  }

  datatype PollEnd = StillPolling | Reported | Crashed

  /**
   The first ending tick decides: a panic ends everything, a record gives its status and, for an
   Error, its error text, and the deadline leaves the latest status that was seen.
   */
  ghost predicate PollResult(polls: seq<Poll>, status: string, errorMsg: string, end: PollEnd, at: nat) {
    && at <= |polls|
    && (forall i | 0 <= i < at :: !Ends(polls[i]))
    && (end.StillPolling? <==> at == |polls|)
    && (at < |polls| ==> Ends(polls[at]) && (end.Crashed? <==> Panics(polls[at])))
    && if at < |polls| && SeesRecord(polls[at])
       then status == StatusOf(polls[at]) && errorMsg == ErrorOf(polls[at])
       else status == LastSeen(polls[..at]) && errorMsg == ""
  }

  /** timingCheckStatus over its ticks, which ends at tick at, if at all. */
  method TimingCheckStatus(uid: string, polls: seq<Poll>)
    returns (status: string, errorMsg: string, end: PollEnd, at: nat)
    ensures PollResult(polls, status, errorMsg, end, at)
    ensures at < |polls| && SeesRecord(polls[at]) ==>
              && IsField(status, polls[at].answer.fields, "Status") && !Strings.EqualFold(status, "Created")
              && if Strings.EqualFold(status, "Error") then IsField(errorMsg, polls[at].answer.fields, "Error")
                 else errorMsg == ""
  {
    status, errorMsg := UNKNOWN, "";
    for i := 0 to |polls|
      invariant forall j | 0 <= j < i :: !Ends(polls[j])
      invariant status == LastSeen(polls[..i]) && errorMsg == ""
    {
      assert polls[..i + 1][..i] == polls[..i];
      TickMeans(polls[i]);
      match polls[i] {
        case Deadline => return status, errorMsg, Reported, i;
        case Asked(answer) =>
          var q := QueryPreparationStatus(uid, answer);
          if q.QueryFailed? {
            continue;
          }
          if q.QueryPanics? {
            return status, errorMsg, Crashed, i;
          }
          status := q.record.status;
          if Strings.EqualFold(q.record.status, CREATED) {
            continue;
          }
          if Strings.EqualFold(status, ERROR) {
            errorMsg := q.record.error;
          }
          return status, errorMsg, Reported, i;
      }
    }
    assert polls[..|polls|] == polls;
    return status, errorMsg, StillPolling, |polls|;
  }

  /** What one tick sees and whether it ends the polling, field by field. */
  lemma TickMeans(p: Poll)
    ensures SeesRecord(p) ==>
              && p.Asked? && p.answer.Fields? && IsField(StatusOf(p), p.answer.fields, "Status")
              && (Strings.EqualFold(StatusOf(p), "Error") ==> IsField(ErrorOf(p), p.answer.fields, "Error"))
              && (!Strings.EqualFold(StatusOf(p), "Error") ==> ErrorOf(p) == "")
              && (Ends(p) <==> !Strings.EqualFold(StatusOf(p), "Created"))
    ensures p.Deadline? ==> Ends(p)
    ensures p.Asked? && !p.answer.Fields? ==> !Ends(p) && !Panics(p)
    ensures p.Asked? && p.answer.Fields? && !SeesRecord(p) ==> Ends(p) && Panics(p)
  {
  }

  /** The latest record's status, or Unknown without a record. */
  lemma {:induction false} LastSeenIs(polls: seq<Poll>, i: nat)
    requires i <= |polls| && forall j | i <= j < |polls| :: !SeesRecord(polls[j])
    ensures i == 0 ==> LastSeen(polls) == "Unknown"
    ensures i > 0 && SeesRecord(polls[i - 1]) ==> LastSeen(polls) == StatusOf(polls[i - 1])
    decreases |polls|
  {
    if i < |polls| {
      LastSeenIs(polls[..|polls| - 1], i);
    }
  }

  // The running cache.

  datatype Event =
    | Command(cmdline: string, command: string, arg: string, result: Json)
    | InstallChecked(uid: string, status: string)

  /** What one event, taken as atomic, does to the cache; a create whose result is no string panics first. */
  function After(running: map<string, string>, e: Event): map<string, string> {
    match e
    case Command(cmdline, command, arg, result) =>
      if IsCreateOrPrepare(command) then
        if result.Text? then running[result.text := cmdline] else running
      else if IsDestroyOrRevoke(command) then running - {arg}
      else running
    case InstallChecked(uid, status) => if Strings.EqualFold(status, ERROR) then running - {uid} else running
  }

  function Running(history: seq<Event>): map<string, string> {
    if history == [] then map[] else After(Running(history[..|history| - 1]), history[|history| - 1])
  }

  /** One of the first n events prepared a JVM agent under uid. */
  ghost predicate Launched(history: seq<Event>, n: nat, uid: string) {
    exists i :: 0 <= i < n && i < |history| && history[i].Command? && history[i].result == Text(uid)
                && IsJavaAgentInstall(history[i].command, history[i].arg)
  }

  /** Install callbacks come only from install checkers. */
  ghost predicate ChecksLaunched(history: seq<Event>) {
    forall i | 0 <= i < |history| && history[i].InstallChecked? :: Launched(history, i, history[i].uid)
  }

  lemma LaunchedStays(history: seq<Event>, n: nat, e: Event, uid: string)
    requires Launched(history, n, uid) && n <= |history|
    ensures Launched(history + [e], n, uid) && Launched(history + [e], |history| + 1, uid)
  {
    var i :| 0 <= i < n && i < |history| && history[i].Command? && history[i].result == Text(uid)
             && IsJavaAgentInstall(history[i].command, history[i].arg);
    assert (history + [e])[i] == history[i];
  }

  /** The checkers that are running after an event. */
  function ChecksAfter(checks: multiset<string>, e: Event): multiset<string> {
    match e
    case Command(_, command, arg, result) =>
      if IsJavaAgentInstall(command, arg) && result.Text? then checks + multiset{result.text} else checks
    case InstallChecked(uid, _) => checks - multiset{uid}
  }

  lemma RunningNext(history: seq<Event>, e: Event)
    ensures Running(history + [e]) == After(Running(history), e)
  {
    assert (history + [e])[..|history + [e]| - 1] == history;
  }

  lemma ChecksLaunchedNext(history: seq<Event>, e: Event)
    requires ChecksLaunched(history) && (e.InstallChecked? ==> Launched(history, |history|, e.uid))
    ensures ChecksLaunched(history + [e])
  {
    var longer := history + [e];
    forall i | 0 <= i < |longer| && longer[i].InstallChecked? ensures Launched(longer, i, longer[i].uid) {
      LaunchedStays(history, i, e, longer[i].uid);
    }
  }

  ghost predicate PendingLaunched(history: seq<Event>, checks: multiset<string>) {
    forall uid | uid in checks :: Launched(history, |history|, uid)
  }

  lemma PendingLaunchedNext(history: seq<Event>, e: Event, checks: multiset<string>)
    requires PendingLaunched(history, checks)
    ensures PendingLaunched(history + [e], ChecksAfter(checks, e))
  {
    forall uid | uid in ChecksAfter(checks, e) ensures Launched(history + [e], |history| + 1, uid) {
      if uid in checks {
        LaunchedStays(history, |history|, e, uid);
      } else {
        assert (history + [e])[|history|] == e;
      }
    }
  }

  lemma EventKeepsLaunched(history: seq<Event>, e: Event, checks: multiset<string>)
    requires ChecksLaunched(history) && PendingLaunched(history, checks)
    requires e.InstallChecked? ==> e.uid in checks
    ensures ChecksLaunched(history + [e]) && PendingLaunched(history + [e], ChecksAfter(checks, e))
    ensures Running(history + [e]) == After(Running(history), e)
  {
    ChecksLaunchedNext(history, e);
    PendingLaunchedNext(history, e, checks);
    RunningNext(history, e);
  }

  lemma NoInstallOutsideCreate(command: string, arg: string)
    requires !IsCreateOrPrepare(command)
    ensures !IsJavaAgentInstall(command, arg)
  {
  }

  lemma NothingToRemove(running: map<string, string>, uid: string)
    requires uid !in running
    ensures running - {uid} == running
  {
  }

  /** A status report to the server. */
  datatype Report = Report(uid: string, status: string, errorMsg: string)

  predicate AnswersPanic(answer: StatusAnswer) {
    answer.Fields? && HasNonText(answer.fields)
  }

  predicate IsJavaRecord(answer: StatusAnswer) {
    answer.Fields? && !HasNonText(answer.fields) && Field(answer.fields, "ProgramType") == JAVA_TYPE
  }

  /** The uninstall checker starts exactly for a readable record of program type jvm. */
  lemma JavaRecordIff(answer: StatusAnswer)
    ensures IsJavaRecord(answer)
            <==> answer.Fields? && !AnswersPanic(answer)
                 && "ProgramType" in answer.fields && answer.fields["ProgramType"] == Text("jvm")
  {
  }

  predicate StartsUninstall(command: string, answer: StatusAnswer) {
    !IsCreateOrPrepare(command) && IsRevoke(command) && IsJavaRecord(answer)
  }

  class ChaosbladeHandler {
    var running: map<string, string>
    var installChecks: multiset<string>    // install checkers that have not called back
    var uninstallChecks: multiset<string>  // uninstall checkers started
    var asyncChecks: multiset<string>      // asynchronous status reporters started
    var reports: seq<Report>               // reports of finished install checkers
    ghost var history: seq<Event>

    ghost predicate Valid()
      reads this
    {
      && running == Running(history)
      && ChecksLaunched(history)
      && PendingLaunched(history, installChecks)
    }

    constructor ()
      ensures Valid() && history == [] && running == map[] && reports == []
      ensures installChecks == multiset{} && uninstallChecks == multiset{} && asyncChecks == multiset{}
    {
      running, reports, history := map[], [], [];
      installChecks, uninstallChecks, asyncChecks := multiset{}, multiset{}, multiset{};
    }

    method Forget(uid: string)
      modifies this`running
      ensures running == old(running) - {uid}
    {
      if uid in running {
        running := running - {uid};
      } else {
        NothingToRemove(running, uid);
      }
    }

    /** The checkers of a create or prepare whose uid is known. */
    method StartChecks(cmdline: string, command: string, arg: string, uid: string)
      requires Strings.Fields(cmdline) != []
      modifies this`installChecks, this`asyncChecks
      ensures installChecks == old(installChecks)
                               + if IsJavaAgentInstall(command, arg) then multiset{uid} else multiset{}
      ensures asyncChecks == old(asyncChecks) + if AsksAsync(cmdline) then multiset{uid} else multiset{}
    {
      if IsJavaAgentInstall(command, arg) {
        installChecks := installChecks + multiset{uid};
      }
      var async := IsAsyncCreate(cmdline);
      if async {
        asyncChecks := asyncChecks + multiset{uid};
      }
    }

    /** A create or prepare; a result that is no string panics before anything changes. */
    method Remember(cmdline: string, command: string, arg: string, result: Json) returns (panicked: bool)
      requires Strings.Fields(cmdline) != [] && IsCreateOrPrepare(command)
      modifies this`running, this`installChecks, this`asyncChecks
      ensures panicked <==> result.NotText?
      ensures running == if result.Text? then old(running)[result.text := cmdline] else old(running)
      ensures installChecks == ChecksAfter(old(installChecks), Command(cmdline, command, arg, result))
      ensures asyncChecks == old(asyncChecks)
                             + if result.Text? && AsksAsync(cmdline) then multiset{result.text} else multiset{}
    {
      if result.NotText? {
        return true;
      }
      running := running[result.text := cmdline];
      StartChecks(cmdline, command, arg, result.text);
      return false;
    }

    /** The uninstall checker of a revoke, if its record is that of a JVM agent. */
    method StartUninstallCheck(uid: string, answer: StatusAnswer) returns (panicked: bool)
      modifies this`uninstallChecks
      ensures panicked <==> AnswersPanic(answer)
      ensures uninstallChecks == old(uninstallChecks) + if IsJavaRecord(answer) then multiset{uid} else multiset{}
    {
      var q := QueryPreparationStatus(uid, answer);
      if q.Found? && q.record.programType == JAVA_TYPE {
        uninstallChecks := uninstallChecks + multiset{uid};
      }
      return q.QueryPanics?;
    }

    /** What a create, prepare, destroy or revoke does, apart from the history. */
    method TakeEffect(cmdline: string, command: string, arg: string, result: Json, answer: StatusAnswer)
      returns (panicked: bool)
      requires Strings.Fields(cmdline) != []
      modifies this`running, this`installChecks, this`asyncChecks, this`uninstallChecks
      ensures running == After(old(running), Command(cmdline, command, arg, result))
      ensures panicked
              <==> if IsCreateOrPrepare(command) then result.NotText? else IsRevoke(command) && AnswersPanic(answer)
      ensures installChecks == ChecksAfter(old(installChecks), Command(cmdline, command, arg, result))
      ensures asyncChecks == old(asyncChecks) + if IsCreateOrPrepare(command) && result.Text? && AsksAsync(cmdline)
                                                then multiset{result.text} else multiset{}
      ensures uninstallChecks == old(uninstallChecks)
                                 + if StartsUninstall(command, answer) then multiset{arg} else multiset{}
    {
      if IsCreateOrPrepare(command) {
        panicked := Remember(cmdline, command, arg, result);
      } else if IsDestroyOrRevoke(command) {
        NoInstallOutsideCreate(command, arg);
        Forget(arg);
        panicked := false;
        if IsRevoke(command) {
          panicked := StartUninstallCheck(arg, answer);
        }
      } else {
        NoInstallOutsideCreate(command, arg);
        return false;
      }
    }

    /** A successful blade command; result is its Result, answer what a status query for a revoke comes back with. */
    method HandleCacheAndSafePoint(cmdline: string, command: string, arg: string, result: Json, answer: StatusAnswer)
      returns (panicked: bool)
      requires Valid() && Strings.Fields(cmdline) != []
      modifies this
      ensures Valid() && history == old(history) + [Command(cmdline, command, arg, result)]
      ensures running == if IsCreateOrPrepare(command) && result.Text? then old(running)[result.text := cmdline]
                         else if IsDestroyOrRevoke(command) then old(running) - {arg} else old(running)
      ensures reports == old(reports)
      ensures panicked <==> || (IsCreateOrPrepare(command) && result.NotText?)
                            || (IsRevoke(command) && AnswersPanic(answer))
      ensures installChecks
              == if (command == "prepare" || command == "p") && arg == "jvm" && result.Text?
                 then old(installChecks) + multiset{result.text} else old(installChecks)
      ensures asyncChecks == old(asyncChecks) + if IsCreateOrPrepare(command) && result.Text? && AsksAsync(cmdline)
                                                then multiset{result.text} else multiset{}
      ensures uninstallChecks
              == old(uninstallChecks)
                 + if (command == "revoke" || command == "r") && answer.Fields? && !AnswersPanic(answer)
                      && "ProgramType" in answer.fields && answer.fields["ProgramType"] == Text("jvm")
                   then multiset{arg} else multiset{}
    {
      CommandWords(command, arg);
      JavaRecordIff(answer);
      AliasesDisjoint(command);
      EventKeepsLaunched(history, Command(cmdline, command, arg, result), installChecks);
      panicked := TakeEffect(cmdline, command, arg, result, answer);
      history := history + [Command(cmdline, command, arg, result)];
    }

    /** checkAndReportJavaAgentStatus: poll, drop the entry of a failed install, report if there is an address. */
    method FinishInstallCheck(uid: string, polls: seq<Poll>, hasUri: bool)
      returns (status: string, errorMsg: string, end: PollEnd, at: nat)
      requires Valid() && uid in installChecks
      modifies this`running, this`history, this`installChecks, this`reports
      ensures Valid() && PollResult(polls, status, errorMsg, end, at)
      ensures history == if end.Reported? then old(history) + [InstallChecked(uid, status)] else old(history)
      ensures installChecks == if end.Reported? then old(installChecks) - multiset{uid} else old(installChecks)
      ensures reports == old(reports) + if end.Reported? && hasUri then [Report(uid, status, errorMsg)] else []
    {
      status, errorMsg, end, at := TimingCheckStatus(uid, polls);
      if end.Reported? {
        DeleteCallback(uid, status);
        if hasUri {
          reports := reports + [Report(uid, status, errorMsg)];
        }
      }
    }

    /** The callback, which ends its checker; an Error in any letter case drops the entry. */
    method DeleteCallback(uid: string, status: string)
      requires Valid() && uid in installChecks
      modifies this`running, this`history, this`installChecks
      ensures Valid() && history == old(history) + [InstallChecked(uid, status)]
      ensures installChecks == old(installChecks) - multiset{uid}
      ensures running == if Strings.EqualFold(status, "Error") then old(running) - {uid} else old(running)
    {
      EventKeepsLaunched(history, InstallChecked(uid, status), installChecks);
      history := history + [InstallChecked(uid, status)];
      installChecks := installChecks - multiset{uid};
      if Strings.EqualFold(status, ERROR) {
        Forget(uid);
      }
    }
  }

  predicate Adds(e: Event, uid: string) {
    e.Command? && IsCreateOrPrepare(e.command) && e.result == Text(uid)
  }

  predicate Removes(e: Event, uid: string) {
    match e
    case Command(_, command, arg, _) => IsDestroyOrRevoke(command) && arg == uid
    case InstallChecked(u, status) => u == uid && Strings.EqualFold(status, ERROR)
  }

  /** Event i put uid into the cache, and nothing since has replaced or removed it. */
  ghost predicate Standing(history: seq<Event>, uid: string, i: nat) {
    && i < |history| && Adds(history[i], uid)
    && forall j | i < j < |history| :: !Adds(history[j], uid) && !Removes(history[j], uid)
  }

  lemma StandingBefore(history: seq<Event>, uid: string, i: nat)
    requires history != []
    ensures var n := |history| - 1;
            Standing(history, uid, i)
            <==> if i == n then Adds(history[n], uid)
                 else Standing(history[..n], uid, i) && !Adds(history[n], uid) && !Removes(history[n], uid)
  {
  }

  /** Whatever the interleaving, the cache holds exactly the standing uids, each with its latest command line. */
  lemma {:induction false} RunningIsStanding(history: seq<Event>, uid: string, cmdline: string)
    ensures uid in Running(history) && Running(history)[uid] == cmdline
            <==> exists i: nat :: Standing(history, uid, i) && history[i].cmdline == cmdline
  {
    if history != [] {
      var n := |history| - 1;
      var init, e := history[..n], history[n];
      RunningIsStanding(init, uid, cmdline);
      forall i: nat
        ensures Standing(history, uid, i)
                <==> if i == n then Adds(e, uid) else Standing(init, uid, i) && !Adds(e, uid) && !Removes(e, uid)
      {
        StandingBefore(history, uid, i);
      }
      if Adds(e, uid) {
        assert Standing(history, uid, n);
      } else if !Removes(e, uid) && uid in Running(init) && Running(init)[uid] == cmdline {
        var i: nat :| Standing(init, uid, i) && init[i].cmdline == cmdline;
        assert Standing(history, uid, i);
      }
    }
  }

  /** An entry that no JVM prepare created goes away only through a destroy or revoke of its uid. */
  lemma OnlyInstallsRollBack(history: seq<Event>, uid: string, n: nat)
    requires ChecksLaunched(history) && n < |history|
    requires uid in Running(history[..n]) && uid !in Running(history[..n + 1])
    ensures Removes(history[n], uid)
    ensures history[n].Command? || Launched(history, n, uid)
  {
    assert history[..n + 1][..n] == history[..n];
  }
}
