/**
 DestroyExperiment of web/cmdexec/destroy.go, execScript of web/cmdexec/script.go and MemRun of
 web/category/mem_main.go as the ordered effects they are, when nobody else interferes.
 */
module Agent {
  import opened ExperimentTable
  import opened Lifecycle
  import opened Names
  import opened Options
  import Decimal
  import MemBurn
  import Strings

  /** What the outside world answers to one destroy call. */
  datatype DestroyEnv = DestroyEnv(opensDead: bool, killWorks: bool, cleanWorks: bool, now: string)

  datatype Outcome = Outcome(table: Table, procs: seq<Proc>, reply: Reply)

  /** The lowest index from i on that holds pid, among the live processes only if live is set. */
  function FirstHolder(procs: seq<Proc>, pid: int, live: bool, i: nat): (h: Option<nat>)
    requires i <= |procs|
    ensures h.Some? ==> h.value < |procs| && procs[h.value].pid == pid && (live ==> procs[h.value].alive)
    ensures h.None? ==> forall j | i <= j < |procs| :: procs[j].pid != pid || (live && !procs[j].alive)
    decreases |procs| - i
  {
    if i == |procs| then None
    else if procs[i].pid == pid && (live ==> procs[i].alive) then Some(i)
    else FirstHolder(procs, pid, live, i + 1)
  }

  /** os.FindProcess: the live holder of pid; failing that, opensDead allows a dead former one. */
  function FindProcess(procs: seq<Proc>, pid: int, opensDead: bool): (target: Option<nat>)
    ensures target.Some? ==>
              && target.value < |procs| && procs[target.value].pid == pid
              && (procs[target.value].alive || forall i | 0 <= i < |procs| :: procs[i].alive ==> procs[i].pid != pid)
    ensures target.None? ==> forall i | 0 <= i < |procs| :: procs[i].alive || opensDead ==> procs[i].pid != pid
    ensures target.Some? ==> procs[target.value].alive || opensDead
  {
    var live := FirstHolder(procs, pid, true, 0);
    if live.Some? || !opensDead then live else FirstHolder(procs, pid, false, 0)
  }

  function Killed(procs: seq<Proc>, target: nat): seq<Proc>
    requires target < |procs|
  {
    procs[target := procs[target].(alive := false)]
  }

  /** What an uninterrupted destroy call does, read off the program points of the machine. */
  function DestroyAlone(table: Table, procs: seq<Proc>, uid: string, env: DestroyEnv): Outcome {
    var pc := AfterQuery(View(table.rows), uid);
    var written := Update(table, uid, DESTROYED, "", env.now);
    if pc.Answered? then Outcome(table, procs, pc.reply)
    else if pc.Finding? then
      var target := FindProcess(procs, pc.pid, env.opensDead);
      if target.None? then Outcome(written, procs, Done)
      else if env.killWorks then Outcome(written, Killed(procs, target.value), Done)
      else Outcome(table, procs, Refused(DESTROYED_EXPERIMENT_ERROR))
    else if pc.Cleaning? && !env.cleanWorks then Outcome(table, procs, Refused(DESTROYED_EXPERIMENT_ERROR))
    else Outcome(written, procs, Done)
  }

  // Scripts.

  const NO_MAIN_FILE := "unTared scriptFiles  not exist main file"
  const WRONG_FORMAT := " : format is wrong!"
  const BAT := ".bat"
  const PS1 := ".ps1"

  /**
   What comes of one script: the first failure of finding, making and filling its directory, the
   names in the directory, the outcomes of generateUid and of the command, and the clock.
   */
  datatype ScriptEnv = ScriptEnv(
    unpackError: Option<string>, archive: string, dir: string, listing: Option<seq<string>>,
    uid: Result<string, string>, commandError: Option<string>, insertTime: string, writeTime: string)

  datatype Script = Script(uid: string, main: string)

  /** path.Ext of a name without slashes: what starts at the last dot. */
  function Ext(name: string): (ext: string)
    ensures |ext| <= |name|
  {
    if name == "" then ""
    else
      var init, last := name[..|name| - 1], name[|name| - 1];
      if last == '.' then "." else if Ext(init) == "" then "" else Ext(init) + [last]
  }

  /** The suffix from the last dot on, empty exactly without a dot. */
  lemma {:induction false} ExtIs(name: string)
    ensures Ext(name) == name[|name| - |Ext(name)|..]
    ensures Ext(name) == "" <==> '.' !in name
    ensures Ext(name) != "" ==> Ext(name)[0] == '.' && '.' !in Ext(name)[1..]
  {
    if name != "" {
      ExtIs(name[..|name| - 1]);
      assert name == name[..|name| - 1] + [name[|name| - 1]];
    }
  }

  predicate IsMain(name: string) {
    name[..|name| - |Ext(name)|] == "main"
  }

  /** Names that listDir stops at: main alone, or main with one extension. */
  predicate MainName(name: string) {
    name == "main" || ("main." <= name && '.' !in name[5..])
  }

  lemma IsMainIff(name: string)
    ensures IsMain(name) <==> MainName(name)
  {
    var ext := Ext(name);
    ExtIs(name);
    var base := name[..|name| - |ext|];
    assert name == base + ext;
    if IsMain(name) && ext != "" {
      assert name[4] == ext[0] && name[..4] == "main";
      assert name[..5] == "main" + ['.'] == "main.";
      assert name[5..] == ext[1..];
    }
    if "main." <= name && '.' !in name[5..] {
      assert name[4] == "main."[4] == '.';
      LastDot(name, ext, 4);
      assert name[..4] == "main."[..4] == "main";
    }
    if name == "main" {
      assert '.' !in "main";
      assert base == name;
    }
  }

  lemma LastDot(name: string, ext: string, i: nat)
    requires i < |name| && name[i] == '.' && '.' !in name[i + 1..]
    requires |ext| <= |name| && ext == name[|name| - |ext|..] && ext != "" && ext[0] == '.' && '.' !in ext[1..]
    ensures |name| - |ext| == i
  {
    var j := |name| - |ext|;
    assert name[j] == ext[0];
    forall k | i < k < |name| ensures name[k] != '.' {
      assert name[i + 1..][k - i - 1] == name[k];
    }
    forall k | j < k < |name| ensures name[k] != '.' {
      assert ext[1..][k - j - 1] == name[k];
    }
  }

  function FirstMain(names: seq<string>): (main: Option<string>)
    ensures main.None? <==> forall name | name in names :: !IsMain(name)
  {
    if names == [] then None else if IsMain(names[0]) then Some(names[0]) else FirstMain(names[1..])
  }

  /** The first of the names that listDir stops at. */
  ghost predicate IsFirstMain(names: seq<string>, name: string) {
    exists i :: 0 <= i < |names| && names[i] == name && MainName(name) && forall j | 0 <= j < i :: !MainName(names[j])
  }

  lemma {:induction false} FirstMainIs(names: seq<string>)
    ensures FirstMain(names).Some? ==> IsFirstMain(names, FirstMain(names).value)
    ensures FirstMain(names).None? ==> forall i | 0 <= i < |names| :: !MainName(names[i])
  {
    if names != [] {
      IsMainIff(names[0]);
      FirstMainIs(names[1..]);
      if IsMain(names[0]) {
        assert IsFirstMain(names, names[0]);
      } else if FirstMain(names[1..]).Some? {
        var name := FirstMain(names).value;
        var i :| 0 <= i < |names[1..]| && names[1..][i] == name && forall j | 0 <= j < i :: !MainName(names[1..][j]);
        forall j | 0 <= j < i + 1 ensures !MainName(names[j]) {
          assert j > 0 ==> names[j] == names[1..][j - 1];
        }
        assert names[i + 1] == name;
      } else {
        forall i | 0 <= i < |names| ensures !MainName(names[i]) {
          assert i > 0 ==> names[i] == names[1..][i - 1];
        }
      }
    }
  }

  lemma FirstMainOnce(names: seq<string>, a: string, b: string)
    requires IsFirstMain(names, a) && IsFirstMain(names, b)
    ensures a == b
  {
    var i :| 0 <= i < |names| && names[i] == a && MainName(a) && forall j | 0 <= j < i :: !MainName(names[j]);
    var k :| 0 <= k < |names| && names[k] == b && MainName(b) && forall j | 0 <= j < k :: !MainName(names[j]);
  }

  predicate Runnable(main: string) {
    Ext(main) == BAT || Ext(main) == PS1
  }

  /** Everything before the insert: a uid and a main file with an extension, or the error message. */
  function Prepared(env: ScriptEnv): Result<Script, string> {
    if env.unpackError.Some? then Err(env.unpackError.value)
    else
      var main := if env.listing.Some? then FirstMain(env.listing.value) else None;
      if main.None? || Ext(main.value) == "" then Err(NO_MAIN_FILE)
      else
        match env.uid
        case Err(message) => Err(message)
        case Ok(uid) => Ok(Script(uid, main.value))
  }

  /** When a call gets past its preparation, and which of its errors it ends in otherwise. */
  lemma PreparedIff(env: ScriptEnv)
    ensures Prepared(env).Ok? ==>
              && env.unpackError.None? && env.uid == Ok(Prepared(env).value.uid) && env.listing.Some?
              && IsFirstMain(env.listing.value, Prepared(env).value.main) && '.' in Prepared(env).value.main
    ensures Prepared(env).Err? ==>
              if env.unpackError.Some? then Prepared(env).error == env.unpackError.value
              else if env.listing.Some? && exists name :: IsFirstMain(env.listing.value, name) && '.' in name
              then env.uid == Err(Prepared(env).error)
              else Prepared(env).error == "unTared scriptFiles  not exist main file"
  {
    if env.listing.Some? {
      var names := env.listing.value;
      FirstMainIs(names);
      if FirstMain(names).Some? {
        ExtIs(FirstMain(names).value);
      }
      forall name | IsFirstMain(names, name) ensures FirstMain(names) == Some(name) {
        if FirstMain(names).Some? {
          FirstMainOnce(names, name, FirstMain(names).value);
        }
      }
    }
  }

  /** Which file of the directory is run. */
  function ScriptFile(script: Script, recovering: string, env: ScriptEnv): string {
    env.dir + if recovering != "true" then script.main
              else if Runnable(script.main) then "recover" + Ext(script.main)
              else env.archive
  }

  function Join(args: seq<string>): string {
    if args == [] then "" else if |args| == 1 then args[0] else args[0] + "," + Join(args[1..])
  }

  /** Joined by commas: arguments without one are what a split at commas gives back. */
  lemma {:induction false} JoinSplits(args: seq<string>)
    requires args != [] && forall i | 0 <= i < |args| :: ',' !in args[i]
    ensures Strings.Split(Join(args), ',') == args
  {
    if |args| == 1 {
      Strings.SplitWithout(args[0], ',');
    } else {
      JoinSplits(args[1..]);
      Strings.SplitAfter(args[0], ',', Join(args[1..]));
      assert Join(args) == args[0] + [','] + Join(args[1..]);
      assert args == [args[0]] + args[1..];
    }
  }

  /** The process started for the script. */
  function CommandLine(script: Script, args: seq<string>, recovering: string, env: ScriptEnv): seq<string> {
    var file := ScriptFile(script, recovering, env);
    if Ext(script.main) == BAT then ["cmd.exe", "/C", file, Join(args)]
    else ["powershell.exe", "-ExecutionPolicy", "RemoteSigned", "-File", file] + args
  }

  lemma MainWithExt(main: string)
    requires MainName(main) && '.' in main
    ensures main == "main" + Ext(main)
  {
    IsMainIff(main);
    ExtIs(main);
    assert main == main[..|main| - |Ext(main)|] + Ext(main);
  }

  /** Recovery runs the recovery script of the same kind, anything else the main file. */
  lemma FileOfKind(script: Script, recovering: string, env: ScriptEnv)
    requires Runnable(script.main) && MainName(script.main) && '.' in script.main
    ensures ScriptFile(script, recovering, env)
            == env.dir + if recovering == "true" then "recover" + Ext(script.main) else "main" + Ext(script.main)
  {
    MainWithExt(script.main);
  }

  /** The one argument text of cmd.exe: the arguments joined by commas. */
  ghost predicate IsJoined(text: string, args: seq<string>) {
    && (args == [] ==> text == "") && (|args| == 1 ==> text == args[0])
    && (args != [] && (forall i | 0 <= i < |args| :: ',' !in args[i]) ==> Strings.Split(text, ',') == args)
  }

  lemma JoinIsJoined(args: seq<string>)
    ensures IsJoined(Join(args), args)
  {
    if args != [] && forall i | 0 <= i < |args| :: ',' !in args[i] {
      JoinSplits(args);
    }
  }

  lemma CommandOfKind(script: Script, args: seq<string>, recovering: string, env: ScriptEnv)
    requires Runnable(script.main)
    ensures var command, file := CommandLine(script, args, recovering, env), ScriptFile(script, recovering, env);
            if Ext(script.main) == ".bat"
            then |command| == 4 && command[..3] == ["cmd.exe", "/C", file] && IsJoined(command[3], args)
            else command == ["powershell.exe", "-ExecutionPolicy", "RemoteSigned", "-File", file] + args
  {
    JoinIsJoined(args);
  }

  /**
   What is started, if anything: main.bat by cmd.exe or main.ps1 by powershell.exe, whichever comes
   first in the directory, or the recovery script of the same kind, with the arguments as given.
   */
  lemma StartedProcess(args: seq<string>, recovering: string, env: ScriptEnv) returns (ext: string, file: string)
    requires Prepared(env).Ok? && Runnable(Prepared(env).value.main)
    ensures ext == ".bat" || ext == ".ps1"
    ensures env.listing.Some? && IsFirstMain(env.listing.value, "main" + ext)
    ensures file == env.dir + if recovering == "true" then "recover" + ext else "main" + ext
    ensures var command := CommandLine(Prepared(env).value, args, recovering, env);
            if ext == ".bat"
            then |command| == 4 && command[..3] == ["cmd.exe", "/C", file] && IsJoined(command[3], args)
            else command == ["powershell.exe", "-ExecutionPolicy", "RemoteSigned", "-File", file] + args
  {
    var script := Prepared(env).value;
    ext, file := Ext(script.main), ScriptFile(script, recovering, env);
    PreparedIff(env);
    MainOfFirst(env.listing.value, script.main);
    MainWithExt(script.main);
    FileOfKind(script, recovering, env);
    CommandOfKind(script, args, recovering, env);
  }

  /** Of any other kind, nothing is started, and the error names the archive in recovery and the main file otherwise. */
  lemma OtherKindFails(table: Table, args: seq<string>, recovering: string, env: ScriptEnv)
    requires Prepared(env).Ok? && !Runnable(Prepared(env).value.main)
    ensures ScriptAlone(table, args, recovering, env).1
            == Err(env.dir + (if recovering == "true" then env.archive else Prepared(env).value.main)
                   + " : format is wrong!")
  {
  }

  lemma MainOfFirst(names: seq<string>, name: string)
    requires IsFirstMain(names, name)
    ensures MainName(name)
  {
  }

  function RunOf(script: Script, args: seq<string>, env: ScriptEnv): ScriptRun {
    ScriptRun(script.uid, env.dir, Join(args), Runnable(script.main), Generated)
  }

  /** What an uninterrupted execScript call does to the table and returns. */
  function ScriptAlone(table: Table, args: seq<string>, recovering: string, env: ScriptEnv)
    : (Table, Result<string, string>)
  {
    match Prepared(env)
    case Err(message) => (table, Err(message))
    case Ok(script) =>
      var inserted := Insert(table, ScriptModel(RunOf(script, args, env), env.insertTime));
      if !Runnable(script.main) then (inserted, Err(ScriptFile(script, recovering, env) + WRONG_FORMAT))
      else
        match env.commandError
        case Some(message) => (Update(inserted, script.uid, ERROR, message, env.writeTime), Err(message))
        case None => (Update(inserted, script.uid, SUCCESS, "", env.writeTime), Ok(script.uid))
  }

  /** listDir: the first file named main and its extension, two empty strings without one. */
  method ListDir(listing: Option<seq<string>>) returns (filename: string, fileType: string)
    ensures var main := if listing.Some? then FirstMain(listing.value) else None;
            (filename, fileType) == if main.Some? then (main.value, Ext(main.value)) else ("", "")
  {
    if listing.None? {
      return "", "";
    }
    for i := 0 to |listing.value|
      invariant FirstMain(listing.value) == FirstMain(listing.value[i..])
    {
      assert listing.value[i..][1..] == listing.value[i + 1..];
      var name := listing.value[i];
      fileType := Ext(name);
      if name[..|name| - |fileType|] == "main" {
        return name, fileType;
      }
    }
    return "", "";
  }

  /** execScript up to its insert; filePath is what it will run. */
  method PrepareScript(recovering: string, env: ScriptEnv) returns (prepared: Result<Script, string>, filePath: string)
    ensures prepared == Prepared(env)
    ensures prepared.Ok? ==> filePath == ScriptFile(prepared.value, recovering, env)
  {
    filePath := env.dir + env.archive;
    if env.unpackError.Some? {
      return Err(env.unpackError.value), filePath;
    }
    var filename, fileType := ListDir(env.listing);
    if filename == "" || fileType == "" {
      return Err(NO_MAIN_FILE), filePath;
    }
    if recovering == "true" {
      if fileType == BAT {
        filePath := env.dir + "recover.bat";
      }
      if fileType == PS1 {
        filePath := env.dir + "recover.ps1";
      }
    } else {
      filePath := env.dir + filename;
    }
    if env.uid.Err? {
      return Err(env.uid.error), filePath;
    }
    return Ok(Script(env.uid.value, filename)), filePath;
  }

  class Host {
    const store: ExperimentStore
    var procs: seq<Proc>

    ghost predicate Valid()
      reads this, store
    {
      store.Valid()
    }

    ghost function TableOf(): Table
      reads this, store
    {
      Table(store.rows, store.nextId)
    }

    constructor (procs: seq<Proc>)
      ensures Valid() && this.procs == procs && TableOf() == EMPTY_TABLE && fresh(store)
    {
      store := new ExperimentStore();
      this.procs := procs;
    }

    /** ExperimentDestroy: a pid that is no number or a failed kill is an error, a process not found is none. */
    method ExperimentDestroy(pidText: string, env: DestroyEnv) returns (ok: bool)
      modifies this`procs
      ensures var pid := Decimal.ParseInt64(pidText);
              var target := if pid.Some? then FindProcess(old(procs), pid.value, env.opensDead) else None;
              && (ok <==> pid.Some? && (target.Some? ==> env.killWorks))
              && procs == if ok && target.Some? then Killed(old(procs), target.value) else old(procs)
    {
      var pid := Decimal.ParseInt64(pidText);
      if pid.None? {
        return false;
      }
      var handle := FindProcess(procs, pid.value, env.opensDead);
      if handle.Some? {
        if !env.killWorks {
          return false;
        }
        procs := procs[handle.value := procs[handle.value].(alive := false)];
      }
      return true;
    }

    /** removed is the directory that the call asks to remove. */
    method DestroyExperiment(uid: string, env: DestroyEnv) returns (reply: Reply, removed: Option<string>)
      requires Valid()
      modifies this`procs, store
      ensures Valid()
      ensures Outcome(TableOf(), procs, reply) == DestroyAlone(old(TableOf()), old(procs), uid, env)
      ensures var rows := old(store.Contents());
              removed == if uid in rows && rows[uid].status != DESTROYED && rows[uid].cmdType == SCRIPT
                         then Some(rows[uid].subCommand) else None
    {
      removed := None;
      var experimentModel := store.QueryExperimentModelByUid(uid);
      if experimentModel.None? {
        return NilErrorPanic, removed;
      }
      var model := experimentModel.value;
      if model.status == DESTROYED {
        return AlreadyDestroyed, removed;
      }
      if model.cmdType == CPU || model.cmdType == MEM {
        match model.flag {
          case Arguments(_) => return Refused(DESTROYED_EXPERIMENT_NOT_FOUND), removed;
          case Parameters(_, pid) =>
            var ok := ExperimentDestroy(pid, env);
            if !ok {
              return Refused(DESTROYED_EXPERIMENT_ERROR), removed;
            }
        }
      } else if model.cmdType == SCRIPT {
        removed := Some(model.subCommand);
        if !env.cleanWorks {
          return Refused(DESTROYED_EXPERIMENT_ERROR), removed;
        }
      }
      store.UpdateExperimentModelByUid(uid, DESTROYED, "", env.now);
      return Done, removed;
    }

    /** execScript; command is the process it starts, if it gets that far. */
    method ExecScript(args: seq<string>, recovering: string, env: ScriptEnv)
      returns (result: Result<string, string>, command: Option<seq<string>>)
      requires Valid()
      modifies store
      ensures Valid() && (TableOf(), result) == ScriptAlone(old(TableOf()), args, recovering, env)
      ensures var prepared := Prepared(env);
              command == if prepared.Ok? && Runnable(prepared.value.main)
                         then Some(CommandLine(prepared.value, args, recovering, env)) else None
    {
      var prepared, filePath := PrepareScript(recovering, env);
      if prepared.Err? {
        return Err(prepared.error), None;
      }
      var uid, fileType, argsStr := prepared.value.uid, Ext(prepared.value.main), Join(args);
      var commandModel := ExperimentModel(
        uid, "create script execute", SCRIPT, env.dir, Arguments(argsStr), CREATED, "", env.insertTime, env.insertTime);
      var inserted := store.InsertExperimentModel(commandModel);
      if fileType == BAT {
        command := Some(["cmd.exe", "/C", filePath, argsStr]);
      } else if fileType == PS1 {
        command := Some(["powershell.exe", "-ExecutionPolicy", "RemoteSigned", "-File", filePath] + args);
      } else {
        return Err(filePath + WRONG_FORMAT), None;
      }
      if env.commandError.Some? {
        store.UpdateExperimentModelByUid(uid, ERROR, env.commandError.value, env.writeTime);
        return Err(env.commandError.value), command;
      }
      store.UpdateExperimentModelByUid(uid, SUCCESS, "", env.writeTime);
      return Ok(uid), command;
    }
  }

  // Burn children.

  /**
   The timer is armed before the insert and writes Success before it kills its own process: both
   may come before the insert, the write only, or neither. A kill may fail.
   */
  datatype Timer = KilledFirst | WroteFirst(killWorks: bool) | InsertedFirst(killWorks: bool)

  /** The process of a mem child whose timer went off. */
  function Spent(uid: string, percent: int, pid: int, timer: Timer): Proc {
    Burner(pid, !timer.KilledFirst? && !timer.killWorks, uid, Mem, percent, !timer.KilledFirst?)
  }

  /** What MemRun and its timer do to the table, in each order. */
  function MemAlone(table: Table, model: ExperimentModel, timer: Timer, writeTime: string): Table {
    match timer
    case KilledFirst => Update(table, model.uid, SUCCESS, "", writeTime)
    case WroteFirst(_) => Insert(Update(table, model.uid, SUCCESS, "", writeTime), model)
    case InsertedFirst(_) => Update(Insert(table, model), model.uid, SUCCESS, "", writeTime)
  }

  function MemModel(uid: string, percent: int, pid: int, now: string): ExperimentModel {
    BurnerModel(Burner(pid, true, uid, Mem, percent, false), now)
  }

  function CpuModel(uid: string, percent: int, pid: int, now: string): ExperimentModel {
    BurnerModel(Burner(pid, true, uid, Cpu, percent, false), now)
  }

  /** What CpuRun and its workers do to the table; a worker whose context is done writes Success and exits. */
  function CpuAlone(table: Table, model: ExperimentModel, done: Option<string>): Table {
    var inserted := Insert(table, model);
    if done.Some? then Update(inserted, model.uid, SUCCESS, "", done.value) else inserted
  }

  /** One os.exe child running a burn, on the table it shares with the agent. */
  class BurnChild {
    const store: ExperimentStore
    const pid: int
    var alive: bool

    constructor (store: ExperimentStore, pid: int)
      ensures this.store == store && this.pid == pid && alive
    {
      this.store, this.pid, alive := store, pid, true;
    }

    /** CpuRun with its workers; done is when one of them finds its context done. */
    method CpuRun(cpuPercent: int, uid: string, insertTime: string, done: Option<string>)
      requires store.Valid() && alive
      modifies this`alive, store
      ensures store.Valid() && alive == done.None?
      ensures Table(store.rows, store.nextId)
              == CpuAlone(old(Table(store.rows, store.nextId)), CpuModel(uid, cpuPercent, pid, insertTime), done)
    {
      var pidStr := Decimal.FormatInt(pid);
      var commandModel := ExperimentModel(
        uid, "create cpu fullload", CPU, "", Parameters(cpuPercent, pidStr), CREATED, "", insertTime, insertTime);
      var inserted := store.InsertExperimentModel(commandModel);
      if done.Some? {
        store.UpdateExperimentModelByUid(uid, SUCCESS, "", done.value);
        alive := false;
      }
    }

    /**
     MemRun with its timer function, which finds its own process; held is the buffer after the given
     readings, if the fill loop was entered.
     */
    method MemRun(memPercent: int, uid: string, timer: Timer, readings: seq<MemBurn.Reading>,
                  insertTime: string, writeTime: string)
      returns (held: Option<MemBurn.Cache>)
      requires store.Valid() && alive
      modifies this`alive, store
      ensures store.Valid() && alive == Spent(uid, memPercent, pid, timer).alive
      ensures Table(store.rows, store.nextId)
              == MemAlone(old(Table(store.rows, store.nextId)), MemModel(uid, memPercent, pid, insertTime),
                          timer, writeTime)
      ensures held == if timer.KilledFirst? then None
                      else Some(MemBurn.Burn(MemBurn.Wants(readings, memPercent, 0), MemBurn.DEFAULT_RATE))
    {
      var pidStr := Decimal.FormatInt(pid);
      if !timer.InsertedFirst? {
        store.UpdateExperimentModelByUid(uid, SUCCESS, "", writeTime);
      }
      if timer.KilledFirst? {
        alive := false;
        return None;
      }
      var commandModel := ExperimentModel(
        uid, "create mem load", MEM, "", Parameters(memPercent, pidStr), CREATED, "", insertTime, insertTime);
      var inserted := store.InsertExperimentModel(commandModel);
      var memReserve, memRate := 0, 0;
      var cache, count := MemBurn.Starts(memPercent, memReserve, memRate, readings);
      if timer.InsertedFirst? {
        store.UpdateExperimentModelByUid(uid, SUCCESS, "", writeTime);
      }
      if timer.killWorks {
        alive := false;
      }
      return Some(MemBurn.Cache(cache, count));
    }
  }
}
