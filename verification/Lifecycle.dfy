/**
 The experiment lifecycle as a state machine: the agent's script runs and destroy requests, the
 os.exe child processes, and the one experiment table they all read and write. Every SQL
 statement, process lookup and kill is one atomic step; steps of different actors interleave freely.
 */
module Lifecycle {
  import opened ExperimentTable
  import opened Names
  import opened Options
  import Decimal

  datatype BurnKind = Cpu | Mem

  /** A process instance. Indices in State.procs are never reused; pids are, once their holder is dead. */
  datatype Proc =
    | Burner(pid: int, alive: bool, uid: string, kind: BurnKind, percent: int, inserted: bool)
    | Foreign(pid: int, alive: bool)

  datatype ScriptPc = Generated | Inserted | Returned

  /** One execScript call; runnable means the main file is a .bat or .ps1. */
  datatype ScriptRun = ScriptRun(uid: string, dir: string, args: string, runnable: bool, pc: ScriptPc)

  /** The codes of transport/response.go that a destroy call can fail with. */
  const DESTROYED_EXPERIMENT_NOT_FOUND := 605
  const DESTROYED_EXPERIMENT_ERROR := 606

  datatype Reply = NilErrorPanic | AlreadyDestroyed | Refused(code: int) | Done

  datatype DestroyPc =
    | Asked
    | Finding(pid: int)
    | Killing(target: nat)
    | Cleaning(dir: string)
    | Writing
    | Answered(reply: Reply)

  /** One DestroyExperiment call. */
  datatype Destroy = Destroy(uid: string, pc: DestroyPc)

  datatype Owner = ByProc(p: nat) | ByScript(k: nat)

  /** owner is a history variable: who was launched under each generated uid. */
  datatype State = State(
    table: Table, procs: seq<Proc>, scripts: seq<ScriptRun>, destroys: seq<Destroy>, owner: map<string, Owner>)

  datatype Action =
    | SpawnBurner(uid: string, kind: BurnKind, percent: int, pid: int)
    | SpawnForeign(pid: int)
    | BurnerInsert(p: nat, now: string)
    | BurnerSuccess(p: nat, now: string)
    | Die(p: nat)
    | StartScript(uid: string, dir: string, args: string, runnable: bool)
    | ScriptInsert(k: nat, now: string)
    | ScriptReject(k: nat)
    | ScriptFail(k: nat, message: string, now: string)
    | ScriptSucceed(k: nat, now: string)
    | AskDestroy(uid: string)
    | DestroyQuery(d: nat)
    | FindHit(d: nat, target: nat)
    | FindMiss(d: nat)
    | KillOk(d: nat)
    | KillFails(d: nat)
    | CleanOk(d: nat)
    | CleanFails(d: nat)
    | WriteDestroyed(d: nat, now: string)

  const INIT := State(EMPTY_TABLE, [], [], [], map[])

  function Rows(s: State): map<string, Row> {
    View(s.table.rows)
  }

  function KindName(kind: BurnKind): string {
    match kind case Cpu => CPU case Mem => MEM
  }

  /** The row that CpuRun and MemRun insert. */
  function BurnerModel(b: Proc, now: string): ExperimentModel
    requires b.Burner?
  {
    ExperimentModel(
      b.uid, if b.kind.Cpu? then "create cpu fullload" else "create mem load", KindName(b.kind), "",
      Parameters(b.percent, Decimal.FormatInt(b.pid)), CREATED, "", now, now)
  }

  /** The row that execScript inserts. */
  function ScriptModel(r: ScriptRun, now: string): ExperimentModel {
    ExperimentModel(r.uid, "create script execute", SCRIPT, r.dir, Arguments(r.args), CREATED, "", now, now)
  }

  predicate PidFree(s: State, pid: int) {
    0 <= pid <= 0xFFFF_FFFF && forall i | 0 <= i < |s.procs| :: s.procs[i].alive ==> s.procs[i].pid != pid
  }

  predicate BurnerAt(s: State, p: nat) {
    p < |s.procs| && s.procs[p].Burner? && s.procs[p].alive
  }

  predicate ScriptAt(s: State, k: nat, pc: ScriptPc) {
    k < |s.scripts| && s.scripts[k].pc == pc
  }

  /** os.FindProcess finds the live holder of a pid; without one it fails or opens a dead former holder. */
  predicate MayFind(s: State, pid: int, target: nat) {
    && target < |s.procs|
    && s.procs[target].pid == pid
    && (s.procs[target].alive || forall i | 0 <= i < |s.procs| :: s.procs[i].alive ==> s.procs[i].pid != pid)
  }

  predicate Enabled(s: State, a: Action) {
    match a
    case SpawnBurner(uid, _, _, pid) => uid !in s.owner && PidFree(s, pid)
    case SpawnForeign(pid) => PidFree(s, pid)
    case BurnerInsert(p, _) => BurnerAt(s, p) && !s.procs[p].inserted
    // The CPU workers start after the insert; the memory timer is armed before it.
    case BurnerSuccess(p, _) => BurnerAt(s, p) && (s.procs[p].inserted || s.procs[p].kind.Mem?)
    case Die(p) => p < |s.procs| && s.procs[p].alive
    case StartScript(uid, _, _, _) => uid !in s.owner
    case ScriptInsert(k, _) => ScriptAt(s, k, Generated)
    case ScriptReject(k) => ScriptAt(s, k, Inserted) && !s.scripts[k].runnable
    case ScriptFail(k, _, _) => ScriptAt(s, k, Inserted) && s.scripts[k].runnable
    case ScriptSucceed(k, _) => ScriptAt(s, k, Inserted) && s.scripts[k].runnable
    case AskDestroy(_) => true
    case DestroyQuery(d) => d < |s.destroys| && s.destroys[d].pc.Asked?
    case FindHit(d, target) => d < |s.destroys| && s.destroys[d].pc.Finding? && MayFind(s, s.destroys[d].pc.pid, target)
    case FindMiss(d) =>
      && d < |s.destroys| && s.destroys[d].pc.Finding?
      && forall i | 0 <= i < |s.procs| :: s.procs[i].alive ==> s.procs[i].pid != s.destroys[d].pc.pid
    case KillOk(d) => d < |s.destroys| && s.destroys[d].pc.Killing? && s.destroys[d].pc.target < |s.procs|
    case KillFails(d) => d < |s.destroys| && s.destroys[d].pc.Killing?
    case CleanOk(d) => d < |s.destroys| && s.destroys[d].pc.Cleaning?
    case CleanFails(d) => d < |s.destroys| && s.destroys[d].pc.Cleaning?
    case WriteDestroyed(d, _) => d < |s.destroys| && s.destroys[d].pc.Writing?
  }

  /** Where DestroyExperiment goes after its query. */
  function AfterQuery(rows: map<string, Row>, uid: string): DestroyPc {
    if uid !in rows then Answered(NilErrorPanic)
    else
      var row := rows[uid];
      if row.status == DESTROYED then Answered(AlreadyDestroyed)
      else if row.cmdType == CPU || row.cmdType == MEM then
        if row.flag.Arguments? then Answered(Refused(DESTROYED_EXPERIMENT_NOT_FOUND))
        else
          match Decimal.ParseInt64(row.flag.pid)
          case None => Answered(Refused(DESTROYED_EXPERIMENT_ERROR))
          case Some(pid) => Finding(pid)
      else if row.cmdType == SCRIPT then Cleaning(row.subCommand)
      else Writing
  }

  function SetProc(s: State, p: nat, proc: Proc): State
    requires p < |s.procs|
  {
    s.(procs := s.procs[p := proc])
  }

  function SetScript(s: State, k: nat, pc: ScriptPc): State
    requires k < |s.scripts|
  {
    s.(scripts := s.scripts[k := s.scripts[k].(pc := pc)])
  }

  function SetDestroy(s: State, d: nat, pc: DestroyPc): State
    requires d < |s.destroys|
  {
    s.(destroys := s.destroys[d := s.destroys[d].(pc := pc)])
  }

  function Apply(s: State, a: Action): State
    requires Enabled(s, a)
  {
    match a
    case SpawnBurner(uid, kind, percent, pid) =>
      s.(procs := s.procs + [Burner(pid, true, uid, kind, percent, false)], owner := s.owner[uid := ByProc(|s.procs|)])
    case SpawnForeign(pid) => s.(procs := s.procs + [Foreign(pid, true)])
    case BurnerInsert(p, now) =>
      SetProc(s, p, s.procs[p].(inserted := true)).(table := Insert(s.table, BurnerModel(s.procs[p], now)))
    case BurnerSuccess(p, now) => s.(table := Update(s.table, s.procs[p].uid, SUCCESS, "", now))
    case Die(p) => SetProc(s, p, s.procs[p].(alive := false))
    case StartScript(uid, dir, args, runnable) =>
      s.(scripts := s.scripts + [ScriptRun(uid, dir, args, runnable, Generated)],
         owner := s.owner[uid := ByScript(|s.scripts|)])
    case ScriptInsert(k, now) =>
      SetScript(s, k, Inserted).(table := Insert(s.table, ScriptModel(s.scripts[k], now)))
    case ScriptReject(k) => SetScript(s, k, Returned)
    case ScriptFail(k, message, now) =>
      SetScript(s, k, Returned).(table := Update(s.table, s.scripts[k].uid, ERROR, message, now))
    case ScriptSucceed(k, now) =>
      SetScript(s, k, Returned).(table := Update(s.table, s.scripts[k].uid, SUCCESS, "", now))
    case AskDestroy(uid) => s.(destroys := s.destroys + [Destroy(uid, Asked)])
    case DestroyQuery(d) => SetDestroy(s, d, AfterQuery(Rows(s), s.destroys[d].uid))
    case FindHit(d, target) => SetDestroy(s, d, Killing(target))
    case FindMiss(d) => SetDestroy(s, d, Writing)
    case KillOk(d) =>
      var target := s.destroys[d].pc.target;
      SetProc(SetDestroy(s, d, Writing), target, s.procs[target].(alive := false))
    case KillFails(d) => SetDestroy(s, d, Answered(Refused(DESTROYED_EXPERIMENT_ERROR)))
    case CleanOk(d) => SetDestroy(s, d, Writing)
    case CleanFails(d) => SetDestroy(s, d, Answered(Refused(DESTROYED_EXPERIMENT_ERROR)))
    case WriteDestroyed(d, now) =>
      SetDestroy(s, d, Answered(Done)).(table := Update(s.table, s.destroys[d].uid, DESTROYED, "", now))
  }

  /** A run is a list of actions, each enabled where it is taken. */
  predicate CanRun(s: State, run: seq<Action>)
    decreases run
  {
    run == [] || (Enabled(s, run[0]) && CanRun(Apply(s, run[0]), run[1..]))
  }

  function Final(s: State, run: seq<Action>): State
    requires CanRun(s, run)
    decreases run
  {
    if run == [] then s else Final(Apply(s, run[0]), run[1..])
  }

  ghost predicate Reachable(s: State) {
    exists run :: CanRun(INIT, run) && Final(INIT, run) == s
  }
}
