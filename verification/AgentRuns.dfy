/** Each sequential body of the agent is a run of the lifecycle machine, and what it means for its caller. */
module AgentRuns {
  import opened Agent
  import opened ExperimentTable
  import opened Lifecycle
  import opened Names
  import opened Options
  import Decimal
  import LifecycleWitnesses

  ghost predicate Leads(s: State, t: State) {
    exists run :: CanRun(s, run) && Final(s, run) == t
  }

  lemma LeadsStep(s: State, t: State, a: Action)
    requires Leads(s, t) && Enabled(t, a)
    ensures Leads(s, Apply(t, a))
  {
    var run :| CanRun(s, run) && Final(s, run) == t;
    LifecycleWitnesses.RunSnoc(s, run, a);
  }

  lemma LeadsNowhere(s: State)
    ensures Leads(s, s)
  {
    assert CanRun(s, []) && Final(s, []) == s;
  }

  // Destroy requests.

  lemma QueriedRun(s: State, uid: string) returns (t: State)
    ensures t == s.(destroys := s.destroys + [Destroy(uid, AfterQuery(Rows(s), uid))]) && Leads(s, t)
  {
    LeadsNowhere(s);
    t := Apply(s, AskDestroy(uid));
    LeadsStep(s, s, AskDestroy(uid));
    LeadsStep(s, t, DestroyQuery(|s.destroys|));
    t := Apply(t, DestroyQuery(|s.destroys|));
  }

  lemma WrittenRun(s: State, t: State, now: string) returns (u: State)
    requires t.destroys != [] && t.destroys[|t.destroys| - 1].pc == Writing && Leads(s, t)
    ensures var d := |t.destroys| - 1; var uid := t.destroys[d].uid;
            u == t.(table := Update(t.table, uid, DESTROYED, "", now),
                    destroys := t.destroys[..d] + [Destroy(uid, Answered(Done))])
    ensures Leads(s, u)
  {
    var d := |t.destroys| - 1;
    LeadsStep(s, t, WriteDestroyed(d, now));
    u := Apply(t, WriteDestroyed(d, now));
  }

  lemma MissedRun(s: State, t: State) returns (u: State)
    requires t.destroys != [] && t.destroys[|t.destroys| - 1].pc.Finding? && Leads(s, t)
    requires forall i | 0 <= i < |t.procs| ::
               t.procs[i].alive ==> t.procs[i].pid != t.destroys[|t.destroys| - 1].pc.pid
    ensures var d := |t.destroys| - 1;
            u == t.(destroys := t.destroys[..d] + [Destroy(t.destroys[d].uid, Writing)])
    ensures Leads(s, u)
  {
    var d := |t.destroys| - 1;
    LeadsStep(s, t, FindMiss(d));
    u := Apply(t, FindMiss(d));
  }

  lemma HitRun(s: State, t: State, target: nat) returns (u: State)
    requires t.destroys != [] && t.destroys[|t.destroys| - 1].pc.Finding? && Leads(s, t)
    requires MayFind(t, t.destroys[|t.destroys| - 1].pc.pid, target)
    ensures var d := |t.destroys| - 1;
            u == t.(destroys := t.destroys[..d] + [Destroy(t.destroys[d].uid, Killing(target))])
    ensures Leads(s, u)
  {
    var d := |t.destroys| - 1;
    LeadsStep(s, t, FindHit(d, target));
    u := Apply(t, FindHit(d, target));
  }

  lemma KilledRun(s: State, t: State, target: nat) returns (u: State)
    requires t.destroys != [] && t.destroys[|t.destroys| - 1].pc == Killing(target) && Leads(s, t)
    requires target < |t.procs|
    ensures var d := |t.destroys| - 1;
            u == t.(procs := Killed(t.procs, target),
                    destroys := t.destroys[..d] + [Destroy(t.destroys[d].uid, Writing)])
    ensures Leads(s, u)
  {
    var d := |t.destroys| - 1;
    LeadsStep(s, t, KillOk(d));
    u := Apply(t, KillOk(d));
  }

  /** A kill or a clean-up that fails. */
  lemma RefusedRun(s: State, t: State) returns (u: State)
    requires t.destroys != [] && Leads(s, t)
    requires t.destroys[|t.destroys| - 1].pc.Killing? || t.destroys[|t.destroys| - 1].pc.Cleaning?
    ensures var d := |t.destroys| - 1;
            u == t.(destroys := t.destroys[..d]
                                + [Destroy(t.destroys[d].uid, Answered(Refused(DESTROYED_EXPERIMENT_ERROR)))])
    ensures Leads(s, u)
  {
    var d := |t.destroys| - 1;
    var fails := if t.destroys[d].pc.Killing? then KillFails(d) else CleanFails(d);
    LeadsStep(s, t, fails);
    u := Apply(t, fails);
  }

  lemma CleanedRun(s: State, t: State) returns (u: State)
    requires t.destroys != [] && t.destroys[|t.destroys| - 1].pc.Cleaning? && Leads(s, t)
    ensures var d := |t.destroys| - 1;
            u == t.(destroys := t.destroys[..d] + [Destroy(t.destroys[d].uid, Writing)])
    ensures Leads(s, u)
  {
    var d := |t.destroys| - 1;
    LeadsStep(s, t, CleanOk(d));
    u := Apply(t, CleanOk(d));
  }

  /** The sequential destroy call is a run of the machine that ends with its request answered alike. */
  lemma DestroyAloneIsRun(s: State, uid: string, env: DestroyEnv)
    ensures var o := DestroyAlone(s.table, s.procs, uid, env);
            Leads(s, s.(table := o.table, procs := o.procs, destroys := s.destroys + [Destroy(uid, Answered(o.reply))]))
  {
    var t := QueriedRun(s, uid);
    var pc := AfterQuery(Rows(s), uid);
    if pc.Finding? {
      var target := FindProcess(s.procs, pc.pid, env.opensDead);
      if target.None? {
        t := MissedRun(s, t);
        t := WrittenRun(s, t, env.now);
      } else {
        t := HitRun(s, t, target.value);
        if env.killWorks {
          t := KilledRun(s, t, target.value);
          t := WrittenRun(s, t, env.now);
        } else {
          t := RefusedRun(s, t);
        }
      }
    } else if pc.Cleaning? {
      if env.cleanWorks {
        t := CleanedRun(s, t);
        t := WrittenRun(s, t, env.now);
      } else {
        t := RefusedRun(s, t);
      }
    } else if pc.Writing? {
      t := WrittenRun(s, t, env.now);
    }
    var o := DestroyAlone(s.table, s.procs, uid, env);
    assert t == s.(table := o.table, procs := o.procs, destroys := s.destroys + [Destroy(uid, Answered(o.reply))]);
  }

  predicate IsBurn(row: Row) {
    row.cmdType == CPU || row.cmdType == MEM
  }

  /** The process that a destroy of the row acts on: its pid text is a number, and a process is found under it. */
  function TargetOf(row: Row, procs: seq<Proc>, opensDead: bool): (target: Option<nat>)
    ensures target.Some? ==>
              && target.value < |procs| && row.flag.Parameters?
              && Decimal.ParseInt64(row.flag.pid) == Some(procs[target.value].pid)
  {
    if row.flag.Arguments? then None
    else
      match Decimal.ParseInt64(row.flag.pid)
      case None => None
      case Some(pid) => FindProcess(procs, pid, opensDead)
  }

  /** Whether what stands between a standing row and its Destroyed succeeds. */
  predicate Destroyable(row: Row, procs: seq<Proc>, env: DestroyEnv) {
    if IsBurn(row) then
      && row.flag.Parameters? && Decimal.ParseInt64(row.flag.pid).Some?
      && (TargetOf(row, procs, env.opensDead).Some? ==> env.killWorks)
    else row.cmdType == SCRIPT ==> env.cleanWorks
  }

  /** Which reply an uninterrupted destroy call gives: the five cases, each exactly when. */
  lemma DestroyAloneReply(table: Table, procs: seq<Proc>, uid: string, env: DestroyEnv)
    ensures var rows, reply := View(table.rows), DestroyAlone(table, procs, uid, env).reply;
            var standing := uid in rows && rows[uid].status != DESTROYED;
            && (reply == NilErrorPanic <==> uid !in rows)
            && (reply == AlreadyDestroyed <==> uid in rows && rows[uid].status == DESTROYED)
            && (reply == Done <==> standing && Destroyable(rows[uid], procs, env))
            && (reply == Refused(DESTROYED_EXPERIMENT_NOT_FOUND)
                <==> standing && IsBurn(rows[uid]) && rows[uid].flag.Arguments?)
            && (reply == Refused(DESTROYED_EXPERIMENT_ERROR)
                <==> && standing && !Destroyable(rows[uid], procs, env)
                     && !(IsBurn(rows[uid]) && rows[uid].flag.Arguments?))
  {
  }

  lemma RefusalChangesNothing(table: Table, procs: seq<Proc>, uid: string, env: DestroyEnv)
    ensures var o := DestroyAlone(table, procs, uid, env); o.reply != Done ==> o.table == table && o.procs == procs
  {
  }

  lemma DoneWrites(table: Table, procs: seq<Proc>, uid: string, env: DestroyEnv)
    requires DestroyAlone(table, procs, uid, env).reply == Done
    ensures uid in View(table.rows)
    ensures DestroyAlone(table, procs, uid, env).table == Update(table, uid, DESTROYED, "", env.now)
  {
  }

  lemma DoneKills(table: Table, procs: seq<Proc>, uid: string, env: DestroyEnv)
    requires uid in View(table.rows) && DestroyAlone(table, procs, uid, env).reply == Done
    ensures var row := View(table.rows)[uid];
            DestroyAlone(table, procs, uid, env).procs
            == if IsBurn(row) && TargetOf(row, procs, env.opensDead).Some?
               then Killed(procs, TargetOf(row, procs, env.opensDead).value) else procs
  {
  }

  lemma DestroyedRow(table: Table, uid: string, now: string)
    requires table.Valid() && uid in View(table.rows)
    ensures var rows := View(table.rows); var r := rows[uid];
            View(Update(table, uid, DESTROYED, "", now).rows)
            == rows[uid := Row(r.id, uid, r.command, r.cmdType, r.subCommand, r.flag,
                               "Destroyed", "", r.createTime, now)]
  {
    UpdateRefines(table, uid, DESTROYED, "", now);
    var i := ViewKey(table.rows, uid);
  }

  /** What an uninterrupted destroy call means for its caller. */
  lemma DestroyAloneOutcome(table: Table, procs: seq<Proc>, uid: string, env: DestroyEnv)
    requires table.Valid()
    ensures var rows, o := View(table.rows), DestroyAlone(table, procs, uid, env);
            && (o.reply == Done <==> uid in rows && rows[uid].status != DESTROYED && Destroyable(rows[uid], procs, env))
            && (o.reply == NilErrorPanic <==> uid !in rows)
            && (o.reply == AlreadyDestroyed <==> uid in rows && rows[uid].status == DESTROYED)
            && (o.reply == Refused(DESTROYED_EXPERIMENT_NOT_FOUND)
                <==> uid in rows && rows[uid].status != DESTROYED && IsBurn(rows[uid]) && rows[uid].flag.Arguments?)
            && (o.reply != Done ==> o.table == table)
            && (o.reply == Done ==>
                  var r := rows[uid];
                  View(o.table.rows) == rows[uid := Row(r.id, uid, r.command, r.cmdType, r.subCommand, r.flag,
                                                        "Destroyed", "", r.createTime, env.now)])
            && o.procs == if o.reply == Done && IsBurn(rows[uid]) && TargetOf(rows[uid], procs, env.opensDead).Some?
                          then Killed(procs, TargetOf(rows[uid], procs, env.opensDead).value) else procs
  {
    DestroyAloneReply(table, procs, uid, env);
    if DestroyAlone(table, procs, uid, env).reply == Done {
      DoneWrites(table, procs, uid, env);
      DoneKills(table, procs, uid, env);
      DestroyedRow(table, uid, env.now);
    } else {
      RefusalChangesNothing(table, procs, uid, env);
    }
  }

  // Scripts.

  lemma ScriptInsertedRun(s: State, r: ScriptRun, now: string) returns (t: State)
    requires r.uid !in s.owner && r.pc == Generated
    ensures t == s.(table := Insert(s.table, ScriptModel(r, now)), scripts := s.scripts + [r.(pc := Inserted)],
                    owner := s.owner[r.uid := ByScript(|s.scripts|)])
    ensures Leads(s, t)
  {
    LeadsNowhere(s);
    LeadsStep(s, s, StartScript(r.uid, r.dir, r.args, r.runnable));
    t := Apply(s, StartScript(r.uid, r.dir, r.args, r.runnable));
    assert t.scripts == s.scripts + [r];
    LeadsStep(s, t, ScriptInsert(|s.scripts|, now));
    t := Apply(t, ScriptInsert(|s.scripts|, now));
  }

  lemma ScriptEndedRun(s: State, t: State, error: Option<string>, now: string) returns (u: State)
    requires t.scripts != [] && t.scripts[|t.scripts| - 1].pc == Inserted && Leads(s, t)
    ensures var k := |t.scripts| - 1; var r := t.scripts[k];
            u == t.(table := if !r.runnable then t.table
                             else if error.Some? then Update(t.table, r.uid, ERROR, error.value, now)
                             else Update(t.table, r.uid, SUCCESS, "", now),
                    scripts := t.scripts[..k] + [r.(pc := Returned)])
    ensures Leads(s, u)
  {
    var k := |t.scripts| - 1;
    var last := if !t.scripts[k].runnable then ScriptReject(k)
                else if error.Some? then ScriptFail(k, error.value, now)
                else ScriptSucceed(k, now);
    LeadsStep(s, t, last);
    u := Apply(t, last);
  }

  /** The sequential execScript call, once it has a uid, is a run of the machine. */
  lemma ScriptAloneIsRun(s: State, args: seq<string>, recovering: string, env: ScriptEnv)
    requires Prepared(env).Ok? && Prepared(env).value.uid !in s.owner
    ensures var script := Prepared(env).value;
            Leads(s, s.(table := ScriptAlone(s.table, args, recovering, env).0,
                        scripts := s.scripts + [RunOf(script, args, env).(pc := Returned)],
                        owner := s.owner[script.uid := ByScript(|s.scripts|)]))
  {
    var script := Prepared(env).value;
    var r := RunOf(script, args, env);
    var t := ScriptInsertedRun(s, r, env.insertTime);
    t := ScriptEndedRun(s, t, env.commandError, env.writeTime);
    assert t.scripts == s.scripts + [r.(pc := Returned)];
    assert t.table == ScriptAlone(s.table, args, recovering, env).0;
  }

  /** The row of a script after its call, with its verdict. */
  function ScriptRow(id: nat, script: Script, args: seq<string>, env: ScriptEnv,
                     status: string, error: string, time: string)
    : Row
  {
    Row(id, script.uid, "create script execute", "script", env.dir, Arguments(Join(args)),
        status, error, env.insertTime, time)
  }

  /**
   A uid is returned exactly for a .bat or .ps1 whose command succeeds. Only a call that got a uid adds
   a row, which shows Success, or Error with the returned text, or Created for any other kind of file.
   */
  lemma ScriptAloneOutcome(table: Table, args: seq<string>, recovering: string, env: ScriptEnv)
    requires table.Valid() && (Prepared(env).Ok? ==> Prepared(env).value.uid !in View(table.rows))
    ensures var (after, result) := ScriptAlone(table, args, recovering, env);
            match Prepared(env)
            case Err(message) => after == table && result == Err(message)
            case Ok(script) =>
              var (rows, now, id) := (View(table.rows), env.writeTime, table.nextId);
              if !Runnable(script.main) then
                && result.Err?
                && View(after.rows)
                   == rows[script.uid := ScriptRow(id, script, args, env, "Created", "", env.insertTime)]
              else
                match env.commandError
                case Some(message) =>
                  && result == Err(message)
                  && View(after.rows) == rows[script.uid := ScriptRow(id, script, args, env, "Error", message, now)]
                case None =>
                  && result == Ok(script.uid)
                  && View(after.rows) == rows[script.uid := ScriptRow(id, script, args, env, "Success", "", now)]
  {
    if Prepared(env).Ok? {
      var script := Prepared(env).value;
      var model := ScriptModel(RunOf(script, args, env), env.insertTime);
      if !Runnable(script.main) {
        InsertRefines(table, model);
      } else if env.commandError.Some? {
        InsertThenUpdate(table, model, ERROR, env.commandError.value, env.writeTime);
      } else {
        InsertThenUpdate(table, model, SUCCESS, "", env.writeTime);
      }
    }
  }

  // Burn children.

  lemma SpawnedRun(s: State, uid: string, kind: BurnKind, percent: int, pid: int) returns (t: State)
    requires uid !in s.owner && PidFree(s, pid)
    ensures t == s.(procs := s.procs + [Burner(pid, true, uid, kind, percent, false)],
                    owner := s.owner[uid := ByProc(|s.procs|)])
    ensures Leads(s, t)
  {
    LeadsNowhere(s);
    LeadsStep(s, s, SpawnBurner(uid, kind, percent, pid));
    t := Apply(s, SpawnBurner(uid, kind, percent, pid));
  }

  ghost predicate LastBurns(t: State) {
    t.procs != [] && t.procs[|t.procs| - 1].Burner? && t.procs[|t.procs| - 1].alive
  }

  lemma SuccessRun(s: State, t: State, now: string) returns (u: State)
    requires LastBurns(t) && Leads(s, t)
    requires t.procs[|t.procs| - 1].inserted || t.procs[|t.procs| - 1].kind.Mem?
    ensures u == t.(table := Update(t.table, t.procs[|t.procs| - 1].uid, SUCCESS, "", now)) && Leads(s, u)
  {
    LeadsStep(s, t, BurnerSuccess(|t.procs| - 1, now));
    u := Apply(t, BurnerSuccess(|t.procs| - 1, now));
  }

  lemma InsertedRun(s: State, t: State, now: string) returns (u: State)
    requires LastBurns(t) && !t.procs[|t.procs| - 1].inserted && Leads(s, t)
    ensures var p := |t.procs| - 1; var b := t.procs[p];
            u == t.(table := Insert(t.table, BurnerModel(b, now)), procs := t.procs[..p] + [b.(inserted := true)])
    ensures Leads(s, u)
  {
    LeadsStep(s, t, BurnerInsert(|t.procs| - 1, now));
    u := Apply(t, BurnerInsert(|t.procs| - 1, now));
  }

  lemma DiedRun(s: State, t: State) returns (u: State)
    requires t.procs != [] && t.procs[|t.procs| - 1].alive && Leads(s, t)
    ensures var p := |t.procs| - 1; u == t.(procs := t.procs[..p] + [t.procs[p].(alive := false)])
    ensures Leads(s, u)
  {
    LeadsStep(s, t, Die(|t.procs| - 1));
    u := Apply(t, Die(|t.procs| - 1));
  }

  /** A mem child with its timer, in each of their orders, is a run of the machine from its spawn on. */
  lemma MemAloneIsRun(s: State, uid: string, percent: int, pid: int, timer: Timer,
                      insertTime: string, writeTime: string)
    requires uid !in s.owner && PidFree(s, pid)
    ensures Leads(s, s.(table := MemAlone(s.table, MemModel(uid, percent, pid, insertTime), timer, writeTime),
                        procs := s.procs + [Spent(uid, percent, pid, timer)],
                        owner := s.owner[uid := ByProc(|s.procs|)]))
  {
    var t := SpawnedRun(s, uid, Mem, percent, pid);
    if !timer.InsertedFirst? {
      t := SuccessRun(s, t, writeTime);
    }
    if !timer.KilledFirst? {
      t := InsertedRun(s, t, insertTime);
    }
    if timer.InsertedFirst? {
      t := SuccessRun(s, t, writeTime);
    }
    if timer.KilledFirst? || timer.killWorks {
      t := DiedRun(s, t);
    }
    assert t.procs == s.procs + [Spent(uid, percent, pid, timer)];
  }

  /** A cpu child is a run of the machine from its spawn on, whether or not a worker finds its context done. */
  lemma CpuAloneIsRun(s: State, uid: string, percent: int, pid: int, insertTime: string, done: Option<string>)
    requires uid !in s.owner && PidFree(s, pid)
    ensures Leads(s, s.(table := CpuAlone(s.table, CpuModel(uid, percent, pid, insertTime), done),
                        procs := s.procs + [Burner(pid, done.None?, uid, Cpu, percent, true)],
                        owner := s.owner[uid := ByProc(|s.procs|)]))
  {
    var t := SpawnedRun(s, uid, Cpu, percent, pid);
    t := InsertedRun(s, t, insertTime);
    if done.Some? {
      t := SuccessRun(s, t, done.value);
      t := DiedRun(s, t);
    }
    assert t.procs == s.procs + [Burner(pid, done.None?, uid, Cpu, percent, true)];
  }

  /** What a cpu child leaves in the table: its own percentage and pid, Created, or Success once a worker is done. */
  lemma CpuAloneOutcome(table: Table, uid: string, percent: int, pid: int, insertTime: string, done: Option<string>)
    requires table.Valid() && uid !in View(table.rows)
    ensures View(CpuAlone(table, CpuModel(uid, percent, pid, insertTime), done).rows)
            == View(table.rows)[uid := Row(table.nextId, uid, "create cpu fullload", "cpu", "",
                                           Parameters(percent, Decimal.FormatInt(pid)),
                                           if done.Some? then "Success" else "Created", "", insertTime,
                                           if done.Some? then done.value else insertTime)]
  {
    var model := CpuModel(uid, percent, pid, insertTime);
    if done.Some? {
      InsertThenUpdate(table, model, SUCCESS, "", done.value);
    } else {
      InsertRefines(table, model);
    }
  }

  /** What a mem child leaves: Success exactly when the timer writes after the insert; a write before it is lost. */
  lemma MemAloneOutcome(table: Table, uid: string, percent: int, pid: int, timer: Timer,
                        insertTime: string, writeTime: string)
    requires table.Valid() && uid !in View(table.rows)
    ensures var (rows, flag) := (View(table.rows), Parameters(percent, Decimal.FormatInt(pid)));
            View(MemAlone(table, MemModel(uid, percent, pid, insertTime), timer, writeTime).rows)
            == match timer
               case KilledFirst => rows
               case WroteFirst(_) =>
                 rows[uid := Row(table.nextId, uid, "create mem load", "mem", "", flag,
                                 "Created", "", insertTime, insertTime)]
               case InsertedFirst(_) =>
                 rows[uid := Row(table.nextId, uid, "create mem load", "mem", "", flag,
                                 "Success", "", insertTime, writeTime)]
  {
    var model := MemModel(uid, percent, pid, insertTime);
    match timer
    case KilledFirst => UpdateRefines(table, uid, SUCCESS, "", writeTime);
    case WroteFirst(_) => UpdateThenInsert(table, model, SUCCESS, "", writeTime);
    case InsertedFirst(_) => InsertThenUpdate(table, model, SUCCESS, "", writeTime);
  }
}
