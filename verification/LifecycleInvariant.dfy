/** What every step of the lifecycle keeps. */
module LifecycleInvariant {
  import opened ExperimentTable
  import opened Lifecycle
  import opened Names
  import Decimal

  ghost predicate KnownStatus(status: string) {
    status == CREATED || status == SUCCESS || status == ERROR || status == DESTROYED
  }

  /** Live processes have pairwise different pids. */
  ghost predicate PidsDistinct(procs: seq<Proc>) {
    forall i, j | 0 <= i < j < |procs| :: procs[i].alive && procs[j].alive ==> procs[i].pid != procs[j].pid
  }

  /** owner and the launched burners and scripts determine each other. */
  ghost predicate OwnersMatch(s: State) {
    && (forall p: nat | p < |s.procs| && s.procs[p].Burner? ::
          s.procs[p].uid in s.owner && s.owner[s.procs[p].uid] == ByProc(p) && Decimal.IsInt64(s.procs[p].pid))
    && (forall k: nat | k < |s.scripts| ::
          s.scripts[k].uid in s.owner && s.owner[s.scripts[k].uid] == ByScript(k))
    && (forall uid | uid in s.owner :: OwnerExists(s, uid))
  }

  ghost predicate OwnerExists(s: State, uid: string)
    requires uid in s.owner
  {
    match s.owner[uid]
    case ByProc(p) => p < |s.procs| && s.procs[p].Burner? && s.procs[p].uid == uid
    case ByScript(k) => k < |s.scripts| && s.scripts[k].uid == uid
  }

  /** Everything but status, error and update time is as it was inserted. */
  ghost predicate SameInserted(row: Row, model: ExperimentModel) {
    && row.uid == model.uid && row.command == model.command && row.cmdType == model.cmdType
    && row.subCommand == model.subCommand && row.flag == model.flag && row.createTime == model.createTime
  }

  /** A burn is never in error and Destroyed only when dead; a script's verdict comes only with its return. */
  ghost predicate StatusFits(s: State, uid: string, status: string)
    requires OwnersMatch(s) && uid in s.owner
  {
    && KnownStatus(status)
    && match s.owner[uid]
       case ByProc(p) => status != ERROR && (status == DESTROYED ==> !s.procs[p].alive)
       case ByScript(k) => status == SUCCESS || status == ERROR ==> s.scripts[k].pc.Returned? && s.scripts[k].runnable
  }

  ghost predicate RowMatchesOwner(s: State, uid: string)
    requires uid in Rows(s) && OwnersMatch(s)
  {
    var row := Rows(s)[uid];
    && uid in s.owner
    && StatusFits(s, uid, row.status)
    && match s.owner[uid]
       case ByProc(p) =>
         && s.procs[p].inserted
         && SameInserted(row, BurnerModel(s.procs[p], row.createTime))
       case ByScript(k) =>
         && s.scripts[k].pc != Generated
         && SameInserted(row, ScriptModel(s.scripts[k], row.createTime))
  }

  ghost predicate RowsMatch(s: State)
    requires OwnersMatch(s)
  {
    && (forall uid | uid in Rows(s) :: RowMatchesOwner(s, uid))
    && (forall p: nat | p < |s.procs| && s.procs[p].Burner? && s.procs[p].inserted :: s.procs[p].uid in Rows(s))
    && (forall k: nat | k < |s.scripts| && s.scripts[k].pc != Generated :: s.scripts[k].uid in Rows(s))
  }

  /** The burner of uid, if uid belongs to one, is dead. */
  ghost predicate BurnerGone(s: State, uid: string)
    requires OwnersMatch(s) && uid in s.owner
  {
    s.owner[uid].ByProc? ==> !s.procs[s.owner[uid].p].alive
  }

  /** What each program point of a destroy request knows about the rest of the system. */
  ghost predicate DestroyKnows(s: State, r: Destroy)
    requires OwnersMatch(s)
  {
    match r.pc
    case Asked => true
    case Finding(pid) =>
      r.uid in Rows(s) && r.uid in s.owner && s.owner[r.uid].ByProc? && s.procs[s.owner[r.uid].p].pid == pid
    case Killing(target) =>
      && r.uid in Rows(s) && r.uid in s.owner && s.owner[r.uid].ByProc? && target < |s.procs|
      && (target == s.owner[r.uid].p || BurnerGone(s, r.uid))
    case Cleaning(_) => r.uid in Rows(s) && r.uid in s.owner && s.owner[r.uid].ByScript?
    case Writing => r.uid in Rows(s) && r.uid in s.owner && BurnerGone(s, r.uid)
    case Answered(reply) => reply.Done? ==> r.uid in Rows(s) && r.uid in s.owner && BurnerGone(s, r.uid)
  }

  ghost predicate Inv(s: State) {
    && s.table.Valid()
    && PidsDistinct(s.procs)
    && OwnersMatch(s)
    && RowsMatch(s)
    && forall d | 0 <= d < |s.destroys| :: DestroyKnows(s, s.destroys[d])
  }

  lemma InitInv()
    ensures Inv(INIT)
  {
  }

  /** How a process, a script run and the owner map may change over any number of steps. */
  ghost predicate ProcEvolves(p: Proc, q: Proc) {
    && p.pid == q.pid && p.Burner? == q.Burner? && (q.alive ==> p.alive)
    && (p.Burner? ==>
          && p.uid == q.uid && p.kind == q.kind && p.percent == q.percent
          && (p.inserted ==> q.inserted)
          && (!p.alive ==> p.inserted == q.inserted))
  }

  ghost predicate ScriptEvolves(r: ScriptRun, t: ScriptRun) {
    && t == r.(pc := t.pc)
    && (r.pc.Inserted? ==> !t.pc.Generated?)
    && (r.pc.Returned? ==> t.pc.Returned?)
  }

  ghost predicate ActorsEvolve(s: State, t: State) {
    && |s.procs| <= |t.procs| && |s.scripts| <= |t.scripts|
    && (forall p | 0 <= p < |s.procs| :: ProcEvolves(s.procs[p], t.procs[p]))
    && (forall k | 0 <= k < |s.scripts| :: ScriptEvolves(s.scripts[k], t.scripts[k]))
    && (forall uid | uid in s.owner :: uid in t.owner && t.owner[uid] == s.owner[uid])
  }

  lemma ProcsStep(s: State, a: Action)
    requires Enabled(s, a)
    ensures var t := Apply(s, a);
            |s.procs| <= |t.procs| && forall p | 0 <= p < |s.procs| :: ProcEvolves(s.procs[p], t.procs[p])
  {
  }

  lemma ScriptsStep(s: State, a: Action)
    requires Enabled(s, a)
    ensures var t := Apply(s, a);
            |s.scripts| <= |t.scripts| && forall k | 0 <= k < |s.scripts| :: ScriptEvolves(s.scripts[k], t.scripts[k])
  {
  }

  lemma ActorsStep(s: State, a: Action)
    requires Enabled(s, a)
    ensures ActorsEvolve(s, Apply(s, a))
  {
    ProcsStep(s, a);
    ScriptsStep(s, a);
  }

  lemma StepKeepsOwners(s: State, a: Action)
    requires Enabled(s, a)
    requires !(a.SpawnBurner? || a.SpawnForeign? || a.StartScript?)
    ensures var t := Apply(s, a); |t.procs| == |s.procs| && |t.scripts| == |s.scripts| && t.owner == s.owner
  {
  }

  lemma OwnersEvolve(s: State, t: State)
    requires OwnersMatch(s) && ActorsEvolve(s, t)
    requires |t.procs| == |s.procs| && |t.scripts| == |s.scripts| && t.owner == s.owner
    ensures OwnersMatch(t)
  {
  }

  lemma SpawnKeepsOwners(s: State, uid: string, kind: BurnKind, percent: int, pid: int)
    requires OwnersMatch(s) && Enabled(s, SpawnBurner(uid, kind, percent, pid))
    ensures OwnersMatch(Apply(s, SpawnBurner(uid, kind, percent, pid)))
  {
  }

  lemma StartKeepsOwners(s: State, uid: string, dir: string, args: string, runnable: bool)
    requires OwnersMatch(s) && Enabled(s, StartScript(uid, dir, args, runnable))
    ensures OwnersMatch(Apply(s, StartScript(uid, dir, args, runnable)))
  {
  }

  lemma OwnersStep(s: State, a: Action)
    requires OwnersMatch(s) && Enabled(s, a)
    ensures OwnersMatch(Apply(s, a))
  {
    if a.SpawnBurner? {
      SpawnKeepsOwners(s, a.uid, a.kind, a.percent, a.pid);
    } else if a.StartScript? {
      StartKeepsOwners(s, a.uid, a.dir, a.args, a.runnable);
    } else if a.SpawnForeign? {
    } else {
      ActorsStep(s, a);
      StepKeepsOwners(s, a);
      OwnersEvolve(s, Apply(s, a));
    }
  }

  lemma PidsStep(s: State, a: Action)
    requires PidsDistinct(s.procs) && Enabled(s, a)
    ensures PidsDistinct(Apply(s, a).procs)
  {
  }

  /** No step that leaves the table's rows in place, or only updates one, records an insert. */
  ghost predicate NoNewInsert(s: State, t: State) {
    && (forall p: nat | p < |t.procs| && t.procs[p].Burner? && t.procs[p].inserted ::
          p < |s.procs| && s.procs[p].Burner? && s.procs[p].inserted)
    && (forall k: nat | k < |t.scripts| && t.scripts[k].pc != Generated ::
          k < |s.scripts| && s.scripts[k].pc != Generated)
  }

  lemma NoNewInsertStep(s: State, a: Action)
    requires Enabled(s, a) && !a.BurnerInsert? && !a.ScriptInsert?
    ensures NoNewInsert(s, Apply(s, a))
  {
  }

  lemma RowStays(s: State, t: State, uid: string)
    requires OwnersMatch(s) && OwnersMatch(t) && ActorsEvolve(s, t)
    requires uid in Rows(s) && RowMatchesOwner(s, uid)
    requires uid in Rows(t) && Rows(t)[uid] == Rows(s)[uid]
    ensures RowMatchesOwner(t, uid)
  {
    assert OwnerExists(s, uid);
  }

  lemma WrittenRowMatches(s: State, t: State, uid: string)
    requires OwnersMatch(s) && OwnersMatch(t) && ActorsEvolve(s, t)
    requires uid in Rows(s) && RowMatchesOwner(s, uid) && uid in Rows(t)
    requires Rows(t)[uid] == Touched(Rows(s)[uid], Rows(t)[uid].status, Rows(t)[uid].error, Rows(t)[uid].updateTime)
    requires uid in t.owner ==> StatusFits(t, uid, Rows(t)[uid].status)
    ensures RowMatchesOwner(t, uid)
  {
    assert OwnerExists(s, uid);
  }

  /** A write of a fitting status to uid keeps every row in step with its owner. */
  lemma WriteKeepsRows(s: State, t: State, uid: string, status: string, error: string, now: string)
    requires s.table.Valid() && OwnersMatch(s) && RowsMatch(s)
    requires OwnersMatch(t) && ActorsEvolve(s, t) && NoNewInsert(s, t)
    requires t.table == Update(s.table, uid, status, error, now)
    requires uid in t.owner ==> StatusFits(t, uid, status)
    ensures t.table.Valid() && RowsMatch(t)
  {
    UpdateRefines(s.table, uid, status, error, now);
    forall u | u in Rows(t) ensures RowMatchesOwner(t, u) {
      assert RowMatchesOwner(s, u);
      if u == uid {
        WrittenRowMatches(s, t, uid);
      } else {
        RowStays(s, t, u);
      }
    }
  }

  lemma QuietKeepsRows(s: State, t: State)
    requires OwnersMatch(s) && RowsMatch(s)
    requires OwnersMatch(t) && ActorsEvolve(s, t) && NoNewInsert(s, t)
    requires t.table == s.table
    ensures RowsMatch(t)
  {
    forall u | u in Rows(t) ensures RowMatchesOwner(t, u) {
      RowStays(s, t, u);
    }
  }

  lemma InsertKeepsOtherRows(s: State, t: State, model: ExperimentModel)
    requires s.table.Valid() && OwnersMatch(s) && RowsMatch(s)
    requires OwnersMatch(t) && ActorsEvolve(s, t)
    requires t.table == Insert(s.table, model) && model.uid !in Rows(s)
    ensures t.table.Valid()
    ensures Rows(t) == Rows(s)[model.uid := NewRow(s.table.nextId, model)]
    ensures forall u | u in Rows(s) :: RowMatchesOwner(t, u)
  {
    InsertRefines(s.table, model);
    forall u | u in Rows(s) ensures RowMatchesOwner(t, u) {
      RowStays(s, t, u);
    }
  }

  lemma BurnerInsertKeepsRows(s: State, p: nat, now: string)
    requires Inv(s) && Enabled(s, BurnerInsert(p, now)) && OwnersMatch(Apply(s, BurnerInsert(p, now)))
    ensures var t := Apply(s, BurnerInsert(p, now)); t.table.Valid() && RowsMatch(t)
  {
    var t, b := Apply(s, BurnerInsert(p, now)), s.procs[p];
    ActorsStep(s, BurnerInsert(p, now));
    assert b.uid in Rows(s) ==> RowMatchesOwner(s, b.uid);
    InsertKeepsOtherRows(s, t, BurnerModel(b, now));
    assert RowMatchesOwner(t, b.uid);
  }

  lemma ScriptInsertKeepsRows(s: State, k: nat, now: string)
    requires Inv(s) && Enabled(s, ScriptInsert(k, now)) && OwnersMatch(Apply(s, ScriptInsert(k, now)))
    ensures var t := Apply(s, ScriptInsert(k, now)); t.table.Valid() && RowsMatch(t)
  {
    var t, r := Apply(s, ScriptInsert(k, now)), s.scripts[k];
    ActorsStep(s, ScriptInsert(k, now));
    assert r.uid in Rows(s) ==> RowMatchesOwner(s, r.uid);
    InsertKeepsOtherRows(s, t, ScriptModel(r, now));
    assert RowMatchesOwner(t, r.uid);
  }

  lemma BurnerWriteKeepsRows(s: State, p: nat, now: string)
    requires Inv(s) && Enabled(s, BurnerSuccess(p, now)) && OwnersMatch(Apply(s, BurnerSuccess(p, now)))
    ensures var t := Apply(s, BurnerSuccess(p, now)); t.table.Valid() && RowsMatch(t)
  {
    var t := Apply(s, BurnerSuccess(p, now));
    ActorsStep(s, BurnerSuccess(p, now));
    NoNewInsertStep(s, BurnerSuccess(p, now));
    WriteKeepsRows(s, t, s.procs[p].uid, SUCCESS, "", now);
  }

  lemma ScriptFailKeepsRows(s: State, k: nat, message: string, now: string)
    requires Inv(s) && Enabled(s, ScriptFail(k, message, now)) && OwnersMatch(Apply(s, ScriptFail(k, message, now)))
    ensures var t := Apply(s, ScriptFail(k, message, now)); t.table.Valid() && RowsMatch(t)
  {
    var t := Apply(s, ScriptFail(k, message, now));
    ActorsStep(s, ScriptFail(k, message, now));
    NoNewInsertStep(s, ScriptFail(k, message, now));
    WriteKeepsRows(s, t, s.scripts[k].uid, ERROR, message, now);
  }

  lemma ScriptSuccessKeepsRows(s: State, k: nat, now: string)
    requires Inv(s) && Enabled(s, ScriptSucceed(k, now)) && OwnersMatch(Apply(s, ScriptSucceed(k, now)))
    ensures var t := Apply(s, ScriptSucceed(k, now)); t.table.Valid() && RowsMatch(t)
  {
    var t := Apply(s, ScriptSucceed(k, now));
    ActorsStep(s, ScriptSucceed(k, now));
    NoNewInsertStep(s, ScriptSucceed(k, now));
    WriteKeepsRows(s, t, s.scripts[k].uid, SUCCESS, "", now);
  }

  lemma DestroyWriteKeepsRows(s: State, d: nat, now: string)
    requires Inv(s) && Enabled(s, WriteDestroyed(d, now)) && OwnersMatch(Apply(s, WriteDestroyed(d, now)))
    ensures var t := Apply(s, WriteDestroyed(d, now)); t.table.Valid() && RowsMatch(t)
  {
    var t := Apply(s, WriteDestroyed(d, now));
    ActorsStep(s, WriteDestroyed(d, now));
    NoNewInsertStep(s, WriteDestroyed(d, now));
    assert DestroyKnows(s, s.destroys[d]);
    WriteKeepsRows(s, t, s.destroys[d].uid, DESTROYED, "", now);
  }

  predicate TouchesTable(a: Action) {
    a.BurnerInsert? || a.ScriptInsert? || a.BurnerSuccess? || a.ScriptFail? || a.ScriptSucceed? || a.WriteDestroyed?
  }

  lemma QuietStep(s: State, a: Action)
    requires Enabled(s, a) && !TouchesTable(a)
    ensures Apply(s, a).table == s.table
  {
  }

  lemma QuietStepKeepsRows(s: State, a: Action)
    requires Inv(s) && Enabled(s, a) && OwnersMatch(Apply(s, a)) && !TouchesTable(a)
    ensures Apply(s, a).table.Valid() && RowsMatch(Apply(s, a))
  {
    ActorsStep(s, a);
    NoNewInsertStep(s, a);
    QuietStep(s, a);
    QuietKeepsRows(s, Apply(s, a));
  }

  lemma RowsStep(s: State, a: Action)
    requires Inv(s) && Enabled(s, a) && OwnersMatch(Apply(s, a))
    ensures Apply(s, a).table.Valid() && RowsMatch(Apply(s, a))
  {
    if !TouchesTable(a) {
      QuietStepKeepsRows(s, a);
    } else if a.BurnerInsert? {
      BurnerInsertKeepsRows(s, a.p, a.now);
    } else if a.ScriptInsert? {
      ScriptInsertKeepsRows(s, a.k, a.now);
    } else if a.BurnerSuccess? {
      BurnerWriteKeepsRows(s, a.p, a.now);
    } else if a.ScriptFail? {
      ScriptFailKeepsRows(s, a.k, a.message, a.now);
    } else if a.ScriptSucceed? {
      ScriptSuccessKeepsRows(s, a.k, a.now);
    } else {
      DestroyWriteKeepsRows(s, a.d, a.now);
    }
  }

  /** How the map that the table stands for may change: keys stay, and so does what was inserted under them. */
  ghost predicate RowsEvolve(before: map<string, Row>, after: map<string, Row>) {
    forall uid | uid in before ::
      && uid in after
      && var r, s := before[uid], after[uid];
         s == Row(r.id, r.uid, r.command, r.cmdType, r.subCommand, r.flag,
                  s.status, s.error, r.createTime, s.updateTime)
  }

  lemma InsertEvolves(t: Table, model: ExperimentModel)
    requires t.Valid()
    ensures RowsEvolve(View(t.rows), View(Insert(t, model).rows))
  {
    InsertRefines(t, model);
  }

  lemma UpdateEvolves(t: Table, uid: string, status: string, error: string, now: string)
    requires t.Valid()
    ensures RowsEvolve(View(t.rows), View(Update(t, uid, status, error, now).rows))
  {
    UpdateRefines(t, uid, status, error, now);
  }

  lemma RowsEvolveStep(s: State, a: Action)
    requires s.table.Valid() && Enabled(s, a)
    ensures RowsEvolve(Rows(s), Rows(Apply(s, a)))
  {
    if !TouchesTable(a) {
      QuietStep(s, a);
    } else if a.BurnerInsert? {
      InsertEvolves(s.table, BurnerModel(s.procs[a.p], a.now));
    } else if a.ScriptInsert? {
      InsertEvolves(s.table, ScriptModel(s.scripts[a.k], a.now));
    } else if a.BurnerSuccess? {
      UpdateEvolves(s.table, s.procs[a.p].uid, SUCCESS, "", a.now);
    } else if a.ScriptFail? {
      UpdateEvolves(s.table, s.scripts[a.k].uid, ERROR, a.message, a.now);
    } else if a.ScriptSucceed? {
      UpdateEvolves(s.table, s.scripts[a.k].uid, SUCCESS, "", a.now);
    } else {
      UpdateEvolves(s.table, s.destroys[a.d].uid, DESTROYED, "", a.now);
    }
  }

  lemma DestroyStillKnows(s: State, t: State, r: Destroy)
    requires OwnersMatch(s) && OwnersMatch(t) && ActorsEvolve(s, t) && RowsEvolve(Rows(s), Rows(t))
    requires DestroyKnows(s, r)
    ensures DestroyKnows(t, r)
  {
    assert r.uid in s.owner ==> OwnerExists(s, r.uid);
  }

  lemma QueryLearns(s: State, uid: string)
    requires Inv(s)
    ensures DestroyKnows(s, Destroy(uid, AfterQuery(Rows(s), uid)))
  {
    if uid in Rows(s) {
      assert RowMatchesOwner(s, uid) && OwnerExists(s, uid);
      if s.owner[uid].ByProc? {
        Decimal.ParseOfFormat(s.procs[s.owner[uid].p].pid);
      }
    }
  }

  predicate IsDestroyStep(a: Action) {
    || a.DestroyQuery? || a.FindHit? || a.FindMiss? || a.KillOk? || a.KillFails? || a.CleanOk? || a.CleanFails?
    || a.WriteDestroyed?
  }

  /** Only the steps of a request move it. */
  lemma MovedByItself(s: State, a: Action, d: nat)
    requires Enabled(s, a) && d < |s.destroys|
    ensures d < |Apply(s, a).destroys| && Apply(s, a).destroys[d].uid == s.destroys[d].uid
    ensures Apply(s, a).destroys[d] != s.destroys[d] ==> IsDestroyStep(a) && a.d == d
  {
  }

  lemma QueryStepLearns(s: State, d: nat)
    requires Inv(s) && Enabled(s, DestroyQuery(d)) && OwnersMatch(Apply(s, DestroyQuery(d)))
    ensures DestroyKnows(Apply(s, DestroyQuery(d)), Apply(s, DestroyQuery(d)).destroys[d])
  {
    QueryLearns(s, s.destroys[d].uid);
  }

  lemma HitStepLearns(s: State, d: nat, target: nat)
    requires Inv(s) && Enabled(s, FindHit(d, target)) && OwnersMatch(Apply(s, FindHit(d, target)))
    ensures DestroyKnows(Apply(s, FindHit(d, target)), Apply(s, FindHit(d, target)).destroys[d])
  {
    assert DestroyKnows(s, s.destroys[d]);
  }

  lemma MissStepLearns(s: State, d: nat)
    requires Inv(s) && Enabled(s, FindMiss(d)) && OwnersMatch(Apply(s, FindMiss(d)))
    ensures DestroyKnows(Apply(s, FindMiss(d)), Apply(s, FindMiss(d)).destroys[d])
  {
    assert DestroyKnows(s, s.destroys[d]);
  }

  lemma KillStepLearns(s: State, d: nat)
    requires Inv(s) && Enabled(s, KillOk(d)) && OwnersMatch(Apply(s, KillOk(d)))
    ensures DestroyKnows(Apply(s, KillOk(d)), Apply(s, KillOk(d)).destroys[d])
  {
    assert DestroyKnows(s, s.destroys[d]);
  }

  lemma CleanStepLearns(s: State, d: nat)
    requires Inv(s) && Enabled(s, CleanOk(d)) && OwnersMatch(Apply(s, CleanOk(d)))
    ensures DestroyKnows(Apply(s, CleanOk(d)), Apply(s, CleanOk(d)).destroys[d])
  {
    assert DestroyKnows(s, s.destroys[d]);
  }

  lemma WriteStepLearns(s: State, d: nat, now: string)
    requires Inv(s) && Enabled(s, WriteDestroyed(d, now)) && OwnersMatch(Apply(s, WriteDestroyed(d, now)))
    ensures DestroyKnows(Apply(s, WriteDestroyed(d, now)), Apply(s, WriteDestroyed(d, now)).destroys[d])
  {
    assert DestroyKnows(s, s.destroys[d]);
    UpdateRefines(s.table, s.destroys[d].uid, DESTROYED, "", now);
  }

  /** The request that takes the step knows what its next program point claims. */
  lemma DestroyLearns(s: State, a: Action, d: nat, t: State)
    requires Inv(s) && Enabled(s, a) && t == Apply(s, a) && OwnersMatch(t)
    requires IsDestroyStep(a) && a.d == d && d < |t.destroys|
    ensures DestroyKnows(t, t.destroys[d])
  {
    if a.DestroyQuery? {
      QueryStepLearns(s, d);
    } else if a.FindHit? {
      HitStepLearns(s, d, a.target);
    } else if a.FindMiss? {
      MissStepLearns(s, d);
    } else if a.KillOk? {
      KillStepLearns(s, d);
    } else if a.CleanOk? {
      CleanStepLearns(s, d);
    } else if a.WriteDestroyed? {
      WriteStepLearns(s, d, a.now);
    }
  }

  lemma RequestStep(s: State, a: Action, d: nat, t: State)
    requires Inv(s) && Enabled(s, a) && t == Apply(s, a) && OwnersMatch(t)
    requires ActorsEvolve(s, t) && RowsEvolve(Rows(s), Rows(t)) && d < |s.destroys|
    ensures d < |t.destroys| && DestroyKnows(t, t.destroys[d])
  {
    MovedByItself(s, a, d);
    if t.destroys[d] == s.destroys[d] {
      DestroyStillKnows(s, t, s.destroys[d]);
    } else {
      DestroyLearns(s, a, d, t);
    }
  }

  lemma NewRequest(s: State, a: Action, d: nat)
    requires Enabled(s, a) && |s.destroys| <= d < |Apply(s, a).destroys|
    ensures Apply(s, a).destroys[d].pc == Asked
  {
  }

  lemma DestroysStep(s: State, a: Action)
    requires Inv(s) && Enabled(s, a) && OwnersMatch(Apply(s, a))
    ensures forall d | 0 <= d < |Apply(s, a).destroys| :: DestroyKnows(Apply(s, a), Apply(s, a).destroys[d])
  {
    var t := Apply(s, a);
    ActorsStep(s, a);
    RowsEvolveStep(s, a);
    forall d | 0 <= d < |t.destroys| ensures DestroyKnows(t, t.destroys[d]) {
      if d < |s.destroys| {
        RequestStep(s, a, d, t);
      } else {
        NewRequest(s, a, d);
      }
    }
  }

  /** Every step of every actor keeps the invariant. */
  lemma InvStep(s: State, a: Action)
    requires Inv(s) && Enabled(s, a)
    ensures Inv(Apply(s, a))
  {
    OwnersStep(s, a);
    PidsStep(s, a);
    RowsStep(s, a);
    DestroysStep(s, a);
  }

  lemma {:induction false} InvRun(s: State, run: seq<Action>)
    requires Inv(s) && CanRun(s, run)
    ensures Inv(Final(s, run))
    decreases run
  {
    if run != [] {
      InvStep(s, run[0]);
      InvRun(Apply(s, run[0]), run[1..]);
    }
  }

  lemma ReachableInv(s: State)
    requires Reachable(s)
    ensures Inv(s)
  {
    InitInv();
    var run :| CanRun(INIT, run) && Final(INIT, run) == s;
    InvRun(INIT, run);
  }
}
