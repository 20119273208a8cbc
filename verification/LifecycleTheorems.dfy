/** What holds of whole runs of the lifecycle, over every interleaving. */
module LifecycleTheorems {
  import opened ExperimentTable
  import opened Lifecycle
  import opened LifecycleInvariant
  import opened Names

  ghost predicate IsDestroyed(s: State, uid: string) {
    uid in Rows(s) && Rows(s)[uid].status == DESTROYED
  }

  /** The script run that inserted uid's row has a status write ahead of it. */
  predicate MayStillWrite(s: State, uid: string) {
    && uid in s.owner && s.owner[uid].ByScript?
    && ScriptAt(s, s.owner[uid].k, Inserted) && s.scripts[s.owner[uid].k].runnable
  }

  predicate StepOf(a: Action, p: nat) {
    (a.BurnerInsert? || a.BurnerSuccess? || a.Die?) && a.p == p
  }

  /** Who launched a row, what it was inserted with, and which statuses it can show. */
  ghost predicate RowExplained(s: State, row: Row) {
    && row.uid in s.owner
    && match s.owner[row.uid]
       case ByProc(p) =>
         && p < |s.procs| && s.procs[p].Burner?
         && SameInserted(row, BurnerModel(s.procs[p], row.createTime))
         && (row.status == CREATED || row.status == SUCCESS || (row.status == DESTROYED && !s.procs[p].alive))
       case ByScript(k) =>
         && k < |s.scripts|
         && SameInserted(row, ScriptModel(s.scripts[k], row.createTime))
         && (|| row.status == CREATED || row.status == DESTROYED
             || (&& (row.status == SUCCESS || row.status == ERROR)
                 && s.scripts[k].pc == Returned && s.scripts[k].runnable))
  }

  /** In every reachable state the table is an id-ordered map, and every row of it is explained by its launcher. */
  lemma ReachableTable(s: State)
    requires Reachable(s)
    ensures s.table.Valid()
    ensures forall i | 0 <= i < |s.table.rows| :: RowExplained(s, s.table.rows[i])
  {
    ReachableInv(s);
    ViewHolds(s.table.rows);
    forall i | 0 <= i < |s.table.rows| ensures RowExplained(s, s.table.rows[i]) {
      var uid := s.table.rows[i].uid;
      assert RowMatchesOwner(s, uid) && OwnerExists(s, uid);
    }
  }

  /** No run removes a row or changes any column of it but status, error and update time. */
  lemma {:induction false} RunKeepsInsertedColumns(s: State, run: seq<Action>)
    requires Inv(s) && CanRun(s, run)
    ensures RowsEvolve(Rows(s), Rows(Final(s, run)))
    decreases run
  {
    if run != [] {
      InvStep(s, run[0]);
      RowsEvolveStep(s, run[0]);
      RunKeepsInsertedColumns(Apply(s, run[0]), run[1..]);
    }
  }

  lemma NumberedStep(s: State, a: Action)
    requires Numbered(s.table) && Enabled(s, a)
    ensures Numbered(Apply(s, a).table)
  {
    if !TouchesTable(a) {
      QuietStep(s, a);
    } else if a.BurnerInsert? {
      InsertKeepsNumbered(s.table, BurnerModel(s.procs[a.p], a.now));
    } else if a.ScriptInsert? {
      InsertKeepsNumbered(s.table, ScriptModel(s.scripts[a.k], a.now));
    } else if a.BurnerSuccess? {
      UpdateKeepsNumbered(s.table, s.procs[a.p].uid, SUCCESS, "", a.now);
    } else if a.ScriptFail? {
      UpdateKeepsNumbered(s.table, s.scripts[a.k].uid, ERROR, a.message, a.now);
    } else if a.ScriptSucceed? {
      UpdateKeepsNumbered(s.table, s.scripts[a.k].uid, SUCCESS, "", a.now);
    } else {
      UpdateKeepsNumbered(s.table, s.destroys[a.d].uid, DESTROYED, "", a.now);
    }
  }

  lemma {:induction false} NumberedRun(s: State, run: seq<Action>)
    requires Numbered(s.table) && CanRun(s, run)
    ensures Numbered(Final(s, run).table)
    decreases run
  {
    if run != [] {
      NumberedStep(s, run[0]);
      NumberedRun(Apply(s, run[0]), run[1..]);
    }
  }

  /** In every reachable state the rows are numbered from 1 on, in the order of their inserts. */
  lemma ReachableNumbered(s: State)
    requires Reachable(s)
    ensures forall i | 0 <= i < |s.table.rows| :: s.table.rows[i].id == i + 1
  {
    var run :| CanRun(INIT, run) && Final(INIT, run) == s;
    NumberedRun(INIT, run);
  }

  lemma WriteElsewhere(t: Table, uid: string, other: string, status: string, error: string, now: string)
    requires t.Valid() && uid in View(t.rows) && uid != other
    ensures uid in View(Update(t, other, status, error, now).rows)
    ensures View(Update(t, other, status, error, now).rows)[uid] == View(t.rows)[uid]
  {
    UpdateRefines(t, other, status, error, now);
  }

  lemma InsertElsewhere(t: Table, uid: string, model: ExperimentModel)
    requires t.Valid() && uid in View(t.rows)
    ensures uid in View(Insert(t, model).rows) && View(Insert(t, model).rows)[uid] == View(t.rows)[uid]
  {
    InsertRefines(t, model);
  }

  /** The step is a status write under uid, by its burner, its script or a destroy request for it. */
  predicate WritesRow(s: State, a: Action, uid: string)
    requires Enabled(s, a)
  {
    match a
    case BurnerSuccess(p, _) => s.procs[p].uid == uid
    case ScriptFail(k, _, _) => s.scripts[k].uid == uid
    case ScriptSucceed(k, _) => s.scripts[k].uid == uid
    case WriteDestroyed(d, _) => s.destroys[d].uid == uid
    case _ => false
  }

  /** Only the owner of a row, or a destroy request for it, writes its status. */
  lemma StatusStep(s: State, a: Action, uid: string)
    requires Inv(s) && Enabled(s, a) && uid in Rows(s) && !WritesRow(s, a, uid)
    ensures uid in Rows(Apply(s, a)) && Rows(Apply(s, a))[uid] == Rows(s)[uid]
  {
    if !TouchesTable(a) {
      QuietStep(s, a);
    } else if a.BurnerInsert? {
      InsertElsewhere(s.table, uid, BurnerModel(s.procs[a.p], a.now));
    } else if a.ScriptInsert? {
      InsertElsewhere(s.table, uid, ScriptModel(s.scripts[a.k], a.now));
    } else if a.BurnerSuccess? {
      WriteElsewhere(s.table, uid, s.procs[a.p].uid, SUCCESS, "", a.now);
    } else if a.ScriptFail? {
      WriteElsewhere(s.table, uid, s.scripts[a.k].uid, ERROR, a.message, a.now);
    } else if a.ScriptSucceed? {
      WriteElsewhere(s.table, uid, s.scripts[a.k].uid, SUCCESS, "", a.now);
    } else {
      WriteElsewhere(s.table, uid, s.destroys[a.d].uid, DESTROYED, "", a.now);
    }
  }

  /** The owner is a script, and the step is its Success or Error. */
  predicate IsVerdict(a: Action, owner: Owner) {
    (a.ScriptFail? || a.ScriptSucceed?) && owner == ByScript(a.k)
  }

  /** A Destroyed burn is dead, so it writes no more. */
  lemma NoBurnerWritesDestroyed(s: State, p: nat, now: string, uid: string)
    requires Inv(s) && Enabled(s, BurnerSuccess(p, now)) && IsDestroyed(s, uid)
    ensures s.procs[p].uid != uid
  {
    assert RowMatchesOwner(s, uid);
  }

  /** A Destroyed row has no writers but destroy requests and its own script. */
  lemma WritersOfDestroyed(s: State, a: Action, uid: string)
    requires Inv(s) && Enabled(s, a) && IsDestroyed(s, uid)
    ensures uid in s.owner
    ensures WritesRow(s, a, uid) <==> IsVerdict(a, s.owner[uid]) || (a.WriteDestroyed? && s.destroys[a.d].uid == uid)
  {
    assert RowMatchesOwner(s, uid);
    if a.BurnerSuccess? {
      NoBurnerWritesDestroyed(s, a.p, a.now, uid);
    } else if a.ScriptFail? || a.ScriptSucceed? {
      assert s.scripts[a.k].uid == uid <==> s.owner[uid] == ByScript(a.k) by {
        assert OwnerExists(s, uid);
      }
    }
  }

  lemma DestroyWriteShows(s: State, d: nat, now: string)
    requires Inv(s) && Enabled(s, WriteDestroyed(d, now)) && s.destroys[d].uid in Rows(s)
    ensures IsDestroyed(Apply(s, WriteDestroyed(d, now)), s.destroys[d].uid)
  {
    UpdateRefines(s.table, s.destroys[d].uid, DESTROYED, "", now);
  }

  lemma FailureShows(s: State, k: nat, message: string, now: string)
    requires Inv(s) && Enabled(s, ScriptFail(k, message, now))
    ensures !IsDestroyed(Apply(s, ScriptFail(k, message, now)), s.scripts[k].uid)
  {
    UpdateRefines(s.table, s.scripts[k].uid, ERROR, message, now);
  }

  lemma SuccessShows(s: State, k: nat, now: string)
    requires Inv(s) && Enabled(s, ScriptSucceed(k, now))
    ensures !IsDestroyed(Apply(s, ScriptSucceed(k, now)), s.scripts[k].uid)
  {
    UpdateRefines(s.table, s.scripts[k].uid, SUCCESS, "", now);
  }

  /** One step ends a row's Destroyed exactly when it is the verdict of the row's own script. */
  lemma VerdictStep(s: State, a: Action, uid: string)
    requires Inv(s) && Enabled(s, a) && IsDestroyed(s, uid)
    ensures uid in s.owner && (IsDestroyed(Apply(s, a), uid) <==> !IsVerdict(a, s.owner[uid]))
  {
    WritersOfDestroyed(s, a, uid);
    if a.WriteDestroyed? && s.destroys[a.d].uid == uid {
      DestroyWriteShows(s, a.d, a.now);
    } else if !IsVerdict(a, s.owner[uid]) {
      StatusStep(s, a, uid);
    } else if a.ScriptFail? {
      FailureShows(s, a.k, a.message, a.now);
    } else {
      SuccessShows(s, a.k, a.now);
    }
  }

  /** Every state of the run shows Destroyed for uid. */
  ghost predicate StaysDestroyed(s: State, run: seq<Action>, uid: string)
    requires CanRun(s, run)
    decreases run
  {
    IsDestroyed(s, uid) && (run == [] || StaysDestroyed(Apply(s, run[0]), run[1..], uid))
  }

  ghost predicate HoldsVerdict(run: seq<Action>, owner: Owner) {
    exists i :: 0 <= i < |run| && IsVerdict(run[i], owner)
  }

  lemma VerdictFirstOrLater(run: seq<Action>, owner: Owner)
    requires run != []
    ensures HoldsVerdict(run, owner) <==> IsVerdict(run[0], owner) || HoldsVerdict(run[1..], owner)
  {
    if HoldsVerdict(run[1..], owner) {
      var i :| 0 <= i < |run[1..]| && IsVerdict(run[1..][i], owner);
      assert IsVerdict(run[i + 1], owner);
    }
    if HoldsVerdict(run, owner) && !IsVerdict(run[0], owner) {
      var i :| 0 <= i < |run| && IsVerdict(run[i], owner);
      assert IsVerdict(run[1..][i - 1], owner);
    }
  }

  lemma OwnerStays(s: State, a: Action, uid: string)
    requires Enabled(s, a) && uid in s.owner
    ensures uid in Apply(s, a).owner && Apply(s, a).owner[uid] == s.owner[uid]
  {
    ActorsStep(s, a);
  }

  /** Along any one run, every state shows Destroyed exactly when the row's script never gives its verdict in it. */
  lemma {:induction false} StaysDestroyedIff(s: State, run: seq<Action>, uid: string)
    requires Inv(s) && CanRun(s, run) && IsDestroyed(s, uid)
    ensures uid in s.owner && (StaysDestroyed(s, run, uid) <==> !HoldsVerdict(run, s.owner[uid]))
    decreases run
  {
    assert RowMatchesOwner(s, uid);
    if run != [] {
      VerdictFirstOrLater(run, s.owner[uid]);
      VerdictStep(s, run[0], uid);
      if !IsVerdict(run[0], s.owner[uid]) {
        InvStep(s, run[0]);
        OwnerStays(s, run[0], uid);
        StaysDestroyedIff(Apply(s, run[0]), run[1..], uid);
      }
    }
  }

  lemma {:induction false} LastOfStaying(s: State, run: seq<Action>, uid: string)
    requires CanRun(s, run) && StaysDestroyed(s, run, uid)
    ensures IsDestroyed(Final(s, run), uid)
    decreases run
  {
    if run != [] {
      LastOfStaying(Apply(s, run[0]), run[1..], uid);
    }
  }

  lemma NoNewWriter(s: State, a: Action, uid: string)
    requires Inv(s) && Enabled(s, a) && uid in Rows(s) && !MayStillWrite(s, uid)
    ensures !MayStillWrite(Apply(s, a), uid)
  {
    assert RowMatchesOwner(s, uid) && OwnerExists(s, uid);
    ActorsStep(s, a);
  }

  lemma VerdictIsPending(s: State, a: Action, uid: string)
    requires Enabled(s, a) && uid in s.owner && IsVerdict(a, s.owner[uid])
    ensures MayStillWrite(s, uid)
  {
  }

  /** Without a pending verdict, no run holds one. */
  lemma {:induction false} SettledHoldsNoVerdict(s: State, run: seq<Action>, uid: string)
    requires Inv(s) && CanRun(s, run) && uid in Rows(s) && uid in s.owner && !MayStillWrite(s, uid)
    ensures !HoldsVerdict(run, s.owner[uid])
    decreases run
  {
    if run != [] {
      VerdictFirstOrLater(run, s.owner[uid]);
      if IsVerdict(run[0], s.owner[uid]) {
        VerdictIsPending(s, run[0], uid);
      } else {
        NoNewWriter(s, run[0], uid);
        OwnerStays(s, run[0], uid);
        InvStep(s, run[0]);
        RowsEvolveStep(s, run[0]);
        SettledHoldsNoVerdict(Apply(s, run[0]), run[1..], uid);
      }
    }
  }

  lemma SettledStep(s: State, a: Action, uid: string)
    requires Inv(s) && Enabled(s, a) && IsDestroyed(s, uid) && !MayStillWrite(s, uid)
    ensures IsDestroyed(Apply(s, a), uid) && !MayStillWrite(Apply(s, a), uid)
  {
    NoNewWriter(s, a, uid);
    VerdictStep(s, a, uid);
    if IsVerdict(a, s.owner[uid]) {
      VerdictIsPending(s, a, uid);
    }
  }

  lemma SettledRun(s: State, run: seq<Action>, uid: string)
    requires Inv(s) && CanRun(s, run) && IsDestroyed(s, uid) && !MayStillWrite(s, uid)
    ensures IsDestroyed(Final(s, run), uid)
  {
    StaysDestroyedIff(s, run, uid);
    SettledHoldsNoVerdict(s, run, uid);
    LastOfStaying(s, run, uid);
  }

  lemma OneStepRun(s: State, a: Action)
    requires Enabled(s, a)
    ensures CanRun(s, [a]) && Final(s, [a]) == Apply(s, a)
  {
    assert [a][1..] == [];
    assert CanRun(Apply(s, a), []) && Final(Apply(s, a), []) == Apply(s, a);
  }

  /** A running script overwrites Destroyed with Success by finishing. */
  lemma PendingScriptOverwrites(s: State, uid: string) returns (run: seq<Action>)
    requires Inv(s) && IsDestroyed(s, uid) && MayStillWrite(s, uid)
    ensures CanRun(s, run) && !IsDestroyed(Final(s, run), uid)
  {
    var finish := ScriptSucceed(s.owner[uid].k, "");
    assert OwnerExists(s, uid);
    UpdateRefines(s.table, uid, SUCCESS, "", "");
    OneStepRun(s, finish);
    run := [finish];
  }

  /** Destroyed stays in every continuation exactly when no script status write is still to come. */
  lemma DestroyedPersistsIff(s: State, uid: string)
    requires Reachable(s) && IsDestroyed(s, uid)
    ensures (forall run | CanRun(s, run) :: IsDestroyed(Final(s, run), uid)) <==> !MayStillWrite(s, uid)
  {
    ReachableInv(s);
    if MayStillWrite(s, uid) {
      var run := PendingScriptOverwrites(s, uid);
    } else {
      forall run | CanRun(s, run) ensures IsDestroyed(Final(s, run), uid) {
        SettledRun(s, run, uid);
      }
    }
  }

  lemma DeadStep(s: State, a: Action, p: nat)
    requires Enabled(s, a) && p < |s.procs| && !s.procs[p].alive
    ensures !StepOf(a, p) && p < |Apply(s, a).procs| && !Apply(s, a).procs[p].alive
  {
    ActorsStep(s, a);
  }

  lemma {:induction false} DeadRun(s: State, run: seq<Action>, p: nat)
    requires CanRun(s, run) && p < |s.procs| && !s.procs[p].alive
    ensures forall i | 0 <= i < |run| :: !StepOf(run[i], p)
    decreases run
  {
    if run != [] {
      DeadStep(s, run[0], p);
      DeadRun(Apply(s, run[0]), run[1..], p);
    }
  }

  /** Once a destroy request is past its kill, the process that inserted the row never takes another step. */
  lemma KilledBurnerIsSilent(s: State, d: nat, p: nat, run: seq<Action>)
    requires Reachable(s) && d < |s.destroys| && (s.destroys[d].pc.Writing? || s.destroys[d].pc == Answered(Done))
    requires s.destroys[d].uid in s.owner && s.owner[s.destroys[d].uid] == ByProc(p)
    requires CanRun(s, run)
    ensures forall i | 0 <= i < |run| :: !StepOf(run[i], p)
  {
    ReachableInv(s);
    assert DestroyKnows(s, s.destroys[d]);
    assert OwnerExists(s, s.destroys[d].uid);
    DeadRun(s, run, p);
  }

  /** The destroy write on a cpu or mem row is final: Destroyed is what every later state shows. */
  lemma BurnDestroyIsFinal(s: State, d: nat, now: string, run: seq<Action>)
    requires Reachable(s) && Enabled(s, WriteDestroyed(d, now))
    requires s.destroys[d].uid in s.owner && s.owner[s.destroys[d].uid].ByProc?
    requires CanRun(Apply(s, WriteDestroyed(d, now)), run)
    ensures IsDestroyed(Final(Apply(s, WriteDestroyed(d, now)), run), s.destroys[d].uid)
  {
    ReachableInv(s);
    var uid, a := s.destroys[d].uid, WriteDestroyed(d, now);
    assert DestroyKnows(s, s.destroys[d]);
    UpdateRefines(s.table, uid, DESTROYED, "", now);
    InvStep(s, a);
    ActorsStep(s, a);
    SettledRun(Apply(s, a), run, uid);
  }

  predicate WriteBy(a: Action, d: nat) {
    a.WriteDestroyed? && a.d == d
  }

  ghost predicate DoneOnBurn(s: State, d: nat) {
    && d < |s.destroys| && s.destroys[d].pc == Answered(Done)
    && s.destroys[d].uid in s.owner && s.owner[s.destroys[d].uid].ByProc?
  }

  ghost predicate DoneShown(s: State) {
    forall d: nat | DoneOnBurn(s, d) :: IsDestroyed(s, s.destroys[d].uid)
  }

  /** A request becomes Done only by its write. */
  lemma DoneStays(s: State, a: Action, d: nat)
    requires Enabled(s, a) && !WriteBy(a, d)
    requires d < |Apply(s, a).destroys| && Apply(s, a).destroys[d].pc == Answered(Done)
    ensures d < |s.destroys| && s.destroys[d] == Apply(s, a).destroys[d]
  {
  }

  lemma OlderDone(s: State, a: Action, d: nat)
    requires Inv(s) && Enabled(s, a) && DoneOnBurn(Apply(s, a), d)
    requires !WriteBy(a, d)
    ensures d < |s.destroys| && s.destroys[d] == Apply(s, a).destroys[d] && DoneOnBurn(s, d)
    ensures !MayStillWrite(s, s.destroys[d].uid)
  {
    DoneStays(s, a, d);
    assert DestroyKnows(s, s.destroys[d]);
    ActorsStep(s, a);
  }

  lemma DoneShownStep(s: State, a: Action, d: nat)
    requires Inv(s) && DoneShown(s) && Enabled(s, a) && DoneOnBurn(Apply(s, a), d)
    ensures IsDestroyed(Apply(s, a), Apply(s, a).destroys[d].uid)
  {
    if a.WriteDestroyed? && a.d == d {
      assert DestroyKnows(s, s.destroys[d]);
      DestroyWriteShows(s, d, a.now);
    } else {
      OlderDone(s, a, d);
      SettledStep(s, a, s.destroys[d].uid);
    }
  }

  lemma {:induction false} DoneShownRun(s: State, run: seq<Action>)
    requires Inv(s) && DoneShown(s) && CanRun(s, run)
    ensures DoneShown(Final(s, run))
    decreases run
  {
    if run != [] {
      forall d: nat | DoneOnBurn(Apply(s, run[0]), d)
        ensures IsDestroyed(Apply(s, run[0]), Apply(s, run[0]).destroys[d].uid)
      {
        DoneShownStep(s, run[0], d);
      }
      InvStep(s, run[0]);
      DoneShownRun(Apply(s, run[0]), run[1..]);
    }
  }

  /** A success reply to a destroy of a burn is true: its row says Destroyed and its process is dead. */
  lemma DoneReplyIsTrue(s: State, d: nat)
    requires Reachable(s) && DoneOnBurn(s, d)
    ensures IsDestroyed(s, s.destroys[d].uid)
    ensures var p := s.owner[s.destroys[d].uid].p; p < |s.procs| && !s.procs[p].alive
  {
    var run :| CanRun(INIT, run) && Final(INIT, run) == s;
    DoneShownRun(INIT, run);
    ReachableInv(s);
    assert DestroyKnows(s, s.destroys[d]) && OwnerExists(s, s.destroys[d].uid);
  }

  lemma AnsweredStep(s: State, a: Action, d: nat)
    requires Enabled(s, a) && d < |s.destroys| && s.destroys[d].pc.Answered?
    ensures !WriteBy(a, d) && d < |Apply(s, a).destroys| && Apply(s, a).destroys[d].pc.Answered?
  {
    MovedByItself(s, a, d);
  }

  lemma {:induction false} AnsweredWritesNothing(s: State, d: nat, run: seq<Action>)
    requires CanRun(s, run) && d < |s.destroys| && s.destroys[d].pc.Answered?
    ensures forall i | 0 <= i < |run| :: !WriteBy(run[i], d)
    decreases run
  {
    if run != [] {
      AnsweredStep(s, run[0], d);
      AnsweredWritesNothing(Apply(s, run[0]), d, run[1..]);
    }
  }

  ghost predicate AskedOfDestroyed(s: State, d: nat) {
    d < |s.destroys| && s.destroys[d].pc.Asked? && IsDestroyed(s, s.destroys[d].uid)
  }

  lemma QueryOfDestroyed(s: State, d: nat)
    requires AskedOfDestroyed(s, d)
    ensures var t := Apply(s, DestroyQuery(d)); d < |t.destroys| && t.destroys[d].pc == Answered(AlreadyDestroyed)
  {
  }

  lemma AskedStep(s: State, a: Action, d: nat)
    requires Inv(s) && Enabled(s, a) && AskedOfDestroyed(s, d) && a != DestroyQuery(d)
    ensures s.destroys[d].uid in s.owner && !WriteBy(a, d)
    ensures !IsVerdict(a, s.owner[s.destroys[d].uid]) ==> AskedOfDestroyed(Apply(s, a), d)
    ensures Apply(s, a).destroys[d].uid == s.destroys[d].uid
  {
    MovedByItself(s, a, d);
    VerdictStep(s, a, s.destroys[d].uid);
  }

  lemma VerdictOfPrefix(run: seq<Action>, i: nat, owner: Owner)
    requires i <= |run| && HoldsVerdict(run[..i], owner)
    ensures HoldsVerdict(run, owner)
  {
    var j :| 0 <= j < i && IsVerdict(run[..i][j], owner);
    assert IsVerdict(run[j], owner);
  }

  lemma VerdictOfLonger(run: seq<Action>, i: nat, owner: Owner)
    requires i < |run| - 1 && (IsVerdict(run[0], owner) || HoldsVerdict(run[1..][..i], owner))
    ensures HoldsVerdict(run[..i + 1], owner)
  {
    assert run[..i + 1][1..] == run[1..][..i];
    VerdictFirstOrLater(run[..i + 1], owner);
  }

  ghost predicate WritesFollowVerdict(run: seq<Action>, d: nat, owner: Owner) {
    forall i | 0 <= i < |run| && WriteBy(run[i], d) :: HoldsVerdict(run[..i], owner)
  }

  lemma FollowsInLonger(run: seq<Action>, d: nat, owner: Owner)
    requires run != [] && !WriteBy(run[0], d)
    requires IsVerdict(run[0], owner) || WritesFollowVerdict(run[1..], d, owner)
    ensures WritesFollowVerdict(run, d, owner)
  {
    forall i | 0 <= i < |run| && WriteBy(run[i], d) ensures HoldsVerdict(run[..i], owner) {
      assert run[1..][i - 1] == run[i];
      VerdictOfLonger(run, i - 1, owner);
    }
  }

  lemma {:induction false} WritesAfterVerdict(s: State, d: nat, run: seq<Action>, owner: Owner)
    requires Inv(s) && CanRun(s, run) && AskedOfDestroyed(s, d)
    requires s.destroys[d].uid in s.owner && s.owner[s.destroys[d].uid] == owner
    ensures WritesFollowVerdict(run, d, owner)
    decreases run
  {
    if run != [] {
      var a := run[0];
      if a == DestroyQuery(d) {
        QueryOfDestroyed(s, d);
        AnsweredWritesNothing(Apply(s, a), d, run[1..]);
      } else {
        AskedStep(s, a, d);
        if !IsVerdict(a, owner) {
          InvStep(s, a);
          OwnerStays(s, a, s.destroys[d].uid);
          WritesAfterVerdict(Apply(s, a), d, run[1..], owner);
        }
      }
      FollowsInLonger(run, d, owner);
    }
  }

  /**
   A request asked of a Destroyed row writes the table only after the row's script has given its
   verdict, however the others interleave; without a pending verdict it never writes.
   */
  lemma DestroyingDestroyedWritesNothing(s: State, d: nat, run: seq<Action>)
    requires Inv(s) && CanRun(s, run) && AskedOfDestroyed(s, d)
    ensures var uid := s.destroys[d].uid;
            && uid in s.owner
            && WritesFollowVerdict(run, d, s.owner[uid])
            && (!MayStillWrite(s, uid) ==> forall i | 0 <= i < |run| :: !WriteBy(run[i], d))
  {
    var uid := s.destroys[d].uid;
    assert RowMatchesOwner(s, uid);
    var owner := s.owner[uid];
    WritesAfterVerdict(s, d, run, owner);
    if !MayStillWrite(s, uid) {
      SettledHoldsNoVerdict(s, run, uid);
      forall i | 0 <= i < |run| ensures !HoldsVerdict(run[..i], owner) {
        if HoldsVerdict(run[..i], owner) {
          VerdictOfPrefix(run, i, owner);
        }
      }
    }
  }

  lemma ConsRun(s: State, a: Action, rest: seq<Action>)
    requires Enabled(s, a) && CanRun(Apply(s, a), rest)
    ensures CanRun(s, [a] + rest)
  {
    assert ([a] + rest)[1..] == rest;
  }

  /** After the script's Success the request finds a row that is not Destroyed, and goes on to clean up. */
  lemma QueryAfterSuccess(s: State, d: nat, k: nat)
    requires Inv(s) && AskedOfDestroyed(s, d)
    requires s.destroys[d].uid in s.owner && s.owner[s.destroys[d].uid] == ByScript(k)
    requires Enabled(s, ScriptSucceed(k, ""))
    ensures var t := Apply(s, ScriptSucceed(k, ""));
            Enabled(t, DestroyQuery(d)) && AfterQuery(Rows(t), t.destroys[d].uid).Cleaning?
  {
    assert RowMatchesOwner(s, s.destroys[d].uid) && OwnerExists(s, s.destroys[d].uid);
    UpdateRefines(s.table, s.destroys[d].uid, SUCCESS, "", "");
  }

  lemma CleaningWrites(t: State, d: nat)
    requires Enabled(t, DestroyQuery(d)) && AfterQuery(Rows(t), t.destroys[d].uid).Cleaning?
    ensures CanRun(t, [DestroyQuery(d), CleanOk(d), WriteDestroyed(d, "")])
  {
    var u := Apply(t, DestroyQuery(d));
    OneStepRun(Apply(u, CleanOk(d)), WriteDestroyed(d, ""));
    var rest := [CleanOk(d), WriteDestroyed(d, "")];
    ConsRun(u, CleanOk(d), [WriteDestroyed(d, "")]);
    ConsRun(t, DestroyQuery(d), rest);
    assert [DestroyQuery(d)] + rest == [DestroyQuery(d), CleanOk(d), WriteDestroyed(d, "")];
  }

  ghost predicate HoldsWrite(run: seq<Action>, d: nat) {
    exists i :: 0 <= i < |run| && WriteBy(run[i], d)
  }

  lemma PendingScriptLetsDestroyWrite(s: State, d: nat) returns (run: seq<Action>)
    requires Inv(s) && AskedOfDestroyed(s, d) && MayStillWrite(s, s.destroys[d].uid)
    ensures CanRun(s, run) && HoldsWrite(run, d)
  {
    var k := s.owner[s.destroys[d].uid].k;
    var rest := [DestroyQuery(d), CleanOk(d), WriteDestroyed(d, "")];
    QueryAfterSuccess(s, d, k);
    CleaningWrites(Apply(s, ScriptSucceed(k, "")), d);
    ConsRun(s, ScriptSucceed(k, ""), rest);
    run := [ScriptSucceed(k, "")] + rest;
    assert WriteBy(run[3], d);
  }

  /** A request asked of a Destroyed row can come to write it exactly when the row's script is still running. */
  lemma RewriteOfDestroyedIff(s: State, d: nat)
    requires Reachable(s) && AskedOfDestroyed(s, d)
    ensures (exists run :: CanRun(s, run) && HoldsWrite(run, d)) <==> MayStillWrite(s, s.destroys[d].uid)
  {
    ReachableInv(s);
    if MayStillWrite(s, s.destroys[d].uid) {
      var run := PendingScriptLetsDestroyWrite(s, d);
    } else if run :| CanRun(s, run) && HoldsWrite(run, d) {
      DestroyingDestroyedWritesNothing(s, d, run);
    }
  }

  /** A live process that a destroy finds is the one it names exactly when that one is still alive. */
  lemma KillHitsOwnerIff(s: State, d: nat, target: nat)
    requires Reachable(s) && Enabled(s, FindHit(d, target)) && s.procs[target].alive
    ensures s.destroys[d].uid in s.owner && s.owner[s.destroys[d].uid].ByProc?
    ensures var p := s.owner[s.destroys[d].uid].p;
            p < |s.procs| && (target == p <==> s.procs[p].alive)
  {
    ReachableInv(s);
    assert DestroyKnows(s, s.destroys[d]);
    assert OwnerExists(s, s.destroys[d].uid);
  }
}
