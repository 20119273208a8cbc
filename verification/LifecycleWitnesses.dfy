/** Concrete runs on which the lifecycle does what its users would not expect. */
module LifecycleWitnesses {
  import opened ExperimentTable
  import opened Lifecycle
  import opened LifecycleInvariant
  import opened LifecycleTheorems
  import opened Names
  import opened Options
  import Decimal

  lemma {:induction false} RunSnoc(s: State, run: seq<Action>, a: Action)
    requires CanRun(s, run) && Enabled(Final(s, run), a)
    ensures CanRun(s, run + [a]) && Final(s, run + [a]) == Apply(Final(s, run), a)
    decreases run
  {
    if run == [] {
      assert run + [a] == [a];
      OneStepRun(s, a);
    } else {
      RunSnoc(Apply(s, run[0]), run[1..], a);
      assert (run + [a])[1..] == run[1..] + [a];
    }
  }

  lemma ReachableStep(s: State, a: Action)
    requires Reachable(s) && Enabled(s, a)
    ensures Reachable(Apply(s, a))
  {
    var run :| CanRun(INIT, run) && Final(INIT, run) == s;
    RunSnoc(INIT, run, a);
  }

  lemma InitReachable()
    ensures Reachable(INIT)
  {
    assert CanRun(INIT, []) && Final(INIT, []) == INIT;
  }

  lemma InsertAlone(m: ExperimentModel)
    ensures View(Insert(EMPTY_TABLE, m).rows) == map[m.uid := NewRow(1, m)]
  {
    InsertRefines(EMPTY_TABLE, m);
  }

  lemma Take(s: State, a: Action) returns (t: State)
    requires Reachable(s) && Enabled(s, a)
    ensures t == Apply(s, a) && Reachable(t)
  {
    t := Apply(s, a);
    ReachableStep(s, a);
  }

  lemma RunningScript() returns (s: State)
    ensures Reachable(s) && s.procs == [] && s.destroys == [] && s.owner == map["u" := ByScript(0)]
    ensures s.scripts == [ScriptRun("u", "d/", "", true, Inserted)]
    ensures Rows(s) == map["u" := NewRow(1, ScriptModel(s.scripts[0], "t1"))]
  {
    InitReachable();
    s := Take(INIT, StartScript("u", "d/", "", true));
    InsertAlone(ScriptModel(s.scripts[0], "t1"));
    s := Take(s, ScriptInsert(0, "t1"));
  }

  lemma RunningScriptQueried() returns (s: State)
    ensures Reachable(s) && s.owner == map["u" := ByScript(0)] && s.destroys == [Destroy("u", Cleaning("d/"))]
    ensures s.scripts == [ScriptRun("u", "d/", "", true, Inserted)] && "u" in Rows(s)
  {
    s := RunningScript();
    s := Take(s, AskDestroy("u"));
    s := Take(s, DestroyQuery(0));
  }

  lemma RunningScriptCleaned() returns (s: State)
    ensures Reachable(s) && s.owner == map["u" := ByScript(0)] && s.destroys == [Destroy("u", Writing)]
    ensures s.scripts == [ScriptRun("u", "d/", "", true, Inserted)] && "u" in Rows(s)
  {
    s := RunningScriptQueried();
    s := Take(s, CleanOk(0));
  }

  lemma RunningScriptDestroyed() returns (s: State)
    ensures Reachable(s) && IsDestroyed(s, "u") && MayStillWrite(s, "u") && s.owner["u"] == ByScript(0)
    ensures s.destroys == [Destroy("u", Answered(Done))]
  {
    s := RunningScriptCleaned();
    ReachableInv(s);
    DestroyWriteShows(s, 0, "t2");
    s := Take(s, WriteDestroyed(0, "t2"));
  }

  /** A script is inserted, destroyed while it runs, and then reports Success over the Destroyed. */
  lemma ScriptOverwriteWitness() returns (s: State, run: seq<Action>)
    ensures Reachable(s) && IsDestroyed(s, "u") && s.destroys == [Destroy("u", Answered(Done))]
    ensures CanRun(s, run) && "u" in Rows(Final(s, run)) && Rows(Final(s, run))["u"].status == SUCCESS
  {
    s := RunningScriptDestroyed();
    ReachableInv(s);
    UpdateRefines(s.table, "u", SUCCESS, "", "t3");
    assert OwnerExists(s, "u");
    OneStepRun(s, ScriptSucceed(0, "t3"));
    run := [ScriptSucceed(0, "t3")];
  }

  const DEAD_A := Burner(7, false, "a", Cpu, 50, true)
  const LIVE_B := Burner(7, true, "b", Cpu, 50, true)

  lemma FinishedBurn() returns (s: State)
    ensures Reachable(s) && s.procs == [DEAD_A] && s.destroys == [] && s.owner == map["a" := ByProc(0)]
    ensures Rows(s) == map["a" := NewRow(1, BurnerModel(DEAD_A, "t"))]
  {
    InitReachable();
    s := Take(INIT, SpawnBurner("a", Cpu, 50, 7));
    InsertAlone(BurnerModel(s.procs[0], "t"));
    s := Take(s, BurnerInsert(0, "t"));
    s := Take(s, Die(0));
  }

  lemma PidTakenAgain() returns (s: State)
    ensures Reachable(s) && s.procs == [DEAD_A, LIVE_B.(inserted := false)] && s.destroys == []
    ensures s.owner == map["a" := ByProc(0), "b" := ByProc(1)]
    ensures Rows(s) == map["a" := NewRow(1, BurnerModel(DEAD_A, "t"))]
  {
    s := FinishedBurn();
    s := Take(s, SpawnBurner("b", Cpu, 50, 7));
  }

  lemma PidReused() returns (s: State)
    ensures Reachable(s) && s.procs == [DEAD_A, LIVE_B] && s.destroys == []
    ensures s.owner == map["a" := ByProc(0), "b" := ByProc(1)]
    ensures "a" in Rows(s) && Rows(s)["a"] == NewRow(1, BurnerModel(DEAD_A, "t"))
    ensures "b" in Rows(s) && Rows(s)["b"].status == CREATED
  {
    s := PidTakenAgain();
    ReachableInv(s);
    InsertRefines(s.table, BurnerModel(s.procs[1], "t"));
    s := Take(s, BurnerInsert(1, "t"));
  }

  lemma PidReusedAsked() returns (s: State)
    ensures Reachable(s) && s.procs == [DEAD_A, LIVE_B] && s.destroys == [Destroy("a", Asked)]
    ensures s.owner == map["a" := ByProc(0), "b" := ByProc(1)]
    ensures "a" in Rows(s) && Rows(s)["a"] == NewRow(1, BurnerModel(DEAD_A, "t"))
    ensures "b" in Rows(s) && Rows(s)["b"].status == CREATED
  {
    s := PidReused();
    s := Take(s, AskDestroy("a"));
  }

  lemma PidReusedQueried() returns (s: State)
    ensures Reachable(s) && s.procs == [DEAD_A, LIVE_B] && s.destroys == [Destroy("a", Finding(7))]
    ensures s.owner == map["a" := ByProc(0), "b" := ByProc(1)]
    ensures "b" in Rows(s) && Rows(s)["b"].status == CREATED
  {
    s := PidReusedAsked();
    assert Decimal.ParseInt64(Decimal.FormatInt(7)) == Some(7) by {
      Decimal.ParseOfFormat(7);
    }
    s := Take(s, DestroyQuery(0));
  }

  /** The pid of a finished burn is reused; destroying that burn kills the new holder, which nobody asked to destroy. */
  lemma ReusedPidWitness() returns (s: State)
    ensures Reachable(s)
    ensures forall d | 0 <= d < |s.destroys| :: s.destroys[d].uid == "a"
    ensures "b" in s.owner && s.owner["b"] == ByProc(1) && |s.procs| == 2 && !s.procs[1].alive
    ensures "b" in Rows(s) && Rows(s)["b"].status == CREATED
  {
    s := PidReusedQueried();
    s := Take(s, FindHit(0, 1));
    s := Take(s, KillOk(0));
  }

  const OUTSIDER := Foreign(7, true)

  lemma PidTakenByOutsider() returns (s: State)
    ensures Reachable(s) && s.procs == [DEAD_A, OUTSIDER] && s.destroys == [Destroy("a", Asked)]
    ensures s.owner == map["a" := ByProc(0)]
    ensures Rows(s) == map["a" := NewRow(1, BurnerModel(DEAD_A, "t"))]
  {
    s := FinishedBurn();
    s := Take(s, SpawnForeign(7));
    s := Take(s, AskDestroy("a"));
  }

  lemma OutsiderFound() returns (s: State)
    ensures Reachable(s) && s.procs == [DEAD_A, OUTSIDER] && s.destroys == [Destroy("a", Finding(7))]
  {
    s := PidTakenByOutsider();
    assert Decimal.ParseInt64(Decimal.FormatInt(7)) == Some(7) by {
      Decimal.ParseOfFormat(7);
    }
    s := Take(s, DestroyQuery(0));
  }

  /** The same with a process that is no experiment at all: destroying a finished burn kills it. */
  lemma OutsiderKilledWitness() returns (s: State)
    ensures Reachable(s) && s.procs == [DEAD_A, Foreign(7, false)] && s.destroys == [Destroy("a", Writing)]
  {
    s := OutsiderFound();
    s := Take(s, FindHit(0, 1));
    s := Take(s, KillOk(0));
  }
}
