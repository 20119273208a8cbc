/** generateUid of cpu.go, mem.go and script.go: draw a random uid until one is not in the table. */
module UidGeneration {
  import opened ExperimentTable
  import opened Options

  /** What util.GenerateUid hands out. */
  datatype Draw = Drawn(uid: string) | RandomFailed

  /** One call: its draw, and the rows that its query then sees; others insert between the calls. */
  datatype Round = Round(draw: Draw, rows: seq<Row>)

  datatype Outcome = Fresh(uid: string) | Failed | StillDrawing

  /** The recursion of generateUid over the rounds so far. */
  function GenerateUid(rounds: seq<Round>): Outcome {
    if rounds == [] then StillDrawing
    else
      match rounds[0].draw
      case RandomFailed => Failed
      case Drawn(uid) => if uid !in View(rounds[0].rows) then Fresh(uid) else GenerateUid(rounds[1..])
  }

  ghost predicate DistinctDraws(rounds: seq<Round>) {
    forall i, j | 0 <= i < j < |rounds| :: rounds[i].draw != rounds[j].draw
  }

  /** The round drew a uid, and its query saw it. */
  predicate DrewTaken(r: Round) {
    r.draw.Drawn? && r.draw.uid in View(r.rows)
  }

  /** Round n is the first that did not draw a taken uid. */
  ghost predicate Decides(rounds: seq<Round>, n: nat) {
    n < |rounds| && !DrewTaken(rounds[n]) && forall i | 0 <= i < n :: DrewTaken(rounds[i])
  }

  lemma DecidesLater(rounds: seq<Round>, n: nat)
    requires rounds != [] && DrewTaken(rounds[0]) && Decides(rounds[1..], n)
    ensures Decides(rounds, n + 1) && rounds[1..][n] == rounds[n + 1]
  {
    forall i | 0 <= i < n + 1 ensures DrewTaken(rounds[i]) {
      assert i > 0 ==> rounds[i] == rounds[1..][i - 1];
    }
  }

  /** The first round that did not draw a taken uid decides: its draw failed, or its uid is returned. */
  lemma {:induction false} FirstRoundDecides(rounds: seq<Round>) returns (n: Option<nat>)
    ensures n.None? <==> forall i | 0 <= i < |rounds| :: DrewTaken(rounds[i])
    ensures n.None? ==> GenerateUid(rounds) == StillDrawing
    ensures n.Some? ==> Decides(rounds, n.value)
    ensures n.Some? ==> GenerateUid(rounds) == match rounds[n.value].draw
                                               case RandomFailed => Failed
                                               case Drawn(uid) => Fresh(uid)
  {
    if rounds == [] {
      n := None;
    } else if !DrewTaken(rounds[0]) {
      n := Some(0);
    } else {
      n := FirstRoundDecides(rounds[1..]);
      if n.None? {
        forall i | 0 <= i < |rounds| ensures DrewTaken(rounds[i]) {
          assert i > 0 ==> rounds[i] == rounds[1..][i - 1];
        }
      } else {
        DecidesLater(rounds, n.value);
        n := Some(n.value + 1);
      }
    }
  }

  lemma DecidesOnce(rounds: seq<Round>, m: nat, n: nat)
    requires Decides(rounds, m) && Decides(rounds, n)
    ensures m == n
  {
  }

  /** A uid is returned exactly if some round drew it and its query did not see it, after rounds that saw theirs. */
  lemma FreshIff(rounds: seq<Round>, uid: string)
    ensures GenerateUid(rounds) == Fresh(uid)
            <==> exists n: nat :: Decides(rounds, n) && rounds[n].draw == Drawn(uid) && uid !in View(rounds[n].rows)
  {
    var first := FirstRoundDecides(rounds);
    forall n: nat | Decides(rounds, n) ensures first == Some(n) {
      if first.Some? {
        DecidesOnce(rounds, first.value, n);
      }
    }
  }

  /** It fails exactly if a draw fails after rounds that saw theirs. */
  lemma FailedIff(rounds: seq<Round>)
    ensures GenerateUid(rounds) == Failed <==> exists n: nat :: Decides(rounds, n) && rounds[n].draw == RandomFailed
  {
    var first := FirstRoundDecides(rounds);
    forall n: nat | Decides(rounds, n) ensures first == Some(n) {
      if first.Some? {
        DecidesOnce(rounds, first.value, n);
      }
    }
  }

  /** It goes on exactly while every round drew a uid that its query saw. */
  lemma StillDrawingIff(rounds: seq<Round>)
    ensures GenerateUid(rounds) == StillDrawing
            <==> forall i | 0 <= i < |rounds| :: rounds[i].draw.Drawn? && rounds[i].draw.uid in View(rounds[i].rows)
  {
    var first := FirstRoundDecides(rounds);
  }

  lemma {:induction false} ViewSize(rows: seq<Row>)
    ensures |View(rows)| <= |rows|
  {
    if rows != [] {
      ViewSize(rows[..|rows| - 1]);
    }
  }

  lemma {:induction false} DrawsAreUsedUp(rounds: seq<Round>, left: set<string>)
    requires DistinctDraws(rounds) && GenerateUid(rounds).StillDrawing?
    requires forall i | 0 <= i < |rounds| && rounds[i].draw.Drawn? && rounds[i].draw.uid in View(rounds[i].rows) ::
               rounds[i].draw.uid in left
    ensures |rounds| <= |left|
  {
    if rounds != [] {
      var uid, rest := rounds[0].draw.uid, rounds[1..];
      forall i | 0 <= i < |rest| && rest[i].draw.Drawn? && rest[i].draw.uid in View(rest[i].rows)
        ensures rest[i].draw.uid in left - {uid}
      {
        assert rest[i] == rounds[i + 1] && rounds[0].draw != rounds[i + 1].draw;
      }
      DrawsAreUsedUp(rest, left - {uid});
    }
  }

  /**
   With different draws, and no uid leaving the table, it ends within one round more than there are
   rows, and with a uid if no draw fails.
   */
  lemma {:induction false} GenerateUidEnds(rounds: seq<Round>, rows: seq<Row>)
    requires DistinctDraws(rounds) && |rounds| > |rows|
    requires forall i | 0 <= i < |rounds| :: View(rounds[i].rows).Keys <= View(rows).Keys
    ensures !GenerateUid(rounds).StillDrawing?
    ensures (forall i | 0 <= i < |rounds| :: rounds[i].draw.Drawn?) ==> GenerateUid(rounds).Fresh?
  {
    if GenerateUid(rounds).StillDrawing? {
      ViewSize(rows);
      DrawsAreUsedUp(rounds, View(rows).Keys);
    }
    var first := FirstRoundDecides(rounds);
  }
}
