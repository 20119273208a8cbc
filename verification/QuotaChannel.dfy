/** CpuStart and its workers as a state machine over the quota channel, in any interleaving. */
module QuotaChannel {
  import CpuQuota

  /** A value taken from the channel, and by which worker. */
  datatype Receipt = Receipt(worker: nat, value: int)

  datatype State = State(
    rounds: seq<int>,        // values of getQuota so far; the last is the one being sent
    sentOfRound: nat,        // copies of the last value sent
    buffer: seq<int>,        // the channel
    receipts: seq<Receipt>,  // everything taken from it, oldest first
    q: seq<int>,             // each worker's accumulator
    running: seq<bool>)      // workers that have not returned

  datatype Action = NextRound(value: int) | Send | Receive(worker: nat) | Stop(worker: nat)

  function Init(starts: seq<int>): State {
    State([], |starts|, [], [], starts, seq(|starts|, _ => true))
  }

  predicate Enabled(s: State, a: Action) {
    var workers := |s.q|;
    match a
    case NextRound(_) => s.sentOfRound == workers
    case Send => s.rounds != [] && s.sentOfRound < workers && |s.buffer| < workers
    case Receive(w) => w < workers && w < |s.running| && s.running[w] && s.buffer != []
    case Stop(w) => w < workers && w < |s.running| && s.running[w]
  }

  function Apply(s: State, a: Action): State
    requires Enabled(s, a)
  {
    match a
    case NextRound(value) => s.(rounds := s.rounds + [value], sentOfRound := 0)
    case Send => s.(buffer := s.buffer + [s.rounds[|s.rounds| - 1]], sentOfRound := s.sentOfRound + 1)
    case Receive(w) =>
      s.(buffer := s.buffer[1..], receipts := s.receipts + [Receipt(w, s.buffer[0])],
         q := s.q[w := CpuQuota.Clamp(s.q[w] + s.buffer[0])])
    case Stop(w) => s.(running := s.running[w := false])
  }

  predicate CanRun(s: State, run: seq<Action>)
    decreases run
  {
    run == [] || (Enabled(s, run[0]) && CanRun(Apply(s, run[0]), run[1..]))
  }

  function Final(s: State, run: seq<Action>): State
    requires CanRun(s, run)
    decreases run
  {
    if run == [] then s else Final(Apply(s, run[0]), run[1..])
  }

  function Copies(value: int, n: nat): seq<int> {
    seq(n, _ => value)
  }

  /** What the producer has sent: each finished round's value once a worker, and part of the last. */
  function Sent(rounds: seq<int>, workers: nat, sentOfRound: nat): seq<int> {
    if rounds == [] then []
    else
      var n := |rounds| - 1;
      Sent(rounds[..n], workers, workers) + Copies(rounds[n], sentOfRound)
  }

  function Values(receipts: seq<Receipt>): seq<int> {
    if receipts == [] then [] else Values(receipts[..|receipts| - 1]) + [receipts[|receipts| - 1].value]
  }

  /** The offsets that one worker got, oldest first. */
  function Of(receipts: seq<Receipt>, worker: nat): seq<int> {
    if receipts == [] then []
    else
      var last := receipts[|receipts| - 1];
      Of(receipts[..|receipts| - 1], worker) + if last.worker == worker then [last.value] else []
  }

  /** Each worker's q is the accumulator over what it received. */
  ghost predicate Accumulated(q: seq<int>, receipts: seq<Receipt>, starts: seq<int>)
    requires |q| == |starts|
  {
    forall w | 0 <= w < |starts| :: q[w] == CpuQuota.Accumulate(starts[w], Of(receipts, w))
  }

  ghost predicate Inv(s: State, starts: seq<int>) {
    && |s.q| == |starts| && |s.running| == |starts|
    && s.sentOfRound <= |starts|
    && (s.rounds == [] ==> s.sentOfRound == |starts|)
    && |s.buffer| <= |starts|
    && Sent(s.rounds, |starts|, s.sentOfRound) == Values(s.receipts) + s.buffer
    && Accumulated(s.q, s.receipts, starts)
    && (forall i | 0 <= i < |s.receipts| :: s.receipts[i].worker < |starts|)
  }

  lemma SendStep(s: State, starts: seq<int>)
    requires Inv(s, starts) && Enabled(s, Send)
    ensures Inv(Apply(s, Send), starts)
  {
    var n := |s.rounds| - 1;
    assert Copies(s.rounds[n], s.sentOfRound + 1) == Copies(s.rounds[n], s.sentOfRound) + [s.rounds[n]];
    var before := Sent(s.rounds[..n], |starts|, |starts|);
    assert before + Copies(s.rounds[n], s.sentOfRound + 1)
           == (before + Copies(s.rounds[n], s.sentOfRound)) + [s.rounds[n]];
  }

  lemma NextRoundStep(s: State, value: int, starts: seq<int>)
    requires Inv(s, starts) && Enabled(s, NextRound(value))
    ensures Inv(Apply(s, NextRound(value)), starts)
  {
    var rounds := s.rounds + [value];
    assert rounds[..|rounds| - 1] == s.rounds;
    assert Sent(rounds, |starts|, 0) == Sent(s.rounds, |starts|, |starts|);
  }

  lemma ValueRecorded(receipts: seq<Receipt>, r: Receipt)
    ensures Values(receipts + [r]) == Values(receipts) + [r.value]
  {
    assert (receipts + [r])[..|receipts + [r]| - 1] == receipts;
  }

  lemma OffsetRecorded(receipts: seq<Receipt>, r: Receipt, v: nat)
    ensures Of(receipts + [r], v) == if r.worker == v then Of(receipts, v) + [r.value] else Of(receipts, v)
  {
    assert (receipts + [r])[..|receipts + [r]| - 1] == receipts;
  }

  lemma AccumulateNext(q0: int, offsets: seq<int>, offset: int)
    ensures CpuQuota.Accumulate(q0, offsets + [offset]) == CpuQuota.Clamp(CpuQuota.Accumulate(q0, offsets) + offset)
  {
    assert (offsets + [offset])[..|offsets + [offset]| - 1] == offsets;
  }

  lemma ReceiveAccumulates(q: seq<int>, receipts: seq<Receipt>, starts: seq<int>, w: nat, value: int)
    requires |q| == |starts| && w < |starts| && Accumulated(q, receipts, starts)
    ensures Accumulated(q[w := CpuQuota.Clamp(q[w] + value)], receipts + [Receipt(w, value)], starts)
  {
    AccumulateNext(starts[w], Of(receipts, w), value);
    forall v: nat | v < |starts|
      ensures q[w := CpuQuota.Clamp(q[w] + value)][v]
              == CpuQuota.Accumulate(starts[v], Of(receipts + [Receipt(w, value)], v))
    {
      OffsetRecorded(receipts, Receipt(w, value), v);
    }
  }

  lemma ReceiveConserves(receipts: seq<Receipt>, buffer: seq<int>, w: nat)
    requires buffer != []
    ensures Values(receipts + [Receipt(w, buffer[0])]) + buffer[1..] == Values(receipts) + buffer
  {
    ValueRecorded(receipts, Receipt(w, buffer[0]));
  }

  lemma ReceiveStep(s: State, w: nat, starts: seq<int>)
    requires Inv(s, starts) && Enabled(s, Receive(w))
    ensures Inv(Apply(s, Receive(w)), starts)
  {
    ReceiveConserves(s.receipts, s.buffer, w);
    ReceiveAccumulates(s.q, s.receipts, starts, w, s.buffer[0]);
  }

  lemma Step(s: State, a: Action, starts: seq<int>)
    requires Inv(s, starts) && Enabled(s, a)
    ensures Inv(Apply(s, a), starts)
  {
    match a
    case NextRound(value) => NextRoundStep(s, value, starts);
    case Send => SendStep(s, starts);
    case Receive(w) => ReceiveStep(s, w, starts);
    case Stop(_) =>
  }

  lemma {:induction false} RunKeepsInv(s: State, run: seq<Action>, starts: seq<int>)
    requires Inv(s, starts) && CanRun(s, run)
    ensures Inv(Final(s, run), starts)
    decreases run
  {
    if run != [] {
      Step(s, run[0], starts);
      RunKeepsInv(Apply(s, run[0]), run[1..], starts);
    }
  }

  /**
   First in, first out, nothing lost, invented or copied: the receipts followed by the buffer are
   what the producer sent, and the buffer never exceeds one value a worker.
   */
  lemma ChannelConserves(starts: seq<int>, run: seq<Action>)
    requires CanRun(Init(starts), run)
    ensures var s := Final(Init(starts), run);
            && Sent(s.rounds, |starts|, s.sentOfRound) == Values(s.receipts) + s.buffer
            && |s.buffer| <= |starts| && s.sentOfRound <= |starts|
  {
    RunKeepsInv(Init(starts), run, starts);
  }

  /** The producer waits exactly while a round is unfinished and the buffer full, a running worker while it is empty. */
  lemma WaitsExactly(starts: seq<int>, run: seq<Action>)
    requires CanRun(Init(starts), run)
    ensures var s := Final(Init(starts), run);
            && (Enabled(s, Send) || (exists value :: Enabled(s, NextRound(value)))
                <==> !(s.sentOfRound < |starts| && |s.buffer| == |starts|))
            && |s.running| == |starts|
            && (forall w: nat | w < |starts| :: Enabled(s, Receive(w)) <==> s.running[w] && s.buffer != [])
  {
    RunKeepsInv(Init(starts), run, starts);
    var s := Final(Init(starts), run);
    if s.sentOfRound == |starts| {
      assert Enabled(s, NextRound(0));
    }
  }

  lemma StoppedStep(s: State, a: Action, starts: seq<int>, w: nat)
    requires Inv(s, starts) && Enabled(s, a) && w < |starts| && !s.running[w]
    ensures var t := Apply(s, a);
            && |t.running| == |t.q| == |starts| && !t.running[w]
            && t.q[w] == s.q[w] && Of(t.receipts, w) == Of(s.receipts, w)
  {
    if a.Receive? {
      OffsetRecorded(s.receipts, Receipt(a.worker, s.buffer[0]), w);
    }
  }

  lemma {:induction false} StoppedRun(s: State, run: seq<Action>, starts: seq<int>, w: nat)
    requires Inv(s, starts) && CanRun(s, run) && w < |starts| && !s.running[w]
    ensures var t := Final(s, run); w < |t.q| && t.q[w] == s.q[w] && Of(t.receipts, w) == Of(s.receipts, w)
    decreases run
  {
    if run != [] {
      StoppedStep(s, run[0], starts, w);
      Step(s, run[0], starts);
      StoppedRun(Apply(s, run[0]), run[1..], starts, w);
    }
  }

  /** A worker that returns takes nothing more from the channel, whatever the others go on to do. */
  lemma StoppedTakesNothing(starts: seq<int>, run: seq<Action>, w: nat, later: seq<Action>)
    requires CanRun(Init(starts), run) && Enabled(Final(Init(starts), run), Stop(w))
    requires CanRun(Apply(Final(Init(starts), run), Stop(w)), later)
    ensures var s := Final(Init(starts), run);
            var t := Final(Apply(s, Stop(w)), later);
            w < |s.q| && w < |t.q| && t.q[w] == s.q[w] && Of(t.receipts, w) == Of(s.receipts, w)
  {
    RunKeepsInv(Init(starts), run, starts);
    Step(Final(Init(starts), run), Stop(w), starts);
    StoppedRun(Apply(Final(Init(starts), run), Stop(w)), later, starts, w);
  }

  lemma {:induction false} SumConcat(a: seq<int>, b: seq<int>)
    ensures CpuQuota.Sum(a + b) == CpuQuota.Sum(a) + CpuQuota.Sum(b)
  {
    if b == [] {
      assert a + b == a;
    } else {
      assert (a + b)[..|a + b| - 1] == a + b[..|b| - 1];
      SumConcat(a, b[..|b| - 1]);
    }
  }

  /** Total over workers 0..n of what each received. */
  function ReceivedBy(receipts: seq<Receipt>, n: nat): int {
    if n == 0 then 0 else ReceivedBy(receipts, n - 1) + CpuQuota.Sum(Of(receipts, n - 1))
  }

  lemma {:induction false} LastReceipt(receipts: seq<Receipt>, n: nat)
    requires receipts != []
    ensures var last := receipts[|receipts| - 1];
            ReceivedBy(receipts, n)
            == ReceivedBy(receipts[..|receipts| - 1], n) + if last.worker < n then last.value else 0
    decreases n
  {
    if n > 0 {
      LastReceipt(receipts, n - 1);
      var last := receipts[|receipts| - 1];
      SumConcat(Of(receipts[..|receipts| - 1], n - 1), if last.worker == n - 1 then [last.value] else []);
      assert CpuQuota.Sum([last.value]) == last.value;
    }
  }

  lemma {:induction false} NoReceipts(n: nat)
    ensures ReceivedBy([], n) == 0
  {
    if n > 0 {
      NoReceipts(n - 1);
    }
  }

  lemma {:induction false} ReceiptsByWorker(receipts: seq<Receipt>, n: nat)
    requires forall i | 0 <= i < |receipts| :: receipts[i].worker < n
    ensures CpuQuota.Sum(Values(receipts)) == ReceivedBy(receipts, n)
  {
    if receipts == [] {
      NoReceipts(n);
    } else {
      ReceiptsByWorker(receipts[..|receipts| - 1], n);
      LastReceipt(receipts, n);
      SumConcat(Values(receipts[..|receipts| - 1]), [receipts[|receipts| - 1].value]);
    }
  }

  lemma {:induction false} SumOfCopies(value: int, n: nat)
    ensures CpuQuota.Sum(Copies(value, n)) == n * value
  {
    if n > 0 {
      assert Copies(value, n)[..n - 1] == Copies(value, n - 1);
      SumOfCopies(value, n - 1);
    }
  }

  lemma Distribute(n: int, a: int, b: int)
    ensures n * a + n * b == n * (a + b)
  {
  }

  lemma {:induction false} SumOfRounds(rounds: seq<int>, workers: nat)
    ensures CpuQuota.Sum(Sent(rounds, workers, workers)) == workers * CpuQuota.Sum(rounds)
  {
    if rounds != [] {
      var n := |rounds| - 1;
      SumOfRounds(rounds[..n], workers);
      SumConcat(Sent(rounds[..n], workers, workers), Copies(rounds[n], workers));
      SumOfCopies(rounds[n], workers);
      Distribute(workers, CpuQuota.Sum(rounds[..n]), rounds[n]);
    }
  }

  lemma SumOfSent(rounds: seq<int>, workers: nat, sentOfRound: nat)
    requires rounds != []
    ensures var n := |rounds| - 1;
            CpuQuota.Sum(Sent(rounds, workers, sentOfRound))
            == workers * CpuQuota.Sum(rounds[..n]) + sentOfRound * rounds[n]
  {
    var n := |rounds| - 1;
    SumConcat(Sent(rounds[..n], workers, workers), Copies(rounds[n], sentOfRound));
    SumOfCopies(rounds[n], sentOfRound);
    SumOfRounds(rounds[..n], workers);
  }

  /** Quota sent, cpuCount copies a finished round, is quota received over all workers plus quota buffered. */
  lemma QuotaConserved(starts: seq<int>, run: seq<Action>)
    requires CanRun(Init(starts), run)
    ensures var s := Final(Init(starts), run);
            s.rounds != [] ==>
              var n := |s.rounds| - 1;
              |starts| * CpuQuota.Sum(s.rounds[..n]) + s.sentOfRound * s.rounds[n]
              == ReceivedBy(s.receipts, |starts|) + CpuQuota.Sum(s.buffer)
  {
    RunKeepsInv(Init(starts), run, starts);
    var s := Final(Init(starts), run);
    if s.rounds != [] {
      SumOfSent(s.rounds, |starts|, s.sentOfRound);
      SumConcat(Values(s.receipts), s.buffer);
      ReceiptsByWorker(s.receipts, |starts|);
    }
  }

  /** In every state a worker that has received anything holds the peak of its own offsets. */
  lemma WorkersHoldPeaks(starts: seq<int>, run: seq<Action>, w: nat)
    requires CanRun(Init(starts), run) && w < |starts|
    ensures var s := Final(Init(starts), run);
            && w < |s.q|
            && (Of(s.receipts, w) == [] ==> s.q[w] == starts[w])
            && (Of(s.receipts, w) != [] ==> CpuQuota.IsPeak(s.q[w], starts[w], Of(s.receipts, w)))
  {
    RunKeepsInv(Init(starts), run, starts);
    var s := Final(Init(starts), run);
    if Of(s.receipts, w) != [] {
      CpuQuota.AccumulateIsPeak(starts[w], Of(s.receipts, w));
    }
  }
}
