/**
 The cpu burner of web/category/cpu_main.go: one producer sends quota offsets into a channel of
 capacity cpuCount, and cpuCount workers each accumulate what they receive.
 */
module CpuQuota {
  const PERIOD: int := 1_000_000_000

  /** Go's conversion of a float to int64 truncates toward zero. */
  function Trunc(x: real): int {
    if x < 0.0 then -(-x).Floor else x.Floor
  }

  /** getQuota, with percentages as reals. */
  function Quota(target: real, used: real): int {
    Trunc((target - used) / 100.0 * PERIOD as real)
  }

  lemma QuotaWithinPeriod(target: real, used: real)
    requires 0.0 <= target <= 100.0 && 0.0 <= used <= 100.0
    ensures -PERIOD <= Quota(target, used) <= PERIOD
  {
    var x := (target - used) / 100.0 * PERIOD as real;
    assert -1.0 <= (target - used) / 100.0 <= 1.0;
    assert -(PERIOD as real) <= x <= PERIOD as real;
  }

  /** The offset is the gap between target and usage as a share of the period, rounded toward zero. */
  lemma QuotaTracksGap(target: real, used: real)
    ensures var gap, q := (target - used) / 100.0 * PERIOD as real, Quota(target, used) as real;
            if target >= used then 0.0 <= q <= gap < q + 1.0 else q - 1.0 < gap <= q <= 0.0
  {
    var gap := (target - used) / 100.0 * PERIOD as real;
    if target >= used {
      assert gap >= 0.0;
    } else {
      assert gap < 0.0;
    }
  }

  function Clamp(q: int): int {
    if q < 0 then 0 else q
  }

  /** A worker's q after the offsets received so far; the start value itself is not clamped. */
  function Accumulate(q0: int, offsets: seq<int>): int {
    if offsets == [] then q0
    else Clamp(Accumulate(q0, offsets[..|offsets| - 1]) + offsets[|offsets| - 1])
  }

  function Sum(s: seq<int>): int {
    if s == [] then 0 else Sum(s[..|s| - 1]) + s[|s| - 1]
  }

  /** Sums of the offsets after position k, as S_n - S_k in prefix sums. */
  function Tail(offsets: seq<int>, k: nat): int
    requires k <= |offsets|
  {
    Sum(offsets) - Sum(offsets[..k])
  }

  /** m is the maximum of q0 + S_n and of all S_n - S_k with 1 <= k <= n. */
  ghost predicate IsPeak(m: int, q0: int, offsets: seq<int>) {
    && q0 + Sum(offsets) <= m
    && (forall k | 1 <= k <= |offsets| :: Tail(offsets, k) <= m)
    && (m == q0 + Sum(offsets) || exists k | 1 <= k <= |offsets| :: m == Tail(offsets, k))
  }

  lemma TailOfLonger(offsets: seq<int>, k: nat)
    requires offsets != [] && k < |offsets|
    ensures Tail(offsets, k) == Tail(offsets[..|offsets| - 1], k) + offsets[|offsets| - 1]
  {
    assert offsets[..|offsets| - 1][..k] == offsets[..k];
  }

  lemma TailAtEnd(offsets: seq<int>)
    ensures Tail(offsets, |offsets|) == 0
  {
    assert offsets[..|offsets|] == offsets;
  }

  /** Closed form of the clamped accumulator. */
  lemma {:induction false} AccumulateIsPeak(q0: int, offsets: seq<int>)
    requires offsets != []
    ensures IsPeak(Accumulate(q0, offsets), q0, offsets)
  {
    var n := |offsets| - 1;
    var init, q := offsets[..n], Accumulate(q0, offsets);
    TailAtEnd(offsets);
    if n == 0 {
      assert init == [];
    } else {
      AccumulateIsPeak(q0, init);
      forall k | 1 <= k <= n ensures Tail(offsets, k) == Tail(init, k) + offsets[n] {
        TailOfLonger(offsets, k);
      }
      var before := Accumulate(q0, init);
      if q > 0 && before != q0 + Sum(init) {
        var k :| 1 <= k <= n && before == Tail(init, k);
        assert q == Tail(offsets, k);
      } else if q == 0 {
        assert q == Tail(offsets, n + 1);
      }
    }
  }

  /** Raising any offset, or the start, never lowers q. */
  lemma {:induction false} AccumulateMonotone(q0: int, q1: int, a: seq<int>, b: seq<int>)
    requires q0 <= q1 && |a| == |b| && forall i | 0 <= i < |a| :: a[i] <= b[i]
    ensures Accumulate(q0, a) <= Accumulate(q1, b)
  {
    if a != [] {
      AccumulateMonotone(q0, q1, a[..|a| - 1], b[..|b| - 1]);
    }
  }

  /** With usage and target between 0 and 100 percent, n receives keep q within n + 1 periods. */
  lemma {:induction false} AccumulateBounded(q0: int, offsets: seq<int>)
    requires q0 <= PERIOD && forall i | 0 <= i < |offsets| :: offsets[i] <= PERIOD
    ensures Accumulate(q0, offsets) <= (|offsets| + 1) * PERIOD
    ensures offsets != [] ==> Accumulate(q0, offsets) >= 0
  {
    if offsets != [] {
      AccumulateBounded(q0, offsets[..|offsets| - 1]);
    }
  }

  /** The same in terms of what is measured: usage readings, one before the loop and one for each offset. */
  lemma WorkerBounded(target: real, first: real, readings: seq<real>, offsets: seq<int>)
    requires 0.0 <= target <= 100.0 && 0.0 <= first <= 100.0
    requires |offsets| == |readings|
    requires forall i | 0 <= i < |readings| :: 0.0 <= readings[i] <= 100.0 && offsets[i] == Quota(target, readings[i])
    ensures Accumulate(Quota(target, first), offsets) <= (|offsets| + 1) * PERIOD
    ensures offsets != [] ==> Accumulate(Quota(target, first), offsets) >= 0
  {
    QuotaWithinPeriod(target, first);
    forall i | 0 <= i < |offsets| ensures offsets[i] <= PERIOD {
      QuotaWithinPeriod(target, readings[i]);
    }
    AccumulateBounded(Quota(target, first), offsets);
  }

  /** What a worker's select picks in one round of its loop; a slow spin is one of more than 5 seconds. */
  datatype Event = Received(offset: int) | Spun(slow: bool) | ContextDone

  datatype Ending = StillRunning | ReturnedSlow | ExitedSuccess

  /** Offsets a worker takes before it ends. */
  function Offsets(events: seq<Event>): seq<int> {
    if events == [] then []
    else
      match events[0]
      case Received(offset) => [offset] + Offsets(events[1..])
      case Spun(slow) => if slow then [] else Offsets(events[1..])
      case ContextDone => []
  }

  function EndingOf(events: seq<Event>): Ending {
    if events == [] then StillRunning
    else
      match events[0]
      case Received(_) => EndingOf(events[1..])
      case Spun(slow) => if slow then ReturnedSlow else EndingOf(events[1..])
      case ContextDone => ExitedSuccess
  }

  /** Rounds that receive, in order: exactly the offsets received, and the worker goes on. */
  lemma {:induction false} OffsetsOfReceives(events: seq<Event>)
    requires forall i | 0 <= i < |events| :: events[i].Received?
    ensures |Offsets(events)| == |events| && forall i | 0 <= i < |events| :: Offsets(events)[i] == events[i].offset
    ensures EndingOf(events) == StillRunning
  {
    if events != [] {
      OffsetsOfReceives(events[1..]);
    }
  }

  /** The worker's last round: a slow spin returns, a done context exits. */
  predicate EndsWorker(e: Event) {
    e == Spun(true) || e == ContextDone
  }

  ghost predicate GoesOn(events: seq<Event>) {
    forall i | 0 <= i < |events| :: !EndsWorker(events[i])
  }

  lemma {:induction false} OffsetsConcat(a: seq<Event>, b: seq<Event>)
    requires GoesOn(a)
    ensures Offsets(a + b) == Offsets(a) + Offsets(b) && EndingOf(a + b) == EndingOf(b)
  {
    if a == [] {
      assert a + b == b;
    } else {
      assert (a + b)[1..] == a[1..] + b;
      OffsetsConcat(a[1..], b);
    }
  }

  /** A fast spin changes nothing, wherever it comes. */
  lemma FastSpinIsSilent(a: seq<Event>, b: seq<Event>)
    requires GoesOn(a)
    ensures Offsets(a + [Spun(false)] + b) == Offsets(a + b) && EndingOf(a + [Spun(false)] + b) == EndingOf(a + b)
  {
    assert a + [Spun(false)] + b == a + ([Spun(false)] + b);
    assert ([Spun(false)] + b)[1..] == b;
    OffsetsConcat(a, [Spun(false)] + b);
    OffsetsConcat(a, b);
  }

  /** The first slow spin or done context cuts the offsets off and decides the ending. */
  lemma EndCutsOff(a: seq<Event>, e: Event, b: seq<Event>)
    requires GoesOn(a) && EndsWorker(e)
    ensures Offsets(a + [e] + b) == Offsets(a)
    ensures EndingOf(a + [e] + b) == if e == ContextDone then ExitedSuccess else ReturnedSlow
  {
    assert a + [e] + b == a + ([e] + b);
    OffsetsConcat(a, [e] + b);
  }

  lemma {:induction false} AccumulateFrom(q0: int, offset: int, rest: seq<int>)
    ensures Accumulate(Clamp(q0 + offset), rest) == Accumulate(q0, [offset] + rest)
  {
    if rest == [] {
      assert ([offset] + rest)[..0] == [];
    } else {
      var all := [offset] + rest;
      assert all[..|all| - 1] == [offset] + rest[..|rest| - 1];
      AccumulateFrom(q0, offset, rest[..|rest| - 1]);
    }
  }

  function Brought(e: Event): int {
    if e.Received? then e.offset else 0
  }

  /** What the rounds from i on bring in all. */
  function Gain(events: seq<Event>, i: nat): int {
    if i >= |events| then 0 else Gain(events[..|events| - 1], i) + Brought(events[|events| - 1])
  }

  ghost predicate NoReceive(events: seq<Event>) {
    forall i | 0 <= i < |events| :: !events[i].Received?
  }

  ghost predicate IsUpper(q: int, q0: int, events: seq<Event>) {
    q0 + Gain(events, 0) <= q && forall i: nat | i < |events| && events[i].Received? :: Gain(events, i + 1) <= q
  }

  ghost predicate IsReached(q: int, q0: int, events: seq<Event>) {
    q == q0 + Gain(events, 0) || exists i: nat :: i < |events| && events[i].Received? && q == Gain(events, i + 1)
  }

  /** Without a receive q is the start, with one the largest of start plus gain and of the gains after each receive. */
  ghost predicate PeakOver(q: int, q0: int, events: seq<Event>) {
    if NoReceive(events) then q == q0 else IsUpper(q, q0, events) && IsReached(q, q0, events)
  }

  lemma GainNext(events: seq<Event>, e: Event, i: nat)
    requires i <= |events|
    ensures Gain(events + [e], i) == Gain(events, i) + Brought(e)
  {
    assert (events + [e])[..|events + [e]| - 1] == events;
  }

  lemma {:induction false} NoReceiveNoGain(events: seq<Event>, i: nat)
    requires NoReceive(events)
    ensures Gain(events, i) == 0
    decreases events
  {
    if i < |events| {
      NoReceiveNoGain(events[..|events| - 1], i);
    }
  }

  lemma UpperMoves(q: int, q0: int, events: seq<Event>, e: Event)
    requires IsUpper(q, q0, events)
    ensures IsUpper(if e.Received? then Clamp(q + e.offset) else q, q0, events + [e])
  {
    var longer := events + [e];
    GainNext(events, e, 0);
    forall i: nat | i < |longer| && longer[i].Received?
      ensures Gain(longer, i + 1) <= if e.Received? then Clamp(q + e.offset) else q
    {
      if i < |events| {
        GainNext(events, e, i + 1);
      }
    }
  }

  lemma ReachedMoves(q: int, q0: int, events: seq<Event>, e: Event)
    requires IsReached(q, q0, events)
    ensures IsReached(if e.Received? then Clamp(q + e.offset) else q, q0, events + [e])
  {
    var longer, n := events + [e], |events|;
    var r := if e.Received? then Clamp(q + e.offset) else q;
    GainNext(events, e, 0);
    if e.Received? && r == 0 {
      assert longer[n].Received? && r == Gain(longer, n + 1);
    } else if i: nat :| i < n && events[i].Received? && q == Gain(events, i + 1) {
      GainNext(events, e, i + 1);
      assert longer[i].Received? && r == Gain(longer, i + 1);
    }
  }

  lemma NoReceiveNext(events: seq<Event>, e: Event)
    ensures NoReceive(events + [e]) <==> NoReceive(events) && !e.Received?
  {
    var longer := events + [e];
    assert longer[|events|] == e;
    assert forall i | 0 <= i < |events| :: longer[i] == events[i];
  }

  /** A receive moves the peak by its offset, but not below zero, which is the gain after the receive itself. */
  lemma PeakMoves(q: int, q0: int, events: seq<Event>, e: Event)
    requires PeakOver(q, q0, events)
    ensures PeakOver(if e.Received? then Clamp(q + e.offset) else q, q0, events + [e])
  {
    NoReceiveNext(events, e);
    if NoReceive(events) {
      NoReceiveNoGain(events, 0);
      assert IsUpper(q, q0, events) && IsReached(q, q0, events);
    }
    UpperMoves(q, q0, events, e);
    ReachedMoves(q, q0, events, e);
  }

  /** What holds after the first i rounds of a worker that goes on. */
  ghost predicate WorkerAt(q: int, q0: int, events: seq<Event>, i: nat) {
    && i <= |events| && GoesOn(events[..i]) && PeakOver(q, q0, events[..i])
    && Accumulate(q, Offsets(events[i..])) == Accumulate(q0, Offsets(events))
    && EndingOf(events[i..]) == EndingOf(events)
  }

  lemma WorkerNext(q: int, q0: int, events: seq<Event>, i: nat)
    requires WorkerAt(q, q0, events, i) && i < |events| && !EndsWorker(events[i])
    ensures WorkerAt(if events[i].Received? then Clamp(q + events[i].offset) else q, q0, events, i + 1)
  {
    assert events[i..][1..] == events[i + 1..];
    assert events[..i + 1] == events[..i] + [events[i]];
    PeakMoves(q, q0, events[..i], events[i]);
    if events[i].Received? {
      AccumulateFrom(q, events[i].offset, Offsets(events[i + 1..]));
    }
  }

  /**
   One worker over a finite prefix of its rounds, of which it takes the first rounds. The sleep is
   computed once, before the loop, and is the rest of the period only while q is where it started,
   or if both leave no rest.
   */
  method Burn(q0: int, events: seq<Event>) returns (q: int, sleep: int, ending: Ending, rounds: nat)
    ensures q == Accumulate(q0, Offsets(events)) && ending == EndingOf(events)
    ensures rounds <= |events| && GoesOn(events[..rounds]) && PeakOver(q, q0, events[..rounds])
    ensures if rounds == |events| then ending == StillRunning
            else
              && EndsWorker(events[rounds])
              && ending == if events[rounds] == ContextDone then ExitedSuccess else ReturnedSlow
    ensures sleep == Clamp(PERIOD - q0)
    ensures sleep == Clamp(PERIOD - q) <==> q == q0 || (q0 >= PERIOD && q >= PERIOD)
  {
    q := q0;
    var ds := PERIOD - q;
    if ds < 0 {
      ds := 0;
    }
    sleep := ds;
    ending := StillRunning;
    assert events[0..] == events;
    for i := 0 to |events|
      invariant sleep == Clamp(PERIOD - q0)
      invariant ending == StillRunning && WorkerAt(q, q0, events, i)
    {
      match events[i]
      case Received(offset) =>
        WorkerNext(q, q0, events, i);
        q := q + offset;
        if q < 0 {
          q := 0;
        }
        // The remainder computed here is a new variable that nothing reads.
        var remainder := PERIOD - q;
        if remainder < 0 {
          remainder := 0;
        }
      case ContextDone =>
        ending := ExitedSuccess;
        return q, sleep, ending, i;
      case Spun(slow) =>
        if slow {
          ending := ReturnedSlow;
          return q, sleep, ending, i;
        }
        WorkerNext(q, q0, events, i);
    }
    assert events[..|events|] == events;
    rounds := |events|;
  }
}
