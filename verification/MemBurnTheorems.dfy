/** Safety and convergence of the memory burner, and the shape of its segmented buffer. */
module MemBurnTheorems {
  import opened MemBurn

  function TotalBlocks(segments: map<int, Slice>, n: int): int
    requires forall k | 1 <= k <= n :: k in segments
  {
    if n <= 0 then 0 else TotalBlocks(segments, n - 1) + segments[n].len
  }

  lemma {:induction false} TotalOfFrozen(a: map<int, Slice>, b: map<int, Slice>, n: int)
    requires forall k | 1 <= k <= n :: k in a && k in b && a[k] == b[k]
    ensures TotalBlocks(a, n) == TotalBlocks(b, n)
  {
    if n > 0 {
      TotalOfFrozen(a, b, n - 1);
    }
  }

  ghost predicate FrozenBelow(c: Cache, d: Cache)
    requires CacheOk(c) && CacheOk(d)
  {
    c.count <= d.count && forall k | 1 <= k < c.count :: d.segments[k] == c.segments[k]
  }

  /** What one fill does: segments before the current one stay, and a non-empty one moves only when it must. */
  lemma FillShape(c: Cache, wanted: int, fill: int, slack: nat)
    requires CacheOk(c) && 0 < fill <= wanted
    ensures var d := FillCache(c, wanted, fill, slack);
            && CacheOk(d) && d.count <= c.count + 1
            && FrozenBelow(c, d)
            && (d.count == c.count && d.segments[c.count].cap != c.segments[c.count].cap
                ==> c.segments[c.count].cap * 5 / 4 < 8 * wanted)
            && (d.count == c.count + 1
                ==> && d.segments[c.count] == c.segments[c.count] && c.segments[c.count].len > 0
                    && c.segments[c.count].cap - c.segments[c.count].len < 8 * fill
                    && c.segments[c.count].cap * 5 / 4 >= 8 * wanted)
  {
  }

  lemma FillTotal(c: Cache, wanted: int, fill: int, slack: nat)
    requires CacheOk(c) && 0 < fill <= wanted
    ensures var d := FillCache(c, wanted, fill, slack);
            CacheOk(d) && TotalBlocks(d.segments, d.count) == TotalBlocks(c.segments, c.count) + 8 * fill
  {
    var d := FillCache(c, wanted, fill, slack);
    FillShape(c, wanted, fill, slack);
    TotalOfFrozen(c.segments, d.segments, d.count - 1);
  }

  lemma FillBounds(wanted: int, rate: int)
    requires rate > 0
    ensures 0 <= Fill(wanted, rate)
    ensures Fill(wanted, rate) > 0 ==> Fill(wanted, rate) <= wanted && Fill(wanted, rate) <= rate
    ensures wanted > rate ==> Fill(wanted, rate) == rate
    ensures 0 <= wanted <= rate ==> 10 * Fill(wanted, rate) <= wanted < 10 * (Fill(wanted, rate) + 1)
    ensures wanted <= 0 ==> Fill(wanted, rate) == 0
  {
  }

  /**
   One tick, for any over-allocation by append: finished segments stay, the blocks grow by 8 for
   each MB filled, a segment is reallocated only when a quarter more than its capacity falls short
   of what is wanted, and one is abandoned only when it is not empty.
   */
  lemma TickShape(c: Cache, wanted: int, rate: int, slack: nat)
    requires CacheOk(c) && rate > 0
    ensures var d := TickCache(c, wanted, rate, slack);
            && CacheOk(d) && FrozenBelow(c, d)
            && TotalBlocks(d.segments, d.count) == TotalBlocks(c.segments, c.count) + 8 * Fill(wanted, rate)
            && (d.segments[c.count].cap != c.segments[c.count].cap
                ==> && d.count == c.count && c.segments[c.count].cap * 5 / 4 < 8 * wanted
                    && c.segments[c.count].cap - c.segments[c.count].len < 8 * Fill(wanted, rate))
            && (d.count != c.count
                ==> d.count == c.count + 1 && d.segments[c.count] == c.segments[c.count] && c.segments[c.count].len > 0)
            && (d.count != c.count
                <==> Fill(wanted, rate) > 0 && c.segments[c.count].cap * 5 / 4 >= 8 * wanted
                     && c.segments[c.count].cap - c.segments[c.count].len < 8 * Fill(wanted, rate))
  {
    FillBounds(wanted, rate);
    if Fill(wanted, rate) > 0 {
      FillShape(c, wanted, Fill(wanted, rate), slack);
      FillTotal(c, wanted, Fill(wanted, rate), slack);
    }
  }

  lemma FrozenTransitive(a: Cache, b: Cache, c: Cache)
    requires CacheOk(a) && CacheOk(b) && CacheOk(c) && FrozenBelow(a, b) && FrozenBelow(b, c)
    ensures FrozenBelow(a, c)
  {
    forall k | 1 <= k < a.count ensures c.segments[k] == a.segments[k] {
      assert b.segments[k] == a.segments[k];
    }
  }

  /** MB appended over a run. */
  function Filled(wants: seq<Want>, rate: int): int {
    if wants == [] then 0
    else
      var n := |wants| - 1;
      Filled(wants[..n], rate) + Fill(wants[n].wanted, rate)
  }

  lemma {:induction false} BurnBlocks(wants: seq<Want>, rate: int)
    requires rate > 0
    ensures var c := Burn(wants, rate); TotalBlocks(c.segments, c.count) == 8 * Filled(wants, rate)
  {
    if wants != [] {
      var n := |wants| - 1;
      BurnBlocks(wants[..n], rate);
      TickShape(Burn(wants[..n], rate), wants[n].wanted, rate, wants[n].slack);
    }
  }

  /** The buffer holds exactly what the ticks appended, 8 blocks or 1 MB a unit. */
  lemma BurnHoldsFills(wants: seq<Want>, rate: int)
    requires rate > 0
    ensures var c := Burn(wants, rate); TotalBlocks(c.segments, c.count) * BLOCK_BYTES == Filled(wants, rate) * MB
  {
    BurnBlocks(wants, rate);
  }

  /** Whatever is wanted, finished segments never change again. */
  lemma {:induction false} BurnFreezes(wants: seq<Want>, i: nat, rate: int)
    requires rate > 0 && i <= |wants|
    ensures FrozenBelow(Burn(wants[..i], rate), Burn(wants, rate))
    decreases |wants| - i
  {
    if i == |wants| {
      assert wants[..i] == wants;
    } else {
      var c, d := Burn(wants[..i], rate), Burn(wants[..i + 1], rate);
      BurnNext(wants, i, rate);
      TickShape(c, wants[i].wanted, rate, wants[i].slack);
      BurnFreezes(wants, i + 1, rate);
      FrozenTransitive(c, d, Burn(wants, rate));
    }
  }

  /** The reserve is the exact share rounded down to a MB precisely when the product fits 64 bits. */
  lemma ReserveIsShareIff(total: nat, percent: int)
    requires 1 <= percent <= 100
    ensures var share, reserved := total * (100 - percent), Reserved(total, percent, 0);
            reserved * MB * 100 <= share < (reserved + 1) * MB * 100 <==> share < INT64_HALF
  {
    var share := total * (100 - percent);
    assert share >= 0;
    ReserveOfProduct(share);
  }

  /** Dividing by 100, 1024 and 1024 is dividing by 100 MB, rounding toward zero. */
  lemma QuotOfShare(w: int)
    ensures var q := Quot(Quot(Quot(w, 100), 1024), 1024); (q - 1) * MB * 100 < w < (q + 1) * MB * 100
    ensures w >= 0 ==> Quot(Quot(Quot(w, 100), 1024), 1024) * MB * 100 <= w
  {
  }

  /** Go's division drops the fraction, on either side of zero. */
  lemma QuotTruncates(a: int, b: int)
    requires b > 0
    ensures a >= 0 ==> Quot(a, b) * b <= a < (Quot(a, b) + 1) * b
    ensures a <= 0 ==> (Quot(a, b) - 1) * b < a <= Quot(a, b) * b
  {
  }

  /** A failed reading appends nothing, whatever came before it. */
  lemma FailedReadingAppendsNothing(readings: seq<Reading>, percent: int, reserve: int, rate: int)
    requires rate > 0
    ensures Burn(Wants(readings + [ReadFailed], percent, reserve), rate)
            == Burn(Wants(readings, percent, reserve), rate)
  {
    var wants, longer := Wants(readings, percent, reserve), Wants(readings + [ReadFailed], percent, reserve);
    assert longer[..|readings|] == wants;
    assert Fill(longer[|readings|].wanted, rate) == 0;
  }

  lemma WrapOfProduct(share: nat)
    ensures if share < INT64_HALF then Wrap64(share) == share else Wrap64(share) <= share - INT64_MODULUS
  {
  }

  lemma ReserveOfProduct(share: nat)
    ensures var reserved := Quot(Quot(Quot(Wrap64(share), 100), 1024), 1024);
            reserved * MB * 100 <= share < (reserved + 1) * MB * 100 <==> share < INT64_HALF
  {
    WrapOfProduct(share);
    QuotOfShare(Wrap64(share));
  }

  lemma ScaleUp(total: nat, factor: nat)
    requires factor <= 99
    ensures total * factor <= total * 99
  {
    assert total * 99 == total * factor + total * (99 - factor);
  }

  lemma TotalBoundSuffices(total: nat, percent: int)
    requires 1 <= percent <= 100 && total <= MAX_TOTAL
    ensures total * (100 - percent) < INT64_HALF
  {
    ScaleUp(total, 100 - percent);
  }

  predicate ProductFits(total: nat, percent: int) {
    total * (100 - percent) < INT64_HALF
  }

  /** The largest total for which the product fits 64 bits, whatever percentage is asked for. */
  lemma TotalBoundIff(total: nat)
    ensures (forall percent | 1 <= percent <= 100 :: ProductFits(total, percent)) <==> total <= MAX_TOTAL
  {
    if total <= MAX_TOTAL {
      forall percent | 1 <= percent <= 100 ensures ProductFits(total, percent) {
        TotalBoundSuffices(total, percent);
      }
    } else {
      assert !ProductFits(total, 1);
    }
  }

  /** The expectation is the free memory above the reserve, rounded down to a MB. */
  lemma ExpectIsFreeAboveReserve(total: nat, free: nat, percent: int, reserve: int)
    ensures var wanted, reserved := ExpectMem(total, free, percent, reserve), Reserved(total, percent, reserve);
            (reserved + wanted) * MB <= free < (reserved + wanted + 1) * MB
  {
    FloorToMB(free);
  }

  lemma FloorToMB(bytes: nat)
    ensures Quot(Quot(bytes, 1024), 1024) * MB <= bytes < (Quot(Quot(bytes, 1024), 1024) + 1) * MB
  {
  }

  /** No fill takes the free memory below the reserve. */
  lemma FillLeavesReserve(total: nat, free: nat, percent: int, reserve: int, rate: int)
    requires rate > 0
    ensures var fill := Fill(ExpectMem(total, free, percent, reserve), rate);
            fill > 0 ==> free - fill * MB >= Reserved(total, percent, reserve) * MB
  {
    var wanted := ExpectMem(total, free, percent, reserve);
    FillBounds(wanted, rate);
    assert Quot(Quot(free, 1024), 1024) * MB <= free;
  }

  /** On any machine below the bound, a fill leaves at least the requested share free, less one MB. */
  lemma FillLeavesShare(total: nat, free: nat, percent: int, reserve: int, rate: int)
    requires rate > 0 && 1 <= percent <= 100 && total <= MAX_TOTAL
    ensures var fill := Fill(ExpectMem(total, free, percent, reserve), rate);
            fill > 0 ==> (free - fill * MB + MB) * 100 > total * (100 - percent)
  {
    FillLeavesReserve(total, free, percent, reserve, rate);
    TotalBoundSuffices(total, percent);
    ReserveIsShareIff(total, percent);
  }

  // Convergence: nothing but the fills changes the free memory.

  /** What is still wanted after n ticks from e MB. */
  function Drain(e: int, n: nat): int {
    if n == 0 then e else Drain(e - Fill(e, DEFAULT_RATE), n - 1)
  }

  /** The largest amount in the slow phase that n ticks bring down to 9 MB or less. */
  function Reach(n: nat): int {
    if n == 0 then 9 else Reach(n - 1) * 10 / 9
  }

  lemma {:induction false} ReachAtLeast9(n: nat)
    ensures Reach(n) >= 9
  {
    if n > 0 {
      ReachAtLeast9(n - 1);
    }
  }

  lemma {:induction false} SettledStays(e: int, n: nat)
    requires e < 10
    ensures Drain(e, n) == e
    decreases n
  {
    if n > 0 {
      SettledStays(e, n - 1);
    }
  }

  /** In the slow phase, exactly the amounts up to Reach(n) have settled after n ticks. */
  lemma {:induction false} SlowPhase(e: int, n: nat)
    requires 0 < e <= 100
    ensures Drain(e, n) <= 9 <==> e <= Reach(n)
    decreases n
  {
    ReachAtLeast9(n);
    if e < 10 {
      SettledStays(e, n);
    } else if n > 0 {
      SlowPhase(e - e / 10, n - 1);
      ReachAtLeast9(n - 1);
    }
  }

  lemma ReachValues()
    ensures Reach(27) == 101 && Reach(26) == 91
  {
    assert Reach(1) == 10 && Reach(2) == 11 && Reach(3) == 12 && Reach(4) == 13 && Reach(5) == 14 && Reach(6) == 15;
    assert Reach(7) == 16 && Reach(8) == 17 && Reach(9) == 18 && Reach(10) == 20 && Reach(11) == 22 && Reach(12) == 24;
    assert Reach(13) == 26 && Reach(14) == 28 && Reach(15) == 31 && Reach(16) == 34 && Reach(17) == 37;
    assert Reach(18) == 41 && Reach(19) == 45 && Reach(20) == 50 && Reach(21) == 55 && Reach(22) == 61;
    assert Reach(23) == 67 && Reach(24) == 74 && Reach(25) == 82 && Reach(26) == 91 && Reach(27) == 101;
  }

  lemma {:induction false} DrainBottom(e: int, n: nat)
    requires 9 <= e <= 100
    ensures Drain(e, n) >= 9
    decreases n
  {
    if n > 0 {
      DrainBottom(e - Fill(e, DEFAULT_RATE), n - 1);
    }
  }

  /** What the fast phase, 100 MB a tick, leaves of e. */
  function AfterFastPhase(e: int): int {
    (e - 1) % 100 + 1
  }

  lemma SlowPhaseConverges(e: int, n: nat)
    requires 0 < e <= 100 && n >= 27
    ensures Drain(e, n) == if e < 9 then e else 9
  {
    if e < 10 {
      SettledStays(e, n);
    } else {
      ReachValues();
      ReachMonotone(27, n);
      SlowPhase(e, n);
      DrainBottom(e, n);
    }
  }

  lemma FastTick(e: int)
    requires e > 100
    ensures AfterFastPhase(e - 100) == AfterFastPhase(e)
    ensures (e - 100) / 100 == e / 100 - 1 && (e - 101) / 100 == (e - 1) / 100 - 1
  {
  }

  /** From e MB the loop has settled after e/100 + 27 ticks, with 9 MB or a smaller rest of the fast phase left. */
  lemma {:induction false} DrainConverges(e: int, n: nat)
    requires e > 0 && n >= e / 100 + 27
    ensures Drain(e, n) == if AfterFastPhase(e) < 9 then AfterFastPhase(e) else 9
    decreases n
  {
    if e > 100 {
      FastTick(e);
      DrainConverges(e - 100, n - 1);
    } else {
      SlowPhaseConverges(e, n);
    }
  }

  /** The exact settling time: the fast phase takes (e - 1) / 100 ticks, and Reach says how many more are needed. */
  lemma {:induction false} SettledIff(e: int, n: nat)
    requires e > 0
    ensures Drain(e, n) <= 9 <==> n >= (e - 1) / 100 && AfterFastPhase(e) <= Reach(n - (e - 1) / 100)
    decreases n
  {
    if e <= 100 {
      SlowPhase(e, n);
    } else {
      FastTick(e);
      if n > 0 {
        SettledIff(e - 100, n - 1);
      }
    }
  }

  lemma {:induction false} ReachMonotone(m: nat, n: nat)
    requires m <= n
    ensures Reach(m) <= Reach(n)
    decreases n - m
  {
    if m < n {
      ReachAtLeast9(m);
      ReachMonotone(m + 1, n);
    }
  }

  /** Each reading after the first shows the free memory that the fill before it left. */
  ghost predicate ClosedLoop(readings: seq<Reading>, percent: int, reserve: int) {
    && (forall i | 0 <= i < |readings| :: readings[i].Reading?)
    && forall i | 0 < i < |readings| ::
         && readings[i].total == readings[i - 1].total
         && readings[i].free
            == readings[i - 1].free - Fill(Expected(readings[i - 1], percent, reserve), DEFAULT_RATE) * MB
  }

  lemma FillLowersExpected(total: nat, free: nat, free': nat, percent: int, reserve: int, fill: int)
    requires free' == free - fill * MB
    ensures ExpectMem(total, free', percent, reserve) == ExpectMem(total, free, percent, reserve) - fill
  {
    assert free' / 1024 == free / 1024 - fill * 1024;
  }

  lemma {:induction false} ClosedLoopDrains(readings: seq<Reading>, percent: int, reserve: int, i: nat, j: nat)
    requires ClosedLoop(readings, percent, reserve) && i + j < |readings|
    ensures Expected(readings[i + j], percent, reserve) == Drain(Expected(readings[i], percent, reserve), j)
    decreases j
  {
    if j > 0 {
      var r, s := readings[i], readings[i + 1];
      var fill := Fill(Expected(r, percent, reserve), DEFAULT_RATE);
      FillLowersExpected(r.total, r.free, s.free, percent, reserve, fill);
      assert Expected(s, percent, reserve) == Expected(r, percent, reserve) - fill;
      ClosedLoopDrains(readings, percent, reserve, i + 1, j - 1);
    }
  }

  /** In a closed loop nothing is appended from tick e/100 + 27 on, with less than 10 MB above the reserve free. */
  lemma BurnerSettles(readings: seq<Reading>, percent: int, reserve: int, i: nat)
    requires ClosedLoop(readings, percent, reserve) && i < |readings|
    requires var e := Expected(readings[0], percent, reserve); e > 0 && i >= e / 100 + 27
    ensures var e, left := Expected(readings[0], percent, reserve), Expected(readings[i], percent, reserve);
            left == (if AfterFastPhase(e) < 9 then AfterFastPhase(e) else 9) && Fill(left, DEFAULT_RATE) == 0
    ensures var r := readings[i];
            && r.Reading?
            && Reserved(r.total, percent, reserve) * MB < r.free < (Reserved(r.total, percent, reserve) + 10) * MB
  {
    ExpectIsFreeAboveReserve(readings[i].total, readings[i].free, percent, reserve);
    ClosedLoopDrains(readings, percent, reserve, 0, i);
    DrainConverges(Expected(readings[0], percent, reserve), i);
  }

  /** Ticks without a fill leave the buffer as it is. */
  lemma {:induction false} BufferKept(wants: seq<Want>, rate: int, i: nat)
    requires rate > 0 && i <= |wants|
    requires forall j | i <= j < |wants| :: Fill(wants[j].wanted, rate) == 0
    ensures Burn(wants[..i], rate) == Burn(wants, rate)
    decreases |wants| - i
  {
    if i == |wants| {
      assert wants[..i] == wants;
    } else {
      BurnNext(wants, i, rate);
      BufferKept(wants, rate, i + 1);
    }
  }

  /** Hence the buffer itself no longer changes. */
  lemma BufferSettles(readings: seq<Reading>, percent: int, reserve: int, i: nat)
    requires ClosedLoop(readings, percent, reserve) && i <= |readings| && readings != []
    requires var e := Expected(readings[0], percent, reserve); e > 0 && i >= e / 100 + 27
    ensures var wants := Wants(readings, percent, reserve);
            Burn(wants[..i], DEFAULT_RATE) == Burn(wants, DEFAULT_RATE)
  {
    var wants := Wants(readings, percent, reserve);
    forall j | i <= j < |wants| ensures Fill(wants[j].wanted, DEFAULT_RATE) == 0 {
      BurnerSettles(readings, percent, reserve, j);
    }
    BufferKept(wants, DEFAULT_RATE, i);
  }

  /** No smaller constant than 27 does: from 99 MB, where e/100 is 0, the 26th tick still leaves more than 9. */
  lemma BoundIsTight()
    ensures Drain(99, 26) > 9 && Drain(99, 27) <= 9
  {
    ReachValues();
    SlowPhase(99, 26);
    SlowPhase(99, 27);
  }
}
