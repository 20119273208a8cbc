/** The memory burner of web/category/mem_main.go: the size calculation and the fill loop. */
module MemBurn {
  const MB: int := 1024 * 1024
  const BLOCK_BYTES: int := 32 * 1024 * 4
  const DEFAULT_RATE: int := 100
  const INT64_MODULUS: int := 0x1_0000_0000_0000_0000
  const INT64_HALF: int := 0x8000_0000_0000_0000

  /** The largest total for which total * (100 - percent) stays in 64 bits for every percent from 1 on. */
  const MAX_TOTAL: int := 93165374109644200

  /** Go's int64 arithmetic: results wrap around. */
  function Wrap64(x: int): (w: int)
    ensures -INT64_HALF <= w < INT64_HALF && (x - w) % INT64_MODULUS == 0
  {
    (x + INT64_HALF) % INT64_MODULUS - INT64_HALF
  }

  /** Go's integer division truncates toward zero. */
  function Quot(a: int, b: int): int
    requires b > 0
  {
    if a < 0 then -(-a / b) else a / b
  }

  /** The memory to leave free, in MB: a share of the total, or the given reserve when percent is 0. */
  function Reserved(total: int, percent: int, reserve: int): (reserved: int)
    ensures percent == 0 ==> reserved == reserve
  {
    if percent != 0 then Quot(Quot(Quot(Wrap64(total * (100 - percent)), 100), 1024), 1024) else reserve
  }

  function ExpectMem(total: int, available: int, percent: int, reserve: int): int {
    Quot(Quot(available, 1024), 1024) - Reserved(total, percent, reserve)
  }

  /** One ticker firing: what mem.VirtualMemory reports, and how far append over-allocates if it must. */
  datatype Reading = Reading(total: nat, free: nat, slack: nat) | ReadFailed

  /** calculateMemSize returns 0 along with its error. */
  function Expected(r: Reading, percent: int, reserve: int): int {
    match r
    case Reading(total, free, _) => ExpectMem(total, free, percent, reserve)
    case ReadFailed => 0
  }

  /** How many MB one tick appends. */
  function Fill(wanted: int, rate: int): int {
    if wanted <= 0 then 0 else if wanted > rate then rate else wanted / 10
  }

  /** A []Block slice; every block in it is zero. */
  datatype Slice = Slice(len: nat, cap: nat)

  function Append(buf: Slice, blocks: nat, slack: nat): Slice {
    if buf.len + blocks <= buf.cap then Slice(buf.len + blocks, buf.cap)
    else Slice(buf.len + blocks, buf.len + blocks + slack)
  }

  /** Too little room left, and growing it by a quarter would exceed what is wanted: start a new segment. */
  predicate StartsSegment(buf: Slice, blocks: nat, wanted: int) {
    buf.cap - buf.len < blocks && buf.cap * 5 / 4 >= 8 * wanted
  }

  datatype Cache = Cache(segments: map<int, Slice>, count: int)

  const EMPTY_CACHE := Cache(map[1 := Slice(0, 0)], 1)

  /** Keys are exactly 1..count, no finished segment is empty, and only a segment without capacity is empty. */
  ghost predicate CacheOk(c: Cache) {
    && c.count >= 1
    && (forall k :: k in c.segments <==> 1 <= k <= c.count)
    && (forall k | k in c.segments :: c.segments[k].len <= c.segments[k].cap)
    && (forall k | k in c.segments && c.segments[k].len == 0 :: k == c.count && c.segments[k].cap == 0)
  }

  /** The fill of one tick, as a function of the cache. */
  function FillCache(c: Cache, wanted: int, fill: int, slack: nat): Cache
    requires CacheOk(c) && fill > 0
  {
    var blocks := 8 * fill;
    var next := StartsSegment(c.segments[c.count], blocks, wanted);
    var count := if next then c.count + 1 else c.count;
    var buf := if next then Slice(0, 0) else c.segments[c.count];
    Cache(c.segments[count := Append(buf, blocks, slack)], count)
  }

  /** One tick of the loop: what it does to the cache for what calculateMemSize wants. */
  function TickCache(c: Cache, wanted: int, rate: int, slack: nat): Cache
    requires CacheOk(c) && rate > 0
  {
    var fill := Fill(wanted, rate);
    if fill == 0 then c else FillCache(c, wanted, fill, slack)
  }

  /** What one firing comes to: the MB that calculateMemSize asks for, and append's over-allocation. */
  datatype Want = Want(wanted: int, slack: nat)

  function Wants(readings: seq<Reading>, percent: int, reserve: int): (wants: seq<Want>)
    ensures |wants| == |readings|
  {
    seq(|readings|, i requires 0 <= i < |readings| =>
      Want(Expected(readings[i], percent, reserve), if readings[i].Reading? then readings[i].slack else 0))
  }

  /** The buffer after the ticks, from an empty one. */
  function Burn(wants: seq<Want>, rate: int): (c: Cache)
    requires rate > 0
    ensures CacheOk(c)
  {
    if wants == [] then EMPTY_CACHE
    else
      var n := |wants| - 1;
      TickCache(Burn(wants[..n], rate), wants[n].wanted, rate, wants[n].slack)
  }

  lemma BurnNext(wants: seq<Want>, i: nat, rate: int)
    requires i < |wants| && rate > 0
    ensures Burn(wants[..i + 1], rate) == TickCache(Burn(wants[..i], rate), wants[i].wanted, rate, wants[i].slack)
  {
    assert wants[..i + 1][..i] == wants[..i];
  }

  function Rate(memRate: int): int {
    if memRate <= 0 then DEFAULT_RATE else memRate
  }

  /** The ticker branch of the loop. */
  method Tick(cache: map<int, Slice>, count: int, wanted: int, rate: int, slack: nat)
    returns (segments: map<int, Slice>, current: int)
    requires CacheOk(Cache(cache, count)) && rate > 0
    ensures Cache(segments, current) == TickCache(Cache(cache, count), wanted, rate, slack)
  {
    segments, current := cache, count;
    var fill := wanted;
    if wanted > 0 {
      if wanted > rate {
        fill := rate;
      } else {
        fill := wanted / 10;
        if fill == 0 {
          return;
        }
      }
      var fillSize := 8 * fill;
      var buf := segments[current];
      if buf.cap - buf.len < fillSize && buf.cap * 5 / 4 >= 8 * wanted {
        current := current + 1;
        segments := segments[current := Slice(0, 0)];
        buf := segments[current];
      }
      segments := segments[current := Append(buf, fillSize, slack)];
      assert segments == FillCache(Cache(cache, count), wanted, fill, slack).segments;
    }
  }

  /** The fill loop over the ticks of any finite prefix of its run. */
  method Starts(percent: int, reserve: int, memRate: int, readings: seq<Reading>)
    returns (cache: map<int, Slice>, count: int)
    ensures Cache(cache, count) == Burn(Wants(readings, percent, reserve), if memRate <= 0 then 100 else memRate)
  {
    var rate := memRate;
    cache := map[];
    count := 1;
    cache := cache[count := Slice(0, 0)];
    if rate <= 0 {
      rate := DEFAULT_RATE;
    }
    ghost var wants := Wants(readings, percent, reserve);
    for i := 0 to |readings|
      invariant rate == Rate(memRate)
      invariant Cache(cache, count) == Burn(wants[..i], rate)
    {
      BurnNext(wants, i, rate);
      var wanted := Expected(readings[i], percent, reserve);
      var slack := if readings[i].Reading? then readings[i].slack else 0;
      cache, count := Tick(cache, count, wanted, rate, slack);
    }
    assert wants[..|readings|] == wants;
  }
}
