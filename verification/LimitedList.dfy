/** The bounded list of pkg/tools/limitedlist.go, which keeps the latest heartbeat results. */
module LimitedList {
  import opened Options
  import opened Sequences

  /** The last n elements. */
  function LastOf<T>(s: seq<T>, n: nat): (last: seq<T>)
    ensures |last| == Min(|s|, n) && last == s[|s| - |last|..]
  {
    if |s| <= n then s else s[|s| - n..]
  }

  /** Whether a handler fails on a value may depend on the values it was called with before. */
  type Handler<!T> = (seq<T>, T) -> bool

  /** The values that a loop over s hands to the handler after those in before. */
  function Visited<T>(before: seq<T>, s: seq<T>, fails: Handler<T>, breakWhenWrong: bool): seq<T>
    decreases s
  {
    if s == [] then []
    else if breakWhenWrong && fails(before, s[0]) then [s[0]]
    else [s[0]] + Visited(before + [s[0]], s[1..], fails, breakWhenWrong)
  }

  class LimitedList<T> {
    const cap: int
    var list: seq<T>
    ghost var puts: seq<T>

    ghost predicate Valid()
      reads this
    {
      cap > 0 && list == LastOf(puts, cap)
    }

    constructor (cap: int)
      requires cap > 0
      ensures Valid() && this.cap == cap && puts == []
    {
      this.cap, list, puts := cap, [], [];
    }

    method Put(value: T)
      requires Valid()
      modifies this
      ensures Valid() && puts == old(puts) + [value]
    {
      puts := puts + [value];
      list := list + [value];
      if |list| > cap {
        list := list[1..];
      }
    }

    method Foreach(fails: Handler<T>, breakWhenWrong: bool) returns (visited: seq<T>)
      requires Valid()
      ensures visited == Visited([], LastOf(puts, cap), fails, breakWhenWrong)
    {
      var l := [];
      for i := 0 to |list|
        invariant l == list[..i]
      {
        l := l + [list[i]];
      }
      assert l == list;
      visited := VisitAll(l, fails, breakWhenWrong);
    }

    method ForeachReverse(fails: Handler<T>, breakWhenWrong: bool) returns (visited: seq<T>)
      requires Valid()
      ensures visited == Visited([], Reverse(LastOf(puts, cap)), fails, breakWhenWrong)
    {
      var l := [];
      for i := |list| downto 0
        invariant |l| == |list| - i && forall j | 0 <= j < |l| :: l[j] == list[|list| - 1 - j]
      {
        l := l + [list[i]];
      }
      assert l == Reverse(list);
      visited := VisitAll(l, fails, breakWhenWrong);
    }
  }

  method NewLimitedSortList<T>(cap: int) returns (l: Option<LimitedList<T>>)
    ensures l.Some? <==> cap > 0
    ensures l.Some? ==> fresh(l.value) && l.value.Valid() && l.value.cap == cap && l.value.puts == []
  {
    if cap <= 0 {
      return None;
    }
    var list := new LimitedList<T>(cap);
    return Some(list);
  }

  lemma VisitNext<T>(visited: seq<T>, l: seq<T>, i: nat, fails: Handler<T>, breakWhenWrong: bool)
    requires i < |l|
    ensures visited + Visited(visited, l[i..], fails, breakWhenWrong)
            == (visited + [l[i]]) + if breakWhenWrong && fails(visited, l[i]) then []
                                    else Visited(visited + [l[i]], l[i + 1..], fails, breakWhenWrong)
  {
    assert l[i..][0] == l[i] && l[i..][1..] == l[i + 1..];
  }

  /** The loop over the copied list, outside the lock. */
  method VisitAll<T>(l: seq<T>, fails: Handler<T>, breakWhenWrong: bool) returns (visited: seq<T>)
    ensures visited == Visited([], l, fails, breakWhenWrong)
  {
    visited := [];
    for i := 0 to |l|
      invariant visited + Visited(visited, l[i..], fails, breakWhenWrong) == Visited([], l, fails, breakWhenWrong)
    {
      VisitNext(visited, l, i, fails, breakWhenWrong);
      var wrong := fails(visited, l[i]);
      visited := visited + [l[i]];
      if wrong {
        if breakWhenWrong {
          break;
        }
      }
    }
  }

  /** The handler fails on the visit's value i, after the values before it. */
  predicate FailsAt<T>(before: seq<T>, visit: seq<T>, i: nat, fails: Handler<T>)
    requires i < |visit|
  {
    fails(before + visit[..i], visit[i])
  }

  lemma FailsLater<T>(before: seq<T>, first: T, rest: seq<T>, i: nat, fails: Handler<T>)
    requires i < |rest|
    ensures FailsAt(before, [first] + rest, i + 1, fails) == FailsAt(before + [first], rest, i, fails)
  {
    assert before + ([first] + rest)[..i + 1] == (before + [first]) + rest[..i];
  }

  lemma FailsFirst<T>(before: seq<T>, visit: seq<T>, fails: Handler<T>)
    requires visit != []
    ensures FailsAt(before, visit, 0, fails) == fails(before, visit[0])
  {
    assert before + visit[..0] == before;
  }

  ghost predicate BreaksRight<T>(before: seq<T>, s: seq<T>, v: seq<T>, fails: Handler<T>) {
    && v <= s
    && (forall i: nat | i < |v| - 1 :: !FailsAt(before, v, i, fails))
    && (v != s ==> v != [] && FailsAt(before, v, |v| - 1, fails))
  }

  lemma BreaksRightAfter<T>(before: seq<T>, s: seq<T>, rest: seq<T>, fails: Handler<T>)
    requires s != [] && !fails(before, s[0]) && BreaksRight(before + [s[0]], s[1..], rest, fails)
    ensures BreaksRight(before, s, [s[0]] + rest, fails)
  {
    var v := [s[0]] + rest;
    FailsFirst(before, v, fails);
    assert s == [s[0]] + s[1..];
    forall i: nat | i < |rest| ensures FailsAt(before, v, i + 1, fails) == FailsAt(before + [s[0]], rest, i, fails) {
      FailsLater(before, s[0], rest, i, fails);
    }
    forall i: nat | i < |v| - 1 ensures !FailsAt(before, v, i, fails) {
      if i > 0 {
        FailsLater(before, s[0], rest, i - 1, fails);
      }
    }
  }

  lemma {:induction false} BreakingVisits<T>(before: seq<T>, s: seq<T>, fails: Handler<T>)
    ensures BreaksRight(before, s, Visited(before, s, fails, true), fails)
    decreases s
  {
    if s == [] {
    } else if fails(before, s[0]) {
      FailsFirst(before, [s[0]], fails);
    } else {
      BreakingVisits(before + [s[0]], s[1..], fails);
      BreaksRightAfter(before, s, Visited(before + [s[0]], s[1..], fails, true), fails);
    }
  }

  /** With breaking: exactly up to and including the first value that the handler fails on. */
  lemma BreakingVisitsPrefix<T>(s: seq<T>, fails: Handler<T>)
    ensures var v := Visited([], s, fails, true);
            && v <= s
            && (forall i: nat | i < |v| - 1 :: !FailsAt([], v, i, fails))
            && (v != s ==> v != [] && FailsAt([], v, |v| - 1, fails))
  {
    BreakingVisits([], s, fails);
  }

  lemma {:induction false} NotBreakingVisitsAll<T>(before: seq<T>, s: seq<T>, fails: Handler<T>)
    ensures Visited(before, s, fails, false) == s
    decreases s
  {
    if s != [] {
      NotBreakingVisitsAll(before + [s[0]], s[1..], fails);
    }
  }

  /** Without breaking, the reverse loop visits the mirror image of what the forward loop visits. */
  lemma ReverseMirrorsForward<T>(s: seq<T>, fails: Handler<T>)
    ensures Visited([], Reverse(s), fails, false) == Reverse(Visited([], s, fails, false))
  {
    NotBreakingVisitsAll([], s, fails);
    NotBreakingVisitsAll([], Reverse(s), fails);
  }
}
