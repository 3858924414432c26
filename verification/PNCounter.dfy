/** The increment/decrement counter: one growing entry per origin and direction. */
module PNCounters {
  import opened Util
  import opened Maps

  /** The state of a counter. Entries are `uint64_t`, so additions wrap at 2^64. */
  datatype Counter = Counter(pos: map<string, nat>, neg: map<string, nat>)

  const ZERO := Counter(map[], map[])

  function Bump(m: map<string, nat>, origin: string, delta: int): map<string, nat> {
    if delta > 0 then m[origin := (Get(m, origin) + delta) % TWO64] else m
  }

  function Incremented(c: Counter, origin: string, delta: int): Counter { c.(pos := Bump(c.pos, origin, delta)) }

  function Decremented(c: Counter, origin: string, delta: int): Counter { c.(neg := Bump(c.neg, origin, delta)) }

  function MergedCounter(a: Counter, b: Counter): Counter {
    Counter(Join(Max, a.pos, b.pos), Join(Max, a.neg, b.neg))
  }

  /** All increments minus all decrements, over the unbounded integers. */
  ghost function Exact(c: Counter): int { Sum(c.pos) - Sum(c.neg) }

  /** What `value()` returns: every wrap-around on the way cancels out in 64 bits. */
  ghost function ValueOf(c: Counter): int { Wrap64(Exact(c)) }

  class PNCounter {
    var pos: map<string, nat>
    var neg: map<string, nat>

    function Abs(): Counter reads this { Counter(pos, neg) }

    constructor (c: Counter)
      ensures Abs() == c
    {
      pos, neg := c.pos, c.neg;
    }

    method Increment(origin: string, delta: int)
      modifies this
      ensures Abs() == Incremented(old(Abs()), origin, delta)
      ensures delta <= 0 ==> Abs() == old(Abs())
      ensures delta > 0 ==> Get(pos, origin) == (Get(old(pos), origin) + delta) % TWO64 && neg == old(neg)
    {
      if delta > 0 {
        pos := pos[origin := (Get(pos, origin) + delta) % TWO64];
      }
    }

    method Decrement(origin: string, delta: int)
      modifies this
      ensures Abs() == Decremented(old(Abs()), origin, delta)
      ensures delta <= 0 ==> Abs() == old(Abs())
      ensures delta > 0 ==> Get(neg, origin) == (Get(old(neg), origin) + delta) % TWO64 && pos == old(pos)
    {
      if delta > 0 {
        neg := neg[origin := (Get(neg, origin) + delta) % TWO64];
      }
    }

    method Value() returns (value: int)
      ensures value == ValueOf(Abs())
    {
      var posSum := SumWrapped(pos);
      var negSum := SumWrapped(neg);
      Wrap64Add(Sum(pos), -negSum);
      Wrap64Add(Sum(neg), Sum(pos));
      value := Wrap64(posSum - negSum);
    }

    static method SumWrapped(m: map<string, nat>) returns (sum: int)
      ensures sum == Wrap64(Sum(m))
    {
      sum := 0;
      var rest := m;
      ghost var exact := 0;
      while rest != map[]
        invariant exact + Sum(rest) == Sum(m) && sum == Wrap64(exact)
        decreases |rest|
      {
        var origin :| origin in rest;
        SumAt(rest, origin);
        sum, exact := AddWrapped(sum, rest[origin], exact);
        rest := rest - {origin};
      }
    }

    static method AddWrapped(sum: int, count: nat, ghost exact: int) returns (r: int, ghost total: int)
      requires sum == Wrap64(exact)
      ensures total == exact + count && r == Wrap64(total)
    {
      Wrap64Add(exact, count);
      r, total := Wrap64(sum + count), exact + count;
    }

    method Merge(other: Counter)
      modifies this
      ensures Abs() == MergedCounter(old(Abs()), other)
    {
      pos := JoinedMax(pos, other.pos);
      neg := JoinedMax(neg, other.neg);
      assert Abs() == MergedCounter(old(Abs()), other);
    }

    static method JoinedMax(m: map<string, nat>, other: map<string, nat>) returns (r: map<string, nat>)
      ensures r == Join(Max, m, other)
    {
      r := m;
      var rest := other;
      while rest != map[]
        invariant Join(Max, r, rest) == Join(Max, m, other)
        decreases |rest|
      {
        var origin :| origin in rest;
        JoinStep(Max, r, rest, origin);
        r := r[origin := Max(Get(r, origin), rest[origin])];
        rest := rest - {origin};
      }
      JoinEmpty(Max, r);
    }
  }

  lemma MaxLaws()
    ensures Associative(Max) && Commutative(Max) && Idempotent(Max)
  {
  }

  lemma MergeAssociative(a: Counter, b: Counter, c: Counter)
    ensures MergedCounter(MergedCounter(a, b), c) == MergedCounter(a, MergedCounter(b, c))
  {
    MaxLaws();
    JoinAssociative(Max, a.pos, b.pos, c.pos);
    JoinAssociative(Max, a.neg, b.neg, c.neg);
  }

  lemma MergeCommutative(a: Counter, b: Counter)
    ensures MergedCounter(a, b) == MergedCounter(b, a)
  {
    MaxLaws();
    JoinCommutative(Max, a.pos, b.pos);
    JoinCommutative(Max, a.neg, b.neg);
  }

  lemma MergeIdempotent(a: Counter)
    ensures MergedCounter(a, a) == a
  {
    MaxLaws();
    JoinIdempotent(Max, a.pos);
    JoinIdempotent(Max, a.neg);
  }

  predicate LeqMap(a: map<string, nat>, b: map<string, nat>) {
    a.Keys <= b.Keys && forall k | k in a :: a[k] <= b[k]
  }

  predicate Leq(a: Counter, b: Counter) { LeqMap(a.pos, b.pos) && LeqMap(a.neg, b.neg) }

  /** No origin was extended both from base to a and from base to b. */
  ghost predicate DisjointExtensions(a: map<string, nat>, b: map<string, nat>, base: map<string, nat>) {
    forall k :: Get(a, k) == Get(base, k) || Get(b, k) == Get(base, k)
  }

  lemma SumJoin(a: map<string, nat>, b: map<string, nat>, base: map<string, nat>)
    requires LeqMap(base, a) && LeqMap(base, b)
    ensures Sum(Join(Max, a, b)) + Sum(base) <= Sum(a) + Sum(b)
    ensures Sum(Join(Max, a, b)) + Sum(base) == Sum(a) + Sum(b) <==> DisjointExtensions(a, b, base)
  {
    var keys := a.Keys + b.Keys;
    SumOverAll(Join(Max, a, b), keys);
    SumOverAll(a, keys);
    SumOverAll(b, keys);
    SumOverAll(base, keys);
    SumOverJoin(a, b, base, keys);
    assert forall k :: k !in keys ==> Get(a, k) == 0 == Get(base, k);
  }

  /** Concurrent updates of a common base at disjoint origins both survive the merge. */
  lemma ConcurrentDeltasSurvive(a: Counter, b: Counter, base: Counter)
    requires Leq(base, a) && Leq(base, b)
    requires DisjointExtensions(a.pos, b.pos, base.pos) && DisjointExtensions(a.neg, b.neg, base.neg)
    ensures Exact(MergedCounter(a, b)) == Exact(base) + (Exact(a) - Exact(base)) + (Exact(b) - Exact(base))
    ensures ValueOf(MergedCounter(a, b)) == Wrap64(ValueOf(a) + ValueOf(b) - ValueOf(base))
  {
    SumJoin(a.pos, b.pos, base.pos);
    SumJoin(a.neg, b.neg, base.neg);
    Wrap64Sum(Exact(MergedCounter(a, b)), Exact(a), Exact(b), Exact(base));
  }

  /** Concurrent decrements take the merge below zero exactly when together they take more than the base. */
  lemma BelowZeroIff(a: Counter, b: Counter, base: Counter)
    requires Leq(base, a) && Leq(base, b)
    requires DisjointExtensions(a.pos, b.pos, base.pos) && DisjointExtensions(a.neg, b.neg, base.neg)
    ensures Exact(MergedCounter(a, b)) < 0 <==> Exact(a) + Exact(b) < Exact(base)
  {
    ConcurrentDeltasSurvive(a, b, base);
  }

  /** A quantity of 5 from which two clients each take all 5. */
  lemma BelowZero() returns (a: Counter, b: Counter)
    ensures var base := Incremented(ZERO, "c", 5);
      a == Decremented(base, "a", 5) && b == Decremented(base, "b", 5)
    ensures ValueOf(a) == ValueOf(b) == 0 && ValueOf(MergedCounter(a, b)) == -5
  {
    var base := Incremented(ZERO, "c", 5);
    a, b := Decremented(base, "a", 5), Decremented(base, "b", 5);
    SumUpdate(map[], "c", 5);
    SumUpdate(map[], "a", 5);
    SumUpdate(map[], "b", 5);
    assert base.pos == map["c" := 5] && a.neg == map["a" := 5] && b.neg == map["b" := 5];
    ConcurrentDeltasSurvive(a, b, base);
    Wrap64Id(-5);
  }

  /** For two counters above a base, increments and decrements both survive in full exactly when no
      entry was extended on both sides. */
  lemma DeltasSurviveIff(a: Counter, b: Counter, base: Counter)
    requires Leq(base, a) && Leq(base, b)
    ensures var m := MergedCounter(a, b);
      && Sum(m.pos) + Sum(base.pos) == Sum(a.pos) + Sum(b.pos)
      && Sum(m.neg) + Sum(base.neg) == Sum(a.neg) + Sum(b.neg)
      <==> DisjointExtensions(a.pos, b.pos, base.pos) && DisjointExtensions(a.neg, b.neg, base.neg)
  {
    SumJoin(a.pos, b.pos, base.pos);
    SumJoin(a.neg, b.neg, base.neg);
  }

  /** For increments only the condition is also necessary: a shared origin loses a delta. */
  lemma SharedOriginLosesDelta(a: Counter, b: Counter, base: Counter)
    requires Leq(base, a) && Leq(base, b) && a.neg == b.neg == base.neg
    ensures Exact(MergedCounter(a, b)) == Exact(base) + (Exact(a) - Exact(base)) + (Exact(b) - Exact(base))
       <==> DisjointExtensions(a.pos, b.pos, base.pos)
  {
    MergeIdempotent(base);
    SumJoin(a.pos, b.pos, base.pos);
  }

  /** One client identity used twice: of two increments by one, the merge keeps one. */
  lemma SharedOriginExample()
    ensures var a := Incremented(ZERO, "c", 1);
      ValueOf(a) == 1 && ValueOf(MergedCounter(a, a)) == 1 && Exact(MergedCounter(a, a)) != Exact(a) + Exact(a)
  {
    var a := Incremented(ZERO, "c", 1);
    SumUpdate(map[], "c", 1);
    assert a.pos == map["c" := 1];
    MergeIdempotent(a);
    Wrap64Id(1);
  }

  /** Adding to one entry adds to the sum, up to a multiple of 2^64. */
  lemma SumBump(m: map<string, nat>, origin: string, delta: int) returns (k: int)
    requires delta >= 0
    ensures Sum(Bump(m, origin, delta)) == Sum(m) + delta - k * TWO64
    ensures Get(m, origin) + delta < TWO64 ==> k == 0
  {
    k := 0;
    if delta > 0 {
      SumUpdate(m, origin, (Get(m, origin) + delta) % TWO64);
      k := (Get(m, origin) + delta) / TWO64;
    }
  }

  lemma EntryAtMostSum(m: map<string, nat>, k: string)
    ensures Get(m, k) <= Sum(m)
  {
    if k in m { SumAt(m, k); }
  }
}
