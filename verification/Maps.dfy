/** Keyed joins and sums over finite maps, shared by every replicated structure. */
module Maps {

  function Get(m: map<string, nat>, k: string): nat { if k in m then m[k] else 0 }

  function Max(x: nat, y: nat): nat { if x >= y then x else y }

  function Union(x: set<string>, y: set<string>): set<string> { x + y }

  /** What the loop "for each key of b: a[key] = f(a[key], b[key])" leaves in a. */
  function Join<V>(f: (V, V) -> V, a: map<string, V>, b: map<string, V>): map<string, V> {
    map k | k in a.Keys + b.Keys ::
      if k !in b then a[k] else if k !in a then b[k] else f(a[k], b[k])
  }

  /** One iteration of that loop. */
  function JoinAt<V>(f: (V, V) -> V, a: map<string, V>, k: string, v: V): map<string, V> {
    a[k := if k in a then f(a[k], v) else v]
  }

  /** The loop may visit the keys in any order: each iteration moves one entry of b into a. */
  lemma JoinStep<V>(f: (V, V) -> V, a: map<string, V>, b: map<string, V>, k: string)
    requires k in b
    ensures Join(f, JoinAt(f, a, k, b[k]), b - {k}) == Join(f, a, b)
  {
  }

  lemma JoinEmpty<V>(f: (V, V) -> V, a: map<string, V>)
    ensures Join(f, a, map[]) == a
    ensures Join(f, map[], a) == a
  {
  }

  ghost predicate Associative<V(!new)>(f: (V, V) -> V) { forall x, y, z :: f(f(x, y), z) == f(x, f(y, z)) }
  ghost predicate Commutative<V(!new)>(f: (V, V) -> V) { forall x, y :: f(x, y) == f(y, x) }
  ghost predicate Idempotent<V(!new)>(f: (V, V) -> V) { forall x :: f(x, x) == x }

  lemma JoinAssociative<V(!new)>(f: (V, V) -> V, a: map<string, V>, b: map<string, V>, c: map<string, V>)
    requires Associative(f)
    ensures Join(f, Join(f, a, b), c) == Join(f, a, Join(f, b, c))
  {
    var l, r := Join(f, Join(f, a, b), c), Join(f, a, Join(f, b, c));
    assert l.Keys == r.Keys;
    forall k | k in l ensures l[k] == r[k] {}
  }

  lemma JoinCommutative<V(!new)>(f: (V, V) -> V, a: map<string, V>, b: map<string, V>)
    requires Commutative(f)
    ensures Join(f, a, b) == Join(f, b, a)
  {
  }

  lemma JoinIdempotent<V(!new)>(f: (V, V) -> V, a: map<string, V>)
    requires Idempotent(f)
    ensures Join(f, a, a) == a
  {
  }

  /** Sum of all entries. */
  ghost function Sum(m: map<string, nat>): nat {
    if m == map[] then 0 else var k :| k in m; m[k] + Sum(m - {k})
  }

  /** Any key may be taken out first. */
  lemma {:induction false} SumAt(m: map<string, nat>, k: string)
    requires k in m
    ensures Sum(m) == m[k] + Sum(m - {k})
  {
    var j :| j in m && Sum(m) == m[j] + Sum(m - {j});
    if j != k {
      SumAt(m - {j}, k);
      SumAt(m - {k}, j);
      assert m - {j} - {k} == m - {k} - {j};
    }
  }

  lemma SumUpdate(m: map<string, nat>, k: string, v: nat)
    ensures Sum(m[k := v]) == Sum(m) - Get(m, k) + v
  {
    SumAt(m[k := v], k);
    assert m[k := v] - {k} == m - {k};
    if k in m { SumAt(m, k); } else { assert m - {k} == m; }
  }

  /** Sum of the entries at the given keys, absent ones counting zero. */
  ghost function SumOver(m: map<string, nat>, keys: set<string>): nat {
    if keys == {} then 0 else var k :| k in keys; Get(m, k) + SumOver(m, keys - {k})
  }

  lemma {:induction false} SumOverAll(m: map<string, nat>, keys: set<string>)
    requires m.Keys <= keys
    ensures SumOver(m, keys) == Sum(m)
    decreases keys
  {
    if keys == {} {
      assert m == map[];
    } else {
      var k :| k in keys;
      SumOverAt(m, keys, k);
      if k in m {
        SumOverAll(m - {k}, keys - {k});
        SumOverSame(m, m - {k}, keys - {k});
        SumAt(m, k);
      } else {
        SumOverAll(m, keys - {k});
      }
    }
  }

  lemma {:induction false} SumOverSame(a: map<string, nat>, b: map<string, nat>, keys: set<string>)
    requires forall k | k in keys :: Get(a, k) == Get(b, k)
    ensures SumOver(a, keys) == SumOver(b, keys)
    decreases keys
  {
    if keys != {} {
      var k :| k in keys && SumOver(a, keys) == Get(a, k) + SumOver(a, keys - {k});
      SumOverSame(a, b, keys - {k});
      SumOverAt(b, keys, k);
    }
  }

  lemma {:induction false} SumOverAt(m: map<string, nat>, keys: set<string>, k: string)
    requires k in keys
    ensures SumOver(m, keys) == Get(m, k) + SumOver(m, keys - {k})
    decreases keys
  {
    var j :| j in keys && SumOver(m, keys) == Get(m, j) + SumOver(m, keys - {j});
    if j != k {
      SumOverAt(m, keys - {j}, k);
      SumOverAt(m, keys - {k}, j);
      assert keys - {j} - {k} == keys - {k} - {j};
    }
  }

  lemma {:induction false} SumOverAtMost(a: map<string, nat>, b: map<string, nat>, keys: set<string>)
    requires forall k | k in keys :: Get(a, k) <= Get(b, k)
    ensures SumOver(a, keys) <= SumOver(b, keys)
    ensures SumOver(a, keys) == SumOver(b, keys) <==> forall k | k in keys :: Get(a, k) == Get(b, k)
    decreases keys
  {
    if keys != {} {
      var k :| k in keys;
      SumOverAtMost(a, b, keys - {k});
      SumOverAt(a, keys, k);
      SumOverAt(b, keys, k);
      assert forall j | j in keys :: j == k || j in keys - {k};
    }
  }

  /** Entries no greater have a sum no greater, and an equal one only if all are equal. */
  lemma SumAtMost(a: map<string, nat>, b: map<string, nat>)
    requires forall k :: Get(a, k) <= Get(b, k)
    ensures Sum(a) <= Sum(b)
    ensures Sum(a) == Sum(b) <==> forall k :: Get(a, k) == Get(b, k)
  {
    var keys := a.Keys + b.Keys;
    SumOverAtMost(a, b, keys);
    SumOverAll(a, keys);
    SumOverAll(b, keys);
    assert forall k :: k in keys || Get(a, k) == 0 == Get(b, k);
  }

  /** a and b both extend base: summing the join counts both extensions, except what
      the two add to the same entry, which the maximum keeps only once. */
  lemma {:induction false} SumOverJoin(a: map<string, nat>, b: map<string, nat>, base: map<string, nat>,
      keys: set<string>)
    requires forall k | k in keys :: Get(base, k) <= Get(a, k) && Get(base, k) <= Get(b, k)
    ensures SumOver(Join(Max, a, b), keys) + SumOver(base, keys) <= SumOver(a, keys) + SumOver(b, keys)
    ensures SumOver(Join(Max, a, b), keys) + SumOver(base, keys) == SumOver(a, keys) + SumOver(b, keys)
       <==> forall k | k in keys :: Get(a, k) == Get(base, k) || Get(b, k) == Get(base, k)
    decreases keys
  {
    if keys != {} {
      var k :| k in keys;
      var rest := keys - {k};
      SumOverJoin(a, b, base, rest);
      SumOverAt(a, keys, k);
      SumOverAt(b, keys, k);
      SumOverAt(base, keys, k);
      SumOverAt(Join(Max, a, b), keys, k);
      assert Get(Join(Max, a, b), k) == Max(Get(a, k), Get(b, k));
      assert forall j | j in keys :: j == k || j in rest;
    }
  }
}
