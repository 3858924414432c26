/** The replicated content of a list as a join semilattice. Names are left out: the merge
    overwrites item names with the incoming one and never merges list names. */
module Lattice {
  import opened Maps
  import opened PNCounters
  import opened ShoppingItems
  import opened ORSets

  datatype Quantities = Quantities(desired: Counter, current: Counter)

  datatype Core = Core(
    elements: map<string, Quantities>,
    adds: map<string, set<string>>,
    removes: map<string, set<string>>)

  const BOTTOM := Core(map[], map[], map[])

  function QuantitiesOf(i: Item): Quantities { Quantities(i.desired, i.current) }

  function CoreOf(s: Items): Core {
    Core(map k | k in s.elements :: QuantitiesOf(s.elements[k]), s.adds, s.removes)
  }

  function JoinQuantities(a: Quantities, b: Quantities): Quantities {
    Quantities(MergedCounter(a.desired, b.desired), MergedCounter(a.current, b.current))
  }

  function JoinCore(a: Core, b: Core): Core {
    Core(Join(JoinQuantities, a.elements, b.elements), Join(Union, a.adds, b.adds), Join(Union, a.removes, b.removes))
  }

  /** The merge of the source is the join of the contents. */
  lemma MergeIsJoin(a: Items, b: Items)
    ensures CoreOf(MergedItems(a, b)) == JoinCore(CoreOf(a), CoreOf(b))
  {
    var l, r := CoreOf(MergedItems(a, b)).elements, JoinCore(CoreOf(a), CoreOf(b)).elements;
    forall k | k in l ensures l[k] == r[k] {}
  }

  lemma QuantitiesLaws()
    ensures Associative(JoinQuantities) && Commutative(JoinQuantities) && Idempotent(JoinQuantities)
  {
    forall x, y, z { QuantitiesAssociative(x, y, z); }
    forall x, y
      ensures JoinQuantities(x, y) == JoinQuantities(y, x) && JoinQuantities(x, x) == x
    {
      MergeCommutative(x.desired, y.desired);
      MergeCommutative(x.current, y.current);
      MergeIdempotent(x.desired);
      MergeIdempotent(x.current);
    }
  }

  lemma QuantitiesAssociative(x: Quantities, y: Quantities, z: Quantities)
    ensures JoinQuantities(JoinQuantities(x, y), z) == JoinQuantities(x, JoinQuantities(y, z))
  {
    MergeAssociative(x.desired, y.desired, z.desired);
    MergeAssociative(x.current, y.current, z.current);
  }

  lemma UnionLaws()
    ensures Associative(Union) && Commutative(Union) && Idempotent(Union)
  {
    forall x: set<string>, y: set<string>, z: set<string> ensures Union(Union(x, y), z) == Union(x, Union(y, z)) {
      assert (x + y) + z == x + (y + z);
    }
    forall x: set<string>, y: set<string> ensures Union(x, y) == Union(y, x) {
      assert x + y == y + x;
    }
    forall x: set<string> ensures Union(x, x) == x {
      assert x + x == x;
    }
  }

  lemma JoinCoreAssociative(a: Core, b: Core, c: Core)
    ensures JoinCore(JoinCore(a, b), c) == JoinCore(a, JoinCore(b, c))
  {
    QuantitiesLaws();
    UnionLaws();
    JoinAssociative(JoinQuantities, a.elements, b.elements, c.elements);
    JoinAssociative(Union, a.adds, b.adds, c.adds);
    JoinAssociative(Union, a.removes, b.removes, c.removes);
  }

  lemma JoinCoreCommutative(a: Core, b: Core)
    ensures JoinCore(a, b) == JoinCore(b, a)
  {
    QuantitiesLaws();
    UnionLaws();
    JoinCommutative(JoinQuantities, a.elements, b.elements);
    JoinCommutative(Union, a.adds, b.adds);
    JoinCommutative(Union, a.removes, b.removes);
  }

  lemma JoinCoreIdempotent(a: Core)
    ensures JoinCore(a, a) == a
  {
    QuantitiesLaws();
    UnionLaws();
    JoinIdempotent(JoinQuantities, a.elements);
    JoinIdempotent(Union, a.adds);
    JoinIdempotent(Union, a.removes);
  }

  lemma JoinBottom(a: Core)
    ensures JoinCore(a, BOTTOM) == a && JoinCore(BOTTOM, a) == a
  {
  }

  /** a is below b: b has every tag of a, every item of a, and no smaller counter entry. */
  predicate LeqCore(a: Core, b: Core) {
    LeqElements(a.elements, b.elements) && LeqTags(a.adds, b.adds) && LeqTags(a.removes, b.removes)
  }

  predicate LeqElements(a: map<string, Quantities>, b: map<string, Quantities>) {
    a.Keys <= b.Keys && forall k | k in a :: LeqQuantities(a[k], b[k])
  }

  predicate LeqTags(a: map<string, set<string>>, b: map<string, set<string>>) {
    a.Keys <= b.Keys && forall k | k in a :: a[k] <= b[k]
  }

  predicate LeqQuantities(a: Quantities, b: Quantities) { Leq(a.desired, b.desired) && Leq(a.current, b.current) }

  /** The join is an upper bound, and below every other upper bound. */
  lemma JoinIsLeastUpperBound(a: Core, b: Core, c: Core)
    ensures LeqCore(a, JoinCore(a, b)) && LeqCore(b, JoinCore(a, b))
    ensures LeqCore(a, c) && LeqCore(b, c) ==> LeqCore(JoinCore(a, b), c)
  {
    JoinElementsLeast(a.elements, b.elements, c.elements);
    JoinTagsLeast(a.adds, b.adds, c.adds);
    JoinTagsLeast(a.removes, b.removes, c.removes);
  }

  lemma JoinTagsLeast(a: map<string, set<string>>, b: map<string, set<string>>, c: map<string, set<string>>)
    ensures LeqTags(a, Join(Union, a, b)) && LeqTags(b, Join(Union, a, b))
    ensures LeqTags(a, c) && LeqTags(b, c) ==> LeqTags(Join(Union, a, b), c)
  {
  }

  lemma JoinElementsLeast(a: map<string, Quantities>, b: map<string, Quantities>, c: map<string, Quantities>)
    ensures LeqElements(a, Join(JoinQuantities, a, b)) && LeqElements(b, Join(JoinQuantities, a, b))
    ensures LeqElements(a, c) && LeqElements(b, c) ==> LeqElements(Join(JoinQuantities, a, b), c)
  {
    var j := Join(JoinQuantities, a, b);
    forall k | k in a
      ensures LeqQuantities(a[k], j[k])
    {
      JoinQuantitiesLeast(a[k], if k in b then b[k] else a[k], a[k]);
      if k !in b { LeqCountersReflexive(a[k]); }
    }
    forall k | k in b
      ensures LeqQuantities(b[k], j[k])
    {
      JoinQuantitiesLeast(if k in a then a[k] else b[k], b[k], b[k]);
      if k !in a { LeqCountersReflexive(b[k]); }
    }
    if LeqElements(a, c) && LeqElements(b, c) {
      forall k | k in j ensures LeqQuantities(j[k], c[k]) {
        if k in a && k in b { JoinQuantitiesLeast(a[k], b[k], c[k]); }
      }
    }
  }

  lemma LeqCountersReflexive(a: Quantities)
    ensures LeqQuantities(a, a)
  {
  }

  lemma JoinQuantitiesLeast(a: Quantities, b: Quantities, c: Quantities)
    ensures LeqQuantities(a, JoinQuantities(a, b)) && LeqQuantities(b, JoinQuantities(a, b))
    ensures LeqQuantities(a, c) && LeqQuantities(b, c) ==> LeqQuantities(JoinQuantities(a, b), c)
  {
    JoinMaxLeast(a.desired.pos, b.desired.pos, c.desired.pos);
    JoinMaxLeast(a.desired.neg, b.desired.neg, c.desired.neg);
    JoinMaxLeast(a.current.pos, b.current.pos, c.current.pos);
    JoinMaxLeast(a.current.neg, b.current.neg, c.current.neg);
  }

  lemma JoinMaxLeast(a: map<string, nat>, b: map<string, nat>, c: map<string, nat>)
    ensures LeqMap(a, Join(Max, a, b)) && LeqMap(b, Join(Max, a, b))
    ensures LeqMap(a, c) && LeqMap(b, c) ==> LeqMap(Join(Max, a, b), c)
  {
  }

  /** The join decides the order. */
  lemma LeqIffJoin(a: Core, b: Core)
    ensures LeqCore(a, b) <==> JoinCore(a, b) == b
  {
    JoinIsLeastUpperBound(a, b, b);
    LeqReflexive(b);
    if LeqCore(a, b) { LeqAntisymmetric(JoinCore(a, b), b); }
  }

  lemma LeqReflexive(a: Core)
    ensures LeqCore(a, a)
  {
  }

  lemma LeqTransitive(a: Core, b: Core, c: Core)
    requires LeqCore(a, b) && LeqCore(b, c)
    ensures LeqCore(a, c)
  {
    forall k | k in a.elements
      ensures LeqQuantities(a.elements[k], c.elements[k])
    {
      LeqQuantitiesTransitive(a.elements[k], b.elements[k], c.elements[k]);
    }
  }

  lemma LeqQuantitiesTransitive(a: Quantities, b: Quantities, c: Quantities)
    requires LeqQuantities(a, b) && LeqQuantities(b, c)
    ensures LeqQuantities(a, c)
  {
  }

  lemma LeqAntisymmetric(a: Core, b: Core)
    requires LeqCore(a, b) && LeqCore(b, a)
    ensures a == b
  {
    forall k | k in a.elements ensures a.elements[k] == b.elements[k] {
      assert LeqQuantities(a.elements[k], b.elements[k]) && LeqQuantities(b.elements[k], a.elements[k]);
      EqualCounters(a.elements[k].desired, b.elements[k].desired);
      EqualCounters(a.elements[k].current, b.elements[k].current);
    }
    assert a.elements == b.elements;
    EqualTags(a.adds, b.adds);
    EqualTags(a.removes, b.removes);
  }

  lemma EqualTags(a: map<string, set<string>>, b: map<string, set<string>>)
    requires LeqTags(a, b) && LeqTags(b, a)
    ensures a == b
  {
    forall k | k in a ensures a[k] == b[k] {}
  }

  lemma EqualCounters(a: Counter, b: Counter)
    requires Leq(a, b) && Leq(b, a)
    ensures a == b
  {
    assert a.pos == b.pos && a.neg == b.neg;
  }

  /** With the names in place the merge is still associative and idempotent; it is
      commutative only up to names. */
  lemma MergedItemsLaws(a: Items, b: Items, c: Items)
    ensures MergedItems(MergedItems(a, b), c) == MergedItems(a, MergedItems(b, c))
    ensures MergedItems(a, a) == a
    ensures CoreOf(MergedItems(a, b)) == CoreOf(MergedItems(b, a))
  {
    ItemLaws();
    UnionLaws();
    JoinAssociative(MergedItem, a.elements, b.elements, c.elements);
    JoinAssociative(Union, a.adds, b.adds, c.adds);
    JoinAssociative(Union, a.removes, b.removes, c.removes);
    JoinIdempotent(MergedItem, a.elements);
    JoinIdempotent(Union, a.adds);
    JoinIdempotent(Union, a.removes);
    MergeIsJoin(a, b);
    MergeIsJoin(b, a);
    JoinCoreCommutative(CoreOf(a), CoreOf(b));
  }

  lemma ItemLaws()
    ensures Associative(MergedItem) && Idempotent(MergedItem)
  {
    forall x: Item, y: Item, z: Item ensures MergedItem(MergedItem(x, y), z) == MergedItem(x, MergedItem(y, z)) {
      QuantitiesAssociative(QuantitiesOf(x), QuantitiesOf(y), QuantitiesOf(z));
    }
    forall x: Item ensures MergedItem(x, x) == x {
      MergeIdempotent(x.desired);
      MergeIdempotent(x.current);
    }
  }

  /** Items that both sides store carry the same name. */
  predicate SameNames(a: Items, b: Items) {
    forall k | k in a.elements && k in b.elements :: a.elements[k].name == b.elements[k].name
  }

  /** With the names in place the merge commutes exactly when no item merge throws and the
      items both sides store have equal names. */
  lemma MergeCommutesIff(a: Items, b: Items)
    ensures MergedItems(a, b) == MergedItems(b, a) <==> Mergeable(a, b) && SameNames(a, b)
  {
    UnionLaws();
    JoinCommutative(Union, a.adds, b.adds);
    JoinCommutative(Union, a.removes, b.removes);
    var l, r := MergedItems(a, b).elements, MergedItems(b, a).elements;
    forall k | k in a.elements && k in b.elements
      ensures l[k] == r[k] <==> a.elements[k].uid == b.elements[k].uid && a.elements[k].name == b.elements[k].name
    {
      MergeCommutative(a.elements[k].desired, b.elements[k].desired);
      MergeCommutative(a.elements[k].current, b.elements[k].current);
    }
    if Mergeable(a, b) && SameNames(a, b) {
      forall k | k in l ensures l[k] == r[k] {}
      assert l == r;
    }
  }

  /** Commutativity fails on names: each merge keeps the incoming name. */
  lemma NamesDoNotCommute()
    returns (a: Items, b: Items)
    ensures WellFormed(a) && WellFormed(b) && CoreOf(a) == CoreOf(b)
    ensures "u" in a.elements && "u" in b.elements && a.elements["u"].name != b.elements["u"].name
    ensures MergedItems(a, b).elements["u"].name == b.elements["u"].name
    ensures MergedItems(b, a).elements["u"].name == a.elements["u"].name
  {
    a := Added(NO_ITEMS, NewItem("c1", "u", "milk", 1, 0), "t1");
    b := Added(NO_ITEMS, NewItem("c1", "u", "bread", 1, 0), "t1");
    assert CoreOf(a).elements == CoreOf(b).elements;
    assert a.elements["u"].name == "milk" && a.elements["u"].name[0] == 'm' != b.elements["u"].name[0];
  }

  function Nameless(s: Items): Items {
    s.(elements := map k | k in s.elements :: s.elements[k].(name := ""))
  }

  /** On well-formed sets the content is everything but the names. */
  lemma CoreIsAllButNames(a: Items, b: Items)
    requires WellFormed(a) && WellFormed(b)
    ensures CoreOf(a) == CoreOf(b) <==> Nameless(a) == Nameless(b)
  {
    if CoreOf(a) == CoreOf(b) {
      assert a.elements.Keys == CoreOf(a).elements.Keys == b.elements.Keys;
      forall k | k in a.elements
        ensures a.elements[k].(name := "") == b.elements[k].(name := "")
      {
        assert CoreOf(a).elements[k] == CoreOf(b).elements[k];
      }
    }
    if Nameless(a) == Nameless(b) {
      assert a.elements.Keys == Nameless(a).elements.Keys == b.elements.Keys;
      forall k | k in a.elements
        ensures CoreOf(a).elements[k] == CoreOf(b).elements[k]
      {
        assert Nameless(a).elements[k] == Nameless(b).elements[k];
      }
    }
  }

  /** Overwriting an element is inflationary exactly when the key is new or the old element is below the new one. */
  lemma AddInflatesIff(s: Items, item: Item, tag: string)
    ensures LeqCore(CoreOf(s), CoreOf(Added(s, item, tag)))
       <==> (item.uid in s.elements ==> LeqQuantities(QuantitiesOf(s.elements[item.uid]), QuantitiesOf(item)))
  {
    var c, c' := CoreOf(s), CoreOf(Added(s, item, tag));
    forall k | k in c.elements && k != item.uid
      ensures c'.elements[k] == c.elements[k] && LeqQuantities(c.elements[k], c'.elements[k])
    {
    }
    assert c'.elements[item.uid] == QuantitiesOf(item);
    if item.uid in s.elements {
      assert c.elements[item.uid] == QuantitiesOf(s.elements[item.uid]);
    }
  }

  lemma RemoveInflates(s: Items, uid: string)
    ensures LeqCore(CoreOf(s), CoreOf(Removed(s, uid)))
  {
    LeqReflexive(CoreOf(s));
  }
}
