/** The observed-remove set of shopping items: adding inserts a tag, removing copies the
    present tags, and an item is contained while some add tag is not yet removed. */
module ORSets {
  import opened Maps
  import opened ShoppingItems

  datatype Items = Items(
    elements: map<string, Item>,
    adds: map<string, set<string>>,
    removes: map<string, set<string>>)

  const NO_ITEMS := Items(map[], map[], map[])

  function Tags(m: map<string, set<string>>, uid: string): set<string> { if uid in m then m[uid] else {} }

  /** An entry of the remove map may exist and cover all add tags; without one the item counts as present. */
  predicate Contains(s: Items, uid: string) {
    uid in s.adds && (uid in s.removes ==> !(s.adds[uid] <= s.removes[uid]))
  }

  function Added(s: Items, item: Item, tag: string): Items {
    s.(elements := s.elements[item.uid := item], adds := s.adds[item.uid := Tags(s.adds, item.uid) + {tag}])
  }

  function Removed(s: Items, uid: string): Items {
    if Tags(s.adds, uid) == {} then s
    else s.(removes := s.removes[uid := Tags(s.removes, uid) + s.adds[uid]])
  }

  function MergedItems(a: Items, b: Items): Items {
    Items(Join(MergedItem, a.elements, b.elements), Join(Union, a.adds, b.adds), Join(Union, a.removes, b.removes))
  }

  /** Elements stored under the same key carry the same uid, so no item merge throws. */
  predicate Mergeable(a: Items, b: Items) {
    forall k | k in a.elements && k in b.elements :: a.elements[k].uid == b.elements[k].uid
  }

  class ORSet {
    var elements: map<string, Item>
    var addSet: map<string, set<string>>
    var removeSet: map<string, set<string>>

    function Abs(): Items reads this { Items(elements, addSet, removeSet) }

    constructor (s: Items)
      ensures Abs() == s
    {
      elements, addSet, removeSet := s.elements, s.adds, s.removes;
    }

    method ContainsUid(uid: string) returns (found: bool)
      ensures found == Contains(Abs(), uid)
    {
      if uid !in addSet { return false; }
      if uid !in removeSet { return true; }
      var rest := addSet[uid];
      while rest != {}
        invariant rest <= addSet[uid]
        invariant addSet[uid] - rest <= removeSet[uid]
        decreases rest
      {
        var tag :| tag in rest;
        if tag !in removeSet[uid] { return true; }
        rest := rest - {tag};
      }
      return false;
    }

    /** The tag is the clock reading of the source. */
    method Add(elem: Item, tag: string)
      modifies this
      ensures Abs() == Added(old(Abs()), elem, tag)
    {
      elements := elements[elem.uid := elem];
      addSet := addSet[elem.uid := Tags(addSet, elem.uid) + {tag}];
    }

    method Remove(elem: Item)
      modifies this
      ensures Abs() == Removed(old(Abs()), elem.uid)
    {
      var uid := elem.uid;
      if uid in addSet {
        var rest := addSet[uid];
        while rest != {}
          modifies `removeSet
          invariant rest <= addSet[uid]
          invariant removeSet == if rest == addSet[uid] then old(removeSet)
            else old(removeSet)[uid := Tags(old(removeSet), uid) + (addSet[uid] - rest)]
          decreases rest
        {
          var tag :| tag in rest;
          assert Tags(removeSet, uid) == Tags(old(removeSet), uid) + (addSet[uid] - rest);
          removeSet := removeSet[uid := Tags(removeSet, uid) + {tag}];
          rest := rest - {tag};
          assert Tags(old(removeSet), uid) + (addSet[uid] - rest) == removeSet[uid];
        }
        assert addSet[uid] - rest == addSet[uid];
      }
    }

    /** The keys whose elements `values()` points at, in any order. */
    method Values() returns (keys: seq<string>)
      ensures forall i, j | 0 <= i < j < |keys| :: keys[i] != keys[j]
      ensures forall k :: k in keys <==> Contains(Abs(), k) && k in elements
    {
      keys := [];
      var rest := addSet.Keys;
      while rest != {}
        invariant rest <= addSet.Keys
        invariant forall i, j | 0 <= i < j < |keys| :: keys[i] != keys[j]
        invariant forall k :: k in keys <==> k !in rest && Contains(Abs(), k) && k in elements
        decreases rest
      {
        var uid :| uid in rest;
        var present := ContainsUid(uid);
        if present && uid in elements {
          keys := keys + [uid];
        }
        rest := rest - {uid};
      }
    }

    /** Assignment through the reference that `getItem` hands out. */
    method Store(key: string, item: Item)
      modifies `elements
      ensures elements == old(elements)[key := item]
    {
      elements := elements[key := item];
    }

    /** Returns false where the source throws from an item merge: some elements may then be
        merged already, and no tag is. */
    method Merge(other: Items) returns (ok: bool)
      modifies this
      ensures ok == Mergeable(old(Abs()), other)
      ensures ok ==> Abs() == MergedItems(old(Abs()), other)
      ensures !ok ==> addSet == old(addSet) && removeSet == old(removeSet)
      ensures !ok ==> PartlyJoined(old(elements), other.elements, elements)
    {
      ok := MergeElements(other.elements);
      if ok {
        addSet := JoinedTags(addSet, other.adds);
        removeSet := JoinedTags(removeSet, other.removes);
      }
    }

    static predicate PartlyJoined(a: map<string, Item>, b: map<string, Item>, r: map<string, Item>) {
      && a.Keys <= r.Keys <= a.Keys + b.Keys
      && forall k | k in r :: (k in a && r[k] == a[k]) || r[k] == Join(MergedItem, a, b)[k]
    }

    static predicate SameUids(a: map<string, Item>, b: map<string, Item>) {
      forall k | k in a && k in b :: a[k].uid == b[k].uid
    }

    method MergeElements(other: map<string, Item>) returns (ok: bool)
      modifies `elements
      ensures ok == SameUids(old(elements), other)
      ensures ok ==> elements == Join(MergedItem, old(elements), other)
      ensures PartlyJoined(old(elements), other, elements)
    {
      var rest := other;
      while rest != map[]
        modifies `elements
        invariant Merging(old(elements), other, elements, rest)
        decreases |rest|
      {
        var key :| key in rest;
        if key in elements {
          var item;
          ok, item := MergeElement(elements[key], other[key]);
          if !ok {
            return;
          }
          MergingStep(old(elements), other, elements, rest, key);
          elements := elements[key := item];
        } else {
          MergingStep(old(elements), other, elements, rest, key);
          elements := elements[key := other[key]];
        }
        rest := rest - {key};
      }
      JoinEmpty(MergedItem, elements);
      return true;
    }

    static method MergeElement(mine: Item, other: Item) returns (ok: bool, r: Item)
      ensures ok == (mine.uid == other.uid)
      ensures r == if ok then MergedItem(mine, other) else mine
    {
      var item := new ShoppingItem.Copy(mine);
      ok := item.Merge(other);
      r := item.Abs();
    }

    /** Of the merge of b into a, the entries `rest` of b are still to do. */
    static ghost predicate Merging(a: map<string, Item>, b: map<string, Item>, r: map<string, Item>,
        rest: map<string, Item>) {
      && (forall k | k in rest :: k in b && rest[k] == b[k] && (k in r <==> k in a) && (k in r ==> r[k] == a[k]))
      && (forall k | k in a && k in b && k !in rest :: a[k].uid == b[k].uid)
      && Join(MergedItem, r, rest) == Join(MergedItem, a, b)
      && PartlyJoined(a, b, r)
    }

    static lemma MergingStep(a: map<string, Item>, b: map<string, Item>, r: map<string, Item>,
        rest: map<string, Item>, k: string)
      requires Merging(a, b, r, rest) && k in rest && (k in r ==> r[k].uid == b[k].uid)
      ensures Merging(a, b, JoinAt(MergedItem, r, k, b[k]), rest - {k})
    {
      JoinStep(MergedItem, r, rest, k);
    }

    static method JoinedTags(m: map<string, set<string>>, other: map<string, set<string>>)
      returns (r: map<string, set<string>>)
      ensures r == Join(Union, m, other)
    {
      r := m;
      var rest := other;
      while rest != map[]
        invariant Join(Union, r, rest) == Join(Union, m, other)
        decreases |rest|
      {
        var uid :| uid in rest;
        JoinStep(Union, r, rest, uid);
        r := r[uid := Tags(r, uid) + rest[uid]];
        rest := rest - {uid};
      }
      JoinEmpty(Union, r);
    }
  }

  /** What every replica and message satisfies in a run. */
  ghost predicate WellFormed(s: Items) {
    && s.elements.Keys == s.adds.Keys
    && s.removes.Keys <= s.adds.Keys
    && (forall k | k in s.elements :: s.elements[k].uid == k)
    && (forall k | k in s.adds :: s.adds[k] != {})
    && (forall k | k in s.removes :: {} != s.removes[k] <= s.adds[k])
  }

  lemma EmptyWellFormed()
    ensures WellFormed(NO_ITEMS)
  {
  }

  lemma OperationsKeepWellFormed(s: Items, item: Item, tag: string, uid: string)
    requires WellFormed(s)
    ensures WellFormed(Added(s, item, tag)) && WellFormed(Removed(s, uid))
  {
  }

  /** Merging well-formed sets never throws and stays well-formed. */
  lemma MergeKeepsWellFormed(a: Items, b: Items)
    requires WellFormed(a) && WellFormed(b)
    ensures Mergeable(a, b) && WellFormed(MergedItems(a, b))
  {
    JoinKeepsSubset(a.removes, b.removes, a.adds, b.adds);
  }

  /** Every key has tags, all of them among those of m. */
  ghost predicate TagSubset(r: map<string, set<string>>, m: map<string, set<string>>) {
    r.Keys <= m.Keys && forall k | k in r :: {} != r[k] <= m[k]
  }

  lemma JoinKeepsSubset(r: map<string, set<string>>, r': map<string, set<string>>, m: map<string, set<string>>,
      m': map<string, set<string>>)
    requires TagSubset(r, m) && TagSubset(r', m')
    ensures TagSubset(Join(Union, r, r'), Join(Union, m, m'))
  {
    forall k | k in Join(Union, r, r')
      ensures {} != Join(Union, r, r')[k] <= Join(Union, m, m')[k]
    {
      TagsOfJoin(r, r');
      TagsOfJoin(m, m');
      assert Join(Union, r, r')[k] == Tags(r, k) + Tags(r', k);
      assert Join(Union, m, m')[k] == Tags(m, k) + Tags(m', k);
    }
  }

  lemma TagsOfJoin(a: map<string, set<string>>, b: map<string, set<string>>)
    ensures Join(Union, a, b).Keys == a.Keys + b.Keys
    ensures forall k :: Tags(Join(Union, a, b), k) == Tags(a, k) + Tags(b, k)
  {
  }

  /** In a well-formed set the contained items are exactly those with an unremoved add tag. */
  lemma ContainsMeansUnremovedTag(s: Items, uid: string)
    requires WellFormed(s)
    ensures Contains(s, uid) <==> exists tag :: tag in Tags(s.adds, uid) && tag !in Tags(s.removes, uid)
  {
    ContainsIffTagsLeft(s, uid);
    if Contains(s, uid) {
      var tag :| tag in Tags(s.adds, uid) && tag !in Tags(s.removes, uid);
    }
  }

  lemma ContainsIffTagsLeft(s: Items, uid: string)
    requires WellFormed(s)
    ensures Contains(s, uid) <==> !(Tags(s.adds, uid) <= Tags(s.removes, uid))
  {
  }
}
