/** A shopping list: a uid, a name that is never merged, and an observed-remove set of items. */
module ShoppingLists {
  import ShoppingItems
  import Util
  import opened ORSets

  datatype List = List(uid: string, name: string, items: Items)

  function EmptyList(uid: string, name: string): List { List(uid, name, NO_ITEMS) }

  function MergedList(a: List, b: List): List { a.(items := MergedItems(a.items, b.items)) }

  /** The error of a source exception. */
  datatype Error = ListNotFound | ItemNotFound | ItemExists | UidMismatch

  class ShoppingList {
    const uid: string
    const name: string
    const items: ORSet

    function Abs(): List reads items { List(uid, name, items.Abs()) }

    /** A copy of a stored list. */
    constructor (l: List)
      ensures Abs() == l && fresh(items)
    {
      uid, name := l.uid, l.name;
      items := new ORSet(l.items);
    }

    method Contains(item: ShoppingItems.Item) returns (found: bool)
      ensures found == ORSets.Contains(Abs().items, item.uid)
    {
      found := items.ContainsUid(item.uid);
    }

    /** False where the source throws. */
    method Add(item: ShoppingItems.Item, tag: string) returns (ok: bool)
      modifies items
      ensures ok == !ORSets.Contains(old(Abs()).items, item.uid)
      ensures items.Abs() == if ok then Added(old(items.Abs()), item, tag) else old(items.Abs())
    {
      var found := Contains(item);
      ok := !found;
      if ok { items.Add(item, tag); }
    }

    /** False where the source throws. */
    method Update(item: ShoppingItems.Item, tag: string) returns (ok: bool)
      modifies items
      ensures ok == ORSets.Contains(old(Abs()).items, item.uid)
      ensures items.Abs() == if ok then Added(old(items.Abs()), item, tag) else old(items.Abs())
    {
      ok := Contains(item);
      if ok { items.Add(item, tag); }
    }

    method Remove(item: ShoppingItems.Item)
      modifies items
      ensures items.Abs() == Removed(old(items.Abs()), item.uid)
    {
      items.Remove(item);
    }

    /** The key of an element whose own uid is the requested one, by linear search; None where the source throws. */
    method GetItem(itemUid: string) returns (key: Util.Option<string>)
      ensures key.Some? ==> IsFound(Abs().items, itemUid, key.value)
      ensures key.None? ==> !Findable(Abs().items, itemUid)
    {
      var keys := items.Values();
      for i := 0 to |keys|
        invariant forall j | 0 <= j < i :: items.elements[keys[j]].uid != itemUid
      {
        if items.elements[keys[i]].uid == itemUid { return Util.Some(keys[i]); }
      }
      return Util.None;
    }

    method Merge(other: List) returns (ok: bool)
      modifies items
      ensures ok == Mergeable(old(Abs()).items, other.items)
      ensures ok ==> Abs() == MergedList(old(Abs()), other)
      ensures !ok ==> items.addSet == old(items.addSet) && items.removeSet == old(items.removeSet)
      ensures !ok ==> ORSet.PartlyJoined(old(items.elements), other.items.elements, items.elements)
    {
      ok := items.Merge(other.items);
    }
  }

  /** `getItem` finds an element with the uid. */
  ghost predicate Findable(s: Items, itemUid: string) { exists key :: IsFound(s, itemUid, key) }

  predicate IsFound(s: Items, itemUid: string, key: string) {
    ORSets.Contains(s, key) && key in s.elements && s.elements[key].uid == itemUid
  }

  /** In a well-formed list `getItem` succeeds exactly when the list contains the item, and returns its own element. */
  lemma GetItemIffContained(s: Items, itemUid: string, key: string)
    requires WellFormed(s)
    ensures IsFound(s, itemUid, key) <==> key == itemUid && ORSets.Contains(s, itemUid)
  {
  }
}
