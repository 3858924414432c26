/** What every run of the replication protocol guarantees about the copies of a list. */
module Convergence {
  import Util
  import ShoppingLists
  import ShoppingItems
  import Database
  import opened ORSets
  import opened Lattice
  import opened Replication

  /** The state s is reached by the run. */
  ghost predicate Reached(labels: seq<Label>, s: State) { Run(labels) == Util.Some(s) }

  lemma ReachedInv(labels: seq<Label>, s: State)
    requires Reached(labels, s)
    ensures Inv(s)
  {
    RunKeepsInv(labels);
  }

  /** In every reachable state each stored copy is well-formed and is the join of the deltas of
      the events it has seen, whatever was lost, repeated, reordered or deleted. */
  lemma CopyIsJoinOfSeenEvents(labels: seq<Label>, s: State, r: Replica, list: string)
    requires Reached(labels, s) && list in DbOf(s, r)
    ensures WellFormed(DbOf(s, r)[list].items)
    ensures CoreOf(DbOf(s, r)[list].items) == Fold(s.log, |s.log|, SeenOf(s, r, list))
  {
    ReachedInv(labels, s);
    assert GoodAt(s, r, list);
  }

  /** No merge of the protocol ever throws: any packet fits any stored copy of its list. */
  lemma NoMergeThrows(labels: seq<Label>, s: State, r: Replica, ks: seq<nat>)
    requires Reached(labels, s) && forall i | 0 <= i < |ks| :: ks[i] < |s.net|
    ensures Database.WellFormedDb(DbOf(s, r)) && Database.AllMerge(DbOf(s, r), ListsOf(Picked(s.net, ks)))
  {
    ReachedInv(labels, s);
    forall u | u in DbOf(s, r) ensures DbOf(s, r)[u].uid == u && WellFormed(DbOf(s, r)[u].items) {
      assert GoodAt(s, r, u);
    }
    forall l | l in ListsOf(Picked(s.net, ks)) ensures WellFormed(l.items) {
      var i :| 0 <= i < |ks| && ListsOf(Picked(s.net, ks))[i] == l;
      assert l == s.net[ks[i]].list;
    }
    Database.NothingThrows(DbOf(s, r), ListsOf(Picked(s.net, ks)));
  }

  /** Replicas that have seen the same events hold the same tags and counters: the same list up to names. */
  lemma StrongConvergence(labels: seq<Label>, s: State, r: Replica, r': Replica, list: string)
    requires Reached(labels, s) && list in DbOf(s, r) && list in DbOf(s, r')
    requires SeenOf(s, r, list) == SeenOf(s, r', list)
    ensures Nameless(DbOf(s, r)[list].items) == Nameless(DbOf(s, r')[list].items)
  {
    CopyIsJoinOfSeenEvents(labels, s, r, list);
    CopyIsJoinOfSeenEvents(labels, s, r', list);
    CoreIsAllButNames(DbOf(s, r)[list].items, DbOf(s, r')[list].items);
  }

  /* ---- observed-remove semantics ---- */

  /** Some put of the item was seen that no seen removal had observed. */
  ghost predicate Live(log: seq<Event>, seen: set<nat>, item: string) {
    exists i :: i in seen && IsPut(log, i, item) && Unobserved(log, seen, item, i)
  }

  /** No seen removal of the item observed the put i. */
  ghost predicate Unobserved(log: seq<Event>, seen: set<nat>, item: string, i: nat) {
    forall j | j in seen && IsRemove(log, j, item) :: i !in log[j].observed
  }

  predicate IsPut(log: seq<Event>, i: nat, item: string) { i < |log| && log[i].Put? && log[i].item == item }

  predicate IsRemove(log: seq<Event>, i: nat, item: string) { i < |log| && log[i].Remove? && log[i].item == item }

  /** The removal j observed a put of the item with the tag of put i. */
  ghost predicate Masks(log: seq<Event>, j: nat, i: nat, item: string)
    requires IsRemove(log, j, item) && IsPut(log, i, item)
  {
    exists k :: k in log[j].observed && k < |log| && PutsTag(log[k], item, log[i].tag)
  }

  /** No seen removal of the item observed a put with the tag of put i. */
  ghost predicate Unmasked(log: seq<Event>, seen: set<nat>, item: string, i: nat)
    requires IsPut(log, i, item)
  {
    forall j | j in seen && IsRemove(log, j, item) :: !Masks(log, j, i, item)
  }

  /** Without any assumption on tags: contained means some seen put has a tag that no seen removal observed. */
  lemma ContainsIffUnmasked(log: seq<Event>, l: ShoppingLists.List, seen: set<nat>, item: string)
    requires GoodCopy(log, l, seen) && forall i | 0 <= i < |log| :: GoodRemove(log, i)
    ensures ORSets.Contains(l.items, item) <==>
      exists i :: i in seen && IsPut(log, i, item) && Unmasked(log, seen, item, i)
  {
    ContainsMeansUnremovedTag(l.items, item);
    assert l.items.adds == Fold(log, |log|, seen).adds && l.items.removes == Fold(log, |log|, seen).removes;
    if tag :| tag in Tags(l.items.adds, item) && tag !in Tags(l.items.removes, item) {
      FoldTags(log, |log|, seen, item, tag);
      var i :| i in seen && i < |log| && PutsTag(log[i], item, tag);
      forall j | j in seen && IsRemove(log, j, item) ensures !Masks(log, j, i, item) {
        assert tag !in log[j].tags && GoodRemove(log, j);
      }
      assert IsPut(log, i, item);
    }
    if i :| i in seen && IsPut(log, i, item) && Unmasked(log, seen, item, i) {
      var tag := log[i].tag;
      FoldTags(log, |log|, seen, item, tag);
      assert PutsTag(log[i], item, tag);
      if j :| j in seen && j < |log| && log[j].Remove? && log[j].item == item && tag in log[j].tags {
        assert IsRemove(log, j, item) && GoodRemove(log, j);
        assert Masks(log, j, i, item);
      }
    }
  }

  /** Different puts of an item on a list carry different tags. */
  ghost predicate UniqueTags(log: seq<Event>, list: string, item: string) {
    forall i: nat, j: nat |
      IsPut(log, i, item) && IsPut(log, j, item) && log[i].list == log[j].list == list && i != j ::
      log[i].tag != log[j].tag
  }

  /** With unique tags a removal masks only puts it observed. */
  lemma UnmaskedIfUnique(log: seq<Event>, list: string, item: string, j: nat, i: nat)
    requires UniqueTags(log, list, item) && IsRemove(log, j, item) && IsPut(log, i, item) && log[i].list == list
    requires forall k | k in log[j].observed && k < |log| :: log[k].list == list
    ensures Masks(log, j, i, item) ==> i in log[j].observed
  {
    if k :| k in log[j].observed && k < |log| && PutsTag(log[k], item, log[i].tag) {
      assert IsPut(log, k, item) && log[k].list == list;
    }
  }

  /** Contained means live; with unique tags live means contained. A concurrent add or update beats a remove. */
  lemma ObservedRemove(labels: seq<Label>, s: State, r: Replica, list: string, item: string)
    requires Reached(labels, s) && list in DbOf(s, r)
    ensures ORSets.Contains(DbOf(s, r)[list].items, item) ==> Live(s.log, SeenOf(s, r, list), item)
    ensures UniqueTags(s.log, list, item) && Live(s.log, SeenOf(s, r, list), item) ==>
      ORSets.Contains(DbOf(s, r)[list].items, item)
  {
    ReachedInv(labels, s);
    assert GoodAt(s, r, list);
    var l, seen := DbOf(s, r)[list], SeenOf(s, r, list);
    ContainsIffUnmasked(s.log, l, seen, item);
    if i :| i in seen && IsPut(s.log, i, item) && Unmasked(s.log, seen, item, i) {
      assert PutsTag(s.log[i], item, s.log[i].tag);
      forall j | j in seen && IsRemove(s.log, j, item) ensures i !in s.log[j].observed {
        assert !Masks(s.log, j, i, item);
      }
    }
    if UniqueTags(s.log, list, item) && Live(s.log, seen, item) {
      var i :| i in seen && IsPut(s.log, i, item) && Unobserved(s.log, seen, item, i);
      forall j | j in seen && IsRemove(s.log, j, item) ensures !Masks(s.log, j, i, item) {
        assert GoodRemove(s.log, j);
        UnmaskedIfUnique(s.log, list, item, j, i);
      }
    }
  }

  /** A put on one copy, a removal on another, whatever the two copies hold: after the merge the
      item is contained exactly when some tag of the putter's copy, the new one included, is
      neither removed there nor held by the remover. */
  lemma ConcurrentPutSurvivesIff(s: Items, a: Items, item: ShoppingItems.Item, tag: string)
    requires WellFormed(s) && WellFormed(a)
    ensures ORSets.Contains(MergedItems(Added(s, item, tag), Removed(a, item.uid)), item.uid)
       <==> !(Tags(s.adds, item.uid) + {tag} <= Tags(s.removes, item.uid) + Tags(a.adds, item.uid))
  {
    var uid, b, c := item.uid, Added(s, item, tag), Removed(a, item.uid);
    OperationsKeepWellFormed(s, item, tag, uid);
    OperationsKeepWellFormed(a, item, tag, uid);
    MergedContains(b, c, uid);
    TagsAfter(s, a, item, tag);
  }

  /** In a merge an item is contained when the tags both sides added are not all removed by one of them. */
  lemma MergedContains(b: Items, c: Items, uid: string)
    requires WellFormed(b) && WellFormed(c)
    ensures ORSets.Contains(MergedItems(b, c), uid)
       <==> !(Tags(b.adds, uid) + Tags(c.adds, uid) <= Tags(b.removes, uid) + Tags(c.removes, uid))
  {
    MergeKeepsWellFormed(b, c);
    ContainsIffTagsLeft(MergedItems(b, c), uid);
    TagsOfJoin(b.adds, c.adds);
    TagsOfJoin(b.removes, c.removes);
  }

  lemma TagsAfter(s: Items, a: Items, item: ShoppingItems.Item, tag: string)
    requires WellFormed(a)
    ensures Tags(Added(s, item, tag).adds, item.uid) == Tags(s.adds, item.uid) + {tag}
    ensures Tags(Removed(a, item.uid).adds, item.uid) == Tags(a.adds, item.uid)
    ensures Tags(Removed(a, item.uid).removes, item.uid) == Tags(a.adds, item.uid)
  {
  }

  /** If the remover holds every tag of the putter's copy, only a collision of the new tag loses the put. */
  lemma PutOnSeenCopySurvivesIff(s: Items, a: Items, item: ShoppingItems.Item, tag: string)
    requires WellFormed(s) && WellFormed(a) && Tags(s.adds, item.uid) <= Tags(a.adds, item.uid)
    requires Tags(s.removes, item.uid) <= Tags(a.adds, item.uid)
    ensures ORSets.Contains(MergedItems(Added(s, item, tag), Removed(a, item.uid)), item.uid)
       <==> tag !in Tags(a.adds, item.uid)
  {
    ConcurrentPutSurvivesIff(s, a, item, tag);
  }

  /** A collision that loses the put, and the same collision surviving through an older tag the remover lacks. */
  lemma CollidingTags(item: ShoppingItems.Item, before: ShoppingItems.Item)
    requires item.uid == before.uid
    ensures var a := Removed(Added(NO_ITEMS, before, "t1"), item.uid);
      && !ORSets.Contains(MergedItems(Added(NO_ITEMS, item, "t1"), a), item.uid)
      && ORSets.Contains(MergedItems(Added(Added(NO_ITEMS, before, "t2"), item, "t1"), a), item.uid)
  {
    var s, a := Added(NO_ITEMS, before, "t2"), Added(NO_ITEMS, before, "t1");
    OperationsKeepWellFormed(NO_ITEMS, before, "t1", item.uid);
    OperationsKeepWellFormed(NO_ITEMS, before, "t2", item.uid);
    ConcurrentPutSurvivesIff(NO_ITEMS, a, item, "t1");
    ConcurrentPutSurvivesIff(s, a, item, "t1");
    assert "t1"[1] != "t2"[1];
  }

  /* ---- copies only grow ---- */

  lemma {:induction false} FoldGrows(log: seq<Event>, n: nat, seen: set<nat>, more: set<nat>)
    requires n <= |log| && seen <= more
    ensures LeqCore(Fold(log, n, seen), Fold(log, n, more))
  {
    FoldUnion(log, n, seen, more);
    assert seen + more == more;
    JoinIsLeastUpperBound(Fold(log, n, seen), Fold(log, n, more), BOTTOM);
  }

  lemma {:induction false} AppliedSeenGrows(seen: SeenMap, r: Replica, packets: seq<Packet>, r': Replica, list: string)
    ensures Lookup(seen, r', list) <= Lookup(AppliedSeen(seen, r, packets), r', list)
  {
    if packets != [] { AppliedSeenGrows(seen, r, packets[..|packets| - 1], r', list); }
  }

  lemma {:induction false} AppliedKeepsLists(db: Database.Db, lists: seq<ShoppingLists.List>, list: string)
    ensures list in db ==> list in Database.Applied(db, lists)
  {
    if lists != [] { AppliedKeepsLists(db, lists[..|lists| - 1], list); }
  }

  lemma EventGrows(s: State, a: Label, r: Replica, list: string)
    requires Inv(s) && Enabled(s, a) && (a.Add? || a.Update? || a.Discard?) && list in DbOf(s, r)
    ensures var s' := Next(s, a);
      list in DbOf(s', r) && SeenOf(s, r, list) <= SeenOf(s', r, list) && s.log <= s'.log
  {
    assert GoodAt(s, Client(a.origin), a.list);
  }

  /** One step: a copy that is not deleted keeps what it has seen. */
  lemma SeenGrows(s: State, a: Label, r: Replica, list: string)
    requires Inv(s) && Enabled(s, a) && a != Delete(r, list) && list in DbOf(s, r)
    ensures var s' := Next(s, a);
      list in DbOf(s', r) && SeenOf(s, r, list) <= SeenOf(s', r, list) && s.log <= s'.log
  {
    if a.Add? || a.Update? || a.Discard? {
      EventGrows(s, a, r, list);
    } else if a.Deliver? {
      AppliedSeenGrows(s.seen, Server(a.id), Picked(s.net, a.packets), r, list);
      AppliedKeepsLists(DbOf(s, Server(a.id)), ListsOf(Picked(s.net, a.packets)), list);
    } else if a.Fetch? {
      assert GoodAt(s, Client(a.origin), s.net[a.packet].list.uid);
    }
  }

  lemma CopyGrows(s: State, a: Label, r: Replica, list: string)
    requires Inv(s) && Enabled(s, a) && a != Delete(r, list) && list in DbOf(s, r)
    ensures list in DbOf(Next(s, a), r)
    ensures LeqCore(CoreOf(DbOf(s, r)[list].items), CoreOf(DbOf(Next(s, a), r)[list].items))
  {
    var s' := Next(s, a);
    SeenGrows(s, a, r, list);
    NextKeepsInv(s, a);
    assert GoodAt(s, r, list) && GoodAt(s', r, list);
    var l := DbOf(s, r)[list];
    if |s'.log| == |s.log| {
      assert s'.log == s.log;
    } else {
      assert s'.log == s.log + [s'.log[|s.log|]];
      GoodLater(s.log, s'.log[|s.log|], l, SeenOf(s, r, list));
    }
    FoldGrows(s'.log, |s'.log|, SeenOf(s, r, list), SeenOf(s', r, list));
  }

  lemma LastStepGrows(labels: seq<Label>, s': State, mid: State, r: Replica, list: string)
    requires labels != [] && Reached(labels, s') && Reached(labels[..|labels| - 1], mid)
    requires Delete(r, list) != labels[|labels| - 1] && list in DbOf(mid, r)
    ensures list in DbOf(s', r)
    ensures LeqCore(CoreOf(DbOf(mid, r)[list].items), CoreOf(DbOf(s', r)[list].items))
  {
    ReachedInv(labels[..|labels| - 1], mid);
    CopyGrows(mid, labels[|labels| - 1], r, list);
  }

  /** Along any continuation of a run that does not delete the replica's copy, the copy only grows. */
  lemma {:induction false} CopiesOnlyGrow(labels: seq<Label>, more: seq<Label>, s: State, s': State,
      r: Replica, list: string)
    requires Reached(labels, s) && Reached(labels + more, s')
    requires Delete(r, list) !in more && list in DbOf(s, r)
    ensures list in DbOf(s', r)
    ensures LeqCore(CoreOf(DbOf(s, r)[list].items), CoreOf(DbOf(s', r)[list].items))
  {
    if more == [] {
      assert labels + more == labels;
      LeqReflexive(CoreOf(DbOf(s, r)[list].items));
    } else {
      var n := |more| - 1;
      assert (labels + more)[..|labels + more| - 1] == labels + more[..n];
      var mid := Run(labels + more[..n]).value;
      CopiesOnlyGrow(labels, more[..n], s, mid, r, list);
      assert more[n] in more;
      LastStepGrows(labels + more, s', mid, r, list);
      LeqTransitive(CoreOf(DbOf(s, r)[list].items), CoreOf(DbOf(mid, r)[list].items), CoreOf(DbOf(s', r)[list].items));
    }
  }
}
