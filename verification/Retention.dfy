/** A client that keeps its copy of a list loses nothing; one that deletes its copy and fetches an
    older one can lose what it added in between. */
module Retention {
  import ORSets
  import Maps
  import Lattice
  import Database
  import Api
  import opened Util
  import opened PNCounters
  import opened ShoppingItems
  import opened ShoppingLists
  import opened Replication
  import opened Convergence
  import opened Conservation

  predicate OwnPut(e: Event, list: string, o: string) { e.Put? && e.list == list && e.origin == o }

  /** The client's copy has seen all its own puts, and had at each of them. */
  ghost predicate KnowsOwn(s: State, list: string, o: string) {
    && (forall i | 0 <= i < |s.log| && OwnPut(s.log[i], list, o) :: i in SeenOf(s, Client(o), list))
    && (forall i, j | 0 <= i < j < |s.log| && OwnPut(s.log[i], list, o) && OwnPut(s.log[j], list, o) ::
          i in s.log[j].observed)
  }

  lemma RecordKeepsOwn(s: State, list: string, o: string, r: Replica, l: List, e: Event)
    requires KnowsOwn(s, list, o) && e.list == l.uid
    requires e.Put? ==> r == Client(e.origin) && e.observed == SeenOf(s, r, l.uid)
    ensures KnowsOwn(Recorded(s, r, l, e), list, o)
  {
    var s' := Recorded(s, r, l, e);
    assert forall i | 0 <= i < |s.log| :: s'.log[i] == s.log[i];
    forall i | 0 <= i < |s'.log| && OwnPut(s'.log[i], list, o) ensures i in SeenOf(s', Client(o), list) {
      if i < |s.log| { assert i in SeenOf(s, Client(o), list); }
    }
  }

  lemma NextKeepsOwn(s: State, a: Label, list: string, o: string)
    requires Inv(s) && KnowsOwn(s, list, o) && Enabled(s, a) && a != Delete(Client(o), list)
    ensures KnowsOwn(Next(s, a), list, o)
  {
    if a.Add? || a.Update? || a.Discard? {
      var r := Client(a.origin);
      assert GoodAt(s, r, a.list);
      var l, seen := DbOf(s, r)[a.list], SeenOf(s, r, a.list);
      if a.Add? {
        RecordKeepsOwn(s, list, o, r, Api.AddResult(a.origin, l, a.item, a.name, a.desired, a.current, a.tag),
                       AddEvent(a.origin, l, a.item, a.desired, a.current, a.tag, seen));
      } else if a.Update? {
        RecordKeepsOwn(s, list, o, r, Api.UpdateResult(a.origin, l, a.item, a.name, a.desired, a.current, a.tag),
                       UpdateEvent(a.origin, l, a.item, a.desired, a.current, a.tag, seen));
      } else {
        RecordKeepsOwn(s, list, o, r, Api.RemoveResult(l, a.item), RemoveEvent(l, a.item, seen));
      }
    } else {
      var s' := Next(s, a);
      assert s'.log == s.log;
      if a.Deliver? { DeliverSeenElsewhere(s.seen, Server(a.id), Picked(s.net, a.packets), Client(o), list); }
      assert SeenOf(s, Client(o), list) <= SeenOf(s', Client(o), list);
    }
  }

  lemma {:induction false} RunKeepsOwn(labels: seq<Label>, list: string, o: string)
    requires Delete(Client(o), list) !in labels
    ensures Run(labels).Some? ==> KnowsOwn(Run(labels).value, list, o)
  {
    if labels != [] {
      var n := |labels| - 1;
      RunKeepsOwn(labels[..n], list, o);
      RunKeepsInv(labels[..n]);
      var before := Run(labels[..n]);
      if before.Some? && Enabled(before.value, labels[n]) {
        assert labels[n] in labels;
        NextKeepsOwn(before.value, labels[n], list, o);
      }
    }
  }

  /** If each put of the origin had observed its earlier ones, each was made on an up-to-date copy. */
  lemma {:induction false} ObservedIsUpToDate(log: seq<Event>, n: nat, x: Slot)
    requires n <= |log| && Grounded(log)
    requires forall i, j | 0 <= i < j < n && PutBy(log[i], x) && PutBy(log[j], x) :: i in log[j].observed
    ensures AllUpToDate(log, n, x)
  {
    if n > 0 {
      ObservedIsUpToDate(log, n - 1, x);
      if PutBy(log[n - 1], x) {
        assert GroundedPut(log, n - 1);
        NothingLost(log, n - 1, log[n - 1].observed, x);
      }
    }
  }

  /** A client that never deletes its copy makes all its puts on up-to-date copies, and has seen them all. */
  lemma KeptCopyIsUpToDate(labels: seq<Label>, s: State, x: Slot)
    requires Reached(labels, s) && Delete(Client(x.origin), x.list) !in labels
    ensures AllUpToDate(s.log, |s.log|, x) && SeesAll(s.log, |s.log|, SeenOf(s, Client(x.origin), x.list), x)
  {
    RunKeepsOwn(labels, x.list, x.origin);
    RunGrounded(labels);
    assert forall i | 0 <= i < |s.log| && PutBy(s.log[i], x) :: OwnPut(s.log[i], x.list, x.origin);
    ObservedIsUpToDate(s.log, |s.log|, x);
  }

  /** The client's own copy then holds exactly its total, and no copy anywhere holds more. */
  lemma OwnerHoldsMost(labels: seq<Label>, s: State, x: Slot)
    requires Reached(labels, s) && Delete(Client(x.origin), x.list) !in labels && x.list in DbOf(s, Client(x.origin))
    ensures var own := StoredEntry(DbOf(s, Client(x.origin))[x.list], x);
      && own == Total(s.log, |s.log|, x)
      && (forall r | x.list in DbOf(s, r) :: StoredEntry(DbOf(s, r)[x.list], x) <= own)
      && (forall k | 0 <= k < |s.net| && s.net[k].list.uid == x.list :: StoredEntry(s.net[k].list, x) <= own)
  {
    KeptCopyIsUpToDate(labels, s, x);
    NothingLostIff(labels, s, Client(x.origin), x);
    EntriesBoundedByOwner(labels, s, x);
  }

  /** If no client deletes its copy, a replica that has seen every put of an item reads total
      increments minus total decrements. */
  lemma ValuesAddUpWithoutDeletes(labels: seq<Label>, s: State, r: Replica, list: string, item: string)
    requires Reached(labels, s) && forall o :: Delete(Client(o), list) !in labels
    requires list in DbOf(s, r) && item in DbOf(s, r)[list].items.elements && SeesAllPuts(s, r, list, item)
    ensures var i := DbOf(s, r)[list].items.elements[item];
      && Exact(i.desired) == DesiredTotal(s, list, item) && ValueOf(i.desired) == Wrap64(DesiredTotal(s, list, item))
      && Exact(i.current) == CurrentTotal(s, list, item) && ValueOf(i.current) == Wrap64(CurrentTotal(s, list, item))
  {
    forall o, cell ensures AllUpToDate(s.log, |s.log|, Slot(list, item, o, cell)) {
      KeptCopyIsUpToDate(labels, s, Slot(list, item, o, cell));
    }
    ValuesAddUp(labels, s, r, list, item);
  }

  /* ---- a run that loses a delta ---- */

  const X := Slot("l", "u", "c", DesiredUp)

  function Only(n: nat): Counter { Counter(map["c" := n], map[]) }

  lemma RaiseOnly(n: nat, q: nat)
    requires n < q < TWO31
    ensures Assigned(Only(n), "c", q) == Only(q) && Diff(Only(n), q) == q - n
    ensures NoWrap(Only(n), "c", q)
  {
    Maps.SumUpdate(map[], "c", n);
    assert map["c" := n] == map[]["c" := n];
    Wrap64Id(n);
    Wrap32Id(n);
    Wrap32Id(q);
    Wrap32Id(q - n);
  }

  function ItemWith(n: nat): Item { Item("u", "milk", Only(n), ZERO) }

  function Holding(n: nat, adds: set<string>): List {
    List("l", "", ORSets.Items(map["u" := ItemWith(n)], map["u" := adds], map[]))
  }

  predicate Raises(e: Event, n: nat) { PutBy(e, X) && e.amounts == Amounts(n, 0, 0, 0) }

  lemma KeepZero()
    ensures Assigned(ZERO, "c", 0) == ZERO && Diff(ZERO, 0) == 0 && NoWrap(ZERO, "c", 0)
  {
  }

  lemma Unsigned(q: nat)
    requires q < TWO32
    ensures ToU32(q) == q
  {
  }

  lemma RaiseItem(n: nat, q: nat)
    requires n < q < TWO31
    ensures Api.EditedItem("c", ItemWith(n), "milk", q, 0) == ItemWith(q)
    ensures ToU32(q) == q && ToU32(0) == 0 && Diff(Only(n), q) == q - n && Diff(ZERO, 0) == 0
    ensures NoWrap(Only(n), "c", q) && NoWrap(ZERO, "c", 0)
  {
    Unsigned(q);
    Unsigned(0);
    RaiseOnly(n, q);
    KeepZero();
  }

  lemma RaiseHolding(n: nat, q: nat, adds: set<string>, tag: string, seen: set<nat>)
    requires n < q < TWO31
    ensures Api.UpdateResult("c", Holding(n, adds), "u", "milk", q, 0, tag) == Holding(q, adds + {tag})
    ensures Raises(UpdateEvent("c", Holding(n, adds), "u", q, 0, tag, seen), q - n)
  {
    RaiseItem(n, q);
    var l := Holding(n, adds);
    UpdateElements(l, ItemWith(q), tag);
    assert Api.UpdateResult("c", l, "u", "milk", q, 0, tag).items
        == ORSets.Added(l.items.(elements := l.items.elements["u" := ItemWith(q)]), ItemWith(q), tag);
  }

  lemma UpdateElements(l: List, item: Item, tag: string)
    requires l.items.elements.Keys == l.items.adds.Keys == {"u"} && l.items.removes == map[] && item.uid == "u"
    ensures ORSets.Added(l.items.(elements := l.items.elements["u" := item]), item, tag)
         == ORSets.Items(map["u" := item], map["u" := l.items.adds["u"] + {tag}], map[])
  {
  }

  lemma OneStep(labels: seq<Label>, s: State, a: Label)
    requires Reached(labels, s) && Enabled(s, a)
    ensures Reached(labels + [a], Next(s, a))
  {
    assert (labels + [a])[..|labels|] == labels;
  }

  function Stored(s: State): Database.Db { DbOf(s, Client("c")) }

  function Known(s: State): set<nat> { SeenOf(s, Client("c"), "l") }

  /** The client raises the quantity from n to q. */
  lemma Raise(labels: seq<Label>, s: State, n: nat, q: nat, adds: set<string>, tag: string)
    returns (labels': seq<Label>, s': State, e: Event)
    requires Reached(labels, s) && Stored(s) == map["l" := Holding(n, adds)] && n < q < TWO31
    ensures Reached(labels', s') && Stored(s') == map["l" := Holding(q, adds + {tag})]
    ensures Known(s') == Known(s) + {|s.log|} && s'.log == s.log + [e] && Raises(e, q - n) && e.observed == Known(s)
    ensures s'.net == s.net + [Packet(Holding(q, adds + {tag}), Known(s'))]
  {
    var a := Label.Update("c", "l", "u", "milk", q, 0, tag);
    RaiseItem(n, q);
    RaiseHolding(n, q, adds, tag, Known(s));
    assert Enabled(s, a);
    OneStep(labels, s, a);
    labels', s', e := labels + [a], Next(s, a), UpdateEvent("c", Holding(n, adds), "u", q, 0, tag, Known(s));
  }

  /** The client creates the list and puts 5. */
  lemma FirstPut() returns (labels: seq<Label>, s: State, e: Event)
    ensures Reached(labels, s) && Stored(s) == map["l" := Holding(5, {"t1"})] && Known(s) == {0}
    ensures |s.net| == 2 && s.net[1] == Packet(Holding(5, {"t1"}), {0}) && s.log == [e] && Raises(e, 5)
  {
    var create, add := Create("c", "l", ""), Label.Add("c", "l", "u", "milk", 5, 0, "t1");
    OneStep([], INIT, create);
    var s1 := Next(INIT, create);
    var l := EmptyList("l", "");
    assert Stored(s1) == map["l" := l];
    OneStep([create], s1, add);
    assert ToU32(5) == 5 && ToU32(0) == 0;
    assert NewItem("c", "u", "milk", 5, 0) == ItemWith(5);
    assert {} + {"t1"} == {"t1"};
    assert ORSets.Added(l.items, ItemWith(5), "t1") == Holding(5, {"t1"}).items;
    labels, s, e := [create] + [add], Next(s1, add), AddEvent("c", l, "u", 5, 0, "t1", {});
  }

  /** The client deletes its copy and fetches the given snapshot of it. */
  lemma DeleteAndFetch(labels: seq<Label>, s: State, k: nat) returns (labels': seq<Label>, s': State)
    requires Reached(labels, s) && Stored(s).Keys == {"l"} && k < |s.net| && s.net[k].list.uid == "l"
    ensures Reached(labels', s') && Stored(s') == map["l" := s.net[k].list] && Known(s') == s.net[k].seen
    ensures s'.net == s.net && s'.log == s.log
  {
    var delete, fetch := Delete(Client("c"), "l"), Fetch("c", k);
    OneStep(labels, s, delete);
    var s1 := Next(s, delete);
    assert Stored(s1) == map[] && Known(s1) == {};
    OneStep(labels + [delete], s1, fetch);
    labels', s' := labels + [delete] + [fetch], Next(s1, fetch);
  }

  /** The client puts 5, raises to 9, deletes its copy, fetches the snapshot of 5 that was still in
      flight, and raises that to 6. */
  lemma ForgottenRaise() returns (labels: seq<Label>, s: State, e1: Event, e2: Event, e3: Event)
    ensures Reached(labels, s) && Stored(s) == map["l" := Holding(6, {"t1"} + {"t3"})] && Known(s) == {0, 2}
    ensures s.log == [e1, e2, e3] && Raises(e1, 5) && Raises(e2, 4) && Raises(e3, 1) && e3.observed == {0}
    ensures |s.net| > 2 && s.net[2] == Packet(Holding(9, {"t1"} + {"t2"}), {0, 1})
  {
    var l2, s2, l3, s3;
    l2, s2, e1, e2 := FirstPuts();
    l3, s3 := DeleteAndFetch(l2, s2, 1);
    labels, s, e3 := Raise(l3, s3, 5, 6, {"t1"}, "t3");
  }

  lemma FirstPuts() returns (labels: seq<Label>, s: State, e1: Event, e2: Event)
    ensures Reached(labels, s) && Stored(s).Keys == {"l"} && s.log == [e1, e2] && Raises(e1, 5) && Raises(e2, 4)
    ensures |s.net| == 3 && s.net[1] == Packet(Holding(5, {"t1"}), {0})
    ensures s.net[2] == Packet(Holding(9, {"t1"} + {"t2"}), {0, 1})
  {
    var l1, s1;
    l1, s1, e1 := FirstPut();
    labels, s, e2 := Raise(l1, s1, 5, 9, {"t1"}, "t2");
  }

  lemma FetchOnce(labels: seq<Label>, s: State, k: nat) returns (labels': seq<Label>, s': State)
    requires Reached(labels, s) && "l" in Stored(s) && k < |s.net| && s.net[k].list.uid == "l"
    requires Stored(s)["l"].uid == "l"
    ensures Reached(labels', s') && "l" in Stored(s') && Stored(s')["l"] == MergedList(Stored(s)["l"], s.net[k].list)
    ensures Known(s') == Known(s) + s.net[k].seen && s'.log == s.log
  {
    OneStep(labels, s, Fetch("c", k));
    labels', s' := labels + [Fetch("c", k)], Next(s, Fetch("c", k));
  }

  /** At last it fetches the 9 again: having seen every event there is, its entry is 9, where it added 10. */
  lemma DeltaLost() returns (labels: seq<Label>, s: State)
    ensures Reached(labels, s) && "l" in Stored(s) && Known(s) == {0, 1, 2} && |s.log| == 3
    ensures StoredEntry(Stored(s)["l"], X) == 9 && Total(s.log, 3, X) == 10 && !AllUpToDate(s.log, 3, X)
  {
    var past, s1, e1, e2, e3 := ForgottenRaise();
    labels, s := FetchOnce(past, s1, 2);
    GreaterEntry(6, 9, {"t1"} + {"t3"}, {"t1"} + {"t2"});
    TotalOfThree(e1, e2, e3);
    assert s.log == [e1, e2, e3];
    NothingLostIff(labels, s, Client("c"), X);
  }

  lemma GreaterEntry(n: nat, q: nat, adds: set<string>, more: set<string>)
    requires n <= q
    ensures StoredEntry(MergedList(Holding(n, adds), Holding(q, more)), X) == q
  {
    var l := MergedList(Holding(n, adds), Holding(q, more));
    assert l.items.elements["u"] == MergedItem(ItemWith(n), ItemWith(q));
    assert Lattice.CoreOf(l.items).elements["u"].desired.pos["c"] == q;
  }

  lemma TotalOfThree(e1: Event, e2: Event, e3: Event)
    requires Raises(e1, 5) && Raises(e2, 4) && Raises(e3, 1)
    ensures Total([e1, e2, e3], 3, X) == 10
  {
    var log := [e1, e2, e3];
    assert Total(log, 1, X) == 5;
    assert Total(log, 2, X) == 9;
  }
}
