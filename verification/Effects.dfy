/** What each step of the replication protocol does to the replica that takes it. */
module Effects {
  import opened Util
  import opened ShoppingItems
  import opened ORSets
  import opened Database
  import opened Api
  import opened Replication
  import opened Convergence

  /** The client's copy has the element under this name, the new event is a put of the item with the
      given tag by this client, and the packet sent carries the new copy. */
  ghost predicate PutShown(s': State, o: string, list: string, item: string, name: string, tag: string) {
    && list in DbOf(s', Client(o)) && item in DbOf(s', Client(o))[list].items.elements
    && ORSets.Contains(DbOf(s', Client(o))[list].items, item)
    && DbOf(s', Client(o))[list].items.elements[item].name == name
    && s'.log != [] && PutsTag(s'.log[|s'.log| - 1], item, tag)
    && s'.log[|s'.log| - 1].list == list && s'.log[|s'.log| - 1].origin == o
    && s'.net != [] && s'.net[|s'.net| - 1].list == DbOf(s', Client(o))[list]
  }

  lemma AddTakesEffect(s: State, a: Label)
    requires Inv(s) && a.Add? && Enabled(s, a)
    ensures PutShown(Next(s, a), a.origin, a.list, a.item, a.name, a.tag) && |Next(s, a).log| == |s.log| + 1
  {
    assert GoodAt(s, Client(a.origin), a.list);
    var l := DbOf(s, Client(a.origin))[a.list];
    AddedContains(l.items, NewItem(a.origin, a.item, a.name, ToU32(a.desired), ToU32(a.current)), a.tag);
  }

  lemma UpdateTakesEffect(s: State, a: Label)
    requires Inv(s) && a.Update? && Enabled(s, a)
    ensures PutShown(Next(s, a), a.origin, a.list, a.item, a.name, a.tag) && |Next(s, a).log| == |s.log| + 1
  {
    assert GoodAt(s, Client(a.origin), a.list);
    var l := DbOf(s, Client(a.origin))[a.list];
    UpdateIsAdd(a.origin, l, a.item, a.name, a.desired, a.current, a.tag);
    AddedContains(l.items, EditedItem(a.origin, l.items.elements[a.item], a.name, a.desired, a.current), a.tag);
  }

  /** After a removal the client's copy lacks the item, and it is that copy that is sent. */
  lemma DiscardTakesEffect(s: State, a: Label)
    requires Inv(s) && a.Discard? && Enabled(s, a)
    ensures var s' := Next(s, a);
      && a.list in DbOf(s', Client(a.origin))
      && !ORSets.Contains(DbOf(s', Client(a.origin))[a.list].items, a.item)
      && |s'.log| == |s.log| + 1 && IsRemove(s'.log, |s.log|, a.item) && s'.log[|s.log|].list == a.list
      && s'.net != [] && s'.net[|s'.net| - 1].list == DbOf(s', Client(a.origin))[a.list]
  {
    assert GoodAt(s, Client(a.origin), a.list);
    RemovedItemGone(DbOf(s, Client(a.origin))[a.list], a.item);
  }

  /** A server that is delivered packets stores each of their lists, and has seen all that they had. */
  lemma DeliverTakesEffect(s: State, a: Label)
    requires Inv(s) && a.Deliver? && Enabled(s, a)
    ensures forall i | 0 <= i < |a.packets| :: Holds(Next(s, a), Server(a.id), s.net[a.packets[i]])
  {
    forall u | u in DbOf(s, Server(a.id)) ensures DbOf(s, Server(a.id))[u].uid == u {
      assert GoodAt(s, Server(a.id), u);
    }
    var packets := Picked(s.net, a.packets);
    forall i | 0 <= i < |a.packets| ensures Holds(Next(s, a), Server(a.id), s.net[a.packets[i]]) {
      PacketHeld(s.seen, DbOf(s, Server(a.id)), Server(a.id), packets, packets[i]);
    }
  }

  /** The replica has the packet's list, and has seen every event the packet had. */
  ghost predicate Holds(s: State, r: Replica, p: Packet) {
    p.list.uid in DbOf(s, r) && p.seen <= SeenOf(s, r, p.list.uid)
  }

  lemma {:induction false} PacketHeld(seen: SeenMap, db: Db, r: Replica, packets: seq<Packet>, p: Packet)
    requires Keyed(db) && p in packets
    ensures p.list.uid in Applied(db, ListsOf(packets))
    ensures p.seen <= Lookup(AppliedSeen(seen, r, packets), r, p.list.uid)
  {
    var n := |packets| - 1;
    assert ListsOf(packets)[..n] == ListsOf(packets[..n]);
    ApplyIsPointwiseJoin(db, ListsOf(packets), p.list.uid);
    var i :| 0 <= i < |packets| && packets[i] == p;
    assert ListsOf(packets)[i] in ListsOf(packets);
    if packets[n] != p { PacketHeld(seen, db, r, packets[..n], p); }
  }

  lemma FetchTakesEffect(s: State, a: Label)
    requires Inv(s) && a.Fetch? && Enabled(s, a)
    ensures Holds(Next(s, a), Client(a.origin), s.net[a.packet])
  {
    assert GoodAt(s, Client(a.origin), s.net[a.packet].list.uid);
  }

  lemma CreateAndDeleteTakeEffect(s: State, a: Label)
    requires Enabled(s, a)
    ensures a.Create? ==>
      var db := DbOf(Next(s, a), Client(a.origin));
      && a.list in db && db[a.list].name == a.name && db[a.list].items == NO_ITEMS
      && Next(s, a).net != [] && Next(s, a).net[|Next(s, a).net| - 1].list == db[a.list]
    ensures a.Delete? ==> a.list !in DbOf(Next(s, a), a.replica)
  {
  }
}
