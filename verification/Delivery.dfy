/** What a client writes reaches the others: through a node that accepts it, and from node to node. */
module Delivery {
  import Membership
  import opened Util
  import opened PNCounters
  import opened ORSets
  import opened ShoppingLists
  import opened Messages
  import opened Lattice
  import opened Database
  import opened Nodes
  import opened Api
  import opened Convergence
  import Dissemination
  import Clusters

  /** The list shows the item, under its name and with these quantities. */
  ghost predicate Shows(l: List, itemUid: string, name: string, desired: int, current: int) {
    && ORSets.Contains(l.items, itemUid) && itemUid in l.items.elements
    && l.items.elements[itemUid].name == name
    && ValueOf(l.items.elements[itemUid].desired) == desired
    && ValueOf(l.items.elements[itemUid].current) == current
  }

  /** What one copy shows and the other has never had is shown by their merge, as it was. */
  lemma MergeShows(a: List, b: List, itemUid: string, name: string, desired: int, current: int)
    requires WellFormed(a.items) && WellFormed(b.items) && itemUid !in a.items.elements
    requires Shows(b, itemUid, name, desired, current)
    ensures WellFormed(MergedList(a, b).items) && Shows(MergedList(a, b), itemUid, name, desired, current)
  {
    var m := MergedItems(a.items, b.items);
    MergeKeepsWellFormed(a.items, b.items);
    MergedContains(a.items, b.items, itemUid);
    ContainsIffTagsLeft(b.items, itemUid);
    assert Tags(a.items.adds, itemUid) == {} == Tags(a.items.removes, itemUid);
    assert m.elements[itemUid] == b.items.elements[itemUid];
  }

  /** The copy a client gets from a node. */
  ghost predicate Gets(cfg: Membership.Config, db: Db, uid: string, got: List) {
    cfg.numShards > 0 && forall origin, sentAt, now ::
      ReplyList(Some(ReplyTo(cfg, db, GetList(origin, sentAt, uid), now))) == Some(got)
  }

  /** A list stored by an accepting node is the one other clients then get. */
  lemma StoredIsGot(cfg: Membership.Config, db: Db, uid: string)
    requires cfg.numShards > 0 && ShardOf(uid, cfg.numShards) == cfg.shardId && uid in db
    ensures Gets(cfg, db, uid, db[uid])
  {
  }

  /** A well-formed list sent to a node of its shard is merged into the copy the node has, which is what
      others then get. */
  lemma SentIsGot(cfg: Membership.Config, db: Db, origin: string, l: List, sentAt: nat) returns (got: List)
    requires WellFormedDb(db) && WellFormed(l.items)
    requires cfg.numShards > 0 && ShardOf(l.uid, cfg.numShards) == cfg.shardId
    ensures var sent := EnsureList(origin, sentAt, l);
      AllMerge(db, MergedLists(sent)) && Gets(cfg, ClientApplied(cfg, db, sent), l.uid, got)
    ensures got == MergedList(ReadOr(db, l.uid), l) && WellFormed(ReadOr(db, l.uid).items)
  {
    var sent := EnsureList(origin, sentAt, l);
    EmptyWellFormed();
    NothingThrows(db, [l]);
    EnsureTakesEffect(cfg, db, sent);
    got := MergedList(ReadOr(db, l.uid), l);
    assert ClientApplied(cfg, db, sent)[l.uid] == got;
    StoredIsGot(cfg, ClientApplied(cfg, db, sent), l.uid);
  }

  /** An item that a client adds to a list and sends to a node of the list's shard is in the copy that
      every other client then gets from that node, and in that client's list after the merge, with
      its name and quantities. */
  lemma AddReachesOthers(cfg: Membership.Config, db: Db, origin: string, l: List, itemUid: string, name: string,
                         desired: int, current: int, tag: string, sentAt: nat, mine: List) returns (got: List)
    requires WellFormedDb(db) && cfg.numShards > 0 && ShardOf(l.uid, cfg.numShards) == cfg.shardId
    requires WellFormed(l.items) && itemUid !in l.items.elements
    requires itemUid !in ReadOr(db, l.uid).items.elements
    requires 0 <= desired < TWO32 && 0 <= current < TWO32
    requires WellFormed(mine.items) && itemUid !in mine.items.elements
    ensures var sent := EnsureList(origin, sentAt, AddResult(origin, l, itemUid, name, desired, current, tag));
      AllMerge(db, MergedLists(sent)) && Gets(cfg, ClientApplied(cfg, db, sent), l.uid, got)
    ensures Shows(got, itemUid, name, desired, current)
    ensures Shows(MergedList(mine, got), itemUid, name, desired, current)
  {
    var l' := AddResult(origin, l, itemUid, name, desired, current, tag);
    AddedItemShown(origin, l, itemUid, name, desired, current, tag);
    got := SentIsGot(cfg, db, origin, l', sentAt);
    MergeShows(ReadOr(db, l.uid), l', itemUid, name, desired, current);
    MergeShows(mine, got, itemUid, name, desired, current);
  }

  /** An item that a client removes and sends is absent from the copy others then get exactly when the
      node had no add tag of it that the client had not seen and the node had not removed. */
  lemma RemovalReachesIff(cfg: Membership.Config, db: Db, origin: string, l: List, itemUid: string, sentAt: nat)
    returns (got: List)
    requires WellFormedDb(db) && cfg.numShards > 0 && ShardOf(l.uid, cfg.numShards) == cfg.shardId
    requires WellFormed(l.items) && ORSets.Contains(l.items, itemUid)
    ensures var sent := EnsureList(origin, sentAt, RemoveResult(l, itemUid));
      AllMerge(db, MergedLists(sent)) && Gets(cfg, ClientApplied(cfg, db, sent), l.uid, got)
    ensures var node := ReadOr(db, l.uid).items;
      ORSets.Contains(got.items, itemUid) <==>
        !(Tags(node.adds, itemUid) <= Tags(node.removes, itemUid) + Tags(l.items.adds, itemUid))
  {
    var l' := RemoveResult(l, itemUid);
    RemovedItemGone(l, itemUid);
    got := SentIsGot(cfg, db, origin, l', sentAt);
    MergedContains(ReadOr(db, l.uid).items, l'.items, itemUid);
    assert Tags(l'.items.adds, itemUid) == Tags(l'.items.removes, itemUid) == Tags(l.items.adds, itemUid);
  }

  /** A list that a client deletes is not in the answer of that node any more; all other lists stay. */
  lemma DeletionReachesOthers(cfg: Membership.Config, db: Db, origin: string, uid: string, sentAt: nat)
    requires cfg.numShards > 0 && ShardOf(uid, cfg.numShards) == cfg.shardId
    ensures var db' := ClientApplied(cfg, db, DeleteList(origin, sentAt, uid));
      && ChangedOnlyAt(db, db', uid)
      && forall o, at, now :: ReplyList(Some(ReplyTo(cfg, db', GetList(o, at, uid), now))) == None
  {
    DeleteTakesEffect(cfg, db, DeleteList(origin, sentAt, uid));
  }

  /* ---- from node to node ---- */

  /** Storing gossip joins in everything the gossiping node had when it sent it. */
  lemma GossipDelivers(w: Clusters.Configs, s: Clusters.State, a: Clusters.Label, s1: Clusters.State, b: Clusters.Label,
                       uid: string)
    requires a.Gossip? && Clusters.Enabled(w, s, a) && Keyed(Clusters.DbOf(s, a.id))
    requires b.Store? && Clusters.Enabled(w, s1, b) && Keyed(Clusters.DbOf(s1, b.id))
    requires b.packet == Clusters.Lists(a.link, a.id, a.lists) && !Clusters.Fails(w, b)
    ensures b.packet in Clusters.Next(w, s, a).net
    ensures CoreAt(Clusters.DbOf(Clusters.Next(w, s1, b), b.id), uid)
         == JoinCore(CoreAt(Clusters.DbOf(s1, b.id), uid), CoreAt(Clusters.DbOf(s, a.id), uid))
  {
    Dissemination.SnapshotContent(a.lists, Clusters.DbOf(s, a.id), uid);
    ApplyIsPointwiseJoin(Clusters.DbOf(s1, b.id), a.lists, uid);
    assert a.lists[..b.merged] == a.lists;
  }

  /** A write that a running node merges is in its database. */
  lemma RequestDelivers(w: Clusters.Configs, s: Clusters.State, a: Clusters.Label)
    requires a.Request? && Clusters.Enabled(w, s, a) && Keyed(Clusters.DbOf(s, a.id)) && !Clusters.Fails(w, a)
    requires ShardOf(a.m.lists[0].uid, w[a.id].numShards) == w[a.id].shardId
    ensures var u, db, db' := a.m.lists[0].uid, Clusters.DbOf(s, a.id), Clusters.DbOf(Clusters.Next(w, s, a), a.id);
      && (a.m.op == ENSURE_LIST ==> u in db' && CoreAt(db', u) == JoinCore(CoreAt(db, u), CoreOf(a.m.lists[0].items)))
      && (a.m.op == GOSSIP_LISTS ==> CoreAt(db', u) == JoinCore(CoreAt(db, u), JoinedLists(a.m.lists, u)))
      && (a.m.op == DELETE_LIST ==> u !in db')
  {
    var cfg, db := w[a.id], Clusters.DbOf(s, a.id);
    if a.m.op == ENSURE_LIST {
      EnsureTakesEffect(cfg, db, a.m);
    } else if a.m.op == GOSSIP_LISTS {
      GossipTakesEffect(cfg, db, a.m, a.m.lists[0].uid);
    } else if a.m.op == DELETE_LIST {
      DeleteTakesEffect(cfg, db, a.m);
    }
  }
}
