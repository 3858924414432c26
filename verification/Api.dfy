/** The client: every operation reads a list, changes it, sends it to the cloud, merges the
    reply if there is one, and writes the list back. */
module Api {
  import Membership
  import opened Util
  import opened PNCounters
  import opened ShoppingItems
  import opened ORSets
  import opened ShoppingLists
  import opened Messages
  import opened Lattice
  import opened Database
  import opened Nodes

  datatype Result<+T> = Ok(value: T) | Err(error: Error)

  function AddResult(origin: string, l: List, itemUid: string, name: string, desired: int, current: int,
      tag: string): List {
    l.(items := Added(l.items, NewItem(origin, itemUid, name, ToU32(desired), ToU32(current)), tag))
  }

  ghost function EditedItem(origin: string, item: Item, name: string, desired: int, current: int): Item {
    Item(item.uid, name,
         Assigned(item.desired, origin, ToU32(desired)),
         Assigned(item.current, origin, ToU32(current)))
  }

  /** The element is changed through its reference, then added again with a new tag. */
  ghost function UpdateResult(origin: string, l: List, key: string, name: string, desired: int, current: int,
      tag: string): List
    requires key in l.items.elements
  {
    var item := EditedItem(origin, l.items.elements[key], name, desired, current);
    l.(items := Added(l.items.(elements := l.items.elements[key := item]), item, tag))
  }

  function RemoveResult(l: List, itemUid: string): List { l.(items := Removed(l.items, itemUid)) }

  /** The list a reply carries; a timeout, an error text or another operation carries none. */
  function ReplyList(reply: Option<Reply>): Option<List> {
    if reply.Some? && reply.value.Answer? && reply.value.m.op == LIST_RESPONSE && |reply.value.m.lists| > 0
    then Some(reply.value.m.lists[0]) else None
  }

  ghost predicate MergeableReply(l: List, reply: Option<Reply>) {
    var cloud := ReplyList(reply);
    cloud.Some? ==> Mergeable(l.items, cloud.value.items)
  }

  function AfterReply(l: List, reply: Option<Reply>): List {
    var cloud := ReplyList(reply);
    if cloud.Some? then MergedList(l, cloud.value) else l
  }

  /** What a client may see in answer to a change: nothing, a refusal, or its own list echoed. */
  ghost predicate EchoOrNothing(sent: List, reply: Option<Reply>) {
    ReplyList(reply).None? || ReplyList(reply) == Some(sent)
  }

  /** All lists of a request belong to one shard. */
  predicate Grouped(m: Message, numShards: nat)
    requires numShards > 0
  {
    |m.lists| > 0 && forall l | l in m.lists :: ShardOf(l.uid, numShards) == ShardOf(m.lists[0].uid, numShards)
  }

  /** The lists of one shard, in the order read. */
  function OfShard(lists: seq<List>, shard: nat, numShards: nat): seq<List>
    requires numShards > 0
  {
    if lists == [] then []
    else
      var rest, l := OfShard(lists[..|lists| - 1], shard, numShards), lists[|lists| - 1];
      if ShardOf(l.uid, numShards) == shard then rest + [l] else rest
  }

  predicate InShardMessage(sent: map<nat, Message>, l: List, numShards: nat)
    requires numShards > 0
  {
    var shard := ShardOf(l.uid, numShards);
    shard in sent && l in sent[shard].lists
  }

  /** An element is found, and the list contains its uid. */
  ghost predicate Updatable(s: Items, itemUid: string) { Findable(s, itemUid) && ORSets.Contains(s, itemUid) }

  class API {
    const origin: string
    const numShards: nat
    var db: Db

    constructor (origin: string, numShards: nat, db: Db)
      ensures this.origin == origin && this.numShards == numShards && this.db == db
    {
      this.origin, this.numShards, this.db := origin, numShards, db;
    }

    /** Merges the reply, then writes the list whatever came of it: an exception of the merge is swallowed. */
    method Finish(lst: ShoppingList, reply: Option<Reply>) returns (l: List)
      modifies `db, lst.items
      ensures db == Written(old(db), l) && l.uid == lst.uid
      ensures MergeableReply(old(lst.Abs()), reply) ==> l == AfterReply(old(lst.Abs()), reply)
      ensures !MergeableReply(old(lst.Abs()), reply) ==>
        && l.items.adds == old(lst.Abs()).items.adds && l.items.removes == old(lst.Abs()).items.removes
        && ORSet.PartlyJoined(old(lst.Abs()).items.elements, ReplyList(reply).value.items.elements, l.items.elements)
    {
      var cloud := ReplyList(reply);
      if cloud.Some? {
        var _ := lst.Merge(cloud.value);
      }
      l := lst.Abs();
      db := Written(db, l);
    }

    /** Draws uids until one is not that of a stored list; `draws` are the random strings. */
    method CreateUID(draws: seq<string>) returns (uid: string)
      requires exists d :: d in draws && d !in db
      ensures exists i | 0 <= i < |draws| :: uid == draws[i] && uid !in db && forall j | 0 <= j < i :: draws[j] in db
    {
      uid := draws[0];
      var i := 0;
      while uid in db
        invariant 0 <= i < |draws| && uid == draws[i] && forall j | 0 <= j < i :: draws[j] in db
        decreases |draws| - i
      {
        i := i + 1;
        uid := draws[i];
      }
    }

    method CreateShoppingList(draws: seq<string>, name: string, now: nat) returns (l: List, sent: Message)
      requires exists d :: d in draws && d !in db
      modifies `db
      ensures l.name == name && l.items == NO_ITEMS && l.uid in draws && l.uid !in old(db)
      ensures db == old(db)[l.uid := l]
      ensures sent == EnsureList(origin, now, l) && sent.op == ENSURE_LIST && sent.lists == [l]
    {
      var uid := CreateUID(draws);
      l := EmptyList(uid, name);
      db := Written(db, l);
      sent := EnsureList(origin, now, l);
    }

    method GetShoppingList(listUid: string, now: nat, reply: Option<Reply>) returns (r: Result<List>, sent: Message)
      modifies `db
      ensures sent == GetList(origin, now, listUid)
      ensures var cloud := ReplyList(reply);
        if listUid in old(db) && !MergeableReply(old(db)[listUid], reply) then r == Err(UidMismatch) && db == old(db)
        else if listUid in old(db) then r == Ok(AfterReply(old(db)[listUid], reply)) && db == Written(old(db), r.value)
        else if cloud.Some? then r == Ok(cloud.value) && db == Written(old(db), r.value)
        else r == Err(ListNotFound) && db == old(db)
    {
      sent := GetList(origin, now, listUid);
      var cloud := ReplyList(reply);
      if cloud.None? && listUid !in db {
        return Err(ListNotFound), sent;
      }
      var l: List;
      if cloud.Some? && listUid in db {
        var lst := new ShoppingList(db[listUid]);
        var ok := lst.Merge(cloud.value);
        if !ok { return Err(UidMismatch), sent; }
        l := lst.Abs();
      } else {
        l := if cloud.Some? then cloud.value else db[listUid];
      }
      db := Written(db, l);
      r := Ok(l);
    }

    method AddItem(listUid: string, itemUid: string, name: string, desired: int, current: int,
                   tag: string, now: nat, reply: Option<Reply>)
      returns (r: Result<List>, sent: Option<Message>)
      modifies `db
      ensures listUid !in old(db) ==> r == Err(ListNotFound)
      ensures listUid in old(db) && ORSets.Contains(old(db)[listUid].items, itemUid) ==> r == Err(ItemExists)
      ensures listUid in old(db) && !ORSets.Contains(old(db)[listUid].items, itemUid) ==>
        var l := AddResult(origin, old(db)[listUid], itemUid, name, desired, current, tag);
        && sent == Some(EnsureList(origin, now, l))
        && r.Ok? && db == Written(old(db), r.value) && r.value.uid == l.uid
        && (MergeableReply(l, reply) ==> r.value == AfterReply(l, reply))
        && (EchoOrNothing(l, reply) ==> r.value == l)
      ensures r.Err? ==> db == old(db) && sent == None
    {
      if listUid !in db { return Err(ListNotFound), None; }
      var lst := new ShoppingList(db[listUid]);
      var item := new ShoppingItem(origin, itemUid, name, ToU32(desired), ToU32(current));
      var ok := lst.Add(item.Abs(), tag);
      if !ok { return Err(ItemExists), None; }
      sent := Some(EnsureList(origin, now, lst.Abs()));
      ghost var l := lst.Abs();
      EchoChangesNothing(l, reply);
      var stored := Finish(lst, reply);
      r := Ok(stored);
    }

    /** The element is changed in place through the reference `getItem` returned, then added again
        if the list contains its uid; the exception otherwise abandons the list. */
    method Edit(lst: ShoppingList, key: string, name: string, desired: int, current: int,
        tag: string) returns (ok: bool)
      requires key in lst.items.elements
      modifies lst.items
      ensures ok == ORSets.Contains(old(lst.Abs()).items, old(lst.items.elements)[key].uid)
      ensures ok ==> lst.Abs() == UpdateResult(origin, old(lst.Abs()), key, name, desired, current, tag)
    {
      var item := new ShoppingItem.Copy(lst.items.elements[key]);
      item.SetName(name);
      item.SetDesiredQuantity(origin, ToU32(desired));
      item.SetCurrentQuantity(origin, ToU32(current));
      lst.items.Store(key, item.Abs());
      ok := lst.Update(item.Abs(), tag);
    }

    /** `key` is where the search of `getItem` stopped. */
    method UpdateItem(listUid: string, itemUid: string, name: string, desired: int, current: int,
                      tag: string, now: nat, reply: Option<Reply>)
      returns (r: Result<List>, sent: Option<Message>, ghost key: string)
      modifies `db
      ensures listUid !in old(db) ==> r == Err(ListNotFound)
      ensures listUid in old(db) && Updatable(old(db)[listUid].items, itemUid) ==>
        && IsFound(old(db)[listUid].items, itemUid, key)
        && var l := UpdateResult(origin, old(db)[listUid], key, name, desired, current, tag);
        && sent == Some(EnsureList(origin, now, l))
        && r.Ok? && db == Written(old(db), r.value) && r.value.uid == l.uid
        && (MergeableReply(l, reply) ==> r.value == AfterReply(l, reply))
        && (EchoOrNothing(l, reply) ==> r.value == l)
      ensures listUid in old(db) && !Updatable(old(db)[listUid].items, itemUid) ==> r == Err(ItemNotFound)
      ensures r.Err? ==> db == old(db) && sent == None
    {
      if listUid !in db { return Err(ListNotFound), None, ""; }
      var lst := new ShoppingList(db[listUid]);
      var found := lst.GetItem(itemUid);
      if found == None { return Err(ItemNotFound), None, ""; }
      key := found.value;
      var ok := Edit(lst, found.value, name, desired, current, tag);
      if !ok { return Err(ItemNotFound), None, key; }
      sent := Some(EnsureList(origin, now, lst.Abs()));
      ghost var l := lst.Abs();
      EchoChangesNothing(l, reply);
      var stored := Finish(lst, reply);
      r := Ok(stored);
    }

    method RemoveItem(listUid: string, itemUid: string, now: nat, reply: Option<Reply>)
      returns (r: Result<List>, sent: Option<Message>)
      modifies `db
      ensures listUid !in old(db) ==> r == Err(ListNotFound)
      ensures listUid in old(db) && !Findable(old(db)[listUid].items, itemUid) ==> r == Err(ItemNotFound)
      ensures listUid in old(db) && Findable(old(db)[listUid].items, itemUid) ==>
        var l := RemoveResult(old(db)[listUid], itemUid);
        && sent == Some(EnsureList(origin, now, l))
        && r.Ok? && db == Written(old(db), r.value) && r.value.uid == l.uid
        && (MergeableReply(l, reply) ==> r.value == AfterReply(l, reply))
        && (EchoOrNothing(l, reply) ==> r.value == l)
      ensures r.Err? ==> db == old(db) && sent == None
    {
      if listUid !in db { return Err(ListNotFound), None; }
      var lst := new ShoppingList(db[listUid]);
      var found := lst.GetItem(itemUid);
      if found == None { return Err(ItemNotFound), None; }
      lst.Remove(lst.items.elements[found.value]);
      sent := Some(EnsureList(origin, now, lst.Abs()));
      ghost var l := lst.Abs();
      EchoChangesNothing(l, reply);
      var stored := Finish(lst, reply);
      r := Ok(stored);
    }

    method DeleteShoppingList(listUid: string, now: nat) returns (sent: Message)
      modifies `db
      ensures db == old(db) - {listUid} && sent == DeleteList(origin, now, listUid)
    {
      db := db - {listUid};
      sent := DeleteList(origin, now, listUid);
    }

    /** Reads all rows and sends one message per shard that has lists, holding exactly that shard's
        lists, each stored list in the message of its own shard. */
    method GossipState(now: nat) returns (sent: map<nat, Message>, ghost all: seq<List>)
      requires numShards > 0
      ensures Snapshot(all, db)
      ensures forall s: nat :: s in sent <==> OfShard(all, s, numShards) != []
      ensures forall s | s in sent :: sent[s] == GossipLists(origin, now, OfShard(all, s, numShards))
      ensures forall u | u in db :: InShardMessage(sent, db[u], numShards)
    {
      var rows := ReadAll(db);
      sent := Group(rows, now);
      all := rows;
      forall u | u in db ensures InShardMessage(sent, db[u], numShards) {
        OfShardIff(all, ShardOf(db[u].uid, numShards), numShards);
      }
    }

    method Group(all: seq<List>, now: nat) returns (sent: map<nat, Message>)
      requires numShards > 0
      ensures forall s: nat :: s in sent <==> OfShard(all, s, numShards) != []
      ensures forall s | s in sent :: sent[s] == GossipLists(origin, now, OfShard(all, s, numShards))
    {
      var groups: map<nat, seq<List>> := map[];
      for i := 0 to |all|
        invariant forall s: nat :: s in groups <==> OfShard(all[..i], s, numShards) != []
        invariant forall s | s in groups :: groups[s] == OfShard(all[..i], s, numShards)
      {
        var shard := ShardFor(all[i].uid);
        OfShardAppend(all[..i], all[i], numShards);
        assert all[..i + 1] == all[..i] + [all[i]];
        groups := groups[shard := (if shard in groups then groups[shard] else []) + [all[i]]];
      }
      assert all[..|all|] == all;
      sent := map s | s in groups :: GossipLists(origin, now, groups[s]);
    }

    method ShardFor(listUid: string) returns (shard: nat)
      requires numShards > 0
      ensures shard == ShardOf(listUid, numShards)
    {
      var hash := GetHash(listUid);
      shard := hash % numShards;
    }
  }

  /** In a well-formed list an item can be updated or removed exactly when it is contained. */
  lemma FoundIffContained(s: Items, itemUid: string)
    requires WellFormed(s)
    ensures Findable(s, itemUid) <==> ORSets.Contains(s, itemUid)
    ensures Updatable(s, itemUid) <==> ORSets.Contains(s, itemUid)
  {
    GetItemIffContained(s, itemUid, itemUid);
  }

  lemma OfShardAppend(lists: seq<List>, l: List, numShards: nat)
    requires numShards > 0
    ensures forall s: nat ::
      OfShard(lists + [l], s, numShards)
        == OfShard(lists, s, numShards) + if ShardOf(l.uid, numShards) == s then [l] else []
  {
    assert (lists + [l])[..|lists|] == lists;
  }

  lemma {:induction false} OfShardIff(lists: seq<List>, shard: nat, numShards: nat)
    requires numShards > 0
    ensures forall l :: l in OfShard(lists, shard, numShards) <==> l in lists && ShardOf(l.uid, numShards) == shard
  {
    if lists != [] {
      var k := |lists| - 1;
      OfShardIff(lists[..k], shard, numShards);
      assert lists == lists[..k] + [lists[k]];
    }
  }

  /** Every gossip message of a client is grouped. */
  lemma GossipIsGrouped(lists: seq<List>, shard: nat, numShards: nat, origin: string, now: nat)
    requires numShards > 0 && OfShard(lists, shard, numShards) != []
    ensures Grouped(GossipLists(origin, now, OfShard(lists, shard, numShards)), numShards)
    ensures ShardOf(OfShard(lists, shard, numShards)[0].uid, numShards) == shard
  {
    OfShardIff(lists, shard, numShards);
    var group := OfShard(lists, shard, numShards);
    assert group[0] in group;
  }

  /** Reading a list joins the node's copy into the client's, or nothing if the node is of another shard or lacks it. */
  lemma GetJoinsNodeCopy(cfg: Membership.Config, db: Db, origin: string, l: List, sentAt: nat, now: nat)
    requires cfg.numShards > 0
    ensures CoreOf(AfterReply(l, Some(ReplyTo(cfg, db, GetList(origin, sentAt, l.uid), now))).items)
      == if ShardOf(l.uid, cfg.numShards) == cfg.shardId then JoinCore(CoreOf(l.items), CoreAt(db, l.uid))
         else CoreOf(l.items)
  {
    JoinBottom(CoreOf(l.items));
    if l.uid in db { MergeIsJoin(l.items, db[l.uid].items); }
  }

  /** Merging a list with its own echo changes nothing, names included. */
  lemma EchoChangesNothing(l: List, reply: Option<Reply>)
    ensures EchoOrNothing(l, reply) ==> MergeableReply(l, reply) && AfterReply(l, reply) == l
  {
    MergedItemsLaws(l.items, l.items, l.items);
  }

  /** A node of the list's shard echoes the list it was sent; any other carries no list in its answer. */
  lemma NodesEcho(cfg: Membership.Config, db: Db, origin: string, l: List, sentAt: nat, now: nat)
    requires cfg.numShards > 0
    ensures ReplyList(Some(ReplyTo(cfg, db, EnsureList(origin, sentAt, l), now)))
         == if ShardOf(l.uid, cfg.numShards) == cfg.shardId then Some(l) else None
    ensures EchoOrNothing(l, Some(ReplyTo(cfg, db, EnsureList(origin, sentAt, l), now)))
  {
  }

  /** A read is answered with exactly the stored list, names included, if the node is of the list's
      shard and has it, and with no list otherwise. */
  lemma GetAnswer(cfg: Membership.Config, db: Db, origin: string, uid: string, sentAt: nat, now: nat)
    requires cfg.numShards > 0
    ensures ReplyList(Some(ReplyTo(cfg, db, GetList(origin, sentAt, uid), now)))
         == if ShardOf(uid, cfg.numShards) == cfg.shardId && uid in db then Some(db[uid]) else None
  {
  }

  /** The answer to a deletion carries no list. */
  lemma DeleteAnswer(cfg: Membership.Config, db: Db, origin: string, uid: string, sentAt: nat, now: nat)
    requires cfg.numShards > 0
    ensures ReplyList(Some(ReplyTo(cfg, db, DeleteList(origin, sentAt, uid), now))) == None
  {
  }

  /** All items but one are as before. */
  ghost predicate OthersUnchanged(s: Items, s': Items, uid: string) {
    && s'.elements - {uid} == s.elements - {uid}
    && forall k | k != uid :: ORSets.Contains(s', k) == ORSets.Contains(s, k)
  }

  /** The added item is shown exactly when its tag was not removed before; it then has the
      requested name and quantities. */
  lemma AddedItemShown(origin: string, l: List, itemUid: string, name: string, desired: int, current: int, tag: string)
    requires WellFormed(l.items) && !ORSets.Contains(l.items, itemUid)
    requires 0 <= desired < TWO32 && 0 <= current < TWO32
    ensures var l' := AddResult(origin, l, itemUid, name, desired, current, tag);
      && l'.uid == l.uid && l'.name == l.name
      && WellFormed(l'.items) && OthersUnchanged(l.items, l'.items, itemUid)
      && (ORSets.Contains(l'.items, itemUid) <==> tag !in Tags(l.items.removes, itemUid))
      && l'.items.elements[itemUid].name == name
      && ValueOf(l'.items.elements[itemUid].desired) == desired
      && ValueOf(l'.items.elements[itemUid].current) == current
  {
    var item := NewItem(origin, itemUid, name, ToU32(desired), ToU32(current));
    OperationsKeepWellFormed(l.items, item, tag, itemUid);
    FreshCounter(origin, desired);
    FreshCounter(origin, current);
    AddedContains(l.items, item, tag);
  }

  /** With a uid new to the list, as the source draws it, the added item is always shown. */
  lemma FreshItemShown(origin: string, l: List, itemUid: string, name: string, desired: int, current: int, tag: string)
    requires WellFormed(l.items) && itemUid !in l.items.elements
    requires 0 <= desired < TWO32 && 0 <= current < TWO32
    ensures ORSets.Contains(AddResult(origin, l, itemUid, name, desired, current, tag).items, itemUid)
  {
    AddedItemShown(origin, l, itemUid, name, desired, current, tag);
  }

  /** A uid used again after its removal, with the clock tag of its first use: the item stays hidden. */
  lemma ReusedUidHidden(origin: string, name: string)
    ensures var l := AddResult(origin, EmptyList("l", "list"), "u", name, 1, 0, "t");
      !ORSets.Contains(AddResult(origin, RemoveResult(l, "u"), "u", name, 1, 0, "t").items, "u")
  {
    var e := EmptyList("l", "list");
    var l := AddResult(origin, e, "u", name, 1, 0, "t");
    AddedItemShown(origin, e, "u", name, 1, 0, "t");
    RemovedItemGone(l, "u");
    AddedItemShown(origin, RemoveResult(l, "u"), "u", name, 1, 0, "t");
  }

  /** An update to -2147483648 of an item at zero leaves it at zero. */
  lemma UpdateNotShown(origin: string, item: Item, name: string)
    requires item.desired == ZERO
    ensures ToU32(ValueOf(EditedItem(origin, item, name, -TWO31, 0).desired)) == 0 != ToU32(-TWO31)
  {
    SetThenGetFails(origin);
  }

  lemma FreshCounter(origin: string, quantity: int)
    requires 0 <= quantity < TWO32
    ensures ToU32(quantity) == quantity && ValueOf(Incremented(ZERO, origin, quantity)) == quantity
  {
    var k := SumBump(map[], origin, quantity);
    Wrap64Id(quantity);
  }

  /** An updated item stays shown, with the new name, and each getter returns the request
      exactly when the difference is not -2^31. */
  lemma UpdatedItemShown(origin: string, l: List, itemUid: string, name: string, desired: int, current: int,
      tag: string)
    requires WellFormed(l.items) && ORSets.Contains(l.items, itemUid)
    requires 0 <= desired < TWO32 && 0 <= current < TWO32
    ensures var item, l' := l.items.elements[itemUid], UpdateResult(origin, l, itemUid, name, desired, current, tag);
      && l'.uid == l.uid && l'.name == l.name
      && WellFormed(l'.items) && OthersUnchanged(l.items, l'.items, itemUid)
      && ORSets.Contains(l'.items, itemUid)
      && l'.items.elements[itemUid].name == name
      && (ToU32(ValueOf(l'.items.elements[itemUid].desired)) == desired <==> Diff(item.desired, desired) != -TWO31)
      && (ToU32(ValueOf(l'.items.elements[itemUid].current)) == current <==> Diff(item.current, current) != -TWO31)
  {
    var item := l.items.elements[itemUid];
    assert ToU32(desired) == desired && ToU32(current) == current;
    SetThenGet(item.desired, origin, desired);
    SetThenGet(item.current, origin, current);
    UpdateIsAdd(origin, l, itemUid, name, desired, current, tag);
    AddedAgainShown(l.items, EditedItem(origin, item, name, desired, current), tag);
  }

  lemma AddedAgainShown(s: Items, item: Item, tag: string)
    requires WellFormed(s) && ORSets.Contains(s, item.uid)
    ensures var s' := Added(s, item, tag);
      WellFormed(s') && OthersUnchanged(s, s', item.uid) && ORSets.Contains(s', item.uid)
  {
    OperationsKeepWellFormed(s, item, tag, item.uid);
    AddedContains(s, item, tag);
  }

  lemma AddedContains(s: Items, item: Item, tag: string)
    requires WellFormed(s)
    ensures var s' := Added(s, item, tag);
      && OthersUnchanged(s, s', item.uid)
      && (ORSets.Contains(s', item.uid) <==> ORSets.Contains(s, item.uid) || tag !in Tags(s.removes, item.uid))
  {
    var s' := Added(s, item, tag);
    assert s'.elements - {item.uid} == s.elements - {item.uid};
  }

  /** In a well-formed list storing through the reference and adding again are one overwrite. */
  lemma UpdateIsAdd(origin: string, l: List, key: string, name: string, desired: int, current: int, tag: string)
    requires WellFormed(l.items) && key in l.items.elements
    ensures UpdateResult(origin, l, key, name, desired, current, tag)
         == l.(items := Added(l.items, EditedItem(origin, l.items.elements[key], name, desired, current), tag))
  {
    var item := EditedItem(origin, l.items.elements[key], name, desired, current);
    assert l.items.elements[key := item][key := item] == l.items.elements[key := item];
  }

  /** A removed item is gone. */
  lemma RemovedItemGone(l: List, itemUid: string)
    requires WellFormed(l.items) && ORSets.Contains(l.items, itemUid)
    ensures var l' := RemoveResult(l, itemUid);
      && l'.uid == l.uid && l'.name == l.name
      && WellFormed(l'.items) && OthersUnchanged(l.items, l'.items, itemUid)
      && l'.items.elements == l.items.elements
      && !ORSets.Contains(l'.items, itemUid)
  {
    OperationsKeepWellFormed(l.items, l.items.elements[itemUid], "", itemUid);
  }
}
