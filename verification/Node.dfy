/** A storage node: its database of lists and its table of known nodes. */
module Nodes {
  import ShoppingLists
  import opened ORSets
  import opened Util
  import opened Messages
  import opened Lattice
  import opened Database
  import opened Membership

  datatype Reply = WrongShard | Answer(m: Message)

  function AppliedMessage(db: Db, m: Message): Db
    requires m.op in {ENSURE_LIST, DELETE_LIST} ==> |m.lists| > 0
  {
    match m.op
    case ENSURE_LIST => Ensured(db, m.lists[0])
    case DELETE_LIST => db - {m.lists[0].uid}
    case GOSSIP_LISTS => Applied(db, m.lists)
    case _ => db
  }

  /** The lists of a message that are merged into the database. */
  function MergedLists(m: Message): seq<ShoppingLists.List>
    requires m.op == ENSURE_LIST ==> |m.lists| > 0
  {
    match m.op
    case ENSURE_LIST => [m.lists[0]]
    case GOSSIP_LISTS => m.lists
    case _ => []
  }

  /** The answer to a client request other than GET_NODES; only the first list decides the shard. */
  function ReplyTo(cfg: Config, db: Db, m: Message, now: nat): Reply
    requires cfg.numShards > 0 && |m.lists| > 0
  {
    var uid := m.lists[0].uid;
    if ShardOf(uid, cfg.numShards) != cfg.shardId then WrongShard
    else if m.op == GET_LIST then Answer(ListResponse(uid in db, cfg.nodeId, now, ReadOr(db, uid)))
    else Answer(ListResponse(m.op != DELETE_LIST, cfg.nodeId, now, m.lists[0]))
  }

  /** The request is a write for the node's shard. */
  predicate Accepted(cfg: Config, m: Message)
    requires cfg.numShards > 0 && |m.lists| > 0
  {
    ShardOf(m.lists[0].uid, cfg.numShards) == cfg.shardId && m.op != GET_LIST
  }

  /** What a request leaves when the node gets to merge k of its lists. */
  function AfterRequest(cfg: Config, db: Db, m: Message, k: nat): Db
    requires cfg.numShards > 0 && |m.lists| > 0 && k <= |MergedLists(m)|
  {
    if !Accepted(cfg, m) then db
    else if m.op == DELETE_LIST then db - {m.lists[0].uid}
    else Applied(db, MergedLists(m)[..k])
  }

  /** With all of them it is what the request asks for. */
  lemma AllMerged(cfg: Config, db: Db, m: Message)
    requires cfg.numShards > 0 && |m.lists| > 0
    ensures AfterRequest(cfg, db, m, |MergedLists(m)|) == ClientApplied(cfg, db, m)
  {
    var lists := MergedLists(m);
    assert lists[..|lists|] == lists;
    if m.op == ENSURE_LIST {
      assert lists[..0] == [];
      assert Applied(db, lists) == Ensured(Applied(db, []), lists[0]);
    }
  }

  function ClientApplied(cfg: Config, db: Db, m: Message): Db
    requires cfg.numShards > 0 && |m.lists| > 0
  {
    if Accepted(cfg, m) then AppliedMessage(db, m) else db
  }

  /** The databases agree on every list but one. */
  ghost predicate ChangedOnlyAt(db: Db, db': Db, uid: string) {
    db' - {uid} == db - {uid}
  }

  /** An ENSURE_LIST for the node's shard stores the join of the list into the copy the node had,
      keeps the name of that copy, and touches no other list; if the merge throws, not even that one. */
  lemma EnsureTakesEffect(cfg: Config, db: Db, m: Message)
    requires Keyed(db) && cfg.numShards > 0 && |m.lists| > 0 && m.op == ENSURE_LIST
    requires ShardOf(m.lists[0].uid, cfg.numShards) == cfg.shardId
    ensures var u, db' := m.lists[0].uid, ClientApplied(cfg, db, m);
      && u in db' && ChangedOnlyAt(db, db', u)
      && CoreAt(db', u) == JoinCore(CoreAt(db, u), CoreOf(m.lists[0].items))
      && db'[u].uid == u && db'[u].name == if u in db then db[u].name else ""
    ensures MergedLists(m) == [m.lists[0]]
    ensures AfterRequest(cfg, db, m, 1) == ClientApplied(cfg, db, m) && AfterRequest(cfg, db, m, 0) == db
  {
    var u := m.lists[0].uid;
    EnsuredAt(db, m.lists[0], u);
    AllMerged(cfg, db, m);
    assert [m.lists[0]][..0] == [];
  }

  /** A DELETE_LIST for the node's shard removes the list and touches no other. */
  lemma DeleteTakesEffect(cfg: Config, db: Db, m: Message)
    requires cfg.numShards > 0 && |m.lists| > 0 && m.op == DELETE_LIST
    requires ShardOf(m.lists[0].uid, cfg.numShards) == cfg.shardId
    ensures var u, db' := m.lists[0].uid, ClientApplied(cfg, db, m);
      u !in db' && ChangedOnlyAt(db, db', u)
    ensures MergedLists(m) == [] && AfterRequest(cfg, db, m, 0) == ClientApplied(cfg, db, m)
  {
  }

  /** A gossip of lists whose first is of the node's shard stores the join of each. */
  lemma GossipTakesEffect(cfg: Config, db: Db, m: Message, uid: string)
    requires Keyed(db) && cfg.numShards > 0 && |m.lists| > 0 && m.op == GOSSIP_LISTS
    requires ShardOf(m.lists[0].uid, cfg.numShards) == cfg.shardId
    ensures CoreAt(ClientApplied(cfg, db, m), uid) == JoinCore(CoreAt(db, uid), JoinedLists(m.lists, uid))
    ensures uid in ClientApplied(cfg, db, m) <==> uid in db || exists l :: l in m.lists && l.uid == uid
    ensures MergedLists(m) == m.lists && AfterRequest(cfg, db, m, |m.lists|) == ClientApplied(cfg, db, m)
  {
    ApplyIsPointwiseJoin(db, m.lists, uid);
    AllMerged(cfg, db, m);
  }

  /** Reads and requests for another shard change nothing. */
  lemma OthersTakeNoEffect(cfg: Config, db: Db, m: Message, k: nat)
    requires cfg.numShards > 0 && |m.lists| > 0 && k <= |MergedLists(m)|
    requires m.op == GET_LIST || ShardOf(m.lists[0].uid, cfg.numShards) != cfg.shardId
    ensures ClientApplied(cfg, db, m) == AfterRequest(cfg, db, m, k) == db
  {
  }

  ghost predicate ListsAll(nodes: seq<NodeInfo>, t: Table) {
    && (forall p | p in t.known :: t.known[p] in nodes)
    && (forall n | n in nodes :: exists p :: p in t.known && t.known[p] == n)
  }

  class Node {
    const cfg: Config
    var db: Db
    var knownNodes: map<string, NodeInfo>
    var connectedDiscovery: set<string>
    var connectedShard: set<string>
    var discoveryLinks: set<Endpoint>
    var shardLinks: set<Endpoint>

    function Table(): Membership.Table
      reads this
    {
      Membership.Table(knownNodes, connectedDiscovery, connectedShard, discoveryLinks, shardLinks)
    }

    constructor (cfg: Config, db: Db, now: nat)
      ensures this.cfg == cfg && this.db == db
      ensures Table() == Alone(cfg, now)
      ensures knownNodes.Keys == {cfg.nodeId} && knownNodes[cfg.nodeId].lastSeenTs == now
    {
      this.cfg, this.db := cfg, db;
      knownNodes := map[cfg.nodeId := SelfInfo(cfg, now)];
      connectedDiscovery, connectedShard, discoveryLinks, shardLinks := {}, {}, {}, {};
    }

    method ShardForList(listId: string) returns (shard: nat)
      requires cfg.numShards > 0
      ensures shard == ShardOf(listId, cfg.numShards) && shard < cfg.numShards
    {
      var hash := GetHash(listId);
      shard := hash % cfg.numShards;
    }

    /** Enters the initial peers and stamps the whole table, each entry with its own reading of the clock. */
    method BeginLoop(initialPeers: seq<NodeInfo>, readings: map<string, nat>)
      requires Updated(cfg, Table(), initialPeers).known.Keys <= readings.Keys
      modifies this
      ensures db == old(db)
      ensures Table() == Stamped(Updated(cfg, old(Table()), initialPeers), readings)
      ensures knownNodes.Keys
        == old(knownNodes).Keys + (set n | n in initialPeers && n.nodeId != cfg.nodeId :: n.nodeId)
      ensures forall p | p in knownNodes :: p in readings && knownNodes[p].lastSeenTs == readings[p]
    {
      UpdatedKeys(cfg, Table(), initialPeers);
      UpdateKnownNodes(initialPeers);
      StampAll(readings);
    }

    method StampAll(readings: map<string, nat>)
      requires knownNodes.Keys <= readings.Keys
      modifies `knownNodes
      ensures Table() == Stamped(old(Table()), readings)
      ensures knownNodes.Keys == old(knownNodes).Keys
      ensures forall p | p in knownNodes :: knownNodes[p].lastSeenTs == readings[p]
    {
      var t := Table();
      var rest := knownNodes.Keys;
      while rest != {}
        modifies `knownNodes
        invariant knownNodes.Keys == t.known.Keys && rest <= t.known.Keys
        invariant forall p | p in t.known ::
          knownNodes[p] == if p in rest then t.known[p] else t.known[p].(lastSeenTs := readings[p])
        decreases rest
      {
        var p :| p in rest;
        knownNodes := knownNodes[p := knownNodes[p].(lastSeenTs := readings[p])];
        rest := rest - {p};
      }
      assert knownNodes == Stamped(t, readings).known;
    }

    method UpdateKnownNodes(nodes: seq<NodeInfo>)
      modifies this
      ensures db == old(db) && Table() == Updated(cfg, old(Table()), nodes)
    {
      for i := 0 to |nodes|
        invariant db == old(db) && Table() == Updated(cfg, old(Table()), nodes[..i])
      {
        assert nodes[..i + 1][..i] == nodes[..i];
        UpdateKnownNode(nodes[i]);
      }
      assert nodes[..|nodes|] == nodes;
    }

    /** One iteration of that loop. */
    method UpdateKnownNode(n: NodeInfo)
      modifies this
      ensures db == old(db) && Table() == UpdatedOne(cfg, old(Table()), n)
      ensures n.nodeId != cfg.nodeId && n.nodeId !in old(knownNodes) ==>
        && n.nodeId in knownNodes && knownNodes[n.nodeId] == n
        && (n.nodeId !in old(connectedDiscovery) ==>
              discoveryLinks == old(discoveryLinks) + {Endpoint(n.host, n.discoveryPullPort)})
        && (n.shardId == cfg.shardId && n.nodeId !in old(connectedShard) ==>
              shardLinks == old(shardLinks) + {Endpoint(n.host, n.gossipPullPort)})
    {
      if n.nodeId == cfg.nodeId {
        return;
      }
      var isNew := n.nodeId !in knownNodes;
      if !isNew && knownNodes[n.nodeId].lastSeenTs > n.lastSeenTs {
        return;
      }
      if isNew {
        knownNodes := knownNodes[n.nodeId := n];
        if n.nodeId !in connectedDiscovery {
          connectedDiscovery := connectedDiscovery + {n.nodeId};
          discoveryLinks := discoveryLinks + {DiscoveryEp(n)};
        }
        if n.shardId == cfg.shardId && n.nodeId !in connectedShard {
          connectedShard := connectedShard + {n.nodeId};
          shardLinks := shardLinks + {GossipEp(n)};
        }
      } else {
        knownNodes := knownNodes[n.nodeId := n];
      }
      assert Table().discovery == UpdatedOne(cfg, old(Table()), n).discovery;
      assert Table().shard == UpdatedOne(cfg, old(Table()), n).shard;
      knownNodes := knownNodes[n.nodeId := knownNodes[n.nodeId].(lastSeenTs := n.lastSeenTs)];
    }

    /** Visits the table in any order. A disconnect of an endpoint that is not connected is an
        error of the socket: it returns false there. */
    method EvictDeadNodes(now: nat) returns (ok: bool)
      modifies this
      ensures db == old(db)
      ensures ok == Disconnectable(cfg, old(Table()), DeadPeers(cfg, old(Table()), now))
      ensures ok ==> Table() == Evicted(cfg, old(Table()), now)
      ensures !ok ==> StoppedAt(cfg, old(Table()), now, Table())
    {
      ghost var t := Table();
      ghost var gone := {};
      var rest := knownNodes.Keys;
      WithoutNone(cfg, t);
      while rest != {}
        modifies this
        invariant db == old(db) && rest <= knownNodes.Keys
        invariant gone == DeadPeers(cfg, t, now) - rest
        invariant Table() == Without(cfg, t, gone)
        invariant Disconnectable(cfg, t, gone)
        decreases rest
      {
        var p :| p in rest;
        rest := rest - {p};
        if p == cfg.nodeId || Age(now, knownNodes[p].lastSeenTs) <= cfg.discoveryTimeoutMs {
          assert p !in DeadPeers(cfg, t, now);
          continue;
        }
        assert p in DeadPeers(cfg, t, now);
        CanEraseIff(cfg, t, gone, p);
        ok := Erase(p);
        if !ok { return; }
        WithoutOneMore(cfg, t, gone, p);
        gone := gone + {p};
      }
      assert gone == DeadPeers(cfg, t, now);
      return true;
    }

    /** Erases a peer with its connections; false where a disconnect fails. */
    method Erase(p: string) returns (ok: bool)
      requires p in knownNodes
      modifies this
      ensures db == old(db) && ok == CanErase(cfg, old(Table()), p)
      ensures Table() == if ok then Erased(cfg, old(Table()), p) else HalfErased(cfg, old(Table()), p)
    {
      var info := knownNodes[p];
      if p in connectedDiscovery {
        connectedDiscovery := connectedDiscovery - {p};
        if DiscoveryEp(info) !in discoveryLinks { return false; }
        discoveryLinks := discoveryLinks - {DiscoveryEp(info)};
      }
      if info.shardId == cfg.shardId && p in connectedShard {
        connectedShard := connectedShard - {p};
        if GossipEp(info) !in shardLinks { return false; }
        shardLinks := shardLinks - {GossipEp(info)};
      }
      knownNodes := knownNodes - {p};
      return true;
    }

    method PerformDiscoveryGossip(now: nat) returns (m: Message)
      requires cfg.nodeId in knownNodes
      modifies `knownNodes
      ensures Table() == SelfStamped(cfg, old(Table()), now)
      ensures m == GossipNodes(cfg.nodeId, now, m.nodes) && m.op == GOSSIP_NODES && ListsAll(m.nodes, Table())
      ensures cfg.nodeId in knownNodes && knownNodes[cfg.nodeId].lastSeenTs == now && knownNodes[cfg.nodeId] in m.nodes
      ensures knownNodes - {cfg.nodeId} == old(knownNodes) - {cfg.nodeId}
    {
      knownNodes := knownNodes[cfg.nodeId := knownNodes[cfg.nodeId].(lastSeenTs := now)];
      var nodes := AllNodes();
      m := GossipNodes(cfg.nodeId, now, nodes);
    }

    /** The discovery branch of the run loop: evict, then gossip what is left. A failing disconnect ends the loop. */
    method DiscoveryRound(now: nat, later: nat) returns (ok: bool, m: Message)
      requires cfg.nodeId in knownNodes
      modifies this
      ensures db == old(db)
      ensures ok == Disconnectable(cfg, old(Table()), DeadPeers(cfg, old(Table()), now))
      ensures ok ==> Table() == AfterRound(cfg, old(Table()), now, later)
      ensures ok ==> m == GossipNodes(cfg.nodeId, later, m.nodes) && m.op == GOSSIP_NODES && ListsAll(m.nodes, Table())
      ensures ok ==>
        cfg.nodeId in knownNodes && knownNodes[cfg.nodeId].lastSeenTs == later && knownNodes[cfg.nodeId] in m.nodes
      ensures !ok ==> StoppedAt(cfg, old(Table()), now, Table())
    {
      ok := EvictDeadNodes(now);
      m := GossipNodes(cfg.nodeId, later, []);
      if ok {
        m := PerformDiscoveryGossip(later);
      }
    }

    method AllNodes() returns (nodes: seq<NodeInfo>)
      ensures ListsAll(nodes, Table())
    {
      nodes := [];
      var rest := knownNodes.Keys;
      while rest != {}
        invariant rest <= knownNodes.Keys
        invariant forall p | p in knownNodes && p !in rest :: knownNodes[p] in nodes
        invariant forall n | n in nodes :: exists p :: p in knownNodes && knownNodes[p] == n
        decreases rest
      {
        var p :| p in rest;
        nodes := nodes + [knownNodes[p]];
        rest := rest - {p};
      }
    }

    method HandleDiscoveryFrame(m: Message)
      modifies this
      ensures db == old(db)
      ensures Table() == if m.op == GOSSIP_NODES then Updated(cfg, old(Table()), m.nodes) else old(Table())
    {
      if m.op == GOSSIP_NODES {
        UpdateKnownNodes(m.nodes);
      }
    }

    method PerformShardGossip(now: nat) returns (m: Message)
      ensures m == GossipLists(cfg.nodeId, now, m.lists) && Snapshot(m.lists, db)
    {
      var lists := ReadAll(db);
      m := GossipLists(cfg.nodeId, now, lists);
    }

    /** Returns false where a merge throws; the lists before it are then already written. */
    method ApplyMessage(m: Message) returns (ok: bool)
      requires m.op in {ENSURE_LIST, DELETE_LIST} ==> |m.lists| > 0
      modifies `db
      ensures ok == AllMerge(old(db), MergedLists(m))
      ensures ok ==> db == AppliedMessage(old(db), m)
      ensures !ok ==> AppliedPartly(old(db), MergedLists(m), db)
      ensures m.op == ENSURE_LIST ==>
        && ok == Mergeable(ReadOr(old(db), m.lists[0].uid).items, m.lists[0].items)
        && (ok && Keyed(old(db)) ==> m.lists[0].uid in db && ChangedOnlyAt(old(db), db, m.lists[0].uid))
      ensures m.op == DELETE_LIST ==> ok && db == old(db) - {m.lists[0].uid}
    {
      match m.op {
        case ENSURE_LIST =>
          ok := Ensure(m.lists[0]);
          assert Keyed(old(db)) ==> ReadOr(old(db), m.lists[0].uid).uid == m.lists[0].uid;
          assert [m.lists[0]][..0] == [];
          assert ok == !ThrowsAt(old(db), MergedLists(m), 0);
          assert !ok ==> Stops(old(db), MergedLists(m), 0);
        case DELETE_LIST =>
          db := db - {m.lists[0].uid};
          ok := true;
        case GOSSIP_LISTS =>
          ok := ApplyLists(m.lists);
        case _ =>
          ok := true;
      }
    }

    method ApplyLists(lists: seq<ShoppingLists.List>) returns (ok: bool)
      modifies `db
      ensures ok == AllMerge(old(db), lists)
      ensures ok ==> db == Applied(old(db), lists)
      ensures !ok ==> AppliedPartly(old(db), lists, db)
    {
      for k := 0 to |lists|
        invariant db == Applied(old(db), lists[..k])
        invariant forall i | 0 <= i < k :: !ThrowsAt(old(db), lists, i)
      {
        ok := Ensure(lists[k]);
        if !ok {
          assert Stops(old(db), lists, k);
          return;
        }
        assert lists[..k + 1][..k] == lists[..k];
      }
      assert lists[..|lists|] == lists;
      return true;
    }

    /** Read, merge, write; an exception of the merge writes nothing. */
    method Ensure(incoming: ShoppingLists.List) returns (ok: bool)
      modifies `db
      ensures ok == Mergeable(ReadOr(old(db), incoming.uid).items, incoming.items)
      ensures db == if ok then Ensured(old(db), incoming) else old(db)
    {
      var existing := new ShoppingLists.ShoppingList(ReadOr(db, incoming.uid));
      ok := existing.Merge(incoming);
      if ok { db := Written(db, existing.Abs()); }
    }

    method HandleGossipFrame(m: Message) returns (ok: bool)
      modifies `db
      ensures ok == (m.op == GOSSIP_LISTS ==> AllMerge(old(db), m.lists))
      ensures ok ==> db == if m.op == GOSSIP_LISTS then Applied(old(db), m.lists) else old(db)
      ensures !ok ==> AppliedPartly(old(db), m.lists, db)
    {
      ok := true;
      if m.op == GOSSIP_LISTS {
        ok := ApplyMessage(m);
      }
    }

    /** Three snapshots after every accepted change. */
    method EagerFanout(now: nat) returns (sent: seq<Message>)
      ensures |sent| == 3
      ensures forall m | m in sent :: m == GossipLists(cfg.nodeId, now, m.lists) && Snapshot(m.lists, db)
    {
      sent := [];
      for i := 0 to 3
        invariant |sent| == i
        invariant forall m | m in sent :: m == GossipLists(cfg.nodeId, now, m.lists) && Snapshot(m.lists, db)
      {
        var m := PerformShardGossip(now);
        sent := sent + [m];
      }
    }

    /** Answers one client request; None where a merge throws. */
    method HandleClientFrame(m: Message, now: nat) returns (reply: Option<Reply>, sent: seq<Message>)
      requires cfg.numShards > 0 && (m.op != GET_NODES ==> |m.lists| > 0)
      modifies `db
      ensures m.op == GET_NODES ==>
        && db == old(db) && sent == []
        && reply.Some? && reply.value.Answer? && reply.value.m.op == NODES_RESPONSE
        && ListsAll(reply.value.m.nodes, Table())
      ensures m.op != GET_NODES && reply.Some? ==>
        reply.value == ReplyTo(cfg, old(db), m, now) && db == ClientApplied(cfg, old(db), m)
      ensures reply.None? <==> m.op != GET_NODES && Accepted(cfg, m) && !AllMerge(old(db), MergedLists(m))
      ensures reply.None? ==> AppliedPartly(old(db), MergedLists(m), db)
      ensures |sent| ==
        if reply.Some? && m.op != GET_NODES && m.op != GET_LIST && reply.value != WrongShard then 3 else 0
      ensures forall g | g in sent ::
        g == GossipLists(cfg.nodeId, now, g.lists) && g.op == GOSSIP_LISTS && Snapshot(g.lists, db)
      ensures m.op != GET_NODES && ShardOf(m.lists[0].uid, cfg.numShards) != cfg.shardId ==>
        reply == Some(WrongShard) && db == old(db) && sent == []
      ensures m.op != GET_NODES && ShardOf(m.lists[0].uid, cfg.numShards) == cfg.shardId && reply.Some? ==>
        && reply.value.Answer?
        && (m.op == ENSURE_LIST ==> reply.value.m.op == LIST_RESPONSE && reply.value.m.lists == [m.lists[0]])
        && (m.op == ENSURE_LIST && Keyed(old(db)) ==> m.lists[0].uid in db)
        && (m.op == DELETE_LIST ==> m.lists[0].uid !in db && reply.value.m.op == NO_LIST_RESPONSE)
        && (m.op == GET_LIST && m.lists[0].uid in db ==>
              reply.value.m.op == LIST_RESPONSE && reply.value.m.lists == [db[m.lists[0].uid]])
        && (m.op == GET_LIST && m.lists[0].uid !in db ==> reply.value.m.op == NO_LIST_RESPONSE)
    {
      sent := [];
      if m.op == GET_NODES {
        var nodes := AllNodes();
        reply := Some(Answer(NodesResponse(cfg.nodeId, now, nodes)));
        return;
      }
      var shard := ShardForList(m.lists[0].uid);
      if shard != cfg.shardId {
        return Some(WrongShard), [];
      }
      if m.op == GET_LIST {
        var uid := m.lists[0].uid;
        return Some(Answer(ListResponse(uid in db, cfg.nodeId, now, ReadOr(db, uid)))), [];
      }
      var ok := ApplyMessage(m);
      if !ok {
        return None, [];
      }
      sent := EagerFanout(now);
      reply := Some(Answer(ListResponse(m.op != DELETE_LIST, cfg.nodeId, now, m.lists[0])));
    }
  }
}
