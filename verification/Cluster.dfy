/** All nodes of a deployment with a shared clock, as a transition system over their tables,
    connections and databases and the messages in flight between them. */
module Clusters {
  import ShoppingItems
  import opened Util
  import opened ORSets
  import opened ShoppingLists
  import opened Messages
  import opened Database
  import opened Membership
  import opened Nodes
  import Api

  /** Fixed configurations, by node id. */
  type Configs = map<string, Config>

  function DirectoryOf(w: Configs): Directory { map id | id in w :: SelfInfo(w[id], 0) }

  /** Nodes agree on the number of shards and bind different endpoints. */
  ghost predicate WellConfigured(w: Configs, numShards: nat) {
    && numShards > 0
    && DistinctEndpoints(DirectoryOf(w))
    && forall id | id in w :: w[id].nodeId == id && w[id].numShards == numShards
  }

  /** A message in flight to whichever node is bound to the destination. */
  datatype Packet =
    | Discovery(dest: Endpoint, nodes: seq<NodeInfo>)
    | Lists(dest: Endpoint, from: string, lists: seq<List>)

  /** `history` and `lastEvict` only record, per running node, what it was told and when it last evicted. */
  datatype State = State(
    clock: nat,
    running: map<string, Table>,
    dbs: map<string, Db>,
    net: set<Packet>,
    history: map<string, History>,
    lastEvict: map<string, nat>)

  datatype Label =
    | Tick(dt: nat)
    | Boot(id: string, peers: seq<NodeInfo>, readings: map<string, nat>, dt: nat)
    | Stop(id: string)
    | Discover(id: string, dt: nat, after: Table, nodes: seq<NodeInfo>, dest: Option<Endpoint>)
    | Learn(id: string, packet: Packet)
    | Request(id: string, m: Message, merged: nat)
    | Gossip(id: string, lists: seq<List>, link: Endpoint)
    | Store(id: string, packet: Packet, merged: nat)
    | Lose(packet: Packet)

  function DbOf(s: State, id: string): Db { if id in s.dbs then s.dbs[id] else map[] }

  /** The clock was read within the given time. */
  ghost predicate Between(readings: map<string, nat>, from: nat, to: nat) {
    forall p | p in readings :: from <= readings[p] <= to
  }

  ghost predicate Enabled(w: Configs, s: State, a: Label) {
    match a
    case Tick(dt) => s.clock + dt < TWO64
    case Boot(id, peers, readings, dt) =>
      && id in w && id !in s.running && s.clock + dt < TWO64
      && TruthfulAll(DirectoryOf(w), peers) && (forall n | n in peers :: n.lastSeenTs <= s.clock)
      && Updated(w[id], Alone(w[id], s.clock), peers).known.Keys <= readings.Keys
      && Between(readings, s.clock, s.clock + dt)
    case Stop(id) => id in s.running
    case Discover(id, dt, after, nodes, dest) =>
      && id in w && w[id].nodeId == id && id in s.running && id in s.running[id].known && s.clock + dt < TWO64
      && after == AfterRound(w[id], s.running[id], s.clock, s.clock + dt)
      && ListsAll(nodes, after)
      && (dest.Some? ==> dest.value in after.discoveryLinks)
    case Learn(id, p) =>
      && id in w && id in s.running && p in s.net && p.Discovery?
      && p.dest == Endpoint(w[id].host, w[id].discoveryPullPort)
    case Request(id, m, k) =>
      && id in w && id in s.running && w[id].numShards > 0 && m.op != GET_NODES && |m.lists| > 0
      && k <= |MergedLists(m)| && (Accepted(w[id], m) ==> Stops(DbOf(s, id), MergedLists(m), k))
    case Gossip(id, lists, link) => id in s.running && Snapshot(lists, DbOf(s, id)) && link in s.running[id].shardLinks
    case Store(id, p, k) =>
      && id in w && id in s.running && p in s.net && p.Lists? && p.dest == Endpoint(w[id].host, w[id].gossipPullPort)
      && Stops(DbOf(s, id), p.lists, k)
    case Lose(_) => true
  }

  /** A merge throws, which ends the node. */
  predicate Fails(w: Configs, a: Label) {
    match a
    case Request(id, m, k) =>
      id in w && w[id].numShards > 0 && |m.lists| > 0 && Accepted(w[id], m) && k < |MergedLists(m)|
    case Store(_, p, k) => p.Lists? && k < |p.lists|
    case _ => false
  }

  function Noted(s: State, id: string): History { if id in s.history then s.history[id] else {} }

  ghost function Next(w: Configs, s: State, a: Label): State
    requires Enabled(w, s, a)
  {
    match a
    case Tick(dt) => s.(clock := s.clock + dt)
    case Boot(id, peers, readings, dt) =>
      var t := Booted(w[id], peers, s.clock, readings);
      s.(clock := s.clock + dt,
         running := s.running[id := t],
         history := s.history[id := BootRecord(peers, readings)],
         lastEvict := s.lastEvict[id := 0])
    case Stop(id) => s.(running := s.running - {id})
    case Discover(id, dt, after, nodes, dest) =>
      s.(clock := s.clock + dt,
         running := s.running[id := after],
         net := if dest.Some? then s.net + {Discovery(dest.value, nodes)} else s.net,
         lastEvict := s.lastEvict[id := s.clock])
    case Learn(id, p) =>
      s.(running := s.running[id := Updated(w[id], s.running[id], p.nodes)],
         history := s.history[id := Recorded(Noted(s, id), p.nodes)])
    case Request(id, m, k) =>
      s.(dbs := s.dbs[id := AfterRequest(w[id], DbOf(s, id), m, k)],
         running := if Fails(w, a) then s.running - {id} else s.running)
    case Gossip(id, lists, link) => s.(net := s.net + {Lists(link, id, lists)})
    case Store(id, p, k) =>
      s.(dbs := s.dbs[id := Applied(DbOf(s, id), p.lists[..k])],
         running := if Fails(w, a) then s.running - {id} else s.running)
    case Lose(p) => s.(net := s.net - {p})
  }

  /** No node runs, nothing is in flight; databases may hold lists of their own shard. */
  ghost predicate Initial(w: Configs, numShards: nat, s: State)
    requires numShards > 0
  {
    s.running == map[] && s.net == {} && s.clock < TWO64 && ConfinedDbs(w, numShards, s)
  }

  ghost function Run(w: Configs, init: State, labels: seq<Label>): Option<State> {
    if labels == [] then Some(init)
    else
      var before, a := Run(w, init, labels[..|labels| - 1]), labels[|labels| - 1];
      if before.Some? && Enabled(w, before.value, a) then Some(Next(w, before.value, a)) else None
  }

  /* ---- membership invariant ---- */

  ghost predicate GoodMember(w: Configs, clock: nat, id: string, t: Table, h: History, evicted: nat) {
    && id in w
    && Mirrors(DirectoryOf(w), w[id], t)
    && NotAhead(t, clock)
    && Tracks(w[id], t, h, evicted)
    && evicted <= clock
  }

  ghost predicate GoodPacket(w: Configs, clock: nat, p: Packet) {
    p.Discovery? ==> TruthfulAll(DirectoryOf(w), p.nodes) && forall n | n in p.nodes :: n.lastSeenTs <= clock
  }

  ghost predicate MemberAt(w: Configs, s: State, id: string) {
    id in s.running ==>
      id in s.history && id in s.lastEvict && GoodMember(w, s.clock, id, s.running[id], s.history[id], s.lastEvict[id])
  }

  ghost predicate MemberInv(w: Configs, s: State) {
    && s.clock < TWO64
    && (forall id :: MemberAt(w, s, id))
    && (forall p | p in s.net :: GoodPacket(w, s.clock, p))
  }

  lemma LaterStillGood(w: Configs, clock: nat, clock': nat, id: string, t: Table, h: History, evicted: nat)
    requires GoodMember(w, clock, id, t, h, evicted) && clock <= clock' < TWO64
    ensures GoodMember(w, clock', id, t, h, evicted)
  {
  }

  lemma {:induction false} UpdateNotAhead(cfg: Config, t: Table, nodes: seq<NodeInfo>, clock: nat)
    requires NotAhead(t, clock) && forall n | n in nodes :: n.lastSeenTs <= clock
    ensures NotAhead(Updated(cfg, t, nodes), clock)
  {
    if nodes != [] { UpdateNotAhead(cfg, t, nodes[..|nodes| - 1], clock); }
  }

  lemma BootIsGood(w: Configs, numShards: nat, clock: nat, later: nat, id: string, peers: seq<NodeInfo>,
                   readings: map<string, nat>)
    requires WellConfigured(w, numShards) && id in w && clock <= later < TWO64
    requires TruthfulAll(DirectoryOf(w), peers) && forall n | n in peers :: n.lastSeenTs <= clock
    requires Updated(w[id], Alone(w[id], clock), peers).known.Keys <= readings.Keys && Between(readings, clock, later)
    ensures var t := Booted(w[id], peers, clock, readings);
      GoodMember(w, later, id, t, BootRecord(peers, readings), 0)
  {
    BootMirrors(DirectoryOf(w), w[id], peers, clock, readings);
    BootTracks(w[id], peers, clock, readings);
  }

  lemma LearnIsGood(w: Configs, clock: nat, id: string, t: Table, h: History, evicted: nat, nodes: seq<NodeInfo>)
    requires GoodMember(w, clock, id, t, h, evicted)
    requires TruthfulAll(DirectoryOf(w), nodes) && forall n | n in nodes :: n.lastSeenTs <= clock
    ensures GoodMember(w, clock, id, Updated(w[id], t, nodes), Recorded(h, nodes), evicted)
  {
    UpdateKeepsMirrors(DirectoryOf(w), w[id], t, nodes);
    UpdateNotAhead(w[id], t, nodes, clock);
    UpdateTracks(w[id], t, nodes, h, evicted);
  }

  /** A discovery round: afterwards the table is exactly the window of the history at the eviction. */
  lemma RoundIsGood(w: Configs, clock: nat, id: string, t: Table, h: History, evicted: nat, later: nat, t': Table)
    requires GoodMember(w, clock, id, t, h, evicted) && clock <= later < TWO64
    requires w[id].nodeId in t.known && t' == AfterRound(w[id], t, clock, later)
    ensures GoodMember(w, later, id, t', h, clock) && ExactWindow(w[id], t', h, clock)
  {
    var e := Evicted(w[id], t, clock);
    EvictKeepsMirrors(DirectoryOf(w), w[id], t, clock);
    SelfStampKeepsMirrors(DirectoryOf(w), w[id], e, later);
    EvictTracks(w[id], t, h, evicted, clock);
    assert Peers(w[id], t') == Peers(w[id], e);
    assert forall p | p in Peers(w[id], e) :: t'.known[p] == e.known[p];
  }

  lemma RoundPacketIsGood(w: Configs, clock: nat, id: string, t: Table, h: History, evicted: nat, nodes: seq<NodeInfo>)
    requires GoodMember(w, clock, id, t, h, evicted) && ListsAll(nodes, t)
    ensures TruthfulAll(DirectoryOf(w), nodes) && forall n | n in nodes :: n.lastSeenTs <= clock
  {
  }

  lemma PlacedIsGood(w: Configs, s: State, id: string, t: Table, h: History, evicted: nat)
    requires GoodMember(w, s.clock, id, t, h, evicted)
    requires id in s.running && s.running[id] == t
    requires id in s.history && s.history[id] == h && id in s.lastEvict && s.lastEvict[id] == evicted
    ensures MemberAt(w, s, id)
  {
  }

  lemma BootedIsGood(w: Configs, numShards: nat, s: State, a: Label)
    requires WellConfigured(w, numShards) && s.clock < TWO64 && a.Boot? && Enabled(w, s, a)
    ensures MemberAt(w, Next(w, s, a), a.id)
  {
    var t := Booted(w[a.id], a.peers, s.clock, a.readings);
    var h := BootRecord(a.peers, a.readings);
    BootIsGood(w, numShards, s.clock, s.clock + a.dt, a.id, a.peers, a.readings);
    PlacedIsGood(w, Next(w, s, a), a.id, t, h, 0);
  }

  lemma LearnedIsGood(w: Configs, s: State, a: Label)
    requires a.Learn? && MemberAt(w, s, a.id) && GoodPacket(w, s.clock, a.packet) && Enabled(w, s, a)
    ensures MemberAt(w, Next(w, s, a), a.id)
  {
    var t, h := s.running[a.id], s.history[a.id];
    LearnIsGood(w, s.clock, a.id, t, h, s.lastEvict[a.id], a.packet.nodes);
    PlacedIsGood(w, Next(w, s, a), a.id, Updated(w[a.id], t, a.packet.nodes), Recorded(h, a.packet.nodes),
                 s.lastEvict[a.id]);
  }

  lemma TouchedIsGood(w: Configs, numShards: nat, s: State, a: Label)
    requires WellConfigured(w, numShards) && MemberInv(w, s) && Enabled(w, s, a)
    requires a.Boot? || a.Learn? || a.Discover?
    ensures MemberAt(w, Next(w, s, a), a.id)
  {
    assert MemberAt(w, s, a.id);
    if a.Boot? {
      BootedIsGood(w, numShards, s, a);
    } else if a.Learn? {
      LearnedIsGood(w, s, a);
    } else {
      RoundTouchedIsGood(w, s, a);
    }
  }

  lemma RoundTouchedIsGood(w: Configs, s: State, a: Label)
    requires a.Discover? && Enabled(w, s, a) && MemberAt(w, s, a.id)
    ensures MemberAt(w, Next(w, s, a), a.id)
  {
    RoundAtNode(w, s, a);
    DiscoveredIsGood(w, s, a);
  }

  lemma RoundAtNode(w: Configs, s: State, a: Label)
    requires a.Discover? && Enabled(w, s, a) && MemberAt(w, s, a.id)
    ensures a.id in s.history && GoodMember(w, s.clock + a.dt, a.id, a.after, s.history[a.id], s.clock)
    ensures ExactWindow(w[a.id], a.after, s.history[a.id], s.clock)
  {
    RoundIsGood(w, s.clock, a.id, s.running[a.id], s.history[a.id], s.lastEvict[a.id], s.clock + a.dt, a.after);
  }

  lemma DiscoveredIsGood(w: Configs, s: State, a: Label)
    requires a.Discover? && Enabled(w, s, a) && a.id in s.history
    requires GoodMember(w, s.clock + a.dt, a.id, a.after, s.history[a.id], s.clock)
    ensures MemberAt(w, Next(w, s, a), a.id)
  {
    PlacedIsGood(w, Next(w, s, a), a.id, a.after, s.history[a.id], s.clock);
  }

  lemma SentIsGood(w: Configs, numShards: nat, s: State, a: Label)
    requires WellConfigured(w, numShards) && MemberInv(w, s) && Enabled(w, s, a) && a.Discover? && a.dest.Some?
    ensures GoodPacket(w, s.clock + a.dt, Discovery(a.dest.value, a.nodes))
  {
    TouchedIsGood(w, numShards, s, a);
    RoundPacketIsGood(w, s.clock + a.dt, a.id, a.after, s.history[a.id], s.clock, a.nodes);
  }

  lemma NodeStaysGood(w: Configs, numShards: nat, s: State, a: Label, id: string)
    requires WellConfigured(w, numShards) && MemberInv(w, s) && Enabled(w, s, a)
    ensures MemberAt(w, Next(w, s, a), id)
  {
    if (a.Boot? || a.Learn? || a.Discover?) && a.id == id {
      TouchedIsGood(w, numShards, s, a);
    } else {
      assert MemberAt(w, s, id);
      if id in Next(w, s, a).running {
        LaterStillGood(w, s.clock, Next(w, s, a).clock, id, s.running[id], s.history[id], s.lastEvict[id]);
      }
    }
  }

  lemma PacketStaysGood(w: Configs, numShards: nat, s: State, a: Label, p: Packet)
    requires WellConfigured(w, numShards) && MemberInv(w, s) && Enabled(w, s, a) && p in Next(w, s, a).net
    ensures GoodPacket(w, Next(w, s, a).clock, p)
  {
    if p in s.net {
      assert GoodPacket(w, s.clock, p);
    } else if a.Discover? {
      SentIsGood(w, numShards, s, a);
    }
  }

  lemma NextKeepsMemberInv(w: Configs, numShards: nat, s: State, a: Label)
    requires WellConfigured(w, numShards) && MemberInv(w, s) && Enabled(w, s, a)
    ensures MemberInv(w, Next(w, s, a))
  {
    var s' := Next(w, s, a);
    forall id ensures MemberAt(w, s', id) { NodeStaysGood(w, numShards, s, a, id); }
    forall p | p in s'.net ensures GoodPacket(w, s'.clock, p) { PacketStaysGood(w, numShards, s, a, p); }
  }

  lemma {:induction false} RunKeepsMemberInv(w: Configs, numShards: nat, init: State, labels: seq<Label>)
    requires WellConfigured(w, numShards) && MemberInv(w, init)
    ensures Run(w, init, labels).Some? ==> MemberInv(w, Run(w, init, labels).value)
  {
    if labels != [] {
      var past := labels[..|labels| - 1];
      RunKeepsMemberInv(w, numShards, init, past);
      if Run(w, init, labels).Some? {
        NextKeepsMemberInv(w, numShards, Run(w, init, past).value, labels[|labels| - 1]);
      }
    }
  }

  /** The endpoints at which the given nodes are configured to receive node gossip, and list gossip. */
  ghost function DiscoveryEndpoints(w: Configs, ids: set<string>): set<Endpoint> {
    set p | p in ids && p in w :: Endpoint(w[p].host, w[p].discoveryPullPort)
  }

  ghost function GossipEndpoints(w: Configs, ids: set<string>): set<Endpoint> {
    set p | p in ids && p in w :: Endpoint(w[p].host, w[p].gossipPullPort)
  }

  /** The entry carries the configured attributes of its node. */
  predicate Describes(n: NodeInfo, cfg: Config) {
    && n.nodeId == cfg.nodeId && n.host == cfg.host && n.shardId == cfg.shardId
    && n.clientPort == cfg.clientPort && n.gossipPullPort == cfg.gossipPullPort
    && n.discoveryPullPort == cfg.discoveryPullPort
  }

  /** Connected are exactly the other known nodes, and for lists those of the same shard, each at its
      configured host and port. */
  ghost predicate Connected(w: Configs, id: string, t: Table)
    requires id in w
  {
    && id in t.known
    && (forall p | p in t.known :: p in w && Describes(t.known[p], w[p]))
    && t.discovery == t.known.Keys - {id}
    && (forall p :: p in t.shard <==> p in t.known && p != id && p in w && w[p].shardId == w[id].shardId)
    && t.discoveryLinks == DiscoveryEndpoints(w, t.discovery)
    && t.shardLinks == GossipEndpoints(w, t.shard)
  }

  lemma MirrorsConnected(w: Configs, numShards: nat, id: string, t: Table)
    requires WellConfigured(w, numShards) && id in w && Mirrors(DirectoryOf(w), w[id], t)
    ensures Connected(w, id, t)
  {
    var dir := DirectoryOf(w);
    forall p | p in t.known ensures p in w && Describes(t.known[p], w[p]) {
      assert Truthful(dir, t.known[p]);
    }
    assert t.discoveryLinks == Endpoints(DiscoveryEp, dir, t.discovery) == DiscoveryEndpoints(w, t.discovery);
    assert t.shardLinks == Endpoints(GossipEp, dir, t.shard) == GossipEndpoints(w, t.shard);
  }

  /** In every reachable state each node's connection sets and links follow its table, and no
      timestamp anywhere is ahead of the clock. */
  lemma ConnectionsMirrorTable(w: Configs, numShards: nat, init: State, labels: seq<Label>, s: State, id: string)
    requires WellConfigured(w, numShards) && Initial(w, numShards, init)
    requires Run(w, init, labels) == Some(s) && id in s.running
    ensures id in w && Connected(w, id, s.running[id]) && Mirrors(DirectoryOf(w), w[id], s.running[id])
    ensures NotAhead(s.running[id], s.clock)
  {
    RunKeepsMemberInv(w, numShards, init, labels);
    assert MemberAt(w, s, id);
    MirrorsConnected(w, numShards, id, s.running[id]);
  }

  /** Right after the eviction of a discovery round in any reachable state, the node knows exactly
      the peers with a recent enough timestamp in its whole history, each at its greatest. */
  lemma TableIsWindowOfHistory(w: Configs, numShards: nat, init: State, labels: seq<Label>, s: State, a: Label)
    requires WellConfigured(w, numShards) && Initial(w, numShards, init)
    requires Run(w, init, labels) == Some(s) && a.Discover? && Enabled(w, s, a)
    ensures var s' := Next(w, s, a);
      a.id in s'.history && ExactWindow(w[a.id], s'.running[a.id], s'.history[a.id], s.clock)
  {
    RunKeepsMemberInv(w, numShards, init, labels);
    assert MemberAt(w, s, a.id);
    RoundAtNode(w, s, a);
  }

  /* ---- shard confinement ---- */

  ghost predicate ConfinedDbs(w: Configs, numShards: nat, s: State)
    requires numShards > 0
  {
    forall id | id in s.dbs :: id in w && ConfinedDb(w[id].shardId, numShards, s.dbs[id])
  }

  ghost predicate ConfinedDb(shard: nat, numShards: nat, db: Db)
    requires numShards > 0
  {
    Keyed(db) && forall u | u in db :: ShardOf(u, numShards) == shard
  }

  ghost predicate ConfinedLists(shard: nat, numShards: nat, lists: seq<List>)
    requires numShards > 0
  {
    forall l | l in lists :: ShardOf(l.uid, numShards) == shard
  }

  /** A list message in flight carries lists of its sender's shard to an endpoint of a node of that shard. */
  ghost predicate ConfinedPacket(w: Configs, numShards: nat, p: Packet)
    requires numShards > 0
  {
    p.Lists? ==>
      && p.from in w
      && ConfinedLists(w[p.from].shardId, numShards, p.lists)
      && exists q :: q in w && w[q].shardId == w[p.from].shardId && p.dest == Endpoint(w[q].host, w[q].gossipPullPort)
  }

  ghost predicate Confined(w: Configs, numShards: nat, s: State)
    requires numShards > 0
  {
    ConfinedDbs(w, numShards, s) && forall p | p in s.net :: ConfinedPacket(w, numShards, p)
  }

  /** Lists keep a database confined exactly when they are. */
  lemma AppliedConfinedIff(shard: nat, numShards: nat, db: Db, lists: seq<List>)
    requires numShards > 0 && ConfinedDb(shard, numShards, db)
    ensures ConfinedDb(shard, numShards, Applied(db, lists)) <==> ConfinedLists(shard, numShards, lists)
  {
    ApplyIsPointwiseJoin(db, lists, "");
    if ConfinedLists(shard, numShards, lists) {
      forall u | u in Applied(db, lists) ensures ShardOf(u, numShards) == shard {
        ApplyIsPointwiseJoin(db, lists, u);
      }
    } else {
      var l :| l in lists && ShardOf(l.uid, numShards) != shard;
      ApplyIsPointwiseJoin(db, lists, l.uid);
    }
  }

  /** Among the lists the node gets to merge, a gossip hides none of another shard behind a first
      list of the node's own. */
  ghost predicate Harmless(cfg: Config, m: Message, k: nat)
    requires cfg.numShards > 0 && |m.lists| > 0
  {
    m.op == GOSSIP_LISTS && ShardOf(m.lists[0].uid, cfg.numShards) == cfg.shardId && k <= |m.lists| ==>
      ConfinedLists(cfg.shardId, cfg.numShards, m.lists[..k])
  }

  /** Checking only the first list protects a database from exactly the harmless requests, whether
      all their lists are merged or one throws. */
  lemma RequestConfinedIff(cfg: Config, db: Db, m: Message, k: nat)
    requires cfg.numShards > 0 && |m.lists| > 0 && k <= |MergedLists(m)|
    requires ConfinedDb(cfg.shardId, cfg.numShards, db)
    ensures ConfinedDb(cfg.shardId, cfg.numShards, AfterRequest(cfg, db, m, k)) <==> Harmless(cfg, m, k)
  {
    if Accepted(cfg, m) && m.op != DELETE_LIST {
      AppliedConfinedIff(cfg.shardId, cfg.numShards, db, MergedLists(m)[..k]);
    }
  }

  /** A grouped request, as the client's own gossip is, never breaks confinement. */
  lemma GroupedConfined(cfg: Config, db: Db, m: Message, k: nat)
    requires cfg.numShards > 0 && Api.Grouped(m, cfg.numShards) && k <= |MergedLists(m)|
    requires ConfinedDb(cfg.shardId, cfg.numShards, db)
    ensures Harmless(cfg, m, k) && ConfinedDb(cfg.shardId, cfg.numShards, AfterRequest(cfg, db, m, k))
  {
    RequestConfinedIff(cfg, db, m, k);
  }

  /** With two shards, a node of shard 1 accepts a list of shard 0 behind one of its own. */
  lemma MixedRequestAccepted(cfg: Config, origin: string, now: nat)
    requires cfg.numShards == 2 && cfg.shardId == 1
    ensures var m := GossipLists(origin, now, [EmptyList("a", ""), EmptyList("b", "")]);
      && Stops(map[], m.lists, 2)
      && !Harmless(cfg, m, 2) && !ConfinedDb(1, 2, AfterRequest(cfg, map[], m, 2))
  {
    var m := GossipLists(origin, now, [EmptyList("a", ""), EmptyList("b", "")]);
    ShardsOfAB();
    assert m.lists[..2] == m.lists;
    assert m.lists[0].uid == "a" && m.lists[1] in m.lists && m.lists[1].uid == "b";
    RequestConfinedIff(cfg, map[], m, 2);
  }

  lemma ShardsOfAB()
    ensures ShardOf("a", 2) == 1 && ShardOf("b", 2) == 0
  {
    assert "a"[..0] == "" == "b"[..0];
    assert Hash("a") == 97 && Hash("b") == 98;
  }

  /** A list "a" with an item of the given uid stored under the key "k". */
  function ListWith(itemUid: string): List {
    List("a", "", ORSets.Items(map["k" := ShoppingItems.NewItem("c", itemUid, "", 0, 0)], map[], map[]))
  }

  /** The same mixed request is stopped short of the foreign list if the merge of the first one throws. */
  lemma ThrowProtects(cfg: Config, origin: string, now: nat)
    requires cfg.numShards == 2 && cfg.shardId == 1
    ensures var db, m := map["a" := ListWith("x")], GossipLists(origin, now, [ListWith("y"), EmptyList("b", "")]);
      && Stops(db, m.lists, 0)
      && !Harmless(cfg, m, 2) && Harmless(cfg, m, 0) && ConfinedDb(1, 2, AfterRequest(cfg, db, m, 0))
  {
    var db, m := map["a" := ListWith("x")], GossipLists(origin, now, [ListWith("y"), EmptyList("b", "")]);
    ShardsOfAB();
    assert m.lists[..2] == m.lists && m.lists[1] in m.lists && m.lists[1].uid == "b";
    assert m.lists[..0] == [];
    assert "x"[0] != "y"[0];
    assert "k" in ListWith("x").items.elements && ListWith("x").items.elements["k"].uid == "x";
    assert "k" in ListWith("y").items.elements && ListWith("y").items.elements["k"].uid == "y";
    assert !Mergeable(ListWith("x").items, ListWith("y").items);
    RequestConfinedIff(cfg, db, m, 0);
  }

  /** Gossip leaves only over links to same-shard peers. */
  lemma GossipConfined(w: Configs, numShards: nat, s: State, a: Label)
    requires WellConfigured(w, numShards) && MemberInv(w, s) && Confined(w, numShards, s) && a.Gossip?
    requires Enabled(w, s, a)
    ensures ConfinedPacket(w, numShards, Lists(a.link, a.id, a.lists))
  {
    assert MemberAt(w, s, a.id);
    var t := s.running[a.id];
    var q :| q in ShardPeers(w[a.id], t) && q in DirectoryOf(w) && a.link == GossipEp(DirectoryOf(w)[q]);
    assert Truthful(DirectoryOf(w), t.known[q]) && t.known[q].nodeId == q;
    forall l | l in a.lists ensures ShardOf(l.uid, numShards) == w[a.id].shardId {
      var u :| u in DbOf(s, a.id) && DbOf(s, a.id)[u] == l;
    }
  }

  /** An endpoint belongs to one node, so what arrives there came from its own shard. */
  lemma StoreConfined(w: Configs, numShards: nat, s: State, a: Label)
    requires WellConfigured(w, numShards) && Confined(w, numShards, s) && a.Store? && Enabled(w, s, a)
    ensures ConfinedDb(w[a.id].shardId, numShards, Applied(DbOf(s, a.id), a.packet.lists[..a.merged]))
  {
    assert ConfinedPacket(w, numShards, a.packet);
    var q :| q in w && w[q].shardId == w[a.packet.from].shardId
      && a.packet.dest == Endpoint(w[q].host, w[q].gossipPullPort);
    assert GossipEp(DirectoryOf(w)[q]) == GossipEp(DirectoryOf(w)[a.id]);
    assert q == a.id;
    AppliedConfinedIff(w[a.id].shardId, numShards, DbOf(s, a.id), a.packet.lists[..a.merged]);
  }

  lemma StepRequest(w: Configs, numShards: nat, s: State, a: Label)
    requires WellConfigured(w, numShards) && Confined(w, numShards, s) && a.Request? && Enabled(w, s, a)
    ensures Confined(w, numShards, Next(w, s, a)) <==> Harmless(w[a.id], a.m, a.merged)
  {
    RequestConfinedIff(w[a.id], DbOf(s, a.id), a.m, a.merged);
    assert Next(w, s, a).dbs[a.id] == AfterRequest(w[a.id], DbOf(s, a.id), a.m, a.merged);
  }

  lemma StepDbs(w: Configs, numShards: nat, s: State, a: Label)
    requires WellConfigured(w, numShards) && Confined(w, numShards, s) && !a.Request? && Enabled(w, s, a)
    ensures ConfinedDbs(w, numShards, Next(w, s, a))
  {
    if a.Store? { StoreConfined(w, numShards, s, a); }
  }

  lemma StepPackets(w: Configs, numShards: nat, s: State, a: Label)
    requires WellConfigured(w, numShards) && MemberInv(w, s) && Confined(w, numShards, s) && Enabled(w, s, a)
    ensures forall p | p in Next(w, s, a).net :: ConfinedPacket(w, numShards, p)
  {
    if a.Gossip? { GossipConfined(w, numShards, s, a); }
  }

  /** A step of a reachable confined state leaves it confined unless it is a harmful request, and then never. */
  lemma NextConfinedIff(w: Configs, numShards: nat, s: State, a: Label)
    requires WellConfigured(w, numShards) && MemberInv(w, s) && Confined(w, numShards, s) && Enabled(w, s, a)
    ensures Confined(w, numShards, Next(w, s, a)) <==> (a.Request? ==> Harmless(w[a.id], a.m, a.merged))
  {
    if a.Request? {
      StepRequest(w, numShards, s, a);
    } else {
      StepDbs(w, numShards, s, a);
      StepPackets(w, numShards, s, a);
    }
  }

  ghost predicate HarmlessAll(w: Configs, labels: seq<Label>) {
    forall a | a in labels :: HarmlessLabel(w, a)
  }

  ghost predicate HarmlessLabel(w: Configs, a: Label) {
    a.Request? && a.id in w && w[a.id].numShards > 0 && |a.m.lists| > 0 ==> Harmless(w[a.id], a.m, a.merged)
  }

  ghost predicate AlwaysConfined(w: Configs, numShards: nat, init: State, labels: seq<Label>)
    requires numShards > 0
  {
    forall n | 0 <= n <= |labels| :: ConfinedAt(w, numShards, init, labels, n)
  }

  ghost predicate ConfinedAt(w: Configs, numShards: nat, init: State, labels: seq<Label>, n: nat)
    requires numShards > 0 && n <= |labels|
  {
    Run(w, init, labels[..n]).Some? && Confined(w, numShards, Run(w, init, labels[..n]).value)
  }

  /** A run is confined all along if and only if all its requests are harmless. */
  lemma {:induction false} AlwaysConfinedIff(w: Configs, numShards: nat, init: State, labels: seq<Label>)
    requires WellConfigured(w, numShards) && Initial(w, numShards, init) && Run(w, init, labels).Some?
    ensures AlwaysConfined(w, numShards, init, labels) <==> HarmlessAll(w, labels)
  {
    if labels == [] {
      assert labels[..0] == [];
    } else {
      var past := labels[..|labels| - 1];
      AlwaysConfinedIff(w, numShards, init, past);
      PrefixesConfined(w, numShards, init, labels);
      HarmlessPrefix(w, labels);
      if ConfinedAt(w, numShards, init, past, |past|) { LastConfinedIff(w, numShards, init, labels); }
    }
  }

  lemma HarmlessPrefix(w: Configs, labels: seq<Label>)
    requires labels != []
    ensures HarmlessAll(w, labels)
       <==> HarmlessAll(w, labels[..|labels| - 1]) && HarmlessLabel(w, labels[|labels| - 1])
  {
    assert labels == labels[..|labels| - 1] + [labels[|labels| - 1]];
  }

  /** After a confined past, the last step keeps confinement exactly when it is harmless. */
  lemma LastConfinedIff(w: Configs, numShards: nat, init: State, labels: seq<Label>)
    requires WellConfigured(w, numShards) && Initial(w, numShards, init)
    requires labels != [] && Run(w, init, labels).Some?
    requires ConfinedAt(w, numShards, init, labels[..|labels| - 1], |labels| - 1)
    ensures ConfinedAt(w, numShards, init, labels, |labels|) <==> HarmlessLabel(w, labels[|labels| - 1])
  {
    var past := labels[..|labels| - 1];
    assert past[..|past|] == past && labels[..|labels|] == labels;
    RunKeepsMemberInv(w, numShards, init, past);
    NextConfinedIff(w, numShards, Run(w, init, past).value, labels[|labels| - 1]);
  }

  /** All prefixes: those of the past, and the run itself. */
  lemma PrefixesConfined(w: Configs, numShards: nat, init: State, labels: seq<Label>)
    requires numShards > 0 && labels != []
    ensures AlwaysConfined(w, numShards, init, labels) <==>
      && AlwaysConfined(w, numShards, init, labels[..|labels| - 1])
      && ConfinedAt(w, numShards, init, labels, |labels|)
  {
    var past := labels[..|labels| - 1];
    forall n | 0 <= n <= |past|
      ensures ConfinedAt(w, numShards, init, past, n) <==> ConfinedAt(w, numShards, init, labels, n)
    {
      assert past[..n] == labels[..n];
    }
  }

  /** So in every state reached by harmless requests each stored list hashes to its node's shard, and
      each list message between nodes stays within one shard. */
  lemma ShardConfinement(w: Configs, numShards: nat, init: State, labels: seq<Label>)
    requires WellConfigured(w, numShards) && Initial(w, numShards, init) && HarmlessAll(w, labels)
    ensures Run(w, init, labels).Some? ==> Confined(w, numShards, Run(w, init, labels).value)
  {
    if Run(w, init, labels).Some? {
      AlwaysConfinedIff(w, numShards, init, labels);
      assert ConfinedAt(w, numShards, init, labels, |labels|);
      assert labels[..|labels|] == labels;
    }
  }
}
