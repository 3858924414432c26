/** The table of known nodes, the connections that follow it, and its eviction. */
module Membership {
  import opened Util
  import opened Messages

  datatype Config = Config(
    nodeId: string,
    host: string,
    clientPort: int,
    gossipPullPort: int,
    discoveryPullPort: int,
    shardId: nat,
    numShards: nat,
    discoveryTimeoutMs: nat)

  /** The address "tcp://host:port". */
  datatype Endpoint = Endpoint(host: string, port: int)

  /** `discovery` and `shard` are the auxiliary connection sets; the links are the endpoints
      the two push sockets are connected to. */
  datatype Table = Table(
    known: map<string, NodeInfo>,
    discovery: set<string>,
    shard: set<string>,
    discoveryLinks: set<Endpoint>,
    shardLinks: set<Endpoint>)

  function DiscoveryEp(n: NodeInfo): Endpoint { Endpoint(n.host, n.discoveryPullPort) }

  function GossipEp(n: NodeInfo): Endpoint { Endpoint(n.host, n.gossipPullPort) }

  function SelfInfo(cfg: Config, now: nat): NodeInfo {
    NodeInfo(cfg.nodeId, cfg.host, cfg.shardId, cfg.clientPort, cfg.gossipPullPort, cfg.discoveryPullPort, now)
  }

  /** One iteration of `update_known_nodes`. */
  function UpdatedOne(cfg: Config, t: Table, n: NodeInfo): Table {
    var id := n.nodeId;
    if id == cfg.nodeId then t
    else if id !in t.known then
      Table(
        t.known[id := n],
        t.discovery + {id},
        if n.shardId == cfg.shardId then t.shard + {id} else t.shard,
        if id in t.discovery then t.discoveryLinks else t.discoveryLinks + {DiscoveryEp(n)},
        if n.shardId == cfg.shardId && id !in t.shard then t.shardLinks + {GossipEp(n)} else t.shardLinks)
    else if t.known[id].lastSeenTs > n.lastSeenTs then t
    else t.(known := t.known[id := n])
  }

  function Updated(cfg: Config, t: Table, nodes: seq<NodeInfo>): Table {
    if nodes == [] then t
    else UpdatedOne(cfg, Updated(cfg, t, nodes[..|nodes| - 1]), nodes[|nodes| - 1])
  }

  /** A new node knows itself and is connected to nobody. */
  function Alone(cfg: Config, now: nat): Table { Table(map[cfg.nodeId := SelfInfo(cfg, now)], {}, {}, {}, {}) }

  /** Every entry stamped with its own reading of the clock. */
  function Stamped(t: Table, readings: map<string, nat>): Table
    requires t.known.Keys <= readings.Keys
  {
    t.(known := map p | p in t.known :: t.known[p].(lastSeenTs := readings[p]))
  }

  /** The constructor, then the start of the run loop. */
  function Booted(cfg: Config, peers: seq<NodeInfo>, now: nat, readings: map<string, nat>): Table
    requires Updated(cfg, Alone(cfg, now), peers).known.Keys <= readings.Keys
  {
    Stamped(Updated(cfg, Alone(cfg, now), peers), readings)
  }

  /** The connections of the given peers can be undone: each endpoint is connected, and no two share one. */
  ghost predicate Disconnectable(cfg: Config, t: Table, dead: set<string>)
    requires dead <= t.known.Keys
  {
    && (forall p | p in dead && p in t.discovery :: DiscoveryEp(t.known[p]) in t.discoveryLinks)
    && (forall p | p in dead && OnShardLink(cfg, t, p) :: GossipEp(t.known[p]) in t.shardLinks)
    && (forall p, q | p in dead && q in dead && p != q && p in t.discovery && q in t.discovery ::
          DiscoveryEp(t.known[p]) != DiscoveryEp(t.known[q]))
    && (forall p, q | p in dead && q in dead && p != q && OnShardLink(cfg, t, p) && OnShardLink(cfg, t, q) ::
          GossipEp(t.known[p]) != GossipEp(t.known[q]))
  }

  predicate OnShardLink(cfg: Config, t: Table, p: string)
    requires p in t.known
  {
    t.known[p].shardId == cfg.shardId && p in t.shard
  }

  /** One iteration of the eviction that erases peer p. */
  function Erased(cfg: Config, t: Table, p: string): Table
    requires p in t.known
  {
    Table(
      t.known - {p},
      t.discovery - {p},
      if OnShardLink(cfg, t, p) then t.shard - {p} else t.shard,
      if p in t.discovery then t.discoveryLinks - {DiscoveryEp(t.known[p])} else t.discoveryLinks,
      if OnShardLink(cfg, t, p) then t.shardLinks - {GossipEp(t.known[p])} else t.shardLinks)
  }

  /** The endpoints that iteration disconnects are connected. */
  predicate CanErase(cfg: Config, t: Table, p: string)
    requires p in t.known
  {
    && (p in t.discovery ==> DiscoveryEp(t.known[p]) in t.discoveryLinks)
    && (OnShardLink(cfg, t, p) ==> GossipEp(t.known[p]) in t.shardLinks)
  }

  /** What a failing disconnect leaves: the peer is still known, the id already out of its connection set. */
  function HalfErased(cfg: Config, t: Table, p: string): Table
    requires p in t.known
  {
    var info := t.known[p];
    if p in t.discovery && DiscoveryEp(info) !in t.discoveryLinks then t.(discovery := t.discovery - {p})
    else
      Table(t.known, t.discovery - {p}, t.shard - {p},
            if p in t.discovery then t.discoveryLinks - {DiscoveryEp(info)} else t.discoveryLinks, t.shardLinks)
  }

  /** Eviction stopped at some dead peer, after erasing some of the others. */
  ghost predicate StoppedAt(cfg: Config, t: Table, now: nat, t': Table) {
    exists gone, p | gone <= DeadPeers(cfg, t, now) && p in DeadPeers(cfg, t, now) - gone ::
      !CanErase(cfg, Without(cfg, t, gone), p) && t' == HalfErased(cfg, Without(cfg, t, gone), p)
  }

  function SelfStamped(cfg: Config, t: Table, now: nat): Table
    requires cfg.nodeId in t.known
  {
    t.(known := t.known[cfg.nodeId := t.known[cfg.nodeId].(lastSeenTs := now)])
  }

  /** The unsigned 64-bit difference: a timestamp from the future looks very old. */
  function Age(now: nat, ts: nat): nat { (now - ts) % TWO64 }

  function DeadPeers(cfg: Config, t: Table, now: nat): set<string> {
    set p | p in t.known && p != cfg.nodeId && Age(now, t.known[p].lastSeenTs) > cfg.discoveryTimeoutMs
  }

  /** The table after erasing the given peers, each disconnected if it was connected. */
  function Without(cfg: Config, t: Table, dead: set<string>): Table
    requires dead <= t.known.Keys
  {
    var shardDead := set p | p in dead && t.known[p].shardId == cfg.shardId;
    Table(
      t.known - dead,
      t.discovery - dead,
      t.shard - shardDead,
      t.discoveryLinks - (set p | p in dead && p in t.discovery :: DiscoveryEp(t.known[p])),
      t.shardLinks - (set p | p in shardDead && p in t.shard :: GossipEp(t.known[p])))
  }

  function Evicted(cfg: Config, t: Table, now: nat): Table { Without(cfg, t, DeadPeers(cfg, t, now)) }

  /** A discovery round: evict, then stamp oneself a little later. */
  function AfterRound(cfg: Config, t: Table, now: nat, later: nat): Table
    requires cfg.nodeId in t.known
  {
    SelfStamped(cfg, Evicted(cfg, t, now), later)
  }

  /* ---- the batch update is a pointwise maximum ---- */

  function LastSeen(t: Table, p: string): int { if p in t.known then t.known[p].lastSeenTs else -1 }

  function MaxTs(nodes: seq<NodeInfo>, p: string): int {
    if nodes == [] then -1
    else
      var rest, n := MaxTs(nodes[..|nodes| - 1], p), nodes[|nodes| - 1];
      if n.nodeId == p && n.lastSeenTs > rest then n.lastSeenTs else rest
  }

  lemma {:induction false} UpdateIsMaximum(cfg: Config, t: Table, nodes: seq<NodeInfo>, p: string)
    ensures p != cfg.nodeId ==>
      LastSeen(Updated(cfg, t, nodes), p)
        == if MaxTs(nodes, p) > LastSeen(t, p) then MaxTs(nodes, p) else LastSeen(t, p)
    ensures p == cfg.nodeId && p in t.known ==>
      p in Updated(cfg, t, nodes).known && Updated(cfg, t, nodes).known[p] == t.known[p]
    ensures p == cfg.nodeId && p !in t.known ==> p !in Updated(cfg, t, nodes).known
  {
    if nodes != [] {
      UpdateIsMaximum(cfg, t, nodes[..|nodes| - 1], p);
    }
  }

  /** MaxTs is the greatest timestamp carried for p. */
  lemma {:induction false} MaxTsIsGreatest(nodes: seq<NodeInfo>, p: string)
    ensures forall n | n in nodes && n.nodeId == p :: n.lastSeenTs <= MaxTs(nodes, p)
    ensures MaxTs(nodes, p) != -1 ==> exists n :: n in nodes && n.nodeId == p && n.lastSeenTs == MaxTs(nodes, p)
  {
    if nodes != [] {
      var k := |nodes| - 1;
      MaxTsIsGreatest(nodes[..k], p);
      assert nodes == nodes[..k] + [nodes[k]];
      if MaxTs(nodes, p) == MaxTs(nodes[..k], p) && MaxTs(nodes, p) != -1 {
        var n :| n in nodes[..k] && n.nodeId == p && n.lastSeenTs == MaxTs(nodes[..k], p);
        assert n in nodes;
      } else if MaxTs(nodes, p) != -1 {
        assert nodes[k] in nodes;
      }
    }
  }

  /** A batch makes known exactly the nodes it mentions. */
  lemma {:induction false} UpdatedKeys(cfg: Config, t: Table, nodes: seq<NodeInfo>)
    ensures Updated(cfg, t, nodes).known.Keys
         == t.known.Keys + (set n | n in nodes && n.nodeId != cfg.nodeId :: n.nodeId)
  {
    if nodes != [] {
      var k := |nodes| - 1;
      UpdatedKeys(cfg, t, nodes[..k]);
      assert nodes == nodes[..k] + [nodes[k]];
    }
  }

  /** The report i of p is at least as late as every other, and later than those after it. */
  ghost predicate Latest(nodes: seq<NodeInfo>, p: string, i: nat) {
    && i < |nodes| && nodes[i].nodeId == p
    && (forall j | 0 <= j < i && nodes[j].nodeId == p :: nodes[j].lastSeenTs <= nodes[i].lastSeenTs)
    && (forall j | i < j < |nodes| && nodes[j].nodeId == p :: nodes[j].lastSeenTs < nodes[i].lastSeenTs)
  }

  /** The entry is that report, no earlier than what the table had. */
  predicate IsReport(entry: NodeInfo, report: NodeInfo, t: Table) {
    entry == report && LastSeen(t, report.nodeId) <= report.lastSeenTs
  }

  /** Afterwards the whole entry of a peer is that of the last of its latest reports, unless the
      table was later than all of them. */
  lemma {:induction false} LatestReportStored(cfg: Config, t: Table, nodes: seq<NodeInfo>, p: string)
    requires p != cfg.nodeId
    ensures p in Updated(cfg, t, nodes).known ==>
      || (p in t.known && Updated(cfg, t, nodes).known[p] == t.known[p]
          && forall n | n in nodes && n.nodeId == p :: n.lastSeenTs < t.known[p].lastSeenTs)
      || exists i: nat :: Latest(nodes, p, i) && IsReport(Updated(cfg, t, nodes).known[p], nodes[i], t)
  {
    if nodes != [] {
      var k := |nodes| - 1;
      var past := nodes[..k];
      LatestReportStored(cfg, t, past, p);
      assert nodes == past + [nodes[k]];
      var u := Updated(cfg, t, past);
      if nodes[k].nodeId == p && (p in u.known ==> u.known[p].lastSeenTs <= nodes[k].lastSeenTs) {
        LastIsLatest(cfg, t, nodes, p);
      } else if i: nat :| Latest(past, p, i) && p in u.known && u.known[p] == past[i] {
        assert Latest(nodes, p, i);
      }
    }
  }

  lemma LastIsLatest(cfg: Config, t: Table, nodes: seq<NodeInfo>, p: string)
    requires nodes != [] && p != cfg.nodeId && nodes[|nodes| - 1].nodeId == p
    requires LastSeen(Updated(cfg, t, nodes[..|nodes| - 1]), p) <= nodes[|nodes| - 1].lastSeenTs
    ensures Latest(nodes, p, |nodes| - 1) && LastSeen(t, p) <= nodes[|nodes| - 1].lastSeenTs
  {
    var past := nodes[..|nodes| - 1];
    UpdateIsMaximum(cfg, t, past, p);
    MaxTsIsGreatest(past, p);
    forall j | 0 <= j < |nodes| - 1 && nodes[j].nodeId == p
      ensures nodes[j].lastSeenTs <= nodes[|nodes| - 1].lastSeenTs
    {
      assert past[j] in past;
    }
  }

  /* ---- connections mirror the table ---- */

  /** The fixed attributes of every node. */
  type Directory = map<string, NodeInfo>

  ghost predicate DistinctEndpoints(dir: Directory) {
    forall p, q | p in dir && q in dir && p != q ::
      DiscoveryEp(dir[p]) != DiscoveryEp(dir[q]) && GossipEp(dir[p]) != GossipEp(dir[q])
  }

  predicate Truthful(dir: Directory, n: NodeInfo) {
    n.nodeId in dir && n == dir[n.nodeId].(lastSeenTs := n.lastSeenTs)
  }

  ghost predicate TruthfulAll(dir: Directory, nodes: seq<NodeInfo>) { forall n | n in nodes :: Truthful(dir, n) }

  function Peers(cfg: Config, t: Table): set<string> { t.known.Keys - {cfg.nodeId} }

  function ShardPeers(cfg: Config, t: Table): set<string> {
    set p | p in Peers(cfg, t) && t.known[p].shardId == cfg.shardId
  }

  /** The endpoints of the given nodes. */
  ghost function Endpoints(f: NodeInfo -> Endpoint, dir: Directory, ids: set<string>): set<Endpoint> {
    set p | p in ids && p in dir :: f(dir[p])
  }

  ghost predicate Mirrors(dir: Directory, cfg: Config, t: Table) {
    && DistinctEndpoints(dir)
    && cfg.nodeId in t.known
    && (forall p | p in t.known :: t.known[p].nodeId == p && Truthful(dir, t.known[p]))
    && t.discovery == Peers(cfg, t)
    && t.shard == ShardPeers(cfg, t)
    && t.discoveryLinks == Endpoints(DiscoveryEp, dir, Peers(cfg, t))
    && t.shardLinks == Endpoints(GossipEp, dir, ShardPeers(cfg, t))
  }

  lemma UpdateOneKeepsMirrors(dir: Directory, cfg: Config, t: Table, n: NodeInfo)
    requires Mirrors(dir, cfg, t) && Truthful(dir, n)
    ensures Mirrors(dir, cfg, UpdatedOne(cfg, t, n))
  {
    var t' := UpdatedOne(cfg, t, n);
    var id := n.nodeId;
    if id != cfg.nodeId && id !in t.known {
      assert Peers(cfg, t') == Peers(cfg, t) + {id};
      assert ShardPeers(cfg, t') == if n.shardId == cfg.shardId then ShardPeers(cfg, t) + {id} else ShardPeers(cfg, t);
    } else {
      assert Peers(cfg, t') == Peers(cfg, t);
      assert ShardPeers(cfg, t') == ShardPeers(cfg, t);
    }
  }

  lemma {:induction false} UpdateKeepsMirrors(dir: Directory, cfg: Config, t: Table, nodes: seq<NodeInfo>)
    requires Mirrors(dir, cfg, t) && TruthfulAll(dir, nodes)
    ensures Mirrors(dir, cfg, Updated(cfg, t, nodes))
  {
    if nodes != [] {
      UpdateKeepsMirrors(dir, cfg, t, nodes[..|nodes| - 1]);
      UpdateOneKeepsMirrors(dir, cfg, Updated(cfg, t, nodes[..|nodes| - 1]), nodes[|nodes| - 1]);
    }
  }

  lemma BootMirrors(dir: Directory, cfg: Config, peers: seq<NodeInfo>, now: nat, readings: map<string, nat>)
    requires DistinctEndpoints(dir) && Truthful(dir, SelfInfo(cfg, now)) && TruthfulAll(dir, peers)
    requires Updated(cfg, Alone(cfg, now), peers).known.Keys <= readings.Keys
    ensures Mirrors(dir, cfg, Booted(cfg, peers, now, readings))
  {
    var t0 := Alone(cfg, now);
    assert Peers(cfg, t0) == {};
    assert Mirrors(dir, cfg, t0);
    UpdateKeepsMirrors(dir, cfg, t0, peers);
    var t1 := Updated(cfg, t0, peers);
    assert Peers(cfg, Stamped(t1, readings)) == Peers(cfg, t1);
    assert ShardPeers(cfg, Stamped(t1, readings)) == ShardPeers(cfg, t1);
  }

  lemma SelfStampKeepsMirrors(dir: Directory, cfg: Config, t: Table, now: nat)
    requires Mirrors(dir, cfg, t)
    ensures Mirrors(dir, cfg, SelfStamped(cfg, t, now))
  {
    var t' := SelfStamped(cfg, t, now);
    assert Peers(cfg, t') == Peers(cfg, t);
    assert ShardPeers(cfg, t') == ShardPeers(cfg, t);
  }

  lemma EndpointsMinus(f: NodeInfo -> Endpoint, dir: Directory, ids: set<string>, gone: set<string>)
    requires gone <= ids <= dir.Keys
    requires forall p, q | p in dir && q in dir && p != q :: f(dir[p]) != f(dir[q])
    ensures Endpoints(f, dir, ids) - Endpoints(f, dir, gone) == Endpoints(f, dir, ids - gone)
  {
  }

  lemma WithoutKeepsMirrors(dir: Directory, cfg: Config, t: Table, dead: set<string>)
    requires Mirrors(dir, cfg, t) && dead <= Peers(cfg, t)
    ensures Mirrors(dir, cfg, Without(cfg, t, dead))
  {
    var t' := Without(cfg, t, dead);
    var shardDead := set p | p in dead && t.known[p].shardId == cfg.shardId;
    assert Peers(cfg, t') == Peers(cfg, t) - dead;
    assert ShardPeers(cfg, t') == ShardPeers(cfg, t) - shardDead;
    EndpointsMinus(DiscoveryEp, dir, Peers(cfg, t), dead);
    EndpointsMinus(GossipEp, dir, ShardPeers(cfg, t), shardDead);
    assert (set p | p in dead && p in t.discovery :: DiscoveryEp(t.known[p])) == Endpoints(DiscoveryEp, dir, dead);
    assert (set p | p in shardDead && p in t.shard :: GossipEp(t.known[p])) == Endpoints(GossipEp, dir, shardDead);
  }

  lemma EvictKeepsMirrors(dir: Directory, cfg: Config, t: Table, now: nat)
    requires Mirrors(dir, cfg, t)
    ensures Mirrors(dir, cfg, Evicted(cfg, t, now))
  {
    WithoutKeepsMirrors(dir, cfg, t, DeadPeers(cfg, t, now));
  }

  /** A mirroring table is determined by who is known and when each was last seen. */
  lemma MirrorsDetermined(dir: Directory, cfg: Config, t: Table, t': Table)
    requires Mirrors(dir, cfg, t) && Mirrors(dir, cfg, t')
    requires forall p :: LastSeen(t, p) == LastSeen(t', p)
    ensures t == t'
  {
    forall p ensures p in t.known <==> p in t'.known {
      assert LastSeen(t, p) == LastSeen(t', p);
    }
    forall p | p in t.known ensures t.known[p] == t'.known[p] {
      assert LastSeen(t, p) == LastSeen(t', p);
    }
    assert t.known == t'.known;
  }

  /** Permuting or repeating the entries of a batch gives the same table and connections. */
  lemma BatchOrderIrrelevant(dir: Directory, cfg: Config, t: Table, nodes: seq<NodeInfo>, nodes': seq<NodeInfo>)
    requires Mirrors(dir, cfg, t) && TruthfulAll(dir, nodes)
    requires forall n :: n in nodes <==> n in nodes'
    ensures Updated(cfg, t, nodes) == Updated(cfg, t, nodes')
  {
    UpdateKeepsMirrors(dir, cfg, t, nodes);
    UpdateKeepsMirrors(dir, cfg, t, nodes');
    forall p ensures LastSeen(Updated(cfg, t, nodes), p) == LastSeen(Updated(cfg, t, nodes'), p) {
      UpdateIsMaximum(cfg, t, nodes, p);
      UpdateIsMaximum(cfg, t, nodes', p);
      MaxTsIsGreatest(nodes, p);
      MaxTsIsGreatest(nodes', p);
    }
    MirrorsDetermined(dir, cfg, Updated(cfg, t, nodes), Updated(cfg, t, nodes'));
  }

  /* ---- erasing one peer after the other ---- */

  lemma WithoutNone(cfg: Config, t: Table)
    ensures Without(cfg, t, {}) == t
  {
  }

  lemma WithoutOneMore(cfg: Config, t: Table, gone: set<string>, p: string)
    requires gone <= t.known.Keys && p in t.known && p !in gone
    ensures Without(cfg, t, gone + {p}) == Erased(cfg, Without(cfg, t, gone), p)
  {
    var w, w' := Without(cfg, t, gone), Without(cfg, t, gone + {p});
    assert w'.known == w.known - {p};
    assert w'.discovery == w.discovery - {p};
    WithoutShardOneMore(cfg, t, gone, p);
    WithoutLinksOneMore(cfg, t, gone, p);
  }

  lemma WithoutShardOneMore(cfg: Config, t: Table, gone: set<string>, p: string)
    requires gone <= t.known.Keys && p in t.known && p !in gone
    ensures var w, w', e := Without(cfg, t, gone), Without(cfg, t, gone + {p}), Erased(cfg, Without(cfg, t, gone), p);
      w'.shard == e.shard && w'.shardLinks == e.shardLinks
  {
  }

  lemma WithoutLinksOneMore(cfg: Config, t: Table, gone: set<string>, p: string)
    requires gone <= t.known.Keys && p in t.known && p !in gone
    ensures Without(cfg, t, gone + {p}).discoveryLinks == Erased(cfg, Without(cfg, t, gone), p).discoveryLinks
  {
  }

  /** Whether the next disconnects succeed does not depend on the order of the earlier ones. */
  lemma CanEraseIff(cfg: Config, t: Table, gone: set<string>, p: string)
    requires gone <= t.known.Keys && p in t.known && p !in gone && Disconnectable(cfg, t, gone)
    ensures CanErase(cfg, Without(cfg, t, gone), p) <==> Disconnectable(cfg, t, gone + {p})
  {
  }

  /** While the connections mirror the table, no disconnect fails. */
  lemma MirrorsDisconnectable(dir: Directory, cfg: Config, t: Table, dead: set<string>)
    requires Mirrors(dir, cfg, t) && dead <= Peers(cfg, t)
    ensures Disconnectable(cfg, t, dead)
  {
  }

  /** A failing disconnect leaves a dead peer in the table that no longer counts as connected though
      its endpoint never was, and every peer that is not dead as it was. */
  lemma StoppedHalfWay(cfg: Config, t: Table, now: nat, t': Table)
    requires StoppedAt(cfg, t, now, t')
    ensures exists p :: FailedOn(cfg, t, now, t', p)
    ensures t'.known.Keys <= t.known.Keys && forall p | p in t.known && p !in DeadPeers(cfg, t, now) ::
      && p in t'.known && t'.known[p] == t.known[p]
      && (p in t'.discovery <==> p in t.discovery) && (p in t'.shard <==> p in t.shard)
  {
    var gone, p :| gone <= DeadPeers(cfg, t, now) && p in DeadPeers(cfg, t, now) - gone
      && !CanErase(cfg, Without(cfg, t, gone), p) && t' == HalfErased(cfg, Without(cfg, t, gone), p);
    assert FailedOn(cfg, t, now, t', p);
  }

  ghost predicate FailedOn(cfg: Config, t: Table, now: nat, t': Table, p: string) {
    && p in DeadPeers(cfg, t, now) && p in t'.known && t'.known[p] == t.known[p]
    && var n := t.known[p];
    || (p in t.discovery && p !in t'.discovery && Endpoint(n.host, n.discoveryPullPort) !in t'.discoveryLinks)
    || (p in t.shard && p !in t'.shard && Endpoint(n.host, n.gossipPullPort) !in t'.shardLinks)
  }

  /* ---- the table against the full history ---- */

  /** Every (peer, timestamp) ever delivered to the node or stamped at boot. */
  type History = set<(string, nat)>

  function Recorded(h: History, nodes: seq<NodeInfo>): History {
    h + (set n | n in nodes :: (n.nodeId, n.lastSeenTs))
  }

  /** The initial peers as given and as stamped. */
  function BootRecord(peers: seq<NodeInfo>, readings: map<string, nat>): History {
    Recorded({}, peers) + (set n | n in peers && n.nodeId in readings :: (n.nodeId, readings[n.nodeId]))
  }

  /** Between evictions: the table holds only history, and everything recent enough for the last eviction. */
  ghost predicate Tracks(cfg: Config, t: Table, h: History, lastEvict: nat) {
    && (forall p | p in Peers(cfg, t) :: (p, t.known[p].lastSeenTs) in h)
    && (forall p, ts | (p, ts) in h && p != cfg.nodeId && ts + cfg.discoveryTimeoutMs >= lastEvict ::
          p in t.known && t.known[p].lastSeenTs >= ts)
  }

  /** Right after an eviction at `now`: the peers are exactly those with a recent enough
      timestamp in the history, each at its greatest timestamp. */
  ghost predicate ExactWindow(cfg: Config, t: Table, h: History, now: nat) {
    && (forall p | p != cfg.nodeId ::
          p in t.known <==> exists ts :: (p, ts) in h && ts + cfg.discoveryTimeoutMs >= now)
    && (forall p | p in Peers(cfg, t) :: (p, t.known[p].lastSeenTs) in h)
    && (forall p, ts | p in Peers(cfg, t) && (p, ts) in h :: ts <= t.known[p].lastSeenTs)
  }

  lemma UpdateOneTracks(cfg: Config, t: Table, n: NodeInfo, h: History, lastEvict: nat)
    requires Tracks(cfg, t, h, lastEvict)
    ensures Tracks(cfg, UpdatedOne(cfg, t, n), h + {(n.nodeId, n.lastSeenTs)}, lastEvict)
  {
  }

  lemma {:induction false} UpdateTracks(cfg: Config, t: Table, nodes: seq<NodeInfo>, h: History, lastEvict: nat)
    requires Tracks(cfg, t, h, lastEvict)
    ensures Tracks(cfg, Updated(cfg, t, nodes), Recorded(h, nodes), lastEvict)
  {
    if nodes == [] {
      assert Recorded(h, nodes) == h;
    } else {
      var k := |nodes| - 1;
      UpdateTracks(cfg, t, nodes[..k], h, lastEvict);
      UpdateOneTracks(cfg, Updated(cfg, t, nodes[..k]), nodes[k], Recorded(h, nodes[..k]), lastEvict);
      assert nodes == nodes[..k] + [nodes[k]];
      assert Recorded(h, nodes) == Recorded(h, nodes[..k]) + {(nodes[k].nodeId, nodes[k].lastSeenTs)};
    }
  }

  /** No timestamp is ahead of the shared clock. */
  ghost predicate NotAhead(t: Table, clock: nat) {
    clock < TWO64 && forall p | p in t.known :: t.known[p].lastSeenTs <= clock
  }

  lemma EvictTracks(cfg: Config, t: Table, h: History, lastEvict: nat, now: nat)
    requires Tracks(cfg, t, h, lastEvict) && lastEvict <= now && NotAhead(t, now)
    ensures Tracks(cfg, Evicted(cfg, t, now), h, now)
    ensures ExactWindow(cfg, Evicted(cfg, t, now), h, now)
  {
    forall p | p in t.known ensures Age(now, t.known[p].lastSeenTs) == now - t.known[p].lastSeenTs {}
    var t' := Evicted(cfg, t, now);
    forall p | p in Peers(cfg, t') ensures t'.known[p].lastSeenTs + cfg.discoveryTimeoutMs >= now {
      assert p !in DeadPeers(cfg, t, now);
    }
    forall p | p in t.known && p !in t'.known ensures t.known[p].lastSeenTs + cfg.discoveryTimeoutMs < now {
      assert p in DeadPeers(cfg, t, now);
    }
  }

  lemma BootTracks(cfg: Config, peers: seq<NodeInfo>, now: nat, readings: map<string, nat>)
    requires forall n | n in peers :: n.lastSeenTs <= now
    requires Updated(cfg, Alone(cfg, now), peers).known.Keys <= readings.Keys
    requires forall p | p in readings :: now <= readings[p]
    ensures var t := Booted(cfg, peers, now, readings); Tracks(cfg, t, BootRecord(peers, readings), 0)
  {
    var t0, t := Alone(cfg, now), Booted(cfg, peers, now, readings);
    assert Tracks(cfg, t0, {}, 0);
    UpdateTracks(cfg, t0, peers, {}, 0);
    forall p | p in Peers(cfg, t) ensures (p, t.known[p].lastSeenTs) in BootRecord(peers, readings) {
      assert (p, Updated(cfg, t0, peers).known[p].lastSeenTs) in Recorded({}, peers);
    }
  }

  /** A peer one millisecond ahead of the clock is evicted at once, under any timeout below 2^64 - 1. */
  lemma FutureEvicted(cfg: Config, n: NodeInfo, now: nat) returns (t: Table)
    requires n.nodeId != cfg.nodeId && n.lastSeenTs == now + 1 < TWO64 && cfg.discoveryTimeoutMs < TWO64 - 1
    ensures t == Updated(cfg, Alone(cfg, now), [n])
    ensures n.nodeId in t.known && n.nodeId !in Evicted(cfg, t, now).known
  {
    var t0 := Alone(cfg, now);
    t := Updated(cfg, t0, [n]);
    assert [n][..0] == [];
    assert t == UpdatedOne(cfg, Updated(cfg, t0, []), n);
    EvictedIff(cfg, t, now, n.nodeId);
  }

  /** With the clock shared, eviction removes exactly the peers silent for longer than the timeout;
      a timestamp from the future survives only if it is within the timeout of wrapping around. */
  lemma EvictedIff(cfg: Config, t: Table, now: nat, p: string)
    requires p in Peers(cfg, t) && now < TWO64 && t.known[p].lastSeenTs < TWO64
    ensures p in Evicted(cfg, t, now).known <==>
      if t.known[p].lastSeenTs <= now then now - t.known[p].lastSeenTs <= cfg.discoveryTimeoutMs
      else now + TWO64 - t.known[p].lastSeenTs <= cfg.discoveryTimeoutMs
    ensures cfg.nodeId in t.known ==> cfg.nodeId in Evicted(cfg, t, now).known
  {
    var ts := t.known[p].lastSeenTs;
    if ts <= now { assert Age(now, ts) == now - ts; } else { assert Age(now, ts) == now - ts + TWO64; }
  }
}
