/** What keeps a node known: initial peers survive from the boot, and nodes that gossip survive from
    the last round that was heard, until the timeout has passed. */
module Liveness {
  import opened Util
  import opened Messages
  import opened Membership
  import opened Clusters

  /** Node q runs and knows of node id from time T or later. */
  predicate Heard(s: State, q: string, id: string, T: int) {
    q in s.running && id in s.running[q].known && s.running[q].known[id].lastSeenTs >= T
  }

  /** The label ends node q. */
  ghost predicate Ends(w: Configs, a: Label, q: string) { a == Stop(q) || (Fails(w, a) && a.id == q) }

  ghost predicate KeepsRunning(w: Configs, labels: seq<Label>, q: string) { forall a | a in labels :: !Ends(w, a, q) }

  /** A round up to T plus the timeout keeps a peer known from T or later, as it was. */
  lemma RoundKeeps(w: Configs, s: State, a: Label, id: string, T: int)
    requires MemberInv(w, s) && a.Discover? && Enabled(w, s, a) && id != a.id && Heard(s, a.id, id, T)
    requires s.clock <= T + w[a.id].discoveryTimeoutMs
    ensures id in a.after.known && a.after.known[id] == s.running[a.id].known[id]
  {
    assert MemberAt(w, s, a.id);
    EvictedIff(w[a.id], s.running[a.id], s.clock, id);
  }

  lemma NextKeepsHeard(w: Configs, s: State, a: Label, q: string, id: string, T: int)
    requires MemberInv(w, s) && Enabled(w, s, a) && Heard(s, q, id, T) && id != q && !Ends(w, a, q)
    requires q in w && s.clock <= T + w[q].discoveryTimeoutMs
    ensures Heard(Next(w, s, a), q, id, T)
  {
    if a.Discover? && a.id == q {
      RoundKeeps(w, s, a, id, T);
    } else if a.Learn? && a.id == q {
      assert MemberAt(w, s, q);
      UpdateIsMaximum(w[q], s.running[q], a.packet.nodes, id);
    }
  }

  /** Along a run that does not end q, up to T plus the timeout, whatever q's rounds. */
  lemma {:induction false} RunKeepsHeard(w: Configs, numShards: nat, s: State, more: seq<Label>, s': State,
                                         q: string, id: string, T: int)
    requires WellConfigured(w, numShards) && MemberInv(w, s) && Heard(s, q, id, T) && id != q && q in w
    requires Run(w, s, more) == Some(s') && KeepsRunning(w, more, q) && s'.clock <= T + w[q].discoveryTimeoutMs
    ensures Heard(s', q, id, T)
  {
    if more != [] {
      var past, a := more[..|more| - 1], more[|more| - 1];
      var mid := Run(w, s, past).value;
      assert a in more && Next(w, mid, a).clock >= mid.clock;
      RunKeepsHeard(w, numShards, s, past, mid, q, id, T);
      RunKeepsMemberInv(w, numShards, s, past);
      NextKeepsHeard(w, mid, a, q, id, T);
    }
  }

  /* ---- from the boot ---- */

  /** The booted node knows itself and every initial peer, and nothing in its table is older than the boot. */
  lemma BootStamps(w: Configs, s: State, a: Label)
    requires a.Boot? && Enabled(w, s, a)
    ensures var s' := Next(w, s, a);
      && a.id in s'.running
      && (forall p | p in s'.running[a.id].known :: s.clock <= s'.running[a.id].known[p].lastSeenTs <= s'.clock)
      && (forall n | n in a.peers && n.nodeId != w[a.id].nodeId :: Heard(s', a.id, n.nodeId, s.clock))
      && Heard(s', a.id, w[a.id].nodeId, s.clock)
  {
    UpdatedKeys(w[a.id], Alone(w[a.id], s.clock), a.peers);
  }

  /** For the timeout after its boot a node keeps every initial peer, however old the timestamp it
      was given for it, through all its rounds. */
  lemma InitialPeersKept(w: Configs, numShards: nat, s: State, a: Label, more: seq<Label>, s': State,
                         n: NodeInfo, b: Label)
    requires WellConfigured(w, numShards) && MemberInv(w, s) && a.Boot? && Enabled(w, s, a)
    requires n in a.peers && n.nodeId != a.id
    requires Run(w, Next(w, s, a), more) == Some(s') && KeepsRunning(w, more, a.id)
    requires s'.clock <= s.clock + w[a.id].discoveryTimeoutMs
    ensures a.id in s'.running && n.nodeId in s'.running[a.id].known
    ensures b.Discover? && b.id == a.id && Enabled(w, s', b) ==> n.nodeId in b.after.known
  {
    BootStamps(w, s, a);
    NextKeepsMemberInv(w, numShards, s, a);
    RunKeepsHeard(w, numShards, Next(w, s, a), more, s', a.id, n.nodeId, s.clock);
    RunKeepsMemberInv(w, numShards, Next(w, s, a), more);
    if b.Discover? && b.id == a.id && Enabled(w, s', b) { RoundKeeps(w, s', b, n.nodeId, s.clock); }
  }

  /* ---- from a round ---- */

  /** A round stamps the node itself with the time at which the round ends, and gossips that stamp. */
  lemma RoundAnnounces(w: Configs, s: State, a: Label)
    requires MemberInv(w, s) && a.Discover? && Enabled(w, s, a)
    ensures Heard(Next(w, s, a), a.id, a.id, s.clock + a.dt)
    ensures exists n :: n in a.nodes && n.nodeId == a.id && n.lastSeenTs == s.clock + a.dt
  {
    assert MemberAt(w, s, a.id);
    assert a.after.known[a.id] in a.nodes;
  }

  /** Whoever stores such a gossip knows the node from the end of that round or later. */
  lemma LearnHears(w: Configs, s: State, a: Label, n: NodeInfo)
    requires a.Learn? && Enabled(w, s, a) && n in a.packet.nodes && n.nodeId != w[a.id].nodeId
    ensures Heard(Next(w, s, a), a.id, n.nodeId, n.lastSeenTs)
  {
    UpdateIsMaximum(w[a.id], s.running[a.id], a.packet.nodes, n.nodeId);
    MaxTsIsGreatest(a.packet.nodes, n.nodeId);
  }

  /** A node whose round ended at time T is kept by every node that learns its gossip, whenever that
      is, until the timeout has passed since T. */
  lemma AnnouncedIsKept(w: Configs, numShards: nat, s: State, a: Label, more: seq<Label>, s1: State, learn: Label,
                        later: seq<Label>, s2: State, b: Label)
    requires WellConfigured(w, numShards) && MemberInv(w, s) && a.Discover? && Enabled(w, s, a)
    requires Run(w, Next(w, s, a), more) == Some(s1)
    requires learn.Learn? && Enabled(w, s1, learn) && learn.packet.nodes == a.nodes && learn.id != a.id
    requires Run(w, Next(w, s1, learn), later) == Some(s2) && KeepsRunning(w, later, learn.id)
    requires s2.clock <= s.clock + a.dt + w[learn.id].discoveryTimeoutMs
    ensures Heard(Next(w, s1, learn), learn.id, a.id, s.clock + a.dt) && Heard(s2, learn.id, a.id, s.clock + a.dt)
    ensures b.Discover? && b.id == learn.id && Enabled(w, s2, b) ==> a.id in b.after.known
  {
    RoundAnnounces(w, s, a);
    var n :| n in a.nodes && n.nodeId == a.id && n.lastSeenTs == s.clock + a.dt;
    NextKeepsMemberInv(w, numShards, s, a);
    RunKeepsMemberInv(w, numShards, Next(w, s, a), more);
    LearnHears(w, s1, learn, n);
    NextKeepsMemberInv(w, numShards, s1, learn);
    RunKeepsHeard(w, numShards, Next(w, s1, learn), later, s2, learn.id, a.id, n.lastSeenTs);
    RunKeepsMemberInv(w, numShards, Next(w, s1, learn), later);
    if b.Discover? && b.id == learn.id && Enabled(w, s2, b) { RoundKeeps(w, s2, b, a.id, n.lastSeenTs); }
  }
}
