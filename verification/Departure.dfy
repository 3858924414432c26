/** A node that stops is forgotten by every other node, for good. */
module Departure {
  import Util
  import Messages
  import opened Membership
  import opened Clusters

  /** Node d does not run, and nothing anywhere claims to have seen it after time T. */
  ghost predicate Silent(s: State, d: string, T: nat) {
    && d !in s.running
    && T <= s.clock
    && (forall id | id in s.running :: LastSeen(s.running[id], d) <= T)
    && (forall p | p in s.net && p.Discovery? :: MaxTs(p.nodes, d) <= T)
  }

  /** Restarting d, or booting a node with d among its initial peers. */
  predicate Revives(a: Label, d: string) {
    a.Boot? && (a.id == d || exists n :: n in a.peers && n.nodeId == d)
  }

  ghost predicate NeverRevives(labels: seq<Label>, d: string) { forall a | a in labels :: !Revives(a, d) }

  lemma NotMentioned(nodes: seq<Messages.NodeInfo>, d: string)
    ensures MaxTs(nodes, d) == -1 <==> forall n | n in nodes :: n.nodeId != d
  {
    MaxTsIsGreatest(nodes, d);
  }

  lemma NotRunningIsSilent(w: Configs, s: State, d: string)
    requires MemberInv(w, s) && d !in s.running
    ensures Silent(s, d, s.clock)
  {
    forall id | id in s.running ensures LastSeen(s.running[id], d) <= s.clock {
      assert MemberAt(w, s, id);
    }
    forall p | p in s.net && p.Discovery? ensures MaxTs(p.nodes, d) <= s.clock {
      assert GoodPacket(w, s.clock, p);
      MaxTsIsGreatest(p.nodes, d);
    }
  }

  lemma BootWithout(cfg: Config, peers: seq<Messages.NodeInfo>, now: nat, readings: map<string, nat>, d: string)
    requires cfg.nodeId != d && forall n | n in peers :: n.nodeId != d
    requires Updated(cfg, Alone(cfg, now), peers).known.Keys <= readings.Keys
    ensures LastSeen(Booted(cfg, peers, now, readings), d) == -1
  {
    NotMentioned(peers, d);
    UpdateIsMaximum(cfg, Alone(cfg, now), peers, d);
  }

  /** A round neither refreshes another node nor gossips about it anything the table does not hold. */
  lemma RoundOnlyForgets(w: Configs, s: State, a: Label, d: string)
    requires MemberInv(w, s) && a.Discover? && Enabled(w, s, a) && d != a.id
    ensures var t, t' := s.running[a.id], a.after;
      && (LastSeen(t', d) == LastSeen(t, d) || LastSeen(t', d) == -1)
      && MaxTs(a.nodes, d) == LastSeen(t', d)
      && (LastSeen(t, d) + w[a.id].discoveryTimeoutMs < s.clock ==> LastSeen(t', d) == -1)
  {
    assert MemberAt(w, s, a.id);
    var t, t' := s.running[a.id], a.after;
    assert forall p | p in t'.known :: t'.known[p].nodeId == p;
    if d in t.known { EvictedIff(w[a.id], t, s.clock, d); }
    MaxTsIsGreatest(a.nodes, d);
    if d in t'.known { assert t'.known[d] in a.nodes; }
  }

  lemma TableStaysSilent(w: Configs, numShards: nat, s: State, a: Label, d: string, T: nat, id: string)
    requires WellConfigured(w, numShards) && MemberInv(w, s) && Enabled(w, s, a)
    requires Silent(s, d, T) && !Revives(a, d) && id in Next(w, s, a).running
    ensures LastSeen(Next(w, s, a).running[id], d) <= T
  {
    if a.Boot? && a.id == id {
      BootWithout(w[id], a.peers, s.clock, a.readings, d);
    } else if a.Discover? && a.id == id {
      RoundOnlyForgets(w, s, a, d);
    } else if a.Learn? && a.id == id {
      UpdateIsMaximum(w[id], s.running[id], a.packet.nodes, d);
    }
  }

  lemma NextKeepsSilent(w: Configs, numShards: nat, s: State, a: Label, d: string, T: nat)
    requires WellConfigured(w, numShards) && MemberInv(w, s) && Enabled(w, s, a)
    requires Silent(s, d, T) && !Revives(a, d)
    ensures Silent(Next(w, s, a), d, T)
  {
    var s' := Next(w, s, a);
    forall id | id in s'.running ensures LastSeen(s'.running[id], d) <= T {
      TableStaysSilent(w, numShards, s, a, d, T, id);
    }
    if a.Discover? { RoundOnlyForgets(w, s, a, d); }
  }

  lemma {:induction false} RunKeepsSilent(w: Configs, numShards: nat, s: State, more: seq<Label>, d: string, T: nat)
    requires WellConfigured(w, numShards) && MemberInv(w, s) && Silent(s, d, T) && NeverRevives(more, d)
    ensures Run(w, s, more).Some? ==> Silent(Run(w, s, more).value, d, T)
  {
    if more != [] {
      var past := more[..|more| - 1];
      RunKeepsSilent(w, numShards, s, past, d, T);
      RunKeepsMemberInv(w, numShards, s, past);
      if Run(w, s, more).Some? {
        assert more[|more| - 1] in more;
        NextKeepsSilent(w, numShards, Run(w, s, past).value, more[|more| - 1], d, T);
      }
    }
  }

  /** After node d stopped, in every later state without a revival, no table and no message holds
      a timestamp of d above the time it stopped. */
  lemma TimestampsStayBeforeStop(w: Configs, numShards: nat, s: State, more: seq<Label>, s': State, d: string)
    requires WellConfigured(w, numShards) && MemberInv(w, s) && d !in s.running
    requires NeverRevives(more, d) && Run(w, s, more) == Util.Some(s')
    ensures Silent(s', d, s.clock)
  {
    NotRunningIsSilent(w, s, d);
    RunKeepsSilent(w, numShards, s, more, d, s.clock);
  }

  /** Every discovery round later than the stop plus the timeout forgets d and omits it from its gossip. */
  lemma LateRoundsOmit(w: Configs, s: State, a: Label, d: string, T: nat)
    requires MemberInv(w, s) && Silent(s, d, T) && a.Discover? && Enabled(w, s, a)
    requires s.clock > T + w[a.id].discoveryTimeoutMs
    ensures d !in Next(w, s, a).running[a.id].known && forall n | n in a.nodes :: n.nodeId != d
  {
    RoundOnlyForgets(w, s, a, d);
    NotMentioned(a.nodes, d);
  }

  /* ---- once the old messages are gone ---- */

  /** Late enough for every timeout, and no message in flight mentions d. */
  ghost predicate Drained(w: Configs, s: State, d: string, T: nat) {
    && Silent(s, d, T)
    && (forall id | id in w :: s.clock > T + w[id].discoveryTimeoutMs)
    && (forall p | p in s.net && p.Discovery? :: MaxTs(p.nodes, d) == -1)
  }

  lemma NextKeepsDrained(w: Configs, numShards: nat, s: State, a: Label, d: string, T: nat)
    requires WellConfigured(w, numShards) && MemberInv(w, s) && Enabled(w, s, a)
    requires Drained(w, s, d, T) && !Revives(a, d)
    ensures Drained(w, Next(w, s, a), d, T)
  {
    NextKeepsSilent(w, numShards, s, a, d, T);
    if a.Discover? { RoundOnlyForgets(w, s, a, d); }
  }

  /** The label makes node id forget: it evicts, stops, or ends with an exception. */
  ghost predicate Cleans(w: Configs, a: Label, id: string) {
    (a.Discover? && a.id == id) || a == Stop(id) || (Fails(w, a) && a.id == id)
  }

  /** A node that still knows d after a step knew it before and was not cleaned. */
  lemma OnlyOldKnowledge(w: Configs, numShards: nat, s: State, a: Label, d: string, T: nat, id: string)
    requires WellConfigured(w, numShards) && MemberInv(w, s) && Enabled(w, s, a)
    requires Drained(w, s, d, T) && !Revives(a, d)
    requires var s' := Next(w, s, a); id in s'.running && d in s'.running[id].known
    ensures id in s.running && d in s.running[id].known && !Cleans(w, a, id)
  {
    if a.Boot? && a.id == id {
      BootWithout(w[id], a.peers, s.clock, a.readings, d);
    } else if a.Discover? && a.id == id {
      RoundOnlyForgets(w, s, a, d);
    } else if a.Learn? && a.id == id {
      UpdateIsMaximum(w[id], s.running[id], a.packet.nodes, d);
    }
  }

  lemma {:induction false} OldKnowledgeAlongRun(w: Configs, numShards: nat, s: State, more: seq<Label>,
      s': State, d: string, T: nat)
    requires WellConfigured(w, numShards) && MemberInv(w, s) && Drained(w, s, d, T)
    requires NeverRevives(more, d) && Run(w, s, more) == Util.Some(s')
    ensures Drained(w, s', d, T)
    ensures forall id | id in s'.running && d in s'.running[id].known ::
      id in s.running && d in s.running[id].known && forall a | a in more :: !Cleans(w, a, id)
  {
    if more != [] {
      var past, a := more[..|more| - 1], more[|more| - 1];
      var mid := Run(w, s, past).value;
      assert more == past + [a];
      OldKnowledgeAlongRun(w, numShards, s, past, mid, d, T);
      RunKeepsMemberInv(w, numShards, s, past);
      assert !Revives(a, d);
      NextKeepsDrained(w, numShards, mid, a, d, T);
      forall id | id in s'.running && d in s'.running[id].known
        ensures id in s.running && d in s.running[id].known && forall b | b in more :: !Cleans(w, b, id)
      {
        OnlyOldKnowledge(w, numShards, mid, a, d, T, id);
      }
    }
  }

  /** Once the old messages are drained and every node running then has evicted (or stopped), d is in
      no table and no message, and stays out of them in every later state without a revival. */
  lemma ForgottenForGood(w: Configs, numShards: nat, s: State, more: seq<Label>, later: seq<Label>, s': State,
      d: string, T: nat)
    requires WellConfigured(w, numShards) && MemberInv(w, s) && Drained(w, s, d, T)
    requires forall id | id in s.running :: exists a :: a in more && Cleans(w, a, id)
    requires NeverRevives(more, d) && NeverRevives(later, d) && Run(w, s, more + later) == Util.Some(s')
    ensures forall id | id in s'.running :: d !in s'.running[id].known
    ensures forall p | p in s'.net && p.Discovery? :: forall n | n in p.nodes :: n.nodeId != d
  {
    OldKnowledgeAlongRun(w, numShards, s, more + later, s', d, T);
    forall p | p in s'.net && p.Discovery? ensures forall n | n in p.nodes :: n.nodeId != d {
      NotMentioned(p.nodes, d);
    }
  }
}
