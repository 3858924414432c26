/** The node-level systems are runs of the replication protocol: a gossip schedule and a run of the
    cluster each do to the databases what some sends and deliveries do. */
module Refinement {
  import Util
  import Database
  import opened ShoppingLists
  import Messages
  import Nodes
  import opened Replication
  import opened Convergence
  import Dissemination
  import Membership
  import Clusters

  /** Packets in flight carry exactly these lists, in this order. */
  ghost predicate InFlight(s: State, lists: seq<List>) {
    exists ks: seq<nat> :: Carries(s, ks, lists)
  }

  ghost predicate Carries(s: State, ks: seq<nat>, lists: seq<List>) {
    |ks| == |lists| && forall i | 0 <= i < |ks| :: ks[i] < |s.net| && s.net[ks[i]].list == lists[i]
  }

  /** From s the labels lead to s', which has lost no packet. */
  ghost predicate LeadsTo(labels: seq<Label>, s: State, labels': seq<Label>, s': State) {
    Reached(labels, s) && Reached(labels', s') && labels <= labels' && s.net <= s'.net
  }

  lemma StaysInFlight(s: State, s': State, lists: seq<List>)
    requires InFlight(s, lists) && s.net <= s'.net
    ensures InFlight(s', lists)
  {
    var ks :| Carries(s, ks, lists);
    assert Carries(s', ks, lists);
  }

  lemma Step(labels: seq<Label>, s: State, a: Label)
    requires Reached(labels, s) && Enabled(s, a)
    ensures LeadsTo(labels, s, labels + [a], Next(s, a))
  {
    assert (labels + [a])[..|labels|] == labels;
  }

  /** Sending lists of a replica one by one puts them all in flight and changes no database. */
  lemma SendAll(labels: seq<Label>, s: State, r: Replica, lists: seq<List>)
    returns (labels': seq<Label>, s': State, ks: seq<nat>)
    requires Reached(labels, s) && forall l | l in lists :: l.uid in DbOf(s, r) && DbOf(s, r)[l.uid] == l
    ensures LeadsTo(labels, s, labels', s') && s'.dbs == s.dbs && Carries(s', ks, lists)
  {
    if lists == [] {
      labels', s', ks := labels, s, [];
    } else {
      var n := |lists| - 1;
      var l1, s1, ks1 := SendAll(labels, s, r, lists[..n]);
      var a := Send(r, lists[n].uid);
      assert lists[n] in lists;
      Step(l1, s1, a);
      labels', s', ks := l1 + [a], Next(s1, a), ks1 + [|s1.net|];
    }
  }

  /** A snapshot of a server's database can be sent. */
  lemma SendSnapshot(labels: seq<Label>, s: State, id: string, lists: seq<List>)
    returns (labels': seq<Label>, s': State)
    requires Reached(labels, s) && Database.Snapshot(lists, DbOf(s, Server(id)))
    ensures LeadsTo(labels, s, labels', s') && s'.dbs == s.dbs && InFlight(s', lists)
  {
    ReachedInv(labels, s);
    forall l | l in lists ensures l.uid in DbOf(s, Server(id)) && DbOf(s, Server(id))[l.uid] == l {
      var u :| u in DbOf(s, Server(id)) && DbOf(s, Server(id))[u] == l;
      assert GoodAt(s, Server(id), u);
    }
    var ks;
    labels', s', ks := SendAll(labels, s, Server(id), lists);
  }

  /** Lists in flight can be delivered to a server. */
  lemma DeliverLists(labels: seq<Label>, s: State, id: string, lists: seq<List>)
    returns (labels': seq<Label>, s': State)
    requires Reached(labels, s) && InFlight(s, lists)
    ensures LeadsTo(labels, s, labels', s')
    ensures s'.dbs == s.dbs[Server(id) := Database.Applied(DbOf(s, Server(id)), lists)]
  {
    var ks :| Carries(s, ks, lists);
    var a := Deliver(id, ks);
    assert ListsOf(Picked(s.net, ks)) == lists;
    Step(labels, s, a);
    labels', s' := labels + [a], Next(s, a);
  }

  /* ---- gossip schedules ---- */

  ghost predicate SameNodes(dbs: Dissemination.Cluster, s: State) {
    forall j | j in dbs :: DbOf(s, Server(j)) == dbs[j]
  }

  ghost predicate PushesInFlight(sched: seq<Dissemination.Hop>, s: State) {
    forall p | 0 <= p < |sched| && sched[p].Push? :: InFlight(s, sched[p].lists)
  }

  lemma HopIsRun(labels: seq<Label>, s: State, sched: seq<Dissemination.Hop>, dbs: Dissemination.Cluster,
                 h: Dissemination.Hop)
    returns (labels': seq<Label>, s': State)
    requires Reached(labels, s) && SameNodes(dbs, s) && PushesInFlight(sched, s) && Dissemination.Allowed(sched, dbs, h)
    ensures LeadsTo(labels, s, labels', s')
    ensures SameNodes(Dissemination.After(sched, dbs, h), s') && PushesInFlight(sched + [h], s')
  {
    match h {
      case Push(from, lists) => labels', s' := SendSnapshot(labels, s, from, lists);
      case Pull(push, to) => labels', s' := DeliverLists(labels, s, to, sched[push].lists);
    }
    forall p | 0 <= p < |sched + [h]| && (sched + [h])[p].Push? ensures InFlight(s', (sched + [h])[p].lists) {
      if p < |sched| { StaysInFlight(s, s', sched[p].lists); }
    }
  }

  /** From any reachable state, any gossip schedule of its nodes is a continuation of the run. */
  lemma {:induction false} ScheduleIsRun(labels: seq<Label>, s: State, init: Dissemination.Cluster,
                                         sched: seq<Dissemination.Hop>, dbs: Dissemination.Cluster)
    returns (labels': seq<Label>, s': State)
    requires Reached(labels, s) && SameNodes(init, s) && Dissemination.Exec(init, sched) == Util.Some(dbs)
    ensures LeadsTo(labels, s, labels', s') && SameNodes(dbs, s') && PushesInFlight(sched, s')
  {
    if sched == [] {
      labels', s' := labels, s;
    } else {
      var n := |sched| - 1;
      var mid := Dissemination.Exec(init, sched[..n]).value;
      var l1, s1 := ScheduleIsRun(labels, s, init, sched[..n], mid);
      labels', s' := HopIsRun(l1, s1, sched[..n], mid, sched[n]);
      assert sched == sched[..n] + [sched[n]];
    }
  }

  /* ---- runs of the cluster ---- */

  ghost predicate SameDbs(c: Clusters.State, s: State) {
    forall id :: Clusters.DbOf(c, id) == DbOf(s, Server(id))
  }

  /** The nodes store the same, and every list message of the cluster is in flight. */
  ghost predicate Matches(c: Clusters.State, s: State) {
    SameDbs(c, s) && forall p | p in c.net && p.Lists? :: InFlight(s, p.lists)
  }

  /** Whatever a request asks a node to merge is in flight: it comes from some replica. */
  ghost predicate Sent(s: State, a: Clusters.Label) {
    a.Request? && |a.m.lists| > 0 ==> InFlight(s, Nodes.MergedLists(a.m))
  }

  lemma PrefixInFlight(s: State, lists: seq<List>, k: nat)
    requires InFlight(s, lists) && k <= |lists|
    ensures InFlight(s, lists[..k])
  {
    var ks :| Carries(s, ks, lists);
    assert Carries(s, ks[..k], lists[..k]);
  }

  /** What a request does to a database is a delivery, a deletion or nothing. */
  lemma RequestIsRun(cfg: Membership.Config, id: string, m: Messages.Message, k: nat, labels: seq<Label>, s: State)
    returns (labels': seq<Label>, s': State)
    requires Reached(labels, s) && cfg.numShards > 0 && |m.lists| > 0 && k <= |Nodes.MergedLists(m)|
    requires InFlight(s, Nodes.MergedLists(m))
    ensures LeadsTo(labels, s, labels', s')
    ensures DbOf(s', Server(id)) == Nodes.AfterRequest(cfg, DbOf(s, Server(id)), m, k)
    ensures forall r | r != Server(id) :: DbOf(s', r) == DbOf(s, r)
  {
    if !Nodes.Accepted(cfg, m) {
      labels', s' := labels, s;
    } else if m.op == Messages.DELETE_LIST {
      var d := Delete(Server(id), m.lists[0].uid);
      Step(labels, s, d);
      labels', s' := labels + [d], Next(s, d);
    } else {
      PrefixInFlight(s, Nodes.MergedLists(m), k);
      labels', s' := DeliverLists(labels, s, id, Nodes.MergedLists(m)[..k]);
    }
  }

  lemma MembershipKeepsDbs(w: Clusters.Configs, c: Clusters.State, a: Clusters.Label)
    requires Clusters.Enabled(w, c, a) && !a.Request? && !a.Store?
    ensures Clusters.Next(w, c, a).dbs == c.dbs
  {
  }

  /** One database changed, the same way on both sides. */
  lemma OneDbChanged(c: Clusters.State, s: State, c': Clusters.State, s': State, id: string)
    requires SameDbs(c, s) && id in c'.dbs && c'.dbs == c.dbs[id := c'.dbs[id]]
    requires DbOf(s', Server(id)) == c'.dbs[id] && forall r | r != Server(id) :: DbOf(s', r) == DbOf(s, r)
    ensures SameDbs(c', s')
  {
    forall k ensures Clusters.DbOf(c', k) == DbOf(s', Server(k)) {
      assert Clusters.DbOf(c, k) == DbOf(s, Server(k));
    }
  }

  lemma ChangesOne(w: Clusters.Configs, c: Clusters.State, a: Clusters.Label)
    requires Clusters.Enabled(w, c, a) && (a.Request? || a.Store?)
    ensures var c' := Clusters.Next(w, c, a);
      && a.id in c'.dbs && c'.dbs == c.dbs[a.id := c'.dbs[a.id]]
      && c'.dbs[a.id] ==
        if a.Request? then Nodes.AfterRequest(w[a.id], Clusters.DbOf(c, a.id), a.m, a.merged)
        else Database.Applied(Clusters.DbOf(c, a.id), a.packet.lists[..a.merged])
  {
  }

  lemma WriteIsRun(w: Clusters.Configs, c: Clusters.State, a: Clusters.Label, labels: seq<Label>, s: State)
    returns (labels': seq<Label>, s': State)
    requires Reached(labels, s) && Matches(c, s) && Clusters.Enabled(w, c, a) && Sent(s, a)
    requires a.Request? || a.Store?
    ensures LeadsTo(labels, s, labels', s') && SameDbs(Clusters.Next(w, c, a), s')
  {
    assert Clusters.DbOf(c, a.id) == DbOf(s, Server(a.id));
    ChangesOne(w, c, a);
    if a.Request? {
      labels', s' := RequestIsRun(w[a.id], a.id, a.m, a.merged, labels, s);
    } else {
      PrefixInFlight(s, a.packet.lists, a.merged);
      labels', s' := DeliverLists(labels, s, a.id, a.packet.lists[..a.merged]);
    }
    OneDbChanged(c, s, Clusters.Next(w, c, a), s', a.id);
  }

  /** Every step of the cluster does to the databases what some steps of the protocol do: gossip
      sends, storing delivers, and the membership steps do nothing. */
  lemma ClusterStepIsRun(w: Clusters.Configs, c: Clusters.State, a: Clusters.Label, labels: seq<Label>, s: State)
    returns (labels': seq<Label>, s': State)
    requires Reached(labels, s) && Matches(c, s) && Clusters.Enabled(w, c, a) && Sent(s, a)
    ensures LeadsTo(labels, s, labels', s') && Matches(Clusters.Next(w, c, a), s')
  {
    if a.Request? || a.Store? {
      labels', s' := WriteIsRun(w, c, a, labels, s);
    } else {
      MembershipKeepsDbs(w, c, a);
      labels', s' := labels, s;
      if a.Gossip? {
        assert Clusters.DbOf(c, a.id) == DbOf(s, Server(a.id));
        labels', s' := SendSnapshot(labels, s, a.id, a.lists);
      }
    }
    StepInFlight(w, c, a, s, s');
  }

  lemma StepInFlight(w: Clusters.Configs, c: Clusters.State, a: Clusters.Label, s: State, s': State)
    requires Matches(c, s) && Clusters.Enabled(w, c, a) && s.net <= s'.net && (a.Gossip? ==> InFlight(s', a.lists))
    ensures forall p | p in Clusters.Next(w, c, a).net && p.Lists? :: InFlight(s', p.lists)
  {
    forall p | p in Clusters.Next(w, c, a).net && p.Lists? ensures InFlight(s', p.lists) {
      if p in c.net { StaysInFlight(s, s', p.lists); }
    }
  }

  /** So every run of the cluster whose requests carry lists that were in flight is matched by a run
      of the protocol. */
  lemma {:induction false} ClusterRunIsRun(w: Clusters.Configs, c: Clusters.State, more: seq<Clusters.Label>,
                                           c': Clusters.State, labels: seq<Label>, s: State)
    returns (labels': seq<Label>, s': State)
    requires Reached(labels, s) && Matches(c, s) && Clusters.Run(w, c, more) == Util.Some(c')
    requires forall a | a in more :: Sent(s, a)
    ensures LeadsTo(labels, s, labels', s') && Matches(c', s')
  {
    if more == [] {
      labels', s' := labels, s;
    } else {
      var n := |more| - 1;
      var mid, a := Clusters.Run(w, c, more[..n]).value, more[n];
      var l1, s1 := ClusterRunIsRun(w, c, more[..n], mid, labels, s);
      assert a in more;
      if a.Request? && |a.m.lists| > 0 { StaysInFlight(s, s1, Nodes.MergedLists(a.m)); }
      labels', s' := ClusterStepIsRun(w, mid, a, l1, s1);
    }
  }

  lemma InFlightMerges(labels: seq<Label>, s: State, id: string, lists: seq<List>)
    requires Reached(labels, s) && InFlight(s, lists)
    ensures Database.WellFormedDb(DbOf(s, Server(id))) && Database.AllMerge(DbOf(s, Server(id)), lists)
  {
    var ks :| Carries(s, ks, lists);
    assert ListsOf(Picked(s.net, ks)) == lists;
    NoMergeThrows(labels, s, Server(id), ks);
  }

  /** What holds of the protocol then holds of the cluster: its nodes store well-formed lists, and
      no step that is possible now ends a node with an exception. */
  lemma ClusterNeverFails(w: Clusters.Configs, c: Clusters.State, more: seq<Clusters.Label>, c': Clusters.State,
                          labels: seq<Label>, s: State, a: Clusters.Label, id: string)
    requires Reached(labels, s) && Matches(c, s) && Clusters.Run(w, c, more) == Util.Some(c')
    requires forall b | b in more + [a] :: Sent(s, b)
    requires Clusters.Enabled(w, c', a)
    ensures Database.WellFormedDb(Clusters.DbOf(c', id)) && !Clusters.Fails(w, a)
  {
    var labels', s' := ClusterRunIsRun(w, c, more, c', labels, s);
    assert Clusters.DbOf(c', id) == DbOf(s', Server(id));
    assert Carries(s', [], []);
    InFlightMerges(labels', s', id, []);
    if a.Request? || a.Store? {
      assert a in more + [a] && Clusters.DbOf(c', a.id) == DbOf(s', Server(a.id));
      var lists := if a.Request? then Nodes.MergedLists(a.m) else a.packet.lists;
      if a.Request? { StaysInFlight(s, s', lists); }
      InFlightMerges(labels', s', a.id, lists);
    }
  }
}
