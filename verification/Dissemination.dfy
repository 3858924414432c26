/** Gossip among the nodes of one shard without new updates: whose initial content ends up where. */
module Dissemination {
  import ShoppingLists
  import ORSets
  import Util
  import opened Lattice
  import opened Database

  /** A node pushes a snapshot of its whole database; later a node, any number of times, pulls it. */
  datatype Hop = Push(from: string, lists: seq<ShoppingLists.List>) | Pull(push: nat, to: string)

  type Cluster = map<string, Db>

  ghost predicate Allowed(sched: seq<Hop>, dbs: Cluster, h: Hop) {
    match h
    case Push(from, lists) => from in dbs && Snapshot(lists, dbs[from])
    case Pull(push, to) => to in dbs && push < |sched| && sched[push].Push? && AllMerge(dbs[to], sched[push].lists)
  }

  function After(sched: seq<Hop>, dbs: Cluster, h: Hop): Cluster
    requires h.Pull? ==> h.to in dbs && h.push < |sched| && sched[h.push].Push?
  {
    match h
    case Push(_, _) => dbs
    case Pull(push, to) => dbs[to := Applied(dbs[to], sched[push].lists)]
  }

  /** The databases after a schedule, if every hop was allowed when it was taken. */
  ghost function Exec(init: Cluster, sched: seq<Hop>): Util.Option<Cluster> {
    if sched == [] then Util.Some(init)
    else
      var before, past, h := Exec(init, sched[..|sched| - 1]), sched[..|sched| - 1], sched[|sched| - 1];
      if before.Some? && Allowed(past, before.value, h) then Util.Some(After(past, before.value, h)) else Util.None
  }

  datatype Leg = Leg(push: nat, pull: nat)

  /** A time-respecting path from i to j within the first n hops: each leg pushes at the node
      the path has reached, after reaching it, and is pulled later. */
  predicate IsPath(sched: seq<Hop>, n: nat, path: seq<Leg>, i: string, j: string)
    requires n <= |sched|
    decreases |path|
  {
    if path == [] then i == j
    else
      var last := path[|path| - 1];
      && last.push < last.pull < n
      && sched[last.push].Push?
      && sched[last.pull] == Pull(last.push, j)
      && IsPath(sched, last.push, path[..|path| - 1], i, sched[last.push].from)
  }

  ghost predicate Reaches(sched: seq<Hop>, n: nat, i: string, j: string)
    requires n <= |sched|
  {
    exists path :: IsPath(sched, n, path, i, j)
  }

  /** c is the join of the initial contents of the nodes that reach j, and `present` says whether
      any of them stores the list. */
  ghost predicate IsJoinOfReaching(init: Cluster, sched: seq<Hop>, n: nat, j: string, uid: string, c: Core,
      present: bool)
    requires n <= |sched|
  {
    && (forall i | i in init && Reaches(sched, n, i, j) :: LeqCore(CoreAt(init[i], uid), c))
    && (forall d | IsUpperBound(init, sched, n, j, uid, d) :: LeqCore(c, d))
    && (present <==> exists i :: i in init && Reaches(sched, n, i, j) && uid in init[i])
  }

  ghost predicate IsUpperBound(init: Cluster, sched: seq<Hop>, n: nat, j: string, uid: string, d: Core)
    requires n <= |sched|
  {
    forall i | i in init && Reaches(sched, n, i, j) :: LeqCore(CoreAt(init[i], uid), d)
  }

  ghost predicate KeyedCluster(dbs: Cluster) { forall j | j in dbs :: Keyed(dbs[j]) }

  /** A snapshot joins to the content of the database it lists. */
  lemma SnapshotContent(lists: seq<ShoppingLists.List>, db: Db, uid: string)
    requires Keyed(db) && Snapshot(lists, db)
    ensures JoinedLists(lists, uid) == CoreAt(db, uid)
    ensures Mentions(lists, uid) <==> uid in db
  {
    forall l | l in lists && l.uid == uid ensures uid in db && l == db[uid] {}
    if uid in db {
      assert db[uid] in lists && db[uid].uid == uid;
      JoinedListsUpper(lists, db[uid]);
      LeqReflexive(CoreAt(db, uid));
    }
    JoinedListsLeast(lists, uid, CoreAt(db, uid));
    if uid !in db { LeqBottom(JoinedLists(lists, uid)); }
    LeqAntisymmetric(JoinedLists(lists, uid), CoreAt(db, uid));
  }

  lemma LeqBottom(c: Core)
    ensures LeqCore(BOTTOM, c)
  {
  }

  /** Paths do not depend on later hops, and stay paths when more time is allowed. */
  lemma {:induction false} PathLater(sched: seq<Hop>, h: Hop, n: nat, m: nat, path: seq<Leg>, i: string, j: string)
    requires n <= |sched| && n <= m <= |sched| + 1
    ensures IsPath(sched + [h], n, path, i, j) <==> IsPath(sched, n, path, i, j)
    ensures IsPath(sched, n, path, i, j) ==> IsPath(sched + [h], m, path, i, j)
    decreases |path|
  {
    if path != [] {
      var last := path[|path| - 1];
      if last.push < last.pull < n && sched[last.push].Push? {
        PathLater(sched, h, last.push, last.push, path[..|path| - 1], i, sched[last.push].from);
      }
    }
  }

  lemma ReachesLater(sched: seq<Hop>, h: Hop, n: nat, i: string, j: string)
    requires n <= |sched|
    ensures Reaches(sched + [h], n, i, j) <==> Reaches(sched, n, i, j)
    ensures Reaches(sched, n, i, j) ==> Reaches(sched + [h], |sched| + 1, i, j)
  {
    if path: seq<Leg> :| IsPath(sched + [h], n, path, i, j) {
      PathLater(sched, h, n, n, path, i, j);
    }
    if path: seq<Leg> :| IsPath(sched, n, path, i, j) {
      PathLater(sched, h, n, n, path, i, j);
      PathLater(sched, h, n, |sched| + 1, path, i, j);
    }
  }

  /** The hop is a pull at j of an earlier push. */
  predicate PullsAt(sched: seq<Hop>, h: Hop, j: string) {
    h.Pull? && h.to == j && h.push < |sched| && sched[h.push].Push?
  }

  /** One more hop: only a pull at j opens new paths to j, through the node that pushed. */
  lemma ReachesStep(sched: seq<Hop>, h: Hop, i: string, j: string)
    ensures Reaches(sched + [h], |sched| + 1, i, j) <==>
      || Reaches(sched, |sched|, i, j)
      || (PullsAt(sched, h, j) && Reaches(sched, h.push, i, sched[h.push].from))
  {
    ReachesLater(sched, h, |sched|, i, j);
    var sched', m := sched + [h], |sched| + 1;
    if path: seq<Leg> :| IsPath(sched', m, path, i, j) {
      if path == [] || path[|path| - 1].pull < |sched| {
        assert IsPath(sched + [h], |sched|, path, i, j);
      } else {
        var last := path[|path| - 1];
        PathLater(sched, h, last.push, last.push, path[..|path| - 1], i, sched[last.push].from);
      }
    }
    if PullsAt(sched, h, j) && Reaches(sched, h.push, i, sched[h.push].from) {
      var path :| IsPath(sched, h.push, path, i, sched[h.push].from);
      PathLater(sched, h, h.push, h.push, path, i, sched[h.push].from);
      var longer := path + [Leg(h.push, |sched|)];
      assert longer[..|longer| - 1] == path;
      assert IsPath(sched + [h], |sched| + 1, longer, i, j);
    }
  }

  /** If the same nodes reach, the same join is meant. */
  lemma SameReach(init: Cluster, sched: seq<Hop>, n: nat, j: string, sched': seq<Hop>, n': nat, j': string,
                  uid: string, c: Core, present: bool)
    requires n <= |sched| && n' <= |sched'| && IsJoinOfReaching(init, sched, n, j, uid, c, present)
    requires forall i :: Reaches(sched, n, i, j) <==> Reaches(sched', n', i, j')
    ensures IsJoinOfReaching(init, sched', n', j', uid, c, present)
  {
    forall d | IsUpperBound(init, sched', n', j', uid, d) ensures LeqCore(c, d) {
      assert IsUpperBound(init, sched, n, j, uid, d);
    }
  }

  /** A pull joins the content of both sides. */
  lemma PullJoins(init: Cluster, sched: seq<Hop>, h: Hop, uid: string, c: Core, present: bool, c': Core, present': bool)
    requires h.Pull? && h.push < |sched| && sched[h.push].Push?
    requires IsJoinOfReaching(init, sched, |sched|, h.to, uid, c, present)
    requires IsJoinOfReaching(init, sched, h.push, sched[h.push].from, uid, c', present')
    ensures IsJoinOfReaching(init, sched + [h], |sched| + 1, h.to, uid, JoinCore(c, c'), present || present')
  {
    var sched', m, j := sched + [h], |sched| + 1, h.to;
    forall i ensures Reaches(sched', m, i, j) <==>
      Reaches(sched, |sched|, i, j) || Reaches(sched, h.push, i, sched[h.push].from)
    {
      ReachesStep(sched, h, i, j);
    }
    JoinIsLeastUpperBound(c, c', c);
    forall i | i in init && Reaches(sched', m, i, j) ensures LeqCore(CoreAt(init[i], uid), JoinCore(c, c')) {
      LeqTransitive(CoreAt(init[i], uid), if Reaches(sched, |sched|, i, j) then c else c', JoinCore(c, c'));
    }
    forall d | IsUpperBound(init, sched', m, j, uid, d) ensures LeqCore(JoinCore(c, c'), d) {
      assert IsUpperBound(init, sched, |sched|, j, uid, d);
      assert IsUpperBound(init, sched, h.push, sched[h.push].from, uid, d);
      JoinIsLeastUpperBound(c, c', d);
    }
  }

  ghost predicate Spread(init: Cluster, sched: seq<Hop>, dbs: Cluster, uid: string) {
    && dbs.Keys == init.Keys && KeyedCluster(dbs)
    && (forall j | j in dbs :: GoodNode(init, sched, dbs[j], j, uid))
    && (forall p | 0 <= p < |sched| && sched[p].Push? :: GoodPush(init, sched, p, uid))
  }

  ghost predicate GoodNode(init: Cluster, sched: seq<Hop>, db: Db, j: string, uid: string) {
    IsJoinOfReaching(init, sched, |sched|, j, uid, CoreAt(db, uid), uid in db)
  }

  ghost predicate GoodPush(init: Cluster, sched: seq<Hop>, p: nat, uid: string)
    requires p < |sched| && sched[p].Push?
  {
    var lists := sched[p].lists;
    IsJoinOfReaching(init, sched, p, sched[p].from, uid, JoinedLists(lists, uid), Mentions(lists, uid))
  }

  predicate Mentions(lists: seq<ShoppingLists.List>, uid: string) { exists l :: l in lists && l.uid == uid }

  lemma SpreadStart(init: Cluster, uid: string)
    requires KeyedCluster(init)
    ensures Spread(init, [], init, uid)
  {
    forall j | j in init ensures GoodNode(init, [], init[j], j, uid) {
      assert IsPath([], 0, [], j, j);
      assert forall i | Reaches([], 0, i, j) :: i == j;
      LeqReflexive(CoreAt(init[j], uid));
    }
  }

  lemma OldPushStaysGood(init: Cluster, sched: seq<Hop>, h: Hop, uid: string, p: nat)
    requires p < |sched| && sched[p].Push? && GoodPush(init, sched, p, uid)
    ensures GoodPush(init, sched + [h], p, uid)
  {
    forall i ensures Reaches(sched, p, i, sched[p].from) <==> Reaches(sched + [h], p, i, sched[p].from) {
      ReachesLater(sched, h, p, i, sched[p].from);
    }
    SameReach(init, sched, p, sched[p].from, sched + [h], p, sched[p].from, uid,
              JoinedLists(sched[p].lists, uid), Mentions(sched[p].lists, uid));
  }

  lemma NewPushIsGood(init: Cluster, sched: seq<Hop>, h: Hop, db: Db, uid: string)
    requires h.Push? && Keyed(db) && Snapshot(h.lists, db) && GoodNode(init, sched, db, h.from, uid)
    ensures GoodPush(init, sched + [h], |sched|, uid)
  {
    SnapshotContent(h.lists, db, uid);
    forall i ensures Reaches(sched, |sched|, i, h.from) <==> Reaches(sched + [h], |sched|, i, h.from) {
      ReachesLater(sched, h, |sched|, i, h.from);
    }
    SameReach(init, sched, |sched|, h.from, sched + [h], |sched|, h.from, uid, CoreAt(db, uid), uid in db);
  }

  lemma PullerIsGood(init: Cluster, sched: seq<Hop>, h: Hop, db: Db, uid: string)
    requires h.Pull? && h.push < |sched| && sched[h.push].Push? && Keyed(db)
    requires GoodNode(init, sched, db, h.to, uid) && GoodPush(init, sched, h.push, uid)
    ensures var db' := Applied(db, sched[h.push].lists);
      Keyed(db') && GoodNode(init, sched + [h], db', h.to, uid)
  {
    var lists := sched[h.push].lists;
    ApplyIsPointwiseJoin(db, lists, uid);
    PullJoins(init, sched, h, uid, CoreAt(db, uid), uid in db, JoinedLists(lists, uid), Mentions(lists, uid));
  }

  lemma BystanderStaysGood(init: Cluster, sched: seq<Hop>, h: Hop, db: Db, j: string, uid: string)
    requires GoodNode(init, sched, db, j, uid) && !(h.Pull? && h.to == j)
    ensures GoodNode(init, sched + [h], db, j, uid)
  {
    forall i ensures Reaches(sched, |sched|, i, j) <==> Reaches(sched + [h], |sched| + 1, i, j) {
      ReachesStep(sched, h, i, j);
    }
    SameReach(init, sched, |sched|, j, sched + [h], |sched| + 1, j, uid, CoreAt(db, uid), uid in db);
  }

  lemma StepNode(init: Cluster, sched: seq<Hop>, dbs: Cluster, h: Hop, uid: string, j: string)
    requires Allowed(sched, dbs, h) && j in dbs && Keyed(dbs[j]) && GoodNode(init, sched, dbs[j], j, uid)
    requires h.Pull? ==> GoodPush(init, sched, h.push, uid)
    ensures Keyed(After(sched, dbs, h)[j]) && GoodNode(init, sched + [h], After(sched, dbs, h)[j], j, uid)
  {
    if h.Pull? && h.to == j {
      PullerIsGood(init, sched, h, dbs[j], uid);
    } else {
      BystanderStaysGood(init, sched, h, dbs[j], j, uid);
    }
  }

  lemma StepPush(init: Cluster, sched: seq<Hop>, dbs: Cluster, h: Hop, uid: string, p: nat)
    requires Spread(init, sched, dbs, uid) && Allowed(sched, dbs, h)
    requires p < |sched + [h]| && (sched + [h])[p].Push?
    ensures GoodPush(init, sched + [h], p, uid)
  {
    if p < |sched| {
      OldPushStaysGood(init, sched, h, uid, p);
    } else {
      NewPushIsGood(init, sched, h, dbs[h.from], uid);
    }
  }

  lemma SpreadStep(init: Cluster, sched: seq<Hop>, dbs: Cluster, h: Hop, uid: string)
    requires Spread(init, sched, dbs, uid) && Allowed(sched, dbs, h)
    ensures Spread(init, sched + [h], After(sched, dbs, h), uid)
  {
    forall j | j in After(sched, dbs, h)
      ensures Keyed(After(sched, dbs, h)[j]) && GoodNode(init, sched + [h], After(sched, dbs, h)[j], j, uid)
    {
      StepNode(init, sched, dbs, h, uid, j);
    }
    forall p | 0 <= p < |sched + [h]| && (sched + [h])[p].Push? ensures GoodPush(init, sched + [h], p, uid) {
      StepPush(init, sched, dbs, h, uid, p);
    }
  }

  lemma {:induction false} SpreadAlways(init: Cluster, sched: seq<Hop>, uid: string)
    requires KeyedCluster(init)
    ensures Exec(init, sched).Some? ==> Spread(init, sched, Exec(init, sched).value, uid)
  {
    if sched == [] {
      SpreadStart(init, uid);
    } else {
      var past, h := sched[..|sched| - 1], sched[|sched| - 1];
      SpreadAlways(init, past, uid);
      assert sched == past + [h];
      if Exec(init, sched).Some? {
        SpreadStep(init, past, Exec(init, past).value, h, uid);
      }
    }
  }

  /** After any schedule node j stores a list exactly when some node that reaches j stored it, and
      its content is the join of the initial contents of exactly the nodes that reach j. */
  lemma ContentSpreadsAlongPaths(init: Cluster, sched: seq<Hop>, dbs: Cluster, j: string, uid: string)
    requires KeyedCluster(init) && Exec(init, sched) == Util.Some(dbs) && j in init
    ensures j in dbs && IsJoinOfReaching(init, sched, |sched|, j, uid, CoreAt(dbs[j], uid), uid in dbs[j])
  {
    SpreadAlways(init, sched, uid);
  }

  /** Nodes reached by the same nodes end up with the same content: in particular all nodes, if
      every node reaches every other. */
  lemma EquallyReachedNodesAgree(init: Cluster, sched: seq<Hop>, dbs: Cluster, j: string, k: string, uid: string)
    requires KeyedCluster(init) && Exec(init, sched) == Util.Some(dbs) && j in init && k in init
    requires forall i | i in init :: Reaches(sched, |sched|, i, j) <==> Reaches(sched, |sched|, i, k)
    ensures j in dbs && k in dbs && CoreAt(dbs[j], uid) == CoreAt(dbs[k], uid) && (uid in dbs[j] <==> uid in dbs[k])
  {
    SpreadAlways(init, sched, uid);
    assert IsUpperBound(init, sched, |sched|, j, uid, CoreAt(dbs[k], uid));
    assert IsUpperBound(init, sched, |sched|, k, uid, CoreAt(dbs[j], uid));
    LeqAntisymmetric(CoreAt(dbs[j], uid), CoreAt(dbs[k], uid));
  }

  /* ---- pulls of well-formed lists never throw ---- */

  ghost predicate AllWellFormed(sched: seq<Hop>, dbs: Cluster) {
    && (forall j | j in dbs :: WellFormedDb(dbs[j]))
    && (forall p | 0 <= p < |sched| && sched[p].Push? :: WellFormedLists(sched[p].lists))
  }

  ghost predicate WellFormedLists(lists: seq<ShoppingLists.List>) {
    forall l | l in lists :: ORSets.WellFormed(l.items)
  }

  lemma HopKeepsWellFormed(sched: seq<Hop>, dbs: Cluster, h: Hop)
    requires AllWellFormed(sched, dbs) && Allowed(sched, dbs, h)
    ensures AllWellFormed(sched + [h], After(sched, dbs, h))
  {
    match h
    case Push(from, lists) =>
      forall l | l in lists ensures ORSets.WellFormed(l.items) {
        var u :| u in dbs[from] && dbs[from][u] == l;
      }
    case Pull(push, to) =>
      ApplyKeepsWellFormed(dbs[to], sched[push].lists);
  }

  lemma {:induction false} WellFormedAlways(init: Cluster, sched: seq<Hop>)
    requires AllWellFormed([], init)
    ensures Exec(init, sched).Some? ==> AllWellFormed(sched, Exec(init, sched).value)
  {
    if sched != [] {
      var past, h := sched[..|sched| - 1], sched[|sched| - 1];
      WellFormedAlways(init, past);
      assert sched == past + [h];
      if Exec(init, sched).Some? { HopKeepsWellFormed(past, Exec(init, past).value, h); }
    }
  }

  /** From well-formed databases every pull of an earlier push, at any time, is allowed. */
  lemma PullsNeverThrow(init: Cluster, sched: seq<Hop>, dbs: Cluster, push: nat, to: string)
    requires AllWellFormed([], init) && Exec(init, sched) == Util.Some(dbs)
    requires to in dbs && push < |sched| && sched[push].Push?
    ensures Allowed(sched, dbs, Pull(push, to))
  {
    WellFormedAlways(init, sched);
    NothingThrows(dbs[to], sched[push].lists);
  }
}
