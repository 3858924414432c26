/** A replica's database, a map from list uid to list, and the effect of incoming lists on it. */
module Database {
  import ShoppingItems
  import Maps
  import opened ORSets
  import opened ShoppingLists
  import opened Lattice

  type Db = map<string, List>

  /** A listing of all rows of the database, in any order. */
  ghost predicate Snapshot(lists: seq<List>, db: Db) {
    && |lists| == |db|
    && (forall u | u in db :: db[u] in lists)
    && (forall l | l in lists :: exists u :: u in db && db[u] == l)
  }

  method ReadAll(db: Db) returns (lists: seq<List>)
    ensures Snapshot(lists, db)
  {
    lists := [];
    var rest := db;
    while rest != map[]
      invariant rest.Keys <= db.Keys && |lists| + |rest| == |db|
      invariant forall u | u in rest :: rest[u] == db[u]
      invariant forall u | u in db && u !in rest :: db[u] in lists
      invariant forall l | l in lists :: exists u :: u in db && db[u] == l
      decreases |rest|
    {
      var u :| u in rest;
      lists := lists + [db[u]];
      assert |rest - {u}| == |rest| - 1 by {
        assert (rest - {u}).Keys == rest.Keys - {u};
        assert |rest.Keys - {u}| == |rest.Keys| - 1;
      }
      rest := rest - {u};
    }
  }

  function Written(db: Db, l: List): Db { db[l.uid := l] }

  function ReadOr(db: Db, uid: string): List { if uid in db then db[uid] else EmptyList(uid, "") }

  /** Read, merge, write back: the step for one incoming list. */
  function Ensured(db: Db, incoming: List): Db {
    Written(db, MergedList(ReadOr(db, incoming.uid), incoming))
  }

  /** The loop over the lists of a message. */
  function Applied(db: Db, lists: seq<List>): Db {
    if lists == [] then db else Ensured(Applied(db, lists[..|lists| - 1]), lists[|lists| - 1])
  }

  /** The merge of the i-th list throws when the loop reaches it. */
  predicate ThrowsAt(db: Db, lists: seq<List>, i: nat)
    requires i < |lists|
  {
    !Mergeable(ReadOr(Applied(db, lists[..i]), lists[i].uid).items, lists[i].items)
  }

  ghost predicate AllMerge(db: Db, lists: seq<List>) {
    forall i | 0 <= i < |lists| :: !ThrowsAt(db, lists, i)
  }

  /** The loop over the lists merges the first k: all of them, or those before the first that throws. */
  ghost predicate Stops(db: Db, lists: seq<List>, k: nat) {
    && k <= |lists|
    && (forall i | 0 <= i < k :: !ThrowsAt(db, lists, i))
    && (k < |lists| ==> ThrowsAt(db, lists, k))
  }

  /** The merge of some list threw, and exactly the lists before the first such are applied. */
  ghost predicate AppliedPartly(db: Db, lists: seq<List>, db': Db) {
    exists k | 0 <= k < |lists| :: Stops(db, lists, k) && db' == Applied(db, lists[..k])
  }

  /** The key column of the table is always the uid inside the stored list. */
  ghost predicate Keyed(db: Db) { forall u | u in db :: db[u].uid == u }

  ghost predicate WellFormedDb(db: Db) { Keyed(db) && forall u | u in db :: WellFormed(db[u].items) }

  function CoreAt(db: Db, uid: string): Core { if uid in db then CoreOf(db[uid].items) else BOTTOM }

  /** What a list contributes to the content stored under a uid. */
  function Content(l: List, uid: string): Core { if l.uid == uid then CoreOf(l.items) else BOTTOM }

  /** The join of the message's lists with the given uid. */
  function JoinedLists(lists: seq<List>, uid: string): Core {
    if lists == [] then BOTTOM
    else
      var l := lists[|lists| - 1];
      JoinCore(JoinedLists(lists[..|lists| - 1], uid), Content(l, uid))
  }

  lemma EnsuredAt(db: Db, l: List, uid: string)
    requires Keyed(db)
    ensures Keyed(Ensured(db, l))
    ensures CoreAt(Ensured(db, l), uid) == JoinCore(CoreAt(db, uid), Content(l, uid))
  {
    MergeIsJoin(ReadOr(db, l.uid).items, l.items);
    JoinBottom(CoreAt(db, uid));
    JoinBottom(CoreOf(l.items));
    assert CoreOf(NO_ITEMS) == BOTTOM;
  }

  /** Applying a message is the pointwise join of the database with its lists, even when a uid
      repeats; uids it does not mention are untouched, names included. */
  lemma {:induction false} ApplyIsPointwiseJoin(db: Db, lists: seq<List>, uid: string)
    requires Keyed(db)
    ensures Keyed(Applied(db, lists))
    ensures CoreAt(Applied(db, lists), uid) == JoinCore(CoreAt(db, uid), JoinedLists(lists, uid))
    ensures uid in Applied(db, lists) <==> uid in db || exists l :: l in lists && l.uid == uid
    ensures (forall l | l in lists :: l.uid != uid) && uid in db ==> Applied(db, lists)[uid] == db[uid]
  {
    if lists == [] {
      JoinBottom(CoreAt(db, uid));
    } else {
      var n := |lists| - 1;
      ApplyIsPointwiseJoin(db, lists[..n], uid);
      EnsuredAt(Applied(db, lists[..n]), lists[n], uid);
      JoinCoreAssociative(CoreAt(db, uid), JoinedLists(lists[..n], uid), Content(lists[n], uid));
      assert lists == lists[..n] + [lists[n]];
    }
  }

  /** Deletion leaves no tombstone: a deleted list stays away exactly as long as no incoming list carries its uid. */
  lemma DeletedStaysDeletedIff(db: Db, uid: string, lists: seq<List>)
    requires Keyed(db)
    ensures uid !in Applied(db - {uid}, lists) <==> forall l | l in lists :: l.uid != uid
    ensures CoreAt(Applied(db - {uid}, lists), uid) == JoinedLists(lists, uid)
  {
    ApplyIsPointwiseJoin(db - {uid}, lists, uid);
    JoinBottom(JoinedLists(lists, uid));
  }

  /** A copy still in flight brings the list back, all but its name. */
  lemma DeletedListReturns(db: Db, l: List)
    ensures Applied(db - {l.uid}, [l])[l.uid] == l.(name := "")
  {
    var gone := db - {l.uid};
    assert [l][..0] == [];
    assert Applied(gone, [l]) == Ensured(Applied(gone, []), l);
    Maps.JoinEmpty(ShoppingItems.MergedItem, l.items.elements);
    Maps.JoinEmpty(Maps.Union, l.items.adds);
    Maps.JoinEmpty(Maps.Union, l.items.removes);
  }

  /** JoinedLists is an upper bound of its lists, and below every other. */
  lemma {:induction false} JoinedListsUpper(lists: seq<List>, l: List)
    requires l in lists
    ensures LeqCore(CoreOf(l.items), JoinedLists(lists, l.uid))
  {
    var n := |lists| - 1;
    var rest, last := JoinedLists(lists[..n], l.uid), Content(lists[n], l.uid);
    JoinIsLeastUpperBound(rest, last, BOTTOM);
    if l != lists[n] {
      assert l in lists[..n];
      JoinedListsUpper(lists[..n], l);
      LeqTransitive(CoreOf(l.items), rest, JoinedLists(lists, l.uid));
    }
  }

  lemma {:induction false} JoinedListsLeast(lists: seq<List>, uid: string, c: Core)
    requires forall l | l in lists && l.uid == uid :: LeqCore(CoreOf(l.items), c)
    ensures LeqCore(JoinedLists(lists, uid), c)
  {
    if lists != [] {
      var n := |lists| - 1;
      JoinedListsLeast(lists[..n], uid, c);
      JoinIsLeastUpperBound(JoinedLists(lists[..n], uid), Content(lists[n], uid), c);
    }
  }

  lemma SubsetJoinsBelow(lists: seq<List>, lists': seq<List>, uid: string)
    requires forall l | l in lists :: l in lists'
    ensures LeqCore(JoinedLists(lists, uid), JoinedLists(lists', uid))
  {
    forall l | l in lists && l.uid == uid ensures LeqCore(CoreOf(l.items), JoinedLists(lists', uid)) {
      JoinedListsUpper(lists', l);
    }
    JoinedListsLeast(lists, uid, JoinedLists(lists', uid));
  }

  /** Reordering or repeating the lists of a message changes nothing but names. */
  lemma OrderAndRepetitionIrrelevant(db: Db, lists: seq<List>, lists': seq<List>, uid: string)
    requires Keyed(db)
    requires forall l :: l in lists <==> l in lists'
    ensures CoreAt(Applied(db, lists), uid) == CoreAt(Applied(db, lists'), uid)
    ensures uid in Applied(db, lists) <==> uid in Applied(db, lists')
  {
    ApplyIsPointwiseJoin(db, lists, uid);
    ApplyIsPointwiseJoin(db, lists', uid);
    SubsetJoinsBelow(lists, lists', uid);
    SubsetJoinsBelow(lists', lists, uid);
    LeqAntisymmetric(JoinedLists(lists, uid), JoinedLists(lists', uid));
  }

  /** Two messages in a row act like one with both their lists. */
  lemma {:induction false} AppliedConcat(db: Db, lists: seq<List>, more: seq<List>)
    ensures Applied(db, lists + more) == Applied(Applied(db, lists), more)
  {
    if more == [] {
      assert lists + more == lists;
    } else {
      var n := |more| - 1;
      assert (lists + more)[..|lists + more| - 1] == lists + more[..n];
      AppliedConcat(db, lists, more[..n]);
    }
  }

  lemma {:induction false} ApplyKeepsWellFormed(db: Db, lists: seq<List>)
    requires WellFormedDb(db) && forall l | l in lists :: WellFormed(l.items)
    ensures WellFormedDb(Applied(db, lists))
  {
    if lists != [] {
      var n := |lists| - 1;
      ApplyKeepsWellFormed(db, lists[..n]);
      EnsuredKeepsWellFormed(Applied(db, lists[..n]), lists[n]);
    }
  }

  lemma EnsuredKeepsWellFormed(db: Db, l: List)
    requires WellFormedDb(db) && WellFormed(l.items)
    ensures WellFormedDb(Ensured(db, l)) && Mergeable(ReadOr(db, l.uid).items, l.items)
  {
    EmptyWellFormed();
    MergeKeepsWellFormed(ReadOr(db, l.uid).items, l.items);
  }

  /** On well-formed data no merge throws. */
  lemma NothingThrows(db: Db, lists: seq<List>)
    requires WellFormedDb(db) && forall l | l in lists :: WellFormed(l.items)
    ensures AllMerge(db, lists)
  {
    forall i | 0 <= i < |lists| ensures !ThrowsAt(db, lists, i) {
      ApplyKeepsWellFormed(db, lists[..i]);
      EnsuredKeepsWellFormed(Applied(db, lists[..i]), lists[i]);
    }
  }
}
