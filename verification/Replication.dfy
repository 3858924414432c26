/** Clients and nodes exchanging snapshots of lists over a network that loses, repeats and
    reorders them, as a transition system over every replica's database. */
module Replication {
  import opened Util
  import opened Maps
  import opened PNCounters
  import opened ShoppingItems
  import opened ORSets
  import opened ShoppingLists
  import opened Lattice
  import opened Database
  import opened Api

  datatype Replica = Client(origin: string) | Server(id: string)

  datatype Cell = DesiredUp | DesiredDown | CurrentUp | CurrentDown

  datatype Amounts = Amounts(desiredUp: nat, desiredDown: nat, currentUp: nat, currentDown: nat)

  /** What a client did: put an item (an add or an update) or remove one. `observed` are the events
      its copy of the list had seen, `entries` the client's own counter entries afterwards, and
      `amounts` what it added to them. */
  datatype Event =
    | Put(list: string, item: string, tag: string, origin: string, entries: Quantities, amounts: Amounts,
          observed: set<nat>)
    | Remove(list: string, item: string, tags: set<string>, observed: set<nat>)

  /** A snapshot of one list in flight. A message of several lists is several packets. */
  datatype Packet = Packet(list: List, seen: set<nat>)

  /** `dbs` and `net` are the system; `log` and `seen` only record its history: `log` all client
      events so far, `seen` which of them each copy of a list has incorporated. */
  datatype State = State(
    dbs: map<Replica, Db>,
    net: seq<Packet>,
    log: seq<Event>,
    seen: SeenMap)

  const INIT := State(map[], [], [], map[])

  datatype Label =
    | Create(origin: string, list: string, name: string)
    | Add(origin: string, list: string, item: string, name: string, desired: int, current: int, tag: string)
    | Update(origin: string, list: string, item: string, name: string, desired: int, current: int, tag: string)
    | Discard(origin: string, list: string, item: string)
    | Delete(replica: Replica, list: string)
    | Send(replica: Replica, list: string)
    | Deliver(id: string, packets: seq<nat>)
    | Fetch(origin: string, packet: nat)

  function DbOf(s: State, r: Replica): Db { if r in s.dbs then s.dbs[r] else map[] }

  type SeenMap = map<(Replica, string), set<nat>>

  function Lookup(seen: SeenMap, r: Replica, list: string): set<nat> {
    if (r, list) in seen then seen[(r, list)] else {}
  }

  function SeenOf(s: State, r: Replica, list: string): set<nat> { Lookup(s.seen, r, list) }

  /** A label is enabled where the source operation succeeds. New item uids are random, hence fresh
      in the client's copy; the client's counter entries stay below 2^64. */
  ghost predicate Enabled(s: State, a: Label) {
    match a
    case Create(o, list, _) => list !in DbOf(s, Client(o))
    case Add(o, list, item, _, _, _, _) =>
      list in DbOf(s, Client(o)) && item !in DbOf(s, Client(o))[list].items.elements
    case Update(o, list, item, _, desired, current, _) =>
      && list in DbOf(s, Client(o))
      && var items := DbOf(s, Client(o))[list].items;
      && ORSets.Contains(items, item) && item in items.elements
      && NoWrap(items.elements[item].desired, o, ToU32(desired))
      && NoWrap(items.elements[item].current, o, ToU32(current))
    case Discard(o, list, item) => list in DbOf(s, Client(o)) && ORSets.Contains(DbOf(s, Client(o))[list].items, item)
    case Delete(_, _) => true
    case Send(r, list) => list in DbOf(s, r)
    case Deliver(_, packets) => forall i | 0 <= i < |packets| :: packets[i] < |s.net|
    case Fetch(_, k) => k < |s.net|
  }

  /** A client event: the new list is written, sent, and logged. */
  function Recorded(s: State, r: Replica, l: List, e: Event): State {
    var seen := SeenOf(s, r, l.uid) + {|s.log|};
    State(
      s.dbs[r := Written(DbOf(s, r), l)],
      s.net + [Packet(l, seen)],
      s.log + [e],
      s.seen[(r, l.uid) := seen])
  }

  function RestrictTo(m: map<string, nat>, origin: string): map<string, nat> {
    if origin in m then map[origin := m[origin]] else map[]
  }

  function OwnEntries(q: Quantities, origin: string): Quantities {
    Quantities(
      Counter(RestrictTo(q.desired.pos, origin), RestrictTo(q.desired.neg, origin)),
      Counter(RestrictTo(q.current.pos, origin), RestrictTo(q.current.neg, origin)))
  }

  /** What the setter adds to the positive and the negative entry for a given difference. */
  function Up(diff: int): nat { if diff > 0 then diff else 0 }

  function Down(diff: int): nat { if -TWO31 < diff < 0 then -diff else 0 }

  function AddEvent(o: string, l: List, item: string, desired: int, current: int, tag: string,
                    observed: set<nat>): Event
  {
    Put(l.uid, item, tag, o, OwnEntries(QuantitiesOf(NewItem(o, item, "", ToU32(desired), ToU32(current))), o),
        Amounts(ToU32(desired), 0, ToU32(current), 0), observed)
  }

  ghost function UpdateEvent(o: string, l: List, item: string, desired: int, current: int, tag: string,
                             observed: set<nat>): Event
    requires item in l.items.elements
  {
    var before := l.items.elements[item];
    var d, c := Diff(before.desired, ToU32(desired)), Diff(before.current, ToU32(current));
    Put(l.uid, item, tag, o, OwnEntries(QuantitiesOf(EditedItem(o, before, "", desired, current)), o),
        Amounts(Up(d), Down(d), Up(c), Down(c)), observed)
  }

  function RemoveEvent(l: List, item: string, observed: set<nat>): Event {
    Remove(l.uid, item, Tags(l.items.adds, item), observed)
  }

  /** Merging packets one after the other unions what they have seen, per list. */
  function AppliedSeen(seen: SeenMap, r: Replica, packets: seq<Packet>): SeenMap {
    if packets == [] then seen
    else
      var before, p := AppliedSeen(seen, r, packets[..|packets| - 1]), packets[|packets| - 1];
      before[(r, p.list.uid) := Lookup(before, r, p.list.uid) + p.seen]
  }

  function ListsOf(packets: seq<Packet>): seq<List> { seq(|packets|, i requires 0 <= i < |packets| => packets[i].list) }

  function Picked(net: seq<Packet>, ks: seq<nat>): seq<Packet>
    requires forall i | 0 <= i < |ks| :: ks[i] < |net|
  {
    seq(|ks|, i requires 0 <= i < |ks| => net[ks[i]])
  }

  ghost function Next(s: State, a: Label): State
    requires Enabled(s, a)
  {
    match a
    case Create(o, list, name) =>
      var l := EmptyList(list, name);
      s.(dbs := s.dbs[Client(o) := Written(DbOf(s, Client(o)), l)], net := s.net + [Packet(l, {})])
    case Add(o, list, item, name, desired, current, tag) =>
      var l := DbOf(s, Client(o))[list];
      Recorded(s, Client(o), AddResult(o, l, item, name, desired, current, tag),
               AddEvent(o, l, item, desired, current, tag, SeenOf(s, Client(o), list)))
    case Update(o, list, item, name, desired, current, tag) =>
      var l := DbOf(s, Client(o))[list];
      Recorded(s, Client(o), UpdateResult(o, l, item, name, desired, current, tag),
               UpdateEvent(o, l, item, desired, current, tag, SeenOf(s, Client(o), list)))
    case Discard(o, list, item) =>
      var l := DbOf(s, Client(o))[list];
      Recorded(s, Client(o), RemoveResult(l, item), RemoveEvent(l, item, SeenOf(s, Client(o), list)))
    case Delete(r, list) =>
      s.(dbs := s.dbs[r := DbOf(s, r) - {list}], seen := s.seen[(r, list) := {}])
    case Send(r, list) =>
      s.(net := s.net + [Packet(DbOf(s, r)[list], SeenOf(s, r, list))])
    case Deliver(id, ks) =>
      var packets := Picked(s.net, ks);
      s.(dbs := s.dbs[Server(id) := Applied(DbOf(s, Server(id)), ListsOf(packets))],
         seen := AppliedSeen(s.seen, Server(id), packets))
    case Fetch(o, k) =>
      var r, p := Client(o), s.net[k];
      var l := if p.list.uid in DbOf(s, r) then MergedList(DbOf(s, r)[p.list.uid], p.list) else p.list;
      s.(dbs := s.dbs[r := Written(DbOf(s, r), l)],
         seen := s.seen[(r, p.list.uid) := SeenOf(s, r, p.list.uid) + p.seen])
  }

  /** The state after a run, if every label was enabled when it was taken. */
  ghost function Run(labels: seq<Label>): Option<State> {
    if labels == [] then Some(INIT)
    else
      var before, a := Run(labels[..|labels| - 1]), labels[|labels| - 1];
      if before.Some? && Enabled(before.value, a) then Some(Next(before.value, a)) else None
  }

  /* ---- the content a set of events stands for ---- */

  function Delta(e: Event): Core {
    match e
    case Put(_, item, tag, _, entries, _, _) => Core(map[item := entries], map[item := {tag}], map[])
    case Remove(_, item, tags, _) => Core(map[], map[], map[item := tags])
  }

  /** The join of the deltas of the seen events among the first n. */
  function Fold(log: seq<Event>, n: nat, seen: set<nat>): Core
    requires n <= |log|
  {
    if n == 0 then BOTTOM
    else if n - 1 in seen then JoinCore(Fold(log, n - 1, seen), Delta(log[n - 1]))
    else Fold(log, n - 1, seen)
  }

  lemma JoinShuffle(a: Core, b: Core, d: Core)
    ensures JoinCore(JoinCore(a, d), b) == JoinCore(JoinCore(a, b), d)
    ensures JoinCore(a, JoinCore(b, d)) == JoinCore(JoinCore(a, b), d)
    ensures JoinCore(JoinCore(a, d), JoinCore(b, d)) == JoinCore(JoinCore(a, b), d)
  {
    JoinCoreAssociative(a, d, b);
    JoinCoreCommutative(d, b);
    JoinCoreAssociative(a, b, d);
    JoinCoreAssociative(JoinCore(a, d), b, d);
    JoinCoreAssociative(JoinCore(a, b), d, d);
    JoinCoreIdempotent(d);
  }

  lemma {:induction false} FoldUnion(log: seq<Event>, n: nat, seen: set<nat>, more: set<nat>)
    requires n <= |log|
    ensures Fold(log, n, seen + more) == JoinCore(Fold(log, n, seen), Fold(log, n, more))
  {
    if n == 0 {
      JoinBottom(BOTTOM);
    } else {
      FoldUnion(log, n - 1, seen, more);
      JoinShuffle(Fold(log, n - 1, seen), Fold(log, n - 1, more), Delta(log[n - 1]));
    }
  }

  lemma {:induction false} FoldPrefix(log: seq<Event>, e: Event, n: nat, seen: set<nat>, k: nat)
    requires n <= |log| && n <= k
    ensures Fold(log + [e], n, seen) == Fold(log, n, seen)
    ensures Fold(log, n, seen + {k}) == Fold(log, n, seen)
  {
    if n > 0 { FoldPrefix(log, e, n - 1, seen, k); }
  }

  lemma FoldAppend(log: seq<Event>, e: Event, seen: set<nat>)
    requires forall i | i in seen :: i < |log|
    ensures Fold(log + [e], |log| + 1, seen) == Fold(log, |log|, seen)
    ensures Fold(log + [e], |log| + 1, seen + {|log|}) == JoinCore(Fold(log, |log|, seen), Delta(e))
  {
    FoldPrefix(log, e, |log|, seen, |log|);
    FoldPrefix(log, e, |log|, seen + {|log|}, |log|);
  }

  /* ---- the invariant ---- */

  /** A copy of a list is well-formed and is the join of the deltas of the events it has seen. */
  ghost predicate GoodCopy(log: seq<Event>, l: List, seen: set<nat>) {
    && WellFormed(l.items)
    && (forall i | i in seen :: i < |log| && log[i].list == l.uid)
    && CoreOf(l.items) == Fold(log, |log|, seen)
  }

  ghost predicate GoodEntry(log: seq<Event>, db: Db, seen: set<nat>, list: string) {
    if list in db then db[list].uid == list && GoodCopy(log, db[list], seen) else seen == {}
  }

  ghost predicate GoodAt(s: State, r: Replica, list: string) {
    GoodEntry(s.log, DbOf(s, r), SeenOf(s, r, list), list)
  }

  predicate PutsTag(e: Event, item: string, tag: string) { e.Put? && e.item == item && e.tag == tag }

  /** A remove event carries exactly the tags of the puts it observed. */
  ghost predicate GoodRemove(log: seq<Event>, i: nat)
    requires i < |log|
  {
    log[i].Remove? ==>
      && (forall j | j in log[i].observed :: j < i && log[j].list == log[i].list)
      && (forall tag :: tag in log[i].tags <==> exists j :: j in log[i].observed && PutsTag(log[j], log[i].item, tag))
  }

  ghost predicate Inv(s: State) {
    && (forall r, list :: GoodAt(s, r, list))
    && (forall k | 0 <= k < |s.net| :: GoodCopy(s.log, s.net[k].list, s.net[k].seen))
    && (forall i | 0 <= i < |s.log| :: GoodRemove(s.log, i))
  }

  lemma GoodMerge(log: seq<Event>, a: List, seen: set<nat>, b: List, more: set<nat>)
    requires GoodCopy(log, a, seen) && GoodCopy(log, b, more) && a.uid == b.uid
    ensures GoodCopy(log, MergedList(a, b), seen + more)
  {
    MergeKeepsWellFormed(a.items, b.items);
    MergeIsJoin(a.items, b.items);
    FoldUnion(log, |log|, seen, more);
  }

  lemma {:induction false} FoldNothing(log: seq<Event>, n: nat)
    requires n <= |log|
    ensures Fold(log, n, {}) == BOTTOM
  {
    if n > 0 { FoldNothing(log, n - 1); }
  }

  lemma GoodEmpty(log: seq<Event>, uid: string, name: string)
    ensures GoodCopy(log, EmptyList(uid, name), {})
  {
    EmptyWellFormed();
    FoldNothing(log, |log|);
    assert CoreOf(NO_ITEMS) == BOTTOM;
  }

  lemma GoodLater(log: seq<Event>, e: Event, l: List, seen: set<nat>)
    requires GoodCopy(log, l, seen)
    ensures GoodCopy(log + [e], l, seen)
  {
    FoldAppend(log, e, seen);
  }

  lemma RecordedEntryGood(s: State, r: Replica, l: List, e: Event, r': Replica, list: string)
    requires Inv(s) && l.uid in DbOf(s, r) && e.list == l.uid && WellFormed(l.items)
    requires CoreOf(l.items) == JoinCore(CoreOf(DbOf(s, r)[l.uid].items), Delta(e))
    ensures GoodAt(Recorded(s, r, l, e), r', list)
  {
    assert GoodAt(s, r', list);
    if r' == r && list == l.uid {
      RecordedCopyGood(s.log, DbOf(s, r)[list], SeenOf(s, r, list), l, e);
    } else {
      assert SeenOf(Recorded(s, r, l, e), r', list) == SeenOf(s, r', list);
      LaterEntryGood(s.log, e, DbOf(s, r'), SeenOf(s, r', list), list);
    }
  }

  /** The event at the end of the log keeps the invariant if the new list is the old one joined with its delta. */
  lemma RecordKeepsInv(s: State, r: Replica, l: List, e: Event)
    requires Inv(s) && l.uid in DbOf(s, r) && e.list == l.uid && WellFormed(l.items)
    requires CoreOf(l.items) == JoinCore(CoreOf(DbOf(s, r)[l.uid].items), Delta(e))
    requires GoodRemove(s.log + [e], |s.log|)
    ensures Inv(Recorded(s, r, l, e))
  {
    var s' := Recorded(s, r, l, e);
    forall r', list ensures GoodAt(s', r', list) { RecordedEntryGood(s, r, l, e, r', list); }
    forall k | 0 <= k < |s'.net| ensures GoodCopy(s'.log, s'.net[k].list, s'.net[k].seen) {
      if k < |s.net| {
        GoodLater(s.log, e, s.net[k].list, s.net[k].seen);
      } else {
        assert GoodAt(s, r, l.uid);
        RecordedCopyGood(s.log, DbOf(s, r)[l.uid], SeenOf(s, r, l.uid), l, e);
      }
    }
    forall i | 0 <= i < |s'.log| ensures GoodRemove(s'.log, i) {
      if i < |s.log| { RemoveStaysGood(s.log, e, i); }
    }
  }

  lemma RecordedCopyGood(log: seq<Event>, before: List, seen: set<nat>, l: List, e: Event)
    requires GoodCopy(log, before, seen) && before.uid == l.uid == e.list && WellFormed(l.items)
    requires CoreOf(l.items) == JoinCore(CoreOf(before.items), Delta(e))
    ensures GoodCopy(log + [e], l, seen + {|log|})
  {
    FoldAppend(log, e, seen);
  }

  lemma LaterEntryGood(log: seq<Event>, e: Event, db: Db, seen: set<nat>, list: string)
    requires GoodEntry(log, db, seen, list)
    ensures GoodEntry(log + [e], db, seen, list)
  {
    if list in db { GoodLater(log, e, db[list], seen); }
  }

  lemma RemoveStaysGood(log: seq<Event>, e: Event, i: nat)
    requires i < |log| && GoodRemove(log, i)
    ensures GoodRemove(log + [e], i)
  {
    assert forall j | 0 <= j < |log| :: (log + [e])[j] == log[j];
  }

  /* ---- the delta of each operation ---- */

  lemma BumpIsJoin(m: map<string, nat>, o: string, delta: int)
    requires Get(m, o) + delta < TWO64
    ensures Join(Max, m, RestrictTo(Bump(m, o, delta), o)) == Bump(m, o, delta)
  {
  }

  lemma NoBumpIsJoin(m: map<string, nat>, o: string)
    ensures Join(Max, m, RestrictTo(m, o)) == m
  {
  }

  /** Setting a quantity joins the client's own new entries into the counter. */
  lemma AssignIsJoin(c: Counter, o: string, quantity: int)
    requires NoWrap(c, o, quantity)
    ensures var c' := Assigned(c, o, quantity);
      MergedCounter(c, Counter(RestrictTo(c'.pos, o), RestrictTo(c'.neg, o))) == c'
  {
    var diff := Diff(c, quantity);
    if -TWO31 < diff { Wrap32Id(-diff); }
    BumpIsJoin(c.pos, o, diff);
    BumpIsJoin(c.neg, o, Wrap32(-diff));
    NoBumpIsJoin(c.pos, o);
    NoBumpIsJoin(c.neg, o);
  }

  /** Putting an item joins its delta into the set. */
  lemma PutIsJoin(s: Items, item: Item, tag: string, e: Event)
    requires WellFormed(s) && e.Put? && e.item == item.uid && e.tag == tag
    requires if item.uid in s.elements
      then JoinQuantities(QuantitiesOf(s.elements[item.uid]), e.entries) == QuantitiesOf(item)
      else e.entries == QuantitiesOf(item)
    ensures CoreOf(Added(s, item, tag)) == JoinCore(CoreOf(s), Delta(e))
  {
    PutElements(s.elements, item, e.entries);
    JoinTagsAt(s.adds, item.uid, {tag});
    JoinEmpty(Union, s.removes);
  }

  lemma PutElements(m: map<string, Item>, item: Item, entries: Quantities)
    requires if item.uid in m
      then JoinQuantities(QuantitiesOf(m[item.uid]), entries) == QuantitiesOf(item)
      else entries == QuantitiesOf(item)
    ensures CoreOf(Items(m[item.uid := item], map[], map[])).elements
         == Join(JoinQuantities, CoreOf(Items(m, map[], map[])).elements, map[item.uid := entries])
  {
  }

  lemma JoinTagsAt(m: map<string, set<string>>, uid: string, tags: set<string>)
    ensures Join(Union, m, map[uid := tags]) == m[uid := Tags(m, uid) + tags]
  {
    assert {} + tags == tags;
  }

  lemma RemoveIsJoin(s: Items, e: Event)
    requires e.Remove? && e.tags == Tags(s.adds, e.item) != {}
    ensures CoreOf(Removed(s, e.item)) == JoinCore(CoreOf(s), Delta(e))
  {
    JoinEmpty(JoinQuantities, CoreOf(s).elements);
    JoinEmpty(Union, s.adds);
    JoinTagsAt(s.removes, e.item, e.tags);
  }

  lemma AddKeepsInv(s: State, a: Label)
    requires Inv(s) && a.Add? && Enabled(s, a)
    ensures Inv(Next(s, a))
  {
    var r := Client(a.origin);
    var l := DbOf(s, r)[a.list];
    assert GoodAt(s, r, a.list);
    var item := NewItem(a.origin, a.item, a.name, ToU32(a.desired), ToU32(a.current));
    var e := AddEvent(a.origin, l, a.item, a.desired, a.current, a.tag, SeenOf(s, r, a.list));
    OperationsKeepWellFormed(l.items, item, a.tag, a.item);
    assert e.entries == QuantitiesOf(item);
    PutIsJoin(l.items, item, a.tag, e);
    RecordKeepsInv(s, r, AddResult(a.origin, l, a.item, a.name, a.desired, a.current, a.tag), e);
  }

  lemma UpdateKeepsInv(s: State, a: Label)
    requires Inv(s) && a.Update? && Enabled(s, a)
    ensures Inv(Next(s, a))
  {
    var r := Client(a.origin);
    var l := DbOf(s, r)[a.list];
    assert GoodAt(s, r, a.list);
    var before := l.items.elements[a.item];
    var item := EditedItem(a.origin, before, a.name, a.desired, a.current);
    var e := UpdateEvent(a.origin, l, a.item, a.desired, a.current, a.tag, SeenOf(s, r, a.list));
    UpdateIsAdd(a.origin, l, a.item, a.name, a.desired, a.current, a.tag);
    OperationsKeepWellFormed(l.items, item, a.tag, a.item);
    AssignIsJoin(before.desired, a.origin, ToU32(a.desired));
    AssignIsJoin(before.current, a.origin, ToU32(a.current));
    assert JoinQuantities(QuantitiesOf(before), e.entries) == QuantitiesOf(item);
    PutIsJoin(l.items, item, a.tag, e);
    RecordKeepsInv(s, r, UpdateResult(a.origin, l, a.item, a.name, a.desired, a.current, a.tag), e);
  }

  /** The tags of a good copy are those of the puts and removes it has seen. */
  lemma {:induction false} FoldTags(log: seq<Event>, n: nat, seen: set<nat>, item: string, tag: string)
    requires n <= |log|
    ensures tag in Tags(Fold(log, n, seen).adds, item) <==>
      exists i :: i in seen && i < n && PutsTag(log[i], item, tag)
    ensures tag in Tags(Fold(log, n, seen).removes, item) <==>
      exists i :: i in seen && i < n && log[i].Remove? && log[i].item == item && tag in log[i].tags
  {
    if n > 0 {
      FoldTags(log, n - 1, seen, item, tag);
      var f, d := Fold(log, n - 1, seen), Delta(log[n - 1]);
      TagsOfJoin(f.adds, d.adds);
      TagsOfJoin(f.removes, d.removes);
      assert tag in Tags(d.adds, item) <==> PutsTag(log[n - 1], item, tag);
    }
  }

  lemma DiscardKeepsInv(s: State, a: Label)
    requires Inv(s) && a.Discard? && Enabled(s, a)
    ensures Inv(Next(s, a))
  {
    var r := Client(a.origin);
    var l := DbOf(s, r)[a.list];
    var seen := SeenOf(s, r, a.list);
    assert GoodAt(s, r, a.list);
    var e := RemoveEvent(l, a.item, seen);
    OperationsKeepWellFormed(l.items, l.items.elements[a.item], "", a.item);
    RemoveIsJoin(l.items, e);
    var log' := s.log + [e];
    forall tag ensures tag in e.tags <==> exists j :: j in e.observed && PutsTag(log'[j], a.item, tag) {
      FoldTags(s.log, |s.log|, seen, a.item, tag);
      assert l.items.adds == Fold(s.log, |s.log|, seen).adds;
      if j :| j in e.observed && PutsTag(log'[j], a.item, tag) { assert PutsTag(s.log[j], a.item, tag); }
      if j :| j in seen && j < |s.log| && PutsTag(s.log[j], a.item, tag) { assert PutsTag(log'[j], a.item, tag); }
    }
    RecordKeepsInv(s, r, RemoveResult(l, a.item), e);
  }

  /** Merging one packet into a database. */
  lemma EnsureGood(log: seq<Event>, db: Db, seen: set<nat>, p: Packet, list: string)
    requires Keyed(db) && GoodEntry(log, db, seen, list) && GoodCopy(log, p.list, p.seen)
    ensures GoodEntry(log, Ensured(db, p.list), if p.list.uid == list then seen + p.seen else seen, list)
  {
    if p.list.uid == list {
      GoodEmpty(log, list, "");
      GoodMerge(log, ReadOr(db, list), seen, p.list, p.seen);
    }
  }

  lemma {:induction false} DeliverGood(log: seq<Event>, db: Db, seen: SeenMap, r: Replica,
      packets: seq<Packet>, list: string)
    requires Keyed(db) && GoodEntry(log, db, Lookup(seen, r, list), list)
    requires forall p | p in packets :: GoodCopy(log, p.list, p.seen)
    ensures GoodEntry(log, Applied(db, ListsOf(packets)), Lookup(AppliedSeen(seen, r, packets), r, list), list)
  {
    if packets == [] {
      assert ListsOf(packets) == [];
    } else {
      var n := |packets| - 1;
      assert ListsOf(packets)[..n] == ListsOf(packets[..n]);
      DeliverGood(log, db, seen, r, packets[..n], list);
      ApplyIsPointwiseJoin(db, ListsOf(packets[..n]), list);
      var before := Lookup(AppliedSeen(seen, r, packets[..n]), r, list);
      EnsureGood(log, Applied(db, ListsOf(packets[..n])), before, packets[n], list);
    }
  }

  lemma {:induction false} DeliverSeenElsewhere(seen: SeenMap, r: Replica, packets: seq<Packet>, r': Replica,
      list: string)
    requires r' != r
    ensures Lookup(AppliedSeen(seen, r, packets), r', list) == Lookup(seen, r', list)
  {
    if packets != [] { DeliverSeenElsewhere(seen, r, packets[..|packets| - 1], r', list); }
  }

  lemma DeliverKeepsInv(s: State, a: Label)
    requires Inv(s) && a.Deliver? && Enabled(s, a)
    ensures Inv(Next(s, a))
  {
    var r, packets, s' := Server(a.id), Picked(s.net, a.packets), Next(s, a);
    forall p | p in packets ensures GoodCopy(s.log, p.list, p.seen) {
      var i :| 0 <= i < |packets| && packets[i] == p;
      assert p == s.net[a.packets[i]];
    }
    forall u | u in DbOf(s, r) ensures DbOf(s, r)[u].uid == u { assert GoodAt(s, r, u); }
    forall r', list ensures GoodAt(s', r', list) {
      assert GoodAt(s, r', list);
      if r' == r {
        DeliverGood(s.log, DbOf(s, r), s.seen, r, packets, list);
      } else {
        DeliverSeenElsewhere(s.seen, r, packets, r', list);
      }
    }
  }

  lemma FetchKeepsInv(s: State, a: Label)
    requires Inv(s) && a.Fetch? && Enabled(s, a)
    ensures Inv(Next(s, a))
  {
    var r, p, s' := Client(a.origin), s.net[a.packet], Next(s, a);
    var db, seen := DbOf(s, r), SeenOf(s, r, p.list.uid);
    assert GoodAt(s, r, p.list.uid);
    if p.list.uid in db {
      GoodMerge(s.log, db[p.list.uid], seen, p.list, p.seen);
    } else {
      assert seen + p.seen == p.seen;
    }
    forall r', list ensures GoodAt(s', r', list) {
      assert GoodAt(s, r', list);
      if r' != r || list != p.list.uid {
        assert SeenOf(s', r', list) == SeenOf(s, r', list);
        assert list in DbOf(s', r') <==> list in DbOf(s, r');
      }
    }
  }

  lemma OthersKeepInv(s: State, a: Label)
    requires Inv(s) && (a.Create? || a.Delete? || a.Send?) && Enabled(s, a)
    ensures Inv(Next(s, a))
  {
    var s' := Next(s, a);
    if a.Create? { GoodEmpty(s.log, a.list, a.name); }
    if a.Send? { assert GoodAt(s, a.replica, a.list); }
    forall r, list ensures GoodAt(s', r, list) {
      assert GoodAt(s, r, list);
    }
  }

  lemma NextKeepsInv(s: State, a: Label)
    requires Inv(s) && Enabled(s, a)
    ensures Inv(Next(s, a))
  {
    match a
    case Add(_, _, _, _, _, _, _) => AddKeepsInv(s, a);
    case Update(_, _, _, _, _, _, _) => UpdateKeepsInv(s, a);
    case Discard(_, _, _) => DiscardKeepsInv(s, a);
    case Deliver(_, _) => DeliverKeepsInv(s, a);
    case Fetch(_, _) => FetchKeepsInv(s, a);
    case _ => OthersKeepInv(s, a);
  }

  lemma {:induction false} RunKeepsInv(labels: seq<Label>)
    ensures Run(labels).Some? ==> Inv(Run(labels).value)
  {
    if labels != [] {
      RunKeepsInv(labels[..|labels| - 1]);
      var before := Run(labels[..|labels| - 1]);
      if before.Some? && Enabled(before.value, labels[|labels| - 1]) {
        NextKeepsInv(before.value, labels[|labels| - 1]);
      }
    }
  }
}
