/** Conservation of counter deltas over runs: no copy anywhere holds more of an origin than that
    client added, and exactly which copies hold all of it. */
module Conservation {
  import ShoppingLists
  import Api
  import opened Util
  import opened Maps
  import opened PNCounters
  import opened ShoppingItems
  import opened Lattice
  import opened Replication
  import opened Convergence

  function Entries(q: Quantities, cell: Cell): map<string, nat> {
    match cell
    case DesiredUp => q.desired.pos
    case DesiredDown => q.desired.neg
    case CurrentUp => q.current.pos
    case CurrentDown => q.current.neg
  }

  function Amount(a: Amounts, cell: Cell): nat {
    match cell
    case DesiredUp => a.desiredUp
    case DesiredDown => a.desiredDown
    case CurrentUp => a.currentUp
    case CurrentDown => a.currentDown
  }

  /** The entries of an item in a copy; none if the copy lacks the item. */
  function EntriesIn(c: Core, item: string, cell: Cell): map<string, nat> {
    if item in c.elements then Entries(c.elements[item], cell) else map[]
  }

  /** One counter entry: that of an origin, in one direction of one quantity of an item of a list. */
  datatype Slot = Slot(list: string, item: string, origin: string, cell: Cell)

  predicate PutOn(e: Event, list: string, item: string) { e.Put? && e.list == list && e.item == item }

  predicate PutBy(e: Event, x: Slot) { PutOn(e, x.list, x.item) && e.origin == x.origin }

  /** Everything the origin added to the entry, over the first n events. */
  function Total(log: seq<Event>, n: nat, x: Slot): nat
    requires n <= |log|
  {
    if n == 0 then 0
    else Total(log, n - 1, x) + if PutBy(log[n - 1], x) then Amount(log[n - 1].amounts, x.cell) else 0
  }

  /** Everything all origins added to one quantity in one direction. */
  function GrandTotal(log: seq<Event>, n: nat, list: string, item: string, cell: Cell): nat
    requires n <= |log|
  {
    if n == 0 then 0
    else
      GrandTotal(log, n - 1, list, item, cell)
        + if PutOn(log[n - 1], list, item) then Amount(log[n - 1].amounts, cell) else 0
  }

  /** What a copy that has seen the given events holds in the entry. */
  function EntryAt(log: seq<Event>, n: nat, seen: set<nat>, x: Slot): nat
    requires n <= |log|
  {
    Get(EntriesIn(Fold(log, n, seen), x.item, x.cell), x.origin)
  }

  function EntryOf(e: Event, x: Slot): nat
    requires e.Put?
  {
    Get(Entries(e.entries, x.cell), x.origin)
  }

  /** When the client made put j, the entry in its copy was all it had added so far. A client can
      check this before it edits. */
  ghost predicate UpToDate(log: seq<Event>, j: nat, x: Slot)
    requires j < |log| && log[j].Put?
  {
    EntryAt(log, j, log[j].observed, x) == Total(log, j, x)
  }

  /** Every put that added to the entry was made on an up-to-date copy. */
  ghost predicate AllUpToDate(log: seq<Event>, n: nat, x: Slot)
    requires n <= |log|
  {
    forall j | 0 <= j < n && PutBy(log[j], x) && Amount(log[j].amounts, x.cell) > 0 :: UpToDate(log, j, x)
  }

  ghost predicate SeesAll(log: seq<Event>, n: nat, seen: set<nat>, x: Slot)
    requires n <= |log|
  {
    forall i | 0 <= i < n && PutBy(log[i], x) :: i in seen
  }

  /** A seen put to the entry was made on an up-to-date copy, and nothing was added to the entry after it. */
  ghost predicate SeesWhole(log: seq<Event>, n: nat, seen: set<nat>, x: Slot)
    requires n <= |log|
  {
    exists k :: CarriesWhole(log, n, seen, k, x)
  }

  ghost predicate CarriesWhole(log: seq<Event>, n: nat, seen: set<nat>, k: nat, x: Slot)
    requires n <= |log|
  {
    k < n && k in seen && PutBy(log[k], x) && UpToDate(log, k, x) && Total(log, k + 1, x) == Total(log, n, x)
  }

  /* ---- what holds of every log ---- */

  /** A put adds its amount to what its client's copy held, and carries entries of that client only. */
  ghost predicate GroundedPut(log: seq<Event>, i: nat)
    requires i < |log|
  {
    log[i].Put? ==>
      && (forall j | j in log[i].observed :: j < i && log[j].list == log[i].list)
      && forall cell :: GroundedCell(log, i, cell)
  }

  ghost predicate GroundedCell(log: seq<Event>, i: nat, cell: Cell)
    requires i < |log| && log[i].Put?
  {
    var e := log[i];
    && Entries(e.entries, cell).Keys <= {e.origin}
    && Amount(e.amounts, cell) < TWO32
    && EntryOf(e, Slot(e.list, e.item, e.origin, cell))
         == EntryAt(log, i, e.observed, Slot(e.list, e.item, e.origin, cell)) + Amount(e.amounts, cell)
  }

  ghost predicate Grounded(log: seq<Event>) { forall i | 0 <= i < |log| :: GroundedPut(log, i) }

  ghost predicate OnList(log: seq<Event>, seen: set<nat>, list: string) {
    forall i | i in seen :: i < |log| && log[i].list == list
  }

  lemma EntriesOfJoin(a: Core, b: Core, item: string, cell: Cell)
    ensures EntriesIn(JoinCore(a, b), item, cell) == Join(Max, EntriesIn(a, item, cell), EntriesIn(b, item, cell))
  {
    JoinEmpty(Max, EntriesIn(a, item, cell));
    JoinEmpty(Max, EntriesIn(b, item, cell));
  }

  /** Only a seen put to the entry changes it, to the greater of the two. */
  lemma EntryStep(log: seq<Event>, n: nat, seen: set<nat>, x: Slot)
    requires n < |log| && GroundedPut(log, n) && OnList(log, seen, x.list)
    ensures EntryAt(log, n + 1, seen, x) ==
      if n in seen && PutBy(log[n], x) then Max(EntryAt(log, n, seen, x), EntryOf(log[n], x))
      else EntryAt(log, n, seen, x)
  {
    if n in seen {
      var f, e := Fold(log, n, seen), log[n];
      EntriesOfJoin(f, Delta(e), x.item, x.cell);
      if PutOn(e, x.list, x.item) {
        assert GroundedCell(log, n, x.cell);
        assert EntriesIn(Delta(e), x.item, x.cell) == Entries(e.entries, x.cell);
      } else {
        assert EntriesIn(Delta(e), x.item, x.cell) == map[];
      }
    }
  }

  /** An entry never exceeds what its origin added. */
  lemma {:induction false} EntryBound(log: seq<Event>, n: nat, seen: set<nat>, x: Slot)
    requires n <= |log| && Grounded(log) && OnList(log, seen, x.list)
    ensures EntryAt(log, n, seen, x) <= Total(log, n, x)
  {
    if n > 0 {
      EntryBound(log, n - 1, seen, x);
      assert GroundedPut(log, n - 1);
      EntryStep(log, n - 1, seen, x);
      if PutBy(log[n - 1], x) {
        assert GroundedCell(log, n - 1, x.cell);
        EntryBound(log, n - 1, log[n - 1].observed, x);
      }
    }
  }

  /** An entry is that of some seen put, and at least that of every seen put. */
  lemma {:induction false} EntryIsGreatest(log: seq<Event>, n: nat, seen: set<nat>, x: Slot)
    requires n <= |log| && Grounded(log) && OnList(log, seen, x.list)
    ensures forall k | 0 <= k < n && k in seen && PutBy(log[k], x) :: EntryOf(log[k], x) <= EntryAt(log, n, seen, x)
    ensures EntryAt(log, n, seen, x) > 0 ==>
      exists k :: 0 <= k < n && k in seen && PutBy(log[k], x) && EntryOf(log[k], x) == EntryAt(log, n, seen, x)
  {
    if n > 0 {
      EntryIsGreatest(log, n - 1, seen, x);
      assert GroundedPut(log, n - 1);
      EntryStep(log, n - 1, seen, x);
    }
  }

  /** Seeing more puts to the entry makes it no smaller. */
  lemma EntryMonotone(log: seq<Event>, n: nat, seen: set<nat>, more: set<nat>, x: Slot)
    requires n <= |log| && Grounded(log) && OnList(log, seen, x.list) && OnList(log, more, x.list)
    requires forall i | 0 <= i < n && i in seen && PutBy(log[i], x) :: i in more
    ensures EntryAt(log, n, seen, x) <= EntryAt(log, n, more, x)
  {
    EntryIsGreatest(log, n, seen, x);
    EntryIsGreatest(log, n, more, x);
  }

  lemma {:induction false} TotalGrows(log: seq<Event>, k: nat, n: nat, x: Slot)
    requires k <= n <= |log|
    ensures Total(log, k, x) <= Total(log, n, x)
  {
    if k < n { TotalGrows(log, k, n - 1, x); }
  }

  /** A put on an up-to-date copy carries the running total, and only such a put does. */
  lemma PutCarriesTotalIff(log: seq<Event>, k: nat, x: Slot)
    requires k < |log| && Grounded(log) && PutBy(log[k], x)
    ensures EntryOf(log[k], x) <= Total(log, k + 1, x)
    ensures EntryOf(log[k], x) == Total(log, k + 1, x) <==> UpToDate(log, k, x)
  {
    assert GroundedPut(log, k) && GroundedCell(log, k, x.cell);
    EntryBound(log, k, log[k].observed, x);
  }

  /** Whatever was seen: a copy holds the total exactly when there is none or some seen put carries it. */
  lemma WholeIff(log: seq<Event>, n: nat, seen: set<nat>, x: Slot)
    requires n <= |log| && Grounded(log) && OnList(log, seen, x.list)
    ensures EntryAt(log, n, seen, x) == Total(log, n, x) <==> Total(log, n, x) == 0 || SeesWhole(log, n, seen, x)
  {
    EntryBound(log, n, seen, x);
    EntryIsGreatest(log, n, seen, x);
    forall k | 0 <= k < n && k in seen && PutBy(log[k], x)
      ensures EntryOf(log[k], x) == Total(log, n, x) <==> CarriesWhole(log, n, seen, k, x)
    {
      PutCarriesTotalIff(log, k, x);
      TotalGrows(log, k + 1, n, x);
    }
  }

  /** A copy that has seen all the origin's puts holds all it added if and only if every put that
      added something was made on an up-to-date copy. */
  lemma {:induction false} NothingLost(log: seq<Event>, n: nat, seen: set<nat>, x: Slot)
    requires n <= |log| && Grounded(log) && OnList(log, seen, x.list) && SeesAll(log, n, seen, x)
    ensures EntryAt(log, n, seen, x) == Total(log, n, x) <==> AllUpToDate(log, n, x)
  {
    if n > 0 {
      NothingLost(log, n - 1, seen, x);
      assert GroundedPut(log, n - 1);
      EntryStep(log, n - 1, seen, x);
      EntryBound(log, n - 1, seen, x);
      if PutBy(log[n - 1], x) {
        PutCarriesTotalIff(log, n - 1, x);
        EntryMonotone(log, n - 1, log[n - 1].observed, seen, x);
        assert GroundedCell(log, n - 1, x.cell);
      }
    }
  }

  /* ---- every run keeps its log grounded ---- */

  lemma GroundedAppend(log: seq<Event>, e: Event, i: nat)
    requires i < |log| && GroundedPut(log, i)
    ensures GroundedPut(log + [e], i)
  {
    assert (log + [e])[i] == log[i];
    if log[i].Put? {
      FoldPrefix(log, e, i, log[i].observed, i);
      forall cell ensures GroundedCell(log + [e], i, cell) {
        assert GroundedCell(log, i, cell);
      }
    }
  }

  /** Recording an event keeps the log grounded if the event itself is. */
  lemma RecordGrounded(s: State, r: Replica, l: ShoppingLists.List, e: Event)
    requires Grounded(s.log) && (e.Put? ==> GroundedPut(s.log + [e], |s.log|))
    ensures Grounded(Recorded(s, r, l, e).log)
  {
    forall i | 0 <= i < |s.log| + 1 ensures GroundedPut(s.log + [e], i) {
      if i < |s.log| { GroundedAppend(s.log, e, i); }
    }
  }

  /** A put on a good copy is grounded if it adds its amounts to the entries the copy holds. */
  lemma PutGrounded(log: seq<Event>, e: Event, l: ShoppingLists.List, seen: set<nat>)
    requires e.Put? && GoodCopy(log, l, seen) && e.list == l.uid && e.observed == seen
    requires forall cell ::
      && Entries(e.entries, cell).Keys <= {e.origin} && Amount(e.amounts, cell) < TWO32
      && Get(Entries(e.entries, cell), e.origin)
           == Get(EntriesIn(CoreOf(l.items), e.item, cell), e.origin) + Amount(e.amounts, cell)
    ensures GroundedPut(log + [e], |log|)
  {
    FoldPrefix(log, e, |log|, seen, |log|);
    forall cell ensures GroundedCell(log + [e], |log|, cell) {}
  }

  /** The setter adds its amounts to the caller's entries. */
  lemma AssignAdds(c: Counter, o: string, quantity: int)
    requires NoWrap(c, o, quantity)
    ensures var c', diff := Assigned(c, o, quantity), Diff(c, quantity);
      && Get(c'.pos, o) == Get(c.pos, o) + Up(diff)
      && Get(c'.neg, o) == Get(c.neg, o) + Down(diff)
    ensures Up(Diff(c, quantity)) < TWO32 && Down(Diff(c, quantity)) < TWO32
  {
    var diff := Diff(c, quantity);
    if -TWO31 < diff { Wrap32Id(-diff); }
  }

  lemma UpdateGrounded(s: State, a: Label)
    requires Inv(s) && Grounded(s.log) && a.Update? && Enabled(s, a)
    ensures Grounded(Next(s, a).log)
  {
    var r := Client(a.origin);
    var l := DbOf(s, r)[a.list];
    assert GoodAt(s, r, a.list);
    var before := l.items.elements[a.item];
    var e := UpdateEvent(a.origin, l, a.item, a.desired, a.current, a.tag, SeenOf(s, r, a.list));
    AssignAdds(before.desired, a.origin, ToU32(a.desired));
    AssignAdds(before.current, a.origin, ToU32(a.current));
    assert CoreOf(l.items).elements[a.item] == QuantitiesOf(before);
    forall cell
      ensures Entries(e.entries, cell).Keys <= {e.origin} && Amount(e.amounts, cell) < TWO32
      ensures Get(Entries(e.entries, cell), a.origin)
        == Get(EntriesIn(CoreOf(l.items), a.item, cell), a.origin) + Amount(e.amounts, cell)
    {
      match cell case DesiredUp => case DesiredDown => case CurrentUp => case CurrentDown =>
    }
    PutGrounded(s.log, e, l, SeenOf(s, r, a.list));
    RecordGrounded(s, r, Api.UpdateResult(a.origin, l, a.item, a.name, a.desired, a.current, a.tag), e);
  }

  lemma AddGrounded(s: State, a: Label)
    requires Inv(s) && Grounded(s.log) && a.Add? && Enabled(s, a)
    ensures Grounded(Next(s, a).log)
  {
    var r := Client(a.origin);
    var l := DbOf(s, r)[a.list];
    assert GoodAt(s, r, a.list);
    var e := AddEvent(a.origin, l, a.item, a.desired, a.current, a.tag, SeenOf(s, r, a.list));
    forall cell
      ensures Entries(e.entries, cell).Keys <= {e.origin} && Amount(e.amounts, cell) < TWO32
      ensures Get(Entries(e.entries, cell), a.origin)
        == Get(EntriesIn(CoreOf(l.items), a.item, cell), a.origin) + Amount(e.amounts, cell)
    {
      match cell case DesiredUp => case DesiredDown => case CurrentUp => case CurrentDown =>
    }
    PutGrounded(s.log, e, l, SeenOf(s, r, a.list));
    RecordGrounded(s, r, Api.AddResult(a.origin, l, a.item, a.name, a.desired, a.current, a.tag), e);
  }

  lemma NextGrounded(s: State, a: Label)
    requires Inv(s) && Grounded(s.log) && Enabled(s, a)
    ensures Grounded(Next(s, a).log)
  {
    if a.Add? {
      AddGrounded(s, a);
    } else if a.Update? {
      UpdateGrounded(s, a);
    } else if a.Discard? {
      var r := Client(a.origin);
      var l := DbOf(s, r)[a.list];
      RecordGrounded(s, r, Api.RemoveResult(l, a.item), RemoveEvent(l, a.item, SeenOf(s, r, a.list)));
    }
  }

  /** In every run, deletions included, each put adds its amounts to what its client's copy held. */
  lemma {:induction false} RunGrounded(labels: seq<Label>)
    ensures Run(labels).Some? ==> Grounded(Run(labels).value.log)
  {
    if labels != [] {
      var n := |labels| - 1;
      RunGrounded(labels[..n]);
      RunKeepsInv(labels[..n]);
      var before := Run(labels[..n]);
      if before.Some? && Enabled(before.value, labels[n]) { NextGrounded(before.value, labels[n]); }
    }
  }

  /* ---- the theorems ---- */

  function StoredEntry(l: ShoppingLists.List, x: Slot): nat {
    Get(EntriesIn(CoreOf(l.items), x.item, x.cell), x.origin)
  }

  /** In every run, no copy of a list, stored or in flight, holds an entry above what its origin added. */
  lemma EntriesBoundedByOwner(labels: seq<Label>, s: State, x: Slot)
    requires Reached(labels, s)
    ensures forall r | x.list in DbOf(s, r) :: StoredEntry(DbOf(s, r)[x.list], x) <= Total(s.log, |s.log|, x)
    ensures forall k | 0 <= k < |s.net| && s.net[k].list.uid == x.list ::
      StoredEntry(s.net[k].list, x) <= Total(s.log, |s.log|, x)
  {
    ReachedInv(labels, s);
    RunGrounded(labels);
    forall r | x.list in DbOf(s, r) ensures StoredEntry(DbOf(s, r)[x.list], x) <= Total(s.log, |s.log|, x) {
      assert GoodAt(s, r, x.list);
      EntryBound(s.log, |s.log|, SeenOf(s, r, x.list), x);
    }
    forall k | 0 <= k < |s.net| && s.net[k].list.uid == x.list
      ensures StoredEntry(s.net[k].list, x) <= Total(s.log, |s.log|, x)
    {
      EntryBound(s.log, |s.log|, s.net[k].seen, x);
    }
  }

  /** In every run, a replica holds all an origin added exactly when it has seen a put by it that was
      made on an up-to-date copy and that the origin added nothing after, or there is nothing to hold. */
  lemma EntryIsTotalIff(labels: seq<Label>, s: State, r: Replica, x: Slot)
    requires Reached(labels, s) && x.list in DbOf(s, r)
    ensures StoredEntry(DbOf(s, r)[x.list], x) == Total(s.log, |s.log|, x)
       <==> Total(s.log, |s.log|, x) == 0 || SeesWhole(s.log, |s.log|, SeenOf(s, r, x.list), x)
  {
    ReachedInv(labels, s);
    RunGrounded(labels);
    assert GoodAt(s, r, x.list);
    WholeIff(s.log, |s.log|, SeenOf(s, r, x.list), x);
  }

  /** In every run, a replica that has seen all puts by an origin holds all it added if and only if
      every put that added something was made on an up-to-date copy. */
  lemma NothingLostIff(labels: seq<Label>, s: State, r: Replica, x: Slot)
    requires Reached(labels, s) && x.list in DbOf(s, r)
    requires SeesAll(s.log, |s.log|, SeenOf(s, r, x.list), x)
    ensures StoredEntry(DbOf(s, r)[x.list], x) == Total(s.log, |s.log|, x) <==> AllUpToDate(s.log, |s.log|, x)
  {
    ReachedInv(labels, s);
    RunGrounded(labels);
    assert GoodAt(s, r, x.list);
    NothingLost(s.log, |s.log|, SeenOf(s, r, x.list), x);
  }

  /** The totals by origin. */
  function Totals(log: seq<Event>, n: nat, list: string, item: string, cell: Cell): map<string, nat>
    requires n <= |log|
  {
    if n == 0 then map[]
    else
      var m, e := Totals(log, n - 1, list, item, cell), log[n - 1];
      if PutOn(e, list, item) then m[e.origin := Get(m, e.origin) + Amount(e.amounts, cell)] else m
  }

  lemma {:induction false} TotalsAddUp(log: seq<Event>, n: nat, list: string, item: string, cell: Cell)
    requires n <= |log|
    ensures Sum(Totals(log, n, list, item, cell)) == GrandTotal(log, n, list, item, cell)
    ensures forall o :: Get(Totals(log, n, list, item, cell), o) == Total(log, n, Slot(list, item, o, cell))
  {
    if n > 0 {
      TotalsAddUp(log, n - 1, list, item, cell);
      var m, e := Totals(log, n - 1, list, item, cell), log[n - 1];
      if PutOn(e, list, item) { SumUpdate(m, e.origin, Get(m, e.origin) + Amount(e.amounts, cell)); }
    }
  }

  /** In every run, the entries of an item in a copy sum to at most the grand total, and to all of it
      exactly when no origin's entry falls short. */
  lemma SumIsTotalIff(labels: seq<Label>, s: State, r: Replica, list: string, item: string, cell: Cell)
    requires Reached(labels, s) && list in DbOf(s, r)
    ensures var m := EntriesIn(CoreOf(DbOf(s, r)[list].items), item, cell);
      && Sum(m) <= GrandTotal(s.log, |s.log|, list, item, cell)
      && (Sum(m) == GrandTotal(s.log, |s.log|, list, item, cell) <==>
            forall o :: Get(m, o) == Total(s.log, |s.log|, Slot(list, item, o, cell)))
  {
    var m, t := EntriesIn(CoreOf(DbOf(s, r)[list].items), item, cell), Totals(s.log, |s.log|, list, item, cell);
    TotalsAddUp(s.log, |s.log|, list, item, cell);
    forall o ensures Get(m, o) <= Get(t, o) {
      EntriesBoundedByOwner(labels, s, Slot(list, item, o, cell));
      assert StoredEntry(DbOf(s, r)[list], Slot(list, item, o, cell)) == Get(m, o);
    }
    SumAtMost(m, t);
  }

  function DesiredTotal(s: State, list: string, item: string): int {
    GrandTotal(s.log, |s.log|, list, item, DesiredUp) - GrandTotal(s.log, |s.log|, list, item, DesiredDown)
  }

  function CurrentTotal(s: State, list: string, item: string): int {
    GrandTotal(s.log, |s.log|, list, item, CurrentUp) - GrandTotal(s.log, |s.log|, list, item, CurrentDown)
  }

  ghost predicate SeesAllPuts(s: State, r: Replica, list: string, item: string) {
    forall i | 0 <= i < |s.log| && PutOn(s.log[i], list, item) :: i in SeenOf(s, r, list)
  }

  /** No client lost anything of one quantity in one direction. */
  ghost predicate AllClientsUpToDate(s: State, list: string, item: string, cell: Cell) {
    forall o :: AllUpToDate(s.log, |s.log|, Slot(list, item, o, cell))
  }

  /** For a replica that has seen all puts of an item: its entries sum to the grand total if and only
      if every put that added something was made on an up-to-date copy. */
  lemma SumAddsUpIff(labels: seq<Label>, s: State, r: Replica, list: string, item: string, cell: Cell)
    requires Reached(labels, s) && list in DbOf(s, r) && SeesAllPuts(s, r, list, item)
    ensures Sum(EntriesIn(CoreOf(DbOf(s, r)[list].items), item, cell)) == GrandTotal(s.log, |s.log|, list, item, cell)
       <==> AllClientsUpToDate(s, list, item, cell)
  {
    var m := EntriesIn(CoreOf(DbOf(s, r)[list].items), item, cell);
    SumIsTotalIff(labels, s, r, list, item, cell);
    forall o
      ensures Get(m, o) == Total(s.log, |s.log|, Slot(list, item, o, cell))
         <==> AllUpToDate(s.log, |s.log|, Slot(list, item, o, cell))
    {
      NothingLostIff(labels, s, r, Slot(list, item, o, cell));
      assert StoredEntry(DbOf(s, r)[list], Slot(list, item, o, cell)) == Get(m, o);
    }
  }

  /** A replica that has seen all puts of an item then reads total increments minus total decrements. */
  lemma ValuesAddUp(labels: seq<Label>, s: State, r: Replica, list: string, item: string)
    requires Reached(labels, s) && list in DbOf(s, r) && item in DbOf(s, r)[list].items.elements
    requires SeesAllPuts(s, r, list, item) && forall cell :: AllClientsUpToDate(s, list, item, cell)
    ensures var i := DbOf(s, r)[list].items.elements[item];
      && Exact(i.desired) == DesiredTotal(s, list, item) && ValueOf(i.desired) == Wrap64(DesiredTotal(s, list, item))
      && Exact(i.current) == CurrentTotal(s, list, item) && ValueOf(i.current) == Wrap64(CurrentTotal(s, list, item))
  {
    var c, i := CoreOf(DbOf(s, r)[list].items), DbOf(s, r)[list].items.elements[item];
    assert c.elements[item] == QuantitiesOf(i);
    forall cell ensures Sum(EntriesIn(c, item, cell)) == GrandTotal(s.log, |s.log|, list, item, cell) {
      SumAddsUpIff(labels, s, r, list, item, cell);
    }
    assert EntriesIn(c, item, DesiredUp) == i.desired.pos && EntriesIn(c, item, DesiredDown) == i.desired.neg;
    assert EntriesIn(c, item, CurrentUp) == i.current.pos && EntriesIn(c, item, CurrentDown) == i.current.neg;
  }

  lemma {:induction false} TotalBounded(log: seq<Event>, n: nat, x: Slot)
    requires n <= |log| && Grounded(log)
    ensures Total(log, n, x) <= n * TWO32
  {
    if n > 0 {
      TotalBounded(log, n - 1, x);
      assert GroundedPut(log, n - 1);
      if PutBy(log[n - 1], x) { assert GroundedCell(log, n - 1, x.cell); }
    }
  }

  /** The no-wrap guard of an update holds by itself in any run of fewer than 2^31 events. */
  lemma NoWrapInShortRuns(labels: seq<Label>, s: State, list: string, item: string, o: string,
                          desired: int, current: int)
    requires Reached(labels, s) && |s.log| < TWO31
    requires list in DbOf(s, Client(o)) && item in DbOf(s, Client(o))[list].items.elements
    ensures var i := DbOf(s, Client(o))[list].items.elements[item];
      NoWrap(i.desired, o, desired) && NoWrap(i.current, o, current)
  {
    RunGrounded(labels);
    var c, i := CoreOf(DbOf(s, Client(o))[list].items), DbOf(s, Client(o))[list].items.elements[item];
    assert c.elements[item] == QuantitiesOf(i);
    forall cell ensures Get(EntriesIn(c, item, cell), o) <= (TWO31 - 1) * TWO32 {
      EntriesBoundedByOwner(labels, s, Slot(list, item, o, cell));
      TotalBounded(s.log, |s.log|, Slot(list, item, o, cell));
      assert StoredEntry(DbOf(s, Client(o))[list], Slot(list, item, o, cell)) == Get(EntriesIn(c, item, cell), o);
    }
    assert EntriesIn(c, item, DesiredUp) == i.desired.pos && EntriesIn(c, item, DesiredDown) == i.desired.neg;
    assert EntriesIn(c, item, CurrentUp) == i.current.pos && EntriesIn(c, item, CurrentDown) == i.current.neg;
  }
}
