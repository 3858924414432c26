/** An item of a list: two counters, each set to an absolute quantity by adding a difference. */
module ShoppingItems {
  import opened Util
  import opened Maps
  import opened PNCounters

  datatype Item = Item(uid: string, name: string, desired: Counter, current: Counter)

  function NewItem(origin: string, uid: string, name: string, desired: nat, current: nat): Item {
    Item(uid, name, Incremented(ZERO, origin, desired), Incremented(ZERO, origin, current))
  }

  /** The `int32_t` difference between the requested quantity and the present value. */
  ghost function Diff(c: Counter, quantity: int): int {
    Wrap32(Wrap32(quantity) - Wrap32(ValueOf(c)))
  }

  ghost function Assigned(c: Counter, origin: string, quantity: int): Counter {
    var diff := Diff(c, quantity);
    if diff > 0 then Incremented(c, origin, diff)
    else if diff < 0 then Decremented(c, origin, Wrap32(-diff))
    else c
  }

  function MergedItem(a: Item, b: Item): Item {
    Item(a.uid, b.name, MergedCounter(a.desired, b.desired), MergedCounter(a.current, b.current))
  }

  class ShoppingItem {
    var uid: string
    var name: string
    const desiredQuantity: PNCounter
    const currentQuantity: PNCounter

    ghost predicate Valid() { desiredQuantity != currentQuantity }

    function Abs(): Item
      reads this, desiredQuantity, currentQuantity
    {
      Item(uid, name, desiredQuantity.Abs(), currentQuantity.Abs())
    }

    /** A copy of a stored item. */
    constructor Copy(item: Item)
      ensures Valid() && Abs() == item
      ensures fresh(desiredQuantity) && fresh(currentQuantity)
    {
      uid, name := item.uid, item.name;
      desiredQuantity := new PNCounter(item.desired);
      currentQuantity := new PNCounter(item.current);
    }

    constructor (origin: string, uid: string, name: string, desired: nat, current: nat)
      ensures Valid() && Abs() == NewItem(origin, uid, name, desired, current)
      ensures fresh(desiredQuantity) && fresh(currentQuantity)
    {
      this.uid, this.name := uid, name;
      desiredQuantity := new PNCounter(ZERO);
      currentQuantity := new PNCounter(ZERO);
      new;
      desiredQuantity.Increment(origin, desired);
      currentQuantity.Increment(origin, current);
    }

    method GetDesiredQuantity() returns (q: int)
      ensures q == ToU32(ValueOf(Abs().desired))
    {
      var v := desiredQuantity.Value();
      q := ToU32(v);
    }

    method GetCurrentQuantity() returns (q: int)
      ensures q == ToU32(ValueOf(Abs().current))
    {
      var v := currentQuantity.Value();
      q := ToU32(v);
    }

    method SetCurrentQuantity(origin: string, quantity: int)
      requires Valid()
      modifies currentQuantity
      ensures Abs() == old(Abs()).(current := Assigned(old(Abs()).current, origin, quantity))
    {
      Assign(currentQuantity, origin, quantity);
    }

    method SetDesiredQuantity(origin: string, quantity: int)
      requires Valid()
      modifies desiredQuantity
      ensures Abs() == old(Abs()).(desired := Assigned(old(Abs()).desired, origin, quantity))
    {
      Assign(desiredQuantity, origin, quantity);
    }

    static method Assign(counter: PNCounter, origin: string, quantity: int)
      modifies counter
      ensures counter.Abs() == Assigned(old(counter.Abs()), origin, quantity)
    {
      var value := counter.Value();
      var diff := Wrap32(Wrap32(quantity) - Wrap32(value));
      if diff > 0 {
        counter.Increment(origin, diff);
      } else if diff < 0 {
        counter.Decrement(origin, Wrap32(-diff));
      }
    }

    method SetName(newName: string)
      modifies this`name
      ensures name == newName
    {
      name := newName;
    }

    /** Returns false, changing nothing, where the source throws: the two uids differ. */
    method Merge(other: Item) returns (ok: bool)
      requires Valid()
      modifies this, desiredQuantity, currentQuantity
      ensures ok == (old(uid) == other.uid)
      ensures Abs() == if ok then MergedItem(old(Abs()), other) else old(Abs())
    {
      if uid != other.uid {
        return false;
      }
      name := other.name;
      desiredQuantity.Merge(other.desired);
      currentQuantity.Merge(other.current);
      return true;
    }
  }

  /** Reading back through the `uint32_t` getter gives the requested quantity for every counter
      state, wrapped entries included, except when the difference is -2^31 and its negation
      does not fit `int32_t`. */
  lemma SetThenGet(c: Counter, origin: string, quantity: int)
    requires 0 <= quantity < TWO32
    ensures ToU32(ValueOf(Assigned(c, origin, quantity))) == quantity <==> Diff(c, quantity) != -TWO31
  {
    var c', diff := Assigned(c, origin, quantity), Diff(c, quantity);
    var k0 := AssignedExact(c, origin, quantity);
    var k1 := Multiple64(Exact(c));
    var k2 := Multiple64(Exact(c'));
    var k3 := Multiple32(quantity);
    var k4 := Multiple32(ValueOf(c));
    var k5 := Multiple32(Wrap32(quantity) - Wrap32(ValueOf(c)));
    assert TWO64 == TWO32 * TWO32;
    var j := quantity - ValueOf(c');
    if diff != -TWO31 {
      assert j == (k3 - k4 + k5 + TWO32 * (k0 - k1 + k2)) * TWO32;
      MultipleOf32(quantity, ValueOf(c'), k3 - k4 + k5 + TWO32 * (k0 - k1 + k2));
    } else {
      assert c' == c;
      assert j == diff + (k3 - k4 + k5) * TWO32;
      NotMultipleOf32(quantity, ValueOf(c'), k3 - k4 + k5);
    }
  }

  /** A client that asks for the quantity -2147483648, which converts to 2^31, reads back zero. */
  lemma SetThenGetFails(origin: string)
    ensures ToU32(-TWO31) == TWO31 && Assigned(ZERO, origin, TWO31) == ZERO
    ensures ToU32(ValueOf(Assigned(ZERO, origin, TWO31))) == 0 != TWO31
  {
  }

  lemma MultipleOf32(x: int, y: int, k: int)
    requires 0 <= x < TWO32 && x - y == k * TWO32
    ensures ToU32(y) == x
  {
  }

  lemma NotMultipleOf32(x: int, y: int, k: int)
    requires x - y == k * TWO32 - TWO31
    ensures ToU32(y) != x
  {
  }

  lemma Multiple64(x: int) returns (k: int)
    ensures Wrap64(x) == x - k * TWO64 && -TWO63 <= Wrap64(x) < TWO63
  {
    k := (x + TWO63) / TWO64;
  }

  lemma Multiple32(x: int) returns (k: int)
    ensures Wrap32(x) == x - k * TWO32
  {
    k := (x + TWO31) / TWO32;
  }

  lemma AssignedExact(c: Counter, origin: string, quantity: int) returns (k: int)
    ensures Diff(c, quantity) != -TWO31 ==>
      Exact(Assigned(c, origin, quantity)) == Exact(c) + Diff(c, quantity) - k * TWO64
    ensures NoWrap(c, origin, quantity) ==> k == 0
    ensures Diff(c, quantity) == -TWO31 ==> Assigned(c, origin, quantity) == c
  {
    var diff := Diff(c, quantity);
    if -TWO31 < diff { Wrap32Id(-diff); }
    k := 0;
    if diff > 0 {
      k := SumBump(c.pos, origin, diff);
    } else if -TWO31 < diff < 0 {
      k := SumBump(c.neg, origin, -diff);
      k := -k;
    }
  }

  /** The caller's entry does not reach 2^64. */
  ghost predicate NoWrap(c: Counter, origin: string, quantity: int) {
    var diff := Diff(c, quantity);
    Get(c.pos, origin) + diff < TWO64 && Get(c.neg, origin) - diff < TWO64
  }

  /** Only the caller's entry changes; without wrap-around nothing decreases. */
  lemma AssignedInflates(c: Counter, origin: string, quantity: int)
    ensures forall k | k != origin :: Get(Assigned(c, origin, quantity).pos, k) == Get(c.pos, k)
    ensures forall k | k != origin :: Get(Assigned(c, origin, quantity).neg, k) == Get(c.neg, k)
    ensures NoWrap(c, origin, quantity) ==> Leq(c, Assigned(c, origin, quantity))
  {
    var diff := Diff(c, quantity);
    if -TWO31 < diff { Wrap32Id(-diff); }
  }

  /** No `int32_t` operation of the setter overflows. */
  ghost predicate InRange32(c: Counter, quantity: int) {
    -TWO31 < Wrap32(quantity) - Wrap32(ValueOf(c)) < TWO31
  }

  /** Without overflow, the signed value becomes exactly the quantity if and only if the two
      conversions to `int32_t` dropped the same amount. */
  lemma SetThenValue(c: Counter, origin: string, quantity: int)
    requires 0 <= quantity < TWO32 && InRange32(c, quantity)
    ensures ValueOf(Assigned(c, origin, quantity)) == quantity
       <==> ValueOf(c) - Wrap32(ValueOf(c)) == quantity - Wrap32(quantity)
  {
    var k0 := AssignedExact(c, origin, quantity);
    var v, d := ValueOf(c), Wrap32(quantity) - Wrap32(ValueOf(c));
    Wrap32Id(d);
    var k1 := Multiple64(Exact(c));
    var k2 := Multiple64(Exact(Assigned(c, origin, quantity)));
    NoRoomToWrap(ValueOf(Assigned(c, origin, quantity)), v, d, quantity, k1 - k0 - k2);
  }

  lemma NoRoomToWrap(w: int, v: int, d: int, quantity: int, k: int)
    requires w == v + d + k * TWO64 && -TWO63 <= v < TWO63 && -TWO31 < d < TWO31 && 0 <= quantity < TWO32
    ensures w == quantity <==> v + d == quantity && k == 0
    ensures v + d == quantity && -TWO63 <= w < TWO63 ==> k == 0
  {
  }

  function Positive(x: int): nat { if x > 0 then x else 0 }

  /** The everyday case: sums within `int64_t`, value and quantity within `int32_t`. */
  lemma SetExactly(c: Counter, origin: string, quantity: int)
    requires 0 <= quantity < TWO31 && -TWO31 <= Exact(c) < TWO31 && -TWO31 < quantity - Exact(c) < TWO31
    requires Sum(c.pos) + Positive(quantity - Exact(c)) < TWO63
    requires Sum(c.neg) + Positive(Exact(c) - quantity) < TWO63
    ensures var c' := Assigned(c, origin, quantity);
      && ValueOf(c') == Exact(c') == quantity
      && Leq(c, c')
      && Sum(c'.pos) == Sum(c.pos) + Positive(quantity - Exact(c))
      && Sum(c'.neg) == Sum(c.neg) + Positive(Exact(c) - quantity)
    ensures InRange32(c, quantity) && NoWrap(c, origin, quantity)
  {
    DiffExactly(c, quantity);
    AssignedSums(c, origin, quantity, quantity - Exact(c));
    AssignedInflates(c, origin, quantity);
    Wrap64Id(quantity);
  }

  lemma AssignedSums(c: Counter, origin: string, quantity: int, d: int)
    requires d == Diff(c, quantity) && -TWO31 < d < TWO31
    requires Sum(c.pos) + Positive(d) < TWO63 && Sum(c.neg) + Positive(-d) < TWO63
    ensures var c' := Assigned(c, origin, quantity);
      Sum(c'.pos) == Sum(c.pos) + Positive(d) && Sum(c'.neg) == Sum(c.neg) + Positive(-d)
    ensures NoWrap(c, origin, quantity)
  {
    EntryAtMostSum(c.pos, origin);
    EntryAtMostSum(c.neg, origin);
    if d > 0 {
      var _ := SumBump(c.pos, origin, d);
    } else if d < 0 {
      Wrap32Id(-d);
      var _ := SumBump(c.neg, origin, -d);
    }
  }

  lemma DiffExactly(c: Counter, quantity: int)
    requires 0 <= quantity < TWO31 && -TWO31 <= Exact(c) < TWO31 && -TWO31 < quantity - Exact(c) < TWO31
    ensures Diff(c, quantity) == quantity - Exact(c) && InRange32(c, quantity)
    ensures ValueOf(c) == Exact(c)
  {
    Wrap64Id(Exact(c));
    Wrap32Id(Exact(c));
    Wrap32Id(quantity);
    Wrap32Id(quantity - Exact(c));
  }
}
