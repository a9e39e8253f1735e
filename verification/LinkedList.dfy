/** The intrusive circular doubly linked list of list.c, on the heap.

    `KernelList.ring` is the ghost circle of items: the end marker, then the items from
    the head.  `Valid` ties the pointers to it, and every method is proved against the
    functions of module Lists. */
module LinkedList {
  import opened Lists

  /** `ListItem_t`; the end marker of a list is an item too. */
  class ListItem {
    var value: nat             // xItemValue
    var next: ListItem?        // pxNext
    var previous: ListItem?    // pxPrevious
    var container: KernelList? // pxContainer

    /** `vListInitialiseItem`. */
    constructor (v: nat)
      ensures value == v && container == null
    {
      value, next, previous, container := v, null, null, null;
    }
  }

  ghost function Succ(p: nat, n: nat): (q: nat)
    requires p < n
    ensures q < n
  {
    if p + 1 < n then p + 1 else 0
  }

  ghost predicate LinkedAt(r: seq<ListItem>, i: nat)
    requires i < |r|
    reads r
  {
    r[i].next == r[Succ(i, |r|)] && r[Succ(i, |r|)].previous == r[i]
  }

  ghost predicate Linked(r: seq<ListItem>)
    reads r
  {
    forall i :: 0 <= i < |r| ==> LinkedAt(r, i)
  }

  /** The circle with `x` put after position p. */
  ghost function Spliced(r: seq<ListItem>, p: nat, x: ListItem): (t: seq<ListItem>)
    requires p < |r|
  {
    r[..p + 1] + [x] + r[p + 1..]
  }

  lemma SplicedFacts(r: seq<ListItem>, p: nat, x: ListItem)
    requires p < |r| && Distinct(r) && x !in r
    ensures Distinct(Spliced(r, p, x)) && |Spliced(r, p, x)| == |r| + 1 && Spliced(r, p, x)[0] == r[0]
    ensures forall y :: y in Spliced(r, p, x) <==> y == x || y in r
  {
    var t := Spliced(r, p, x);
    assert r == r[..p + 1] + r[p + 1..];
    assert forall i :: 0 <= i < |t| ==> t[i] == if i <= p then r[i] else if i == p + 1 then x else r[i - 1];
  }

  /** A circle whose only broken link is the one after p is whole again once `x` stands
      in the gap. */
  lemma SplicedLinked(r: seq<ListItem>, p: nat, x: ListItem)
    requires p < |r|
    requires forall i :: 0 <= i < |r| && i != p ==> LinkedAt(r, i)
    requires r[p].next == x && x.previous == r[p]
    requires x.next == r[Succ(p, |r|)] && r[Succ(p, |r|)].previous == x
    ensures Linked(Spliced(r, p, x))
  {
    var t, n := Spliced(r, p, x), |r|;
    forall i | 0 <= i < |t| ensures LinkedAt(t, i) {
      if i < p {
        assert LinkedAt(r, i) && t[i] == r[i] && t[i + 1] == r[i + 1] && Succ(i, n) == i + 1;
      } else if i > p + 1 {
        assert LinkedAt(r, i - 1) && t[i] == r[i - 1] && t[Succ(i, |t|)] == r[Succ(i - 1, n)];
      }
    }
  }

  lemma Apart(r: seq<ListItem>, p: nat)
    requires p < |r| && Distinct(r)
    ensures forall i :: 0 <= i < |r| && i != p ==> r[i] != r[p]
    ensures forall i :: 0 <= i < |r| && i != p ==> r[Succ(i, |r|)] != r[Succ(p, |r|)]
  {
  }

  lemma Neighbours(r: seq<ListItem>, p: nat)
    requires Linked(r) && p < |r|
    ensures r[p].next == r[Succ(p, |r|)]
    ensures r[Succ(p, |r|)].previous == r[p]
  {
    assert LinkedAt(r, p);
  }

  /** Splicing behind the last item not greater is sorted insertion. */
  lemma SplicedIsInsert(r: seq<ListItem>, v: map<ListItem, nat>, x: ListItem, p: nat)
    requires p < |r| && Valued(r[1..], v) && x in v
    requires forall y :: y in r[1..p + 1] ==> v[y] <= v[x]
    requires p + 1 < |r| ==> v[x] < v[r[p + 1]]
    ensures Spliced(r, p, x)[1..] == Lists.Insert(r[1..], v, x)
  {
    assert r[1..][..p] == r[1..p + 1];
    InsertPositionIs(r[1..], v, x, p);
    InsertSplits(r[1..], v, x);
  }

  /** Splicing just before position q is insert-end of a list whose index is there. */
  lemma SplicedIsInsertEnd(r: seq<ListItem>, q: nat, x: ListItem)
    requires q < |r|
    ensures var t, q' := Spliced(r, if q == 0 then |r| - 1 else q - 1, x), if q == 0 then 0 else q + 1;
            t[q'] == r[q] && Walk(t[1..], q') == Lists.InsertEnd(Walk(r[1..], q), x)
  {
    assert r[..|r|] == r && r[|r|..] == [];
  }

  /** The circle without its item at position p. */
  ghost function Without(r: seq<ListItem>, p: nat): (t: seq<ListItem>)
    requires 0 < p < |r|
    ensures |t| == |r| - 1
  {
    r[..p] + r[p + 1..]
  }

  lemma WithoutFacts(r: seq<ListItem>, p: nat)
    requires 0 < p < |r| && Distinct(r)
    ensures Distinct(Without(r, p)) && Without(r, p)[0] == r[0]
    ensures forall y :: y in Without(r, p) <==> y in r && y != r[p]
  {
    var t := Without(r, p);
    assert forall i :: 0 <= i < |t| ==> t[i] == if i < p then r[i] else r[i + 1];
    assert r == r[..p] + [r[p]] + r[p + 1..];
  }

  lemma WithoutLinked(r: seq<ListItem>, p: nat)
    requires 0 < p < |r|
    requires forall i :: 0 <= i < |r| && i != p && i != p - 1 ==> LinkedAt(r, i)
    requires r[p - 1].next == r[Succ(p, |r|)] && r[Succ(p, |r|)].previous == r[p - 1]
    ensures Linked(Without(r, p))
  {
    var t, n := Without(r, p), |r|;
    forall i | 0 <= i < |t| ensures LinkedAt(t, i) {
      if i < p - 1 {
        assert LinkedAt(r, i) && t[i] == r[i] && t[i + 1] == r[i + 1];
      } else if i == p - 1 {
        assert t[i] == r[i] && t[Succ(i, |t|)] == r[Succ(p, n)];
      } else {
        assert LinkedAt(r, i + 1) && t[i] == r[i + 1] && t[Succ(i, |t|)] == r[Succ(i + 1, n)];
      }
    }
  }

  lemma WithoutIsUnlink(r: seq<ListItem>, p: nat, q: nat)
    requires 0 < p < |r| && q < |r|
    ensures var t, q' := Without(r, p), if q >= p then q - 1 else q;
            t[q'] == r[if q == p then p - 1 else q] && Walk(t[1..], q') == Unlink(Walk(r[1..], q), p - 1)
  {
    assert r[1..][..p - 1] == r[1..p];
    assert r[1..][p..] == r[p + 1..];
  }

  /** `List_t`. */
  class KernelList {
    const maxDelay: nat        // portMAX_DELAY
    const end: ListItem        // xListEnd
    var index: ListItem        // pxIndex
    var count: nat             // uxNumberOfItems
    ghost var ring: seq<ListItem>

    ghost predicate Valid()
      reads this, end, ring
    {
      && |ring| == count + 1 && ring[0] == end
      && Distinct(ring)
      && Linked(ring) && Owned(ring)
      && index in ring
      && end.value == maxDelay
    }

    ghost predicate Owned(r: seq<ListItem>)
      reads r
    {
      forall x :: x in r ==> x.value <= maxDelay && x.container == if x == end then null else this
    }

    /** The items from the head. */
    ghost function Items(): (s: seq<ListItem>)
      requires |ring| > 0
      reads this
    {
      ring[1..]
    }

    /** `vListInitialise`. */
    constructor (maxDelay: nat)
      ensures Valid() && ring == [end] && this.maxDelay == maxDelay && fresh(end)
    {
      var e := new ListItem(maxDelay);
      this.maxDelay, end, index, count, ring := maxDelay, e, e, 0, [e];
      new;
      end.next, end.previous := end, end;
    }

    /** The pointer assignments both insertions make. */
    static method Splice(x: ListItem, before: ListItem, after: ListItem, ghost r: seq<ListItem>, ghost p: nat)
      requires Distinct(r) && Linked(r) && x !in r && p < |r|
      requires before == r[p] && after == r[Succ(p, |r|)]
      modifies x, before, after
      ensures Linked(Spliced(r, p, x))
      ensures x.value == old(x.value)
      ensures forall y :: y in r ==> y.value == old(y.value) && y.container == old(y.container)
    {
      Apart(r, p);
      x.next := after;
      after.previous := x;
      x.previous := before;
      before.next := x;
      forall i | 0 <= i < |r| && i != p ensures LinkedAt(r, i) { assert old(LinkedAt(r, i)); }
      SplicedLinked(r, p, x);
    }

    static method Unsplice(x: ListItem, before: ListItem, after: ListItem, ghost r: seq<ListItem>, ghost p: nat)
      requires 0 < p < |r| && Distinct(r) && Linked(r) && x == r[p]
      requires before == r[p - 1] && after == r[Succ(p, |r|)]
      modifies before, after
      ensures Linked(Without(r, p))
      ensures forall y :: y in r ==> y.value == old(y.value) && y.container == old(y.container)
    {
      Apart(r, p);
      Apart(r, p - 1);
      after.previous := before;
      before.next := after;
      forall i | 0 <= i < |r| && i != p && i != p - 1 ensures LinkedAt(r, i) { assert old(LinkedAt(r, i)); }
      WithoutLinked(r, p);
    }

    /** The item on the circle of this list, which does not know it yet. */
    method Enter(x: ListItem, before: ListItem, after: ListItem, ghost r: seq<ListItem>, ghost p: nat)
      requires Distinct(r) && Linked(r) && Owned(r) && x !in r && x != end && p < |r| && x.value <= maxDelay
      requires before == r[p] && after == r[Succ(p, |r|)]
      modifies x, before, after
      ensures Linked(Spliced(r, p, x)) && Owned(Spliced(r, p, x))
      ensures x.value == old(x.value) && forall y :: y in r ==> y.value == old(y.value)
    {
      ghost var t := Spliced(r, p, x);
      SplicedFacts(r, p, x);
      Splice(x, before, after, r, p);
      label Linked:
      x.container := this;
      forall i | 0 <= i < |t| ensures LinkedAt(t, i) { assert old@Linked(LinkedAt(t, i)); }
    }

    /** The item off the circle, which still counts it. */
    method Leave(x: ListItem, before: ListItem, after: ListItem, ghost r: seq<ListItem>, ghost p: nat)
      requires 0 < p < |r| && Distinct(r) && Linked(r) && Owned(r) && x == r[p]
      requires before == r[p - 1] && after == r[Succ(p, |r|)]
      modifies x, before, after
      ensures Linked(Without(r, p)) && Owned(Without(r, p)) && x.container == null
      ensures forall y :: y in r ==> y.value == old(y.value)
    {
      ghost var t := Without(r, p);
      WithoutFacts(r, p);
      Unsplice(x, before, after, r, p);
      x.container := null;
      assert x !in t;
    }

    method Join(x: ListItem, before: ListItem, after: ListItem, ghost p: nat)
      requires Valid() && x !in ring && p < |ring| && x.value <= maxDelay
      requires before == ring[p] && after == ring[Succ(p, |ring|)]
      modifies this`count, this`ring, x, before, after
      ensures Valid() && ring == Spliced(old(ring), p, x)
      ensures x.value == old(x.value) && forall y :: y in old(ring) ==> y.value == old(y.value)
    {
      ghost var t := Spliced(ring, p, x);
      assert Distinct(t) && |t| == count + 2 && t[0] == end && index in t by { SplicedFacts(ring, p, x); }
      Enter(x, before, after, ring, p);
      count, ring := count + 1, t;
    }

    ghost function Values(): (v: map<ListItem, nat>)
      requires |ring| > 0
      reads this, ring
      ensures Valued(Items(), v)
    {
      map y | y in Items() :: y.value
    }

    ghost function Position(x: ListItem): (p: nat)
      requires x in ring
      reads this
      ensures p < |ring| && ring[p] == x
    {
      var p: nat :| p < |ring| && ring[p] == x; p
    }

    /** The list as its items and the position of its walking index. */
    ghost function View(): (w: Walk<ListItem>)
      requires Valid()
      reads this, end, ring
      ensures w.Valid()
    {
      Walk(Items(), Position(index))
    }

    /** The search of `vListInsert`: the last item whose value is not greater than `x`'s. */
    method FindPlace(x: ListItem) returns (cursor: ListItem, ghost p: nat)
      requires Valid() && x.value <= maxDelay
      ensures p < |ring| && cursor == ring[p]
      ensures forall y :: y in ring[1..p + 1] ==> y.value <= x.value
      ensures p + 1 < |ring| ==> x.value < ring[p + 1].value
    {
      if x.value == maxDelay {
        Neighbours(ring, |ring| - 1);
        cursor, p := end.previous, |ring| - 1;
        assert forall y :: y in ring[1..p + 1] ==> y in ring;
      } else {
        cursor, p := end, 0;
        Neighbours(ring, 0);
        while cursor.next.value <= x.value
          invariant p < |ring| && cursor == ring[p] && cursor.next == ring[Succ(p, |ring|)]
          invariant forall y :: y in ring[1..p + 1] ==> y.value <= x.value
          decreases |ring| - p
          modifies {}
        {
          assert ring[1..p + 2] == ring[1..p + 1] + [ring[p + 1]];
          cursor, p := cursor.next, p + 1;
          Neighbours(ring, p);
        }
      }
    }

    /** `vListInsert`. */
    method Insert(x: ListItem)
      requires Valid() && x !in ring && x.value <= maxDelay
      modifies this`count, this`ring, ring, x
      ensures Valid() && x.value == old(x.value) && forall y :: y in old(ring) ==> y.value == old(y.value)
      ensures Items() == Lists.Insert(old(Items()), old(Values())[x := old(x.value)], x)
    {
      var cursor, p := FindPlace(x);
      PlaceIsInsert(x, p);
      Neighbours(ring, p);
      Join(x, cursor, cursor.next, p);
    }

    lemma PlaceIsInsert(x: ListItem, p: nat)
      requires |ring| > 0 && x !in ring && p < |ring|
      requires forall y :: y in ring[1..p + 1] ==> y.value <= x.value
      requires p + 1 < |ring| ==> x.value < ring[p + 1].value
      ensures Spliced(ring, p, x)[1..] == Lists.Insert(Items(), Values()[x := x.value], x)
    {
      var v := Values()[x := x.value];
      assert forall y :: y in ring[1..p + 1] ==> y in ring;
      assert p + 1 < |ring| ==> ring[p + 1] in ring[1..];
      SplicedIsInsert(ring, v, x, p);
    }

    /** `vListInsertEnd`. */
    method InsertEnd(x: ListItem)
      requires Valid() && x !in ring && x.value <= maxDelay
      modifies this`count, this`ring, ring, x
      ensures Valid() && x.value == old(x.value) && forall y :: y in old(ring) ==> y.value == old(y.value)
      ensures View() == Lists.InsertEnd(old(View()), x)
    {
      ghost var p := Position(index);
      ghost var before := if p == 0 then |ring| - 1 else p - 1;
      Neighbours(ring, before);
      SplicedIsInsertEnd(ring, p, x);
      Join(x, index.previous, index, before);
      PositionIs(if p == 0 then 0 else p + 1);
    }

    lemma PositionIs(p: nat)
      requires Distinct(ring) && p < |ring| && index == ring[p]
      ensures Position(index) == p
    {
    }

    method Detach(x: ListItem, ghost p: nat)
      requires Valid() && 0 < p < |ring| && x == ring[p]
      modifies this`count, this`index, this`ring, ring
      ensures Valid() && x.container == null && forall y :: y in old(ring) ==> y.value == old(y.value)
      ensures ring == Without(old(ring), p) && index == if old(index) == x then old(ring)[p - 1] else old(index)
    {
      ghost var r, t := ring, Without(ring, p);
      Neighbours(r, p);
      Neighbours(r, p - 1);
      var before := x.previous;
      assert Distinct(t) && t[0] == end && before in t && (index != x ==> index in t) by { WithoutFacts(r, p); }
      Leave(x, before, x.next, r, p);
      if index == x {
        index := before;
      }
      count, ring := count - 1, t;
    }

    /** An index on the item taken off has moved to the one before it. */
    lemma IndexAfter(r: seq<ListItem>, p: nat, q: nat)
      requires Distinct(r) && 0 < p < |r| && q < |r| && ring == Without(r, p) && Distinct(ring)
      requires index == if q == p then r[p - 1] else r[q]
      ensures index in ring && Position(index) == if q >= p then q - 1 else q
    {
      assert ring[if q >= p then q - 1 else q] == index;
      PositionIs(if q >= p then q - 1 else q);
    }

    /** `uxListRemove`. */
    method Remove(x: ListItem, ghost p: nat) returns (remaining: nat)
      requires Valid() && 0 < p < |ring| && x == ring[p]
      modifies this`count, this`index, this`ring, ring
      ensures Valid() && x.container == null && forall y :: y in old(ring) ==> y.value == old(y.value)
      ensures View() == Unlink(old(View()), p - 1)
      ensures remaining == |Items()|
    {
      ghost var r, q := ring, Position(index);
      WithoutIsUnlink(r, p, q);
      Detach(x, p);
      IndexAfter(r, p, q);
      remaining := count;
    }

    /** `listGET_OWNER_OF_NEXT_ENTRY`. */
    method NextEntry() returns (x: ListItem)
      requires Valid() && count > 0
      modifies this`index
      ensures Valid() && View() == Lists.NextEntry(old(View()))
      ensures x == Items()[View().index - 1]
    {
      Neighbours(ring, Position(index));
      Neighbours(ring, 0);
      ghost var p := Succ(Position(index), |ring|);
      index := index.next;
      if index == end {
        index := index.next;
        p := 1;
      }
      PositionIs(p);
      x := index;
    }
  }
}
