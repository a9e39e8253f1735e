/** The two list disciplines every kernel component uses, as functions on sequences.

    A list is the sequence of its items from the head; `v` gives each item's value
    (`xItemValue`).  `Insert` is what `vListInsert` does, appending is what
    `vListInsertEnd` does while nobody walks the list, and `Remove` is `uxListRemove`;
    `Walk` adds the walking index `pxIndex`.  The pointer implementation
    is proved against these functions in module LinkedList. */
module Lists {

  ghost predicate Distinct<T>(s: seq<T>) {
    forall i, j :: 0 <= i < j < |s| ==> s[i] != s[j]
  }

  ghost predicate Valued<T>(s: seq<T>, v: map<T, nat>) {
    forall x :: x in s ==> x in v
  }

  ghost predicate Sorted<T>(s: seq<T>, v: map<T, nat>)
    requires Valued(s, v)
  {
    forall i, j :: 0 <= i < j < |s| ==> v[s[i]] <= v[s[j]]
  }

  /** Insertion after every leading item whose value is not greater. */
  function Insert<T(==)>(s: seq<T>, v: map<T, nat>, x: T): (r: seq<T>)
    requires Valued(s, v) && x in v
    ensures |r| == |s| + 1
  {
    if s == [] || v[x] < v[s[0]] then [x] + s
    else [s[0]] + Insert(s[1..], v, x)
  }

  function Remove<T(==)>(s: seq<T>, x: T): (r: seq<T>)
    ensures x !in s ==> r == s
    ensures x in s ==> |r| == |s| - 1
  {
    if s == [] then []
    else if s[0] == x then s[1..]
    else [s[0]] + Remove(s[1..], x)
  }

  lemma {:induction false} InsertMembers<T>(s: seq<T>, v: map<T, nat>, x: T)
    requires Valued(s, v) && x in v
    ensures forall y :: y in Insert(s, v, x) <==> y == x || y in s
  {
    if s != [] {
      assert s == [s[0]] + s[1..];
      InsertMembers(s[1..], v, x);
    }
  }

  function InsertPosition<T>(s: seq<T>, v: map<T, nat>, x: T): (p: nat)
    requires Valued(s, v) && x in v
    ensures p <= |s|
  {
    if s == [] || v[x] < v[s[0]] then 0 else 1 + InsertPosition(s[1..], v, x)
  }

  lemma TakeFirst<T>(s: seq<T>, q: nat)
    requires q < |s|
    ensures s[..q + 1] == [s[0]] + s[1..][..q]
  {
  }

  /** The position is that of the first greater value. */
  lemma {:induction false} PositionSplits<T>(s: seq<T>, v: map<T, nat>, x: T)
    requires Valued(s, v) && x in v
    ensures var p := InsertPosition(s, v, x);
            && (forall y :: y in s[..p] ==> v[y] <= v[x])
            && (p < |s| ==> v[x] < v[s[p]])
  {
    if s != [] && v[s[0]] <= v[x] {
      var t := s[1..];
      var q := InsertPosition(t, v, x);
      PositionSplits(t, v, x);
      TakeFirst(s, q);
    }
  }

  lemma {:induction false} InsertAtPosition<T>(s: seq<T>, v: map<T, nat>, x: T)
    requires Valued(s, v) && x in v
    ensures var p := InsertPosition(s, v, x); Insert(s, v, x) == s[..p] + [x] + s[p..]
  {
    if s != [] && v[s[0]] <= v[x] {
      var t := s[1..];
      var q := InsertPosition(t, v, x);
      InsertAtPosition(t, v, x);
      TakeFirst(s, q);
      assert s[q + 1..] == t[q..];
    }
  }

  /** `Insert` splits the list at the first greater value. */
  lemma InsertSplits<T>(s: seq<T>, v: map<T, nat>, x: T)
    requires Valued(s, v) && x in v
    ensures var p := InsertPosition(s, v, x);
            && Insert(s, v, x) == s[..p] + [x] + s[p..]
            && (forall y :: y in s[..p] ==> v[y] <= v[x])
            && (p < |s| ==> v[x] < v[s[p]])
  {
    PositionSplits(s, v, x);
    InsertAtPosition(s, v, x);
  }

  lemma {:induction false} InsertPositionIs<T>(s: seq<T>, v: map<T, nat>, x: T, p: nat)
    requires Valued(s, v) && x in v && p <= |s|
    requires forall y :: y in s[..p] ==> v[y] <= v[x]
    requires p < |s| ==> v[x] < v[s[p]]
    ensures InsertPosition(s, v, x) == p
  {
    if p > 0 {
      assert s[0] in s[..p];
      assert s[..p][1..] == s[1..][..p - 1];
      InsertPositionIs(s[1..], v, x, p - 1);
    }
  }

  /** Sorted insertion keeps the list sorted. */
  lemma InsertSorted<T>(s: seq<T>, v: map<T, nat>, x: T)
    requires Valued(s, v) && x in v && Sorted(s, v)
    ensures Valued(Insert(s, v, x), v) && Sorted(Insert(s, v, x), v)
  {
    InsertSplits(s, v, x);
    InsertMembers(s, v, x);
    SplitSorted(s, v, x, InsertPosition(s, v, x));
  }

  lemma SplitSorted<T>(s: seq<T>, v: map<T, nat>, x: T, p: nat)
    requires Valued(s, v) && x in v && Sorted(s, v) && p <= |s|
    requires (forall y :: y in s[..p] ==> v[y] <= v[x]) && (p < |s| ==> v[x] < v[s[p]])
    ensures Valued(s[..p] + [x] + s[p..], v) && Sorted(s[..p] + [x] + s[p..], v)
  {
    var r := s[..p] + [x] + s[p..];
    forall i | 0 <= i < p ensures v[s[i]] <= v[x] { assert s[..p][i] == s[i]; }
    forall i, j | 0 <= i < j < |r| ensures v[r[i]] <= v[r[j]] {
      assert r[i] == (if i < p then s[i] else if i == p then x else s[i - 1]);
      assert r[j] == (if j < p then s[j] else if j == p then x else s[j - 1]);
    }
  }

  /** Sorted insertion is stable: the new item stands after every item of the same value
      and before every greater one, and the items already there keep their order. */
  lemma InsertStable<T>(s: seq<T>, v: map<T, nat>, x: T)
    requires Valued(s, v) && x in v && Sorted(s, v)
    ensures var p := InsertPosition(s, v, x);
            && Insert(s, v, x) == s[..p] + [x] + s[p..]
            && (forall y :: y in s[..p] ==> v[y] <= v[x])
            && (forall y :: y in s[p..] ==> v[x] < v[y])
  {
    InsertSplits(s, v, x);
  }

  lemma InsertDistinct<T>(s: seq<T>, v: map<T, nat>, x: T)
    requires Valued(s, v) && x in v && Distinct(s) && x !in s
    ensures Distinct(Insert(s, v, x))
  {
    InsertSplits(s, v, x);
  }

  /** An item of the greatest value goes to the end, which is the special case
      `vListInsert` makes of `portMAX_DELAY`. */
  lemma InsertGreatest<T>(s: seq<T>, v: map<T, nat>, x: T)
    requires Valued(s, v) && x in v
    requires forall y :: y in s ==> v[y] <= v[x]
    ensures Insert(s, v, x) == s + [x]
  {
    InsertPositionIs(s, v, x, |s|);
    InsertSplits(s, v, x);
  }

  lemma {:induction false} RemoveFirst<T>(s: seq<T>, p: nat)
    requires p < |s| && forall i :: 0 <= i < p ==> s[i] != s[p]
    ensures Remove(s, s[p]) == s[..p] + s[p + 1..]
  {
    if p > 0 {
      var t := s[1..];
      RemoveFirst(t, p - 1);
      assert s[..p] + s[p + 1..] == [s[0]] + (t[..p - 1] + t[p..]);
    }
  }

  lemma RemoveAt<T>(s: seq<T>, p: nat)
    requires p < |s| && Distinct(s)
    ensures Remove(s, s[p]) == s[..p] + s[p + 1..]
  {
    RemoveFirst(s, p);
  }

  lemma {:induction false} RemoveFacts<T>(s: seq<T>, x: T)
    requires Distinct(s)
    ensures Distinct(Remove(s, x))
    ensures forall y :: y in Remove(s, x) <==> y in s && y != x
  {
    if s != [] {
      var rest := s[1..];
      assert s == [s[0]] + rest;
      assert s[0] !in rest;
      if s[0] != x { RemoveFacts(rest, x); }
    }
  }

  lemma DropKeepsSorted<T>(s: seq<T>, v: map<T, nat>, p: nat)
    requires Valued(s, v) && Sorted(s, v) && p < |s|
    ensures var r := s[..p] + s[p + 1..]; Valued(r, v) && Sorted(r, v)
  {
    var r := s[..p] + s[p + 1..];
    forall i, j | 0 <= i < j < |r| ensures v[r[i]] <= v[r[j]] {
      assert r[i] == s[if i < p then i else i + 1] && r[j] == s[if j < p then j else j + 1];
    }
  }

  lemma RemoveSorted<T>(s: seq<T>, v: map<T, nat>, x: T)
    requires Valued(s, v) && Sorted(s, v) && Distinct(s)
    ensures Valued(Remove(s, x), v) && Sorted(Remove(s, x), v)
  {
    if x in s {
      var p :| 0 <= p < |s| && s[p] == x;
      RemoveAt(s, p);
      DropKeepsSorted(s, v, p);
    }
  }

  /** Inserting and then removing an item leaves the list as it was. */
  lemma {:induction false} RemoveUndoesInsert<T>(s: seq<T>, v: map<T, nat>, x: T)
    requires Valued(s, v) && x in v && x !in s
    ensures Remove(Insert(s, v, x), x) == s
  {
    if s != [] && v[s[0]] <= v[x] {
      RemoveUndoesInsert(s[1..], v, x);
      assert Insert(s, v, x)[1..] == Insert(s[1..], v, x);
    }
  }

  /** A list with its walking index: 0 stands for the end marker, k for the item
      `items[k - 1]`. */
  datatype Walk<T> = Walk(items: seq<T>, index: nat) {
    predicate Valid() {
      index <= |items|
    }
  }

  /** `vListInsertEnd` links the new item in just before the index. */
  function InsertEnd<T>(w: Walk<T>, x: T): (r: Walk<T>)
    requires w.Valid()
    ensures r.Valid() && |r.items| == |w.items| + 1
  {
    if w.index == 0 then w.(items := w.items + [x])
    else Walk(w.items[..w.index - 1] + [x] + w.items[w.index - 1..], w.index + 1)
  }

  /** `uxListRemove` of the item at position p; an index on it moves to the item before. */
  function Unlink<T>(w: Walk<T>, p: nat): (r: Walk<T>)
    requires w.Valid() && p < |w.items|
    ensures r.Valid() && |r.items| == |w.items| - 1
  {
    Walk(w.items[..p] + w.items[p + 1..], if w.index > p then w.index - 1 else w.index)
  }

  /** `listGET_OWNER_OF_NEXT_ENTRY`: advance the index, skipping the end marker. */
  function NextEntry<T>(w: Walk<T>): (r: Walk<T>)
    requires w.Valid() && w.items != []
    ensures r.Valid() && r.index > 0
  {
    w.(index := if w.index < |w.items| then w.index + 1 else 1)
  }

  function NextBy<T>(w: Walk<T>, k: nat): (r: Walk<T>)
    requires w.Valid() && w.items != []
    ensures r.Valid() && r.items == w.items && (k > 0 ==> r.index > 0)
  {
    if k == 0 then w else NextEntry(NextBy(w, k - 1))
  }

  /** The item the k-th of the following next-entry steps returns, k counting from 1. */
  function Visited<T>(w: Walk<T>, k: nat): (x: T)
    requires w.Valid() && w.items != [] && k > 0
    ensures x in w.items
  {
    NextBy(w, k).items[NextBy(w, k).index - 1]
  }

  lemma {:induction false} NextByIs<T>(w: Walk<T>, k: nat)
    requires w.Valid() && w.items != [] && 0 < k <= |w.items|
    ensures NextBy(w, k).index == if w.index + k <= |w.items| then w.index + k else w.index + k - |w.items|
  {
    if k > 1 { NextByIs(w, k - 1); }
  }

  /** On n items, n next-entry steps visit each item exactly once. */
  lemma VisitsEachOnce<T>(w: Walk<T>)
    requires w.Valid() && w.items != [] && Distinct(w.items)
    ensures forall j, k :: 0 < j < k <= |w.items| ==> Visited(w, j) != Visited(w, k)
    ensures forall x :: x in w.items ==> exists k :: 0 < k <= |w.items| && Visited(w, k) == x
  {
    var n := |w.items|;
    forall k | 0 < k <= n ensures NextBy(w, k).index == if w.index + k <= n then w.index + k else w.index + k - n {
      NextByIs(w, k);
    }
    forall x | x in w.items ensures exists k :: 0 < k <= n && Visited(w, k) == x {
      var p :| 0 <= p < n && w.items[p] == x;
      var k := if p + 1 > w.index then p + 1 - w.index else p + 1 - w.index + n;
      assert Visited(w, k) == x;
    }
  }

  /** An insert-end item is visited after every other item except the one the index
      stands on, which is the item visited most recently. */
  lemma InsertEndVisitedLast<T>(w: Walk<T>, x: T)
    requires w.Valid() && Distinct(w.items) && x !in w.items
    ensures var r, n := InsertEnd(w, x), |w.items|;
            if w.index == 0 then Visited(r, n + 1) == x
            else Visited(r, n) == x && Visited(r, n + 1) == w.items[w.index - 1]
  {
    var r, n := InsertEnd(w, x), |w.items|;
    NextByIs(r, n + 1);
    if w.index != 0 { NextByIs(r, n); }
  }
}
