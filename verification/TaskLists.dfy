/** A family of lists over one kind of list item, each item on at most one of them.

    `container` is the `pxContainer` of each item that is on a list.  The kernel keeps two
    such families: the state items of all tasks, and their event items. */
module TaskLists {
  import opened Common
  import opened Lists

  datatype Family<K> = Family(walk: map<K, Walk<TaskId>>, container: map<TaskId, K>)

  function WalkOf<K>(l: Family<K>, k: K): Walk<TaskId> {
    if k in l.walk then l.walk[k] else Walk([], 0)
  }

  /** The items of list k, from its head. */
  function At<K>(l: Family<K>, k: K): seq<TaskId> {
    WalkOf(l, k).items
  }

  ghost predicate ListWellFormed<K>(l: Family<K>, k: K) {
    && WalkOf(l, k).Valid()
    && Distinct(At(l, k))
    && (forall t :: t in At(l, k) <==> t in l.container && l.container[t] == k)
  }

  /** Every item is on exactly the list it names as its container, once. */
  ghost predicate Consistent<K(!new)>(l: Family<K>) {
    forall k :: ListWellFormed(l, k)
  }

  function IndexOf(s: seq<TaskId>, t: TaskId): (p: nat)
    requires t in s
    ensures p < |s| && s[p] == t
  {
    if s[0] == t then 0 else 1 + IndexOf(s[1..], t)
  }

  /** `uxListRemove`, nothing if the item is on no list. */
  function Detach<K(==,!new)>(l: Family<K>, t: TaskId): Family<K>
    requires Consistent(l)
  {
    if t !in l.container then l
    else
      var k := l.container[t];
      assert ListWellFormed(l, k);
      Family(l.walk[k := Unlink(WalkOf(l, k), IndexOf(At(l, k), t))], l.container - {t})
  }

  /** `vListInsertEnd`. */
  function Append<K(==,!new)>(l: Family<K>, k: K, t: TaskId): Family<K>
    requires Consistent(l)
  {
    assert ListWellFormed(l, k);
    Family(l.walk[k := InsertEnd(WalkOf(l, k), t)], l.container[t := k])
  }

  /** `vListInsert` by value; a walking index past the new item moves with its own. */
  function InsertByValue<K(==,!new)>(l: Family<K>, k: K, v: map<TaskId, nat>, t: TaskId): Family<K>
    requires Consistent(l) && Valued(At(l, k), v) && t in v
  {
    assert ListWellFormed(l, k);
    var w := WalkOf(l, k);
    var index := if w.index > InsertPosition(w.items, v, t) then w.index + 1 else w.index;
    Family(l.walk[k := Walk(Insert(w.items, v, t), index)], l.container[t := k])
  }

  lemma DetachFacts<K(!new)>(l: Family<K>, t: TaskId)
    requires Consistent(l)
    ensures Consistent(Detach(l, t)) && Detach(l, t).container == l.container - {t}
    ensures forall k :: At(Detach(l, t), k) == if t in l.container
            && l.container[t] == k then Remove(At(l, k), t) else At(l, k)
  {
    var r := Detach(l, t);
    if t in l.container {
      DetachKeepsList(l, t);
    }
    forall k ensures ListWellFormed(r, k) {
      assert ListWellFormed(l, k);
    }
  }

  /** The list the item was on. */
  lemma DetachKeepsList<K(!new)>(l: Family<K>, t: TaskId)
    requires Consistent(l) && t in l.container
    ensures ListWellFormed(Detach(l, t), l.container[t])
    ensures At(Detach(l, t), l.container[t]) == Remove(At(l, l.container[t]), t)
  {
    var k := l.container[t];
    assert ListWellFormed(l, k);
    RemoveAt(At(l, k), IndexOf(At(l, k), t));
    RemoveFacts(At(l, k), t);
  }

  lemma InsertEndMembers(w: Walk<TaskId>, t: TaskId)
    requires w.Valid() && Distinct(w.items) && t !in w.items
    ensures Distinct(InsertEnd(w, t).items)
    ensures forall u :: u in InsertEnd(w, t).items <==> u in w.items || u == t
  {
    if w.index != 0 {
      assert w.items == w.items[..w.index - 1] + w.items[w.index - 1..];
    }
  }

  lemma AppendFacts<K(!new)>(l: Family<K>, k: K, t: TaskId)
    requires Consistent(l) && t !in l.container
    ensures Consistent(Append(l, k, t)) && Append(l, k, t).container == l.container[t := k]
    ensures forall j :: j != k ==> At(Append(l, k, t), j) == At(l, j)
    ensures |At(Append(l, k, t), k)| == |At(l, k)| + 1
  {
    assert ListWellFormed(l, k);
    InsertEndMembers(WalkOf(l, k), t);
    forall j ensures ListWellFormed(Append(l, k, t), j) {
      assert ListWellFormed(l, j);
    }
  }

  lemma InsertByValueFacts<K(!new)>(l: Family<K>, k: K, v: map<TaskId, nat>, t: TaskId)
    requires Consistent(l) && t !in l.container && Valued(At(l, k), v) && t in v
    ensures var r := InsertByValue(l, k, v, t);
            && Consistent(r) && r.container == l.container[t := k]
            && (forall j :: j != k ==> At(r, j) == At(l, j))
            && At(r, k) == Insert(At(l, k), v, t)
  {
    assert ListWellFormed(l, k);
    InsertMembers(At(l, k), v, t);
    InsertDistinct(At(l, k), v, t);
    forall j ensures ListWellFormed(InsertByValue(l, k, v, t), j) {
      assert ListWellFormed(l, j);
    }
  }

  lemma MovedMap<K>(c: map<TaskId, K>, t: TaskId, k: K)
    ensures (c - {t})[t := k] == c[t := k]
  {
  }

  /** An item moved into another list by value. */
  lemma MovedByValue<K(!new)>(l: Family<K>, t: TaskId, k: K, v: map<TaskId, nat>)
    requires Consistent(l) && t in l.container && l.container[t] != k
    requires Consistent(Detach(l, t)) && Valued(At(Detach(l, t), k), v) && t in v
    ensures var r := InsertByValue(Detach(l, t), k, v, t);
            && Consistent(r) && r.container == l.container[t := k]
            && Valued(At(l, k), v) && At(r, k) == Insert(At(l, k), v, t)
            && (forall j :: j != k && j != l.container[t] ==> At(r, j) == At(l, j))
  {
    DetachFacts(l, t);
    InsertByValueFacts(Detach(l, t), k, v, t);
    MovedMap(l.container, t, k);
  }

  // ------------------------------------------------------------------ counting

  ghost function Lengths<K>(l: Family<K>, ks: seq<K>): nat {
    if ks == [] then 0 else |At(l, ks[0])| + Lengths(l, ks[1..])
  }

  /** The items on the lists ks, in the order the lists name them. */
  ghost function Listing<K>(l: Family<K>, ks: seq<K>): (r: seq<TaskId>)
    ensures |r| == Lengths(l, ks)
  {
    if ks == [] then [] else At(l, ks[0]) + Listing(l, ks[1..])
  }

  lemma DistinctJoin(a: seq<TaskId>, b: seq<TaskId>)
    requires Distinct(a) && Distinct(b) && forall t :: t in a ==> t !in b
    ensures Distinct(a + b)
  {
    forall i, j | 0 <= i < j < |a + b| ensures (a + b)[i] != (a + b)[j] {
      if i < |a| <= j { assert a[i] in a && b[j - |a|] in b; }
    }
  }

  lemma {:induction false} ListingMembers<K(!new)>(l: Family<K>, ks: seq<K>)
    requires Consistent(l) && Distinct(ks)
    ensures Distinct(Listing(l, ks))
    ensures forall t :: t in Listing(l, ks) <==> t in l.container && l.container[t] in ks
  {
    if ks != [] {
      assert ks == [ks[0]] + ks[1..];
      var first, rest := At(l, ks[0]), Listing(l, ks[1..]);
      ListingMembers(l, ks[1..]);
      assert ListWellFormed(l, ks[0]);
      assert ks[0] !in ks[1..];
      forall t | t in first ensures t !in rest {
        assert l.container[t] == ks[0];
      }
      DistinctJoin(first, rest);
    }
  }

  lemma {:induction false} DistinctCount(s: seq<TaskId>, u: set<TaskId>)
    requires Distinct(s) && forall t :: t in s <==> t in u
    ensures |s| == |u|
  {
    if s == [] {
      assert u == {};
    } else {
      assert s == [s[0]] + s[1..];
      DistinctCount(s[1..], u - {s[0]});
    }
  }

  /** When the lists ks are all the lists items are on, their lengths sum to the number of
      items. */
  lemma LengthsSum<K(!new)>(l: Family<K>, ks: seq<K>)
    requires Consistent(l) && Distinct(ks) && forall t :: t in l.container ==> l.container[t] in ks
    ensures Lengths(l, ks) == |l.container.Keys|
  {
    ListingMembers(l, ks);
    DistinctCount(Listing(l, ks), l.container.Keys);
  }
}
