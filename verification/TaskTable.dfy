/** `uxTaskGetSystemState`: the table it writes holds every task exactly once and fits any
    array that passes its size check. */
module TaskTable {
  import opened Common
  import opened Lists
  import opened TaskLists
  import opened Kernel
  import opened KernelRuns

  /** The first k owners the walking index comes to. */
  function Visits(w: Walk<TaskId>, k: nat): (r: seq<TaskId>)
    requires w.Valid() && w.items != []
    ensures |r| == k
  {
    if k == 0 then [] else Visits(w, k - 1) + [Visited(w, k)]
  }

  /** The items from the index on, and then those before it. */
  function Turned(w: Walk<TaskId>): (r: seq<TaskId>)
    requires w.Valid()
    ensures |r| == |w.items|
  {
    w.items[w.index..] + w.items[..w.index]
  }

  lemma VisitedIs(w: Walk<TaskId>, k: nat)
    requires w.Valid() && w.items != [] && 0 < k <= |w.items|
    ensures Visited(w, k) == Turned(w)[k - 1]
  {
    NextByIs(w, k);
  }

  lemma {:induction false} VisitsAreTurned(w: Walk<TaskId>, k: nat)
    requires w.Valid() && w.items != [] && k <= |w.items|
    ensures Visits(w, k) == Turned(w)[..k]
  {
    if k > 0 {
      VisitsAreTurned(w, k - 1);
      VisitedIs(w, k);
      TakeOneMore(Turned(w), k);
    }
  }

  lemma TakeOneMore(s: seq<TaskId>, k: nat)
    requires 0 < k <= |s|
    ensures s[..k] == s[..k - 1] + [s[k - 1]]
  {
  }

  lemma RoundIsPermutation(w: Walk<TaskId>)
    requires w.Valid() && w.items != [] && Distinct(w.items)
    ensures Distinct(Visits(w, |w.items|))
    ensures forall t :: t in Visits(w, |w.items|) <==> t in w.items
  {
    VisitsAreTurned(w, |w.items|);
    assert Turned(w)[..|w.items|] == Turned(w);
    RotationIsPermutation(w.items, w.index);
  }

  lemma SlicesApart(s: seq<TaskId>, k: nat)
    requires k <= |s| && Distinct(s)
    ensures Distinct(s[..k]) && Distinct(s[k..]) && forall t :: t in s[k..] ==> t !in s[..k]
  {
    forall t | t in s[k..] ensures t !in s[..k] {
      var i :| 0 <= i < |s[k..]| && s[k..][i] == t;
      assert s[k + i] == t;
    }
  }

  lemma RotationIsPermutation(s: seq<TaskId>, k: nat)
    requires k <= |s| && Distinct(s)
    ensures Distinct(s[k..] + s[..k]) && forall t :: t in s[k..] + s[..k] <==> t in s
  {
    SlicesApart(s, k);
    DistinctJoin(s[k..], s[..k]);
    assert s == s[..k] + s[k..];
  }

  /** What `prvListTasksWithinSingleList` writes: it steps once to find where to stop, and
      then goes round the list until it is there again. */
  function Entries(w: Walk<TaskId>): (r: seq<TaskId>)
    requires w.Valid()
    ensures |r| == |w.items|
  {
    if w.items == [] then [] else Visits(NextEntry(w), |w.items|)
  }

  function AllEntries(lists: seq<Walk<TaskId>>): (r: seq<TaskId>)
    requires forall i :: 0 <= i < |lists| ==> lists[i].Valid()
  {
    if lists == [] then [] else Entries(lists[0]) + AllEntries(lists[1..])
  }

  /** Going round stops exactly when every item has been visited. */
  lemma RoundEndsAtFirst(w: Walk<TaskId>, k: nat)
    requires w.Valid() && w.items != [] && Distinct(w.items) && w.index > 0 && 0 < k <= |w.items|
    ensures Visited(w, k) == w.items[w.index - 1] <==> k == |w.items|
  {
    NextByIs(w, k);
  }

  /** The index after k steps, at most a round of them. */
  function IndexAfter(w: Walk<TaskId>, k: nat): nat {
    if w.index + k <= |w.items| then w.index + k else w.index + k - |w.items|
  }

  lemma RoundAt(w: Walk<TaskId>, k: nat)
    requires w.Valid() && Distinct(w.items) && w.index > 0 && k < |w.items|
    ensures IndexAfter(w, k) <= |w.items|
    ensures var next := NextEntry(Walk(w.items, IndexAfter(w, k)));
            next.index == IndexAfter(w, k + 1) && next.items[next.index - 1] == Turned(w)[k]
    ensures Turned(w)[k] == w.items[w.index - 1] <==> k + 1 == |w.items|
  {
    VisitedIs(w, k + 1);
    NextByIs(w, k + 1);
    RoundEndsAtFirst(w, k + 1);
  }

  lemma RoundIsEntries(w: Walk<TaskId>)
    requires w.Valid() && w.items != []
    ensures Entries(w) == Turned(NextEntry(w))
  {
    var first := NextEntry(w);
    VisitsAreTurned(first, |w.items|);
    assert Turned(first)[..|w.items|] == Turned(first);
  }

  /** `prvListTasksWithinSingleList`, writing from position `at` of the table; returns the list
      with its index where the loop leaves it, one further on. */
  method ListTasksWithinSingleList(table: array<TaskId>, at: nat, list: Walk<TaskId>)
    returns (n: nat, moved: Walk<TaskId>)
    requires list.Valid() && Distinct(list.items) && at + |list.items| <= table.Length
    modifies table
    ensures n == |list.items| && moved == (if list.items == [] then list else NextEntry(list))
    ensures table[..] == old(table[..at]) + Entries(list) + old(table[at + |list.items|..])
  {
    n, moved := 0, list;
    if list.items != [] {
      RoundIsEntries(list);
      moved := NextEntry(moved);
      n, moved := WriteRound(table, at, moved);
    }
  }

  /** The loop: from one item until it comes back there. */
  method WriteRound(table: array<TaskId>, at: nat, start: Walk<TaskId>) returns (n: nat, moved: Walk<TaskId>)
    requires start.Valid() && start.index > 0 && Distinct(start.items) && at + |start.items| <= table.Length
    modifies table
    ensures n == |start.items| && moved == start
    ensures table[..] == old(table[..at]) + Turned(start) + old(table[at + |start.items|..])
  {
    ghost var before, round := table[..], Turned(start);
    n, moved := 0, start;
    var first := moved.items[moved.index - 1];
    var more := true;
    while more
      invariant n <= |start.items| && moved == Walk(start.items, IndexAfter(start, n))
      invariant more <==> n < |start.items|
      invariant table[..] == Written(before, round, at, n)
      decreases |start.items| - n
    {
      RoundAt(start, n);
      WrittenNext(before, round, at, n);
      var next;
      moved, next := WriteNext(table, at + n, moved);
      n := n + 1;
      more := next != first;
    }
    assert round[..n] == round;
  }

  /** `listGET_OWNER_OF_NEXT_ENTRY`, and the entry for that owner. */
  method WriteNext(table: array<TaskId>, i: nat, list: Walk<TaskId>) returns (moved: Walk<TaskId>, owner: TaskId)
    requires list.Valid() && list.items != [] && i < table.Length
    modifies table
    ensures moved == NextEntry(list) && owner == moved.items[moved.index - 1]
    ensures table[..] == old(table[..])[i := owner]
  {
    moved := NextEntry(list);
    owner := moved.items[moved.index - 1];
    table[i] := owner;
  }

  /** The table with n entries of a round written into it. */
  ghost function Written(before: seq<TaskId>, round: seq<TaskId>, at: nat, n: nat): (r: seq<TaskId>)
    requires n <= |round| && at + n <= |before|
    ensures |r| == |before|
  {
    before[..at] + round[..n] + before[at + n..]
  }

  lemma WrittenNext(before: seq<TaskId>, round: seq<TaskId>, at: nat, n: nat)
    requires n < |round| && at + n < |before|
    ensures Written(before, round, at, n)[at + n := round[n]] == Written(before, round, at, n + 1)
  {
  }

  // ------------------------------------------------------------------ the whole table

  lemma EntriesPermute(w: Walk<TaskId>)
    requires w.Valid() && Distinct(w.items)
    ensures Distinct(Entries(w)) && forall t :: t in Entries(w) <==> t in w.items
  {
    if w.items != [] { RoundIsPermutation(NextEntry(w)); }
  }

  function Walks(l: Family<ListId>, ks: seq<ListId>): (r: seq<Walk<TaskId>>)
    ensures |r| == |ks| && forall i :: 0 <= i < |ks| ==> r[i] == WalkOf(l, ks[i])
  {
    if ks == [] then [] else [WalkOf(l, ks[0])] + Walks(l, ks[1..])
  }

  lemma WalksAreValid(l: Family<ListId>, ks: seq<ListId>)
    requires Consistent(l)
    ensures forall i :: 0 <= i < |ks| ==> Walks(l, ks)[i].Valid() && Distinct(Walks(l, ks)[i].items)
  {
    forall i | 0 <= i < |ks| ensures Walks(l, ks)[i].Valid() && Distinct(Walks(l, ks)[i].items) {
      assert ListWellFormed(l, ks[i]);
    }
  }

  lemma {:induction false} TableMembers(l: Family<ListId>, ks: seq<ListId>)
    requires Consistent(l) && Distinct(ks)
    requires forall i :: 0 <= i < |ks| ==> Walks(l, ks)[i].Valid()
    ensures Distinct(AllEntries(Walks(l, ks))) && |AllEntries(Walks(l, ks))| == Lengths(l, ks)
    ensures forall t :: t in AllEntries(Walks(l, ks)) <==> t in l.container && l.container[t] in ks
  {
    if ks != [] {
      assert ks == [ks[0]] + ks[1..];
      assert Walks(l, ks)[1..] == Walks(l, ks[1..]);
      WalksAreValid(l, ks[1..]);
      TableMembers(l, ks[1..]);
      assert ListWellFormed(l, ks[0]);
      EntriesPermute(WalkOf(l, ks[0]));
      DistinctJoin(Entries(WalkOf(l, ks[0])), AllEntries(Walks(l, ks[1..])));
    }
  }

  /** In every reachable state the table lists every task, whatever its state, exactly
      once, and is as long as `uxCurrentNumberOfTasks` says. */
  lemma TableListsEveryTaskOnce(s: Kernel, steps: seq<Step>, s': Kernel)
    requires Initial(s) && Inv(s) && Run(s, steps, s')
    ensures Inv(s') && forall i :: 0 <= i < |AllLists(s')| ==> Walks(s'.states, AllLists(s'))[i].Valid()
    ensures var table := AllEntries(Walks(s'.states, AllLists(s')));
            && Distinct(table) && |table| == s'.count && forall t :: t in table <==> t in s'.prio
  {
    RunKeepsInv(s, steps, s');
    AllListsAreAll(s');
    WalksAreValid(s'.states, AllLists(s'));
    TableMembers(s'.states, AllLists(s'));
    LengthsSum(s'.states, AllLists(s'));
  }

  lemma FirstOfRest(written: seq<TaskId>, lists: seq<Walk<TaskId>>, i: nat)
    requires i < |lists| && forall j :: 0 <= j < |lists| ==> lists[j].Valid()
    ensures written + AllEntries(lists[i..]) == (written + Entries(lists[i])) + AllEntries(lists[i + 1..])
    ensures |AllEntries(lists[i..])| >= |lists[i].items|
  {
    assert lists[i..][1..] == lists[i + 1..];
  }

  /** The table with its first entries written. */
  ghost function Filled(written: seq<TaskId>, before: seq<TaskId>): (r: seq<TaskId>)
    requires |written| <= |before|
    ensures |r| == |before|
  {
    written + before[|written|..]
  }

  lemma FilledNext(written: seq<TaskId>, entries: seq<TaskId>, before: seq<TaskId>)
    requires |written| + |entries| <= |before|
    ensures var r, n := Filled(written, before), |written|;
            r[..n] + entries + r[n + |entries|..] == Filled(written + entries, before)
  {
  }

  /** One list's entries behind those of the lists before it. */
  method AddList(table: array<TaskId>, n: nat, list: Walk<TaskId>, ghost written: seq<TaskId>,
                 ghost before: seq<TaskId>)
    returns (entries: nat)
    requires list.Valid() && Distinct(list.items) && n == |written| && n + |list.items| <= |before|
    requires table[..] == Filled(written, before)
    modifies table
    ensures entries == |list.items| && table[..] == Filled(written + Entries(list), before)
  {
    FilledNext(written, Entries(list), before);
    var moved;
    entries, moved := ListTasksWithinSingleList(table, n, list);
  }

  /** `uxTaskGetSystemState` on the lists in its order; `count` is the number of tasks. */
  method GetSystemState(table: array<TaskId>, lists: seq<Walk<TaskId>>, count: nat) returns (n: nat)
    requires forall i :: 0 <= i < |lists| ==> lists[i].Valid() && Distinct(lists[i].items)
    requires count == |AllEntries(lists)|
    modifies table
    ensures table.Length < count ==> n == 0 && table[..] == old(table[..])
    ensures count <= table.Length ==> n == count && table[..] == AllEntries(lists) + old(table[n..])
  {
    n := 0;
    if table.Length >= count {
      ghost var all, before, written := AllEntries(lists), table[..], [];
      for i := 0 to |lists|
        invariant n == |written| <= |before| && written + AllEntries(lists[i..]) == all
        invariant table[..] == Filled(written, before)
      {
        FirstOfRest(written, lists, i);
        var entries := AddList(table, n, lists[i], written, before);
        written, n := written + Entries(lists[i]), n + entries;
      }
      assert written == all by { assert lists[|lists|..] == []; }
    }
  }
}
