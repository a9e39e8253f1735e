/** The two delayed task lists of tasks.c over an N-bit tick count, and the scheduler with
    unbounded time they stand for.

    `time` is the number of ticks processed, `Low(time, m)` the tick count `xTickCount`, and
    `deadline` the unbounded time a blocked task is due. */
module Delays {
  import opened Common
  import opened Lists
  import opened Ticks

  /** `current` is the list `pxDelayedTaskList` points at, `overflow` the other one. */
  datatype Delays = Delays(
    m: nat,
    time: nat,
    current: seq<TaskId>,
    overflow: seq<TaskId>,
    value: map<TaskId, nat>,
    deadline: map<TaskId, nat>,
    nextUnblock: nat
  )

  ghost predicate ListOk(l: seq<TaskId>, d: Delays, origin: nat)
    requires d.m > 0
  {
    && Distinct(l) && Valued(l, d.value) && Sorted(l, d.value)
    && (forall t {:trigger t in l} :: t in l ==>
          t in d.deadline && d.value[t] == Low(d.deadline[t], d.m) && Origin(d.deadline[t], d.m) == origin)
  }

  /** Both lists are sorted; every time on the current list is still to come in this wrap
      period, every time on the overflow list lies in the next one; and the next unblock
      time is not after the head.  A task delayed by no ticks is due already, which is
      allowed until the last tick of the period. */
  ghost predicate Ok(d: Delays) {
    && d.m > 1
    && ListOk(d.current, d, Origin(d.time, d.m))
    && ListOk(d.overflow, d, Origin(d.time, d.m) + d.m)
    && (forall t :: t in d.current ==>
          t !in d.overflow && d.nextUnblock <= d.value[t]
          && d.time <= d.deadline[t] && (d.deadline[t] == d.time ==> Low(d.time, d.m) + 1 < d.m))
    && (forall t :: t in d.overflow ==> d.deadline[t] < d.time + d.m)
  }

  predicate Blocked(d: Delays, t: TaskId) {
    t in d.current || t in d.overflow
  }

  /** `prvResetNextTaskUnblockTime`. */
  function Reset(d: Delays): Delays
    requires Valued(d.current, d.value) && d.m > 0
  {
    d.(nextUnblock := if d.current == [] then d.m - 1 else d.value[d.current[0]])
  }

  /** The delayed part of `prvAddCurrentTaskToDelayedList` for a block of n ticks. */
  ghost function Enter(d: Delays, t: TaskId, n: nat): Delays
    requires Ok(d) && n < d.m
  {
    var wake := WrapAdd(Low(d.time, d.m), n, d.m);
    var r := d.(value := d.value[t := wake], deadline := d.deadline[t := d.time + n]);
    if wake < Low(d.time, d.m) then r.(overflow := Insert(d.overflow, r.value, t))
    else r.(current := Insert(d.current, r.value, t),
            nextUnblock := if wake < d.nextUnblock then wake else d.nextUnblock)
  }

  /** Taking a task off its delayed list, for whatever reason. */
  function Leave(d: Delays, t: TaskId): Delays {
    d.(current := Remove(d.current, t), overflow := Remove(d.overflow, t))
  }

  /** The loop of `xTaskIncrementTick` that unblocks the tasks whose time has come. */
  ghost function Unblock(d: Delays): Delays
    requires Valued(d.current, d.value) && d.m > 0
    decreases |d.current|
  {
    if d.current != [] && d.value[d.current[0]] <= Low(d.time, d.m) then Unblock(d.(current := d.current[1..]))
    else Reset(d)
  }

  /** `taskSWITCH_DELAYED_LISTS`. */
  function Switch(d: Delays): Delays
    requires Valued(d.overflow, d.value) && d.m > 0
  {
    Reset(d.(current := d.overflow, overflow := d.current))
  }

  /** The clock and the lists after the increment, before any task is unblocked. */
  ghost function Advance(d: Delays): Delays
    requires Ok(d)
  {
    var r := d.(time := d.time + 1);
    if Low(r.time, d.m) == 0 then Switch(r) else r
  }

  /** One processed tick of `xTaskIncrementTick`. */
  ghost function Tick(d: Delays): Delays
    requires Ok(d)
  {
    AdvanceKeepsValued(d);
    UnblockIfDue(Advance(d))
  }

  ghost function UnblockIfDue(d: Delays): Delays
    requires Valued(d.current, d.value) && d.m > 0
  {
    if Low(d.time, d.m) >= d.nextUnblock then Unblock(d) else d
  }

  lemma AdvanceKeepsValued(d: Delays)
    requires Ok(d)
    ensures Valued(Advance(d).current, Advance(d).value)
  {
  }

  lemma HeadIsLeast(l: seq<TaskId>, v: map<TaskId, nat>)
    requires Valued(l, v) && Sorted(l, v)
    ensures l == [] || (l[0] in l && forall t :: t in l ==> v[l[0]] <= v[t])
  {
  }

  // ------------------------------------------------------------------ entering and leaving

  lemma LowNext(t: nat, m: nat)
    requires m > 1
    ensures Low(t + 1, m) == if Low(t, m) + 1 == m then 0 else Low(t, m) + 1
    ensures Origin(t + 1, m) == if Low(t, m) + 1 == m then Origin(t, m) + m else Origin(t, m)
  {
    LowAdd(t, 1, m);
  }

  lemma ListKeptByEntry(l: seq<TaskId>, d: Delays, origin: nat, t: TaskId, wake: nat, due: nat)
    requires d.m > 0 && ListOk(l, d, origin) && t !in l
    ensures ListOk(l, d.(value := d.value[t := wake], deadline := d.deadline[t := due]), origin)
  {
  }

  lemma ListInserted(l: seq<TaskId>, d: Delays, origin: nat, t: TaskId)
    requires d.m > 0 && ListOk(l, d, origin) && t !in l && t in d.value && t in d.deadline
    requires d.value[t] == Low(d.deadline[t], d.m) && Origin(d.deadline[t], d.m) == origin
    ensures ListOk(Insert(l, d.value, t), d, origin)
    ensures forall u :: u in Insert(l, d.value, t) <==> u in l || u == t
  {
    InsertMembers(l, d.value, t);
    InsertSorted(l, d.value, t);
    InsertDistinct(l, d.value, t);
  }

  /** The lists with the new item's value and deadline set, before it is inserted. */
  lemma EntryIs(d: Delays, t: TaskId, n: nat, wake: nat)
    requires Ok(d) && !Blocked(d, t) && n < d.m && wake == WrapAdd(Low(d.time, d.m), n, d.m)
    ensures var r := d.(value := d.value[t := wake], deadline := d.deadline[t := d.time + n]);
            && ListOk(d.current, r, Origin(d.time, d.m)) && ListOk(d.overflow, r, Origin(d.time, d.m) + d.m)
            && wake == Low(d.time + n, d.m)
            && Origin(d.time + n, d.m) ==
               if wake < Low(d.time, d.m) then Origin(d.time, d.m) + d.m else Origin(d.time, d.m)
  {
    LowAdd(d.time, n, d.m);
    ListKeptByEntry(d.current, d, Origin(d.time, d.m), t, wake, d.time + n);
    ListKeptByEntry(d.overflow, d, Origin(d.time, d.m) + d.m, t, wake, d.time + n);
  }

  /** The lists after the new item has gone onto the one its time lies in. */
  lemma EnterLists(d: Delays, t: TaskId, n: nat)
    requires Ok(d) && !Blocked(d, t) && n < d.m
    ensures var e := Enter(d, t, n);
            && ListOk(e.current, e, Origin(d.time, d.m)) && ListOk(e.overflow, e, Origin(d.time, d.m) + d.m)
            && (if WrapAdd(Low(d.time, d.m), n, d.m) < Low(d.time, d.m) then
                  e.current == d.current && forall u :: u in e.overflow <==> u in d.overflow || u == t
                else
                  e.overflow == d.overflow && forall u :: u in e.current <==> u in d.current || u == t)
  {
    var wake := WrapAdd(Low(d.time, d.m), n, d.m);
    var r := d.(value := d.value[t := wake], deadline := d.deadline[t := d.time + n]);
    EntryIs(d, t, n, wake);
    if wake < Low(d.time, d.m) {
      ListInserted(d.overflow, r, Origin(d.time, d.m) + d.m, t);
    } else {
      ListInserted(d.current, r, Origin(d.time, d.m), t);
    }
  }

  lemma EnterLaterKeepsOk(d: Delays, t: TaskId, n: nat)
    requires Ok(d) && !Blocked(d, t) && n < d.m && WrapAdd(Low(d.time, d.m), n, d.m) < Low(d.time, d.m)
    ensures Ok(Enter(d, t, n))
    ensures forall u :: Blocked(Enter(d, t, n), u) <==> Blocked(d, u) || u == t
  {
    EnterLists(d, t, n);
  }

  lemma EnterNowKeepsOk(d: Delays, t: TaskId, n: nat)
    requires Ok(d) && !Blocked(d, t) && n < d.m && (n > 0 || Low(d.time, d.m) + 1 < d.m)
    requires WrapAdd(Low(d.time, d.m), n, d.m) >= Low(d.time, d.m)
    ensures Ok(Enter(d, t, n))
    ensures forall u :: Blocked(Enter(d, t, n), u) <==> Blocked(d, u) || u == t
  {
    EnterLists(d, t, n);
  }

  /** A block of no ticks is safe except at the last tick before the count wraps. */
  lemma EnterKeepsOk(d: Delays, t: TaskId, n: nat)
    requires Ok(d) && !Blocked(d, t) && n < d.m && (n > 0 || Low(d.time, d.m) + 1 < d.m)
    ensures Ok(Enter(d, t, n))
    ensures forall u :: Blocked(Enter(d, t, n), u) <==> Blocked(d, u) || u == t
  {
    if WrapAdd(Low(d.time, d.m), n, d.m) < Low(d.time, d.m) {
      EnterLaterKeepsOk(d, t, n);
    } else {
      EnterNowKeepsOk(d, t, n);
    }
  }

  /** At that last tick a block of no ticks leaves a task on the list that the switch
      asserts to be empty: the assertion holds at the next tick exactly when no task is
      delayed without ticks then. */
  lemma ZeroDelayBeforeWrap(d: Delays, t: TaskId)
    requires Ok(d) && !Blocked(d, t) && Low(d.time, d.m) + 1 == d.m
    ensures d.current == []
    ensures forall n: nat :: n < d.m ==> (Enter(d, t, n).current == [] <==> n > 0)
  {
    HeadIsLeast(d.current, d.value);
    forall n: nat | n < d.m ensures Enter(d, t, n).current == [] <==> n > 0 {
      LowAdd(d.time, n, d.m);
    }
  }

  lemma LeaveKeepsOk(d: Delays, t: TaskId)
    requires Ok(d)
    ensures Ok(Leave(d, t)) && Ok(Reset(Leave(d, t)))
    ensures forall u :: Blocked(Leave(d, t), u) <==> Blocked(d, u) && u != t
  {
    ListLeft(d.current, d, Origin(d.time, d.m), t);
    ListLeft(d.overflow, d, Origin(d.time, d.m) + d.m, t);
    assert Ok(Leave(d, t));
    ResetIsOk(Leave(d, t));
  }

  lemma ListLeft(l: seq<TaskId>, d: Delays, origin: nat, t: TaskId)
    requires d.m > 0 && ListOk(l, d, origin)
    ensures ListOk(Remove(l, t), d, origin)
    ensures forall u :: u in Remove(l, t) <==> u in l && u != t
  {
    RemoveFacts(l, t);
    RemoveSorted(l, d.value, t);
  }

  lemma ResetIsOk(d: Delays)
    requires Ok(d)
    ensures Ok(Reset(d))
  {
    HeadIsLeast(d.current, d.value);
  }

  // ------------------------------------------------------------------ a tick

  /** The assertion of the list switch: no task is left on the current list. */
  lemma ListEmptyAtSwitch(d: Delays)
    requires Ok(d) && Low(d.time + 1, d.m) == 0
    ensures d.current == []
  {
    LowNext(d.time, d.m);
    HeadIsLeast(d.current, d.value);
  }

  /** After the clock moved on, due tasks are those of value at most the tick count. */
  ghost predicate Advanced(d: Delays) {
    && d.m > 1
    && ListOk(d.current, d, Origin(d.time, d.m))
    && ListOk(d.overflow, d, Origin(d.time, d.m) + d.m)
    && (forall t :: t in d.current ==> t !in d.overflow && d.nextUnblock <= d.value[t])
    && (forall t :: t in d.overflow ==> d.deadline[t] < d.time + d.m)
  }

  lemma AdvanceIs(d: Delays)
    requires Ok(d)
    ensures Advanced(Advance(d))
    ensures var r := Advance(d); r.m == d.m && r.time == d.time + 1 && r.deadline == d.deadline && r.value == d.value
    ensures forall t :: Blocked(Advance(d), t) <==> Blocked(d, t)
  {
    LowNext(d.time, d.m);
    HeadIsLeast(d.overflow, d.value);
    if Low(d.time + 1, d.m) == 0 { ListEmptyAtSwitch(d); }
  }

  lemma TailOk(d: Delays)
    requires Advanced(d) && d.current != []
    ensures Advanced(d.(current := d.current[1..]))
    ensures forall t :: t in d.current <==> t == d.current[0] || t in d.current[1..]
    ensures d.current[0] !in d.current[1..]
  {
    assert d.current == [d.current[0]] + d.current[1..];
    assert forall t :: t in d.current[1..] ==> t in d.current;
  }

  lemma {:induction false} UnblockExact(d: Delays)
    requires Advanced(d)
    ensures Ok(Unblock(d))
    ensures var r := Unblock(d); r.m == d.m && r.time == d.time && r.deadline == d.deadline && r.value == d.value
    ensures forall t :: Blocked(Unblock(d), t) <==> Blocked(d, t) && d.time < d.deadline[t]
    decreases |d.current|
  {
    if d.current != [] && d.value[d.current[0]] <= Low(d.time, d.m) {
      TailOk(d);
      UnblockExact(d.(current := d.current[1..]));
    } else {
      NothingDue(d);
    }
  }

  lemma NothingDue(d: Delays)
    requires Advanced(d) && (d.current != [] ==> Low(d.time, d.m) < d.value[d.current[0]])
    ensures Ok(Reset(d))
    ensures forall t :: Blocked(d, t) ==> d.time < d.deadline[t]
  {
  }

  lemma NothingDueYet(d: Delays)
    requires Advanced(d) && Low(d.time, d.m) < d.nextUnblock
    ensures Ok(d)
    ensures forall t :: Blocked(d, t) ==> d.time < d.deadline[t]
  {
    assert forall t :: t in d.current ==> Low(d.time, d.m) < d.value[t];
  }

  /** A processed tick keeps the lists in order and unblocks exactly the tasks that are due. */
  lemma TickExact(d: Delays)
    requires Ok(d)
    ensures Ok(Tick(d))
    ensures var r := Tick(d); r.m == d.m && r.time == d.time + 1 && r.deadline == d.deadline
    ensures forall t :: Blocked(Tick(d), t) <==> Blocked(d, t) && d.time + 1 < d.deadline[t]
  {
    AdvanceIs(d);
    UnblockIfDueExact(Advance(d));
  }

  lemma UnblockIfDueExact(d: Delays)
    requires Advanced(d)
    ensures Ok(UnblockIfDue(d))
    ensures var r := UnblockIfDue(d); r.m == d.m && r.time == d.time && r.deadline == d.deadline
    ensures forall t :: Blocked(UnblockIfDue(d), t) <==> Blocked(d, t) && d.time < d.deadline[t]
  {
    if Low(d.time, d.m) >= d.nextUnblock { UnblockExact(d); } else { NothingDueYet(d); }
  }

  /** In N-bit terms: the current list holds values from the tick count on, the overflow
      list values below it. */
  lemma ValuesAroundTick(d: Delays)
    requires Ok(d)
    ensures forall t :: t in d.current ==>
            d.nextUnblock <= d.value[d.current[0]] <= d.value[t] && Low(d.time, d.m) <= d.value[t]
    ensures forall t :: t in d.overflow ==> d.value[t] < Low(d.time, d.m)
  {
    HeadIsLeast(d.current, d.value);
  }

  // ------------------------------------------------------------------ the ideal scheduler

  /** Unbounded time, no lists, no wrapping: each blocked task with its deadline. */
  datatype Ideal = Ideal(time: nat, sleeping: map<TaskId, nat>)

  ghost predicate Represents(d: Delays, i: Ideal) {
    && Ok(d) && i.time == d.time
    && (forall t :: t in i.sleeping <==> Blocked(d, t))
    && (forall t :: Blocked(d, t) ==> i.sleeping[t] == d.deadline[t])
  }

  function IdealEnter(i: Ideal, t: TaskId, n: nat): Ideal {
    i.(sleeping := i.sleeping[t := i.time + n])
  }

  function IdealLeave(i: Ideal, t: TaskId): Ideal {
    i.(sleeping := i.sleeping - {t})
  }

  function IdealTick(i: Ideal): Ideal {
    Ideal(i.time + 1, map t | t in i.sleeping && i.time + 1 < i.sleeping[t] :: i.sleeping[t])
  }

  datatype Op = Block(t: TaskId, ticks: nat) | Unblocked(t: TaskId, reset: bool) | Ticked

  /** Blocking is for fewer than 2^N ticks, and by no ticks not just before the wrap. */
  ghost predicate Allowed(d: Delays, op: Op)
    requires Ok(d)
  {
    op.Block? ==> !Blocked(d, op.t) && op.ticks < d.m && (op.ticks > 0 || Low(d.time, d.m) + 1 < d.m)
  }

  ghost function Apply(d: Delays, op: Op): Delays
    requires Ok(d) && Allowed(d, op)
  {
    match op
    case Block(t, n) => Enter(d, t, n)
    case Unblocked(t, reset) => LeaveKeepsOk(d, t); if reset then Reset(Leave(d, t)) else Leave(d, t)
    case Ticked => Tick(d)
  }

  function IdealApply(i: Ideal, op: Op): Ideal {
    match op
    case Block(t, n) => IdealEnter(i, t, n)
    case Unblocked(t, _) => IdealLeave(i, t)
    case Ticked => IdealTick(i)
  }

  lemma EnterRefines(d: Delays, i: Ideal, t: TaskId, n: nat)
    requires Represents(d, i) && !Blocked(d, t) && n < d.m && (n > 0 || Low(d.time, d.m) + 1 < d.m)
    ensures Represents(Enter(d, t, n), IdealEnter(i, t, n))
  {
    EnterKeepsOk(d, t, n);
  }

  lemma LeaveRefines(d: Delays, i: Ideal, t: TaskId)
    requires Represents(d, i)
    ensures Represents(Leave(d, t), IdealLeave(i, t)) && Represents(Reset(Leave(d, t)), IdealLeave(i, t))
  {
    LeaveKeepsOk(d, t);
  }

  lemma TickRefines(d: Delays, i: Ideal)
    requires Represents(d, i)
    ensures Represents(Tick(d), IdealTick(i))
  {
    TickExact(d);
  }

  lemma ApplyRefines(d: Delays, i: Ideal, op: Op)
    requires Represents(d, i) && Allowed(d, op)
    ensures Represents(Apply(d, op), IdealApply(i, op))
  {
    match op
    case Block(t, n) => EnterRefines(d, i, t, n);
    case Unblocked(t, _) => LeaveRefines(d, i, t);
    case Ticked => TickRefines(d, i);
  }

  lemma ApplyKeepsOk(d: Delays, op: Op)
    requires Ok(d) && Allowed(d, op)
    ensures Ok(Apply(d, op))
  {
    match op
    case Block(t, n) => EnterKeepsOk(d, t, n);
    case Unblocked(t, _) => LeaveKeepsOk(d, t);
    case Ticked => TickExact(d);
  }

  ghost predicate AllAllowed(d: Delays, ops: seq<Op>)
    requires Ok(d)
    decreases |ops|
  {
    ops == [] || (Allowed(d, ops[0]) && (ApplyKeepsOk(d, ops[0]); AllAllowed(Apply(d, ops[0]), ops[1..])))
  }

  ghost function ApplyAll(d: Delays, ops: seq<Op>): Delays
    requires Ok(d) && AllAllowed(d, ops)
    decreases |ops|
  {
    if ops == [] then d else ApplyKeepsOk(d, ops[0]); ApplyAll(Apply(d, ops[0]), ops[1..])
  }

  function IdealApplyAll(i: Ideal, ops: seq<Op>): Ideal
    decreases |ops|
  {
    if ops == [] then i else IdealApplyAll(IdealApply(i, ops[0]), ops[1..])
  }

  /** N-bit ticks and list switching refine the ideal scheduler: after any run of blocks,
      wake-ups and ticks, through any number of counter wraps, the same tasks are blocked
      until the same unbounded times. */
  lemma {:induction false} RunRefinesIdeal(d: Delays, i: Ideal, ops: seq<Op>)
    requires Represents(d, i) && AllAllowed(d, ops)
    ensures Represents(ApplyAll(d, ops), IdealApplyAll(i, ops))
    decreases |ops|
  {
    if ops != [] {
      ApplyRefines(d, i, ops[0]);
      RunRefinesIdeal(Apply(d, ops[0]), IdealApply(i, ops[0]), ops[1..]);
    }
  }
}
