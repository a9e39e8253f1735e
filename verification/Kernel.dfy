/** The task lists and the tick of tasks.c: ready, delayed, suspended and terminated tasks,
    ticks pended while the scheduler is suspended, and the choice of the running task.

    Each critical section and each stretch with the scheduler suspended is a step.  Which
    step comes next is left open, so the results hold for every schedule. */
module Kernel {
  import opened Common
  import opened Lists
  import opened TaskLists
  import opened Ticks
  import D = Delays

  /** The lists a state item can be on; `DelayedList(b)` are the two delayed lists. */
  datatype ListId = ReadyList(priority: nat) | DelayedList(second: bool) | SuspendedList | TerminationList

  /** The lists an event item can be on. */
  datatype EventList = PendingReady | EventOf(id: nat)

  /** What a task that blocks waits for, beside time: an event, on the list of which it
      stands in value order or at the end, or its own notification. */
  datatype WaitsFor = Nothing | Event(id: nat, ordered: bool) | Notification

  datatype Kernel = Kernel(
    m: nat,                           // 2^N
    maxPriorities: nat,               // configMAX_PRIORITIES
    tick: nat,                        // xTickCount
    time: nat,                        // ticks processed since start
    received: nat,                    // tick interrupts since start
    pended: nat,                      // uxPendedTicks
    suspended: nat,                   // uxSchedulerSuspended
    nextUnblock: nat,                 // xNextTaskUnblockTime
    second: bool,                     // pxDelayedTaskList is &xDelayedTaskList2
    states: Family<ListId>,           // the xStateListItem of every task
    events: Family<EventList>,        // the xEventListItem of every task
    value: map<TaskId, nat>,          // values of the state items
    eventValue: map<TaskId, nat>,     // values of the event items
    deadline: map<TaskId, nat>,       // unbounded time each delayed task is due
    prio: map<TaskId, nat>,           // uxPriority of every task
    current: TaskId,                  // pxCurrentTCB
    idle: TaskId,                     // xIdleTaskHandle
    top: nat,                         // uxTopReadyPriority
    count: nat,                       // uxCurrentNumberOfTasks
    deleted: nat,                     // uxDeletedTasksWaitingCleanUp
    notifyWaiting: set<TaskId>        // ucNotifyState is taskWAITING_NOTIFICATION
  )

  predicate On(s: Kernel, t: TaskId, k: ListId) {
    t in s.states.container && s.states.container[t] == k
  }

  predicate IsReady(s: Kernel, t: TaskId) {
    t in s.states.container && s.states.container[t].ReadyList?
  }

  function Delayed(s: Kernel): ListId {
    DelayedList(s.second)
  }

  function Overflow(s: Kernel): ListId {
    DelayedList(!s.second)
  }

  function Max(a: nat, b: nat): nat {
    if a < b then b else a
  }

  /** The delayed lists with their clock. */
  function View(s: Kernel): D.Delays {
    D.Delays(s.m, s.time, At(s.states, Delayed(s)), At(s.states, Overflow(s)), s.value, s.deadline, s.nextUnblock)
  }

  // ------------------------------------------------------------------ the invariant

  /** Every task has its state item on one list; ready tasks are on the list of their own
      priority, none above `uxTopReadyPriority`; the idle task is always ready. */
  ghost predicate Base(s: Kernel) {
    && Consistent(s.states) && Consistent(s.events)
    && s.states.container.Keys == s.prio.Keys
    && s.events.container.Keys <= s.prio.Keys <= s.eventValue.Keys
    && (forall t :: t in s.prio ==> s.prio[t] < s.maxPriorities)
    && (forall t :: IsReady(s, t) ==>
          t in s.prio && s.states.container[t] == ReadyList(s.prio[t]) && s.prio[t] <= s.top)
    && s.top < s.maxPriorities
    && IsReady(s, s.idle)
    && (forall t :: t in s.events.container ==> s.states.container[t] != TerminationList)
  }

  ghost predicate Clock(s: Kernel) {
    s.m > 1 && s.tick == Low(s.time, s.m) && s.time + s.pended == s.received
  }

  ghost predicate Counts(s: Kernel) {
    s.count == |s.prio| && s.deleted == |At(s.states, TerminationList)|
  }

  ghost predicate Inv(s: Kernel) {
    && Base(s) && Clock(s) && Counts(s)
    && D.Ok(View(s))
  }

  // ------------------------------------------------------------------ moving tasks

  /** `uxListRemove` of the state item and `prvAddTaskToReadyList`. */
  function MakeReady(s: Kernel, t: TaskId): Kernel
    requires Consistent(s.states) && t in s.prio
  {
    DetachFacts(s.states, t);
    s.(states := Append(Detach(s.states, t), ReadyList(s.prio[t]), t), top := Max(s.top, s.prio[t]))
  }

  /** The state item to the end of a list that is neither a ready nor a delayed one. */
  function MoveTo(s: Kernel, t: TaskId, k: ListId): Kernel
    requires Consistent(s.states)
  {
    DetachFacts(s.states, t);
    s.(states := Append(Detach(s.states, t), k, t))
  }

  function LeaveEvent(s: Kernel, t: TaskId): Kernel
    requires Consistent(s.events)
  {
    s.(events := Detach(s.events, t))
  }

  /** `prvResetNextTaskUnblockTime`. */
  function ResetUnblock(s: Kernel): Kernel
    requires Valued(At(s.states, Delayed(s)), s.value) && s.m > 0
  {
    s.(nextUnblock := D.Reset(View(s)).nextUnblock)
  }

  lemma MovedFamily(l: Family<ListId>, t: TaskId, k: ListId)
    requires Consistent(l) && Consistent(Detach(l, t))
    ensures Consistent(Append(Detach(l, t), k, t))
    ensures Append(Detach(l, t), k, t).container == l.container[t := k]
    ensures forall j :: j != k && (t in l.container ==> l.container[t] != j) ==>
            At(Append(Detach(l, t), k, t), j) == At(l, j)
  {
    DetachFacts(l, t);
    AppendFacts(Detach(l, t), k, t);
    MovedMap(l.container, t, k);
  }

  lemma MovedView(s: Kernel, t: TaskId, k: ListId)
    requires Consistent(s.states) && !k.DelayedList?
    ensures View(MoveTo(s, t, k)) == D.Leave(View(s), t)
  {
    DetachFacts(s.states, t);
    AppendFacts(Detach(s.states, t), k, t);
    LeaveIsDetach(s, t);
  }

  lemma MoveFacts(s: Kernel, t: TaskId, k: ListId)
    requires Consistent(s.states) && !k.DelayedList?
    ensures Consistent(MoveTo(s, t, k).states)
    ensures MoveTo(s, t, k).states.container == s.states.container[t := k]
    ensures View(MoveTo(s, t, k)) == D.Leave(View(s), t)
    ensures k != TerminationList && !On(s, t, TerminationList) ==>
              At(MoveTo(s, t, k).states, TerminationList) == At(s.states, TerminationList)
  {
    DetachFacts(s.states, t);
    MovedFamily(s.states, t, k);
    MovedView(s, t, k);
  }

  /** Removing an item from the list it is on takes it off both delayed lists. */
  lemma LeaveIsDetach(s: Kernel, t: TaskId)
    requires Consistent(s.states)
    ensures View(s.(states := Detach(s.states, t))) == D.Leave(View(s), t)
  {
    DetachFacts(s.states, t);
    assert ListWellFormed(s.states, Delayed(s)) && ListWellFormed(s.states, Overflow(s));
  }

  lemma MakeReadyKeeps(s: Kernel, t: TaskId)
    requires Base(s) && t in s.prio && !On(s, t, TerminationList)
    ensures Base(MakeReady(s, t)) && View(MakeReady(s, t)) == D.Leave(View(s), t)
    ensures MakeReady(s, t).states.container == s.states.container[t := ReadyList(s.prio[t])]
    ensures At(MakeReady(s, t).states, TerminationList) == At(s.states, TerminationList)
  {
    MoveFacts(s, t, ReadyList(s.prio[t]));
  }

  lemma MoveToKeeps(s: Kernel, t: TaskId, k: ListId)
    requires Base(s) && t in s.prio && t != s.idle
    requires k == SuspendedList || (k == TerminationList && t !in s.events.container)
    ensures Base(MoveTo(s, t, k)) && View(MoveTo(s, t, k)) == D.Leave(View(s), t)
  {
    MoveFacts(s, t, k);
  }

  lemma LeaveEventKeeps(s: Kernel, t: TaskId)
    requires Base(s)
    ensures Base(LeaveEvent(s, t)) && LeaveEvent(s, t).events.container == s.events.container - {t}
  {
    DetachFacts(s.events, t);
  }

  // ------------------------------------------------------------------ the tick

  /** One task unblocked by the loop of `xTaskIncrementTick`. */
  function WakeHead(s: Kernel): Kernel
    requires Base(s) && At(s.states, Delayed(s)) != []
  {
    var t := At(s.states, Delayed(s))[0];
    HeadIsTask(s, Delayed(s));
    MakeReady(LeaveEvent(s, t), t)
  }

  lemma HeadIsTask(s: Kernel, k: ListId)
    requires Base(s) && At(s.states, k) != []
    ensures At(s.states, k)[0] in s.prio && On(s, At(s.states, k)[0], k)
  {
    assert ListWellFormed(s.states, k);
    assert At(s.states, k)[0] in At(s.states, k);
  }

  lemma WakeHeadKeeps(s: Kernel)
    requires Base(s) && At(s.states, Delayed(s)) != []
    ensures Base(WakeHead(s)) && View(WakeHead(s)) == D.Leave(View(s), At(s.states, Delayed(s))[0])
    ensures At(WakeHead(s).states, TerminationList) == At(s.states, TerminationList) && OnlyReadied(s, WakeHead(s))
    ensures forall u :: u in WakeHead(s).events.container ==>
            u in s.events.container && WakeHead(s).events.container[u] == s.events.container[u]
  {
    var t := At(s.states, Delayed(s))[0];
    HeadIsTask(s, Delayed(s));
    LeaveEventKeeps(s, t);
    MakeReadyKeeps(LeaveEvent(s, t), t);
  }

  /** The loop: unblock from the head while its time has come. */
  function UnblockDue(s: Kernel): Kernel
    requires Base(s) && s.m > 0 && Valued(At(s.states, Delayed(s)), s.value)
    decreases |At(s.states, Delayed(s))|
  {
    if At(s.states, Delayed(s)) != [] && s.value[At(s.states, Delayed(s))[0]] <= s.tick then
      WakeHeadKeeps(s);
      assert View(WakeHead(s)).current == At(s.states, Delayed(s))[1..];
      UnblockDue(WakeHead(s))
    else ResetUnblock(s)
  }

  /** What the unblocking loop leaves alone. */
  ghost predicate SameBut(s: Kernel, r: Kernel) {
    && r.m == s.m && r.maxPriorities == s.maxPriorities && r.prio == s.prio && r.count == s.count
    && r.deleted == s.deleted
    && r.current == s.current && r.idle == s.idle && r.pended == s.pended && r.suspended == s.suspended
    && r.received == s.received
    && r.notifyWaiting == s.notifyWaiting
    && At(r.states, TerminationList) == At(s.states, TerminationList)
    && (forall u :: u in r.events.container ==>
          u in s.events.container && r.events.container[u] == s.events.container[u])
  }

  /** Any task that moved became ready. */
  ghost predicate OnlyReadied(s: Kernel, r: Kernel) {
    && r.states.container.Keys == s.states.container.Keys
    && forall u :: u in r.states.container ==> IsReady(r, u) || r.states.container[u] == s.states.container[u]
  }

  lemma {:induction false} UnblockDueKeeps(s: Kernel)
    requires Base(s) && D.Advanced(View(s)) && s.tick == Low(s.time, s.m)
    ensures var r := UnblockDue(s);
            Base(r) && View(r) == D.Unblock(View(s)) && SameBut(s, r) && OnlyReadied(s, r) && r.tick == s.tick
              && r.time == s.time
    decreases |At(s.states, Delayed(s))|
  {
    var list := At(s.states, Delayed(s));
    if list != [] && s.value[list[0]] <= s.tick {
      WakeHeadKeeps(s);
      D.TailOk(View(s));
      assert View(WakeHead(s)) == View(s).(current := list[1..]);
      UnblockDueKeeps(WakeHead(s));
    }
  }

  /** `xTaskIncrementTick` with the scheduler running, up to the unblocking loop. */
  function AdvanceTick(s: Kernel): Kernel
    requires s.m > 1 && s.tick < s.m && Valued(At(s.states, Overflow(s)), s.value)
  {
    var r := s.(tick := WrapAdd(s.tick, 1, s.m), time := s.time + 1);
    if r.tick == 0 then ResetUnblock(r.(second := !s.second)) else r
  }

  lemma AdvanceTickKeeps(s: Kernel)
    requires Base(s) && D.Ok(View(s)) && s.tick == Low(s.time, s.m)
    ensures var r := AdvanceTick(s);
            && Base(r) && View(r) == D.Advance(View(s)) && SameBut(s, r) && r.states == s.states
            && r.tick == Low(r.time, r.m) && r.time == s.time + 1
  {
    LowAdd(s.time, 1, s.m);
  }

  /** A processed tick of `xTaskIncrementTick`. */
  function ProcessTick(s: Kernel): Kernel
    requires Base(s) && D.Ok(View(s)) && s.tick == Low(s.time, s.m)
  {
    AdvanceTickKeeps(s);
    D.AdvanceIs(View(s));
    var r := AdvanceTick(s);
    if r.tick >= r.nextUnblock then UnblockDue(r) else r
  }

  lemma ProcessTickKeeps(s: Kernel)
    requires Base(s) && D.Ok(View(s)) && s.tick == Low(s.time, s.m)
    ensures var r := ProcessTick(s);
            && Base(r) && D.Ok(View(r)) && View(r) == D.Tick(View(s)) && SameBut(s, r) && OnlyReadied(s, r)
            && r.tick == Low(r.time, r.m) && r.time == s.time + 1
  {
    var r := AdvanceTick(s);
    AdvanceTickKeeps(s);
    D.AdvanceIs(View(s));
    assert D.Ok(D.Tick(View(s))) by { D.TickExact(View(s)); }
    if r.tick >= r.nextUnblock { UnblockDueKeeps(r); }
  }

  /** The `do` loop of `xTaskResumeAll`: k pended ticks processed one by one. */
  function ProcessTicks(s: Kernel, k: nat): Kernel
    requires Base(s) && D.Ok(View(s)) && s.tick == Low(s.time, s.m)
    decreases k
  {
    if k == 0 then s
    else
      ProcessTickKeeps(s);
      ProcessTicks(ProcessTick(s), k - 1)
  }

  lemma {:induction false} ProcessTicksKeeps(s: Kernel, k: nat)
    requires Base(s) && D.Ok(View(s)) && s.tick == Low(s.time, s.m)
    ensures var r := ProcessTicks(s, k);
            && Base(r) && D.Ok(View(r)) && SameBut(s, r) && OnlyReadied(s, r)
            && r.tick == Low(r.time, r.m) && r.time == s.time + k
    decreases k
  {
    if k > 0 {
      ProcessTickKeeps(s);
      ProcessTicksKeeps(ProcessTick(s), k - 1);
    }
  }

  lemma TickUnblocks(s: Kernel, t: TaskId)
    requires Base(s) && D.Ok(View(s)) && s.tick == Low(s.time, s.m)
    ensures D.Blocked(View(ProcessTick(s)), t) <==> D.Blocked(View(s), t) && s.time + 1 < s.deadline[t]
    ensures ProcessTick(s).deadline == s.deadline
  {
    ProcessTickKeeps(s);
    D.TickExact(View(s));
  }

  /** Any number of ticks unblocks a task if it is due by then, and only then. */
  lemma {:induction false} ProcessTicksUnblock(s: Kernel, k: nat, t: TaskId)
    requires Base(s) && D.Ok(View(s)) && s.tick == Low(s.time, s.m)
    ensures ProcessTicks(s, k).deadline == s.deadline
    ensures D.Blocked(View(ProcessTicks(s, k)), t) <==>
              D.Blocked(View(s), t) && (k > 0 ==> s.time + k < s.deadline[t])
    decreases k
  {
    if k > 0 {
      var r := ProcessTick(s);
      ProcessTickKeeps(s);
      TickUnblocks(s, t);
      ProcessTicksUnblock(r, k - 1, t);
    }
  }

  // ------------------------------------------------------------------ blocking

  ghost predicate CanDelay(s: Kernel) {
    Consistent(s.states) && Valued(At(s.states, Overflow(s)), s.value) && Valued(At(s.states, Delayed(s)), s.value)
  }

  /** `prvAddCurrentTaskToDelayedList`; a task blocked without limit goes to the suspended
      list. */
  function BlockCurrent(s: Kernel, n: nat, indefinitely: bool): Kernel
    requires CanDelay(s) && n < s.m && s.tick < s.m
  {
    DetachFacts(s.states, s.current);
    if n == s.m - 1 && indefinitely then MoveTo(s, s.current, SuspendedList)
    else
      var wake := WrapAdd(s.tick, n, s.m);
      var r := s.(value := s.value[s.current := wake], deadline := s.deadline[s.current := s.time + n]);
      BlockedListsValued(s, wake);
      if wake < s.tick then
        r.(states := InsertByValue(Detach(s.states, s.current), Overflow(s), r.value, s.current))
      else
        r.(states := InsertByValue(Detach(s.states, s.current), Delayed(s), r.value, s.current),
           nextUnblock := if wake < s.nextUnblock then wake else s.nextUnblock)
  }

  lemma BlockedListsValued(s: Kernel, wake: nat)
    requires CanDelay(s)
    ensures var l := Detach(s.states, s.current);
            && Consistent(l)
            && Valued(At(l, Overflow(s)), s.value[s.current := wake])
            && Valued(At(l, Delayed(s)), s.value[s.current := wake])
  {
    DetachFacts(s.states, s.current);
    assert ListWellFormed(s.states, Overflow(s)) && ListWellFormed(s.states, Delayed(s));
    RemoveFacts(At(s.states, Overflow(s)), s.current);
    RemoveFacts(At(s.states, Delayed(s)), s.current);
  }

  /** A task on a ready list is on no delayed list. */
  lemma ReadyNotBlocked(s: Kernel, t: TaskId)
    requires Consistent(s.states) && (t in s.states.container ==> !s.states.container[t].DelayedList?)
    ensures !D.Blocked(View(s), t) && D.Leave(View(s), t) == View(s)
  {
    assert ListWellFormed(s.states, Delayed(s)) && ListWellFormed(s.states, Overflow(s));
  }

  lemma RehungBase(s: Kernel, r: Kernel, k: ListId)
    requires Base(s) && s.current in s.prio && s.current != s.idle && k.DelayedList?
    requires Consistent(r.states) && r.states.container == s.states.container[s.current := k]
    requires r.events == s.events && r.prio == s.prio && r.eventValue == s.eventValue && r.top == s.top
    requires r.maxPriorities == s.maxPriorities && r.idle == s.idle
    ensures Base(r)
  {
  }

  /** What a block needs: a ready task other than the idle task, and a block time that is
      not zero at the last tick before the count wraps. */
  predicate CanBlock(s: Kernel, n: nat) {
    && s.current in s.prio && IsReady(s, s.current) && s.current != s.idle
    && n < s.m && (n > 0 || s.tick + 1 < s.m)
  }

  lemma BlockForeverKeeps(s: Kernel)
    requires Inv(s) && CanBlock(s, s.m - 1)
    ensures var r := BlockCurrent(s, s.m - 1, true);
            Base(r) && SameBut(s, r) && r.time == s.time && r.tick == s.tick && r.events == s.events
              && View(r) == View(s)
  {
    ReadyNotBlocked(s, s.current);
    MoveFacts(s, s.current, SuspendedList);
    MoveToKeeps(s, s.current, SuspendedList);
    assert BlockCurrent(s, s.m - 1, true) == MoveTo(s, s.current, SuspendedList);
  }

  lemma BlockForBase(s: Kernel, n: nat, indefinitely: bool)
    requires Inv(s) && CanBlock(s, n) && !(n == s.m - 1 && indefinitely)
    ensures var r := BlockCurrent(s, n, indefinitely);
            Base(r) && SameBut(s, r) && r.time == s.time && r.tick == s.tick && r.events == s.events
  {
    var wake := WrapAdd(s.tick, n, s.m);
    var k := if wake < s.tick then Overflow(s) else Delayed(s);
    BlockedListsValued(s, wake);
    MovedByValue(s.states, s.current, k, s.value[s.current := wake]);
    RehungBase(s, BlockCurrent(s, n, indefinitely), k);
  }

  lemma BlockForViewLater(s: Kernel, n: nat, indefinitely: bool)
    requires Inv(s) && CanBlock(s, n) && !(n == s.m - 1 && indefinitely) && WrapAdd(s.tick, n, s.m) < s.tick
    ensures View(BlockCurrent(s, n, indefinitely)) == D.Enter(View(s), s.current, n)
  {
    var wake := WrapAdd(s.tick, n, s.m);
    BlockedListsValued(s, wake);
    MovedByValue(s.states, s.current, Overflow(s), s.value[s.current := wake]);
  }

  lemma BlockForViewNow(s: Kernel, n: nat, indefinitely: bool)
    requires Inv(s) && CanBlock(s, n) && !(n == s.m - 1 && indefinitely) && WrapAdd(s.tick, n, s.m) >= s.tick
    ensures View(BlockCurrent(s, n, indefinitely)) == D.Enter(View(s), s.current, n)
  {
    var wake := WrapAdd(s.tick, n, s.m);
    BlockedListsValued(s, wake);
    MovedByValue(s.states, s.current, Delayed(s), s.value[s.current := wake]);
  }

  /** Both lists after the block are those the delayed-list model has. */
  lemma BlockForView(s: Kernel, n: nat, indefinitely: bool)
    requires Inv(s) && CanBlock(s, n) && !(n == s.m - 1 && indefinitely)
    ensures View(BlockCurrent(s, n, indefinitely)) == D.Enter(View(s), s.current, n)
  {
    if WrapAdd(s.tick, n, s.m) < s.tick {
      BlockForViewLater(s, n, indefinitely);
    } else {
      BlockForViewNow(s, n, indefinitely);
    }
  }

  /** What the running task does before it blocks: `vTaskPlaceOnEventList` in value order,
      `vTaskPlaceOnUnorderedEventList` and its restricted form at the end of the list; a
      task that waits for its notification goes onto no list. */
  function Prepare(s: Kernel, w: WaitsFor): Kernel
    requires Base(s) && s.current in s.prio
  {
    match w
    case Nothing => s
    case Event(e, ordered) =>
      assert ListWellFormed(s.events, EventOf(e));
      s.(events := if ordered then InsertByValue(s.events, EventOf(e), s.eventValue, s.current)
                   else Append(s.events, EventOf(e), s.current))
    case Notification => s.(notifyWaiting := s.notifyWaiting + {s.current})
  }

  lemma PrepareKeeps(s: Kernel, w: WaitsFor)
    requires Base(s) && IsReady(s, s.current) && s.current !in s.events.container
    ensures var r := Prepare(s, w);
            && Base(r) && r == s.(events := r.events, notifyWaiting := r.notifyWaiting)
            && r.events.container ==
               (if w.Event? then s.events.container[s.current := EventOf(w.id)] else s.events.container)
            && r.notifyWaiting == (if w.Notification? then s.notifyWaiting + {s.current} else s.notifyWaiting)
  {
    if w.Event? {
      assert ListWellFormed(s.events, EventOf(w.id));
      if w.ordered { InsertByValueFacts(s.events, EventOf(w.id), s.eventValue, s.current); }
      else { AppendFacts(s.events, EventOf(w.id), s.current); }
    }
  }

  // ------------------------------------------------------------------ waking

  /** A task whose event item is free is readied, or held pending while the scheduler is
      suspended and an interrupt may not touch the ready lists. */
  function WakeOrPend(s: Kernel, t: TaskId): Kernel
    requires Consistent(s.states) && Consistent(s.events) && t in s.prio
  {
    if s.suspended == 0 then MakeReady(s, t) else s.(events := Append(s.events, PendingReady, t))
  }

  lemma WakeOrPendKeeps(s: Kernel, t: TaskId)
    requires Base(s) && t in s.prio && t !in s.events.container && !On(s, t, TerminationList)
    ensures var r := WakeOrPend(s, t);
            && Base(r) && At(r.states, TerminationList) == At(s.states, TerminationList)
            && View(r) == if s.suspended == 0 then D.Leave(View(s), t) else View(s)
  {
    if s.suspended == 0 { MakeReadyKeeps(s, t); } else { AppendFacts(s.events, PendingReady, t); }
  }

  /** `xTaskRemoveFromEventList`. */
  function RemoveFromEvent(s: Kernel, e: nat): Kernel
    requires Base(s) && At(s.events, EventOf(e)) != []
  {
    EventHead(s, EventOf(e));
    DetachFacts(s.events, At(s.events, EventOf(e))[0]);
    WakeOrPend(LeaveEvent(s, At(s.events, EventOf(e))[0]), At(s.events, EventOf(e))[0])
  }

  /** `vTaskRemoveFromUnorderedEventList`: the scheduler is suspended, so no interrupt is at
      the ready lists. */
  function ReleaseWaiter(s: Kernel, t: TaskId): Kernel
    requires Consistent(s.states) && Consistent(s.events) && t in s.prio
  {
    MakeReady(LeaveEvent(s, t), t)
  }

  lemma EventHead(s: Kernel, k: EventList)
    requires Base(s) && At(s.events, k) != []
    ensures At(s.events, k)[0] in s.prio && At(s.events, k)[0] in s.events.container
    ensures s.events.container[At(s.events, k)[0]] == k
  {
    assert ListWellFormed(s.events, k);
    assert At(s.events, k)[0] in At(s.events, k);
  }

  /** One round of the loop of `xTaskResumeAll` over the pending ready list. */
  function DrainHead(s: Kernel): Kernel
    requires Base(s) && At(s.events, PendingReady) != []
  {
    var t := At(s.events, PendingReady)[0];
    EventHead(s, PendingReady);
    LeaveEventKeeps(s, t);
    MakeReady(LeaveEvent(s, t), t)
  }

  lemma DrainHeadKeeps(s: Kernel)
    requires Base(s) && At(s.events, PendingReady) != []
    ensures var r, t := DrainHead(s), At(s.events, PendingReady)[0];
            && Base(r) && SameBut(s, r) && OnlyReadied(s, r) && View(r) == D.Leave(View(s), t)
            && |At(r.events, PendingReady)| < |At(s.events, PendingReady)|
            && t in s.events.container && s.events.container[t] == PendingReady
  {
    var t := At(s.events, PendingReady)[0];
    EventHead(s, PendingReady);
    LeaveEventKeeps(s, t);
    DetachFacts(s.events, t);
    MakeReadyKeeps(LeaveEvent(s, t), t);
  }

  function DrainPending(s: Kernel): Kernel
    requires Base(s)
    decreases |At(s.events, PendingReady)|
  {
    if At(s.events, PendingReady) == [] then s
    else
      DrainHeadKeeps(s);
      DrainPending(DrainHead(s))
  }

  /** No task became blocked, and only pending ones were unblocked. */
  ghost predicate OnlyPendingWoken(s: Kernel, r: Kernel) {
    && r.m == s.m && r.time == s.time && r.tick == s.tick && r.deadline == s.deadline
    && (forall t :: D.Blocked(View(r), t) ==> D.Blocked(View(s), t))
    && (forall t :: D.Blocked(View(s), t) && (t in s.events.container ==> s.events.container[t] != PendingReady) ==>
          D.Blocked(View(r), t))
  }

  lemma DrainTwice(a: Kernel, b: Kernel, c: Kernel)
    requires SameBut(a, b) && SameBut(b, c) && OnlyReadied(a, b) && OnlyReadied(b, c)
    requires OnlyPendingWoken(a, b) && OnlyPendingWoken(b, c)
    ensures SameBut(a, c) && OnlyReadied(a, c) && OnlyPendingWoken(a, c)
  {
  }

  lemma {:induction false} DrainKeeps(s: Kernel)
    requires Base(s) && D.Ok(View(s))
    ensures var r := DrainPending(s);
            Base(r) && D.Ok(View(r)) && SameBut(s, r) && OnlyReadied(s, r) && OnlyPendingWoken(s, r)
    decreases |At(s.events, PendingReady)|
  {
    if At(s.events, PendingReady) != [] {
      DrainHeadKeeps(s);
      D.LeaveKeepsOk(View(s), At(s.events, PendingReady)[0]);
      DrainKeeps(DrainHead(s));
      DrainTwice(s, DrainHead(s), DrainPending(s));
    }
  }

  /** Resetting the next unblock time keeps the lists in order. */
  lemma ResetKeeps(s: Kernel)
    requires Base(s) && D.Ok(View(s))
    ensures var r := ResetUnblock(s);
            Base(r) && D.Ok(View(r)) && View(r) == D.Reset(View(s)) && SameBut(s, r) && r.states == s.states
              && r.events == s.events
  {
    D.HeadIsLeast(View(s).current, s.value);
  }

  /** The pending tasks readied, and the next unblock time reset if there were any. */
  function Drained(s: Kernel): Kernel
    requires Base(s) && D.Ok(View(s))
  {
    DrainKeeps(s);
    if At(s.events, PendingReady) == [] then s else ResetUnblock(DrainPending(s))
  }

  lemma DrainedKeeps(s: Kernel)
    requires Base(s) && D.Ok(View(s))
    ensures var r := Drained(s);
            Base(r) && D.Ok(View(r)) && SameBut(s, r) && OnlyReadied(s, r) && OnlyPendingWoken(s, r)
  {
    DrainKeeps(s);
    ResetKeeps(DrainPending(s));
  }

  /** `xTaskResumeAll`: the pending tasks first, then the pended ticks. */
  function ResumeAll(s: Kernel): Kernel
    requires Inv(s) && s.suspended > 0
  {
    var r := s.(suspended := s.suspended - 1);
    if r.suspended > 0 then r
    else
      DrainedKeeps(r);
      ProcessTicks(Drained(r), s.pended).(pended := 0)
  }
}
