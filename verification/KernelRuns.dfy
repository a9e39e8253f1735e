/** Every run of the kernel's task lists: what each step keeps, and what follows for
    wake-up times, the tick count, the running task and the task table. */
module KernelRuns {
  import opened Common
  import opened Lists
  import opened TaskLists
  import opened Ticks
  import opened Kernel
  import D = Delays

  // ------------------------------------------------------------------ the other operations

  /** `vTaskSuspend`: a task waiting for its notification waits no more. */
  ghost function SuspendTask(s: Kernel, t: TaskId): Kernel
    requires Base(s) && D.Ok(View(s)) && t in s.prio && t != s.idle
  {
    SuspendKeeps(s, t);
    ResetUnblock(MoveTo(LeaveEvent(s, t), t, SuspendedList)).(notifyWaiting := s.notifyWaiting - {t})
  }

  lemma SuspendKeeps(s: Kernel, t: TaskId)
    requires Base(s) && D.Ok(View(s)) && t in s.prio && t != s.idle
    ensures Base(LeaveEvent(s, t)) && Base(MoveTo(LeaveEvent(s, t), t, SuspendedList))
    ensures var r := MoveTo(LeaveEvent(s, t), t, SuspendedList);
            && D.Ok(View(r)) && Base(ResetUnblock(r)) && D.Ok(View(ResetUnblock(r)))
            && View(r) == D.Leave(View(s), t) && View(ResetUnblock(r)) == D.Reset(View(r))
            && (!On(s, t, TerminationList) ==> At(r.states, TerminationList) == At(s.states, TerminationList))
  {
    LeaveEventKeeps(s, t);
    MoveToKeeps(LeaveEvent(s, t), t, SuspendedList);
    MoveFacts(LeaveEvent(s, t), t, SuspendedList);
    D.LeaveKeepsOk(View(s), t);
    ResetKeeps(MoveTo(LeaveEvent(s, t), t, SuspendedList));
  }

  /** `prvTaskIsTaskSuspended`: on the suspended list, and on no event list, not even that
      of pending tasks.  It does not look at the notification state. */
  predicate IsSuspended(s: Kernel, t: TaskId) {
    On(s, t, SuspendedList) && t !in s.events.container
  }

  /** `vTaskResume`. */
  ghost function ResumeTask(s: Kernel, t: TaskId): Kernel
    requires Consistent(s.states) && t in s.prio
  {
    if t != s.current && IsSuspended(s, t) then MakeReady(s, t) else s
  }

  /** `xTaskResumeFromISR`. */
  ghost function ResumeFromIsr(s: Kernel, t: TaskId): Kernel
    requires Consistent(s.states) && Consistent(s.events) && t in s.prio
  {
    if IsSuspended(s, t) then WakeOrPend(s, t) else s
  }

  /** `prvAddNewTaskToReadyList` once the scheduler runs. */
  ghost function CreateTask(s: Kernel, t: TaskId, p: nat): Kernel
    requires Consistent(s.states) && p < s.maxPriorities
  {
    s.(prio := s.prio[t := p], eventValue := s.eventValue[t := s.maxPriorities - p],
       states := Append(s.states, ReadyList(p), t), top := Max(s.top, p), count := s.count + 1,
       notifyWaiting := s.notifyWaiting - {t})
  }

  ghost function Forget(s: Kernel, t: TaskId): Kernel
    requires Consistent(s.states)
  {
    s.(states := Detach(s.states, t), prio := s.prio - {t})
  }

  /** `vTaskDelete` of another task, whose memory is freed at once. */
  ghost function DeleteOther(s: Kernel, t: TaskId): Kernel
    requires Base(s) && D.Ok(View(s)) && t in s.prio && t != s.idle
  {
    LeaveEventKeeps(s, t);
    ForgetKeeps(s, t);
    ResetUnblock(Forget(LeaveEvent(s, t), t)).(count := if s.count > 0 then s.count - 1 else 0)
  }

  /** `vTaskDelete`: a task deleting itself waits on the termination list for the idle task. */
  ghost function DeleteTask(s: Kernel, t: TaskId): Kernel
    requires Base(s) && D.Ok(View(s)) && t in s.prio && t != s.idle
  {
    LeaveEventKeeps(s, t);
    if t == s.current then MoveTo(LeaveEvent(s, t), t, TerminationList).(deleted := s.deleted + 1)
    else DeleteOther(s, t)
  }

  lemma ForgottenBase(s: Kernel, r: Kernel, t: TaskId)
    requires Base(s) && t in s.prio && t != s.idle && t !in s.events.container
    requires Consistent(r.states) && r.states.container == s.states.container - {t} && r.prio == s.prio - {t}
    requires r.events == s.events && r.eventValue == s.eventValue && r.top == s.top
    requires r.maxPriorities == s.maxPriorities && r.idle == s.idle
    ensures Base(r)
  {
  }

  lemma ForgetIsLeave(s: Kernel, t: TaskId)
    requires Base(s)
    ensures Consistent(Forget(s, t).states) && Forget(s, t).states.container == s.states.container - {t}
    ensures View(Forget(s, t)) == D.Leave(View(s), t)
    ensures !On(s, t, TerminationList) ==> At(Forget(s, t).states, TerminationList) == At(s.states, TerminationList)
    ensures On(s, t, TerminationList) ==>
            |At(Forget(s, t).states, TerminationList)| == |At(s.states, TerminationList)| - 1
  {
    DetachFacts(s.states, t);
    LeaveIsDetach(s, t);
    assert ListWellFormed(s.states, TerminationList);
  }

  lemma ForgetKeeps(s: Kernel, t: TaskId)
    requires Base(s) && D.Ok(View(s)) && t in s.prio && t != s.idle
    ensures Base(LeaveEvent(s, t))
    ensures var r := Forget(LeaveEvent(s, t), t);
            && Base(r) && View(r) == D.Leave(View(s), t) && D.Ok(View(r))
            && (!On(s, t, TerminationList) ==> At(r.states, TerminationList) == At(s.states, TerminationList))
  {
    LeaveEventKeeps(s, t);
    var left := LeaveEvent(s, t);
    ForgetIsLeave(left, t);
    ForgottenBase(left, Forget(left, t), t);
    D.LeaveKeepsOk(View(s), t);
  }

  /** One round of `prvCheckTasksWaitingTermination` in the idle task. */
  ghost function CleanUp(s: Kernel): Kernel
    requires Base(s) && At(s.states, TerminationList) != [] && s.count > 0 && s.deleted > 0
  {
    Forget(s, At(s.states, TerminationList)[0]).(count := s.count - 1, deleted := s.deleted - 1)
  }

  /** A new priority, and a new event item value unless the value serves another purpose. */
  function Reprice(s: Kernel, t: TaskId, p: nat, v: Option<nat>): Kernel {
    s.(prio := s.prio[t := p], eventValue := if v.Some? then s.eventValue[t := v.value] else s.eventValue)
  }

  /** `vTaskPrioritySet`, inheritance and disinheritance all move a ready task to the list
      of its new priority. */
  ghost function SetPriority(s: Kernel, t: TaskId, p: nat, v: Option<nat>): Kernel
    requires Consistent(s.states) && t in s.prio
  {
    if On(s, t, ReadyList(s.prio[t])) then MakeReady(Reprice(s, t, p, v), t) else Reprice(s, t, p, v)
  }

  /** `xTaskGenericNotify`: it wakes only a task that waits for its notification. */
  ghost function NotifyTask(s: Kernel, t: TaskId): Kernel
    requires Consistent(s.states) && t in s.prio
  {
    if t in s.notifyWaiting then MakeReady(s, t).(notifyWaiting := s.notifyWaiting - {t}) else s
  }

  /** `xTaskGenericNotifyFromISR` and `vTaskNotifyGiveFromISR`. */
  ghost function NotifyTaskFromIsr(s: Kernel, t: TaskId): Kernel
    requires Consistent(s.states) && Consistent(s.events) && t in s.prio
  {
    if t in s.notifyWaiting then WakeOrPend(s, t).(notifyWaiting := s.notifyWaiting - {t}) else s
  }

  /** The search of `taskSELECT_HIGHEST_PRIORITY_TASK`, downward from p. */
  function Highest(s: Kernel, p: nat): (q: nat)
    ensures q <= p
    ensures forall r :: q < r <= p ==> At(s.states, ReadyList(r)) == []
  {
    if p == 0 || At(s.states, ReadyList(p)) != [] then p else Highest(s, p - 1)
  }

  /** `taskSELECT_HIGHEST_PRIORITY_TASK`. */
  function Select(s: Kernel, p: nat): Kernel
    requires WalkOf(s.states, ReadyList(p)).Valid() && At(s.states, ReadyList(p)) != []
  {
    var w := NextEntry(WalkOf(s.states, ReadyList(p)));
    s.(states := s.states.(walk := s.states.walk[ReadyList(p) := w]), current := w.items[w.index - 1], top := p)
  }

  /** `vTaskSwitchContext`. */
  ghost function SwitchContext(s: Kernel): Kernel
    requires Base(s)
  {
    SelectionSucceeds(s);
    if s.suspended > 0 then s else Select(s, Highest(s, s.top))
  }

  /** The downward search stops at a list with a task on it: its assertion cannot fail,
      because the idle task is always ready. */
  lemma SelectionSucceeds(s: Kernel)
    requires Base(s)
    ensures WalkOf(s.states, ReadyList(Highest(s, s.top))).Valid()
    ensures At(s.states, ReadyList(Highest(s, s.top))) != []
  {
    var q, i := Highest(s, s.top), s.prio[s.idle];
    assert ListWellFormed(s.states, ReadyList(q)) && ListWellFormed(s.states, ReadyList(i));
    assert s.idle in At(s.states, ReadyList(i));
    FoundNonEmpty(s, s.top, i);
  }

  lemma {:induction false} FoundNonEmpty(s: Kernel, p: nat, i: nat)
    requires i <= p && At(s.states, ReadyList(i)) != []
    ensures At(s.states, ReadyList(Highest(s, p))) != []
  {
    if p > i && At(s.states, ReadyList(p)) == [] { FoundNonEmpty(s, p - 1, i); }
  }

  /** The task selected has the highest priority of all ready tasks, and is the next one in
      turn on the list of that priority. */
  lemma SelectsHighestPriority(s: Kernel)
    requires Base(s) && s.suspended == 0
    ensures var r := SwitchContext(s);
            && Base(r) && r.current in s.prio && IsReady(r, r.current)
            && (forall t :: IsReady(r, t) ==> r.prio[t] <= r.prio[r.current])
            && View(r) == View(s) && r.prio[r.current] == r.top
            && WalkOf(s.states, ReadyList(r.top)).Valid() && At(s.states, ReadyList(r.top)) != []
            && r.current == Visited(WalkOf(s.states, ReadyList(r.top)), 1)
  {
    SelectionSucceeds(s);
    var q := Highest(s, s.top);
    var r := Select(s, q);
    SelectKeepsFamily(s, q);
    assert ListWellFormed(s.states, ReadyList(q));
    assert r.current in At(s.states, ReadyList(q));
    assert NextBy(WalkOf(s.states, ReadyList(q)), 1) == NextEntry(NextBy(WalkOf(s.states, ReadyList(q)), 0));
    forall t | IsReady(r, t) ensures r.prio[t] <= q {
      assert ListWellFormed(s.states, ReadyList(s.prio[t]));
      assert t in At(s.states, ReadyList(s.prio[t]));
    }
  }

  lemma SelectKeepsFamily(s: Kernel, q: nat)
    requires Consistent(s.states) && WalkOf(s.states, ReadyList(q)).Valid() && At(s.states, ReadyList(q)) != []
    ensures var r := Select(s, q);
            Consistent(r.states) && r.states.container == s.states.container
              && forall k :: At(r.states, k) == At(s.states, k)
  {
    var r := Select(s, q);
    forall k ensures ListWellFormed(r.states, k) && At(r.states, k) == At(s.states, k) {
      assert ListWellFormed(s.states, k);
    }
  }

  // ------------------------------------------------------------------ steps

  datatype Step =
    | TickInterrupt
    | SuspendAll
    | ResumeAllStep
    | Block(waitsFor: WaitsFor, ticks: nat, indefinitely: bool)
    | EventWake(event: nat)
    | Release(task: TaskId)
    | Notify(task: TaskId)
    | NotifyFromIsr(task: TaskId)
    | FinishNotification
    | Suspend(task: TaskId)
    | Resume(task: TaskId)
    | ResumeIsr(task: TaskId)
    | Create(task: TaskId, priority: nat)
    | Delete(task: TaskId)
    | CleanUpStep
    | ChangePriority(task: TaskId, priority: nat, itemValue: Option<nat>)
    | Reschedule

  /** A task with a valid handle: created and not deleted. */
  predicate Live(s: Kernel, t: TaskId) {
    t in s.prio && !On(s, t, TerminationList)
  }

  /** The running task is in no other wait.  Only a wait for a notification may be for no
      ticks at all: it marks the task and does not block it. */
  predicate CanWait(s: Kernel, w: WaitsFor, n: nat) {
    && s.current !in s.events.container && s.current !in s.notifyWaiting
    && if w.Notification? && n == 0 then s.current in s.prio && IsReady(s, s.current) else CanBlock(s, n)
  }

  ghost predicate Enabled(s: Kernel, step: Step) {
    match step
    case TickInterrupt => true
    case SuspendAll => true
    case ResumeAllStep => s.suspended > 0
    case Block(w, n, indefinitely) => CanWait(s, w, n) && (w.Nothing? ==> !indefinitely)
    case EventWake(e) => At(s.events, EventOf(e)) != []
    case Release(t) => s.suspended > 0 && t in s.events.container && s.events.container[t].EventOf?
    case Notify(t) => Live(s, t) && (t in s.notifyWaiting ==> t !in s.events.container)
    case NotifyFromIsr(t) => Live(s, t) && (t in s.notifyWaiting ==> t !in s.events.container)
    case FinishNotification => s.current in s.prio && IsReady(s, s.current)
    case Suspend(t) => Live(s, t) && t != s.idle
    case Resume(t) => Live(s, t)
    case ResumeIsr(t) => Live(s, t)
    case Create(t, p) => t !in s.prio && p < s.maxPriorities
    case Delete(t) => Live(s, t) && t != s.idle
    case CleanUpStep => At(s.states, TerminationList) != []
    case ChangePriority(t, p, _) => Live(s, t) && p < s.maxPriorities
    case Reschedule => true
  }

  ghost function BlockStep(s: Kernel, w: WaitsFor, n: nat, indefinitely: bool): Kernel
    requires Inv(s) && CanWait(s, w, n)
  {
    PrepareKeeps(s, w);
    if w.Notification? && n == 0 then Prepare(s, w) else BlockCurrent(Prepare(s, w), n, indefinitely)
  }

  /** `xTaskIncrementTick` of one tick interrupt. */
  ghost function TickStep(s: Kernel): Kernel
    requires Base(s) && D.Ok(View(s)) && s.tick == Low(s.time, s.m)
  {
    (if s.suspended > 0 then s.(pended := s.pended + 1) else ProcessTick(s)).(received := s.received + 1)
  }

  /** The operations on a task given by handle. */
  predicate Manages(step: Step) {
    || step.Suspend? || step.Resume? || step.ResumeIsr? || step.Create? || step.Delete?
    || step.CleanUpStep? || step.ChangePriority?
  }

  ghost function Managed(s: Kernel, step: Step): Kernel
    requires Inv(s) && Manages(step) && Enabled(s, step)
  {
    match step
    case Suspend(t) => SuspendTask(s, t)
    case Resume(t) => ResumeTask(s, t)
    case ResumeIsr(t) => ResumeFromIsr(s, t)
    case Create(t, p) => CreateTask(s, t, p)
    case Delete(t) => DeleteTask(s, t)
    case CleanUpStep =>
      CleanUpReady(s);
      CleanUp(s)
    case ChangePriority(t, p, v) => SetPriority(s, t, p, v)
  }

  ghost function Next(s: Kernel, step: Step): Kernel
    requires Inv(s) && Enabled(s, step)
  {
    match step
    case TickInterrupt => TickStep(s)
    case SuspendAll => s.(suspended := s.suspended + 1)
    case ResumeAllStep => ResumeAll(s)
    case Block(w, n, indefinitely) => BlockStep(s, w, n, indefinitely)
    case EventWake(e) => RemoveFromEvent(s, e)
    case Release(t) => ReleaseWaiter(s, t)
    case Notify(t) => NotifyTask(s, t)
    case NotifyFromIsr(t) => NotifyTaskFromIsr(s, t)
    case FinishNotification => s.(notifyWaiting := s.notifyWaiting - {s.current})
    case Reschedule => SwitchContext(s)
    case _ => Managed(s, step)
  }

  lemma CleanUpReady(s: Kernel)
    requires Inv(s) && At(s.states, TerminationList) != []
    ensures s.count > 0 && s.deleted > 0
  {
    HeadIsTask(s, TerminationList);
  }

  // ------------------------------------------------------------------ every step keeps the invariant

  /** The books are apart from the lists. */
  lemma BooksKeepLists(r: Kernel, x: Kernel)
    requires Base(r) && D.Ok(View(r)) && Clock(x) && Counts(x)
    requires x == r.(pended := x.pended, received := x.received, suspended := x.suspended,
                     count := x.count, deleted := x.deleted, notifyWaiting := x.notifyWaiting)
    ensures Inv(x)
  {
  }

  lemma SameButCounts(s: Kernel, r: Kernel)
    requires Counts(s) && SameBut(s, r)
    ensures Counts(r)
  {
  }

  lemma TickKeepsInv(s: Kernel)
    requires Inv(s)
    ensures Inv(TickStep(s))
  {
    var r := if s.suspended > 0 then s else ProcessTick(s);
    if s.suspended == 0 {
      ProcessTickKeeps(s);
      SameButCounts(s, r);
    }
    BooksKeepLists(r, TickStep(s));
  }

  /** All that is left of a resume when the scheduler runs again. */
  lemma CatchUpKeepsInv(s: Kernel)
    requires Base(s) && D.Ok(View(s)) && Clock(s) && Counts(s)
    ensures Inv(ProcessTicks(s, s.pended).(pended := 0))
  {
    var r := ProcessTicks(s, s.pended);
    ProcessTicksKeeps(s, s.pended);
    SameButCounts(s, r);
    BooksKeepLists(r, r.(pended := 0));
  }

  lemma DrainedKeepsBooks(s: Kernel)
    requires Inv(s)
    ensures Base(Drained(s)) && D.Ok(View(Drained(s))) && Clock(Drained(s)) && Counts(Drained(s))
    ensures Drained(s).pended == s.pended
  {
    DrainedKeeps(s);
    SameButCounts(s, Drained(s));
  }

  lemma ResumeAllKeepsInv(s: Kernel)
    requires Inv(s) && s.suspended > 0
    ensures Inv(ResumeAll(s))
  {
    var r := s.(suspended := s.suspended - 1);
    BooksKeepLists(s, r);
    if r.suspended == 0 {
      DrainedKeepsBooks(r);
      CatchUpKeepsInv(Drained(r));
    }
  }

  lemma BlockedKeepsInv(s: Kernel, n: nat, indefinitely: bool)
    requires Inv(s) && CanBlock(s, n)
    ensures Inv(BlockCurrent(s, n, indefinitely))
  {
    if n == s.m - 1 && indefinitely {
      BlockForeverKeeps(s);
    } else {
      BlockForBase(s, n, indefinitely);
      BlockForView(s, n, indefinitely);
      ReadyNotBlocked(s, s.current);
      D.EnterKeepsOk(View(s), s.current, n);
    }
  }

  lemma PrepareKeepsInv(s: Kernel, w: WaitsFor)
    requires Inv(s) && IsReady(s, s.current) && s.current !in s.events.container
    ensures Inv(Prepare(s, w))
  {
    PrepareKeeps(s, w);
  }

  lemma BlockKeepsInv(s: Kernel, w: WaitsFor, n: nat, indefinitely: bool)
    requires Inv(s) && CanWait(s, w, n)
    ensures Inv(BlockStep(s, w, n, indefinitely))
  {
    PrepareKeepsInv(s, w);
    PrepareKeeps(s, w);
    if !(w.Notification? && n == 0) { BlockedKeepsInv(Prepare(s, w), n, indefinitely); }
  }

  lemma WakeKeepsInv(s: Kernel, t: TaskId)
    requires Inv(s) && Live(s, t)
    ensures Inv(MakeReady(s, t))
  {
    MakeReadyKeeps(s, t);
    D.LeaveKeepsOk(View(s), t);
  }

  lemma WakeOrPendKeepsInv(s: Kernel, t: TaskId)
    requires Inv(s) && Live(s, t) && t !in s.events.container
    ensures Inv(WakeOrPend(s, t))
  {
    WakeOrPendKeeps(s, t);
    D.LeaveKeepsOk(View(s), t);
  }

  lemma EventWakeKeepsInv(s: Kernel, e: nat)
    requires Inv(s) && At(s.events, EventOf(e)) != []
    ensures Inv(RemoveFromEvent(s, e))
  {
    EventHead(s, EventOf(e));
    var t := At(s.events, EventOf(e))[0];
    LeaveEventKeeps(s, t);
    WakeOrPendKeepsInv(LeaveEvent(s, t), t);
  }

  lemma ReleaseKeepsInv(s: Kernel, t: TaskId)
    requires Inv(s) && t in s.events.container
    ensures Inv(ReleaseWaiter(s, t))
  {
    LeaveEventKeeps(s, t);
    WakeKeepsInv(LeaveEvent(s, t), t);
  }

  /** Who waits for a notification does not matter to the lists. */
  lemma NotifyStateKeepsInv(s: Kernel, waiting: set<TaskId>)
    requires Inv(s)
    ensures Inv(s.(notifyWaiting := waiting))
  {
  }

  lemma NotifyKeepsInv(s: Kernel, t: TaskId)
    requires Inv(s) && Live(s, t) && (t in s.notifyWaiting ==> t !in s.events.container)
    ensures Inv(NotifyTask(s, t)) && Inv(NotifyTaskFromIsr(s, t))
  {
    if t in s.notifyWaiting {
      WakeKeepsInv(s, t);
      NotifyStateKeepsInv(MakeReady(s, t), s.notifyWaiting - {t});
      WakeOrPendKeepsInv(s, t);
      NotifyStateKeepsInv(WakeOrPend(s, t), s.notifyWaiting - {t});
    }
  }

  lemma SuspendKeepsInv(s: Kernel, t: TaskId)
    requires Inv(s) && Live(s, t) && t != s.idle
    ensures Inv(SuspendTask(s, t))
  {
    var r := MoveTo(LeaveEvent(s, t), t, SuspendedList);
    assert Inv(ResetUnblock(r)) by { SuspendKeeps(s, t); }
    NotifyStateKeepsInv(ResetUnblock(r), s.notifyWaiting - {t});
  }

  lemma CreateKeepsInv(s: Kernel, t: TaskId, p: nat)
    requires Inv(s) && t !in s.prio && p < s.maxPriorities
    ensures Inv(CreateTask(s, t, p))
  {
    var r := CreateTask(s, t, p);
    AppendFacts(s.states, ReadyList(p), t);
    CreatedBase(s, r, t, p);
    assert View(r) == View(s);
    assert Counts(r) by { assert s.prio[t := p].Keys == s.prio.Keys + {t}; }
  }

  lemma CreatedBase(s: Kernel, r: Kernel, t: TaskId, p: nat)
    requires Base(s) && t !in s.prio && p < s.maxPriorities
    requires Consistent(r.states) && r.states.container == s.states.container[t := ReadyList(p)]
    requires r.prio == s.prio[t := p]
    requires r.events == s.events && r.eventValue.Keys == s.eventValue.Keys + {t}
    requires r.top == Max(s.top, p) && r.maxPriorities == s.maxPriorities && r.idle == s.idle
    ensures Base(r)
  {
  }

  lemma Shrinks(m: map<TaskId, nat>, t: TaskId)
    requires t in m
    ensures |m - {t}| == |m| - 1
  {
    assert (m - {t}).Keys == m.Keys - {t};
  }

  lemma DeleteOtherKeepsLists(s: Kernel, t: TaskId)
    requires Base(s) && D.Ok(View(s)) && Live(s, t) && t != s.idle
    ensures var r := DeleteOther(s, t);
            && Base(r) && D.Ok(View(r)) && r.prio == s.prio - {t} && r.time == s.time && r.tick == s.tick && r.m == s.m
            && r.pended == s.pended && r.received == s.received && r.deleted == s.deleted
            && At(r.states, TerminationList) == At(s.states, TerminationList)
            && r.count == if s.count > 0 then s.count - 1 else 0
  {
    LeaveEventKeeps(s, t);
    ForgetKeeps(s, t);
    ResetKeeps(Forget(LeaveEvent(s, t), t));
  }

  lemma DeleteOtherKeepsInv(s: Kernel, t: TaskId)
    requires Inv(s) && Live(s, t) && t != s.idle
    ensures Inv(DeleteOther(s, t))
  {
    DeleteOtherKeepsLists(s, t);
    Shrinks(s.prio, t);
  }

  lemma TerminateKeepsInv(s: Kernel, t: TaskId)
    requires Inv(s) && Live(s, t) && t != s.idle && t !in s.events.container
    ensures Inv(MoveTo(s, t, TerminationList).(deleted := s.deleted + 1))
  {
    var r := MoveTo(s, t, TerminationList);
    MoveToKeeps(s, t, TerminationList);
    D.LeaveKeepsOk(View(s), t);
    TerminationGrows(s, t);
    BooksKeepLists(r, r.(deleted := s.deleted + 1));
  }

  lemma TerminationGrows(s: Kernel, t: TaskId)
    requires Consistent(s.states) && !On(s, t, TerminationList)
    ensures |At(MoveTo(s, t, TerminationList).states, TerminationList)| == |At(s.states, TerminationList)| + 1
  {
    DetachFacts(s.states, t);
    AppendFacts(Detach(s.states, t), TerminationList, t);
  }

  lemma DeleteKeepsInv(s: Kernel, t: TaskId)
    requires Inv(s) && Live(s, t) && t != s.idle
    ensures Inv(DeleteTask(s, t))
  {
    if t == s.current {
      LeaveEventKeeps(s, t);
      TerminateKeepsInv(LeaveEvent(s, t), t);
    } else {
      DeleteOtherKeepsInv(s, t);
    }
  }

  lemma CleanUpKeepsInv(s: Kernel)
    requires Inv(s) && At(s.states, TerminationList) != []
    ensures s.count > 0 && s.deleted > 0 && Inv(CleanUp(s))
  {
    CleanUpReady(s);
    var t := At(s.states, TerminationList)[0];
    HeadIsTask(s, TerminationList);
    ForgetIsLeave(s, t);
    assert Base(Forget(s, t)) by { ForgottenBase(s, Forget(s, t), t); }
    assert D.Ok(View(Forget(s, t))) by { D.LeaveKeepsOk(View(s), t); }
    Shrinks(s.prio, t);
  }

  lemma RepositionedBase(s: Kernel, r: Kernel, t: TaskId, p: nat)
    requires Base(s) && t in s.prio && p < s.maxPriorities
    requires r.states.container == s.states.container[t := ReadyList(p)]
    requires Consistent(r.states) && r.events == s.events && r.prio == s.prio[t := p]
    requires s.prio.Keys <= r.eventValue.Keys
    requires r.top == Max(s.top, p) && r.maxPriorities == s.maxPriorities && r.idle == s.idle
    requires !On(s, t, TerminationList)
    ensures Base(r)
  {
  }

  lemma RepricedBase(s: Kernel, r: Kernel, t: TaskId, p: nat)
    requires Base(s) && t in s.prio && p < s.maxPriorities && !IsReady(s, t) && s.prio.Keys <= r.eventValue.Keys
    requires r == s.(prio := s.prio[t := p], eventValue := r.eventValue)
    ensures Base(r)
  {
  }

  lemma RepositionKeepsInv(s: Kernel, r: Kernel, t: TaskId, p: nat)
    requires Inv(s) && Live(s, t) && p < s.maxPriorities && IsReady(s, t) && s.prio.Keys <= r.eventValue.Keys
    requires r == s.(prio := s.prio[t := p], eventValue := r.eventValue)
    ensures Inv(MakeReady(r, t)) && View(MakeReady(r, t)) == View(s)
  {
    MoveFacts(r, t, ReadyList(p));
    ReadyNotBlocked(s, t);
    RepositionedBase(s, MakeReady(r, t), t, p);
    assert |s.prio[t := p]| == |s.prio| by { assert s.prio[t := p].Keys == s.prio.Keys; }
  }

  lemma RepriceKeepsInv(s: Kernel, r: Kernel, t: TaskId, p: nat)
    requires Inv(s) && Live(s, t) && p < s.maxPriorities && !IsReady(s, t) && s.prio.Keys <= r.eventValue.Keys
    requires r == s.(prio := s.prio[t := p], eventValue := r.eventValue)
    ensures Inv(r) && View(r) == View(s)
  {
    RepricedBase(s, r, t, p);
    assert |s.prio[t := p]| == |s.prio| by { assert s.prio[t := p].Keys == s.prio.Keys; }
  }

  lemma SetPriorityKeepsInv(s: Kernel, t: TaskId, p: nat, v: Option<nat>)
    requires Inv(s) && Live(s, t) && p < s.maxPriorities
    ensures Inv(SetPriority(s, t, p, v)) && View(SetPriority(s, t, p, v)) == View(s)
  {
    if IsReady(s, t) {
      RepositionKeepsInv(s, Reprice(s, t, p, v), t, p);
    } else {
      RepriceKeepsInv(s, Reprice(s, t, p, v), t, p);
    }
  }

  lemma RescheduleKeepsInv(s: Kernel)
    requires Inv(s)
    ensures Inv(SwitchContext(s)) && View(SwitchContext(s)) == View(s)
  {
    SelectionSucceeds(s);
    if s.suspended == 0 {
      SelectsHighestPriority(s);
      SelectKeepsFamily(s, Highest(s, s.top));
    }
  }

  lemma ManagingKeepsInv(s: Kernel, step: Step)
    requires Inv(s) && Enabled(s, step) && Manages(step)
    ensures Inv(Next(s, step))
  {
    match step
    case Suspend(t) => SuspendKeepsInv(s, t);
    case Resume(t) => if t != s.current && IsSuspended(s, t) { WakeKeepsInv(s, t); }
    case ResumeIsr(t) => if IsSuspended(s, t) { WakeOrPendKeepsInv(s, t); }
    case Create(t, p) => CreateKeepsInv(s, t, p);
    case Delete(t) => DeleteKeepsInv(s, t);
    case CleanUpStep => CleanUpKeepsInv(s);
    case ChangePriority(t, p, v) => SetPriorityKeepsInv(s, t, p, v);
  }

  lemma StepKeepsInv(s: Kernel, step: Step)
    requires Inv(s) && Enabled(s, step)
    ensures Inv(Next(s, step))
  {
    if Manages(step) {
      ManagingKeepsInv(s, step);
    } else {
      match step
      case TickInterrupt => TickKeepsInv(s);
      case SuspendAll =>
      case ResumeAllStep => ResumeAllKeepsInv(s);
      case Block(w, n, indefinitely) => BlockKeepsInv(s, w, n, indefinitely);
      case EventWake(e) => EventWakeKeepsInv(s, e);
      case Release(t) => ReleaseKeepsInv(s, t);
      case Notify(t) => NotifyKeepsInv(s, t);
      case NotifyFromIsr(t) => NotifyKeepsInv(s, t);
      case FinishNotification => NotifyStateKeepsInv(s, s.notifyWaiting - {s.current});
      case Reschedule => RescheduleKeepsInv(s);
    }
  }

  // ------------------------------------------------------------------ runs

  ghost predicate Run(s: Kernel, steps: seq<Step>, s': Kernel)
    requires Inv(s)
    decreases |steps|
  {
    if steps == [] then s' == s
    else Enabled(s, steps[0]) && (StepKeepsInv(s, steps[0]); Run(Next(s, steps[0]), steps[1..], s'))
  }

  lemma {:induction false} RunKeepsInv(s: Kernel, steps: seq<Step>, s': Kernel)
    requires Inv(s) && Run(s, steps, s')
    ensures Inv(s')
    decreases |steps|
  {
    if steps != [] {
      StepKeepsInv(s, steps[0]);
      RunKeepsInv(Next(s, steps[0]), steps[1..], s');
    }
  }

  /** The scheduler just started: the idle task and others ready, some perhaps suspended, none
      waiting, no tick yet. */
  ghost predicate Initial(s: Kernel) {
    && Base(s) && Counts(s) && s.m > 1
    && s.tick == s.time == s.received == s.pended == s.suspended == 0 && s.nextUnblock == s.m - 1
    && At(s.states, Delayed(s)) == At(s.states, Overflow(s)) == []
    && s.events.container == map[] && s.notifyWaiting == {}
  }

  lemma InitialInv(s: Kernel)
    requires Initial(s)
    ensures Inv(s)
  {
    OriginIs(0, s.m, 0);
  }

  /** In every reachable state both delayed lists are sorted, the current one holds times
      from the tick count on and the other one times below it, the next unblock time is
      not after the head, and nothing is left on the current list when the count is about
      to wrap: the assertion of the list switch cannot fail. */
  lemma DelayedListsInOrder(s: Kernel, steps: seq<Step>, s': Kernel)
    requires Initial(s) && Inv(s) && Run(s, steps, s')
    ensures var current, overflow := At(s'.states, Delayed(s')), At(s'.states, Overflow(s'));
            && Valued(current, s'.value) && Valued(overflow, s'.value)
            && Sorted(current, s'.value) && Sorted(overflow, s'.value)
            && (forall t :: t in current ==> s'.nextUnblock <= s'.value[current[0]] && s'.tick <= s'.value[t])
            && (forall t :: t in overflow ==> s'.value[t] < s'.tick)
            && (s'.tick == s'.m - 1 ==> current == [])
  {
    RunKeepsInv(s, steps, s');
    ListsInOrder(s');
  }

  lemma ListsInOrder(s: Kernel)
    requires s.m > 1 && D.Ok(View(s)) && s.tick == Low(s.time, s.m)
    ensures var current, overflow := At(s.states, Delayed(s)), At(s.states, Overflow(s));
            && Valued(current, s.value) && Valued(overflow, s.value)
            && Sorted(current, s.value) && Sorted(overflow, s.value)
            && (forall t :: t in current ==> s.nextUnblock <= s.value[current[0]] && s.tick <= s.value[t])
            && (forall t :: t in overflow ==> s.value[t] < s.tick)
            && (s.tick == s.m - 1 ==> current == [])
  {
    D.ValuesAroundTick(View(s));
    if s.tick == s.m - 1 {
      LowAdd(s.time, 1, s.m);
      D.ListEmptyAtSwitch(View(s));
    }
  }

  /** No tick is lost: the tick count and the pended ticks always account for every tick
      interrupt since the start, modulo 2^N. */
  lemma TicksConserved(s: Kernel, steps: seq<Step>, s': Kernel)
    requires Initial(s) && Inv(s) && Run(s, steps, s')
    ensures s'.tick < s'.m && Low(s'.tick + s'.pended, s'.m) == Low(s'.received, s'.m)
  {
    assert Clock(s') by { RunKeepsInv(s, steps, s'); }
    PendedAreCounted(s');
  }

  lemma PendedAreCounted(s: Kernel)
    requires Clock(s)
    ensures s.tick < s.m && Low(s.tick + s.pended, s.m) == Low(s.received, s.m)
  {
    LowShift(s.tick + s.pended, Origin(s.time, s.m), s.m);
  }

  /** Every task, live or waiting for clean-up, is on a list, and on no other. */
  ghost predicate EachOnOneList(s: Kernel) {
    && (forall t :: t in s.prio ==> t in s.states.container && t in At(s.states, s.states.container[t]))
    && (forall t, k :: t in At(s.states, k) ==> t in s.prio && On(s, t, k))
  }

  /** Every task, live or waiting for clean-up, is on exactly one list, and the lengths of
      the lists add up to `uxCurrentNumberOfTasks`. */
  lemma TasksConserved(s: Kernel, steps: seq<Step>, s': Kernel)
    requires Initial(s) && Inv(s) && Run(s, steps, s')
    ensures EachOnOneList(s')
    ensures Lengths(s'.states, AllLists(s')) == s'.count
  {
    RunKeepsInv(s, steps, s');
    TasksAreOnLists(s');
    AllTasksListed(s');
  }

  lemma TasksAreOnLists(s: Kernel)
    requires Consistent(s.states) && s.states.container.Keys == s.prio.Keys
    ensures EachOnOneList(s)
  {
    forall t | t in s.prio ensures On(s, t, s.states.container[t]) && t in At(s.states, s.states.container[t]) {
      assert ListWellFormed(s.states, s.states.container[t]);
    }
    forall t, k | t in At(s.states, k) ensures t in s.prio && On(s, t, k) {
      assert ListWellFormed(s.states, k);
    }
  }

  lemma AllTasksListed(s: Kernel)
    requires Inv(s)
    ensures Lengths(s.states, AllLists(s)) == s.count
  {
    AllListsAreAll(s);
    LengthsSum(s.states, AllLists(s));
    assert |s.states.container.Keys| == |s.prio.Keys|;
  }

  // ------------------------------------------------------------------ the table of tasks

  /** The ready lists from priority p - 1 downward. */
  function ReadyLists(p: nat): (r: seq<ListId>)
    ensures |r| == p && forall i :: 0 <= i < p ==> r[i] == ReadyList(p - 1 - i)
  {
    if p == 0 then [] else [ReadyList(p - 1)] + ReadyLists(p - 1)
  }

  /** The lists `uxTaskGetSystemState` visits, in its order. */
  function AllLists(s: Kernel): seq<ListId> {
    ReadyLists(s.maxPriorities) + [Delayed(s), Overflow(s), TerminationList, SuspendedList]
  }

  lemma AllListsDiffer(s: Kernel)
    ensures Distinct(AllLists(s))
  {
    var ready, rest := ReadyLists(s.maxPriorities), [Delayed(s), Overflow(s), TerminationList, SuspendedList];
    assert AllLists(s) == ready + rest;
  }

  lemma OnAllLists(s: Kernel, k: ListId)
    requires k.ReadyList? ==> k.priority < s.maxPriorities
    ensures k in AllLists(s)
  {
    var ready, rest := ReadyLists(s.maxPriorities), [Delayed(s), Overflow(s), TerminationList, SuspendedList];
    assert AllLists(s) == ready + rest;
    if k.ReadyList? {
      assert ready[s.maxPriorities - 1 - k.priority] == k;
    } else {
      assert k == rest[0] || k == rest[1] || k == rest[2] || k == rest[3];
    }
  }

  lemma AllListsAreAll(s: Kernel)
    requires Base(s)
    ensures Distinct(AllLists(s))
    ensures forall t :: t in s.states.container ==> s.states.container[t] in AllLists(s)
  {
    AllListsDiffer(s);
    forall t | t in s.states.container ensures s.states.container[t] in AllLists(s) {
      OnAllLists(s, s.states.container[t]);
    }
  }
}
