/** What an operation does to the tasks it does not name: nothing. */
module OtherTasks {
  import opened Common
  import opened TaskLists
  import opened Ticks
  import opened Kernel
  import opened KernelRuns
  import D = Delays

  /** The step takes task t, or blocks it, by name. */
  ghost predicate Touches(s: Kernel, step: Step, t: TaskId) {
    match step
    case Block(_, _, _) => t == s.current
    case EventWake(e) => At(s.events, EventOf(e)) != [] && At(s.events, EventOf(e))[0] == t
    case Release(u) => u == t
    case Notify(u) => u == t && t in s.notifyWaiting
    case NotifyFromIsr(u) => u == t && t in s.notifyWaiting
    case Suspend(u) => u == t
    case Delete(u) => u == t
    case _ => false
  }

  /** The step takes task t by name, or from the head of an event list. */
  ghost predicate Names(s: Kernel, step: Step, t: TaskId) {
    match step
    case Resume(u) => u == t
    case ResumeIsr(u) => u == t
    case ChangePriority(u, _, _) => u == t
    case FinishNotification => t == s.current
    case _ => Touches(s, step, t)
  }

  predicate IsPending(s: Kernel, t: TaskId) {
    t in s.events.container && s.events.container[t] == PendingReady
  }

  /** Task t is on the lists it was on, and waits for a notification if it did. */
  ghost predicate Kept(s: Kernel, r: Kernel, t: TaskId) {
    && t in s.states.container && t in r.states.container && r.states.container[t] == s.states.container[t]
    && (t in r.events.container <==> t in s.events.container)
    && (t in s.events.container ==> r.events.container[t] == s.events.container[t])
    && (t in r.notifyWaiting <==> t in s.notifyWaiting)
  }

  /** And due when it was due. */
  ghost predicate Aside(s: Kernel, r: Kernel, t: TaskId) {
    && Kept(s, r, t) && r.time == s.time
    && (t in s.deadline ==> t in r.deadline && r.deadline[t] == s.deadline[t])
  }

  lemma WakeKeepsOthers(s: Kernel, u: TaskId, t: TaskId)
    requires Base(s) && Live(s, u) && u != t && t in s.states.container
    ensures Aside(s, MakeReady(s, u), t)
  {
    MakeReadyKeeps(s, u);
  }

  lemma WakeOrPendKeepsOthers(s: Kernel, u: TaskId, t: TaskId)
    requires Base(s) && Live(s, u) && u !in s.events.container && u != t && t in s.states.container
    ensures Aside(s, WakeOrPend(s, u), t)
  {
    if s.suspended == 0 { WakeKeepsOthers(s, u, t); } else { AppendFacts(s.events, PendingReady, u); }
  }

  lemma EventWakeKeepsOthers(s: Kernel, e: nat, t: TaskId)
    requires Base(s) && At(s.events, EventOf(e)) != [] && At(s.events, EventOf(e))[0] != t && t in s.states.container
    ensures Aside(s, RemoveFromEvent(s, e), t)
  {
    var u := At(s.events, EventOf(e))[0];
    EventHead(s, EventOf(e));
    LeaveEventKeeps(s, u);
    WakeOrPendKeepsOthers(LeaveEvent(s, u), u, t);
  }

  lemma ReleaseKeepsOthers(s: Kernel, u: TaskId, t: TaskId)
    requires Base(s) && u in s.events.container && u != t && t in s.states.container
    ensures Aside(s, ReleaseWaiter(s, u), t)
  {
    LeaveEventKeeps(s, u);
    WakeKeepsOthers(LeaveEvent(s, u), u, t);
  }

  lemma BlockMovesOnlyCurrent(s: Kernel, n: nat, indefinitely: bool)
    requires Base(s) && D.Ok(View(s)) && s.tick < s.m && CanBlock(s, n)
    ensures var r := BlockCurrent(s, n, indefinitely);
            && r.events == s.events && r.time == s.time && r.notifyWaiting == s.notifyWaiting
            && (forall u :: u != s.current ==>
                  (u in r.states.container <==> u in s.states.container)
                  && (u in s.states.container ==> r.states.container[u] == s.states.container[u])
                  && (u in s.deadline ==> u in r.deadline && r.deadline[u] == s.deadline[u]))
  {
    if n == s.m - 1 && indefinitely {
      MoveFacts(s, s.current, SuspendedList);
    } else {
      var wake := WrapAdd(s.tick, n, s.m);
      BlockedListsValued(s, wake);
      MovedByValue(s.states, s.current, if wake < s.tick then Overflow(s) else Delayed(s), s.value[s.current := wake]);
    }
  }

  lemma BlockKeepsOthers(s: Kernel, w: WaitsFor, n: nat, indefinitely: bool, t: TaskId)
    requires Inv(s) && CanWait(s, w, n) && t != s.current && t in s.states.container
    ensures Aside(s, BlockStep(s, w, n, indefinitely), t)
  {
    PrepareKeeps(s, w);
    if !(w.Notification? && n == 0) { BlockMovesOnlyCurrent(Prepare(s, w), n, indefinitely); }
  }

  lemma SuspendKeepsOthers(s: Kernel, u: TaskId, t: TaskId)
    requires Base(s) && D.Ok(View(s)) && Live(s, u) && u != s.idle && u != t && t in s.states.container
    ensures Aside(s, SuspendTask(s, u), t)
  {
    SuspendKeeps(s, u);
    LeaveEventKeeps(s, u);
    MoveFacts(LeaveEvent(s, u), u, SuspendedList);
  }

  lemma DeleteKeepsOthers(s: Kernel, u: TaskId, t: TaskId)
    requires Base(s) && D.Ok(View(s)) && Live(s, u) && u != s.idle && u != t && t in s.states.container
    ensures Aside(s, DeleteTask(s, u), t)
  {
    LeaveEventKeeps(s, u);
    if u == s.current {
      MoveFacts(LeaveEvent(s, u), u, TerminationList);
    } else {
      ForgetKeeps(s, u);
      DetachFacts(s.states, u);
    }
  }

  lemma CleanUpKeepsOthers(s: Kernel, t: TaskId)
    requires Inv(s) && At(s.states, TerminationList) != [] && t in s.states.container && !On(s, t, TerminationList)
    ensures s.count > 0 && s.deleted > 0 && Aside(s, CleanUp(s), t)
  {
    CleanUpReady(s);
    HeadIsTask(s, TerminationList);
    DetachFacts(s.states, At(s.states, TerminationList)[0]);
  }

  lemma PriorityKeepsOthers(s: Kernel, u: TaskId, p: nat, v: Option<nat>, t: TaskId)
    requires Base(s) && Live(s, u) && p < s.maxPriorities && u != t && t in s.states.container
    ensures Aside(s, SetPriority(s, u, p, v), t)
  {
    MoveFacts(Reprice(s, u, p, v), u, ReadyList(p));
  }

  lemma CreateKeepsOthers(s: Kernel, u: TaskId, p: nat, t: TaskId)
    requires Base(s) && u !in s.prio && p < s.maxPriorities && t in s.states.container
    ensures Aside(s, CreateTask(s, u, p), t)
  {
    AppendFacts(s.states, ReadyList(p), u);
  }

  lemma NotifyKeepsOthers(s: Kernel, u: TaskId, t: TaskId)
    requires Base(s) && Live(s, u) && t in s.states.container
    requires u in s.notifyWaiting ==> u !in s.events.container && u != t
    ensures Aside(s, NotifyTask(s, u), t) && Aside(s, NotifyTaskFromIsr(s, u), t)
  {
    if u in s.notifyWaiting {
      WakeKeepsOthers(s, u, t);
      WakeOrPendKeepsOthers(s, u, t);
    }
  }

  lemma RescheduleKeepsOthers(s: Kernel, t: TaskId)
    requires Base(s) && t in s.states.container
    ensures Aside(s, SwitchContext(s), t)
  {
    SelectionSucceeds(s);
    if s.suspended == 0 { SelectKeepsFamily(s, Highest(s, s.top)); }
  }

  lemma ManagingKeepsOthers(s: Kernel, step: Step, t: TaskId)
    requires Inv(s) && Enabled(s, step) && Manages(step) && !step.ChangePriority? && !step.CleanUpStep?
    requires !Names(s, step, t)
    requires t in s.states.container
    ensures Aside(s, Next(s, step), t)
  {
    match step
    case Suspend(u) => SuspendKeepsOthers(s, u, t);
    case Resume(u) => WakeKeepsOthers(s, u, t);
    case ResumeIsr(u) => if IsSuspended(s, u) { WakeOrPendKeepsOthers(s, u, t); }
    case Create(u, p) => CreateKeepsOthers(s, u, p, t);
    case Delete(u) => DeleteKeepsOthers(s, u, t);
  }

  /** Every operation but a tick and the end of a suspension of the scheduler leaves every
      task it does not name on its lists, with its time. */
  lemma OperationKeepsOthers(s: Kernel, step: Step, t: TaskId)
    requires Inv(s) && Enabled(s, step) && !step.TickInterrupt? && !step.ResumeAllStep? && !Names(s, step, t)
    requires t in s.states.container && (step.CleanUpStep? ==> !On(s, t, TerminationList))
    ensures Aside(s, Next(s, step), t)
  {
    if step.ChangePriority? {
      PriorityKeepsOthers(s, step.task, step.priority, step.itemValue, t);
    } else if step.CleanUpStep? {
      CleanUpKeepsOthers(s, t);
    } else if Manages(step) {
      ManagingKeepsOthers(s, step, t);
    } else {
      match step
      case SuspendAll =>
      case Block(w, n, indefinitely) => BlockKeepsOthers(s, w, n, indefinitely, t);
      case EventWake(e) => EventWakeKeepsOthers(s, e, t);
      case Release(u) => ReleaseKeepsOthers(s, u, t);
      case Notify(u) => NotifyKeepsOthers(s, u, t);
      case NotifyFromIsr(u) => NotifyKeepsOthers(s, u, t);
      case FinishNotification =>
      case Reschedule => RescheduleKeepsOthers(s, t);
    }
  }

  lemma RepricedKeeps(s: Kernel, t: TaskId, p: nat, v: Option<nat>)
    requires Inv(s) && Live(s, t) && p < s.maxPriorities
    ensures var r := SetPriority(s, t, p, v);
            && t in r.states.container && r.time == s.time && r.events == s.events && r.deadline == s.deadline
            && r.notifyWaiting == s.notifyWaiting
            && r.states.container[t] == if IsReady(s, t) then ReadyList(p) else s.states.container[t]
  {
    MoveFacts(Reprice(s, t, p, v), t, ReadyList(p));
  }
}
