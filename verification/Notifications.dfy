/** The assertion of the notify functions that a task they wake is on no event list: when it
    fails.

    `xTaskResumeFromISR` puts a task onto the list of pending tasks and leaves its
    notification state alone.  The task it so resumes while the scheduler is suspended may be
    one that waits for its notification. */
module Notifications {
  import opened Common
  import opened TaskLists
  import opened Ticks
  import opened Kernel
  import opened KernelRuns
  import opened OtherTasks
  import opened Readiness
  import opened Suspension
  import D = Delays

  /** Whether task t is held pending by a resume from an interrupt that found it waiting for
      its notification, told from the steps: until the scheduler runs again, or the task is
      suspended, is deleted or ends its wait. */
  predicate HeldAfter(s: Kernel, step: Step, t: TaskId, held: bool) {
    match step
    case ResumeIsr(u) => held || (u == t && AwaitsNotification(s, t) && s.suspended > 0)
    case ResumeAllStep => held && s.suspended > 1
    case Suspend(u) => held && u != t
    case Delete(u) => held && u != t
    case FinishNotification => held && s.current != t
    case _ => held
  }

  ghost predicate HeldOver(s: Kernel, steps: seq<Step>, t: TaskId, held: bool)
    requires Inv(s)
    decreases |steps|
  {
    if steps == [] || !Enabled(s, steps[0]) then held
    else
      StepKeepsInv(s, steps[0]);
      HeldOver(Next(s, steps[0]), steps[1..], t, HeldAfter(s, steps[0], t, held))
  }

  /** The lists and the notification state tell it too. */
  predicate TellsHeld(s: Kernel, t: TaskId, held: bool) {
    && (held <==> t in s.notifyWaiting && t in s.events.container)
    && (held ==> IsPending(s, t))
  }

  // ------------------------------------------------------------------ who waits for a notification

  ghost function WaitingAfter(s: Kernel, step: Step): set<TaskId> {
    match step
    case Block(w, _, _) => if w.Notification? then s.notifyWaiting + {s.current} else s.notifyWaiting
    case Notify(u) => s.notifyWaiting - {u}
    case NotifyFromIsr(u) => s.notifyWaiting - {u}
    case FinishNotification => s.notifyWaiting - {s.current}
    case Suspend(u) => s.notifyWaiting - {u}
    case Create(u, _) => s.notifyWaiting - {u}
    case _ => s.notifyWaiting
  }

  lemma BlockMovesWaiting(s: Kernel, w: WaitsFor, n: nat, indefinitely: bool)
    requires Inv(s) && CanWait(s, w, n)
    ensures BlockStep(s, w, n, indefinitely).notifyWaiting == WaitingAfter(s, Block(w, n, indefinitely))
  {
    PrepareKeeps(s, w);
    if !(w.Notification? && n == 0) { BlockMovesOnlyCurrent(Prepare(s, w), n, indefinitely); }
  }

  lemma WakeMovesWaiting(s: Kernel, e: nat)
    requires Base(s) && At(s.events, EventOf(e)) != []
    ensures RemoveFromEvent(s, e).notifyWaiting == s.notifyWaiting
  {
    EventHead(s, EventOf(e));
    LeaveEventKeeps(s, At(s.events, EventOf(e))[0]);
  }

  lemma NotifyMovesWaiting(s: Kernel, t: TaskId)
    requires Consistent(s.states) && Consistent(s.events) && t in s.prio
    ensures NotifyTask(s, t).notifyWaiting == NotifyTaskFromIsr(s, t).notifyWaiting == s.notifyWaiting - {t}
  {
  }

  lemma SwitchMovesNobody(s: Kernel)
    requires Base(s)
    ensures SwitchContext(s).notifyWaiting == s.notifyWaiting
  {
  }

  lemma SuspendMovesWaiting(s: Kernel, t: TaskId)
    requires Base(s) && D.Ok(View(s)) && t in s.prio && t != s.idle
    ensures SuspendTask(s, t).notifyWaiting == s.notifyWaiting - {t}
    ensures DeleteTask(s, t).notifyWaiting == s.notifyWaiting
  {
    LeaveEventKeeps(s, t);
  }

  lemma ManagedMovesWaiting(s: Kernel, step: Step)
    requires Inv(s) && Manages(step) && Enabled(s, step)
    ensures Managed(s, step).notifyWaiting == WaitingAfter(s, step)
  {
    match step
    case Suspend(t) => SuspendMovesWaiting(s, t);
    case Resume(_) =>
    case ResumeIsr(_) =>
    case Create(_, _) =>
    case Delete(t) => SuspendMovesWaiting(s, t);
    case CleanUpStep => CleanUpReady(s);
    case ChangePriority(_, _, _) =>
  }

  lemma WakingMovesWaiting(s: Kernel, step: Step)
    requires Inv(s) && Enabled(s, step)
    requires step.EventWake? || step.Release? || step.Notify? || step.NotifyFromIsr?
    ensures Next(s, step).notifyWaiting == WaitingAfter(s, step)
  {
    match step
    case EventWake(e) => WakeMovesWaiting(s, e);
    case Release(_) =>
    case Notify(t) => NotifyMovesWaiting(s, t);
    case NotifyFromIsr(t) => NotifyMovesWaiting(s, t);
  }

  lemma StepMovesWaiting(s: Kernel, step: Step)
    requires Inv(s) && Enabled(s, step) && !step.TickInterrupt? && !step.ResumeAllStep?
    ensures Next(s, step).notifyWaiting == WaitingAfter(s, step)
  {
    if Manages(step) {
      ManagedMovesWaiting(s, step);
    } else if step.EventWake? || step.Release? || step.Notify? || step.NotifyFromIsr? {
      WakingMovesWaiting(s, step);
    } else {
      match step
      case Block(w, n, indefinitely) => BlockMovesWaiting(s, w, n, indefinitely);
      case SuspendAll =>
      case FinishNotification =>
      case Reschedule => SwitchMovesNobody(s);
    }
  }

  // ------------------------------------------------------------------ every step

  /** What a tick or a catch-up does to the event items and to those who wait. */
  ghost predicate OnlyLeft(s: Kernel, r: Kernel) {
    && r.notifyWaiting == s.notifyWaiting
    && forall u :: u in r.events.container ==> u in s.events.container && r.events.container[u] == s.events.container[u]
  }

  lemma ResumeAllOnlyLeaves(s: Kernel)
    requires Inv(s) && s.suspended > 0
    ensures OnlyLeft(s, ResumeAll(s)) && ResumeAll(s).suspended == s.suspended - 1
    ensures s.suspended > 1 ==> ResumeAll(s).events == s.events
  {
    var r := s.(suspended := s.suspended - 1);
    if r.suspended == 0 {
      var d := Drained(r);
      assert Base(d) && D.Ok(View(d)) && d.tick == Low(d.time, d.m) && d.pended == r.pended && SameBut(r, d) by {
        DrainedKeeps(r);
      }
      assert SameBut(d, ProcessTicks(d, s.pended)) by { ProcessTicksKeeps(d, s.pended); }
    }
  }

  lemma PassingTellsHeld(s: Kernel, step: Step, t: TaskId, held: bool)
    requires Inv(s) && Enabled(s, step) && Drains(s) && TellsHeld(s, t, held)
    requires step.TickInterrupt? || step.ResumeAllStep?
    ensures TellsHeld(Next(s, step), t, HeldAfter(s, step, t, held))
  {
    if step.ResumeAllStep? {
      ResumeAllOnlyLeaves(s);
      ResumeAllDrains(s);
    } else if s.suspended == 0 {
      ProcessTickKeeps(s);
    }
  }

  lemma OperationTellsHeld(s: Kernel, step: Step, t: TaskId, held: bool)
    requires Inv(s) && Enabled(s, step) && TellsHeld(s, t, held) && !step.TickInterrupt? && !step.ResumeAllStep?
    ensures TellsHeld(Next(s, step), t, HeldAfter(s, step, t, held))
  {
    StepMovesWaiting(s, step);
    StepMovesEvents(s, step);
    if step.EventWake? { EventHead(s, EventOf(step.event)); }
  }

  lemma StepTellsHeld(s: Kernel, step: Step, t: TaskId, held: bool)
    requires Inv(s) && Enabled(s, step) && Drains(s) && TellsHeld(s, t, held)
    ensures TellsHeld(Next(s, step), t, HeldAfter(s, step, t, held))
  {
    if step.TickInterrupt? || step.ResumeAllStep? {
      PassingTellsHeld(s, step, t, held);
    } else {
      OperationTellsHeld(s, step, t, held);
    }
  }

  lemma {:induction false} RunTellsHeld(s: Kernel, steps: seq<Step>, s': Kernel, t: TaskId, held: bool)
    requires Inv(s) && Run(s, steps, s') && Drains(s) && TellsHeld(s, t, held)
    ensures TellsHeld(s', t, HeldOver(s, steps, t, held))
    decreases |steps|
  {
    if steps != [] {
      StepKeepsInv(s, steps[0]);
      StepDrains(s, steps[0]);
      StepTellsHeld(s, steps[0], t, held);
      RunTellsHeld(Next(s, steps[0]), steps[1..], s', t, HeldAfter(s, steps[0], t, held));
    }
  }

  // ------------------------------------------------------------------ when the assertion fails

  /** The assertion of `xTaskGenericNotify` and its interrupt variants, which is made of a
      task that waits. */
  predicate NotifyAsserts(s: Kernel, t: TaskId) {
    t in s.notifyWaiting ==> t !in s.events.container
  }

  /** In every reachable state a notification of a live task fails the assertion if and only
      if the task is held pending by a resume from an interrupt that found it waiting; for
      every other task the notification is a step. */
  lemma NotifyFailsExactly(s0: Kernel, steps: seq<Step>, s: Kernel, t: TaskId)
    requires Initial(s0) && Inv(s0) && Run(s0, steps, s) && Live(s, t)
    ensures !NotifyAsserts(s, t) <==> HeldOver(s0, steps, t, false)
    ensures HeldOver(s0, steps, t, false) ==> IsPending(s, t) && s.suspended > 0
    ensures Enabled(s, Notify(t)) && Enabled(s, NotifyFromIsr(t)) <==> !HeldOver(s0, steps, t, false)
  {
    RunTellsHeld(s0, steps, s, t, false);
    RunDrains(s0, steps, s);
    HeldTells(s, t, HeldOver(s0, steps, t, false));
  }

  lemma HeldTells(s: Kernel, t: TaskId, held: bool)
    requires Live(s, t) && TellsHeld(s, t, held) && Drains(s)
    ensures !NotifyAsserts(s, t) <==> held
    ensures held ==> IsPending(s, t) && s.suspended > 0
    ensures Enabled(s, Notify(t)) && Enabled(s, NotifyFromIsr(t)) <==> !held
  {
  }

  /** The task blocks, another is switched to, and an interrupt resumes the first while the
      scheduler is suspended. */
  function WaitAndResume(s: Kernel): seq<Step>
    requires s.m > 0
  {
    [Block(Notification, s.m - 1, true)] + ([Reschedule] + SuspendAndResume(s.current))
  }

  function SuspendAndResume(t: TaskId): seq<Step> {
    [SuspendAll] + [ResumeIsr(t)]
  }

  /** Such a state is reached from every start state with a task running beside the idle
      task: a notification of the resumed task then fails the assertion. */
  lemma NotificationFails(s: Kernel) returns (held: Kernel)
    requires Initial(s) && Inv(s) && IsReady(s, s.current) && s.current in s.prio && s.current != s.idle
    ensures Run(s, WaitAndResume(s), held) && Inv(held) && Live(held, s.current)
    ensures !NotifyAsserts(held, s.current) && !Enabled(held, Notify(s.current))
  {
    BlockedByNotification(s);
    held := SwitchedAndResumed(Next(s, Block(Notification, s.m - 1, true)), s.current);
    BlockedThen(s, held);
    NotifyStops(held, s.current);
  }

  lemma NotifyStops(s: Kernel, t: TaskId)
    requires !NotifyAsserts(s, t)
    ensures !Enabled(s, Notify(t)) && !Enabled(s, NotifyFromIsr(t))
  {
  }

  lemma BlockedThen(s: Kernel, held: Kernel)
    requires Inv(s) && Enabled(s, Block(Notification, s.m - 1, true))
    requires Inv(Next(s, Block(Notification, s.m - 1, true)))
    requires Run(Next(s, Block(Notification, s.m - 1, true)), [Reschedule] + SuspendAndResume(s.current), held)
    ensures Run(s, WaitAndResume(s), held)
  {
    RunFirst(s, Block(Notification, s.m - 1, true), [Reschedule] + SuspendAndResume(s.current), held);
  }

  lemma SwitchedAndResumed(s: Kernel, t: TaskId) returns (held: Kernel)
    requires Inv(s) && AwaitsNotification(s, t) && s.suspended == 0 && Live(s, t)
    ensures Inv(held) && Run(s, [Reschedule] + SuspendAndResume(t), held) && Live(held, t) && !NotifyAsserts(held, t)
  {
    SwitchedAway(s, t);
    held := SuspendedAndResumed(SwitchContext(s), t);
    RunFirst(s, Reschedule, SuspendAndResume(t), held);
  }

  lemma SuspendedAndResumed(s: Kernel, t: TaskId) returns (held: Kernel)
    requires Inv(s) && AwaitsNotification(s, t) && Live(s, t)
    ensures Inv(held) && Run(s, SuspendAndResume(t), held) && Live(held, t) && !NotifyAsserts(held, t)
  {
    StepKeepsInv(s, SuspendAll);
    held := ResumedIsHeld(Next(s, SuspendAll), t);
    RunFirst(s, SuspendAll, [ResumeIsr(t)], held);
  }

  lemma ResumedIsHeld(s: Kernel, t: TaskId) returns (held: Kernel)
    requires Inv(s) && AwaitsNotification(s, t) && Live(s, t) && s.suspended > 0
    ensures Inv(held) && Run(s, [ResumeIsr(t)], held) && Live(held, t) && !NotifyAsserts(held, t)
  {
    held := Next(s, ResumeIsr(t));
    StepKeepsInv(s, ResumeIsr(t));
    AppendFacts(s.events, PendingReady, t);
    RunOne(s, ResumeIsr(t));
  }
}
