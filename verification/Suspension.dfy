/** Suspended tasks: what suspends a task, what a resume readies, and where the two differ.

    `vTaskResume` tells a suspended task from a blocked one by its lists alone, and a task
    that waits for its notification without limit has the lists of a suspended one.  The
    last word on what a task is doing is the history of the steps, kept here in `Cause`. */
module Suspension {
  import opened Common
  import opened Lists
  import opened TaskLists
  import opened Ticks
  import opened Kernel
  import opened KernelRuns
  import opened OtherTasks
  import opened Readiness
  import D = Delays

  /** What `eTaskGetState` reports as suspended. */
  predicate ReallySuspended(s: Kernel, t: TaskId) {
    IsSuspended(s, t) && t !in s.notifyWaiting
  }

  /** On the suspended list, and blocked for all that. */
  predicate AwaitsNotification(s: Kernel, t: TaskId) {
    IsSuspended(s, t) && t in s.notifyWaiting
  }

  /** Why a task is out of the scheduler's hands: it was suspended, or it blocked without
      limit for its notification. */
  datatype Cause = Free | BySuspend | ByNotification

  function CauseAfter(s: Kernel, step: Step, t: TaskId, c: Cause): Cause {
    match step
    case Suspend(u) => if u == t then BySuspend else c
    case Block(w, n, indefinitely) =>
      if t == s.current && w.Notification? && n > 0 && n == s.m - 1 && indefinitely then ByNotification else c
    case Resume(u) => if u == t && t != s.current then Free else c
    case ResumeIsr(u) => if u == t then Free else c
    case Notify(u) => if u == t && c == ByNotification then Free else c
    case NotifyFromIsr(u) => if u == t && c == ByNotification then Free else c
    case Delete(u) => if u == t then Free else c
    case _ => c
  }

  /** The cause after a run, told from its steps. */
  ghost function CauseOver(s: Kernel, steps: seq<Step>, t: TaskId, c: Cause): Cause
    requires Inv(s)
    decreases |steps|
  {
    if steps == [] || !Enabled(s, steps[0]) then c
    else
      StepKeepsInv(s, steps[0]);
      CauseOver(Next(s, steps[0]), steps[1..], t, CauseAfter(s, steps[0], t, c))
  }

  /** The lists and the notification state tell the cause. */
  ghost predicate Tells(s: Kernel, t: TaskId, c: Cause) {
    && (c == BySuspend <==> ReallySuspended(s, t))
    && (c == ByNotification <==> AwaitsNotification(s, t))
  }

  // ------------------------------------------------------------------ steps that name the task

  /** The running task is in nobody's hands but the scheduler's. */
  lemma BlockTells(s: Kernel, w: WaitsFor, n: nat, indefinitely: bool, c: Cause)
    requires Inv(s) && CanWait(s, w, n) && (w.Nothing? ==> !indefinitely) && Tells(s, s.current, c)
    ensures Tells(BlockStep(s, w, n, indefinitely), s.current, CauseAfter(s, Block(w, n, indefinitely), s.current, c))
  {
    PrepareKeeps(s, w);
    if !(w.Notification? && n == 0) { CurrentGoesTo(Prepare(s, w), n, indefinitely); }
  }

  /** The list a blocked task goes to. */
  lemma CurrentGoesTo(s: Kernel, n: nat, indefinitely: bool)
    requires Base(s) && D.Ok(View(s)) && s.tick < s.m && CanBlock(s, n)
    ensures var r := BlockCurrent(s, n, indefinitely);
            && s.current in r.states.container && r.events == s.events && r.notifyWaiting == s.notifyWaiting
            && (if n == s.m - 1 && indefinitely then r.states.container[s.current] == SuspendedList
                else r.states.container[s.current].DelayedList?)
  {
    if n == s.m - 1 && indefinitely {
      MoveFacts(s, s.current, SuspendedList);
    } else {
      var wake := WrapAdd(s.tick, n, s.m);
      BlockedListsValued(s, wake);
      MovedByValue(s.states, s.current, if wake < s.tick then Overflow(s) else Delayed(s), s.value[s.current := wake]);
    }
  }

  /** `vTaskSuspend` suspends whatever the task was doing. */
  lemma SuspendSuspends(s: Kernel, t: TaskId)
    requires Base(s) && D.Ok(View(s)) && t in s.prio && t != s.idle
    ensures ReallySuspended(SuspendTask(s, t), t) && Tells(SuspendTask(s, t), t, BySuspend)
  {
    SuspendKeeps(s, t);
    LeaveEventKeeps(s, t);
    MoveFacts(LeaveEvent(s, t), t, SuspendedList);
  }

  lemma WokenIsFree(s: Kernel, t: TaskId)
    requires Woken(s, t)
    ensures !IsSuspended(s, t)
  {
  }

  /** Taken off an event list. */
  lemma EventTells(s: Kernel, step: Step, t: TaskId)
    requires Inv(s) && Enabled(s, step) && (step.EventWake? || step == Release(t)) && Names(s, step, t)
    ensures !IsSuspended(s, t) && !IsSuspended(Next(s, step), t)
  {
    match step
    case EventWake(e) =>
      EventHead(s, EventOf(e));
      EventWakes(s, e);
    case Release(_) =>
      LeaveEventKeeps(s, t);
      MakeReadyKeeps(LeaveEvent(s, t), t);
  }

  /** Notified while it waits, or resumed while it has the lists of a suspended task. */
  lemma WakingTells(s: Kernel, step: Step, t: TaskId)
    requires Inv(s) && Enabled(s, step) && Names(s, step, t)
    requires step == Notify(t) || step == NotifyFromIsr(t) || step == Resume(t) || step == ResumeIsr(t)
    ensures if step == Resume(t) && t == s.current then Next(s, step) == s else !IsSuspended(Next(s, step), t)
  {
    if IsSuspended(s, t) || (t in s.notifyWaiting && (step.Notify? || step.NotifyFromIsr?)) { WakingWakes(s, t); }
  }

  lemma DeleteTells(s: Kernel, t: TaskId)
    requires Inv(s) && Live(s, t) && t != s.idle
    ensures !IsSuspended(DeleteTask(s, t), t)
  {
    LeaveEventKeeps(s, t);
    if t == s.current {
      MoveFacts(LeaveEvent(s, t), t, TerminationList);
    } else {
      ForgetKeeps(s, t);
      ForgetIsLeave(LeaveEvent(s, t), t);
    }
  }

  /** A change of priority, and the end of a wait for a notification. */
  lemma QuietTells(s: Kernel, step: Step, t: TaskId, c: Cause)
    requires Inv(s) && Enabled(s, step) && (step.ChangePriority? || step.FinishNotification?) && Names(s, step, t)
    requires Tells(s, t, c)
    ensures Tells(Next(s, step), t, c)
  {
    if step.ChangePriority? { RepricedKeeps(s, t, step.priority, step.itemValue); }
  }

  /** The steps that wake the task or delete it, if they do. */
  lemma ReleasingTells(s: Kernel, step: Step, t: TaskId, c: Cause)
    requires Inv(s) && Enabled(s, step) && Names(s, step, t) && Tells(s, t, c)
    requires !step.Block? && !step.Suspend? && !step.ChangePriority? && !step.FinishNotification?
    ensures Tells(Next(s, step), t, CauseAfter(s, step, t, c))
  {
    if step.EventWake? || step.Release? { EventTells(s, step, t); }
    else if step.Delete? { DeleteTells(s, t); }
    else { WakingTells(s, step, t); }
  }

  lemma NamedTells(s: Kernel, step: Step, t: TaskId, c: Cause)
    requires Inv(s) && Enabled(s, step) && Names(s, step, t) && Tells(s, t, c)
    ensures Tells(Next(s, step), t, CauseAfter(s, step, t, c))
  {
    if step.Block? {
      BlockTells(s, step.waitsFor, step.ticks, step.indefinitely, c);
    } else if step.Suspend? {
      SuspendSuspends(s, t);
    } else if step.ChangePriority? || step.FinishNotification? {
      QuietTells(s, step, t, c);
    } else {
      ReleasingTells(s, step, t, c);
    }
  }

  // ------------------------------------------------------------------ all other steps

  lemma OnlyReadiedTwice(a: Kernel, b: Kernel, c: Kernel)
    requires OnlyReadied(a, b) && OnlyReadied(b, c)
    ensures OnlyReadied(a, c)
  {
  }

  /** A catch-up moves tasks to the ready lists only. */
  lemma ResumeAllOnlyReadies(s: Kernel)
    requires Inv(s) && s.suspended > 0
    ensures OnlyReadied(s, ResumeAll(s))
  {
    var r := s.(suspended := s.suspended - 1);
    if r.suspended == 0 {
      DrainedKeeps(r);
      assert OnlyReadied(Drained(r), ProcessTicks(Drained(r), s.pended)) by { ProcessTicksKeeps(Drained(r), s.pended); }
      OnlyReadiedTwice(r, Drained(r), ProcessTicks(Drained(r), s.pended));
    }
  }

  /** A task that neither is nor becomes suspended. */
  lemma NotSuspendedStays(s: Kernel, r: Kernel, t: TaskId)
    requires OnlyReadied(s, r) && !On(s, t, SuspendedList)
    ensures !IsSuspended(r, t)
  {
  }

  lemma PassingTells(s: Kernel, step: Step, t: TaskId, c: Cause)
    requires Inv(s) && Enabled(s, step) && Drains(s) && Tells(s, t, c) && (step.TickInterrupt? || step.ResumeAllStep?)
    ensures Tells(Next(s, step), t, c)
  {
    if On(s, t, SuspendedList) && !IsPending(s, t) {
      StepKeepsOthers(s, step, t);
    } else if On(s, t, SuspendedList) {
      if step.ResumeAllStep? {
        ResumeAllReadies(s, t);
        WokenIsFree(ResumeAll(s), t);
      }
    } else if step.ResumeAllStep? {
      ResumeAllOnlyReadies(s);
      NotSuspendedStays(s, ResumeAll(s), t);
    } else if s.suspended == 0 {
      ProcessTickKeeps(s);
      NotSuspendedStays(s, ProcessTick(s), t);
    }
  }

  lemma DeleteAddsNobody(s: Kernel, u: TaskId)
    requires Base(s) && D.Ok(View(s)) && u in s.prio && u != s.idle
    ensures DeleteTask(s, u).prio.Keys <= s.prio.Keys
  {
    LeaveEventKeeps(s, u);
  }

  lemma BlockAddsNobody(s: Kernel, w: WaitsFor, n: nat, indefinitely: bool)
    requires Inv(s) && CanWait(s, w, n)
    ensures BlockStep(s, w, n, indefinitely).prio == s.prio
  {
    PrepareKeeps(s, w);
  }

  lemma EventWakeAddsNobody(s: Kernel, e: nat)
    requires Base(s) && At(s.events, EventOf(e)) != []
    ensures RemoveFromEvent(s, e).prio == s.prio
  {
    EventHead(s, EventOf(e));
    LeaveEventKeeps(s, At(s.events, EventOf(e))[0]);
  }

  /** No operation but a creation makes a task. */
  lemma OperationAddsNobody(s: Kernel, step: Step)
    requires Inv(s) && Enabled(s, step) && !step.TickInterrupt? && !step.ResumeAllStep? && !step.Create?
    requires !step.CleanUpStep?
    ensures Next(s, step).prio.Keys <= s.prio.Keys
  {
    match step
    case Delete(u) => DeleteAddsNobody(s, u);
    case Block(w, n, indefinitely) => BlockAddsNobody(s, w, n, indefinitely);
    case EventWake(e) => EventWakeAddsNobody(s, e);
    case _ =>
  }

  /** A task that does not exist, or exists no more, is put on a list by its creation only,
      and then on a ready list. */
  lemma GoneTells(s: Kernel, step: Step, t: TaskId)
    requires Inv(s) && Enabled(s, step) && !Live(s, t) && !step.TickInterrupt? && !step.ResumeAllStep?
    requires !Names(s, step, t)
    ensures !IsSuspended(Next(s, step), t)
  {
    if step.CleanUpStep? {
      CleanUpReady(s);
      HeadIsTask(s, TerminationList);
      ForgetIsLeave(s, At(s.states, TerminationList)[0]);
    } else if t in s.states.container {
      OperationKeepsOthers(s, step, t);
    } else if step.Create? {
      AppendFacts(s.states, ReadyList(step.priority), step.task);
    } else {
      StepKeepsInv(s, step);
      OperationAddsNobody(s, step);
    }
  }

  lemma StepTells(s: Kernel, step: Step, t: TaskId, c: Cause)
    requires Inv(s) && Enabled(s, step) && Drains(s) && Tells(s, t, c)
    ensures Tells(Next(s, step), t, CauseAfter(s, step, t, c))
  {
    if Names(s, step, t) {
      NamedTells(s, step, t, c);
    } else if step.TickInterrupt? || step.ResumeAllStep? {
      PassingTells(s, step, t, c);
    } else if Live(s, t) {
      OperationKeepsOthers(s, step, t);
    } else {
      GoneTells(s, step, t);
    }
  }

  lemma {:induction false} RunTells(s: Kernel, steps: seq<Step>, s': Kernel, t: TaskId, c: Cause)
    requires Inv(s) && Run(s, steps, s') && Drains(s) && Tells(s, t, c)
    ensures Tells(s', t, CauseOver(s, steps, t, c))
    decreases |steps|
  {
    if steps != [] {
      StepKeepsInv(s, steps[0]);
      StepDrains(s, steps[0]);
      StepTells(s, steps[0], t, c);
      RunTells(Next(s, steps[0]), steps[1..], s', t, CauseAfter(s, steps[0], t, c));
    }
  }

  // ------------------------------------------------------------------ what a resume readies

  /** The cause after a run from the start of the scheduler. */
  ghost function CauseOf(s0: Kernel, steps: seq<Step>, t: TaskId): Cause
    requires Inv(s0)
  {
    CauseOver(s0, steps, t, if On(s0, t, SuspendedList) then BySuspend else Free)
  }

  lemma CauseIsTold(s0: Kernel, steps: seq<Step>, s: Kernel, t: TaskId)
    requires Initial(s0) && Inv(s0) && Run(s0, steps, s)
    ensures Tells(s, t, CauseOf(s0, steps, t))
  {
    RunTells(s0, steps, s, t, if On(s0, t, SuspendedList) then BySuspend else Free);
  }

  /** In every reachable state a resume readies, besides the tasks that were suspended, the
      tasks that blocked without limit for their notification, and no others: a resume
      readies a task that is not suspended if and only if it so blocked. */
  lemma ResumeReadiesExactly(s0: Kernel, steps: seq<Step>, s: Kernel, t: TaskId)
    requires Initial(s0) && Inv(s0) && Run(s0, steps, s) && Inv(s) && Live(s, t) && t != s.current
    ensures ReallySuspended(s, t) <==> CauseOf(s0, steps, t) == BySuspend
    ensures !IsReady(s, t) && IsReady(ResumeTask(s, t), t) <==> CauseOf(s0, steps, t) != Free
    ensures !IsReady(s, t) && IsReady(ResumeTask(s, t), t) && !ReallySuspended(s, t) <==>
            CauseOf(s0, steps, t) == ByNotification
    ensures !Woken(s, t) && Woken(ResumeFromIsr(s, t), t) <==> CauseOf(s0, steps, t) != Free
  {
    CauseIsTold(s0, steps, s, t);
    if IsSuspended(s, t) { WakingWakes(s, t); MakeReadyKeeps(s, t); }
  }

  /** The running task's wait without limit, and the switch to another. */
  function WaitAndSwitch(s: Kernel): seq<Step>
    requires s.m > 0
  {
    [Block(Notification, s.m - 1, true)] + [Reschedule]
  }

  lemma BlockedByNotification(s: Kernel)
    requires Initial(s) && Inv(s) && IsReady(s, s.current) && s.current in s.prio && s.current != s.idle
    ensures Enabled(s, Block(Notification, s.m - 1, true))
    ensures var r := Next(s, Block(Notification, s.m - 1, true));
            Inv(r) && AwaitsNotification(r, s.current) && r.suspended == 0 && Live(r, s.current)
              && !IsReady(r, s.current)
  {
    var step := Block(Notification, s.m - 1, true);
    StepKeepsInv(s, step);
    PrepareKeeps(s, Notification);
    CurrentGoesTo(Prepare(s, Notification), s.m - 1, true);
    BlockingKeepsEvents(Prepare(s, Notification), s.m - 1, true);
  }

  lemma SwitchedAway(s: Kernel, t: TaskId)
    requires Inv(s) && AwaitsNotification(s, t) && s.suspended == 0 && Live(s, t)
    ensures var r := SwitchContext(s); Inv(r) && AwaitsNotification(r, t) && Live(r, t) && r.current != t
  {
    RescheduleKeepsInv(s);
    SelectsHighestPriority(s);
    SelectionSucceeds(s);
    SelectKeepsFamily(s, Highest(s, s.top));
  }

  lemma RunFirst(s: Kernel, step: Step, steps: seq<Step>, s': Kernel)
    requires Inv(s) && Enabled(s, step) && Inv(Next(s, step)) && Run(Next(s, step), steps, s')
    ensures Run(s, [step] + steps, s')
  {
    assert ([step] + steps)[1..] == steps;
  }

  lemma RunOne(s: Kernel, step: Step)
    requires Inv(s) && Enabled(s, step) && Inv(Next(s, step))
    ensures Run(s, [step], Next(s, step))
  {
    RunFirst(s, step, [], Next(s, step));
    assert [step] + [] == [step];
  }

  lemma WaitsAndSwitches(s: Kernel) returns (blocked: Kernel)
    requires Initial(s) && Inv(s) && IsReady(s, s.current) && s.current in s.prio && s.current != s.idle
    ensures Run(s, WaitAndSwitch(s), blocked) && Inv(blocked) && AwaitsNotification(blocked, s.current)
    ensures Live(blocked, s.current) && blocked.current != s.current
  {
    BlockedByNotification(s);
    var r := Next(s, Block(Notification, s.m - 1, true));
    SwitchedAway(r, s.current);
    blocked := SwitchContext(r);
    assert Run(r, [Reschedule], blocked) by { RunOne(r, Reschedule); }
    RunFirst(s, Block(Notification, s.m - 1, true), [Reschedule], blocked);
  }

  /** In every start state with a task running beside the idle task, a task that has never
      been suspended blocks for its notification and is readied by a resume. */
  lemma ResumeReadiesBlockedTask(s: Kernel) returns (blocked: Kernel)
    requires Initial(s) && Inv(s) && IsReady(s, s.current) && s.current in s.prio && s.current != s.idle
    ensures Run(s, WaitAndSwitch(s), blocked) && CauseOf(s, WaitAndSwitch(s), s.current) == ByNotification
    ensures Inv(blocked) && Enabled(blocked, Resume(s.current)) && !ReallySuspended(blocked, s.current)
    ensures IsReady(Next(blocked, Resume(s.current)), s.current)
  {
    blocked := WaitsAndSwitches(s);
    CauseIsTold(s, WaitAndSwitch(s), blocked, s.current);
    MakeReadyKeeps(blocked, s.current);
  }

  // ------------------------------------------------------------------ suspended tasks stay so

  /** Nothing resumes or deletes task t. */
  predicate LeavesSuspended(step: Step, t: TaskId) {
    match step
    case Resume(u) => u != t
    case ResumeIsr(u) => u != t
    case Delete(u) => u != t
    case _ => true
  }

  lemma StepKeepsSuspended(s: Kernel, step: Step, t: TaskId)
    requires Inv(s) && Enabled(s, step) && LeavesSuspended(step, t) && ReallySuspended(s, t)
    ensures ReallySuspended(Next(s, step), t)
  {
    if Names(s, step, t) {
      if step.EventWake? { EventHead(s, EventOf(step.event)); }
      NamedTells(s, step, t, BySuspend);
    } else {
      StepKeepsOthers(s, step, t);
    }
  }

  /** A suspended task stays suspended, whatever ticks, events, notifications, priority
      changes and suspensions of the scheduler do, until it is resumed or deleted; and it is
      never the task a switch selects. */
  lemma {:induction false} SuspendedStaysSuspended(s: Kernel, steps: seq<Step>, s': Kernel, t: TaskId)
    requires Inv(s) && Run(s, steps, s') && ReallySuspended(s, t)
    requires forall i :: 0 <= i < |steps| ==> LeavesSuspended(steps[i], t)
    ensures Inv(s') && ReallySuspended(s', t) && !IsReady(s', t)
    ensures s'.suspended == 0 ==> SwitchContext(s').current != t
    decreases |steps|
  {
    if steps != [] {
      StepKeepsInv(s, steps[0]);
      StepKeepsSuspended(s, steps[0], t);
      SuspendedStaysSuspended(Next(s, steps[0]), steps[1..], s', t);
    } else if s.suspended == 0 {
      SelectsHighestPriority(s);
      SelectionSucceeds(s);
      SelectKeepsFamily(s, Highest(s, s.top));
    }
  }

  // ------------------------------------------------------------------ a start state

  /** The idle task and one other, which runs. */
  function TwoTasks(m: nat): Kernel
    requires m > 1
  {
    Kernel(m, 2, 0, 0, 0, 0, 0, m - 1, false,
           Family(map[ReadyList(0) := Walk([0], 0), ReadyList(1) := Walk([1], 1)],
                  map[0 := ReadyList(0), 1 := ReadyList(1)]),
           Family(map[], map[]), map[], map[0 := 2, 1 := 1], map[], map[0 := 0, 1 := 1], 1, 0, 1, 2, 0, {})
  }

  lemma TwoTasksStart(m: nat)
    requires m > 1
    ensures var s := TwoTasks(m);
            Initial(s) && Inv(s) && IsReady(s, s.current) && s.current in s.prio && s.current != s.idle
  {
    TwoTasksInitial(m);
    InitialInv(TwoTasks(m));
  }

  lemma TwoTasksInitial(m: nat)
    requires m > 1
    ensures Initial(TwoTasks(m))
  {
    var s := TwoTasks(m);
    forall k ensures ListWellFormed(s.states, k) {}
    forall k ensures ListWellFormed(s.events, k) {}
    assert |s.prio| == 2 by { assert s.prio.Keys == {0, 1}; }
  }
}
