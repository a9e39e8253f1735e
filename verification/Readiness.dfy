/** What readies a task and what does not: no step moves a ready or suspended task it does
    not name, and a wake-up that comes while the scheduler is suspended is not lost. */
module Readiness {
  import opened Common
  import opened TaskLists
  import opened Ticks
  import opened Kernel
  import opened KernelRuns
  import opened OtherTasks
  import D = Delays

  // ------------------------------------------------------------------ tasks nothing moves

  /** Neither blocked with a limit, nor pending, nor deleted. */
  ghost predicate Still(s: Kernel, t: TaskId) {
    && t in s.states.container && !s.states.container[t].DelayedList? && s.states.container[t] != TerminationList
    && !IsPending(s, t)
  }

  lemma WakeHeadKeepsOthers(s: Kernel, t: TaskId)
    requires Base(s) && At(s.states, Delayed(s)) != [] && Still(s, t)
    ensures Kept(s, WakeHead(s), t)
  {
    var h := At(s.states, Delayed(s))[0];
    HeadIsTask(s, Delayed(s));
    LeaveEventKeeps(s, h);
    MakeReadyKeeps(LeaveEvent(s, h), h);
  }

  lemma {:induction false} UnblockingKeepsOthers(s: Kernel, t: TaskId)
    requires Base(s) && D.Advanced(View(s)) && s.tick == Low(s.time, s.m) && Still(s, t)
    ensures Kept(s, UnblockDue(s), t)
    decreases |At(s.states, Delayed(s))|
  {
    var list := At(s.states, Delayed(s));
    if list != [] && s.value[list[0]] <= s.tick {
      WakeHeadKeeps(s);
      D.TailOk(View(s));
      assert View(WakeHead(s)) == View(s).(current := list[1..]);
      WakeHeadKeepsOthers(s, t);
      UnblockingKeepsOthers(WakeHead(s), t);
    }
  }

  lemma TickKeepsOthers(s: Kernel, t: TaskId)
    requires Base(s) && D.Ok(View(s)) && s.tick == Low(s.time, s.m) && Still(s, t)
    ensures Kept(s, ProcessTick(s), t)
  {
    AdvanceTickKeeps(s);
    D.AdvanceIs(View(s));
    UnblockingKeepsOthers(AdvanceTick(s), t);
  }

  lemma {:induction false} TicksKeepOthers(s: Kernel, k: nat, t: TaskId)
    requires Base(s) && D.Ok(View(s)) && s.tick == Low(s.time, s.m) && Still(s, t)
    ensures Kept(s, ProcessTicks(s, k), t)
    decreases k
  {
    if k > 0 {
      ProcessTickKeeps(s);
      TickKeepsOthers(s, t);
      TicksKeepOthers(ProcessTick(s), k - 1, t);
    }
  }

  lemma DrainHeadKeepsOthers(s: Kernel, t: TaskId)
    requires Base(s) && At(s.events, PendingReady) != [] && Still(s, t)
    ensures Base(DrainHead(s)) && Kept(s, DrainHead(s), t)
  {
    var h := At(s.events, PendingReady)[0];
    EventHead(s, PendingReady);
    LeaveEventKeeps(s, h);
    MakeReadyKeeps(LeaveEvent(s, h), h);
  }

  lemma {:induction false} DrainKeepsOthers(s: Kernel, t: TaskId)
    requires Base(s) && Still(s, t)
    ensures Kept(s, DrainPending(s), t)
    decreases |At(s.events, PendingReady)|
  {
    if At(s.events, PendingReady) != [] {
      DrainHeadKeeps(s);
      DrainHeadKeepsOthers(s, t);
      DrainKeepsOthers(DrainHead(s), t);
    }
  }

  lemma ResumeAllKeepsOthers(s: Kernel, t: TaskId)
    requires Inv(s) && s.suspended > 0 && Still(s, t)
    ensures Kept(s, ResumeAll(s), t)
  {
    var r := s.(suspended := s.suspended - 1);
    if r.suspended == 0 {
      DrainedKeeps(r);
      DrainKeepsOthers(r, t);
      TicksKeepOthers(Drained(r), s.pended, t);
    }
  }

  /** A step that does not name a ready or suspended task leaves it on its lists. */
  lemma StepKeepsOthers(s: Kernel, step: Step, t: TaskId)
    requires Inv(s) && Enabled(s, step) && !Names(s, step, t) && Still(s, t)
    ensures Kept(s, Next(s, step), t) && Still(Next(s, step), t)
  {
    if step.TickInterrupt? {
      if s.suspended == 0 { TickKeepsOthers(s, t); }
    } else if step.ResumeAllStep? {
      ResumeAllKeepsOthers(s, t);
    } else {
      OperationKeepsOthers(s, step, t);
    }
  }

  // ------------------------------------------------------------------ woken tasks

  ghost predicate NonePending(s: Kernel) {
    forall t :: t in s.events.container ==> s.events.container[t] != PendingReady
  }

  /** Tasks are held pending only while the scheduler is suspended. */
  ghost predicate Drains(s: Kernel) {
    s.suspended == 0 ==> NonePending(s)
  }

  lemma {:induction false} DrainEmpties(s: Kernel)
    requires Base(s)
    ensures NonePending(DrainPending(s))
    decreases |At(s.events, PendingReady)|
  {
    if At(s.events, PendingReady) != [] {
      DrainHeadKeeps(s);
      DrainEmpties(DrainHead(s));
    } else {
      assert ListWellFormed(s.events, PendingReady);
    }
  }

  lemma CatchUpKeepsNone(s: Kernel)
    requires Base(s) && D.Ok(View(s)) && s.tick == Low(s.time, s.m) && NonePending(s)
    ensures NonePending(ProcessTicks(s, s.pended))
  {
    ProcessTicksKeeps(s, s.pended);
  }

  lemma DrainedIsEmpty(s: Kernel)
    requires Base(s) && D.Ok(View(s)) && s.tick == Low(s.time, s.m)
    ensures NonePending(Drained(s)) && Base(Drained(s)) && D.Ok(View(Drained(s)))
    ensures Drained(s).tick == Low(Drained(s).time, Drained(s).m) && Drained(s).pended == s.pended
  {
    DrainEmpties(s);
    DrainedKeeps(s);
    assert ListWellFormed(s.events, PendingReady);
  }

  lemma ResumeAllDrains(s: Kernel)
    requires Inv(s) && s.suspended > 0
    ensures Drains(ResumeAll(s))
  {
    var r := s.(suspended := s.suspended - 1);
    if r.suspended == 0 {
      DrainedIsEmpty(r);
      CatchUpKeepsNone(Drained(r));
    }
  }

  /** Where the event items are after a step that is neither a tick nor the end of a
      suspension of the scheduler. */
  ghost function EventsAfter(s: Kernel, step: Step): map<TaskId, EventList>
    requires Inv(s) && Enabled(s, step)
  {
    var c := s.events.container;
    match step
    case Block(w, _, _) => if w.Event? then c[s.current := EventOf(w.id)] else c
    case EventWake(e) =>
      if s.suspended == 0 then c - {At(s.events, EventOf(e))[0]} else c[At(s.events, EventOf(e))[0] := PendingReady]
    case NotifyFromIsr(u) => if u in s.notifyWaiting && s.suspended > 0 then c[u := PendingReady] else c
    case ResumeIsr(u) => if IsSuspended(s, u) && s.suspended > 0 then c[u := PendingReady] else c
    case Release(u) => c - {u}
    case Suspend(u) => c - {u}
    case Delete(u) => c - {u}
    case _ => c
  }

  lemma BlockingKeepsEvents(s: Kernel, n: nat, indefinitely: bool)
    requires CanDelay(s) && n < s.m && s.tick < s.m
    ensures BlockCurrent(s, n, indefinitely).events == s.events
    ensures BlockCurrent(s, n, indefinitely).suspended == s.suspended
  {
  }

  lemma BlockMovesEvents(s: Kernel, w: WaitsFor, n: nat, indefinitely: bool)
    requires Inv(s) && CanWait(s, w, n)
    ensures var r := BlockStep(s, w, n, indefinitely);
            && r.events.container ==
               (if w.Event? then s.events.container[s.current := EventOf(w.id)] else s.events.container)
            && r.suspended == s.suspended
  {
    PrepareKeeps(s, w);
    if !(w.Notification? && n == 0) { BlockingKeepsEvents(Prepare(s, w), n, indefinitely); }
  }

  lemma EventWakeMovesEvents(s: Kernel, e: nat)
    requires Inv(s) && At(s.events, EventOf(e)) != []
    ensures RemoveFromEvent(s, e).events.container == EventsAfter(s, EventWake(e))
    ensures RemoveFromEvent(s, e).suspended == s.suspended
  {
    var u := At(s.events, EventOf(e))[0];
    EventHead(s, EventOf(e));
    LeaveEventKeeps(s, u);
    AppendFacts(LeaveEvent(s, u).events, PendingReady, u);
    MovedMap(s.events.container, u, PendingReady);
  }

  lemma PendMovesEvents(s: Kernel, u: TaskId)
    requires Base(s) && u in s.prio && u !in s.events.container
    ensures var r := WakeOrPend(s, u);
            && r.events.container ==
               (if s.suspended > 0 then s.events.container[u := PendingReady] else s.events.container)
            && r.suspended == s.suspended
  {
    AppendFacts(s.events, PendingReady, u);
  }

  lemma SuspendMovesEvents(s: Kernel, u: TaskId)
    requires Base(s) && D.Ok(View(s)) && u in s.prio && u != s.idle
    ensures var r := SuspendTask(s, u); r.events.container == s.events.container - {u} && r.suspended == s.suspended
  {
    LeaveEventKeeps(s, u);
  }

  lemma DeleteMovesEvents(s: Kernel, u: TaskId)
    requires Base(s) && D.Ok(View(s)) && u in s.prio && u != s.idle
    ensures var r := DeleteTask(s, u); r.events.container == s.events.container - {u} && r.suspended == s.suspended
  {
    LeaveEventKeeps(s, u);
  }

  /** The operations on a task that leave the event lists alone. */
  lemma EventsUntouched(s: Kernel, step: Step)
    requires Inv(s) && Enabled(s, step) && (step.Resume? || step.Create? || step.CleanUpStep? || step.ChangePriority?)
    ensures Next(s, step).events == s.events && Next(s, step).suspended == s.suspended
  {
    if step.CleanUpStep? { CleanUpReady(s); }
  }

  /** The steps that take tasks off event lists or put them there. */
  predicate MovesEvents(step: Step) {
    step.Block? || step.EventWake? || step.Release? || step.NotifyFromIsr? || step.ResumeIsr? || step.Suspend?
      || step.Delete?
  }

  lemma EventMoves(s: Kernel, step: Step)
    requires Inv(s) && Enabled(s, step) && MovesEvents(step)
    ensures Next(s, step).events.container == EventsAfter(s, step) && Next(s, step).suspended == s.suspended
  {
    match step
    case Block(w, n, indefinitely) => BlockMovesEvents(s, w, n, indefinitely);
    case EventWake(e) => EventWakeMovesEvents(s, e);
    case Release(u) => LeaveEventKeeps(s, u);
    case NotifyFromIsr(u) => if u in s.notifyWaiting { PendMovesEvents(s, u); }
    case ResumeIsr(u) => if IsSuspended(s, u) { PendMovesEvents(s, u); }
    case Suspend(u) => SuspendMovesEvents(s, u);
    case Delete(u) => DeleteMovesEvents(s, u);
  }

  lemma StepMovesEvents(s: Kernel, step: Step)
    requires Inv(s) && Enabled(s, step) && !step.TickInterrupt? && !step.ResumeAllStep?
    ensures Next(s, step).events.container == EventsAfter(s, step)
    ensures Next(s, step).suspended == if step.SuspendAll? then s.suspended + 1 else s.suspended
  {
    if MovesEvents(step) {
      EventMoves(s, step);
    } else if Manages(step) {
      EventsUntouched(s, step);
    }
  }

  lemma StepDrains(s: Kernel, step: Step)
    requires Inv(s) && Enabled(s, step) && Drains(s)
    ensures Drains(Next(s, step))
  {
    if step.TickInterrupt? {
      if s.suspended == 0 { ProcessTickKeeps(s); }
    } else if step.ResumeAllStep? {
      ResumeAllDrains(s);
    } else {
      StepMovesEvents(s, step);
    }
  }

  /** Taken off its event list, or resumed: ready, or pending until the scheduler runs. */
  ghost predicate Woken(s: Kernel, t: TaskId) {
    IsReady(s, t) || IsPending(s, t)
  }

  /** An event wakes the first task waiting for it. */
  lemma EventWakes(s: Kernel, e: nat)
    requires Inv(s) && At(s.events, EventOf(e)) != []
    ensures Woken(RemoveFromEvent(s, e), At(s.events, EventOf(e))[0])
  {
    var t := At(s.events, EventOf(e))[0];
    EventHead(s, EventOf(e));
    LeaveEventKeeps(s, t);
    MakeReadyKeeps(LeaveEvent(s, t), t);
    AppendFacts(LeaveEvent(s, t).events, PendingReady, t);
  }

  lemma WakingWakes(s: Kernel, t: TaskId)
    requires Inv(s) && Live(s, t) && t !in s.events.container
    ensures Woken(MakeReady(s, t), t) && Woken(WakeOrPend(s, t), t)
  {
    MakeReadyKeeps(s, t);
    AppendFacts(s.events, PendingReady, t);
  }

  /** The pending tasks are readied, and tasks ready already stay so. */
  lemma {:induction false} DrainReadies(s: Kernel, t: TaskId)
    requires Base(s) && Woken(s, t)
    ensures IsReady(DrainPending(s), t)
    decreases |At(s.events, PendingReady)|
  {
    if At(s.events, PendingReady) != [] {
      var h := At(s.events, PendingReady)[0];
      DrainHeadKeeps(s);
      EventHead(s, PendingReady);
      LeaveEventKeeps(s, h);
      MakeReadyKeeps(LeaveEvent(s, h), h);
      DrainReadies(DrainHead(s), t);
    } else {
      assert ListWellFormed(s.events, PendingReady);
    }
  }

  lemma CatchUpKeepsReady(s: Kernel, t: TaskId)
    requires Base(s) && D.Ok(View(s)) && s.tick == Low(s.time, s.m) && IsReady(s, t)
    ensures IsReady(ProcessTicks(s, s.pended), t)
  {
    ProcessTicksKeeps(s, s.pended);
  }

  lemma DrainedReadies(s: Kernel, t: TaskId)
    requires Base(s) && D.Ok(View(s)) && s.tick == Low(s.time, s.m) && Woken(s, t)
    ensures IsReady(Drained(s), t) && Base(Drained(s)) && D.Ok(View(Drained(s)))
    ensures Drained(s).tick == Low(Drained(s).time, Drained(s).m) && Drained(s).pended == s.pended
  {
    DrainedKeeps(s);
    DrainReadies(s, t);
    assert ListWellFormed(s.events, PendingReady);
  }

  lemma ResumeAllReadies(s: Kernel, t: TaskId)
    requires Inv(s) && s.suspended > 0 && Woken(s, t)
    ensures Woken(ResumeAll(s), t)
  {
    var r := s.(suspended := s.suspended - 1);
    if r.suspended == 0 {
      DrainedReadies(r, t);
      CatchUpKeepsReady(Drained(r), t);
    }
  }

  /** The step blocks, suspends or deletes task t. */
  predicate Stops(s: Kernel, step: Step, t: TaskId) {
    match step
    case Block(_, _, _) => s.current == t
    case Suspend(u) => u == t
    case Delete(u) => u == t
    case _ => false
  }

  /** The steps that leave a pending task pending. */
  lemma StepKeepsPending(s: Kernel, step: Step, t: TaskId)
    requires Inv(s) && Enabled(s, step) && !Stops(s, step, t) && IsPending(s, t)
    requires !step.TickInterrupt? && !step.ResumeAllStep?
    ensures IsPending(Next(s, step), t)
  {
    StepMovesEvents(s, step);
    if step.EventWake? { EventHead(s, EventOf(step.event)); }
  }

  lemma StepKeepsReady(s: Kernel, step: Step, t: TaskId)
    requires Inv(s) && Enabled(s, step) && !Stops(s, step, t) && IsReady(s, t) && !IsPending(s, t)
    ensures Woken(Next(s, step), t)
  {
    if step.EventWake? && At(s.events, EventOf(step.event))[0] == t {
      EventWakes(s, step.event);
    } else if step.ChangePriority? && step.task == t {
      RepricedKeeps(s, t, step.priority, step.itemValue);
    } else if Names(s, step, t) {
      NamedStaysReady(s, step, t);
    } else {
      StepKeepsOthers(s, step, t);
    }
  }

  /** A notification, a release or a resume of a ready task leaves it woken. */
  lemma NamedStaysReady(s: Kernel, step: Step, t: TaskId)
    requires Inv(s) && Enabled(s, step) && IsReady(s, t) && !IsPending(s, t)
    requires || step == Release(t) || step == Notify(t) || step == NotifyFromIsr(t)
             || step == Resume(t) || step == ResumeIsr(t) || (step.FinishNotification? && t == s.current)
    ensures Woken(Next(s, step), t)
  {
    if step.Release? {
      LeaveEventKeeps(s, t);
      MakeReadyKeeps(LeaveEvent(s, t), t);
    } else if (step.Notify? || step.NotifyFromIsr?) && t in s.notifyWaiting {
      WakingWakes(s, t);
    }
  }

  lemma StepKeepsWoken(s: Kernel, step: Step, t: TaskId)
    requires Inv(s) && Enabled(s, step) && !Stops(s, step, t) && Woken(s, t) && Drains(s)
    ensures Woken(Next(s, step), t)
  {
    if step.ResumeAllStep? {
      ResumeAllReadies(s, t);
    } else if !IsPending(s, t) {
      StepKeepsReady(s, step, t);
    } else if !step.TickInterrupt? {
      StepKeepsPending(s, step, t);
    }
  }

  ghost predicate NeverStopped(s: Kernel, steps: seq<Step>, t: TaskId)
    requires Inv(s)
    decreases |steps|
  {
    steps != [] && Enabled(s, steps[0]) ==>
      !Stops(s, steps[0], t) && (StepKeepsInv(s, steps[0]); NeverStopped(Next(s, steps[0]), steps[1..], t))
  }

  lemma {:induction false} RunKeepsWoken(s: Kernel, steps: seq<Step>, s': Kernel, t: TaskId)
    requires Inv(s) && Run(s, steps, s') && Drains(s) && NeverStopped(s, steps, t) && Woken(s, t)
    ensures Drains(s') && Woken(s', t)
    decreases |steps|
  {
    if steps != [] {
      StepKeepsInv(s, steps[0]);
      StepDrains(s, steps[0]);
      StepKeepsWoken(s, steps[0], t);
      RunKeepsWoken(Next(s, steps[0]), steps[1..], s', t);
    }
  }

  lemma {:induction false} RunDrains(s: Kernel, steps: seq<Step>, s': Kernel)
    requires Inv(s) && Run(s, steps, s') && Drains(s)
    ensures Drains(s')
    decreases |steps|
  {
    if steps != [] {
      StepKeepsInv(s, steps[0]);
      StepDrains(s, steps[0]);
      RunDrains(Next(s, steps[0]), steps[1..], s');
    }
  }

  /** No wake-up made while the scheduler is suspended is lost: in every reachable state
      in which the scheduler runs nobody is pending, and a task woken since, and neither
      blocked, suspended nor deleted since then, is ready. */
  lemma WokenIsReadyOnceSchedulerRuns(s0: Kernel, before: seq<Step>, s: Kernel, steps: seq<Step>, s': Kernel, t: TaskId)
    requires Initial(s0) && Inv(s0) && Run(s0, before, s) && Inv(s)
    requires Run(s, steps, s') && NeverStopped(s, steps, t) && Woken(s, t)
    ensures Woken(s', t)
    ensures s'.suspended == 0 ==> NonePending(s') && IsReady(s', t)
  {
    RunDrains(s0, before, s);
    RunKeepsWoken(s, steps, s', t);
  }
}
