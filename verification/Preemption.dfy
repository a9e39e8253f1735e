/** No preemption is missed: as long as no switch has been asked for, the running task is one
    of the highest priority among all ready tasks, after every step of every run. */
module Preemption {
  import opened Common
  import opened Lists
  import opened TaskLists
  import opened Ticks
  import opened Kernel
  import opened KernelRuns
  import opened Scheduler
  import D = Delays

  /** The running task is ready, and no ready task outranks it. */
  ghost predicate Foremost(s: Kernel) {
    && s.current in s.prio && IsReady(s, s.current)
    && forall t :: t in s.prio && IsReady(s, t) ==> s.prio[t] <= s.prio[s.current]
  }

  /** Ready in r, and not before. */
  ghost predicate NewlyReady(s: Kernel, r: Kernel, t: TaskId) {
    IsReady(r, t) && !IsReady(s, t)
  }

  /** Only tasks that do not outrank the running one have become ready. */
  lemma NewcomersKeepForemost(s: Kernel, r: Kernel)
    requires Foremost(s) && r.prio == s.prio && r.current == s.current && IsReady(r, r.current)
    requires forall t :: t in s.prio && NewlyReady(s, r, t) ==> s.prio[t] <= s.prio[s.current]
    ensures Foremost(r)
  {
  }

  lemma MakeReadyKeepsForemost(s: Kernel, t: TaskId)
    requires Base(s) && Foremost(s) && Live(s, t) && s.prio[t] <= s.prio[s.current]
    ensures Foremost(MakeReady(s, t))
  {
    MakeReadyKeeps(s, t);
    NewcomersKeepForemost(s, MakeReady(s, t));
  }

  // ------------------------------------------------------------------ ticks

  /** Another task is ready that the running one does not outrank. */
  ghost predicate Contender(s: Kernel, r: Kernel, t: TaskId) {
    t != s.current && t in s.prio && s.current in s.prio && IsReady(r, t) && s.prio[s.current] <= s.prio[t]
  }

  lemma ContenderAsks(s: Kernel, r: Kernel, t: TaskId)
    requires CanTick(s) && Foremost(s) && r == ProcessTick(s) && Contender(s, r, t)
    ensures AsksSwitch(s, r)
  {
    ProcessTickKeeps(s);
    var k := ReadyList(s.prio[s.current]);
    assert ListWellFormed(r.states, k);
    if IsReady(s, t) {
      assert t in At(r.states, k) && s.current in At(r.states, k);
      TwoAreMore(At(r.states, k), t, s.current);
    } else {
      assert ReadyIn(r.states, t) && !ReadyIn(s.states, t);
    }
  }

  lemma AskedForContender(s: Kernel, r: Kernel) returns (t: TaskId)
    requires CanTick(s) && Foremost(s) && r == ProcessTick(s) && AsksSwitch(s, r)
    ensures Contender(s, r, t)
  {
    ProcessTickKeeps(s);
    var k := ReadyList(s.prio[s.current]);
    assert ListWellFormed(r.states, k);
    if |At(r.states, k)| > 1 {
      t := if At(r.states, k)[0] == s.current then At(r.states, k)[1] else At(r.states, k)[0];
      assert t in At(r.states, k);
    } else {
      t :| t in s.prio && ReadyIn(r.states, t) && !ReadyIn(s.states, t) && s.prio[s.current] <= s.prio[t];
    }
  }

  /** A tick asks for a switch exactly when, after it, another task is ready that the running
      one does not outrank: never too late, and never in vain. */
  lemma TickAsksExactly(s: Kernel)
    requires CanTick(s) && Foremost(s)
    ensures AsksSwitch(s, ProcessTick(s)) <==>
              exists t :: t != s.current && t in s.prio && IsReady(ProcessTick(s), t) && s.prio[s.current] <= s.prio[t]
  {
    var r := ProcessTick(s);
    if t :| t != s.current && t in s.prio && IsReady(r, t) && s.prio[s.current] <= s.prio[t] {
      ContenderAsks(s, r, t);
    }
    if AsksSwitch(s, r) {
      var t := AskedForContender(s, r);
      assert t != s.current && t in s.prio && IsReady(r, t) && s.prio[s.current] <= s.prio[t];
    }
  }

  lemma TwoAreMore(l: seq<TaskId>, a: TaskId, b: TaskId)
    requires a in l && b in l && a != b
    ensures |l| > 1
  {
  }

  lemma TickKeepsForemost(s: Kernel)
    requires CanTick(s) && Foremost(s) && !AsksSwitch(s, ProcessTick(s))
    ensures Foremost(ProcessTick(s)) && CanTick(ProcessTick(s))
  {
    var r := ProcessTick(s);
    ProcessTickKeeps(s);
    forall t | t in s.prio && NewlyReady(s, r, t) ensures s.prio[t] <= s.prio[s.current] {
      assert ReadyIn(r.states, t) && !ReadyIn(s.states, t);
    }
    NewcomersKeepForemost(s, r);
  }

  lemma {:induction false} TicksKeepForemost(s: Kernel, k: nat)
    requires CanTick(s) && Foremost(s) && !TicksAsk(s, k)
    ensures Foremost(ProcessTicks(s, k))
    decreases k
  {
    if k > 0 {
      TickKeepsForemost(s);
      TicksKeepForemost(ProcessTick(s), k - 1);
    }
  }

  lemma {:induction false} DrainKeepsForemost(s: Kernel)
    requires Base(s) && Foremost(s) && !UrgentPending(s)
    ensures Foremost(DrainPending(s))
    decreases |At(s.events, PendingReady)|
  {
    if At(s.events, PendingReady) != [] {
      var h := At(s.events, PendingReady)[0];
      EventHead(s, PendingReady);
      UrgentIsHeadOrLater(s);
      DrainHeadKeeps(s);
      LeaveEventKeeps(s, h);
      assert Foremost(LeaveEvent(s, h));
      MakeReadyKeepsForemost(LeaveEvent(s, h), h);
      DrainKeepsForemost(DrainHead(s));
    }
  }

  lemma DrainedKeepsForemost(s: Kernel)
    requires CanTick(s) && Foremost(s) && !UrgentPending(s)
    ensures CanTick(Drained(s)) && Foremost(Drained(s)) && Drained(s).pended == s.pended
  {
    DrainedKeeps(s);
    DrainKeeps(s);
    DrainKeepsForemost(s);
  }

  lemma ResumeAllKeepsForemost(s: Kernel)
    requires Inv(s) && s.suspended > 0 && Foremost(s)
    requires s.suspended == 1 ==> !YieldsOnRun(Unsuspended(s))
    ensures Foremost(ResumeAll(s))
  {
    if s.suspended == 1 {
      var r := Unsuspended(s);
      assert r == s.(suspended := s.suspended - 1);
      SameTasksForemost(s, r);
      DrainedKeepsForemost(r);
      TicksKeepForemost(Drained(r), s.pended);
      SameTasksForemost(ProcessTicks(Drained(r), s.pended), ResumeAll(s));
    }
  }

  lemma SameTasksForemost(s: Kernel, r: Kernel)
    requires Foremost(s) && r.states == s.states && r.prio == s.prio && r.current == s.current
    ensures Foremost(r)
  {
  }

  // ------------------------------------------------------------------ every step

  ghost predicate Outranks(s: Kernel, t: TaskId)
    requires t in s.prio && s.current in s.prio
  {
    s.prio[s.current] < s.prio[t]
  }

  /** The step asks for a switch: by the comparison the code makes, or because the running task
      gives up the processor. */
  ghost predicate Asks(s: Kernel, step: Step)
    requires Inv(s) && Enabled(s, step) && s.current in s.prio
  {
    match step
    case TickInterrupt => s.suspended == 0 && AsksSwitch(s, ProcessTick(s))
    case ResumeAllStep => s.suspended == 1 && YieldsOnRun(Unsuspended(s))
    case Block(w, n, _) => !(w.Notification? && n == 0)
    case EventWake(e) =>
      EventHead(s, EventOf(e));
      Outranks(s, At(s.events, EventOf(e))[0])
    case Release(t) => t in s.prio && Outranks(s, t)
    case Notify(t) => t in s.notifyWaiting && Outranks(s, t)
    case NotifyFromIsr(t) => t in s.notifyWaiting && Outranks(s, t)
    case Suspend(t) => t == s.current
    case Resume(t) => t != s.current && IsSuspended(s, t) && s.prio[s.current] <= s.prio[t]
    case ResumeIsr(t) => s.suspended == 0 && IsSuspended(s, t) && s.prio[s.current] <= s.prio[t]
    case Create(_, p) => s.prio[s.current] < p
    case Delete(t) => t == s.current
    case ChangePriority(t, p, _) => if t == s.current then p < s.prio[t] else s.prio[s.current] <= p
    case _ => false
  }

  lemma EventWakeKeepsForemost(s: Kernel, e: nat)
    requires Inv(s) && Foremost(s) && At(s.events, EventOf(e)) != []
    requires At(s.events, EventOf(e))[0] in s.prio && !Outranks(s, At(s.events, EventOf(e))[0])
    ensures Foremost(RemoveFromEvent(s, e))
  {
    var h := At(s.events, EventOf(e))[0];
    EventHead(s, EventOf(e));
    LeaveEventKeeps(s, h);
    SameTasksForemost(s, LeaveEvent(s, h));
    WakingKeepsForemost(LeaveEvent(s, h), h);
  }

  lemma WakingKeepsForemost(s: Kernel, t: TaskId)
    requires Base(s) && Foremost(s) && Live(s, t) && t !in s.events.container
    requires s.suspended == 0 ==> s.prio[t] <= s.prio[s.current]
    ensures Foremost(WakeOrPend(s, t))
  {
    if s.suspended == 0 {
      MakeReadyKeepsForemost(s, t);
    } else {
      SameTasksForemost(s, WakeOrPend(s, t));
    }
  }

  lemma ReleaseKeepsForemost(s: Kernel, t: TaskId)
    requires Inv(s) && Foremost(s) && t in s.events.container && !Outranks(s, t)
    ensures Foremost(ReleaseWaiter(s, t))
  {
    LeaveEventKeeps(s, t);
    SameTasksForemost(s, LeaveEvent(s, t));
    MakeReadyKeepsForemost(LeaveEvent(s, t), t);
  }

  lemma NotifyKeepsForemost(s: Kernel, t: TaskId)
    requires Inv(s) && Foremost(s) && Live(s, t)
    requires t in s.notifyWaiting ==> t !in s.events.container && !Outranks(s, t)
    ensures Foremost(NotifyTask(s, t)) && Foremost(NotifyTaskFromIsr(s, t))
  {
    if t in s.notifyWaiting {
      MakeReadyKeepsForemost(s, t);
      SameTasksForemost(MakeReady(s, t), NotifyTask(s, t));
      WakingKeepsForemost(s, t);
      SameTasksForemost(WakeOrPend(s, t), NotifyTaskFromIsr(s, t));
    }
  }

  lemma SuspendKeepsForemost(s: Kernel, t: TaskId)
    requires Inv(s) && Foremost(s) && Live(s, t) && t != s.idle && t != s.current
    ensures Foremost(SuspendTask(s, t))
  {
    LeaveEventKeeps(s, t);
    SuspendKeeps(s, t);
    MoveFacts(LeaveEvent(s, t), t, SuspendedList);
    NewcomersKeepForemost(s, SuspendTask(s, t));
  }

  lemma DeleteKeepsForemost(s: Kernel, t: TaskId)
    requires Inv(s) && Foremost(s) && Live(s, t) && t != s.idle && t != s.current
    ensures Foremost(DeleteTask(s, t))
  {
    LeaveEventKeeps(s, t);
    ForgetKeeps(s, t);
    DetachFacts(s.states, t);
  }

  lemma CleanUpKeepsForemost(s: Kernel)
    requires Inv(s) && Foremost(s) && At(s.states, TerminationList) != []
    ensures s.count > 0 && s.deleted > 0 && Foremost(CleanUp(s))
  {
    CleanUpReady(s);
    HeadIsTask(s, TerminationList);
    DetachFacts(s.states, At(s.states, TerminationList)[0]);
  }

  lemma CreateKeepsForemost(s: Kernel, t: TaskId, p: nat)
    requires Inv(s) && Foremost(s) && t !in s.prio && p < s.maxPriorities && p <= s.prio[s.current]
    ensures Foremost(CreateTask(s, t, p))
  {
    AppendFacts(s.states, ReadyList(p), t);
  }

  /** Where a change of priority leaves the tasks. */
  lemma SetPriorityMoves(s: Kernel, t: TaskId, p: nat, v: Option<nat>)
    requires Base(s) && Live(s, t) && p < s.maxPriorities
    ensures var r := SetPriority(s, t, p, v);
            && r.prio == s.prio[t := p] && r.current == s.current
            && forall u :: IsReady(r, u) <==> IsReady(s, u)
  {
    MoveFacts(Reprice(s, t, p, v), t, ReadyList(p));
  }

  lemma SetPriorityKeepsForemost(s: Kernel, t: TaskId, p: nat, v: Option<nat>)
    requires Inv(s) && Foremost(s) && Live(s, t) && p < s.maxPriorities
    requires if t == s.current then s.prio[t] <= p else p < s.prio[s.current]
    ensures Foremost(SetPriority(s, t, p, v))
  {
    SetPriorityMoves(s, t, p, v);
  }

  lemma ResumingKeepsForemost(s: Kernel, t: TaskId)
    requires Inv(s) && Foremost(s) && Live(s, t)
    ensures s.prio[t] < s.prio[s.current] || !IsSuspended(s, t) ==> Foremost(ResumeTask(s, t))
    ensures s.suspended > 0 || s.prio[t] < s.prio[s.current] || !IsSuspended(s, t) ==> Foremost(ResumeFromIsr(s, t))
  {
    if IsSuspended(s, t) {
      if s.prio[t] < s.prio[s.current] { MakeReadyKeepsForemost(s, t); }
      if s.suspended > 0 || s.prio[t] < s.prio[s.current] { WakingKeepsForemost(s, t); }
    }
  }

  lemma ManagingKeepsForemost(s: Kernel, step: Step)
    requires Inv(s) && Foremost(s) && Enabled(s, step) && Manages(step) && !Asks(s, step)
    ensures Foremost(Next(s, step))
  {
    if step.Suspend? || step.Delete? || step.CleanUpStep? {
      RemovingKeepsForemost(s, step);
    } else {
      match step
      case Resume(t) => ResumingKeepsForemost(s, t);
      case ResumeIsr(t) => ResumingKeepsForemost(s, t);
      case Create(t, p) => CreateKeepsForemost(s, t, p);
      case ChangePriority(t, p, v) => SetPriorityKeepsForemost(s, t, p, v);
    }
  }

  lemma RemovingKeepsForemost(s: Kernel, step: Step)
    requires Inv(s) && Foremost(s) && Enabled(s, step) && !Asks(s, step)
    requires step.Suspend? || step.Delete? || step.CleanUpStep?
    ensures Foremost(Next(s, step))
  {
    match step
    case Suspend(t) => SuspendKeepsForemost(s, t);
    case Delete(t) => DeleteKeepsForemost(s, t);
    case CleanUpStep => CleanUpKeepsForemost(s);
  }

  lemma TickStepKeepsForemost(s: Kernel)
    requires Inv(s) && Foremost(s) && (s.suspended == 0 ==> !AsksSwitch(s, ProcessTick(s)))
    ensures Foremost(TickStep(s))
  {
    if s.suspended == 0 {
      TickKeepsForemost(s);
      SameTasksForemost(ProcessTick(s), TickStep(s));
    } else {
      SameTasksForemost(s, TickStep(s));
    }
  }

  lemma WakingStepKeepsForemost(s: Kernel, step: Step)
    requires Inv(s) && Foremost(s) && Enabled(s, step) && !Asks(s, step)
    requires step.EventWake? || step.Release? || step.Notify? || step.NotifyFromIsr?
    ensures Foremost(Next(s, step))
  {
    match step
    case EventWake(e) =>
      EventHead(s, EventOf(e));
      EventWakeKeepsForemost(s, e);
    case Release(t) => ReleaseKeepsForemost(s, t);
    case Notify(t) => NotifyKeepsForemost(s, t);
    case NotifyFromIsr(t) => NotifyKeepsForemost(s, t);
  }

  lemma MarkingKeepsForemost(s: Kernel, w: WaitsFor, n: nat, indefinitely: bool)
    requires Inv(s) && Foremost(s) && CanWait(s, w, n) && w.Notification? && n == 0
    ensures Foremost(BlockStep(s, w, n, indefinitely))
  {
    PrepareKeeps(s, w);
    SameTasksForemost(s, Prepare(s, w));
  }

  /** A step that asks for no switch leaves the running task foremost. */
  lemma UnaskedStepKeepsForemost(s: Kernel, step: Step)
    requires Inv(s) && Foremost(s) && Enabled(s, step) && !Asks(s, step) && !step.Reschedule?
    ensures Foremost(Next(s, step))
  {
    if Manages(step) {
      ManagingKeepsForemost(s, step);
    } else if step.EventWake? || step.Release? || step.Notify? || step.NotifyFromIsr? {
      WakingStepKeepsForemost(s, step);
    } else {
      match step
      case TickInterrupt => TickStepKeepsForemost(s);
      case SuspendAll => SameTasksForemost(s, Next(s, step));
      case ResumeAllStep => ResumeAllKeepsForemost(s);
      case Block(w, n, indefinitely) => MarkingKeepsForemost(s, w, n, indefinitely);
      case FinishNotification => SameTasksForemost(s, Next(s, step));
    }
  }

  /** And a switch makes the task it selects so. */
  lemma SwitchMakesForemost(s: Kernel)
    requires Inv(s) && s.suspended == 0
    ensures Foremost(SwitchContext(s))
  {
    SelectsHighestPriority(s);
    RescheduleKeepsInv(s);
  }

  // ------------------------------------------------------------------ whole runs

  /** Whether a switch is asked for and has not been made since; one made while the scheduler is
      suspended stays pending. */
  ghost predicate AskedAfter(s: Kernel, step: Step, asked: bool)
    requires Inv(s) && Enabled(s, step)
  {
    if step.Reschedule? then s.suspended > 0 else asked || (s.current in s.prio ==> Asks(s, step))
  }

  ghost predicate AskingRun(s: Kernel, asked: bool, steps: seq<Step>, s': Kernel, asked': bool)
    requires Inv(s)
    decreases |steps|
  {
    if steps == [] then s' == s && asked' == asked
    else
      && Enabled(s, steps[0])
      && (StepKeepsInv(s, steps[0]);
          AskingRun(Next(s, steps[0]), AskedAfter(s, steps[0], asked), steps[1..], s', asked'))
  }

  lemma AskedOrForemost(s: Kernel, step: Step, asked: bool)
    requires Inv(s) && Enabled(s, step) && (asked || Foremost(s))
    ensures AskedAfter(s, step, asked) || Foremost(Next(s, step))
  {
    if step.Reschedule? {
      if s.suspended == 0 { SwitchMakesForemost(s); }
    } else if !AskedAfter(s, step, asked) {
      UnaskedStepKeepsForemost(s, step);
    }
  }

  /** In every reachable state in which no switch is asked for, the running task has the highest
      priority of all ready tasks, whatever was readied, created, resumed or re-prioritised. */
  lemma {:induction false} NoPreemptionMissed(s: Kernel, asked: bool, steps: seq<Step>, s': Kernel, asked': bool)
    requires Inv(s) && (asked || Foremost(s)) && AskingRun(s, asked, steps, s', asked')
    ensures Inv(s') && (asked' || Foremost(s'))
    decreases |steps|
  {
    if steps != [] {
      StepKeepsInv(s, steps[0]);
      AskedOrForemost(s, steps[0], asked);
      NoPreemptionMissed(Next(s, steps[0]), AskedAfter(s, steps[0], asked), steps[1..], s', asked');
    }
  }
}
