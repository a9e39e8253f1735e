/** `xNextTaskUnblockTime` is exact, not only safe: the tick count at which the first of the
    delayed tasks is due, and the greatest one when none is.  Only an event that wakes a
    delayed task early leaves it behind, until the next tick that looks or task that moves. */
module NextUnblock {
  import opened Common
  import opened Lists
  import opened TaskLists
  import opened Ticks
  import opened Kernel
  import opened KernelRuns
  import opened OtherTasks
  import D = Delays

  ghost predicate Tight(d: D.Delays)
    requires Valued(d.current, d.value) && d.m > 0
  {
    if d.current == [] then d.nextUnblock == d.m - 1
    else
      && (exists t :: t in d.current && d.value[t] == d.nextUnblock)
      && (forall t :: t in d.current ==> d.nextUnblock <= d.value[t])
  }

  ghost predicate Exact(s: Kernel) {
    Base(s) && D.Ok(View(s)) && Tight(View(s))
  }

  lemma ResetIsTight(d: D.Delays)
    requires d.m > 0 && Valued(d.current, d.value) && Sorted(d.current, d.value)
    ensures Tight(D.Reset(d))
  {
    if d.current != [] {
      D.HeadIsLeast(d.current, d.value);
      assert d.current[0] in d.current;
    }
  }

  lemma {:induction false} UnblockIsTight(d: D.Delays)
    requires D.Advanced(d)
    ensures D.Ok(D.Unblock(d)) && Tight(D.Unblock(d))
    decreases |d.current|
  {
    D.UnblockExact(d);
    if d.current != [] && d.value[d.current[0]] <= Low(d.time, d.m) {
      D.TailOk(d);
      UnblockIsTight(d.(current := d.current[1..]));
    } else {
      ResetIsTight(d);
    }
  }

  lemma AdvanceKeepsTight(d: D.Delays)
    requires D.Ok(d) && Tight(d)
    ensures D.Advanced(D.Advance(d)) && Tight(D.Advance(d))
  {
    D.AdvanceIs(d);
    D.LowNext(d.time, d.m);
    ResetIsTight(D.Advance(d));
  }

  lemma TickKeepsTight(d: D.Delays)
    requires D.Ok(d) && Tight(d)
    ensures D.Ok(D.Tick(d)) && Tight(D.Tick(d))
  {
    D.TickExact(d);
    AdvanceKeepsTight(d);
    if Low(D.Advance(d).time, d.m) >= D.Advance(d).nextUnblock { UnblockIsTight(D.Advance(d)); }
  }

  lemma EnterKeepsTight(d: D.Delays, t: TaskId, n: nat)
    requires D.Ok(d) && Tight(d) && !D.Blocked(d, t) && n < d.m && (n > 0 || Low(d.time, d.m) + 1 < d.m)
    ensures D.Ok(D.Enter(d, t, n)) && Tight(D.Enter(d, t, n))
  {
    D.EnterKeepsOk(d, t, n);
    var wake := WrapAdd(Low(d.time, d.m), n, d.m);
    var v := d.value[t := wake];
    if wake >= Low(d.time, d.m) {
      InsertMembers(d.current, v, t);
      assert t in Insert(d.current, v, t);
      if d.current != [] {
        var u :| u in d.current && d.value[u] == d.nextUnblock;
        assert u in Insert(d.current, v, t) && v[u] == d.value[u];
      }
    }
  }

  // ------------------------------------------------------------------ the kernel's steps

  /** Ticks may be processed from here. */
  ghost predicate Ticking(s: Kernel) {
    Exact(s) && s.tick == Low(s.time, s.m)
  }

  lemma TickKeepsExact(s: Kernel)
    requires Ticking(s)
    ensures Ticking(ProcessTick(s))
  {
    ProcessTickKeeps(s);
    TickKeepsTight(View(s));
  }

  lemma {:induction false} TicksKeepExact(s: Kernel, k: nat)
    requires Ticking(s)
    ensures Exact(ProcessTicks(s, k))
    decreases k
  {
    if k > 0 {
      TickKeepsExact(s);
      TicksKeepExact(ProcessTick(s), k - 1);
    }
  }

  /** Tasks readied from the pending list have the time set anew. */
  lemma DrainedIsExact(s: Kernel)
    requires Base(s) && D.Ok(View(s)) && (At(s.events, PendingReady) == [] ==> Tight(View(s)))
    ensures Exact(Drained(s))
  {
    DrainedKeeps(s);
    DrainKeeps(s);
    if At(s.events, PendingReady) != [] { ResetIsTight(View(DrainPending(s))); }
  }

  lemma DrainedTicking(s: Kernel)
    requires Base(s) && D.Ok(View(s)) && s.tick == Low(s.time, s.m)
    requires At(s.events, PendingReady) == [] ==> Tight(View(s))
    ensures Ticking(Drained(s)) && Drained(s).pended == s.pended
  {
    DrainedKeeps(s);
    DrainedIsExact(s);
  }

  lemma ResumeAllIsExact(s: Kernel)
    requires Inv(s) && s.suspended > 0 && (Tight(View(s)) || (s.suspended == 1 && At(s.events, PendingReady) != []))
    ensures Exact(ResumeAll(s))
  {
    var r := s.(suspended := s.suspended - 1);
    assert View(r) == View(s) && Base(r);
    if r.suspended == 0 {
      DrainedTicking(r);
      TicksKeepExact(Drained(r), s.pended);
      SameDelays(ProcessTicks(Drained(r), s.pended), ProcessTicks(Drained(r), s.pended).(pended := 0));
    }
  }

  /** The books do not matter. */
  lemma SameDelays(s: Kernel, r: Kernel)
    requires Exact(s) && r == s.(pended := r.pended, received := r.received, suspended := r.suspended,
                                 deleted := r.deleted, notifyWaiting := r.notifyWaiting)
    ensures Exact(r)
  {
  }

  lemma BlockCurrentKeepsExact(s: Kernel, n: nat, indefinitely: bool)
    requires Inv(s) && CanBlock(s, n) && Tight(View(s))
    ensures Exact(BlockCurrent(s, n, indefinitely))
  {
    BlockedKeepsInv(s, n, indefinitely);
    if n == s.m - 1 && indefinitely {
      BlockForeverKeeps(s);
    } else {
      BlockForView(s, n, indefinitely);
      ReadyNotBlocked(s, s.current);
      EnterKeepsTight(View(s), s.current, n);
    }
  }

  lemma BlockKeepsExact(s: Kernel, w: WaitsFor, n: nat, indefinitely: bool)
    requires Inv(s) && CanWait(s, w, n) && Tight(View(s))
    ensures Exact(BlockStep(s, w, n, indefinitely))
  {
    PrepareKeeps(s, w);
    PrepareKeepsInv(s, w);
    if !(w.Notification? && n == 0) { BlockCurrentKeepsExact(Prepare(s, w), n, indefinitely); }
  }

  /** Suspending a task, or deleting another one, has the time set anew. */
  lemma SuspendIsExact(s: Kernel, t: TaskId)
    requires Inv(s) && Live(s, t) && t != s.idle
    ensures Exact(SuspendTask(s, t))
  {
    SuspendKeeps(s, t);
    SuspendKeepsInv(s, t);
    ResetIsTight(View(MoveTo(LeaveEvent(s, t), t, SuspendedList)));
    assert View(SuspendTask(s, t)) == View(ResetUnblock(MoveTo(LeaveEvent(s, t), t, SuspendedList)));
  }

  lemma DeleteIsExact(s: Kernel, t: TaskId)
    requires Inv(s) && Live(s, t) && t != s.idle && t != s.current
    ensures Exact(DeleteTask(s, t))
  {
    LeaveEventKeeps(s, t);
    ForgetKeeps(s, t);
    DeleteOtherKeepsLists(s, t);
    ResetIsTight(View(Forget(LeaveEvent(s, t), t)));
    assert View(DeleteOther(s, t)) == D.Reset(View(Forget(LeaveEvent(s, t), t)));
  }

  /** The step wakes, or takes off its list, a task still on the current delayed list, and does
      not have the time set anew. */
  ghost predicate LeavesEarly(s: Kernel, step: Step) {
    match step
    case EventWake(e) => At(s.events, EventOf(e)) != [] && At(s.events, EventOf(e))[0] in View(s).current
    case Release(t) => t in View(s).current
    case Notify(t) => t in View(s).current
    case NotifyFromIsr(t) => t in View(s).current
    case Delete(t) => t in View(s).current
    case _ => false
  }

  /** A task that is not on the current delayed list leaves the lists it is on. */
  lemma LeaveKeepsTight(d: D.Delays, t: TaskId)
    requires D.Ok(d) && Tight(d) && t !in d.current
    ensures D.Ok(D.Leave(d, t)) && Tight(D.Leave(d, t))
  {
    D.LeaveKeepsOk(d, t);
  }

  lemma WakeOrPendKeepsTight(s: Kernel, t: TaskId)
    requires Inv(s) && Tight(View(s)) && Live(s, t) && t !in s.events.container && t !in View(s).current
    ensures Exact(WakeOrPend(s, t))
  {
    WakeOrPendKeeps(s, t);
    LeaveKeepsTight(View(s), t);
  }

  lemma MakeReadyKeepsTight(s: Kernel, t: TaskId)
    requires Inv(s) && Tight(View(s)) && Live(s, t) && t !in View(s).current
    ensures Exact(MakeReady(s, t))
  {
    MakeReadyKeeps(s, t);
    LeaveKeepsTight(View(s), t);
  }

  lemma EventWakeKeepsTight(s: Kernel, e: nat)
    requires Inv(s) && At(s.events, EventOf(e)) != [] && At(s.events, EventOf(e))[0] !in View(s).current
    requires Tight(View(s))
    ensures Exact(RemoveFromEvent(s, e))
  {
    var t := At(s.events, EventOf(e))[0];
    EventHead(s, EventOf(e));
    LeaveEventKeeps(s, t);
    WakeOrPendKeepsTight(LeaveEvent(s, t), t);
  }

  lemma ReleaseKeepsTight(s: Kernel, t: TaskId)
    requires Inv(s) && Live(s, t) && t !in View(s).current && Tight(View(s))
    ensures Exact(ReleaseWaiter(s, t))
  {
    LeaveEventKeeps(s, t);
    MakeReadyKeepsTight(LeaveEvent(s, t), t);
  }

  lemma NotifyKeepsTight(s: Kernel, t: TaskId)
    requires Inv(s) && Live(s, t) && t !in View(s).current && Tight(View(s))
    requires t in s.notifyWaiting ==> t !in s.events.container
    ensures Exact(NotifyTask(s, t)) && Exact(NotifyTaskFromIsr(s, t))
  {
    if t in s.notifyWaiting {
      MakeReadyKeepsTight(s, t);
      SameDelays(MakeReady(s, t), NotifyTask(s, t));
      WakeOrPendKeepsTight(s, t);
      SameDelays(WakeOrPend(s, t), NotifyTaskFromIsr(s, t));
    }
  }

  lemma WakingKeepsTight(s: Kernel, step: Step)
    requires Inv(s) && Enabled(s, step) && Tight(View(s)) && !LeavesEarly(s, step)
    requires step.EventWake? || step.Release? || step.Notify? || step.NotifyFromIsr?
    ensures Exact(Next(s, step))
  {
    match step
    case EventWake(e) => EventWakeKeepsTight(s, e);
    case Release(t) => ReleaseKeepsTight(s, t);
    case Notify(t) => NotifyKeepsTight(s, t);
    case NotifyFromIsr(t) => NotifyKeepsTight(s, t);
  }

  lemma TerminateKeepsTight(s: Kernel, t: TaskId)
    requires Inv(s) && t in s.prio && t != s.idle && t !in s.events.container && t !in View(s).current
    requires Tight(View(s))
    ensures Exact(MoveTo(s, t, TerminationList))
  {
    MoveToKeeps(s, t, TerminationList);
    LeaveKeepsTight(View(s), t);
  }

  lemma DeletingKeepsTight(s: Kernel, t: TaskId)
    requires Inv(s) && Live(s, t) && t != s.idle && Tight(View(s)) && t !in View(s).current
    ensures Exact(DeleteTask(s, t))
  {
    if t == s.current {
      LeaveEventKeeps(s, t);
      TerminateKeepsTight(LeaveEvent(s, t), t);
      SameDelays(MoveTo(LeaveEvent(s, t), t, TerminationList), DeleteTask(s, t));
    } else {
      DeleteIsExact(s, t);
    }
  }

  lemma ResumingKeepsTight(s: Kernel, t: TaskId)
    requires Inv(s) && Live(s, t) && Tight(View(s))
    ensures Exact(ResumeTask(s, t)) && Exact(ResumeFromIsr(s, t))
  {
    if IsSuspended(s, t) {
      assert ListWellFormed(s.states, Delayed(s));
      MakeReadyKeepsTight(s, t);
      WakeOrPendKeepsTight(s, t);
    }
  }

  lemma CleanUpKeepsTight(s: Kernel)
    requires Inv(s) && At(s.states, TerminationList) != [] && Tight(View(s))
    ensures s.count > 0 && s.deleted > 0 && Exact(CleanUp(s))
  {
    CleanUpReady(s);
    CleanUpKeepsInv(s);
    HeadIsTask(s, TerminationList);
    ForgetIsLeave(s, At(s.states, TerminationList)[0]);
    assert ListWellFormed(s.states, Delayed(s));
    LeaveKeepsTight(View(s), At(s.states, TerminationList)[0]);
  }

  lemma CreateKeepsTight(s: Kernel, t: TaskId, p: nat)
    requires Inv(s) && t !in s.prio && p < s.maxPriorities && Tight(View(s))
    ensures Exact(CreateTask(s, t, p))
  {
    CreateKeepsInv(s, t, p);
    AppendFacts(s.states, ReadyList(p), t);
  }

  lemma ManagingKeepsTight(s: Kernel, step: Step)
    requires Inv(s) && Enabled(s, step) && Manages(step) && Tight(View(s)) && !LeavesEarly(s, step)
    ensures Exact(Next(s, step))
  {
    match step
    case Suspend(t) => SuspendIsExact(s, t);
    case Resume(t) => ResumingKeepsTight(s, t);
    case ResumeIsr(t) => ResumingKeepsTight(s, t);
    case Create(t, p) => CreateKeepsTight(s, t, p);
    case Delete(t) => DeletingKeepsTight(s, t);
    case CleanUpStep => CleanUpKeepsTight(s);
    case ChangePriority(t, p, v) => SetPriorityKeepsInv(s, t, p, v);
  }

  /** The next unblock time stays exact through every step but one that wakes a delayed task
      early, or ends it, without looking at the delayed list. */
  lemma StepKeepsExact(s: Kernel, step: Step)
    requires Inv(s) && Enabled(s, step) && Tight(View(s)) && !LeavesEarly(s, step)
    ensures Exact(Next(s, step))
  {
    if Manages(step) {
      ManagingKeepsTight(s, step);
    } else if step.EventWake? || step.Release? || step.Notify? || step.NotifyFromIsr? {
      WakingKeepsTight(s, step);
    } else {
      match step
      case TickInterrupt =>
        if s.suspended == 0 { TickKeepsExact(s); }
        SameDelays(if s.suspended > 0 then s.(pended := s.pended + 1) else ProcessTick(s), Next(s, step));
      case SuspendAll => SameDelays(s, Next(s, step));
      case ResumeAllStep => ResumeAllIsExact(s);
      case Block(w, n, indefinitely) => BlockKeepsExact(s, w, n, indefinitely);
      case FinishNotification => SameDelays(s, Next(s, step));
      case Reschedule => RescheduleKeepsInv(s);
    }
  }

  /** So the tick that reaches it never looks at the delayed list in vain. */
  lemma ReachedTimeUnblocks(d: D.Delays)
    requires D.Ok(d) && Tight(d) && d.current != [] && Low(d.time + 1, d.m) == d.nextUnblock
    ensures exists t :: t in d.current && !D.Blocked(D.Tick(d), t)
  {
    var t :| t in d.current && d.value[t] == d.nextUnblock;
    assert d.deadline[t] == d.time + 1 by {
      D.LowNext(d.time, d.m);
      if Low(d.time + 1, d.m) == 0 { D.ListEmptyAtSwitch(d); }
    }
    assert !D.Blocked(D.Tick(d), t) by { D.TickExact(d); }
  }
}
