/** The order of the tasks on event lists: a list whose tasks all wait in value order stays in
    that order, so an event wakes the most urgent of them, and every other list, the pending
    tasks' included, is first come, first served. */
module EventOrder {
  import opened Common
  import opened Lists
  import opened TaskLists
  import opened Ticks
  import opened Kernel
  import opened KernelRuns
  import D = Delays

  /** List k has its walking index at the end marker and, if it is to be, is in value order. */
  ghost predicate Tidy(s: Kernel, k: EventList, sorted: bool) {
    && Consistent(s.events) && WalkOf(s.events, k).index == 0
    && Valued(At(s.events, k), s.eventValue) && (sorted ==> Sorted(At(s.events, k), s.eventValue))
  }

  /** Only the event lists and the values matter. */
  lemma SameListsTidy(s: Kernel, r: Kernel, k: EventList, sorted: bool)
    requires Tidy(s, k, sorted) && r.events == s.events && r.eventValue == s.eventValue
    ensures Tidy(r, k, sorted)
  {
  }

  lemma DetachWalk(l: Family<EventList>, t: TaskId, k: EventList)
    requires Consistent(l) && WalkOf(l, k).index == 0
    ensures WalkOf(Detach(l, t), k).index == 0
  {
    if t in l.container { assert ListWellFormed(l, l.container[t]); }
  }

  lemma LeaveTidy(s: Kernel, t: TaskId, k: EventList, sorted: bool)
    requires Tidy(s, k, sorted)
    ensures Tidy(LeaveEvent(s, t), k, sorted) && LeaveEvent(s, t).eventValue == s.eventValue
  {
    var items := At(s.events, k);
    DetachFacts(s.events, t);
    DetachWalk(s.events, t, k);
    assert ListWellFormed(s.events, k);
    RemoveFacts(items, t);
    if sorted { RemoveSorted(items, s.eventValue, t); }
  }

  /** Joining a list at its end. */
  lemma AppendTidy(s: Kernel, r: Kernel, j: EventList, t: TaskId, k: EventList, sorted: bool)
    requires Tidy(s, k, sorted) && t !in s.events.container && t in s.eventValue && (sorted ==> j != k)
    requires r.events == Append(s.events, j, t) && r.eventValue == s.eventValue
    ensures Tidy(r, k, sorted)
    ensures At(r.events, k) == if j == k then At(s.events, k) + [t] else At(s.events, k)
  {
    AppendFacts(s.events, j, t);
    assert ListWellFormed(s.events, k);
  }

  /** Joining a list in value order. */
  lemma InsertTidy(s: Kernel, r: Kernel, j: EventList, t: TaskId, k: EventList, sorted: bool)
    requires Tidy(s, k, sorted) && t !in s.events.container && t in s.eventValue
    requires Valued(At(s.events, j), s.eventValue)
    requires r.events == InsertByValue(s.events, j, s.eventValue, t) && r.eventValue == s.eventValue
    ensures Tidy(r, k, sorted)
  {
    InsertByValueFacts(s.events, j, s.eventValue, t);
    if j == k {
      InsertMembers(At(s.events, k), s.eventValue, t);
      if sorted { InsertSorted(At(s.events, k), s.eventValue, t); }
    }
  }

  lemma MakeReadyTidy(s: Kernel, t: TaskId, k: EventList, sorted: bool)
    requires Tidy(s, k, sorted) && Consistent(s.states) && t in s.prio
    ensures Tidy(MakeReady(s, t), k, sorted)
  {
    SameListsTidy(s, MakeReady(s, t), k, sorted);
  }

  lemma WakeOrPendTidy(s: Kernel, t: TaskId, k: EventList, sorted: bool)
    requires Tidy(s, k, sorted) && Base(s) && t in s.prio && t !in s.events.container
    requires sorted ==> k != PendingReady
    ensures Tidy(WakeOrPend(s, t), k, sorted)
  {
    if s.suspended == 0 {
      MakeReadyTidy(s, t, k, sorted);
    } else {
      AppendTidy(s, WakeOrPend(s, t), PendingReady, t, k, sorted);
    }
  }

  // ------------------------------------------------------------------ ticks and the end of a suspension

  lemma WakeHeadTidy(s: Kernel, k: EventList, sorted: bool)
    requires Tidy(s, k, sorted) && Base(s) && At(s.states, Delayed(s)) != []
    ensures Tidy(WakeHead(s), k, sorted)
  {
    var t := At(s.states, Delayed(s))[0];
    HeadIsTask(s, Delayed(s));
    LeaveTidy(s, t, k, sorted);
    MakeReadyTidy(LeaveEvent(s, t), t, k, sorted);
  }

  lemma {:induction false} UnblockTidy(s: Kernel, k: EventList, sorted: bool)
    requires Tidy(s, k, sorted) && Base(s) && D.Advanced(View(s)) && s.tick == Low(s.time, s.m)
    ensures Tidy(UnblockDue(s), k, sorted)
    decreases |At(s.states, Delayed(s))|
  {
    if At(s.states, Delayed(s)) != [] && s.value[At(s.states, Delayed(s))[0]] <= s.tick {
      WakeHeadKeeps(s);
      D.TailOk(View(s));
      assert View(WakeHead(s)) == View(s).(current := At(s.states, Delayed(s))[1..]);
      WakeHeadTidy(s, k, sorted);
      UnblockTidy(WakeHead(s), k, sorted);
    } else {
      SameListsTidy(s, ResetUnblock(s), k, sorted);
    }
  }

  lemma TickTidy(s: Kernel, k: EventList, sorted: bool)
    requires Tidy(s, k, sorted) && Base(s) && D.Ok(View(s)) && s.tick == Low(s.time, s.m)
    ensures Tidy(ProcessTick(s), k, sorted)
  {
    AdvanceTickKeeps(s);
    D.AdvanceIs(View(s));
    SameListsTidy(s, AdvanceTick(s), k, sorted);
    if AdvanceTick(s).tick >= AdvanceTick(s).nextUnblock { UnblockTidy(AdvanceTick(s), k, sorted); }
  }

  lemma {:induction false} TicksTidy(s: Kernel, n: nat, k: EventList, sorted: bool)
    requires Tidy(s, k, sorted) && Base(s) && D.Ok(View(s)) && s.tick == Low(s.time, s.m)
    ensures Tidy(ProcessTicks(s, n), k, sorted)
    decreases n
  {
    if n > 0 {
      ProcessTickKeeps(s);
      TickTidy(s, k, sorted);
      TicksTidy(ProcessTick(s), n - 1, k, sorted);
    }
  }

  lemma {:induction false} DrainTidy(s: Kernel, k: EventList, sorted: bool)
    requires Tidy(s, k, sorted) && Base(s)
    ensures Tidy(DrainPending(s), k, sorted)
    decreases |At(s.events, PendingReady)|
  {
    if At(s.events, PendingReady) != [] {
      var t := At(s.events, PendingReady)[0];
      DrainHeadKeeps(s);
      EventHead(s, PendingReady);
      LeaveTidy(s, t, k, sorted);
      MakeReadyTidy(LeaveEvent(s, t), t, k, sorted);
      DrainTidy(DrainHead(s), k, sorted);
    }
  }

  lemma DrainedTidy(s: Kernel, k: EventList, sorted: bool)
    requires Tidy(s, k, sorted) && Base(s) && D.Ok(View(s))
    ensures Tidy(Drained(s), k, sorted)
  {
    DrainKeeps(s);
    DrainTidy(s, k, sorted);
    if At(s.events, PendingReady) != [] { SameListsTidy(DrainPending(s), Drained(s), k, sorted); }
  }

  lemma ResumeAllTidy(s: Kernel, k: EventList, sorted: bool)
    requires Tidy(s, k, sorted) && Inv(s) && s.suspended > 0
    ensures Tidy(ResumeAll(s), k, sorted)
  {
    var r := s.(suspended := s.suspended - 1);
    SameListsTidy(s, r, k, sorted);
    if r.suspended == 0 {
      DrainedKeeps(r);
      DrainedTidy(r, k, sorted);
      TicksTidy(Drained(r), s.pended, k, sorted);
      SameListsTidy(ProcessTicks(Drained(r), s.pended), ResumeAll(s), k, sorted);
    }
  }

  // ------------------------------------------------------------------ the other steps

  /** A list in value order takes waits in value order only, and keeps its tasks' values. */
  ghost predicate Suits(s: Kernel, step: Step, k: EventList) {
    && k.EventOf?
    && match step
       case Block(w, _, _) => w.Event? && w.id == k.id ==> w.ordered
       case ChangePriority(t, _, v) => v.Some? ==> t !in At(s.events, k)
       case _ => true
  }

  lemma EventsValued(s: Kernel, k: EventList)
    requires Base(s)
    ensures Valued(At(s.events, k), s.eventValue)
  {
    assert ListWellFormed(s.events, k);
  }

  lemma PrepareTidy(s: Kernel, w: WaitsFor, k: EventList, sorted: bool)
    requires Tidy(s, k, sorted) && Base(s) && IsReady(s, s.current) && s.current !in s.events.container
    requires sorted && w.Event? && EventOf(w.id) == k ==> w.ordered
    ensures Tidy(Prepare(s, w), k, sorted)
  {
    match w
    case Event(e, ordered) =>
      EventsValued(s, EventOf(e));
      if ordered { InsertTidy(s, Prepare(s, w), EventOf(e), s.current, k, sorted); }
      else { AppendTidy(s, Prepare(s, w), EventOf(e), s.current, k, sorted); }
    case _ => SameListsTidy(s, Prepare(s, w), k, sorted);
  }

  lemma BlockingTidy(s: Kernel, n: nat, indefinitely: bool, k: EventList, sorted: bool)
    requires Tidy(s, k, sorted) && CanDelay(s) && n < s.m && s.tick < s.m
    ensures Tidy(BlockCurrent(s, n, indefinitely), k, sorted)
  {
    SameListsTidy(s, BlockCurrent(s, n, indefinitely), k, sorted);
  }

  lemma BlockTidy(s: Kernel, w: WaitsFor, n: nat, indefinitely: bool, k: EventList, sorted: bool)
    requires Tidy(s, k, sorted) && Inv(s) && CanWait(s, w, n)
    requires sorted && w.Event? && EventOf(w.id) == k ==> w.ordered
    ensures Tidy(BlockStep(s, w, n, indefinitely), k, sorted)
  {
    PrepareKeeps(s, w);
    PrepareTidy(s, w, k, sorted);
    if !(w.Notification? && n == 0) { BlockingTidy(Prepare(s, w), n, indefinitely, k, sorted); }
  }

  lemma EventWakeTidy(s: Kernel, e: nat, k: EventList, sorted: bool)
    requires Tidy(s, k, sorted) && Base(s) && At(s.events, EventOf(e)) != [] && (sorted ==> k != PendingReady)
    ensures Tidy(RemoveFromEvent(s, e), k, sorted)
  {
    var t := At(s.events, EventOf(e))[0];
    EventHead(s, EventOf(e));
    LeaveEventKeeps(s, t);
    LeaveTidy(s, t, k, sorted);
    WakeOrPendTidy(LeaveEvent(s, t), t, k, sorted);
  }

  lemma WakingTidy(s: Kernel, step: Step, k: EventList, sorted: bool)
    requires Tidy(s, k, sorted) && Inv(s) && Enabled(s, step) && (sorted ==> k != PendingReady)
    requires step.EventWake? || step.Release? || step.Notify? || step.NotifyFromIsr?
    ensures Tidy(Next(s, step), k, sorted)
  {
    match step
    case EventWake(e) => EventWakeTidy(s, e, k, sorted);
    case Release(t) =>
      LeaveTidy(s, t, k, sorted);
      MakeReadyTidy(LeaveEvent(s, t), t, k, sorted);
    case Notify(t) => SameListsTidy(s, NotifyTask(s, t), k, sorted);
    case NotifyFromIsr(t) =>
      if t in s.notifyWaiting {
        WakeOrPendTidy(s, t, k, sorted);
        SameListsTidy(WakeOrPend(s, t), NotifyTaskFromIsr(s, t), k, sorted);
      }
  }

  lemma CreateTidy(s: Kernel, t: TaskId, p: nat, k: EventList, sorted: bool)
    requires Tidy(s, k, sorted) && Base(s) && t !in s.prio && p < s.maxPriorities
    ensures Tidy(CreateTask(s, t, p), k, sorted)
  {
    assert ListWellFormed(s.events, k);
  }

  lemma RepriceTidy(s: Kernel, t: TaskId, p: nat, v: Option<nat>, k: EventList, sorted: bool)
    requires Tidy(s, k, sorted) && Base(s) && t in s.prio && (sorted && v.Some? ==> t !in At(s.events, k))
    ensures Tidy(SetPriority(s, t, p, v), k, sorted)
  {
    var r := SetPriority(s, t, p, v);
    assert r.events == s.events && r.eventValue == Reprice(s, t, p, v).eventValue;
  }

  lemma DeleteTidy(s: Kernel, t: TaskId, k: EventList, sorted: bool)
    requires Tidy(s, k, sorted) && Base(s) && D.Ok(View(s)) && t in s.prio && t != s.idle
    ensures Tidy(DeleteTask(s, t), k, sorted) && Tidy(SuspendTask(s, t), k, sorted)
  {
    LeaveEventKeeps(s, t);
    LeaveTidy(s, t, k, sorted);
    SameListsTidy(LeaveEvent(s, t), DeleteTask(s, t), k, sorted);
    SuspendKeeps(s, t);
    SameListsTidy(LeaveEvent(s, t), SuspendTask(s, t), k, sorted);
  }

  lemma ManagingTidy(s: Kernel, step: Step, k: EventList, sorted: bool)
    requires Tidy(s, k, sorted) && Inv(s) && Enabled(s, step) && Manages(step) && (sorted ==> Suits(s, step, k))
    ensures Tidy(Next(s, step), k, sorted)
  {
    match step
    case Suspend(t) => DeleteTidy(s, t, k, sorted);
    case Resume(t) => ResumingTidy(s, t, k, sorted);
    case ResumeIsr(t) => ResumingTidy(s, t, k, sorted);
    case Create(t, p) => CreateTidy(s, t, p, k, sorted);
    case Delete(t) => DeleteTidy(s, t, k, sorted);
    case CleanUpStep => CleanUpTidy(s, k, sorted);
    case ChangePriority(t, p, v) => RepriceTidy(s, t, p, v, k, sorted);
  }

  lemma SwitchTidy(s: Kernel, k: EventList, sorted: bool)
    requires Tidy(s, k, sorted) && Base(s)
    ensures Tidy(SwitchContext(s), k, sorted)
  {
    SelectionSucceeds(s);
    SameListsTidy(s, SwitchContext(s), k, sorted);
  }

  lemma ResumingTidy(s: Kernel, t: TaskId, k: EventList, sorted: bool)
    requires Tidy(s, k, sorted) && Base(s) && t in s.prio && (sorted ==> k != PendingReady)
    ensures Tidy(ResumeFromIsr(s, t), k, sorted) && Tidy(ResumeTask(s, t), k, sorted)
  {
    if IsSuspended(s, t) { WakeOrPendTidy(s, t, k, sorted); }
    SameListsTidy(s, ResumeTask(s, t), k, sorted);
  }

  lemma CleanUpTidy(s: Kernel, k: EventList, sorted: bool)
    requires Tidy(s, k, sorted) && Inv(s) && At(s.states, TerminationList) != []
    ensures s.count > 0 && s.deleted > 0 && Tidy(CleanUp(s), k, sorted)
  {
    CleanUpReady(s);
    SameListsTidy(s, CleanUp(s), k, sorted);
  }

  lemma StepKeepsTidy(s: Kernel, step: Step, k: EventList, sorted: bool)
    requires Tidy(s, k, sorted) && Inv(s) && Enabled(s, step) && (sorted ==> Suits(s, step, k))
    ensures Tidy(Next(s, step), k, sorted)
  {
    if Manages(step) {
      ManagingTidy(s, step, k, sorted);
    } else if step.EventWake? || step.Release? || step.Notify? || step.NotifyFromIsr? {
      WakingTidy(s, step, k, sorted);
    } else {
      match step
      case TickInterrupt =>
        if s.suspended == 0 { TickTidy(s, k, sorted); }
        SameListsTidy(if s.suspended > 0 then s else ProcessTick(s), Next(s, step), k, sorted);
      case ResumeAllStep => ResumeAllTidy(s, k, sorted);
      case Block(w, n, indefinitely) => BlockTidy(s, w, n, indefinitely, k, sorted);
      case SuspendAll => SameListsTidy(s, Next(s, step), k, sorted);
      case FinishNotification => SameListsTidy(s, Next(s, step), k, sorted);
      case Reschedule => SwitchTidy(s, k, sorted);
    }
  }

  // ------------------------------------------------------------------ whole runs

  ghost predicate SuitingRun(s: Kernel, steps: seq<Step>, s': Kernel, k: EventList, sorted: bool)
    requires Inv(s)
    decreases |steps|
  {
    if steps == [] then s' == s
    else
      && Enabled(s, steps[0]) && (sorted ==> Suits(s, steps[0], k))
      && (StepKeepsInv(s, steps[0]); SuitingRun(Next(s, steps[0]), steps[1..], s', k, sorted))
  }

  lemma {:induction false} RunKeepsTidy(s: Kernel, steps: seq<Step>, s': Kernel, k: EventList, sorted: bool)
    requires Inv(s) && Tidy(s, k, sorted) && SuitingRun(s, steps, s', k, sorted)
    ensures Inv(s') && Tidy(s', k, sorted)
    decreases |steps|
  {
    if steps != [] {
      StepKeepsInv(s, steps[0]);
      StepKeepsTidy(s, steps[0], k, sorted);
      RunKeepsTidy(Next(s, steps[0]), steps[1..], s', k, sorted);
    }
  }

  lemma InitialTidy(s: Kernel, k: EventList, sorted: bool)
    requires Initial(s)
    ensures Tidy(s, k, sorted)
  {
    assert ListWellFormed(s.events, k);
    DistinctCount(At(s.events, k), {});
  }

  /** In every reachable state a list of waits in value order has its most urgent task at the
      head, and tasks of equal value in the order they came: an event wakes that one. */
  lemma EventWakesMostUrgent(s: Kernel, steps: seq<Step>, s': Kernel, e: nat, t: TaskId)
    requires Initial(s) && Inv(s) && SuitingRun(s, steps, s', EventOf(e), true) && t in At(s'.events, EventOf(e))
    ensures var h := At(s'.events, EventOf(e))[0];
            && h in s'.eventValue && t in s'.eventValue && s'.eventValue[h] <= s'.eventValue[t]
            && Inv(s') && h !in At(RemoveFromEvent(s', e).events, EventOf(e))
            && (t != h ==> t in At(RemoveFromEvent(s', e).events, EventOf(e)))
  {
    InitialTidy(s, EventOf(e), true);
    RunKeepsTidy(s, steps, s', EventOf(e), true);
    HeadIsWoken(s', e);
    RemoveFacts(At(s'.events, EventOf(e)), At(s'.events, EventOf(e))[0]);
  }

  lemma HeadIsWoken(s: Kernel, e: nat)
    requires Base(s) && At(s.events, EventOf(e)) != []
    ensures At(RemoveFromEvent(s, e).events, EventOf(e)) ==
            Remove(At(s.events, EventOf(e)), At(s.events, EventOf(e))[0])
    ensures Distinct(At(s.events, EventOf(e)))
  {
    var h := At(s.events, EventOf(e))[0];
    EventHead(s, EventOf(e));
    DetachFacts(s.events, h);
    LeaveEventKeeps(s, h);
    AppendFacts(LeaveEvent(s, h).events, PendingReady, h);
    assert ListWellFormed(s.events, EventOf(e));
  }

  /** In every reachable state a task that waits at the end of an event list, or is held
      pending, stands behind all that were there before. */
  lemma LatecomersWaitLast(s: Kernel, steps: seq<Step>, s': Kernel, e: nat, t: TaskId)
    requires Initial(s) && Inv(s) && SuitingRun(s, steps, s', PendingReady, false)
    requires SuitingRun(s, steps, s', EventOf(e), false) && t in s'.prio && t !in s'.events.container
    ensures Inv(s')
    ensures t == s'.current ==>
            At(Prepare(s', Event(e, false)).events, EventOf(e)) == At(s'.events, EventOf(e)) + [t]
    ensures s'.suspended > 0 ==> At(WakeOrPend(s', t).events, PendingReady) == At(s'.events, PendingReady) + [t]
  {
    InitialTidy(s, PendingReady, false);
    RunKeepsTidy(s, steps, s', PendingReady, false);
    InitialTidy(s, EventOf(e), false);
    RunKeepsTidy(s, steps, s', EventOf(e), false);
  }

  /** A new value for a waiting task leaves its list in order exactly when it fits where the
      task stands: no list is sorted again. */
  lemma NewValueFitsExactly(s: Kernel, t: TaskId, p: nat, v: nat, e: nat, i: nat)
    requires Tidy(s, EventOf(e), true) && Base(s) && t in s.prio
    requires i < |At(s.events, EventOf(e))| && At(s.events, EventOf(e))[i] == t
    ensures var items, r := At(s.events, EventOf(e)), SetPriority(s, t, p, Some(v));
            && At(r.events, EventOf(e)) == items && Valued(items, r.eventValue)
            && (Sorted(items, r.eventValue) <==>
                (i > 0 ==> s.eventValue[items[i - 1]] <= v)
                && (i + 1 < |items| ==> v <= s.eventValue[items[i + 1]]))
  {
    var items := At(s.events, EventOf(e));
    assert ListWellFormed(s.events, EventOf(e));
    assert SetPriority(s, t, p, Some(v)).eventValue == s.eventValue[t := v];
    OneValueSorted(items, s.eventValue, t, v, i);
  }

  lemma OneValueSorted(items: seq<TaskId>, v: map<TaskId, nat>, t: TaskId, x: nat, i: nat)
    requires Valued(items, v) && Sorted(items, v) && Distinct(items) && i < |items| && items[i] == t
    ensures Sorted(items, v[t := x]) <==>
              (i > 0 ==> v[items[i - 1]] <= x) && (i + 1 < |items| ==> x <= v[items[i + 1]])
  {
    var w := v[t := x];
    assert forall j :: 0 <= j < |items| && j != i ==> w[items[j]] == v[items[j]];
    if (i > 0 ==> v[items[i - 1]] <= x) && (i + 1 < |items| ==> x <= v[items[i + 1]]) {
      forall j, k | 0 <= j < k < |items| ensures w[items[j]] <= w[items[k]] {
        if k == i { assert v[items[j]] <= v[items[i - 1]]; }
        if j == i { assert v[items[i + 1]] <= v[items[k]]; }
      }
    }
  }

  // ------------------------------------------------------------------ values and priorities

  /** Event item values run against priorities: the higher the priority, the smaller the value. */
  ghost predicate Ranked(s: Kernel) {
    forall t :: t in s.prio ==> t in s.eventValue && s.eventValue[t] + s.prio[t] == s.maxPriorities
  }

  ghost predicate SameRanks(s: Kernel, r: Kernel) {
    r.eventValue == s.eventValue && r.prio == s.prio && r.maxPriorities == s.maxPriorities
  }

  lemma {:induction false} UnblockKeepsRanks(s: Kernel)
    requires Base(s) && D.Advanced(View(s)) && s.tick == Low(s.time, s.m)
    ensures SameRanks(s, UnblockDue(s))
    decreases |At(s.states, Delayed(s))|
  {
    if At(s.states, Delayed(s)) != [] && s.value[At(s.states, Delayed(s))[0]] <= s.tick {
      WakeHeadKeeps(s);
      D.TailOk(View(s));
      assert View(WakeHead(s)) == View(s).(current := At(s.states, Delayed(s))[1..]);
      UnblockKeepsRanks(WakeHead(s));
    }
  }

  lemma TickKeepsRanks(s: Kernel)
    requires Base(s) && D.Ok(View(s)) && s.tick == Low(s.time, s.m)
    ensures SameRanks(s, ProcessTick(s))
  {
    AdvanceTickKeeps(s);
    D.AdvanceIs(View(s));
    UnblockKeepsRanks(AdvanceTick(s));
  }

  lemma {:induction false} TicksKeepRanks(s: Kernel, k: nat)
    requires Base(s) && D.Ok(View(s)) && s.tick == Low(s.time, s.m)
    ensures SameRanks(s, ProcessTicks(s, k))
    decreases k
  {
    if k > 0 {
      ProcessTickKeeps(s);
      TickKeepsRanks(s);
      TicksKeepRanks(ProcessTick(s), k - 1);
    }
  }

  lemma {:induction false} DrainKeepsRanks(s: Kernel)
    requires Base(s)
    ensures SameRanks(s, DrainPending(s))
    decreases |At(s.events, PendingReady)|
  {
    if At(s.events, PendingReady) != [] {
      DrainHeadKeeps(s);
      DrainKeepsRanks(DrainHead(s));
    }
  }

  lemma ResumeAllKeepsRanks(s: Kernel)
    requires Inv(s) && s.suspended > 0
    ensures SameRanks(s, ResumeAll(s))
  {
    var r := s.(suspended := s.suspended - 1);
    if r.suspended == 0 {
      DrainedKeeps(r);
      DrainKeepsRanks(r);
      DrainKeeps(r);
      TicksKeepRanks(Drained(r), s.pended);
    }
  }

  /** A change of priority that has the value follow it. */
  predicate Follows(s: Kernel, step: Step) {
    step.ChangePriority? ==> step.priority <= s.maxPriorities && step.itemValue == Some(s.maxPriorities - step.priority)
  }

  lemma SuspendKeepsRanks(s: Kernel, t: TaskId)
    requires Base(s) && D.Ok(View(s)) && t in s.prio && t != s.idle
    ensures SameRanks(s, SuspendTask(s, t))
  {
    SuspendKeeps(s, t);
  }

  /** Tasks may go. */
  ghost predicate FewerRanks(s: Kernel, r: Kernel) {
    && r.eventValue == s.eventValue && r.maxPriorities == s.maxPriorities
    && forall t :: t in r.prio ==> t in s.prio && r.prio[t] == s.prio[t]
  }

  lemma DeleteOtherLeavesRanks(s: Kernel, t: TaskId)
    requires Base(s) && D.Ok(View(s)) && t in s.prio && t != s.idle
    ensures FewerRanks(s, DeleteOther(s, t))
  {
    LeaveEventKeeps(s, t);
    ForgetKeeps(s, t);
  }

  lemma DeleteLeavesRanks(s: Kernel, t: TaskId)
    requires Base(s) && D.Ok(View(s)) && t in s.prio && t != s.idle
    ensures FewerRanks(s, DeleteTask(s, t))
  {
    LeaveEventKeeps(s, t);
    if t != s.current { DeleteOtherLeavesRanks(s, t); }
  }

  lemma CleanUpLeavesRanks(s: Kernel)
    requires Inv(s) && At(s.states, TerminationList) != []
    ensures s.count > 0 && s.deleted > 0 && FewerRanks(s, CleanUp(s))
  {
    CleanUpReady(s);
  }

  lemma FewerAreRanked(s: Kernel, r: Kernel)
    requires Ranked(s) && FewerRanks(s, r)
    ensures Ranked(r) && r.maxPriorities == s.maxPriorities
  {
  }

  lemma ResumingKeepsRanks(s: Kernel, t: TaskId)
    requires Base(s) && t in s.prio
    ensures SameRanks(s, ResumeTask(s, t)) && SameRanks(s, ResumeFromIsr(s, t))
  {
  }

  lemma NewRank(s: Kernel, r: Kernel, t: TaskId, p: nat)
    requires Ranked(s) && p <= s.maxPriorities && r.maxPriorities == s.maxPriorities
    requires r.prio == s.prio[t := p] && r.eventValue == s.eventValue[t := s.maxPriorities - p]
    ensures Ranked(r)
  {
  }

  lemma CreateKeepsRanked(s: Kernel, t: TaskId, p: nat)
    requires Base(s) && Ranked(s) && p < s.maxPriorities
    ensures Ranked(CreateTask(s, t, p)) && CreateTask(s, t, p).maxPriorities == s.maxPriorities
  {
    NewRank(s, CreateTask(s, t, p), t, p);
  }

  lemma SetPriorityKeepsRanked(s: Kernel, t: TaskId, p: nat)
    requires Base(s) && Ranked(s) && t in s.prio && p <= s.maxPriorities
    ensures var r := SetPriority(s, t, p, Some(s.maxPriorities - p)); Ranked(r) && r.maxPriorities == s.maxPriorities
  {
    NewRank(s, SetPriority(s, t, p, Some(s.maxPriorities - p)), t, p);
  }

  lemma ManagingKeepsRanked(s: Kernel, step: Step)
    requires Inv(s) && Ranked(s) && Enabled(s, step) && Manages(step) && Follows(s, step)
    ensures Ranked(Next(s, step)) && Next(s, step).maxPriorities == s.maxPriorities
  {
    if step.Create? {
      CreateKeepsRanked(s, step.task, step.priority);
    } else if step.ChangePriority? {
      SetPriorityKeepsRanked(s, step.task, step.priority);
    } else {
      ManagingLeavesRanks(s, step);
      FewerAreRanked(s, Next(s, step));
    }
  }

  lemma ManagingLeavesRanks(s: Kernel, step: Step)
    requires Inv(s) && Enabled(s, step) && Manages(step) && !step.Create? && !step.ChangePriority?
    ensures FewerRanks(s, Next(s, step))
  {
    match step
    case Suspend(t) => SuspendKeepsRanks(s, t);
    case Resume(t) => ResumingKeepsRanks(s, t);
    case ResumeIsr(t) => ResumingKeepsRanks(s, t);
    case Delete(t) => DeleteLeavesRanks(s, t);
    case CleanUpStep => CleanUpLeavesRanks(s);
  }

  lemma BlockKeepsRanks(s: Kernel, w: WaitsFor, n: nat, indefinitely: bool)
    requires Inv(s) && CanWait(s, w, n)
    ensures SameRanks(s, BlockStep(s, w, n, indefinitely))
  {
    PrepareKeeps(s, w);
    if !(w.Notification? && n == 0) { BlockingKeepsRanks(Prepare(s, w), n, indefinitely); }
  }

  lemma BlockingKeepsRanks(s: Kernel, n: nat, indefinitely: bool)
    requires CanDelay(s) && n < s.m && s.tick < s.m
    ensures SameRanks(s, BlockCurrent(s, n, indefinitely))
  {
  }

  lemma WakingKeepsRanks(s: Kernel, step: Step)
    requires Inv(s) && Enabled(s, step)
    requires step.EventWake? || step.Release? || step.Notify? || step.NotifyFromIsr?
    ensures SameRanks(s, Next(s, step))
  {
    match step
    case EventWake(e) => EventWakeKeepsRanks(s, e);
    case Release(_) =>
    case Notify(t) => NotifyKeepsRanks(s, t);
    case NotifyFromIsr(t) => NotifyKeepsRanks(s, t);
  }

  lemma EventWakeKeepsRanks(s: Kernel, e: nat)
    requires Base(s) && At(s.events, EventOf(e)) != []
    ensures SameRanks(s, RemoveFromEvent(s, e))
  {
    EventHead(s, EventOf(e));
    LeaveEventKeeps(s, At(s.events, EventOf(e))[0]);
  }

  lemma NotifyKeepsRanks(s: Kernel, t: TaskId)
    requires Base(s) && t in s.prio
    ensures SameRanks(s, NotifyTask(s, t)) && SameRanks(s, NotifyTaskFromIsr(s, t))
  {
  }

  lemma SwitchKeepsRanks(s: Kernel)
    requires Base(s)
    ensures SameRanks(s, SwitchContext(s))
  {
    SelectionSucceeds(s);
  }

  lemma StepKeepsRanked(s: Kernel, step: Step)
    requires Inv(s) && Ranked(s) && Enabled(s, step) && Follows(s, step)
    ensures Ranked(Next(s, step)) && Next(s, step).maxPriorities == s.maxPriorities
  {
    if Manages(step) {
      ManagingKeepsRanked(s, step);
    } else if step.EventWake? || step.Release? || step.Notify? || step.NotifyFromIsr? {
      WakingKeepsRanks(s, step);
    } else {
      match step
      case TickInterrupt => if s.suspended == 0 { TickKeepsRanks(s); }
      case SuspendAll => assert SameRanks(s, Next(s, step));
      case ResumeAllStep => ResumeAllKeepsRanks(s);
      case Block(w, n, indefinitely) => BlockKeepsRanks(s, w, n, indefinitely);
      case FinishNotification => assert SameRanks(s, Next(s, step));
      case Reschedule => SwitchKeepsRanks(s);
    }
  }

  ghost predicate FollowingRun(s: Kernel, steps: seq<Step>, s': Kernel)
    requires Inv(s)
    decreases |steps|
  {
    if steps == [] then s' == s
    else
      && Enabled(s, steps[0]) && Follows(s, steps[0])
      && (StepKeepsInv(s, steps[0]); FollowingRun(Next(s, steps[0]), steps[1..], s'))
  }

  lemma {:induction false} RunKeepsRanked(s: Kernel, steps: seq<Step>, s': Kernel)
    requires Inv(s) && Ranked(s) && FollowingRun(s, steps, s')
    ensures Inv(s') && Ranked(s')
    decreases |steps|
  {
    if steps != [] {
      StepKeepsInv(s, steps[0]);
      StepKeepsRanked(s, steps[0]);
      RunKeepsRanked(Next(s, steps[0]), steps[1..], s');
    }
  }

  /** In every reachable state an event on which tasks wait in value order wakes one of the
      highest priority among them, while values follow priorities and no waiting task is
      given another. */
  lemma EventWakesHighestPriority(s: Kernel, steps: seq<Step>, s': Kernel, e: nat, t: TaskId)
    requires Initial(s) && Inv(s) && Ranked(s) && SuitingRun(s, steps, s', EventOf(e), true)
    requires FollowingRun(s, steps, s') && t in At(s'.events, EventOf(e))
    ensures var h := At(s'.events, EventOf(e))[0];
            && Inv(s') && h in s'.prio && t in s'.prio && s'.prio[t] <= s'.prio[h]
            && h !in At(RemoveFromEvent(s', e).events, EventOf(e))
  {
    EventWakesMostUrgent(s, steps, s', e, t);
    RunKeepsRanked(s, steps, s');
    EventHead(s', EventOf(e));
    assert ListWellFormed(s'.events, EventOf(e));
  }
}
