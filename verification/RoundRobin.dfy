/** Sharing the processor among ready tasks of one priority: a task readied waits its turn
    behind those ready already, and no task ready waits for more than two rounds. */
module RoundRobin {
  import opened Common
  import opened Lists
  import opened TaskLists
  import opened Ticks
  import opened Kernel
  import opened KernelRuns
  import opened OtherTasks
  import opened Readiness
  import D = Delays

  // ------------------------------------------------------------------ the turn of a new item

  /** Item x has joined the n items of walk w last in turn: the items that would have been
      visited next still are, in their order, then x, and only then the item visited last. */
  ghost predicate LastInTurn(w: Walk<TaskId>, r: Walk<TaskId>, x: TaskId) {
    var n := |w.items|;
    && w.Valid() && r.Valid() && |r.items| == n + 1
    && (forall k :: 0 < k < n ==> Visited(r, k) == Visited(w, k))
    && (if w.index == 0 then Visited(r, n + 1) == x && (n > 0 ==> Visited(r, n) == Visited(w, n))
        else Visited(r, n) == x && Visited(r, n + 1) == w.items[w.index - 1] == Visited(w, n))
  }

  /** An insert-end item leaves the turns before its own as they are. */
  lemma TurnsBefore(w: Walk<TaskId>, x: TaskId, k: nat)
    requires w.Valid() && 0 < k <= |w.items| && (w.index != 0 ==> k < |w.items|)
    ensures Visited(InsertEnd(w, x), k) == Visited(w, k)
  {
    NextByIs(w, k);
    NextByIs(InsertEnd(w, x), k);
  }

  lemma InsertEndIsLastInTurn(w: Walk<TaskId>, x: TaskId)
    requires w.Valid() && Distinct(w.items) && x !in w.items
    ensures LastInTurn(w, InsertEnd(w, x), x)
  {
    var n := |w.items|;
    InsertEndVisitedLast(w, x);
    forall k | 0 < k < n ensures Visited(InsertEnd(w, x), k) == Visited(w, k) { TurnsBefore(w, x, k); }
    if n > 0 {
      if w.index == 0 { TurnsBefore(w, x, n); } else { NextByIs(w, n); }
    }
  }

  /** Every item but the one visited last has its turn before the new one. */
  lemma OthersComeFirst(w: Walk<TaskId>, r: Walk<TaskId>, x: TaskId, u: TaskId) returns (k: nat)
    requires LastInTurn(w, r, x) && Distinct(w.items) && u in w.items
    requires w.index != 0 ==> u != w.items[w.index - 1]
    ensures 0 < k <= |w.items| && Visited(r, k) == Visited(w, k) == u
    ensures w.index != 0 ==> k < |w.items| && Visited(r, |w.items|) == x
    ensures w.index == 0 ==> Visited(r, |w.items| + 1) == x
  {
    VisitsEachOnce(w);
    k :| 0 < k <= |w.items| && Visited(w, k) == u;
  }

  /** A task made ready goes last in turn among the ready tasks of its priority. */
  lemma ReadiedIsLastInTurn(s: Kernel, t: TaskId)
    requires Base(s) && t in s.prio && !On(s, t, ReadyList(s.prio[t]))
    ensures LastInTurn(WalkOf(s.states, ReadyList(s.prio[t])), WalkOf(MakeReady(s, t).states, ReadyList(s.prio[t])), t)
  {
    var k := ReadyList(s.prio[t]);
    DetachFacts(s.states, t);
    assert ListWellFormed(s.states, k);
    InsertEndIsLastInTurn(WalkOf(s.states, k), t);
  }

  /** So does a task moved within its ready list, behind the tasks that stay. */
  lemma RequeuedIsLastInTurn(s: Kernel, t: TaskId)
    requires Base(s) && t in s.prio
    ensures Consistent(Detach(s.states, t))
    ensures LastInTurn(WalkOf(Detach(s.states, t), ReadyList(s.prio[t])),
                       WalkOf(MakeReady(s, t).states, ReadyList(s.prio[t])), t)
  {
    var k := ReadyList(s.prio[t]);
    DetachFacts(s.states, t);
    assert ListWellFormed(Detach(s.states, t), k);
    InsertEndIsLastInTurn(WalkOf(Detach(s.states, t), k), t);
  }

  /** Given a new priority, or the one it has, a ready task goes last in turn there. */
  lemma RepricedIsLastInTurn(s: Kernel, t: TaskId, p: nat, v: Option<nat>)
    requires Base(s) && IsReady(s, t)
    ensures Consistent(Detach(s.states, t))
    ensures LastInTurn(WalkOf(Detach(s.states, t), ReadyList(p)),
                       WalkOf(SetPriority(s, t, p, v).states, ReadyList(p)), t)
  {
    DetachFacts(s.states, t);
    assert ListWellFormed(Detach(s.states, t), ReadyList(p));
    InsertEndIsLastInTurn(WalkOf(Detach(s.states, t), ReadyList(p)), t);
  }

  /** And so does a new task. */
  lemma CreatedIsLastInTurn(s: Kernel, t: TaskId, p: nat)
    requires Base(s) && t !in s.prio && p < s.maxPriorities
    ensures LastInTurn(WalkOf(s.states, ReadyList(p)), WalkOf(CreateTask(s, t, p).states, ReadyList(p)), t)
  {
    assert ListWellFormed(s.states, ReadyList(p));
    InsertEndIsLastInTurn(WalkOf(s.states, ReadyList(p)), t);
  }

  // ------------------------------------------------------------------ how far the walk has to go

  /** Where an item stands on the list, counted from 1 as the index is. */
  ghost function Place(w: Walk<TaskId>, t: TaskId): nat
    requires t in w.items
  {
    IndexOf(w.items, t) + 1
  }

  lemma PlaceIs(w: Walk<TaskId>, t: TaskId, p: nat)
    requires Distinct(w.items) && p < |w.items| && w.items[p] == t
    ensures t in w.items && Place(w, t) == p + 1
  {
  }

  /** The walk has yet to come to the item in this round. */
  ghost predicate Ahead(w: Walk<TaskId>, t: TaskId)
    requires t in w.items
  {
    w.index < Place(w, t)
  }

  /** The item is no farther from its turn: still to come in this round and as near, or
      the round is as near its end. */
  ghost predicate NoFarther(w: Walk<TaskId>, r: Walk<TaskId>, t: TaskId) {
    && w.Valid() && r.Valid() && t in w.items && t in r.items
    && (Ahead(w, t) ==> Ahead(r, t) && Place(r, t) - r.index <= Place(w, t) - w.index)
    && (!Ahead(w, t) ==> Ahead(r, t) || |r.items| - r.index <= |w.items| - w.index)
  }

  lemma NoFartherTwice(a: Walk<TaskId>, b: Walk<TaskId>, c: Walk<TaskId>, t: TaskId)
    requires NoFarther(a, b, t) && NoFarther(b, c, t)
    ensures NoFarther(a, c, t)
  {
  }

  lemma JoiningDelaysNobody(w: Walk<TaskId>, x: TaskId, t: TaskId)
    requires w.Valid() && Distinct(w.items) && x !in w.items && t in w.items
    ensures NoFarther(w, InsertEnd(w, x), t)
  {
    InsertEndMembers(w, x);
    var r, p := InsertEnd(w, x), IndexOf(w.items, t);
    PlaceIs(r, t, if w.index == 0 || p < w.index - 1 then p else p + 1);
  }

  lemma LeavingDelaysNobody(w: Walk<TaskId>, q: nat, t: TaskId)
    requires w.Valid() && Distinct(w.items) && q < |w.items| && w.items[q] != t && t in w.items
    ensures NoFarther(w, Unlink(w, q), t)
  {
    var r, p := Unlink(w, q), IndexOf(w.items, t);
    assert Distinct(r.items);
    PlaceIs(r, t, if p < q then p else p - 1);
  }

  /** The same on list k of a family. */
  ghost predicate Near<K(!new)>(l: Family<K>, r: Family<K>, k: K, t: TaskId) {
    NoFarther(WalkOf(l, k), WalkOf(r, k), t)
  }

  lemma DetachNear<K(!new)>(l: Family<K>, x: TaskId, k: K, t: TaskId)
    requires Consistent(l) && x != t && t in At(l, k)
    ensures Consistent(Detach(l, x)) && Near(l, Detach(l, x), k, t)
  {
    DetachFacts(l, x);
    assert ListWellFormed(l, k);
    if x in l.container && l.container[x] == k {
      assert x in At(l, k);
      LeavingDelaysNobody(WalkOf(l, k), IndexOf(At(l, k), x), t);
    }
  }

  lemma AppendNear<K(!new)>(l: Family<K>, j: K, x: TaskId, k: K, t: TaskId)
    requires Consistent(l) && x !in l.container && t in At(l, k)
    ensures Near(l, Append(l, j, x), k, t)
  {
    assert ListWellFormed(l, k);
    if j == k { JoiningDelaysNobody(WalkOf(l, k), x, t); }
  }

  /** An item moved from wherever it was to the end of list j. */
  lemma MoveNear<K(!new)>(l: Family<K>, x: TaskId, j: K, k: K, t: TaskId)
    requires Consistent(l) && x != t && t in At(l, k)
    ensures Consistent(Detach(l, x)) && Near(l, Append(Detach(l, x), j, x), k, t)
  {
    DetachNear(l, x, k, t);
    DetachFacts(l, x);
    AppendNear(Detach(l, x), j, x, k, t);
    NoFartherTwice(WalkOf(l, k), WalkOf(Detach(l, x), k), WalkOf(Append(Detach(l, x), j, x), k), t);
  }

  // ------------------------------------------------------------------ no step delays a ready task

  /** Task t is ready at priority p, and no farther from its turn in r than in s. */
  ghost predicate NoLater(s: Kernel, r: Kernel, p: nat, t: TaskId) {
    Near(s.states, r.states, ReadyList(p), t)
  }

  lemma ReadyIsListed(s: Kernel, p: nat, t: TaskId)
    requires Consistent(s.states) && On(s, t, ReadyList(p))
    ensures t in At(s.states, ReadyList(p)) && WalkOf(s.states, ReadyList(p)).Valid() && NoLater(s, s, p, t)
  {
    assert ListWellFormed(s.states, ReadyList(p));
  }

  lemma NoLaterTwice(a: Kernel, b: Kernel, c: Kernel, p: nat, t: TaskId)
    requires NoLater(a, b, p, t) && NoLater(b, c, p, t)
    ensures NoLater(a, c, p, t)
  {
    NoFartherTwice(WalkOf(a.states, ReadyList(p)), WalkOf(b.states, ReadyList(p)), WalkOf(c.states, ReadyList(p)), t);
  }

  lemma MakeReadyNear(s: Kernel, u: TaskId, p: nat, t: TaskId)
    requires Consistent(s.states) && On(s, t, ReadyList(p)) && u in s.prio && u != t
    ensures NoLater(s, MakeReady(s, u), p, t)
  {
    ReadyIsListed(s, p, t);
    MoveNear(s.states, u, ReadyList(s.prio[u]), ReadyList(p), t);
  }

  lemma MoveToNear(s: Kernel, u: TaskId, k: ListId, p: nat, t: TaskId)
    requires Consistent(s.states) && On(s, t, ReadyList(p)) && u != t
    ensures NoLater(s, MoveTo(s, u, k), p, t)
  {
    ReadyIsListed(s, p, t);
    MoveNear(s.states, u, k, ReadyList(p), t);
  }

  lemma WakeHeadNear(s: Kernel, p: nat, t: TaskId)
    requires Base(s) && At(s.states, Delayed(s)) != [] && On(s, t, ReadyList(p))
    ensures NoLater(s, WakeHead(s), p, t)
  {
    HeadIsTask(s, Delayed(s));
    MakeReadyNear(LeaveEvent(s, At(s.states, Delayed(s))[0]), At(s.states, Delayed(s))[0], p, t);
  }

  ghost predicate Unblocking(s: Kernel, p: nat, t: TaskId) {
    Base(s) && D.Advanced(View(s)) && s.tick == Low(s.time, s.m) && On(s, t, ReadyList(p)) && Still(s, t)
  }

  lemma WakeHeadKeepsUnblocking(s: Kernel, p: nat, t: TaskId)
    requires Unblocking(s, p, t)
    requires At(s.states, Delayed(s)) != [] && s.value[At(s.states, Delayed(s))[0]] <= s.tick
    ensures Unblocking(WakeHead(s), p, t)
    ensures |At(WakeHead(s).states, Delayed(WakeHead(s)))| < |At(s.states, Delayed(s))|
  {
    WakeHeadKeeps(s);
    D.TailOk(View(s));
    assert View(WakeHead(s)) == View(s).(current := At(s.states, Delayed(s))[1..]);
    WakeHeadKeepsOthers(s, t);
  }

  lemma {:induction false} UnblockNear(s: Kernel, p: nat, t: TaskId)
    requires Unblocking(s, p, t)
    ensures NoLater(s, UnblockDue(s), p, t)
    decreases |At(s.states, Delayed(s))|
  {
    if At(s.states, Delayed(s)) != [] && s.value[At(s.states, Delayed(s))[0]] <= s.tick {
      WakeHeadKeepsUnblocking(s, p, t);
      WakeHeadNear(s, p, t);
      UnblockNear(WakeHead(s), p, t);
      NoLaterTwice(s, WakeHead(s), UnblockDue(s), p, t);
    } else {
      ReadyIsListed(s, p, t);
    }
  }

  /** A state in which ticks may be processed, with t ready. */
  ghost predicate Ticking(s: Kernel, p: nat, t: TaskId) {
    Base(s) && D.Ok(View(s)) && s.tick == Low(s.time, s.m) && On(s, t, ReadyList(p)) && Still(s, t)
  }

  lemma TickKeepsTicking(s: Kernel, p: nat, t: TaskId)
    requires Ticking(s, p, t)
    ensures Ticking(ProcessTick(s), p, t)
  {
    ProcessTickKeeps(s);
    TickKeepsOthers(s, t);
  }

  lemma TickNear(s: Kernel, p: nat, t: TaskId)
    requires Ticking(s, p, t)
    ensures NoLater(s, ProcessTick(s), p, t)
  {
    AdvanceTickKeeps(s);
    D.AdvanceIs(View(s));
    ReadyIsListed(s, p, t);
    if AdvanceTick(s).tick >= AdvanceTick(s).nextUnblock { UnblockNear(AdvanceTick(s), p, t); }
  }

  lemma {:induction false} TicksNear(s: Kernel, k: nat, p: nat, t: TaskId)
    requires Ticking(s, p, t)
    ensures NoLater(s, ProcessTicks(s, k), p, t)
    decreases k
  {
    if k == 0 {
      ReadyIsListed(s, p, t);
    } else {
      TickKeepsTicking(s, p, t);
      TickNear(s, p, t);
      TicksNear(ProcessTick(s), k - 1, p, t);
      NoLaterTwice(s, ProcessTick(s), ProcessTicks(s, k), p, t);
    }
  }

  lemma {:induction false} DrainNear(s: Kernel, p: nat, t: TaskId)
    requires Base(s) && On(s, t, ReadyList(p)) && Still(s, t)
    ensures NoLater(s, DrainPending(s), p, t)
    decreases |At(s.events, PendingReady)|
  {
    ReadyIsListed(s, p, t);
    if At(s.events, PendingReady) != [] {
      var u := At(s.events, PendingReady)[0];
      DrainHeadKeeps(s);
      DrainHeadKeepsOthers(s, t);
      EventHead(s, PendingReady);
      MakeReadyNear(LeaveEvent(s, u), u, p, t);
      DrainNear(DrainHead(s), p, t);
      NoLaterTwice(s, DrainHead(s), DrainPending(s), p, t);
    }
  }

  lemma DrainedNear(s: Kernel, p: nat, t: TaskId)
    requires Ticking(s, p, t)
    ensures Ticking(Drained(s), p, t) && NoLater(s, Drained(s), p, t)
  {
    DrainedKeeps(s);
    DrainKeeps(s);
    DrainKeepsOthers(s, t);
    DrainNear(s, p, t);
    ReadyIsListed(s, p, t);
  }

  lemma ResumeAllNear(s: Kernel, p: nat, t: TaskId)
    requires Inv(s) && s.suspended > 0 && On(s, t, ReadyList(p)) && Still(s, t)
    ensures NoLater(s, ResumeAll(s), p, t)
  {
    var r := s.(suspended := s.suspended - 1);
    if r.suspended > 0 {
      ReadyIsListed(s, p, t);
    } else {
      assert Ticking(r, p, t);
      DrainedNear(r, p, t);
      TicksNear(Drained(r), s.pended, p, t);
      NoLaterTwice(r, Drained(r), ProcessTicks(Drained(r), s.pended), p, t);
    }
  }

  lemma BlockNear(s: Kernel, w: WaitsFor, n: nat, indefinitely: bool, p: nat, t: TaskId)
    requires Inv(s) && CanWait(s, w, n) && t != s.current && On(s, t, ReadyList(p))
    ensures NoLater(s, BlockStep(s, w, n, indefinitely), p, t)
  {
    PrepareKeeps(s, w);
    ReadyIsListed(s, p, t);
    if !(w.Notification? && n == 0) { BlockCurrentNear(Prepare(s, w), n, indefinitely, p, t); }
  }

  lemma BlockCurrentNear(s: Kernel, n: nat, indefinitely: bool, p: nat, t: TaskId)
    requires Base(s) && CanDelay(s) && n < s.m && s.tick < s.m && t != s.current && On(s, t, ReadyList(p))
    ensures NoLater(s, BlockCurrent(s, n, indefinitely), p, t)
  {
    ReadyIsListed(s, p, t);
    if n == s.m - 1 && indefinitely {
      MoveToNear(s, s.current, SuspendedList, p, t);
    } else {
      DetachNear(s.states, s.current, ReadyList(p), t);
      BlockedListsValued(s, WrapAdd(s.tick, n, s.m));
    }
  }

  lemma WakeOrPendNear(s: Kernel, u: TaskId, p: nat, t: TaskId)
    requires Consistent(s.states) && Consistent(s.events) && On(s, t, ReadyList(p)) && u in s.prio && u != t
    ensures NoLater(s, WakeOrPend(s, u), p, t)
  {
    ReadyIsListed(s, p, t);
    MakeReadyNear(s, u, p, t);
  }

  lemma EventWakeNear(s: Kernel, e: nat, p: nat, t: TaskId)
    requires Base(s) && At(s.events, EventOf(e)) != [] && At(s.events, EventOf(e))[0] != t && On(s, t, ReadyList(p))
    ensures NoLater(s, RemoveFromEvent(s, e), p, t)
  {
    var u := At(s.events, EventOf(e))[0];
    EventHead(s, EventOf(e));
    LeaveEventKeeps(s, u);
    WakeOrPendNear(LeaveEvent(s, u), u, p, t);
  }

  lemma SuspendNear(s: Kernel, u: TaskId, p: nat, t: TaskId)
    requires Base(s) && D.Ok(View(s)) && u in s.prio && u != s.idle && u != t && On(s, t, ReadyList(p))
    ensures NoLater(s, SuspendTask(s, u), p, t)
  {
    SuspendKeeps(s, u);
    MoveToNear(LeaveEvent(s, u), u, SuspendedList, p, t);
  }

  lemma DeleteNear(s: Kernel, u: TaskId, p: nat, t: TaskId)
    requires Base(s) && D.Ok(View(s)) && u in s.prio && u != s.idle && u != t && On(s, t, ReadyList(p))
    ensures NoLater(s, DeleteTask(s, u), p, t)
  {
    LeaveEventKeeps(s, u);
    ReadyIsListed(s, p, t);
    if u == s.current {
      MoveToNear(LeaveEvent(s, u), u, TerminationList, p, t);
    } else {
      ForgetKeeps(s, u);
      DetachNear(s.states, u, ReadyList(p), t);
    }
  }

  lemma CleanUpNear(s: Kernel, p: nat, t: TaskId)
    requires Inv(s) && At(s.states, TerminationList) != [] && On(s, t, ReadyList(p))
    ensures s.count > 0 && s.deleted > 0 && NoLater(s, CleanUp(s), p, t)
  {
    CleanUpReady(s);
    HeadIsTask(s, TerminationList);
    ReadyIsListed(s, p, t);
    DetachNear(s.states, At(s.states, TerminationList)[0], ReadyList(p), t);
  }

  lemma CreateNear(s: Kernel, u: TaskId, q: nat, p: nat, t: TaskId)
    requires Base(s) && u !in s.prio && q < s.maxPriorities && On(s, t, ReadyList(p))
    ensures NoLater(s, CreateTask(s, u, q), p, t)
  {
    ReadyIsListed(s, p, t);
    AppendNear(s.states, ReadyList(q), u, ReadyList(p), t);
  }

  lemma SetPriorityNear(s: Kernel, u: TaskId, q: nat, v: Option<nat>, p: nat, t: TaskId)
    requires Base(s) && u in s.prio && u != t && On(s, t, ReadyList(p))
    ensures NoLater(s, SetPriority(s, u, q, v), p, t)
  {
    ReadyIsListed(s, p, t);
    MakeReadyNear(Reprice(s, u, q, v), u, p, t);
  }

  lemma ResumingNear(s: Kernel, u: TaskId, p: nat, t: TaskId)
    requires Base(s) && u in s.prio && u != t && On(s, t, ReadyList(p))
    ensures NoLater(s, ResumeTask(s, u), p, t) && NoLater(s, ResumeFromIsr(s, u), p, t)
  {
    ReadyIsListed(s, p, t);
    MakeReadyNear(s, u, p, t);
    WakeOrPendNear(s, u, p, t);
  }

  lemma NotifyNear(s: Kernel, u: TaskId, p: nat, t: TaskId)
    requires Base(s) && u in s.prio && (u in s.notifyWaiting ==> u != t) && On(s, t, ReadyList(p))
    ensures NoLater(s, NotifyTask(s, u), p, t) && NoLater(s, NotifyTaskFromIsr(s, u), p, t)
  {
    ReadyIsListed(s, p, t);
    if u in s.notifyWaiting {
      MakeReadyNear(s, u, p, t);
      WakeOrPendNear(s, u, p, t);
    }
  }

  lemma ManagingNear(s: Kernel, step: Step, p: nat, t: TaskId)
    requires Inv(s) && Enabled(s, step) && Manages(step) && !Names(s, step, t) && On(s, t, ReadyList(p))
    ensures NoLater(s, Next(s, step), p, t)
  {
    match step
    case Suspend(u) => SuspendNear(s, u, p, t);
    case Resume(u) => ResumingNear(s, u, p, t);
    case ResumeIsr(u) => ResumingNear(s, u, p, t);
    case Create(u, q) => CreateNear(s, u, q, p, t);
    case Delete(u) => DeleteNear(s, u, p, t);
    case CleanUpStep => CleanUpNear(s, p, t);
    case ChangePriority(u, q, v) => SetPriorityNear(s, u, q, v, p, t);
  }

  lemma WakingNear(s: Kernel, step: Step, p: nat, t: TaskId)
    requires Inv(s) && Enabled(s, step) && (step.EventWake? || step.Release? || step.Notify? || step.NotifyFromIsr?)
    requires !Names(s, step, t) && On(s, t, ReadyList(p))
    ensures NoLater(s, Next(s, step), p, t)
  {
    match step
    case EventWake(e) => EventWakeNear(s, e, p, t);
    case Release(u) => MakeReadyNear(LeaveEvent(s, u), u, p, t);
    case Notify(u) => NotifyNear(s, u, p, t);
    case NotifyFromIsr(u) => NotifyNear(s, u, p, t);
  }

  /** No step but a choice of the running task takes a ready task farther from its turn,
      whichever tasks it readies, blocks, moves, creates or deletes. */
  lemma StepIsNoLater(s: Kernel, step: Step, p: nat, t: TaskId)
    requires Inv(s) && Enabled(s, step) && !step.Reschedule? && !Names(s, step, t) && On(s, t, ReadyList(p))
    requires Still(s, t)
    ensures NoLater(s, Next(s, step), p, t)
  {
    ReadyIsListed(s, p, t);
    if Manages(step) {
      ManagingNear(s, step, p, t);
    } else if step.EventWake? || step.Release? || step.Notify? || step.NotifyFromIsr? {
      WakingNear(s, step, p, t);
    } else {
      match step
      case TickInterrupt => if s.suspended == 0 { TickNear(s, p, t); }
      case SuspendAll =>
      case ResumeAllStep => ResumeAllNear(s, p, t);
      case Block(w, n, indefinitely) => BlockNear(s, w, n, indefinitely, p, t);
      case FinishNotification =>
    }
  }

  // ------------------------------------------------------------------ choosing the running task

  /** The step chooses a task of priority p to run. */
  ghost predicate Chooses(s: Kernel, step: Step, p: nat)
    requires Inv(s) && Enabled(s, step)
  {
    && step.Reschedule? && s.suspended == 0
    && Next(s, step).current in s.prio && s.prio[Next(s, step).current] == p
  }

  /** The walk moves on by one task. */
  lemma ChoiceMovesOn(s: Kernel, p: nat)
    requires Inv(s) && Chooses(s, Reschedule, p)
    ensures var w, r := WalkOf(s.states, ReadyList(p)), Next(s, Reschedule);
            && w.Valid() && w.items != [] && WalkOf(r.states, ReadyList(p)) == NextEntry(w)
            && r.current == NextEntry(w).items[NextEntry(w).index - 1]
  {
    SelectionSucceeds(s);
    SelectsHighestPriority(s);
  }

  lemma OtherChoiceNear(s: Kernel, p: nat, t: TaskId)
    requires Inv(s) && On(s, t, ReadyList(p)) && !Chooses(s, Reschedule, p)
    ensures NoLater(s, Next(s, Reschedule), p, t)
  {
    ReadyIsListed(s, p, t);
    SelectionSucceeds(s);
    if s.suspended == 0 { SelectsHighestPriority(s); }
  }

  /** One step of the walk chooses the item or brings its turn nearer. */
  lemma NextIsNearer(w: Walk<TaskId>, t: TaskId)
    requires w.Valid() && Distinct(w.items) && t in w.items
    ensures var r := NextEntry(w);
            || r.items[r.index - 1] == t
            || (Ahead(r, t) && Ahead(w, t) && Place(r, t) - r.index < Place(w, t) - w.index)
            || (Ahead(r, t) && !Ahead(w, t) && w.index == |w.items|)
            || (!Ahead(r, t) && !Ahead(w, t) && |r.items| - r.index < |w.items| - w.index)
  {
  }

  // ------------------------------------------------------------------ nobody starves

  /** No step of the run takes task t by name. */
  ghost predicate LeftAlone(s: Kernel, steps: seq<Step>, s': Kernel, t: TaskId)
    requires Inv(s) && Run(s, steps, s')
    decreases |steps|
  {
    steps == [] || (
      && !Names(s, steps[0], t)
      && (StepKeepsInv(s, steps[0]); LeftAlone(Next(s, steps[0]), steps[1..], s', t)))
  }

  /** How often a run chooses a task of priority p. */
  ghost function Choices(s: Kernel, steps: seq<Step>, s': Kernel, p: nat): nat
    requires Inv(s) && Run(s, steps, s')
    decreases |steps|
  {
    if steps == [] then 0
    else
      StepKeepsInv(s, steps[0]);
      (if Chooses(s, steps[0], p) then 1 else 0) + Choices(Next(s, steps[0]), steps[1..], s', p)
  }

  /** Somewhere on the run task t is chosen to run. */
  ghost predicate Chosen(s: Kernel, steps: seq<Step>, s': Kernel, t: TaskId)
    requires Inv(s) && Run(s, steps, s')
    decreases |steps|
  {
    steps != [] && (
      || (steps[0].Reschedule? && s.suspended == 0 && Next(s, steps[0]).current == t)
      || (StepKeepsInv(s, steps[0]); Chosen(Next(s, steps[0]), steps[1..], s', t)))
  }

  /** Ready at priority p, and neither pending nor due to be moved by a tick. */
  ghost predicate Waiting(s: Kernel, p: nat, t: TaskId) {
    Inv(s) && On(s, t, ReadyList(p)) && Still(s, t)
  }

  lemma StepKeepsWaiting(s: Kernel, step: Step, p: nat, t: TaskId)
    requires Waiting(s, p, t) && Enabled(s, step) && !Names(s, step, t)
    ensures Waiting(Next(s, step), p, t) && t in At(s.states, ReadyList(p))
  {
    StepKeepsInv(s, step);
    StepKeepsOthers(s, step, t);
    ReadyIsListed(s, p, t);
  }

  /** A choice among the tasks of priority p brings the turn of t, any other step does not
      take it farther away. */
  lemma StepIsNearer(s: Kernel, step: Step, p: nat, t: TaskId)
    requires Waiting(s, p, t) && Enabled(s, step) && !Names(s, step, t)
    ensures var w, r := WalkOf(s.states, ReadyList(p)), WalkOf(Next(s, step).states, ReadyList(p));
            && w.Valid() && t in w.items
            && if !Chooses(s, step, p) then NoFarther(w, r, t)
               else Distinct(w.items) && r == NextEntry(w) && Next(s, step).current == r.items[r.index - 1]
  {
    ReadyIsListed(s, p, t);
    assert ListWellFormed(s.states, ReadyList(p));
    if !step.Reschedule? {
      StepIsNoLater(s, step, p, t);
    } else if Chooses(s, step, p) {
      ChoiceMovesOn(s, p);
    } else {
      OtherChoiceNear(s, p, t);
    }
  }

  /** Once the walk has yet to come to t in this round, t is chosen after as many choices as
      it stands places ahead. */
  lemma {:induction false} AheadIsChosen(s: Kernel, steps: seq<Step>, s': Kernel, p: nat, t: TaskId)
    requires Waiting(s, p, t) && Run(s, steps, s') && LeftAlone(s, steps, s', t)
    requires t in At(s.states, ReadyList(p)) && Ahead(WalkOf(s.states, ReadyList(p)), t)
    requires Choices(s, steps, s', p) >=
               Place(WalkOf(s.states, ReadyList(p)), t) - WalkOf(s.states, ReadyList(p)).index
    ensures Chosen(s, steps, s', t)
    decreases |steps|
  {
    if steps != [] {
      var r := Next(s, steps[0]);
      StepKeepsWaiting(s, steps[0], p, t);
      StepIsNearer(s, steps[0], p, t);
      ReadyIsListed(r, p, t);
      if Chooses(s, steps[0], p) { NextIsNearer(WalkOf(s.states, ReadyList(p)), t); }
      if !(Chooses(s, steps[0], p) && r.current == t) { AheadIsChosen(r, steps[1..], s', p, t); }
    }
  }

  /** Until it is chosen, the walk stays ahead. */
  lemma {:induction false} StaysAhead(s: Kernel, steps: seq<Step>, s': Kernel, p: nat, t: TaskId)
    requires Waiting(s, p, t) && Run(s, steps, s') && LeftAlone(s, steps, s', t)
    requires t in At(s.states, ReadyList(p)) && Ahead(WalkOf(s.states, ReadyList(p)), t)
    ensures Waiting(s', p, t) && t in At(s'.states, ReadyList(p))
    ensures Chosen(s, steps, s', t) || Ahead(WalkOf(s'.states, ReadyList(p)), t)
    decreases |steps|
  {
    if steps != [] {
      var r := Next(s, steps[0]);
      StepKeepsWaiting(s, steps[0], p, t);
      StepIsNearer(s, steps[0], p, t);
      ReadyIsListed(r, p, t);
      if Chooses(s, steps[0], p) { NextIsNearer(WalkOf(s.states, ReadyList(p)), t); }
      if Chooses(s, steps[0], p) && r.current == t {
        RunKeepsWaiting(r, steps[1..], s', p, t);
      } else {
        StaysAhead(r, steps[1..], s', p, t);
      }
    }
  }

  lemma {:induction false} RunKeepsWaiting(s: Kernel, steps: seq<Step>, s': Kernel, p: nat, t: TaskId)
    requires Waiting(s, p, t) && Run(s, steps, s') && LeftAlone(s, steps, s', t)
    ensures Waiting(s', p, t) && t in At(s'.states, ReadyList(p))
    decreases |steps|
  {
    ReadyIsListed(s, p, t);
    if steps != [] {
      StepKeepsWaiting(s, steps[0], p, t);
      RunKeepsWaiting(Next(s, steps[0]), steps[1..], s', p, t);
    }
  }

  /** When the walk is past t, one choice more than there are items behind the index takes it
      into its next round. */
  lemma {:induction false} ComesAhead(s: Kernel, steps: seq<Step>, s': Kernel, p: nat, t: TaskId)
    requires Waiting(s, p, t) && Run(s, steps, s') && LeftAlone(s, steps, s', t)
    requires t in At(s.states, ReadyList(p)) && !Ahead(WalkOf(s.states, ReadyList(p)), t)
    requires Choices(s, steps, s', p) > |At(s.states, ReadyList(p))| - WalkOf(s.states, ReadyList(p)).index
    ensures Waiting(s', p, t) && t in At(s'.states, ReadyList(p))
    ensures Chosen(s, steps, s', t) || Ahead(WalkOf(s'.states, ReadyList(p)), t)
    decreases |steps|
  {
    RunKeepsWaiting(s, steps, s', p, t);
    ReadyIsListed(s, p, t);
    if steps != [] {
      var r := Next(s, steps[0]);
      StepKeepsWaiting(s, steps[0], p, t);
      StepIsNearer(s, steps[0], p, t);
      ReadyIsListed(r, p, t);
      if Chooses(s, steps[0], p) { NextIsNearer(WalkOf(s.states, ReadyList(p)), t); }
      if !(Chooses(s, steps[0], p) && r.current == t) {
        if Ahead(WalkOf(r.states, ReadyList(p)), t) {
          StaysAhead(r, steps[1..], s', p, t);
        } else {
          ComesAhead(r, steps[1..], s', p, t);
        }
      }
    }
  }

  /** No ready task starves, whatever tasks are readied, blocked, created or deleted
      meanwhile: when the scheduler has chosen among the tasks of its priority as often as its
      list was long, and then again as often as the list is long by then, the task has run. */
  lemma NoReadyTaskStarves(s: Kernel, steps: seq<Step>, s1: Kernel, more: seq<Step>, s2: Kernel, p: nat, t: TaskId)
    requires Waiting(s, p, t) && Run(s, steps, s1) && LeftAlone(s, steps, s1, t)
    requires Inv(s1) && Run(s1, more, s2) && LeftAlone(s1, more, s2, t)
    requires Choices(s, steps, s1, p) >= |At(s.states, ReadyList(p))|
    requires Choices(s1, more, s2, p) >= |At(s1.states, ReadyList(p))|
    ensures Chosen(s, steps, s1, t) || Chosen(s1, more, s2, t)
  {
    ReadyIsListed(s, p, t);
    if Ahead(WalkOf(s.states, ReadyList(p)), t) {
      AheadIsChosen(s, steps, s1, p, t);
    } else {
      ComesAhead(s, steps, s1, p, t);
      if !Chosen(s, steps, s1, t) { AheadIsChosen(s1, more, s2, p, t); }
    }
  }

  /** A task the walk has yet to come to in this round needs only one: it is chosen within as
      many choices as its list is long. */
  lemma ChosenWithinListLength(s: Kernel, steps: seq<Step>, s': Kernel, p: nat, t: TaskId)
    requires Waiting(s, p, t) && Run(s, steps, s') && LeftAlone(s, steps, s', t)
    requires t in At(s.states, ReadyList(p)) && Ahead(WalkOf(s.states, ReadyList(p)), t)
    requires Choices(s, steps, s', p) >= |At(s.states, ReadyList(p))|
    ensures Chosen(s, steps, s', t)
  {
    AheadIsChosen(s, steps, s', p, t);
  }

  // ------------------------------------------------------------------ one round

  /** How many next-entry steps away the item is. */
  ghost function Turn(w: Walk<TaskId>, t: TaskId): (k: int)
    requires t in w.items
  {
    if Ahead(w, t) then Place(w, t) - w.index else Place(w, t) - w.index + |w.items|
  }

  lemma TurnIsVisited(w: Walk<TaskId>, t: TaskId)
    requires w.Valid() && t in w.items
    ensures 0 < Turn(w, t) <= |w.items| && Visited(w, Turn(w, t)) == t
  {
    NextByIs(w, Turn(w, t));
  }

  /** The item is not the one visited last. */
  ghost predicate NotLast(w: Walk<TaskId>, t: TaskId) {
    w.Valid() && Distinct(w.items) && t in w.items && w.index != Place(w, t)
  }

  lemma JoiningKeepsTurn(w: Walk<TaskId>, x: TaskId, t: TaskId)
    requires NotLast(w, t) && x !in w.items
    ensures NotLast(InsertEnd(w, x), t) && Turn(InsertEnd(w, x), t) == Turn(w, t)
  {
    InsertEndMembers(w, x);
    var r, p := InsertEnd(w, x), IndexOf(w.items, t);
    PlaceIs(r, t, if w.index == 0 || p < w.index - 1 then p else p + 1);
  }

  lemma NextBringsTurn(w: Walk<TaskId>, t: TaskId)
    requires NotLast(w, t)
    ensures var r := NextEntry(w);
            if r.items[r.index - 1] == t then Turn(w, t) == 1 else NotLast(r, t) && Turn(r, t) == Turn(w, t) - 1
  {
    PlaceIs(w, NextEntry(w).items[NextEntry(w).index - 1], NextEntry(w).index - 1);
  }

  /** A task that is not ready is made ready, or a task is chosen to run. */
  datatype Move = Readied(u: TaskId) | Switched

  ghost predicate CanMove(s: Kernel, move: Move, p: nat) {
    match move
    case Readied(u) => Inv(s) && Live(s, u) && !IsReady(s, u)
    case Switched => Inv(s) && Chooses(s, Reschedule, p)
  }

  ghost function Moved(s: Kernel, move: Move, p: nat): Kernel
    requires CanMove(s, move, p)
  {
    match move
    case Readied(u) => MakeReady(s, u)
    case Switched => SwitchContext(s)
  }

  /** The choices go round the tasks of priority p; the tasks readied may have any priority up
      to p. */
  ghost predicate Round(s: Kernel, moves: seq<Move>, p: nat, s': Kernel)
    decreases |moves|
  {
    if moves == [] then s' == s
    else CanMove(s, moves[0], p) && Round(Moved(s, moves[0], p), moves[1..], p, s')
  }

  function Switches(moves: seq<Move>): nat {
    if moves == [] then 0 else (if moves[0].Switched? then 1 else 0) + Switches(moves[1..])
  }

  /** Somewhere on the round task t is chosen to run. */
  ghost predicate GetsTurn(s: Kernel, moves: seq<Move>, p: nat, s': Kernel, t: TaskId)
    requires Round(s, moves, p, s')
    decreases |moves|
  {
    moves != [] && (
      || (moves[0].Switched? && SwitchContext(s).current == t)
      || GetsTurn(Moved(s, moves[0], p), moves[1..], p, s', t))
  }

  lemma ReadiedKeepsTurn(s: Kernel, u: TaskId, p: nat, t: TaskId)
    requires CanMove(s, Readied(u), p) && NotLast(WalkOf(s.states, ReadyList(p)), t)
    ensures NotLast(WalkOf(MakeReady(s, u).states, ReadyList(p)), t)
    ensures Turn(WalkOf(MakeReady(s, u).states, ReadyList(p)), t) == Turn(WalkOf(s.states, ReadyList(p)), t)
  {
    DetachFacts(s.states, u);
    assert ListWellFormed(s.states, ReadyList(p));
    assert WalkOf(Detach(s.states, u), ReadyList(p)) == WalkOf(s.states, ReadyList(p));
    if s.prio[u] == p { JoiningKeepsTurn(WalkOf(s.states, ReadyList(p)), u, t); }
  }

  lemma SwitchedBringsTurn(s: Kernel, p: nat, t: TaskId)
    requires CanMove(s, Switched, p) && NotLast(WalkOf(s.states, ReadyList(p)), t)
    ensures var w, r := WalkOf(s.states, ReadyList(p)), WalkOf(SwitchContext(s).states, ReadyList(p));
            if SwitchContext(s).current == t then Turn(w, t) == 1
            else NotLast(r, t) && Turn(r, t) == Turn(w, t) - 1
  {
    ChoiceMovesOn(s, p);
    NextBringsTurn(WalkOf(s.states, ReadyList(p)), t);
  }

  /** One round is enough while no task leaves the list: a ready task that is not the one
      chosen last is chosen within as many choices as its list is long now, in its turn,
      whoever is readied meanwhile. */
  lemma {:induction false} EveryTaskGetsItsTurn(s: Kernel, moves: seq<Move>, p: nat, s': Kernel, t: TaskId)
    requires Round(s, moves, p, s') && NotLast(WalkOf(s.states, ReadyList(p)), t)
    requires Switches(moves) >= Turn(WalkOf(s.states, ReadyList(p)), t)
    ensures Turn(WalkOf(s.states, ReadyList(p)), t) <= |At(s.states, ReadyList(p))|
    ensures GetsTurn(s, moves, p, s', t)
    decreases |moves|
  {
    TurnIsVisited(WalkOf(s.states, ReadyList(p)), t);
    if moves[0].Switched? {
      SwitchedBringsTurn(s, p, t);
      if SwitchContext(s).current != t { EveryTaskGetsItsTurn(SwitchContext(s), moves[1..], p, s', t); }
    } else {
      ReadiedKeepsTurn(s, moves[0].u, p, t);
      EveryTaskGetsItsTurn(MakeReady(s, moves[0].u), moves[1..], p, s', t);
    }
  }

  /** When the running task leaves its list it is not: the index falls back onto the task before
      it, here A, the next in turn, and a task readied before the next choice overtakes A. */
  lemma NewcomerOvertakes(a: TaskId, b: TaskId, c: TaskId)
    requires a != b && b != c && a != c
    ensures var running := Walk([a, b], 2);
            && Visited(running, 1) == a
            && Visited(InsertEnd(Unlink(running, 1), c), 1) == c
  {
    var running := Walk([a, b], 2);
    NextByIs(running, 1);
    NextByIs(InsertEnd(Unlink(running, 1), c), 1);
  }
}
