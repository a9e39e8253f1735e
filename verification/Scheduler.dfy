/** The scheduler's variables and functions (tasks.c) as they are: module state changed in
    place, with the loops of the tick, of resuming and of task selection.  Each function is
    proved to do what modules Kernel and KernelRuns specify. */
module Scheduler {
  import opened Common
  import opened Lists
  import opened TaskLists
  import opened Ticks
  import opened Kernel
  import opened KernelRuns
  import D = Delays

  class TaskScheduler {
    const m: nat
    const maxPriorities: nat
    const idle: TaskId
    var tick: nat                       // xTickCount
    var pended: nat                     // uxPendedTicks
    var suspended: nat                  // uxSchedulerSuspended
    var yieldPending: bool              // xYieldPending
    var nextUnblock: nat                // xNextTaskUnblockTime
    var second: bool                    // pxDelayedTaskList is &xDelayedTaskList2
    var states: Family<ListId>
    var events: Family<EventList>
    var value: map<TaskId, nat>
    var eventValue: map<TaskId, nat>
    var prio: map<TaskId, nat>
    var current: TaskId                 // pxCurrentTCB
    var top: nat                        // uxTopReadyPriority
    var count: nat                      // uxCurrentNumberOfTasks
    var deleted: nat                    // uxDeletedTasksWaitingCleanUp
    var notifyWaiting: set<TaskId>      // ucNotifyState is taskWAITING_NOTIFICATION
    var base: map<TaskId, nat>          // uxBasePriority
    ghost var time: nat
    ghost var received: nat
    ghost var deadline: map<TaskId, nat>

    constructor (m: nat, maxPriorities: nat, idle: TaskId)
      requires m > 1 && maxPriorities > 0
      ensures Initial(State()) && Inv(State()) && current == idle && !yieldPending
      ensures this.m == m && this.maxPriorities == maxPriorities && this.idle == idle && prio == base == map[idle := 0]
    {
      this.m, this.maxPriorities, this.idle := m, maxPriorities, idle;
      tick, pended, suspended, yieldPending, nextUnblock, second := 0, 0, 0, false, m - 1, false;
      states := Family(map[ReadyList(0) := Walk([idle], 0)], map[idle := ReadyList(0)]);
      events := Family(map[], map[]);
      value, eventValue, prio := map[], map[idle := maxPriorities], map[idle := 0];
      current, top, count, deleted, notifyWaiting, base := idle, 0, 1, 0, {}, map[idle := 0];
      time, received, deadline := 0, 0, map[];
      new;
      forall k ensures ListWellFormed(states, k) {}
      forall k ensures ListWellFormed(events, k) {}
      InitialInv(State());
    }

    ghost function State(): Kernel
      reads this
    {
      Kernel(m, maxPriorities, tick, time, received, pended, suspended, nextUnblock, second, states, events,
             value, eventValue, deadline, prio, current, idle, top, count, deleted, notifyWaiting)
    }

    /** `prvAddTaskToReadyList` after `uxListRemove` of the state item. */
    method AddTaskToReadyList(t: TaskId)
      requires Consistent(states) && t in prio
      modifies this`states, this`top
      ensures State() == MakeReady(old(State()), t)
    {
      DetachFacts(states, t);
      states := Detach(states, t);
      if prio[t] > top { top := prio[t]; }
      states := Append(states, ReadyList(prio[t]), t);
    }

    /** `prvResetNextTaskUnblockTime`. */
    method ResetNextTaskUnblockTime()
      requires Valued(At(states, Delayed(State())), value) && m > 0
      modifies this`nextUnblock
      ensures State() == ResetUnblock(old(State()))
    {
      var list := At(states, DelayedList(second));
      nextUnblock := if list == [] then m - 1 else value[list[0]];
    }

    /** The head of the delayed list is unblocked. */
    method UnblockHead() returns (urgent: bool)
      requires Base(State()) && At(states, DelayedList(second)) != [] && current in prio
      modifies this`states, this`events, this`top
      ensures State() == WakeHead(old(State()))
      ensures urgent <==> Urgent(old(State()))
    {
      HeadIsTask(State(), DelayedList(second));
      var t := At(states, DelayedList(second))[0];
      LeaveEventKeeps(State(), t);
      events := Detach(events, t);
      AddTaskToReadyList(t);
      urgent := prio[t] >= prio[current];
    }

    /** The loop of `xTaskIncrementTick`: both its exits leave the next unblock time at the
        head of the list. */
    method UnblockDelayed() returns (switchRequired: bool)
      requires Base(State()) && D.Advanced(View(State())) && tick == Low(time, m) && current in prio
      modifies this`states, this`events, this`top, this`nextUnblock
      ensures State() == UnblockDue(old(State()))
      ensures switchRequired <==> Readied(old(states), states, prio, prio[current])
    {
      switchRequired := false;
      ghost var first, s := State(), State();
      ghost var last := UnblockDue(first);
      while HeadIsDue()
        invariant State() == s && Base(s) && D.Advanced(View(s)) && s.current in s.prio
        invariant UnblockDue(s) == last && OnlyReadied(first, s)
        invariant switchRequired <==> Readied(first.states, s.states, s.prio, s.prio[s.current])
        decreases |At(states, DelayedList(second))|
      {
        RoundOfUnblocking(first, s);
        var urgent := UnblockHead();
        s := WakeHead(s);
        if urgent { switchRequired := true; }
      }
      ResetNextTaskUnblockTime();
    }

    predicate HeadIsDue()
      requires Valued(At(states, DelayedList(second)), value)
      reads this
    {
      At(states, DelayedList(second)) != [] && value[At(states, DelayedList(second))[0]] <= tick
    }

    /** The increment of `xTaskIncrementTick` and, at the wrap, `taskSWITCH_DELAYED_LISTS`. */
    method AdvanceClock()
      requires m > 1 && tick < m && Valued(At(states, DelayedList(!second)), value)
      modifies this`tick, this`time, this`second, this`nextUnblock
      ensures State() == AdvanceTick(old(State()))
    {
      tick, time := WrapAdd(tick, 1, m), time + 1;
      if tick == 0 {
        second := !second;
        ResetNextTaskUnblockTime();
      }
    }

    /** `xTaskIncrementTick` while the scheduler is not suspended. */
    method ProcessOneTick() returns (switchRequired: bool)
      requires Base(State()) && D.Ok(View(State())) && tick == Low(time, m) && current in prio
      modifies this`tick, this`time, this`second, this`nextUnblock, this`states, this`events, this`top
      ensures State() == ProcessTick(old(State()))
      ensures switchRequired <==> Readied(old(states), states, prio, prio[current])
    {
      AdvanceReady(State());
      AdvanceClock();
      switchRequired := false;
      if tick >= nextUnblock { switchRequired := UnblockDelayed(); }
    }

    /** The tick and the time slice of a running scheduler. */
    method TickOrSlice() returns (switchRequired: bool)
      requires CanTick(State())
      modifies this`tick, this`time, this`second, this`nextUnblock, this`states, this`events, this`top
      ensures State() == ProcessTick(old(State()))
      ensures switchRequired <==> AsksSwitch(old(State()), State())
    {
      switchRequired := ProcessOneTick();
      if |At(states, ReadyList(prio[current]))| > 1 { switchRequired := true; }
    }

    method PendTick()
      modifies this`pended
      ensures State() == old(State()).(pended := old(pended) + 1)
    {
      pended := pended + 1;
    }

    ghost method CountInterrupt()
      modifies this`received
      ensures State() == old(State()).(received := old(received) + 1)
    {
      received := received + 1;
    }

    /** `xTaskIncrementTick`: a switch is asked for exactly when a task of at least the
        running task's priority was readied, another task shares that priority (time
        slicing), or a yield is pending. */
    method IncrementTick() returns (switchRequired: bool)
      requires CanTick(State())
      modifies this`tick, this`time, this`received, this`pended, this`second, this`nextUnblock, this`states,
        this`events, this`top
      ensures State() == TickStep(old(State()))
      ensures switchRequired <==> yieldPending || (suspended == 0 && AsksSwitch(old(State()), State()))
    {
      ghost var s := State();
      switchRequired := TickOrPend();
      ghost var r := State();
      CountInterrupt();
      Counted(s, r);
      if yieldPending { switchRequired := true; }
    }

    method TickOrPend() returns (switchRequired: bool)
      requires CanTick(State())
      modifies this`tick, this`time, this`pended, this`second, this`nextUnblock, this`states, this`events, this`top
      ensures State() == if suspended > 0 then old(State()).(pended := old(pended) + 1) else ProcessTick(old(State()))
      ensures switchRequired <==> suspended == 0 && AsksSwitch(old(State()), State())
    {
      switchRequired := false;
      if suspended == 0 { switchRequired := TickOrSlice(); } else { PendTick(); }
    }

    /** The first pending task is readied. */
    method ReadyPendingHead()
      requires Base(State()) && At(events, PendingReady) != [] && current in prio
      modifies this`states, this`events, this`top, this`yieldPending
      ensures State() == DrainHead(old(State()))
      ensures yieldPending <==> old(yieldPending) || HeadIsUrgent(old(State()))
    {
      EventHead(State(), PendingReady);
      var t := At(events, PendingReady)[0];
      LeaveEventKeeps(State(), t);
      events := Detach(events, t);
      AddTaskToReadyList(t);
      if prio[t] >= prio[current] { yieldPending := true; }
    }

    /** The loop of `xTaskResumeAll` over the pending ready list; a yield is left pending
        exactly for a task of at least the running task's priority. */
    method ReadyPending()
      requires Base(State()) && current in prio
      modifies this`states, this`events, this`top, this`yieldPending
      ensures State() == DrainPending(old(State()))
      ensures yieldPending <==> old(yieldPending) || UrgentPending(old(State()))
    {
      ghost var first, s := State(), State();
      ghost var last := DrainPending(first);
      while At(events, PendingReady) != []
        invariant State() == s && Base(s) && s.current in s.prio && DrainPending(s) == last
        invariant yieldPending || UrgentPending(s) <==> old(yieldPending) || UrgentPending(first)
        decreases |At(s.events, PendingReady)|
      {
        RoundOfDraining(s);
        UrgentIsHeadOrLater(s);
        ReadyPendingHead();
        s := State();
      }
      NobodyPending(s);
    }

    method PendYield()
      modifies this`yieldPending
      ensures yieldPending && State() == old(State())
    {
      yieldPending := true;
    }

    /** One of the pended ticks; a switch it asks for is left pending. */
    method CatchUpOne()
      requires CanTick(State())
      modifies this`tick, this`time, this`second, this`nextUnblock, this`states, this`events, this`top,
        this`yieldPending
      ensures State() == ProcessTick(old(State()))
      ensures yieldPending <==> old(yieldPending) || AsksSwitch(old(State()), State())
    {
      var switchRequired := TickOrSlice();
      if switchRequired { PendYield(); }
    }

    /** The `do` loop of `xTaskResumeAll` over the pended ticks; `path` holds the states it
        goes through. */
    method CatchUp(ticks: nat, ghost path: seq<Kernel>)
      requires |path| == ticks + 1 && State() == path[0]
      requires IsTickPath(path)
      modifies this`tick, this`time, this`second, this`nextUnblock, this`states, this`events, this`top,
        this`yieldPending
      ensures State() == path[ticks]
      ensures yieldPending <==> old(yieldPending) || Asked(path, ticks)
    {
      var left: nat := ticks;
      ghost var n: nat := 0;
      while left > 0
        invariant left + n == ticks && State() == path[n]
        invariant yieldPending <==> old(yieldPending) || Asked(path, n)
      {
        NextOnPath(path, n);
        AskedOnceMore(path, n);
        CatchUpOne();
        left, n := left - 1, n + 1;
      }
    }

    /** The pending tasks readied and the next unblock time reset. */
    method ReadyAllPending()
      requires CanTick(State())
      modifies this`states, this`events, this`top, this`nextUnblock, this`yieldPending
      ensures State() == Drained(old(State()))
      ensures yieldPending <==> old(yieldPending) || UrgentPending(old(State()))
    {
      DrainedReady(State());
      if At(events, PendingReady) == [] { NobodyPending(State()); }
      if At(events, PendingReady) != [] {
        ReadyPending();
        ResetNextTaskUnblockTime();
      }
    }

    method ForgetPended()
      modifies this`pended
      ensures State() == old(State()).(pended := 0)
    {
      pended := 0;
    }

    /** What `xTaskResumeAll` does once the scheduler runs again. */
    method RunAgain()
      requires CanTick(State())
      modifies this`tick, this`time, this`second, this`nextUnblock, this`states, this`events, this`top,
        this`yieldPending, this`pended
      ensures State() == CaughtUp(old(State()))
      ensures yieldPending <==> old(yieldPending) || YieldsOnRun(old(State()))
    {
      ghost var s := State();
      ghost var path := CatchUpPath(s);
      PathAsks(path, s.pended);
      ReadyAllPending();
      CatchUp(pended, path);
      ForgetPended();
    }

    method ReleaseScheduler()
      requires suspended > 0
      modifies this`suspended
      ensures State() == old(State()).(suspended := old(suspended) - 1)
    {
      suspended := suspended - 1;
    }

    /** `xTaskResumeAll`: when the scheduler runs again it yields exactly if a yield was
        pending, a pending task of at least the running task's priority was readied, or a
        tick caught up asked for a switch. */
    method ResumeScheduler() returns (alreadyYielded: bool)
      requires Inv(State()) && suspended > 0 && current in prio
      modifies this`suspended, this`tick, this`time, this`second, this`nextUnblock, this`states, this`events, this`top,
        this`yieldPending, this`pended
      ensures State() == ResumeAll(old(State()))
      ensures alreadyYielded <==> suspended == 0 && yieldPending
      ensures yieldPending <==> old(yieldPending) || (suspended == 0 && YieldsOnRun(Unsuspended(old(State()))))
    {
      ghost var s := State();
      ResumeIs(s);
      ReleaseScheduler();
      assert State() == s.(suspended := s.suspended - 1);
      alreadyYielded := false;
      if suspended == 0 {
        assert State() == Unsuspended(s);
        RunAgain();
        alreadyYielded := yieldPending;
      }
    }

    /** The move into the delayed list the wake time belongs to. */
    method DelayUntil(wake: nat, ticks: nat)
      requires Consistent(states) && Consistent(Detach(states, current))
      requires Valued(At(Detach(states, current), DelayedList(!second)), value[current := wake])
      requires Valued(At(Detach(states, current), DelayedList(second)), value[current := wake])
      modifies this`states, this`value, this`deadline, this`nextUnblock
      ensures value == old(value)[current := wake] && deadline == old(deadline)[current := time + ticks]
      ensures wake < tick ==>
                states == InsertByValue(Detach(old(states), current), DelayedList(!second), value, current)
                  && nextUnblock == old(nextUnblock)
      ensures wake >= tick ==>
                states == InsertByValue(Detach(old(states), current), DelayedList(second), value, current)
                && nextUnblock == if wake < old(nextUnblock) then wake else old(nextUnblock)
    {
      states := Detach(states, current);
      value, deadline := value[current := wake], deadline[current := time + ticks];
      if wake < tick {
        states := InsertByValue(states, DelayedList(!second), value, current);
      } else {
        states := InsertByValue(states, DelayedList(second), value, current);
        if wake < nextUnblock { nextUnblock := wake; }
      }
    }

    /** The state item to the end of the suspended list. */
    method SuspendCurrent()
      requires Consistent(states) && Consistent(Detach(states, current))
      modifies this`states
      ensures State() == MoveTo(old(State()), current, SuspendedList)
    {
      states := Append(Detach(states, current), SuspendedList, current);
    }

    /** `prvAddCurrentTaskToDelayedList`. */
    method AddCurrentTaskToDelayedList(ticks: nat, canBlockIndefinitely: bool)
      requires CanDelay(State()) && ticks < m && tick < m
      modifies this`states, this`value, this`deadline, this`nextUnblock
      ensures State() == BlockCurrent(old(State()), ticks, canBlockIndefinitely)
    {
      ghost var s := State();
      var wake := WrapAdd(tick, ticks, m);
      BlockReady(s, wake);
      if ticks == m - 1 && canBlockIndefinitely {
        SuspendCurrent();
        BlocksForever(s, State());
      } else {
        DelayUntil(wake, ticks);
        BlocksUntil(s, State(), wake, ticks, canBlockIndefinitely);
      }
    }

    /** A woken task whose event item is free: ready, or pending while the scheduler is
        suspended. */
    method ReadyOrPend(t: TaskId)
      requires Base(State()) && t in prio && t !in events.container
      modifies this`states, this`events, this`top
      ensures State() == WakeOrPend(old(State()), t)
    {
      if suspended == 0 { AddTaskToReadyList(t); } else { events := Append(events, PendingReady, t); }
    }

    /** `xTaskRemoveFromEventList`. */
    method RemoveFromEventList(e: nat) returns (higherPriorityWoken: bool)
      requires Base(State()) && At(events, EventOf(e)) != [] && current in prio
      modifies this`states, this`events, this`top, this`yieldPending
      ensures State() == RemoveFromEvent(old(State()), e)
      ensures higherPriorityWoken <==>
              At(old(events), EventOf(e))[0] in prio && prio[current] < prio[At(old(events), EventOf(e))[0]]
      ensures yieldPending == (old(yieldPending) || higherPriorityWoken)
    {
      WokenByEvent(State(), e);
      var t := At(events, EventOf(e))[0];
      LeaveEventList(t);
      ReadyOrPend(t);
      higherPriorityWoken := prio[t] > prio[current];
      if higherPriorityWoken { yieldPending := true; }
    }

    /** The event item off whatever list it is on. */
    method LeaveEventList(t: TaskId)
      requires Consistent(events)
      modifies this`events
      ensures State() == LeaveEvent(old(State()), t)
    {
      events := Detach(events, t);
    }

    /** The state item from whatever list it is on to the end of list k. */
    method MoveStateItem(t: TaskId, k: ListId)
      requires Consistent(states) && Consistent(Detach(states, t))
      modifies this`states
      ensures State() == MoveTo(old(State()), t, k)
    {
      states := Append(Detach(states, t), k, t);
    }

    /** `vTaskRemoveFromUnorderedEventList`. */
    method RemoveFromUnorderedEventList(t: TaskId)
      requires Base(State()) && t in prio && current in prio
      modifies this`states, this`events, this`top, this`yieldPending
      ensures State() == ReleaseWaiter(old(State()), t)
      ensures yieldPending == (old(yieldPending) || prio[t] > prio[current])
    {
      LeaveEventKeeps(State(), t);
      LeaveEventList(t);
      AddTaskToReadyList(t);
      if prio[t] > prio[current] { yieldPending := true; }
    }

    method StopWaiting(t: TaskId)
      modifies this`notifyWaiting
      ensures State() == old(State()).(notifyWaiting := old(notifyWaiting) - {t})
    {
      notifyWaiting := notifyWaiting - {t};
    }

    /** `xTaskGenericNotify`; a yield is asked for when the woken task is more urgent. */
    method Notify(t: TaskId) returns (urgent: bool)
      requires Base(State()) && t in prio && current in prio
      modifies this`states, this`top, this`notifyWaiting
      ensures State() == NotifyTask(old(State()), t)
      ensures urgent <==> t in old(notifyWaiting) && prio[t] > prio[current]
    {
      urgent := false;
      if t in notifyWaiting {
        AddTaskToReadyList(t);
        StopWaiting(t);
        urgent := prio[t] > prio[current];
      }
    }

    /** `xTaskGenericNotifyFromISR` and `vTaskNotifyGiveFromISR`. */
    method NotifyFromInterrupt(t: TaskId) returns (urgent: bool)
      requires Base(State()) && t in prio && current in prio && (t in notifyWaiting ==> t !in events.container)
      modifies this`states, this`events, this`top, this`notifyWaiting, this`yieldPending
      ensures State() == NotifyTaskFromIsr(old(State()), t)
      ensures urgent <==> t in old(notifyWaiting) && prio[t] > prio[current]
      ensures yieldPending == (old(yieldPending) || urgent)
    {
      urgent := false;
      if t in notifyWaiting {
        ReadyOrPend(t);
        StopWaiting(t);
        urgent := prio[t] > prio[current];
      }
      if urgent { yieldPending := true; }
    }

    /** `vTaskSuspend` up to the yield. */
    method Suspend(t: TaskId)
      requires Base(State()) && D.Ok(View(State())) && t in prio && t != idle
      modifies this`states, this`events, this`nextUnblock, this`notifyWaiting
      ensures State() == SuspendTask(old(State()), t)
    {
      SuspendKeeps(State(), t);
      DetachFacts(states, t);
      LeaveEventList(t);
      MoveStateItem(t, SuspendedList);
      ResetNextTaskUnblockTime();
      StopWaiting(t);
    }

    /** `vTaskResume`; a yield is asked for when the task is at least as urgent. */
    method Resume(t: TaskId) returns (urgent: bool)
      requires Base(State()) && current in prio && t in prio
      modifies this`states, this`top
      ensures State() == ResumeTask(old(State()), t)
      ensures urgent <==> t != current && IsSuspended(old(State()), t) && prio[t] >= prio[current]
    {
      urgent := false;
      if t != current && t in states.container && states.container[t] == SuspendedList && t !in events.container {
        AddTaskToReadyList(t);
        urgent := prio[t] >= prio[current];
      }
    }

    /** The move to another ready list that `vTaskPrioritySet`, `xTaskPriorityInherit` and
        the disinherit functions make. */
    method SetTaskPriority(t: TaskId, p: nat, itemValue: Option<nat>)
      requires Base(State()) && t in prio && p < maxPriorities
      modifies this`states, this`prio, this`eventValue, this`top
      ensures State() == SetPriority(old(State()), t, p, itemValue)
    {
      var before := prio[t];
      prio := prio[t := p];
      if itemValue.Some? { eventValue := eventValue[t := itemValue.value]; }
      if t in states.container && states.container[t] == ReadyList(before) {
        AddTaskToReadyList(t);
      }
    }

    /** `vTaskPrioritySet`: the base priority always changes, the priority in use only if it
        was not inherited; a ready task goes to the end of its list in either case.  A yield
        is asked for when another task is raised to at least the running one's priority, or
        the running one is lowered. */
    method PrioritySet(t: TaskId, p: nat, inUse: bool) returns (yieldRequired: bool)
      requires Base(State()) && t in prio && t in base && current in prio && p < maxPriorities
      modifies this`states, this`prio, this`eventValue, this`top, this`base
      ensures base == old(base)[t := p]
      ensures State() == if old(base)[t] == p then old(State())
                         else SetPriority(old(State()), t, if old(base)[t] == old(prio)[t] then p else old(prio)[t],
                                          if inUse then None else Some(maxPriorities - p))
      ensures yieldRequired <==>
                (old(base)[t] < p && t != current && p >= prio[current]) || (p < old(base)[t] && t == current)
    {
      yieldRequired := false;
      if base[t] != p {
        yieldRequired := if p > base[t] then t != current && p >= prio[current] else t == current;
        SetTaskPriority(t, if base[t] == prio[t] then p else prio[t], if inUse then None else Some(maxPriorities - p));
        base := base[t := p];
      }
    }

    /** `prvAddNewTaskToReadyList` once the scheduler runs. */
    method AddNewTask(t: TaskId, p: nat)
      requires Base(State()) && t !in prio && p < maxPriorities
      modifies this`states, this`prio, this`eventValue, this`top, this`count, this`notifyWaiting, this`base
      ensures State() == CreateTask(old(State()), t, p) && base == old(base)[t := p]
    {
      ghost var s := State();
      CountTask();
      InitialiseTask(t, p);
      StopWaiting(t);
      JoinReadyList(t, p);
      Created(s, State(), t, p);
    }

    method JoinReadyList(t: TaskId, p: nat)
      requires Consistent(states)
      modifies this`states, this`top
      ensures State() == old(State()).(states := Append(old(states), ReadyList(p), t), top := Max(old(top), p))
    {
      if p > top { top := p; }
      states := Append(states, ReadyList(p), t);
    }

    /** The new task's fields. */
    method InitialiseTask(t: TaskId, p: nat)
      requires p <= maxPriorities
      modifies this`prio, this`eventValue, this`base
      ensures State() == Reprice(old(State()), t, p, Some(maxPriorities - p)) && base == old(base)[t := p]
    {
      prio, eventValue, base := prio[t := p], eventValue[t := maxPriorities - p], base[t := p];
    }

    method CountTask()
      modifies this`count
      ensures State() == old(State()).(count := old(count) + 1)
    {
      count := count + 1;
    }

    /** The state item off its list, and the task's memory freed. */
    method ForgetTask(t: TaskId)
      requires Consistent(states)
      modifies this`states, this`prio
      ensures State() == Forget(old(State()), t)
    {
      states, prio := Detach(states, t), prio - {t};
    }

    method UncountTask()
      modifies this`count
      ensures State() == old(State()).(count := if old(count) > 0 then old(count) - 1 else 0)
    {
      if count > 0 { count := count - 1; }
    }

    method DeleteAnother(t: TaskId)
      requires Base(State()) && D.Ok(View(State())) && t in prio && t != idle
      modifies this`states, this`events, this`prio, this`nextUnblock, this`count
      ensures State() == DeleteOther(old(State()), t)
    {
      DeleteOtherIs(State(), t);
      LeaveEventList(t);
      ForgetTask(t);
      ResetNextTaskUnblockTime();
      UncountTask();
    }

    /** `vTaskDelete` up to the yield. */
    method Delete(t: TaskId)
      requires Base(State()) && D.Ok(View(State())) && t in prio && t != idle
      modifies this`states, this`events, this`prio, this`nextUnblock, this`count, this`deleted
      ensures State() == DeleteTask(old(State()), t)
    {
      if t == current { DeleteRunning(); } else { DeleteAnother(t); }
    }

    method DeleteRunning()
      requires Base(State()) && D.Ok(View(State())) && current in prio && current != idle
      modifies this`states, this`events, this`deleted
      ensures State() == DeleteTask(old(State()), current)
    {
      LeaveEventKeeps(State(), current);
      DetachFacts(states, current);
      LeaveEventList(current);
      MoveStateItem(current, TerminationList);
      CountDeleted();
    }

    method CountDeleted()
      modifies this`deleted
      ensures State() == old(State()).(deleted := old(deleted) + 1)
    {
      deleted := deleted + 1;
    }

    /** The downward search of `taskSELECT_HIGHEST_PRIORITY_TASK`. */
    method FindHighest() returns (p: nat)
      requires At(states, ReadyList(Highest(State(), top))) != []
      ensures p == Highest(State(), top)
    {
      p := top;
      while At(states, ReadyList(p)) == []
        invariant p <= top && Highest(State(), p) == Highest(State(), top)
        decreases p
      {
        p := p - 1;
      }
    }

    /** `vTaskSwitchContext`. */
    method SwitchTask()
      requires Base(State())
      modifies this`states, this`current, this`top, this`yieldPending
      ensures State() == SwitchContext(old(State())) && yieldPending == (suspended > 0)
    {
      SwitchIs(State());
      yieldPending := suspended > 0;
      if suspended == 0 {
        var p := FindHighest();
        RunNext(p);
      }
    }

    /** `listGET_OWNER_OF_NEXT_ENTRY` on the ready list of priority p. */
    method RunNext(p: nat)
      requires WalkOf(states, ReadyList(p)).Valid() && At(states, ReadyList(p)) != []
      modifies this`states, this`current, this`top
      ensures State() == Select(old(State()), p)
    {
      var w := NextEntry(WalkOf(states, ReadyList(p)));
      states := states.(walk := states.walk[ReadyList(p) := w]);
      current, top := w.items[w.index - 1], p;
    }
  }

  predicate ReadyIn(l: Family<ListId>, t: TaskId) {
    t in l.container && l.container[t].ReadyList?
  }

  /** A task of at least priority p was readied between two states of the lists. */
  ghost predicate Readied(before: Family<ListId>, after: Family<ListId>, prio: map<TaskId, nat>, p: nat) {
    exists t :: t in prio && ReadyIn(after, t) && !ReadyIn(before, t) && p <= prio[t]
  }

  ghost predicate Urgent(s: Kernel)
    requires Base(s) && At(s.states, Delayed(s)) != [] && s.current in s.prio
  {
    HeadIsTask(s, Delayed(s));
    s.prio[s.current] <= s.prio[At(s.states, Delayed(s))[0]]
  }

  lemma RoundOfUnblocking(first: Kernel, s: Kernel)
    requires Base(s) && D.Advanced(View(s)) && s.current in s.prio && OnlyReadied(first, s)
    requires At(s.states, Delayed(s)) != [] && s.value[At(s.states, Delayed(s))[0]] <= s.tick
    ensures var r, p := WakeHead(s), s.prio[s.current];
            && Base(r) && D.Advanced(View(r)) && UnblockDue(r) == UnblockDue(s) && OnlyReadied(first, r)
            && |At(r.states, Delayed(r))| < |At(s.states, Delayed(s))|
            && (Readied(first.states, r.states, s.prio, p) <==> Readied(first.states, s.states, s.prio, p) || Urgent(s))
  {
    WakeHeadKeeps(s);
    D.TailOk(View(s));
    assert View(WakeHead(s)) == View(s).(current := At(s.states, Delayed(s))[1..]);
    ReadiedAfterHead(first, s);
  }

  lemma HeadBecomesReady(s: Kernel)
    requires Base(s) && At(s.states, Delayed(s)) != []
    ensures var h := At(s.states, Delayed(s))[0];
            && h in s.prio && !ReadyIn(s.states, h)
            && WakeHead(s).states.container == s.states.container[h := ReadyList(s.prio[h])]
  {
    HeadIsTask(s, Delayed(s));
    var h := At(s.states, Delayed(s))[0];
    LeaveEventKeeps(s, h);
    MakeReadyKeeps(LeaveEvent(s, h), h);
  }

  lemma ReadiedAfterHead(first: Kernel, s: Kernel)
    requires Base(s) && s.current in s.prio && OnlyReadied(first, s) && At(s.states, Delayed(s)) != []
    ensures var p := s.prio[s.current];
            Readied(first.states, WakeHead(s).states, s.prio, p) <==>
              Readied(first.states, s.states, s.prio, p) || Urgent(s)
  {
    HeadBecomesReady(s);
    var h, r, p := At(s.states, Delayed(s))[0], WakeHead(s), s.prio[s.current];
    if Readied(first.states, s.states, s.prio, p) {
      var t :| t in s.prio && ReadyIn(s.states, t) && !ReadyIn(first.states, t) && p <= s.prio[t];
      assert ReadyIn(r.states, t);
    }
    if Urgent(s) { assert ReadyIn(r.states, h) && !ReadyIn(first.states, h); }
  }

  ghost predicate CanTick(s: Kernel) {
    Base(s) && D.Ok(View(s)) && s.tick == Low(s.time, s.m) && s.current in s.prio
  }

  lemma AdvanceReady(s: Kernel)
    requires CanTick(s)
    ensures s.m > 1 && s.tick < s.m && Valued(At(s.states, Overflow(s)), s.value)
    ensures var r := AdvanceTick(s);
            && Base(r) && D.Advanced(View(r)) && r.tick == Low(r.time, r.m) && r.states == s.states
            && r.prio == s.prio && r.current == s.current
  {
    AdvanceTickKeeps(s);
    D.AdvanceIs(View(s));
  }

  /** The states k processed ticks go through. */
  ghost predicate IsTickPath(path: seq<Kernel>) {
    forall i: nat :: i < |path| - 1 ==> TicksAt(path, i)
  }

  /** The i-th state is followed by the one a processed tick makes of it. */
  ghost predicate TicksAt(path: seq<Kernel>, i: nat)
    requires i + 1 < |path|
  {
    CanTick(path[i]) && path[i + 1] == ProcessTick(path[i])
  }

  lemma PathLonger(s: Kernel, rest: seq<Kernel>)
    requires IsTickPath(rest) && rest != [] && CanTick(s) && rest[0] == ProcessTick(s)
    ensures IsTickPath([s] + rest)
  {
    var path := [s] + rest;
    forall i: nat | i < |path| - 1 ensures TicksAt(path, i) {
      if i > 0 { assert TicksAt(rest, i - 1); }
    }
  }

  lemma {:induction false} TickPath(s: Kernel, k: nat) returns (path: seq<Kernel>)
    requires CanTick(s)
    ensures |path| == k + 1 && path[0] == s && path[k] == ProcessTicks(s, k) && IsTickPath(path)
    decreases k
  {
    if k == 0 {
      path := [s];
    } else {
      RoundOfTicks(s, k);
      var rest := TickPath(ProcessTick(s), k - 1);
      PathLonger(s, rest);
      path := [s] + rest;
    }
  }

  lemma RoundOfTicks(s: Kernel, k: nat)
    requires CanTick(s) && k > 0
    ensures CanTick(ProcessTick(s)) && ProcessTicks(s, k) == ProcessTicks(ProcessTick(s), k - 1)
  {
    ProcessTickKeeps(s);
  }

  lemma CatchUpPath(s: Kernel) returns (path: seq<Kernel>)
    requires CanTick(s)
    ensures |path| == s.pended + 1 && path[0] == Drained(s) && IsTickPath(path) && Drained(s).pended == s.pended
    ensures path[s.pended].(pended := 0) == CaughtUp(s)
  {
    DrainedReady(s);
    path := TickPath(Drained(s), s.pended);
  }

  lemma SwitchIs(s: Kernel)
    requires Base(s)
    ensures var p := Highest(s, s.top);
            && WalkOf(s.states, ReadyList(p)).Valid() && At(s.states, ReadyList(p)) != []
            && SwitchContext(s) == if s.suspended > 0 then s else Select(s, p)
  {
    SelectionSucceeds(s);
  }

  lemma BlocksForever(s: Kernel, r: Kernel)
    requires CanDelay(s) && s.tick < s.m && Consistent(Detach(s.states, s.current))
    requires r == s.(states := Append(Detach(s.states, s.current), SuspendedList, s.current))
    ensures r == BlockCurrent(s, s.m - 1, true)
  {
  }

  lemma BlocksUntil(s: Kernel, r: Kernel, wake: nat, n: nat, indefinitely: bool)
    requires CanDelay(s) && s.tick < s.m && n < s.m && wake == WrapAdd(s.tick, n, s.m)
    requires !(n == s.m - 1 && indefinitely)
    requires r.value == s.value[s.current := wake] && r.deadline == s.deadline[s.current := s.time + n]
    requires r == s.(states := r.states, value := r.value, deadline := r.deadline, nextUnblock := r.nextUnblock)
    requires r.nextUnblock == if wake >= s.tick && wake < s.nextUnblock then wake else s.nextUnblock
    requires Consistent(Detach(s.states, s.current))
    requires Valued(At(Detach(s.states, s.current), if wake < s.tick then Overflow(s) else Delayed(s)), r.value)
    requires r.states == InsertByValue(Detach(s.states, s.current),
                                       if wake < s.tick then Overflow(s) else Delayed(s), r.value, s.current)
    ensures r == BlockCurrent(s, n, indefinitely)
  {
  }

  lemma Created(s: Kernel, r: Kernel, t: TaskId, p: nat)
    requires Base(s) && p < s.maxPriorities
    requires r == Reprice(s.(count := s.count + 1), t, p, Some(s.maxPriorities - p))
                  .(notifyWaiting := s.notifyWaiting - {t})
                  .(states := Append(s.states, ReadyList(p), t), top := Max(s.top, p))
    ensures r == CreateTask(s, t, p)
  {
  }

  /** What the insertion after the removal needs. */
  lemma BlockReady(s: Kernel, wake: nat)
    requires CanDelay(s)
    ensures Consistent(s.states) && Consistent(Detach(s.states, s.current))
    ensures Valued(At(Detach(s.states, s.current), DelayedList(s.second)), s.value[s.current := wake])
    ensures Valued(At(Detach(s.states, s.current), DelayedList(!s.second)), s.value[s.current := wake])
  {
    DetachFacts(s.states, s.current);
    BlockedListsValued(s, wake);
  }

  ghost function CaughtUp(s: Kernel): Kernel
    requires CanTick(s)
  {
    DrainedReady(s);
    ProcessTicks(Drained(s), s.pended).(pended := 0)
  }

  lemma WokenByEvent(s: Kernel, e: nat)
    requires Base(s) && At(s.events, EventOf(e)) != []
    ensures var t := At(s.events, EventOf(e))[0];
            && t in s.prio && Base(LeaveEvent(s, t)) && t !in LeaveEvent(s, t).events.container
            && RemoveFromEvent(s, e) == WakeOrPend(LeaveEvent(s, t), t)
  {
    EventHead(s, EventOf(e));
    LeaveEventKeeps(s, At(s.events, EventOf(e))[0]);
  }

  lemma DeleteOtherIs(s: Kernel, t: TaskId)
    requires Base(s) && D.Ok(View(s)) && t in s.prio && t != s.idle
    ensures Consistent(LeaveEvent(s, t).states) && s.m > 0
    ensures var r := Forget(LeaveEvent(s, t), t);
            && Valued(At(r.states, Delayed(r)), r.value)
            && DeleteOther(s, t) == ResetUnblock(r).(count := if s.count > 0 then s.count - 1 else 0)
  {
    ForgetKeeps(s, t);
  }

  lemma ResumeIs(s: Kernel)
    requires Inv(s) && s.suspended > 0 && s.current in s.prio
    ensures var r := s.(suspended := s.suspended - 1);
            CanTick(r) && ResumeAll(s) == (if r.suspended > 0 then r else CaughtUp(r))
  {
  }

  lemma DrainedReady(s: Kernel)
    requires CanTick(s)
    ensures CanTick(Drained(s)) && Drained(s).pended == s.pended
    ensures Base(DrainPending(s)) && D.Ok(View(DrainPending(s))) && DrainPending(s).m == s.m
  {
    DrainKeeps(s);
    DrainedKeeps(s);
  }

  /** A pending task has at least the running task's priority. */
  ghost predicate UrgentPending(s: Kernel) {
    exists t :: t in s.events.container && s.events.container[t] == PendingReady && t in s.prio && s.current in s.prio
                && s.prio[t] >= s.prio[s.current]
  }

  ghost predicate HeadIsUrgent(s: Kernel)
    requires Base(s) && At(s.events, PendingReady) != [] && s.current in s.prio
  {
    EventHead(s, PendingReady);
    s.prio[At(s.events, PendingReady)[0]] >= s.prio[s.current]
  }

  lemma UrgentIsHeadOrLater(s: Kernel)
    requires Base(s) && At(s.events, PendingReady) != [] && s.current in s.prio
    ensures UrgentPending(s) <==> HeadIsUrgent(s) || UrgentPending(DrainHead(s))
  {
    var h, r := At(s.events, PendingReady)[0], DrainHead(s);
    EventHead(s, PendingReady);
    LeaveEventKeeps(s, h);
    assert r.events.container == s.events.container - {h} && r.prio == s.prio && r.current == s.current;
  }

  lemma NobodyPending(s: Kernel)
    requires Base(s) && At(s.events, PendingReady) == []
    ensures !UrgentPending(s)
  {
    assert ListWellFormed(s.events, PendingReady);
  }

  /** The tick from s to r asks for a switch. */
  ghost predicate AsksSwitch(s: Kernel, r: Kernel) {
    s.current in s.prio
    && (Readied(s.states, r.states, s.prio, s.prio[s.current]) || |At(r.states, ReadyList(s.prio[s.current]))| > 1)
  }

  /** One of the first n steps of the path asks for a switch. */
  ghost predicate Asked(path: seq<Kernel>, n: nat) {
    exists i :: 0 <= i < n && i + 1 < |path| && AsksSwitch(path[i], path[i + 1])
  }

  /** Counting the interrupt makes no difference to that. */
  lemma Counted(s: Kernel, r: Kernel)
    requires CanTick(s) && r == if s.suspended > 0 then s.(pended := s.pended + 1) else ProcessTick(s)
    ensures r.(received := r.received + 1) == TickStep(s)
    ensures AsksSwitch(s, r.(received := r.received + 1)) <==> AsksSwitch(s, r)
  {
    if s.suspended == 0 { ProcessTickKeeps(s); }
  }

  lemma AskedOnceMore(path: seq<Kernel>, n: nat)
    requires n + 1 < |path|
    ensures Asked(path, n + 1) <==> Asked(path, n) || AsksSwitch(path[n], path[n + 1])
  {
  }

  lemma NextOnPath(path: seq<Kernel>, n: nat)
    requires IsTickPath(path) && n + 1 < |path|
    ensures CanTick(path[n]) && path[n + 1] == ProcessTick(path[n])
  {
    assert TicksAt(path, n);
  }

  /** One of k ticks processed from s on asks for a switch. */
  ghost predicate TicksAsk(s: Kernel, k: nat)
    decreases k
  {
    k > 0 && CanTick(s) && (AsksSwitch(s, ProcessTick(s)) || TicksAsk(ProcessTick(s), k - 1))
  }

  lemma {:induction false} PathAsks(path: seq<Kernel>, k: nat)
    requires |path| == k + 1 && IsTickPath(path)
    ensures Asked(path, k) <==> TicksAsk(path[0], k)
    decreases k
  {
    if k > 0 {
      NextOnPath(path, 0);
      var rest := TailOfPath(path);
      PathAsks(rest, k - 1);
      AskedShifts(path, rest, k - 1);
    }
  }

  lemma TailOfPath(path: seq<Kernel>) returns (rest: seq<Kernel>)
    requires IsTickPath(path) && path != []
    ensures |rest| == |path| - 1 && IsTickPath(rest) && forall i :: 0 <= i < |rest| ==> rest[i] == path[i + 1]
  {
    rest := path[1..];
    forall i: nat | i < |rest| - 1 ensures TicksAt(rest, i) {
      assert TicksAt(path, i + 1);
    }
  }

  lemma AskedShifts(path: seq<Kernel>, rest: seq<Kernel>, k: nat)
    requires |path| == k + 2 && |rest| == k + 1 && forall i :: 0 <= i < |rest| ==> rest[i] == path[i + 1]
    ensures Asked(path, k + 1) <==> AsksSwitch(path[0], path[1]) || Asked(rest, k)
  {
    forall i | 0 <= i < k && AsksSwitch(rest[i], rest[i + 1]) ensures Asked(path, k + 1) {
      assert AsksSwitch(path[i + 1], path[i + 1 + 1]);
    }
    forall i | 0 < i < k + 1 && AsksSwitch(path[i], path[i + 1]) ensures Asked(rest, k) {
      assert AsksSwitch(rest[i - 1], rest[i - 1 + 1]);
    }
  }

  ghost function Unsuspended(s: Kernel): (r: Kernel)
    requires Inv(s) && s.current in s.prio
    ensures CanTick(r)
  {
    s.(suspended := 0)
  }

  /** What makes `xTaskResumeAll` yield, apart from a yield already pending. */
  ghost predicate YieldsOnRun(s: Kernel)
    requires CanTick(s)
  {
    UrgentPending(s) || TicksAsk(Drained(s), s.pended)
  }

  lemma RoundOfDraining(s: Kernel)
    requires Base(s) && At(s.events, PendingReady) != []
    ensures var r := DrainHead(s);
            Base(r) && DrainPending(s) == DrainPending(r) && |At(r.events, PendingReady)| < |At(s.events, PendingReady)|
  {
    DrainHeadKeeps(s);
  }
}
