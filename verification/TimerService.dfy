/** The timer service task's own variables and functions (timers.c), each function proved
    to do what module Timers specifies. */
module TimerService {
  import opened Lists
  import opened Ticks
  import opened Timers

  class TimerDaemon {
    const m: nat                              // 2^N
    const capacity: nat                       // configTIMER_QUEUE_LENGTH
    var current: seq<TimerId>                 // pxCurrentTimerList
    var overflow: seq<TimerId>                // pxOverflowTimerList
    var value: map<TimerId, nat>              // xItemValue of each xTimerListItem
    var timers: map<TimerId, Timer>
    var queue: seq<Command>                   // xTimerQueue
    var lastTime: nat                         // xLastTime
    var failed: bool                          // a configASSERT has failed
    ghost var log: seq<Callback>              // the callbacks made
    ghost var now: nat                        // unbounded tick count
    ghost var last: nat                       // unbounded time of the last sample
    ghost var pc: Pc

    ghost function View(): State
      reads this
    {
      State(m, capacity, now, last, current, overflow, value, timers, queue, pc, failed, log)
    }

    ghost predicate Valid()
      reads this
    {
      ListsOk(View()) && lastTime == Low(last, m)
    }

    constructor (m: nat, capacity: nat, timers: map<TimerId, Timer>)
      requires m > 0
      requires forall t :: t in timers ==> 0 < timers[t].period < m
      ensures Valid() && Timers.Valid(View()) && this.m == m && this.capacity == capacity && this.timers == timers
      ensures current == overflow == [] && queue == [] && log == [] && !failed
    {
      this.m, this.capacity, this.timers := m, capacity, timers;
      current, overflow, queue, log, failed, lastTime := [], [], [], [], false, 0;
      value := map t | t in timers :: 0;
      now, last, pc := 0, 0, Polling;
      new;
      OriginIs(0, m, 0);
    }

    /** `xTimerGenericCommand` from the daemon itself, which never waits. */
    method PostCommand(c: Command)
      modifies this`queue, this`failed
      ensures View() == Post(old(View()), c)
    {
      if |queue| < capacity { queue := queue + [c]; } else { failed := true; }
    }

    ghost method RunCallback(t: TimerId, due: nat)
      modifies this`log
      ensures View() == Call(old(View()), t, due)
    {
      log := log + [Callback(t, due, now)];
    }

    /** `prvInsertTimerInActiveList`. */
    method InsertTimerInActiveList(t: TimerId, next: nat, timeNow: nat, commandTime: nat) returns (processNow: bool)
      requires Valid() && t in timers && t !in current && t !in overflow
      requires next < m && timeNow < m && commandTime < m
      modifies this`value, this`current, this`overflow
      ensures processNow <==> PlaceFor(next, timeNow, commandTime, timers[t].period, m) == Immediately
      ensures View() == InsertTimer(old(View()), t, next, PlaceFor(next, timeNow, commandTime, timers[t].period, m))
      ensures Valid()
    {
      InsertKeepsListsOk(View(), t, next, PlaceFor(next, timeNow, commandTime, timers[t].period, m));
      processNow := false;
      value := value[t := next];
      if next <= timeNow {
        if WrapSub(timeNow, commandTime, m) >= timers[t].period {
          processNow := true;
        } else {
          overflow := Insert(overflow, value, t);
        }
      } else if timeNow < commandTime && next >= commandTime {
        processNow := true;
      } else {
        current := Insert(current, value, t);
      }
    }

    /** One round of the loop of `prvSwitchTimerLists`. */
    method SwitchRound()
      requires Valid() && current != []
      modifies this`current, this`value, this`queue, this`failed, this`log
      ensures View() == SwitchOne(old(View()))
    {
      TailKeepsListsOk(View());
      var nextExpire, t := value[current[0]], current[0];
      current := current[1..];
      RunCallback(t, nextExpire);
      if timers[t].autoReload {
        var reload := WrapAdd(nextExpire, timers[t].period, m);
        if reload > nextExpire {
          value := value[t := reload];
          current := Insert(current, value, t);
        } else {
          PostCommand(Start(t, nextExpire));
        }
      }
    }

    /** `prvSwitchTimerLists`. */
    method SwitchTimerLists()
      requires Valid()
      modifies this`current, this`overflow, this`value, this`queue, this`failed, this`log
      ensures Valid() && View() == SwitchLists(old(View()))
    {
      ghost var s := View();
      SwitchListsKeepsListsOk(s);
      ghost var last := SwitchLists(s);
      while current != []
        invariant Valid() && View() == s && ListsOk(s) && SwitchLists(s) == last
        decreases Distance(s.current, s.value, s.m)
      {
        SwitchRoundIs(s);
        SwitchRound();
        s := View();
      }
      current, overflow := overflow, current;
      assert View() == last;
    }

    /** `prvSampleTimeNow`; `tick` is what `xTaskGetTickCount` returns. */
    method SampleTimeNow(tick: nat) returns (timeNow: nat, switched: bool)
      requires Valid() && tick == Low(now, m)
      modifies this
      ensures Valid() && View() == Sample(old(View())) && timeNow == tick && lastTime == tick
      ensures switched <==> MustSwitch(old(View()))
    {
      timeNow, switched := tick, tick < lastTime;
      if switched { SwitchTimerLists(); }
      lastTime, last := timeNow, now;
    }

    /** `prvGetNextExpireTime` and `prvProcessTimerOrBlockTask` as far as the decision: the
        timer at the head of the list has expired, or the task blocks for `wait` ticks, without
        limit if no timer is active. */
    method CheckTimers(tick: nat) returns (expired: bool, nextExpire: nat, timeNow: nat, wait: nat, indefinitely: bool)
      requires Valid() && tick == Low(now, m)
      modifies this
      ensures Valid() && View() == Poll(old(View()))
      ensures expired <==> !MustSwitch(old(View())) && old(current != [] && value[current[0]] <= tick)
      ensures expired ==> pc == Expiring(nextExpire, timeNow) && nextExpire == value[current[0]] && timeNow == tick
      ensures !expired && !MustSwitch(old(View())) ==> forall t :: t in current ==> t in value && tick < value[t]
      ensures !expired ==> pc == Draining
      ensures !expired && !MustSwitch(old(View())) ==>
                && wait == WrapSub(if current == [] then 0 else value[current[0]], tick, m)
                && (indefinitely <==> current == [] && overflow == [])
    {
      var listWasEmpty := current == [];
      nextExpire := if listWasEmpty then 0 else value[current[0]];
      expired, wait, indefinitely := false, 0, false;
      var switched;
      timeNow, switched := SampleTimeNow(tick);
      if !switched {
        if !listWasEmpty && nextExpire <= timeNow {
          expired := true;
        } else {
          indefinitely := listWasEmpty && overflow == [];
          wait := WrapSub(nextExpire, timeNow, m);
        }
      }
      pc := if expired then Expiring(nextExpire, timeNow) else Draining;
    }

    /** `prvProcessExpiredTimer`. */
    method ProcessExpiredTimer(nextExpire: nat, timeNow: nat)
      requires Valid() && pc == Expiring(nextExpire, timeNow) && PcOk(View())
      modifies this`pc, this`current, this`overflow, this`value, this`queue, this`failed, this`log
      ensures View() == Expire(old(View()))
    {
      TailKeepsListsOk(View());
      var t := current[0];
      current, pc := current[1..], Draining;
      if timers[t].autoReload {
        var again := InsertTimerInActiveList(t, WrapAdd(nextExpire, timers[t].period, m), timeNow, nextExpire);
        if again { PostCommand(Start(t, nextExpire)); }
      }
      RunCallback(t, nextExpire);
    }

    /** The receive at the head of the loop of `prvProcessReceivedCommands`, and the removal
        of the timer from whatever list it is on. */
    method ReceiveCommand() returns (received: bool)
      modifies this`pc, this`queue, this`current, this`overflow
      ensures View() == Receive(old(View())) && received == (old(queue) != [])
    {
      received := queue != [];
      if received {
        var t := queue[0].timer;
        pc := Handling(queue[0]);
        queue, current, overflow := queue[1..], Remove(current, t), Remove(overflow, t);
      } else {
        pc := Polling;
      }
    }

    /** The case of `prvProcessReceivedCommands` for a start or reset. */
    method StartTimer(t: TimerId, issued: nat, timeNow: nat)
      requires Valid() && t in timers && t !in current && t !in overflow && issued < m && timeNow == Low(last, m)
      modifies this`current, this`overflow, this`value, this`queue, this`failed, this`log
      ensures View() == HandleStart(old(View()), t, issued)
    {
      var next := WrapAdd(issued, timers[t].period, m);
      var expired := InsertTimerInActiveList(t, next, timeNow, issued);
      if expired {
        RunCallback(t, next);
        if timers[t].autoReload { PostCommand(Start(t, next)); }
      }
    }

    /** The case for a change of period. */
    method ChangeTimerPeriod(t: TimerId, period: nat, timeNow: nat)
      requires Valid() && t in timers && t !in current && t !in overflow && period < m && timeNow == Low(last, m)
      modifies this`current, this`overflow, this`value, this`timers, this`failed
      ensures View() == HandleChangePeriod(old(View()), t, period)
    {
      if period == 0 {
        failed := true;
      } else {
        NewPeriodKeepsListsOk(View(), t, period);
        timers := timers[t := timers[t].(period := period)];
        var ignored := InsertTimerInActiveList(t, WrapAdd(timeNow, period, m), timeNow, timeNow);
      }
    }

    /** One command of `prvProcessReceivedCommands`, from the sample on. */
    method HandleCommand(c: Command, tick: nat)
      requires Valid() && pc == Handling(c) && PcOk(View()) && QueueOk(View()) && tick == Low(now, m)
      modifies this
      ensures View() == Handle(old(View()))
    {
      SampledForCommand(View());
      var timeNow, switched := SampleTimeNow(tick);
      pc := Draining;
      match c
      case Start(t, issued) => StartTimer(t, issued, timeNow);
      case Stop(_) =>
      case ChangePeriod(t, period) => ChangeTimerPeriod(t, period, timeNow);
    }
  }

  lemma SwitchRoundIs(s: State)
    requires ListsOk(s) && s.current != []
    ensures var one := SwitchOne(s);
            && ListsOk(one) && one.last == s.last && one.m == s.m && SwitchLists(one) == SwitchLists(s)
            && Distance(one.current, one.value, s.m) < Distance(s.current, s.value, s.m)
  {
    SwitchOneKeepsListsOk(s);
    SwitchOneGetsCloser(s);
  }
}
