/** Block times over a wrapping tick count: `xTaskCheckForTimeOut` in a blocking loop, and
    the fixed period of `vTaskDelayUntil` (tasks.c). */
module Timeouts {
  import opened Ticks

  /** `xNumOfOverflows` after t ticks. */
  ghost function Overflows(t: nat, m: nat): nat
    requires m > 1
    decreases t
  {
    if t == 0 then 0 else Overflows(t - 1, m) + if Low(t, m) == 0 then 1 else 0
  }

  /** The overflow count tells wrap periods apart. */
  lemma {:induction false} OverflowsTellPeriods(t: nat, u: nat, m: nat)
    requires m > 1 && t <= u
    ensures Overflows(t, m) <= Overflows(u, m)
    ensures Origin(t, m) <= Origin(u, m)
    ensures Overflows(t, m) == Overflows(u, m) <==> Origin(t, m) == Origin(u, m)
    decreases u
  {
    if t < u {
      OverflowsTellPeriods(t, u - 1, m);
      LowAdd(u - 1, 1, m);
    }
  }

  // ------------------------------------------------------------------ the check

  /** `TimeOut_t`. */
  datatype TimeOut = TimeOut(overflowCount: nat, timeOnEntering: nat)

  /** What `vTaskInternalSetTimeOutState` records at time t. */
  ghost function StateAt(t: nat, m: nat): TimeOut
    requires m > 1
  {
    TimeOut(Overflows(t, m), Low(t, m))
  }

  datatype Outcome = Outcome(timedOut: bool, timeOut: TimeOut, ticksToWait: nat)

  /** `xTaskCheckForTimeOut`; 2^N - 1 ticks mean without limit. */
  function Check(tick: nat, overflows: nat, timeOut: TimeOut, ticksToWait: nat, m: nat): Outcome
    requires tick < m && timeOut.timeOnEntering < m
  {
    var elapsed := WrapSub(tick, timeOut.timeOnEntering, m);
    if ticksToWait == m - 1 then Outcome(false, timeOut, ticksToWait)
    else if overflows != timeOut.overflowCount
      && tick >= timeOut.timeOnEntering then Outcome(true, timeOut, ticksToWait)
    else if elapsed < ticksToWait then Outcome(false, TimeOut(overflows, tick), ticksToWait - elapsed)
    else Outcome(true, timeOut, 0)
  }

  ghost function CheckAt(t: nat, timeOut: TimeOut, ticksToWait: nat, m: nat): Outcome
    requires m > 1 && timeOut.timeOnEntering < m
  {
    Check(Low(t, m), Overflows(t, m), timeOut, ticksToWait, m)
  }

  /** At most one counter overflow lies between the two times. */
  ghost predicate Close(t: nat, u: nat, m: nat)
    requires m > 0
  {
    t <= u && Origin(u, m) <= Origin(t, m) + m
  }

  /** With at most one overflow since the last check, the check is right: it reports a
      timeout exactly when the wait is over in true time, and otherwise takes off exactly
      the true time that has passed.  A timeout leaves no ticks to wait, except that after a
      full wrap it leaves them as they were. */
  lemma CheckIsExact(t: nat, u: nat, wait: nat, m: nat)
    requires m > 1 && Close(t, u, m) && wait < m - 1
    ensures var r := CheckAt(u, StateAt(t, m), wait, m);
            && (r.timedOut <==> u - t >= wait)
            && (!r.timedOut ==> r.timeOut == StateAt(u, m) && r.ticksToWait + (u - t) == wait)
            && (r.timedOut ==> r.timeOut == StateAt(t, m) && r.ticksToWait == if u - t < m then 0 else wait)
  {
    OverflowsTellPeriods(t, u, m);
    if Origin(u, m) != Origin(t, m) { NextPeriod(t, u, m); }
  }

  lemma NextPeriod(t: nat, u: nat, m: nat)
    requires m > 0 && Close(t, u, m) && Origin(u, m) != Origin(t, m)
    ensures Origin(u, m) == Origin(t, m) + m
  {
    if u < Origin(t, m) + m { OriginNear(t, u, m); }
    if Origin(t, m) + m <= u < Origin(t, m) + m + m { OriginNear(t, u, m); }
  }

  /** In general, however late the check comes, it is right unless two or more overflows
      lie between, the count stands below the recorded time again, and the N-bit
      difference is less than the wait; then a wait that is over goes on. */
  lemma CheckIsRightExactly(t: nat, u: nat, wait: nat, m: nat)
    requires m > 1 && t <= u && wait < m - 1
    ensures (CheckAt(u, StateAt(t, m), wait, m).timedOut <==> u - t >= wait) <==>
            !(Origin(u, m) > Origin(t, m) + m && Low(u, m) < Low(t, m) && Low(u, m) + m - Low(t, m) < wait)
  {
    OverflowsTellPeriods(t, u, m);
    if Origin(u, m) <= Origin(t, m) + m {
      CheckIsExact(t, u, wait, m);
    } else {
      OriginIsMultiple(t, m);
      OriginIsMultiple(u, m);
      MultipleSteps(Origin(t, m), m);
      MultiplesApart(Origin(t, m) + m, Origin(u, m), m);
    }
  }

  /** An input for which it is wrong: four-bit ticks, a wait of 13 from time 5, and a check 28
      ticks later. */
  lemma LateCheckGoesOn()
    ensures !CheckAt(33, StateAt(5, 16), 13, 16).timedOut && 33 - 5 >= 13
  {
    MultipleSteps(0, 16);
    MultipleSteps(16, 16);
    OriginIs(5, 16, 0);
    OriginIs(33, 16, 32);
    CheckIsRightExactly(5, 33, 13, 16);
  }

  // ------------------------------------------------------------------ a blocking loop

  /** The checks a blocking loop makes at the given times, until one reports a timeout. */
  ghost function Loop(times: seq<nat>, timeOut: TimeOut, ticksToWait: nat, m: nat): Outcome
    requires m > 1 && timeOut.timeOnEntering < m
    decreases |times|
  {
    if times == [] then Outcome(false, timeOut, ticksToWait)
    else
      var r := CheckAt(times[0], timeOut, ticksToWait, m);
      if r.timedOut then r else Loop(times[1..], r.timeOut, r.ticksToWait, m)
  }

  /** Each check is at most one overflow after the one before it. */
  ghost predicate Steady(t: nat, times: seq<nat>, m: nat)
    requires m > 0
    decreases |times|
  {
    times != [] ==> Close(t, times[0], m) && Steady(times[0], times[1..], m)
  }

  lemma {:induction false} SteadyGrows(t: nat, times: seq<nat>, m: nat)
    requires m > 0 && Steady(t, times, m)
    ensures forall i :: 0 <= i < |times| ==> t <= times[i]
    ensures forall i, j :: 0 <= i <= j < |times| ==> times[i] <= times[j]
    decreases |times|
  {
    if times != [] {
      SteadyGrows(times[0], times[1..], m);
      assert times == [times[0]] + times[1..];
    }
  }

  /** The arithmetic telescopes over any number of checks, spurious wake-ups and wraps: the
      loop times out exactly when one of its checks comes at or after the end of the wait,
      and as long as it does not, what remains and the true time passed add up to the wait. */
  lemma {:induction false} LoopTelescopes(t: nat, times: seq<nat>, wait: nat, m: nat)
    requires m > 1 && wait < m - 1 && Steady(t, times, m)
    ensures var r, last := Loop(times, StateAt(t, m), wait, m), if times == [] then t else times[|times| - 1];
            && (r.timedOut <==> times != [] && last - t >= wait)
            && (!r.timedOut ==> r.ticksToWait + (last - t) == wait && r.timeOut == StateAt(last, m))
    decreases |times|
  {
    if times != [] {
      SteadyGrows(t, times, m);
      CheckIsExact(t, times[0], wait, m);
      var r := CheckAt(times[0], StateAt(t, m), wait, m);
      if !r.timedOut { LoopTelescopes(times[0], times[1..], r.ticksToWait, m); }
    }
  }

  /** A wait without limit never times out, whatever the times of its checks and however many
      wraps lie between, and its record and block time stay as they were. */
  lemma {:induction false} UnlimitedLoopGoesOn(times: seq<nat>, timeOut: TimeOut, m: nat)
    requires m > 1 && timeOut.timeOnEntering < m
    ensures Loop(times, timeOut, m - 1, m) == Outcome(false, timeOut, m - 1)
    decreases |times|
  {
    if times != [] { UnlimitedLoopGoesOn(times[1..], timeOut, m); }
  }

  /** The record a blocked call keeps, changed in place. */
  class TimeOutState {
    var overflowCount: nat
    var timeOnEntering: nat

    constructor ()
      ensures overflowCount == timeOnEntering == 0
    {
      overflowCount, timeOnEntering := 0, 0;
    }

    function Value(): TimeOut
      reads this
    {
      TimeOut(overflowCount, timeOnEntering)
    }

    /** `vTaskInternalSetTimeOutState`. */
    method Set(tick: nat, overflows: nat)
      modifies this
      ensures Value() == TimeOut(overflows, tick)
    {
      overflowCount, timeOnEntering := overflows, tick;
    }

    /** `xTaskCheckForTimeOut`. */
    method CheckForTimeOut(tick: nat, overflows: nat, ticksToWait: nat, m: nat) returns (timedOut: bool, remaining: nat)
      requires tick < m && timeOnEntering < m
      modifies this
      ensures Outcome(timedOut, Value(), remaining) == Check(tick, overflows, old(Value()), ticksToWait, m)
    {
      var elapsed := WrapSub(tick, timeOnEntering, m);
      remaining := ticksToWait;
      if ticksToWait == m - 1 {
        timedOut := false;
      } else if overflows != overflowCount && tick >= timeOnEntering {
        timedOut := true;
      } else if elapsed < ticksToWait {
        remaining := ticksToWait - elapsed;
        Set(tick, overflows);
        timedOut := false;
      } else {
        remaining := 0;
        timedOut := true;
      }
    }
  }

  // ------------------------------------------------------------------ a fixed period

  /** The decision of `vTaskDelayUntil`: the previous wake time, the increment and the
      tick count give whether to delay. */
  function ShouldDelay(previous: nat, increment: nat, tick: nat, m: nat): bool
    requires previous < m && increment < m && tick < m
  {
    var wake := WrapAdd(previous, increment, m);
    if tick < previous then wake < previous && wake > tick
    else wake < previous || wake > tick
  }

  /** Called less than 2^N ticks after the previous wake time, the task delays exactly when
      the new wake time is still to come, and then for exactly the time left. */
  lemma DelaysExactlyUntilWake(previous: nat, increment: nat, now: nat, m: nat)
    requires 0 < increment < m && previous <= now < previous + m
    ensures ShouldDelay(Low(previous, m), increment, Low(now, m), m) <==> now < previous + increment
    ensures now < previous + increment ==>
              WrapSub(WrapAdd(Low(previous, m), increment, m), Low(now, m), m) == previous + increment - now
  {
    LowAdd(previous, increment, m);
    LowSub(now, previous, m);
    if now < previous + increment {
      LowSub(previous + increment, now, m);
    } else {
      LowSub(now, previous + increment, m);
    }
  }

  /** The wake times a task records over k calls, whether it was late or not. */
  function PreviousAfter(previous: nat, increment: nat, m: nat, k: nat): (r: nat)
    requires previous < m && increment < m
    ensures r < m
  {
    if k == 0 then previous else WrapAdd(PreviousAfter(previous, increment, m, k - 1), increment, m)
  }

  function WakeTime(start: nat, increment: nat, k: nat): nat {
    if k == 0 then start else WakeTime(start, increment, k - 1) + increment
  }

  /** The period does not drift: the k-th wake time is k increments after the start,
      through any number of wraps. */
  lemma {:induction false} PeriodIsFixed(start: nat, increment: nat, m: nat, k: nat)
    requires 0 < increment < m
    ensures PreviousAfter(Low(start, m), increment, m, k) == Low(WakeTime(start, increment, k), m)
    ensures WakeTime(start, increment, k) == start + k * increment
  {
    if k > 0 {
      PeriodIsFixed(start, increment, m, k - 1);
      LowAdd(WakeTime(start, increment, k - 1), increment, m);
      assert k * increment == (k - 1) * increment + increment;
    }
  }
}
