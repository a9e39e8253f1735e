/** When blocked tasks wake: a task that blocks for n ticks and is disturbed by nothing else
    is readied by exactly the n-th tick processed from then on. */
module WakeUps {
  import opened Common
  import opened TaskLists
  import opened Ticks
  import opened Kernel
  import opened KernelRuns
  import opened OtherTasks
  import D = Delays

  /** Task t is blocked until time d, or ready again. */
  ghost predicate Awaits(s: Kernel, t: TaskId, d: nat) {
    && t in s.states.container && !IsPending(s, t)
    && (D.Blocked(View(s), t) || IsReady(s, t))
    && (D.Blocked(View(s), t) ==> s.time < d && t in s.deadline && s.deadline[t] == d)
  }

  /** What a step does to a task it does not touch. */
  ghost predicate Exact(s: Kernel, r: Kernel, t: TaskId, d: nat) {
    Awaits(r, t, d) && (D.Blocked(View(r), t) <==> D.Blocked(View(s), t) && r.time < d)
  }

  /** A blocked task is on a delayed list, and the other way round. */
  lemma BlockedMeansDelayed(s: Kernel, t: TaskId)
    requires Consistent(s.states)
    ensures D.Blocked(View(s), t) <==> t in s.states.container && s.states.container[t].DelayedList?
  {
    assert ListWellFormed(s.states, Delayed(s)) && ListWellFormed(s.states, Overflow(s));
  }

  /** Unblocked by ticks only, and exactly when due. */
  lemma ReadiedWhenDue(s: Kernel, r: Kernel, t: TaskId, d: nat)
    requires Base(s) && Base(r) && OnlyReadied(s, r) && SameBut(s, r) && Awaits(s, t, d)
    requires t in r.deadline <==> t in s.deadline
    requires t in s.deadline ==> r.deadline[t] == s.deadline[t]
    requires D.Blocked(View(r), t) <==> D.Blocked(View(s), t) && r.time < d
    ensures Exact(s, r, t, d)
  {
    BlockedMeansDelayed(s, t);
    BlockedMeansDelayed(r, t);
  }

  lemma ProcessedTickIsExact(s: Kernel, t: TaskId, d: nat)
    requires Inv(s) && Awaits(s, t, d)
    ensures Exact(s, ProcessTick(s), t, d)
  {
    ProcessTickKeeps(s);
    D.TickExact(View(s));
    ReadiedWhenDue(s, ProcessTick(s), t, d);
  }

  lemma PendedTicksAreExact(s: Kernel, t: TaskId, d: nat)
    requires Base(s) && D.Ok(View(s)) && s.tick == Low(s.time, s.m) && Awaits(s, t, d)
    ensures Exact(s, ProcessTicks(s, s.pended), t, d) && ProcessTicks(s, s.pended).time >= s.time
  {
    ProcessTicksKeeps(s, s.pended);
    ProcessTicksUnblock(s, s.pended, t);
    ReadiedWhenDue(s, ProcessTicks(s, s.pended), t, d);
  }

  lemma DrainIsExact(s: Kernel, t: TaskId, d: nat)
    requires Base(s) && D.Ok(View(s)) && Awaits(s, t, d)
    ensures Exact(s, Drained(s), t, d)
  {
    DrainedKeeps(s);
    ReadiedWhenDue(s, Drained(s), t, d);
  }

  lemma CatchUpIsExact(s: Kernel, q: Kernel, t: TaskId, d: nat)
    requires Exact(s, q, t, d) && Base(q) && D.Ok(View(q)) && q.tick == Low(q.time, q.m) && q.time == s.time
    ensures Exact(s, ProcessTicks(q, q.pended).(pended := 0), t, d)
  {
    PendedTicksAreExact(q, t, d);
  }

  lemma ResumeIsExact(s: Kernel, t: TaskId, d: nat)
    requires Inv(s) && s.suspended > 0 && Awaits(s, t, d)
    ensures Exact(s, ResumeAll(s), t, d)
  {
    var r := s.(suspended := s.suspended - 1);
    if r.suspended == 0 {
      DrainedKeeps(r);
      DrainIsExact(r, t, d);
      CatchUpIsExact(r, Drained(r), t, d);
    }
  }

  lemma AsideIsExact(s: Kernel, r: Kernel, t: TaskId, d: nat)
    requires Consistent(s.states) && Consistent(r.states) && Aside(s, r, t) && Awaits(s, t, d)
    ensures Exact(s, r, t, d)
  {
    BlockedMeansDelayed(s, t);
    BlockedMeansDelayed(r, t);
  }

  lemma RepricedIsExact(s: Kernel, t: TaskId, p: nat, v: Option<nat>, d: nat)
    requires Inv(s) && Live(s, t) && p < s.maxPriorities && Awaits(s, t, d)
    ensures Exact(s, SetPriority(s, t, p, v), t, d)
  {
    SetPriorityKeepsInv(s, t, p, v);
    RepricedKeeps(s, t, p, v);
    BlockedMeansDelayed(s, t);
    BlockedMeansDelayed(SetPriority(s, t, p, v), t);
  }

  lemma NotSuspended(s: Kernel, t: TaskId, d: nat)
    requires Consistent(s.states) && Awaits(s, t, d)
    ensures !IsSuspended(s, t) && !On(s, t, TerminationList)
  {
    BlockedMeansDelayed(s, t);
  }

  lemma StepIsExact(s: Kernel, step: Step, t: TaskId, d: nat)
    requires Inv(s) && Enabled(s, step) && !Touches(s, step, t) && Awaits(s, t, d)
    ensures Exact(s, Next(s, step), t, d)
  {
    NotSuspended(s, t, d);
    if step.TickInterrupt? {
      if s.suspended == 0 { ProcessedTickIsExact(s, t, d); }
    } else if step.ResumeAllStep? {
      ResumeIsExact(s, t, d);
    } else if step.ChangePriority? && step.task == t {
      RepricedIsExact(s, t, step.priority, step.itemValue, d);
    } else if Names(s, step, t) {
      assert Next(s, step) == s.(notifyWaiting := Next(s, step).notifyWaiting);
    } else {
      StepKeepsInv(s, step);
      OperationKeepsOthers(s, step, t);
      AsideIsExact(s, Next(s, step), t, d);
    }
  }

  ghost predicate Untouched(s: Kernel, steps: seq<Step>, t: TaskId)
    requires Inv(s)
    decreases |steps|
  {
    steps != [] && Enabled(s, steps[0]) ==>
      !Touches(s, steps[0], t) && (StepKeepsInv(s, steps[0]); Untouched(Next(s, steps[0]), steps[1..], t))
  }

  /** A task blocked until time d and touched by no event, suspension or deletion, and no
      notification it waits for, is blocked for exactly as long as fewer than d ticks have
      been processed, whatever the tick count, through any wraps and with any ticks pended
      meanwhile; from then on it is ready. */
  lemma {:induction false} WakesExactlyWhenDue(s: Kernel, steps: seq<Step>, s': Kernel, t: TaskId, d: nat)
    requires Inv(s) && Run(s, steps, s') && Untouched(s, steps, t) && Awaits(s, t, d)
    ensures Awaits(s', t, d) && s.time <= s'.time
    ensures D.Blocked(View(s'), t) <==> D.Blocked(View(s), t) && s'.time < d
    ensures D.Blocked(View(s), t) && d <= s'.time ==> IsReady(s', t)
    decreases |steps|
  {
    if steps != [] {
      StepKeepsInv(s, steps[0]);
      StepIsExact(s, steps[0], t, d);
      TimeOnlyGrows(s, steps[0]);
      WakesExactlyWhenDue(Next(s, steps[0]), steps[1..], s', t, d);
    }
  }

  lemma ResumeTime(s: Kernel)
    requires Inv(s) && s.suspended > 0
    ensures ResumeAll(s).time == if s.suspended == 1 then s.time + s.pended else s.time
  {
    var r := s.(suspended := s.suspended - 1);
    if r.suspended == 0 {
      var d := Drained(r);
      DrainedKeeps(r);
      assert ProcessTicks(d, s.pended).time == d.time + s.pended by { ProcessTicksKeeps(d, s.pended); }
    }
  }

  lemma BlockTime(s: Kernel, w: WaitsFor, n: nat, indefinitely: bool)
    requires Inv(s) && CanWait(s, w, n)
    ensures BlockStep(s, w, n, indefinitely).time == s.time
  {
    PrepareKeeps(s, w);
    if !(w.Notification? && n == 0) { BlockMovesOnlyCurrent(Prepare(s, w), n, indefinitely); }
  }

  lemma TimeOnlyGrows(s: Kernel, step: Step)
    requires Inv(s) && Enabled(s, step)
    ensures s.time <= Next(s, step).time
  {
    match step
    case TickInterrupt => if s.suspended == 0 { ProcessTickKeeps(s); }
    case ResumeAllStep => ResumeTime(s);
    case Block(w, n, indefinitely) => BlockTime(s, w, n, indefinitely);
    case _ =>
  }

  /** A finite block of n ticks is until n more ticks have been processed. */
  lemma BlocksForTicks(s: Kernel, w: WaitsFor, n: nat, indefinitely: bool)
    requires Inv(s) && Enabled(s, Block(w, n, indefinitely)) && 0 < n && !(n == s.m - 1 && indefinitely)
    ensures var r := Next(s, Block(w, n, indefinitely));
            D.Blocked(View(r), s.current) && Awaits(r, s.current, s.time + n)
  {
    PrepareKeeps(s, w);
    PrepareKeepsInv(s, w);
    CurrentAwaits(Prepare(s, w), n, indefinitely);
  }

  lemma CurrentAwaits(s: Kernel, n: nat, indefinitely: bool)
    requires Inv(s) && CanBlock(s, n) && !IsPending(s, s.current) && 0 < n && !(n == s.m - 1 && indefinitely)
    ensures var r := BlockCurrent(s, n, indefinitely);
            D.Blocked(View(r), s.current) && Awaits(r, s.current, s.time + n)
  {
    BlockForBase(s, n, indefinitely);
    BlockForView(s, n, indefinitely);
    ReadyNotBlocked(s, s.current);
    D.EnterKeepsOk(View(s), s.current, n);
    BlockedMeansDelayed(BlockCurrent(s, n, indefinitely), s.current);
  }
}
