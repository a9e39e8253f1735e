/** How a take of a mutex ends: with the mutex, or, only if it may not block or its time is
    over, without it. */
module MutexCalls {
  import opened Common
  import opened Lists
  import opened Mutex
  import opened MutexLimits

  /** Inside `xQueueSemaphoreTake`. */
  predicate Taking(p: Pc) {
    !p.Away? && !p.Sleeping?
  }

  /** The critical section of a take: a free mutex is taken and the call returns; on a held
      one it returns if no block time is left and goes on to block otherwise. */
  lemma TryAnswers(s: Sys)
    requires Inv(s) && Enabled(s, Try)
    ensures var r, t := Next(s, Try), s.current;
            && r.holder == (if s.holder == None then Some(t) else s.holder)
            && t in r.pc && (r.pc[t] == Away || r.pc[t] == Deciding(s.pc[t].inherited))
            && (r.pc[t] == Away <==> s.holder == None || s.pc[t].out)
            && r.waiting == s.waiting && r.prio == s.prio && r.current == t
  {
  }

  /** A take that may not block is over after one try: it has the mutex if nobody had it, and
      has changed nothing otherwise. */
  lemma NonBlockingTakeReturns(s: Sys)
    requires Inv(s) && Enabled(s, Begin(false))
    ensures Inv(Next(s, Begin(false))) && Enabled(Next(s, Begin(false)), Try)
    ensures var r := Next(Next(s, Begin(false)), Try);
            if s.holder == None then r == s.(holder := Some(s.current)) else r == s
  {
    StepKeepsInv(s, Begin(false));
    var r := Next(Next(s, Begin(false)), Try);
    assert r.pc == s.pc;
  }

  /** A task in a take returns exactly when it tries and finds the mutex free or has no block
      time left, when its last test finds it held and it has recorded no inheritance, or when
      it has taken its inheritance back. */
  lemma TakeEndsExactly(s: Sys, step: Step, t: TaskId)
    requires Inv(s) && Enabled(s, step) && t in s.pc && Taking(s.pc[t])
    ensures t in Next(s, step).pc
    ensures !Taking(Next(s, step).pc[t]) <==>
              t == s.current && (
                || (step == Try && (s.holder == None || s.pc[t].out))
                || (step == TestEmpty && s.holder.Some? && !s.pc[t].inherited)
                || step == Disinherit)
  {
    if t != s.current { OthersKeepTaking(s, step, t); } else { RunnerEndsExactly(s, step); }
  }

  lemma OthersKeepTaking(s: Sys, step: Step, t: TaskId)
    requires Inv(s) && Enabled(s, step) && t in s.pc && t != s.current && Taking(s.pc[t])
    ensures t in Next(s, step).pc && Taking(Next(s, step).pc[t])
    ensures var p := Next(s, step).pc[t];
            p == s.pc[t] || (s.pc[t].Waiting? && p == Trying(s.pc[t].inherited, false))
  {
    match step
    case Give(next) =>
      var p := GiveStep(s, next).pc[t];
      assert p == s.pc[t] || (t in s.waiting && p == Trying(s.pc[t].inherited, false));
    case TimeOut(u) =>
      var p := TimeOutStep(s, u).pc[t];
      assert p == s.pc[t] || (t == u && p == Trying(s.pc[t].inherited, false));
    case _ => OnlyRunningMoves(s, step, t);
  }

  lemma RunnerEndsExactly(s: Sys, step: Step)
    requires Inv(s) && Enabled(s, step) && Taking(s.pc[s.current])
    ensures s.current in Next(s, step).pc
    ensures !Taking(Next(s, step).pc[s.current]) <==>
              || (step == Try && (s.holder == None || s.pc[s.current].out))
              || (step == TestEmpty && s.holder.Some? && !s.pc[s.current].inherited)
              || step == Disinherit
  {
    match step
    case Try => TryAnswers(s);
    case Decide(expired, _, next) => DecideAnswers(s, step);
    case Disinherit =>
    case TimeOut(u) => assert u != s.current;
    case _ =>
  }

  /** After the check of the time: an expired take goes on to its last test, one that finds the
      mutex free meanwhile tries again, and only one that finds it held waits. */
  lemma DecideAnswers(s: Sys, step: Step)
    requires Inv(s) && Enabled(s, step) && step.Decide?
    ensures var r, p, t := Next(s, step), s.pc[s.current], s.current;
            && t in r.pc
            && (if step.expired then r.pc[t] == Expired(p.inherited, step.zeroed) && r.waiting == s.waiting
                else if s.holder == None then r.pc[t] == Trying(p.inherited, false) && r.waiting == s.waiting
                else r.pc[t].Waiting? && t in r.waiting && r.current == step.next)
  {
    if !step.expired && s.holder.Some? {
      var (r, _) := Inherit(s, s.holder.value);
      InsertMembers(r.waiting, r.value, s.current);
    }
  }

  /** The last test after the time is over: a free mutex is tried for once more. */
  lemma LastTestAnswers(s: Sys)
    requires Inv(s) && Enabled(s, TestEmpty)
    ensures var r, p, t := Next(s, TestEmpty), s.pc[s.current], s.current;
            && t in r.pc && r.holder == s.holder && r.prio == s.prio
            && r.pc[t] == if s.holder == None then Trying(p.inherited, p.out)
                          else if p.inherited then Disinheriting else Away
  {
  }

  // ------------------------------------------------------------------ a take without limit

  predicate GivesUp(p: Pc) {
    (p.Trying? && p.out) || p.Expired? || p.Disinheriting?
  }

  /** Task t does not find its time expired. */
  predicate Patient(s: Sys, step: Step, t: TaskId) {
    s.current == t && step.Decide? ==> !step.expired
  }

  lemma PatientGoesOn(s: Sys, step: Step, t: TaskId)
    requires Inv(s) && Enabled(s, step) && t in s.pc && Taking(s.pc[t]) && !GivesUp(s.pc[t]) && Patient(s, step, t)
    ensures t in Next(s, step).pc
    ensures if t == s.current && step == Try && s.holder == None then Next(s, step).holder == Some(t)
            else Taking(Next(s, step).pc[t]) && !GivesUp(Next(s, step).pc[t])
  {
    if t != s.current {
      OthersKeepTaking(s, step, t);
    } else {
      match step
      case Try => TryAnswers(s);
      case Decide(_, _, _) => DecideAnswers(s, step);
      case TimeOut(u) => assert u != t;
      case _ =>
    }
  }

  ghost predicate PatientRun(s: Sys, steps: seq<Step>, s': Sys, t: TaskId)
    requires Inv(s)
    decreases |steps|
  {
    if steps == [] then s' == s
    else
      && Enabled(s, steps[0]) && Scheduled(s, steps[0], Next(s, steps[0])) && Patient(s, steps[0], t)
      && (StepKeepsInv(s, steps[0]); PatientRun(Next(s, steps[0]), steps[1..], s', t))
  }

  /** Somewhere on the run task t takes the free mutex. */
  ghost predicate Takes(s: Sys, steps: seq<Step>, s': Sys, t: TaskId)
    requires Inv(s) && PatientRun(s, steps, s', t)
    decreases |steps|
  {
    steps != [] && (
      || (s.current == t && steps[0] == Try && s.holder == None && Next(s, steps[0]).holder == Some(t))
      || (StepKeepsInv(s, steps[0]); Takes(Next(s, steps[0]), steps[1..], s', t)))
  }

  /** A take that waits for as long as it takes returns only with the mutex, however often it
      is woken for nothing and however often another task gets the mutex first. */
  lemma {:induction false} PatientTakeSucceeds(s: Sys, steps: seq<Step>, s': Sys, t: TaskId)
    requires Inv(s) && PatientRun(s, steps, s', t) && t in s.pc && Taking(s.pc[t]) && !GivesUp(s.pc[t])
    requires t in s'.pc && !Taking(s'.pc[t])
    ensures Takes(s, steps, s', t)
    decreases |steps|
  {
    if steps != [] {
      StepKeepsInv(s, steps[0]);
      PatientGoesOn(s, steps[0], t);
      if !(t == s.current && steps[0] == Try && s.holder == None) {
        PatientTakeSucceeds(Next(s, steps[0]), steps[1..], s', t);
      }
    }
  }
}
