/** An assertion of `xQueueSemaphoreTake` that can fail: when, and by which run. */
module MutexLimits {
  import opened Common
  import opened Lists
  import opened Mutex

  /** The assertion on `xInheritanceOccurred` fails exactly when a task that had recorded
      an inheritance and then timed out found the mutex free in its last test, and held
      again when it came back to take it. */
  lemma AssertionFailsExactly(s: Sys, step: Step)
    requires Inv(s) && Enabled(s, step) && !s.failed
    ensures Next(s, step).failed <==> step == Try && s.pc[s.current] == Trying(true, true) && s.holder.Some?
  {
  }

  lemma OthersGetBlockTime(s: Sys, step: Step, t: TaskId)
    requires Inv(s) && Enabled(s, step) && t in s.pc && t != s.current && s.pc[t] != Trying(true, true)
    ensures t in Next(s, step).pc && Next(s, step).pc[t] != Trying(true, true)
  {
    match step
    case Give(next) =>
      assert GiveStep(s, next).pc[t] == s.pc[t] || GiveStep(s, next).pc[t] == Trying(s.pc[t].inherited, false);
    case TimeOut(u) =>
      assert TimeOutStep(s, u).pc[t] == s.pc[t] || TimeOutStep(s, u).pc[t] == Trying(s.pc[t].inherited, false);
    case _ => OnlyRunningMoves(s, step, t);
  }

  lemma OnlyRunningMoves(s: Sys, step: Step, t: TaskId)
    requires Inv(s) && Enabled(s, step) && t in s.pc && t != s.current && !step.Give? && !step.TimeOut?
    ensures t in Next(s, step).pc && (step != Wake(t) ==> Next(s, step).pc[t] == s.pc[t])
    ensures step == Wake(t) ==> Next(s, step).pc[t] == Away
  {
    match step
    case Decide(expired, _, next) => if !expired && s.holder.Some? { PlaceMovesRunning(s, s.holder.value, next, t); }
    case Disinherit => DisinheritMovesRunning(s, t);
    case _ =>
  }

  lemma PlaceMovesRunning(s: Sys, h: TaskId, next: TaskId, t: TaskId)
    requires h in s.prio && h in s.base && s.current in s.prio && s.prio[s.current] <= s.max
    requires Valued(s.waiting, s.value) && s.current in s.value && t in s.pc && t != s.current
    ensures t in PlaceStep(s, h, next).pc && PlaceStep(s, h, next).pc[t] == s.pc[t]
  {
  }

  lemma DisinheritMovesRunning(s: Sys, t: TaskId)
    requires s.holder.Some? ==> s.holder.value in s.prio && s.holder.value in s.base && s.base[s.holder.value] <= s.max
    requires forall w :: w in s.waiting ==> w in s.value && s.value[w] <= s.max
    requires t in s.pc && t != s.current
    ensures t in DisinheritStep(s).pc && DisinheritStep(s).pc[t] == s.pc[t]
  {
  }

  /** Only a last test that finds the mutex free leads a task there. */
  lemma LastTryOnlyAfterFreeTest(s: Sys, step: Step, t: TaskId)
    requires Inv(s) && Enabled(s, step) && t in s.pc && s.pc[t] != Trying(true, true)
    requires !(step == TestEmpty && t == s.current && s.pc[t] == Expired(true, true) && s.holder == None)
    ensures t in Next(s, step).pc && Next(s, step).pc[t] != Trying(true, true)
  {
    if t != s.current { OthersGetBlockTime(s, step, t); }
  }

  // ------------------------------------------------------------------ three tasks

  /** Where three tasks of base priorities 1, 2 and 3 have got to; only the first ever holds
      the mutex while another one waits, so only its priority `prio0` changes. */
  datatype Stage =
    Stage(current: TaskId, holder: Option<TaskId>, waiting: seq<TaskId>, pc: seq<Pc>, prio0: nat, failed: bool)

  ghost predicate At(s: Sys, g: Stage) {
    && s.max == 4 && s.current == g.current < 3 && s.holder == g.holder && s.waiting == g.waiting
    && s.failed == g.failed
    && s.pc.Keys == s.base.Keys == s.prio.Keys == s.value.Keys == {0, 1, 2} && |g.pc| == 3
    && s.pc[0] == g.pc[0] && s.pc[1] == g.pc[1] && s.pc[2] == g.pc[2]
    && s.base[0] == 1 && s.base[1] == 2 && s.base[2] == 3
    && s.prio[0] == g.prio0 && s.prio[1] == 2 && s.prio[2] == 3
    && s.value[0] == 4 - g.prio0 && s.value[1] == 2 && s.value[2] == 1
  }

  function PrioAt(g: Stage, t: TaskId): nat {
    if t == 0 then g.prio0 else t + 1
  }

  predicate Proper(g: Stage) {
    |g.pc| == 3 && g.current < 3
  }

  /** The scheduler may select t. */
  predicate Foremost(g: Stage, t: TaskId) {
    && Proper(g) && t < 3 && Runs(g.pc[t])
    && forall u :: 0 <= u < 3 && Runs(g.pc[u]) ==> PrioAt(g, u) <= PrioAt(g, t)
  }

  function Moved(g: Stage, t: TaskId, p: Pc): Stage
    requires Proper(g) && t < 3
  {
    g.(pc := g.pc[t := p])
  }

  /** Task 0 holds the mutex and task 1 is about to wait for it, and after that. */
  const Lending := Stage(1, Some(0), [], [Away, Deciding(false), Sleeping], 1, false)
  const Lent := Stage(0, Some(0), [1], [Away, Waiting(true), Sleeping], 2, false)

  /** Task 0 gives the mutex back when task 1 has timed out, and after that. */
  const Returning := Stage(0, Some(0), [], [Away, Expired(true, true), Sleeping], 2, false)
  const Returned := Stage(1, None, [], [Away, Expired(true, true), Sleeping], 1, false)

  /** Task 2 holds the mutex and goes to sleep, and after that. */
  const Resting := Stage(2, Some(2), [], [Away, Trying(true, true), Away], 1, false)
  const Rested := Stage(1, Some(2), [], [Away, Trying(true, true), Sleeping], 1, false)

  /** The steps the run below makes, on stages. */
  predicate Possible(g: Stage, step: Step) {
    && Proper(g)
    && var p := g.pc[g.current];
       match step
       case Begin(_) => p.Away? && g.holder != Some(g.current)
       case Try => p.Trying?
       case Decide(expired, zeroed, next) => p.Deciding? && (expired || (g == Lending && zeroed && next == 0))
       case TestEmpty => p.Expired? && g.holder == None
       case Give(next) => g == Returning && next == 1
       case Sleep(t) => g == Resting && t == 1
       case Wake(t) => t < 3 && g.pc[t].Sleeping? && t != g.current
       case TimeOut(t) => t == 1 && g.waiting == [1] && g.pc[1].Waiting? && g.current != 1
       case Switch(t) => Foremost(g, t)
       case Disinherit => false
  }

  function StageAfter(g: Stage, step: Step): Stage
    requires Possible(g, step)
  {
    var p := g.pc[g.current];
    match step
    case Begin(mayBlock) => Moved(g, g.current, Trying(false, !mayBlock))
    case Try =>
      if g.holder == None then Moved(g, g.current, Away).(holder := Some(g.current))
      else if p.out then Moved(g, g.current, Away).(failed := g.failed || p.inherited)
      else Moved(g, g.current, Deciding(p.inherited))
    case Decide(expired, zeroed, _) => if expired then Moved(g, g.current, Expired(p.inherited, zeroed)) else Lent
    case TestEmpty => Moved(g, g.current, Trying(p.inherited, p.out))
    case Give(_) => Returned
    case Sleep(_) => Rested
    case Wake(t) => Moved(g, t, Away)
    case TimeOut(t) => Moved(g, t, Trying(g.pc[t].inherited, false)).(waiting := [])
    case Switch(t) => g.(current := t)
    case Disinherit => g
  }

  lemma SelectedAt(s: Sys, g: Stage, t: TaskId)
    requires Typed(s) && At(s, g) && Foremost(g, t)
    ensures Selected(s, t)
  {
  }

  /** The step leads to stage g', with a task running that the scheduler may select. */
  ghost predicate Leads(s: Sys, step: Step, g': Stage)
    requires Inv(s)
  {
    Enabled(s, step) && At(Next(s, step), g') && Scheduled(s, step, Next(s, step))
  }

  /** The scheduler runs, and its choice is one it may make. */
  lemma LeadsToForemost(s: Sys, step: Step, g': Stage)
    requires Inv(s) && Enabled(s, step) && At(Next(s, step), g') && Typed(Next(s, step)) && Foremost(g', g'.current)
    ensures Leads(s, step, g')
  {
    SelectedAt(Next(s, step), g', g'.current);
  }

  lemma LentIs(s: Sys)
    requires Inv(s) && At(s, Lending)
    ensures Enabled(s, Decide(false, true, 0))
    ensures Next(s, Decide(false, true, 0)) == PlaceStep(s, 0, 0) && At(PlaceStep(s, 0, 0), Lent)
  {
    assert Inherit(s, 0) == (SetPriority(s, 0, 2), true);
  }

  lemma LentIsTyped(s: Sys)
    requires Inv(s) && At(s, Lending) && Enabled(s, Decide(false, true, 0))
    ensures Typed(Next(s, Decide(false, true, 0)))
  {
    InheritFacts(s, 0);
    PlacedList(Inherit(s, 0).0, true, 0);
  }

  lemma LendsAt(s: Sys)
    requires Inv(s) && At(s, Lending)
    ensures Leads(s, Decide(false, true, 0), Lent)
  {
    LentIs(s);
    LentIsTyped(s);
    LeadsToForemost(s, Decide(false, true, 0), Lent);
  }

  lemma ReturnsAt(s: Sys)
    requires Inv(s) && At(s, Returning)
    ensures Leads(s, Give(1), Returned)
  {
    assert At(Next(s, Give(1)), Returned);
    LeadsToForemost(s, Give(1), Returned);
  }

  lemma GotoAt(s: Sys, g: Stage, p: Pc)
    requires At(s, g)
    ensures At(Goto(s, p), Moved(g, g.current, p))
  {
  }

  lemma BeginAt(s: Sys, g: Stage, mayBlock: bool)
    requires Inv(s) && At(s, g) && Possible(g, Begin(mayBlock))
    ensures Leads(s, Begin(mayBlock), StageAfter(g, Begin(mayBlock)))
  {
  }

  lemma TakeAt(s: Sys, g: Stage)
    requires Inv(s) && At(s, g) && Possible(g, Try) && g.holder == None
    ensures Leads(s, Try, StageAfter(g, Try))
  {
    assert Next(s, Try) == Goto(s.(holder := Some(s.current)), Away);
  }

  lemma LastTryAt(s: Sys, g: Stage)
    requires Inv(s) && At(s, g) && Possible(g, Try) && g.holder.Some? && g.pc[g.current].out
    ensures Leads(s, Try, StageAfter(g, Try))
  {
    var failed := s.failed || s.pc[s.current].inherited;
    GotoAt(s.(failed := failed), g.(failed := failed), Away);
    assert Next(s, Try) == Goto(s.(failed := failed), Away);
  }

  lemma HeldAt(s: Sys, g: Stage)
    requires Inv(s) && At(s, g) && Possible(g, Try) && g.holder.Some? && !g.pc[g.current].out
    ensures Leads(s, Try, StageAfter(g, Try))
  {
    GotoAt(s, g, Deciding(s.pc[s.current].inherited));
    assert Next(s, Try) == Goto(s, Deciding(s.pc[s.current].inherited));
  }

  lemma ExpireAt(s: Sys, g: Stage, zeroed: bool, next: TaskId)
    requires Inv(s) && At(s, g) && Possible(g, Decide(true, zeroed, next))
    ensures Leads(s, Decide(true, zeroed, next), StageAfter(g, Decide(true, zeroed, next)))
  {
  }

  lemma TestAt(s: Sys, g: Stage)
    requires Inv(s) && At(s, g) && Possible(g, TestEmpty)
    ensures Leads(s, TestEmpty, StageAfter(g, TestEmpty))
  {
  }

  lemma WakeAt(s: Sys, g: Stage, t: TaskId)
    requires Inv(s) && At(s, g) && Possible(g, Wake(t))
    ensures Leads(s, Wake(t), StageAfter(g, Wake(t)))
  {
  }

  lemma TimeOutAt(s: Sys, g: Stage, t: TaskId)
    requires Inv(s) && At(s, g) && Possible(g, TimeOut(t))
    ensures Leads(s, TimeOut(t), StageAfter(g, TimeOut(t)))
  {
  }

  lemma SwitchAt(s: Sys, g: Stage, t: TaskId)
    requires Inv(s) && At(s, g) && Possible(g, Switch(t))
    ensures Leads(s, Switch(t), StageAfter(g, Switch(t)))
  {
    SelectedAt(s, g, t);
    LeadsToForemost(s, Switch(t), StageAfter(g, Switch(t)));
  }

  lemma SleepAt(s: Sys)
    requires Inv(s) && At(s, Resting)
    ensures Leads(s, Sleep(1), Rested)
  {
    assert At(Next(s, Sleep(1)), Rested);
    LeadsToForemost(s, Sleep(1), Rested);
  }

  /** A step possible at a stage is a step of the mutex model, to the stage after it. */
  lemma StepAt(s: Sys, g: Stage, step: Step)
    requires Inv(s) && At(s, g) && Possible(g, step)
    ensures Leads(s, step, StageAfter(g, step))
  {
    match step
    case Begin(mayBlock) => BeginAt(s, g, mayBlock);
    case Try =>
      if g.holder == None { TakeAt(s, g); }
      else if g.pc[g.current].out { LastTryAt(s, g); }
      else { HeldAt(s, g); }
    case Decide(expired, zeroed, next) => if expired { ExpireAt(s, g, zeroed, next); } else { LendsAt(s); }
    case TestEmpty => TestAt(s, g);
    case Give(_) => ReturnsAt(s);
    case Sleep(t) => SleepAt(s);
    case Wake(t) => WakeAt(s, g, t);
    case TimeOut(t) => TimeOutAt(s, g, t);
    case Switch(t) => SwitchAt(s, g, t);
  }

  // ------------------------------------------------------------------ a run that fails the assertion

  ghost predicate Plays(g: Stage, steps: seq<Step>, g': Stage)
    decreases |steps|
  {
    if steps == [] then g' == g else Possible(g, steps[0]) && Plays(StageAfter(g, steps[0]), steps[1..], g')
  }

  lemma Play(g: Stage, step: Step, g1: Stage, steps: seq<Step>, g': Stage)
    requires Possible(g, step) && StageAfter(g, step) == g1 && Plays(g1, steps, g')
    ensures Plays(g, [step] + steps, g')
  {
    assert ([step] + steps)[1..] == steps;
  }

  /** Steps that can be played on stages make a run of the model. */
  lemma {:induction false} PlaysOut(s: Sys, g: Stage, steps: seq<Step>, g': Stage) returns (s': Sys)
    requires Inv(s) && At(s, g) && Plays(g, steps, g')
    ensures Run(s, steps, s') && At(s', g')
    decreases |steps|
  {
    if steps == [] {
      s' := s;
    } else {
      StepAt(s, g, steps[0]);
      StepKeepsInv(s, steps[0]);
      s' := PlaysOut(Next(s, steps[0]), StageAfter(g, steps[0]), steps[1..], g');
    }
  }

  /** Task 0 of base priority 1 runs; the others sleep. */
  function ThreeTasks(): Sys {
    Sys(4, 0, None, [], map[0 := Away, 1 := Sleeping, 2 := Sleeping], map[0 := 1, 1 := 2, 2 := 3],
        map[0 := 1, 1 := 2, 2 := 3], map[0 := 3, 1 := 2, 2 := 1], false)
  }

  /** Task 2 wakes, takes the mutex and sleeps, and the last try of task 1 finds it held. */
  lemma LastPart() returns (steps: seq<Step>)
    ensures Plays(Stage(1, None, [], [Away, Trying(true, true), Sleeping], 1, false), steps,
                  Stage(1, Some(2), [], [Away, Away, Sleeping], 1, true))
  {
    var g6 := Stage(1, Some(2), [], [Away, Away, Sleeping], 1, true);
    var g3 := Resting.(holder := None, pc := [Away, Trying(true, true), Trying(false, false)]);
    var g2 := g3.(pc := [Away, Trying(true, true), Away]);
    var g1 := g2.(current := 1);
    Play(Rested, Try, g6, [], g6);
    Play(Resting, Sleep(1), Rested, [Try] + [], g6);
    Play(g3, Try, Resting, [Sleep(1)] + ([Try] + []), g6);
    steps := [Try] + ([Sleep(1)] + ([Try] + []));
    Play(g2, Begin(true), g3, steps, g6);
    Play(g1, Switch(2), g2, [Begin(true)] + steps, g6);
    Play(g1.(pc := [Away, Trying(true, true), Sleeping]), Wake(2), g1, [Switch(2)] + ([Begin(true)] + steps), g6);
    steps := [Wake(2)] + ([Switch(2)] + ([Begin(true)] + steps));
  }

  /** Before task 1, out of block time, tests the count, task 0 gives the mutex back. */
  lemma ReturningPart() returns (steps: seq<Step>)
    ensures Plays(Returning, steps, Stage(1, Some(2), [], [Away, Away, Sleeping], 1, true))
  {
    var last := Stage(1, Some(2), [], [Away, Away, Sleeping], 1, true);
    steps := LastPart();
    Play(Returned, TestEmpty, Stage(1, None, [], [Away, Trying(true, true), Sleeping], 1, false), steps, last);
    Play(Returning, Give(1), Returned, [TestEmpty] + steps, last);
    steps := [Give(1)] + ([TestEmpty] + steps);
  }

  /** Task 1 is taken off the event list, finds the mutex held and its block time over. */
  lemma MiddlePart() returns (steps: seq<Step>)
    ensures Plays(Lent, steps, Stage(1, Some(2), [], [Away, Away, Sleeping], 1, true))
  {
    var last := Stage(1, Some(2), [], [Away, Away, Sleeping], 1, true);
    steps := ReturningPart();
    var g3 := Returning.(current := 1);
    var g2 := g3.(pc := [Away, Deciding(true), Sleeping]);
    var g1 := g2.(pc := [Away, Trying(true, false), Sleeping]);
    Play(g3, Switch(0), Returning, steps, last);
    Play(g2, Decide(true, true, 0), g3, [Switch(0)] + steps, last);
    steps := [Decide(true, true, 0)] + ([Switch(0)] + steps);
    Play(g1, Try, g2, steps, last);
    Play(g1.(current := 0), Switch(1), g1, [Try] + steps, last);
    Play(Lent, TimeOut(1), g1.(current := 0), [Switch(1)] + ([Try] + steps), last);
    steps := [TimeOut(1)] + ([Switch(1)] + ([Try] + steps));
  }

  /** Task 0 takes the mutex; task 1 wakes, finds it held, lends its priority and waits. */
  lemma WholePlay() returns (steps: seq<Step>)
    ensures Plays(Stage(0, None, [], [Away, Sleeping, Sleeping], 1, false), steps,
            Stage(1, Some(2), [], [Away, Away, Sleeping], 1, true))
  {
    var last := Stage(1, Some(2), [], [Away, Away, Sleeping], 1, true);
    steps := MiddlePart();
    var g5 := Lending.(pc := [Away, Trying(false, false), Sleeping]);
    var g4 := g5.(pc := [Away, Away, Sleeping]);
    var g2 := g4.(current := 0, pc := [Away, Sleeping, Sleeping]);
    var g1 := g2.(holder := None, pc := [Trying(false, false), Sleeping, Sleeping]);
    Play(Lending, Decide(false, true, 0), Lent, steps, last);
    Play(g5, Try, Lending, [Decide(false, true, 0)] + steps, last);
    Play(g4, Begin(true), g5, [Try] + ([Decide(false, true, 0)] + steps), last);
    steps := [Begin(true)] + ([Try] + ([Decide(false, true, 0)] + steps));
    Play(g4.(current := 0), Switch(1), g4, steps, last);
    Play(g2, Wake(1), g4.(current := 0), [Switch(1)] + steps, last);
    steps := [Wake(1)] + ([Switch(1)] + steps);
    Play(g1, Try, g2, steps, last);
    Play(g1.(pc := [Away, Sleeping, Sleeping]), Begin(true), g1, [Try] + steps, last);
    steps := [Begin(true)] + ([Try] + steps);
  }

  /** The assertion fails in a run of three tasks from a fresh mutex: task 1 lends its
      priority to task 0, times out and finds the mutex free, and task 2, of higher priority,
      takes it before the last try. */
  lemma InheritanceAssertionFails() returns (steps: seq<Step>, s: Sys)
    ensures Initial(ThreeTasks()) && Inv(ThreeTasks()) && Run(ThreeTasks(), steps, s) && s.failed
  {
    steps := WholePlay();
    InitialInv(ThreeTasks());
    s := PlaysOut(ThreeTasks(), Stage(0, None, [], [Away, Sleeping, Sleeping], 1, false), steps,
                  Stage(1, Some(2), [], [Away, Away, Sleeping], 1, true));
  }
}
