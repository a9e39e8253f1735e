/** The loans of priority inheritance over any number of mutexes: a task that blocks records
    whether its priority was lent, and takes it back when it gives up. */
module MutexLoans {
  import opened Common
  import opened Lists
  import opened MutexChains
  import A = MutexAccounts

  /** A blocking task records a loan exactly when its priority is above the holder's own. */
  lemma LoanIsRecorded(s: Sys, m: MutexId, next: TaskId)
    requires Shape(s) && Running(s) && Enabled(s, Block(m, next))
    ensures var r, h := Next(s, Block(m, next)), s.books.mutexes[m].holder.value;
            && s.current in r.stage && r.stage[s.current].Waiting? && r.stage[s.current].m == m
            && h in s.books.base && s.current in s.books.prio
            && (r.stage[s.current].lent <==> s.books.base[h] < s.books.prio[s.current])
  {
    LendingIs(s, m, s.books.mutexes[m].holder.value);
    HolderIsTask(s, m, s.books.mutexes[m].holder.value);
  }

  /** The steps that end a stay in the loop of the take, or begin a wait in it. */
  predicate EndsTry(step: Step) {
    step.Take? || step.Block? || step.GiveUp?
  }

  lemma BlockStages(s: Sys, m: MutexId, next: TaskId)
    requires Shape(s) && Running(s) && Enabled(s, Block(m, next))
    ensures var r := Next(s, Block(m, next));
            s.current in r.stage && r.stage == s.stage[s.current := r.stage[s.current]]
  {
    LendingIs(s, m, s.books.mutexes[m].holder.value);
  }

  lemma GiveStages(s: Sys, m: MutexId, next: TaskId)
    requires Shape(s) && Running(s) && Enabled(s, Give(m, next))
    ensures m in s.waiting
    ensures s.waiting[m] == [] ==> Next(s, Give(m, next)).stage == s.stage
    ensures s.waiting[m] != [] ==>
              var w := s.waiting[m][0];
              && w in s.stage && s.stage[w].Waiting?
              && Next(s, Give(m, next)).stage == s.stage[w := Trying(m, s.stage[w].lent)] && s.stage[w].m == m
  {
    GivingIs(s, m);
    if s.waiting[m] != [] { HeadWaits(s, m); }
  }

  lemma TakeBackStages(s: Sys)
    requires Shape(s) && Running(s) && Enabled(s, TakeBack)
    ensures Next(s, TakeBack).stage == s.stage[s.current := Away]
  {
    var m := s.stage[s.current].m;
    assert ApartFrom(s.books.mutexes, s.stage[s.current], s.current);
    if !IsFree(s, m) { TakeBackIs(s, m, s.books.mutexes[m].holder.value); }
  }

  /** The stage of a task in a take after a step it does not make itself, or makes elsewhere. */
  lemma StageOf(s: Sys, step: Step, t: TaskId)
    requires Shape(s) && Running(s) && Enabled(s, step) && t in s.stage && Contends(s.stage[t])
    requires t == s.current ==> !EndsTry(step) && !step.TakeBack?
    ensures t in Next(s, step).stage
    ensures var p := Next(s, step).stage[t];
            p == s.stage[t] || (s.stage[t].Waiting? && p == Trying(s.stage[t].m, s.stage[t].lent))
  {
    match step
    case Block(m, next) => BlockStages(s, m, next);
    case Give(m, next) => GiveStages(s, m, next);
    case TakeBack => TakeBackStages(s);
    case Take(_) =>
    case Enter(_) =>
    case Leave(_) =>
    case GiveUp =>
    case Sleep(_) =>
    case Wake(_, _) =>
    case Expire(_, _) =>
    case Switch(_) =>
  }

  /** Giving up leads to a taking back exactly when a loan is on record; otherwise the call is
      over at once. */
  lemma GivingUpTakesBackExactly(s: Sys)
    requires Shape(s) && Running(s) && Enabled(s, GiveUp)
    ensures var r := Next(s, GiveUp);
            && s.current in r.stage && r.books == s.books && r.waiting == s.waiting
            && r.stage[s.current] == if s.stage[s.current].lent then TakingBack(s.stage[s.current].m) else Away
  {
  }

  /** A taking back is over in one step, and of a holder of this one mutex leaves the priority
      it has itself or that of the first task still waiting, whichever is higher. */
  lemma TakingBackLowers(s: Sys, h: TaskId)
    requires Shape(s) && Running(s) && Enabled(s, TakeBack) && HeldBy(s, s.stage[s.current].m, h)
    ensures var r, m := Next(s, TakeBack), s.stage[s.current].m;
            && h in s.books.held && h in s.books.base && h in s.books.prio && h in r.books.prio && m in s.waiting
            && (forall u :: u in s.books.prio && u != h ==> u in r.books.prio && r.books.prio[u] == s.books.prio[u])
            && (s.books.held[h] != 1 ==> r.books.prio[h] == s.books.prio[h])
            && (s.books.held[h] == 1 ==>
                  && s.books.base[h] <= r.books.prio[h]
                  && (s.waiting[m] == [] ==> r.books.prio[h] == s.books.base[h])
                  && (s.waiting[m] != [] ==>
                        var w := s.waiting[m][0];
                        && w in s.books.prio && s.books.prio[w] <= r.books.prio[h]
                        && (r.books.prio[h] == s.books.base[h] || r.books.prio[h] == s.books.prio[w])))
  {
    TakeBackIs(s, s.stage[s.current].m, h);
    HeadIs(s, s.stage[s.current].m);
  }

  // ------------------------------------------------------------------ whole runs

  /** Somewhere on the run task t takes the mutex, takes its loan back, or blocks anew. */
  ghost predicate Settles(s: Sys, steps: seq<Step>, s': Sys, t: TaskId)
    requires Shape(s) && Running(s) && Run(s, steps, s')
    decreases |steps|
  {
    steps != [] && (
      || (s.current == t && (steps[0].Take? || steps[0].TakeBack? || steps[0].Block?))
      || (StepKeepsShape(s, steps[0]);
          StepKeepsRunning(s, steps[0]);
          Settles(Next(s, steps[0]), steps[1..], s', t)))
  }

  predicate Owes(p: Stage) {
    (Queues(p) && p.lent) || p.TakingBack?
  }

  lemma OweIsKept(s: Sys, step: Step, t: TaskId)
    requires Shape(s) && Running(s) && Enabled(s, step) && t in s.stage && Owes(s.stage[t])
    requires s.current == t ==> !step.Take? && !step.TakeBack? && !step.Block?
    ensures t in Next(s, step).stage && Owes(Next(s, step).stage[t])
  {
    if t == s.current && step.GiveUp? {
      GivingUpTakesBackExactly(s);
    } else {
      StageOf(s, step, t);
    }
  }

  /** A task whose priority was lent does not leave its take without settling: with the mutex,
      or with the loan taken back, unless it blocks anew and records what it lends then. */
  lemma {:induction false} LoansAreSettled(s: Sys, steps: seq<Step>, s': Sys, t: TaskId)
    requires Shape(s) && Running(s) && Run(s, steps, s') && t in s.stage && Owes(s.stage[t])
    requires t in s'.stage && !Contends(s'.stage[t])
    ensures Settles(s, steps, s', t)
    decreases |steps|
  {
    if steps != [] {
      StepKeepsShape(s, steps[0]);
      StepKeepsRunning(s, steps[0]);
      if !(s.current == t && (steps[0].Take? || steps[0].TakeBack? || steps[0].Block?)) {
        OweIsKept(s, steps[0], t);
        LoansAreSettled(Next(s, steps[0]), steps[1..], s', t);
      }
    }
  }
}
