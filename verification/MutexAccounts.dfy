/** Mutex accounting (queue.c and tasks.c): any number of tasks take, give, block on and
    time out on any number of mutexes, plain or recursive; who holds what, how many mutexes
    each task holds, and what that does to its priority.

    Each critical section is a step; the steps may come in any order. */
module MutexAccounts {
  import opened Common

  type MutexId = nat

  /** Whether the call count of a recursive mutex is about to follow its holder: taken and not
      counted yet, or counted down to zero and not given back yet. */
  datatype Phase = Settled | Entering | Leaving

  /** `count` is `uxMessagesWaiting`, `depth` is `uxRecursiveCallCount`. */
  datatype Mutex = Mutex(recursive: bool, count: nat, holder: Option<TaskId>, depth: nat, phase: Phase)

  datatype Sys = Sys(
    mutexes: map<MutexId, Mutex>,
    held: map<TaskId, nat>,      // uxMutexesHeld
    base: map<TaskId, nat>,
    prio: map<TaskId, nat>
  )

  ghost predicate Typed(s: Sys) {
    && s.held.Keys == s.base.Keys == s.prio.Keys
    && (forall m :: m in s.mutexes && s.mutexes[m].holder.Some? ==> s.mutexes[m].holder.value in s.held)
  }

  ghost function HeldBy(s: Sys, t: TaskId): set<MutexId> {
    set m | m in s.mutexes && s.mutexes[m].holder == Some(t)
  }

  ghost predicate MutexOk(x: Mutex) {
    && x.count == (if x.holder == None then 1 else 0)
    && (x.holder == None ==> x.depth == 0 && x.phase.Settled?)
    && (!x.recursive ==> x.depth == 0 && x.phase.Settled?)
    && (x.recursive && x.holder.Some? ==> (x.depth > 0 <==> x.phase.Settled?))
  }

  /** The books balance. */
  ghost predicate Inv(s: Sys) {
    && Typed(s)
    && (forall m :: m in s.mutexes ==> MutexOk(s.mutexes[m]))
    && (forall t :: t in s.held ==> s.held[t] == |HeldBy(s, t)|)
    && (forall t :: t in s.held ==> s.base[t] <= s.prio[t] && (s.held[t] == 0 ==> s.prio[t] == s.base[t]))
  }

  /** `BlockOn` is the inheritance by a task about to block, `TimeOut` the disinheritance
      after a timeout, `highest` the priority it read from the event list.  A recursive
      take by the holder, and the count after a first one, are `Enter`; a recursive give is
      `Leave`, followed by `Give` when the count has come to zero. */
  datatype Step =
    | Take(t: TaskId, m: MutexId)
    | Give(t: TaskId, m: MutexId)
    | BlockOn(t: TaskId, m: MutexId)
    | TimeOut(m: MutexId, highest: nat)
    | Enter(t: TaskId, m: MutexId)
    | Leave(t: TaskId, m: MutexId)

  /** A plain mutex is given at once, a recursive one when its count has come to zero. */
  predicate MayGive(x: Mutex) {
    !x.recursive || x.phase.Leaving?
  }

  predicate Enabled(s: Sys, step: Step) {
    match step
    case Take(t, m) => t in s.held && m in s.mutexes && s.mutexes[m].count > 0
    case Give(t, m) => m in s.mutexes && s.mutexes[m].holder == Some(t) && MayGive(s.mutexes[m])
    case BlockOn(t, m) => t in s.held && m in s.mutexes && s.mutexes[m].holder.Some?
    case TimeOut(m, _) => m in s.mutexes && s.mutexes[m].holder.Some?
    case Enter(t, m) =>
      m in s.mutexes && s.mutexes[m].recursive && s.mutexes[m].holder == Some(t) && !s.mutexes[m].phase.Leaving?
    case Leave(t, m) =>
      m in s.mutexes && s.mutexes[m].recursive && s.mutexes[m].holder == Some(t) && s.mutexes[m].phase.Settled?
  }

  /** The take of `xQueueSemaphoreTake`. */
  function TakeStep(s: Sys, t: TaskId, m: MutexId): Sys
    requires t in s.held && m in s.mutexes && s.mutexes[m].count > 0
  {
    var x := s.mutexes[m];
    var phase := if x.recursive then Entering else Settled;
    s.(mutexes := s.mutexes[m := x.(count := x.count - 1, holder := Some(t), phase := phase)],
       held := s.held[t := s.held[t] + 1])
  }

  /** The mutex part of `prvCopyDataToQueue` with `xTaskPriorityDisinherit`: the priority
      goes back to the base priority only with the last mutex. */
  ghost function GiveStep(s: Sys, t: TaskId, m: MutexId): Sys
    requires Inv(s) && m in s.mutexes && s.mutexes[m].holder == Some(t)
  {
    HolderCounts(s, t, m);
    var x := s.mutexes[m];
    var r := s.(mutexes := s.mutexes[m := x.(count := x.count + 1, holder := None, phase := Settled)],
                 held := s.held[t := s.held[t] - 1]);
    if s.prio[t] != s.base[t] && r.held[t] == 0 then r.(prio := s.prio[t := s.base[t]]) else r
  }

  /** `xTaskPriorityInherit`. */
  function BlockStep(s: Sys, t: TaskId, h: TaskId): Sys
    requires t in s.prio && h in s.prio
  {
    if s.prio[h] < s.prio[t] then s.(prio := s.prio[h := s.prio[t]]) else s
  }

  /** `vTaskPriorityDisinheritAfterTimeout`: only a holder of this one mutex is changed. */
  function TimeOutStep(s: Sys, h: TaskId, highest: nat): Sys
    requires h in s.prio && h in s.base && h in s.held
  {
    var use := if s.base[h] < highest then highest else s.base[h];
    if s.prio[h] != use && s.held[h] == 1 then s.(prio := s.prio[h := use]) else s
  }

  /** One more call counted. */
  function Entered(x: Mutex): Mutex {
    x.(depth := x.depth + 1, phase := Settled)
  }

  /** One call less. */
  function Left(x: Mutex): Mutex
    requires x.depth > 0
  {
    x.(depth := x.depth - 1, phase := if x.depth == 1 then Leaving else Settled)
  }

  ghost function Next(s: Sys, step: Step): Sys
    requires Inv(s) && Enabled(s, step)
  {
    match step
    case Take(t, m) => TakeStep(s, t, m)
    case Give(t, m) => GiveStep(s, t, m)
    case BlockOn(t, m) => BlockStep(s, t, s.mutexes[m].holder.value)
    case TimeOut(m, highest) => TimeOutStep(s, s.mutexes[m].holder.value, highest)
    case Enter(t, m) => s.(mutexes := s.mutexes[m := Entered(s.mutexes[m])])
    case Leave(t, m) => s.(mutexes := s.mutexes[m := Left(s.mutexes[m])])
  }

  /** No step adds a mutex or a task. */
  predicate SameKeys(s: Sys, r: Sys) {
    r.mutexes.Keys == s.mutexes.Keys && r.held.Keys == s.held.Keys
  }

  /** The assertions of both disinherit functions: a holder's count is never zero. */
  lemma HolderCounts(s: Sys, t: TaskId, m: MutexId)
    requires Inv(s) && m in s.mutexes && s.mutexes[m].holder == Some(t)
    ensures t in s.held && s.held[t] > 0
  {
    assert m in HeldBy(s, t);
  }

  // ------------------------------------------------------------------ every step keeps the books

  lemma HolderChanges(s: Sys, r: Sys, m: MutexId, u: TaskId)
    requires m in s.mutexes && m in r.mutexes && r.mutexes == s.mutexes[m := r.mutexes[m]]
    ensures HeldBy(r, u) == if r.mutexes[m].holder == Some(u) then HeldBy(s, u) + {m} else HeldBy(s, u) - {m}
  {
  }

  /** Every task's count is that of the mutexes it holds. */
  ghost predicate BooksOf(s: Sys) {
    forall t :: t in s.held ==> s.held[t] == |HeldBy(s, t)|
  }

  /** The rest of the invariant, for a step that changes mutex m. */
  lemma OneMutexChanged(s: Sys, r: Sys, m: MutexId)
    requires Inv(s) && m in r.mutexes && r.mutexes == s.mutexes[m := r.mutexes[m]] && MutexOk(r.mutexes[m])
    requires r.held.Keys == s.held.Keys && r.base == s.base && r.prio.Keys == s.prio.Keys
    requires r.mutexes[m].holder.Some? ==> r.mutexes[m].holder.value in s.held
    requires BooksOf(r)
    requires forall t :: t in s.held ==> r.base[t] <= r.prio[t] && (r.held[t] == 0 ==> r.prio[t] == r.base[t])
    ensures Inv(r)
  {
  }

  lemma TakeKeepsInv(s: Sys, t: TaskId, m: MutexId)
    requires Inv(s) && Enabled(s, Take(t, m))
    ensures Inv(TakeStep(s, t, m))
  {
    var r := TakeStep(s, t, m);
    assert BooksOf(r) by { TakeKeepsCounts(s, r, t, m); }
    OneMutexChanged(s, r, m);
  }

  lemma TakeKeepsCounts(s: Sys, r: Sys, t: TaskId, m: MutexId)
    requires Inv(s) && m in s.mutexes && s.mutexes[m].holder == None && t in s.held
    requires m in r.mutexes && r.mutexes == s.mutexes[m := r.mutexes[m]] && r.mutexes[m].holder == Some(t)
    requires r.held == s.held[t := s.held[t] + 1]
    ensures forall u :: u in r.held ==> r.held[u] == |HeldBy(r, u)|
  {
    forall u | u in r.held ensures r.held[u] == |HeldBy(r, u)| {
      HolderChanges(s, r, m, u);
      assert m !in HeldBy(s, u);
    }
  }

  lemma GiveKeepsCounts(s: Sys, r: Sys, t: TaskId, m: MutexId, x: Mutex)
    requires Inv(s) && m in s.mutexes && s.mutexes[m].holder == Some(t) && t in s.held && s.held[t] > 0
    requires r.mutexes == s.mutexes[m := x] && x.holder == None && r.held == s.held[t := s.held[t] - 1]
    ensures forall u :: u in r.held ==> r.held[u] == |HeldBy(r, u)|
  {
    forall u | u in r.held ensures r.held[u] == |HeldBy(r, u)| {
      HolderChanges(s, r, m, u);
      if u == t { assert m in HeldBy(s, t); }
    }
  }

  lemma GiveIs(s: Sys, t: TaskId, m: MutexId)
    requires Inv(s) && Enabled(s, Give(t, m))
    ensures t in s.held && s.held[t] > 0
    ensures var r := GiveStep(s, t, m);
            && r.mutexes == s.mutexes[m := s.mutexes[m].(count := 1, holder := None, phase := Settled)]
            && r.held == s.held[t := s.held[t] - 1] && r.base == s.base && r.prio.Keys == s.prio.Keys
            && (forall u :: u in s.held ==> r.base[u] <= r.prio[u] && (r.held[u] == 0 ==> r.prio[u] == r.base[u]))
  {
    HolderCounts(s, t, m);
  }

  lemma GiveKeepsInv(s: Sys, t: TaskId, m: MutexId)
    requires Inv(s) && Enabled(s, Give(t, m))
    ensures Inv(GiveStep(s, t, m))
  {
    var r := GiveStep(s, t, m);
    GiveIs(s, t, m);
    assert BooksOf(r) by { GiveKeepsCounts(s, r, t, m, r.mutexes[m]); }
    OneMutexChanged(s, r, m);
  }

  lemma DepthKeepsInv(s: Sys, m: MutexId, x: Mutex)
    requires Inv(s) && m in s.mutexes && x.holder == s.mutexes[m].holder && MutexOk(x)
    ensures Inv(s.(mutexes := s.mutexes[m := x]))
  {
    forall u | u in s.held ensures HeldBy(s.(mutexes := s.mutexes[m := x]), u) == HeldBy(s, u) {
    }
  }

  lemma PriorityKeepsInv(s: Sys, h: TaskId, m: MutexId, p: nat)
    requires Inv(s) && m in s.mutexes && s.mutexes[m].holder == Some(h) && h in s.base && s.base[h] <= p
    ensures Inv(s.(prio := s.prio[h := p]))
  {
    HolderCounts(s, h, m);
    var r := s.(prio := s.prio[h := p]);
    forall u | u in r.held ensures HeldBy(r, u) == HeldBy(s, u) {
    }
  }

  lemma BlockKeepsInv(s: Sys, t: TaskId, m: MutexId)
    requires Inv(s) && Enabled(s, BlockOn(t, m))
    ensures Inv(BlockStep(s, t, s.mutexes[m].holder.value))
  {
    var h := s.mutexes[m].holder.value;
    if s.prio[h] < s.prio[t] { PriorityKeepsInv(s, h, m, s.prio[t]); }
  }

  lemma TimeOutKeepsInv(s: Sys, m: MutexId, highest: nat)
    requires Inv(s) && Enabled(s, TimeOut(m, highest))
    ensures Inv(TimeOutStep(s, s.mutexes[m].holder.value, highest))
  {
    var h := s.mutexes[m].holder.value;
    PriorityKeepsInv(s, h, m, if s.base[h] < highest then highest else s.base[h]);
  }

  lemma StepKeepsInv(s: Sys, step: Step)
    requires Inv(s) && Enabled(s, step)
    ensures Inv(Next(s, step))
  {
    match step
    case Take(t, m) => TakeKeepsInv(s, t, m);
    case Give(t, m) => GiveKeepsInv(s, t, m);
    case BlockOn(t, m) => BlockKeepsInv(s, t, m);
    case TimeOut(m, highest) => TimeOutKeepsInv(s, m, highest);
    case Enter(t, m) => DepthKeepsInv(s, m, Entered(s.mutexes[m]));
    case Leave(t, m) => DepthKeepsInv(s, m, Left(s.mutexes[m]));
  }

  ghost predicate Initial(s: Sys) {
    && Typed(s) && s.prio == s.base
    && (forall t :: t in s.held ==> s.held[t] == 0)
    && (forall m :: m in s.mutexes ==> s.mutexes[m] == Mutex(s.mutexes[m].recursive, 1, None, 0, Settled))
  }

  ghost predicate Run(s: Sys, steps: seq<Step>, s': Sys)
    requires Inv(s)
    decreases |steps|
  {
    if steps == [] then s' == s
    else Enabled(s, steps[0]) && (StepKeepsInv(s, steps[0]); Run(Next(s, steps[0]), steps[1..], s'))
  }

  lemma {:induction false} RunKeepsInv(s: Sys, steps: seq<Step>, s': Sys)
    requires Inv(s) && Run(s, steps, s')
    ensures Inv(s')
    decreases |steps|
  {
    if steps != [] {
      StepKeepsInv(s, steps[0]);
      RunKeepsInv(Next(s, steps[0]), steps[1..], s');
    }
  }

  lemma InitialInv(s: Sys)
    requires Initial(s)
    ensures Inv(s)
  {
    forall t | t in s.held ensures HeldBy(s, t) == {} {
    }
  }

  /** In every reachable state each task's count is the number of mutexes it holds, a mutex
      can be taken exactly when nobody holds it, no task runs below its base priority, and
      one that holds nothing runs at it. */
  lemma BooksBalance(s: Sys, steps: seq<Step>, s': Sys)
    requires Initial(s) && Inv(s) && Run(s, steps, s')
    ensures forall t :: t in s'.held ==> s'.held[t] == |HeldBy(s', t)|
    ensures forall m :: m in s'.mutexes ==>
            s'.mutexes[m].count <= 1 && (s'.mutexes[m].count == 1 <==> s'.mutexes[m].holder == None)
    ensures forall t :: t in s'.held ==> t in s'.base && t in s'.prio && s'.base[t] <= s'.prio[t]
    ensures forall t :: t in s'.held && s'.held[t] == 0 ==> s'.prio[t] == s'.base[t]
  {
    RunKeepsInv(s, steps, s');
  }

  // ------------------------------------------------------------------ recursive mutexes

  /** What a step adds to the takes less the gives of recursive mutex m by task t.  A take is
      counted when its call count is. */
  function Counted(step: Step, t: TaskId, m: MutexId): int {
    if step == Enter(t, m) then 1 else if step == Leave(t, m) then -1 else 0
  }

  /** Takes minus gives. */
  function Balance(steps: seq<Step>, t: TaskId, m: MutexId): int {
    if steps == [] then 0 else Counted(steps[0], t, m) + Balance(steps[1..], t, m)
  }

  /** With `open` takes not yet given back: the task holds the mutex, as deep as that, or it
      has just taken it for the first time, or is just giving it back for the last. */
  ghost predicate Open(s: Sys, t: TaskId, m: MutexId, open: int) {
    && m in s.mutexes && s.mutexes[m].recursive
    && if s.mutexes[m].holder == Some(t) then open == s.mutexes[m].depth else open == 0
  }

  /** A step that changes mutex m, if at all, to r[m]. */
  lemma OneMutexStep(s: Sys, step: Step, m: MutexId)
    requires Inv(s) && Enabled(s, step) && m in s.mutexes
    ensures m in Next(s, step).mutexes
    ensures Next(s, step).mutexes[m] ==
            match step
            case Take(t, n) => if n == m then TakeStep(s, t, m).mutexes[m] else s.mutexes[m]
            case Give(t, n) =>
              if n == m then s.mutexes[m].(count := s.mutexes[m].count + 1, holder := None, phase := Settled)
              else s.mutexes[m]
            case Enter(_, n) => if n == m then Entered(s.mutexes[m]) else s.mutexes[m]
            case Leave(_, n) => if n == m then Left(s.mutexes[m]) else s.mutexes[m]
            case _ => s.mutexes[m]
  {
  }

  /** Only its holder's calls change the depth of a mutex, and only its release or a take its
      holder. */
  lemma OneStep(s: Sys, step: Step, t: TaskId, m: MutexId, open: int)
    requires Inv(s) && Enabled(s, step) && Open(s, t, m, open)
    ensures Open(Next(s, step), t, m, open + Counted(step, t, m))
  {
    OneMutexStep(s, step, m);
  }

  lemma {:induction false} RunTracksBalance(s: Sys, steps: seq<Step>, s': Sys, t: TaskId, m: MutexId, open: int)
    requires Inv(s) && Run(s, steps, s') && Open(s, t, m, open)
    ensures Inv(s') && Open(s', t, m, open + Balance(steps, t, m))
    decreases |steps|
  {
    if steps != [] {
      StepKeepsInv(s, steps[0]);
      OneStep(s, steps[0], t, m, open);
      RunTracksBalance(Next(s, steps[0]), steps[1..], s', t, m, open + Counted(steps[0], t, m));
    }
  }

  /** A recursive mutex is released exactly when gives match takes, whatever other tasks do
      meanwhile, with this mutex and with others, in any order: in every reachable state a
      task holds it if and only if it has taken it more often than given it back, and as
      deep as that; only between taking it and counting that, and between counting the last
      give and making it, does a task hold it with nothing to give back. */
  lemma ReleasedExactlyWhenMatched(s: Sys, steps: seq<Step>, s': Sys, t: TaskId, m: MutexId)
    requires Initial(s) && Inv(s) && Run(s, steps, s') && m in s.mutexes && s.mutexes[m].recursive
    ensures m in s'.mutexes && Balance(steps, t, m) >= 0
    ensures s'.mutexes[m].phase.Settled? ==> (s'.mutexes[m].holder == Some(t) <==> Balance(steps, t, m) > 0)
    ensures s'.mutexes[m].holder == Some(t) ==> s'.mutexes[m].depth == Balance(steps, t, m)
    ensures s'.mutexes[m].holder != Some(t) ==> Balance(steps, t, m) == 0
  {
    RunTracksBalance(s, steps, s', t, m, 0);
  }

  /** So the give that makes them match, and no other, is followed by the release. */
  lemma MatchingGiveReleases(s: Sys, steps: seq<Step>, s': Sys, t: TaskId, m: MutexId)
    requires Initial(s) && Inv(s) && Run(s, steps, s') && Enabled(s', Leave(t, m)) && m in s.mutexes
    requires s.mutexes[m].recursive
    ensures Inv(s') && Inv(Next(s', Leave(t, m)))
    ensures var r := Next(s', Leave(t, m));
            && (Enabled(r, Give(t, m)) <==> Balance(steps, t, m) == 1)
            && (Enabled(r, Give(t, m)) ==>
                  Inv(Next(r, Give(t, m))) && m in Next(r, Give(t, m)).mutexes
                  && Next(r, Give(t, m)).mutexes[m] == Mutex(true, 1, None, 0, Settled))
  {
    RunTracksBalance(s, steps, s', t, m, 0);
    StepKeepsInv(s', Leave(t, m));
    if Balance(steps, t, m) == 1 { StepKeepsInv(Next(s', Leave(t, m)), Give(t, m)); }
  }

  // ------------------------------------------------------------------ in place

  /** The mutexes and the task control blocks, changed in place by one task at a time. */
  class MutexTable {
    var mutexes: map<MutexId, Mutex>
    var held: map<TaskId, nat>
    var base: map<TaskId, nat>
    var prio: map<TaskId, nat>

    constructor (tasks: map<TaskId, nat>, ids: set<MutexId>, recursive: set<MutexId>)
      ensures Initial(Contents()) && base == tasks && mutexes.Keys == ids
    {
      mutexes := map m | m in ids :: Mutex(m in recursive, 1, None, 0, Settled);
      held := map t | t in tasks :: 0;
      base, prio := tasks, tasks;
    }

    function Contents(): Sys
      reads this
    {
      Sys(mutexes, held, base, prio)
    }

    /** The successful branch of `xQueueSemaphoreTake`, with `pvTaskIncrementMutexHeldCount`. */
    method TakeMutex(t: TaskId, m: MutexId) returns (taken: bool)
      requires t in held && m in mutexes
      modifies this
      ensures taken <==> old(mutexes)[m].count > 0
      ensures Contents() == if taken then TakeStep(old(Contents()), t, m) else old(Contents())
    {
      taken := mutexes[m].count > 0;
      if taken {
        held := held[t := held[t] + 1];
        mutexes := mutexes[m := mutexes[m].(count := mutexes[m].count - 1, holder := Some(t),
                                                phase := if mutexes[m].recursive then Entering else Settled)];
      }
    }

    /** `xTaskPriorityInherit` of holder h by task t; says whether h has t's priority lent. */
    method PriorityInherit(t: TaskId, h: TaskId) returns (occurred: bool)
      requires t in prio && h in prio && h in base
      modifies this`prio
      ensures Contents() == BlockStep(old(Contents()), t, h)
      ensures occurred <==> old(prio)[h] < prio[t] || base[h] < prio[t]
    {
      if prio[h] < prio[t] {
        prio := prio[h := prio[t]];
        occurred := true;
      } else {
        occurred := base[h] < prio[t];
      }
    }

    /** `xTaskPriorityDisinherit` and the release of the mutex in `prvCopyDataToQueue`; says
        whether the giver's priority went down. */
    method GiveMutex(t: TaskId, m: MutexId) returns (lowered: bool)
      requires Inv(Contents()) && m in mutexes && mutexes[m].holder == Some(t)
      modifies this
      ensures Contents() == GiveStep(old(Contents()), t, m)
      ensures lowered <==> prio[t] != old(prio)[t]
    {
      HolderCounts(Contents(), t, m);
      held := held[t := held[t] - 1];
      lowered := prio[t] != base[t] && held[t] == 0;
      if lowered { prio := prio[t := base[t]]; }
      mutexes := mutexes[m := mutexes[m].(count := mutexes[m].count + 1, holder := None, phase := Settled)];
    }

    /** `vTaskPriorityDisinheritAfterTimeout`. */
    method PriorityDisinheritAfterTimeout(h: TaskId, highest: nat)
      requires h in prio && h in base && h in held
      modifies this`prio
      ensures Contents() == TimeOutStep(old(Contents()), h, highest)
    {
      var use := if base[h] < highest then highest else base[h];
      if prio[h] != use && held[h] == 1 { prio := prio[h := use]; }
    }

    /** `xQueueGiveMutexRecursive`: refused unless the task holds the mutex, which goes back
        with the last call. */
    method GiveRecursive(t: TaskId, m: MutexId) returns (given: bool)
      requires Inv(Contents()) && m in mutexes && mutexes[m].recursive
      requires mutexes[m].holder == Some(t) ==> mutexes[m].phase.Settled?
      modifies this
      ensures given <==> old(mutexes)[m].holder == Some(t)
      ensures !given ==> Contents() == old(Contents())
      ensures given ==> var r := Next(old(Contents()), Leave(t, m));
                        && Inv(r)
                        && Contents() == if Enabled(r, Give(t, m)) then Next(r, Give(t, m)) else r
    {
      given := mutexes[m].holder == Some(t);
      if given {
        ghost var s := Contents();
        StepKeepsInv(s, Leave(t, m));
        mutexes := mutexes[m := Left(mutexes[m])];
        assert Contents() == Next(s, Leave(t, m));
        if mutexes[m].depth == 0 {
          var lowered := GiveMutex(t, m);
        }
      }
    }
  }
}
