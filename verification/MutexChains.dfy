/** Priority inheritance over any number of mutexes, under the preemptive scheduler: when
    every holder outranks the tasks that wait for its mutexes.

    `books` is the state of module MutexAccounts.  Each mutex has its event list, ordered by
    the values of the event items when a task is inserted; a task whose priority changes while
    it waits has its value rewritten where it stands, so a list need not stay in order. */
module MutexChains {
  import opened Common
  import opened Lists
  import A = MutexAccounts

  type MutexId = A.MutexId

  /** Where a task is in a take; `lent` is `xInheritanceOccurred`.  A task that has not waited
      yet is still `Away` while it tries, and `TakingBack` has timed out and found the mutex
      held. */
  datatype Stage =
    | Away
    | Sleeping
    | Trying(m: MutexId, lent: bool)
    | Waiting(m: MutexId, lent: bool)
    | TakingBack(m: MutexId)

  datatype Sys = Sys(
    max: nat,                             // configMAX_PRIORITIES
    books: A.Sys,
    waiting: map<MutexId, seq<TaskId>>,   // xTasksWaitingToReceive of each mutex
    value: map<TaskId, nat>,              // values of the event items
    stage: map<TaskId, Stage>,
    current: TaskId
  )

  /** All but `Wake` and `Expire`, which an interrupt makes, are steps of the running task;
      `next` is the task that runs after the step, if the step switches. */
  datatype Step =
    | Take(m: MutexId)
    | Block(m: MutexId, next: TaskId)
    | Give(m: MutexId, next: TaskId)
    | GiveUp
    | TakeBack
    | Enter(m: MutexId)
    | Leave(m: MutexId)
    | Sleep(next: TaskId)
    | Wake(t: TaskId, next: TaskId)
    | Expire(t: TaskId, next: TaskId)
    | Switch(next: TaskId)

  predicate Runs(p: Stage) {
    !p.Sleeping? && !p.Waiting?
  }

  predicate Contends(p: Stage) {
    !p.Away? && !p.Sleeping?
  }

  predicate Queues(p: Stage) {
    p.Waiting? || p.Trying?
  }

  predicate HeldBy(s: Sys, m: MutexId, h: TaskId) {
    m in s.books.mutexes && s.books.mutexes[m].holder == Some(h)
  }

  predicate IsFree(s: Sys, m: MutexId) {
    m in s.books.mutexes && s.books.mutexes[m].holder == None
  }

  // ------------------------------------------------------------------ well-formed states

  ghost predicate Typed(s: Sys) {
    && A.Inv(s.books)
    && s.waiting.Keys == s.books.mutexes.Keys
    && s.stage.Keys == s.value.Keys == s.books.held.Keys
    && (forall t :: t in s.books.prio ==> s.books.prio[t] < s.max)
  }

  /** Whoever writes a priority writes the item value with it. */
  ghost predicate ValuesTell(max: nat, value: map<TaskId, nat>, prio: map<TaskId, nat>) {
    forall t :: t in value ==> t in prio && value[t] == max - prio[t]
  }

  predicate WaitsFor(stage: map<TaskId, Stage>, t: TaskId, m: MutexId) {
    t in stage && stage[t].Waiting? && stage[t].m == m
  }

  ghost predicate ListOk(list: seq<TaskId>, stage: map<TaskId, Stage>, m: MutexId) {
    Distinct(list) && forall t :: t in list <==> WaitsFor(stage, t, m)
  }

  /** The tasks that wait for a mutex are on its event list, once, and nobody else is. */
  ghost predicate Placed(waiting: map<MutexId, seq<TaskId>>, stage: map<TaskId, Stage>) {
    forall m :: m in waiting ==> ListOk(waiting[m], stage, m)
  }

  predicate ApartFrom(mutexes: map<MutexId, A.Mutex>, p: Stage, t: TaskId) {
    Contends(p) ==> p.m in mutexes && mutexes[p.m].holder != Some(t)
  }

  /** Nobody in the take of a mutex holds it. */
  ghost predicate Apart(mutexes: map<MutexId, A.Mutex>, stage: map<TaskId, Stage>) {
    forall t :: t in stage ==> ApartFrom(mutexes, stage[t], t)
  }

  ghost predicate Shape(s: Sys) {
    && Typed(s) && ValuesTell(s.max, s.value, s.books.prio)
    && Placed(s.waiting, s.stage) && Apart(s.books.mutexes, s.stage)
  }

  predicate Running(s: Sys) {
    s.current in s.stage && Runs(s.stage[s.current])
  }

  /** What `taskSELECT_HIGHEST_PRIORITY_TASK` may select. */
  ghost predicate Selected(s: Sys, t: TaskId) {
    && t in s.stage && t in s.books.prio && Runs(s.stage[t])
    && forall u :: u in s.stage && Runs(s.stage[u]) ==> u in s.books.prio && s.books.prio[u] <= s.books.prio[t]
  }

  // ------------------------------------------------------------------ the steps

  /** The running task is at the head of the loop of the take of mutex m. */
  predicate MayTry(s: Sys, m: MutexId) {
    s.current in s.stage && (s.stage[s.current].Away? || (s.stage[s.current].Trying? && s.stage[s.current].m == m))
  }

  predicate IsTakingBack(s: Sys) {
    s.current in s.stage && s.stage[s.current].TakingBack?
  }

  ghost predicate Enabled(s: Sys, step: Step) {
    && s.current in s.stage
    && var p := s.stage[s.current];
       match step
       case Take(m) => MayTry(s, m) && A.Enabled(s.books, A.Take(s.current, m))
       case Block(m, next) =>
         MayTry(s, m) && A.Enabled(s.books, A.BlockOn(s.current, m)) && !HeldBy(s, m, s.current) && next in s.stage
       case Give(m, next) => p.Away? && A.Enabled(s.books, A.Give(s.current, m)) && next in s.stage
       case GiveUp => p.Trying? && p.m in s.books.mutexes && s.books.mutexes[p.m].holder.Some?
       case TakeBack => IsTakingBack(s)
       case Enter(m) => p.Away? && A.Enabled(s.books, A.Enter(s.current, m))
       case Leave(m) => p.Away? && A.Enabled(s.books, A.Leave(s.current, m))
       case Sleep(next) => p.Away? && next in s.stage
       case Wake(t, next) => t in s.stage && s.stage[t].Sleeping? && next in s.stage
       case Expire(t, next) => t in s.stage && s.stage[t].Waiting? && next in s.stage
       case Switch(next) => next in s.stage
  }

  function Went(s: Sys, p: Stage): Sys {
    s.(stage := s.stage[s.current := p])
  }

  /** The books after a call that changes the priority of task h, if any, and with it the value
      of its event item. */
  function Booked(s: Sys, b: A.Sys, h: TaskId): Sys
    requires h in s.books.prio && h in b.prio && b.prio[h] <= s.max
  {
    s.(books := b, value := Rewritten(s.max, s.value, s.books.prio, b.prio, h))
  }

  function Rewritten(max: nat, value: map<TaskId, nat>, prio: map<TaskId, nat>, prio': map<TaskId, nat>, h: TaskId)
    : map<TaskId, nat>
    requires h in prio && h in prio' && prio'[h] <= max
  {
    if prio'[h] != prio[h] then value[h := max - prio'[h]] else value
  }

  /** `uxListRemove` of a waiting task, which goes back to the head of its loop. */
  function Delisted(s: Sys, w: TaskId): Sys
    requires w in s.stage && s.stage[w].Waiting? && s.stage[w].m in s.waiting
  {
    var m := s.stage[w].m;
    s.(waiting := s.waiting[m := Remove(s.waiting[m], w)], stage := s.stage[w := Trying(m, s.stage[w].lent)])
  }

  /** `vTaskPlaceOnEventList` of the running task. */
  function Enlisted(s: Sys, m: MutexId, lent: bool): Sys
    requires m in s.waiting && Valued(s.waiting[m], s.value) && s.current in s.value
  {
    Went(s, Waiting(m, lent)).(waiting := s.waiting[m := Insert(s.waiting[m], s.value, s.current)])
  }

  /** `prvGetDisinheritPriorityAfterTimeout`. */
  function HeadPriority(s: Sys, m: MutexId): nat
    requires m in s.waiting && Valued(s.waiting[m], s.value)
    requires forall t :: t in s.value ==> s.value[t] <= s.max
  {
    if s.waiting[m] == [] then 0 else s.max - s.value[s.waiting[m][0]]
  }

  /** Whether `xTaskPriorityInherit` reports an inheritance. */
  predicate Inherits(s: Sys, h: TaskId)
    requires h in s.books.prio && h in s.books.base && s.current in s.books.prio
  {
    s.books.prio[h] < s.books.prio[s.current] || s.books.base[h] < s.books.prio[s.current]
  }

  ghost function BlockStep(s: Sys, m: MutexId, next: TaskId): Sys
    requires Shape(s) && Running(s) && Enabled(s, Block(m, next))
  {
    var h := s.books.mutexes[m].holder.value;
    LendingIs(s, m, h);
    var r := Booked(s, A.BlockStep(s.books, s.current, h), h);
    Enlisted(r, m, Inherits(s, h)).(current := next)
  }

  /** The giver's priority goes down with its last mutex. */
  ghost function GivenBooks(s: Sys, m: MutexId): A.Sys
    requires Shape(s) && HeldBy(s, m, s.current)
  {
    A.GiveStep(s.books, s.current, m)
  }

  /** `xQueueGenericSend` yields for a woken task above the giver, or, with nobody waiting, for
      a giver that came down. */
  ghost predicate Yields(s: Sys, m: MutexId)
    requires Shape(s) && HeldBy(s, m, s.current)
  {
    GivingIs(s, m);
    var b := GivenBooks(s, m);
    if s.waiting[m] == [] then b.prio[s.current] != s.books.prio[s.current]
    else b.prio[s.waiting[m][0]] > b.prio[s.current]
  }

  ghost function GiveStep(s: Sys, m: MutexId, next: TaskId): Sys
    requires Shape(s) && Enabled(s, Give(m, next))
  {
    GivingIs(s, m);
    var g := Booked(s, GivenBooks(s, m), s.current);
    var r := if s.waiting[m] == [] then g else Delisted(g, s.waiting[m][0]);
    r.(current := if Yields(s, m) then next else s.current)
  }

  /** `vTaskPriorityDisinheritAfterTimeout`, of whoever holds the mutex now. */
  ghost function TakeBackStep(s: Sys): Sys
    requires Shape(s) && IsTakingBack(s)
  {
    var m := s.stage[s.current].m;
    if IsFree(s, m) then Went(s, Away)
    else
      var h := s.books.mutexes[m].holder.value;
      TakingIs(s, m, h);
      Went(Booked(s, A.TimeOutStep(s.books, h, HeadPriority(s, m)), h), Away)
  }

  /** The steps that change neither holders nor priorities and put nobody onto a list. */
  predicate Quiet(step: Step) {
    step.GiveUp? || step.Sleep? || step.Wake? || step.Expire? || step.Switch?
  }

  predicate MayMove(s: Sys, step: Step) {
    && s.current in s.stage
    && match step
       case GiveUp => s.stage[s.current].Trying?
       case Sleep(_) => s.stage[s.current].Away?
       case Wake(t, _) => t in s.stage && s.stage[t].Sleeping?
       case Expire(t, _) => t in s.stage && s.stage[t].Waiting? && s.stage[t].m in s.waiting
       case Switch(_) => true
       case _ => false
  }

  function QuietNext(s: Sys, step: Step): Sys
    requires MayMove(s, step)
  {
    match step
    case GiveUp => Went(s, if s.stage[s.current].lent then TakingBack(s.stage[s.current].m) else Away)
    case Sleep(next) => Went(s, Sleeping).(current := next)
    case Wake(t, next) => s.(stage := s.stage[t := Away], current := next)
    case Expire(t, next) => Delisted(s, t).(current := next)
    case Switch(next) => s.(current := next)
  }

  ghost function Next(s: Sys, step: Step): Sys
    requires Shape(s) && Running(s) && Enabled(s, step)
  {
    match step
    case Take(m) => Went(s, Away).(books := A.TakeStep(s.books, s.current, m))
    case Block(m, next) => BlockStep(s, m, next)
    case Give(m, next) => GiveStep(s, m, next)
    case TakeBack => TakeBackStep(s)
    case Enter(m) => s.(books := A.Next(s.books, A.Enter(s.current, m)))
    case Leave(m) => s.(books := A.Next(s.books, A.Leave(s.current, m)))
    case _ => QuietNext(s, step)
  }

  ghost predicate SchedulerRuns(s: Sys, step: Step)
    requires Shape(s) && Running(s) && Enabled(s, step)
  {
    match step
    case Block(_, _) => true
    case Give(m, _) => Yields(s, m)
    case Sleep(_) => true
    case Switch(_) => true
    case _ => false
  }

  /** The scheduler selects a ready task of the highest priority whenever it runs. */
  ghost predicate Scheduled(s: Sys, step: Step)
    requires Shape(s) && Running(s) && Enabled(s, step)
  {
    var r := Next(s, step);
    r.current != s.current || SchedulerRuns(s, step) ==> Selected(r, r.current)
  }

  // ------------------------------------------------------------------ what the calls do to the books

  /** Nothing but the priority of task h changes, and that stays in range. */
  ghost predicate OnlyPriority(s: Sys, b: A.Sys, h: TaskId) {
    && A.Inv(b) && A.SameKeys(s.books, b) && b.base == s.books.base
    && h in s.books.prio && h in b.prio && b.prio[h] < s.max
    && OthersKept(s.books.prio, b.prio, h)
  }

  ghost predicate OthersKept(prio: map<TaskId, nat>, prio': map<TaskId, nat>, h: TaskId) {
    prio'.Keys == prio.Keys && forall u :: u in prio && u != h ==> prio'[u] == prio[u]
  }

  /** The mutexes keep their holders. */
  ghost predicate SameHolders(b: A.Sys, c: A.Sys) {
    forall n :: n in b.mutexes ==> n in c.mutexes && c.mutexes[n].holder == b.mutexes[n].holder
  }

  lemma HolderIsTask(s: Sys, m: MutexId, h: TaskId)
    requires Typed(s) && HeldBy(s, m, h)
    ensures h in s.books.held && h in s.books.prio && h in s.books.base && h in s.stage && m in s.waiting
    ensures s.books.held[h] > 0 && s.books.base[h] <= s.books.prio[h] < s.max
  {
    A.HolderCounts(s.books, h, m);
  }

  lemma LendIs(s: Sys, m: MutexId, h: TaskId)
    requires Typed(s) && HeldBy(s, m, h) && s.current in s.stage
    ensures h in s.books.prio && s.current in s.books.prio
    ensures var b := A.BlockStep(s.books, s.current, h);
            && OnlyPriority(s, b, h) && b.mutexes == s.books.mutexes && b.held == s.books.held
            && b.prio[h] >= s.books.prio[h] && b.prio[h] >= s.books.prio[s.current]
            && (b.prio[h] == s.books.prio[h] || b.prio[h] == s.books.prio[s.current])
  {
    HolderIsTask(s, m, h);
    A.BlockKeepsInv(s.books, s.current, m);
  }

  lemma LendingIs(s: Sys, m: MutexId, h: TaskId)
    requires Shape(s) && HeldBy(s, m, h) && s.current in s.stage
    ensures h in s.books.prio && h in s.books.base && h in s.stage && s.current in s.books.prio && m in s.waiting
    ensures var b := A.BlockStep(s.books, s.current, h);
            && OnlyPriority(s, b, h)
            && s.current in Booked(s, b, h).value && Valued(s.waiting[m], Booked(s, b, h).value)
  {
    HolderIsTask(s, m, h);
    LendIs(s, m, h);
    ListValued(s, m);
  }

  lemma ListValued(s: Sys, m: MutexId)
    requires Typed(s) && Placed(s.waiting, s.stage) && m in s.waiting
    ensures Valued(s.waiting[m], s.value)
  {
  }

  lemma GiverIs(s: Sys, m: MutexId)
    requires Typed(s) && HeldBy(s, m, s.current)
    ensures s.current in s.books.prio && s.current in s.books.base && s.current in s.books.held && m in s.waiting
    ensures var b := A.GiveStep(s.books, s.current, m);
            && b.prio.Keys == s.books.prio.Keys
            && b.prio[s.current] ==
               (if s.books.held[s.current] == 1 then s.books.base[s.current] else s.books.prio[s.current])
            && (forall u :: u in s.books.prio && u != s.current ==> b.prio[u] == s.books.prio[u])
  {
    HolderIsTask(s, m, s.current);
  }

  lemma HeadWaits(s: Sys, m: MutexId)
    requires Typed(s) && Placed(s.waiting, s.stage) && m in s.waiting && s.waiting[m] != []
    ensures var w := s.waiting[m][0];
            w in s.waiting[m] && w in s.books.prio && w in s.stage && s.stage[w].Waiting? && s.stage[w].m == m
  {
    assert s.waiting[m][0] in s.waiting[m];
  }

  lemma GivingIs(s: Sys, m: MutexId)
    requires Shape(s) && HeldBy(s, m, s.current)
    ensures s.current in s.books.prio && m in s.waiting
    ensures var b := GivenBooks(s, m);
            && s.current in b.prio && b.prio[s.current] <= s.max
            && (s.waiting[m] != [] ==>
                  var w := s.waiting[m][0]; w in b.prio && w in s.stage && s.stage[w].Waiting? && s.stage[w].m == m)
  {
    HolderIsTask(s, m, s.current);
    GiverIs(s, m);
    if s.waiting[m] != [] { HeadWaits(s, m); }
  }

  /** The priority read off the head is that of the task there. */
  lemma HeadIs(s: Sys, m: MutexId)
    requires Shape(s) && m in s.waiting
    ensures Valued(s.waiting[m], s.value) && forall t :: t in s.value ==> s.value[t] <= s.max
    ensures s.waiting[m] == [] ==> HeadPriority(s, m) == 0
    ensures s.waiting[m] != [] ==>
              s.waiting[m][0] in s.books.prio && HeadPriority(s, m) == s.books.prio[s.waiting[m][0]] < s.max
  {
    ListValued(s, m);
    if s.waiting[m] != [] { assert s.waiting[m][0] in s.waiting[m]; }
  }

  lemma TimeOutIs(s: Sys, m: MutexId, h: TaskId, p: nat)
    requires Typed(s) && HeldBy(s, m, h) && p < s.max
    ensures h in s.books.prio && h in s.books.base && h in s.books.held
    ensures OnlyPriority(s, A.TimeOutStep(s.books, h, p), h)
  {
    HolderIsTask(s, m, h);
    assert A.Inv(A.TimeOutStep(s.books, h, p)) by { A.TimeOutKeepsInv(s.books, m, p); }
  }

  lemma TakingIs(s: Sys, m: MutexId, h: TaskId)
    requires Shape(s) && HeldBy(s, m, h)
    ensures h in s.books.prio && h in s.books.base && h in s.books.held && h in s.stage && m in s.waiting
    ensures Valued(s.waiting[m], s.value) && forall t :: t in s.value ==> s.value[t] <= s.max
    ensures HeadPriority(s, m) < s.max && OnlyPriority(s, A.TimeOutStep(s.books, h, HeadPriority(s, m)), h)
  {
    HolderIsTask(s, m, h);
    HeadIs(s, m);
    TimeOutIs(s, m, h, HeadPriority(s, m));
  }

  // ------------------------------------------------------------------ every step keeps the shape

  /** No mutex has a new holder. */
  ghost predicate NoNewHolder(b: A.Sys, c: A.Sys) {
    forall m :: m in c.mutexes && c.mutexes[m].holder.Some? ==>
      m in b.mutexes && c.mutexes[m].holder == b.mutexes[m].holder
  }

  lemma NoNewHolderKeepsApart(b: A.Sys, c: A.Sys, stage: map<TaskId, Stage>)
    requires Apart(b.mutexes, stage) && NoNewHolder(b, c) && c.mutexes.Keys == b.mutexes.Keys
    ensures Apart(c.mutexes, stage)
  {
    forall t | t in stage ensures ApartFrom(c.mutexes, stage[t], t) {
      assert ApartFrom(b.mutexes, stage[t], t);
    }
  }

  lemma BookedKeepsShape(s: Sys, b: A.Sys, h: TaskId)
    requires Shape(s) && OnlyPriority(s, b, h) && NoNewHolder(s.books, b)
    ensures Shape(Booked(s, b, h))
  {
    NoNewHolderKeepsApart(s.books, b, s.stage);
    RewrittenTell(s.max, s.value, s.books.prio, b.prio, h);
    BookedKeepsTyped(s, b, h);
  }

  lemma BookedKeepsTyped(s: Sys, b: A.Sys, h: TaskId)
    requires Typed(s) && OnlyPriority(s, b, h)
    ensures Typed(Booked(s, b, h))
  {
  }

  lemma RewrittenTell(max: nat, value: map<TaskId, nat>, prio: map<TaskId, nat>, prio': map<TaskId, nat>, h: TaskId)
    requires ValuesTell(max, value, prio) && h in prio && h in prio' && prio'[h] <= max
    requires OthersKept(prio, prio', h)
    ensures ValuesTell(max, Rewritten(max, value, prio, prio', h), prio')
  {
  }

  /** A task moves on that neither waits nor goes to wait. */
  lemma MovedKeepsPlaced(waiting: map<MutexId, seq<TaskId>>, stage: map<TaskId, Stage>, t: TaskId, p: Stage)
    requires Placed(waiting, stage) && t in stage && !stage[t].Waiting? && !p.Waiting?
    ensures Placed(waiting, stage[t := p])
  {
    forall m | m in waiting ensures ListOk(waiting[m], stage[t := p], m) {
      assert ListOk(waiting[m], stage, m);
      assert forall u :: WaitsFor(stage[t := p], u, m) <==> WaitsFor(stage, u, m);
    }
  }

  lemma MovedKeepsShape(s: Sys, t: TaskId, p: Stage)
    requires Shape(s) && t in s.stage && !s.stage[t].Waiting? && !p.Waiting? && ApartFrom(s.books.mutexes, p, t)
    ensures Shape(s.(stage := s.stage[t := p]))
  {
    MovedKeepsPlaced(s.waiting, s.stage, t, p);
    MovedKeepsApart(s.books.mutexes, s.stage, t, p);
  }

  lemma MovedKeepsApart(mutexes: map<MutexId, A.Mutex>, stage: map<TaskId, Stage>, t: TaskId, p: Stage)
    requires Apart(mutexes, stage) && ApartFrom(mutexes, p, t)
    ensures Apart(mutexes, stage[t := p])
  {
    var r := stage[t := p];
    forall u | u in r ensures ApartFrom(mutexes, r[u], u) {
      if u != t { assert ApartFrom(mutexes, stage[u], u); }
    }
  }

  lemma DelistedKeepsPlaced(waiting: map<MutexId, seq<TaskId>>, stage: map<TaskId, Stage>, w: TaskId, p: Stage)
    requires Placed(waiting, stage) && w in stage && stage[w].Waiting? && stage[w].m in waiting && !p.Waiting?
    ensures var m := stage[w].m; Placed(waiting[m := Remove(waiting[m], w)], stage[w := p])
  {
    var m := stage[w].m;
    forall n | n in waiting ensures ListOk(waiting[m := Remove(waiting[m], w)][n], stage[w := p], n) {
      assert ListOk(waiting[n], stage, n);
      assert forall u :: WaitsFor(stage[w := p], u, n) <==> WaitsFor(stage, u, n) && u != w;
      RemoveFacts(waiting[m], w);
    }
  }

  lemma DelistedKeepsShape(s: Sys, w: TaskId)
    requires Shape(s) && w in s.stage && s.stage[w].Waiting?
    ensures s.stage[w].m in s.waiting && Shape(Delisted(s, w))
  {
    var p := Trying(s.stage[w].m, s.stage[w].lent);
    assert ApartFrom(s.books.mutexes, s.stage[w], w);
    DelistedKeepsPlaced(s.waiting, s.stage, w, p);
    MovedKeepsApart(s.books.mutexes, s.stage, w, p);
  }

  lemma EnlistedKeepsPlaced(waiting: map<MutexId, seq<TaskId>>, stage: map<TaskId, Stage>, v: map<TaskId, nat>,
                            t: TaskId, m: MutexId, lent: bool)
    requires Placed(waiting, stage) && t in stage && !stage[t].Waiting? && m in waiting
    requires Valued(waiting[m], v) && t in v
    ensures Placed(waiting[m := Insert(waiting[m], v, t)], stage[t := Waiting(m, lent)])
  {
    var p := Waiting(m, lent);
    forall n | n in waiting ensures ListOk(waiting[m := Insert(waiting[m], v, t)][n], stage[t := p], n) {
      assert ListOk(waiting[n], stage, n);
      forall u ensures WaitsFor(stage[t := p], u, n) <==> WaitsFor(stage, u, n) || (u == t && n == m) {
        if u == t { assert stage[t := p][u] == p; }
      }
      InsertMembers(waiting[m], v, t);
      if n == m { InsertDistinct(waiting[m], v, t); }
    }
  }

  lemma EnlistedKeepsShape(s: Sys, m: MutexId, lent: bool)
    requires Shape(s) && Running(s) && m in s.waiting && !HeldBy(s, m, s.current)
    ensures Valued(s.waiting[m], s.value) && s.current in s.value && Shape(Enlisted(s, m, lent))
  {
    ListValued(s, m);
    EnlistedKeepsPlaced(s.waiting, s.stage, s.value, s.current, m, lent);
    MovedKeepsApart(s.books.mutexes, s.stage, s.current, Waiting(m, lent));
  }

  lemma TakeKeepsShape(s: Sys, m: MutexId)
    requires Shape(s) && Running(s) && Enabled(s, Take(m))
    ensures Shape(Next(s, Take(m)))
  {
    MovedKeepsPlaced(s.waiting, s.stage, s.current, Away);
    TakerIsAway(s, m);
    assert Typed(Next(s, Take(m))) by { A.TakeKeepsInv(s.books, s.current, m); }
  }

  lemma TakerIsAway(s: Sys, m: MutexId)
    requires Apart(s.books.mutexes, s.stage) && A.Enabled(s.books, A.Take(s.current, m))
    ensures Apart(A.TakeStep(s.books, s.current, m).mutexes, s.stage[s.current := Away])
  {
    var stage := s.stage[s.current := Away];
    forall t | t in stage ensures ApartFrom(A.TakeStep(s.books, s.current, m).mutexes, stage[t], t) {
      if t != s.current { assert ApartFrom(s.books.mutexes, s.stage[t], t); }
    }
  }

  lemma BlockKeepsShape(s: Sys, m: MutexId, next: TaskId)
    requires Shape(s) && Running(s) && Enabled(s, Block(m, next))
    ensures Shape(Next(s, Block(m, next)))
  {
    var h := s.books.mutexes[m].holder.value;
    LendingIs(s, m, h);
    LendIs(s, m, h);
    var r := Booked(s, A.BlockStep(s.books, s.current, h), h);
    BookedKeepsShape(s, A.BlockStep(s.books, s.current, h), h);
    EnlistedKeepsShape(r, m, Inherits(s, h));
  }

  lemma GiveBooksIs(s: Sys, m: MutexId)
    requires Typed(s) && A.Enabled(s.books, A.Give(s.current, m))
    ensures OnlyPriority(s, A.GiveStep(s.books, s.current, m), s.current)
  {
    GiverIs(s, m);
    A.GiveKeepsInv(s.books, s.current, m);
    GiveHolders(s, m);
  }

  lemma GiveHolders(s: Sys, m: MutexId)
    requires Typed(s) && A.Enabled(s.books, A.Give(s.current, m))
    ensures var b := A.GiveStep(s.books, s.current, m);
            && A.SameKeys(s.books, b) && b.base == s.books.base && NoNewHolder(s.books, b)
            && b.mutexes[m].holder == None
            && (forall n :: n in s.books.mutexes && n != m ==> b.mutexes[n] == s.books.mutexes[n])
            && b.held == s.books.held[s.current := s.books.held[s.current] - 1]
  {
    A.GiveIs(s.books, s.current, m);
  }

  lemma GiveKeepsShape(s: Sys, m: MutexId, next: TaskId)
    requires Shape(s) && Running(s) && Enabled(s, Give(m, next))
    ensures Shape(Next(s, Give(m, next)))
  {
    GivingIs(s, m);
    GiveBooksIs(s, m);
    GiveHolders(s, m);
    var g := Booked(s, GivenBooks(s, m), s.current);
    BookedKeepsShape(s, GivenBooks(s, m), s.current);
    if s.waiting[m] != [] { DelistedKeepsShape(g, s.waiting[m][0]); }
  }

  lemma TakeBackKeepsShape(s: Sys)
    requires Shape(s) && IsTakingBack(s)
    ensures Shape(TakeBackStep(s))
  {
    var m := s.stage[s.current].m;
    if IsFree(s, m) {
      MovedKeepsShape(s, s.current, Away);
    } else {
      var h := s.books.mutexes[m].holder.value;
      TakingIs(s, m, h);
      TimeOutIs(s, m, h, HeadPriority(s, m));
      var b := A.TimeOutStep(s.books, h, HeadPriority(s, m));
      BookedKeepsShape(s, b, h);
      MovedKeepsShape(Booked(s, b, h), s.current, Away);
    }
  }

  lemma CallIs(b: A.Sys, call: A.Step)
    requires A.Inv(b) && A.Enabled(b, call) && (call.Enter? || call.Leave?)
    ensures var c := A.Next(b, call);
            && A.Inv(c) && c.mutexes.Keys == b.mutexes.Keys && SameHolders(b, c)
            && c.prio == b.prio && c.held == b.held && c.base == b.base
  {
    A.StepKeepsInv(b, call);
  }

  lemma CallKeepsShape(s: Sys, call: A.Step)
    requires Shape(s) && A.Enabled(s.books, call) && (call.Enter? || call.Leave?)
    ensures Shape(s.(books := A.Next(s.books, call)))
  {
    var b := A.Next(s.books, call);
    CallIs(s.books, call);
    NoNewHolderKeepsApart(s.books, b, s.stage);
    assert Typed(s.(books := b));
  }

  /** Who runs is no part of the shape. */
  lemma SwitchKeepsShape(s: Sys, next: TaskId)
    requires Shape(s)
    ensures Shape(s.(current := next))
  {
  }

  lemma StepKeepsShape(s: Sys, step: Step)
    requires Shape(s) && Running(s) && Enabled(s, step)
    ensures Shape(Next(s, step))
  {
    match step
    case Take(m) => TakeKeepsShape(s, m);
    case Block(m, next) => BlockKeepsShape(s, m, next);
    case Give(m, next) => GiveKeepsShape(s, m, next);
    case GiveUp =>
      assert ApartFrom(s.books.mutexes, s.stage[s.current], s.current);
      MovedKeepsShape(s, s.current, if s.stage[s.current].lent then TakingBack(s.stage[s.current].m) else Away);
    case TakeBack => TakeBackKeepsShape(s);
    case Enter(m) => CallKeepsShape(s, A.Enter(s.current, m));
    case Leave(m) => CallKeepsShape(s, A.Leave(s.current, m));
    case Sleep(next) =>
      MovedKeepsShape(s, s.current, Sleeping);
      SwitchKeepsShape(Went(s, Sleeping), next);
    case Wake(t, next) =>
      MovedKeepsShape(s, t, Away);
      SwitchKeepsShape(s.(stage := s.stage[t := Away]), next);
    case Expire(t, next) =>
      DelistedKeepsShape(s, t);
      SwitchKeepsShape(Delisted(s, t), next);
    case Switch(next) => SwitchKeepsShape(s, next);
  }

  lemma StepKeepsRunning(s: Sys, step: Step)
    requires Shape(s) && Running(s) && Enabled(s, step) && Scheduled(s, step)
    ensures Running(Next(s, step))
  {
    if Next(s, step).current == s.current && !SchedulerRuns(s, step) && step.Give? { GivingIs(s, step.m); }
  }

  // ------------------------------------------------------------------ when a step keeps the ranks

  /** The holder of mutex m, if any, is no lower than task w. */
  predicate Ranked(s: Sys, m: MutexId, w: TaskId) {
    && w in s.books.prio && m in s.books.mutexes
    && (s.books.mutexes[m].holder.Some? ==>
          var h := s.books.mutexes[m].holder.value; h in s.books.prio && s.books.prio[w] <= s.books.prio[h])
  }

  /** Every holder's priority is at least that of each task waiting for any of its mutexes. */
  ghost predicate Outranks(s: Sys) {
    forall w :: w in s.stage && s.stage[w].Waiting? ==> Ranked(s, s.stage[w].m, w)
  }

  /** A task h that waits itself does so for a mutex whose holder is no lower than p. */
  predicate HolderAbove(s: Sys, h: TaskId, p: nat) {
    h in s.stage && s.stage[h].Waiting? && s.stage[h].m in s.books.mutexes ==>
      match s.books.mutexes[s.stage[h].m].holder
      case None => true
      case Some(k) => k in s.books.prio && p <= s.books.prio[k]
  }

  /** Nobody on the list of mutex m is above p. */
  ghost predicate NoneAbove(s: Sys, m: MutexId, p: nat) {
    forall w :: m in s.waiting && w in s.waiting[m] ==> w in s.books.prio && s.books.prio[w] <= p
  }

  /** A take by a task no lower than those left waiting; a block on a mutex whose holder waits,
      if it does, for a task no lower than the blocking one; a taking back as below. */
  ghost predicate Sound(s: Sys, step: Step)
    requires Shape(s) && Running(s) && Enabled(s, step)
  {
    match step
    case Take(m) => NoneAbove(s, m, s.books.prio[s.current])
    case Block(m, _) => HolderAbove(s, s.books.mutexes[m].holder.value, s.books.prio[s.current])
    case TakeBack => SoundToTakeBack(s)
    case _ => true
  }

  /** The holder has other mutexes and keeps its priority, or nobody left waiting is above the
      priority read off the head and above the holder's base priority. */
  ghost predicate SoundToTakeBack(s: Sys)
    requires Shape(s) && IsTakingBack(s)
  {
    forall h :: HeldBy(s, s.stage[s.current].m, h) ==> TakesBackSoundly(s, s.stage[s.current].m, h)
  }

  ghost predicate TakesBackSoundly(s: Sys, m: MutexId, h: TaskId)
    requires Shape(s) && HeldBy(s, m, h)
  {
    TakingIs(s, m, h);
    s.books.held[h] == 1 ==> NoneAbove(s, m, Max(s.books.base[h], HeadPriority(s, m)))
  }

  function Max(a: nat, b: nat): nat {
    if a < b then b else a
  }

  lemma WaiterIs(s: Sys, m: MutexId, w: TaskId)
    requires Shape(s) && m in s.waiting
    ensures w in s.waiting[m] <==> WaitsFor(s.stage, w, m)
    ensures w in s.waiting[m] ==> w in s.books.prio
  {
    assert ListOk(s.waiting[m], s.stage, m);
  }

  /** Steps that change no priority and no holder, and put nobody onto a list. */
  lemma RanksKept(s: Sys, r: Sys)
    requires Outranks(s) && SameHolders(s.books, r.books) && r.books.prio == s.books.prio
    requires forall w :: w in r.stage && r.stage[w].Waiting? ==> w in s.stage && s.stage[w] == r.stage[w]
    ensures Outranks(r)
  {
    forall w | w in r.stage && r.stage[w].Waiting? ensures Ranked(r, r.stage[w].m, w) {
      assert Ranked(s, s.stage[w].m, w);
    }
  }

  lemma TakeIs(s: Sys, m: MutexId)
    requires Shape(s) && Running(s) && Enabled(s, Take(m))
    ensures var r := Next(s, Take(m));
            && r.stage == s.stage[s.current := Away] && r.books.prio == s.books.prio && HeldBy(r, m, s.current)
            && s.current in s.books.prio && r.books.mutexes.Keys == s.books.mutexes.Keys
            && (forall n :: n in s.books.mutexes && n != m ==> r.books.mutexes[n] == s.books.mutexes[n])
  {
  }

  lemma TakeKeepsRanks(s: Sys, m: MutexId)
    requires Shape(s) && Running(s) && Outranks(s) && Enabled(s, Take(m)) && Sound(s, Take(m))
    ensures Outranks(Next(s, Take(m)))
  {
    var r := Next(s, Take(m));
    TakeIs(s, m);
    forall w | w in r.stage && r.stage[w].Waiting? ensures Ranked(r, r.stage[w].m, w) {
      assert Ranked(s, s.stage[w].m, w);
      WaiterIs(s, m, w);
    }
  }

  lemma TakeNeedsSound(s: Sys, m: MutexId)
    requires Shape(s) && Running(s) && Enabled(s, Take(m)) && Outranks(Next(s, Take(m)))
    ensures Sound(s, Take(m))
  {
    var r := Next(s, Take(m));
    TakeIs(s, m);
    forall w | m in s.waiting && w in s.waiting[m]
      ensures w in s.books.prio && s.books.prio[w] <= s.books.prio[s.current]
    {
      WaiterIs(s, m, w);
      assert Ranked(r, r.stage[w].m, w);
    }
  }

  /** What a block does. */
  lemma BlockIs(s: Sys, m: MutexId, next: TaskId)
    requires Shape(s) && Running(s) && Enabled(s, Block(m, next))
    ensures var h, r := s.books.mutexes[m].holder.value, Next(s, Block(m, next));
            && h in s.books.prio && h != s.current && HeldBy(s, m, h)
            && r.stage == s.stage[s.current := Waiting(m, Inherits(s, h))]
            && r.books == A.BlockStep(s.books, s.current, h) && r.books.mutexes == s.books.mutexes
  {
    LendingIs(s, m, s.books.mutexes[m].holder.value);
  }

  /** Task t waits for a mutex h holds, and has lent it its priority if that is the higher. */
  ghost predicate Lent(s: Sys, r: Sys, t: TaskId, m: MutexId, h: TaskId) {
    && HeldBy(s, m, h) && h != t && r.books.mutexes == s.books.mutexes
    && t in s.stage && !s.stage[t].Waiting? && t in s.books.prio && h in s.books.prio
    && (exists lent :: r.stage == s.stage[t := Waiting(m, lent)])
    && OthersKept(s.books.prio, r.books.prio, h)
    && r.books.prio[h] == Max(s.books.prio[h], s.books.prio[t])
  }

  lemma BlockLends(s: Sys, m: MutexId, next: TaskId)
    requires Shape(s) && Running(s) && Enabled(s, Block(m, next))
    ensures Lent(s, Next(s, Block(m, next)), s.current, m, s.books.mutexes[m].holder.value)
  {
    BlockIs(s, m, next);
    LendIs(s, m, s.books.mutexes[m].holder.value);
  }

  lemma LentKeepsRanks(s: Sys, r: Sys, t: TaskId, m: MutexId, h: TaskId)
    requires Outranks(s) && Apart(s.books.mutexes, s.stage) && Lent(s, r, t, m, h)
    requires HolderAbove(s, h, s.books.prio[t])
    ensures Outranks(r)
  {
    forall w | w in r.stage && r.stage[w].Waiting? ensures Ranked(r, r.stage[w].m, w) {
      if w != t { assert Ranked(s, s.stage[w].m, w) && ApartFrom(s.books.mutexes, s.stage[w], w); }
    }
  }

  lemma LentNeedsAbove(s: Sys, r: Sys, t: TaskId, m: MutexId, h: TaskId)
    requires Outranks(r) && Apart(s.books.mutexes, s.stage) && Lent(s, r, t, m, h)
    ensures HolderAbove(s, h, s.books.prio[t])
  {
    if h in s.stage && s.stage[h].Waiting? {
      assert Ranked(r, r.stage[h].m, h) && ApartFrom(s.books.mutexes, s.stage[h], h);
    }
  }

  /** A task that holds a mutex and another has a count above one. */
  lemma HoldsTwo(b: A.Sys, t: TaskId, m: MutexId, n: MutexId)
    requires A.Inv(b) && m in b.mutexes && n in b.mutexes && m != n
    requires b.mutexes[m].holder == b.mutexes[n].holder == Some(t)
    ensures t in b.held && b.held[t] > 1
  {
    assert t in b.held;
    var both := {m, n};
    assert both <= A.HeldBy(b, t);
    SubsetCount(both, A.HeldBy(b, t));
  }

  lemma SubsetCount(a: set<MutexId>, b: set<MutexId>)
    requires a <= b
    ensures |a| <= |b|
  {
    assert b == a + (b - a);
  }

  /** What a give does to the books and to who waits. */
  lemma GiveIs(s: Sys, m: MutexId, next: TaskId)
    requires Shape(s) && Running(s) && Enabled(s, Give(m, next))
    ensures var r := Next(s, Give(m, next));
            && r.books == A.GiveStep(s.books, s.current, m)
            && r.stage.Keys == s.stage.Keys
            && (forall w :: w in r.stage ==> r.stage[w] == s.stage[w] || (r.stage[w].Trying? && s.stage[w].Waiting?))
  {
    GivingIs(s, m);
  }

  lemma GiveKeepsRanks(s: Sys, m: MutexId, next: TaskId)
    requires Shape(s) && Running(s) && Outranks(s) && Enabled(s, Give(m, next))
    ensures Outranks(Next(s, Give(m, next)))
  {
    var r := Next(s, Give(m, next));
    GiveIs(s, m, next);
    GiverIs(s, m);
    GiveHolders(s, m);
    forall w | w in r.stage && r.stage[w].Waiting? ensures Ranked(r, r.stage[w].m, w) {
      var n := s.stage[w].m;
      assert Ranked(s, n, w);
      if n != m && s.books.mutexes[n].holder == Some(s.current) { HoldsTwo(s.books, s.current, m, n); }
    }
  }

  /** What a taking back does: nothing, or the holder's priority set. */
  lemma TakeBackIs(s: Sys, m: MutexId, h: TaskId)
    requires Shape(s) && IsTakingBack(s) && m == s.stage[s.current].m && HeldBy(s, m, h)
    ensures h in s.books.prio && h in s.books.base && h in s.books.held
    ensures Valued(s.waiting[m], s.value) && forall t :: t in s.value ==> s.value[t] <= s.max
    ensures var r, use := TakeBackStep(s), Max(s.books.base[h], HeadPriority(s, m));
            && r.stage == s.stage[s.current := Away] && r.current == s.current
            && r.books.mutexes == s.books.mutexes && r.books.held == s.books.held
            && r.books.prio == if s.books.held[h] == 1 then s.books.prio[h := use] else s.books.prio
  {
    TakingIs(s, m, h);
    TimeOutPriority(s.books, h, HeadPriority(s, m));
  }

  lemma TimeOutPriority(b: A.Sys, h: TaskId, p: nat)
    requires h in b.prio && h in b.base && h in b.held
    ensures var c := A.TimeOutStep(b, h, p);
            && c.mutexes == b.mutexes && c.held == b.held
            && c.prio == if b.held[h] == 1 then b.prio[h := Max(b.base[h], p)] else b.prio
  {
    if b.prio[h] == Max(b.base[h], p) { assert b.prio[h := b.prio[h]] == b.prio; }
  }

  /** With the ranks in order, the head's priority is no higher than the holder's. */
  lemma HeadIsBelow(s: Sys, m: MutexId, h: TaskId)
    requires Shape(s) && Outranks(s) && HeldBy(s, m, h)
    ensures m in s.waiting && Valued(s.waiting[m], s.value) && forall t :: t in s.value ==> s.value[t] <= s.max
    ensures h in s.books.prio && h in s.books.base
    ensures Max(s.books.base[h], HeadPriority(s, m)) <= s.books.prio[h]
  {
    HolderIsTask(s, m, h);
    HeadIs(s, m);
    if s.waiting[m] != [] {
      HeadWaits(s, m);
      assert Ranked(s, m, s.waiting[m][0]);
    }
  }

  lemma TakeBackKeepsRanks(s: Sys, m: MutexId, h: TaskId)
    requires Shape(s) && Outranks(s) && IsTakingBack(s) && m == s.stage[s.current].m
    requires HeldBy(s, m, h) && TakesBackSoundly(s, m, h)
    ensures Outranks(TakeBackStep(s))
  {
    var r := TakeBackStep(s);
    TakeBackIs(s, m, h);
    HeadIsBelow(s, m, h);
    forall w | w in r.stage && r.stage[w].Waiting? ensures Ranked(r, r.stage[w].m, w) {
      var n := s.stage[w].m;
      assert Ranked(s, n, w);
      WaiterIs(s, m, w);
      if n != m && s.books.mutexes[n].holder == Some(h) { HoldsTwo(s.books, h, m, n); }
    }
  }

  lemma TakeBackNeedsSound(s: Sys, m: MutexId, h: TaskId)
    requires Shape(s) && IsTakingBack(s) && m == s.stage[s.current].m
    requires HeldBy(s, m, h) && Outranks(TakeBackStep(s))
    ensures TakesBackSoundly(s, m, h)
  {
    var r := TakeBackStep(s);
    TakeBackIs(s, m, h);
    if s.books.held[h] == 1 {
      forall w | m in s.waiting && w in s.waiting[m]
        ensures w in s.books.prio && s.books.prio[w] <= Max(s.books.base[h], HeadPriority(s, m))
      {
        WaiterIs(s, m, w);
        assert ApartFrom(s.books.mutexes, s.stage[w], w);
        assert Ranked(r, r.stage[w].m, w);
      }
    }
  }

  lemma TakeBackKeepsRanksExactly(s: Sys)
    requires Shape(s) && Outranks(s) && IsTakingBack(s)
    ensures Outranks(TakeBackStep(s)) <==> SoundToTakeBack(s)
  {
    var m := s.stage[s.current].m;
    assert ApartFrom(s.books.mutexes, s.stage[s.current], s.current);
    if IsFree(s, m) {
      RanksKept(s, TakeBackStep(s));
    } else {
      var h := s.books.mutexes[m].holder.value;
      if TakesBackSoundly(s, m, h) { TakeBackKeepsRanks(s, m, h); }
      if Outranks(TakeBackStep(s)) { TakeBackNeedsSound(s, m, h); }
    }
  }

  lemma CallKeepsRanks(s: Sys, call: A.Step)
    requires Shape(s) && Outranks(s) && A.Enabled(s.books, call) && (call.Enter? || call.Leave?)
    ensures Outranks(s.(books := A.Next(s.books, call)))
  {
    CallIs(s.books, call);
    RanksKept(s, s.(books := A.Next(s.books, call)));
  }

  lemma QuietIs(s: Sys, step: Step)
    requires MayMove(s, step)
    ensures var r := QuietNext(s, step);
            && r.books == s.books && r.value == s.value
            && (forall w :: w in r.stage && r.stage[w].Waiting? ==> w in s.stage && s.stage[w] == r.stage[w])
            && (forall w :: w in r.stage && Queues(r.stage[w]) ==> w in s.stage && Queues(s.stage[w]))
            && (forall w :: w in s.stage && s.stage[w].Trying? && !(step.GiveUp? && w == s.current) ==>
                  w in r.stage && r.stage[w] == s.stage[w])
  {
  }

  lemma QuietMayMove(s: Sys, step: Step)
    requires Shape(s) && Enabled(s, step) && Quiet(step)
    ensures MayMove(s, step)
  {
    if step.Expire? { assert ApartFrom(s.books.mutexes, s.stage[step.t], step.t); }
  }

  lemma QuietKeepsRanks(s: Sys, step: Step)
    requires Shape(s) && Running(s) && Outranks(s) && Enabled(s, step) && Quiet(step)
    ensures Outranks(Next(s, step))
  {
    QuietMayMove(s, step);
    QuietIs(s, step);
    RanksKept(s, Next(s, step));
  }

  lemma TakeKeepsRanksExactly(s: Sys, m: MutexId)
    requires Shape(s) && Running(s) && Outranks(s) && Enabled(s, Take(m))
    ensures Outranks(Next(s, Take(m))) <==> Sound(s, Take(m))
  {
    if Sound(s, Take(m)) { TakeKeepsRanks(s, m); }
    if Outranks(Next(s, Take(m))) { TakeNeedsSound(s, m); }
  }

  lemma BlockKeepsRanksExactly(s: Sys, m: MutexId, next: TaskId)
    requires Shape(s) && Running(s) && Outranks(s) && Enabled(s, Block(m, next))
    ensures Outranks(Next(s, Block(m, next))) <==> Sound(s, Block(m, next))
  {
    var r, h := Next(s, Block(m, next)), s.books.mutexes[m].holder.value;
    BlockLends(s, m, next);
    if HolderAbove(s, h, s.books.prio[s.current]) { LentKeepsRanks(s, r, s.current, m, h); }
    if Outranks(r) { LentNeedsAbove(s, r, s.current, m, h); }
  }

  /** A step keeps every holder of any number of mutexes above the tasks that wait for any of
      them if and only if it is sound: gives, timeouts, switches and recursive calls always
      are, a take, a block and a taking back exactly on their conditions. */
  lemma StepKeepsRanksExactly(s: Sys, step: Step)
    requires Shape(s) && Running(s) && Outranks(s) && Enabled(s, step)
    ensures Outranks(Next(s, step)) <==> Sound(s, step)
  {
    match step
    case Take(m) => TakeKeepsRanksExactly(s, m);
    case Block(m, next) => BlockKeepsRanksExactly(s, m, next);
    case Give(m, next) => GiveKeepsRanks(s, m, next);
    case TakeBack => TakeBackKeepsRanksExactly(s);
    case Enter(m) => CallKeepsRanks(s, A.Enter(s.current, m));
    case Leave(m) => CallKeepsRanks(s, A.Leave(s.current, m));
    case _ => QuietKeepsRanks(s, step);
  }

  // ------------------------------------------------------------------ runs

  /** All mutexes free, nobody waiting, every task at its base priority. */
  ghost predicate Initial(s: Sys) {
    && Typed(s) && A.Initial(s.books) && ValuesTell(s.max, s.value, s.books.prio) && Running(s)
    && (forall m :: m in s.waiting ==> s.waiting[m] == [])
    && (forall t :: t in s.stage ==> s.stage[t].Away? || s.stage[t].Sleeping?)
  }

  lemma InitialShape(s: Sys)
    requires Initial(s)
    ensures Shape(s) && Running(s)
  {
  }

  ghost predicate Run(s: Sys, steps: seq<Step>, s': Sys)
    requires Shape(s) && Running(s)
    decreases |steps|
  {
    if steps == [] then s' == s
    else
      && Enabled(s, steps[0]) && Scheduled(s, steps[0])
      && (StepKeepsShape(s, steps[0]); StepKeepsRunning(s, steps[0]); Run(Next(s, steps[0]), steps[1..], s'))
  }
}
