/** When tasks block on a mutex only while they hold none, and no give skips a switch it
    needs, priority inheritance works for any number of mutexes: over every run each holder
    outranks all tasks that wait for any of its mutexes. */
module MutexRanks {
  import opened Common
  import opened Lists
  import opened MutexChains
  import A = MutexAccounts

  // ------------------------------------------------------------------ tasks that wait hold nothing

  /** A task that waits for a mutex, or has waited and is back at its loop, holds none. */
  ghost predicate Unburdened(s: Sys) {
    forall t :: t in s.stage && Queues(s.stage[t]) ==> t in s.books.held && s.books.held[t] == 0
  }

  ghost predicate InOrder(list: seq<TaskId>, v: map<TaskId, nat>) {
    Valued(list, v) && Sorted(list, v)
  }

  ghost predicate Ordered(waiting: map<MutexId, seq<TaskId>>, v: map<TaskId, nat>) {
    forall m :: m in waiting ==> InOrder(waiting[m], v)
  }

  /** Task w is about to try for mutex m and no lower than anyone left waiting for it. */
  ghost predicate Claimant(s: Sys, w: TaskId, m: MutexId) {
    && w in s.stage && s.stage[w].Trying? && s.stage[w].m == m
    && w in s.books.prio && NoneAbove(s, m, s.books.prio[w])
  }

  ghost predicate HasClaimant(s: Sys, m: MutexId) {
    exists w :: Claimant(s, w, m)
  }

  /** A free mutex for which tasks wait. */
  predicate Awaited(s: Sys, m: MutexId) {
    IsFree(s, m) && m in s.waiting && s.waiting[m] != []
  }

  ghost predicate Claimed(s: Sys) {
    forall m :: Awaited(s, m) ==> HasClaimant(s, m)
  }

  /** The running task is no lower than anyone waiting for a free mutex. */
  ghost predicate Ahead(s: Sys) {
    s.current in s.books.prio && forall m :: Awaited(s, m) ==> NoneAbove(s, m, s.books.prio[s.current])
  }

  ghost predicate Good(s: Sys) {
    && Shape(s) && Running(s) && Outranks(s)
    && Unburdened(s) && Ordered(s.waiting, s.value) && Claimed(s) && Ahead(s)
  }

  /** No switch is asked for, and the giver, which has come down, is now lower than a task that
      waits for another mutex that is free. */
  ghost predicate SkipsYield(s: Sys, m: MutexId)
    requires Shape(s) && HeldBy(s, m, s.current)
  {
    GivingIs(s, m);
    !Yields(s, m) && !OthersBelow(s, m, GivenBooks(s, m).prio[s.current])
  }

  /** Nobody waiting for a free mutex other than m is above p. */
  ghost predicate OthersBelow(s: Sys, m: MutexId, p: nat) {
    forall n :: n != m && Awaited(s, n) ==> NoneAbove(s, n, p)
  }

  /** A task that blocks on a mutex holds none, and no give skips a switch. */
  ghost predicate Disciplined(s: Sys, step: Step)
    requires Shape(s) && Running(s) && Enabled(s, step)
  {
    match step
    case Block(_, _) => s.books.held[s.current] == 0
    case Give(m, _) => !SkipsYield(s, m)
    case _ => true
  }

  // ------------------------------------------------------------------ what a step leaves alone

  /** Tasks that queue before and after the step keep priority and count. */
  ghost predicate SamePay(s: Sys, r: Sys) {
    forall w :: w in s.stage && Queues(s.stage[w]) && w in r.stage && Queues(r.stage[w]) ==>
      && w in s.books.prio && w in r.books.prio && r.books.prio[w] == s.books.prio[w]
      && w in s.books.held && w in r.books.held && r.books.held[w] == s.books.held[w]
  }

  lemma HolderQueuesNot(s: Sys, m: MutexId, h: TaskId)
    requires Shape(s) && Unburdened(s) && HeldBy(s, m, h)
    ensures h in s.stage && !Queues(s.stage[h])
  {
    HolderIsTask(s, m, h);
  }

  lemma TakeKeepsPay(s: Sys, m: MutexId)
    requires Shape(s) && Running(s) && Enabled(s, Take(m))
    ensures SamePay(s, Next(s, Take(m)))
  {
  }

  lemma BlockKeepsPay(s: Sys, m: MutexId, next: TaskId)
    requires Shape(s) && Running(s) && Unburdened(s) && Enabled(s, Block(m, next))
    ensures SamePay(s, Next(s, Block(m, next)))
  {
    var h := s.books.mutexes[m].holder.value;
    BlockIs(s, m, next);
    LendIs(s, m, h);
    HolderQueuesNot(s, m, h);
  }

  lemma GiveKeepsPay(s: Sys, m: MutexId, next: TaskId)
    requires Shape(s) && Running(s) && Enabled(s, Give(m, next))
    ensures SamePay(s, Next(s, Give(m, next)))
  {
    GiveIs(s, m, next);
    GiverIs(s, m);
    GiveHolders(s, m);
  }

  lemma TakeBackKeepsPay(s: Sys)
    requires Shape(s) && Unburdened(s) && IsTakingBack(s)
    ensures SamePay(s, TakeBackStep(s))
  {
    var m := s.stage[s.current].m;
    assert ApartFrom(s.books.mutexes, s.stage[s.current], s.current);
    if !IsFree(s, m) {
      var h := s.books.mutexes[m].holder.value;
      TakeBackIs(s, m, h);
      HolderQueuesNot(s, m, h);
    }
  }

  lemma CallKeepsPay(s: Sys, call: A.Step)
    requires Shape(s) && A.Enabled(s.books, call) && (call.Enter? || call.Leave?)
    ensures SamePay(s, s.(books := A.Next(s.books, call)))
  {
    CallIs(s.books, call);
  }

  lemma StepKeepsPay(s: Sys, step: Step)
    requires Shape(s) && Running(s) && Unburdened(s) && Enabled(s, step)
    ensures SamePay(s, Next(s, step))
  {
    match step
    case Take(m) => TakeKeepsPay(s, m);
    case Block(m, next) => BlockKeepsPay(s, m, next);
    case Give(m, next) => GiveKeepsPay(s, m, next);
    case TakeBack => TakeBackKeepsPay(s);
    case Enter(m) => CallKeepsPay(s, A.Enter(s.current, m));
    case Leave(m) => CallKeepsPay(s, A.Leave(s.current, m));
    case _ =>
      QuietMayMove(s, step);
      QuietIs(s, step);
  }

  // ------------------------------------------------------------------ holding nothing, in order

  /** Counts change at the running task only, by a take or a give, and it is in no queue after. */
  lemma TakeKeepsUnburdened(s: Sys, m: MutexId)
    requires Shape(s) && Running(s) && Unburdened(s) && Enabled(s, Take(m))
    ensures Unburdened(Next(s, Take(m)))
  {
  }

  lemma BlockKeepsUnburdened(s: Sys, m: MutexId, next: TaskId)
    requires Shape(s) && Running(s) && Unburdened(s) && Enabled(s, Block(m, next)) && Disciplined(s, Block(m, next))
    ensures Unburdened(Next(s, Block(m, next)))
  {
    BlockIs(s, m, next);
    LendIs(s, m, s.books.mutexes[m].holder.value);
  }

  lemma GiveKeepsUnburdened(s: Sys, m: MutexId, next: TaskId)
    requires Shape(s) && Running(s) && Unburdened(s) && Enabled(s, Give(m, next))
    ensures Unburdened(Next(s, Give(m, next)))
  {
    GiveIs(s, m, next);
    GiveHolders(s, m);
  }

  lemma TakeBackKeepsUnburdened(s: Sys)
    requires Shape(s) && Unburdened(s) && IsTakingBack(s)
    ensures Unburdened(TakeBackStep(s))
  {
    var m := s.stage[s.current].m;
    assert ApartFrom(s.books.mutexes, s.stage[s.current], s.current);
    if !IsFree(s, m) { TakeBackIs(s, m, s.books.mutexes[m].holder.value); }
  }

  lemma QuietKeepsUnburdened(s: Sys, step: Step)
    requires Shape(s) && Running(s) && Unburdened(s) && Enabled(s, step) && Quiet(step)
    ensures Unburdened(Next(s, step))
  {
    QuietMayMove(s, step);
    QuietIs(s, step);
  }

  lemma StepKeepsUnburdened(s: Sys, step: Step)
    requires Shape(s) && Running(s) && Unburdened(s) && Enabled(s, step) && Disciplined(s, step)
    ensures Unburdened(Next(s, step))
  {
    match step
    case Take(m) => TakeKeepsUnburdened(s, m);
    case Block(m, next) => BlockKeepsUnburdened(s, m, next);
    case Give(m, next) => GiveKeepsUnburdened(s, m, next);
    case TakeBack => TakeBackKeepsUnburdened(s);
    case Enter(m) => CallIs(s.books, A.Enter(s.current, m));
    case Leave(m) => CallIs(s.books, A.Leave(s.current, m));
    case _ => QuietKeepsUnburdened(s, step);
  }

  /** A new value for a task on no list. */
  lemma RewrittenKeepsOrdered(waiting: map<MutexId, seq<TaskId>>, v: map<TaskId, nat>, h: TaskId, x: nat)
    requires Ordered(waiting, v) && forall m :: m in waiting ==> h !in waiting[m]
    ensures Ordered(waiting, v[h := x])
  {
    forall m | m in waiting ensures InOrder(waiting[m], v[h := x]) {
      assert InOrder(waiting[m], v);
    }
  }

  lemma UnlistedUnlessWaiting(s: Sys, h: TaskId)
    requires Shape(s) && h in s.stage && !s.stage[h].Waiting?
    ensures forall m :: m in s.waiting ==> h !in s.waiting[m]
  {
    forall m | m in s.waiting ensures h !in s.waiting[m] { WaiterIs(s, m, h); }
  }

  lemma BookedKeepsOrdered(s: Sys, b: A.Sys, h: TaskId)
    requires Shape(s) && Ordered(s.waiting, s.value) && h in s.stage && !s.stage[h].Waiting?
    requires h in s.books.prio && h in b.prio && b.prio[h] <= s.max
    ensures Ordered(s.waiting, Booked(s, b, h).value)
  {
    UnlistedUnlessWaiting(s, h);
    RewrittenKeepsOrdered(s.waiting, s.value, h, s.max - b.prio[h]);
  }

  lemma DelistedKeepsOrdered(waiting: map<MutexId, seq<TaskId>>, v: map<TaskId, nat>, m: MutexId, w: TaskId)
    requires Ordered(waiting, v) && m in waiting && Distinct(waiting[m])
    ensures Ordered(waiting[m := Remove(waiting[m], w)], v)
  {
    assert InOrder(waiting[m], v);
    RemoveSorted(waiting[m], v, w);
    forall n | n in waiting ensures InOrder(waiting[m := Remove(waiting[m], w)][n], v) {
      assert InOrder(waiting[n], v);
    }
  }

  lemma EnlistedKeepsOrdered(waiting: map<MutexId, seq<TaskId>>, v: map<TaskId, nat>, m: MutexId, t: TaskId)
    requires Ordered(waiting, v) && m in waiting && t in v
    ensures Valued(waiting[m], v) && Ordered(waiting[m := Insert(waiting[m], v, t)], v)
  {
    assert InOrder(waiting[m], v);
    InsertSorted(waiting[m], v, t);
    forall n | n in waiting ensures InOrder(waiting[m := Insert(waiting[m], v, t)][n], v) {
      assert InOrder(waiting[n], v);
    }
  }

  lemma BlockKeepsOrdered(s: Sys, m: MutexId, next: TaskId)
    requires Shape(s) && Running(s) && Unburdened(s) && Ordered(s.waiting, s.value) && Enabled(s, Block(m, next))
    ensures var r := Next(s, Block(m, next)); Ordered(r.waiting, r.value)
  {
    var h := s.books.mutexes[m].holder.value;
    var b := A.BlockStep(s.books, s.current, h);
    LendingIs(s, m, h);
    HolderQueuesNot(s, m, h);
    BookedKeepsOrdered(s, b, h);
    EnlistedKeepsOrdered(s.waiting, Booked(s, b, h).value, m, s.current);
  }

  lemma GiveKeepsOrdered(s: Sys, m: MutexId, next: TaskId)
    requires Shape(s) && Running(s) && Ordered(s.waiting, s.value) && Enabled(s, Give(m, next))
    ensures var r := Next(s, Give(m, next)); Ordered(r.waiting, r.value)
  {
    GivingIs(s, m);
    BookedKeepsOrdered(s, GivenBooks(s, m), s.current);
    if s.waiting[m] != [] {
      assert ListOk(s.waiting[m], s.stage, m);
      DelistedKeepsOrdered(s.waiting, Booked(s, GivenBooks(s, m), s.current).value, m, s.waiting[m][0]);
    }
  }

  lemma TakeBackKeepsOrdered(s: Sys)
    requires Shape(s) && Unburdened(s) && Ordered(s.waiting, s.value) && IsTakingBack(s)
    ensures var r := TakeBackStep(s); Ordered(r.waiting, r.value)
  {
    var m := s.stage[s.current].m;
    assert ApartFrom(s.books.mutexes, s.stage[s.current], s.current);
    if !IsFree(s, m) {
      var h := s.books.mutexes[m].holder.value;
      TakingIs(s, m, h);
      HolderQueuesNot(s, m, h);
      BookedKeepsOrdered(s, A.TimeOutStep(s.books, h, HeadPriority(s, m)), h);
    }
  }

  lemma ExpireKeepsOrdered(s: Sys, t: TaskId)
    requires Shape(s) && Ordered(s.waiting, s.value) && t in s.stage && s.stage[t].Waiting?
    ensures s.stage[t].m in s.waiting && Ordered(Delisted(s, t).waiting, s.value)
  {
    assert ApartFrom(s.books.mutexes, s.stage[t], t);
    assert ListOk(s.waiting[s.stage[t].m], s.stage, s.stage[t].m);
    DelistedKeepsOrdered(s.waiting, s.value, s.stage[t].m, t);
  }

  lemma StepKeepsOrdered(s: Sys, step: Step)
    requires Shape(s) && Running(s) && Unburdened(s) && Ordered(s.waiting, s.value) && Enabled(s, step)
    ensures var r := Next(s, step); Ordered(r.waiting, r.value)
  {
    match step
    case Block(m, next) => BlockKeepsOrdered(s, m, next);
    case Give(m, next) => GiveKeepsOrdered(s, m, next);
    case TakeBack => TakeBackKeepsOrdered(s);
    case Expire(t, _) => ExpireKeepsOrdered(s, t);
    case _ =>
  }

  // ------------------------------------------------------------------ free mutexes are claimed

  /** Mutex m was free before if it is free now, no more tasks wait for it, and those about to
      try for it still are. */
  ghost predicate Steady(s: Sys, r: Sys, m: MutexId) {
    && IsFree(s, m)
    && (forall w :: WaitsFor(r.stage, w, m) ==> WaitsFor(s.stage, w, m))
    && (forall w :: w in s.stage && s.stage[w].Trying? && s.stage[w].m == m ==>
          w in r.stage && r.stage[w] == s.stage[w])
  }

  lemma TakeSteady(s: Sys, n: MutexId, m: MutexId)
    requires Shape(s) && Running(s) && Enabled(s, Take(n)) && IsFree(Next(s, Take(n)), m)
    ensures Steady(s, Next(s, Take(n)), m)
  {
    TakeIs(s, n);
  }

  lemma BlockSteady(s: Sys, n: MutexId, next: TaskId, m: MutexId)
    requires Shape(s) && Running(s) && Enabled(s, Block(n, next)) && IsFree(Next(s, Block(n, next)), m)
    ensures Steady(s, Next(s, Block(n, next)), m)
  {
    BlockIs(s, n, next);
  }

  lemma GiveSteady(s: Sys, n: MutexId, next: TaskId, m: MutexId)
    requires Shape(s) && Running(s) && Enabled(s, Give(n, next)) && IsFree(Next(s, Give(n, next)), m) && m != n
    ensures Steady(s, Next(s, Give(n, next)), m)
  {
    GiveIs(s, n, next);
    GiveHolders(s, n);
  }

  lemma TakeBackSteady(s: Sys, m: MutexId)
    requires Shape(s) && IsTakingBack(s) && IsFree(TakeBackStep(s), m)
    ensures Steady(s, TakeBackStep(s), m)
  {
    var n := s.stage[s.current].m;
    assert ApartFrom(s.books.mutexes, s.stage[s.current], s.current);
    if !IsFree(s, n) { TakeBackIs(s, n, s.books.mutexes[n].holder.value); }
  }

  lemma QuietSteady(s: Sys, step: Step, m: MutexId)
    requires Shape(s) && Running(s) && Enabled(s, step) && Quiet(step) && IsFree(Next(s, step), m)
    ensures Steady(s, Next(s, step), m)
  {
    QuietMayMove(s, step);
    QuietIs(s, step);
  }

  /** All steps leave a free mutex and its claims alone, but the give that frees it. */
  lemma StepSteady(s: Sys, step: Step, m: MutexId)
    requires Shape(s) && Running(s) && Enabled(s, step) && IsFree(Next(s, step), m)
    requires !(step.Give? && step.m == m)
    ensures Steady(s, Next(s, step), m)
  {
    match step
    case Take(n) => TakeSteady(s, n, m);
    case Block(n, next) => BlockSteady(s, n, next, m);
    case Give(n, next) => GiveSteady(s, n, next, m);
    case TakeBack => TakeBackSteady(s, m);
    case Enter(n) => CallIs(s.books, A.Enter(s.current, n));
    case Leave(n) => CallIs(s.books, A.Leave(s.current, n));
    case _ => QuietSteady(s, step, m);
  }

  /** No more tasks wait, at the same priorities. */
  lemma SteadyNoneAbove(s: Sys, r: Sys, m: MutexId, p: nat)
    requires Shape(s) && Shape(r) && SamePay(s, r) && Steady(s, r, m) && m in r.waiting && NoneAbove(s, m, p)
    ensures NoneAbove(r, m, p) && (Awaited(r, m) ==> Awaited(s, m))
  {
    forall w | w in r.waiting[m]
      ensures w in r.books.prio && r.books.prio[w] <= p && m in s.waiting && w in s.waiting[m]
    {
      WaiterIs(r, m, w);
      WaiterIs(s, m, w);
    }
    if Awaited(r, m) { assert r.waiting[m][0] in s.waiting[m]; }
  }

  lemma SteadyClaim(s: Sys, r: Sys, m: MutexId)
    requires Shape(s) && Shape(r) && SamePay(s, r) && Steady(s, r, m) && Awaited(r, m) && Claimed(s)
    ensures HasClaimant(r, m)
  {
    assert Awaited(s, m) by {
      WaiterIs(r, m, r.waiting[m][0]);
      WaiterIs(s, m, r.waiting[m][0]);
    }
    var w :| Claimant(s, w, m);
    SteadyNoneAbove(s, r, m, s.books.prio[w]);
    assert Claimant(r, w, m);
  }

  /** In order of values, nobody on a list is above its head. */
  lemma HeadIsHighest(s: Sys, m: MutexId)
    requires Shape(s) && Ordered(s.waiting, s.value) && m in s.waiting && s.waiting[m] != []
    ensures s.waiting[m][0] in s.books.prio && NoneAbove(s, m, s.books.prio[s.waiting[m][0]])
  {
    HeadWaits(s, m);
    assert InOrder(s.waiting[m], s.value);
    forall w | w in s.waiting[m] ensures w in s.books.prio && s.books.prio[w] <= s.books.prio[s.waiting[m][0]] {
      WaiterIs(s, m, w);
    }
  }

  /** The list of a mutex given back: the head woken, the others left. */
  lemma GivenList(s: Sys, m: MutexId, next: TaskId)
    requires Shape(s) && Running(s) && Enabled(s, Give(m, next))
    ensures var r := Next(s, Give(m, next));
            && m in s.waiting && m in r.waiting && IsFree(r, m)
            && (s.waiting[m] == [] ==> r.waiting[m] == [])
            && (s.waiting[m] != [] ==>
                  var w := s.waiting[m][0];
                  w in r.stage && r.stage[w].Trying? && r.stage[w].m == m
                  && (forall u :: u in r.waiting[m] ==> u in s.waiting[m] && u != w))
  {
    GivingIs(s, m);
    GiveHolders(s, m);
    if s.waiting[m] != [] {
      assert ListOk(s.waiting[m], s.stage, m);
      RemoveFacts(s.waiting[m], s.waiting[m][0]);
    }
  }

  lemma GivenNoneAbove(s: Sys, m: MutexId, next: TaskId)
    requires Shape(s) && Running(s) && Ordered(s.waiting, s.value) && Enabled(s, Give(m, next))
    requires m in s.waiting && s.waiting[m] != []
    ensures var r, w := Next(s, Give(m, next)), s.waiting[m][0];
            && w in s.books.prio && w in r.books.prio && r.books.prio[w] == s.books.prio[w]
            && NoneAbove(r, m, r.books.prio[w])
  {
    var r := Next(s, Give(m, next));
    GivenList(s, m, next);
    HeadIsHighest(s, m);
    GiveIs(s, m, next);
    GiverIs(s, m);
    forall u | u in s.waiting[m] ensures u in s.books.prio && r.books.prio[u] == s.books.prio[u] {
      WaiterIs(s, m, u);
    }
  }

  lemma GivenClaim(s: Sys, m: MutexId, next: TaskId)
    requires Shape(s) && Running(s) && Ordered(s.waiting, s.value) && Enabled(s, Give(m, next))
    requires Awaited(Next(s, Give(m, next)), m)
    ensures HasClaimant(Next(s, Give(m, next)), m)
  {
    GivenList(s, m, next);
    GivenNoneAbove(s, m, next);
    assert Claimant(Next(s, Give(m, next)), s.waiting[m][0], m);
  }

  lemma StepKeepsClaimed(s: Sys, step: Step)
    requires Shape(s) && Running(s) && Unburdened(s) && Ordered(s.waiting, s.value) && Claimed(s) && Enabled(s, step)
    ensures Claimed(Next(s, step))
  {
    var r := Next(s, step);
    StepKeepsShape(s, step);
    StepKeepsPay(s, step);
    forall m | Awaited(r, m) ensures HasClaimant(r, m) {
      if step.Give? && step.m == m {
        GivenClaim(s, m, step.next);
      } else {
        StepSteady(s, step, m);
        SteadyClaim(s, r, m);
      }
    }
  }

  // ------------------------------------------------------------------ the running task is ahead

  /** The scheduler's choice is no lower than a claimant, who is ready. */
  lemma SelectedIsAhead(s: Sys)
    requires Claimed(s) && Selected(s, s.current)
    ensures Ahead(s)
  {
    forall m | Awaited(s, m) ensures NoneAbove(s, m, s.books.prio[s.current]) {
      var w :| Claimant(s, w, m);
      assert Runs(s.stage[w]);
    }
  }

  /** The running task goes on, at the priority it had. */
  lemma SteadyAhead(s: Sys, step: Step)
    requires Good(s) && Enabled(s, step) && !step.Give? && Next(s, step).current == s.current
    requires s.current in Next(s, step).books.prio && Next(s, step).books.prio[s.current] == s.books.prio[s.current]
    ensures Ahead(Next(s, step))
  {
    var r := Next(s, step);
    StepKeepsShape(s, step);
    StepKeepsPay(s, step);
    forall m | Awaited(r, m) ensures NoneAbove(r, m, r.books.prio[r.current]) {
      StepSteady(s, step, m);
      AheadAt(s, m);
      SteadyNoneAbove(s, r, m, s.books.prio[s.current]);
    }
  }

  lemma AheadAt(s: Sys, m: MutexId)
    requires Ahead(s) && IsFree(s, m)
    ensures NoneAbove(s, m, s.books.prio[s.current])
  {
    if m in s.waiting && s.waiting[m] != [] { assert Awaited(s, m); }
  }

  /** Only a give changes the priority of a task that goes on running. */
  lemma RunnerKeepsPriority(s: Sys, step: Step)
    requires Shape(s) && Running(s) && Enabled(s, step) && !step.Give? && !step.Block?
    ensures s.current in s.books.prio && s.current in Next(s, step).books.prio
    ensures Next(s, step).books.prio[s.current] == s.books.prio[s.current]
  {
    match step
    case Take(m) => TakeIs(s, m);
    case TakeBack =>
      var m := s.stage[s.current].m;
      assert ApartFrom(s.books.mutexes, s.stage[s.current], s.current);
      if !IsFree(s, m) { TakeBackIs(s, m, s.books.mutexes[m].holder.value); }
    case Enter(m) => CallIs(s.books, A.Enter(s.current, m));
    case Leave(m) => CallIs(s.books, A.Leave(s.current, m));
    case _ =>
      QuietMayMove(s, step);
      QuietIs(s, step);
  }

  /** A give that brings the giver down asks for a switch if and only if nobody waits for the
      mutex, or the task it wakes is above the giver's base priority: not whenever the giver
      comes down. */
  lemma LoweringGiveYieldsExactly(s: Sys, m: MutexId)
    requires Shape(s) && HeldBy(s, m, s.current)
    requires s.current in s.books.prio && s.current in s.books.base && s.current in s.books.held
    requires s.books.held[s.current] == 1 && s.books.base[s.current] < s.books.prio[s.current]
    ensures m in s.waiting && forall w :: w in s.waiting[m] ==> w in s.books.prio
    ensures Yields(s, m) <==> s.waiting[m] == [] || s.books.base[s.current] < s.books.prio[s.waiting[m][0]]
  {
    GivingIs(s, m);
    GiverIs(s, m);
    forall w | w in s.waiting[m] ensures w in s.books.prio { WaiterIs(s, m, w); }
    if s.waiting[m] != [] {
      HeadWaits(s, m);
      assert ApartFrom(s.books.mutexes, s.stage[s.waiting[m][0]], s.waiting[m][0]);
    }
  }

  /** A give that asks for no switch leaves the giver no lower than those waiting for the mutex
      given back. */
  lemma QuietGiveIsAhead(s: Sys, m: MutexId, next: TaskId)
    requires Shape(s) && Running(s) && Ordered(s.waiting, s.value) && Enabled(s, Give(m, next)) && !Yields(s, m)
    ensures var r := Next(s, Give(m, next));
            r.current == s.current && s.current in r.books.prio && NoneAbove(r, m, r.books.prio[s.current])
  {
    GivingIs(s, m);
    GiverIs(s, m);
    GivenList(s, m, next);
    if s.waiting[m] != [] { GivenNoneAbove(s, m, next); }
  }

  lemma GiveSteadyList(s: Sys, m: MutexId, next: TaskId, n: MutexId)
    requires Shape(s) && Running(s) && Enabled(s, Give(m, next)) && n != m
    ensures var r := Next(s, Give(m, next));
            && (Awaited(r, n) <==> Awaited(s, n))
            && (n in s.waiting && n in s.books.mutexes ==> n in r.waiting && r.waiting[n] == s.waiting[n])
  {
    GivingIs(s, m);
    GiveHolders(s, m);
  }

  lemma GiveSamePriorities(s: Sys, m: MutexId, next: TaskId, n: MutexId, p: nat)
    requires Shape(s) && Running(s) && Enabled(s, Give(m, next)) && n != m && Awaited(s, n)
    ensures NoneAbove(Next(s, Give(m, next)), n, p) <==> NoneAbove(s, n, p)
  {
    var r := Next(s, Give(m, next));
    GiveSteadyList(s, m, next, n);
    GiveIs(s, m, next);
    GiverIs(s, m);
    forall w | w in s.waiting[n] ensures w in s.books.prio && w in r.books.prio && r.books.prio[w] == s.books.prio[w] {
      WaiterIs(s, n, w);
    }
  }

  lemma GiveKeepsOthers(s: Sys, m: MutexId, next: TaskId, p: nat)
    requires Shape(s) && Running(s) && Enabled(s, Give(m, next))
    ensures OthersBelow(Next(s, Give(m, next)), m, p) <==> OthersBelow(s, m, p)
  {
    var r := Next(s, Give(m, next));
    forall n | n != m
      ensures Awaited(r, n) <==> Awaited(s, n)
      ensures Awaited(s, n) ==> (NoneAbove(r, n, p) <==> NoneAbove(s, n, p))
    {
      GiveSteadyList(s, m, next, n);
      if Awaited(s, n) { GiveSamePriorities(s, m, next, n, p); }
    }
  }

  lemma AheadIs(s: Sys, m: MutexId)
    requires s.current in s.books.prio && NoneAbove(s, m, s.books.prio[s.current])
    ensures Ahead(s) <==> OthersBelow(s, m, s.books.prio[s.current])
  {
  }

  /** A give that asks for no switch keeps the running task ahead if and only if it skips none:
      the giver is still no lower than anyone waiting for another mutex that is free. */
  lemma GiveKeepsAheadExactly(s: Sys, m: MutexId, next: TaskId)
    requires Good(s) && Enabled(s, Give(m, next)) && !Yields(s, m)
    ensures Ahead(Next(s, Give(m, next))) <==> !SkipsYield(s, m)
  {
    var r := Next(s, Give(m, next));
    QuietGiveIsAhead(s, m, next);
    GiveIs(s, m, next);
    AheadIs(r, m);
    GiveKeepsOthers(s, m, next, r.books.prio[s.current]);
  }

  /** A give that leaves the giver its priority skips no switch. */
  lemma OnlyLoweringSkips(s: Sys, m: MutexId)
    requires Good(s) && HeldBy(s, m, s.current) && SkipsYield(s, m)
    ensures s.current in s.books.held && s.books.held[s.current] == 1
    ensures s.current in s.books.base && s.current in s.books.prio
    ensures s.books.base[s.current] < s.books.prio[s.current]
  {
    GivingIs(s, m);
    GiverIs(s, m);
    HolderIsTask(s, m, s.current);
    forall n | n != m && Awaited(s, n) ensures NoneAbove(s, n, s.books.prio[s.current]) { AheadAt(s, n); }
  }

  lemma StepKeepsAhead(s: Sys, step: Step)
    requires Good(s) && Enabled(s, step) && Scheduled(s, step) && Disciplined(s, step)
    ensures Ahead(Next(s, step))
  {
    if Next(s, step).current != s.current || SchedulerRuns(s, step) {
      StepKeepsClaimed(s, step);
      SelectedIsAhead(Next(s, step));
    } else if step.Give? {
      GiveKeepsAheadExactly(s, step.m, step.next);
    } else {
      RunnerKeepsPriority(s, step);
      SteadyAhead(s, step);
    }
  }

  // ------------------------------------------------------------------ every step, and every run

  /** The head of a list in order is the priority to go back to. */
  lemma OrderedTakesBackSoundly(s: Sys, m: MutexId, h: TaskId)
    requires Shape(s) && Ordered(s.waiting, s.value) && HeldBy(s, m, h)
    ensures TakesBackSoundly(s, m, h)
  {
    TakingIs(s, m, h);
    HeadIs(s, m);
    if s.waiting[m] != [] { HeadIsHighest(s, m); }
  }

  /** Every step a disciplined system makes is sound. */
  lemma DisciplinedIsSound(s: Sys, step: Step)
    requires Good(s) && Enabled(s, step) && Disciplined(s, step)
    ensures Sound(s, step)
  {
    match step
    case Take(m) => AheadAt(s, m);
    case Block(m, _) => HolderQueuesNot(s, m, s.books.mutexes[m].holder.value);
    case TakeBack =>
      forall h | HeldBy(s, s.stage[s.current].m, h) ensures TakesBackSoundly(s, s.stage[s.current].m, h) {
        OrderedTakesBackSoundly(s, s.stage[s.current].m, h);
      }
    case _ =>
  }

  lemma StepKeepsGood(s: Sys, step: Step)
    requires Good(s) && Enabled(s, step) && Scheduled(s, step) && Disciplined(s, step)
    ensures Good(Next(s, step))
  {
    StepKeepsShape(s, step);
    StepKeepsRunning(s, step);
    DisciplinedIsSound(s, step);
    StepKeepsRanksExactly(s, step);
    StepKeepsUnburdened(s, step);
    StepKeepsOrdered(s, step);
    StepKeepsClaimed(s, step);
    StepKeepsAhead(s, step);
  }

  ghost predicate AllDisciplined(s: Sys, steps: seq<Step>)
    requires Shape(s) && Running(s)
    decreases |steps|
  {
    steps != [] && Enabled(s, steps[0]) && Scheduled(s, steps[0]) ==>
      && Disciplined(s, steps[0])
      && (StepKeepsShape(s, steps[0]); StepKeepsRunning(s, steps[0]); AllDisciplined(Next(s, steps[0]), steps[1..]))
  }

  lemma {:induction false} RunKeepsGood(s: Sys, steps: seq<Step>, s': Sys)
    requires Good(s) && Run(s, steps, s') && AllDisciplined(s, steps)
    ensures Good(s')
    decreases |steps|
  {
    if steps != [] {
      StepKeepsGood(s, steps[0]);
      RunKeepsGood(Next(s, steps[0]), steps[1..], s');
    }
  }

  lemma InitialIsGood(s: Sys)
    requires Initial(s)
    ensures Good(s)
  {
    InitialShape(s);
  }

  /** Priority inheritance works for any number of mutexes, plain and recursive, as long as
      tasks block only while they hold none and no give skips a switch: in every reachable
      state each holder's priority is at least that of every task on the event list of any of
      its mutexes, and the lists are in order of priority. */
  lemma HoldersOutrankWaiters(s: Sys, steps: seq<Step>, s': Sys, m: MutexId, w: TaskId)
    requires Initial(s) && Shape(s) && Running(s) && Run(s, steps, s') && AllDisciplined(s, steps)
    requires m in s'.waiting && w in s'.waiting[m]
    ensures m in s'.books.mutexes && w in s'.books.prio && s'.waiting[m][0] in s'.books.prio
    ensures s'.books.prio[w] <= s'.books.prio[s'.waiting[m][0]]
    ensures s'.books.mutexes[m].holder.Some? ==>
              var h := s'.books.mutexes[m].holder.value; h in s'.books.prio && s'.books.prio[w] <= s'.books.prio[h]
  {
    InitialIsGood(s);
    RunKeepsGood(s, steps, s');
    WaiterIs(s', m, w);
    HeadIsHighest(s', m);
    assert Ranked(s', m, w);
  }

  /** And a mutex given back while tasks wait for it is not lost: until it is taken, a task
      about to try for it is no lower than any of them, and so is the running one. */
  lemma FreeMutexesAreClaimed(s: Sys, steps: seq<Step>, s': Sys, m: MutexId)
    requires Initial(s) && Shape(s) && Running(s) && Run(s, steps, s') && AllDisciplined(s, steps)
    requires IsFree(s', m) && m in s'.waiting && s'.waiting[m] != []
    ensures HasClaimant(s', m)
    ensures s'.current in s'.books.prio && NoneAbove(s', m, s'.books.prio[s'.current])
  {
    InitialIsGood(s);
    RunKeepsGood(s, steps, s');
    assert Awaited(s', m);
  }
}
