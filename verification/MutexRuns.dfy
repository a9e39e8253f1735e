/** Runs in which priority inheritance over several mutexes fails: a chain of two, a stale head
    of an event list, and a give that asks for no switch.

    A board shows a state of module MutexChains with its tasks and mutexes numbered from 0. */
module MutexRuns {
  import opened Common
  import opened Lists
  import opened MutexChains
  import A = MutexAccounts

  datatype Board = Board(
    max: nat,
    current: TaskId,
    holder: seq<Option<TaskId>>,
    waiting: seq<seq<TaskId>>,
    stage: seq<Stage>,
    held: seq<nat>,
    base: seq<nat>,
    prio: seq<nat>
  )

  predicate Proper(b: Board) {
    && |b.waiting| == |b.holder| && |b.held| == |b.base| == |b.prio| == |b.stage|
    && b.current < |b.stage|
  }

  /** The plain mutex m and its event list. */
  predicate MutexAt(s: Sys, b: Board, m: MutexId)
    requires Proper(b) && m < |b.holder|
  {
    && m in s.books.mutexes && s.books.mutexes[m].holder == b.holder[m] && !s.books.mutexes[m].recursive
    && m in s.waiting && s.waiting[m] == b.waiting[m]
  }

  predicate TaskAt(s: Sys, b: Board, t: TaskId)
    requires Proper(b) && t < |b.stage|
  {
    && t in s.stage && s.stage[t] == b.stage[t]
    && t in s.books.held && s.books.held[t] == b.held[t]
    && t in s.books.base && s.books.base[t] == b.base[t]
    && t in s.books.prio && s.books.prio[t] == b.prio[t]
  }

  ghost predicate At(s: Sys, b: Board) {
    && Proper(b) && s.max == b.max && s.current == b.current
    && (forall m :: 0 <= m < |b.holder| ==> MutexAt(s, b, m))
    && (forall t :: 0 <= t < |b.stage| ==> TaskAt(s, b, t))
    && (forall t :: t in s.stage ==> t < |b.stage|)
  }

  /** The scheduler may select t. */
  predicate Foremost(b: Board, t: TaskId) {
    && Proper(b) && t < |b.stage| && Runs(b.stage[t])
    && forall u :: 0 <= u < |b.stage| && Runs(b.stage[u]) ==> b.prio[u] <= b.prio[t]
  }

  predicate Known(list: seq<TaskId>, n: nat) {
    forall i :: 0 <= i < |list| ==> list[i] < n
  }

  /** Before the first task of lower priority. */
  function InsertByPriority(list: seq<TaskId>, prio: seq<nat>, t: TaskId): seq<TaskId>
    requires t < |prio| && Known(list, |prio|)
  {
    if list == [] || prio[list[0]] < prio[t] then [t] + list else [list[0]] + InsertByPriority(list[1..], prio, t)
  }

  // ------------------------------------------------------------------ steps on boards

  predicate MutexHeld(b: Board, m: MutexId) {
    Proper(b) && m < |b.holder| && b.holder[m].Some? && b.holder[m].value < |b.stage| && b.holder[m].value != b.current
  }

  predicate AtLoop(b: Board, m: MutexId) {
    Proper(b) && m < |b.holder|
    && (b.stage[b.current].Away? || (b.stage[b.current].Trying? && b.stage[b.current].m == m))
  }

  function Lending(b: Board, m: MutexId): seq<nat>
    requires MutexHeld(b, m)
  {
    var h := b.holder[m].value;
    if b.prio[h] < b.prio[b.current] then b.prio[h := b.prio[b.current]] else b.prio
  }

  function Blocked(b: Board, m: MutexId, next: TaskId): Board
    requires MutexHeld(b, m) && Known(b.waiting[m], |b.stage|)
  {
    var h, prio := b.holder[m].value, Lending(b, m);
    b.(prio := prio, waiting := b.waiting[m := InsertByPriority(b.waiting[m], prio, b.current)],
       stage := b.stage[b.current := Waiting(m, b.prio[h] < b.prio[b.current] || b.base[h] < b.prio[b.current])],
       current := next)
  }

  function GiversPriority(b: Board): nat
    requires Proper(b)
  {
    if b.held[b.current] == 1 then b.base[b.current] else b.prio[b.current]
  }

  /** A give that wakes a task and asks for no switch. */
  predicate GivesQuietly(b: Board, m: MutexId) {
    && Proper(b) && m < |b.holder| && b.stage[b.current].Away? && b.holder[m] == Some(b.current)
    && b.held[b.current] > 0 && b.waiting[m] != []
    && var w := b.waiting[m][0];
       w < |b.stage| && w != b.current && b.stage[w].Waiting? && b.stage[w].m == m && b.prio[w] <= GiversPriority(b)
  }

  function Given(b: Board, m: MutexId): Board
    requires GivesQuietly(b, m)
  {
    var w := b.waiting[m][0];
    Released(b, m).(waiting := b.waiting[m := b.waiting[m][1..]], stage := b.stage[w := Trying(m, b.stage[w].lent)])
  }

  predicate TakesBack(b: Board) {
    && Proper(b) && b.stage[b.current].TakingBack? && MutexHeld(b, b.stage[b.current].m)
    && Known(b.waiting[b.stage[b.current].m], |b.stage|)
  }

  function TakenBack(b: Board): Board
    requires TakesBack(b)
  {
    var m := b.stage[b.current].m;
    var h := b.holder[m].value;
    var use := Max(b.base[h], if b.waiting[m] == [] then 0 else b.prio[b.waiting[m][0]]);
    b.(stage := b.stage[b.current := Away], prio := if b.held[h] == 1 then b.prio[h := use] else b.prio)
  }

  predicate Expires(b: Board, t: TaskId) {
    Proper(b) && t < |b.stage| && b.stage[t].Waiting? && b.stage[t].m < |b.holder|
  }

  function Expired(b: Board, t: TaskId, next: TaskId): Board
    requires Expires(b, t)
  {
    var m := b.stage[t].m;
    b.(waiting := b.waiting[m := Remove(b.waiting[m], t)], stage := b.stage[t := Trying(m, b.stage[t].lent)],
       current := next)
  }

  function Set(b: Board, t: TaskId, p: Stage): Board
    requires Proper(b) && t < |b.stage|
  {
    b.(stage := b.stage[t := p])
  }

  predicate Possible(b: Board, step: Step) {
    && Proper(b)
    && var p := b.stage[b.current];
       match step
       case Take(m) => AtLoop(b, m) && b.holder[m] == None
       case Block(m, next) =>
         AtLoop(b, m) && MutexHeld(b, m) && Known(b.waiting[m], |b.stage|)
         && Foremost(Blocked(b, m, next), next)
       case Give(m, next) => GivesQuietly(b, m) && next == b.current
       case GiveUp => p.Trying? && p.lent && MutexHeld(b, p.m)
       case TakeBack => TakesBack(b)
       case Sleep(next) => p.Away? && Foremost(Set(b, b.current, Sleeping), next)
       case Wake(t, next) => t < |b.stage| && b.stage[t].Sleeping? && Foremost(Set(b, t, Away), next)
       case Expire(t, next) => Expires(b, t) && Foremost(Expired(b, t, next), next)
       case _ => false
  }

  function After(b: Board, step: Step): Board
    requires Possible(b, step)
  {
    match step
    case Take(m) =>
      Set(b, b.current, Away).(holder := b.holder[m := Some(b.current)],
                               held := b.held[b.current := b.held[b.current] + 1])
    case Block(m, next) => Blocked(b, m, next)
    case Give(m, _) => Given(b, m)
    case GiveUp => Set(b, b.current, TakingBack(b.stage[b.current].m))
    case TakeBack => TakenBack(b)
    case Sleep(next) => Set(b, b.current, Sleeping).(current := next)
    case Wake(t, next) => Set(b, t, Away).(current := next)
    case Expire(t, next) => Expired(b, t, next)
    case _ => b
  }

  // ------------------------------------------------------------------ boards show the model

  lemma SelectedAt(s: Sys, b: Board, t: TaskId)
    requires At(s, b) && Foremost(b, t)
    ensures Selected(s, t)
  {
    assert TaskAt(s, b, t);
    forall u | u in s.stage && Runs(s.stage[u]) ensures u in s.books.prio && s.books.prio[u] <= s.books.prio[t] {
      assert TaskAt(s, b, u);
    }
  }

  /** The board after a step that leaves the mutexes and their lists alone. */
  lemma SetAt(s: Sys, b: Board, t: TaskId, p: Stage)
    requires At(s, b) && t < |b.stage|
    ensures At(s.(stage := s.stage[t := p]), Set(b, t, p))
  {
    var r, c := s.(stage := s.stage[t := p]), Set(b, t, p);
    forall m | 0 <= m < |c.holder| ensures MutexAt(r, c, m) { assert MutexAt(s, b, m); }
    forall u | 0 <= u < |c.stage| ensures TaskAt(r, c, u) { assert TaskAt(s, b, u); }
    assert TaskAt(s, b, t);
  }

  lemma SwitchedAt(s: Sys, b: Board, next: TaskId)
    requires At(s, b) && next < |b.stage|
    ensures At(s.(current := next), b.(current := next))
  {
    var r, c := s.(current := next), b.(current := next);
    forall m | 0 <= m < |c.holder| ensures MutexAt(r, c, m) { assert MutexAt(s, b, m); }
    forall u | 0 <= u < |c.stage| ensures TaskAt(r, c, u) { assert TaskAt(s, b, u); }
  }

  lemma ForemostRuns(b: Board, t: TaskId)
    requires Foremost(b, t)
    ensures Foremost(b.(current := t), t)
  {
  }

  /** The scheduler, if it runs, makes a choice it may make. */
  lemma LeadsToForemost(s: Sys, step: Step, c: Board)
    requires Shape(s) && Running(s) && Enabled(s, step) && At(Next(s, step), c) && Foremost(c, c.current)
    ensures Scheduled(s, step)
  {
    SelectedAt(Next(s, step), c, c.current);
  }

  lemma TakeAt(s: Sys, b: Board, m: MutexId)
    requires Shape(s) && Running(s) && At(s, b) && Possible(b, Take(m))
    ensures Enabled(s, Take(m)) && Scheduled(s, Take(m)) && At(Next(s, Take(m)), After(b, Take(m)))
  {
    assert MutexAt(s, b, m) && TaskAt(s, b, s.current);
    TakenAt(s, b, m);
  }

  lemma TakenAt(s: Sys, b: Board, m: MutexId)
    requires At(s, b) && Possible(b, Take(m)) && A.Enabled(s.books, A.Take(s.current, m))
    ensures At(Went(s, Away).(books := A.TakeStep(s.books, s.current, m)), After(b, Take(m)))
  {
    var r, c := Went(s, Away).(books := A.TakeStep(s.books, s.current, m)), After(b, Take(m));
    forall n | 0 <= n < |c.holder| ensures MutexAt(r, c, n) { assert MutexAt(s, b, n); }
    forall t | 0 <= t < |c.stage| ensures TaskAt(r, c, t) { assert TaskAt(s, b, t); }
    assert TaskAt(s, b, s.current);
  }

  /** A new priority for task h, and the value with it. */
  lemma RepricedAt(s: Sys, b: Board, books: A.Sys, h: TaskId)
    requires At(s, b) && h < |b.stage| && OthersKept(s.books.prio, books.prio, h)
    requires h in s.books.prio && h in books.prio && books.prio[h] <= s.max
    requires books.mutexes == s.books.mutexes && books.held == s.books.held && books.base == s.books.base
    ensures At(Booked(s, books, h), b.(prio := b.prio[h := books.prio[h]]))
  {
    var r, c := Booked(s, books, h), b.(prio := b.prio[h := books.prio[h]]);
    forall n | 0 <= n < |c.holder| ensures MutexAt(r, c, n) { assert MutexAt(s, b, n); }
    forall t | 0 <= t < |c.stage| ensures TaskAt(r, c, t) { assert TaskAt(s, b, t); }
  }

  /** A new event list. */
  lemma ListedAt(s: Sys, b: Board, m: MutexId, list: seq<TaskId>)
    requires At(s, b) && m < |b.holder|
    ensures At(s.(waiting := s.waiting[m := list]), b.(waiting := b.waiting[m := list]))
  {
    var r, c := s.(waiting := s.waiting[m := list]), b.(waiting := b.waiting[m := list]);
    forall n | 0 <= n < |c.holder| ensures MutexAt(r, c, n) { assert MutexAt(s, b, n); }
    forall t | 0 <= t < |c.stage| ensures TaskAt(r, c, t) { assert TaskAt(s, b, t); }
  }

  lemma {:induction false} InsertIs(list: seq<TaskId>, v: map<TaskId, nat>, prio: seq<nat>, max: nat, t: TaskId)
    requires Known(list, |prio|) && t < |prio| && Valued(list, v) && t in v
    requires forall u :: u in v && u < |prio| ==> prio[u] <= max && v[u] == max - prio[u]
    ensures Insert(list, v, t) == InsertByPriority(list, prio, t)
  {
    if list != [] {
      assert list[0] in list && list[0] < |prio|;
      assert v[t] < v[list[0]] <==> prio[list[0]] < prio[t];
      InsertIs(list[1..], v, prio, max, t);
    }
  }

  /** The running task goes onto the list of mutex m. */
  lemma EnlistedAt(s: Sys, b: Board, m: MutexId, lent: bool, next: TaskId)
    requires Shape(s) && At(s, b) && m < |b.holder| && next < |b.stage| && Known(b.waiting[m], |b.stage|)
    requires m in s.waiting && Valued(s.waiting[m], s.value) && s.current in s.value
    ensures At(Enlisted(s, m, lent).(current := next),
               b.(waiting := b.waiting[m := InsertByPriority(b.waiting[m], b.prio, b.current)],
                  stage := b.stage[b.current := Waiting(m, lent)], current := next))
  {
    var list := Insert(s.waiting[m], s.value, s.current);
    assert MutexAt(s, b, m);
    forall u | u in s.value && u < |b.prio| ensures b.prio[u] <= s.max && s.value[u] == s.max - b.prio[u] {
      assert TaskAt(s, b, u);
    }
    InsertIs(s.waiting[m], s.value, b.prio, s.max, s.current);
    ListedAt(s, b, m, list);
    SetAt(s.(waiting := s.waiting[m := list]), b.(waiting := b.waiting[m := list]), s.current, Waiting(m, lent));
    SwitchedAt(Enlisted(s, m, lent), Set(b.(waiting := b.waiting[m := list]), b.current, Waiting(m, lent)), next);
  }

  lemma BlockEnabledAt(s: Sys, b: Board, m: MutexId, next: TaskId)
    requires Shape(s) && Running(s) && At(s, b) && Possible(b, Block(m, next))
    ensures Enabled(s, Block(m, next)) && HeldBy(s, m, b.holder[m].value)
  {
    assert MutexAt(s, b, m) && TaskAt(s, b, s.current) && TaskAt(s, b, next);
  }

  /** Task h, which holds mutex m, raised by the running task, if it is. */
  lemma LendingAt(s: Sys, b: Board, m: MutexId, h: TaskId)
    requires Shape(s) && At(s, b) && MutexHeld(b, m) && h == b.holder[m].value && HeldBy(s, m, h)
    requires s.current in s.stage
    ensures s.current in s.books.prio && h in s.books.prio && h in s.books.base
    ensures A.BlockStep(s.books, s.current, h).prio[h] <= s.max
    ensures At(Booked(s, A.BlockStep(s.books, s.current, h), h), b.(prio := Lending(b, m)))
    ensures Inherits(s, h) <==> b.prio[h] < b.prio[b.current] || b.base[h] < b.prio[b.current]
  {
    LendIs(s, m, h);
    var books := A.BlockStep(s.books, s.current, h);
    HolderIsTask(s, m, h);
    assert TaskAt(s, b, h) && TaskAt(s, b, s.current);
    RepricedAt(s, b, books, h);
    assert b.prio[h := books.prio[h]] == Lending(b, m);
  }

  lemma BlockAt(s: Sys, b: Board, m: MutexId, next: TaskId)
    requires Shape(s) && Running(s) && At(s, b) && Possible(b, Block(m, next))
    ensures Enabled(s, Block(m, next)) && At(Next(s, Block(m, next)), After(b, Block(m, next)))
  {
    var h := b.holder[m].value;
    BlockEnabledAt(s, b, m, next);
    LendingIs(s, m, h);
    LendIs(s, m, h);
    LendingAt(s, b, m, h);
    BookedKeepsShape(s, A.BlockStep(s.books, s.current, h), h);
    EnlistedAt(Booked(s, A.BlockStep(s.books, s.current, h), h), b.(prio := Lending(b, m)), m, Inherits(s, h), next);
  }

  lemma GiveEnabledAt(s: Sys, b: Board, m: MutexId)
    requires Shape(s) && Running(s) && At(s, b) && GivesQuietly(b, m)
    ensures Enabled(s, Give(m, b.current)) && HeldBy(s, m, s.current) && !Yields(s, m)
    ensures s.waiting[m] == b.waiting[m] && s.current in s.books.prio && s.current in s.books.held
    ensures GivenBooks(s, m).prio[s.current] == GiversPriority(b)
  {
    assert MutexAt(s, b, m) && TaskAt(s, b, s.current);
    GivingIs(s, m);
    GiverIs(s, m);
    var w := b.waiting[m][0];
    assert TaskAt(s, b, w);
  }

  function Released(b: Board, m: MutexId): Board
    requires GivesQuietly(b, m)
  {
    b.(holder := b.holder[m := None], held := b.held[b.current := b.held[b.current] - 1],
       prio := b.prio[b.current := GiversPriority(b)])
  }

  /** The mutex released and its giver's count and priority down. */
  lemma ReleasedAt(s: Sys, b: Board, m: MutexId)
    requires Shape(s) && Running(s) && At(s, b) && GivesQuietly(b, m) && HeldBy(s, m, s.current)
    requires A.Enabled(s.books, A.Give(s.current, m)) && s.current in s.books.prio && s.current in GivenBooks(s, m).prio
    requires GivenBooks(s, m).prio[s.current] == GiversPriority(b) <= s.max
    ensures At(Booked(s, GivenBooks(s, m), s.current), Released(b, m))
  {
    var r, c := Booked(s, GivenBooks(s, m), s.current), Released(b, m);
    forall n | 0 <= n < |c.holder| ensures MutexAt(r, c, n) { ReleasedMutexAt(s, b, m, n); }
    forall t | 0 <= t < |c.stage| ensures TaskAt(r, c, t) { ReleasedTaskAt(s, b, m, t); }
  }

  lemma ReleasedMutexAt(s: Sys, b: Board, m: MutexId, n: MutexId)
    requires Shape(s) && At(s, b) && GivesQuietly(b, m) && n < |b.holder| && HeldBy(s, m, s.current)
    requires A.Enabled(s.books, A.Give(s.current, m)) && s.current in s.books.prio && s.current in GivenBooks(s, m).prio
    requires GivenBooks(s, m).prio[s.current] <= s.max
    ensures MutexAt(Booked(s, GivenBooks(s, m), s.current), Released(b, m), n)
  {
    GiveHolders(s, m);
    A.GiveIs(s.books, s.current, m);
    assert MutexAt(s, b, n);
  }

  lemma ReleasedTaskAt(s: Sys, b: Board, m: MutexId, t: TaskId)
    requires Shape(s) && At(s, b) && GivesQuietly(b, m) && t < |b.stage| && HeldBy(s, m, s.current)
    requires A.Enabled(s.books, A.Give(s.current, m)) && s.current in s.books.prio && s.current in GivenBooks(s, m).prio
    requires GivenBooks(s, m).prio[s.current] == GiversPriority(b) <= s.max
    ensures TaskAt(Booked(s, GivenBooks(s, m), s.current), Released(b, m), t)
  {
    GiveHolders(s, m);
    GiverIs(s, m);
    assert TaskAt(s, b, t);
  }

  /** A task off its list. */
  lemma DelistedAt(s: Sys, b: Board, w: TaskId)
    requires At(s, b) && w < |b.stage| && b.stage[w].Waiting? && b.stage[w].m < |b.holder|
    ensures w in s.stage && s.stage[w] == b.stage[w] && s.stage[w].m in s.waiting
    ensures At(Delisted(s, w), b.(waiting := b.waiting[b.stage[w].m := Remove(b.waiting[b.stage[w].m], w)],
                                  stage := b.stage[w := Trying(b.stage[w].m, b.stage[w].lent)]))
  {
    var m := b.stage[w].m;
    assert TaskAt(s, b, w) && MutexAt(s, b, m);
    ListedAt(s, b, m, Remove(b.waiting[m], w));
    SetAt(s.(waiting := s.waiting[m := Remove(s.waiting[m], w)]),
          b.(waiting := b.waiting[m := Remove(b.waiting[m], w)]), w, Trying(m, b.stage[w].lent));
  }

  lemma GiveAt(s: Sys, b: Board, m: MutexId)
    requires Shape(s) && Running(s) && At(s, b) && GivesQuietly(b, m)
    ensures Enabled(s, Give(m, b.current)) && Scheduled(s, Give(m, b.current))
    ensures At(Next(s, Give(m, b.current)), Given(b, m))
  {
    GiveEnabledAt(s, b, m);
    GivingIs(s, m);
    ReleasedAt(s, b, m);
    DelistedAt(Booked(s, GivenBooks(s, m), s.current), Released(b, m), b.waiting[m][0]);
    assert Remove(b.waiting[m], b.waiting[m][0]) == b.waiting[m][1..];
  }

  lemma GiveUpAt(s: Sys, b: Board)
    requires Shape(s) && Running(s) && At(s, b) && Possible(b, GiveUp)
    ensures Enabled(s, GiveUp) && Scheduled(s, GiveUp) && At(Next(s, GiveUp), After(b, GiveUp))
  {
    assert TaskAt(s, b, s.current) && MutexAt(s, b, b.stage[b.current].m);
    SetAt(s, b, s.current, TakingBack(b.stage[b.current].m));
  }

  lemma TakeBackEnabledAt(s: Sys, b: Board)
    requires Shape(s) && Running(s) && At(s, b) && TakesBack(b)
    ensures IsTakingBack(s) && s.stage[s.current] == b.stage[b.current]
    ensures var m := b.stage[b.current].m;
            && HeldBy(s, m, b.holder[m].value) && m in s.waiting && s.waiting[m] == b.waiting[m]
            && Valued(s.waiting[m], s.value) && (forall t :: t in s.value ==> s.value[t] <= s.max)
            && HeadPriority(s, m) == if b.waiting[m] == [] then 0 else b.prio[b.waiting[m][0]]
  {
    var m := b.stage[b.current].m;
    assert TaskAt(s, b, s.current) && MutexAt(s, b, m);
    HeadIs(s, m);
    if b.waiting[m] != [] { assert TaskAt(s, b, b.waiting[m][0]); }
  }

  /** Holder h lowered after a timeout, if it is. */
  lemma LoweredAt(s: Sys, b: Board, h: TaskId, p: nat)
    requires At(s, b) && h < |b.stage| && b.base[h] <= s.max && p <= s.max && b.prio[h] <= s.max
    requires h in s.books.prio && h in s.books.base && h in s.books.held
    ensures A.TimeOutStep(s.books, h, p).prio[h] <= s.max
    ensures At(Booked(s, A.TimeOutStep(s.books, h, p), h),
               b.(prio := if b.held[h] == 1 then b.prio[h := Max(b.base[h], p)] else b.prio))
  {
    assert TaskAt(s, b, h);
    TimeOutPriority(s.books, h, p);
    RepricedAt(s, b, A.TimeOutStep(s.books, h, p), h);
    assert b.prio[h := b.prio[h]] == b.prio;
  }

  lemma TakeBackAt(s: Sys, b: Board)
    requires Shape(s) && Running(s) && At(s, b) && TakesBack(b)
    ensures IsTakingBack(s) && At(TakeBackStep(s), TakenBack(b))
  {
    var m := b.stage[b.current].m;
    var h := b.holder[m].value;
    TakeBackEnabledAt(s, b);
    TakingIs(s, m, h);
    HolderIsTask(s, m, h);
    assert TaskAt(s, b, h);
    var p := HeadPriority(s, m);
    LoweredAt(s, b, h, p);
    SetAt(Booked(s, A.TimeOutStep(s.books, h, p), h),
          b.(prio := if b.held[h] == 1 then b.prio[h := Max(b.base[h], p)] else b.prio), s.current, Away);
  }

  lemma SleepAt(s: Sys, b: Board, next: TaskId)
    requires Shape(s) && Running(s) && At(s, b) && Possible(b, Sleep(next))
    ensures Enabled(s, Sleep(next)) && At(Next(s, Sleep(next)), After(b, Sleep(next)))
  {
    assert TaskAt(s, b, s.current) && TaskAt(s, b, next);
    SetAt(s, b, s.current, Sleeping);
    SwitchedAt(Went(s, Sleeping), Set(b, b.current, Sleeping), next);
  }

  lemma WakeAt(s: Sys, b: Board, t: TaskId, next: TaskId)
    requires Shape(s) && Running(s) && At(s, b) && Possible(b, Wake(t, next))
    ensures Enabled(s, Wake(t, next)) && At(Next(s, Wake(t, next)), After(b, Wake(t, next)))
  {
    assert TaskAt(s, b, t) && TaskAt(s, b, next);
    SetAt(s, b, t, Away);
    SwitchedAt(s.(stage := s.stage[t := Away]), Set(b, t, Away), next);
  }

  lemma ExpireAt(s: Sys, b: Board, t: TaskId, next: TaskId)
    requires Shape(s) && Running(s) && At(s, b) && Possible(b, Expire(t, next))
    ensures Enabled(s, Expire(t, next)) && At(Next(s, Expire(t, next)), After(b, Expire(t, next)))
  {
    assert TaskAt(s, b, t) && TaskAt(s, b, next);
    DelistedAt(s, b, t);
    var c := Expired(b, t, next);
    SwitchedAt(Delisted(s, t), c.(current := b.current), next);
  }

  lemma BlockScheduledAt(s: Sys, b: Board, m: MutexId, next: TaskId)
    requires Shape(s) && Running(s) && At(s, b) && Possible(b, Block(m, next))
    ensures Enabled(s, Block(m, next)) && Scheduled(s, Block(m, next))
    ensures At(Next(s, Block(m, next)), After(b, Block(m, next)))
  {
    BlockAt(s, b, m, next);
    LeadsToForemost(s, Block(m, next), Blocked(b, m, next));
  }

  lemma SleepScheduledAt(s: Sys, b: Board, next: TaskId)
    requires Shape(s) && Running(s) && At(s, b) && Possible(b, Sleep(next))
    ensures Enabled(s, Sleep(next)) && Scheduled(s, Sleep(next))
    ensures At(Next(s, Sleep(next)), After(b, Sleep(next)))
  {
    SleepAt(s, b, next);
    ForemostRuns(Set(b, b.current, Sleeping), next);
    LeadsToForemost(s, Sleep(next), Set(b, b.current, Sleeping).(current := next));
  }

  lemma WakeScheduledAt(s: Sys, b: Board, t: TaskId, next: TaskId)
    requires Shape(s) && Running(s) && At(s, b) && Possible(b, Wake(t, next))
    ensures Enabled(s, Wake(t, next)) && Scheduled(s, Wake(t, next))
    ensures At(Next(s, Wake(t, next)), After(b, Wake(t, next)))
  {
    WakeAt(s, b, t, next);
    ForemostRuns(Set(b, t, Away), next);
    LeadsToForemost(s, Wake(t, next), Set(b, t, Away).(current := next));
  }

  lemma ExpireScheduledAt(s: Sys, b: Board, t: TaskId, next: TaskId)
    requires Shape(s) && Running(s) && At(s, b) && Possible(b, Expire(t, next))
    ensures Enabled(s, Expire(t, next)) && Scheduled(s, Expire(t, next))
    ensures At(Next(s, Expire(t, next)), After(b, Expire(t, next)))
  {
    ExpireAt(s, b, t, next);
    LeadsToForemost(s, Expire(t, next), Expired(b, t, next));
  }

  /** A step possible on a board is a step of the model, to the board after it. */
  lemma StepAt(s: Sys, b: Board, step: Step)
    requires Shape(s) && Running(s) && At(s, b) && Possible(b, step)
    ensures Enabled(s, step) && Scheduled(s, step) && At(Next(s, step), After(b, step))
  {
    match step
    case Take(m) => TakeAt(s, b, m);
    case Block(m, next) => BlockScheduledAt(s, b, m, next);
    case Give(m, _) => GiveAt(s, b, m);
    case GiveUp => GiveUpAt(s, b);
    case TakeBack => TakeBackAt(s, b);
    case Sleep(next) => SleepScheduledAt(s, b, next);
    case Wake(t, next) => WakeScheduledAt(s, b, t, next);
    case Expire(t, next) => ExpireScheduledAt(s, b, t, next);
  }

  // ------------------------------------------------------------------ playing on boards

  predicate Plays(b: Board, steps: seq<Step>, c: Board)
    decreases |steps|
  {
    if steps == [] then c == b else Possible(b, steps[0]) && Plays(After(b, steps[0]), steps[1..], c)
  }

  predicate Turns(b: Board, step: Step, c: Board) {
    Possible(b, step) && After(b, step) == c
  }

  lemma TwoTurns(b: Board, x: Step, c: Board, y: Step, d: Board)
    requires Turns(b, x, c) && Turns(c, y, d)
    ensures Plays(b, [x, y], d)
  {
    assert [x, y][1..] == [y] && [y][1..] == [];
  }

  lemma FourTurns(b: Board, x: Step, c: Board, y: Step, d: Board, z: Step, e: Board, u: Step, f: Board)
    requires Turns(b, x, c) && Turns(c, y, d) && Turns(d, z, e) && Turns(e, u, f)
    ensures Plays(b, [x, y, z, u], f)
  {
    TwoTurns(b, x, c, y, d);
    TwoTurns(d, z, e, u, f);
    PlayOn(b, [x, y], d, [z, u], f);
    assert [x, y] + [z, u] == [x, y, z, u];
  }

  lemma {:induction false} PlayOn(b: Board, first: seq<Step>, c: Board, steps: seq<Step>, d: Board)
    requires Plays(b, first, c) && Plays(c, steps, d)
    ensures Plays(b, first + steps, d)
    decreases |first|
  {
    if first == [] {
      assert first + steps == steps;
    } else {
      assert (first + steps)[0] == first[0] && (first + steps)[1..] == first[1..] + steps;
      PlayOn(After(b, first[0]), first[1..], c, steps, d);
    }
  }

  /** Steps that can be played on boards make a run of the model. */
  lemma {:induction false} PlaysOut(s: Sys, b: Board, steps: seq<Step>, c: Board) returns (r: Sys)
    requires Shape(s) && Running(s) && At(s, b) && Plays(b, steps, c)
    ensures Run(s, steps, r) && Shape(r) && Running(r) && At(r, c)
    decreases |steps|
  {
    if steps == [] {
      r := s;
    } else {
      StepAt(s, b, steps[0]);
      StepKeepsShape(s, steps[0]);
      StepKeepsRunning(s, steps[0]);
      r := PlaysOut(Next(s, steps[0]), After(b, steps[0]), steps[1..], c);
    }
  }

  /** Free mutexes, nobody waiting, all tasks at their base priorities. */
  predicate Fresh(b: Board) {
    && Proper(b) && b.prio == b.base && Runs(b.stage[b.current])
    && (forall m :: 0 <= m < |b.holder| ==> b.holder[m] == None && b.waiting[m] == [])
    && (forall t :: 0 <= t < |b.stage| ==>
          b.prio[t] < b.max && b.held[t] == 0 && (b.stage[t].Away? || b.stage[t].Sleeping?))
  }

  function Start(b: Board): Sys
    requires Fresh(b)
  {
    Sys(b.max,
        A.Sys(map m: nat | 0 <= m < |b.holder| :: A.Mutex(false, 1, b.holder[m], 0, A.Settled),
              map t: nat | 0 <= t < |b.stage| :: b.held[t],
              map t: nat | 0 <= t < |b.stage| :: b.base[t],
              map t: nat | 0 <= t < |b.stage| :: b.prio[t]),
        map m: nat | 0 <= m < |b.holder| :: b.waiting[m],
        map t: nat | 0 <= t < |b.stage| :: b.max - b.prio[t],
        map t: nat | 0 <= t < |b.stage| :: b.stage[t],
        b.current)
  }

  lemma StartAt(b: Board)
    requires Fresh(b)
    ensures Initial(Start(b)) && At(Start(b), b)
  {
    StartIsInitial(b);
    var s := Start(b);
    forall m | 0 <= m < |b.holder| ensures MutexAt(s, b, m) {}
    forall t | 0 <= t < |b.stage| ensures TaskAt(s, b, t) {}
  }

  lemma StartIsInitial(b: Board)
    requires Fresh(b)
    ensures Initial(Start(b))
  {
    assert A.Initial(Start(b).books);
    A.InitialInv(Start(b).books);
  }

  /** A run of the model from fresh mutexes. */
  ghost predicate Reached(b: Board, steps: seq<Step>, r: Sys) {
    && Fresh(b) && Initial(Start(b)) && Shape(Start(b)) && Running(Start(b))
    && Run(Start(b), steps, r)
  }

  lemma Reaches(b: Board, steps: seq<Step>, c: Board) returns (r: Sys)
    requires Fresh(b) && Plays(b, steps, c)
    ensures Reached(b, steps, r) && Shape(r) && Running(r) && At(r, c)
  {
    StartAt(b);
    InitialShape(Start(b));
    r := PlaysOut(Start(b), b, steps, c);
  }

  lemma ReachesBy(b: Board, first: seq<Step>, c: Board, steps: seq<Step>, d: Board) returns (r: Sys)
    requires Fresh(b) && Plays(b, first, c) && Plays(c, steps, d)
    ensures Reached(b, first + steps, r) && Shape(r) && Running(r) && At(r, d)
  {
    PlayOn(b, first, c, steps, d);
    r := Reaches(b, first + steps, d);
  }

  /** Task w waits for a mutex whose holder is lower. */
  predicate Inverted(s: Sys, m: MutexId, w: TaskId) {
    && m in s.waiting && w in s.waiting[m] && w in s.books.prio && m in s.books.mutexes
    && s.books.mutexes[m].holder.Some? && s.books.mutexes[m].holder.value in s.books.prio
    && s.books.prio[s.books.mutexes[m].holder.value] < s.books.prio[w]
  }

  lemma InvertedAt(s: Sys, b: Board, m: MutexId, w: TaskId)
    requires At(s, b) && m < |b.holder| && w < |b.stage| && w in b.waiting[m]
    requires b.holder[m].Some? && b.holder[m].value < |b.stage| && b.prio[b.holder[m].value] < b.prio[w]
    ensures Inverted(s, m, w)
  {
    assert MutexAt(s, b, m) && TaskAt(s, b, w) && TaskAt(s, b, b.holder[m].value);
  }

  // ------------------------------------------------------------------ a chain of two

  /** Three tasks of base priorities 1, 2 and 3, and two mutexes; task 0 runs. */
  const Three := Board(4, 0, [None, None], [[], []], [Away, Sleeping, Sleeping], [0, 0, 0], [1, 2, 3], [1, 2, 3])

  lemma ThreeIsFresh()
    ensures Fresh(Three)
  {
  }

  /** Task 0 takes mutex 0, task 1 takes mutex 1 and waits for mutex 0, task 2 waits for
      mutex 1. */
  const ChainSteps: seq<Step> := [Take(0), Wake(1, 1)] + [Take(1), Block(0, 0), Wake(2, 2), Block(1, 0)]

  const Chain1 := Three.(holder := [Some(0), None], held := [1, 0, 0])
  const Chain2 := Chain1.(current := 1, stage := [Away, Away, Sleeping])
  const Chain3 := Chain2.(holder := [Some(0), Some(1)], held := [1, 1, 0])
  const Chain4 := Chain3.(current := 0, waiting := Chain3.waiting[0 := [1]],
                          stage := [Away, Waiting(0, true), Sleeping], prio := [2, 2, 3])
  const Chain5 := Chain4.(current := 2, stage := [Away, Waiting(0, true), Away])
  const Chain6 := Chain5.(current := 0, waiting := Chain5.waiting[1 := [2]],
                          stage := [Away, Waiting(0, true), Waiting(1, true)], prio := [2, 3, 3])

  lemma ChainTakes()
    ensures Turns(Three, Take(0), Chain1) && Turns(Chain1, Wake(1, 1), Chain2) && Turns(Chain2, Take(1), Chain3)
  {
  }

  lemma ChainBlocks()
    ensures Turns(Chain3, Block(0, 0), Chain4)
  {
    assert Lending(Chain3, 0) == [2, 2, 3];
    assert InsertByPriority([], [2, 2, 3], 1) == [1];
  }

  lemma ChainWakes()
    ensures Turns(Chain4, Wake(2, 2), Chain5)
  {
  }

  lemma ChainCloses()
    ensures Turns(Chain5, Block(1, 0), Chain6)
  {
    assert Lending(Chain5, 1) == [2, 3, 3];
    assert InsertByPriority([], [2, 3, 3], 2) == [2];
  }

  lemma ChainPlays()
    ensures Plays(Three, ChainSteps, Chain6)
  {
    ChainTakes();
    ChainBlocks();
    ChainWakes();
    ChainCloses();
    TwoTurns(Three, Take(0), Chain1, Wake(1, 1), Chain2);
    FourTurns(Chain2, Take(1), Chain3, Block(0, 0), Chain4, Wake(2, 2), Chain5, Block(1, 0), Chain6);
    PlayOn(Three, [Take(0), Wake(1, 1)], Chain2, [Take(1), Block(0, 0), Wake(2, 2), Block(1, 0)], Chain6);
  }

  /** A lent priority is not passed on: after a chain of two, task 1 waits at priority 3 for
      a mutex whose holder runs at 2. */
  lemma ChainBreaksRanks() returns (r: Sys)
    ensures Reached(Three, ChainSteps, r) && Inverted(r, 0, 1)
  {
    ThreeIsFresh();
    ChainPlays();
    r := Reaches(Three, ChainSteps, Chain6);
    ChainEnd(r);
  }

  lemma ChainEnd(r: Sys)
    requires At(r, Chain6)
    ensures Inverted(r, 0, 1)
  {
    InvertedAt(r, Chain6, 0, 1);
  }

  // ------------------------------------------------------------------ a stale head

  /** Five tasks of base priorities 0 to 4, and two mutexes; task 0 runs. */
  const Five := Board(5, 0, [None, None], [[], []], [Away, Sleeping, Sleeping, Sleeping, Sleeping], [0, 0, 0, 0, 0],
                      [0, 1, 2, 3, 4], [0, 1, 2, 3, 4])

  lemma FiveIsFresh()
    ensures Fresh(Five)
  {
  }

  /** Task 0 takes mutex 0 and task 1 mutex 1, and task 2 waits for mutex 0; task 3 waits for
      mutex 1, and task 1, raised by it, for mutex 0. */
  const StaleSetUp: seq<Step> :=
    [Take(0), Wake(1, 1), Take(1), Wake(2, 2)] + [Block(0, 0), Wake(3, 3), Block(1, 1), Block(0, 0)]

  /** Task 3 times out and takes its priority back from task 1, which keeps its place on the
      list; task 4 waits for mutex 0, times out and takes its priority back from task 0. */
  const StaleTimeOuts: seq<Step> :=
    [Expire(3, 3), GiveUp, TakeBack, Wake(4, 4)] + [Block(0, 0), Expire(4, 4), GiveUp, TakeBack]

  const Stale1 := Five.(holder := [Some(0), None], held := [1, 0, 0, 0, 0])
  const Stale2 := Stale1.(current := 1, stage := [Away, Away, Sleeping, Sleeping, Sleeping])
  const Stale3 := Stale2.(holder := [Some(0), Some(1)], held := [1, 1, 0, 0, 0])
  const Stale4 := Stale3.(current := 2, stage := [Away, Away, Away, Sleeping, Sleeping])
  const Stale5 := Stale4.(current := 0, waiting := Stale4.waiting[0 := [2]], prio := [2, 1, 2, 3, 4],
                          stage := [Away, Away, Waiting(0, true), Sleeping, Sleeping])
  const Stale6 := Stale5.(current := 3, stage := [Away, Away, Waiting(0, true), Away, Sleeping])
  const Stale7 := Stale6.(current := 1, waiting := Stale6.waiting[1 := [3]], prio := [2, 3, 2, 3, 4],
                          stage := [Away, Away, Waiting(0, true), Waiting(1, true), Sleeping])
  const Stale8 := Stale7.(current := 0, waiting := Stale7.waiting[0 := [1, 2]], prio := [3, 3, 2, 3, 4],
                          stage := [Away, Waiting(0, true), Waiting(0, true), Waiting(1, true), Sleeping])
  const Stale9 := Stale8.(current := 3, waiting := Stale8.waiting[1 := []],
                          stage := [Away, Waiting(0, true), Waiting(0, true), Trying(1, true), Sleeping])
  const Stale10 := Stale9.(stage := [Away, Waiting(0, true), Waiting(0, true), TakingBack(1), Sleeping])
  const Stale11 := Stale10.(prio := [3, 1, 2, 3, 4],
                            stage := [Away, Waiting(0, true), Waiting(0, true), Away, Sleeping])
  const Stale12 := Stale11.(current := 4, stage := [Away, Waiting(0, true), Waiting(0, true), Away, Away])
  const Stale13 := Stale12.(current := 0, waiting := Stale12.waiting[0 := [4, 1, 2]], prio := [4, 1, 2, 3, 4],
                            stage := [Away, Waiting(0, true), Waiting(0, true), Away, Waiting(0, true)])
  const Stale14 := Stale13.(current := 4, waiting := Stale13.waiting[0 := [1, 2]],
                            stage := [Away, Waiting(0, true), Waiting(0, true), Away, Trying(0, true)])
  const Stale15 := Stale14.(stage := [Away, Waiting(0, true), Waiting(0, true), Away, TakingBack(0)])
  const Stale16 := Stale15.(prio := [1, 1, 2, 3, 4],
                            stage := [Away, Waiting(0, true), Waiting(0, true), Away, Away])

  lemma StaleFirstTake()
    ensures Turns(Five, Take(0), Stale1) && Turns(Stale1, Wake(1, 1), Stale2)
  {
  }

  lemma StaleSecondTake()
    ensures Turns(Stale2, Take(1), Stale3) && Turns(Stale3, Wake(2, 2), Stale4)
  {
  }

  lemma StaleFirstBlock()
    ensures Turns(Stale4, Block(0, 0), Stale5) && Turns(Stale5, Wake(3, 3), Stale6)
  {
    assert Lending(Stale4, 0) == [2, 1, 2, 3, 4];
    assert InsertByPriority([], [2, 1, 2, 3, 4], 2) == [2];
  }

  lemma StaleSecondBlock()
    ensures Turns(Stale6, Block(1, 1), Stale7)
  {
    assert Lending(Stale6, 1) == [2, 3, 2, 3, 4];
    assert InsertByPriority([], [2, 3, 2, 3, 4], 3) == [3];
  }

  lemma StaleThirdBlock()
    ensures Turns(Stale7, Block(0, 0), Stale8)
  {
    assert Lending(Stale7, 0) == [3, 3, 2, 3, 4];
    assert Stale7.waiting[0] == [2];
    assert InsertByPriority([2], [3, 3, 2, 3, 4], 1) == [1, 2];
  }

  lemma StaleFirstTimeOut()
    ensures Turns(Stale8, Expire(3, 3), Stale9) && Turns(Stale9, GiveUp, Stale10)
  {
    assert Stale8.waiting[1] == [3] && Remove([3], 3) == [];
  }

  lemma StaleFirstReturn()
    ensures Turns(Stale10, TakeBack, Stale11) && Turns(Stale11, Wake(4, 4), Stale12)
  {
  }

  lemma StaleFourthBlock()
    ensures Turns(Stale12, Block(0, 0), Stale13)
  {
    assert Lending(Stale12, 0) == [4, 1, 2, 3, 4];
    assert Stale12.waiting[0] == [1, 2];
    assert InsertByPriority([1, 2], [4, 1, 2, 3, 4], 4) == [4, 1, 2];
  }

  lemma StaleSecondTimeOut()
    ensures Turns(Stale13, Expire(4, 4), Stale14) && Turns(Stale14, GiveUp, Stale15)
  {
    assert Stale13.waiting[0] == [4, 1, 2] && Remove([4, 1, 2], 4) == [1, 2];
  }

  lemma StaleSecondReturn()
    ensures Turns(Stale15, TakeBack, Stale16)
  {
  }

  lemma StaleSetsUp()
    ensures Plays(Five, StaleSetUp, Stale8)
  {
    StaleFirstTake();
    StaleSecondTake();
    StaleFirstBlock();
    StaleSecondBlock();
    StaleThirdBlock();
    FourTurns(Five, Take(0), Stale1, Wake(1, 1), Stale2, Take(1), Stale3, Wake(2, 2), Stale4);
    FourTurns(Stale4, Block(0, 0), Stale5, Wake(3, 3), Stale6, Block(1, 1), Stale7, Block(0, 0), Stale8);
    PlayOn(Five, [Take(0), Wake(1, 1), Take(1), Wake(2, 2)], Stale4,
           [Block(0, 0), Wake(3, 3), Block(1, 1), Block(0, 0)], Stale8);
  }

  lemma StaleTimesOut()
    ensures Plays(Stale8, StaleTimeOuts, Stale16)
  {
    StaleFirstTimeOut();
    StaleFirstReturn();
    StaleFourthBlock();
    StaleSecondTimeOut();
    StaleSecondReturn();
    FourTurns(Stale8, Expire(3, 3), Stale9, GiveUp, Stale10, TakeBack, Stale11, Wake(4, 4), Stale12);
    FourTurns(Stale12, Block(0, 0), Stale13, Expire(4, 4), Stale14, GiveUp, Stale15, TakeBack, Stale16);
    PlayOn(Stale8, [Expire(3, 3), GiveUp, TakeBack, Wake(4, 4)], Stale12,
           [Block(0, 0), Expire(4, 4), GiveUp, TakeBack], Stale16);
  }

  /** The priority taken back to is read off the head of a list that is not in order: task 1
      stands before task 2 with the priority it had when it was inserted, so task 0 comes down
      to 1 while task 2 waits at 2.  Every block of the run is on a mutex whose holder waits
      for nothing, and every take leaves nobody above the taker waiting. */
  lemma StaleHeadBreaksRanks() returns (r: Sys)
    ensures Reached(Five, StaleSetUp + StaleTimeOuts, r) && Inverted(r, 0, 2)
    ensures r.waiting[0] == [1, 2] && 1 in r.books.prio && r.books.prio[1] == 1
  {
    FiveIsFresh();
    StaleSetsUp();
    StaleTimesOut();
    r := ReachesBy(Five, StaleSetUp, Stale8, StaleTimeOuts, Stale16);
    StaleEnd(r);
  }

  lemma StaleEnd(r: Sys)
    requires At(r, Stale16)
    ensures Inverted(r, 0, 2) && r.waiting[0] == [1, 2] && 1 in r.books.prio && r.books.prio[1] == 1
  {
    InvertedAt(r, Stale16, 0, 2);
    assert MutexAt(r, Stale16, 0) && TaskAt(r, Stale16, 1);
  }

  // ------------------------------------------------------------------ a switch not asked for

  /** Four tasks of base priorities 1, 1, 2 and 3, and two mutexes; task 0 runs. */
  const Four := Board(4, 0, [None, None], [[], []], [Away, Sleeping, Sleeping, Sleeping], [0, 0, 0, 0],
                      [1, 1, 2, 3], [1, 1, 2, 3])

  lemma FourIsFresh()
    ensures Fresh(Four)
  {
  }

  /** Task 0 takes both mutexes; task 1 waits for mutex 1, tasks 2 and 3 for mutex 0. */
  const QuietSetUp: seq<Step> :=
    [Take(0), Take(1), Wake(1, 1), Block(1, 0)] + [Wake(2, 2), Block(0, 0), Wake(3, 3), Block(0, 0)]

  /** Task 0 gives both back. */
  const QuietGives: seq<Step> := [Give(0, 0), Give(1, 0)]

  const Quiet1 := Four.(holder := [Some(0), None], held := [1, 0, 0, 0])
  const Quiet2 := Quiet1.(holder := [Some(0), Some(0)], held := [2, 0, 0, 0])
  const Quiet3 := Quiet2.(current := 1, stage := [Away, Away, Sleeping, Sleeping])
  const Quiet4 := Quiet3.(current := 0, waiting := Quiet3.waiting[1 := [1]],
                          stage := [Away, Waiting(1, false), Sleeping, Sleeping])
  const Quiet5 := Quiet4.(current := 2, stage := [Away, Waiting(1, false), Away, Sleeping])
  const Quiet6 := Quiet5.(current := 0, waiting := Quiet5.waiting[0 := [2]], prio := [2, 1, 2, 3],
                          stage := [Away, Waiting(1, false), Waiting(0, true), Sleeping])
  const Quiet7 := Quiet6.(current := 3, stage := [Away, Waiting(1, false), Waiting(0, true), Away])
  const Quiet8 := Quiet7.(current := 0, waiting := Quiet7.waiting[0 := [3, 2]], prio := [3, 1, 2, 3],
                          stage := [Away, Waiting(1, false), Waiting(0, true), Waiting(0, true)])
  const Quiet9 := Quiet8.(holder := [None, Some(0)], held := [1, 0, 0, 0], waiting := Quiet8.waiting[0 := [2]],
                          stage := [Away, Waiting(1, false), Waiting(0, true), Trying(0, true)])
  const Quiet10 := Quiet9.(holder := [None, None], held := [0, 0, 0, 0], waiting := Quiet9.waiting[1 := []],
                           prio := [1, 1, 2, 3], stage := [Away, Trying(1, false), Waiting(0, true), Trying(0, true)])
  const Quiet11 := Quiet10.(holder := [Some(0), None], held := [1, 0, 0, 0])

  lemma QuietTakes()
    ensures Turns(Four, Take(0), Quiet1) && Turns(Quiet1, Take(1), Quiet2) && Turns(Quiet2, Wake(1, 1), Quiet3)
  {
  }

  lemma QuietFirstBlock()
    ensures Turns(Quiet3, Block(1, 0), Quiet4) && Turns(Quiet4, Wake(2, 2), Quiet5)
  {
    assert InsertByPriority([], [1, 1, 2, 3], 1) == [1];
  }

  lemma QuietSecondBlock()
    ensures Turns(Quiet5, Block(0, 0), Quiet6) && Turns(Quiet6, Wake(3, 3), Quiet7)
  {
    assert Lending(Quiet5, 0) == [2, 1, 2, 3];
    assert InsertByPriority([], [2, 1, 2, 3], 2) == [2];
  }

  lemma QuietThirdBlock()
    ensures Turns(Quiet7, Block(0, 0), Quiet8)
  {
    assert Lending(Quiet7, 0) == [3, 1, 2, 3];
    assert Quiet7.waiting[0] == [2];
    assert InsertByPriority([2], [3, 1, 2, 3], 3) == [3, 2];
  }

  lemma QuietFirstGive()
    ensures Turns(Quiet8, Give(0, 0), Quiet9)
  {
    assert [3, 2][1..] == [2];
  }

  lemma QuietSecondGive()
    ensures Turns(Quiet9, Give(1, 0), Quiet10)
  {
    assert [1][1..] == [];
  }

  lemma QuietLastTake()
    ensures Turns(Quiet10, Take(0), Quiet11)
  {
  }

  lemma QuietSetsUp()
    ensures Plays(Four, QuietSetUp, Quiet8)
  {
    QuietTakes();
    QuietFirstBlock();
    QuietSecondBlock();
    QuietThirdBlock();
    FourTurns(Four, Take(0), Quiet1, Take(1), Quiet2, Wake(1, 1), Quiet3, Block(1, 0), Quiet4);
    FourTurns(Quiet4, Wake(2, 2), Quiet5, Block(0, 0), Quiet6, Wake(3, 3), Quiet7, Block(0, 0), Quiet8);
    PlayOn(Four, [Take(0), Take(1), Wake(1, 1), Block(1, 0)], Quiet4,
           [Wake(2, 2), Block(0, 0), Wake(3, 3), Block(0, 0)], Quiet8);
  }

  lemma QuietGivesBack()
    ensures Plays(Quiet8, QuietGives, Quiet10)
  {
    QuietFirstGive();
    QuietSecondGive();
    TwoTurns(Quiet8, Give(0, 0), Quiet9, Give(1, 0), Quiet10);
  }

  /** The last give brings task 0 down to 1 and asks for no switch, because a task was waiting
      and is no higher, although task 3, woken by the give before, is ready at 3.  Task 0 goes
      on and takes mutex 0 again, for which task 2 waits at 2.  No task of the run blocks
      while it holds a mutex. */
  lemma SkippedSwitchBreaksRanks() returns (mid: Sys, r: Sys)
    ensures Reached(Four, QuietSetUp + QuietGives, mid) && mid.current == 0 && 3 in mid.stage && Runs(mid.stage[3])
    ensures 0 in mid.books.prio && 3 in mid.books.prio && mid.books.prio[0] == 1 && mid.books.prio[3] == 3
    ensures Shape(mid) && Running(mid) && Enabled(mid, Take(0)) && r == Next(mid, Take(0)) && Inverted(r, 0, 2)
  {
    FourIsFresh();
    QuietSetsUp();
    QuietGivesBack();
    mid := ReachesBy(Four, QuietSetUp, Quiet8, QuietGives, Quiet10);
    QuietMid(mid);
    r := QuietTaken(mid);
  }

  lemma QuietMid(mid: Sys)
    requires At(mid, Quiet10)
    ensures mid.current == 0 && 3 in mid.stage && Runs(mid.stage[3])
    ensures 0 in mid.books.prio && 3 in mid.books.prio && mid.books.prio[0] == 1 && mid.books.prio[3] == 3
  {
    assert TaskAt(mid, Quiet10, 0) && TaskAt(mid, Quiet10, 3);
  }

  lemma QuietTaken(mid: Sys) returns (r: Sys)
    requires Shape(mid) && Running(mid) && At(mid, Quiet10)
    ensures Enabled(mid, Take(0)) && r == Next(mid, Take(0)) && Inverted(r, 0, 2)
  {
    QuietLastTake();
    StepAt(mid, Quiet10, Take(0));
    r := Next(mid, Take(0));
    QuietEnd(r);
  }

  lemma QuietEnd(r: Sys)
    requires At(r, Quiet11)
    ensures Inverted(r, 0, 2)
  {
    InvertedAt(r, Quiet11, 0, 2);
  }
}
