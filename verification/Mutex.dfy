/** Priority inheritance on one mutex (queue.c and tasks.c): any number of tasks block on
    it, inherit, give, steal, time out and disinherit under the preemptive scheduler.

    Each critical section, and each stretch with the scheduler suspended, is one step;
    interrupts cannot use mutexes.  A step that yields or blocks names the task the
    scheduler selects; a switch may also come at any other time. */
module Mutex {
  import opened Common
  import opened Lists

  /** `inherited` is `xInheritanceOccurred`; `out` says that no block time is left. */
  datatype Pc =
    | Away                                    // not in a take; ready
    | Sleeping                                // blocked on something else
    | Trying(inherited: bool, out: bool)      // at the head of the loop of the take
    | Deciding(inherited: bool)               // found it held, about to suspend the scheduler
    | Waiting(inherited: bool)                // on the event list
    | Expired(inherited: bool, out: bool)     // timed out, about to test the count again
    | Disinheriting                           // found it still held after the timeout

  /** `value` is the event list item value, `failed` whether `configASSERT` has fired on
      `xInheritanceOccurred`. */
  datatype Sys = Sys(
    max: nat,
    current: TaskId,
    holder: Option<TaskId>,
    waiting: seq<TaskId>,
    pc: map<TaskId, Pc>,
    base: map<TaskId, nat>,
    prio: map<TaskId, nat>,
    value: map<TaskId, nat>,
    failed: bool
  )

  /** A timed-out check mostly leaves no block time; after a full wrap of the tick count it
      leaves the block time as it was, and `zeroed` is false. */
  datatype Step =
    | Begin(mayBlock: bool)
    | Try
    | Decide(expired: bool, zeroed: bool, next: TaskId)
    | TestEmpty
    | Disinherit
    | Give(next: TaskId)
    | Sleep(next: TaskId)
    | Wake(t: TaskId)
    | TimeOut(t: TaskId)
    | Switch(next: TaskId)

  ghost predicate Typed(s: Sys) {
    && s.current in s.pc
    && s.pc.Keys == s.base.Keys == s.prio.Keys == s.value.Keys
    && (s.holder.Some? ==> s.holder.value in s.pc)
    && (forall t :: t in s.waiting ==> t in s.pc)
    && (forall t :: t in s.prio ==> s.prio[t] < s.max)
  }

  predicate Runs(p: Pc) {
    !p.Sleeping? && !p.Waiting?
  }

  /** What `taskSELECT_HIGHEST_PRIORITY_TASK` may select. */
  ghost predicate Selected(s: Sys, t: TaskId)
    requires Typed(s)
  {
    && t in s.pc && Runs(s.pc[t])
    && forall u :: u in s.pc && Runs(s.pc[u]) ==> s.prio[u] <= s.prio[t]
  }

  // ------------------------------------------------------------------ the functions of tasks.c

  function SetPriority(s: Sys, t: TaskId, p: nat): Sys
    requires p <= s.max
  {
    s.(prio := s.prio[t := p], value := s.value[t := s.max - p])
  }

  /** `xTaskPriorityInherit` by the current task. */
  function Inherit(s: Sys, h: TaskId): (Sys, bool)
    requires h in s.prio && h in s.base && s.current in s.prio && s.prio[s.current] <= s.max
  {
    if s.prio[h] < s.prio[s.current] then (SetPriority(s, h, s.prio[s.current]), true)
    else (s, s.base[h] < s.prio[s.current])
  }

  /** Lowering the priority of a task that holds no other mutex. */
  function DisinheritTo(s: Sys, h: TaskId, p: nat): Sys
    requires h in s.prio && p <= s.max
  {
    if s.prio[h] != p then SetPriority(s, h, p) else s
  }

  /** `prvGetDisinheritPriorityAfterTimeout`. */
  function HighestWaiting(s: Sys): nat
    requires forall t :: t in s.waiting ==> t in s.value && s.value[t] <= s.max
  {
    if s.waiting != [] then s.max - s.value[s.waiting[0]] else 0
  }

  function Goto(s: Sys, p: Pc): Sys {
    s.(pc := s.pc[s.current := p])
  }

  // ------------------------------------------------------------------ the steps of queue.c

  /** The critical section at the head of `xQueueSemaphoreTake`. */
  function TryStep(s: Sys, p: Pc): Sys
    requires p.Trying?
  {
    if s.holder == None then Goto(s.(holder := Some(s.current)), Away)
    else if p.out then Goto(s.(failed := s.failed || p.inherited), Away)
    else Goto(s, Deciding(p.inherited))
  }

  /** Going onto the event list: inheritance, insertion, block. */
  function PlaceStep(s: Sys, h: TaskId, next: TaskId): Sys
    requires h in s.prio && h in s.base && s.current in s.prio && s.prio[s.current] <= s.max
    requires Valued(s.waiting, s.value) && s.current in s.value
  {
    var (r, inherited) := Inherit(s, h);
    Goto(r.(waiting := Insert(r.waiting, r.value, s.current)), Waiting(inherited)).(current := next)
  }

  /** `xQueueGenericSend` on the mutex: disinherit, wake the first waiting task, and yield
      if that task's priority is above the giver's, or, with nobody waiting, if the giver
      has disinherited. */
  function GiveStep(s: Sys, next: TaskId): Sys
    requires s.current in s.prio && s.current in s.base && s.base[s.current] <= s.max
    requires forall t :: t in s.waiting ==> t in s.prio && t in s.pc && s.pc[t].Waiting?
  {
    var r := DisinheritTo(s.(holder := None), s.current, s.base[s.current]);
    if s.waiting == [] then r.(current := if YieldsAfterGive(s) then next else s.current)
    else
      var w := s.waiting[0];
      r.(waiting := s.waiting[1..], pc := s.pc[w := Trying(s.pc[w].inherited, false)],
         current := if YieldsAfterGive(s) then next else s.current)
  }

  predicate YieldsAfterGive(s: Sys)
    requires s.current in s.prio && s.current in s.base
    requires forall t :: t in s.waiting ==> t in s.prio
  {
    if s.waiting == [] then s.prio[s.current] != s.base[s.current]
    else s.prio[s.waiting[0]] > s.base[s.current]
  }

  /** The critical section after a timeout; the holder may have changed, or gone, since
      the test. */
  function DisinheritStep(s: Sys): Sys
    requires s.holder.Some? ==> s.holder.value in s.prio && s.holder.value in s.base && s.base[s.holder.value] <= s.max
    requires forall t :: t in s.waiting ==> t in s.value && s.value[t] <= s.max
  {
    if s.holder == None then Goto(s, Away)
    else
      var b, w := s.base[s.holder.value], HighestWaiting(s);
      Goto(DisinheritTo(s, s.holder.value, if b < w then w else b), Away)
  }

  function TimeOutStep(s: Sys, t: TaskId): Sys
    requires t in s.pc && s.pc[t].Waiting?
  {
    s.(waiting := Remove(s.waiting, t), pc := s.pc[t := Trying(s.pc[t].inherited, false)])
  }

  // ------------------------------------------------------------------ the invariant

  ghost predicate Shape(s: Sys) {
    && Typed(s)
    && Runs(s.pc[s.current])
    && Distinct(s.waiting) && Valued(s.waiting, s.value) && Sorted(s.waiting, s.value)
    && (forall t :: t in s.pc ==> (t in s.waiting <==> s.pc[t].Waiting?))
    && (s.holder.Some? ==> s.pc[s.holder.value].Away? || s.pc[s.holder.value].Sleeping?)
  }

  ghost predicate Priorities(s: Sys)
    requires Typed(s)
  {
    && (forall t :: t in s.pc ==> s.value[t] == s.max - s.prio[t] && s.base[t] <= s.prio[t])
    && (forall t :: t in s.pc && s.holder != Some(t) ==> s.prio[t] == s.base[t])
  }

  ghost predicate AtLeastWaiting(s: Sys, p: nat)
    requires Typed(s)
  {
    forall w :: w in s.waiting ==> s.prio[w] <= p
  }

  /** A held mutex: its holder's priority is at least every waiting task's, and a waiting
      task above the holder's base priority has recorded its inheritance. */
  ghost predicate Held(s: Sys)
    requires Typed(s)
  {
    s.holder.Some? ==>
      && AtLeastWaiting(s, s.prio[s.holder.value])
      && (forall w :: w in s.waiting && s.base[s.holder.value] < s.prio[w] ==> s.pc[w].Waiting? && s.pc[w].inherited)
  }

  /** A free mutex with tasks waiting: a task already woken will take it, and only a task
      of at least its priority can run before. */
  ghost predicate Free(s: Sys)
    requires Typed(s)
  {
    s.holder == None && s.waiting != [] ==>
      && AtLeastWaiting(s, s.prio[s.current])
      && exists w :: w in s.pc && s.pc[w].Trying? && AtLeastWaiting(s, s.prio[w])
  }

  predicate Contends(p: Pc) {
    match p
    case Trying(i, _) => i
    case Deciding(i) => i
    case Waiting(i) => i
    case Expired(i, _) => i
    case Disinheriting => true
    case _ => false
  }

  /** A raised priority is that of a task still in its take and due to take it back. */
  ghost predicate Justified(s: Sys)
    requires Typed(s)
  {
    s.holder.Some? && s.prio[s.holder.value] != s.base[s.holder.value] ==>
      exists x :: x in s.pc && x != s.holder.value && Contends(s.pc[x]) && s.prio[x] == s.prio[s.holder.value]
  }

  ghost predicate Inv(s: Sys) {
    Shape(s) && Priorities(s) && Held(s) && Free(s) && (s.failed || Justified(s))
  }

  ghost predicate Enabled(s: Sys, step: Step)
    requires Inv(s)
  {
    var p := s.pc[s.current];
    match step
    case Begin(_) => p.Away? && s.holder != Some(s.current)
    case Try => p.Trying?
    case Decide(expired, _, next) =>
      p.Deciding? && (!expired && s.holder.Some? ==> next in s.pc)
    case TestEmpty => p.Expired?
    case Disinherit => p.Disinheriting?
    case Give(_) => p.Away? && s.holder == Some(s.current)
    case Sleep(next) => p.Away? && next in s.pc
    case Wake(t) => t in s.pc && s.pc[t].Sleeping?
    case TimeOut(t) => t in s.waiting
    case Switch(next) => Selected(s, next)
  }

  ghost function Next(s: Sys, step: Step): Sys
    requires Inv(s) && Enabled(s, step)
  {
    var p := s.pc[s.current];
    match step
    case Begin(mayBlock) => Goto(s, Trying(false, !mayBlock))
    case Try => TryStep(s, p)
    case Decide(expired, zeroed, next) =>
      if expired then Goto(s, Expired(p.inherited, zeroed))
      else if s.holder == None then Goto(s, Trying(p.inherited, false))
      else PlaceStep(s, s.holder.value, next)
    case TestEmpty =>
      if s.holder == None then Goto(s, Trying(p.inherited, p.out))
      else Goto(s, if p.inherited then Disinheriting else Away)
    case Disinherit => DisinheritStep(s)
    case Give(next) => GiveStep(s, next)
    case Sleep(next) => Goto(s, Sleeping).(current := next)
    case Wake(t) => s.(pc := s.pc[t := Away])
    case TimeOut(t) => TimeOutStep(s, t)
    case Switch(next) => s.(current := next)
  }

  /** The scheduler selects a ready task of the highest priority whenever it runs. */
  ghost predicate Scheduled(s: Sys, step: Step, s': Sys)
    requires Inv(s) && Enabled(s, step)
  {
    s'.current != s.current || SchedulerRuns(s, step) ==> Typed(s') && Selected(s', s'.current)
  }

  ghost predicate SchedulerRuns(s: Sys, step: Step)
    requires Inv(s) && Enabled(s, step)
  {
    match step
    case Decide(expired, _, _) => !expired && s.holder.Some?
    case Give(_) => YieldsAfterGive(s)
    case Sleep(_) => true
    case Switch(_) => true
    case _ => false
  }

  // ------------------------------------------------------------------ every step keeps it

  /** The same holder and priorities, no more tasks waiting, and every task about to try
      still about to. */
  lemma KeepsFree(s: Sys, r: Sys)
    requires Typed(s) && Typed(r) && Free(s) && r.holder == s.holder && r.prio == s.prio
    requires forall t :: t in r.waiting ==> t in s.waiting
    requires s.holder == None && s.waiting != [] ==> AtLeastWaiting(s, r.prio[r.current])
    requires s.holder == None ==> forall t :: t in s.pc && s.pc[t].Trying? ==> r.pc[t].Trying?
    ensures Free(r)
  {
    if s.holder == None && r.waiting != [] {
      assert s.waiting != [] by { assert r.waiting[0] in s.waiting; }
      var w :| w in s.pc && s.pc[w].Trying? && AtLeastWaiting(s, s.prio[w]);
      assert r.pc[w].Trying? && AtLeastWaiting(r, r.prio[w]);
    }
  }

  lemma KeepsJustified(s: Sys, r: Sys)
    requires Typed(s) && Typed(r) && Justified(s) && r.holder == s.holder && r.prio == s.prio && r.base == s.base
    requires forall t :: t in s.pc && Contends(s.pc[t]) ==> Contends(r.pc[t])
    ensures Justified(r)
  {
    if s.holder.Some? && s.prio[s.holder.value] != s.base[s.holder.value] {
      var x :| x in s.pc && x != s.holder.value && Contends(s.pc[x]) && s.prio[x] == s.prio[s.holder.value];
      assert Contends(r.pc[x]);
    }
  }

  lemma MoveKeepsShape(s: Sys, p: Pc)
    requires Inv(s) && Runs(p) && s.holder != Some(s.current)
    ensures Shape(Goto(s, p)) && Priorities(Goto(s, p)) && Held(Goto(s, p))
  {
  }

  /** The running task moves on without touching lists, holder or priorities. */
  lemma MoveKeepsInv(s: Sys, p: Pc)
    requires Inv(s) && Runs(p) && s.holder != Some(s.current)
    requires Contends(s.pc[s.current]) ==> Contends(p) || s.failed || s.holder == None
    requires s.pc[s.current].Trying? ==> s.holder.Some? || p.Trying?
    ensures Inv(Goto(s, p))
  {
    MoveKeepsShape(s, p);
    KeepsFree(s, Goto(s, p));
    if !s.failed && s.holder.Some? { KeepsJustified(s, Goto(s, p)); }
  }

  lemma TakeKeepsInv(s: Sys)
    requires Inv(s) && s.pc[s.current].Trying? && s.holder == None
    ensures Inv(TryStep(s, s.pc[s.current]))
  {
  }

  lemma TryKeepsInv(s: Sys)
    requires Inv(s) && s.pc[s.current].Trying?
    ensures Inv(TryStep(s, s.pc[s.current]))
  {
    var p := s.pc[s.current];
    if s.holder == None {
      TakeKeepsInv(s);
    } else if p.out {
      assert Inv(s.(failed := s.failed || p.inherited));
      MoveKeepsInv(s.(failed := s.failed || p.inherited), Away);
    } else {
      MoveKeepsInv(s, Deciding(p.inherited));
    }
  }

  lemma RepricedList(w: seq<TaskId>, v: map<TaskId, nat>, h: TaskId, x: nat)
    requires Valued(w, v) && Sorted(w, v) && h !in w
    ensures Valued(w, v[h := x]) && Sorted(w, v[h := x])
  {
  }

  /** A new priority for a task that is not waiting. */
  lemma SetPriorityKeepsShape(s: Sys, h: TaskId, p: nat)
    requires Shape(s) && h in s.pc && h !in s.waiting && p < s.max
    ensures Shape(SetPriority(s, h, p))
  {
    RepricedList(s.waiting, s.value, h, s.max - p);
  }

  lemma SetPriorityKeepsPriorities(s: Sys, h: TaskId, p: nat)
    requires Typed(s) && Priorities(s) && h in s.pc && p < s.max && s.base[h] <= p
    requires s.holder == Some(h)
    ensures Typed(SetPriority(s, h, p)) && Priorities(SetPriority(s, h, p))
  {
  }

  lemma InheritFacts(s: Sys, h: TaskId)
    requires Inv(s) && s.holder == Some(h) && h != s.current
    ensures var (r, inherited) := Inherit(s, h);
            && Shape(r) && r.prio[h] >= s.prio[h] && r.prio[h] >= s.prio[s.current]
            && (inherited <==> s.base[h] < s.prio[s.current])
            && (forall t :: t in s.pc && t != h ==> r.prio[t] == s.prio[t] && r.value[t] == s.value[t])
            && Priorities(r) && Held(r)
  {
    if s.prio[h] < s.prio[s.current] {
      SetPriorityKeepsShape(s, h, s.prio[s.current]);
      SetPriorityKeepsPriorities(s, h, s.prio[s.current]);
    }
  }

  /** The running task goes onto the event list of a mutex h holds. */
  function Placed(s: Sys, inherited: bool, next: TaskId): Sys
    requires Valued(s.waiting, s.value) && s.current in s.value
  {
    Goto(s.(waiting := Insert(s.waiting, s.value, s.current)), Waiting(inherited)).(current := next)
  }

  lemma PlacedList(s: Sys, inherited: bool, next: TaskId)
    requires Shape(s) && s.pc[s.current].Deciding? && next in s.pc
    ensures var r := Placed(s, inherited, next);
            && Distinct(r.waiting) && Valued(r.waiting, r.value) && Sorted(r.waiting, r.value)
            && (forall t :: t in r.waiting <==> t in s.waiting || t == s.current)
  {
    InsertMembers(s.waiting, s.value, s.current);
    InsertSorted(s.waiting, s.value, s.current);
    InsertDistinct(s.waiting, s.value, s.current);
  }

  lemma PlacedKeepsShape(s: Sys, inherited: bool, next: TaskId)
    requires Shape(s) && s.pc[s.current].Deciding? && next in s.pc && Runs(Placed(s, inherited, next).pc[next])
    ensures Shape(Placed(s, inherited, next))
  {
    PlacedList(s, inherited, next);
  }

  lemma PlacedKeepsHeld(s: Sys, h: TaskId, inherited: bool, next: TaskId)
    requires Shape(s) && Priorities(s) && Held(s) && s.pc[s.current].Deciding? && s.holder == Some(h) && next in s.pc
    requires s.prio[s.current] <= s.prio[h] && (inherited <==> s.base[h] < s.prio[s.current])
    ensures Typed(Placed(s, inherited, next)) && Priorities(Placed(s, inherited, next))
    ensures Held(Placed(s, inherited, next))
  {
    PlacedList(s, inherited, next);
  }

  lemma PlaceKeepsJustified(s: Sys, h: TaskId, next: TaskId)
    requires Inv(s) && s.pc[s.current].Deciding? && s.holder == Some(h) && !s.failed
    requires Typed(PlaceStep(s, h, next))
    ensures Justified(PlaceStep(s, h, next))
  {
    var r := PlaceStep(s, h, next);
    InheritFacts(s, h);
    if r.prio[h] != r.base[h] {
      if s.prio[h] <= s.prio[s.current] {
        assert Contends(r.pc[s.current]) && r.prio[s.current] == r.prio[h];
      } else {
        var x :| x in s.pc && x != h && Contends(s.pc[x]) && s.prio[x] == s.prio[h];
        assert Contends(r.pc[x]) && r.prio[x] == r.prio[h];
      }
    }
  }

  lemma PlaceKeepsInv(s: Sys, h: TaskId, next: TaskId)
    requires Inv(s) && s.pc[s.current].Deciding? && s.holder == Some(h)
    requires Typed(PlaceStep(s, h, next)) && Selected(PlaceStep(s, h, next), next)
    ensures Inv(PlaceStep(s, h, next))
  {
    PlaceKeepsHeld(s, h, next);
    if !s.failed { PlaceKeepsJustified(s, h, next); }
  }

  lemma PlaceKeepsHeld(s: Sys, h: TaskId, next: TaskId)
    requires Inv(s) && s.pc[s.current].Deciding? && s.holder == Some(h)
    requires next in PlaceStep(s, h, next).pc && Runs(PlaceStep(s, h, next).pc[next])
    ensures var r := PlaceStep(s, h, next);
            Shape(r) && Priorities(r) && Held(r) && r.holder == Some(h) && r.failed == s.failed
  {
    var (r, inherited) := Inherit(s, h);
    assert PlaceStep(s, h, next) == Placed(r, inherited, next);
    InheritFacts(s, h);
    PlacedKeepsShape(r, inherited, next);
    PlacedKeepsHeld(r, h, inherited, next);
  }

  lemma FirstWaitsHighest(s: Sys)
    requires Inv(s) && s.waiting != []
    ensures AtLeastWaiting(s, s.prio[s.waiting[0]]) && HighestWaiting(s) == s.prio[s.waiting[0]]
  {
  }

  /** The giver back at its base priority, the mutex free. */
  ghost predicate Given(s: Sys, r: Sys)
    requires Typed(s)
  {
    && Shape(r) && Priorities(r) && r.holder == None
    && r.waiting == s.waiting && r.pc == s.pc && r.current == s.current && r.base == s.base
    && (forall t :: t in s.waiting ==> r.prio[t] == s.prio[t])
    && r.prio[s.current] == s.base[s.current]
  }

  lemma GiverDisinherits(s: Sys)
    requires Inv(s) && s.pc[s.current].Away? && s.holder == Some(s.current)
    ensures Given(s, DisinheritTo(s.(holder := None), s.current, s.base[s.current]))
  {
    var r := DisinheritTo(s.(holder := None), s.current, s.base[s.current]);
    assert Shape(r) by { GiverKeepsShape(s); }
    DisinheritIsLowered(s);
    LoweredKeepsPriorities(s);
  }

  lemma GiverKeepsShape(s: Sys)
    requires Shape(s) && s.pc[s.current].Away? && s.base[s.current] < s.max
    ensures Shape(DisinheritTo(s.(holder := None), s.current, s.base[s.current]))
  {
    var freed := s.(holder := None);
    assert Shape(freed);
    SetPriorityKeepsShape(freed, s.current, s.base[s.current]);
  }

  /** The giver has its base priority, and all others have what they had. */
  function Lowered(s: Sys, h: TaskId): Sys
    requires h in s.base && s.base[h] <= s.max
  {
    s.(holder := None, prio := s.prio[h := s.base[h]], value := s.value[h := s.max - s.base[h]])
  }

  lemma DisinheritIsLowered(s: Sys)
    requires Typed(s) && Priorities(s)
    ensures s.base[s.current] <= s.max
    ensures DisinheritTo(s.(holder := None), s.current, s.base[s.current]) == Lowered(s, s.current)
  {
    if s.prio[s.current] == s.base[s.current] {
      assert s.prio[s.current := s.base[s.current]] == s.prio;
      assert s.value[s.current := s.max - s.base[s.current]] == s.value;
    }
  }

  lemma LoweredKeepsPriorities(s: Sys)
    requires Typed(s) && Priorities(s) && s.holder == Some(s.current) && s.base[s.current] <= s.max
    ensures Typed(Lowered(s, s.current)) && Priorities(Lowered(s, s.current))
  {
  }

  lemma HeadWakes(s: Sys)
    requires Shape(s) && Priorities(s) && s.waiting != []
    ensures var w := s.waiting[0];
            var r := s.(waiting := s.waiting[1..], pc := s.pc[w := Trying(s.pc[w].inherited, false)]);
            Shape(r) && Priorities(r)
  {
    assert s.waiting == [s.waiting[0]] + s.waiting[1..];
  }

  lemma GiveKeepsShape(s: Sys, next: TaskId)
    requires Inv(s) && s.pc[s.current].Away? && s.holder == Some(s.current)
    requires YieldsAfterGive(s) ==> Typed(GiveStep(s, next)) && Selected(GiveStep(s, next), next)
    ensures Shape(GiveStep(s, next)) && Priorities(GiveStep(s, next))
  {
    GiverDisinherits(s);
    var given := DisinheritTo(s.(holder := None), s.current, s.base[s.current]);
    if s.waiting != [] { HeadWakes(given); }
  }

  lemma GiveKeepsFree(s: Sys, next: TaskId)
    requires Inv(s) && s.pc[s.current].Away? && s.holder == Some(s.current)
    requires YieldsAfterGive(s) ==> Typed(GiveStep(s, next)) && Selected(GiveStep(s, next), next)
    requires Shape(GiveStep(s, next))
    ensures Free(GiveStep(s, next))
  {
    var r := GiveStep(s, next);
    if s.waiting != [] {
      FirstWaitsHighest(s);
      var w := s.waiting[0];
      assert r.pc[w].Trying? && r.prio[w] == s.prio[w];
      assert AtLeastWaiting(r, r.prio[w]);
    }
  }

  lemma GiveKeepsInv(s: Sys, next: TaskId)
    requires Inv(s) && s.pc[s.current].Away? && s.holder == Some(s.current)
    requires YieldsAfterGive(s) ==> Typed(GiveStep(s, next)) && Selected(GiveStep(s, next), next)
    ensures Inv(GiveStep(s, next))
  {
    GiveKeepsShape(s, next);
    GiveKeepsFree(s, next);
  }

  /** The holder's priority set to the greater of its base and the highest waiting one. */
  lemma Recomputed(s: Sys, h: TaskId, p: nat)
    requires Shape(s) && Priorities(s) && Held(s) && s.holder == Some(h)
    requires p == if s.waiting == [] || s.prio[s.waiting[0]] <= s.base[h] then s.base[h] else s.prio[s.waiting[0]]
    ensures var r := DisinheritTo(s, h, p);
            Shape(r) && Priorities(r) && r.prio[h] == p && (forall t :: t in s.pc && t != h ==> r.prio[t] == s.prio[t])
  {
    if s.prio[h] != p {
      SetPriorityKeepsShape(s, h, p);
      SetPriorityKeepsPriorities(s, h, p);
    }
  }

  lemma RecomputedHeld(s: Sys, h: TaskId, p: nat)
    requires Shape(s) && Priorities(s) && Held(s) && s.holder == Some(h)
    requires p == if s.waiting == [] || s.prio[s.waiting[0]] <= s.base[h] then s.base[h] else s.prio[s.waiting[0]]
    requires s.waiting != [] ==> AtLeastWaiting(s, s.prio[s.waiting[0]])
    ensures var r := DisinheritTo(s, h, p);
            Typed(r) && Held(r) && Justified(r)
  {
    var r := DisinheritTo(s, h, p);
    Recomputed(s, h, p);
    if p != s.base[h] {
      assert Contends(r.pc[s.waiting[0]]) && r.prio[s.waiting[0]] == r.prio[h];
    }
  }

  lemma DisinheritPriority(s: Sys, h: TaskId) returns (p: nat)
    requires Inv(s) && s.holder == Some(h)
    ensures p == if s.base[h] < HighestWaiting(s) then HighestWaiting(s) else s.base[h]
    ensures p == if s.waiting == [] || s.prio[s.waiting[0]] <= s.base[h] then s.base[h] else s.prio[s.waiting[0]]
    ensures p < s.max && (s.waiting != [] ==> AtLeastWaiting(s, s.prio[s.waiting[0]]))
  {
    if s.waiting != [] { FirstWaitsHighest(s); }
    p := if s.base[h] < HighestWaiting(s) then HighestWaiting(s) else s.base[h];
  }

  lemma HeldDisinheritIs(s: Sys, h: TaskId) returns (p: nat)
    requires Inv(s) && s.pc[s.current].Disinheriting? && s.holder == Some(h)
    ensures p == if s.waiting == [] || s.prio[s.waiting[0]] <= s.base[h] then s.base[h] else s.prio[s.waiting[0]]
    ensures p < s.max && DisinheritStep(s) == DisinheritTo(Goto(s, Away), h, p)
    ensures s.waiting != [] ==> AtLeastWaiting(s, s.prio[s.waiting[0]])
  {
    p := DisinheritPriority(s, h);
  }

  lemma DisinheritKeepsInv(s: Sys)
    requires Inv(s) && s.pc[s.current].Disinheriting?
    ensures Inv(DisinheritStep(s))
  {
    if s.holder == None {
      MoveKeepsInv(s, Away);
    } else {
      var p := HeldDisinheritIs(s, s.holder.value);
      MoveKeepsShape(s, Away);
      Recomputed(Goto(s, Away), s.holder.value, p);
      RecomputedHeld(Goto(s, Away), s.holder.value, p);
    }
  }

  /** The assertion of `vTaskPriorityDisinheritAfterTimeout` that the running task is not
      the holder cannot fail. */
  lemma TimedOutTaskIsNotHolder(s: Sys)
    requires Inv(s) && s.pc[s.current].Disinheriting?
    ensures s.holder != Some(s.current)
  {
  }

  lemma TimeOutKeepsShape(s: Sys, t: TaskId)
    requires Inv(s) && t in s.waiting
    ensures Shape(TimeOutStep(s, t)) && Priorities(TimeOutStep(s, t)) && Held(TimeOutStep(s, t))
    ensures forall u :: u in TimeOutStep(s, t).waiting ==> u in s.waiting
  {
    RemoveFacts(s.waiting, t);
    RemoveSorted(s.waiting, s.value, t);
  }

  lemma TimeOutKeepsInv(s: Sys, t: TaskId)
    requires Inv(s) && t in s.waiting
    ensures Inv(TimeOutStep(s, t))
  {
    TimeOutKeepsShape(s, t);
    KeepsFree(s, TimeOutStep(s, t));
    if !s.failed { KeepsJustified(s, TimeOutStep(s, t)); }
  }

  /** The scheduler's choice keeps a free mutex for a task of sufficient priority. */
  lemma SwitchKeepsInv(s: Sys, next: TaskId)
    requires Inv(s) && Selected(s, next)
    ensures Inv(s.(current := next))
  {
    if s.holder == None && s.waiting != [] {
      var w :| w in s.pc && s.pc[w].Trying? && AtLeastWaiting(s, s.prio[w]);
      assert s.prio[w] <= s.prio[next];
    }
    KeepsFree(s, s.(current := next));
    if !s.failed { KeepsJustified(s, s.(current := next)); }
  }

  lemma SleepKeepsShape(s: Sys, next: TaskId)
    requires Inv(s) && s.pc[s.current].Away? && next in s.pc && Runs(Goto(s, Sleeping).pc[next])
    ensures var r := Goto(s, Sleeping).(current := next); Shape(r) && Priorities(r) && Held(r)
  {
  }

  lemma SleepKeepsInv(s: Sys, next: TaskId)
    requires Inv(s) && s.pc[s.current].Away? && next in s.pc
    requires Selected(Goto(s, Sleeping).(current := next), next)
    ensures Inv(Goto(s, Sleeping).(current := next))
  {
    SleepKeepsShape(s, next);
    var r := Goto(s, Sleeping).(current := next);
    if s.holder == None && s.waiting != [] {
      var w :| w in s.pc && s.pc[w].Trying? && AtLeastWaiting(s, s.prio[w]);
      assert Runs(r.pc[w]) && s.prio[w] <= s.prio[next];
    }
    KeepsFree(s, r);
    if !s.failed { KeepsJustified(s, r); }
  }

  lemma WakeKeepsInv(s: Sys, t: TaskId)
    requires Inv(s) && t in s.pc && s.pc[t].Sleeping?
    ensures Inv(s.(pc := s.pc[t := Away]))
  {
    var r := s.(pc := s.pc[t := Away]);
    assert Shape(r) && Priorities(r) && Held(r);
    KeepsFree(s, r);
    if !s.failed { KeepsJustified(s, r); }
  }

  lemma StepKeepsInv(s: Sys, step: Step)
    requires Inv(s) && Enabled(s, step) && Scheduled(s, step, Next(s, step))
    ensures Inv(Next(s, step))
  {
    var p := s.pc[s.current];
    match step
    case Begin(mayBlock) => MoveKeepsInv(s, Trying(false, !mayBlock));
    case Try => TryKeepsInv(s);
    case Decide(expired, zeroed, next) =>
      if expired { MoveKeepsInv(s, Expired(p.inherited, zeroed)); }
      else if s.holder == None { MoveKeepsInv(s, Trying(p.inherited, false)); }
      else { PlaceKeepsInv(s, s.holder.value, next); }
    case TestEmpty =>
      MoveKeepsInv(s, if s.holder == None then Trying(p.inherited, p.out)
                      else if p.inherited then Disinheriting else Away);
    case Disinherit => DisinheritKeepsInv(s);
    case Give(next) => GiveKeepsInv(s, next);
    case Sleep(next) => SleepKeepsInv(s, next);
    case Wake(t) => WakeKeepsInv(s, t);
    case TimeOut(t) => TimeOutKeepsInv(s, t);
    case Switch(next) => SwitchKeepsInv(s, next);
  }

  // ------------------------------------------------------------------ runs

  ghost predicate Initial(s: Sys) {
    && Typed(s) && s.holder == None && s.waiting == [] && !s.failed
    && Runs(s.pc[s.current])
    && (forall t :: t in s.pc ==> s.pc[t].Away? || s.pc[t].Sleeping?)
    && (forall t :: t in s.pc ==> s.prio[t] == s.base[t] && s.value[t] == s.max - s.prio[t])
  }

  ghost predicate Run(s: Sys, steps: seq<Step>, s': Sys)
    requires Inv(s)
    decreases |steps|
  {
    if steps == [] then s' == s
    else
      && Enabled(s, steps[0]) && Scheduled(s, steps[0], Next(s, steps[0]))
      && (StepKeepsInv(s, steps[0]); Run(Next(s, steps[0]), steps[1..], s'))
  }

  lemma {:induction false} RunKeepsInv(s: Sys, steps: seq<Step>, s': Sys)
    requires Inv(s) && Run(s, steps, s')
    ensures Inv(s')
    decreases |steps|
  {
    if steps != [] {
      StepKeepsInv(s, steps[0]);
      RunKeepsInv(Next(s, steps[0]), steps[1..], s');
    }
  }

  lemma InitialInv(s: Sys)
    requires Initial(s)
    ensures Inv(s)
  {
  }

  /** Priority inheritance works for one mutex: in every reachable state in which it is
      held, the holder's priority is at least that of every task on its event list. */
  lemma HolderOutranksWaiters(s: Sys, steps: seq<Step>, s': Sys)
    requires Initial(s) && Inv(s) && Run(s, steps, s') && s'.holder.Some?
    ensures s'.holder.value in s'.prio
    ensures forall w :: w in s'.waiting ==> w in s'.prio && s'.prio[w] <= s'.prio[s'.holder.value]
  {
    RunKeepsInv(s, steps, s');
  }

  /** And it does no more: a task not holding the mutex runs at its base priority, and a
      holder above its own base has the priority of a task still inside its take. */
  lemma RaisedOnlyForContender(s: Sys, steps: seq<Step>, s': Sys, t: TaskId)
    requires Initial(s) && Inv(s) && Run(s, steps, s') && t in s'.pc && !s'.failed
    ensures t in s'.prio && t in s'.base && s'.base[t] <= s'.prio[t]
    ensures s'.prio[t] != s'.base[t] ==>
              (s'.holder == Some(t) &&
               exists x :: x in s'.pc && x != t && Contends(s'.pc[x]) && x in s'.prio && s'.prio[x] == s'.prio[t])
  {
    RunKeepsInv(s, steps, s');
    if s'.prio[t] != s'.base[t] {
      var x :| x in s'.pc && x != t && Contends(s'.pc[x]) && s'.prio[x] == s'.prio[t];
      assert x in s'.prio;
    }
  }

  /** A mutex given while tasks wait is not lost: until it is taken, one of the tasks about
      to try is at least as urgent as every task waiting, and so is the running one. */
  lemma FreeMutexIsClaimed(s: Sys, steps: seq<Step>, s': Sys)
    requires Initial(s) && Inv(s) && Run(s, steps, s') && s'.holder == None && s'.waiting != []
    ensures Typed(s') && AtLeastWaiting(s', s'.prio[s'.current])
    ensures exists w :: w in s'.pc && s'.pc[w].Trying? && AtLeastWaiting(s', s'.prio[w])
  {
    RunKeepsInv(s, steps, s');
  }
}
