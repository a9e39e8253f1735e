/** Event groups (event_groups.c): tasks wait for any or all of some bits; setting bits
    releases every task whose condition they meet, while the list is walked. */
module EventGroups {
  import opened Common
  import opened Lists

  type Bit = nat

  /** What a task on the list waits for, and whether the bits are cleared when it leaves. */
  datatype Wait = Wait(mask: set<Bit>, clear: bool, all: bool)

  /** A task's event item value: its wait, or the bits it was released with. */
  datatype Item = Waiting(wait: Wait) | Released(bits: set<Bit>)

  /** `prvTestWaitCondition`. */
  predicate Satisfied(bits: set<Bit>, w: Wait) {
    if w.all then w.mask <= bits else w.mask * bits != {}
  }

  /** Some wanted bit is missing: one of all, or every one. */
  ghost predicate Lacks(bits: set<Bit>, w: Wait) {
    if w.all then exists bit :: bit in w.mask && bit !in bits else forall bit :: bit in w.mask ==> bit !in bits
  }

  /** A wait for all bits is met when none is missing, a wait for any when not all are. */
  lemma SatisfiedIs(bits: set<Bit>, w: Wait)
    ensures Satisfied(bits, w) <==> !Lacks(bits, w)
  {
    if !w.all && Satisfied(bits, w) {
      var bit :| bit in w.mask * bits;
      assert bit in w.mask && bit in bits;
    }
    if !w.all && !Lacks(bits, w) {
      var bit :| bit in w.mask && bit in bits;
      assert bit in w.mask * bits;
    }
  }

  /** `item` holds the event item value of every task, on the list or not. */
  datatype Group = Group(bits: set<Bit>, waiting: seq<TaskId>, item: map<TaskId, Item>)

  /** Every task on the list is waiting for at least one bit. */
  ghost predicate ListOk(waiting: seq<TaskId>, item: map<TaskId, Item>) {
    forall t :: t in waiting ==> t in item && item[t].Waiting? && item[t].wait.mask != {}
  }

  ghost predicate Valid(g: Group) {
    Distinct(g.waiting) && ListOk(g.waiting, g.item)
  }

  predicate Matches(bits: set<Bit>, i: Item) {
    i.Waiting? && Satisfied(bits, i.wait)
  }

  /** Nobody sleeps whose condition is met. */
  ghost predicate NoSatisfiedWaiter(g: Group)
    requires ListOk(g.waiting, g.item)
  {
    forall t :: t in g.waiting ==> !Satisfied(g.bits, g.item[t].wait)
  }

  // ------------------------------------------------------------------ setting bits

  function Kept(waiting: seq<TaskId>, item: map<TaskId, Item>, bits: set<Bit>): (r: seq<TaskId>)
    requires forall t :: t in waiting ==> t in item
    ensures forall t :: t in r <==> t in waiting && !Matches(bits, item[t])
  {
    if waiting == [] then []
    else (if Matches(bits, item[waiting[0]]) then [] else [waiting[0]]) + Kept(waiting[1..], item, bits)
  }

  /** The masks to clear for the tasks released. */
  function ToClear(waiting: seq<TaskId>, item: map<TaskId, Item>, bits: set<Bit>): set<Bit>
    requires forall t :: t in waiting ==> t in item
  {
    if waiting == [] then {}
    else
      var rest := ToClear(waiting[1..], item, bits);
      if Matches(bits, item[waiting[0]]) && item[waiting[0]].wait.clear then item[waiting[0]].wait.mask + rest else rest
  }

  function HandOut(waiting: seq<TaskId>, item: map<TaskId, Item>, bits: set<Bit>): (r: map<TaskId, Item>)
    requires forall t :: t in waiting ==> t in item
    ensures r.Keys == item.Keys
    ensures forall t :: t in item ==>
              r[t] == if t in waiting && Matches(bits, item[t]) then Released(bits) else item[t]
  {
    map t | t in item :: if t in waiting && Matches(bits, item[t]) then Released(bits) else item[t]
  }

  /** `xEventGroupSetBits`. */
  function SetBits(g: Group, b: set<Bit>): Group
    requires forall t :: t in g.waiting ==> t in g.item
  {
    var bits := g.bits + b;
    Group(bits - ToClear(g.waiting, g.item, bits), Kept(g.waiting, g.item, bits), HandOut(g.waiting, g.item, bits))
  }

  lemma {:induction false} KeptDistinct(waiting: seq<TaskId>, item: map<TaskId, Item>, bits: set<Bit>)
    requires Distinct(waiting) && forall t :: t in waiting ==> t in item
    ensures Distinct(Kept(waiting, item, bits))
  {
    if waiting != [] {
      assert waiting == [waiting[0]] + waiting[1..];
      KeptDistinct(waiting[1..], item, bits);
    }
  }

  /** Setting bits releases exactly the waiting tasks that old | set satisfies, hands each
      that same value, and leaves the others asleep with their conditions unmet. */
  lemma SetBitsReleasesExactly(g: Group, b: set<Bit>)
    requires Valid(g)
    ensures var r, bits := SetBits(g, b), g.bits + b;
            && Valid(r) && NoSatisfiedWaiter(r)
            && (forall t :: t in r.waiting <==> t in g.waiting && !Satisfied(bits, g.item[t].wait))
            && (forall t :: t in g.waiting && t !in r.waiting ==> r.item[t] == Released(bits))
            && (forall t :: t in g.item && (t !in g.waiting || t in r.waiting) ==>
                  t in r.item && r.item[t] == g.item[t])
  {
    KeptDistinct(g.waiting, g.item, g.bits + b);
  }

  lemma {:induction false} ToClearIsUnion(waiting: seq<TaskId>, item: map<TaskId, Item>, bits: set<Bit>, bit: Bit)
    requires forall t :: t in waiting ==> t in item
    ensures bit in ToClear(waiting, item, bits) <==>
            exists t :: t in waiting && Matches(bits, item[t]) && item[t].wait.clear && bit in item[t].wait.mask
  {
    if waiting != [] {
      assert waiting == [waiting[0]] + waiting[1..];
      ToClearIsUnion(waiting[1..], item, bits, bit);
    }
  }

  /** And it clears exactly the union of the masks of the released tasks that asked for it. */
  lemma SetBitsClearsExactly(g: Group, b: set<Bit>, bit: Bit)
    requires Valid(g)
    ensures bit in SetBits(g, b).bits <==>
            bit in g.bits + b &&
            !(exists t ::
                t in g.waiting && Satisfied(g.bits + b, g.item[t].wait) && g.item[t].wait.clear
                && bit in g.item[t].wait.mask)
  {
    ToClearIsUnion(g.waiting, g.item, g.bits + b, bit);
  }

  // ------------------------------------------------------------------ the other operations

  /** What a call returns, or that it blocks. */
  datatype Result = Value(bits: set<Bit>) | Blocks

  /** `xEventGroupWaitBits` up to the block. */
  function WaitBits(g: Group, t: TaskId, w: Wait, mayBlock: bool): (Group, Result) {
    if Satisfied(g.bits, w) then (g.(bits := if w.clear then g.bits - w.mask else g.bits), Value(g.bits))
    else if !mayBlock then (g, Value(g.bits))
    else (g.(waiting := g.waiting + [t], item := g.item[t := Waiting(w)]), Blocks)
  }

  /** A rendezvous waits for all its bits and clears them. */
  function Rendezvous(mask: set<Bit>): Wait {
    Wait(mask, true, true)
  }

  /** `xEventGroupSync` up to the block. */
  function Sync(g: Group, t: TaskId, b: set<Bit>, mask: set<Bit>, mayBlock: bool): (Group, Result)
    requires forall u :: u in g.waiting ==> u in g.item
  {
    var s := SetBits(g, b);
    if mask <= g.bits + b then (s.(bits := s.bits - mask), Value(g.bits + b))
    else if !mayBlock then (s, Value(s.bits))
    else (s.(waiting := s.waiting + [t], item := s.item[t := Waiting(Rendezvous(mask))]), Blocks)
  }

  /** The rest of either call once the task runs again: it was released with the bits it
      finds in its item, or it timed out and takes the bits as they are. */
  function Finish(g: Group, t: TaskId): (Group, set<Bit>)
    requires t in g.item
  {
    match g.item[t]
    case Released(bits) => (g, bits)
    case Waiting(w) => (g.(bits := if Satisfied(g.bits, w) && w.clear then g.bits - w.mask else g.bits), g.bits)
  }

  /** `xEventGroupClearBits`. */
  function ClearBits(g: Group, b: set<Bit>): Group {
    g.(bits := g.bits - b)
  }

  /** The tick takes a task whose block time is over off the list. */
  function TimeOut(g: Group, t: TaskId): Group {
    g.(waiting := Remove(g.waiting, t))
  }

  // ------------------------------------------------------------------ runs

  /** `blocked` holds the wait of every task inside a blocked call, released or not. */
  datatype Sys = Sys(group: Group, blocked: map<TaskId, Wait>)

  datatype Step =
    | Set(b: set<Bit>)
    | Clear(b: set<Bit>)
    | WaitFor(t: TaskId, wait: Wait, mayBlock: bool)
    | SyncOn(t: TaskId, b: set<Bit>, mask: set<Bit>, mayBlock: bool)
    | Expire(t: TaskId)
    | Return(t: TaskId)

  /** Every wait is for at least one bit. */
  predicate Enabled(s: Sys, step: Step) {
    match step
    case Set(_) => true
    case Clear(_) => true
    case WaitFor(t, w, _) => t !in s.blocked && w.mask != {}
    case SyncOn(t, _, mask, _) => t !in s.blocked && mask != {}
    case Expire(t) => t in s.group.waiting
    case Return(t) => t in s.blocked && t !in s.group.waiting
  }

  /** The item of a task inside a call: still its wait, or bits that met it. */
  predicate Explains(i: Item, w: Wait) {
    match i
    case Waiting(v) => v == w
    case Released(bits) => Satisfied(bits, w)
  }

  ghost predicate Inv(s: Sys) {
    && Valid(s.group) && NoSatisfiedWaiter(s.group)
    && (forall t :: t in s.group.waiting ==> t in s.blocked)
    && (forall t :: t in s.blocked ==> t in s.group.item && Explains(s.group.item[t], s.blocked[t]))
  }

  function Blocking(s: Sys, r: (Group, Result), t: TaskId, w: Wait): Sys {
    Sys(r.0, if r.1.Blocks? then s.blocked[t := w] else s.blocked)
  }

  ghost function Next(s: Sys, step: Step): Sys
    requires Inv(s) && Enabled(s, step)
  {
    match step
    case Set(b) => s.(group := SetBits(s.group, b))
    case Clear(b) => s.(group := ClearBits(s.group, b))
    case WaitFor(t, w, mayBlock) => Blocking(s, WaitBits(s.group, t, w, mayBlock), t, w)
    case SyncOn(t, b, mask, mayBlock) => Blocking(s, Sync(s.group, t, b, mask, mayBlock), t, Rendezvous(mask))
    case Expire(t) => s.(group := TimeOut(s.group, t))
    case Return(t) => Sys(Finish(s.group, t).0, s.blocked - {t})
  }

  lemma SetKeepsInv(s: Sys, b: set<Bit>)
    requires Inv(s)
    ensures Inv(s.(group := SetBits(s.group, b)))
  {
    SetBitsReleasesExactly(s.group, b);
  }

  lemma FewerBitsKeepInv(s: Sys, bits: set<Bit>)
    requires Inv(s) && bits <= s.group.bits
    ensures Inv(s.(group := s.group.(bits := bits)))
  {
    forall t | t in s.group.waiting ensures !Satisfied(bits, s.group.item[t].wait) {
      var w := s.group.item[t].wait;
      assert !Satisfied(s.group.bits, w);
      if !w.all { assert w.mask * bits <= w.mask * s.group.bits; }
    }
  }

  lemma PlacedKeepsInv(s: Sys, t: TaskId, w: Wait)
    requires Inv(s) && t !in s.blocked && w.mask != {} && !Satisfied(s.group.bits, w)
    ensures Inv(Sys(s.group.(waiting := s.group.waiting + [t], item := s.group.item[t := Waiting(w)]),
                    s.blocked[t := w]))
  {
  }

  lemma SyncKeepsInv(s: Sys, t: TaskId, b: set<Bit>, mask: set<Bit>, mayBlock: bool)
    requires Inv(s) && t !in s.blocked && mask != {}
    ensures Inv(Blocking(s, Sync(s.group, t, b, mask, mayBlock), t, Rendezvous(mask)))
  {
    SetKeepsInv(s, b);
    var set' := s.(group := SetBits(s.group, b));
    if mask <= s.group.bits + b {
      FewerBitsKeepInv(set', set'.group.bits - mask);
    } else if mayBlock {
      PlacedKeepsInv(set', t, Rendezvous(mask));
    }
  }

  lemma ExpireKeepsInv(s: Sys, t: TaskId)
    requires Inv(s) && t in s.group.waiting
    ensures Inv(s.(group := TimeOut(s.group, t)))
  {
    RemoveFacts(s.group.waiting, t);
  }

  lemma StepKeepsInv(s: Sys, step: Step)
    requires Inv(s) && Enabled(s, step)
    ensures Inv(Next(s, step))
  {
    match step
    case Set(b) => SetKeepsInv(s, b);
    case Clear(b) => FewerBitsKeepInv(s, s.group.bits - b);
    case WaitFor(t, w, mayBlock) =>
      if Satisfied(s.group.bits, w) { FewerBitsKeepInv(s, if w.clear then s.group.bits - w.mask else s.group.bits); }
      else if mayBlock { PlacedKeepsInv(s, t, w); }
    case SyncOn(t, b, mask, mayBlock) => SyncKeepsInv(s, t, b, mask, mayBlock);
    case Expire(t) => ExpireKeepsInv(s, t);
    case Return(t) =>
      FewerBitsKeepInv(s, Finish(s.group, t).0.bits);
  }

  ghost predicate Initial(s: Sys) {
    s.group.bits == {} && s.group.waiting == [] && s.blocked == map[]
  }

  ghost predicate Run(s: Sys, steps: seq<Step>, s': Sys)
    requires Inv(s)
    decreases |steps|
  {
    if steps == [] then s' == s
    else Enabled(s, steps[0]) && (StepKeepsInv(s, steps[0]); Run(Next(s, steps[0]), steps[1..], s'))
  }

  lemma {:induction false} RunKeepsInv(s: Sys, steps: seq<Step>, s': Sys)
    requires Inv(s) && Run(s, steps, s')
    ensures Inv(s')
    decreases |steps|
  {
    if steps != [] {
      StepKeepsInv(s, steps[0]);
      RunKeepsInv(Next(s, steps[0]), steps[1..], s');
    }
  }

  /** Between calls no task on the list has its condition met by the bits. */
  lemma NoSatisfiedWaiterSleeps(s: Sys, steps: seq<Step>, s': Sys, t: TaskId)
    requires Initial(s) && Inv(s) && Run(s, steps, s') && t in s'.group.waiting
    ensures t in s'.blocked && !Satisfied(s'.group.bits, s'.blocked[t])
    ensures s'.blocked[t].all ==> exists bit :: bit in s'.blocked[t].mask && bit !in s'.group.bits
    ensures !s'.blocked[t].all ==> forall bit :: bit in s'.blocked[t].mask ==> bit !in s'.group.bits
  {
    RunKeepsInv(s, steps, s');
    assert Explains(s'.group.item[t], s'.blocked[t]);
    SatisfiedIs(s'.group.bits, s'.blocked[t]);
  }

  /** A task released by a set, however much later it runs, returns bits that met the
      condition it waited for. */
  lemma ReleasedWithItsCondition(s: Sys, steps: seq<Step>, s': Sys, t: TaskId)
    requires Initial(s) && Inv(s) && Run(s, steps, s') && t in s'.blocked && t !in s'.group.waiting
    ensures t in s'.group.item
    ensures s'.group.item[t].Released? ==>
              var w, result := s'.blocked[t], Finish(s'.group, t).1;
              if w.all then w.mask <= result else exists bit :: bit in w.mask && bit in result
  {
    RunKeepsInv(s, steps, s');
    assert Explains(s'.group.item[t], s'.blocked[t]);
    SatisfiedIs(Finish(s'.group, t).1, s'.blocked[t]);
  }

  // ------------------------------------------------------------------ where bits go

  /** The bits the step finds together with those it sets. */
  function Offered(s: Sys, step: Step): set<Bit> {
    match step
    case Set(b) => s.group.bits + b
    case SyncOn(_, b, _, _) => s.group.bits + b
    case _ => s.group.bits
  }

  /** The bits offered meet wait w of task t: a task on the list, the caller, or a task
      coming back from a timeout. */
  ghost predicate Meets(s: Sys, step: Step, t: TaskId, w: Wait)
    requires Inv(s) && Enabled(s, step)
  {
    && Satisfied(Offered(s, step), w)
    && match step
       case Set(_) => t in s.group.waiting && w == s.blocked[t]
       case SyncOn(u, _, mask, _) => (t in s.group.waiting && w == s.blocked[t]) || (t == u && w == Rendezvous(mask))
       case WaitFor(u, v, _) => t == u && w == v
       case Return(u) => t == u && w == s.blocked[u] && s.group.item[u] == Waiting(w)
       case _ => false
  }

  ghost predicate TakenBy(s: Sys, step: Step, bit: Bit, t: TaskId, w: Wait)
    requires Inv(s) && Enabled(s, step)
  {
    Meets(s, step, t, w) && w.clear && bit in w.mask
  }

  lemma SetAccounts(s: Sys, b: set<Bit>, bit: Bit)
    requires Inv(s)
    ensures bit in SetBits(s.group, b).bits <==>
            bit in s.group.bits + b &&
            !(exists t ::
                t in s.group.waiting && Satisfied(s.group.bits + b, s.blocked[t]) && s.blocked[t].clear
                && bit in s.blocked[t].mask)
  {
    SetBitsClearsExactly(s.group, b, bit);
    forall t | t in s.group.waiting ensures s.group.item[t].wait == s.blocked[t] {
      assert Explains(s.group.item[t], s.blocked[t]);
    }
  }

  lemma SetAccountsFor(s: Sys, b: set<Bit>, bit: Bit)
    requires Inv(s)
    ensures bit in Next(s, Set(b)).group.bits <==>
            bit in s.group.bits + b && !(exists t, w :: TakenBy(s, Set(b), bit, t, w))
  {
    SetAccounts(s, b, bit);
    forall t | t in s.group.waiting && Satisfied(s.group.bits + b, s.blocked[t]) && s.blocked[t].clear
      && bit in s.blocked[t].mask
      ensures TakenBy(s, Set(b), bit, t, s.blocked[t]) {}
  }

  lemma SyncAccountsFor(s: Sys, step: Step, bit: Bit)
    requires Inv(s) && Enabled(s, step) && step.SyncOn?
    ensures bit in Next(s, step).group.bits <==>
            bit in Offered(s, step) && !(exists t, w :: TakenBy(s, step, bit, t, w))
  {
    SetAccounts(s, step.b, bit);
    forall t | t in s.group.waiting && Satisfied(s.group.bits + step.b, s.blocked[t]) && s.blocked[t].clear
      && bit in s.blocked[t].mask
      ensures TakenBy(s, step, bit, t, s.blocked[t]) {}
    if bit in step.mask && step.mask <= Offered(s, step) {
      assert TakenBy(s, step, bit, step.t, Rendezvous(step.mask));
    }
  }

  /** No event is lost: a bit set or found set is still set after a call, unless the call
      clears it outright or it was taken: by a task whose whole condition the bits met and
      that asked for its bits to be cleared.  And whatever is so taken is cleared. */
  lemma BitsAccountedFor(s: Sys, step: Step, bit: Bit)
    requires Inv(s) && Enabled(s, step)
    ensures bit in Next(s, step).group.bits <==>
            bit in Offered(s, step) && !(step.Clear? && bit in step.b) && !(exists t, w :: TakenBy(s, step, bit, t, w))
  {
    match step
    case Set(b) => SetAccountsFor(s, b, bit);
    case SyncOn(_, _, _, _) => SyncAccountsFor(s, step, bit);
    case WaitFor(t, w, _) =>
      if Satisfied(s.group.bits, w) && w.clear && bit in w.mask { assert TakenBy(s, step, bit, t, w); }
    case Return(t) =>
      if s.group.item[t].Waiting? {
        var w := s.group.item[t].wait;
        assert Explains(s.group.item[t], s.blocked[t]) && w == s.blocked[t];
        if Satisfied(s.group.bits, w) && w.clear && bit in w.mask { assert TakenBy(s, step, bit, t, w); }
      }
    case _ =>
  }

  // ------------------------------------------------------------------ the walk

  lemma KeptOfSuffix(waiting: seq<TaskId>, item: map<TaskId, Item>, bits: set<Bit>)
    requires waiting != [] && forall t :: t in waiting ==> t in item
    ensures Kept(waiting, item, bits) ==
            (if Matches(bits, item[waiting[0]]) then [] else [waiting[0]]) + Kept(waiting[1..], item, bits)
    ensures ToClear(waiting, item, bits) ==
            (if Matches(bits, item[waiting[0]]) && item[waiting[0]].wait.clear then item[waiting[0]].wait.mask else {})
            + ToClear(waiting[1..], item, bits)
  {
  }

  class EventGroup {
    var bits: set<Bit>                 // uxEventBits
    var waiting: seq<TaskId>           // xTasksWaitingForBits
    var item: map<TaskId, Item>        // the tasks' event list items

    constructor ()
      ensures Contents() == Group({}, [], map[])
    {
      bits, waiting, item := {}, [], map[];
    }

    function Contents(): Group
      reads this
    {
      Group(bits, waiting, item)
    }

    /** The item the cursor stands on is released: its task finds the bits in it. */
    method RemoveFromUnorderedEventList(i: nat)
      requires i < |waiting|
      modifies this`waiting, this`item
      ensures waiting == old(waiting[..i] + waiting[i + 1..]) && item == old(item)[old(waiting[i]) := Released(bits)]
    {
      item := item[waiting[i] := Released(bits)];
      waiting := waiting[..i] + waiting[i + 1..];
    }

    /** `xEventGroupSetBits`: the list is walked while items are taken off it. */
    method SetEventBits(b: set<Bit>) returns (result: set<Bit>)
      requires Valid(Contents())
      modifies this
      ensures Contents() == SetBits(old(Contents()), b) && result == bits
    {
      ghost var first, items := waiting, item;
      bits := bits + b;
      var clear := {};
      var i := 0;
      while i < |waiting|
        invariant i <= |waiting| && bits == old(bits) + b
        invariant Walked(first, items, bits, waiting, i, clear)
        invariant item == HandedSoFar(first, items, bits, waiting)
        decreases |waiting| - i
      {
        WalkOn(first, items, bits, waiting, i, clear);
        var t := waiting[i];
        if Matches(bits, item[t]) {
          if item[t].wait.clear { clear := clear + item[t].wait.mask; }
          RemoveFromUnorderedEventList(i);
        } else {
          i := i + 1;
        }
      }
      WalkDone(first, items, bits, waiting, clear);
      bits := bits - clear;
      result := bits;
    }

    /** `vTaskPlaceOnUnorderedEventList`. */
    method PlaceOnList(t: TaskId, w: Wait)
      modifies this`waiting, this`item
      ensures waiting == old(waiting) + [t] && item == old(item)[t := Waiting(w)]
    {
      item := item[t := Waiting(w)];
      waiting := waiting + [t];
    }

    /** `xEventGroupWaitBits` up to the block. */
    method WaitForBits(t: TaskId, w: Wait, mayBlock: bool) returns (result: Result)
      modifies this
      ensures (Contents(), result) == WaitBits(old(Contents()), t, w, mayBlock)
    {
      var current := bits;
      result := Value(current);
      if Satisfied(current, w) {
        if w.clear { bits := bits - w.mask; }
      } else if mayBlock {
        PlaceOnList(t, w);
        result := Blocks;
      }
    }

    /** `xEventGroupSync` up to the block. */
    method Synchronise(t: TaskId, b: set<Bit>, mask: set<Bit>, mayBlock: bool) returns (result: Result)
      requires Valid(Contents())
      modifies this
      ensures (Contents(), result) == Sync(old(Contents()), t, b, mask, mayBlock)
    {
      var original := bits;
      var now := SetEventBits(b);
      if mask <= original + b {
        result := Value(original + b);
        bits := bits - mask;
      } else if mayBlock {
        PlaceOnList(t, Rendezvous(mask));
        result := Blocks;
      } else {
        result := Value(now);
      }
    }

    /** The end of both calls once the task runs again. */
    method FinishCall(t: TaskId) returns (result: set<Bit>)
      requires t in item
      modifies this`bits
      ensures (Contents(), result) == Finish(old(Contents()), t)
    {
      match item[t]
      case Released(handed) => result := handed;
      case Waiting(w) =>
        result := bits;
        if Satisfied(bits, w) && w.clear { bits := bits - w.mask; }
    }

    /** `xEventGroupClearBits`: returns the bits as they were before. */
    method ClearEventBits(b: set<Bit>) returns (result: set<Bit>)
      modifies this`bits
      ensures Contents() == ClearBits(old(Contents()), b) && result == old(bits)
    {
      result := bits;
      bits := bits - b;
    }
  }

  /** Before the cursor stand the kept items, from it on the items not yet looked at. */
  ghost predicate Walked(first: seq<TaskId>, items: map<TaskId, Item>, bits: set<Bit>, waiting: seq<TaskId>, i: nat,
                         clear: set<Bit>) {
    && i <= |waiting| && Distinct(waiting) && ListOk(first, items)
    && (forall t :: t in waiting ==> t in first)
    && (forall t :: t in waiting[..i] ==> !Matches(bits, items[t]))
    && Kept(first, items, bits) == waiting[..i] + Kept(waiting[i..], items, bits)
    && ToClear(first, items, bits) == clear + ToClear(waiting[i..], items, bits)
  }

  /** Items off the list have been handed the bits, all others are as they were. */
  function HandedSoFar(first: seq<TaskId>, items: map<TaskId, Item>, bits: set<Bit>,
                       waiting: seq<TaskId>): map<TaskId, Item> {
    map t | t in items :: if t in first && t !in waiting then Released(bits) else items[t]
  }

  lemma HandedOneMore(first: seq<TaskId>, items: map<TaskId, Item>, bits: set<Bit>, waiting: seq<TaskId>,
                      rest: seq<TaskId>, t: TaskId)
    requires t in first && t in items && t in waiting && t !in rest
    requires forall u :: u in waiting <==> u in rest || u == t
    ensures HandedSoFar(first, items, bits, rest) == HandedSoFar(first, items, bits, waiting)[t := Released(bits)]
  {
  }

  lemma WithoutAt(s: seq<TaskId>, i: nat)
    requires i < |s| && Distinct(s)
    ensures var r := s[..i] + s[i + 1..];
            Distinct(r) && s[i] !in r && (forall u :: u in s <==> u in r || u == s[i]) && r[..i] == s[..i]
              && r[i..] == s[i + 1..]
  {
    RemoveAt(s, i);
    RemoveFacts(s, s[i]);
  }

  lemma WalkPastMatch(first: seq<TaskId>, items: map<TaskId, Item>, bits: set<Bit>, waiting: seq<TaskId>,
                      rest: seq<TaskId>, i: nat, clear: set<Bit>)
    requires Walked(first, items, bits, waiting, i, clear) && i < |waiting| && waiting[i] in items
    requires Matches(bits, items[waiting[i]])
    requires i <= |rest| && Distinct(rest) && rest[..i] == waiting[..i] && rest[i..] == waiting[i + 1..]
    requires forall u :: u in rest ==> u in waiting
    ensures Walked(first, items, bits, rest, i,
                   if items[waiting[i]].wait.clear then clear + items[waiting[i]].wait.mask else clear)
  {
    var suffix, i' := waiting[i..], items[waiting[i]];
    KeptOfSuffix(suffix, items, bits);
    assert suffix[1..] == rest[i..] && suffix[0] == waiting[i];
    assert Kept(suffix, items, bits) == Kept(rest[i..], items, bits);
    UnionAssociates(clear, if i'.wait.clear then i'.wait.mask else {}, ToClear(rest[i..], items, bits));
  }

  lemma UnionAssociates(a: set<Bit>, b: set<Bit>, c: set<Bit>)
    ensures a + (b + c) == (a + b) + c
  {
  }

  /** An item that does not match is kept, and nothing is cleared for it. */
  lemma KeptPast(items: map<TaskId, Item>, bits: set<Bit>, waiting: seq<TaskId>, i: nat)
    requires i < |waiting| && (forall t :: t in waiting ==> t in items) && !Matches(bits, items[waiting[i]])
    ensures waiting[..i] + Kept(waiting[i..], items, bits) == waiting[..i + 1] + Kept(waiting[i + 1..], items, bits)
    ensures ToClear(waiting[i..], items, bits) == ToClear(waiting[i + 1..], items, bits)
  {
    assert waiting[i..][1..] == waiting[i + 1..];
    KeptOfSuffix(waiting[i..], items, bits);
    assert waiting[..i + 1] == waiting[..i] + [waiting[i]];
  }

  lemma WalkPastOther(first: seq<TaskId>, items: map<TaskId, Item>, bits: set<Bit>, waiting: seq<TaskId>, i: nat,
                      clear: set<Bit>)
    requires Walked(first, items, bits, waiting, i, clear) && i < |waiting| && waiting[i] in items
    requires !Matches(bits, items[waiting[i]])
    ensures Walked(first, items, bits, waiting, i + 1, clear)
  {
    KeptPast(items, bits, waiting, i);
    forall t | t in waiting[..i + 1] ensures !Matches(bits, items[t]) {
      if t != waiting[i] { assert t in waiting[..i]; }
    }
  }

  lemma WalkOn(first: seq<TaskId>, items: map<TaskId, Item>, bits: set<Bit>, waiting: seq<TaskId>, i: nat,
               clear: set<Bit>)
    requires Walked(first, items, bits, waiting, i, clear) && i < |waiting|
    ensures var t, rest := waiting[i], waiting[..i] + waiting[i + 1..];
            && t in items && HandedSoFar(first, items, bits, waiting)[t] == items[t]
            && (if Matches(bits, items[t]) then
                  && Walked(first, items, bits, rest, i,
                            if items[t].wait.clear then clear + items[t].wait.mask else clear)
                  && HandedSoFar(first, items, bits, rest) ==
                     HandedSoFar(first, items, bits, waiting)[t := Released(bits)]
                else Walked(first, items, bits, waiting, i + 1, clear))
  {
    assert waiting[i] in waiting;
    if Matches(bits, items[waiting[i]]) {
      WithoutAt(waiting, i);
      var rest := waiting[..i] + waiting[i + 1..];
      WalkPastMatch(first, items, bits, waiting, rest, i, clear);
      HandedOneMore(first, items, bits, waiting, rest, waiting[i]);
    } else {
      WalkPastOther(first, items, bits, waiting, i, clear);
    }
  }

  lemma WalkDone(first: seq<TaskId>, items: map<TaskId, Item>, bits: set<Bit>, waiting: seq<TaskId>, clear: set<Bit>)
    requires Walked(first, items, bits, waiting, |waiting|, clear)
    ensures waiting == Kept(first, items, bits) && clear == ToClear(first, items, bits)
    ensures HandedSoFar(first, items, bits, waiting) == HandOut(first, items, bits)
  {
    assert waiting[..|waiting|] == waiting;
  }
}
