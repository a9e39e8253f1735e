/** A barrier made of an event group: a fixed set of tasks, each with bits of its own, call
    `xEventGroupSync` round after round, waiting without timeout for the bits of all. */
module Barrier {
  import opened Common
  import opened Lists
  import G = EventGroups

  type Bit = G.Bit

  /** `owner` gives the task each rendezvous bit belongs to.  `entered` and `returned` count
      the calls each task has made and has come back from; `rounds` the rounds completed. */
  datatype Sys = Sys(
    owner: map<Bit, TaskId>,
    group: G.Group,
    entered: map<TaskId, nat>,
    returned: map<TaskId, nat>,
    rounds: nat
  )

  function Own(s: Sys, t: TaskId): set<Bit> {
    set b | b in s.owner && s.owner[b] == t
  }

  function Mask(s: Sys): set<Bit> {
    s.owner.Keys
  }

  /** Every task has a bit, and every bit a task. */
  ghost predicate Shape(s: Sys) {
    && s.entered.Keys == s.returned.Keys
    && (forall b :: b in s.owner ==> s.owner[b] in s.entered)
    && (forall t :: t in s.entered ==> exists b :: b in s.owner && s.owner[b] == t)
  }

  predicate Inside(s: Sys, t: TaskId)
    requires t in s.entered && t in s.returned
  {
    s.returned[t] < s.entered[t]
  }

  /** The tasks on the list have entered the round now open. */
  ghost predicate OnList(s: Sys) {
    forall t :: t in s.group.waiting ==>
      && t in s.entered && s.entered[t] == s.rounds + 1 && t in s.returned && s.returned[t] == s.rounds
      && t in s.group.item && s.group.item[t] == G.Waiting(G.Rendezvous(Mask(s)))
  }

  /** All others have not, and those of them still inside the last round have been handed
      bits with the whole mask. */
  ghost predicate OffList(s: Sys) {
    forall t :: t in s.entered && t !in s.group.waiting ==>
      && s.entered[t] == s.rounds && t in s.returned && s.returned[t] <= s.rounds
      && (s.returned[t] < s.rounds ==>
            s.returned[t] + 1 == s.rounds && t in s.group.item && s.group.item[t].Released?
              && Mask(s) <= s.group.item[t].bits)
  }

  /** The bits set are those of the tasks on the list, and not all tasks are there. */
  ghost predicate Open(s: Sys) {
    && Distinct(s.group.waiting)
    && (forall b :: b in s.group.bits <==> b in s.owner && s.owner[b] in s.group.waiting)
    && (s.entered.Keys != {} ==> exists t :: t in s.entered && t !in s.group.waiting)
  }

  ghost predicate Inv(s: Sys) {
    Shape(s) && OnList(s) && OffList(s) && Open(s)
  }

  datatype Step = Enter(t: TaskId) | Leave(t: TaskId)

  ghost predicate Enabled(s: Sys, step: Step)
    requires Shape(s)
  {
    match step
    case Enter(t) => t in s.entered && !Inside(s, t)
    case Leave(t) => t in s.entered && Inside(s, t) && t !in s.group.waiting && t in s.group.item
  }

  /** The value a step returns to its task, if it returns. */
  datatype Outcome = Returns(bits: set<Bit>) | StaysInside

  ghost function Next(s: Sys, step: Step): (Sys, Outcome)
    requires Inv(s) && Enabled(s, step)
  {
    match step
    case Enter(t) =>
      var (g, result) := G.Sync(s.group, t, Own(s, t), Mask(s), true);
      var entered := s.(group := g, entered := s.entered[t := s.entered[t] + 1]);
      (match result
       case Value(bits) =>
         (entered.(returned := s.returned[t := s.returned[t] + 1], rounds := s.rounds + 1), Returns(bits))
       case Blocks => (entered, StaysInside))
    case Leave(t) =>
      var (g, bits) := G.Finish(s.group, t);
      (s.(group := g, returned := s.returned[t := s.returned[t] + 1]), Returns(bits))
  }

  /** The invariant is kept, what is returned contains the whole mask, and the bits are clear
      when a round ends. */
  ghost predicate Whole(s: Sys, r: (Sys, Outcome)) {
    && Inv(r.0) && Mask(r.0) == Mask(s)
    && (r.1.Returns? ==> Mask(s) <= r.1.bits)
    && (r.0.rounds > s.rounds ==> r.0.group.bits == {})
  }

  // ------------------------------------------------------------------ entering

  /** The last bits are set exactly when every other task is on the list already. */
  lemma CompleteExactly(s: Sys, t: TaskId)
    requires Inv(s) && t in s.entered && t !in s.group.waiting
    ensures Mask(s) <= s.group.bits + Own(s, t) <==> forall u :: u in s.entered && u != t ==> u in s.group.waiting
  {
    if Mask(s) <= s.group.bits + Own(s, t) {
      forall u | u in s.entered && u != t ensures u in s.group.waiting {
        var b :| b in s.owner && s.owner[b] == u;
        assert b in Mask(s);
      }
    }
  }

  /** As long as a task is missing, nobody is released. */
  lemma {:induction false} NobodyReleased(waiting: seq<TaskId>, item: map<TaskId, G.Item>, mask: set<Bit>,
                                          bits: set<Bit>)
    requires forall u :: u in waiting ==> u in item && item[u] == G.Waiting(G.Rendezvous(mask))
    requires !(mask <= bits)
    ensures G.Kept(waiting, item, bits) == waiting && G.ToClear(waiting, item, bits) == {}
    ensures G.HandOut(waiting, item, bits) == item
  {
    if waiting != [] {
      assert waiting == [waiting[0]] + waiting[1..];
      NobodyReleased(waiting[1..], item, mask, bits);
    }
  }

  /** When the last one enters, everybody is. */
  lemma {:induction false} EverybodyReleased(waiting: seq<TaskId>, item: map<TaskId, G.Item>, mask: set<Bit>,
                                             bits: set<Bit>)
    requires forall u :: u in waiting ==> u in item && item[u] == G.Waiting(G.Rendezvous(mask))
    requires mask <= bits
    ensures G.Kept(waiting, item, bits) == [] && G.ToClear(waiting, item, bits) <= mask
  {
    if waiting != [] {
      assert waiting == [waiting[0]] + waiting[1..];
      EverybodyReleased(waiting[1..], item, mask, bits);
    }
  }

  lemma ShapeKept(s: Sys, r: Sys)
    requires Shape(s) && r.owner == s.owner && r.entered.Keys == s.entered.Keys && r.returned.Keys == s.returned.Keys
    ensures Shape(r)
  {
    forall x | x in r.entered ensures exists b :: b in r.owner && r.owner[b] == x {
      var b :| b in s.owner && s.owner[b] == x;
      assert r.owner[b] == x;
    }
  }

  /** The state after task t went onto the list. */
  function Joined(s: Sys, t: TaskId): Sys
    requires t in s.entered
  {
    s.(group := G.Group(s.group.bits + Own(s, t), s.group.waiting + [t],
                        s.group.item[t := G.Waiting(G.Rendezvous(Mask(s)))]),
       entered := s.entered[t := s.entered[t] + 1])
  }

  lemma JoinedKeepsOpen(s: Sys, t: TaskId)
    requires Open(s) && t in s.entered && t !in s.group.waiting
    requires exists u :: u in s.entered && u != t && u !in s.group.waiting
    ensures Open(Joined(s, t))
  {
    var u :| u in s.entered && u != t && u !in s.group.waiting;
    assert u in Joined(s, t).entered && u !in Joined(s, t).group.waiting;
  }

  lemma EnterJoins(s: Sys, t: TaskId)
    requires Inv(s) && Enabled(s, Enter(t)) && !(Mask(s) <= s.group.bits + Own(s, t)) && t !in s.group.waiting
    ensures Next(s, Enter(t)).0 == Joined(s, t) && Next(s, Enter(t)).1 == StaysInside
  {
    NobodyReleased(s.group.waiting, s.group.item, Mask(s), s.group.bits + Own(s, t));
  }

  lemma EnterWaits(s: Sys, t: TaskId)
    requires Inv(s) && Enabled(s, Enter(t)) && !(Mask(s) <= s.group.bits + Own(s, t)) && t !in s.group.waiting
    ensures Next(s, Enter(t)).1 == StaysInside && Whole(s, Next(s, Enter(t)))
  {
    EnterJoins(s, t);
    assert Mask(Joined(s, t)) == Mask(s);
    assert Open(Joined(s, t)) by {
      CompleteExactly(s, t);
      JoinedKeepsOpen(s, t);
    }
    assert OnList(Joined(s, t)) && OffList(Joined(s, t)) by { JoinedKeepsLists(s, t); }
    assert Shape(Joined(s, t)) by { ShapeKept(s, Joined(s, t)); }
  }

  lemma JoinedKeepsLists(s: Sys, t: TaskId)
    requires Inv(s) && Enabled(s, Enter(t)) && t !in s.group.waiting
    ensures OnList(Joined(s, t)) && OffList(Joined(s, t))
  {
    assert Mask(Joined(s, t)) == Mask(s);
  }

  /** The state after the last task entered: everyone is released with the bits. */
  ghost function Completed(s: Sys, t: TaskId): Sys
    requires t in s.entered && t in s.returned && forall u :: u in s.group.waiting ==> u in s.group.item
  {
    var bits := s.group.bits + Own(s, t);
    s.(group := G.Group({}, [], G.HandOut(s.group.waiting, s.group.item, bits)),
       entered := s.entered[t := s.entered[t] + 1], returned := s.returned[t := s.returned[t] + 1],
       rounds := s.rounds + 1)
  }

  /** Everyone released was on the list, and is handed bits with the whole mask. */
  lemma CompletedHandsOut(s: Sys, t: TaskId)
    requires Inv(s) && Enabled(s, Enter(t)) && t !in s.group.waiting && Mask(s) <= s.group.bits + Own(s, t)
    ensures forall u :: u in s.group.waiting ==>
            u in s.group.item && Completed(s, t).group.item[u] == G.Released(s.group.bits + Own(s, t))
  {
  }

  lemma CompletedOffList(s: Sys, t: TaskId)
    requires Inv(s) && Enabled(s, Enter(t)) && t !in s.group.waiting && Mask(s) <= s.group.bits + Own(s, t)
    ensures OffList(Completed(s, t))
  {
    CompleteExactly(s, t);
    CompletedHandsOut(s, t);
    assert Mask(Completed(s, t)) == Mask(s);
  }

  lemma CompletedIsInv(s: Sys, t: TaskId)
    requires Inv(s) && Enabled(s, Enter(t)) && t !in s.group.waiting && Mask(s) <= s.group.bits + Own(s, t)
    ensures Inv(Completed(s, t))
  {
    var r := Completed(s, t);
    CompletedOffList(s, t);
    assert Shape(r) by { ShapeKept(s, r); }
    assert Open(r) by { assert t in r.entered && t !in r.group.waiting; }
  }

  lemma SyncCompletes(g: G.Group, t: TaskId, own: set<Bit>, mask: set<Bit>)
    requires forall u :: u in g.waiting ==> u in g.item && g.item[u] == G.Waiting(G.Rendezvous(mask))
    requires mask == g.bits + own
    ensures G.Sync(g, t, own, mask, true) ==
            (G.Group({}, [], G.HandOut(g.waiting, g.item, g.bits + own)), G.Value(g.bits + own))
  {
    EverybodyReleased(g.waiting, g.item, mask, g.bits + own);
    assert g.bits + own - G.ToClear(g.waiting, g.item, g.bits + own) - mask == {};
  }

  lemma EnterIsCompleted(s: Sys, t: TaskId)
    requires Inv(s) && Enabled(s, Enter(t)) && Mask(s) <= s.group.bits + Own(s, t) && t !in s.group.waiting
    ensures Next(s, Enter(t)) == (Completed(s, t), Returns(s.group.bits + Own(s, t)))
  {
    assert Mask(s) == s.group.bits + Own(s, t);
    SyncCompletes(s.group, t, Own(s, t), Mask(s));
  }

  lemma EnterCompletes(s: Sys, t: TaskId)
    requires Inv(s) && Enabled(s, Enter(t)) && Mask(s) <= s.group.bits + Own(s, t) && t !in s.group.waiting
    ensures Next(s, Enter(t)).1.Returns? && Whole(s, Next(s, Enter(t)))
  {
    EnterIsCompleted(s, t);
    CompletedIsInv(s, t);
    assert Mask(Completed(s, t)) == Mask(s);
  }

  lemma LeaveKeepsInv(s: Sys, t: TaskId)
    requires Inv(s) && Enabled(s, Leave(t))
    ensures Next(s, Leave(t)).1.Returns? && Whole(s, Next(s, Leave(t)))
  {
    var r := Next(s, Leave(t)).0;
    assert Mask(r) == Mask(s);
    assert Shape(r) by { ShapeKept(s, r); }
    assert Open(r) by {
      var u :| u in s.entered && u !in s.group.waiting;
      assert u in r.entered && u !in r.group.waiting;
    }
  }

  lemma NotInsideNotWaiting(s: Sys, t: TaskId)
    requires Inv(s) && Enabled(s, Enter(t))
    ensures t !in s.group.waiting && s.returned[t] == s.rounds == s.entered[t]
  {
  }

  lemma StepKeepsInv(s: Sys, step: Step)
    requires Inv(s) && Enabled(s, step)
    ensures Whole(s, Next(s, step))
  {
    match step
    case Enter(t) =>
      NotInsideNotWaiting(s, t);
      if Mask(s) <= s.group.bits + Own(s, t) { EnterCompletes(s, t); } else { EnterWaits(s, t); }
    case Leave(t) => LeaveKeepsInv(s, t);
  }

  // ------------------------------------------------------------------ runs

  ghost predicate Initial(s: Sys) {
    && Shape(s) && s.group.bits == {} && s.group.waiting == [] && s.rounds == 0
    && forall t :: t in s.entered ==> s.entered[t] == s.returned[t] == 0
  }

  ghost predicate Run(s: Sys, steps: seq<Step>, s': Sys)
    requires Inv(s)
    decreases |steps|
  {
    if steps == [] then s' == s
    else Enabled(s, steps[0]) && (StepKeepsInv(s, steps[0]); Run(Next(s, steps[0]).0, steps[1..], s'))
  }

  lemma {:induction false} RunKeepsInv(s: Sys, steps: seq<Step>, s': Sys)
    requires Inv(s) && Run(s, steps, s')
    ensures Inv(s') && Mask(s') == Mask(s)
    decreases |steps|
  {
    if steps != [] {
      StepKeepsInv(s, steps[0]);
      RunKeepsInv(Next(s, steps[0]).0, steps[1..], s');
    }
  }

  lemma InitialInv(s: Sys)
    requires Initial(s)
    ensures Inv(s)
  {
    if s.entered.Keys != {} {
      var t :| t in s.entered.Keys;
      assert t in s.entered && t !in s.group.waiting;
    }
  }

  /** The barrier holds over any number of rounds: tasks are never more than one round
      apart, and none comes back from a round before all have entered it. */
  lemma BarrierHolds(s: Sys, steps: seq<Step>, s': Sys, t: TaskId, u: TaskId)
    requires Initial(s) && Inv(s) && Run(s, steps, s') && t in s'.entered && u in s'.entered
    ensures s'.entered[t] <= s'.entered[u] + 1
    ensures t in s'.returned && s'.returned[t] <= s'.entered[u]
  {
    RunKeepsInv(s, steps, s');
  }

  /** What every step of a run returns to its task. */
  ghost predicate ReturnsWhole(s: Sys, steps: seq<Step>)
    requires Inv(s)
    decreases |steps|
  {
    steps != [] && Enabled(s, steps[0]) ==>
      && (Next(s, steps[0]).1.Returns? ==> Mask(s) <= Next(s, steps[0]).1.bits)
      && (Next(s, steps[0]).0.rounds > s.rounds ==> Next(s, steps[0]).0.group.bits == {})
      && (StepKeepsInv(s, steps[0]); ReturnsWhole(Next(s, steps[0]).0, steps[1..]))
  }

  /** Every return of every run hands its task the whole mask, and the bits are clear again
      whenever a round ends. */
  lemma {:induction false} EveryReturnIsWhole(s: Sys, steps: seq<Step>)
    requires Inv(s)
    ensures ReturnsWhole(s, steps)
    decreases |steps|
  {
    if steps != [] && Enabled(s, steps[0]) {
      StepKeepsInv(s, steps[0]);
      EveryReturnIsWhole(Next(s, steps[0]).0, steps[1..]);
    }
  }

  /** The barrier cannot lock up: some task can always step. */
  lemma SomebodyCanStep(s: Sys)
    requires Inv(s) && s.entered.Keys != {}
    ensures exists step :: Enabled(s, step)
  {
    var t :| t in s.entered && t !in s.group.waiting;
    if Inside(s, t) { assert Enabled(s, Leave(t)); } else { assert Enabled(s, Enter(t)); }
  }
}
