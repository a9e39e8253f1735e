/** What goes into a queue and what comes out: with messages sent to either end and taken by
    tasks and interrupts in any interleaving, and how a call that finds nothing ends. */
module QueueContents {
  import opened Common
  import opened Lists
  import opened QueueProtocol

  /** The step may put message m into the queue: a task's try or an interrupt's send. */
  predicate Sends<M(==)>(s: Sys<M>, step: Step<M>, m: M, pos: Position) {
    match step
    case Try(t, _) => t in s.pc && s.pc[t].Trying? && s.pc[t].op == Send(m, pos)
    case IsrSend(x, p) => x == m && p == pos
    case _ => false
  }

  predicate Takes<M>(s: Sys<M>, step: Step<M>) {
    match step
    case Try(t, _) => t in s.pc && s.pc[t].Trying? && s.pc[t].op.Receive?
    case IsrReceive => true
    case _ => false
  }

  // ------------------------------------------------------------------ in and out again

  /** A message sent to the front is the next one taken, which leaves the queue as it was;
      tasks and interrupts may do either. */
  lemma SentToFrontIsTakenNext<M>(s: Sys<M>, send: Step<M>, m: M, take: Step<M>)
    requires Typed(s) && Enabled(s, send) && Sends(s, send, m, Front) && |s.items| < s.length
    requires Typed(Next(s, send)) && Enabled(Next(s, send), take) && Takes(Next(s, send), take)
    ensures var r := Next(Next(s, send), take);
            r.items == s.items && r.delivered == s.delivered + [m] && r.accepted == s.accepted + [m]
  {
  }

  /** An overwriting send succeeds even on a full queue; the next message taken is its own,
      and the queue is empty then. */
  lemma OverwrittenIsTakenNext<M>(s: Sys<M>, send: Step<M>, m: M, take: Step<M>)
    requires Typed(s) && Enabled(s, send) && Sends(s, send, m, Overwrite)
    requires Typed(Next(s, send)) && Enabled(Next(s, send), take) && Takes(Next(s, send), take)
    ensures var r := Next(Next(s, send), take);
            r.items == [] && r.delivered == s.delivered + [m] && r.accepted == s.accepted + [m]
  {
  }

  // ------------------------------------------------------------------ the history of a deque

  /** The k-th of these messages is number `numbers[k]` of those accepted. */
  ghost predicate Numbered<M>(messages: seq<M>, accepted: seq<M>, numbers: seq<nat>) {
    && |numbers| == |messages|
    && (forall i :: 0 <= i < |numbers| ==> numbers[i] < |accepted| && messages[i] == accepted[numbers[i]])
  }

  /** Of two queued messages the later one stands before the earlier if it was sent to the
      front, and behind it if it was sent to the back. */
  ghost predicate InTurn(order: seq<nat>, front: seq<bool>) {
    && (forall i :: 0 <= i < |order| ==> order[i] < |front|)
    && (forall i, j :: 0 <= i < j < |order| ==> if order[i] < order[j] then !front[order[j]] else front[order[i]])
  }

  /** The messages are numbered as they were accepted, and `front[i]` says that number i was
      sent to the front.  `taken` numbers those delivered and `order` those queued, each
      accepted message once. */
  ghost predicate Arranged<M>(accepted: seq<M>, delivered: seq<M>, items: seq<M>, front: seq<bool>,
                              order: seq<nat>, taken: seq<nat>) {
    && |front| == |accepted| == |taken| + |order| && Distinct(taken + order)
    && Numbered(delivered, accepted, taken) && Numbered(items, accepted, order) && InTurn(order, front)
  }

  lemma AcceptKeepsNumbered<M>(messages: seq<M>, accepted: seq<M>, numbers: seq<nat>, m: M)
    requires Numbered(messages, accepted, numbers)
    ensures Numbered(messages, accepted + [m], numbers)
    ensures Numbered(messages + [m], accepted + [m], numbers + [|accepted|])
    ensures Numbered([m] + messages, accepted + [m], [|accepted|] + numbers)
  {
  }

  lemma NewKeepsDistinct(taken: seq<nat>, order: seq<nat>, n: nat)
    requires Distinct(taken + order) && n !in taken && n !in order
    ensures Distinct(taken + ([n] + order)) && Distinct(taken + (order + [n]))
  {
    var all, a, b := taken + order, taken + ([n] + order), taken + (order + [n]);
    forall i, j | 0 <= i < j < |a| ensures a[i] != a[j] {
      if i != |taken| { assert a[i] == all[if i < |taken| then i else i - 1]; }
      if j != |taken| { assert a[j] == all[if j < |taken| then j else j - 1]; }
    }
    assert b == all + [n];
  }

  lemma PutKeepsInTurn(order: seq<nat>, front: seq<bool>)
    requires InTurn(order, front)
    ensures InTurn([|front|] + order, front + [true]) && InTurn(order + [|front|], front + [false])
  {
  }

  lemma PutKeepsArranged<M>(accepted: seq<M>, delivered: seq<M>, items: seq<M>, front: seq<bool>,
                            order: seq<nat>, taken: seq<nat>, m: M, pos: Position)
    requires Arranged(accepted, delivered, items, front, order, taken) && pos != Overwrite
    ensures Arranged(accepted + [m], delivered, Put(items, m, pos), front + [pos == Front],
                     if pos == Front then [|accepted|] + order else order + [|accepted|], taken)
  {
    AcceptKeepsNumbered(delivered, accepted, taken, m);
    AcceptKeepsNumbered(items, accepted, order, m);
    NewKeepsDistinct(taken, order, |accepted|);
    PutKeepsInTurn(order, front);
  }

  lemma TakeKeepsArranged<M>(accepted: seq<M>, delivered: seq<M>, items: seq<M>, front: seq<bool>,
                             order: seq<nat>, taken: seq<nat>)
    requires Arranged(accepted, delivered, items, front, order, taken) && items != []
    ensures Arranged(accepted, delivered + [items[0]], items[1..], front, order[1..], taken + [order[0]])
  {
    assert (taken + [order[0]]) + order[1..] == taken + order;
  }

  predicate NotOverwriting<M>(op: Op<M>) {
    op.Send? ==> op.pos != Overwrite
  }

  /** No call under way and no step overwrites. */
  ghost predicate Keeping<M>(s: Sys<M>) {
    forall t :: t in s.pc && !s.pc[t].Outside? ==> NotOverwriting(s.pc[t].op)
  }

  predicate KeepingStep<M>(step: Step<M>) {
    match step
    case Begin(_, op) => NotOverwriting(op)
    case IsrSend(_, pos) => pos != Overwrite
    case _ => true
  }

  predicate SendsToFront<M>(s: Sys<M>, step: Step<M>) {
    match step
    case Try(t, _) => t in s.pc && s.pc[t].Trying? && s.pc[t].op.Send? && s.pc[t].op.pos == Front
    case IsrSend(_, pos) => pos == Front
    case _ => false
  }

  /** For a step that has a message accepted, whether to the front. */
  ghost function ToFront<M>(s: Sys<M>, step: Step<M>): seq<bool>
    requires Typed(s) && Enabled(s, step)
  {
    if Next(s, step).accepted == s.accepted then [] else [SendsToFront(s, step)]
  }

  ghost function Fronts<M>(s: Sys<M>, steps: seq<Step<M>>, s': Sys<M>, limited: bool): seq<bool>
    requires Run(s, steps, s', limited)
    decreases |steps|
  {
    if steps == [] then [] else ToFront(s, steps[0]) + Fronts(Next(s, steps[0]), steps[1..], s', limited)
  }

  ghost predicate Ordered<M>(s: Sys<M>, front: seq<bool>, order: seq<nat>, taken: seq<nat>) {
    Arranged(s.accepted, s.delivered, s.items, front, order, taken)
  }

  lemma SendKeepsOrder<M>(s: Sys<M>, step: Step<M>, m: M, pos: Position, front: seq<bool>, order: seq<nat>,
                          taken: seq<nat>) returns (order': seq<nat>)
    requires Typed(s) && Enabled(s, step) && Sends(s, step, m, pos) && pos != Overwrite
    requires Ordered(s, front, order, taken)
    ensures Ordered(Next(s, step), front + ToFront(s, step), order', taken)
  {
    order' := order;
    if HasRoom(s, pos) {
      PutKeepsArranged(s.accepted, s.delivered, s.items, front, order, taken, m, pos);
      order' := if pos == Front then [|s.accepted|] + order else order + [|s.accepted|];
      assert Next(s, step).accepted == s.accepted + [m];
    } else {
      assert front + ToFront(s, step) == front;
    }
  }

  lemma TakeKeepsOrder<M>(s: Sys<M>, step: Step<M>, front: seq<bool>, order: seq<nat>, taken: seq<nat>)
    returns (order': seq<nat>, taken': seq<nat>)
    requires Typed(s) && Enabled(s, step) && Takes(s, step) && Ordered(s, front, order, taken)
    ensures Ordered(Next(s, step), front + ToFront(s, step), order', taken')
  {
    order', taken' := order, taken;
    assert front + ToFront(s, step) == front;
    if s.items != [] {
      TakeKeepsArranged(s.accepted, s.delivered, s.items, front, order, taken);
      order', taken' := order[1..], taken + [order[0]];
    }
  }

  lemma StepKeepsOrder<M>(s: Sys<M>, step: Step<M>, front: seq<bool>, order: seq<nat>, taken: seq<nat>)
    returns (order': seq<nat>, taken': seq<nat>)
    requires Typed(s) && Enabled(s, step) && Keeping(s) && KeepingStep(step) && Ordered(s, front, order, taken)
    ensures Ordered(Next(s, step), front + ToFront(s, step), order', taken')
  {
    order', taken' := order, taken;
    if step.IsrSend? {
      order' := SendKeepsOrder(s, step, step.msg, step.pos, front, order, taken);
    } else if step.Try? && s.pc[step.t].op.Send? {
      assert NotOverwriting(s.pc[step.t].op);
      order' := SendKeepsOrder(s, step, s.pc[step.t].op.msg, s.pc[step.t].op.pos, front, order, taken);
    } else if Takes(s, step) {
      order', taken' := TakeKeepsOrder(s, step, front, order, taken);
    } else {
      assert front + ToFront(s, step) == front;
    }
  }

  /** A task goes on with the call it is in, or begins one. */
  lemma SameCall<M>(s: Sys<M>, step: Step<M>, t: TaskId)
    requires Typed(s) && Enabled(s, step) && t in Next(s, step).pc && !Next(s, step).pc[t].Outside?
    ensures t in s.pc
    ensures (!s.pc[t].Outside? && Next(s, step).pc[t].op == s.pc[t].op) || step == Begin(t, Next(s, step).pc[t].op)
  {
    match step
    case Begin(_, _) =>
    case _ =>
  }

  lemma StepKeepsKeeping<M>(s: Sys<M>, step: Step<M>)
    requires Typed(s) && Enabled(s, step) && Keeping(s) && KeepingStep(step)
    ensures Keeping(Next(s, step))
  {
    forall t | t in Next(s, step).pc && !Next(s, step).pc[t].Outside? ensures NotOverwriting(Next(s, step).pc[t].op) {
      SameCall(s, step, t);
    }
  }

  lemma {:induction false} RunKeepsOrder<M>(s: Sys<M>, steps: seq<Step<M>>, s': Sys<M>, limited: bool,
                                            front: seq<bool>, order: seq<nat>, taken: seq<nat>)
    returns (order': seq<nat>, taken': seq<nat>)
    requires Run(s, steps, s', limited) && Keeping(s) && forall i :: 0 <= i < |steps| ==> KeepingStep(steps[i])
    requires Ordered(s, front, order, taken)
    ensures Ordered(s', front + Fronts(s, steps, s', limited), order', taken')
    decreases |steps|
  {
    if steps == [] {
      order', taken' := order, taken;
      assert front + Fronts(s, steps, s', limited) == front;
    } else {
      var step, rest := steps[0], Fronts(Next(s, steps[0]), steps[1..], s', limited);
      StepKeepsKeeping(s, step);
      order', taken' := StepKeepsOrder(s, step, front, order, taken);
      order', taken' := RunKeepsOrder(Next(s, step), steps[1..], s', limited, front + ToFront(s, step), order', taken');
      assert front + (ToFront(s, step) + rest) == (front + ToFront(s, step)) + rest;
    }
  }

  /** A queue is a deque under every interleaving: whatever was sent to the front or the back,
      by tasks or interrupts, every message accepted is delivered once or queued once, and
      the message to be delivered next is the latest one sent to the front or, when none of
      the queued ones was, the earliest. */
  lemma DequeHistory<M>(s: Sys<M>, steps: seq<Step<M>>, s': Sys<M>, limited: bool)
    returns (order: seq<nat>, taken: seq<nat>)
    requires Initial(s) && Run(s, steps, s', limited) && forall i :: 0 <= i < |steps| ==> KeepingStep(steps[i])
    ensures Ordered(s', Fronts(s, steps, s', limited), order, taken)
    ensures s'.items != [] ==> s'.items[0] == s'.accepted[order[0]]
    ensures s'.items != [] ==>
              forall k :: k in order && k != order[0] ==>
                if Fronts(s, steps, s', limited)[k] then k < order[0] && Fronts(s, steps, s', limited)[order[0]]
                else k > order[0] || Fronts(s, steps, s', limited)[order[0]]
  {
    var front := Fronts(s, steps, s', limited);
    order, taken := RunKeepsOrder(s, steps, s', limited, [], [], []);
    assert [] + front == front;
    forall k | s'.items != [] && k in order && k != order[0]
      ensures if front[k] then k < order[0] && front[order[0]] else k > order[0] || front[order[0]]
    {
      var i :| 0 <= i < |order| && order[i] == k;
    }
  }

  // ------------------------------------------------------------------ how a call ends

  /** There is a message to take, or a place for the one to send. */
  predicate CanGo<M>(s: Sys<M>, op: Op<M>) {
    match op
    case Send(_, pos) => |s.items| < s.length || pos == Overwrite
    case _ => s.items != []
  }

  /** What the critical section of a call does: its work if it can, nothing otherwise; then a
      call that may block goes on to block and any other returns. */
  lemma TryAnswers<M>(s: Sys<M>, t: TaskId, mayBlock: bool)
    requires Typed(s) && Enabled(s, Try(t, mayBlock))
    ensures var r, op := Next(s, Try(t, mayBlock)), s.pc[t].op;
            && r.pc[t] == (if CanGo(s, op) || !mayBlock then Outside else Suspending(op))
            && (CanGo(s, op) && op.Receive? ==> [s.items[0]] + r.items == s.items)
            && (!CanGo(s, op) || op.Peek? ==> r.items == s.items)
            && r.accepted == s.accepted + (if CanGo(s, op) && op.Send? then [op.msg] else [])
            && r.delivered == s.delivered + (if CanGo(s, op) && op.Receive? then [s.items[0]] else [])
  {
  }

  /** A call under way returns exactly when it did its work or might not block, when a sender
      whose time has expired resumes the scheduler, and when a receiver whose time has expired
      finds the queue empty once more. */
  lemma CallEndsExactly<M>(s: Sys<M>, step: Step<M>, t: TaskId)
    requires Typed(s) && Enabled(s, step) && t in s.pc && !s.pc[t].Outside?
    ensures t in Next(s, step).pc
    ensures Next(s, step).pc[t].Outside? <==>
              || (step.Try? && step.t == t && (CanGo(s, s.pc[t].op) || !step.mayBlock))
              || (step == ResumeAll(t) && s.pc[t].after == GiveUp && s.pc[t].op.Send?)
              || (step == Retest(t) && s.items == [])
  {
    match step
    case Try(u, mayBlock) => if u == t { TryAnswers(s, t, mayBlock); }
    case _ =>
  }

  /** A task puts itself on an event list exactly when, with the queue locked, there is still
      nothing for it: no message for a receiver, no place for a sender. */
  lemma BlocksExactlyWhenItMust<M>(s: Sys<M>, step: Step<M>, t: TaskId)
    requires Typed(s) && Enabled(s, step) && t in s.pc && !s.pc[t].Placing? && |s.items| <= s.length
    requires s.pc[t].Testing? ==> NotOverwriting(s.pc[t].op)
    ensures Next(s, step).pc[t].Placing? <==> step == Test(t) && !CanGo(s, s.pc[t].op)
  {
    match step
    case Try(u, mayBlock) => if u == t { TryAnswers(s, t, mayBlock); }
    case _ =>
  }

  /** On its way to sleep, or asleep. */
  predicate Settling<M>(p: Pc<M>) {
    p.Asleep? || ((p.UnlockingTx? || p.UnlockingRx? || p.Resuming?) && p.after == Sleep)
  }

  /** And it goes to sleep exactly when it has put itself on the list of its kind; one that
      found something after all tries again without sleeping. */
  lemma SleepsExactlyWhenPlaced<M>(s: Sys<M>, step: Step<M>, t: TaskId)
    requires Typed(s) && Enabled(s, step) && t in s.pc && !Settling(s.pc[t])
    ensures t in Next(s, step).pc && (Settling(Next(s, step).pc[t]) <==> step == Place(t))
    ensures step == Place(t) ==>
              t in if Receives(s.pc[t].op) then Next(s, step).rx.waiting else Next(s, step).tx.waiting
  {
    match step
    case Try(u, mayBlock) => if u == t { TryAnswers(s, t, mayBlock); }
    case Place(u) => PlacedOnList(s, u);
    case _ =>
  }

  lemma PlacedOnList<M>(s: Sys<M>, t: TaskId)
    requires Typed(s) && Enabled(s, Place(t))
    ensures t in if Receives(s.pc[t].op) then Next(s, Place(t)).rx.waiting else Next(s, Place(t)).tx.waiting
  {
    InsertMembers(s.rx.waiting, s.eventValue, t);
    InsertMembers(s.tx.waiting, s.eventValue, t);
  }

  predicate GivesUp<M>(p: Pc<M>) {
    p.Retesting? || ((p.UnlockingTx? || p.UnlockingRx? || p.Resuming?) && p.after == GiveUp)
  }

  /** A call gives up exactly when the check of its time says that it is over; the queue is
      not looked at before the scheduler runs again, and a sender does not look at all. */
  lemma GivesUpExactly<M>(s: Sys<M>, step: Step<M>, t: TaskId)
    requires Typed(s) && Enabled(s, step) && t in s.pc && !s.pc[t].Outside? && !GivesUp(s.pc[t])
    ensures t in Next(s, step).pc
    ensures GivesUp(Next(s, step).pc[t]) <==> step == CheckTimeOut(t, true)
  {
    match step
    case Try(u, mayBlock) => if u == t { TryAnswers(s, t, mayBlock); }
    case _ =>
  }

  /** A task whose time is over leaves the event list, behind nobody's back: the others keep
      their order, and it can run again. */
  lemma TimeOutTakesOff<M>(s: Sys<M>, t: TaskId)
    requires Inv(s) && Enabled(s, TimeOut(t))
    ensures var r := Next(s, TimeOut(t));
            && r.rx.waiting == Remove(s.rx.waiting, t) && r.tx.waiting == Remove(s.tx.waiting, t)
            && t !in r.rx.waiting && t !in r.tx.waiting && r.items == s.items
            && (t in s.pc && s.pc[t].Asleep? ==> Enabled(r, Wake(t)))
  {
    RemoveFacts(s.rx.waiting, t);
    RemoveFacts(s.tx.waiting, t);
  }

  /** The task may block and its time does not expire. */
  predicate Patient<M>(step: Step<M>, t: TaskId) {
    && (step.Try? && step.t == t ==> step.mayBlock)
    && (step.CheckTimeOut? && step.t == t ==> !step.expired)
  }

  lemma PatientGoesOn<M>(s: Sys<M>, step: Step<M>, t: TaskId)
    requires Typed(s) && Enabled(s, step) && t in s.pc && !s.pc[t].Outside? && !GivesUp(s.pc[t]) && Patient(step, t)
    ensures var r := Next(s, step);
            t in r.pc && !GivesUp(r.pc[t]) && (!r.pc[t].Outside? ==> r.pc[t].op == s.pc[t].op)
  {
    match step
    case Try(u, mayBlock) => if u == t { TryAnswers(s, t, mayBlock); }
    case _ =>
  }

  /** Somewhere on the run task t enters its critical section and can do its work. */
  ghost predicate Succeeds<M>(s: Sys<M>, steps: seq<Step<M>>, s': Sys<M>, t: TaskId, op: Op<M>, limited: bool)
    requires Run(s, steps, s', limited)
    decreases |steps|
  {
    steps != [] && (
      || (steps[0].Try? && steps[0].t == t && s.pc[t].op == op && CanGo(s, op))
      || Succeeds(Next(s, steps[0]), steps[1..], s', t, op, limited))
  }

  /** A call that may block for as long as it takes returns only when it has done its work,
      however often it is woken for nothing and whoever gets in between. */
  lemma {:induction false} PatientCallSucceeds<M>(s: Sys<M>, steps: seq<Step<M>>, s': Sys<M>, t: TaskId, limited: bool)
    requires Run(s, steps, s', limited) && t in s.pc && !s.pc[t].Outside? && !GivesUp(s.pc[t])
    requires forall i :: 0 <= i < |steps| ==> Patient(steps[i], t)
    requires t in s'.pc && s'.pc[t].Outside?
    ensures Succeeds(s, steps, s', t, s.pc[t].op, limited)
    decreases |steps|
  {
    if steps != [] {
      var r := Next(s, steps[0]);
      CallEndsExactly(s, steps[0], t);
      PatientGoesOn(s, steps[0], t);
      if !r.pc[t].Outside? { PatientCallSucceeds(r, steps[1..], s', t, limited); }
    }
  }
}
