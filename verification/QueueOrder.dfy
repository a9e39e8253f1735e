/** What the queue protocol keeps about order: messages come out in the order they went
    in, and the task woken is always one of the highest priority among those waiting. */
module QueueOrder {
  import opened Common
  import opened Lists
  import opened QueueProtocol

  predicate SendsToBack<M>(p: Pc<M>) {
    !p.Outside? && p.op.Send? ==> p.op.pos == Back
  }

  ghost predicate InOrder<M>(s: Sys<M>) {
    && s.accepted == s.delivered + s.items
    && (forall t :: t in s.pc ==> SendsToBack(s.pc[t]))
  }

  predicate BackStep<M>(step: Step<M>) {
    match step
    case Begin(_, op) => op.Send? ==> op.pos == Back
    case IsrSend(_, pos) => pos == Back
    case _ => true
  }

  lemma TryKeepsOrder<M>(s: Sys<M>, t: TaskId, mayBlock: bool)
    requires Typed(s) && Enabled(s, Try(t, mayBlock)) && InOrder(s)
    ensures InOrder(Next(s, Try(t, mayBlock)))
  {
    assert SendsToBack(s.pc[t]);
    TryStepKeepsOrder(s, t, s.pc[t].op, mayBlock);
  }

  lemma TryStepKeepsOrder<M>(s: Sys<M>, t: TaskId, op: Op<M>, mayBlock: bool)
    requires InOrder(s) && (op.Send? ==> op.pos == Back)
    ensures InOrder(TryStep(s, t, op, mayBlock))
  {
    match op
    case Send(m, _) =>
      assert s.accepted + [m] == s.delivered + (s.items + [m]);
    case Receive =>
      if s.items != [] { assert s.accepted == s.delivered + [s.items[0]] + s.items[1..]; }
    case Peek =>
  }

  lemma StepKeepsOrder<M>(s: Sys<M>, step: Step<M>)
    requires Typed(s) && Enabled(s, step) && InOrder(s) && BackStep(step)
    ensures InOrder(Next(s, step))
  {
    if step.Try? {
      TryKeepsOrder(s, step.t, step.mayBlock);
    } else if step.IsrReceive? && s.items != [] {
      assert s.items == [s.items[0]] + s.items[1..];
    }
  }

  /** First in, first out: with sends to the back only, in every reachable state the
      messages accepted are those delivered followed by those still queued. */
  lemma {:induction false} FirstInFirstOut<M>(s: Sys<M>, steps: seq<Step<M>>, s': Sys<M>, limited: bool)
    requires InOrder(s) && Run(s, steps, s', limited)
    requires forall i :: 0 <= i < |steps| ==> BackStep(steps[i])
    ensures s'.accepted == s'.delivered + s'.items
    decreases |steps|
  {
    if steps != [] {
      StepKeepsOrder(s, steps[0]);
      FirstInFirstOut(Next(s, steps[0]), steps[1..], s', limited);
    }
  }

  ghost predicate ByPriority(side: Side, v: map<TaskId, nat>) {
    Valued(side.waiting, v) && Sorted(side.waiting, v)
  }

  lemma WakeOneByPriority(side: Side, v: map<TaskId, nat>)
    requires ByPriority(side, v)
    ensures ByPriority(side.WakeOne(), v)
  {
  }

  lemma SignalByPriority(side: Side, v: map<TaskId, nat>)
    requires ByPriority(side, v)
    ensures ByPriority(side.SignalFromIsr(), v)
  {
    WakeOneByPriority(side, v);
  }

  lemma {:induction false} UnlockByPriority(side: Side, v: map<TaskId, nat>)
    requires ByPriority(side, v)
    ensures ByPriority(side.Unlock(), v)
    decreases Max0(side.lock)
  {
    if side.lock > LOCKED_UNMODIFIED && side.waiting != [] {
      UnlockByPriority(side.WakeOne().(lock := side.lock - 1), v);
    }
  }

  lemma TimeOutByPriority(side: Side, v: map<TaskId, nat>, t: TaskId)
    requires side.Valid() && ByPriority(side, v)
    ensures ByPriority(side.TimeOut(t), v)
  {
    RemoveSorted(side.waiting, v, t);
  }

  lemma PlaceByPriority(side: Side, v: map<TaskId, nat>, t: TaskId)
    requires ByPriority(side, v) && t in v
    ensures ByPriority(side.(waiting := Insert(side.waiting, v, t)), v)
  {
    InsertSorted(side.waiting, v, t);
  }

  /** The event lists of a system, each kept in priority order. */
  ghost predicate Prioritised<M>(s: Sys<M>) {
    ByPriority(s.rx, s.eventValue) && ByPriority(s.tx, s.eventValue)
  }

  lemma PlaceKeepsPriority<M>(s: Sys<M>, t: TaskId)
    requires Inv(s) && Enabled(s, Place(t)) && Prioritised(s)
    ensures Prioritised(Next(s, Place(t)))
  {
    PlaceByPriority(s.rx, s.eventValue, t);
    PlaceByPriority(s.tx, s.eventValue, t);
  }

  lemma TryKeepsPriority<M>(s: Sys<M>, t: TaskId, mayBlock: bool)
    requires Typed(s) && Enabled(s, Try(t, mayBlock)) && Prioritised(s)
    ensures Prioritised(Next(s, Try(t, mayBlock)))
  {
    WakeOneByPriority(s.rx, s.eventValue);
    WakeOneByPriority(s.tx, s.eventValue);
    WakeOneByPriority(s.rx.Retried(t), s.eventValue);
    WakeOneByPriority(s.tx.Retried(t), s.eventValue);
  }

  lemma StepKeepsPriority<M>(s: Sys<M>, step: Step<M>)
    requires Inv(s) && Enabled(s, step) && Prioritised(s)
    ensures Prioritised(Next(s, step))
  {
    match step
    case Try(t, mayBlock) => TryKeepsPriority(s, t, mayBlock);
    case Place(t) => PlaceKeepsPriority(s, t);
    case UnlockTx(_) => UnlockByPriority(s.rx, s.eventValue);
    case UnlockRx(_) => UnlockByPriority(s.tx, s.eventValue);
    case TimeOut(t) =>
      TimeOutByPriority(s.rx, s.eventValue, t);
      TimeOutByPriority(s.tx, s.eventValue, t);
    case IsrSend(_, _) => SignalByPriority(s.rx, s.eventValue);
    case IsrReceive => SignalByPriority(s.tx, s.eventValue);
    case _ => QuietStepKeepsPriority(s, step);
  }

  /** The steps that move nobody on the event lists. */
  lemma QuietStepKeepsPriority<M>(s: Sys<M>, step: Step<M>)
    requires Typed(s) && Enabled(s, step) && Prioritised(s)
    requires !step.Try? && !step.Place? && !step.UnlockTx? && !step.UnlockRx? && !step.TimeOut? && !step.IsrSend?
    requires !step.IsrReceive?
    ensures Prioritised(Next(s, step))
  {
    var r := Next(s, step);
    assert r.rx.waiting == s.rx.waiting && r.tx.waiting == s.tx.waiting && r.eventValue == s.eventValue;
  }

  lemma {:induction false} RunKeepsPriority<M>(s: Sys<M>, steps: seq<Step<M>>, s': Sys<M>)
    requires Inv(s) && Run(s, steps, s', true) && Prioritised(s)
    ensures Prioritised(s')
    decreases |steps|
  {
    if steps != [] {
      var next := Next(s, steps[0]);
      assert Prioritised(next) by { StepKeepsPriority(s, steps[0]); }
      assert Inv(next) by { StepKeepsInv(s, steps[0]); }
      RunKeepsPriority(next, steps[1..], s');
    }
  }

  /** In every reachable state the next task to be woken, on either side, has a priority
      no other waiting task exceeds. */
  lemma WakesHighestPriority<M>(s: Sys<M>, steps: seq<Step<M>>, s': Sys<M>)
    requires Initial(s) && Run(s, steps, s', true)
    ensures Valued(s'.rx.waiting, s'.eventValue) && Valued(s'.tx.waiting, s'.eventValue)
    ensures forall t :: t in s'.rx.waiting ==> s'.eventValue[s'.rx.waiting[0]] <= s'.eventValue[t]
    ensures forall t :: t in s'.tx.waiting ==> s'.eventValue[s'.tx.waiting[0]] <= s'.eventValue[t]
  {
    RunKeepsPriority(s, steps, s');
  }
}
