/** Where the no-lost-wake-up property stops: the width of the lock counts, and reset. */
module QueueLimits {
  import opened Common
  import opened Lists
  import opened QueueProtocol

  lemma {:induction false} RunThen<M>(s: Sys<M>, steps: seq<Step<M>>, mid: Sys<M>, step: Step<M>)
    requires Run(s, steps, mid, false) && Typed(mid) && Enabled(mid, step)
    ensures Run(s, steps + [step], Next(mid, step), false)
    decreases |steps|
  {
    if steps == [] {
      assert Run(Next(mid, step), [], Next(mid, step), false);
    } else {
      RunThen(Next(s, steps[0]), steps[1..], mid, step);
      assert (steps + [step])[1..] == steps[1..] + [step];
    }
  }

  /** An interrupt's send on a locked queue keeps the receivers' wake-ups safe exactly when
      the count has not reached 127, or nobody waits, or the tasks already woken cover
      the messages. */
  lemma IsrSendSafeExactly<M>(s: Sys<M>, m: M)
    requires Inv(s) && s.rx.lock >= 0 && HasRoom(s, Back)
    ensures var s' := Next(s, IsrSend(m, Back));
            s'.rx.Safe(|s'.items|) <==> s.rx.lock < 127 || s.rx.waiting == [] || |s.items| + 1 <= |s.rx.woken|
  {
    if s.rx.lock < 127 {
      SignalFromIsrSafe(s.rx, |s.items|);
    } else {
      assert s.rx.SignalFromIsr().lock == -128;
    }
  }

  /** The same for an interrupt's receive and the senders. */
  lemma IsrReceiveSafeExactly<M>(s: Sys<M>)
    requires Inv(s) && s.tx.lock >= 0 && s.items != []
    ensures var s' := Next(s, IsrReceive);
            s'.tx.Safe(s'.length - |s'.items|) <==>
              s.tx.lock < 127 || s.tx.waiting == [] || s.length - |s.items| + 1 <= |s.tx.woken|
  {
    if s.tx.lock < 127 {
      SignalFromIsrSafe(s.tx, s.length - |s.items|);
    } else {
      assert s.tx.SignalFromIsr().lock == -128;
    }
  }

  /** The state after k interrupt sends on a locked queue. */
  function Filled<M>(s: Sys<M>, m: M, k: nat): Sys<M> {
    if k == 0 then s else IsrSendStep(Filled(s, m, k - 1), m, Back)
  }

  lemma {:induction false} FilledRun<M>(s0: Sys<M>, steps: seq<Step<M>>, s: Sys<M>, m: M, k: nat)
    returns (steps': seq<Step<M>>)
    requires Run(s0, steps, s, false) && Typed(s) && s.items == [] && s.rx.lock == 0 && k <= s.length && k <= 128
    ensures Run(s0, steps', Filled(s, m, k), false)
    ensures var f := Filled(s, m, k);
            f.(items := [], accepted := [], rx := s.rx) == s.(items := [], accepted := [])
            && |f.items| == k && f.rx == s.rx.(lock := Int8(k))
  {
    if k == 0 {
      steps' := steps;
    } else {
      var before := FilledRun(s0, steps, s, m, k - 1);
      RunThen(s0, before, Filled(s, m, k - 1), IsrSend(m, Back));
      steps' := before + [IsrSend(m, Back)];
    }
  }

  function Fresh<M>(length: nat): Sys<M> {
    Sys([], length, Side(UNLOCKED, [], {}), Side(UNLOCKED, [], {}), None, map[0 := Outside], map[0 := 0], [], [])
  }

  /** The receiver has found the queue empty and locked it. */
  lemma ReceiverLocked<M>(length: nat) returns (steps: seq<Step<M>>, s: Sys<M>)
    ensures Run(Fresh<M>(length), steps, s, false)
    ensures s == Fresh<M>(length).(rx := Side(0, [], {}), tx := Side(0, [], {}), suspendedBy := Some(0),
            pc := map[0 := Checking(Receive)])
  {
    var f := Fresh<M>(length);
    RunThen(f, [], f, Begin(0, Receive));
    var s1 := f.(pc := map[0 := Trying(Receive)]);
    assert Next(f, Begin(0, Receive)) == s1;
    RunThen(f, [] + [Begin(0, Receive)], s1, Try(0, true));
    var s2 := f.(pc := map[0 := Suspending(Receive)]);
    assert Next(s1, Try(0, true)) == s2;
    RunThen(f, [] + [Begin(0, Receive)] + [Try(0, true)], s2, SuspendAll(0));
    var s3 := f.(suspendedBy := Some(0), pc := map[0 := Locking(Receive)]);
    assert Next(s2, SuspendAll(0)) == s3;
    RunThen(f, [] + [Begin(0, Receive)] + [Try(0, true)] + [SuspendAll(0)], s3, Lock(0));
    steps, s := [] + [Begin(0, Receive)] + [Try(0, true)] + [SuspendAll(0)] + [Lock(0)], Next(s3, Lock(0));
  }

  /** The receiver has gone onto the event list; the queue is still locked. */
  lemma ReceiverPlaced<M>(length: nat) returns (steps: seq<Step<M>>, s: Sys<M>)
    ensures Run(Fresh<M>(length), steps, s, false) && Typed(s)
    ensures s == Fresh<M>(length).(rx := Side(0, [0], {}), tx := Side(0, [], {}), suspendedBy := Some(0),
            pc := map[0 := UnlockingTx(Receive, Sleep)])
  {
    var f := Fresh<M>(length);
    var before, s4 := ReceiverLocked<M>(length);
    RunThen(f, before, s4, CheckTimeOut(0, false));
    var s5 := s4.(pc := map[0 := Testing(Receive)]);
    assert Next(s4, CheckTimeOut(0, false)) == s5;
    RunThen(f, before + [CheckTimeOut(0, false)], s5, Test(0));
    var s6 := s4.(pc := map[0 := Placing(Receive)]);
    assert Next(s5, Test(0)) == s6;
    RunThen(f, before + [CheckTimeOut(0, false)] + [Test(0)], s6, Place(0));
    steps, s := before + [CheckTimeOut(0, false)] + [Test(0)] + [Place(0)], Next(s6, Place(0));
  }

  /** Unlocking with a negative count wakes nobody. */
  lemma WrappedUnlock<M>(f: Sys<M>, before: seq<Step<M>>, s: Sys<M>) returns (steps: seq<Step<M>>, s': Sys<M>)
    requires Run(f, before, s, false) && Typed(s)
    requires s.suspendedBy == Some(0) && 0 in s.pc && s.pc[0] == UnlockingTx(Receive, Sleep)
    requires s.rx == Side(-128, [0], {}) && s.tx == Side(0, [], {})
    ensures Run(f, steps, s', false)
    ensures s'.rx == Side(UNLOCKED, [0], {}) && s'.items == s.items && s'.suspendedBy == None
  {
    RunThen(f, before, s, UnlockTx(0));
    var s2 := Next(s, UnlockTx(0));
    RunThen(f, before + [UnlockTx(0)], s2, UnlockRx(0));
    var s3 := Next(s2, UnlockRx(0));
    RunThen(f, before + [UnlockTx(0)] + [UnlockRx(0)], s3, ResumeAll(0));
    steps, s' := before + [UnlockTx(0)] + [UnlockRx(0)] + [ResumeAll(0)], Next(s3, ResumeAll(0));
  }

  /** With 128 interrupt sends in one lock period the count wraps to -128, unlocking wakes
      nobody, and a receiver sleeps on a queue holding 128 messages. */
  lemma LockCountWraps<M>(length: nat, m: M) returns (steps: seq<Step<M>>, s: Sys<M>)
    requires length >= 128
    ensures Initial(Fresh<M>(length)) && Run(Fresh<M>(length), steps, s, false)
    ensures s.suspendedBy == None && s.rx == Side(UNLOCKED, [0], {}) && |s.items| == 128
    ensures !s.rx.Safe(|s.items|)
  {
    var f := Fresh<M>(length);
    var before, placed := ReceiverPlaced<M>(length);
    var filled := FilledRun(f, before, placed, m, 128);
    steps, s := WrappedUnlock(f, filled, Filled(placed, m, 128));
  }

  /** `xQueueGenericReset` of a live queue: it empties the queue but wakes one sender. */
  function Reset<M>(s: Sys<M>): Sys<M> {
    s.(items := [], rx := s.rx.(lock := UNLOCKED), tx := s.tx.(lock := UNLOCKED).WakeOne())
  }

  /** After a reset the senders' wake-ups are safe exactly when at most one sender waited
      or the woken ones, with the one reset wakes, cover the whole length. */
  lemma ResetSafeExactly<M>(s: Sys<M>)
    requires Inv(s) && s.suspendedBy == None
    ensures Reset(s).rx.Safe(|Reset(s).items|)
    ensures Reset(s).tx.Safe(s.length - |Reset(s).items|) <==> |s.tx.waiting| <= 1 || s.length <= |s.tx.woken| + 1
  {
    if s.tx.waiting != [] {
      assert |s.tx.woken + {s.tx.waiting[0]}| == |s.tx.woken| + 1;
    }
  }

  /** Two tasks outside any call, a queue of length two. */
  function TwoSenders<M>(): Sys<M> {
    Sys([], 2, Side(UNLOCKED, [], {}), Side(UNLOCKED, [], {}), None, map[1 := Outside, 2 := Outside],
      map[1 := 0, 2 := 0], [], [])
  }

  /** A run so far, and the state it has come to. */
  ghost predicate Reaches<M>(f: Sys<M>, steps: seq<Step<M>>, s: Sys<M>) {
    Run(f, steps, s, false) && Typed(s)
  }

  /** The next step, and what it leads to. */
  lemma Then<M>(f: Sys<M>, steps: seq<Step<M>>, s: Sys<M>, step: Step<M>, s': Sys<M>)
    requires Reaches(f, steps, s) && Enabled(s, step) && Next(s, step) == s' && Typed(s')
    ensures Reaches(f, steps + [step], s')
  {
    RunThen(f, steps, s, step);
  }

  /** A full queue, nobody in a lock period, no receiver waiting, and sender t outside. */
  predicate FullFor<M>(s: Sys<M>, t: TaskId) {
    && |s.items| == s.length && s.suspendedBy == None && t in s.pc && s.pc[t].Outside?
    && s.rx == Side(UNLOCKED, [], {}) && s.tx.lock == UNLOCKED && s.tx.woken == {}
  }

  /** A sender finds the queue full and locks it. */
  lemma SenderLocks<M>(f: Sys<M>, before: seq<Step<M>>, s: Sys<M>, t: TaskId, m: M)
    returns (steps: seq<Step<M>>, s': Sys<M>)
    requires Reaches(f, before, s) && FullFor(s, t)
    ensures Reaches(f, steps, s')
    ensures s' == s.(suspendedBy := Some(t), pc := s.pc[t := Checking(Send(m, Back))],
                     rx := s.rx.(lock := 0), tx := s.tx.(lock := 0))
  {
    var op := Send(m, Back);
    Then(f, before, s, Begin(t, op), s.(pc := s.pc[t := Trying(op)]));
    Then(f, before + [Begin(t, op)], s.(pc := s.pc[t := Trying(op)]), Try(t, true),
      s.(pc := s.pc[t := Suspending(op)]));
    steps := before + [Begin(t, op)] + [Try(t, true)];
    var s3 := s.(suspendedBy := Some(t), pc := s.pc[t := Locking(op)]);
    Then(f, steps, s.(pc := s.pc[t := Suspending(op)]), SuspendAll(t), s3);
    s' := s.(suspendedBy := Some(t), pc := s.pc[t := Checking(op)], rx := s.rx.(lock := 0), tx := s.tx.(lock := 0));
    Then(f, steps + [SuspendAll(t)], s3, Lock(t), s');
    steps := steps + [SuspendAll(t)] + [Lock(t)];
  }

  /** It finds the queue full again and goes onto the event list. */
  lemma SenderPlaced<M>(f: Sys<M>, before: seq<Step<M>>, s: Sys<M>, t: TaskId, m: M)
    returns (steps: seq<Step<M>>, s': Sys<M>)
    requires Reaches(f, before, s) && |s.items| == s.length && s.suspendedBy == Some(t) && t in s.pc
    requires s.pc[t] == Checking(Send(m, Back))
    ensures Reaches(f, steps, s') && t in s.eventValue && Valued(s.tx.waiting, s.eventValue)
    ensures s' == s.(pc := s.pc[t := UnlockingTx(Send(m, Back), Sleep)],
                     tx := s.tx.(waiting := Insert(s.tx.waiting, s.eventValue, t)))
  {
    var op := Send(m, Back);
    var s1 := s.(pc := s.pc[t := Testing(op)]);
    Then(f, before, s, CheckTimeOut(t, false), s1);
    var s2 := s.(pc := s.pc[t := Placing(op)]);
    Then(f, before + [CheckTimeOut(t, false)], s1, Test(t), s2);
    steps := before + [CheckTimeOut(t, false)] + [Test(t)];
    InsertMembers(s.tx.waiting, s.eventValue, t);
    s' := s.(pc := s.pc[t := UnlockingTx(op, Sleep)], tx := s.tx.(waiting := Insert(s.tx.waiting, s.eventValue, t)));
    Then(f, steps, s2, Place(t), s');
    steps := steps + [Place(t)];
  }

  /** It unlocks the queue and sleeps. */
  lemma SenderSleeps<M>(f: Sys<M>, before: seq<Step<M>>, s: Sys<M>, t: TaskId, m: M)
    returns (steps: seq<Step<M>>, s': Sys<M>)
    requires Reaches(f, before, s) && s.suspendedBy == Some(t) && t in s.pc
    requires s.pc[t] == UnlockingTx(Send(m, Back), Sleep) && s.rx == Side(0, [], {}) && s.tx.lock == 0
    ensures Reaches(f, steps, s')
    ensures s' == s.(suspendedBy := None, pc := s.pc[t := Asleep(Send(m, Back))], rx := Side(UNLOCKED, [], {}),
                     tx := s.tx.(lock := UNLOCKED))
  {
    var op := Send(m, Back);
    var s1 := s.(pc := s.pc[t := UnlockingRx(op, Sleep)], rx := Side(UNLOCKED, [], {}));
    Then(f, before, s, UnlockTx(t), s1);
    var s2 := s1.(pc := s.pc[t := Resuming(op, Sleep)], tx := s.tx.(lock := UNLOCKED));
    Then(f, before + [UnlockTx(t)], s1, UnlockRx(t), s2);
    steps := before + [UnlockTx(t)] + [UnlockRx(t)];
    s' := s2.(suspendedBy := None, pc := s.pc[t := Asleep(op)]);
    Then(f, steps, s2, ResumeAll(t), s');
    steps := steps + [ResumeAll(t)];
  }

  /** The whole of a send that blocks. */
  lemma SenderBlocks<M>(f: Sys<M>, before: seq<Step<M>>, s: Sys<M>, t: TaskId, m: M)
    returns (steps: seq<Step<M>>, s': Sys<M>)
    requires Reaches(f, before, s) && FullFor(s, t)
    ensures Reaches(f, steps, s') && t in s.eventValue && Valued(s.tx.waiting, s.eventValue)
    ensures s' == s.(pc := s.pc[t := Asleep(Send(m, Back))],
            tx := s.tx.(waiting := Insert(s.tx.waiting, s.eventValue, t)))
  {
    steps, s' := SenderLocks(f, before, s, t, m);
    steps, s' := SenderPlaced(f, steps, s', t, m);
    steps, s' := SenderSleeps(f, steps, s', t, m);
  }

  lemma QueueFilled<M>(a: M, b: M) returns (steps: seq<Step<M>>, s: Sys<M>)
    ensures Reaches(TwoSenders<M>(), steps, s) && s == TwoSenders<M>().(items := [a, b], accepted := [a, b])
  {
    var f := TwoSenders<M>();
    Then(f, [], f, IsrSend(a, Back), f.(items := [a], accepted := [a]));
    s := f.(items := [a, b], accepted := [a, b]);
    Then(f, [] + [IsrSend(a, Back)], f.(items := [a], accepted := [a]), IsrSend(b, Back), s);
    steps := [] + [IsrSend(a, Back)] + [IsrSend(b, Back)];
  }

  /** Two interrupts fill the queue and two senders block on it; after a reset one of them
      still sleeps, with two slots free and only one sender woken. */
  lemma ResetStrandsSender<M>(a: M, b: M) returns (steps: seq<Step<M>>, s: Sys<M>)
    ensures Initial(TwoSenders<M>()) && Run(TwoSenders<M>(), steps, s, false)
    ensures s.items == [a, b] && s.tx == Side(UNLOCKED, [1, 2], {}) && s.suspendedBy == None
    ensures Reset(s).items == [] && Reset(s).tx == Side(UNLOCKED, [2], {1}) && !Reset(s).tx.Safe(2)
  {
    steps, s := QueueFilled(a, b);
    steps, s := SenderBlocks(TwoSenders<M>(), steps, s, 1, a);
    assert s.tx.waiting == [1];
    steps, s := SenderBlocks(TwoSenders<M>(), steps, s, 2, b);
    assert s.tx.waiting == [1, 2] by { InsertGreatest([1], s.eventValue, 2); }
  }
}
