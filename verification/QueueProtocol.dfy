/** Blocking on a queue: the protocol between tasks and interrupts of queue.c.

    Every critical section is one step.  While a task has the scheduler suspended no
    other task runs, but interrupts may run between any two of its steps; on a locked
    queue they count what they could not signal.  Which task runs next and when a block
    time expires are left open, so the results hold for every schedule and timeout. */
module QueueProtocol {
  import opened Common
  import opened Lists

  const UNLOCKED := -1            // queueUNLOCKED
  const LOCKED_UNMODIFIED := 0    // queueLOCKED_UNMODIFIED

  /** The lock counts are `int8_t`: storing 128 stores -128. */
  function Int8(x: int): (r: int)
    ensures -128 <= r <= 127
    ensures -128 <= x <= 127 ==> r == x
  {
    (x + 128) % 256 - 128
  }

  function Max0(x: int): nat {
    if x > 0 then x else 0
  }

  // ------------------------------------------------------------------ one direction

  /** The tasks waiting for one kind of unit, messages for receivers or free slots for
      senders: the count of unsignalled additions (`cTxLock`, dually `cRxLock`), the
      event list, and the tasks an event has taken off it that have not yet retried. */
  datatype Side = Side(lock: int, waiting: seq<TaskId>, woken: set<TaskId>) {

    /** No wake-up is lost: while tasks wait, each of the `avail` units is spoken for by
        a woken task or by a counted signal. */
    ghost predicate Safe(avail: int) {
      waiting != [] ==> avail <= |woken| + Max0(lock)
    }

    ghost predicate Valid() {
      && Distinct(waiting)
      && (forall t :: t in waiting ==> t !in woken)
      && -1 <= lock <= 127
    }

    /** `xTaskRemoveFromEventList` unless the event list is empty. */
    function WakeOne(): Side {
      if waiting == [] then this
      else this.(waiting := waiting[1..], woken := woken + {waiting[0]})
    }

    /** An interrupt signals one unit: directly, or in the count of a locked queue. */
    function SignalFromIsr(): Side {
      if lock == UNLOCKED then WakeOne() else this.(lock := Int8(lock + 1))
    }

    /** Half of `prvUnlockQueue`: one wake-up for each counted signal, while tasks wait. */
    function Unlock(): Side
      decreases Max0(lock)
    {
      if lock > LOCKED_UNMODIFIED && waiting != [] then WakeOne().(lock := lock - 1).Unlock()
      else this.(lock := UNLOCKED)
    }

    /** Half of `prvLockQueue`. */
    function Lock(): Side {
      if lock == UNLOCKED then this.(lock := LOCKED_UNMODIFIED) else this
    }

    /** The tick takes a task whose block time has expired off the event list. */
    function TimeOut(t: TaskId): Side {
      this.(waiting := Remove(waiting, t))
    }

    function Retried(t: TaskId): Side {
      this.(woken := woken - {t})
    }
  }

  lemma WakeOneSafe(s: Side, avail: int)
    requires s.Valid() && (s.waiting != [] ==> avail <= |s.woken| + 1 + Max0(s.lock))
    ensures s.WakeOne().Valid() && s.WakeOne().Safe(avail) && s.WakeOne().lock == s.lock
  {
  }

  lemma {:induction false} UnlockSafe(s: Side, avail: int)
    requires s.Valid() && s.Safe(avail)
    ensures s.Unlock().Valid() && s.Unlock().Safe(avail) && s.Unlock().lock == UNLOCKED
    ensures forall t :: t in s.Unlock().waiting ==> t in s.waiting
    ensures forall t :: t in s.Unlock().woken ==> t in s.woken || t in s.waiting
    decreases Max0(s.lock)
  {
    if s.lock > 0 && s.waiting != [] {
      UnlockSafe(s.WakeOne().(lock := s.lock - 1), avail);
    }
  }

  /** A counted or direct signal for one more unit. */
  lemma SignalFromIsrSafe(s: Side, avail: int)
    requires s.Valid() && s.Safe(avail) && s.lock < 127
    ensures s.SignalFromIsr().Valid() && s.SignalFromIsr().Safe(avail + 1)
  {
  }

  lemma TimeOutSafe(s: Side, t: TaskId, avail: int)
    requires s.Valid() && s.Safe(avail)
    ensures s.TimeOut(t).Valid() && s.TimeOut(t).Safe(avail)
  {
    RemoveFacts(s.waiting, t);
  }

  // ------------------------------------------------------------------ the system

  datatype Position = Back | Front | Overwrite

  datatype Op<M> = Receive | Peek | Send(msg: M, pos: Position)

  datatype After = Sleep | Retry | GiveUp

  /** Where a task is inside a blocking call. */
  datatype Pc<M> =
    | Outside
    | Trying(op: Op<M>)                    // about to enter the critical section of the loop
    | Suspending(op: Op<M>)                // found nothing, about to suspend the scheduler
    | Locking(op: Op<M>)                   // scheduler suspended, about to lock the queue
    | Checking(op: Op<M>)                  // about to check the timeout
    | Testing(op: Op<M>)                   // about to test empty or full again
    | Placing(op: Op<M>)                   // tested positive, about to go onto the event list
    | UnlockingTx(op: Op<M>, after: After)
    | UnlockingRx(op: Op<M>, after: After)
    | Resuming(op: Op<M>, after: After)    // about to resume the scheduler
    | Asleep(op: Op<M>)                    // blocked, or woken and not yet running
    | Retesting(op: Op<M>)                 // timed out, about to test empty once more

  /** `rx.lock` is `cTxLock` and `tx.lock` is `cRxLock`; `eventValue` is the value of each
      task's event list item, smaller for higher priority.  `accepted` and `delivered`
      record the messages sent and received. */
  datatype Sys<M> = Sys(
    items: seq<M>,
    length: nat,
    rx: Side,
    tx: Side,
    suspendedBy: Option<TaskId>,
    pc: map<TaskId, Pc<M>>,
    eventValue: map<TaskId, nat>,
    accepted: seq<M>,
    delivered: seq<M>
  )

  /** The deque `prvCopyDataToQueue` maintains. */
  function Put<M>(items: seq<M>, m: M, pos: Position): seq<M> {
    match pos
    case Back => items + [m]
    case Front => [m] + items
    case Overwrite => [m]
  }

  datatype Step<M> =
    | Begin(t: TaskId, op: Op<M>)
    | Try(t: TaskId, mayBlock: bool)
    | SuspendAll(t: TaskId)
    | Lock(t: TaskId)
    | CheckTimeOut(t: TaskId, expired: bool)
    | Test(t: TaskId)
    | Place(t: TaskId)
    | UnlockTx(t: TaskId)
    | UnlockRx(t: TaskId)
    | ResumeAll(t: TaskId)
    | Wake(t: TaskId)
    | Retest(t: TaskId)
    | TimeOut(t: TaskId)
    | IsrSend(msg: M, pos: Position)
    | IsrReceive

  predicate Receives<M>(op: Op<M>) {
    !op.Send?
  }

  /** `Overwrite` is for queues of length one. */
  predicate Legal<M>(s: Sys<M>, op: Op<M>) {
    op.Send? && op.pos == Overwrite ==> s.length == 1
  }

  predicate Enabled<M>(s: Sys<M>, step: Step<M>) {
    match step
    case Begin(t, op) => s.suspendedBy == None && t in s.pc && s.pc[t].Outside? && Legal(s, op)
    case Try(t, _) => s.suspendedBy == None && t in s.pc && s.pc[t].Trying?
    case SuspendAll(t) => s.suspendedBy == None && t in s.pc && s.pc[t].Suspending?
    case Lock(t) => s.suspendedBy == Some(t) && t in s.pc && s.pc[t].Locking?
    case CheckTimeOut(t, _) => s.suspendedBy == Some(t) && t in s.pc && s.pc[t].Checking?
    case Test(t) => s.suspendedBy == Some(t) && t in s.pc && s.pc[t].Testing?
    case Place(t) => s.suspendedBy == Some(t) && t in s.pc && s.pc[t].Placing?
    case UnlockTx(t) => s.suspendedBy == Some(t) && t in s.pc && s.pc[t].UnlockingTx?
    case UnlockRx(t) => s.suspendedBy == Some(t) && t in s.pc && s.pc[t].UnlockingRx?
    case ResumeAll(t) => s.suspendedBy == Some(t) && t in s.pc && s.pc[t].Resuming?
    case Wake(t) => s.suspendedBy == None && t in s.pc && s.pc[t].Asleep? && t !in s.rx.waiting && t !in s.tx.waiting
    case Retest(t) => s.suspendedBy == None && t in s.pc && s.pc[t].Retesting?
    case TimeOut(t) => s.suspendedBy == None && (t in s.rx.waiting || t in s.tx.waiting)
    case IsrSend(m, pos) => pos == Overwrite ==> s.length == 1
    case IsrReceive => true
  }

  function Goto<M>(s: Sys<M>, t: TaskId, p: Pc<M>): Sys<M> {
    s.(pc := s.pc[t := p])
  }

  predicate HasRoom<M>(s: Sys<M>, pos: Position) {
    |s.items| < s.length || pos == Overwrite
  }

  /** A successful send in a task's critical section. */
  function Deposit<M>(s: Sys<M>, m: M, pos: Position): Sys<M> {
    s.(items := Put(s.items, m, pos), accepted := s.accepted + [m], rx := s.rx.WakeOne())
  }

  function Withdraw<M>(s: Sys<M>): Sys<M>
    requires s.items != []
  {
    s.(items := s.items[1..], delivered := s.delivered + [s.items[0]], tx := s.tx.WakeOne())
  }

  /** The critical section at the head of the loop of `xQueueGenericSend`,
      `xQueueReceive` and `xQueuePeek`. */
  function TryStep<M>(s: Sys<M>, t: TaskId, op: Op<M>, mayBlock: bool): Sys<M> {
    var failed := if mayBlock then Suspending(op) else Outside;
    match op
    case Send(m, pos) =>
      var r := s.(tx := s.tx.Retried(t));
      if HasRoom(s, pos) then Goto(Deposit(r, m, pos), t, Outside) else Goto(r, t, failed)
    case Receive =>
      var r := s.(rx := s.rx.Retried(t));
      if s.items != [] then Goto(Withdraw(r), t, Outside) else Goto(r, t, failed)
    case Peek =>
      var r := s.(rx := s.rx.Retried(t));
      if s.items != [] then Goto(r.(rx := r.rx.WakeOne()), t, Outside) else Goto(r, t, failed)
  }

  /** `prvIsQueueEmpty` for a receiver, `prvIsQueueFull` for a sender. */
  predicate MustWait<M>(s: Sys<M>, op: Op<M>) {
    if Receives(op) then s.items == [] else |s.items| == s.length
  }

  function PlaceStep<M>(s: Sys<M>, t: TaskId, op: Op<M>): Sys<M>
    requires Valued(s.rx.waiting, s.eventValue) && Valued(s.tx.waiting, s.eventValue) && t in s.eventValue
  {
    if Receives(op) then s.(rx := s.rx.(waiting := Insert(s.rx.waiting, s.eventValue, t)))
    else s.(tx := s.tx.(waiting := Insert(s.tx.waiting, s.eventValue, t)))
  }

  /** `xQueueGenericSendFromISR` and, for items of no size, `xQueueGiveFromISR`. */
  function IsrSendStep<M>(s: Sys<M>, m: M, pos: Position): Sys<M> {
    if HasRoom(s, pos) then
      s.(items := Put(s.items, m, pos), accepted := s.accepted + [m], rx := s.rx.SignalFromIsr())
    else s
  }

  /** `xQueueReceiveFromISR`. */
  function IsrReceiveStep<M>(s: Sys<M>): Sys<M> {
    if s.items == [] then s
    else s.(items := s.items[1..], delivered := s.delivered + [s.items[0]], tx := s.tx.SignalFromIsr())
  }

  /** Every task has an event list item. */
  ghost predicate Typed<M>(s: Sys<M>) {
    && Valued(s.rx.waiting, s.eventValue)
    && Valued(s.tx.waiting, s.eventValue)
    && (forall t :: t in s.pc ==> t in s.eventValue)
  }

  ghost function Next<M>(s: Sys<M>, step: Step<M>): Sys<M>
    requires Typed(s) && Enabled(s, step)
  {
    match step
    case Begin(t, op) => Goto(s, t, Trying(op))
    case Try(t, mayBlock) => TryStep(s, t, s.pc[t].op, mayBlock)
    case SuspendAll(t) => Goto(s.(suspendedBy := Some(t)), t, Locking(s.pc[t].op))
    case Lock(t) => Goto(s.(rx := s.rx.Lock(), tx := s.tx.Lock()), t, Checking(s.pc[t].op))
    case CheckTimeOut(t, expired) =>
      Goto(s, t, if expired then UnlockingTx(s.pc[t].op, GiveUp) else Testing(s.pc[t].op))
    case Test(t) =>
      Goto(s, t, if MustWait(s, s.pc[t].op) then Placing(s.pc[t].op) else UnlockingTx(s.pc[t].op, Retry))
    case Place(t) => Goto(PlaceStep(s, t, s.pc[t].op), t, UnlockingTx(s.pc[t].op, Sleep))
    case UnlockTx(t) => Goto(s.(rx := s.rx.Unlock()), t, UnlockingRx(s.pc[t].op, s.pc[t].after))
    case UnlockRx(t) => Goto(s.(tx := s.tx.Unlock()), t, Resuming(s.pc[t].op, s.pc[t].after))
    case ResumeAll(t) =>
      var p := s.pc[t];
      Goto(s.(suspendedBy := None), t,
           match p.after
           case Sleep => Asleep(p.op)
           case Retry => Trying(p.op)
           case GiveUp => if Receives(p.op) then Retesting(p.op) else Outside)
    case Wake(t) => Goto(s, t, Trying(s.pc[t].op))
    case Retest(t) => Goto(s, t, if s.items == [] then Outside else Trying(s.pc[t].op))
    case TimeOut(t) => s.(rx := s.rx.TimeOut(t), tx := s.tx.TimeOut(t))
    case IsrSend(m, pos) => IsrSendStep(s, m, pos)
    case IsrReceive => IsrReceiveStep(s)
  }

  // ------------------------------------------------------------------ the invariant

  /** The task has put itself on an event list of the given kind and not retried since. */
  predicate Waits<M>(p: Pc<M>, receiving: bool) {
    && (match p
        case UnlockingTx(_, a) => a == Sleep
        case UnlockingRx(_, a) => a == Sleep
        case Resuming(_, a) => a == Sleep
        case Asleep(_) => true
        case _ => false)
    && Receives(p.op) == receiving
  }

  predicate Retries<M>(p: Pc<M>, receiving: bool) {
    p.Trying? && Receives(p.op) == receiving
  }

  ghost predicate SideInv<M>(side: Side, avail: int, pc: map<TaskId, Pc<M>>, receiving: bool) {
    && side.Valid()
    && side.Safe(avail)
    && (forall t :: t in side.waiting ==> t in pc && Waits(pc[t], receiving))
    && (forall t :: t in side.woken ==> t in pc && (Waits(pc[t], receiving) || Retries(pc[t], receiving)))
  }

  /** How far the task that suspended the scheduler has got with the lock. */
  predicate LocksAgree<M>(s: Sys<M>) {
    if s.suspendedBy == None || s.suspendedBy.value !in s.pc then s.rx.lock == UNLOCKED && s.tx.lock == UNLOCKED
    else match s.pc[s.suspendedBy.value]
      case Checking(_) => s.rx.lock >= 0 && s.tx.lock >= 0
      case Testing(_) => s.rx.lock >= 0 && s.tx.lock >= 0
      case UnlockingTx(_, _) => s.rx.lock >= 0 && s.tx.lock >= 0
      case Placing(op) =>
        s.rx.lock >= 0 && s.tx.lock >= 0
        && (if Receives(op) then |s.items| <= s.rx.lock else s.length - |s.items| <= s.tx.lock)
      case UnlockingRx(_, _) => s.rx.lock == UNLOCKED && s.tx.lock >= 0
      case _ => s.rx.lock == UNLOCKED && s.tx.lock == UNLOCKED
  }

  ghost predicate Inv<M>(s: Sys<M>) {
    && |s.items| <= s.length
    && SideInv(s.rx, |s.items|, s.pc, true)
    && SideInv(s.tx, s.length - |s.items|, s.pc, false)
    && FrameInv(s)
  }

  ghost predicate FrameInv<M>(s: Sys<M>) {
    && LocksAgree(s)
    && (forall t :: t in s.pc ==> t in s.eventValue)
    && (forall t :: t in s.pc && !s.pc[t].Outside? ==> Legal(s, s.pc[t].op))
  }

  /** A task's critical section outside any lock period. */
  lemma UnlockedKeepsFrame<M>(s: Sys<M>, s': Sys<M>, t: TaskId)
    requires FrameInv(s) && s.suspendedBy == None && t in s.pc
    requires s'.suspendedBy == None && s'.length == s.length && s'.eventValue == s.eventValue
    requires s'.rx.lock == s.rx.lock && s'.tx.lock == s.tx.lock
    requires s'.pc.Keys == s.pc.Keys && s'.pc == s.pc[t := s'.pc[t]]
    requires !s'.pc[t].Outside? ==> Legal(s, s'.pc[t].op)
    ensures FrameInv(s')
  {
  }

  /** A task that is on neither list moves. */
  lemma MovesAside<M>(side: Side, avail: int, pc: map<TaskId, Pc<M>>, k: bool, t: TaskId, p: Pc<M>)
    requires SideInv(side, avail, pc, k)
    requires t in side.waiting ==> Waits(p, k)
    requires t in side.woken ==> Waits(p, k) || Retries(p, k)
    ensures SideInv(side, avail, pc[t := p], k)
  {
  }

  lemma KeepsWaiting<M>(s: Sys<M>, t: TaskId)
    requires Inv(s) && t in s.pc
    ensures t in s.rx.waiting || t in s.rx.woken ==> Waits(s.pc[t], true) || Retries(s.pc[t], true)
    ensures t in s.tx.waiting || t in s.tx.woken ==> Waits(s.pc[t], false) || Retries(s.pc[t], false)
    ensures t in s.rx.waiting ==> Waits(s.pc[t], true)
    ensures t in s.tx.waiting ==> Waits(s.pc[t], false)
  {
  }

  predicate LocalStep<M>(step: Step<M>) {
    step.Begin? || step.SuspendAll? || step.CheckTimeOut? || step.Test? || step.ResumeAll? || step.Wake? || step.Retest?
  }

  /** Steps that change only the task's own place, or who suspends the scheduler. */
  lemma LocalStepKeepsInv<M>(s: Sys<M>, step: Step<M>)
    requires Inv(s) && Enabled(s, step) && LocalStep(step)
    ensures Inv(Next(s, step))
  {
    var t, s' := step.t, Next(s, step);
    KeepsWaiting(s, t);
    MovesAside(s.rx, |s.items|, s.pc, true, t, s'.pc[t]);
    MovesAside(s.tx, s.length - |s.items|, s.pc, false, t, s'.pc[t]);
  }

  lemma LockKeepsInv<M>(s: Sys<M>, t: TaskId)
    requires Inv(s) && Enabled(s, Lock(t))
    ensures Inv(Next(s, Lock(t)))
  {
    KeepsWaiting(s, t);
    var s' := Next(s, Lock(t));
    MovesAside(s.rx.Lock(), |s.items|, s.pc, true, t, s'.pc[t]);
    MovesAside(s.tx.Lock(), s.length - |s.items|, s.pc, false, t, s'.pc[t]);
  }

  lemma WakeOneKeeps<M>(side: Side, avail: int, pc: map<TaskId, Pc<M>>, k: bool)
    requires SideInv(side, avail, pc, k)
    ensures SideInv(side.WakeOne(), avail, pc, k) && SideInv(side.WakeOne(), avail + 1, pc, k)
  {
    WakeOneSafe(side, avail);
    WakeOneSafe(side, avail + 1);
  }

  lemma FewerKeeps<M>(side: Side, avail: int, less: int, pc: map<TaskId, Pc<M>>, k: bool)
    requires SideInv(side, avail, pc, k) && less <= avail
    ensures SideInv(side, less, pc, k)
  {
  }

  /** A retry that used up a unit, or that found none. */
  lemma RetriedKeeps<M>(side: Side, avail: int, pc: map<TaskId, Pc<M>>, k: bool, t: TaskId)
    requires SideInv(side, avail, pc, k)
    ensures SideInv(side.Retried(t), avail - 1, pc, k)
    ensures avail <= 0 ==> SideInv(side.Retried(t), avail, pc, k)
  {
  }

  lemma DepositCount<M>(s: Sys<M>, op: Op<M>)
    requires op.Send? && Legal(s, op) && HasRoom(s, op.pos) && |s.items| <= s.length
    ensures |s.items| <= |Put(s.items, op.msg, op.pos)| <= |s.items| + 1
    ensures |Put(s.items, op.msg, op.pos)| <= s.length
    ensures |Put(s.items, op.msg, op.pos)| == |s.items| ==> |s.items| == s.length
  {
  }

  lemma TrySendKeepsInv<M>(s: Sys<M>, t: TaskId, mayBlock: bool)
    requires Inv(s) && Enabled(s, Try(t, mayBlock)) && s.pc[t].op.Send?
    ensures Inv(Next(s, Try(t, mayBlock)))
  {
    var op, s' := s.pc[t].op, Next(s, Try(t, mayBlock));
    UnlockedKeepsFrame(s, s', t);
    KeepsWaiting(s, t);
    RetriedKeeps(s.tx, s.length - |s.items|, s.pc, false, t);
    if HasRoom(s, op.pos) {
      DepositCount(s, op);
      WakeOneKeeps(s.rx, |s.items|, s.pc, true);
    }
    MovesAside(s'.rx, |s'.items|, s.pc, true, t, s'.pc[t]);
    MovesAside(s'.tx, s.length - |s'.items|, s.pc, false, t, s'.pc[t]);
  }

  lemma TryReceiveKeepsInv<M>(s: Sys<M>, t: TaskId, mayBlock: bool)
    requires Inv(s) && Enabled(s, Try(t, mayBlock)) && s.pc[t].op.Receive?
    ensures Inv(Next(s, Try(t, mayBlock)))
  {
    var s' := Next(s, Try(t, mayBlock));
    UnlockedKeepsFrame(s, s', t);
    KeepsWaiting(s, t);
    RetriedKeeps(s.rx, |s.items|, s.pc, true, t);
    WakeOneKeeps(s.tx, s.length - |s.items|, s.pc, false);
    MovesAside(s.rx.Retried(t), |s'.items|, s.pc, true, t, s'.pc[t]);
    MovesAside(s'.tx, s.length - |s'.items|, s.pc, false, t, s'.pc[t]);
  }

  lemma TryPeekKeepsInv<M>(s: Sys<M>, t: TaskId, mayBlock: bool)
    requires Inv(s) && Enabled(s, Try(t, mayBlock)) && s.pc[t].op.Peek?
    ensures Inv(Next(s, Try(t, mayBlock)))
  {
    var s' := Next(s, Try(t, mayBlock));
    UnlockedKeepsFrame(s, s', t);
    KeepsWaiting(s, t);
    RetriedKeeps(s.rx, |s.items|, s.pc, true, t);
    WakeOneKeeps(s.rx.Retried(t), |s.items| - 1, s.pc, true);
    MovesAside(s'.rx, |s.items|, s.pc, true, t, s'.pc[t]);
    MovesAside(s.tx, s.length - |s.items|, s.pc, false, t, s'.pc[t]);
  }

  lemma PlaceSideKeeps<M>(side: Side, avail: int, pc: map<TaskId, Pc<M>>, k: bool, v: map<TaskId, nat>, t: TaskId,
                          p: Pc<M>)
    requires SideInv(side, avail, pc, k) && Valued(side.waiting, v) && t in v && t in pc
    requires t !in side.waiting && t !in side.woken && avail <= Max0(side.lock) && Waits(p, k)
    ensures SideInv(side.(waiting := Insert(side.waiting, v, t)), avail, pc[t := p], k)
  {
    InsertMembers(side.waiting, v, t);
    InsertDistinct(side.waiting, v, t);
  }

  lemma PlaceKeepsInv<M>(s: Sys<M>, t: TaskId)
    requires Inv(s) && Enabled(s, Place(t))
    ensures Inv(Next(s, Place(t)))
  {
    var op, s' := s.pc[t].op, Next(s, Place(t));
    KeepsWaiting(s, t);
    if Receives(op) {
      PlaceSideKeeps(s.rx, |s.items|, s.pc, true, s.eventValue, t, s'.pc[t]);
      MovesAside(s.tx, s.length - |s.items|, s.pc, false, t, s'.pc[t]);
    } else {
      PlaceSideKeeps(s.tx, s.length - |s.items|, s.pc, false, s.eventValue, t, s'.pc[t]);
      MovesAside(s.rx, |s.items|, s.pc, true, t, s'.pc[t]);
    }
  }

  lemma UnlockTxKeepsInv<M>(s: Sys<M>, t: TaskId)
    requires Inv(s) && Enabled(s, UnlockTx(t))
    ensures Inv(Next(s, UnlockTx(t)))
  {
    var s' := Next(s, UnlockTx(t));
    KeepsWaiting(s, t);
    MovesAside(s.rx, |s.items|, s.pc, true, t, s'.pc[t]);
    UnlockSafe(s.rx, |s.items|);
    MovesAside(s.tx, s.length - |s.items|, s.pc, false, t, s'.pc[t]);
  }

  lemma UnlockRxKeepsInv<M>(s: Sys<M>, t: TaskId)
    requires Inv(s) && Enabled(s, UnlockRx(t))
    ensures Inv(Next(s, UnlockRx(t)))
  {
    var s' := Next(s, UnlockRx(t));
    KeepsWaiting(s, t);
    MovesAside(s.rx, |s.items|, s.pc, true, t, s'.pc[t]);
    UnlockSafe(s.tx, s.length - |s.items|);
    MovesAside(s.tx, s.length - |s.items|, s.pc, false, t, s'.pc[t]);
  }

  lemma TimeOutKeepsInv<M>(s: Sys<M>, t: TaskId)
    requires Inv(s) && Enabled(s, TimeOut(t))
    ensures Inv(Next(s, TimeOut(t)))
  {
    TimeOutSafe(s.rx, t, |s.items|);
    TimeOutSafe(s.tx, t, s.length - |s.items|);
    RemoveFacts(s.rx.waiting, t);
    RemoveFacts(s.tx.waiting, t);
  }

  lemma SignalKeeps<M>(side: Side, avail: int, pc: map<TaskId, Pc<M>>, k: bool)
    requires SideInv(side, avail, pc, k) && side.lock < 127
    ensures SideInv(side.SignalFromIsr(), avail, pc, k) && SideInv(side.SignalFromIsr(), avail + 1, pc, k)
  {
    SignalFromIsrSafe(side, avail);
  }

  lemma IsrSendKeepsInv<M>(s: Sys<M>, m: M, pos: Position)
    requires Inv(s) && Enabled(s, IsrSend(m, pos)) && s.rx.lock < 127
    ensures Inv(Next(s, IsrSend(m, pos)))
  {
    if HasRoom(s, pos) {
      var s' := Next(s, IsrSend(m, pos));
      SignalKeeps(s.rx, |s.items|, s.pc, true);
      FewerKeeps(s.tx, s.length - |s.items|, s.length - |s'.items|, s.pc, false);
    }
  }

  lemma IsrReceiveKeepsInv<M>(s: Sys<M>)
    requires Inv(s) && s.tx.lock < 127
    ensures Inv(Next(s, IsrReceive))
  {
    if s.items != [] {
      SignalKeeps(s.tx, s.length - |s.items|, s.pc, false);
      FewerKeeps(s.rx, |s.items|, |s.items| - 1, s.pc, true);
    }
  }

  // ------------------------------------------------------------------ runs

  /** Fewer than 128 interrupts signal the same side during one lock period. */
  predicate WithinLimit<M>(s: Sys<M>, step: Step<M>) {
    && (step.IsrSend? ==> s.rx.lock < 127)
    && (step.IsrReceive? ==> s.tx.lock < 127)
  }

  ghost predicate Initial<M>(s: Sys<M>) {
    && s.items == s.accepted == s.delivered == []
    && s.rx == s.tx == Side(UNLOCKED, [], {})
    && s.suspendedBy == None
    && (forall t :: t in s.pc ==> t in s.eventValue && s.pc[t].Outside?)
  }

  ghost predicate Run<M>(s: Sys<M>, steps: seq<Step<M>>, s': Sys<M>, limited: bool)
    decreases |steps|
  {
    if steps == [] then s' == s
    else
      && Typed(s) && Enabled(s, steps[0])
      && (limited ==> WithinLimit(s, steps[0]))
      && Run(Next(s, steps[0]), steps[1..], s', limited)
  }

  lemma StepKeepsInv<M>(s: Sys<M>, step: Step<M>)
    requires Inv(s) && Enabled(s, step) && WithinLimit(s, step)
    ensures Inv(Next(s, step))
  {
    match step
    case Try(t, mayBlock) =>
      match s.pc[t].op {
        case Send(_, _) => TrySendKeepsInv(s, t, mayBlock);
        case Receive => TryReceiveKeepsInv(s, t, mayBlock);
        case Peek => TryPeekKeepsInv(s, t, mayBlock);
      }
    case Lock(t) => LockKeepsInv(s, t);
    case Place(t) => PlaceKeepsInv(s, t);
    case UnlockTx(t) => UnlockTxKeepsInv(s, t);
    case UnlockRx(t) => UnlockRxKeepsInv(s, t);
    case TimeOut(t) => TimeOutKeepsInv(s, t);
    case IsrSend(m, pos) => IsrSendKeepsInv(s, m, pos);
    case IsrReceive => IsrReceiveKeepsInv(s);
    case _ => LocalStepKeepsInv(s, step);
  }

  lemma {:induction false} RunKeepsInv<M>(s: Sys<M>, steps: seq<Step<M>>, s': Sys<M>)
    requires Inv(s) && Run(s, steps, s', true)
    ensures Inv(s')
    decreases |steps|
  {
    if steps != [] {
      StepKeepsInv(s, steps[0]);
      RunKeepsInv(Next(s, steps[0]), steps[1..], s');
    }
  }

  /** No wake-up is lost, for receivers and for senders, in any state any run reaches. */
  lemma NoLostWakeUp<M>(s: Sys<M>, steps: seq<Step<M>>, s': Sys<M>)
    requires Initial(s) && Run(s, steps, s', true)
    ensures s'.rx.waiting != [] ==> |s'.items| <= |s'.rx.woken| + Max0(s'.rx.lock)
    ensures s'.tx.waiting != [] ==> s'.length - |s'.items| <= |s'.tx.woken| + Max0(s'.tx.lock)
  {
    RunKeepsInv(s, steps, s');
  }

  /** Once every woken task has retried and nobody holds the queue locked, a receiver
      still waiting means an empty queue and a sender still waiting a full one. */
  lemma NobodySleepsOnAvailableUnit<M>(s: Sys<M>, steps: seq<Step<M>>, s': Sys<M>)
    requires Initial(s) && Run(s, steps, s', true)
    requires s'.suspendedBy == None && s'.rx.woken == {} && s'.tx.woken == {}
    ensures s'.rx.waiting != [] ==> s'.items == []
    ensures s'.tx.waiting != [] ==> |s'.items| == s'.length
  {
    RunKeepsInv(s, steps, s');
  }
}
