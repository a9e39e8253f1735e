/** The queue structure of queue.c: storage area, counters and event lists.

    Offsets stand for the pointers, counted in bytes from `pcHead`.  The storage is
    proved to be a deque of items, and the signalling in each critical section to be the
    one module QueueProtocol reasons about. */
module Queue {
  import opened Common
  import opened QueueProtocol

  type Item = seq<bv8>

  lemma AtLeastOnce(n: nat, size: nat)
    requires n > 0
    ensures n * size >= size
  {
    assert n * size == (n - 1) * size + size;
  }

  lemma SlotsApart(i: nat, j: nat, size: nat)
    requires i < j
    ensures i * size + size <= j * size
  {
    var d := j - i;
    AtLeastOnce(d, size);
    assert j * size == i * size + d * size;
  }

  // ------------------------------------------------------------------ the ring of slots

  /** The storage area as its slots of `size` bytes. */
  ghost function SlotsOf(bytes: seq<bv8>, size: nat, n: nat): (slots: seq<Item>)
    requires n * size <= |bytes|
    ensures |slots| == n
  {
    if n == 0 then [] else
      assert (n - 1) * size + size == n * size;
      SlotsOf(bytes, size, n - 1) + [bytes[(n - 1) * size..n * size]]
  }

  lemma {:induction false} SlotsOfAt(bytes: seq<bv8>, size: nat, n: nat, i: nat)
    requires n * size <= |bytes| && i < n
    ensures i * size + size <= |bytes|
    ensures SlotsOf(bytes, size, n)[i] == bytes[i * size..i * size + size]
  {
    SlotsApart(i, n, size);
    assert (n - 1) * size + size == n * size;
    if i < n - 1 { SlotsOfAt(bytes, size, n - 1, i); }
  }

  /** Bytes that differ only inside slot p give slots that differ only there. */
  lemma {:induction false} SlotsOfUpdate(bytes: seq<bv8>, bytes': seq<bv8>, size: nat, n: nat, p: nat)
    requires n * size <= |bytes| == |bytes'| && p < n
    requires forall k :: 0 <= k < |bytes| && !(p * size <= k < p * size + size) ==> bytes'[k] == bytes[k]
    requires p * size + size <= |bytes|
    ensures SlotsOf(bytes', size, n) == SlotsOf(bytes, size, n)[p := bytes'[p * size..p * size + size]]
  {
    forall i: nat | i < n
      ensures SlotsOf(bytes', size, n)[i] == SlotsOf(bytes, size, n)[p := bytes'[p * size..p * size + size]][i]
    {
      SlotsOfAt(bytes, size, n, i);
      SlotsOfAt(bytes', size, n, i);
      if i < p { SlotsApart(i, p, size); }
      if p < i { SlotsApart(p, i, size); }
    }
  }

  lemma SlotsOfWrite(bytes: seq<bv8>, item: Item, size: nat, n: nat, p: nat, o: nat)
    requires n * size <= |bytes| && p < n && |item| == size && o == p * size && o + size <= |bytes|
    ensures |bytes[..o] + item + bytes[o + size..]| == |bytes|
    ensures SlotsOf(bytes[..o] + item + bytes[o + size..], size, n) == SlotsOf(bytes, size, n)[p := item]
  {
    var bytes' := bytes[..o] + item + bytes[o + size..];
    assert |bytes'| == |bytes|;
    assert forall k :: 0 <= k < |bytes| && !(o <= k < o + size) ==> bytes'[k] == bytes[k];
    assert bytes'[o..o + size] == item;
    SlotsOfUpdate(bytes, bytes', size, n, p);
  }

  ghost function Before(slot: nat, length: nat): (r: nat)
    requires slot < length
    ensures r < length && Wrap(r + 1, length) == slot
  {
    if slot == 0 then length - 1 else slot - 1
  }

  /** The n items in a ring of slots starting at slot `first`. */
  ghost function Deque(slots: seq<Item>, first: nat, n: nat): (items: seq<Item>)
    requires first < |slots| && n <= |slots|
    ensures |items| == n
    ensures forall k :: 0 <= k < n ==> items[k] == slots[Wrap(first + k, |slots|)]
  {
    seq(n, k requires 0 <= k < n => slots[Wrap(first + k, |slots|)])
  }

  lemma DequeAtBack(slots: seq<Item>, first: nat, n: nat, x: Item)
    requires first < |slots| && n < |slots|
    ensures Deque(slots[Wrap(first + n, |slots|) := x], first, n + 1) == Deque(slots, first, n) + [x]
  {
    var r, items := Deque(slots[Wrap(first + n, |slots|) := x], first, n + 1), Deque(slots, first, n);
    assert forall k :: 0 <= k < n ==> r[k] == items[k];
  }

  lemma DequeAtFront(slots: seq<Item>, first: nat, n: nat, x: Item)
    requires first < |slots| && n < |slots|
    ensures Deque(slots[Before(first, |slots|) := x], Before(first, |slots|), n + 1) == [x] + Deque(slots, first, n)
  {
    var before := Before(first, |slots|);
    var r, items := Deque(slots[before := x], before, n + 1), Deque(slots, first, n);
    assert forall k :: 0 <= k < n ==> r[k + 1] == items[k];
  }

  lemma DequeDropsFirst(slots: seq<Item>, first: nat, n: nat)
    requires first < |slots| && 0 < n <= |slots|
    ensures Deque(slots, Wrap(first + 1, |slots|), n - 1) == Deque(slots, first, n)[1..]
    ensures Deque(slots, first, n)[0] == slots[first]
  {
    var r, items := Deque(slots, Wrap(first + 1, |slots|), n - 1), Deque(slots, first, n);
    assert forall k :: 0 <= k < n - 1 ==> r[k] == items[k + 1];
  }

  class QueueDefinition {
    const length: nat                  // uxLength
    const itemSize: nat                // uxItemSize
    const storage: array<bv8>          // pcHead .. pcTail
    var writeTo: nat                   // pcWriteTo
    var readFrom: nat                  // pcReadFrom
    var messagesWaiting: nat           // uxMessagesWaiting
    var rxLock: int                    // cRxLock
    var txLock: int                    // cTxLock
    var waitingToSend: seq<TaskId>     // xTasksWaitingToSend
    var waitingToReceive: seq<TaskId>  // xTasksWaitingToReceive
    ghost var first: nat               // the slot read next

    ghost predicate Shaped() {
      length > 0 && storage.Length == length * itemSize
    }

    /** Both pointers stand on item boundaries inside the storage: the write pointer behind
        the last of n items, the read pointer one slot before the first. */
    ghost predicate Aligned(n: nat)
      reads this`first, this`readFrom, this`writeTo
    {
      && Shaped() && first < length && n <= length
      && readFrom == Before(first, length) * itemSize
      && writeTo == Wrap(first + n, length) * itemSize
    }

    ghost predicate Valid()
      reads this`first, this`readFrom, this`writeTo, this`messagesWaiting
    {
      Aligned(messagesWaiting)
    }

    ghost function Slots(): (slots: seq<Item>)
      requires Shaped()
      reads storage
      ensures |slots| == length
    {
      SlotsOf(storage[..], itemSize, length)
    }

    /** The queued items, next to be read first. */
    ghost function Items(): (items: seq<Item>)
      requires Valid()
      reads this`first, this`readFrom, this`writeTo, this`messagesWaiting, storage
      ensures |items| == messagesWaiting
    {
      Deque(Slots(), first, messagesWaiting)
    }

    /** `prvInitialiseNewQueue` with the reset it makes. */
    constructor (length: nat, itemSize: nat)
      requires length > 0
      ensures Valid() && Items() == [] && this.length == length && this.itemSize == itemSize
      ensures rxLock == txLock == UNLOCKED && waitingToSend == waitingToReceive == []
      ensures fresh(storage)
    {
      this.length, this.itemSize := length, itemSize;
      storage := new bv8[length * itemSize];
      writeTo, readFrom, messagesWaiting := 0, (length - 1) * itemSize, 0;
      rxLock, txLock, waitingToSend, waitingToReceive := UNLOCKED, UNLOCKED, [], [];
      first := 0;
    }

    /** `memcpy` into the storage. */
    method CopyBytes(offset: nat, item: Item)
      requires offset + |item| <= storage.Length
      modifies storage
      ensures storage[..] == old(storage[..offset]) + item + old(storage[offset + |item|..])
    {
      for i := 0 to |item|
        invariant storage[..offset] == old(storage[..offset])
        invariant storage[offset..offset + i] == item[..i]
        invariant storage[offset + i..] == old(storage[offset + i..])
      {
        storage[offset + i] := item[i];
      }
    }

    method CopyIn(offset: nat, item: Item, ghost slot: nat)
      requires Shaped() && |item| == itemSize && slot < length && offset == slot * itemSize
      modifies storage
      ensures Slots() == old(Slots())[slot := item]
    {
      SlotsApart(slot, length, itemSize);
      SlotsOfWrite(storage[..], item, itemSize, length, slot, offset);
      ghost var before := storage[..];
      CopyBytes(offset, item);
      assert storage[..] == before[..offset] + item + before[offset + itemSize..];
    }

    /** `memcpy` of one item out of the slot at `offset`. */
    method CopyOut(offset: nat, ghost slot: nat) returns (item: Item)
      requires Shaped() && slot < length && offset == slot * itemSize
      ensures item == Slots()[slot]
    {
      SlotsOfAt(storage[..], itemSize, length, slot);
      item := [];
      for i := 0 to itemSize
        invariant item == storage[offset..offset + i]
      {
        item := item + [storage[offset + i]];
      }
    }

    /** Advancing a pointer by one item, back to the head at the tail. */
    method Advance(offset: nat, ghost slot: nat) returns (r: nat)
      requires Shaped() && itemSize > 0 && slot < length && offset == slot * itemSize
      ensures r == Wrap(slot + 1, length) * itemSize
    {
      r := offset + itemSize;
      if slot + 1 < length { SlotsApart(slot + 1, length, itemSize); }
      assert (slot + 1) * itemSize == r;
      if r >= storage.Length { r := 0; }
    }

    method Retreat(offset: nat, ghost slot: nat) returns (r: nat)
      requires Shaped() && itemSize > 0 && slot < length && offset == slot * itemSize
      ensures r == Before(slot, length) * itemSize
    {
      SlotsApart(slot, length, itemSize);
      assert (length - 1) * itemSize + itemSize == length * itemSize;
      if slot > 0 {
        SlotsApart(0, slot, itemSize);
        assert (slot - 1) * itemSize + itemSize == slot * itemSize;
      }
      if offset < itemSize { r := storage.Length - itemSize; } else { r := offset - itemSize; }
    }

    method CopyToBack(item: Item)
      requires Valid() && |item| == itemSize > 0 && messagesWaiting < length
      modifies this`writeTo, storage
      ensures Aligned(messagesWaiting + 1)
      ensures Deque(Slots(), first, messagesWaiting + 1) == old(Items()) + [item]
    {
      ghost var w := Wrap(first + messagesWaiting, length);
      DequeAtBack(Slots(), first, messagesWaiting, item);
      CopyIn(writeTo, item, w);
      writeTo := Advance(writeTo, w);
    }

    /** `kept` items stay: all of them, or none when the item of a queue of length one is
        overwritten. */
    method CopyToFront(item: Item, ghost kept: nat)
      requires Valid() && |item| == itemSize > 0 && kept <= messagesWaiting && kept < length
      requires kept == messagesWaiting || length == 1
      modifies this`readFrom, this`first, storage
      ensures Aligned(kept + 1)
      ensures Deque(Slots(), first, kept + 1) == [item] + old(Items())[..kept]
    {
      ghost var before := Before(first, length);
      DequeAtFront(Slots(), first, kept, item);
      assert Deque(Slots(), first, kept) == Items()[..kept];
      CopyIn(readFrom, item, before);
      readFrom := Retreat(readFrom, before);
      first := before;
    }

    /** `prvCopyDataToQueue`, for a queue that is not a mutex: a deque operation, except
        that overwriting a full queue of items without size counts past the length. */
    method CopyDataToQueue(item: Item, position: Position)
      requires Valid() && |item| == itemSize
      requires if position == Overwrite then length == 1 else messagesWaiting < length
      modifies this`writeTo, this`readFrom, this`messagesWaiting, this`first, storage
      ensures messagesWaiting <= length <==> itemSize > 0 || old(messagesWaiting) < length
      ensures messagesWaiting <= length ==> Valid()
      ensures messagesWaiting <= length && position == Back ==> Items() == old(Items()) + [item]
      ensures messagesWaiting <= length && position == Front ==> Items() == [item] + old(Items())
      ensures messagesWaiting <= length && position == Overwrite ==> Items() == [item]
    {
      var waiting := messagesWaiting;
      if itemSize == 0 {
        EmptyItems(waiting);
      } else if position == Back {
        CopyToBack(item);
      } else {
        CopyToFront(item, if position == Overwrite then 0 else waiting);
        if position == Overwrite && waiting > 0 {
          waiting := waiting - 1;
        }
      }
      messagesWaiting := waiting + 1;
      if itemSize == 0 && messagesWaiting <= length { EmptyItems(messagesWaiting); }
    }

    /** Items without size are all alike, wherever the pointers stand. */
    lemma EmptyItems(n: nat)
      requires Aligned(n) && itemSize == 0
      ensures forall k :: 0 <= k < n ==> Deque(Slots(), first, n)[k] == []
    {
      forall i: nat | i < length ensures Slots()[i] == [] {
        SlotsOfAt(storage[..], 0, length, i);
      }
    }

    /** `prvCopyDataFromQueue`: moves the read pointer onto the first item and copies it. */
    method CopyDataFromQueue() returns (item: Item)
      requires Valid() && messagesWaiting > 0
      modifies this`readFrom
      ensures item == old(Items())[0]
      ensures readFrom == first * itemSize
    {
      DequeDropsFirst(Slots(), first, messagesWaiting);
      item := [];
      if itemSize == 0 {
        EmptyItems(messagesWaiting);
      } else {
        readFrom := Advance(readFrom, Before(first, length));
        item := CopyOut(readFrom, first);
      }
    }

    // ---------------------------------------------------------------- critical sections

    /** The receivers' side of the protocol, with a set of woken tasks. */
    ghost function Receivers(woken: set<TaskId>): Side
      reads this`txLock, this`waitingToReceive
    {
      Side(txLock, waitingToReceive, woken)
    }

    ghost function Senders(woken: set<TaskId>): Side
      reads this`rxLock, this`waitingToSend
    {
      Side(rxLock, waitingToSend, woken)
    }

    /** `xTaskRemoveFromEventList` on the receivers' list unless it is empty. */
    method WakeReceiver(already: set<TaskId>) returns (woken: set<TaskId>)
      modifies this`waitingToReceive
      ensures Receivers(woken) == old(Receivers(already)).WakeOne()
    {
      woken := already;
      if waitingToReceive != [] {
        woken, waitingToReceive := already + {waitingToReceive[0]}, waitingToReceive[1..];
      }
    }

    method WakeSender(already: set<TaskId>) returns (woken: set<TaskId>)
      modifies this`waitingToSend
      ensures Senders(woken) == old(Senders(already)).WakeOne()
    {
      woken := already;
      if waitingToSend != [] {
        woken, waitingToSend := already + {waitingToSend[0]}, waitingToSend[1..];
      }
    }

    /** The critical section of `xQueueGenericSend`. */
    method SendSection(item: Item, position: Position) returns (sent: bool, woken: set<TaskId>)
      requires Valid() && |item| == itemSize
      requires position == Overwrite ==> length == 1
      modifies this`writeTo, this`readFrom, this`messagesWaiting, this`first, this`waitingToReceive, storage
      ensures sent == (old(messagesWaiting) < length || position == Overwrite)
      ensures messagesWaiting <= length <==> itemSize > 0 || old(messagesWaiting) < length || !sent
      ensures messagesWaiting <= length ==>
                Valid() && Items() == if sent then Put(old(Items()), item, position) else old(Items())
      ensures Receivers(woken) == if sent then old(Receivers({})).WakeOne() else old(Receivers({}))
    {
      sent, woken := messagesWaiting < length || position == Overwrite, {};
      if sent {
        CopyDataToQueue(item, position);
        woken := WakeReceiver({});
      }
    }

    /** `xQueueGenericSendFromISR` and `xQueueGiveFromISR`. */
    method SendFromIsr(item: Item, position: Position) returns (sent: bool, woken: set<TaskId>)
      requires Valid() && |item| == itemSize && -128 <= txLock <= 127
      requires position == Overwrite ==> length == 1
      modifies this`writeTo, this`readFrom, this`messagesWaiting, this`first, this`waitingToReceive, this`txLock,
        storage
      ensures sent == (old(messagesWaiting) < length || position == Overwrite)
      ensures messagesWaiting <= length <==> itemSize > 0 || old(messagesWaiting) < length || !sent
      ensures messagesWaiting <= length ==>
                Valid() && Items() == if sent then Put(old(Items()), item, position) else old(Items())
      ensures Receivers(woken) == if sent then old(Receivers({})).SignalFromIsr() else old(Receivers({}))
    {
      sent, woken := messagesWaiting < length || position == Overwrite, {};
      if sent {
        CopyDataToQueue(item, position);
        if txLock == UNLOCKED {
          woken := WakeReceiver({});
        } else {
          txLock := if txLock == 127 then -128 else txLock + 1;
        }
      }
    }

    /** Takes the first item out. */
    method TakeItem() returns (item: Item)
      requires Valid() && messagesWaiting > 0
      modifies this`readFrom, this`messagesWaiting, this`first
      ensures Valid() && [item] + Items() == old(Items())
    {
      DequeDropsFirst(Slots(), first, messagesWaiting);
      item := CopyDataFromQueue();
      messagesWaiting := messagesWaiting - 1;
      first := if first + 1 < length then first + 1 else 0;
    }

    /** The critical section of `xQueueReceive`; an empty result means an empty queue. */
    method ReceiveSection() returns (received: seq<Item>, woken: set<TaskId>)
      requires Valid()
      modifies this`readFrom, this`messagesWaiting, this`first, this`waitingToSend
      ensures Valid() && received + Items() == old(Items())
      ensures |received| == if old(messagesWaiting) > 0 then 1 else 0
      ensures Senders(woken) == if |received| == 1 then old(Senders({})).WakeOne() else old(Senders({}))
    {
      received, woken := [], {};
      if messagesWaiting > 0 {
        var item := TakeItem();
        received := [item];
        woken := WakeSender({});
      }
    }

    /** `xQueueReceiveFromISR`. */
    method ReceiveFromIsr() returns (received: seq<Item>, woken: set<TaskId>)
      requires Valid() && -128 <= rxLock <= 127
      modifies this`readFrom, this`messagesWaiting, this`first, this`waitingToSend, this`rxLock
      ensures Valid() && received + Items() == old(Items())
      ensures |received| == if old(messagesWaiting) > 0 then 1 else 0
      ensures Senders(woken) == if |received| == 1 then old(Senders({})).SignalFromIsr() else old(Senders({}))
    {
      received, woken := [], {};
      if messagesWaiting > 0 {
        var item := TakeItem();
        received := [item];
        if rxLock == UNLOCKED {
          woken := WakeSender({});
        } else {
          rxLock := if rxLock == 127 then -128 else rxLock + 1;
        }
      }
    }

    /** The critical section of `xQueuePeek`: the read pointer is put back. */
    method PeekSection() returns (seen: seq<Item>, woken: set<TaskId>)
      requires Valid()
      modifies this`readFrom, this`waitingToReceive
      ensures Valid() && Items() == old(Items()) && seen <= Items()
      ensures |seen| == if messagesWaiting > 0 then 1 else 0
      ensures Receivers(woken) == if |seen| == 1 then old(Receivers({})).WakeOne() else old(Receivers({}))
    {
      seen, woken := [], {};
      if messagesWaiting > 0 {
        var original := readFrom;
        var item := CopyDataFromQueue();
        readFrom := original;
        seen := [item];
        woken := WakeReceiver({});
      }
    }

    /** `prvLockQueue`. */
    method Lock()
      modifies this`rxLock, this`txLock
      ensures Receivers({}) == old(Receivers({})).Lock() && Senders({}) == old(Senders({})).Lock()
    {
      if rxLock == UNLOCKED { rxLock := LOCKED_UNMODIFIED; }
      if txLock == UNLOCKED { txLock := LOCKED_UNMODIFIED; }
    }

    /** The first critical section of `prvUnlockQueue`. */
    method UnlockTx() returns (woken: set<TaskId>)
      modifies this`txLock, this`waitingToReceive
      ensures Receivers(woken) == old(Receivers({})).Unlock()
    {
      woken := {};
      var lock := txLock;
      while lock > LOCKED_UNMODIFIED
        invariant Receivers(woken).(lock := lock).Unlock() == old(Receivers({})).Unlock()
      {
        if waitingToReceive == [] { break; }
        woken := WakeReceiver(woken);
        lock := lock - 1;
      }
      txLock := UNLOCKED;
    }

    /** The second critical section of `prvUnlockQueue`. */
    method UnlockRx() returns (woken: set<TaskId>)
      modifies this`rxLock, this`waitingToSend
      ensures Senders(woken) == old(Senders({})).Unlock()
    {
      woken := {};
      var lock := rxLock;
      while lock > LOCKED_UNMODIFIED
        invariant Senders(woken).(lock := lock).Unlock() == old(Senders({})).Unlock()
      {
        if waitingToSend == [] { break; }
        woken := WakeSender(woken);
        lock := lock - 1;
      }
      rxLock := UNLOCKED;
    }

    /** `xQueueGenericReset` of a queue in use. */
    method Reset() returns (woken: set<TaskId>)
      requires Valid()
      modifies this
      ensures Valid() && Items() == []
      ensures Receivers({}) == old(Receivers({})).(lock := UNLOCKED)
      ensures Senders(woken) == old(Senders({})).(lock := UNLOCKED).WakeOne()
    {
      messagesWaiting, writeTo, readFrom := 0, 0, (length - 1) * itemSize;
      rxLock, txLock := UNLOCKED, UNLOCKED;
      first := 0;
      woken := WakeSender({});
    }
  }
}
