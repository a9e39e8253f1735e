/** A stream buffer between one writer and one reader (stream_buffer.c): both run without
    locks on the same circular storage, the writer owning `xHead`, the reader `xTail`.

    Loads and stores of the two indices and the copy of each byte are steps of their own,
    interleaved in any way; an index the other side owns is read once and may be stale by
    the time it is used. */
module StreamBuffers {
  import opened Common

  type Byte = b: nat | b < 256

  // ------------------------------------------------------------------ circular positions

  /** `prvBytesInBuffer`. */
  function BytesIn(head: nat, tail: nat, length: nat): (r: nat)
    requires head < length && tail < length
    ensures r < length
  {
    var count := length + head - tail;
    if count >= length then count - length else count
  }

  /** `xStreamBufferSpacesAvailable`. */
  function Spaces(head: nat, tail: nat, length: nat): (r: nat)
    requires head < length && tail < length
    ensures r < length
  {
    var space := length + tail - head - 1;
    if space >= length then space - length else space
  }

  /** One byte always stays free, which tells a full buffer from an empty one. */
  lemma SpacesAndBytes(head: nat, tail: nat, length: nat)
    requires head < length && tail < length
    ensures Spaces(head, tail, length) + BytesIn(head, tail, length) == length - 1
  {
  }

  /** The n bytes from position p on. */
  function Window(store: seq<Byte>, p: nat, n: nat): (r: seq<Byte>)
    requires p < |store| && n <= |store|
    ensures |r| == n && forall i :: 0 <= i < n ==> r[i] == store[Wrap(p + i, |store|)]
  {
    seq(n, i requires 0 <= i < n => store[Wrap(p + i, |store|)])
  }

  // ------------------------------------------------------------------ the two sides

  /** The writer has read the tail (`Sized`), is copying its n bytes (`Putting`), or is
      outside the buffer. */
  datatype Writer =
    | WriterOut
    | Sized(seen: nat)
    | Putting(data: seq<Byte>, done: nat)

  datatype Reader =
    | ReaderOut
    | Counted(seen: nat)
    | Getting(wanted: nat, got: seq<Byte>)

  /** `committed` and `received` are all bytes made available by the writer and taken by
      the reader. */
  datatype Sys = Sys(
    store: seq<Byte>,
    head: nat,
    tail: nat,
    writer: Writer,
    reader: Reader,
    committed: seq<Byte>,
    received: seq<Byte>
  )

  datatype Step =
    | LoadTail
    | StartPut(data: seq<Byte>)
    | PutByte
    | StoreHead
    | LoadHead
    | StartGet(max: nat)
    | GetByte
    | StoreTail

  predicate Shape(s: Sys) {
    && s.head < |s.store| && s.tail < |s.store|
    && (s.writer.Sized? ==> s.writer.seen < |s.store|)
    && (s.reader.Counted? ==> s.reader.seen < |s.store|)
    && (s.writer.Putting? ==> s.writer.done <= |s.writer.data| < |s.store|)
    && (s.reader.Getting? ==> |s.reader.got| <= s.reader.wanted < |s.store|)
  }

  function Min(a: nat, b: nat): nat {
    if a < b then a else b
  }

  /** A writer may read the tail again before it writes, as the blocking loop does. */
  predicate Enabled(s: Sys, step: Step) {
    match step
    case LoadTail => !s.writer.Putting?
    case StartPut(data) => s.writer.Sized? && data != []
    case PutByte => s.writer.Putting? && s.writer.done < |s.writer.data|
    case StoreHead => s.writer.Putting? && s.writer.done == |s.writer.data|
    case LoadHead => !s.reader.Getting?
    case StartGet(_) => s.reader.Counted?
    case GetByte => s.reader.Getting? && |s.reader.got| < s.reader.wanted
    case StoreTail => s.reader.Getting? && |s.reader.got| == s.reader.wanted
  }

  function Next(s: Sys, step: Step): Sys
    requires Shape(s) && Enabled(s, step)
  {
    var length := |s.store|;
    match step
    case LoadTail => s.(writer := Sized(s.tail))
    case StartPut(data) =>
      var n := Min(|data|, Spaces(s.head, s.writer.seen, length));
      s.(writer := if n == 0 then WriterOut else Putting(data[..n], 0))
    case PutByte =>
      var i := s.writer.done;
      s.(store := s.store[Wrap(s.head + i, length) := s.writer.data[i]], writer := Putting(s.writer.data, i + 1))
    case StoreHead =>
      s.(head := Wrap(s.head + |s.writer.data|, length), committed := s.committed + s.writer.data, writer := WriterOut)
    case LoadHead => s.(reader := Counted(s.head))
    case StartGet(max) =>
      var n := Min(max, BytesIn(s.reader.seen, s.tail, length));
      s.(reader := if n == 0 then ReaderOut else Getting(n, []))
    case GetByte =>
      s.(reader := s.reader.(got := s.reader.got + [s.store[Wrap(s.tail + |s.reader.got|, length)]]))
    case StoreTail =>
      s.(tail := Wrap(s.tail + s.reader.wanted, length), received := s.received + s.reader.got, reader := ReaderOut)
  }

  // ------------------------------------------------------------------ the invariant

  function Buffered(s: Sys): seq<Byte>
    requires Shape(s)
  {
    Window(s.store, s.tail, BytesIn(s.head, s.tail, |s.store|))
  }

  /** A stale tail can only make the space look smaller, a stale head the bytes fewer; and
      the bytes a side is copying are those it should be. */
  ghost predicate SidesOk(s: Sys)
    requires Shape(s)
  {
    var length, used := |s.store|, BytesIn(s.head, s.tail, |s.store|);
    && (s.writer.Sized? ==> Spaces(s.head, s.writer.seen, length) <= Spaces(s.head, s.tail, length))
    && (s.reader.Counted? ==> BytesIn(s.reader.seen, s.tail, length) <= used)
    && (s.writer.Putting? ==>
          && used + |s.writer.data| < length
          && forall j :: 0 <= j < s.writer.done ==> s.store[Wrap(s.head + j, length)] == s.writer.data[j])
    && (s.reader.Getting? ==> s.reader.wanted <= used && s.reader.got == Window(s.store, s.tail, |s.reader.got|))
  }

  ghost predicate Inv(s: Sys) {
    Shape(s) && SidesOk(s) && s.committed == s.received + Buffered(s)
  }

  /** Reading on from where a shorter window ends. */
  lemma WindowSplits(store: seq<Byte>, p: nat, n: nat, k: nat)
    requires p < |store| && k <= n < |store|
    ensures Window(store, p, n) == Window(store, p, k) + Window(store, Wrap(p + k, |store|), n - k)
  {
    var w, a, b := Window(store, p, n), Window(store, p, k), Window(store, Wrap(p + k, |store|), n - k);
    forall i | 0 <= i < n ensures w[i] == (a + b)[i] {
      if i >= k { assert Wrap(Wrap(p + k, |store|) + (i - k), |store|) == Wrap(p + i, |store|); }
    }
  }

  /** Free positions are apart from used ones. */
  lemma FreeIsApart(head: nat, tail: nat, length: nat, i: nat, j: nat)
    requires head < length && tail < length
    requires i < BytesIn(head, tail, length) && j < length - BytesIn(head, tail, length)
    ensures Wrap(tail + i, length) != Wrap(head + j, length)
  {
  }

  lemma PositionsApart(head: nat, length: nat, i: nat, j: nat)
    requires head < length && i < j < length
    ensures Wrap(head + i, length) != Wrap(head + j, length)
  {
  }

  lemma PutByteKeepsWindow(s: Sys, n: nat)
    requires Inv(s) && Enabled(s, PutByte) && n <= BytesIn(s.head, s.tail, |s.store|)
    ensures var r := Next(s, PutByte); Window(r.store, r.tail, n) == Window(s.store, s.tail, n)
  {
    var r, length := Next(s, PutByte), |s.store|;
    forall i | 0 <= i < n ensures Window(r.store, r.tail, n)[i] == Window(s.store, s.tail, n)[i] {
      FreeIsApart(s.head, s.tail, length, i, s.writer.done);
    }
  }

  lemma PutByteKeepsInv(s: Sys)
    requires Inv(s) && Enabled(s, PutByte)
    ensures Inv(Next(s, PutByte))
  {
    var r, length := Next(s, PutByte), |s.store|;
    PutByteKeepsWindow(s, BytesIn(s.head, s.tail, length));
    if s.reader.Getting? { PutByteKeepsWindow(s, |s.reader.got|); }
    forall j | 0 <= j < r.writer.done ensures r.store[Wrap(s.head + j, length)] == r.writer.data[j] {
      if j < s.writer.done { PositionsApart(s.head, length, j, s.writer.done); }
    }
  }

  lemma StoreHeadKeepsInv(s: Sys)
    requires Inv(s) && Enabled(s, StoreHead)
    ensures Inv(Next(s, StoreHead))
  {
    var r, length, data := Next(s, StoreHead), |s.store|, s.writer.data;
    var used := BytesIn(s.head, s.tail, length);
    assert BytesIn(r.head, r.tail, length) == used + |data| && Wrap(s.tail + used, length) == s.head;
    WindowSplits(s.store, s.tail, used + |data|, used);
    assert Window(s.store, s.head, |data|) == data;
  }

  lemma StoreTailKeepsInv(s: Sys)
    requires Inv(s) && Enabled(s, StoreTail)
    ensures Inv(Next(s, StoreTail))
  {
    var r, length, n := Next(s, StoreTail), |s.store|, s.reader.wanted;
    var used := BytesIn(s.head, s.tail, length);
    assert BytesIn(r.head, r.tail, length) == used - n;
    WindowSplits(s.store, s.tail, used, n);
  }

  lemma StepKeepsInv(s: Sys, step: Step)
    requires Inv(s) && Enabled(s, step)
    ensures Inv(Next(s, step))
  {
    match step
    case PutByte => PutByteKeepsInv(s);
    case StoreHead => StoreHeadKeepsInv(s);
    case StoreTail => StoreTailKeepsInv(s);
    case StartPut(_) => SpacesAndBytes(s.head, s.tail, |s.store|);
    case GetByte =>
    case _ =>
  }

  ghost predicate Initial(s: Sys) {
    && s.store != [] && s.head == s.tail == 0 && s.writer == WriterOut && s.reader == ReaderOut
    && s.committed == s.received == []
  }

  ghost predicate Run(s: Sys, steps: seq<Step>, s': Sys)
    requires Inv(s)
    decreases |steps|
  {
    if steps == [] then s' == s
    else Enabled(s, steps[0]) && (StepKeepsInv(s, steps[0]); Run(Next(s, steps[0]), steps[1..], s'))
  }

  lemma {:induction false} RunKeepsInv(s: Sys, steps: seq<Step>, s': Sys)
    requires Inv(s) && Run(s, steps, s')
    ensures Inv(s')
    decreases |steps|
  {
    if steps != [] {
      StepKeepsInv(s, steps[0]);
      RunKeepsInv(Next(s, steps[0]), steps[1..], s');
    }
  }

  /** The buffer is a FIFO under every interleaving: the bytes received followed by the
      bytes in the buffer are always exactly the bytes committed, in order. */
  lemma StreamIsFifo(s: Sys, steps: seq<Step>, s': Sys)
    requires Initial(s) && Inv(s) && Run(s, steps, s')
    ensures Shape(s') && s'.received + Buffered(s') == s'.committed
  {
    RunKeepsInv(s, steps, s');
  }

  /** A stale reading is a safe lower bound: the space the writer computed is really free,
      and the bytes the reader counted are really there. */
  lemma StaleReadingsAreSafe(s: Sys, steps: seq<Step>, s': Sys)
    requires Initial(s) && Inv(s) && Run(s, steps, s')
    ensures Shape(s')
    ensures s'.writer.Sized? ==> Spaces(s'.head, s'.writer.seen, |s'.store|) + |Buffered(s')| <= |s'.store| - 1
    ensures s'.reader.Counted? ==> BytesIn(s'.reader.seen, s'.tail, |s'.store|) <= |Buffered(s')|
  {
    RunKeepsInv(s, steps, s');
    SpacesAndBytes(s'.head, s'.tail, |s'.store|);
  }

  // ------------------------------------------------------------------ how much a call moves

  /** A send goes on with as much of its data as fits the space it counted: all of it, or all
      that there is room for; it gives up only when there is no room at all. */
  lemma SendTakesWhatFits(s: Sys, data: seq<Byte>)
    requires Shape(s) && Enabled(s, StartPut(data))
    ensures var r, space := Next(s, StartPut(data)), Spaces(s.head, s.writer.seen, |s.store|);
            && r == s.(writer := r.writer)
            && (r.writer.WriterOut? <==> space == 0)
            && (space > 0 ==>
                  && r.writer.Putting? && r.writer.done == 0 && r.writer.data != [] && r.writer.data <= data
                  && if |data| <= space then r.writer.data == data else |r.writer.data| == space)
  {
  }

  /** A receive goes on for as many bytes as were asked for, or for all it counted. */
  lemma ReceiveTakesWhatIsThere(s: Sys, max: nat)
    requires Shape(s) && Enabled(s, StartGet(max))
    ensures var r, count := Next(s, StartGet(max)), BytesIn(s.reader.seen, s.tail, |s.store|);
            && r == s.(reader := r.reader)
            && (r.reader.ReaderOut? <==> count == 0 || max == 0)
            && (r.reader.Getting? ==>
                  && r.reader.got == [] && 0 < r.reader.wanted
                  && if max <= count then r.reader.wanted == max else r.reader.wanted == count)
            && !r.reader.Counted?
  {
  }

  predicate BeginsSend(step: Step) {
    step.LoadTail? || step.StartPut?
  }

  predicate BeginsReceive(step: Step) {
    step.LoadHead? || step.StartGet?
  }

  /** What the writer has taken on and not yet made available. */
  function Underway(w: Writer): seq<Byte> {
    if w.Putting? then w.data else []
  }

  lemma StepCommits(s: Sys, step: Step)
    requires Inv(s) && Enabled(s, step) && !BeginsSend(step) && !s.writer.Sized?
    ensures var r := Next(s, step);
            r.committed + Underway(r.writer) == s.committed + Underway(s.writer) && !r.writer.Sized?
  {
  }

  /** With no further send begun, the writer makes available just what it has taken on. */
  lemma {:induction false} RunCommits(s: Sys, steps: seq<Step>, s': Sys)
    requires Inv(s) && Run(s, steps, s') && !s.writer.Sized?
    requires forall i :: 0 <= i < |steps| ==> !BeginsSend(steps[i])
    ensures s'.committed + Underway(s'.writer) == s.committed + Underway(s.writer)
    decreases |steps|
  {
    if steps != [] {
      StepKeepsInv(s, steps[0]);
      StepCommits(s, steps[0]);
      RunCommits(Next(s, steps[0]), steps[1..], s');
    }
  }

  /** A send that has ended, whatever the reader did meanwhile, made available all its data or
      as much as there was room for when it began; so when the reader took nothing out, the
      data is in the buffer to the last byte or the buffer is full. */
  lemma SendWritesWhatFits(s: Sys, data: seq<Byte>, steps: seq<Step>, s': Sys)
    requires Inv(s) && Enabled(s, LoadTail) && data != [] && Run(Next(s, LoadTail), [StartPut(data)] + steps, s')
    requires (forall i :: 0 <= i < |steps| ==> !BeginsSend(steps[i])) && s'.writer.WriterOut?
    ensures Inv(s')
    ensures var free := |s.store| - 1 - |Buffered(s)|;
            s'.committed == s.committed + data[..if |data| < free then |data| else free]
    ensures s'.received == s.received ==>
              s'.committed == s.committed + data || |Buffered(s')| == |s'.store| - 1
  {
    var sized := Next(s, LoadTail);
    StepKeepsInv(s, LoadTail);
    StepKeepsInv(sized, StartPut(data));
    assert ([StartPut(data)] + steps)[1..] == steps;
    SendTakesWhatFits(sized, data);
    SpacesAndBytes(s.head, s.tail, |s.store|);
    RunCommits(Next(sized, StartPut(data)), steps, s');
    RunKeepsInv(Next(sized, StartPut(data)), steps, s');
    RunKeepsStore(Next(sized, StartPut(data)), steps, s');
    assert |s.committed| == |s.received| + |Buffered(s)| && |s'.committed| == |s'.received| + |Buffered(s')|;
  }

  lemma {:induction false} RunKeepsStore(s: Sys, steps: seq<Step>, s': Sys)
    requires Inv(s) && Run(s, steps, s')
    ensures |s'.store| == |s.store| && s.committed <= s'.committed
    decreases |steps|
  {
    if steps != [] {
      StepKeepsInv(s, steps[0]);
      RunKeepsStore(Next(s, steps[0]), steps[1..], s');
    }
  }

  /** How many bytes the reader has set out to take and not yet taken. */
  function Owed(r: Reader): nat {
    if r.Getting? then r.wanted else 0
  }

  lemma StepReceives(s: Sys, step: Step)
    requires Inv(s) && Enabled(s, step) && !BeginsReceive(step) && !s.reader.Counted?
    ensures var r := Next(s, step);
            |r.received| + Owed(r.reader) == |s.received| + Owed(s.reader) && !r.reader.Counted?
  {
  }

  lemma {:induction false} RunReceives(s: Sys, steps: seq<Step>, s': Sys)
    requires Inv(s) && Run(s, steps, s') && !s.reader.Counted?
    requires forall i :: 0 <= i < |steps| ==> !BeginsReceive(steps[i])
    ensures |s'.received| + Owed(s'.reader) == |s.received| + Owed(s.reader)
    decreases |steps|
  {
    if steps != [] {
      StepKeepsInv(s, steps[0]);
      StepReceives(s, steps[0]);
      RunReceives(Next(s, steps[0]), steps[1..], s');
    }
  }

  lemma TakenFromFront(received: seq<Byte>, buffered: seq<Byte>, received': seq<Byte>, buffered': seq<Byte>, n: nat)
    requires received + buffered <= received' + buffered' && n <= |buffered| && |received'| == |received| + n
    ensures received' == received + buffered[..n]
  {
    assert received' == (received' + buffered')[..|received| + n];
  }

  /** A receive that has ended, whatever the writer did meanwhile, took the first bytes that
      were in the buffer when it began: as many as it asked for, or all of them. */
  lemma ReceiveTakesFirstBytes(s: Sys, max: nat, steps: seq<Step>, s': Sys)
    requires Inv(s) && Enabled(s, LoadHead) && Run(Next(s, LoadHead), [StartGet(max)] + steps, s')
    requires (forall i :: 0 <= i < |steps| ==> !BeginsReceive(steps[i])) && s'.reader.ReaderOut?
    ensures var there := |Buffered(s)|;
            s'.received == s.received + Buffered(s)[..if max < there then max else there]
  {
    var counted := Next(s, LoadHead);
    StepKeepsInv(s, LoadHead);
    StepKeepsInv(counted, StartGet(max));
    assert ([StartGet(max)] + steps)[1..] == steps;
    ReceiveTakesWhatIsThere(counted, max);
    RunReceives(Next(counted, StartGet(max)), steps, s');
    RunKeepsInv(Next(counted, StartGet(max)), steps, s');
    RunKeepsStore(Next(counted, StartGet(max)), steps, s');
    var there := |Buffered(s)|;
    TakenFromFront(s.received, Buffered(s), s'.received, Buffered(s'), if max < there then max else there);
  }

  function PutSteps(n: nat): (r: seq<Step>)
    ensures forall i :: 0 <= i < |r| ==> !BeginsSend(r[i])
  {
    if n == 0 then [StoreHead] else [PutByte] + PutSteps(n - 1)
  }

  /** The writer never waits for the reader: once it has taken data on, its own steps end
      the send. */
  lemma {:induction false} WriterEndsAlone(s: Sys) returns (s': Sys)
    requires Inv(s) && s.writer.Putting?
    ensures Run(s, PutSteps(|s.writer.data| - s.writer.done), s') && s'.writer.WriterOut?
    ensures s'.received == s.received && s'.committed == s.committed + s.writer.data
    decreases |s.writer.data| - s.writer.done
  {
    var n := |s.writer.data| - s.writer.done;
    var step := PutSteps(n)[0];
    StepKeepsInv(s, step);
    var r := Next(s, step);
    if n == 0 {
      s' := r;
    } else {
      assert PutSteps(n)[1..] == PutSteps(n - 1);
      s' := WriterEndsAlone(r);
    }
  }
}
