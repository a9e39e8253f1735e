/** Message buffers (stream_buffer.c): discrete messages, each stored as its length and
    then its bytes, over the circular byte buffer, without blocking.

    `k` is the number of bytes of the length field, little-endian. */
module MessageBuffers {
  import opened Common
  import opened StreamBuffers

  // ------------------------------------------------------------------ the length field

  function Power256(k: nat): (r: nat)
    ensures r > 0
  {
    if k == 0 then 1 else 256 * Power256(k - 1)
  }

  function LittleEndian(n: nat, k: nat): (r: seq<Byte>)
    ensures |r| == k
  {
    if k == 0 then [] else [n % 256] + LittleEndian(n / 256, k - 1)
  }

  function FromLittleEndian(s: seq<Byte>): nat {
    if s == [] then 0 else s[0] + 256 * FromLittleEndian(s[1..])
  }

  /** A length that fits the field is read back as it was written. */
  lemma {:induction false} LengthRoundTrips(n: nat, k: nat)
    requires n < Power256(k)
    ensures FromLittleEndian(LittleEndian(n, k)) == n
  {
    if k > 0 {
      LengthRoundTrips(n / 256, k - 1);
      assert LittleEndian(n, k)[1..] == LittleEndian(n / 256, k - 1);
    }
  }

  // ------------------------------------------------------------------ messages as bytes

  function Frame(m: seq<Byte>, k: nat): (r: seq<Byte>)
    ensures |r| == k + |m|
  {
    LittleEndian(|m|, k) + m
  }

  function Frames(ms: seq<seq<Byte>>, k: nat): seq<Byte> {
    if ms == [] then [] else Frame(ms[0], k) + Frames(ms[1..], k)
  }

  /** What a message buffer accepts: not empty, and of a length that fits the field. */
  predicate Sendable(m: seq<Byte>, k: nat) {
    0 < |m| < Power256(k)
  }

  /** `xStreamBufferSend` without blocking: the bytes then stored, and the return value. */
  function Send(contents: seq<Byte>, capacity: nat, m: seq<Byte>, k: nat): (r: (seq<Byte>, nat))
    requires |contents| <= capacity
    ensures |r.0| <= capacity
  {
    var space := capacity - |contents|;
    if space == 0 then (contents, 0)
    else if space >= |m| + k then (contents + Frame(m, k), |m|)
    else (contents, 0)
  }

  /** `xStreamBufferReceive` without blocking, into a buffer of `room` bytes: the bytes then
      stored, and the bytes received. */
  function Receive(contents: seq<Byte>, room: nat, k: nat): (r: (seq<Byte>, seq<Byte>))
    ensures |r.0| <= |contents|
  {
    if |contents| <= k then (contents, [])
    else
      var length := FromLittleEndian(contents[..k]);
      if length > room then (contents, [])
      else
        var count := Min(|contents| - k, length);
        (contents[k + count..], contents[k..k + count])
  }

  lemma {:induction false} FramesAppend(ms: seq<seq<Byte>>, m: seq<Byte>, k: nat)
    ensures Frames(ms + [m], k) == Frames(ms, k) + Frame(m, k)
  {
    if ms == [] {
      assert [] + [m] == [m] && [m][1..] == [];
      assert Frames([m], k) == Frame(m, k) + [];
    } else {
      var first, rest, last := Frame(ms[0], k), Frames(ms[1..], k), Frame(m, k);
      FramesAppend(ms[1..], m, k);
      assert (ms + [m])[1..] == ms[1..] + [m] && (ms + [m])[0] == ms[0];
      assert first + (rest + last) == (first + rest) + last;
    }
  }

  predicate AllSendable(ms: seq<seq<Byte>>, k: nat) {
    forall i :: 0 <= i < |ms| ==> Sendable(ms[i], k)
  }

  /** A send appends exactly its message, or changes nothing and returns 0. */
  lemma SendAppends(ms: seq<seq<Byte>>, capacity: nat, m: seq<Byte>, k: nat)
    requires Sendable(m, k) && |Frames(ms, k)| <= capacity
    ensures var (contents, sent) := Send(Frames(ms, k), capacity, m, k);
            if |Frames(ms, k)| + k + |m| <= capacity then contents == Frames(ms + [m], k) && sent == |m|
            else contents == Frames(ms, k) && sent == 0
  {
    FramesAppend(ms, m, k);
  }

  /** A receive takes exactly the first message, with its own bytes; into a buffer too
      small for it, or with none there, it takes nothing and changes nothing. */
  lemma ReceiveTakesFirst(ms: seq<seq<Byte>>, room: nat, k: nat)
    requires AllSendable(ms, k)
    ensures var (contents, message) := Receive(Frames(ms, k), room, k);
            if ms != [] && |ms[0]| <= room then contents == Frames(ms[1..], k) && message == ms[0]
            else contents == Frames(ms, k) && message == []
  {
    if ms != [] {
      var m, rest, all := ms[0], Frames(ms[1..], k), Frames(ms, k);
      LengthRoundTrips(|m|, k);
      assert all == LittleEndian(|m|, k) + (m + rest);
      assert all[..k] == LittleEndian(|m|, k);
      assert all[k..k + |m|] == m && all[k + |m|..] == rest;
    }
  }

  /** The length field read ahead is that of the first message, and the assertion that a buffer
      with no more bytes than a length field is empty cannot fail. */
  lemma NextLengthIsFirst(ms: seq<seq<Byte>>, k: nat)
    requires AllSendable(ms, k)
    ensures |Frames(ms, k)| <= k ==> |Frames(ms, k)| == 0 && ms == []
    ensures |Frames(ms, k)| > k ==> ms != [] && FromLittleEndian(Frames(ms, k)[..k]) == |ms[0]|
  {
    if ms != [] {
      LengthRoundTrips(|ms[0]|, k);
      assert Frames(ms, k)[..k] == LittleEndian(|ms[0]|, k);
    }
  }

  /** The two reads of a receive: of the length, and of as many bytes or of none. */
  lemma ReceiveIs(contents: seq<Byte>, room: nat, k: nat)
    requires |contents| > k
    ensures var length, rest := FromLittleEndian(contents[..k]), contents[k..];
            Receive(contents, room, k) ==
              if length > room then (contents[0..], contents[..0])
              else (rest[Min(|rest|, length)..], rest[..Min(|rest|, length)])
  {
    TakenApart(contents, k, Min(|contents| - k, FromLittleEndian(contents[..k])));
  }

  // ------------------------------------------------------------------ runs

  datatype Op = Sending(m: seq<Byte>) | Receiving(room: nat)

  /** `accepted` are the messages whose send returned their length, `received` the
      messages a receive returned. */
  datatype History = History(contents: seq<Byte>, accepted: seq<seq<Byte>>, received: seq<seq<Byte>>)

  function Apply(h: History, op: Op, capacity: nat, k: nat): (r: History)
    requires |h.contents| <= capacity
    ensures |r.contents| <= capacity
  {
    match op
    case Sending(m) =>
      var (contents, sent) := Send(h.contents, capacity, m, k);
      h.(contents := contents, accepted := if sent > 0 then h.accepted + [m] else h.accepted)
    case Receiving(room) =>
      var (contents, message) := Receive(h.contents, room, k);
      h.(contents := contents, received := if message != [] then h.received + [message] else h.received)
  }

  predicate OpsOk(ops: seq<Op>, k: nat) {
    forall i :: 0 <= i < |ops| ==> ops[i].Sending? ==> Sendable(ops[i].m, k)
  }

  ghost function Pending(h: History): seq<seq<Byte>>
    requires |h.received| <= |h.accepted|
  {
    h.accepted[|h.received|..]
  }

  /** The messages received are the first ones accepted, and the buffer holds the rest. */
  ghost predicate Framed(h: History, k: nat) {
    && h.received <= h.accepted
    && AllSendable(h.accepted, k)
    && h.contents == Frames(Pending(h), k)
  }

  lemma ApplyKeepsFramed(h: History, op: Op, capacity: nat, k: nat)
    requires Framed(h, k) && |h.contents| <= capacity && (op.Sending? ==> Sendable(op.m, k))
    ensures Framed(Apply(h, op, capacity, k), k) && |Apply(h, op, capacity, k).contents| <= capacity
  {
    match op
    case Sending(m) => SendingKeepsFramed(h, m, capacity, k);
    case Receiving(room) => ReceivingKeepsFramed(h, room, capacity, k);
  }

  lemma SendingKeepsFramed(h: History, m: seq<Byte>, capacity: nat, k: nat)
    requires Framed(h, k) && |h.contents| <= capacity && Sendable(m, k)
    ensures Framed(Apply(h, Sending(m), capacity, k), k)
  {
    var r := Apply(h, Sending(m), capacity, k);
    SendAppends(Pending(h), capacity, m, k);
    if r.accepted != h.accepted { assert Pending(r) == Pending(h) + [m]; }
  }

  lemma ReceivingKeepsFramed(h: History, room: nat, capacity: nat, k: nat)
    requires Framed(h, k) && |h.contents| <= capacity
    ensures Framed(Apply(h, Receiving(room), capacity, k), k)
  {
    var r := Apply(h, Receiving(room), capacity, k);
    ReceiveTakesFirst(Pending(h), room, k);
    if r.received != h.received {
      assert h.accepted == h.received + Pending(h);
      assert Pending(r) == Pending(h)[1..];
    }
  }

  function ApplyAll(h: History, ops: seq<Op>, capacity: nat, k: nat): History
    requires |h.contents| <= capacity
    decreases |ops|
  {
    if ops == [] then h else ApplyAll(Apply(h, ops[0], capacity, k), ops[1..], capacity, k)
  }

  /** Framing round-trips: for any sequence of sends and receives the messages received are
      exactly the accepted ones, in order and byte for byte, and those not yet received are
      what the buffer holds. */
  lemma {:induction false} MessagesRoundTrip(h: History, ops: seq<Op>, capacity: nat, k: nat)
    requires Framed(h, k) && |h.contents| <= capacity && OpsOk(ops, k)
    ensures var r := ApplyAll(h, ops, capacity, k);
            r.received <= r.accepted && r.contents == Frames(Pending(r), k) && |r.contents| <= capacity
    decreases |ops|
  {
    if ops != [] {
      ApplyKeepsFramed(h, ops[0], capacity, k);
      MessagesRoundTrip(Apply(h, ops[0], capacity, k), ops[1..], capacity, k);
    }
  }

  // ------------------------------------------------------------------ the buffer in place

  class MessageBuffer {
    const storage: array<Byte>     // pucBuffer, of xLength bytes
    const k: nat                   // sbBYTES_TO_STORE_MESSAGE_LENGTH
    var head: nat                  // xHead
    var tail: nat                  // xTail

    ghost predicate Valid()
      reads this
    {
      head < storage.Length && tail < storage.Length && 0 < k < storage.Length
    }

    /** `xStreamBufferGenericCreate`: one byte more than asked for. */
    constructor (size: nat, k: nat)
      requires 0 < k < size
      ensures Valid() && Contents() == [] && Capacity() == size && this.k == k && fresh(storage)
    {
      storage := new Byte[size + 1](_ => 0);
      this.k := k;
      head, tail := 0, 0;
    }

    function Capacity(): int
      reads this
    {
      storage.Length - 1
    }

    ghost function Contents(): (r: seq<Byte>)
      requires Valid()
      reads this, storage
      ensures |r| <= Capacity()
    {
      Window(storage[..], tail, BytesIn(head, tail, storage.Length))
    }

    /** The copies of `prvWriteBytesToBuffer`: up to the end of the storage, and the rest to
        its start. */
    method CopyIn(data: seq<Byte>)
      requires head < storage.Length && |data| <= storage.Length
      modifies storage
      ensures CopiedIn(old(storage[..]), storage[..], head, data)
    {
      var first := Min(storage.Length - head, |data|);
      forall i | 0 <= i < first { storage[head + i] := data[i]; }
      if |data| > first {
        forall i | 0 <= i < |data| - first { storage[i] := data[first + i]; }
      }
    }

    /** `prvWriteBytesToBuffer`. */
    method WriteBytes(data: seq<Byte>)
      requires Valid() && 0 < |data| && |data| <= Capacity() - |Contents()|
      modifies this`head, storage
      ensures Valid() && Contents() == old(Contents()) + data
    {
      CopyIn(data);
      ghost var used := BytesIn(head, tail, storage.Length);
      Written(old(storage[..]), storage[..], head, tail, data);
      WindowSplits(storage[..], tail, used + |data|, used);
      var next := head + |data|;
      head := if next >= storage.Length then next - storage.Length else next;
    }

    /** The copies of `prvReadBytesFromBuffer`: up to the end of the storage, and the rest from
        its start. */
    method CopyOut(count: nat) returns (data: seq<Byte>)
      requires tail < storage.Length && count <= storage.Length
      ensures data == Window(storage[..], tail, count)
    {
      var first := Min(storage.Length - tail, count);
      data := storage[tail..tail + first];
      if count > first { data := data + storage[..count - first]; }
    }

    /** `prvReadBytesFromBuffer`. */
    method ReadBytes(max: nat, available: nat) returns (data: seq<Byte>)
      requires Valid() && available <= |Contents()|
      modifies this`tail
      ensures Valid()
      ensures data == old(Contents())[..Min(available, max)] && Contents() == old(Contents())[Min(available, max)..]
    {
      var length, count := storage.Length, Min(available, max);
      data := [];
      if count > 0 {
        WindowSplits(storage[..], tail, BytesIn(head, tail, length), count);
        data := CopyOut(count);
        var next := tail + count;
        tail := if next >= length then next - length else next;
      }
    }

    method Available() returns (n: nat)
      requires Valid()
      ensures n == |Contents()|
    {
      n := BytesIn(head, tail, storage.Length);
    }

    /** `xStreamBufferSend` without blocking, through `prvWriteMessageToBuffer`. */
    method SendMessage(m: seq<Byte>) returns (sent: nat)
      requires Valid() && Sendable(m, k)
      modifies this`head, storage
      ensures Valid() && (Contents(), sent) == Send(old(Contents()), Capacity(), m, k)
    {
      var space := Spaces(head, tail, storage.Length);
      SpacesAndBytes(head, tail, storage.Length);
      if space == 0 || space < |m| + k {
        sent := 0;
      } else {
        ghost var before := Contents();
        WriteBytes(LittleEndian(|m|, k));
        WriteBytes(m);
        assert before + LittleEndian(|m|, k) + m == before + Frame(m, k);
        sent := |m|;
      }
    }

    /** `xStreamBufferReceive` without blocking, through `prvReadMessageFromBuffer`: the tail
        is put back when the message does not fit. */
    method ReceiveMessage(room: nat) returns (m: seq<Byte>)
      requires Valid()
      modifies this`tail
      ensures Valid() && (Contents(), m) == Receive(old(Contents()), room, k)
    {
      var available := Available();
      m := [];
      if available > k {
        ghost var before := Contents();
        var originalTail := tail;
        var field := ReadBytes(k, available);
        available := available - k;
        var next := FromLittleEndian(field);
        ReceiveIs(before, room, k);
        if next > room {
          tail := originalTail;
          next := 0;
          assert Contents() == before;
        }
        m := ReadBytes(next, available);
      }
    }

    /** `xStreamBufferNextMessageLengthBytes`: the length of the first message, which stays
        where it is. */
    method NextMessageLength() returns (n: nat)
      requires Valid()
      modifies this`tail
      ensures Valid() && Contents() == old(Contents()) && tail == old(tail)
      ensures n == if |Contents()| > k then FromLittleEndian(Contents()[..k]) else 0
    {
      var available := Available();
      n := 0;
      if available > k {
        var originalTail := tail;
        var field := ReadBytes(k, available);
        n := FromLittleEndian(field);
        tail := originalTail;
      }
    }
  }

  lemma TakenApart(s: seq<Byte>, k: nat, n: nat)
    requires k + n <= |s|
    ensures s[k..][..n] == s[k..k + n] && s[k..][n..] == s[k + n..]
    ensures s[..0] == [] && s[0..] == s
  {
  }

  /** The data stands in the storage from the head on, wrapping, and nothing else changed. */
  ghost predicate CopiedIn(before: seq<Byte>, now: seq<Byte>, head: nat, data: seq<Byte>)
    requires head < |before|
  {
    var first := Min(|before| - head, |data|);
    && |now| == |before|
    && forall i :: 0 <= i < |before| ==>
         now[i] == if head <= i < head + first then data[i - head]
                  else if i < |data| - first then data[first + i] else before[i]
  }

  /** After both copies the old bytes are where they were and the new ones follow them. */
  lemma Written(before: seq<Byte>, now: seq<Byte>, head: nat, tail: nat, data: seq<Byte>)
    requires head < |before| && tail < |before| && 0 < |data| <= Spaces(head, tail, |before|)
    requires CopiedIn(before, now, head, data)
    ensures var used := BytesIn(head, tail, |before|);
            && Window(now, tail, used) == Window(before, tail, used)
            && Wrap(tail + used, |before|) == head && Window(now, head, |data|) == data
            && used + |data| < |before|
  {
    var used := BytesIn(head, tail, |before|);
    SpacesAndBytes(head, tail, |before|);
    forall i | 0 <= i < used ensures Window(now, tail, used)[i] == Window(before, tail, used)[i] {
    }
    forall i | 0 <= i < |data| ensures Window(now, head, |data|)[i] == data[i] {
    }
  }
}
