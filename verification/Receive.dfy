/** ServerCore/RecvBuffer and the receive path of Session and PacketSession: bytes arrive in chunks
    of any size that fits the buffer, and complete frames are handed on in order. */
module Receive {
  import opened Framing

  const BUFFER_SIZE := 0x10000
  const BUFFER_COUNT := 10

  // ---------------------------------------------------------------- PacketSession::OnRecv

  /** The loop of OnRecv as the source has it: position, packets handed on so far, left by break. */
  datatype Loop = Loop(pos: nat, packets: seq<Bytes>, exited: bool)

  function Turn(s: Bytes, l: Loop): Loop
    requires l.pos <= |s|
  {
    var d := s[l.pos..];
    if l.exited then l
    else if !Ready(d) then l.(exited := true)
    else Loop(l.pos + ReadLe16(d), l.packets + [d[..ReadLe16(d)]], false)
  }

  function Turns(s: Bytes, l: Loop, k: nat): (l': Loop)
    requires l.pos <= |s|
    ensures l'.pos <= |s|
    ensures l.exited ==> l' == l
    decreases k
  {
    if k == 0 then l else Turns(s, Turn(s, l), k - 1)
  }

  lemma {:induction false} TurnsSplit(s: Bytes, l: Loop, j: nat, k: nat)
    requires l.pos <= |s|
    ensures Turns(s, l, j + k) == Turns(s, Turns(s, l, j), k)
    decreases j
  {
    if j > 0 {
      TurnsSplit(s, Turn(s, l), j - 1, k);
    }
  }

  /** The loop runs through the complete frames and then leaves, or arrives at a frame of size 0. */
  lemma {:induction false} RunsThrough(s: Bytes, l: Loop) returns (k: nat)
    requires !l.exited && l.pos <= |s|
    ensures var d, e := s[l.pos..], Turns(s, l, k);
            && e.packets == l.packets + Frames(d)
            && e.pos == |s| - |Rest(d)| && s[e.pos..] == Rest(d)
            && (e.exited <==> !Stuck(d))
    decreases |s| - l.pos
  {
    var d := s[l.pos..];
    if !Ready(d) {
      k := 1;
      assert Turns(s, Turn(s, l), 0) == Turn(s, l);
    } else if ReadLe16(d) == 0 {
      k := 0;
    } else {
      var l' := Turn(s, l);
      assert s[l'.pos..] == d[ReadLe16(d)..];
      var j := RunsThrough(s, l');
      k := j + 1;
    }
  }

  function Empties(k: nat): seq<Bytes> { if k == 0 then [] else [[]] + Empties(k - 1) }

  /** At a frame of size 0 every turn hands on one more empty packet and moves nowhere. */
  lemma {:induction false} ZeroSpins(s: Bytes, l: Loop, k: nat)
    requires !l.exited && l.pos <= |s| && Ready(s[l.pos..]) && ReadLe16(s[l.pos..]) == 0
    ensures Turns(s, l, k) == Loop(l.pos, l.packets + Empties(k), false)
    decreases k
  {
    if k > 0 {
      assert s[l.pos..][..0] == [];
      ZeroSpins(s, Turn(s, l), k - 1);
      assert l.packets + [[]] + Empties(k - 1) == l.packets + Empties(k);
    }
  }

  /** If the loop is seen outside after k turns, then it is in the state RunsThrough arrives at. */
  lemma {:induction false} ExitAfter(s: Bytes, l: Loop, k: nat, k0: nat)
    requires !l.exited && l.pos <= |s| && Turns(s, l, k).exited
    requires var e := Turns(s, l, k0);
             e.exited || (Ready(s[e.pos..]) && ReadLe16(s[e.pos..]) == 0)
    ensures Turns(s, l, k) == Turns(s, l, k0)
  {
    if k <= k0 {
      TurnsSplit(s, l, k, k0 - k);
    } else {
      TurnsSplit(s, l, k0, k - k0);
      var e := Turns(s, l, k0);
      if !e.exited {
        ZeroSpins(s, e, k - k0);
      }
    }
  }

  /** OnRecv returns exactly when no frame of size 0 comes up; and then it has handed on the
      complete frames and consumed everything but the incomplete tail. */
  lemma {:induction false} HaltsExactly(s: Bytes)
    ensures |Rest(s)| <= |s|
    ensures (exists k :: Turns(s, Loop(0, [], false), k).exited) <==> !Stuck(s)
    ensures forall k :: Turns(s, Loop(0, [], false), k).exited ==>
              Turns(s, Loop(0, [], false), k) == Loop(|s| - |Rest(s)|, Frames(s), true)
  {
    var l := Loop(0, [], false);
    RestIsSuffix(s);
    assert s[0..] == s;
    var k0 := RunsThrough(s, l);
    forall k | Turns(s, l, k).exited
      ensures Turns(s, l, k) == Turns(s, l, k0)
    {
      ExitAfter(s, l, k, k0);
    }
  }

  /** Otherwise it hands on the complete frames in front of that frame, and then empty packets without
      end. */
  lemma {:induction false} HangsOn(s: Bytes) returns (k0: nat)
    requires Stuck(s)
    ensures |Rest(s)| <= |s|
    ensures forall k: nat :: Turns(s, Loop(0, [], false), k0 + k)
              == Loop(|s| - |Rest(s)|, Frames(s) + Empties(k), false)
  {
    var l := Loop(0, [], false);
    RestIsSuffix(s);
    assert s[0..] == s;
    k0 := RunsThrough(s, l);
    forall k: nat
      ensures Turns(s, l, k0 + k) == Loop(|s| - |Rest(s)|, Frames(s) + Empties(k), false)
    {
      TurnsSplit(s, l, k0, k);
      ZeroSpins(s, Turns(s, l, k0), k);
    }
  }

  /** PacketSession::OnRecv.  hung stands for the loop that never ends: HaltsExactly says when.  Then
      packets is what it handed on before it came to the frame of size 0, and HangsOn says what
      follows. */
  method OnRecv(data: Bytes) returns (processLen: nat, packets: seq<Bytes>, hung: bool)
    ensures packets == Frames(data)
    ensures hung <==> Stuck(data)
    ensures processLen <= |data| && data[processLen..] == Rest(data)
  {
    processLen, packets, hung := 0, [], false;
    assert data[0..] == data;
    while !hung
      invariant processLen <= |data|
      invariant Frames(data) == packets + Frames(data[processLen..])
      invariant Rest(data) == Rest(data[processLen..])
      invariant hung ==> Ready(data[processLen..]) && ReadLe16(data[processLen..]) == 0
      decreases !hung, |data| - processLen
    {
      var dataSize := |data| - processLen;
      if dataSize < HEADER_SIZE { break; }
      var size := ReadLe16(data[processLen..]);
      if dataSize < size { break; }
      if size == 0 {
        hung := true;
      } else {
        FirstFrame(data[processLen..]);
        assert data[processLen..][size..] == data[processLen + size..];
        packets := packets + [data[processLen..][..size]];
        processLen := processLen + size;
      }
    }
  }

  // ---------------------------------------------------------------- RecvBuffer

  class RecvBuffer {
    const bufferSize: nat
    const buffer: array<Byte>
    var readPos: nat
    var writePos: nat

    ghost predicate Valid()
      reads this
    {
      buffer.Length == bufferSize * BUFFER_COUNT && readPos <= writePos <= buffer.Length
    }

    /** The bytes received and not yet consumed. */
    ghost function Contents(): Bytes
      requires Valid()
      reads this, buffer
    {
      buffer[readPos..writePos]
    }

    constructor (size: nat)
      ensures Valid() && fresh(buffer) && bufferSize == size
      ensures readPos == 0 && writePos == 0
    {
      bufferSize := size;
      buffer := new Byte[size * BUFFER_COUNT](_ => 0);
      readPos, writePos := 0, 0;
    }

    function DataSize(): int
      reads this
    {
      writePos - readPos
    }

    function FreeSize(): int
      reads this
    {
      buffer.Length - writePos
    }

    /** Clean's memcpy copies between regions that must not overlap. */
    predicate CopyDisjoint()
      reads this
    {
      0 < DataSize() && FreeSize() < bufferSize ==> DataSize() <= readPos
    }

    /** Drops what was consumed: always when nothing is left, else only when room runs short.  What a
        copy between overlapping regions leaves behind is not promised. */
    method Clean()
      requires Valid()
      modifies this, buffer
      ensures Valid() && DataSize() == old(DataSize())
      ensures old(CopyDisjoint()) ==> Contents() == old(Contents())
      ensures DataSize() == 0 || old(FreeSize()) < bufferSize ==> readPos == 0
      ensures DataSize() > 0 && old(FreeSize()) >= bufferSize ==>
                readPos == old(readPos) && writePos == old(writePos)
    {
      var dataSize := DataSize();
      if dataSize == 0 {
        readPos, writePos := 0, 0;
      } else if FreeSize() < bufferSize {
        ghost var before := buffer[..];
        for i := 0 to dataSize
          modifies buffer
          invariant dataSize <= readPos ==> forall k :: 0 <= k < i ==> buffer[k] == before[readPos + k]
          invariant forall k :: dataSize <= k < buffer.Length ==> buffer[k] == before[k]
        {
          buffer[i] := buffer[readPos + i];
        }
        assert dataSize <= readPos ==> buffer[..dataSize] == before[readPos..writePos];
        readPos, writePos := 0, dataSize;
      }
    }

    method OnRead(numOfBytes: nat) returns (ok: bool)
      requires Valid()
      modifies this
      ensures Valid() && ok == (numOfBytes <= old(DataSize()))
      ensures ok ==> Contents() == old(Contents())[numOfBytes..] && writePos == old(writePos)
      ensures !ok ==> readPos == old(readPos) && writePos == old(writePos)
    {
      if numOfBytes > DataSize() { return false; }
      readPos := readPos + numOfBytes;
      return true;
    }

    method OnWrite(numOfBytes: nat) returns (ok: bool)
      requires Valid()
      modifies this
      ensures Valid() && ok == (numOfBytes <= old(FreeSize()))
      ensures ok ==> writePos == old(writePos) + numOfBytes && readPos == old(readPos)
      ensures !ok ==> readPos == old(readPos) && writePos == old(writePos)
    {
      if numOfBytes > FreeSize() { return false; }
      writePos := writePos + numOfBytes;
      return true;
    }

    /** The kernel's part of a WSARecv posted at WritePos for FreeSize bytes. */
    method Land(chunk: Bytes)
      requires Valid() && |chunk| <= FreeSize()
      modifies buffer
      ensures buffer[..writePos] == old(buffer[..writePos])
      ensures buffer[writePos..writePos + |chunk|] == chunk
    {
      for i := 0 to |chunk|
        invariant buffer[..writePos] == old(buffer[..writePos])
        invariant buffer[writePos..writePos + i] == chunk[..i]
      {
        buffer[writePos + i] := chunk[i];
      }
    }
  }

  // ---------------------------------------------------------------- Session::ProcessRecv

  datatype Outcome = Rearmed | NotRearmed | Closed | Overflowed | Hung

  class PacketSession {
    const recv: RecvBuffer
    var connected: bool
    var armed: bool           // a WSARecv is outstanding
    var delivered: seq<Bytes> // the frames given to OnRecvPacket, in order
    ghost var stream: Bytes   // every byte the peer's stream has brought in

    /** While receiving goes on, what was delivered is the frames of the stream so far, what is
        buffered is its incomplete tail, and a full buffer's worth of room is free. */
    ghost predicate Valid()
      reads this, recv, recv.buffer
    {
      && recv.Valid() && recv.bufferSize == BUFFER_SIZE
      && (armed ==>
            && !Stuck(stream)
            && delivered == Frames(stream)
            && recv.Contents() == Rest(stream)
            && recv.FreeSize() >= BUFFER_SIZE)
    }

    constructor ()
      ensures Valid() && fresh(recv) && fresh(recv.buffer)
      ensures connected && armed && delivered == [] && stream == []
    {
      recv := new RecvBuffer(BUFFER_SIZE);
      connected, armed, delivered := true, true, [];
      stream := [];
    }

    /** Completion of a receive that brought in chunk.  Of a hang, delivered has what came before the
        frame of size 0.  stillConnected and posted are what other
        threads and the kernel decide: whether RegisterRecv finds the session connected, and
        whether WSARecv can be posted again. */
    method ProcessRecv(chunk: Bytes, stillConnected: bool, posted: bool) returns (outcome: Outcome)
      requires Valid() && armed && |chunk| <= recv.FreeSize()
      modifies this, recv, recv.buffer
      ensures Valid() && stream == old(stream) + chunk
      ensures outcome.Closed? <==> chunk == []
      ensures outcome.Hung? <==> chunk != [] && Stuck(stream)
      ensures !outcome.Overflowed?
      ensures outcome.Rearmed? <==> armed
      ensures delivered == Frames(stream)
      ensures !outcome.Hung? ==>
                recv.Contents() == Rest(stream) && recv.DataSize() < MAX_FRAME && recv.FreeSize() >= BUFFER_SIZE
      ensures connected == (old(connected) && stillConnected && chunk != [])
      ensures !outcome.Hung? ==> armed == (connected && posted)
    {
      armed := false;
      connected := connected && stillConnected;
      if |chunk| == 0 {
        assert stream + [] == stream;
        TailBound(stream);
        connected := false;
        return Closed;
      }
      CutAnywhere(stream, chunk);
      stream := stream + chunk;
      var hung := false;
      var ok := Absorb(chunk);
      if ok { ok, hung := Consume(); }
      if hung { return Hung; }
      connected := connected && ok; // either overflow disconnects
      TailBound(stream);
      armed := connected && posted;
      return if !ok then Overflowed else if armed then Rearmed else NotRearmed;
    }

    /** The completed WSARecv and the write cursor. */
    method Absorb(chunk: Bytes) returns (ok: bool)
      requires recv.Valid() && |chunk| <= recv.FreeSize()
      modifies recv, recv.buffer
      ensures ok && recv.Valid() && recv.Contents() == old(recv.Contents()) + chunk
    {
      recv.Land(chunk);
      ok := recv.OnWrite(|chunk|);
    }

    /** Hands on the complete frames, moves the read cursor past them and tidies the buffer.  The
        leftover of a call that returns is a proper part of one frame, which is why the copy in
        Clean cannot overlap. */
    method Consume() returns (ok: bool, hung: bool)
      requires recv.Valid() && recv.bufferSize == BUFFER_SIZE
      modifies this`delivered, recv, recv.buffer
      ensures recv.Valid()
      ensures delivered == old(delivered) + Frames(old(recv.Contents()))
      ensures hung <==> Stuck(old(recv.Contents()))
      ensures !hung ==> ok && recv.Contents() == Rest(old(recv.Contents())) && recv.FreeSize() >= BUFFER_SIZE
    {
      ghost var data := recv.Contents();
      var processLen, packets;
      processLen, packets, hung := OnRecv(recv.buffer[recv.readPos..recv.writePos]);
      delivered := delivered + packets;
      ok := true;
      if !hung {
        TailBound(data);
        ok := recv.OnRead(processLen);
        recv.Clean();
      }
    }
  }

  /** One arrival of any length, taken in as many receives as the room in the buffer makes it. */
  method Feed(session: PacketSession, data: Bytes) returns (hung: bool)
    requires session.Valid() && session.armed && session.connected
    modifies session, session.recv, session.recv.buffer
    ensures session.Valid() && session.delivered == Frames(old(session.stream) + data)
    ensures hung <==> Stuck(old(session.stream) + data)
    ensures !hung ==> session.armed && session.connected && session.stream == old(session.stream) + data
    decreases |data|
  {
    if data == [] {
      assert session.stream + data == session.stream;
      return false;
    }
    var n := if |data| <= session.recv.FreeSize() then |data| else session.recv.FreeSize();
    var chunk, rest := data[..n], data[n..];
    ghost var now := session.stream + chunk;
    assert session.stream + data == now + rest;
    var outcome := session.ProcessRecv(chunk, true, true);
    if outcome.Hung? {
      StuckForGood(now, rest);
      return true;
    }
    hung := Feed(session, rest);
  }

  /** A session fed any stream, in pieces of any length, hands on exactly the complete frames of the
      whole stream, however it was cut, and keeps exactly its tail; it goes on receiving unless a
      frame of size 0 comes up. */
  method ReceiveAll(chunks: seq<Bytes>) returns (packets: seq<Bytes>, tail: Bytes, hung: bool)
    ensures packets == Frames(Concat(chunks))
    ensures hung <==> Stuck(Concat(chunks))
    ensures !hung ==> tail == Rest(Concat(chunks))
  {
    var session := new PacketSession();
    hung := false;
    for i := 0 to |chunks|
      invariant fresh(session) && fresh(session.recv) && fresh(session.recv.buffer)
      invariant session.Valid() && session.delivered == Frames(Concat(chunks[..i]))
      invariant hung <==> Stuck(Concat(chunks[..i]))
      invariant !hung ==> session.armed && session.connected && session.stream == Concat(chunks[..i])
    {
      assert chunks[..i + 1] == chunks[..i] + [chunks[i]];
      ConcatAppend(chunks[..i], chunks[i]);
      if hung {
        StuckForGood(Concat(chunks[..i]), chunks[i]);
      } else {
        hung := Feed(session, chunks[i]);
      }
    }
    assert chunks[..|chunks|] == chunks;
    packets := session.delivered;
    tail := if hung then [] else session.recv.buffer[session.recv.readPos..session.recv.writePos];
  }

  /** The far end: packets framed by one side, carried in any chunks, arrive as the same packets. */
  method ReceivePackets(ghost ps: seq<Packet>, chunks: seq<Bytes>) returns (arrived: seq<Packet>, tail: Bytes)
    requires forall i :: 0 <= i < |ps| ==> Sendable(ps[i])
    requires Concat(chunks) == Concat(EncodeEach(ps))
    ensures arrived == ps && tail == []
  {
    RoundTrip(ps);
    var packets, hung;
    packets, tail, hung := ReceiveAll(chunks);
    arrived := DecodeAll(packets);
  }
}
