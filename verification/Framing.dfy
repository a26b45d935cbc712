/** The wire format: a PacketHeader (16-bit size, 16-bit id, little endian) and a payload, the size
    counting the header; and how PacketSession::OnRecv cuts a byte stream into such frames. */
module Framing {

  newtype Byte = x: int | 0 <= x < 0x100

  type Bytes = seq<Byte>

  const HEADER_SIZE := 4
  const MAX_FRAME := 0xFFFF

  datatype Packet = Packet(id: nat, payload: Bytes)

  predicate Sendable(p: Packet) {
    p.id <= 0xFFFF && HEADER_SIZE + |p.payload| <= MAX_FRAME
  }

  function Le16(n: nat): (b: Bytes)
    requires n <= 0xFFFF
    ensures |b| == 2 && ReadLe16(b) == n
  {
    [(n % 0x100) as Byte, (n / 0x100) as Byte]
  }

  function ReadLe16(b: Bytes): (n: nat)
    requires |b| >= 2
    ensures n <= 0xFFFF
  {
    b[0] as int + 0x100 * b[1] as int
  }

  /** What MakeSendBuffer writes. */
  function Encode(p: Packet): Bytes
    requires Sendable(p)
  {
    Le16(HEADER_SIZE + |p.payload|) + Le16(p.id) + p.payload
  }

  /** What HandlePacket takes a frame apart into. */
  function Decode(f: Bytes): Packet
    requires |f| >= HEADER_SIZE
  {
    Packet(ReadLe16(f[2..]), f[HEADER_SIZE..])
  }

  /** A whole frame stands at the front: both tests of OnRecv's loop pass. */
  predicate Ready(s: Bytes) { |s| >= HEADER_SIZE && |s| >= ReadLe16(s) }

  /** The complete frames at the front of a stream, up to the first one that claims size 0. */
  function Frames(s: Bytes): seq<Bytes> {
    if Ready(s) && ReadLe16(s) > 0 then [s[..ReadLe16(s)]] + Frames(s[ReadLe16(s)..]) else []
  }

  /** What is left behind them. */
  function Rest(s: Bytes): Bytes {
    if Ready(s) && ReadLe16(s) > 0 then Rest(s[ReadLe16(s)..]) else s
  }

  /** A frame of size 0 comes up: OnRecv makes no progress on it. */
  predicate Stuck(s: Bytes) { Ready(Rest(s)) }

  function Concat(ss: seq<Bytes>): Bytes {
    if ss == [] then [] else ss[0] + Concat(ss[1..])
  }

  function EncodeEach(ps: seq<Packet>): seq<Bytes>
    requires forall i :: 0 <= i < |ps| ==> Sendable(ps[i])
  {
    if ps == [] then [] else [Encode(ps[0])] + EncodeEach(ps[1..])
  }

  function DecodeAll(fs: seq<Bytes>): seq<Packet>
    requires forall i :: 0 <= i < |fs| ==> |fs[i]| >= HEADER_SIZE
  {
    if fs == [] then [] else [Decode(fs[0])] + DecodeAll(fs[1..])
  }

  /** Fewer bytes than a header are left alone. */
  lemma {:induction false} ShortWaits(s: Bytes)
    requires |s| < HEADER_SIZE
    ensures Frames(s) == [] && Rest(s) == s && !Stuck(s)
  {
  }

  lemma {:induction false} FirstFrame(s: Bytes)
    requires Ready(s) && ReadLe16(s) > 0
    ensures var n := ReadLe16(s); Frames(s) == [s[..n]] + Frames(s[n..]) && Rest(s) == Rest(s[n..])
  {
  }

  /** Cutting a stream and resuming on the remainder loses and invents nothing, for every cut. */
  lemma {:induction false} CutAnywhere(a: Bytes, b: Bytes)
    ensures Frames(a + b) == Frames(a) + Frames(Rest(a) + b)
    ensures Rest(a + b) == Rest(Rest(a) + b)
    decreases |a|
  {
    if Ready(a) && ReadLe16(a) > 0 {
      var n, tail := ReadLe16(a), a[ReadLe16(a)..];
      FirstFrame(a);
      FrontFrame(a, b);
      CutAnywhere(tail, b);
      assert Frames(a + b) == [a[..n]] + Frames(tail) + Frames(Rest(tail) + b);
    } else {
      assert Frames(a + b) == [] + Frames(a + b);
    }
  }

  lemma {:induction false} FrontFrame(a: Bytes, b: Bytes)
    requires Ready(a) && ReadLe16(a) > 0
    ensures var n := ReadLe16(a);
            Frames(a + b) == [a[..n]] + Frames(a[n..] + b) && Rest(a + b) == Rest(a[n..] + b)
  {
    var n := ReadLe16(a);
    assert (a + b)[..n] == a[..n];
    assert (a + b)[n..] == a[n..] + b;
  }

  lemma {:induction false} ConcatAppend(ss: seq<Bytes>, x: Bytes)
    ensures Concat(ss + [x]) == Concat(ss) + x
  {
    if ss == [] {
      assert [] + [x] == [x];
    } else {
      assert (ss + [x])[1..] == ss[1..] + [x];
      ConcatAppend(ss[1..], x);
    }
  }

  /** Nothing that arrives later gets past a frame of size 0. */
  lemma {:induction false} StuckForGood(a: Bytes, b: Bytes)
    requires Stuck(a)
    ensures Stuck(a + b) && Frames(a + b) == Frames(a)
  {
    RestIsSuffix(a);
    CutAnywhere(a, b);
  }

  /** The remainder is a suffix, and any frame that stands complete in it claims size 0. */
  lemma {:induction false} RestIsSuffix(s: Bytes)
    ensures |Rest(s)| <= |s| && Rest(s) == s[|s| - |Rest(s)|..]
    ensures Ready(Rest(s)) ==> ReadLe16(Rest(s)) == 0
    decreases |s|
  {
    if Ready(s) && ReadLe16(s) > 0 {
      RestIsSuffix(s[ReadLe16(s)..]);
    }
  }

  /** An incomplete tail is shorter than the largest frame, by at least one byte. */
  lemma {:induction false} TailBound(s: Bytes)
    requires !Stuck(s)
    ensures |Rest(s)| < MAX_FRAME
  {
  }

  lemma {:induction false} DecodeEncode(p: Packet)
    requires Sendable(p)
    ensures |Encode(p)| == HEADER_SIZE + |p.payload| && ReadLe16(Encode(p)) == |Encode(p)|
    ensures Decode(Encode(p)) == p
    ensures var size, f := HEADER_SIZE + |p.payload|, Encode(p);
            && f[0] as int == size % 0x100 && f[1] as int == size / 0x100
            && f[2] as int == p.id % 0x100 && f[3] as int == p.id / 0x100
            && f[HEADER_SIZE..] == p.payload
  {
  }

  /** The bytes of encoded packets are cut back into exactly the encoded packets. */
  lemma {:induction false} FramesOfEncoded(ps: seq<Packet>)
    requires forall i :: 0 <= i < |ps| ==> Sendable(ps[i])
    ensures Frames(Concat(EncodeEach(ps))) == EncodeEach(ps)
    ensures Rest(Concat(EncodeEach(ps))) == []
  {
    if ps != [] {
      var f, tail := Encode(ps[0]), Concat(EncodeEach(ps[1..]));
      assert Concat(EncodeEach(ps)) == f + tail;
      DecodeEncode(ps[0]);
      FramesOfEncoded(ps[1..]);
      FrontFrame(f, tail);
      assert f[..|f|] == f && f[|f|..] + tail == tail;
    }
  }

  lemma {:induction false} DecodeEach(ps: seq<Packet>)
    requires forall i :: 0 <= i < |ps| ==> Sendable(ps[i])
    ensures forall i :: 0 <= i < |EncodeEach(ps)| ==> |EncodeEach(ps)[i]| >= HEADER_SIZE
    ensures DecodeAll(EncodeEach(ps)) == ps
  {
    if ps != [] {
      DecodeEncode(ps[0]);
      DecodeEach(ps[1..]);
      assert EncodeEach(ps)[1..] == EncodeEach(ps[1..]);
    }
  }

  /** Framing every packet of a list and cutting the bytes up again gives back the list, with
      nothing left over. */
  lemma {:induction false} RoundTrip(ps: seq<Packet>)
    requires forall i :: 0 <= i < |ps| ==> Sendable(ps[i])
    ensures var s := Concat(EncodeEach(ps));
            && Rest(s) == [] && !Stuck(s)
            && (forall i :: 0 <= i < |Frames(s)| ==> |Frames(s)[i]| >= HEADER_SIZE)
            && DecodeAll(Frames(s)) == ps
  {
    FramesOfEncoded(ps);
    DecodeEach(ps);
  }
}
