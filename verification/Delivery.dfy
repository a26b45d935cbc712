/** From one end to the other: what the send path hands to a socket, carried as a byte stream in
    any chunks, is what the peer's PacketSession hands on. */
module Delivery {
  import opened Framing
  import opened Messaging

  /** The packets behind a list of buffers. */
  function Packets(content: Buffer -> Packet, sent: seq<Buffer>): (ps: seq<Packet>)
    ensures |ps| == |sent| && forall i :: 0 <= i < |sent| ==> ps[i] == content(sent[i])
  {
    seq(|sent|, i requires 0 <= i < |sent| => content(sent[i]))
  }

  /** The bytes given to WSASend so far, batch after batch. */
  ghost function Wire(content: Buffer -> Packet, sent: seq<Buffer>): Bytes
    requires forall b :: Sendable(content(b))
  {
    Concat(EncodeEach(Packets(content, sent)))
  }

  /** Frames complete in a prefix of a stream are the first frames of the stream. */
  lemma {:induction false} FramesOfPrefix(a: Bytes, b: Bytes)
    ensures Frames(a) <= Frames(a + b)
  {
    CutAnywhere(a, b);
  }

  lemma {:induction false} EncodeEachPrefix(ps: seq<Packet>, k: nat)
    requires forall i :: 0 <= i < |ps| ==> Sendable(ps[i])
    requires k <= |ps|
    ensures |EncodeEach(ps)| == |ps| && EncodeEach(ps[..k]) == EncodeEach(ps)[..k]
  {
    if k > 0 {
      assert ps[..k][1..] == ps[1..][..k - 1];
      EncodeEachPrefix(ps[1..], k - 1);
    } else if ps != [] {
      EncodeEachPrefix(ps[1..], 0);
    }
  }

  /** Cut the encoding of some packets anywhere: what is in front of the cut decodes to the first
      few of them. */
  lemma {:induction false} PacketsOfPrefix(ps: seq<Packet>, arrived: Bytes) returns (k: nat)
    requires forall i :: 0 <= i < |ps| ==> Sendable(ps[i])
    requires arrived <= Concat(EncodeEach(ps))
    ensures k <= |ps| && !Stuck(arrived)
    ensures forall j :: 0 <= j < |Frames(arrived)| ==> |Frames(arrived)[j]| >= HEADER_SIZE
    ensures DecodeAll(Frames(arrived)) == ps[..k]
  {
    FramesOfEncoded(ps);
    var rest := Concat(EncodeEach(ps))[|arrived|..];
    assert Concat(EncodeEach(ps)) == arrived + rest;
    FramesOfPrefix(arrived, rest);
    k := |Frames(arrived)|;
    EncodeEachPrefix(ps, |ps|);
    EncodeEachPrefix(ps, k);
    assert Frames(arrived) == EncodeEach(ps[..k]);
    DecodeEach(ps[..k]);
    if Stuck(arrived) { StuckForGood(arrived, rest); }
  }

  /** Whatever part of the bytes has arrived, the peer has been handed exactly the first k packets
      sent, for some k, in order; and the broadcasts of each room among them come in the order in
      which they were begun, as they do for every other member. */
  lemma {:induction false} PeerSeesPrefix(states: seq<State>, moves: seq<Move>, i: nat, q: nat,
                                          content: Buffer -> Packet, arrived: Bytes) returns (k: nat)
    requires Path(states, moves) && Init(states[0]) && i < |states| && q < |states[i].sessions|
    requires forall b :: Sendable(content(b))
    requires arrived <= Wire(content, Sent(states[i].sessions[q].taken))
    ensures var sent := Sent(states[i].sessions[q].taken);
            && k <= |sent| && InOrder(sent[..k])
            && (forall j :: 0 <= j < |Frames(arrived)| ==> |Frames(arrived)[j]| >= HEADER_SIZE)
            && DecodeAll(Frames(arrived)) == Packets(content, sent[..k])
            && !Stuck(arrived)
  {
    var sent := Sent(states[i].sessions[q].taken);
    SentInOrder(states, moves, i, q);
    k := PacketsOfPrefix(Packets(content, sent), arrived);
    assert Packets(content, sent)[..k] == Packets(content, sent[..k]);
  }
}
