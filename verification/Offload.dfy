/** `rush/src/offload.rs`: splitting TCP segments and filling in checksums left out. */
module Offload {
  import opened Words
  import opened OnesComplement
  import opened Headers
  import opened Links

  const PAYLOAD_SIZE: nat := 65535

  // The Checksum app

  const TCP_CHECKSUM: nat := 50
  const UDP_CHECKSUM: nat := 40

  /** What the app looks into: IPv4 without options. */
  predicate PlainIp(s: seq<byte>)
    requires |s| >= HEADERS
  {
    EtherType(s) == TYPE_IPV4 && Ihl(s) <= 5
  }

  /** The length of what follows the IPv4 header, as 16-bit subtraction finds it. */
  function TransportLength(length: nat): u16 {
    (length - L4) % 0x1_0000
  }

  lemma TransportLengthIs(length: nat)
    requires L4 <= length < 0x1_0000
    ensures TransportLength(length) == length - L4
  {
  }

  /** The sender left the checksum to be filled in: its field holds the complement of the
      pseudo header's checksum. */
  predicate LeftOut(s: seq<byte>, length: nat, protocol: byte, at: nat)
    requires |s| >= HEADERS && at + 2 <= |s|
  {
    Get16(s, at) == Not16(PseudoChecksum(s, protocol, TransportLength(length)))
  }

  /** A frame with a checksum left out has a whole TCP or UDP header; on a shorter one the
      length of the payload wraps, and summing the payload runs out of the buffer. */
  predicate HeadersFit(s: seq<byte>, length: nat)
    requires |s| >= HEADERS
  {
    PlainIp(s) ==>
      && (Protocol(s) == PROTOCOL_TCP && LeftOut(s, length, PROTOCOL_TCP, TCP_CHECKSUM) ==> length >= 54)
      && (Protocol(s) == PROTOCOL_UDP && LeftOut(s, length, PROTOCOL_UDP, UDP_CHECKSUM) ==> length >= 42)
  }

  /** Where the payload that the app sums ends: the checksum left out of a header of `size`
      bytes, the 16-bit subtraction of the payload's length wrapping. */
  function SummedTo(length: nat, size: nat): nat {
    L4 + size + (length - (L4 + size)) % 0x1_0000
  }

  /** Nothing is summed beyond the packet buffer. */
  predicate SumsWithin(s: seq<byte>, length: nat)
    requires |s| >= HEADERS
  {
    PlainIp(s) ==>
      && (Protocol(s) == PROTOCOL_TCP && LeftOut(s, length, PROTOCOL_TCP, TCP_CHECKSUM) ==> SummedTo(length, 20) <= |s|)
      && (Protocol(s) == PROTOCOL_UDP && LeftOut(s, length, PROTOCOL_UDP, UDP_CHECKSUM) ==> SummedTo(length, 8) <= |s|)
  }

  /** The app stays within a packet's buffer exactly for the frames whose headers fit. */
  lemma SumsWithinExactly(s: seq<byte>, length: nat)
    requires |s| == PAYLOAD_SIZE && length <= PAYLOAD_SIZE
    ensures SumsWithin(s, length) <==> HeadersFit(s, length)
  {
    hide LeftOut, PlainIp, Protocol;
  }

  /** A frame of 40 bytes with the seed where its checksum would be: its headers do not fit. */
  lemma ShortFrameRunsOut(t: seq<byte>)
    requires |t| == PAYLOAD_SIZE && PlainIp(t) && Protocol(t) == PROTOCOL_TCP
    ensures var seed := Not16(PseudoChecksum(t, PROTOCOL_TCP, TransportLength(40)));
            !SumsWithin(Put16(t, TCP_CHECKSUM, seed), 40)
  {
    var seed := Not16(PseudoChecksum(t, PROTOCOL_TCP, TransportLength(40)));
    var s := Put16(t, TCP_CHECKSUM, seed);
    GetPut16(t, TCP_CHECKSUM, seed);
    PutElsewhere(t, TCP_CHECKSUM, seed, IP + 12, L4);
    SumsWithinExactly(s, 40);
    hide Ipsum, Not16, TransportLength;
    assert LeftOut(s, 40, PROTOCOL_TCP, TCP_CHECKSUM);
  }

  /** `maybe_fill_in_checksum`. */
  function FillIn(s: seq<byte>, length: nat): (r: seq<byte>)
    requires |s| >= HEADERS && length <= |s| && length < 0x1_0000 && HeadersFit(s, length)
    ensures |r| == |s|
  {
    if !PlainIp(s) then s
    else if Protocol(s) == PROTOCOL_TCP then Filled(s, length, PROTOCOL_TCP, 20, TCP_CHECKSUM)
    else if Protocol(s) == PROTOCOL_UDP then Filled(s, length, PROTOCOL_UDP, 8, UDP_CHECKSUM)
    else s
  }

  function Filled(s: seq<byte>, length: nat, protocol: byte, size: nat, at: nat): (r: seq<byte>)
    requires |s| >= HEADERS && length <= |s| && length < 0x1_0000
    requires L4 <= at && at + 2 <= L4 + size <= HEADERS
    requires LeftOut(s, length, protocol, at) ==> L4 + size <= length
    ensures |r| == |s|
  {
    var pseudo := PseudoChecksum(s, protocol, TransportLength(length));
    if LeftOut(s, length, protocol, at)
    then Put16(s, at, TransportChecksum(s, length, size, at, Not16(pseudo)))
    else s
  }

  method MaybeFillInChecksum(p: array<byte>, length: nat)
    requires p.Length >= HEADERS && length <= p.Length && length < 0x1_0000 && HeadersFit(p[..], length)
    modifies p
    ensures p[..] == FillIn(old(p[..]), length)
  {
    var s := p[..];
    hide Ipsum, TransportChecksum, PseudoChecksum;
    if PlainIp(s) {
      if Protocol(s) == PROTOCOL_TCP {
        FillInPlace(p, length, PROTOCOL_TCP, 20, TCP_CHECKSUM);
      } else if Protocol(s) == PROTOCOL_UDP {
        FillInPlace(p, length, PROTOCOL_UDP, 8, UDP_CHECKSUM);
      }
    }
  }

  method FillInPlace(p: array<byte>, length: nat, protocol: byte, size: nat, at: nat)
    requires p.Length >= HEADERS && length <= p.Length && length < 0x1_0000
    requires L4 <= at && at + 2 <= L4 + size <= HEADERS
    requires LeftOut(p[..], length, protocol, at) ==> L4 + size <= length
    modifies p
    ensures p[..] == Filled(old(p[..]), length, protocol, size, at)
  {
    var pseudo := PseudoChecksum(p[..], protocol, TransportLength(length));
    hide Ipsum, TransportChecksum, PseudoChecksum;
    if Get16(p[..], at) == Not16(pseudo) {
      TransportChecksumCompute(p, length, size, at, Not16(pseudo));
    }
  }

  /** A left-out checksum is filled in so that the segment or datagram verifies, and nothing
      but the checksum field changes. */
  lemma FilledVerifies(s: seq<byte>, length: nat, protocol: byte, size: nat, at: nat)
    requires |s| >= HEADERS && length <= |s| && length < 0x1_0000
    requires L4 <= at && at + 2 <= L4 + size <= HEADERS && L4 + size <= length && size % 2 == 0 && at % 2 == 0
    requires LeftOut(s, length, protocol, at)
    ensures TransportOk(Filled(s, length, protocol, size, at), length, protocol)
    ensures forall i :: 0 <= i < |s| && i != at && i != at + 1 ==> Filled(s, length, protocol, size, at)[i] == s[i]
  {
    hide TransportLength, TransportOk, TransportChecksum, PseudoChecksum, Not16, Get16;
    TransportLengthIs(length);
    ComputedTransportOk(s, length, size, at, protocol);
  }

  lemma FillInVerifies(s: seq<byte>, length: nat)
    requires |s| >= HEADERS && length <= |s| && length < 0x1_0000 && HeadersFit(s, length) && PlainIp(s)
    ensures Protocol(s) == PROTOCOL_TCP && LeftOut(s, length, PROTOCOL_TCP, TCP_CHECKSUM)
            ==> TransportOk(FillIn(s, length), length, PROTOCOL_TCP)
    ensures Protocol(s) == PROTOCOL_UDP && LeftOut(s, length, PROTOCOL_UDP, UDP_CHECKSUM)
            ==> TransportOk(FillIn(s, length), length, PROTOCOL_UDP)
  {
    if Protocol(s) == PROTOCOL_TCP && LeftOut(s, length, PROTOCOL_TCP, TCP_CHECKSUM) {
      FilledVerifies(s, length, PROTOCOL_TCP, 20, TCP_CHECKSUM);
    }
    if Protocol(s) == PROTOCOL_UDP && LeftOut(s, length, PROTOCOL_UDP, UDP_CHECKSUM) {
      FilledVerifies(s, length, PROTOCOL_UDP, 8, UDP_CHECKSUM);
    }
    hide TransportOk, Filled, LeftOut;
  }

  /** The app touches a packet only where a checksum was left out: plain IPv4, TCP or UDP,
      with the seed in the checksum field at offset 50 or 40; and it changes that field only. */
  lemma FillInOnlyLeftOut(s: seq<byte>, length: nat)
    requires |s| >= HEADERS && length <= |s| && length < 0x1_0000 && HeadersFit(s, length)
    ensures var r, at := FillIn(s, length), if s[23] == 6 then 50 else 40;
            && (forall i :: 0 <= i < |s| && i != at && i != at + 1 ==> r[i] == s[i])
            && (r != s ==>
                  && Get16(s, 12) == 0x0800 && s[14] % 16 <= 5 && (s[23] == 6 || s[23] == 17)
                  && Get16(s, at) == 0xFFFF - PseudoChecksum(s, s[23], (length - 34) % 0x1_0000))
  {
    hide TransportChecksum, PseudoChecksum, Get16;
  }

  /** The app never breaks a segment or a datagram: one that verifies still does. */
  lemma FillInKeepsGood(s: seq<byte>, length: nat)
    requires |s| >= HEADERS && L4 <= length <= |s| && length < 0x1_0000 && HeadersFit(s, length)
    ensures Protocol(s) == PROTOCOL_TCP && TransportOk(s, length, PROTOCOL_TCP)
            ==> TransportOk(FillIn(s, length), length, PROTOCOL_TCP)
    ensures Protocol(s) == PROTOCOL_UDP && TransportOk(s, length, PROTOCOL_UDP)
            ==> TransportOk(FillIn(s, length), length, PROTOCOL_UDP)
  {
    if PlainIp(s) {
      FillInVerifies(s, length);
    }
    FillInUnchanged(s, length);
    hide TransportOk, LeftOut, FillIn, PlainIp, Protocol, HeadersFit;
  }

  lemma FillInUnchanged(s: seq<byte>, length: nat)
    requires |s| >= HEADERS && length <= |s| && length < 0x1_0000 && HeadersFit(s, length)
    ensures FillIn(s, length) != s ==>
              && PlainIp(s)
              && (Protocol(s) == PROTOCOL_TCP ==> LeftOut(s, length, PROTOCOL_TCP, TCP_CHECKSUM))
              && (Protocol(s) == PROTOCOL_UDP ==> LeftOut(s, length, PROTOCOL_UDP, UDP_CHECKSUM))
  {
    hide LeftOut;
  }

  // The TSD app

  const SEQ: nat := 38

  /** Sequence numbers wrap at 2^32. */
  function NextSeq(q: u32, slen: nat): u32 {
    (q + slen) % W32
  }

  /** Where the payload starts. */
  function PayloadOffset(s: seq<byte>, length: nat): (ofs: nat)
    requires |s| >= HEADERS
    ensures ofs <= length
  {
    var end := L4 + TcpSize(s);
    if end < length then end else length
  }

  predicate Segmentable(s: seq<byte>, length: nat, mss: nat)
    requires |s| >= HEADERS
  {
    PlainIp(s) && Protocol(s) == PROTOCOL_TCP && length - PayloadOffset(s, length) > mss
  }

  /** The header fields that depend on the length of the frame, in the order they are set. */
  function SetLengths(h: seq<byte>, length: nat): (r: seq<byte>)
    requires HEADERS <= |h| && HEADERS <= length < 0x1_0000
    ensures |r| == |h|
  {
    var a := Put16(h, IP + 2, length - IP);
    var b := Put16(a, IP + 10, IpChecksum(a));
    Put16(b, TCP_CHECKSUM, Not16(PseudoChecksum(b, PROTOCOL_TCP, length - L4)))
  }

  /** The frame of one segment: `slen` bytes of payload from `at`, with sequence number `q`. */
  function Segment(s: seq<byte>, ofs: nat, at: nat, slen: nat, q: u32): (r: seq<byte>)
    requires HEADERS <= ofs && at + slen <= |s| && ofs <= |s| && ofs + slen < 0x1_0000
    ensures |r| == ofs + slen
  {
    SetLengths(Put32(s, SEQ, q), ofs + slen)[..ofs] + s[at..at + slen]
  }

  /** The segments of the last `left` bytes of a frame of `length` bytes. */
  function SegmentsFrom(s: seq<byte>, length: nat, ofs: nat, left: nat, mss: nat, q: u32): seq<seq<byte>>
    requires HEADERS <= ofs && ofs + left <= length <= |s| && length < 0x1_0000 && mss > 0
    decreases left
  {
    if left == 0 then []
    else
      var slen := Least(mss, left);
      [Segment(s, ofs, length - left, slen, q)] + SegmentsFrom(s, length, ofs, left - slen, mss, NextSeq(q, slen))
  }

  /** What `forward_tcp_segments` sends, in order. */
  function Forwarded(s: seq<byte>, length: nat, mss: nat): seq<seq<byte>>
    requires HEADERS <= |s| && length <= |s| && length < 0x1_0000 && mss > 0
  {
    if !Segmentable(s, length, mss) then [s[..length]]
    else SegmentsFrom(s, length, PayloadOffset(s, length), length - PayloadOffset(s, length), mss, Seq(s))
  }

  // The loop rewrites one header in place: what it leaves behind in the rewritten fields is
  // overwritten by the next turn

  predicate Rewritten(i: nat) {
    i == IP + 2 || i == IP + 3 || i == IP + 10 || i == IP + 11 || i == TCP_CHECKSUM || i == TCP_CHECKSUM + 1
  }

  predicate Agree(x: seq<byte>, y: seq<byte>) {
    |x| == |y| && forall i :: 0 <= i < |x| && !Rewritten(i) ==> x[i] == y[i]
  }

  lemma SetLengthsForgets(x: seq<byte>, y: seq<byte>, length: nat)
    requires HEADERS <= |x| && HEADERS <= length < 0x1_0000 && Agree(x, y)
    ensures SetLengths(x, length) == SetLengths(y, length)
    ensures Agree(SetLengths(x, length), y)
  {
    var a, a' := Put16(x, IP + 2, length - IP), Put16(y, IP + 2, length - IP);
    assert Put16(a, IP + 10, 0)[IP..L4] == Put16(a', IP + 10, 0)[IP..L4];
    var v := IpChecksum(a);
    assert v == IpChecksum(a');
    var b, b' := Put16(a, IP + 10, v), Put16(a', IP + 10, v);
    assert b[IP + 12..L4] == b'[IP + 12..L4];
    var w := Not16(PseudoChecksum(b, PROTOCOL_TCP, length - L4));
    assert w == Not16(PseudoChecksum(b', PROTOCOL_TCP, length - L4));
    hide IpChecksum, PseudoChecksum, Ipsum;
    assert SetLengths(x, length) == Put16(b, TCP_CHECKSUM, w);
    assert SetLengths(y, length) == Put16(b', TCP_CHECKSUM, w);
  }

  lemma Put32Agrees(x: seq<byte>, y: seq<byte>, v: u32, w: u32)
    requires |y| == |x| && HEADERS <= |x| && Agree(x, Put32(y, SEQ, v))
    ensures Seq(x) == v
    ensures Agree(Put32(x, SEQ, w), Put32(y, SEQ, w))
  {
    GetPut32(y, SEQ, v);
  }

  /** A segment's frame as a fresh packet holds it, whatever the packet held before. */
  method CopySegment(p: array<byte>, ofs: nat, at: nat, slen: nat) returns (frame: seq<byte>)
    requires ofs <= p.Length && at + slen <= p.Length && ofs + slen <= PAYLOAD_SIZE
    ensures frame == p[..ofs] + p[at..at + slen]
  {
    var data := new byte[PAYLOAD_SIZE];
    forall i | 0 <= i < ofs {
      data[i] := p[i];
    }
    forall i | 0 <= i < slen {
      data[ofs + i] := p[at + i];
    }
    frame := data[..ofs + slen];
  }

  /** One segment: rewrite the header's lengths and checksums, copy, transmit, and advance the
      sequence number. */
  method EmitSegment(output: Link<seq<byte>>, p: array<byte>, ghost s: seq<byte>,
                     ofs: nat, at: nat, slen: nat, ghost q: u32)
    requires output.Valid() && output.packets as object != p && |s| == p.Length == PAYLOAD_SIZE
    requires HEADERS <= ofs <= at && at + slen <= PAYLOAD_SIZE && ofs + slen <= PAYLOAD_SIZE
    requires Agree(p[..], Put32(s, SEQ, q))
    modifies p, output, output.packets
    ensures output.Valid() && output.history == Step(old(output.history), Send(Segment(s, ofs, at, slen, q)))
    ensures Agree(p[..], Put32(s, SEQ, NextSeq(q, slen)))
  {
    hide *;
    var frame := BuildSegment(p, s, ofs, at, slen, q);
    output.Transmit(frame);
    AdvanceSeq(p, s, q, slen);
  }

  method BuildSegment(p: array<byte>, ghost s: seq<byte>, ofs: nat, at: nat, slen: nat, ghost q: u32)
    returns (frame: seq<byte>)
    requires |s| == p.Length == PAYLOAD_SIZE
    requires HEADERS <= ofs <= at && at + slen <= PAYLOAD_SIZE && ofs + slen <= PAYLOAD_SIZE
    requires Agree(p[..], Put32(s, SEQ, q))
    modifies p
    ensures frame == Segment(s, ofs, at, slen, q)
    ensures Agree(p[..], Put32(s, SEQ, q))
  {
    ghost var s' := Put32(s, SEQ, q);
    SetLengthsForgets(p[..], s', ofs + slen);
    SetLengthsInPlace(p, ofs + slen);
    PayloadUntouched(p[..], s, q, at, slen);
    frame := CopySegment(p, ofs, at, slen);
    assert p[..ofs] == p[..][..ofs] && p[at..at + slen] == p[..][at..at + slen];
    hide Agree, SetLengths, Put32;
  }

  /** `tcp.set_seq(tcp.seq() + slen)`, wrapping. */
  method AdvanceSeq(p: array<byte>, ghost s: seq<byte>, ghost q: u32, slen: nat)
    requires |s| == p.Length == PAYLOAD_SIZE && Agree(p[..], Put32(s, SEQ, q))
    modifies p
    ensures Agree(p[..], Put32(s, SEQ, NextSeq(q, slen)))
  {
    Put32Agrees(p[..], s, q, NextSeq(q, slen));
    hide Agree, Put32, Seq;
    SetField32(p, SEQ, NextSeq(Seq(p[..]), slen));
  }

  method SetLengthsInPlace(p: array<byte>, length: nat)
    requires HEADERS <= p.Length && HEADERS <= length < 0x1_0000
    modifies p
    ensures p[..] == SetLengths(old(p[..]), length)
  {
    hide IpChecksum, PseudoChecksum, Put16;
    SetField16(p, IP + 2, length - IP);
    IpChecksumCompute(p);
    SetField16(p, TCP_CHECKSUM, Not16(PseudoChecksum(p[..], PROTOCOL_TCP, length - L4)));
  }

  /** Rewriting headers leaves the payload alone. */
  lemma PayloadUntouched(x: seq<byte>, s: seq<byte>, q: u32, at: nat, slen: nat)
    requires HEADERS <= |s| && Agree(x, Put32(s, SEQ, q)) && HEADERS <= at && at + slen <= |s|
    ensures x[at..at + slen] == s[at..at + slen]
  {
  }

  /** `forward_tcp_segments`. */
  method ForwardTcpSegments(output: Link<seq<byte>>, p: array<byte>, length: nat, mss: nat)
    requires output.Valid() && output.packets as object != p
    requires p.Length == PAYLOAD_SIZE && length <= PAYLOAD_SIZE && 0 < mss < 0x1_0000
    modifies p, output, output.packets
    ensures output.Valid()
    ensures output.history == SendAll(old(output.history), Forwarded(old(p[..]), length, mss))
  {
    ghost var s := p[..];
    if !Segmentable(p[..], length, mss) {
      assert p[..length] == s[..length];
      SendAllOne(output.history, p[..length]);
      output.Transmit(p[..length]);
    } else {
      SegmentLoop(output, p, length, mss);
    }
  }

  lemma SendAllOne(h: History<seq<byte>>, frame: seq<byte>)
    ensures SendAll(h, [frame]) == Step(h, Send(frame))
  {
    assert [frame][..0] == [];
  }

  /** What is sent so far and what is still to be sent make up `all`. */
  ghost predicate Segmenting(s: seq<byte>, p: seq<byte>, start: History<seq<byte>>, now: History<seq<byte>>,
                             length: nat, ofs: nat, left: nat, mss: nat, q: u32, all: seq<seq<byte>>, k: nat)
  {
    && |p| == |s| == PAYLOAD_SIZE && HEADERS <= ofs && ofs + left <= length <= PAYLOAD_SIZE && mss > 0
    && Agree(p, Put32(s, SEQ, q)) && k <= |all|
    && all[k..] == SegmentsFrom(s, length, ofs, left, mss, q)
    && now == SendAll(start, all[..k])
  }

  method SegmentLoop(output: Link<seq<byte>>, p: array<byte>, length: nat, mss: nat)
    requires output.Valid() && output.packets as object != p
    requires p.Length == PAYLOAD_SIZE && length <= PAYLOAD_SIZE && 0 < mss < 0x1_0000
    requires Segmentable(p[..], length, mss)
    modifies p, output, output.packets
    ensures output.Valid()
    ensures output.history == SendAll(old(output.history), Forwarded(old(p[..]), length, mss))
  {
    hide Segmenting, Forwarded, SegmentsFrom, SendAll, Step, Segmentable, PayloadOffset, Least, NextSeq;
    hide Seq, Segment, Put32, Agree, SetLengths, Link.Valid;
    ghost var s, start, all := p[..], output.history, Forwarded(p[..], length, mss);
    var ofs := PayloadOffset(p[..], length);
    ghost var q: u32 := Seq(s);
    ghost var k: nat := 0;
    var dataOfs, dataLength := ofs, length - ofs;
    SegmentingStart(s, start, length, mss);
    while dataLength > 0
      invariant output.Valid() && 0 <= dataLength && dataOfs + dataLength == length && ofs <= dataOfs
      invariant Segmenting(s, p[..], start, output.history, length, ofs, dataLength, mss, q, all, k)
    {
      var slen := Least(mss, dataLength);
      SegmentTurn(output, p, s, start, length, ofs, dataOfs, dataLength, mss, q, all, k);
      SomeTaken(mss, dataLength);
      dataOfs, dataLength, q, k := dataOfs + slen, dataLength - slen, NextSeq(q, slen), k + 1;
    }
    SegmentingEnd(s, p[..], start, output.history, length, ofs, mss, q, all, k);
  }

  lemma SomeTaken(mss: nat, left: nat)
    requires mss > 0 && left > 0
    ensures 0 < Least(mss, left) <= left
  {
  }

  lemma SegmentingStart(s: seq<byte>, start: History<seq<byte>>, length: nat, mss: nat)
    requires |s| == PAYLOAD_SIZE && length <= PAYLOAD_SIZE && mss > 0 && Segmentable(s, length, mss)
    ensures var ofs := PayloadOffset(s, length);
            Segmenting(s, s, start, start, length, ofs, length - ofs, mss, Seq(s), Forwarded(s, length, mss), 0)
  {
    var all := Forwarded(s, length, mss);
    SendNone(start);
    PutGet32(s, SEQ);
    assert all[0..] == all && all[..0] == [];
    hide SegmentsFrom, Put32, SendAll;
  }

  method SegmentTurn(output: Link<seq<byte>>, p: array<byte>, ghost s: seq<byte>, ghost start: History<seq<byte>>,
                     length: nat, ofs: nat, at: nat, left: nat, mss: nat, ghost q: u32,
                     ghost all: seq<seq<byte>>, ghost k: nat)
    requires output.Valid() && output.packets as object != p && p.Length == PAYLOAD_SIZE
    requires left > 0 && at + left == length && ofs <= at
    requires Segmenting(s, p[..], start, output.history, length, ofs, left, mss, q, all, k)
    modifies p, output, output.packets
    ensures output.Valid()
    ensures Segmenting(s, p[..], start, output.history, length, ofs, left - Least(mss, left), mss,
                       NextSeq(q, Least(mss, left)), all, k + 1)
  {
    hide *;
    SegmentingNext(s, p[..], start, output.history, length, ofs, left, mss, q, all, k);
    SegmentingBounds(s, p[..], start, output.history, length, ofs, left, mss, q, all, k);
    EmitSegment(output, p, s, ofs, at, Least(mss, left), q);
    SegmentingThen(s, p[..], start, output.history, length, ofs, left, mss, q, all, k);
  }

  lemma SegmentingBounds(s: seq<byte>, p: seq<byte>, start: History<seq<byte>>, now: History<seq<byte>>,
                         length: nat, ofs: nat, left: nat, mss: nat, q: u32, all: seq<seq<byte>>, k: nat)
    requires Segmenting(s, p, start, now, length, ofs, left, mss, q, all, k)
    ensures |p| == |s| == PAYLOAD_SIZE && HEADERS <= ofs && ofs + left <= length <= PAYLOAD_SIZE && mss > 0
    ensures Least(mss, left) <= left
  {
  }

  lemma SegmentingNext(s: seq<byte>, p: seq<byte>, start: History<seq<byte>>, now: History<seq<byte>>,
                       length: nat, ofs: nat, left: nat, mss: nat, q: u32, all: seq<seq<byte>>, k: nat)
    requires Segmenting(s, p, start, now, length, ofs, left, mss, q, all, k) && left > 0
    ensures |s| == PAYLOAD_SIZE && HEADERS <= ofs && ofs + Least(mss, left) <= PAYLOAD_SIZE
    ensures k < |all| && Agree(p, Put32(s, SEQ, q))
    ensures all[k] == Segment(s, ofs, length - left, Least(mss, left), q)
    ensures Step(now, Send(all[k])) == SendAll(start, all[..k + 1])
    ensures all[k + 1..] == SegmentsFrom(s, length, ofs, left - Least(mss, left), mss, NextSeq(q, Least(mss, left)))
  {
    assert all[k] == all[k..][0] && all[k + 1..] == all[k..][1..];
    SendNext(start, all, k);
    hide Segment, Agree, Put32, SendAll;
  }

  lemma SegmentingThen(s: seq<byte>, p: seq<byte>, start: History<seq<byte>>, now: History<seq<byte>>,
                       length: nat, ofs: nat, left: nat, mss: nat, q: u32, all: seq<seq<byte>>, k: nat)
    requires |p| == |s| == PAYLOAD_SIZE && HEADERS <= ofs && ofs + left <= length <= PAYLOAD_SIZE && mss > 0 && left > 0
    requires Agree(p, Put32(s, SEQ, NextSeq(q, Least(mss, left)))) && k < |all|
    requires now == SendAll(start, all[..k + 1])
    requires all[k + 1..] == SegmentsFrom(s, length, ofs, left - Least(mss, left), mss, NextSeq(q, Least(mss, left)))
    ensures Segmenting(s, p, start, now, length, ofs, left - Least(mss, left), mss, NextSeq(q, Least(mss, left)),
                       all, k + 1)
  {
    hide Agree, SendAll, SegmentsFrom;
  }

  lemma SegmentingEnd(s: seq<byte>, p: seq<byte>, start: History<seq<byte>>, now: History<seq<byte>>,
                      length: nat, ofs: nat, mss: nat, q: u32, all: seq<seq<byte>>, k: nat)
    requires Segmenting(s, p, start, now, length, ofs, 0, mss, q, all, k)
    ensures now == SendAll(start, all)
  {
    assert all[..k] == all;
  }

  // What the segments are

  /** The header of a segment, whatever follows it: lengths and both checksum fields are right,
      and the rest is copied from the original. */
  lemma SetLengthsOk(s: seq<byte>, q: u32, length: nat)
    requires HEADERS <= |s| && HEADERS <= length < 0x1_0000
    ensures var h := SetLengths(Put32(s, SEQ, q), length);
            && IpChecksumOk(h) && TotalLength(h) == length - IP && Seq(h) == q
            && LeftOut(h, length, PROTOCOL_TCP, TCP_CHECKSUM)
            && forall i :: 0 <= i < |h| && !Rewritten(i) && !(SEQ <= i < SEQ + 4) ==> h[i] == s[i]
  {
    TransportLengthIs(length);
    hide TransportLength;
    var s' := Put32(s, SEQ, q);
    var a := Put16(s', IP + 2, length - IP);
    var v := IpChecksum(a);
    var b := Put16(a, IP + 10, v);
    var w := Not16(PseudoChecksum(b, PROTOCOL_TCP, length - L4));
    var h := Put16(b, TCP_CHECKSUM, w);
    ComputedIpChecksumOk(a);
    PutElsewhere(b, TCP_CHECKSUM, w, IP, L4);
    PutElsewhere(b, TCP_CHECKSUM, w, IP + 12, L4);
    GetPut16(s', IP + 2, length - IP);
    GetPut16(b, TCP_CHECKSUM, w);
    GetPut32(s, SEQ, q);
    hide Ipsum, IpChecksum, Not16;
    assert TotalLength(h) == Get16(a, IP + 2);
    assert Seq(h) == Seq(s');
  }

  /** Everything those facts speak of lies in the first 54 bytes. */
  lemma HeaderOnly(h: seq<byte>, f: seq<byte>, length: nat)
    requires HEADERS <= |h| && HEADERS <= |f| && h[..HEADERS] == f[..HEADERS] && L4 <= length < 0x1_0000
    ensures IpChecksumOk(h) == IpChecksumOk(f) && TotalLength(h) == TotalLength(f) && Seq(h) == Seq(f)
    ensures PlainIp(h) == PlainIp(f) && Protocol(h) == Protocol(f)
    ensures LeftOut(h, length, PROTOCOL_TCP, TCP_CHECKSUM) == LeftOut(f, length, PROTOCOL_TCP, TCP_CHECKSUM)
  {
    assert forall i :: 0 <= i < HEADERS ==> h[i] == h[..HEADERS][i] && f[i] == f[..HEADERS][i];
    assert h[IP..L4] == f[IP..L4];
    assert h[IP + 12..L4] == f[IP + 12..L4];
    hide Ipsum, Not16;
  }

  /** What is true of every segment the app emits, in a packet whose buffer ends in any `tail`. */
  ghost predicate GoodSegment(f: seq<byte>, tail: seq<byte>, s: seq<byte>, ofs: nat, at: nat, slen: nat, q: u32) {
    && HEADERS <= ofs && |f| == ofs + slen < 0x1_0000 && at + slen <= |s| && ofs <= |s|
    && IpChecksumOk(f) && TotalLength(f) == |f| - IP && Seq(f) == q
    && PlainIp(f + tail) && Protocol(f + tail) == PROTOCOL_TCP
    && LeftOut(f + tail, |f|, PROTOCOL_TCP, TCP_CHECKSUM)
    && f[ofs..] == s[at..at + slen]
    && forall i :: 0 <= i < ofs && !Rewritten(i) && !(SEQ <= i < SEQ + 4) ==> f[i] == s[i]
  }

  lemma SegmentIs(s: seq<byte>, ofs: nat, at: nat, slen: nat, q: u32)
    requires HEADERS <= ofs <= |s| && at + slen <= |s| && ofs + slen < 0x1_0000
    ensures Segment(s, ofs, at, slen, q) == SetLengths(Put32(s, SEQ, q), ofs + slen)[..ofs] + s[at..at + slen]
  {
    hide SetLengths, Put32;
  }

  lemma SamePlain(s: seq<byte>, h: seq<byte>)
    requires HEADERS <= |s| == |h|
    requires forall i :: 0 <= i < |h| && !Rewritten(i) && !(SEQ <= i < SEQ + 4) ==> h[i] == s[i]
    ensures PlainIp(h) == PlainIp(s) && Protocol(h) == Protocol(s)
  {
  }

  lemma SegmentGood(s: seq<byte>, ofs: nat, at: nat, slen: nat, q: u32, tail: seq<byte>)
    requires HEADERS <= ofs <= |s| && at + slen <= |s| && ofs + slen < 0x1_0000
    requires PlainIp(s) && Protocol(s) == PROTOCOL_TCP
    ensures GoodSegment(Segment(s, ofs, at, slen, q), tail, s, ofs, at, slen, q)
  {
    hide IpChecksumOk, TotalLength, Seq, PlainIp, Protocol, LeftOut, Segment, SetLengths, Put32;
    var length := ofs + slen;
    var h := SetLengths(Put32(s, SEQ, q), length);
    var f := Segment(s, ofs, at, slen, q);
    SetLengthsOk(s, q, length);
    SamePlain(s, h);
    SegmentIs(s, ofs, at, slen, q);
    assert h[..HEADERS] == f[..HEADERS] && h[..HEADERS] == (f + tail)[..HEADERS];
    HeaderOnly(h, f, length);
    HeaderOnly(h, f + tail, length);
    forall i | 0 <= i < ofs && !Rewritten(i) && !(SEQ <= i < SEQ + 4)
      ensures f[i] == s[i]
    {
      assert f[i] == h[i];
    }
  }

  /** The Checksum app recognises every segment and completes its checksum: afterwards both
      the IP header checksum and the TCP checksum verify, and only the latter has changed. */
  lemma SegmentCompletes(f: seq<byte>, tail: seq<byte>, s: seq<byte>, ofs: nat, at: nat, slen: nat, q: u32)
    requires GoodSegment(f, tail, s, ofs, at, slen, q)
    ensures var g := FillIn(f + tail, |f|);
            && |g| == |f + tail| && TransportOk(g, |f|, PROTOCOL_TCP) && IpChecksumOk(g)
            && forall i :: 0 <= i < |f| && i != TCP_CHECKSUM && i != TCP_CHECKSUM + 1 ==> g[i] == f[i]
  {
    var g := FillIn(f + tail, |f|);
    FilledVerifies(f + tail, |f|, PROTOCOL_TCP, 20, TCP_CHECKSUM);
    hide LeftOut, TransportOk, Filled;
    assert g == Filled(f + tail, |f|, PROTOCOL_TCP, 20, TCP_CHECKSUM);
    assert forall i :: 0 <= i < |f| ==> (f + tail)[i] == f[i];
    assert g[IP..L4] == f[IP..L4];
    hide Ipsum;
  }

  // All segments of a packet

  /** The bytes of `i` full segments. */
  function Full(mss: nat, i: nat): nat {
    if i == 0 then 0 else Full(mss, i - 1) + mss
  }

  lemma {:induction false} FullIs(mss: nat, i: nat)
    ensures Full(mss, i) == mss * i
  {
    if i > 0 {
      FullIs(mss, i - 1);
      assert mss * i == mss * (i - 1) + mss;
    }
  }

  lemma SegmentsNone(s: seq<byte>, length: nat, ofs: nat, mss: nat, q: u32)
    requires HEADERS <= ofs <= length <= |s| && length < 0x1_0000 && mss > 0
    ensures SegmentsFrom(s, length, ofs, 0, mss, q) == []
  {
  }

  lemma SegmentsHead(s: seq<byte>, length: nat, ofs: nat, left: nat, mss: nat, q: u32)
    requires HEADERS <= ofs && ofs + left <= length <= |s| && length < 0x1_0000 && mss > 0 && left > 0
    ensures SegmentsFrom(s, length, ofs, left, mss, q)
            == [Segment(s, ofs, length - left, Least(mss, left), q)]
               + SegmentsFrom(s, length, ofs, left - Least(mss, left), mss, NextSeq(q, Least(mss, left)))
  {
  }

  /** There are ceil(left/mss) segments. */
  lemma {:induction false} SegmentCount(s: seq<byte>, length: nat, ofs: nat, left: nat, mss: nat, q: u32)
    requires HEADERS <= ofs && ofs + left <= length <= |s| && length < 0x1_0000 && mss > 0
    ensures var n := |SegmentsFrom(s, length, ofs, left, mss, q)|;
            if left == 0 then n == 0 else n > 0 && Full(mss, n - 1) < left <= Full(mss, n)
    decreases left
  {
    hide Segment, SegmentsFrom, NextSeq;
    SegmentsNone(s, length, ofs, mss, q);
    if left > 0 {
      SegmentsHead(s, length, ofs, left, mss, q);
      var rest := SegmentsFrom(s, length, ofs, left - Least(mss, left), mss, NextSeq(q, Least(mss, left)));
      SegmentCount(s, length, ofs, left - Least(mss, left), mss, NextSeq(q, Least(mss, left)));
      FullAgain(mss, |rest| + 1);
      if |rest| > 0 {
        FullAgain(mss, |rest|);
      }
    }
  }

  /** The i-th segment carries the next `mss` bytes, or what is left, and the sequence number
      of its first byte. */
  lemma {:induction false} SegmentAt(s: seq<byte>, length: nat, ofs: nat, left: nat, mss: nat, q: u32, i: nat)
    requires HEADERS <= ofs && ofs + left <= length <= |s| && length < 0x1_0000 && mss > 0
    requires Full(mss, i) < left
    ensures i < |SegmentsFrom(s, length, ofs, left, mss, q)|
    ensures SegmentsFrom(s, length, ofs, left, mss, q)[i]
            == Segment(s, ofs, length - left + Full(mss, i), Least(mss, left - Full(mss, i)), NextSeq(q, Full(mss, i)))
    decreases i
  {
    hide Segment, SegmentsFrom, NextSeq;
    SegmentsHead(s, length, ofs, left, mss, q);
    if i == 0 {
      NextSeqTwice(q, 0, 0);
    } else {
      FullAgain(mss, i);
      hide Full;
      assert Least(mss, left) == mss;
      SegmentAt(s, length, ofs, left - mss, mss, NextSeq(q, mss), i - 1);
      NextSeqTwice(q, mss, Full(mss, i - 1));
    }
  }

  lemma {:induction false} FullAgain(mss: nat, i: nat)
    requires i > 0
    ensures Full(mss, i) == mss + Full(mss, i - 1)
  {
  }

  lemma NextSeqTwice(q: u32, a: nat, b: nat)
    ensures NextSeq(NextSeq(q, a), b) == NextSeq(q, a + b)
    ensures NextSeq(q, 0) == q
  {
  }

  /** The payloads of some frames, one after the other. */
  function Payloads(frames: seq<seq<byte>>, ofs: nat): seq<byte> {
    if frames == [] then []
    else (if ofs <= |frames[0]| then frames[0][ofs..] else []) + Payloads(frames[1..], ofs)
  }

  lemma {:induction false} PayloadsConcatenate(s: seq<byte>, length: nat, ofs: nat, left: nat, mss: nat, q: u32)
    requires HEADERS <= ofs && ofs + left <= length <= |s| && length < 0x1_0000 && mss > 0
    ensures Payloads(SegmentsFrom(s, length, ofs, left, mss, q), ofs) == s[length - left..length]
    decreases left
  {
    hide Segment, SegmentsFrom, NextSeq, Payloads;
    if left == 0 {
      SegmentsNone(s, length, ofs, mss, q);
      PayloadsNone(ofs);
    } else {
      var slen := Least(mss, left);
      PayloadsConcatenate(s, length, ofs, left - slen, mss, NextSeq(q, slen));
      SegmentsHead(s, length, ofs, left, mss, q);
      SegmentPayload(s, ofs, length - left, slen, q);
      PayloadsHead(Segment(s, ofs, length - left, slen, q),
                   SegmentsFrom(s, length, ofs, left - slen, mss, NextSeq(q, slen)), ofs);
      assert s[length - left..length - left + slen] + s[length - left + slen..length] == s[length - left..length];
    }
  }

  lemma SegmentPayload(s: seq<byte>, ofs: nat, at: nat, slen: nat, q: u32)
    requires HEADERS <= ofs <= |s| && at + slen <= |s| && ofs + slen < 0x1_0000
    ensures Segment(s, ofs, at, slen, q)[ofs..] == s[at..at + slen]
  {
  }

  lemma PayloadsNone(ofs: nat)
    ensures Payloads([], ofs) == []
  {
  }

  lemma PayloadsHead(first: seq<byte>, rest: seq<seq<byte>>, ofs: nat)
    requires ofs <= |first|
    ensures Payloads([first] + rest, ofs) == first[ofs..] + Payloads(rest, ofs)
  {
    assert ([first] + rest)[1..] == rest;
  }

  lemma ForwardedIs(s: seq<byte>, length: nat, mss: nat)
    requires |s| == PAYLOAD_SIZE && length <= PAYLOAD_SIZE && mss > 0 && Segmentable(s, length, mss)
    ensures var ofs := PayloadOffset(s, length);
            && HEADERS <= ofs && length - ofs > mss && PlainIp(s) && Protocol(s) == PROTOCOL_TCP
            && Forwarded(s, length, mss) == SegmentsFrom(s, length, ofs, length - ofs, mss, Seq(s))
  {
  }

  /** The whole of splitting, for every packet the app splits: ceil(payload/mss) frames whose
      payloads make up the original payload. */
  lemma SplitIntoSegments(s: seq<byte>, length: nat, mss: nat)
    requires |s| == PAYLOAD_SIZE && length <= PAYLOAD_SIZE && mss > 0 && Segmentable(s, length, mss)
    ensures var ofs, frames := PayloadOffset(s, length), Forwarded(s, length, mss);
            && |frames| > 1 && Full(mss, |frames| - 1) < length - ofs <= Full(mss, |frames|)
            && Payloads(frames, ofs) == s[ofs..length]
  {
    hide SegmentsFrom, Payloads, Forwarded, PayloadOffset, Segmentable, Full, Seq, PlainIp, Protocol;
    ForwardedIs(s, length, mss);
    var ofs := PayloadOffset(s, length);
    SegmentCount(s, length, ofs, length - ofs, mss, Seq(s));
    PayloadsConcatenate(s, length, ofs, length - ofs, mss, Seq(s));
    FullOnce(mss);
  }

  /** Which packets are split, read off the frame's own bytes: IPv4 without options that
      carries TCP with more payload than `mss` after its header. Every other packet is sent as
      it is, once. */
  lemma SplitExactly(s: seq<byte>, length: nat, mss: nat)
    requires |s| == PAYLOAD_SIZE && length <= PAYLOAD_SIZE && mss > 0
    ensures var frames := Forwarded(s, length, mss);
            if Get16(s, 12) == 0x0800 && s[14] % 16 <= 5 && s[23] == 6
               && length > 34 + (if s[46] < 80 then 20 else s[46] / 16 * 4) + mss
            then |frames| > 1
            else frames == [s[..length]]
  {
    hide Forwarded, Get16;
    if Segmentable(s, length, mss) {
      SplitIntoSegments(s, length, mss);
    } else {
      ForwardedWhole(s, length, mss);
    }
    hide Payloads, Full;
  }

  lemma ForwardedWhole(s: seq<byte>, length: nat, mss: nat)
    requires |s| == PAYLOAD_SIZE && length <= PAYLOAD_SIZE && mss > 0 && !Segmentable(s, length, mss)
    ensures Forwarded(s, length, mss) == [s[..length]]
  {
  }

  /** No payload is lost or repeated, whatever the packet: the payloads of the frames sent
      make up the packet's own, after headers that end at its data offset or with the frame. */
  lemma PayloadKept(s: seq<byte>, length: nat, mss: nat)
    requires |s| == PAYLOAD_SIZE && length <= PAYLOAD_SIZE && mss > 0
    ensures var ofs := PayloadOffset(s, length);
            && ofs == Least(34 + (if s[46] < 80 then 20 else s[46] / 16 * 4), length)
            && Payloads(Forwarded(s, length, mss), ofs) == s[ofs..length]
  {
    hide Forwarded, Payloads, Segmentable;
    var ofs := PayloadOffset(s, length);
    if Segmentable(s, length, mss) {
      SplitIntoSegments(s, length, mss);
    } else {
      ForwardedWhole(s, length, mss);
      PayloadsNone(ofs);
      PayloadsHead(s[..length], [], ofs);
      assert [s[..length]] + [] == [s[..length]];
      assert s[..length][ofs..] == s[ofs..length];
    }
  }

  /** Each of those frames carries its share of the payload and of the sequence numbers; and
      once the Checksum app has seen it, whatever else is in its packet's buffer, its IP header
      checksum and its TCP checksum both verify. */
  lemma SegmentsComplete(s: seq<byte>, length: nat, mss: nat, i: nat, tail: seq<byte>)
    requires |s| == PAYLOAD_SIZE && length <= PAYLOAD_SIZE && mss > 0 && Segmentable(s, length, mss)
    requires Full(mss, i) < length - PayloadOffset(s, length)
    ensures i < |Forwarded(s, length, mss)|
    ensures var ofs, f := PayloadOffset(s, length), Forwarded(s, length, mss)[i];
            var at, slen := ofs + Full(mss, i), Least(mss, length - ofs - Full(mss, i));
            && GoodSegment(f, tail, s, ofs, at, slen, NextSeq(Seq(s), Full(mss, i)))
            && HEADERS <= |f| < 0x1_0000
            && var g := FillIn(f + tail, |f|);
            && TransportOk(g, |f|, PROTOCOL_TCP) && IpChecksumOk(g)
            && forall j :: 0 <= j < |f| && j != TCP_CHECKSUM && j != TCP_CHECKSUM + 1 ==> g[j] == f[j]
  {
    hide GoodSegment, TransportOk, IpChecksumOk, SegmentsFrom, Segment, NextSeq, Forwarded, Full, Least;
    hide PayloadOffset, Segmentable, Seq, FillIn, PlainIp, Protocol, HeadersFit;
    ForwardedIs(s, length, mss);
    var ofs := PayloadOffset(s, length);
    SegmentAt(s, length, ofs, length - ofs, mss, Seq(s), i);
    var f := Forwarded(s, length, mss)[i];
    var at, slen, q := ofs + Full(mss, i), Least(mss, length - ofs - Full(mss, i)), NextSeq(Seq(s), Full(mss, i));
    LeastFits(mss, length - ofs - Full(mss, i));
    SegmentGood(s, ofs, at, slen, q, tail);
    GoodLength(f, tail, s, ofs, at, slen, q);
    SegmentCompletes(f, tail, s, ofs, at, slen, q);
  }

  lemma FullOnce(mss: nat)
    ensures Full(mss, 0) == 0 && Full(mss, 1) == mss
  {
  }

  lemma LeastFits(a: nat, b: nat)
    ensures Least(a, b) <= b
  {
  }

  lemma GoodLength(f: seq<byte>, tail: seq<byte>, s: seq<byte>, ofs: nat, at: nat, slen: nat, q: u32)
    requires GoodSegment(f, tail, s, ofs, at, slen, q)
    ensures HEADERS <= |f| < 0x1_0000 && |f| == ofs + slen && HeadersFit(f + tail, |f|)
  {
  }
}
