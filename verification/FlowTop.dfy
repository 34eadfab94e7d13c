/** `rush/src/flow.rs`: the Top app, which counts packets and bits per flow. The file it maps
    into memory is an array of 2048 slots. */
module FlowTops {
  import opened Words
  import opened OnesComplement
  import opened Headers
  import opened FlowIds
  import opened Links
  import Configs
  import Packets

  type Data = s: seq<byte> | |s| >= HEADERS witness seq(HEADERS, i => 0)

  /** A packet: its buffer, of which the first `length` bytes are the frame. */
  datatype Frame = Frame(data: Data, length: u16)

  datatype FlowCtr = FlowCtr(packets: u64, bits: u64, id: u64)

  // Flow tuples

  /** An address as the 32-bit word it is loaded as, first octet lowest. */
  function Address(data: Data, dir: Configs.Dir): u32 {
    var i := IP + if dir.Src? then 12 else 16;
    var w: int, x: int, y: int, z: int := data[i], data[i + 1], data[i + 2], data[i + 3];
    w + 0x100 * x + 0x1_0000 * y + 0x100_0000 * z
  }

  /** A port of a TCP or UDP header: both have them first. */
  function Port(data: Data, dir: Configs.Dir): u16 {
    Get16(data, L4 + if dir.Src? then 0 else 2)
  }

  predicate HasPorts(protocol: byte) {
    protocol == PROTOCOL_TCP || protocol == PROTOCOL_UDP
  }

  /** What Top profiles a packet as. Everything that is not IPv4 is one flow, all zeros. */
  function TupleOf(data: Data, dir: Configs.Dir): FlowTuple {
    if EtherType(data) != TYPE_IPV4 then FlowTuple(0, 0, 0)
    else
      FlowTuple(Address(data, dir), Protocol(data),
                if Ihl(data) == 5 && HasPorts(Protocol(data)) then Port(data, dir) else 0)
  }

  function IdOf(p: Frame, dir: Configs.Dir): (id: u64) {
    UnpackFlowId(TupleOf(p.data, dir));
    FlowId(TupleOf(p.data, dir))
  }

  function SlotOf(p: Frame, dir: Configs.Dir): (i: nat)
    ensures i < FLOWTOP_NSLOTS
  {
    FlowSlot(IdOf(p, dir))
  }

  // Counting

  /** A slot after one more packet; the counters wrap. */
  function Counted(slot: FlowCtr, id: u64, bits: nat): FlowCtr {
    FlowCtr((slot.packets + 1) % W64, (slot.bits + bits) % W64, id)
  }

  function CountOne(slots: seq<FlowCtr>, p: Frame, dir: Configs.Dir): (r: seq<FlowCtr>)
    requires |slots| == FLOWTOP_NSLOTS
    ensures |r| == FLOWTOP_NSLOTS
  {
    var i := SlotOf(p, dir);
    slots[i := Counted(slots[i], IdOf(p, dir), Packets.BitLength(p.length))]
  }

  function CountAll(slots: seq<FlowCtr>, ps: seq<Frame>, dir: Configs.Dir): (r: seq<FlowCtr>)
    requires |slots| == FLOWTOP_NSLOTS
    ensures |r| == FLOWTOP_NSLOTS
  {
    if |ps| == 0 then slots else CountOne(CountAll(slots, ps[..|ps| - 1], dir), ps[|ps| - 1], dir)
  }

  method FlowTopInc(slots: array<FlowCtr>, ip: u32, protocol: byte, port: u16, bits: nat)
    requires slots.Length == FLOWTOP_NSLOTS
    modifies slots
    ensures FlowId(FlowTuple(ip, protocol, port)) < W64
    ensures var id := FlowId(FlowTuple(ip, protocol, port));
            var i := FlowSlot(id);
            slots[..] == old(slots[..])[i := Counted(old(slots[..])[i], id, bits)]
  {
    UnpackFlowId(FlowTuple(ip, protocol, port));
    hide FlowId, FlowSlot;
    var id: u64 := FlowId(FlowTuple(ip, protocol, port));
    var slot := FlowSlot(id);
    slots[slot] := FlowCtr((slots[slot].packets + 1) % W64, (slots[slot].bits + bits) % W64, id);
  }

  method FlowCount(p: Frame, dir: Configs.Dir, slots: array<FlowCtr>)
    requires slots.Length == FLOWTOP_NSLOTS
    modifies slots
    ensures slots[..] == CountOne(old(slots[..]), p, dir)
  {
    hide Address, Port, EtherType, Protocol, Ihl, FlowId, FlowSlot, Counted, Packets.BitLength;
    var addr: u32, protocol: byte, port: u16 := 0, 0, 0;
    if EtherType(p.data) == TYPE_IPV4 {
      addr := Address(p.data, dir);
      protocol := Protocol(p.data);
      if Ihl(p.data) == 5 {
        if Protocol(p.data) == PROTOCOL_TCP {
          port := Port(p.data, dir);
        } else if Protocol(p.data) == PROTOCOL_UDP {
          port := Port(p.data, dir);
        }
      }
    }
    assert FlowTuple(addr, protocol, port) == TupleOf(p.data, dir);
    FlowTopInc(slots, addr, protocol, port, Packets.BitLength(p.length));
  }

  /** The ID counted for a frame, read back by a client either way, is what the frame's own
      bytes say: nothing unless IPv4, and a port only for TCP and UDP without options. */
  lemma IdReadsBack(p: Frame, dir: Configs.Dir)
    ensures var id, s := IdOf(p, dir), p.data;
            && Unpack(id) == Unpack(Signed(id))
            && if Get16(s, 12) == 0x0800
               then && Unpack(id).ip == Address(s, dir) && Unpack(id).protocol == s[23]
                    && Unpack(id).port == (if s[14] % 16 == 5 && (s[23] == 6 || s[23] == 17)
                                           then Get16(s, if dir.Src? then 34 else 36) else 0)
               else Unpack(id) == FlowTuple(0, 0, 0)
  {
    UnpackFlowId(TupleOf(p.data, dir));
    hide FlowId, Unpack, Signed, Get16, Address;
  }

  // The app

  ghost predicate TopReached(waiting: seq<Frame>, start: History<Frame>, was: seq<FlowCtr>, k: nat, dir: Configs.Dir,
                             input: Link<Frame>, output: Link<Frame>, slots: array<FlowCtr>)
    requires k <= |waiting| && |was| == FLOWTOP_NSLOTS
    reads input, input.packets, output, output.packets, slots
  {
    && input.Valid() && output.Valid() && input != output && input.packets != output.packets
    && input.Contents() == waiting[k..]
    && output.history == SendAll(start, waiting[..k])
    && slots.Length == FLOWTOP_NSLOTS && slots[..] == CountAll(was, waiting[..k], dir)
  }

  /** Count every waiting packet, in order, and pass it on unchanged. */
  method TopPush(input: Link<Frame>, output: Link<Frame>, dir: Configs.Dir, slots: array<FlowCtr>)
    requires input.Valid() && output.Valid() && input != output && input.packets != output.packets
    requires slots.Length == FLOWTOP_NSLOTS
    modifies input, output, output.packets, slots
    ensures input.Valid() && output.Valid() && input.Contents() == []
    ensures output.history == SendAll(old(output.history), old(input.Contents()))
    ensures slots[..] == CountAll(old(slots[..]), old(input.Contents()), dir)
  {
    ghost var waiting, start, was := input.Contents(), output.history, slots[..];
    var k: nat := 0;
    input.Cursors();
    SendNone(start);
    assert waiting[..0] == [] && waiting[0..] == waiting;
    assert TopReached(waiting, start, was, 0, dir, input, output, slots);
    hide Link.Valid, TopReached, CountAll, SendAll;
    while !input.Empty()
      invariant k <= |waiting| && TopReached(waiting, start, was, k, dir, input, output, slots)
      invariant input.Empty() <==> k == |waiting|
      decreases |waiting| - k
    {
      TopOne(waiting, start, was, k, dir, input, output, slots);
      k := k + 1;
    }
    TopEnd(waiting, start, was, dir, input, output, slots);
  }

  lemma TopEnd(waiting: seq<Frame>, start: History<Frame>, was: seq<FlowCtr>, dir: Configs.Dir,
               input: Link<Frame>, output: Link<Frame>, slots: array<FlowCtr>)
    requires |was| == FLOWTOP_NSLOTS && TopReached(waiting, start, was, |waiting|, dir, input, output, slots)
    ensures input.Valid() && output.Valid() && input.Contents() == []
    ensures output.history == SendAll(start, waiting)
    ensures slots[..] == CountAll(was, waiting, dir)
  {
    assert waiting[..|waiting|] == waiting;
  }

  method TopOne(ghost waiting: seq<Frame>, ghost start: History<Frame>, ghost was: seq<FlowCtr>, k: nat,
                dir: Configs.Dir, input: Link<Frame>, output: Link<Frame>, slots: array<FlowCtr>)
    requires k < |waiting| && |was| == FLOWTOP_NSLOTS
    requires TopReached(waiting, start, was, k, dir, input, output, slots)
    modifies input, output, output.packets, slots
    ensures TopReached(waiting, start, was, k + 1, dir, input, output, slots)
    ensures input.Empty() <==> k + 1 == |waiting|
  {
    assert waiting[k..][1..] == waiting[k + 1..] && waiting[k..][0] == waiting[k];
    SendNext(start, waiting, k);
    CountNext(was, waiting, k, dir);
    hide Link.Valid, CountAll, CountOne, SendAll, Step;
    TopStep(dir, input, output, slots);
    input.Cursors();
  }

  method TopStep(dir: Configs.Dir, input: Link<Frame>, output: Link<Frame>, slots: array<FlowCtr>)
    requires input.Valid() && output.Valid() && input != output && input.packets != output.packets
    requires slots.Length == FLOWTOP_NSLOTS && input.Contents() != []
    modifies input, output, output.packets, slots
    ensures input.Valid() && output.Valid() && input.Contents() == old(input.Contents())[1..]
    ensures output.history == Step(old(output.history), Send(old(input.Contents())[0]))
    ensures slots[..] == CountOne(old(slots[..]), old(input.Contents())[0], dir)
  {
    hide Link.Valid, CountOne, Step;
    var p := input.Receive();
    FlowCount(p, dir, slots);
    output.Transmit(p);
  }

  lemma CountNext(slots: seq<FlowCtr>, ps: seq<Frame>, k: nat, dir: Configs.Dir)
    requires |slots| == FLOWTOP_NSLOTS && k < |ps|
    ensures CountAll(slots, ps[..k + 1], dir) == CountOne(CountAll(slots, ps[..k], dir), ps[k], dir)
  {
    assert ps[..k + 1][..k] == ps[..k];
  }

  // What the slots hold

  /** How many of some packets fall into a slot, and how many bits they have. */
  function Hits(ps: seq<Frame>, dir: Configs.Dir, i: nat): nat {
    if |ps| == 0 then 0
    else Hits(ps[..|ps| - 1], dir, i) + if SlotOf(ps[|ps| - 1], dir) == i then 1 else 0
  }

  function HitBits(ps: seq<Frame>, dir: Configs.Dir, i: nat): nat {
    if |ps| == 0 then 0
    else
      HitBits(ps[..|ps| - 1], dir, i)
      + if SlotOf(ps[|ps| - 1], dir) == i then Packets.BitLength(ps[|ps| - 1].length) else 0
  }

  /** Position `k` holds the last packet that fell into slot `i`. */
  ghost predicate LastHit(ps: seq<Frame>, dir: Configs.Dir, i: nat, k: nat) {
    k < |ps| && SlotOf(ps[k], dir) == i && forall j :: k < j < |ps| ==> SlotOf(ps[j], dir) != i
  }

  lemma AddWraps(a: nat, b: nat, c: nat)
    ensures ((a + b) % W64 + c) % W64 == (a + (b + c)) % W64
  {
  }

  /** One packet changes its own slot only. */
  lemma CountOneSlot(slots: seq<FlowCtr>, p: Frame, dir: Configs.Dir, i: nat)
    requires |slots| == FLOWTOP_NSLOTS && i < FLOWTOP_NSLOTS
    ensures CountOne(slots, p, dir)[i]
            == if SlotOf(p, dir) == i then Counted(slots[i], IdOf(p, dir), Packets.BitLength(p.length)) else slots[i]
  {
    hide IdOf, SlotOf, Packets.BitLength, Counted;
  }

  /** After any packets, each slot counts exactly the packets and bits that fell into it, up to
      wrapping. */
  lemma {:induction false} SlotCounts(slots: seq<FlowCtr>, ps: seq<Frame>, dir: Configs.Dir, i: nat)
    requires |slots| == FLOWTOP_NSLOTS && i < FLOWTOP_NSLOTS
    ensures var s := CountAll(slots, ps, dir)[i];
            && s.packets == (slots[i].packets + Hits(ps, dir, i)) % W64
            && s.bits == (slots[i].bits + HitBits(ps, dir, i)) % W64
  {
    hide IdOf, SlotOf, Packets.BitLength, CountOne;
    if |ps| > 0 {
      var front, last := ps[..|ps| - 1], ps[|ps| - 1];
      SlotCounts(slots, front, dir, i);
      CountOneSlot(CountAll(slots, front, dir), last, dir, i);
      AddWraps(slots[i].packets, Hits(front, dir, i), 1);
      AddWraps(slots[i].bits, HitBits(front, dir, i), Packets.BitLength(last.length));
    }
  }

  /** It names the flow of the last packet that fell into it, and nothing else changes it. */
  lemma {:induction false} SlotNamesLast(slots: seq<FlowCtr>, ps: seq<Frame>, dir: Configs.Dir, i: nat)
    requires |slots| == FLOWTOP_NSLOTS && i < FLOWTOP_NSLOTS
    ensures Hits(ps, dir, i) == 0 ==> CountAll(slots, ps, dir)[i] == slots[i]
    ensures Hits(ps, dir, i) > 0 ==> NamesLast(CountAll(slots, ps, dir)[i], ps, dir, i)
  {
    hide IdOf, SlotOf, Packets.BitLength, CountOne, NamesLast;
    if |ps| > 0 {
      var front, last := ps[..|ps| - 1], ps[|ps| - 1];
      SlotNamesLast(slots, front, dir, i);
      CountOneSlot(CountAll(slots, front, dir), last, dir, i);
      assert CountAll(slots, ps, dir) == CountOne(CountAll(slots, front, dir), last, dir);
      hide CountAll;
      NamesNext(CountAll(slots, front, dir)[i], CountAll(slots, ps, dir)[i], ps, dir, i);
    }
  }

  /** A slot names the flow of the last packet that fell into it. */
  ghost predicate NamesLast(slot: FlowCtr, ps: seq<Frame>, dir: Configs.Dir, i: nat) {
    exists k: nat :: LastHit(ps, dir, i, k) && slot.id == IdOf(ps[k], dir)
  }

  lemma NamesNext(before: FlowCtr, slot: FlowCtr, ps: seq<Frame>, dir: Configs.Dir, i: nat)
    requires |ps| > 0
    ensures SlotOf(ps[|ps| - 1], dir) == i && slot.id == IdOf(ps[|ps| - 1], dir) ==> NamesLast(slot, ps, dir, i)
    ensures SlotOf(ps[|ps| - 1], dir) != i && slot == before && NamesLast(before, ps[..|ps| - 1], dir, i)
            ==> NamesLast(slot, ps, dir, i)
  {
    hide IdOf, SlotOf;
    var front, last := ps[..|ps| - 1], ps[|ps| - 1];
    if SlotOf(last, dir) == i {
      assert LastHit(ps, dir, i, |ps| - 1);
    } else if NamesLast(before, front, dir, i) {
      var k: nat :| LastHit(front, dir, i, k) && before.id == IdOf(front[k], dir);
      assert LastHit(ps, dir, i, k) && ps[k] == front[k];
    }
  }

  // Totals

  function TotalPackets(slots: seq<FlowCtr>): nat {
    if |slots| == 0 then 0 else TotalPackets(slots[..|slots| - 1]) + slots[|slots| - 1].packets
  }

  function TotalBits(slots: seq<FlowCtr>): nat {
    if |slots| == 0 then 0 else TotalBits(slots[..|slots| - 1]) + slots[|slots| - 1].bits
  }

  /** The bits of some packets on the wire. */
  function WireBits(ps: seq<Frame>): nat {
    if |ps| == 0 then 0 else WireBits(ps[..|ps| - 1]) + Packets.BitLength(ps[|ps| - 1].length)
  }

  lemma {:induction false} TotalsUpdate(slots: seq<FlowCtr>, i: nat, slot: FlowCtr)
    requires i < |slots|
    ensures TotalPackets(slots[i := slot]) == TotalPackets(slots) - slots[i].packets + slot.packets
    ensures TotalBits(slots[i := slot]) == TotalBits(slots) - slots[i].bits + slot.bits
  {
    var n := |slots| - 1;
    if i == n {
      assert slots[i := slot][..n] == slots[..n];
    } else {
      TotalsUpdate(slots[..n], i, slot);
      assert slots[i := slot][..n] == slots[..n][i := slot];
    }
  }

  lemma {:induction false} TotalsCover(slots: seq<FlowCtr>, i: nat)
    requires i < |slots|
    ensures slots[i].packets <= TotalPackets(slots) && slots[i].bits <= TotalBits(slots)
  {
    if i < |slots| - 1 {
      TotalsCover(slots[..|slots| - 1], i);
    }
  }

  /** The same up to a multiple of 2^64. */
  predicate Congruent(a: int, b: int) {
    (a - b) % W64 == 0
  }

  lemma CongruentStep(a: int, b: int, was: nat, more: nat)
    requires Congruent(a, b)
    ensures Congruent(a - was + (was + more) % W64, b + more)
  {
  }

  /** Profiling conserves counts: the totals over all slots grow by exactly the packets and the
      wire bits counted, up to the wrapping of counters. */
  lemma {:induction false} TotalsGrow(slots: seq<FlowCtr>, ps: seq<Frame>, dir: Configs.Dir)
    requires |slots| == FLOWTOP_NSLOTS
    ensures Congruent(TotalPackets(CountAll(slots, ps, dir)), TotalPackets(slots) + |ps|)
    ensures Congruent(TotalBits(CountAll(slots, ps, dir)), TotalBits(slots) + WireBits(ps))
  {
    hide IdOf, SlotOf, Packets.BitLength, TotalPackets, TotalBits;
    if |ps| > 0 {
      var front, last := ps[..|ps| - 1], ps[|ps| - 1];
      TotalsGrow(slots, front, dir);
      hide Congruent;
      var s, i := CountAll(slots, front, dir), SlotOf(last, dir);
      var bits := Packets.BitLength(last.length);
      TotalsUpdate(s, i, Counted(s[i], IdOf(last, dir), bits));
      CongruentStep(TotalPackets(s), TotalPackets(slots) + |front|, s[i].packets, 1);
      CongruentStep(TotalBits(s), TotalBits(slots) + WireBits(front), s[i].bits, bits);
    }
  }

  /** And exactly, as long as they fit in 64 bits. */
  lemma {:induction false} TotalsGrowExactly(slots: seq<FlowCtr>, ps: seq<Frame>, dir: Configs.Dir)
    requires |slots| == FLOWTOP_NSLOTS
    requires TotalPackets(slots) + |ps| < W64 && TotalBits(slots) + WireBits(ps) < W64
    ensures TotalPackets(CountAll(slots, ps, dir)) == TotalPackets(slots) + |ps|
    ensures TotalBits(CountAll(slots, ps, dir)) == TotalBits(slots) + WireBits(ps)
  {
    hide IdOf, SlotOf, Packets.BitLength, TotalPackets, TotalBits;
    if |ps| > 0 {
      var front, last := ps[..|ps| - 1], ps[|ps| - 1];
      TotalsGrowExactly(slots, front, dir);
      var s, i := CountAll(slots, front, dir), SlotOf(last, dir);
      TotalsCover(s, i);
      TotalsUpdate(s, i, Counted(s[i], IdOf(last, dir), Packets.BitLength(last.length)));
    }
  }

  // Slot invariant

  /** Every slot that counts packets names a flow that hashes to it. */
  ghost predicate Hashed(slots: seq<FlowCtr>) {
    && |slots| == FLOWTOP_NSLOTS
    && forall i :: 0 <= i < |slots| && slots[i].packets > 0 ==> InPlace(slots[i].id, i)
  }

  ghost predicate InPlace(id: u64, i: nat) {
    FlowSlot(id) == i && exists f :: FlowId(f) == id
  }

  /** A profile that starts empty stays well placed, whatever is counted. */
  lemma CountKeepsHashed(slots: seq<FlowCtr>, ps: seq<Frame>, dir: Configs.Dir)
    requires Hashed(slots)
    ensures Hashed(CountAll(slots, ps, dir))
  {
    hide CountAll, InPlace;
    forall i | 0 <= i < FLOWTOP_NSLOTS && CountAll(slots, ps, dir)[i].packets > 0
      ensures InPlace(CountAll(slots, ps, dir)[i].id, i)
    {
      SlotInPlace(slots, ps, dir, i);
    }
  }

  lemma SlotInPlace(slots: seq<FlowCtr>, ps: seq<Frame>, dir: Configs.Dir, i: nat)
    requires Hashed(slots) && i < FLOWTOP_NSLOTS && CountAll(slots, ps, dir)[i].packets > 0
    ensures InPlace(CountAll(slots, ps, dir)[i].id, i)
  {
    SlotNamesLast(slots, ps, dir, i);
    hide IdOf, SlotOf, Hits, InPlace, CountAll;
    if Hits(ps, dir, i) > 0 {
      var k: nat :| LastHit(ps, dir, i, k) && CountAll(slots, ps, dir)[i].id == IdOf(ps[k], dir);
      HitInPlace(ps[k], dir);
    }
  }

  lemma HitInPlace(p: Frame, dir: Configs.Dir)
    ensures InPlace(IdOf(p, dir), SlotOf(p, dir))
  {
    hide FlowId, FlowSlot;
    assert FlowId(TupleOf(p.data, dir)) == IdOf(p, dir);
  }

  /** A profile that was just created is well placed, and its totals are zero. */
  lemma EmptyIsHashed(slots: seq<FlowCtr>)
    requires |slots| == FLOWTOP_NSLOTS && forall i :: 0 <= i < |slots| ==> slots[i] == FlowCtr(0, 0, 0)
    ensures Hashed(slots) && TotalPackets(slots) == 0 && TotalBits(slots) == 0
  {
    ZeroTotals(slots);
  }

  lemma ZeroTotals(slots: seq<FlowCtr>)
    requires forall i :: 0 <= i < |slots| ==> slots[i] == FlowCtr(0, 0, 0)
    ensures TotalPackets(slots) == 0 && TotalBits(slots) == 0
  {
  }
}
