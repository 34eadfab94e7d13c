/** The protocol headers of `rush/src/ethernet.rs`, `ipv4.rs`, `tcp.rs` and `udp.rs`, read and
    written in place in a packet buffer. Every frame here has its IPv4 header at offset 14
    and its TCP or UDP header at offset 34, as the offload apps assume. */
module Headers {
  import opened Words
  import opened OnesComplement

  const TYPE_IPV4: u16 := 0x0800
  const PROTOCOL_TCP: byte := 6
  const PROTOCOL_UDP: byte := 17

  const IP: nat := 14      // offset of the IPv4 header
  const L4: nat := 34      // offset of the TCP or UDP header
  const HEADERS: nat := 54 // where the fixed TCP header ends

  // Big-endian fields

  function Get16(s: seq<byte>, i: nat): u16
    requires i + 2 <= |s|
  {
    s[i] as int * 0x100 + s[i + 1]
  }

  function Put16(s: seq<byte>, i: nat, v: u16): (r: seq<byte>)
    requires i + 2 <= |s|
    ensures |r| == |s|
  {
    s[i := v / 0x100][i + 1 := v % 0x100]
  }

  function Get32(s: seq<byte>, i: nat): u32
    requires i + 4 <= |s|
  {
    Get16(s, i) * 0x1_0000 + Get16(s, i + 2)
  }

  function Put32(s: seq<byte>, i: nat, v: u32): (r: seq<byte>)
    requires i + 4 <= |s|
    ensures |r| == |s|
  {
    Put16(Put16(s, i, v / 0x1_0000), i + 2, v % 0x1_0000)
  }

  lemma GetPut16(s: seq<byte>, i: nat, v: u16)
    requires i + 2 <= |s|
    ensures Get16(Put16(s, i, v), i) == v
  {
  }

  lemma GetPut32(s: seq<byte>, i: nat, v: u32)
    requires i + 4 <= |s|
    ensures Get32(Put32(s, i, v), i) == v
  {
    var a := Put16(s, i, v / 0x1_0000);
    GetPut16(s, i, v / 0x1_0000);
    GetPut16(a, i + 2, v % 0x1_0000);
  }

  lemma PutGet16(s: seq<byte>, i: nat)
    requires i + 2 <= |s|
    ensures Put16(s, i, Get16(s, i)) == s
  {
  }

  lemma PutGet32(s: seq<byte>, i: nat)
    requires i + 4 <= |s|
    ensures Put32(s, i, Get32(s, i)) == s
  {
    PutGet16(s, i);
    PutGet16(s, i + 2);
    hide Put16, Get16;
  }

  // Getters

  function EtherType(s: seq<byte>): u16
    requires |s| >= HEADERS
  {
    Get16(s, 12)
  }

  function Ihl(s: seq<byte>): nat
    requires |s| >= HEADERS
  {
    s[IP] % 16
  }

  function Protocol(s: seq<byte>): byte
    requires |s| >= HEADERS
  {
    s[IP + 9]
  }

  function TotalLength(s: seq<byte>): u16
    requires |s| >= HEADERS
  {
    Get16(s, IP + 2)
  }

  function Seq(s: seq<byte>): u32
    requires |s| >= HEADERS
  {
    Get32(s, L4 + 4)
  }

  /** Bytes of the TCP header with its options: at least 20, whatever the data offset says. */
  function TcpSize(s: seq<byte>): (n: nat)
    requires |s| >= HEADERS
    ensures 20 <= n <= 60
  {
    (if s[L4 + 12] / 16 < 5 then 5 else s[L4 + 12] / 16) * 4
  }

  // Checksums

  /** The IPv4 header's own checksum, over the header with its checksum field zeroed. */
  function IpChecksum(s: seq<byte>): u16
    requires |s| >= HEADERS
  {
    Ipsum(Put16(s, IP + 10, 0)[IP..L4], 0)
  }

  /** `checksum_ok`. */
  predicate IpChecksumOk(s: seq<byte>)
    requires |s| >= HEADERS
  {
    Ipsum(s[IP..L4], 0) == 0
  }

  /** The pseudo header of section 3.1 of RFC 9293: addresses, zero, protocol, length. */
  function PseudoHeader(s: seq<byte>, protocol: byte, len: u16): (r: seq<byte>)
    requires |s| >= HEADERS
    ensures |r| == 12
  {
    s[IP + 12..L4] + [0, protocol, len / 0x100, len % 0x100]
  }

  function PseudoChecksum(s: seq<byte>, protocol: byte, len: u16): u16
    requires |s| >= HEADERS
  {
    Ipsum(PseudoHeader(s, protocol, len), 0)
  }

  /** A big-endian field counts in a sum as its swap. */
  lemma FieldAt(s: seq<byte>, i: nat)
    requires i + 2 <= |s|
    ensures Swap16(Get16(s, i)) == s[i] as int + 0x100 * s[i + 1] as int
  {
    HighLow(s[i], s[i + 1]);
  }

  /** The pseudo header's sum is that of its fields: the two addresses at offsets 26 and 30,
      the protocol and the length. */
  lemma PseudoHeaderSum(s: seq<byte>, protocol: byte, len: u16)
    requires |s| >= HEADERS
    ensures WordSum(PseudoHeader(s, protocol, len))
            == Swap16(Get16(s, 26)) + Swap16(Get16(s, 28)) + Swap16(Get16(s, 30)) + Swap16(Get16(s, 32))
               + Swap16(protocol) + Swap16(len)
  {
    hide Get16, WordSum, Swap16;
    var h := PseudoHeader(s, protocol, len);
    assert forall i :: 0 <= i < 8 ==> h[i] == s[26 + i];
    WordsOf12(h);
    FieldAt(s, 26);
    FieldAt(s, 28);
    FieldAt(s, 30);
    FieldAt(s, 32);
    SwapSmall(protocol);
    SwapParts(len);
  }

  lemma SwapSmall(b: byte)
    ensures Swap16(b) == 0x100 * b as int
  {
  }

  lemma SwapParts(n: u16)
    ensures Swap16(n) == n / 0x100 + 0x100 * (n % 0x100)
  {
  }

  lemma WordsOf12(h: seq<byte>)
    requires |h| == 12
    ensures WordSum(h) == h[0] as int + h[2] as int + h[4] as int + h[6] as int + h[8] as int + h[10] as int
                          + 0x100 * (h[1] as int + h[3] as int + h[5] as int + h[7] as int + h[9] as int + h[11] as int)
  {
    hide WordSum;
    WordSumSplit(h[..2], h[2..]);
    WordSumSplit(h[2..4], h[4..]);
    WordSumSplit(h[4..6], h[6..]);
    WordSumSplit(h[6..8], h[8..]);
    WordSumSplit(h[8..10], h[10..]);
    assert h == h[..2] + h[2..] && h[2..] == h[2..4] + h[4..] && h[4..] == h[4..6] + h[6..];
    assert h[6..] == h[6..8] + h[8..] && h[8..] == h[8..10] + h[10..];
    TwoBytes(h[..2]);
    TwoBytes(h[2..4]);
    TwoBytes(h[4..6]);
    TwoBytes(h[6..8]);
    TwoBytes(h[8..10]);
    TwoBytes(h[10..]);
  }

  /** What a receiver of a TCP segment or UDP datagram of a frame of `length` bytes checks. */
  predicate TransportOk(s: seq<byte>, length: nat, protocol: byte)
    requires |s| >= HEADERS && L4 <= length <= |s| && length - L4 < 0x1_0000
  {
    Ipsum(PseudoHeader(s, protocol, length - L4) + s[L4..length], 0) == 0
  }

  /** `checksum_compute` of a transport header of `size` bytes whose checksum field is at `at`. */
  function TransportChecksum(s: seq<byte>, length: nat, size: nat, at: nat, init: u16): u16
    requires |s| >= HEADERS && L4 <= at && at + 2 <= L4 + size <= length <= |s|
  {
    var zeroed := Put16(s, at, 0);
    var hsum := Ipsum(zeroed[L4..L4 + size], init);
    Ipsum(zeroed[L4 + size..length], Not16(hsum))
  }

  /** Writing a 16-bit field leaves a slice that ends before it or starts after it alone. */
  lemma PutElsewhere(s: seq<byte>, i: nat, v: u16, lo: nat, hi: nat)
    requires i + 2 <= |s| && lo <= hi <= |s| && (hi <= i || i + 2 <= lo)
    ensures Put16(s, i, v)[lo..hi] == s[lo..hi]
  {
  }

  lemma PutInside(s: seq<byte>, i: nat, v: u16, lo: nat, hi: nat)
    requires lo <= i && i + 2 <= hi <= |s|
    ensures Put16(s, i, v)[lo..hi] == s[lo..i] + [v / 0x100, v % 0x100] + s[i + 2..hi]
  {
  }

  /** An IPv4 header passes `checksum_ok` after `checksum_compute`. */
  lemma ComputedIpChecksumOk(s: seq<byte>)
    requires |s| >= HEADERS
    ensures IpChecksumOk(Put16(s, IP + 10, IpChecksum(s)))
  {
    var v := IpChecksum(s);
    PutInside(s, IP + 10, 0, IP, L4);
    PutInside(s, IP + 10, v, IP, L4);
    var before, after := s[IP..IP + 10], s[IP + 12..L4];
    hide Ipsum;
    StoredChecksumVerifies(before, after);
  }

  /** Chaining header and payload onto the pseudo header sums all three as one block. */
  lemma TransportChecksumIs(s: seq<byte>, length: nat, size: nat, at: nat, pseudo: seq<byte>)
    requires |s| >= HEADERS && L4 <= at && at + 2 <= L4 + size <= length <= |s| && size % 2 == 0
    requires |pseudo| % 2 == 0
    ensures TransportChecksum(s, length, size, at, Not16(Ipsum(pseudo, 0)))
            == Ipsum(pseudo + Put16(s, at, 0)[L4..length], 0)
  {
    hide Ipsum, Put16, Not16;
    var zeroed := Put16(s, at, 0);
    var header, payload := zeroed[L4..L4 + size], zeroed[L4 + size..length];
    IpsumChains(pseudo, header, 0);
    IpsumChains(pseudo + header, payload, 0);
    assert pseudo + header + payload == pseudo + zeroed[L4..length];
  }

  /** A transport checksum computed from the complement of the pseudo header's checksum
      verifies: over pseudo header, header, options and payload together. */
  lemma ComputedTransportOk(s: seq<byte>, length: nat, size: nat, at: nat, protocol: byte)
    requires |s| >= HEADERS && L4 <= length <= |s| && length - L4 < 0x1_0000
    requires L4 <= at && at + 2 <= L4 + size <= length && size % 2 == 0 && at % 2 == 0
    ensures var v := TransportChecksum(s, length, size, at, Not16(PseudoChecksum(s, protocol, length - L4)));
            TransportOk(Put16(s, at, v), length, protocol)
  {
    var pseudo := PseudoHeader(s, protocol, length - L4);
    TransportChecksumIs(s, length, size, at, pseudo);
    hide Ipsum;
    var v := Ipsum(pseudo + Put16(s, at, 0)[L4..length], 0);
    StoredFieldOk(s, length, at, pseudo, v);
    PutElsewhere(s, at, v, IP + 12, L4);
    hide Put16, TransportChecksum;
  }

  lemma StoredFieldOk(s: seq<byte>, length: nat, at: nat, pseudo: seq<byte>, v: u16)
    requires L4 <= at && at + 2 <= length <= |s| && at % 2 == 0 && |pseudo| % 2 == 0
    requires v == Ipsum(pseudo + Put16(s, at, 0)[L4..length], 0)
    ensures Ipsum(pseudo + Put16(s, at, v)[L4..length], 0) == 0
  {
    var before, after := pseudo + s[L4..at], s[at + 2..length];
    PutInside(s, at, 0, L4, length);
    PutInside(s, at, v, L4, length);
    hide Ipsum, Put16;
    assert pseudo + Put16(s, at, 0)[L4..length] == before + [0, 0] + after;
    assert pseudo + Put16(s, at, v)[L4..length] == before + [v / 0x100, v % 0x100] + after;
    StoredChecksumVerifies(before, after);
  }

  // In place

  method SetField16(p: array<byte>, i: nat, v: u16)
    requires i + 2 <= p.Length
    modifies p
    ensures p[..] == Put16(old(p[..]), i, v)
  {
    p[i], p[i + 1] := v / 0x100, v % 0x100;
  }

  method SetField32(p: array<byte>, i: nat, v: u32)
    requires i + 4 <= p.Length
    modifies p
    ensures p[..] == Put32(old(p[..]), i, v)
  {
    SetField16(p, i, v / 0x1_0000);
    SetField16(p, i + 2, v % 0x1_0000);
  }

  lemma PutTwice(s: seq<byte>, i: nat, v: u16, w: u16)
    requires i + 2 <= |s|
    ensures Put16(Put16(s, i, v), i, w) == Put16(s, i, w)
  {
  }

  /** `IPv4.checksum_compute`: zero the field, sum the header, store the sum. */
  method IpChecksumCompute(p: array<byte>)
    requires p.Length >= HEADERS
    modifies p
    ensures p[..] == Put16(old(p[..]), IP + 10, IpChecksum(old(p[..])))
  {
    ghost var s := p[..];
    SetField16(p, IP + 10, 0);
    assert p[IP..L4] == p[..][IP..L4];
    var sum := Ipsum(p[IP..L4], 0);
    PutTwice(s, IP + 10, 0, sum);
    hide Ipsum;
    SetField16(p, IP + 10, sum);
  }

  /** `TCP.checksum_compute` and `UDP.checksum_compute`. */
  method TransportChecksumCompute(p: array<byte>, length: nat, size: nat, at: nat, init: u16)
    requires p.Length >= HEADERS && L4 <= at && at + 2 <= L4 + size <= length <= p.Length
    modifies p
    ensures p[..] == Put16(old(p[..]), at, TransportChecksum(old(p[..]), length, size, at, init))
  {
    ghost var s := p[..];
    SetField16(p, at, 0);
    assert p[L4..L4 + size] == p[..][L4..L4 + size];
    assert p[L4 + size..length] == p[..][L4 + size..length];
    var hsum := Ipsum(p[L4..L4 + size], init);
    var sum := Ipsum(p[L4 + size..length], Not16(hsum));
    PutTwice(s, at, 0, sum);
    hide Ipsum;
    SetField16(p, at, sum);
  }
}
