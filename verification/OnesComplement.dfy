/** The ones-complement sum of section 2 of RFC 1071, as a function of the bytes
    alone, and the laws that `rush/src/checksum.rs` documents for `ipsum`. */
module OnesComplement {
  import opened Words

  /** The two bytes of a 16-bit value, exchanged (`ntohs` on a little-endian host). */
  function Swap16(n: u16): u16 {
    n % 0x100 * 0x100 + n / 0x100
  }

  /** Bitwise complement of a 16-bit value. */
  function Not16(n: u16): u16 {
    0xFFFF - n
  }

  /** The sum of the little-endian 16-bit words of `s`; an odd last byte counts as a low byte. */
  function WordSum(s: seq<byte>): nat {
    if |s| == 0 then 0
    else if |s| == 1 then s[0]
    else s[0] + 0x100 * s[1] + WordSum(s[2..])
  }

  /** The 16-bit value that end-around carries leave of a sum. */
  function Canon(n: nat): u16 {
    if n == 0 then 0 else 1 + (n - 1) % 0xFFFF
  }

  /** Equal as ones-complement sums: congruent, and both zero or both not. */
  predicate Same(a: nat, b: nat) {
    a % 0xFFFF == b % 0xFFFF && (a == 0 <==> b == 0)
  }

  /** What every checksum routine is to return, in host byte order. */
  function Ipsum(data: seq<byte>, initial: u16): u16 {
    Swap16(Not16(Canon(Swap16(initial) + WordSum(data))))
  }

  // Arithmetic of sums

  lemma HighLow(h: byte, l: byte)
    ensures (h * 0x100 + l) / 0x100 == h && (h * 0x100 + l) % 0x100 == l
  {
  }

  lemma SwapTwice(n: u16)
    ensures Swap16(Swap16(n)) == n
    ensures Swap16(Not16(n)) == Not16(Swap16(n))
  {
    var h, l := n / 0x100, n % 0x100;
    HighLow(l, h);
    HighLow(0xFF - h, 0xFF - l);
  }

  /** `Canon` picks exactly one representative of each class of `Same`. */
  lemma CanonDecides(a: nat, b: nat)
    ensures Canon(a) == Canon(b) <==> Same(a, b)
    ensures Same(Canon(a), a)
    ensures a <= 0xFFFF ==> Canon(a) == a
  {
  }

  lemma SameChain(a: nat, b: nat, c: nat)
    requires Same(a, b) && Same(b, c)
    ensures Same(a, c)
  {
  }

  lemma SameAdd(a: nat, b: nat, c: nat)
    requires Same(a, b)
    ensures Same(a + c, b + c)
  {
  }

  lemma CanonAbsorbs(a: nat, b: nat)
    ensures Canon(Canon(a) + b) == Canon(a + b)
  {
    CanonDecides(a, a);
    SameAdd(Canon(a), a, b);
    CanonDecides(Canon(a) + b, a + b);
  }

  /** A sum splits at any even offset. */
  lemma {:induction false} WordSumSplit(a: seq<byte>, b: seq<byte>)
    requires |a| % 2 == 0
    ensures WordSum(a + b) == WordSum(a) + WordSum(b)
  {
    if |a| == 0 {
      assert a + b == b;
    } else {
      WordSumSplit(a[2..], b);
      assert (a + b)[2..] == a[2..] + b;
    }
  }

  // The documented laws

  /** Undoing the last two steps of `Ipsum` gives back the folded sum. */
  lemma IpsumUndone(data: seq<byte>, initial: u16)
    ensures Swap16(Not16(Ipsum(data, initial))) == Canon(Swap16(initial) + WordSum(data))
  {
    hide Swap16, Canon, WordSum;
    var c := Canon(Swap16(initial) + WordSum(data));
    SwapTwice(Not16(c));
    SwapTwice(Swap16(Not16(c)));
  }

  /** Chaining: the complement of one block's checksum continues the sum over the next. */
  lemma IpsumChains(d1: seq<byte>, d2: seq<byte>, initial: u16)
    requires |d1| % 2 == 0
    ensures Ipsum(d2, Not16(Ipsum(d1, initial))) == Ipsum(d1 + d2, initial)
  {
    hide Swap16, Canon, WordSum;
    var total: nat := Swap16(initial) + WordSum(d1);
    IpsumUndone(d1, initial);
    CanonAbsorbs(total, WordSum(d2));
    WordSumSplit(d1, d2);
  }

  lemma AllOnes(sum: nat, x: u16)
    ensures Canon(x + sum) == 0xFFFF
            <==> x == Not16(Canon(sum)) || (x == 0xFFFF && Canon(sum) == 0xFFFF)
  {
    CanonAbsorbs(sum, x);
  }

  /** Verifying: a zero result accepts exactly the block's checksum, and also
      0xffff where the block's own sum already folds to 0xffff. */
  lemma IpsumVerifies(data: seq<byte>, v: u16)
    ensures Ipsum(data, v) == 0
            <==> v == Ipsum(data, 0) || (v == 0xFFFF && Canon(WordSum(data)) == 0xFFFF)
  {
    hide Swap16, Canon, WordSum;
    var sum: nat, x := WordSum(data), Swap16(v);
    SwapConstants();
    AllOnes(sum, x);
    ZeroChecksum(Canon(x + sum));
    SwapMoves(v, Not16(Canon(sum)));
    SwapMoves(v, 0xFFFF);
  }

  /** That second value is accepted, and is not the checksum. */
  lemma AllOnesAccepted()
    ensures Ipsum([0xFF, 0xFF], 0xFFFF) == 0 && Ipsum([0xFF, 0xFF], 0) != 0xFFFF
  {
    hide WordSum, Canon, Swap16;
    TwoBytes([0xFF, 0xFF]);
    CanonDecides(0xFFFF, 0xFFFF);
    SwapConstants();
    IpsumVerifies([0xFF, 0xFF], 0xFFFF);
  }

  lemma SwapConstants()
    ensures Swap16(0xFFFF) == 0xFFFF && Swap16(0) == 0
  {
  }

  lemma SwapMoves(v: u16, w: u16)
    ensures Swap16(v) == w <==> v == Swap16(w)
  {
    SwapTwice(v);
    SwapTwice(w);
  }

  lemma ZeroChecksum(c: u16)
    ensures Swap16(Not16(c)) == 0 <==> c == 0xFFFF
  {
    SwapMoves(Not16(c), 0);
  }

  lemma TwoBytes(s: seq<byte>)
    requires |s| == 2
    ensures WordSum(s) == s[0] as int + 0x100 * s[1] as int
  {
    assert s[2..] == [];
  }

  /** Storing a 16-bit value big-endian in an aligned field that held zero adds its swap to the sum. */
  lemma FieldSum(before: seq<byte>, v: u16, after: seq<byte>)
    requires |before| % 2 == 0
    ensures WordSum(before + [v / 0x100, v % 0x100] + after)
            == WordSum(before + [0, 0] + after) + Swap16(v)
  {
    var field: seq<byte> := [v / 0x100, v % 0x100];
    var zero: seq<byte> := [0, 0];
    assert before + field + after == before + (field + after);
    assert before + zero + after == before + (zero + after);
    TwoBytes(field);
    TwoBytes(zero);
    hide WordSum;
    WordSumSplit(before, field + after);
    WordSumSplit(before, zero + after);
    WordSumSplit(field, after);
    WordSumSplit(zero, after);
  }

  /** A block that carries its own checksum in an aligned 16-bit field, stored big-endian,
      sums to all ones: what a receiver checks. */
  lemma StoredChecksumVerifies(before: seq<byte>, after: seq<byte>)
    requires |before| % 2 == 0
    ensures var v := Ipsum(before + [0, 0] + after, 0);
            Ipsum(before + [v / 0x100, v % 0x100] + after, 0) == 0
  {
    var v := Ipsum(before + [0, 0] + after, 0);
    var sum: nat := WordSum(before + [0, 0] + after);
    FieldSum(before, v, after);
    hide Swap16, Canon, WordSum;
    SwapConstants();
    SwapMoves(v, Not16(Canon(sum)));
    AllOnes(sum, Swap16(v));
    ZeroChecksum(Canon(sum + Swap16(v)));
  }
}
