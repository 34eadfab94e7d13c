/** `rush/src/flow.rs`: flow IDs and the hash that picks a slot for one. 64-bit words are
    numbers below 2^64, and the bit operators are defined bit by bit. */
module FlowIds {
  import opened Words
  import opened OnesComplement
  import opened Headers

  function Pow2(k: nat): (p: nat)
    ensures p > 0
  {
    if k == 0 then 1 else 2 * Pow2(k - 1)
  }

  lemma {:induction false} PowersMultiply(a: nat, b: nat)
    ensures Pow2(a + b) == Pow2(a) * Pow2(b)
  {
    if a > 0 {
      PowersMultiply(a - 1, b);
      assert Pow2(a + b) == 2 * Pow2(a - 1 + b);
    }
  }

  lemma SmallPowers()
    ensures Pow2(0) == 1 && Pow2(4) == 16 && Pow2(32) == 2 * Pow2(31)
  {
  }

  lemma Powers()
    ensures Pow2(0) == 1 && Pow2(31) == 0x8000_0000 && Pow2(32) == 0x1_0000_0000
    ensures Pow2(48) == 0x1_0000_0000_0000 && Pow2(64) == W64
  {
    SmallPowers();
    hide Pow2;
    PowersMultiply(4, 4);
    PowersMultiply(8, 8);
    PowersMultiply(16, 16);
    PowersMultiply(16, 32);
    PowersMultiply(32, 32);
  }

  // Bit operators

  function Or(a: nat, b: nat): nat {
    if a == 0 && b == 0 then 0
    else 2 * Or(a / 2, b / 2) + (if a % 2 == 1 || b % 2 == 1 then 1 else 0)
  }

  function Xor(a: nat, b: nat): nat {
    if a == 0 && b == 0 then 0
    else 2 * Xor(a / 2, b / 2) + (if a % 2 != b % 2 then 1 else 0)
  }

  function ShiftLeft(a: nat, k: nat): u64 {
    a * Pow2(k) % W64
  }

  function ShiftRight(a: nat, k: nat): nat {
    if k == 0 then a else ShiftRight(a / 2, k - 1)
  }

  /** Fields that do not overlap are joined by adding them. */
  lemma {:induction false} OrAdds(a: nat, b: nat, k: nat)
    requires b < Pow2(k)
    ensures Or(a * Pow2(k), b) == a * Pow2(k) + b
  {
    if k == 0 {
      OrZero(a);
    } else {
      HalveProduct(a, k);
      OrAdds(a, b / 2, k - 1);
    }
  }

  lemma HalveProduct(a: nat, k: nat)
    requires k > 0
    ensures a * Pow2(k) == 2 * (a * Pow2(k - 1))
  {
    assert Pow2(k) == 2 * Pow2(k - 1);
  }

  lemma {:induction false} OrZero(a: nat)
    ensures Or(a, 0) == a
  {
    if a > 0 {
      OrZero(a / 2);
    }
  }

  lemma {:induction false} XorTwice(a: nat, b: nat)
    ensures Xor(Xor(a, b), b) == a
  {
    if a > 0 || b > 0 {
      XorTwice(a / 2, b / 2);
      var x := Xor(a / 2, b / 2);
      assert Xor(a, b) / 2 == x;
    }
  }

  lemma {:induction false} XorFits(a: nat, b: nat, k: nat)
    requires a < Pow2(k) && b < Pow2(k)
    ensures Xor(a, b) < Pow2(k)
  {
    if k > 0 {
      XorFits(a / 2, b / 2, k - 1);
    }
  }

  /** Shifting right distributes over exclusive or. */
  lemma {:induction false} XorShifts(a: nat, b: nat, k: nat)
    ensures ShiftRight(Xor(a, b), k) == Xor(ShiftRight(a, k), ShiftRight(b, k))
  {
    if k > 0 {
      XorShifts(a / 2, b / 2, k - 1);
      assert Xor(a, b) / 2 == Xor(a / 2, b / 2);
    }
  }

  lemma {:induction false} ShiftFits(a: nat, k: nat, m: nat)
    requires a < Pow2(k + m)
    ensures ShiftRight(a, k) < Pow2(m)
  {
    if k > 0 {
      ShiftFits(a / 2, k - 1, m);
    }
  }

  // Flow IDs

  /** The fields of a flow ID: 32-bit address, 8-bit protocol, 16-bit port. */
  datatype FlowTuple = FlowTuple(ip: u32, protocol: byte, port: u16)

  /** `flow_id`. */
  function FlowId(f: FlowTuple): nat {
    Or(Or(ShiftLeft(f.port, 48), ShiftLeft(f.protocol, 32)), ShiftLeft(f.ip, 0))
  }

  /** The fields do not overlap. */
  lemma FlowIdIs(f: FlowTuple)
    ensures FlowId(f) == f.port * 0x1_0000_0000_0000 + f.protocol * 0x1_0000_0000 + f.ip < W64
  {
    Powers();
    hide Or, Pow2;
    OrAdds(f.port, f.protocol * 0x1_0000_0000, 48);
    OrAdds(f.port * 0x1_0000 + f.protocol, f.ip, 32);
  }

  /** How a client takes an ID apart. BigInt shifts round down and masks take the value modulo
      a power of two, for negative numbers too. */
  function Unpack(id: int): FlowTuple {
    FlowTuple(id % 0x1_0000_0000, id / 0x1_0000_0000 % 0x100, id / 0x1_0000_0000_0000 % 0x1_0000)
  }

  /** A 64-bit word read as a two's complement number, as `readBigInt64LE` does. */
  function Signed(word: u64): int {
    if word < 0x8000_0000_0000_0000 then word else word - W64
  }

  lemma Product(d: int, k: int)
    requires d > 0
    ensures k >= 1 ==> d * k >= d
    ensures k <= -1 ==> d * k <= -d
  {
  }

  lemma QuotientIs(n: int, d: int, q: int, r: int)
    requires 0 <= r < d && n == d * q + r
    ensures n / d == q && n % d == r
  {
    var p := n / d;
    assert n == d * p + n % d;
    assert d * (p - q) == r - n % d;
    Product(d, p - q);
  }

  /** The fields come apart again, whatever multiple of 2^64 is added. */
  lemma FieldsComeApart(n: int, ip: u32, protocol: byte, port: u16, wraps: int)
    requires n == (wraps * 0x1_0000 + port) * 0x1_0000_0000_0000 + protocol * 0x1_0000_0000 + ip
    ensures Unpack(n) == FlowTuple(ip, protocol, port)
  {
    var high := wraps * 0x1_0000 + port;
    QuotientIs(n, 0x1_0000_0000, high * 0x1_0000 + protocol, ip);
    QuotientIs(n, 0x1_0000_0000_0000, high, protocol * 0x1_0000_0000 + ip);
    QuotientIs(high, 0x1_0000, wraps, port);
    QuotientIs(high * 0x1_0000 + protocol, 0x100, high * 0x100, protocol);
  }

  /** A client gets the fields back from an ID, whichever way it reads the word. */
  lemma UnpackFlowId(f: FlowTuple)
    ensures FlowId(f) < W64 && Unpack(FlowId(f)) == f && Unpack(Signed(FlowId(f))) == f
  {
    FlowIdIs(f);
    var n := FlowId(f);
    hide FlowId, Unpack;
    FieldsComeApart(n, f.ip, f.protocol, f.port, 0);
    FieldsComeApart(n - W64, f.ip, f.protocol, f.port, -1);
  }

  // The hash

  const FACTOR1: u64 := 0xff51_afd7_ed55_8ccd
  const FACTOR2: u64 := 0xc4ce_b9fe_1a85_ec53
  const INVERSE1: u64 := 0x4f74_430c_22a5_4005
  const INVERSE2: u64 := 0x9cb4_b2f8_1293_37db

  function XorShift(k: nat): nat {
    Xor(k, ShiftRight(k, 33))
  }

  function WrappingMul(k: nat, factor: nat): u64 {
    k * factor % W64
  }

  /** `murmurhash64_mix64`: Murmur3's 64-bit finaliser. */
  method MurmurHash64(key: u64) returns (k: nat)
    ensures k == Mix64(key)
  {
    hide Xor, WrappingMul;
    k := key;
    k := Xor(k, ShiftRight(k, 33));
    k := WrappingMul(k, FACTOR1);
    k := Xor(k, ShiftRight(k, 33));
    k := WrappingMul(k, FACTOR2);
    k := Xor(k, ShiftRight(k, 33));
  }

  function Mix64(k: u64): nat {
    XorShift(WrappingMul(XorShift(WrappingMul(XorShift(k), FACTOR1)), FACTOR2))
  }

  /** The same steps backwards, with the inverse factors. */
  function Unmix64(h: u64): nat {
    XorShift(WrappingMul(XorShift(WrappingMul(XorShift(h), INVERSE2)), INVERSE1))
  }

  lemma Pow2Grows()
    ensures Pow2(31) < Pow2(33)
  {
  }

  lemma XorShiftTwice(k: nat)
    requires k < W64
    ensures XorShift(k) < W64 && XorShift(XorShift(k)) == k
  {
    Powers();
    hide Pow2, Xor;
    var s := ShiftRight(k, 33);
    ShiftFits(k, 33, 31);
    Pow2Grows();
    ShiftFits(s, 33, 0);
    XorFits(k, s, 64);
    XorShifts(k, s, 33);
    XorZero(s);
    XorTwice(k, s);
  }

  lemma {:induction false} XorZero(a: nat)
    ensures Xor(a, 0) == a
  {
    if a > 0 {
      XorZero(a / 2);
    }
  }

  lemma FactorsCancel(k: u64, a: nat, b: nat)
    requires a * b % W64 == 1
    ensures WrappingMul(WrappingMul(k, a), b) == k
  {
    var q, c := k * a / W64, a * b / W64;
    assert k * a == q * W64 + WrappingMul(k, a);
    assert k * a * b == (q * W64 + WrappingMul(k, a)) * b;
    assert k * (a * b) == k * (c * W64 + 1);
    assert WrappingMul(k, a) * b == (k * c - q * b) * W64 + k;
    Remainder(WrappingMul(k, a) * b, k * c - q * b, k);
  }

  lemma Remainder(n: nat, q: int, r: u64)
    requires n == q * W64 + r
    ensures n % W64 == r
  {
  }

  /** The mix is a bijection on 64-bit words. */
  lemma MixIsABijection(k: u64)
    ensures Mix64(k) < W64 && Unmix64(Mix64(k)) == k
    ensures Unmix64(k) < W64 && Mix64(Unmix64(k)) == k
  {
    assert FACTOR1 * INVERSE1 % W64 == 1 && FACTOR2 * INVERSE2 % W64 == 1;
    MixThere(k, FACTOR1, FACTOR2, INVERSE2, INVERSE1);
    MixThere(k, INVERSE2, INVERSE1, FACTOR1, FACTOR2);
  }

  function Steps(k: u64, a: nat, b: nat): nat {
    XorShift(WrappingMul(XorShift(WrappingMul(XorShift(k), a)), b))
  }

  lemma MixThere(k: u64, a: nat, b: nat, c: nat, d: nat)
    requires a * d % W64 == 1 && b * c % W64 == 1
    ensures Steps(k, a, b) < W64 && Steps(Steps(k, a, b), c, d) == k
  {
    hide XorShift, WrappingMul;
    XorShiftTwice(k);
    var x := XorShift(k);
    var y := WrappingMul(x, a);
    FactorsCancel(x, a, d);
    XorShiftTwice(y);
    var z := XorShift(y);
    var w := WrappingMul(z, b);
    FactorsCancel(z, b, c);
    XorShiftTwice(w);
  }

  const FLOWTOP_NSLOTS: nat := 2048

  /** `flow_slot`: masking with 2047 keeps the low eleven bits. */
  function FlowSlot(id: u64): (i: nat)
    ensures i < FLOWTOP_NSLOTS
  {
    Mix64(id) % FLOWTOP_NSLOTS
  }

  /** Two IDs share a slot exactly when their hashes agree in the low eleven bits, and only
      equal IDs have equal hashes: nothing but the mask makes flows collide. */
  lemma CollisionsComeFromTheMask(a: u64, b: u64)
    requires a != b && FlowSlot(a) == FlowSlot(b)
    ensures Mix64(a) / FLOWTOP_NSLOTS != Mix64(b) / FLOWTOP_NSLOTS
  {
    hide Mix64, Unmix64;
    MixIsABijection(a);
    MixIsABijection(b);
  }
}
