/** `rush/src/checksum.rs`: the reference loop and the two add-with-carry routines as
    register machines, one assignment per instruction that touches a modelled register,
    each proved to return `Ipsum`. */
module Checksum {
  import opened Words
  import opened OnesComplement


  type bit = c: int | 0 <= c < 2

  // Instructions

  /** `add`/`adc`/`adds`/`adcs` on a register of `width` values: the result and the carry out. */
  function AddCarry(width: nat, a: nat, b: nat, carry: bit): (r: (nat, bit))
    requires a < width && b < width
    ensures r.0 < width && r.0 + (if r.1 == 1 then width else 0) == a + b + carry
  {
    if a + b + carry < width then (a + b + carry, 0) else (a + b + carry - width, 1)
  }

  /** The little-endian value of some bytes, as a load instruction delivers it. */
  function LittleEndian(s: seq<byte>): nat {
    if |s| == 0 then 0 else s[0] + 0x100 * LittleEndian(s[1..])
  }

  /** An `n`-byte zero-extending load at `ptr`. */
  function Load(data: seq<byte>, ptr: nat, n: nat): nat
    requires ptr + n <= |data|
  {
    LittleEndian(data[ptr..ptr + n])
  }

  /** `xchg l, h` and `rev16` on a register whose value fits 16 bits are `Swap16`;
      this is `rev16` on a full 32-bit register: both halfwords are swapped. */
  function Rev16(w: nat): nat
    requires w < W32
  {
    Swap16(w / W16) * W16 + Swap16(w % W16)
  }

  /** Bit `n` of the size register, as `tbz` tests it. */
  predicate BitSet(size: nat, n: nat)
    requires n < 5
  {
    var place := if n == 0 then 1 else if n == 1 then 2 else if n == 2 then 4 else if n == 3 then 8 else 16;
    size / place % 2 == 1
  }

  // What one instruction does to the sum

  function Power256(n: nat): nat {
    if n == 0 then 1 else 0x100 * Power256(n - 1)
  }

  lemma {:induction false} LittleEndianBound(s: seq<byte>)
    ensures LittleEndian(s) < Power256(|s|)
  {
    if |s| > 0 {
      LittleEndianBound(s[1..]);
    }
  }

  lemma FoldHigh(low: nat, high: nat)
    ensures Same(low + W16 * high, low + high)
  {
  }

  lemma WordLoad(data: seq<byte>, ptr: nat)
    requires ptr + 2 <= |data|
    ensures Load(data, ptr, 2) == WordSum(data[ptr..ptr + 2]) <= 0xFFFF
  {
    var s := data[ptr..ptr + 2];
    assert s[1..][1..] == [] && s[2..] == [];
    assert LittleEndian(s[1..]) == s[1];
  }

  /** A wide little-endian load is worth the sum of its 16-bit words. */
  lemma {:induction false} LittleEndianSame(s: seq<byte>)
    ensures Same(LittleEndian(s), WordSum(s))
  {
    if |s| == 1 {
      assert LittleEndian(s[1..]) == 0;
    } else if |s| > 1 {
      var rest := LittleEndian(s[2..]);
      LittleEndianSame(s[2..]);
      assert s[1..][1..] == s[2..];
      FoldHigh(s[0] as int + 0x100 * s[1] as int, rest);
      SameAdd(rest, WordSum(s[2..]), s[0] as int + 0x100 * s[1] as int);
    }
  }

  lemma LoadFits(data: seq<byte>, ptr: nat, n: nat)
    requires ptr + n <= |data| && n in {1, 2, 4, 8}
    ensures Load(data, ptr, n) < (if n == 8 then W64 else W32)
  {
    LittleEndianBound(data[ptr..ptr + n]);
    assert Power256(4) == W32 && Power256(8) == W64 && Power256(1) == 0x100 && Power256(2) == W16;
  }

  /** Adding with carry keeps the sum `acc + carry` in its class, and keeps the pair off
      the one state, all ones with carry set, in which a closing `adc 0` loses the carry. */
  lemma AddCarryKeeps(width: nat, a: nat, b: nat, carry: bit, total: nat)
    requires width in {W64, W32, W16}
    requires b < width && a + carry < width
    requires Same(a + carry, total)
    ensures var (s, c) := AddCarry(width, a, b, carry); s + c < width && Same(s + c, total + b)
  {
    hide Same;
    var (s, c) := AddCarry(width, a, b, carry);
    SameAdd(a + carry, total, b);
    if c == 1 {
      DropWidth(width, a + carry + b);
      SameChain(s + c, a + carry + b, total + b);
    }
  }

  /** Dropping a carry out and adding it back takes off a multiple of 65535. */
  lemma DropWidth(width: nat, n: nat)
    requires width in {W64, W32, W16} && n >= width
    ensures Same(n - (width - 1), n)
  {
    var k := (width - 1) / 0xFFFF;
    assert width - 1 == k * 0xFFFF;
  }

  /** The part of the machine state that carries the sum: what holds before and after each
      accumulating instruction that has consumed `data[..ptr]`. */
  predicate Accumulated(data: seq<byte>, ptr: nat, initial: u16, acc: nat, carry: bit) {
    && ptr <= |data|
    && (ptr % 2 == 0 || ptr == |data|)
    && acc + carry < W64
    && Same(acc + carry, Swap16(initial) + WordSum(data[..ptr]))
  }

  lemma Accumulate(data: seq<byte>, ptr: nat, n: nat, initial: u16, acc: nat, carry: bit)
    requires Accumulated(data, ptr, initial, acc, carry)
    requires n in {1, 2, 4, 8} && ptr + n <= |data| && (n == 1 ==> ptr + n == |data|)
    ensures Load(data, ptr, n) < W64
    ensures var (s, c) := AddCarry(W64, acc, Load(data, ptr, n), carry);
            Accumulated(data, ptr + n, initial, s, c)
  {
    hide Same, Swap16, WordSum, AddCarry, LittleEndian, Load;
    LoadFits(data, ptr, n);
    LoadSame(data, ptr, n);
    var total: nat := Swap16(initial) + WordSum(data[..ptr]);
    var word := Load(data, ptr, n);
    var (s, c) := AddCarry(W64, acc, word, carry);
    AddCarryKeeps(W64, acc, word, carry, total);
    SameAdd(word, WordSum(data[ptr..ptr + n]), total);
    SameChain(s + c, total + word, total + WordSum(data[ptr..ptr + n]));
  }

  lemma LoadSame(data: seq<byte>, ptr: nat, n: nat)
    requires ptr + n <= |data| && ptr % 2 == 0
    ensures Same(Load(data, ptr, n), WordSum(data[ptr..ptr + n]))
    ensures WordSum(data[..ptr + n]) == WordSum(data[..ptr]) + WordSum(data[ptr..ptr + n])
  {
    var chunk := data[ptr..ptr + n];
    LittleEndianSame(chunk);
    WordSumSplit(data[..ptr], chunk);
    assert data[..ptr] + chunk == data[..ptr + n];
    hide Same, WordSum, LittleEndian;
  }

  /** `adc 0`: the pending carry is added back without overflow. */
  lemma CloseCarry(data: seq<byte>, ptr: nat, initial: u16, acc: nat, carry: bit)
    requires Accumulated(data, ptr, initial, acc, carry)
    ensures AddCarry(W64, acc, 0, carry) == (acc + carry, 0)
    ensures Accumulated(data, ptr, initial, acc + carry, 0)
  {
  }

  lemma AccumulatedAll(data: seq<byte>, initial: u16, acc: nat, carry: bit)
    requires Accumulated(data, |data|, initial, acc, carry)
    ensures acc + carry < W64
    ensures Swap16(Not16(Canon(acc + carry))) == Ipsum(data, initial)
  {
    assert data[..|data|] == data;
    CanonDecides(acc + carry, Swap16(initial) + WordSum(data));
  }

  // The routines

  /** The reference loop. `csum` is a `u64`: it cannot wrap on a slice within a
      48-bit address space. */
  method ChecksumRust(data: seq<byte>, length: nat) returns (r: u16)
    requires length <= |data| <= 0x1_0000_0000_0000
    ensures r == Ipsum(data[..length], 0)
  {
    var csum: nat := 0;
    var i := length;
    while i > 1
      invariant 0 <= i <= length && (length - i) % 2 == 0
      invariant csum == WordSum(data[..length - i])
      invariant csum <= 0xFFFF * (length - i)
    {
      var at := length - i;
      var word := Load(data, at, 2);
      WordLoad(data, at);
      WordSumSplit(data[..at], data[at..at + 2]);
      assert data[..at] + data[at..at + 2] == data[..at + 2];
      csum := csum + word;
      i := i - 2;
    }
    if i == 1 {
      WordSumSplit(data[..length - 1], [data[length - 1]]);
      assert data[..length - 1] + [data[length - 1]] == data[..length];
      csum := csum + data[length - 1];
    }
    assert csum == WordSum(data[..length]) && csum < W64;
    csum := FoldRust(csum);
    r := Swap16(Not16(csum));
  }

  /** The reference loop's folding: the carries above 16 bits are added back until none is left. */
  method FoldRust(sum: nat) returns (csum: nat)
    ensures csum == Canon(sum)
  {
    csum := sum;
    while csum / W16 != 0
      invariant Same(csum, sum)
      decreases csum
    {
      SplitSame(csum, W16);
      csum := csum % W16 + csum / W16;
    }
    CanonDecides(csum, sum);
  }

  /** One accumulating instruction with an `n`-byte memory operand at `ptr`
      (`adc acc, [ptr]`; `ldp`/`ldr` followed by `adcs`). */
  method AdcLoad(data: seq<byte>, ptr: nat, n: nat, ghost initial: u16, acc: nat, carry: bit)
    returns (s: nat, c: bit)
    requires Accumulated(data, ptr, initial, acc, carry)
    requires n in {1, 2, 4, 8} && ptr + n <= |data| && (n == 1 ==> ptr + n == |data|)
    ensures Load(data, ptr, n) < W64 && (s, c) == AddCarry(W64, acc, Load(data, ptr, n), carry)
    ensures Accumulated(data, ptr + n, initial, s, c)
  {
    Accumulate(data, ptr, n, initial, acc, carry);
    var r := AddCarry(W64, acc, Load(data, ptr, n), carry);
    s, c := r.0, r.1;
  }

  /** `adc acc, 0`. */
  method AdcZero(ghost data: seq<byte>, ghost ptr: nat, ghost initial: u16, acc: nat, carry: bit)
    returns (s: nat, c: bit)
    requires Accumulated(data, ptr, initial, acc, carry)
    ensures (s, c) == AddCarry(W64, acc, 0, carry)
    ensures s == acc + carry && c == 0
    ensures Accumulated(data, ptr, initial, s, c)
  {
    var r := AddCarry(W64, acc, 0, carry);
    s, c := r.0, r.1;
  }

  /** Four loads and a closing carry: the body of label 1 in both routines. */
  method AddBlock32(data: seq<byte>, ptr: nat, ghost initial: u16, acc0: nat) returns (acc: nat)
    requires Accumulated(data, ptr, initial, acc0, 0)
    requires ptr + 32 <= |data|
    ensures Accumulated(data, ptr + 32, initial, acc, 0)
  {
    var carry: bit;
    acc, carry := AdcLoad(data, ptr, 8, initial, acc0, 0);
    acc, carry := AdcLoad(data, ptr + 8, 8, initial, acc, carry);
    acc, carry := AdcLoad(data, ptr + 16, 8, initial, acc, carry);
    acc, carry := AdcLoad(data, ptr + 24, 8, initial, acc, carry);
    acc, carry := AdcZero(data, ptr + 32, initial, acc, carry);
  }

  /** One load and a closing carry: labels 3 to 6 of the x86_64 routine. */
  method AddBlock(data: seq<byte>, ptr: nat, n: nat, ghost initial: u16, acc0: nat) returns (acc: nat)
    requires Accumulated(data, ptr, initial, acc0, 0)
    requires n in {1, 2, 4, 8} && ptr + n <= |data| && (n == 1 ==> ptr + n == |data|)
    ensures Accumulated(data, ptr + n, initial, acc, 0)
  {
    var carry: bit;
    acc, carry := AdcLoad(data, ptr, n, initial, acc0, 0);
    acc, carry := AdcZero(data, ptr + n, initial, acc, carry);
  }

  /** The x86_64 routine. `add` ignores the incoming carry, so it is `adc` with carry clear. */
  method ChecksumX86(data: seq<byte>, length: nat, initial: u16) returns (r: u16)
    requires length <= |data|
    ensures r == Ipsum(data[..length], initial)
  {
    hide *;
    var d := data[..length];
    var ptr, size := 0, length;
    var acc: nat := Swap16(initial);                                // xchg l, h
    Loaded(d, initial);
    while size >= 32                                                // 1:
      invariant 0 <= size && ptr + size == length
      invariant Accumulated(d, ptr, initial, acc, 0)
    {
      acc := AddBlock32(d, ptr, initial, acc);
      size, ptr := size - 32, ptr + 32;
    }
    acc := TailX86(d, ptr, size, initial, acc);
    AccumulatedAll(d, initial, acc, 0);
    r := FoldX86(acc);                                              // 7:
  }

  /** Labels 2 to 6 of the x86_64 routine: the last `size` bytes. */
  method TailX86(data: seq<byte>, ptr0: nat, size0: nat, ghost initial: u16, acc0: nat) returns (acc: nat)
    requires Accumulated(data, ptr0, initial, acc0, 0)
    requires size0 < 32 && ptr0 + size0 == |data|
    ensures Accumulated(data, |data|, initial, acc, 0)
  {
    hide *;
    var ptr, size := ptr0, size0;
    acc := acc0;
    if size >= 16 {                                                 // 2:
      var carry: bit;
      acc, carry := AdcLoad(data, ptr, 8, initial, acc, 0);
      acc, carry := AdcLoad(data, ptr + 8, 8, initial, acc, carry);
      acc, carry := AdcZero(data, ptr + 16, initial, acc, carry);
      size, ptr := size - 16, ptr + 16;
    }
    if size >= 8 {                                                  // 3:
      acc := AddBlock(data, ptr, 8, initial, acc);
      size, ptr := size - 8, ptr + 8;
    }
    if size >= 4 {                                                  // 4:
      acc := AddBlock(data, ptr, 4, initial, acc);
      size, ptr := size - 4, ptr + 4;
    }
    if size >= 2 {                                                  // 5:
      acc := AddBlock(data, ptr, 2, initial, acc);
      size, ptr := size - 2, ptr + 2;
    }
    if size >= 1 {                                                  // 6:
      acc := AddBlock(data, ptr, 1, initial, acc);
    }
  }

  /** Fold 64 to 16 bits, complement and swap: label 7 of the x86_64 routine. */
  method FoldX86(acc0: nat) returns (r: u16)
    requires acc0 < W64
    ensures r == Swap16(Not16(Canon(acc0)))
  {
    var tmp := acc0 / W32;                                          // shr tmp, 32
    var acc := acc0 % W32;                                          // mov acc:e, acc:e
    SplitSame(acc0, W32);
    AddCarryKeeps(W32, acc, tmp, 0, acc);
    var sum := AddCarry(W32, acc, tmp, 0);                          // add acc:e, tmp:e
    sum := AddCarry(W32, sum.0, 0, sum.1);                          // adc acc:e, 0
    acc := sum.0;
    assert Same(acc, acc0);
    tmp := acc / W16;                                               // shr tmp:e, 16
    SplitSame(acc, W16);
    AddCarryKeeps(W16, acc % W16, tmp, 0, acc % W16);
    sum := AddCarry(W16, acc % W16, tmp, 0);                        // add acc:x, tmp:x
    sum := AddCarry(W16, sum.0, 0, sum.1);                          // adc acc:x, 0
    acc := sum.0;
    CanonDecides(acc, acc0);
    r := Swap16(Not16(acc));                                        // not, and, xchg
  }

  /** Adding the high part of a register to its low part keeps the class. */
  lemma SplitSame(a: nat, width: nat)
    requires width in {W32, W16}
    ensures Same(a % width + a / width, a)
  {
  }

  /** The aarch64 routine. */
  method ChecksumArm(data: seq<byte>, length: nat, initial: u16) returns (r: u16)
    requires length <= |data|
    ensures r == Ipsum(data[..length], initial)
  {
    hide *;
    var d := data[..length];
    var ptr := 0;
    var mod32 := length / 32 * 32;                                  // ands mod32, size, ~31
    Loaded(d, initial);
    var acc: nat := Rev16(initial);
    ghost var left: nat := length / 32;
    SizeBits(length);
    while mod32 > 0                                                 // 1:, b.eq, b.gt
      invariant mod32 == 32 * left && ptr + mod32 + Leftover(length) == length
      invariant Accumulated(d, ptr, initial, acc, 0)
    {
      acc := AddBlock32(d, ptr, initial, acc);
      mod32, ptr, left := mod32 - 32, ptr + 32, left - 1;
    }
    assert mod32 == 0;
    var carry: bit;
    acc, carry := TailArm(d, ptr, initial, acc);                    // carry cleared by ands or tst
    AccumulatedAll(d, initial, acc, carry);
    r := FoldArm(acc, carry);                                       // 7:
  }

  /** Labels 2 to 6 of the aarch64 routine, the bits of the size selecting the loads. The
      carry of one block is left pending for the next, and the last one for the fold. */
  method TailArm(data: seq<byte>, ptr0: nat, ghost initial: u16, acc0: nat) returns (acc: nat, carry: bit)
    requires ptr0 + Leftover(|data|) == |data|
    requires Accumulated(data, ptr0, initial, acc0, 0)
    ensures Accumulated(data, |data|, initial, acc, carry)
  {
    var ptr := ptr0;
    var b4, b3, b2 := BitSet(|data|, 4), BitSet(|data|, 3), BitSet(|data|, 2);
    var b1, b0 := BitSet(|data|, 1), BitSet(|data|, 0);
    assert ptr0 + (if b4 then 16 else 0) + (if b3 then 8 else 0) + (if b2 then 4 else 0)
           + (if b1 then 2 else 0) + (if b0 then 1 else 0) == |data|;
    hide *;
    acc, carry := acc0, 0;
    if b4 {                                                         // 2:
      acc, carry := AdcLoad(data, ptr, 8, initial, acc, 0);         // adds
      acc, carry := AdcLoad(data, ptr + 8, 8, initial, acc, carry);
      ptr := ptr + 16;
    }
    if b3 {                                                         // 3:
      acc, carry := AdcLoad(data, ptr, 8, initial, acc, carry);
      ptr := ptr + 8;
    }
    if b2 {                                                         // 4:
      acc, carry := AdcLoad(data, ptr, 4, initial, acc, carry);
      ptr := ptr + 4;
    }
    if b1 {                                                         // 5:
      acc, carry := AdcLoad(data, ptr, 2, initial, acc, carry);
      ptr := ptr + 2;
    }
    if b0 {                                                         // 6:
      acc, carry := AdcLoad(data, ptr, 1, initial, acc, carry);
    }
  }

  /** The bytes that labels 2 to 6 of the aarch64 routine consume. */
  function Leftover(size: nat): nat {
    (if BitSet(size, 4) then 16 else 0) + (if BitSet(size, 3) then 8 else 0)
    + (if BitSet(size, 2) then 4 else 0) + (if BitSet(size, 1) then 2 else 0)
    + (if BitSet(size, 0) then 1 else 0)
  }

  /** Swapping the initial value starts the sum. */
  lemma Loaded(data: seq<byte>, initial: u16)
    ensures initial < W32 && Rev16(initial) == Swap16(initial)
    ensures Accumulated(data, 0, initial, Swap16(initial), 0)
  {
    RevLow(initial);
  }

  /** The tested bits of the size are exactly what the 32-byte blocks leave over. */
  lemma SizeBits(size: nat)
    ensures size == size / 32 * 32 + Leftover(size)
  {
    assert size / 4 == size / 2 / 2 && size / 8 == size / 4 / 2;
    assert size / 16 == size / 8 / 2 && size / 32 == size / 16 / 2;
  }

  /** Fold 64 bits and a pending carry to 16 bits: label 7 of the aarch64 routine. */
  method FoldArm(acc0: nat, carry0: bit) returns (r: u16)
    requires acc0 + carry0 < W64
    ensures r == Swap16(Not16(Canon(acc0 + carry0)))
  {
    var tmp1 := acc0 / W32;                                         // lsr tmp1, acc, 32
    FoldPending(acc0, carry0);
    var sum := AddCarry(W32, acc0 % W32, tmp1, carry0);             // adcs acc:w, acc:w, tmp1:w
    sum := AddCarry(W32, sum.0, 0, sum.1);                          // adc acc:w, acc:w, wzr
    var acc := sum.0;
    FoldTwice(acc);
    acc := acc % W16 + acc / W16;                                   // uxth; add ..., lsr 16
    acc := acc + acc / W16;                                         // add ..., lsr 16
    CanonDecides(acc % W16, acc0 + carry0);
    RevLow(W32 - 1 - acc);
    NotLow(acc);
    r := Rev16(W32 - 1 - acc) % W16;                                // mvn, rev16, as u16
  }

  /** The 32-bit add takes in the pending carry, and its own carry out is never lost. */
  lemma FoldPending(acc: nat, carry: bit)
    requires acc + carry < W64
    ensures var (s, c) := AddCarry(W32, acc % W32, acc / W32, carry);
            s + c < W32 && Same(s + c, acc + carry)
  {
    var (s, c) := AddCarry(W32, acc % W32, acc / W32, carry);
    SplitSame(acc, W32);
    SameAdd(acc % W32 + acc / W32, acc, carry);
    if c == 1 {
      assert s + c == acc % W32 + acc / W32 + carry - (W32 - 1);
    }
  }

  lemma FoldTwice(acc: nat)
    requires acc < W32
    ensures var t := acc % W16 + acc / W16;
            t + t / W16 < W32 && Same((t + t / W16) % W16, acc)
  {
    var t := acc % W16 + acc / W16;
    SplitSame(acc, W16);
    assert (t + t / W16) % W16 == if t < W16 then t else t - 0xFFFF;
  }

  lemma RevLow(w: nat)
    requires w < W32
    ensures Rev16(w) % W16 == Swap16(w % W16)
  {
  }

  lemma NotLow(w: nat)
    requires w < W32
    ensures (W32 - 1 - w) % W16 == Not16(w % W16)
  {
  }
}
