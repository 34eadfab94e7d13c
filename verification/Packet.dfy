/** `rush/src/packet.rs`: the global freelist and its growth. A packet is known by its
    address; a `Box<Packet>` in use is the only way to name one that is not on the list. */
module Packets {
  import opened Wrappers

  const MAX_PACKETS: nat := 1_000_000

  /** The most packets that doubling steps of 1000, 2000, ... can allocate. */
  const MAX_ALLOCATED: nat := 511_000

  /** Bits on the wire of a packet: padding to 60 bytes plus preamble, CRC and gap. */
  function BitLength(length: nat): nat {
    (12 + 8 + (if length < 60 then 60 else length) + 4) * 8
  }

  /** The least a frame takes on the wire is 84 bytes; padding sets in below 60, and from there
      on every byte counts. */
  lemma PaddingBelow60(length: nat)
    ensures BitLength(0) == 84 * 8
    ensures BitLength(length + 1) == BitLength(length) + if length < 60 then 0 else 8
  {
  }

  /** The freelist as a value: the list with its top at the end, and the allocator's counters. */
  datatype Pool = Pool(free: seq<nat>, total: nat, step: nat)

  function NewPool(): Pool {
    Pool([], 0, 1000)
  }

  function Doublings(k: nat): nat {
    if k == 0 then 1 else 2 * Doublings(k - 1)
  }

  /** The step has doubled `k` times, and every step so far was carried out. */
  ghost predicate Grown(total: nat, step: nat, k: nat) {
    k <= 9 && step == 1000 * Doublings(k) && total == 1000 * (Doublings(k) - 1)
  }

  ghost predicate Growing(total: nat, step: nat) {
    exists k: nat :: Grown(total, step, k)
  }

  /** `n` consecutive fresh addresses. */
  function Fresh(from: nat, n: nat): (r: seq<nat>)
    ensures |r| == n
  {
    if n == 0 then [] else Fresh(from, n - 1) + [from + n - 1]
  }

  /** `preallocate_step`, or None where it panics. */
  function Grow(pool: Pool): Option<Pool> {
    if pool.total + pool.step <= MAX_PACKETS
    then Some(Pool(pool.free + Fresh(pool.total, pool.step), pool.total + pool.step, 2 * pool.step))
    else None
  }

  /** `allocate`, or None where growing panics. */
  function Take(pool: Pool): Option<(nat, Pool)> {
    match if pool.free == [] then Grow(pool) else Some(pool)
    case None => None
    case Some(p) => Popped(p)
  }

  function Popped(pool: Pool): Option<(nat, Pool)> {
    if pool.free == [] then None
    else Some((pool.free[|pool.free| - 1], pool.(free := pool.free[..|pool.free| - 1])))
  }

  /** `free_internal`. */
  function Give(pool: Pool, p: nat): Pool {
    pool.(free := pool.free + [p])
  }

  /** Doubling steps keep the allocated count at 1000*(2^k - 1) <= 511000, and growing
      fails exactly when that maximum is reached. */
  lemma GrowKeepsSchedule(pool: Pool)
    requires Growing(pool.total, pool.step)
    ensures 0 < pool.step && pool.total <= MAX_ALLOCATED
    ensures Grow(pool).None? <==> pool.total == MAX_ALLOCATED
    ensures Grow(pool).Some? ==> Growing(pool.total + pool.step, 2 * pool.step)
  {
    var k: nat :| Grown(pool.total, pool.step, k);
    assert Doublings(9) == 512 && Doublings(8) == 256;
    DoublingsGrow(k, 9);
    if k < 9 {
      DoublingsGrow(k, 8);
      assert Grown(pool.total + pool.step, 2 * pool.step, k + 1);
    }
  }

  lemma {:induction false} DoublingsGrow(j: nat, k: nat)
    requires j <= k
    ensures 1 <= Doublings(j) <= Doublings(k)
  {
    if j < k {
      DoublingsGrow(j, k - 1);
    } else if j > 0 {
      DoublingsGrow(j - 1, k - 1);
    }
  }

  /** The list and the packets in use share out the allocated packets, each exactly once. */
  ghost predicate SharesOut(pool: Pool, inUse: multiset<nat>) {
    forall p: nat :: multiset(pool.free)[p] + inUse[p] == if p < pool.total then 1 else 0
  }

  lemma {:induction false} FreshOnce(from: nat, n: nat, p: nat)
    ensures multiset(Fresh(from, n))[p] == if from <= p < from + n then 1 else 0
  {
    if n > 0 {
      FreshOnce(from, n - 1, p);
    }
  }

  lemma GrowShares(pool: Pool, inUse: multiset<nat>)
    requires SharesOut(pool, inUse) && Grow(pool).Some?
    ensures SharesOut(Grow(pool).value, inUse)
  {
    var after := Grow(pool).value;
    forall p: nat
      ensures multiset(after.free)[p] + inUse[p] == if p < after.total then 1 else 0
    {
      FreshOnce(pool.total, pool.step, p);
      hide Fresh;
      assert multiset(pool.free)[p] + inUse[p] == if p < pool.total then 1 else 0;
      assert multiset(after.free)[p] == multiset(pool.free)[p] + multiset(Fresh(pool.total, pool.step))[p];
    }
  }

  lemma TakeShares(pool: Pool, inUse: multiset<nat>)
    requires SharesOut(pool, inUse) && pool.free != []
    ensures var top := pool.free[|pool.free| - 1];
            top !in inUse
            && SharesOut(pool.(free := pool.free[..|pool.free| - 1]), inUse + multiset{top})
  {
    var rest, top := pool.free[..|pool.free| - 1], pool.free[|pool.free| - 1];
    assert pool.free == rest + [top];
    assert multiset(pool.free)[top] + inUse[top] == if top < pool.total then 1 else 0;
  }

  lemma GiveShares(pool: Pool, inUse: multiset<nat>, p: nat)
    requires SharesOut(pool, inUse) && p in inUse
    ensures SharesOut(Give(pool, p), inUse - multiset{p})
  {
  }

  /** Every address below `n`, once. */
  ghost function AllBelow(n: nat): (r: multiset<nat>)
    ensures |r| == n
  {
    if n == 0 then multiset{} else AllBelow(n - 1) + multiset{n - 1}
  }

  lemma {:induction false} AllBelowOnce(n: nat, p: nat)
    ensures AllBelow(n)[p] == if p < n then 1 else 0
  {
    if n > 0 {
      AllBelowOnce(n - 1, p);
    }
  }

  lemma CountShared(pool: Pool, inUse: multiset<nat>)
    requires SharesOut(pool, inUse)
    ensures |pool.free| + |inUse| == pool.total
  {
    forall p: nat
      ensures (multiset(pool.free) + inUse)[p] == AllBelow(pool.total)[p]
    {
      AllBelowOnce(pool.total, p);
      hide AllBelow;
    }
    assert multiset(pool.free) + inUse == AllBelow(pool.total);
    assert |multiset(pool.free) + inUse| == |pool.free| + |inUse|;
  }

  /** What holds of the freelist whenever no call is under way. */
  ghost predicate Sound(pool: Pool, inUse: multiset<nat>) {
    |pool.free| <= MAX_PACKETS && Growing(pool.total, pool.step) && SharesOut(pool, inUse)
  }

  lemma SoundStart()
    ensures Sound(NewPool(), multiset{})
  {
    assert Grown(0, 1000, 0);
  }

  /** Growing succeeds, with room on the list, until 511000 packets exist. */
  lemma GrowSound(pool: Pool, inUse: multiset<nat>)
    requires Sound(pool, inUse)
    ensures pool.total <= MAX_ALLOCATED && 0 < pool.step
    ensures Grow(pool).None? <==> pool.total == MAX_ALLOCATED
    ensures Grow(pool).Some? ==> Sound(Grow(pool).value, inUse)
  {
    GrowKeepsSchedule(pool);
    if Grow(pool).Some? {
      GrowShares(pool, inUse);
      CountShared(Grow(pool).value, inUse);
    }
  }

  /** Allocation fails exactly when all 511000 packets are in use; otherwise it hands out
      one that was not. */
  lemma TakeSound(pool: Pool, inUse: multiset<nat>)
    requires Sound(pool, inUse)
    ensures Take(pool).None? <==> |inUse| == MAX_ALLOCATED
    ensures Take(pool).Some? ==> Take(pool).value.0 !in inUse
                                 && Sound(Take(pool).value.1, inUse + multiset{Take(pool).value.0})
  {
    SoundShares(pool, inUse);
    hide Sound, Grow, Growing, SharesOut;
    GrowSound(pool, inUse);
    CountShared(pool, inUse);
    if pool.free != [] {
      PopSound(pool, inUse);
    } else if Grow(pool).Some? {
      PopSound(Grow(pool).value, inUse);
    }
  }

  lemma SoundShares(pool: Pool, inUse: multiset<nat>)
    requires Sound(pool, inUse)
    ensures SharesOut(pool, inUse)
  {
  }

  lemma PopSound(pool: Pool, inUse: multiset<nat>)
    requires Sound(pool, inUse) && pool.free != []
    ensures var top := pool.free[|pool.free| - 1];
            top !in inUse
            && Sound(pool.(free := pool.free[..|pool.free| - 1]), inUse + multiset{top})
  {
    TakeShares(pool, inUse);
    hide SharesOut;
  }

  /** A packet in use fits back on the list: the freelist-overflow panic is unreachable. */
  lemma GiveSound(pool: Pool, inUse: multiset<nat>, p: nat)
    requires Sound(pool, inUse) && p in inUse
    ensures |pool.free| < MAX_PACKETS
    ensures Sound(Give(pool, p), inUse - multiset{p})
  {
    GrowSound(pool, inUse);
    CountShared(pool, inUse);
    GiveShares(pool, inUse, p);
  }

  class Freelist {
    const list: array<nat>
    var nfree: nat
    var packetsAllocated: nat
    var allocationStep: nat
    ghost var inUse: multiset<nat>  // the packets held in a Box somewhere

    ghost function View(): Pool
      requires nfree <= list.Length
      reads `nfree, `packetsAllocated, `allocationStep, list
    {
      Pool(list[..nfree], packetsAllocated, allocationStep)
    }

    ghost predicate Valid()
      reads this, list
    {
      list.Length == MAX_PACKETS && nfree <= MAX_PACKETS && Sound(View(), inUse)
    }

    constructor ()
      ensures Valid() && fresh(list) && View() == NewPool() && inUse == multiset{}
    {
      list := new nat[MAX_PACKETS];
      nfree, packetsAllocated, allocationStep := 0, 0, 1000;
      inUse := multiset{};
      new;
      SoundStart();
    }

    /** The store and increment that `free_internal` ends with; `nfree < MAX_PACKETS` is the
        absence of the freelist-overflow panic. */
    method Store(p: nat)
      requires nfree < list.Length
      modifies this`nfree, list
      ensures nfree == old(nfree) + 1 && View() == Give(old(View()), p)
    {
      list[nfree] := p;
      nfree := nfree + 1;
    }

    /** The loop of `preallocate_step`. */
    method StoreFresh(n: nat)
      requires nfree + n <= list.Length
      modifies this`nfree, list
      ensures nfree == old(nfree) + n
      ensures View() == old(View()).(free := old(View()).free + Fresh(packetsAllocated, n))
    {
      ghost var before := View();
      var i := 0;
      while i < n
        invariant 0 <= i <= n && nfree == |before.free| + i
        invariant View() == before.(free := before.free + Fresh(packetsAllocated, i))
      {
        Store(packetsAllocated + i);
        i := i + 1;
      }
    }

    /** Fill the list with freshly allocated packets; false stands for the panic. */
    method PreallocateStep() returns (ok: bool)
      requires Valid()
      modifies this`nfree, this`packetsAllocated, this`allocationStep, list
      ensures Valid()
      ensures ok <==> old(packetsAllocated) < MAX_ALLOCATED
      ensures Grow(old(View())) == if ok then Some(View()) else None
      ensures !ok ==> View() == old(View())
    {
      ghost var before := View();
      GrowSound(before, inUse);
      ok := packetsAllocated + allocationStep <= MAX_PACKETS;
      if ok {
        assert |before.free| + allocationStep == |Grow(before).value.free|;
        hide Sound, Fresh;
        StoreFresh(allocationStep);
        packetsAllocated := packetsAllocated + allocationStep;
        allocationStep := 2 * allocationStep;
        assert View() == Grow(before).value;
      }
    }

    /** Take a packet off the list, growing it first when empty; None stands for the panic,
        which happens only with all 511000 packets in use. */
    method Allocate() returns (p: Option<nat>)
      requires Valid()
      modifies this, list
      ensures Valid()
      ensures p.None? <==> |old(inUse)| == MAX_ALLOCATED
      ensures Take(old(View())) == if p.Some? then Some((p.value, View())) else None
      ensures p.Some? ==> p.value !in old(inUse)
      ensures inUse == if p.Some? then old(inUse) + multiset{p.value} else old(inUse)
    {
      TakeSound(View(), inUse);
      hide Sound, Fresh, Popped;
      var ok := true;
      if nfree == 0 {
        ok := PreallocateStep();
      }
      assert Take(old(View())) == if ok then Popped(View()) else None;
      hide Grow, Take;
      if ok {
        p := Pop();
      } else {
        p := None;
      }
    }

    /** Take the top packet off a list that is not empty. */
    method Pop() returns (p: Option<nat>)
      requires 0 < nfree <= list.Length
      modifies this`nfree, this`inUse
      ensures nfree == old(nfree) - 1 && p.Some?
      ensures Popped(old(View())) == Some((p.value, View()))
      ensures inUse == old(inUse) + multiset{p.value}
    {
      nfree := nfree - 1;
      p := Some(list[nfree]);
      inUse := inUse + multiset{list[nfree]};
      assert View().free == old(View()).free[..nfree];
    }

    /** Put a packet in use back on the list. */
    method Free(p: nat)
      requires Valid() && p in inUse
      modifies this, list
      ensures Valid() && View() == Give(old(View()), p) && inUse == old(inUse) - multiset{p}
    {
      GiveSound(View(), inUse, p);
      hide Sound;
      inUse := inUse - multiset{p};
      Store(p);
    }
  }
}
