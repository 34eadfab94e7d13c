/** The RateLimiter app of `rush/src/qos.rs`: a token bucket. Time is in nanoseconds,
    tokens are bits scaled by 10^6, and `u64` arithmetic wraps. */
module RateLimiters {
  import opened Words
  import opened Links
  import Packets

  const SCALE: nat := 1_000_000
  const TICK: nat := 100  // us
  const TICK_NS: nat := 100_000
  function Wrap64(n: nat): (r: u64)
    ensures r <= n
    ensures n < W64 ==> r == n
  {
    if n < W64 then n else n % W64
  }

  datatype Time = Never | At(ns: nat)
  datatype Bucket = Bucket(rate: u64, capacity: u64, tokens: u64, last: Time)

  function NewBucket(rate: u64): Bucket {
    var capacity := Wrap64(rate * SCALE);
    Bucket(rate, capacity, capacity / (1_000_000 / TICK), Never)
  }

  /** Whole microseconds from one instant to another; subtracting instants saturates at zero. */
  function Micros(from: nat, to: nat): nat {
    if to < from then 0 else (to - from) / 1000
  }

  /** The replenishing half of `push`. */
  function Replenish(b: Bucket, now: nat): Bucket {
    if b.last.Never? then b.(last := At(now))
    else
      var us := Micros(b.last.ns, now);
      if us < TICK then b
      else
        var tokens := Wrap64(b.tokens + Wrap64(b.rate * us));
        b.(last := At(now), tokens := if tokens < b.capacity then tokens else b.capacity)
  }

  /** Scaled bits of a packet on the wire. */
  function Cost<T>(size: T -> u16, p: T): nat {
    Packets.BitLength(size(p)) * SCALE
  }

  /** The policing half of `push`: what is forwarded, what is dropped, what is left. */
  datatype Policed<T> = Policed(tokens: u64, forwarded: seq<T>, dropped: seq<T>)

  function PolicedNext<T>(r: Policed<T>, cost: nat, p: T): Policed<T> {
    if cost <= r.tokens then r.(tokens := r.tokens - cost, forwarded := r.forwarded + [p])
    else r.(dropped := r.dropped + [p])
  }

  function Police<T>(size: T -> u16, tokens: u64, ps: seq<T>): Policed<T> {
    if |ps| == 0 then Policed(tokens, [], [])
    else
      var p := ps[|ps| - 1];
      PolicedNext(Police(size, tokens, ps[..|ps| - 1]), Cost(size, p), p)
  }

  class RateLimiterApp {
    const rate: u64
    const capacity: u64
    var tokens: u64
    var last: Time

    function View(): Bucket
      reads this
    {
      Bucket(rate, capacity, tokens, last)
    }

    constructor (rate: u64)
      ensures View() == NewBucket(rate)
    {
      var capacity := Wrap64(rate * SCALE);
      this.rate, this.capacity := rate, capacity;
      tokens, last := capacity / (1_000_000 / TICK), Never;
    }

    /** Replenish once every tick at most, then drain the input link through the bucket. */
    method Push<T(0)>(now: nat, input: Link<T>, output: Link<T>)
      requires input.Valid() && output.Valid() && input != output && input.packets != output.packets
      modifies this, input, output, output.packets
      ensures input.Valid() && output.Valid() && input.Contents() == []
      ensures var r := Police(input.size, Replenish(old(View()), now).tokens, old(input.Contents()));
              && View() == Replenish(old(View()), now).(tokens := r.tokens)
              && output.history == SendAll(old(output.history), r.forwarded)
    {
      Refill(now);
      Drain(input, output);
    }

    method Refill(now: nat)
      modifies this
      ensures View() == Replenish(old(View()), now)
    {
      if last.At? {
        var us := Micros(last.ns, now);
        if us >= TICK {
          var sum := Wrap64(tokens + Wrap64(rate * us));
          last, tokens := At(now), if sum < capacity then sum else capacity;
        }
      } else {
        last := At(now);
      }
    }

    method Drain<T(0)>(input: Link<T>, output: Link<T>)
      requires input.Valid() && output.Valid() && input != output && input.packets != output.packets
      modifies this, input, output, output.packets
      ensures input.Valid() && output.Valid() && input.Contents() == []
      ensures var r := Police(input.size, old(tokens), old(input.Contents()));
              && View() == old(View()).(tokens := r.tokens)
              && output.history == SendAll(old(output.history), r.forwarded)
    {
      ghost var waiting, start, tokens0, last0 := input.Contents(), output.history, tokens, last;
      var k: nat := 0;
      input.Cursors();
      SendNone(start);
      PoliceStart(input.size, tokens, waiting);
      assert waiting[0..] == waiting;
      assert Draining(waiting, start, tokens0, last0, 0, input, output);
      hide Link.Valid, Draining, SendAll, Police;
      while !input.Empty()
        invariant k <= |waiting| && Draining(waiting, start, tokens0, last0, k, input, output)
        invariant input.Empty() <==> k == |waiting|
        decreases |waiting| - k
      {
        DrainOne(waiting, start, tokens0, last0, k, input, output);
        k := k + 1;
      }
      DrainEnd(waiting, start, tokens0, last0, input, output);
    }

    ghost predicate Draining<T(0)>(waiting: seq<T>, start: History<T>, tokens0: u64, last0: Time, k: nat,
                                   input: Link<T>, output: Link<T>)
      requires k <= |waiting|
      reads this, input, input.packets, output, output.packets
    {
      && input.Valid() && output.Valid() && input != output && input.packets != output.packets
      && input.Contents() == waiting[k..] && last == last0
      && var r := Police(input.size, tokens0, waiting[..k]);
         tokens == r.tokens && output.history == SendAll(start, r.forwarded)
    }

    lemma DrainEnd<T(0)>(waiting: seq<T>, start: History<T>, tokens0: u64, last0: Time, input: Link<T>, output: Link<T>)
      requires Draining(waiting, start, tokens0, last0, |waiting|, input, output)
      ensures input.Valid() && output.Valid() && input.Contents() == [] && last == last0
      ensures var r := Police(input.size, tokens0, waiting);
              tokens == r.tokens && output.history == SendAll(start, r.forwarded)
    {
      assert waiting[..|waiting|] == waiting;
    }

    method DrainOne<T(0)>(ghost waiting: seq<T>, ghost start: History<T>, ghost tokens0: u64, ghost last0: Time, k: nat,
                          input: Link<T>, output: Link<T>)
      requires k < |waiting| && Draining(waiting, start, tokens0, last0, k, input, output)
      modifies this, input, output, output.packets
      ensures Draining(waiting, start, tokens0, last0, k + 1, input, output)
      ensures input.Empty() <==> k + 1 == |waiting|
    {
      hide Link.Valid, Police, PolicedNext, SendAll, Step, Cost;
      assert waiting[k..][1..] == waiting[k + 1..] && waiting[k..][0] == waiting[k];
      PoliceNext(input.size, tokens0, waiting, k);
      ghost var r := Police(input.size, tokens0, waiting[..k]);
      var p := input.Receive();
      ghost var r' := PoliceOne(p, Cost(input.size, p), output, r, start);
      input.Cursors();
    }

    /** Forward a packet that the bucket can pay for, and drop any other. */
    method PoliceOne<T(0)>(p: T, cost: nat, output: Link<T>, ghost r: Policed<T>, ghost start: History<T>)
      returns (ghost r': Policed<T>)
      requires output.Valid() && r.tokens == tokens && output.history == SendAll(start, r.forwarded)
      modifies `tokens, output, output.packets
      ensures output.Valid() && output.history == SendAll(start, r'.forwarded)
      ensures r' == PolicedNext(r, cost, p) && tokens == r'.tokens
    {
      if cost <= tokens {
        tokens := tokens - cost;
        SendOneMore(start, r.forwarded, p);
        output.Transmit(p);
      }
      r' := PolicedNext(r, cost, p);
    }
  }

  lemma PoliceStart<T>(size: T -> u16, tokens: u64, ps: seq<T>)
    ensures Police(size, tokens, ps[..0]) == Policed(tokens, [], [])
  {
  }

  lemma PoliceNext<T>(size: T -> u16, tokens: u64, ps: seq<T>, k: nat)
    requires k < |ps|
    ensures Police(size, tokens, ps[..k + 1])
            == PolicedNext(Police(size, tokens, ps[..k]), Cost(size, ps[k]), ps[k])
  {
    assert ps[..k + 1][..k] == ps[..k];
  }

  // Whole runs

  /** One call of `push`: the engine time and the packets waiting. */
  datatype Event<T> = Event(now: nat, ps: seq<T>)

  /** The bucket after some pushes, and everything they forwarded. */
  datatype Outcome<T> = Outcome(bucket: Bucket, forwarded: seq<T>)

  function AfterPush<T>(size: T -> u16, b: Bucket, e: Event<T>): Outcome<T> {
    var full := Replenish(b, e.now);
    var r := Police(size, full.tokens, e.ps);
    Outcome(full.(tokens := r.tokens), r.forwarded)
  }

  function Run<T>(size: T -> u16, b: Bucket, es: seq<Event<T>>): Outcome<T> {
    if |es| == 0 then Outcome(b, [])
    else
      var before := Run(size, b, es[..|es| - 1]);
      var after := AfterPush(size, before.bucket, es[|es| - 1]);
      after.(forwarded := before.forwarded + after.forwarded)
  }

  /** The time of the last push, or `start` when there was none. */
  function End<T>(start: nat, es: seq<Event<T>>): nat {
    if |es| == 0 then start else es[|es| - 1].now
  }

  /** Engine time never goes back. */
  predicate Ordered<T>(start: nat, es: seq<Event<T>>) {
    |es| > 0 ==> Ordered(start, es[..|es| - 1]) && End(start, es[..|es| - 1]) <= es[|es| - 1].now
  }

  /** Bits on the wire of some packets. */
  function Bits<T>(size: T -> u16, ps: seq<T>): nat {
    if |ps| == 0 then 0 else Bits(size, ps[..|ps| - 1]) + Packets.BitLength(size(ps[|ps| - 1]))
  }

  lemma BitsNone<T>(size: T -> u16)
    ensures Bits(size, []) == 0
  {
  }

  lemma {:induction false} BitsSplit<T>(size: T -> u16, a: seq<T>, b: seq<T>)
    ensures Bits(size, a + b) == Bits(size, a) + Bits(size, b)
  {
    if |b| == 0 {
      assert a + b == a;
    } else {
      BitsSplit(size, a, b[..|b| - 1]);
      assert (a + b)[..|a + b| - 1] == a + b[..|b| - 1];
    }
  }

  /** Every scaled bit forwarded is a token spent. */
  lemma {:induction false} PoliceSpends<T>(size: T -> u16, tokens: u64, ps: seq<T>)
    ensures var r := Police(size, tokens, ps);
            r.tokens + SCALE * Bits(size, r.forwarded) == tokens
    ensures var r := Police(size, tokens, ps);
            multiset(ps) == multiset(r.forwarded) + multiset(r.dropped)
  {
    if |ps| > 0 {
      PoliceSpends(size, tokens, ps[..|ps| - 1]);
      var r, p := Police(size, tokens, ps[..|ps| - 1]), ps[|ps| - 1];
      assert ps == ps[..|ps| - 1] + [p];
      assert Police(size, tokens, ps) == PolicedNext(r, Cost(size, p), p);
      hide Police, PolicedNext, Bits, Cost;
      PolicedSpends(size, r, p);
      PolicedSorts(r, Cost(size, p), p);
    }
  }

  lemma PolicedSpends<T>(size: T -> u16, r: Policed<T>, p: T)
    ensures var after := PolicedNext(r, Cost(size, p), p);
            after.tokens + SCALE * Bits(size, after.forwarded) == r.tokens + SCALE * Bits(size, r.forwarded)
  {
    assert (r.forwarded + [p])[..|r.forwarded|] == r.forwarded;
  }

  lemma PolicedSorts<T>(r: Policed<T>, cost: nat, p: T)
    ensures var after := PolicedNext(r, cost, p);
            multiset(after.forwarded) + multiset(after.dropped)
            == multiset(r.forwarded) + multiset(r.dropped) + multiset([p])
  {
  }

  /** A packet is forwarded exactly when the tokens at the start pay for it and for all that
      was forwarded before it; otherwise it is dropped. */
  lemma ForwardsExactly<T>(size: T -> u16, tokens: u64, ps: seq<T>, k: nat)
    requires k < |ps|
    ensures var before, after := Police(size, tokens, ps[..k]), Police(size, tokens, ps[..k + 1]);
            if SCALE * (Bits(size, before.forwarded) + Packets.BitLength(size(ps[k]))) <= tokens
            then after.forwarded == before.forwarded + [ps[k]] && after.dropped == before.dropped
            else after.forwarded == before.forwarded && after.dropped == before.dropped + [ps[k]]
  {
    PoliceNext(size, tokens, ps, k);
    PoliceSpends(size, tokens, ps[..k]);
    hide Police, Bits;
  }

  /** A push forwards everything exactly when the tokens pay for everything. */
  lemma ForwardsAllExactly<T>(size: T -> u16, tokens: u64, ps: seq<T>)
    ensures var r := Police(size, tokens, ps);
            && (r.forwarded == ps <==> SCALE * Bits(size, ps) <= tokens)
            && (r.dropped == [] <==> SCALE * Bits(size, ps) <= tokens)
  {
    PoliceSpends(size, tokens, ps);
    var r := Police(size, tokens, ps);
    if SCALE * Bits(size, ps) <= tokens {
      PaidFor(size, tokens, ps);
    } else {
      PoliceKeeps(size, tokens, ps);
      hide Police, Bits;
    }
  }

  lemma {:induction false} PaidFor<T>(size: T -> u16, tokens: u64, ps: seq<T>)
    requires SCALE * Bits(size, ps) <= tokens
    ensures Police(size, tokens, ps).forwarded == ps && Police(size, tokens, ps).dropped == []
  {
    if |ps| > 0 {
      var n := |ps| - 1;
      assert Bits(size, ps) == Bits(size, ps[..n]) + Packets.BitLength(size(ps[n]));
      PaidFor(size, tokens, ps[..n]);
      ForwardsExactly(size, tokens, ps, n);
      hide Police, Bits;
      assert ps[..n + 1] == ps && ps[..n] + [ps[n]] == ps;
    }
  }

  /** What is forwarded, while nothing is dropped, is all there was. */
  lemma {:induction false} PoliceKeeps<T>(size: T -> u16, tokens: u64, ps: seq<T>)
    ensures Police(size, tokens, ps).dropped == [] ==> Police(size, tokens, ps).forwarded == ps
  {
    if |ps| > 0 {
      var n := |ps| - 1;
      PoliceKeeps(size, tokens, ps[..n]);
      PoliceNext(size, tokens, ps, n);
      hide Police, Bits, Cost;
      assert ps[..n + 1] == ps && ps[..n] + [ps[n]] == ps;
    }
  }

  /** What a new bucket holds: one tick's worth of a capacity of one second, both exact for
      rates whose scaled value fits 64 bits. */
  lemma NewBucketHolds(rate: u64)
    ensures var b := NewBucket(rate);
            && b.capacity == rate * 1_000_000 % W64 && b.tokens == b.capacity / 10_000
            && (rate * 1_000_000 < W64 ==> b.capacity == rate * 1_000_000 && b.tokens == rate * 100)
            && b.rate == rate && b.last == Never
  {
    assert rate * 1_000_000 < W64 ==> rate * 1_000_000 / 10_000 == rate * 100;
  }

  /** What a push finds in the bucket: less than a tick after the last replenishment nothing
      new; otherwise the rate times the whole microseconds since, as 64 bits hold it, up to
      the capacity. */
  lemma ReplenishHolds(b: Bucket, now: nat)
    requires b.last.At? && b.last.ns <= now
    ensures var full, earned := Replenish(b, now), b.rate * ((now - b.last.ns) / 1000);
            && (now - b.last.ns < 100_000 ==> full == b)
            && (now - b.last.ns >= 100_000 ==>
                  && full.last == At(now)
                  && full.tokens == Least((b.tokens + earned) % W64, b.capacity)
                  && (b.tokens + earned < W64 ==> full.tokens == Least(b.tokens + earned, b.capacity)))
  {
    var earned := b.rate * ((now - b.last.ns) / 1000);
    assert earned >= 0;
    WrapTwice(b.tokens, earned);
  }

  lemma WrapTwice(a: nat, b: nat)
    ensures Wrap64(a + Wrap64(b)) == (a + b) % W64
  {
  }

  /** What a rate earns over some time: 10^-9 bits per nanosecond and bit per second. */
  function Earned(rate: nat, time: int): int {
    rate * time
  }

  lemma EarnedAdd(rate: nat, x: int, y: int)
    ensures Earned(rate, x + y) == Earned(rate, x) + Earned(rate, y)
  {
  }

  lemma EarnedLe(rate: nat, x: int, y: int)
    requires x <= y
    ensures Earned(rate, x) <= Earned(rate, y)
  {
  }

  lemma EarnedConstants(rate: nat, us: int)
    ensures Earned(rate, 0) == 0
    ensures Earned(rate, TICK_NS) == rate * TICK_NS
    ensures Earned(rate, 1000 * SCALE) == 1000 * (rate * SCALE)
    ensures Earned(rate, 1000 * us) == 1000 * (rate * us)
  {
  }

  /** What a bucket may still let through by time `t`, in units of 10^-9 bits. */
  function Potential(b: Bucket, t: nat): int
    requires b.last.At?
  {
    1000 * b.tokens + Earned(b.rate, t - b.last.ns)
  }

  /** Replenishing never adds more than the rate times the time it accounts for, whatever
      wraps, and leaves less than a tick unaccounted for. */
  lemma ReplenishBound(b: Bucket, now: nat)
    requires b.last.At? && b.last.ns <= now
    ensures var full := Replenish(b, now);
            && full.rate == b.rate && full.capacity == b.capacity
            && full.last.At? && full.last.ns <= now < full.last.ns + TICK_NS
            && (b.tokens <= b.capacity ==> full.tokens <= b.capacity)
            && Potential(full, now) <= Potential(b, now)
  {
    var us := Micros(b.last.ns, now);
    if us >= TICK {
      var full := Replenish(b, now);
      assert full.tokens <= b.tokens + b.rate * us;
      EarnedConstants(b.rate, us);
      EarnedLe(b.rate, 1000 * us, now - b.last.ns);
      hide Earned;
    }
  }

  lemma PushBound<T>(size: T -> u16, b: Bucket, t: nat, e: Event<T>)
    requires b.last.At? && b.last.ns <= t <= e.now
    ensures var r := AfterPush(size, b, e);
            && r.bucket.rate == b.rate && r.bucket.capacity == b.capacity
            && r.bucket.last.At? && r.bucket.last.ns <= e.now < r.bucket.last.ns + TICK_NS
            && (b.tokens <= b.capacity ==> r.bucket.tokens <= b.capacity)
            && 1_000_000_000 * Bits(size, r.forwarded) + Potential(r.bucket, e.now)
               <= Potential(b, t) + Earned(b.rate, e.now - t)
  {
    hide Earned, Police, Replenish, Bits;
    ReplenishBound(b, e.now);
    PoliceSpends(size, Replenish(b, e.now).tokens, e.ps);
    EarnedAdd(b.rate, t - b.last.ns, e.now - t);
  }

  /** Over any run the bits forwarded and the potential left are paid for by the potential
      at the start and the time that passed. */
  lemma {:induction false} RunBound<T>(size: T -> u16, b: Bucket, t: nat, es: seq<Event<T>>)
    requires b.last.At? && b.last.ns <= t && Ordered(t, es)
    ensures End(t, es) >= t
    ensures var r := Run(size, b, es);
            && r.bucket.rate == b.rate && r.bucket.capacity == b.capacity
            && r.bucket.last.At? && r.bucket.last.ns <= End(t, es)
            && (b.tokens <= b.capacity ==> r.bucket.tokens <= b.capacity)
            && (t < b.last.ns + TICK_NS ==> End(t, es) < r.bucket.last.ns + TICK_NS)
            && 1_000_000_000 * Bits(size, r.forwarded) + Potential(r.bucket, End(t, es))
               <= Potential(b, t) + Earned(b.rate, End(t, es) - t)
  {
    hide Earned, AfterPush, Bits;
    if |es| == 0 {
      EarnedConstants(b.rate, 0);
      BitsNone(size);
    } else {
      var front, e := es[..|es| - 1], es[|es| - 1];
      RunBound(size, b, t, front);
      var before := Run(size, b, front);
      PushBound(size, before.bucket, End(t, front), e);
      BitsSplit(size, before.forwarded, AfterPush(size, before.bucket, e).forwarded);
      EarnedAdd(b.rate, End(t, front) - t, e.now - End(t, front));
    }
  }

  /** A bucket as a push at time `t` leaves it. */
  ghost predicate AtRest(b: Bucket, t: nat) {
    && b.last.At? && b.last.ns <= t < b.last.ns + TICK_NS
    && b.tokens <= b.capacity <= b.rate * SCALE
  }

  /** Between any two pushes, at `t1` and at the end of the run, the bits forwarded after the
      first are within the tokens left, plus the rate times the time between and one tick. */
  lemma ForwardedBetween<T>(size: T -> u16, b: Bucket, t1: nat, es: seq<Event<T>>)
    requires AtRest(b, t1) && Ordered(t1, es)
    ensures var (r, t2) := (Run(size, b, es), End(t1, es));
            && t1 <= t2 && AtRest(r.bucket, t2)
            && 1_000_000_000 * Bits(size, r.forwarded) <= 1000 * b.tokens + Earned(b.rate, t2 - t1 + TICK_NS)
            && 1_000_000_000 * Bits(size, r.forwarded) <= Earned(b.rate, 1000 * SCALE + t2 - t1 + TICK_NS)
  {
    hide Earned, Run, Bits, End;
    RunBound(size, b, t1, es);
    var r, t2 := Run(size, b, es), End(t1, es);
    EarnedLe(b.rate, t1 - b.last.ns, TICK_NS);
    EarnedLe(b.rate, 0, t2 - r.bucket.last.ns);
    EarnedAdd(b.rate, t2 - t1, TICK_NS);
    EarnedAdd(b.rate, 1000 * SCALE, t2 - t1 + TICK_NS);
    EarnedConstants(b.rate, 0);
  }

  lemma NewBucketBounds(rate: u64)
    ensures var b := NewBucket(rate);
            b.rate == rate && b.last.Never? && b.tokens <= b.capacity <= rate * SCALE
            && 1000 * b.tokens <= rate * TICK_NS
  {
    assert NewBucket(rate).tokens <= rate * SCALE / 10_000;
  }

  /** From the first push on, a fresh bucket forwards at most its rate times the time elapsed
      and one tick, and is at rest after it. */
  lemma ForwardedFromStart<T>(size: T -> u16, rate: u64, es: seq<Event<T>>)
    requires |es| > 0 && Ordered(es[0].now, es)
    ensures var (r, t1, t2) := (Run(size, NewBucket(rate), es), es[0].now, End(es[0].now, es));
            && t1 <= t2 && AtRest(r.bucket, t2)
            && 1_000_000_000 * Bits(size, r.forwarded) <= Earned(rate, TICK_NS + t2 - t1)
  {
    hide *;
    var t1, t2 := es[0].now, End(es[0].now, es);
    var b := NewBucket(rate).(last := At(t1));
    NewBucketBounds(rate);
    RunFromFirst(size, NewBucket(rate), es);
    FreshBound(size, b, t1, es);
    EarnedConstants(rate, 0);
    assert Earned(rate, TICK_NS) >= 1000 * b.tokens;
    EarnedAdd(rate, TICK_NS, t2 - t1);
  }

  lemma FreshBound<T>(size: T -> u16, b: Bucket, t1: nat, es: seq<Event<T>>)
    requires b.last == At(t1) && b.tokens <= b.capacity <= b.rate * SCALE && Ordered(t1, es)
    ensures var (r, t2) := (Run(size, b, es), End(t1, es));
            && t1 <= t2 && AtRest(r.bucket, t2)
            && 1_000_000_000 * Bits(size, r.forwarded) <= 1000 * b.tokens + Earned(b.rate, t2 - t1)
  {
    hide Earned, Run, Bits, End;
    RunBound(size, b, t1, es);
    EarnedLe(b.rate, 0, End(t1, es) - Run(size, b, es).bucket.last.ns);
    EarnedConstants(b.rate, 0);
  }

  /** The first push only starts the clock: it grants nothing. */
  lemma {:induction false} RunFromFirst<T>(size: T -> u16, b: Bucket, es: seq<Event<T>>)
    requires |es| > 0 && b.last.Never?
    ensures Run(size, b, es) == Run(size, b.(last := At(es[0].now)), es)
  {
    if |es| == 1 {
      assert es[..0] == [];
    } else {
      RunFromFirst(size, b, es[..|es| - 1]);
    }
  }

  // What truncation to whole microseconds costs

  /** The bucket never caps during a run: no push has its credit cut off. */
  predicate NeverCaps<T>(size: T -> u16, b: Bucket, es: seq<Event<T>>) {
    |es| > 0 ==>
      var before, now := Run(size, b, es[..|es| - 1]).bucket, es[|es| - 1].now;
      && NeverCaps(size, b, es[..|es| - 1])
      && (before.last.At? ==> before.tokens + before.rate * Micros(before.last.ns, now) <= before.capacity)
  }

  lemma ReplenishCredit(b: Bucket, now: nat)
    requires b.last.At? && b.last.ns <= now
    requires b.tokens + b.rate * Micros(b.last.ns, now) <= b.capacity
    ensures var full := Replenish(b, now);
            && full.last.At? && b.last.ns <= full.last.ns
            && 101_000 * (full.tokens - b.tokens) >= 100 * Earned(b.rate, full.last.ns - b.last.ns)
  {
    var us := Micros(b.last.ns, now);
    EarnedConstants(b.rate, us);
    if us >= TICK {
      assert 0 <= b.rate * us;
      assert Replenish(b, now).tokens == b.tokens + b.rate * us;
      EarnedPart(b.rate, now - b.last.ns, 1000 * us);
      hide Earned;
    }
  }

  lemma EarnedPart(rate: nat, whole: int, part: int)
    requires 100 * whole <= 101 * part
    ensures 100 * Earned(rate, whole) <= 101 * Earned(rate, part)
  {
    EarnedLe(rate, 100 * whole, 101 * part);
    assert rate * (100 * whole) == 100 * (rate * whole) && rate * (101 * part) == 101 * (rate * part);
  }

  lemma PushCredit<T>(size: T -> u16, b: Bucket, e: Event<T>)
    requires b.last.At? && b.last.ns <= e.now
    requires b.tokens + b.rate * Micros(b.last.ns, e.now) <= b.capacity
    ensures var r := AfterPush(size, b, e);
            && r.bucket.last.At? && b.last.ns <= r.bucket.last.ns
            && 101_000 * (r.bucket.tokens + SCALE * Bits(size, r.forwarded) - b.tokens)
               >= 100 * Earned(b.rate, r.bucket.last.ns - b.last.ns)
  {
    ReplenishCredit(b, e.now);
    hide Earned, Bits, Replenish, Police;
    PoliceSpends(size, Replenish(b, e.now).tokens, e.ps);
  }

  /** While the bucket never caps, the credit granted (tokens gained plus tokens spent) is at
      least 100/101 of the rate times the time up to the last replenishment. */
  lemma {:induction false} CreditGranted<T>(size: T -> u16, b: Bucket, es: seq<Event<T>>)
    requires b.last.At? && Ordered(b.last.ns, es) && NeverCaps(size, b, es)
    ensures var r := Run(size, b, es);
            && r.bucket.last.At? && b.last.ns <= r.bucket.last.ns
            && 101_000 * (r.bucket.tokens + SCALE * Bits(size, r.forwarded) - b.tokens)
               >= 100 * Earned(b.rate, r.bucket.last.ns - b.last.ns)
  {
    hide Earned, Bits, AfterPush;
    if |es| == 0 {
      EarnedConstants(b.rate, 0);
      BitsNone(size);
    } else {
      var front, e := es[..|es| - 1], es[|es| - 1];
      CreditGranted(size, b, front);
      RunBound(size, b, b.last.ns, front);
      var before := Run(size, b, front);
      PushCredit(size, before.bucket, e);
      var after := AfterPush(size, before.bucket, e);
      BitsSplit(size, before.forwarded, after.forwarded);
      EarnedAdd(b.rate, before.bucket.last.ns - b.last.ns, after.bucket.last.ns - before.bucket.last.ns);
    }
  }

  // Traffic that conforms

  /** Everything that waited at some pushes. */
  function Waiting<T>(es: seq<Event<T>>): seq<T> {
    if |es| == 0 then [] else Waiting(es[..|es| - 1]) + es[|es| - 1].ps
  }

  /** At every push, what was offered so far costs no more than the tokens at the start and
      100/101 of the rate times the time passed, less one tick. */
  predicate Conforms<T>(size: T -> u16, b: Bucket, es: seq<Event<T>>)
    requires b.last.At?
  {
    |es| > 0 ==>
      && Conforms(size, b, es[..|es| - 1])
      && 101_000 * (SCALE * Bits(size, Waiting(es)) - b.tokens)
         <= 100 * Earned(b.rate, es[|es| - 1].now - b.last.ns - TICK_NS)
  }

  /** Conforming traffic passes whole: no packet of it is dropped. */
  lemma {:induction false} ConformingPasses<T>(size: T -> u16, b: Bucket, es: seq<Event<T>>)
    requires b.last.At? && Ordered(b.last.ns, es) && NeverCaps(size, b, es) && Conforms(size, b, es)
    ensures Run(size, b, es).forwarded == Waiting(es)
  {
    hide Bits, Earned, AfterPush, Micros, Ordered, NeverCaps, Conforms, Run, Waiting;
    if |es| > 0 {
      var front, e := es[..|es| - 1], es[|es| - 1];
      LastConforms(size, b, es);
      ConformingPasses(size, b, front);
      RunBound(size, b, b.last.ns, front);
      CreditGranted(size, b, front);
      ConformingPush(size, b, Run(size, b, front).bucket, Waiting(front), e);
    } else {
      assert es == [];
      EmptyRun(size, b);
    }
  }

  lemma EmptyRun<T>(size: T -> u16, b: Bucket)
    ensures Run(size, b, []).forwarded == Waiting<T>([]) == []
  {
  }

  lemma LastConforms<T>(size: T -> u16, b: Bucket, es: seq<Event<T>>)
    requires |es| > 0 && b.last.At? && Ordered(b.last.ns, es) && NeverCaps(size, b, es) && Conforms(size, b, es)
    ensures var front, e := es[..|es| - 1], es[|es| - 1];
            var before := Run(size, b, front);
            && Ordered(b.last.ns, front) && NeverCaps(size, b, front) && Conforms(size, b, front)
            && End(b.last.ns, front) <= e.now
            && (before.bucket.last.At? ==>
                  before.bucket.tokens + before.bucket.rate * Micros(before.bucket.last.ns, e.now)
                  <= before.bucket.capacity)
            && Waiting(es) == Waiting(front) + e.ps
            && 101_000 * (SCALE * Bits(size, Waiting(front) + e.ps) - b.tokens)
               <= 100 * Earned(b.rate, e.now - b.last.ns - TICK_NS)
            && Run(size, b, es).forwarded == before.forwarded + AfterPush(size, before.bucket, e).forwarded
  {
    hide Bits, Earned, AfterPush, Micros;
  }

  /** One more push: what was granted until then and since pays for its packets too. */
  lemma ConformingPush<T>(size: T -> u16, b: Bucket, now: Bucket, sent: seq<T>, e: Event<T>)
    requires b.last.At? && now.last.At? && b.last.ns <= now.last.ns <= e.now && now.rate == b.rate
    requires 101_000 * (now.tokens + SCALE * Bits(size, sent) - b.tokens)
             >= 100 * Earned(b.rate, now.last.ns - b.last.ns)
    requires now.tokens + now.rate * Micros(now.last.ns, e.now) <= now.capacity
    requires 101_000 * (SCALE * Bits(size, sent + e.ps) - b.tokens) <= 100 * Earned(b.rate, e.now - b.last.ns - TICK_NS)
    ensures AfterPush(size, now, e).forwarded == e.ps
  {
    hide Bits, Earned, Replenish, Police;
    var full := Replenish(now, e.now);
    BitsSplit(size, sent, e.ps);
    ReplenishCredit(now, e.now);
    ReplenishBound(now, e.now);
    EarnedAdd(b.rate, now.last.ns - b.last.ns, full.last.ns - now.last.ns);
    EarnedLe(b.rate, e.now - b.last.ns - TICK_NS, full.last.ns - b.last.ns);
    assert SCALE * Bits(size, e.ps) <= full.tokens;
    ForwardsAllExactly(size, full.tokens, e.ps);
  }
}
