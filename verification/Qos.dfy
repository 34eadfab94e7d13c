/** The Latency app of `rush/src/qos.rs`. Time is in nanoseconds and comes from the engine. */
module Qos {
  import opened Links
  import opened DelayQueues

  /** Some packets as queue entries. */
  function Entries<T>(ps: seq<T>): (r: seq<Entry<T>>)
    ensures |r| == |ps|
    ensures forall i :: 0 <= i < |ps| ==> r[i] == Pkt(ps[i])
  {
    seq(|ps|, i requires 0 <= i < |ps| => Pkt(ps[i]))
  }

  /** Some packets, all due at one time. */
  function StampAll<T>(ps: seq<T>, due: nat): (r: seq<Stamped<T>>)
    ensures |r| == |ps|
  {
    if ps == [] then [] else [Stamped(ps[0], due)] + StampAll(ps[1..], due)
  }

  function Unstamped<T>(q: seq<Stamped<T>>): seq<T> {
    if q == [] then [] else [q[0].p] + Unstamped(q[1..])
  }

  // Latency

  /** How many of the waiting packets a push takes. */
  function Room(used: nat, capacity: nat, waiting: nat): nat {
    if used >= capacity then 0 else if waiting < capacity - used then waiting else capacity - used
  }

  /** What a push leaves on the queue and on the input link. */
  datatype Pushed<T> = Pushed(queue: seq<Entry<T>>, accepted: seq<T>, left: seq<T>)

  function LatencyPush<T>(q: seq<Entry<T>>, capacity: nat, ttx: nat, input: seq<T>): Pushed<T> {
    if input == [] || |q| >= capacity then Pushed(q, [], input)
    else
      var n := Room(|q| + 1, capacity, |input|);
      Pushed(q + [Delay(ttx)] + Entries(input[..n]), input[..n], input[n..])
  }

  class LatencyApp<T(0)> {
    const ms: nat
    const queue: DelayQueue<T>

    constructor (ms: nat, capacity: nat)
      ensures fresh(queue) && queue.packets == [] && queue.capacity == capacity && this.ms == ms
    {
      this.ms := ms;
      queue := new DelayQueue(capacity);
    }

    method Push(now: nat, input: Link<T>)
      requires input.Valid()
      modifies queue, input
      ensures input.Valid()
      ensures var r := LatencyPush(old(queue.packets), queue.capacity, now + ms * 1_000_000, old(input.Contents()));
              queue.packets == r.queue && input.Contents() == r.left
      ensures input.Contents() == [] || |queue.packets| >= queue.capacity
      ensures |queue.packets| <= Max(|old(queue.packets)|, queue.capacity)
    {
      input.Cursors();
      if !input.Empty() && !queue.Full() {
        queue.EnqueueDelay(now + ms * 1_000_000);
      }
      ghost var q, waiting := queue.packets, input.Contents();
      ghost var k := EnqueueBatch(input);
      assert k == Room(|q|, queue.capacity, |waiting|);
    }

    /** The loop of `push`: packets move until the link is empty or the queue is full. */
    method EnqueueBatch(input: Link<T>) returns (ghost k: nat)
      requires input.Valid()
      modifies queue, input
      ensures input.Valid() && k <= |old(input.Contents())|
      ensures queue.packets == old(queue.packets) + Entries(old(input.Contents())[..k])
      ensures input.Contents() == old(input.Contents())[k..]
      ensures k > 0 ==> |old(queue.packets)| + k <= queue.capacity
      ensures k < |old(input.Contents())| ==> |old(queue.packets)| + k >= queue.capacity
    {
      ghost var before, waiting := queue.packets, input.Contents();
      k := 0;
      EntriesNone(before, waiting);
      assert Batching(before, waiting, 0, input);
      BatchGuard(before, waiting, 0, input);
      hide *;
      while !input.Empty() && !queue.Full()
        invariant k <= |waiting| && Batching(before, waiting, k, input)
        invariant input.Empty() <==> k == |waiting|
        decreases |waiting| - k
      {
        EnqueueOne(before, waiting, k, input);
        k := k + 1;
        BatchGuard(before, waiting, k, input);
      }
      BatchEnd(before, waiting, k, input);
    }

    /** The first `k` packets have moved. */
    ghost predicate Batching(before: seq<Entry<T>>, waiting: seq<T>, k: nat, input: Link<T>)
      requires k <= |waiting|
      reads queue, input, input.packets
    {
      && input.Valid() && input.Contents() == waiting[k..]
      && queue.packets == before + Entries(waiting[..k])
      && (k > 0 ==> |before| + k <= queue.capacity)
    }

    lemma BatchGuard(before: seq<Entry<T>>, waiting: seq<T>, k: nat, input: Link<T>)
      requires k <= |waiting| && Batching(before, waiting, k, input)
      ensures input.Empty() <==> k == |waiting|
    {
      input.Cursors();
    }

    lemma BatchEnd(before: seq<Entry<T>>, waiting: seq<T>, k: nat, input: Link<T>)
      requires k <= |waiting| && Batching(before, waiting, k, input)
      requires k == |waiting| || queue.Full()
      ensures input.Valid() && input.Contents() == waiting[k..]
      ensures queue.packets == before + Entries(waiting[..k])
      ensures k > 0 ==> |before| + k <= queue.capacity
      ensures k < |waiting| ==> |before| + k >= queue.capacity
    {
      hide Link.Valid;
    }

    method EnqueueOne(ghost before: seq<Entry<T>>, ghost waiting: seq<T>, ghost k: nat, input: Link<T>)
      requires k < |waiting| && Batching(before, waiting, k, input) && !queue.Full()
      modifies queue, input
      ensures Batching(before, waiting, k + 1, input)
    {
      hide Link.Valid, Entries;
      EntriesNext(before, waiting, k);
      TakeNext(waiting, k);
      EntriesLength(waiting[..k]);
      var p := input.Receive();
      queue.EnqueuePacket(p);
    }
  }

  lemma EntriesLength<T>(ps: seq<T>)
    ensures |Entries(ps)| == |ps|
  {
  }

  lemma TakeNext<T>(ps: seq<T>, k: nat)
    requires k < |ps|
    ensures ps[k..] == [ps[k]] + ps[k + 1..] && ps[k..][1..] == ps[k + 1..]
  {
  }

  lemma EntriesNone<T>(q: seq<Entry<T>>, ps: seq<T>)
    ensures q + Entries(ps[..0]) == q && ps[0..] == ps
  {
  }

  lemma EntriesNext<T>(q: seq<Entry<T>>, ps: seq<T>, k: nat)
    requires k < |ps|
    ensures q + Entries(ps[..k + 1]) == q + Entries(ps[..k]) + [Pkt(ps[k])]
  {
  }

  // Appending to a queue

  lemma {:induction false} AppendStamps<T>(a: seq<Entry<T>>, b: seq<Entry<T>>, past: nat)
    ensures Stamps(a + b, past) == Stamps(a, past) + Stamps(b, Latest(a, past))
    ensures Latest(a + b, past) == Latest(b, Latest(a, past))
  {
    if a == [] {
      assert a + b == b;
    } else {
      AppendStamps(a[1..], b, if a[0].Delay? then Max(past, a[0].ttx) else past);
      assert (a + b)[1..] == a[1..] + b;
    }
  }

  lemma {:induction false} EntriesStamps<T>(ps: seq<T>, past: nat)
    ensures Stamps(Entries(ps), past) == StampAll(ps, past)
    ensures Latest(Entries(ps), past) == past
  {
    if ps != [] {
      EntriesStamps(ps[1..], past);
      assert Entries(ps)[1..] == Entries(ps[1..]);
    }
  }

  /** One marker and the packets it delays. */
  function Batch<T>(ttx: nat, ps: seq<T>): seq<Entry<T>> {
    [Delay(ttx)] + Entries(ps)
  }

  lemma BatchStamps<T>(ttx: nat, ps: seq<T>, past: nat)
    ensures Stamps(Batch(ttx, ps), past) == StampAll(ps, Max(past, ttx))
    ensures Latest(Batch(ttx, ps), past) == Max(past, ttx)
  {
    assert Batch(ttx, ps)[1..] == Entries(ps);
    EntriesStamps(ps, Max(past, ttx));
  }

  /** Appending packets keeps every marker followed by one; appending a batch does exactly
      when the batch has a packet. */
  lemma AppendAlternates<T>(q: seq<Entry<T>>, ttx: nat, ps: seq<T>)
    requires Alternates(q)
    ensures Alternates(q + Entries(ps))
    ensures Alternates(q + Batch(ttx, ps)) <==> ps != []
  {
    AppendHoles(q, Entries(ps));
    AppendHoles(q, Batch(ttx, ps));
    hide Entries;
    var batch := q + Batch(ttx, ps);
    assert batch[|q|] == Delay(ttx);
    if ps == [] {
      assert Hole(batch, |q|);
    }
  }

  /** Appending leaves holes that were not at the end, and makes none there. */
  lemma AppendHoles<T>(q: seq<Entry<T>>, more: seq<Entry<T>>)
    ensures forall i :: 0 <= i < |q| && !Hole(q, i) ==> !Hole(q + more, i)
    ensures more != [] && more[0].Delay? ==> forall i :: 0 <= i < |q| && Hole(q, i) ==> Hole(q + more, i)
    ensures forall i :: |q| <= i < |q + more| ==> (q + more)[i] == more[i - |q|]
  {
  }

  /** The guard of the failing branch: a marker would take the last free slot. */
  predicate OneSlotLeft<T>(q: seq<Entry<T>>, capacity: nat, input: seq<T>) {
    input != [] && |q| + 1 == capacity
  }

  /** A latency push refines stamping every accepted packet with its own due time; and it keeps
      every marker followed by a packet exactly when it does not find one free slot. */
  lemma LatencyPushRefines<T>(q: seq<Entry<T>>, past: nat, capacity: nat, ttx: nat, input: seq<T>)
    requires Latest(q, past) <= ttx
    ensures var r := LatencyPush(q, capacity, ttx, input);
            && input == r.accepted + r.left
            && (Alternates(q) ==> (Alternates(r.queue) <==> !OneSlotLeft(q, capacity, input)))
            && Stamps(r.queue, past) == Stamps(q, past) + StampAll(r.accepted, ttx)
            && Latest(r.queue, past) <= ttx
  {
    hide Alternates, Stamps, Latest, Entries, Batch, StampAll, LatencyPush;
    LatencyPushIs(q, capacity, ttx, input);
    var ps := LatencyPush(q, capacity, ttx, input).accepted;
    if input != [] && |q| < capacity {
      if Alternates(q) {
        AppendAlternates(q, ttx, ps);
      }
      AppendStamps(q, Batch(ttx, ps), past);
      BatchStamps(ttx, ps, Latest(q, past));
    } else {
      StampNone<T>(ttx);
      assert Stamps(q, past) + [] == Stamps(q, past);
    }
  }

  lemma LatencyPushIs<T>(q: seq<Entry<T>>, capacity: nat, ttx: nat, input: seq<T>)
    ensures var r := LatencyPush(q, capacity, ttx, input);
            && input == r.accepted + r.left
            && if input != [] && |q| < capacity
               then r.queue == q + Batch(ttx, r.accepted) && (r.accepted == [] <==> |q| + 1 == capacity)
               else r.queue == q && r.accepted == []
  {
    hide Entries;
    var ps := LatencyPush(q, capacity, ttx, input).accepted;
    assert q + [Delay(ttx)] + Entries(ps) == q + Batch(ttx, ps);
  }

  lemma StampNone<T>(due: nat)
    ensures StampAll<T>([], due) == []
  {
  }

  /** A push takes all there is room for: it leaves packets on the link only if it fills the
      queue, never fills it further, and one slot goes to the marker. */
  lemma PushFills<T>(q: seq<Entry<T>>, capacity: nat, ttx: nat, input: seq<T>)
    ensures var r := LatencyPush(q, capacity, ttx, input);
            && r.accepted + r.left == input
            && (r.left != [] ==> |r.queue| >= capacity)
            && |r.queue| <= Max(|q|, capacity)
            && |r.queue| == |q| + (if input != [] && |q| < capacity then 1 + |r.accepted| else 0)
            && (|q| >= capacity ==> r.accepted == [])
  {
  }

  // The reference queue

  predicate NonDecreasing<T>(q: seq<Stamped<T>>) {
    forall i, j :: 0 <= i < j < |q| ==> q[i].due <= q[j].due
  }

  /** On a queue in order of due times, a pull sends exactly what is due. */
  lemma {:induction false} ReleaseExact<T>(q: seq<Stamped<T>>, now: nat)
    ensures var r := Release(q, now);
            && |r.sent| <= |q| && r.kept == q[|r.sent|..] && r.sent == Unstamped(q[..|r.sent|])
            && (forall i :: 0 <= i < |r.sent| ==> q[i].due <= now)
            && (|r.sent| < |q| ==> q[|r.sent|].due > now)
  {
    if q != [] && q[0].due <= now {
      ReleaseExact(q[1..], now);
      var n := |Release(q[1..], now).sent|;
      assert q[..n + 1][1..] == q[1..][..n];
      assert q[1..][n..] == q[n + 1..];
    }
  }

  lemma {:induction false} UnstampedAppend<T>(a: seq<Stamped<T>>, b: seq<Stamped<T>>)
    ensures Unstamped(a + b) == Unstamped(a) + Unstamped(b)
  {
    if a == [] {
      assert a + b == b;
    } else {
      UnstampedAppend(a[1..], b);
      assert (a + b)[1..] == a[1..] + b;
    }
  }

  lemma {:induction false} StampAllIs<T>(ps: seq<T>, due: nat)
    ensures Unstamped(StampAll(ps, due)) == ps
    ensures forall i :: 0 <= i < |ps| ==> StampAll(ps, due)[i] == Stamped(ps[i], due)
  {
    if ps != [] {
      StampAllIs(ps[1..], due);
    }
  }

  // Whole runs of the Latency app

  datatype LatencyEvent<T> = PushAt(now: nat, input: seq<T>) | PullAt(now: nat)

  /** The queue and everything sent so far, unless a pull panicked. */
  datatype State<T> = State(queue: seq<Entry<T>>, sent: seq<T>) | Crashed

  function LatencyStep<T>(s: State<T>, capacity: nat, delay: nat, e: LatencyEvent<T>): State<T> {
    match s
    case Crashed => Crashed
    case State(queue, sent) =>
      match e
      case PushAt(now, input) => State(LatencyPush(queue, capacity, now + delay, input).queue, sent)
      case PullAt(now) =>
        match Drain(queue, now)
        case Panic => Crashed
        case Drained(more, kept) => State(kept, sent + more)
  }

  function RunLatency<T>(capacity: nat, delay: nat, es: seq<LatencyEvent<T>>): State<T> {
    if |es| == 0 then State([], [])
    else LatencyStep(RunLatency(capacity, delay, es[..|es| - 1]), capacity, delay, es[|es| - 1])
  }

  /** What an event takes in from the input link. */
  function Accepted<T>(s: State<T>, capacity: nat, delay: nat, e: LatencyEvent<T>): seq<T> {
    if s.State? && e.PushAt? then LatencyPush(s.queue, capacity, e.now + delay, e.input).accepted else []
  }

  /** The reference: a queue that stamps every accepted packet with its own due time. */
  datatype RefState<T> = RefState(queue: seq<Stamped<T>>, sent: seq<T>, accepted: seq<T>)

  function RefStep<T>(r: RefState<T>, delay: nat, e: LatencyEvent<T>, ps: seq<T>): RefState<T> {
    match e
    case PushAt(now, _) => r.(queue := r.queue + StampAll(ps, now + delay), accepted := r.accepted + ps)
    case PullAt(now) => r.(queue := Release(r.queue, now).kept, sent := r.sent + Release(r.queue, now).sent)
  }

  function RefLatency<T>(capacity: nat, delay: nat, es: seq<LatencyEvent<T>>): RefState<T> {
    if |es| == 0 then RefState([], [], [])
    else
      var front, e := es[..|es| - 1], es[|es| - 1];
      RefStep(RefLatency(capacity, delay, front), delay, e,
              Accepted(RunLatency(capacity, delay, front), capacity, delay, e))
  }

  function Clock<T>(es: seq<LatencyEvent<T>>): nat {
    if |es| == 0 then 0 else es[|es| - 1].now
  }

  /** Engine time does not go back. */
  predicate InTime<T>(es: seq<LatencyEvent<T>>) {
    forall i, j :: 0 <= i < j < |es| ==> es[i].now <= es[j].now
  }

  lemma InTimeFront<T>(es: seq<LatencyEvent<T>>)
    requires InTime(es) && |es| > 0
    ensures InTime(es[..|es| - 1]) && Clock(es[..|es| - 1]) <= es[|es| - 1].now
  {
  }

  /** The app's state stands for the reference's; markers already taken off reach to `past`. */
  ghost predicate Stands<T>(s: State<T>, r: RefState<T>, past: nat, clock: nat, delay: nat) {
    && s.State? && s.sent == r.sent
    && past <= clock && Stamps(s.queue, past) == r.queue && Latest(s.queue, past) <= clock + delay
  }

  lemma LatencyStepStands<T>(s: State<T>, r: RefState<T>, past: nat, clock: nat,
                             capacity: nat, delay: nat, e: LatencyEvent<T>)
    returns (past': nat)
    requires Stands(s, r, past, clock, delay) && clock <= e.now && LatencyStep(s, capacity, delay, e).State?
    ensures Stands(LatencyStep(s, capacity, delay, e),
                   RefStep(r, delay, e, Accepted(s, capacity, delay, e)), past', e.now, delay)
  {
    past' := past;
    hide Alternates, LatencyPush, Stamps, Latest, StampAll, Drain, Release;
    if e.PushAt? {
      LatencyPushRefines(s.queue, past, capacity, e.now + delay, e.input);
    } else {
      past' := DrainRefines(s.queue, past, e.now);
    }
  }

  /** As long as no pull has panicked, the app has sent exactly what the reference has sent: at
      each pull, in arrival order, the packets accepted at some t with t + delay <= now. */
  lemma {:induction false} LatencyRefines<T>(capacity: nat, delay: nat, es: seq<LatencyEvent<T>>)
    returns (past: nat)
    requires InTime(es) && RunLatency(capacity, delay, es).State?
    ensures var c, r := RunLatency(capacity, delay, es), RefLatency(capacity, delay, es);
            c.sent == r.sent && Stands(c, r, past, Clock(es), delay)
  {
    past := 0;
    if |es| > 0 {
      var front, e := es[..|es| - 1], es[|es| - 1];
      InTimeFront(es);
      past := LatencyRefines(capacity, delay, front);
      past := LatencyStepStands(RunLatency(capacity, delay, front), RefLatency(capacity, delay, front),
                                past, Clock(front), capacity, delay, e);
    }
  }

  // When a run of the Latency app panics

  /** Push `i` of a run finds one free slot. */
  predicate OneSlotAt<T>(capacity: nat, delay: nat, es: seq<LatencyEvent<T>>, i: nat)
    requires i < |es|
  {
    && es[i].PushAt? && RunLatency(capacity, delay, es[..i]).State?
    && OneSlotLeft(RunLatency(capacity, delay, es[..i]).queue, capacity, es[i].input)
  }

  /** Pull `j` comes when the packets of push `i` would be due. */
  predicate PullsDue<T>(delay: nat, es: seq<LatencyEvent<T>>, i: nat, j: nat)
    requires i < |es| && j < |es|
  {
    i < j && es[j].PullAt? && es[i].now + delay <= es[j].now
  }

  ghost predicate PulledDue<T>(delay: nat, es: seq<LatencyEvent<T>>, i: nat)
    requires i < |es|
  {
    exists j :: i < j < |es| && PullsDue(delay, es, i, j)
  }

  lemma PulledNext<T>(delay: nat, es: seq<LatencyEvent<T>>, i: nat)
    requires i < |es|
    ensures i == |es| - 1 ==> !PulledDue(delay, es, i)
    ensures var n := |es| - 1;
            i < n ==> (PulledDue(delay, es, i) <==> PulledDue(delay, es[..n], i) || PullsDue(delay, es, i, n))
  {
    var n := |es| - 1;
    if i < n {
      assert forall j :: i < j < n ==> PullsDue(delay, es[..n], i, j) == PullsDue(delay, es, i, j);
    }
  }

  /** The first hole is at the marker `ttx`, and no marker before it is later. */
  ghost predicate Holed<T>(q: seq<Entry<T>>, ttx: nat, h: nat) {
    && h < |q| && q[h] == Delay(ttx) && Hole(q, h)
    && forall j :: 0 <= j < h ==> !Hole(q, j) && (q[j].Delay? ==> q[j].ttx <= ttx)
  }

  lemma {:induction false} MarkersLatest<T>(q: seq<Entry<T>>, past: nat)
    ensures past <= Latest(q, past)
    ensures forall j :: 0 <= j < |q| && q[j].Delay? ==> q[j].ttx <= Latest(q, past)
  {
    if q != [] {
      MarkersLatest(q[1..], if q[0].Delay? then Max(past, q[0].ttx) else past);
      assert forall j :: 0 < j < |q| ==> q[j] == q[1..][j - 1];
    }
  }

  lemma OneSlotHoles<T>(q: seq<Entry<T>>, capacity: nat, ttx: nat, input: seq<T>)
    requires Alternates(q) && OneSlotLeft(q, capacity, input) && Latest(q, 0) <= ttx
    ensures Holed(LatencyPush(q, capacity, ttx, input).queue, ttx, |q|)
  {
    var after := LatencyPush(q, capacity, ttx, input).queue;
    assert Entries(input[..0]) == [];
    assert after == q + [Delay(ttx)];
    MarkersLatest(q, 0);
    AppendHoles(q, [Delay(ttx)]);
  }

  /** No push fills a hole: it begins with a marker. */
  lemma PushKeepsHole<T>(q: seq<Entry<T>>, capacity: nat, ttx: nat, input: seq<T>, hole: nat, h: nat)
    requires Holed(q, hole, h)
    ensures Holed(LatencyPush(q, capacity, ttx, input).queue, hole, h)
  {
    if input != [] && |q| < capacity {
      var n := Room(|q| + 1, capacity, |input|);
      var more := [Delay(ttx)] + Entries(input[..n]);
      assert LatencyPush(q, capacity, ttx, input).queue == q + more;
      AppendHoles(q, more);
    }
  }

  /** A pull panics on a holed queue exactly when the hole's marker is due; otherwise it stops
      before the hole. */
  lemma PullAtHole<T>(q: seq<Entry<T>>, now: nat, hole: nat, h: nat) returns (h': nat)
    requires Holed(q, hole, h)
    ensures Drain(q, now).Panic? <==> hole <= now
    ensures now < hole ==> Holed(Drain(q, now).kept, hole, h')
  {
    DrainPanics(q, now);
    h' := h;
    if hole <= now {
      assert Hole(q, h) && Due(q, h, now);
    } else {
      assert !DueHole(q, now);
      var k := DrainSuffix(q, now);
      assert k <= h;
      h' := h - k;
      assert forall j :: 0 <= j < |q[k..]| ==> q[k..][j] == q[j + k];
      assert forall j :: 0 <= j < |q[k..]| ==> Hole(q[k..], j) == Hole(q, j + k);
    }
  }

  /** Where a run stands: no push found one free slot, and every marker has its packet; or the
      first that did left a hole, and the run has panicked if a pull came when it was due. */
  ghost predicate Judged<T>(capacity: nat, delay: nat, es: seq<LatencyEvent<T>>, i: nat, h: nat)
    requires i <= |es|
  {
    var s := RunLatency(capacity, delay, es);
    && (forall k :: 0 <= k < i ==> !OneSlotAt(capacity, delay, es, k))
    && if i == |es| then s.State? && Alternates(s.queue) && Latest(s.queue, 0) <= Clock(es) + delay
       else
         && OneSlotAt(capacity, delay, es, i)
         && if PulledDue(delay, es, i) then s.Crashed?
            else s.State? && Holed(s.queue, es[i].now + delay, h)
  }

  lemma JudgedNext<T>(capacity: nat, delay: nat, es: seq<LatencyEvent<T>>, i: nat, h: nat) returns (i': nat, h': nat)
    requires InTime(es) && |es| > 0 && i < |es| && Judged(capacity, delay, es[..|es| - 1], i, h)
    ensures i' <= |es| && Judged(capacity, delay, es, i', h')
  {
    var front, e := es[..|es| - 1], es[|es| - 1];
    InTimeFront(es);
    assert forall k :: 0 <= k < |front| ==> front[..k] == es[..k] && front[k] == es[k];
    assert forall k :: 0 <= k < |front| ==> OneSlotAt(capacity, delay, front, k) == OneSlotAt(capacity, delay, es, k);
    i', h' := i, h;
    if i == |front| {
      i', h' := FirstHole(capacity, delay, es);
    } else {
      h' := LaterEvent(capacity, delay, es, i, h);
    }
  }

  lemma OneSlotNow<T>(capacity: nat, delay: nat, es: seq<LatencyEvent<T>>)
    requires |es| > 0 && RunLatency(capacity, delay, es[..|es| - 1]).State?
    ensures var n := |es| - 1;
            OneSlotAt(capacity, delay, es, n)
            <==> es[n].PushAt? && OneSlotLeft(RunLatency(capacity, delay, es[..n]).queue, capacity, es[n].input)
  {
    hide RunLatency, OneSlotLeft;
  }

  /** Until then: the event makes the first hole, or none. */
  lemma FirstHole<T>(capacity: nat, delay: nat, es: seq<LatencyEvent<T>>) returns (i: nat, h: nat)
    requires |es| > 0 && Clock(es[..|es| - 1]) <= es[|es| - 1].now
    requires var s := RunLatency(capacity, delay, es[..|es| - 1]);
             s.State? && Alternates(s.queue) && Latest(s.queue, 0) <= Clock(es[..|es| - 1]) + delay
    requires forall k :: 0 <= k < |es| - 1 ==> !OneSlotAt(capacity, delay, es, k)
    ensures i <= |es| && Judged(capacity, delay, es, i, h)
  {
    hide RunLatency, OneSlotAt, OneSlotLeft, Alternates, Latest, Drain, LatencyPush, Stamps, StampAll, Holed, PulledDue;
    var n, e, s := |es| - 1, es[|es| - 1], RunLatency(capacity, delay, es[..|es| - 1]);
    RunNext(capacity, delay, es);
    OneSlotNow(capacity, delay, es);
    if !e.PushAt? {
      i, h := |es|, 0;
      PullWithoutHoles(s.queue, e.now);
    } else if OneSlotLeft(s.queue, capacity, e.input) {
      i, h := n, |s.queue|;
      OneSlotHoles(s.queue, capacity, e.now + delay, e.input);
      PulledNext(delay, es, n);
    } else {
      i, h := |es|, 0;
      LatencyPushRefines(s.queue, 0, capacity, e.now + delay, e.input);
    }
  }

  lemma PullWithoutHoles<T>(q: seq<Entry<T>>, now: nat)
    requires Alternates(q)
    ensures Drain(q, now).Drained? && Alternates(Drain(q, now).kept)
    ensures Latest(Drain(q, now).kept, 0) <= Latest(q, 0)
  {
    DrainPanics(q, now);
    assert !DueHole(q, now);
    var k := DrainSuffix(q, now);
    assert forall j :: 0 <= j < |q[k..]| ==> Hole(q[k..], j) == Hole(q, j + k);
    LatestSuffix(q, k, 0, 0);
  }

  lemma {:induction false} LatestSuffix<T>(q: seq<Entry<T>>, k: nat, a: nat, b: nat)
    requires k <= |q| && a <= b
    ensures Latest(q[k..], a) <= Latest(q, b)
  {
    if k > 0 {
      assert q[k..] == q[1..][k - 1..];
      LatestSuffix(q[1..], k - 1, a, if q[0].Delay? then Max(b, q[0].ttx) else b);
    } else {
      LatestFrom(q, a, b);
      assert q[0..] == q;
    }
  }

  lemma {:induction false} LatestFrom<T>(q: seq<Entry<T>>, a: nat, b: nat)
    requires a <= b
    ensures Latest(q, a) <= Latest(q, b)
  {
    if q != [] {
      LatestFrom(q[1..], if q[0].Delay? then Max(a, q[0].ttx) else a, if q[0].Delay? then Max(b, q[0].ttx) else b);
    }
  }

  /** After that: pushes leave the hole, and pulls stop before it or panic. */
  lemma LaterEvent<T>(capacity: nat, delay: nat, es: seq<LatencyEvent<T>>, i: nat, h: nat) returns (h': nat)
    requires |es| > 0 && i < |es| - 1 && OneSlotAt(capacity, delay, es, i)
    requires forall k :: 0 <= k < i ==> !OneSlotAt(capacity, delay, es, k)
    requires var s, n := RunLatency(capacity, delay, es[..|es| - 1]), |es| - 1;
             if PulledDue(delay, es[..n], i) then s.Crashed?
             else s.State? && Holed(s.queue, es[i].now + delay, h)
    ensures Judged(capacity, delay, es, i, h')
  {
    var n, e := |es| - 1, es[|es| - 1];
    var s := RunLatency(capacity, delay, es[..n]);
    PulledNext(delay, es, i);
    assert RunLatency(capacity, delay, es) == LatencyStep(s, capacity, delay, e);
    hide RunLatency, Holed, LatencyPush, Drain, OneSlotAt, PulledDue;
    h' := h;
    if s.State? {
      if e.PushAt? {
        PushKeepsHole(s.queue, capacity, e.now + delay, e.input, es[i].now + delay, h);
      } else {
        h' := PullAtHole(s.queue, e.now, es[i].now + delay, h);
      }
    }
  }

  lemma {:induction false} JudgedAll<T>(capacity: nat, delay: nat, es: seq<LatencyEvent<T>>) returns (i: nat, h: nat)
    requires InTime(es)
    ensures i <= |es| && Judged(capacity, delay, es, i, h)
  {
    i, h := 0, 0;
    if |es| > 0 {
      InTimeFront(es);
      hide Judged;
      i, h := JudgedAll(capacity, delay, es[..|es| - 1]);
      i, h := JudgedNext(capacity, delay, es, i, h);
    }
  }

  /** A run of the Latency app panics exactly when some push finds one free slot and some later
      pull comes when its packets would be due, whatever is pushed in between. */
  lemma LatencyPanicsExactly<T>(capacity: nat, delay: nat, es: seq<LatencyEvent<T>>)
    requires InTime(es)
    ensures RunLatency(capacity, delay, es).Crashed?
            <==> exists i, j :: 0 <= i < j < |es| && OneSlotAt(capacity, delay, es, i) && PullsDue(delay, es, i, j)
  {
    var first, h := JudgedAll(capacity, delay, es);
    hide RunLatency, Holed, Alternates, OneSlotAt;
    if i, j :| 0 <= i < j < |es| && OneSlotAt(capacity, delay, es, i) && PullsDue(delay, es, i, j) {
      assert first <= i && first < |es| && es[first].now <= es[i].now;
      assert PullsDue(delay, es, first, j);
    }
  }

  /** Arrival order, in order of due times up to a horizon. */
  ghost predicate InOrder<T>(r: RefState<T>, horizon: nat) {
    && r.sent + Unstamped(r.queue) == r.accepted
    && NonDecreasing(r.queue)
    && (forall i :: 0 <= i < |r.queue| ==> r.queue[i].due <= horizon)
  }

  lemma RefPushInOrder<T>(r: RefState<T>, horizon: nat, delay: nat, e: LatencyEvent<T>, ps: seq<T>)
    requires InOrder(r, horizon) && e.PushAt? && horizon <= e.now + delay
    ensures InOrder(RefStep(r, delay, e, ps), e.now + delay)
  {
    var stamped := StampAll(ps, e.now + delay);
    StampAllIs(ps, e.now + delay);
    UnstampedAppend(r.queue, stamped);
    AppendNonDecreasing(r.queue, stamped, horizon, e.now + delay);
    Regroup(r.sent, Unstamped(r.queue), ps);
    assert RefStep(r, delay, e, ps) == r.(queue := r.queue + stamped, accepted := r.accepted + ps);
    hide StampAll, Unstamped, NonDecreasing, RefStep;
  }

  lemma Regroup<T>(a: seq<T>, b: seq<T>, c: seq<T>)
    ensures a + (b + c) == a + b + c
  {
  }

  lemma AppendNonDecreasing<T>(a: seq<Stamped<T>>, b: seq<Stamped<T>>, horizon: nat, due: nat)
    requires NonDecreasing(a) && horizon <= due
    requires forall i :: 0 <= i < |a| ==> a[i].due <= horizon
    requires forall i :: 0 <= i < |b| ==> b[i].due == due
    ensures NonDecreasing(a + b)
    ensures forall i :: 0 <= i < |a + b| ==> (a + b)[i].due <= due
  {
  }

  lemma RefPullInOrder<T>(r: RefState<T>, horizon: nat, delay: nat, e: LatencyEvent<T>)
    requires InOrder(r, horizon) && e.PullAt?
    ensures InOrder(RefStep(r, delay, e, []), horizon)
    ensures var kept := RefStep(r, delay, e, []).queue;
            forall i :: 0 <= i < |kept| ==> kept[i].due > e.now
  {
    ReleaseExact(r.queue, e.now);
    var n := |Release(r.queue, e.now).sent|;
    var gone, kept := r.queue[..n], r.queue[n..];
    assert RefStep(r, delay, e, []) == r.(queue := kept, sent := r.sent + Unstamped(gone));
    assert gone + kept == r.queue;
    UnstampedAppend(gone, kept);
    Regroup(r.sent, Unstamped(gone), Unstamped(kept));
    SuffixNonDecreasing(r.queue, n);
    hide Release, Unstamped, RefStep, NonDecreasing;
  }

  lemma SuffixNonDecreasing<T>(q: seq<Stamped<T>>, n: nat)
    requires NonDecreasing(q) && n <= |q|
    ensures NonDecreasing(q[n..])
    ensures forall i :: 0 <= i < |q[n..]| ==> q[n..][i] == q[n + i] && q[n].due <= q[n..][i].due
  {
  }

  /** The reference keeps arrival order, and after a pull holds only what is not yet due. */
  lemma {:induction false} ReferenceInOrder<T>(capacity: nat, delay: nat, es: seq<LatencyEvent<T>>)
    requires InTime(es)
    ensures var r := RefLatency(capacity, delay, es);
            && InOrder(r, Clock(es) + delay)
            && (|es| > 0 && es[|es| - 1].PullAt? ==>
                  forall i :: 0 <= i < |r.queue| ==> r.queue[i].due > Clock(es))
  {
    if |es| > 0 {
      var front, e := es[..|es| - 1], es[|es| - 1];
      InTimeFront(es);
      ReferenceInOrder(capacity, delay, front);
      var r := RefLatency(capacity, delay, front);
      var ps := Accepted(RunLatency(capacity, delay, front), capacity, delay, e);
      assert RefLatency(capacity, delay, es) == RefStep(r, delay, e, ps);
      hide RefLatency, RunLatency, Accepted, RefStep;
      if e.PushAt? {
        RefPushInOrder(r, Clock(front) + delay, delay, e, ps);
      } else {
        RefPullInOrder(r, Clock(front) + delay, delay, e);
        RefPullIgnores(r, delay, e, ps);
      }
    }
  }

  // What a run takes in

  /** Everything offered to the app, in order. */
  function Offered<T>(es: seq<LatencyEvent<T>>): seq<T> {
    if |es| == 0 then []
    else Offered(es[..|es| - 1]) + if es[|es| - 1].PushAt? then es[|es| - 1].input else []
  }

  /** If event `i` offers packets, there are slots for all of them and their marker. */
  predicate FitsAt<T>(capacity: nat, delay: nat, es: seq<LatencyEvent<T>>, i: nat)
    requires i < |es|
  {
    es[i].PushAt? && es[i].input != [] ==>
      var s := RunLatency(capacity, delay, es[..i]);
      s.State? && |s.queue| + 1 + |es[i].input| <= capacity
  }

  /** A run takes in all it is offered exactly when there is room at every push, and never
      anything else. */
  lemma {:induction false} AcceptsAllExactly<T>(capacity: nat, delay: nat, es: seq<LatencyEvent<T>>)
    ensures var taken := RefLatency(capacity, delay, es).accepted;
            && |taken| <= |Offered(es)|
            && (|taken| == |Offered(es)| ==> taken == Offered(es))
            && (taken == Offered(es) <==> forall i :: 0 <= i < |es| ==> FitsAt(capacity, delay, es, i))
  {
    hide RefLatency, RunLatency, Accepted, FitsAt, Offered;
    if |es| > 0 {
      var n := |es| - 1;
      var front := es[..n];
      AcceptsAllExactly(capacity, delay, front);
      FitsInFront(capacity, delay, es);
      RefTakes(capacity, delay, es);
      OfferedNext(es);
      EventFits(capacity, delay, es);
    } else {
      assert es == [];
      NothingYet<T>(capacity, delay);
    }
  }

  lemma NothingYet<T>(capacity: nat, delay: nat)
    ensures RefLatency<T>(capacity, delay, []).accepted == Offered<T>([]) == []
  {
  }

  lemma OfferedNext<T>(es: seq<LatencyEvent<T>>)
    requires |es| > 0
    ensures var e := es[|es| - 1]; Offered(es) == Offered(es[..|es| - 1]) + if e.PushAt? then e.input else []
  {
  }

  lemma FitsInFront<T>(capacity: nat, delay: nat, es: seq<LatencyEvent<T>>)
    requires |es| > 0
    ensures var n := |es| - 1;
            forall i :: 0 <= i < n ==> FitsAt(capacity, delay, es[..n], i) == FitsAt(capacity, delay, es, i)
  {
    var n := |es| - 1;
    forall i | 0 <= i < n ensures FitsAt(capacity, delay, es[..n], i) == FitsAt(capacity, delay, es, i) {
      assert es[..n][..i] == es[..i];
      hide RunLatency;
    }
  }

  lemma RefTakes<T>(capacity: nat, delay: nat, es: seq<LatencyEvent<T>>)
    requires |es| > 0
    ensures var front, e := es[..|es| - 1], es[|es| - 1];
            && RefLatency(capacity, delay, es).accepted
               == RefLatency(capacity, delay, front).accepted
                  + Accepted(RunLatency(capacity, delay, front), capacity, delay, e)
  {
    hide StampAll, Release, LatencyPush;
  }

  lemma EventFits<T>(capacity: nat, delay: nat, es: seq<LatencyEvent<T>>)
    requires |es| > 0
    ensures var front, e := es[..|es| - 1], es[|es| - 1];
            var taken, all := Accepted(RunLatency(capacity, delay, front), capacity, delay, e),
                              if e.PushAt? then e.input else [];
            && taken <= all && (taken == all <==> FitsAt(capacity, delay, es, |es| - 1))
  {
    var s, e := RunLatency(capacity, delay, es[..|es| - 1]), es[|es| - 1];
    if s.State? && e.PushAt? {
      PushFills(s.queue, capacity, e.now + delay, e.input);
    }
    hide LatencyPush, RunLatency;
  }

  /** The slots that a run's packets and their markers take, were none ever sent. */
  function Slots<T>(es: seq<LatencyEvent<T>>): nat {
    if |es| == 0 then 0
    else
      var e := es[|es| - 1];
      Slots(es[..|es| - 1]) + if e.PushAt? && e.input != [] then 1 + |e.input| else 0
  }

  lemma {:induction false} EnoughSlots<T>(capacity: nat, delay: nat, es: seq<LatencyEvent<T>>)
    requires Slots(es) <= capacity
    ensures var s := RunLatency(capacity, delay, es);
            && s.State? && Alternates(s.queue) && |s.queue| <= Slots(es)
            && RefLatency(capacity, delay, es).accepted == Offered(es)
  {
    if |es| > 0 {
      hide RunLatency, RefLatency, Accepted, Offered, Alternates, LatencyStep;
      var e := es[|es| - 1];
      EnoughSlots(capacity, delay, es[..|es| - 1]);
      var s := RunLatency(capacity, delay, es[..|es| - 1]);
      RunNext(capacity, delay, es);
      RefTakes(capacity, delay, es);
      OfferedNext(es);
      EventFits(capacity, delay, es);
      StepWithRoom(s, capacity, delay, e);
    }
  }

  lemma RunNext<T>(capacity: nat, delay: nat, es: seq<LatencyEvent<T>>)
    requires |es| > 0
    ensures var n := |es| - 1;
            RunLatency(capacity, delay, es) == LatencyStep(RunLatency(capacity, delay, es[..n]), capacity, delay, es[n])
  {
    hide LatencyStep;
  }

  lemma StepWithRoom<T>(s: State<T>, capacity: nat, delay: nat, e: LatencyEvent<T>)
    requires s.State? && Alternates(s.queue)
    requires e.PushAt? && e.input != [] ==> |s.queue| + 1 + |e.input| <= capacity
    ensures var after := LatencyStep(s, capacity, delay, e);
            && after.State? && Alternates(after.queue)
            && |after.queue| <= |s.queue| + if e.PushAt? && e.input != [] then 1 + |e.input| else 0
  {
    hide Drain, LatencyPush, Alternates;
    if e.PushAt? {
      PushWithRoom(s.queue, capacity, e.now + delay, e.input);
    } else {
      PullWithoutHoles(s.queue, e.now);
      var k := DrainSuffix(s.queue, e.now);
    }
  }

  lemma PushWithRoom<T>(q: seq<Entry<T>>, capacity: nat, ttx: nat, input: seq<T>)
    requires Alternates(q) && (input != [] ==> |q| + 1 + |input| <= capacity)
    ensures var r := LatencyPush(q, capacity, ttx, input);
            Alternates(r.queue) && |r.queue| <= |q| + if input != [] then 1 + |input| else 0
  {
    if input != [] {
      AppendAlternates(q, ttx, input);
      assert input[..|input|] == input;
      assert LatencyPush(q, capacity, ttx, input).queue == q + Batch(ttx, input);
    }
    hide Alternates;
  }

  /** Where the capacity is enough for a run, nothing is lost and nothing comes twice: what was
      offered has been sent, in order, or waits; and a pull `delay` after all else sends the rest. */
  lemma EverythingDelivered<T>(capacity: nat, delay: nat, es: seq<LatencyEvent<T>>)
    requires InTime(es) && Slots(es) <= capacity
    ensures var s := RunLatency(capacity, delay, es);
            && s.State? && s.sent + Unstamped(RefLatency(capacity, delay, es).queue) == Offered(es)
            && (|es| > 0 && es[|es| - 1].PullAt? && Clock(es[..|es| - 1]) + delay <= Clock(es) ==>
                  s.sent == Offered(es))
  {
    EnoughSlots(capacity, delay, es);
    var past := LatencyRefines(capacity, delay, es);
    ReferenceInOrder(capacity, delay, es);
    if |es| > 0 && es[|es| - 1].PullAt? {
      LastPullKeeps(capacity, delay, es);
    }
    hide RunLatency, RefLatency, Stands;
  }

  lemma PullReleases<T>(capacity: nat, delay: nat, es: seq<LatencyEvent<T>>)
    requires |es| > 0 && es[|es| - 1].PullAt?
    ensures RefLatency(capacity, delay, es).queue
            == Release(RefLatency(capacity, delay, es[..|es| - 1]).queue, es[|es| - 1].now).kept
    ensures Clock(es) == es[|es| - 1].now
  {
    hide Release, Accepted;
  }

  lemma LastPullKeeps<T>(capacity: nat, delay: nat, es: seq<LatencyEvent<T>>)
    requires InTime(es) && |es| > 0 && es[|es| - 1].PullAt?
    ensures Clock(es[..|es| - 1]) + delay <= Clock(es) ==> RefLatency(capacity, delay, es).queue == []
  {
    hide RefLatency, Release, Unstamped, NonDecreasing, InTime, Clock;
    var front, e := es[..|es| - 1], es[|es| - 1];
    InTimeFront(es);
    ReferenceInOrder(capacity, delay, front);
    ReferenceInOrder(capacity, delay, es);
    var r, q := RefLatency(capacity, delay, front), RefLatency(capacity, delay, es).queue;
    PullReleases(capacity, delay, es);
    ReleaseExact(r.queue, e.now);
    assert q != [] ==> q[0] == r.queue[|r.queue| - |q|];
  }

  lemma RefPullIgnores<T>(r: RefState<T>, delay: nat, e: LatencyEvent<T>, ps: seq<T>)
    requires e.PullAt?
    ensures RefStep(r, delay, e, ps) == RefStep(r, delay, e, [])
  {
  }
}
