/** The Jitter and Loss apps of `rush/src/qos.rs`. Each random draw is a parameter: for
    Jitter either no added delay or the time from which the packet may be sent, for Loss
    whether the packet is kept. */
module Jitters {
  import opened Wrappers
  import opened Links
  import opened DelayQueues
  import opened Qos

  /** The queue, what was forwarded at once, and how many waiting packets were taken. */
  datatype Spread<T> = Spread(queue: seq<Entry<T>>, bypassed: seq<T>, taken: nat)

  /** One turn of the push loop. On a full queue nothing moves; a marker may take the last
      free slot, and then its packet stays on the link. */
  function Turn<T>(s: Spread<T>, capacity: nat, reorder: bool, p: T, draw: Option<nat>): Spread<T> {
    if |s.queue| >= capacity then s
    else match draw
      case Some(ttx) =>
        if |s.queue| + 1 < capacity
        then s.(queue := s.queue + [Delay(ttx), Pkt(p)], taken := s.taken + 1)
        else s.(queue := s.queue + [Delay(ttx)])
      case None =>
        if reorder then s.(bypassed := s.bypassed + [p], taken := s.taken + 1)
        else s.(queue := s.queue + [Pkt(p)], taken := s.taken + 1)
  }

  /** The push loop after `k` waiting packets. */
  function Turns<T>(q: seq<Entry<T>>, capacity: nat, reorder: bool,
                    input: seq<T>, draws: seq<Option<nat>>, k: nat): Spread<T>
    requires k <= |input| <= |draws|
  {
    if k == 0 then Spread(q, [], 0)
    else Turn(Turns(q, capacity, reorder, input, draws, k - 1), capacity, reorder, input[k - 1], draws[k - 1])
  }

  /** A full queue ends the loop. */
  lemma {:induction false} TurnsStop<T>(q: seq<Entry<T>>, capacity: nat, reorder: bool,
                                        input: seq<T>, draws: seq<Option<nat>>, j: nat, k: nat)
    requires j <= k <= |input| <= |draws|
    requires |Turns(q, capacity, reorder, input, draws, j).queue| >= capacity
    ensures Turns(q, capacity, reorder, input, draws, k) == Turns(q, capacity, reorder, input, draws, j)
  {
    if j < k {
      TurnsStop(q, capacity, reorder, input, draws, j, k - 1);
    }
  }

  class JitterApp<T(0)> {
    const reorder: bool
    const queue: DelayQueue<T>

    constructor (reorder: bool, capacity: nat)
      ensures fresh(queue) && queue.packets == [] && queue.capacity == capacity && this.reorder == reorder
    {
      this.reorder := reorder;
      queue := new DelayQueue(capacity);
    }

    method Push(input: Link<T>, output: Link<T>, draws: seq<Option<nat>>)
      requires input.Valid() && output.Valid() && input != output && input.packets != output.packets
      requires |draws| >= |input.Contents()|
      modifies queue, input, output, output.packets
      ensures input.Valid() && output.Valid()
      ensures var waiting := old(input.Contents());
              var r := Turns(old(queue.packets), queue.capacity, reorder, waiting, draws, |waiting|);
              && r.taken <= |waiting| && input.Contents() == waiting[r.taken..]
              && queue.packets == r.queue
              && output.history == SendAll(old(output.history), r.bypassed)
      ensures input.Contents() == [] || |queue.packets| >= queue.capacity
    {
      ghost var q, waiting, start := queue.packets, input.Contents(), output.history;
      hide *;
      ghost var k := PushLoop(input, output, draws);
      PushEnd(q, waiting, start, k, input, output, draws);
    }

    /** A loop that ends early has filled the queue. */
    lemma PushEnd(q: seq<Entry<T>>, waiting: seq<T>, start: History<T>, k: nat,
                  input: Link<T>, output: Link<T>, draws: seq<Option<nat>>)
      requires |waiting| <= |draws| && Reached(q, waiting, start, k, input, output, draws)
      requires k == |waiting| || |queue.packets| >= queue.capacity
      ensures input.Valid() && output.Valid()
      ensures var r := Turns(q, queue.capacity, reorder, waiting, draws, |waiting|);
              && r.taken <= |waiting| && input.Contents() == waiting[r.taken..]
              && queue.packets == r.queue
              && output.history == SendAll(start, r.bypassed)
      ensures input.Contents() == [] || |queue.packets| >= queue.capacity
    {
      hide Link.Valid, SendAll, Turns;
      if k < |waiting| {
        TurnsStop(q, queue.capacity, reorder, waiting, draws, k, |waiting|);
      }
    }

    /** Where the push loop is after `k` turns over what was waiting. */
    ghost predicate Reached(q: seq<Entry<T>>, waiting: seq<T>, start: History<T>, k: nat,
                            input: Link<T>, output: Link<T>, draws: seq<Option<nat>>)
      requires |waiting| <= |draws|
      reads this, queue, input, input.packets, output, output.packets
    {
      && input.Valid() && output.Valid() && input != output && input.packets != output.packets
      && k <= |waiting|
      && var r := Turns(q, queue.capacity, reorder, waiting, draws, k);
      && r.taken <= |waiting| && input.Contents() == waiting[r.taken..] && queue.packets == r.queue
      && (r.taken == k || |queue.packets| >= queue.capacity)
      && output.history == SendAll(start, r.bypassed)
    }

    method PushLoop(input: Link<T>, output: Link<T>, draws: seq<Option<nat>>) returns (ghost k: nat)
      requires input.Valid() && output.Valid() && input != output && input.packets != output.packets
      requires |draws| >= |input.Contents()|
      modifies queue, input, output, output.packets
      ensures Reached(old(queue.packets), old(input.Contents()), old(output.history), k, input, output, draws)
      ensures k == |old(input.Contents())| || |queue.packets| >= queue.capacity
    {
      ghost var q, waiting, start := queue.packets, input.Contents(), output.history;
      var turn: nat := 0;
      SendNone(start);
      assert waiting[0..] == waiting;
      assert Reached(q, waiting, start, 0, input, output, draws);
      AtGuard(q, waiting, start, 0, input, output, draws);
      hide *;
      while !input.Empty() && !queue.Full()
        invariant turn <= |waiting| && Reached(q, waiting, start, turn, input, output, draws)
        invariant !input.Empty() && !queue.Full() ==> turn < |waiting|
        invariant input.Empty() ==> turn == |waiting| || queue.Full()
        decreases |waiting| - turn
      {
        PushOne(q, waiting, start, turn, input, output, draws);
        turn := turn + 1;
        AtGuard(q, waiting, start, turn, input, output, draws);
      }
      k := turn;
      queue.FullIs();
    }

    lemma AtGuard(q: seq<Entry<T>>, waiting: seq<T>, start: History<T>, k: nat,
                  input: Link<T>, output: Link<T>, draws: seq<Option<nat>>)
      requires |waiting| <= |draws| && Reached(q, waiting, start, k, input, output, draws)
      ensures !input.Empty() && !queue.Full() ==> k < |waiting|
      ensures input.Empty() ==> k == |waiting| || queue.Full()
    {
      input.Cursors();
    }

    /** The body of the push loop. */
    method PushOne(ghost q: seq<Entry<T>>, ghost waiting: seq<T>, ghost start: History<T>, k: nat,
                   input: Link<T>, output: Link<T>, draws: seq<Option<nat>>)
      requires |waiting| <= |draws| && Reached(q, waiting, start, k, input, output, draws)
      requires k < |waiting| && !input.Empty() && !queue.Full()
      modifies queue, input, output, output.packets
      ensures Reached(q, waiting, start, k + 1, input, output, draws)
    {
      hide Link.Valid, SendAll, Step, Turns, Turn;
      NextTurn(q, waiting, start, k, input, output, draws);
      if draws[k].Some? {
        Delayed(draws[k].value, input);
      } else if reorder {
        Bypass(input, output, Turns(q, queue.capacity, reorder, waiting, draws, k).bypassed, start);
      } else {
        var p := input.Receive();
        queue.EnqueuePacket(p);
      }
    }

    /** What the next turn is to do. */
    lemma NextTurn(q: seq<Entry<T>>, waiting: seq<T>, start: History<T>, k: nat,
                   input: Link<T>, output: Link<T>, draws: seq<Option<nat>>)
      requires |waiting| <= |draws| && Reached(q, waiting, start, k, input, output, draws)
      requires k < |waiting| && !input.Empty() && !queue.Full()
      ensures input.Contents() == waiting[k..] && waiting[k..][1..] == waiting[k + 1..] && waiting[k..][0] == waiting[k]
      ensures |queue.packets| < queue.capacity
      ensures var r, p := Turns(q, queue.capacity, reorder, waiting, draws, k), waiting[k];
              && r.taken == k
              && Turns(q, queue.capacity, reorder, waiting, draws, k + 1)
                 == if draws[k].Some? then
                      if |queue.packets| + 1 < queue.capacity
                      then r.(queue := r.queue + [Delay(draws[k].value), Pkt(p)], taken := k + 1)
                      else r.(queue := r.queue + [Delay(draws[k].value)])
                    else if reorder then r.(bypassed := r.bypassed + [p], taken := k + 1)
                    else r.(queue := r.queue + [Pkt(p)], taken := k + 1)
    {
      queue.FullIs();
      ghost var r := Turns(q, queue.capacity, reorder, waiting, draws, k);
      assert Turns(q, queue.capacity, reorder, waiting, draws, k + 1)
          == Turn(r, queue.capacity, reorder, waiting[k], draws[k]);
      hide Link.Valid, SendAll, Step, Turns;
    }

    method Bypass(input: Link<T>, output: Link<T>, ghost sent: seq<T>, ghost start: History<T>)
      requires input.Valid() && output.Valid() && input != output && input.packets != output.packets
      requires input.Contents() != [] && output.history == SendAll(start, sent)
      modifies input, output, output.packets
      ensures input.Valid() && output.Valid()
      ensures input.Contents() == old(input.Contents())[1..]
      ensures output.history == SendAll(start, sent + [old(input.Contents())[0]])
    {
      hide *;
      var p := input.Receive();
      SendOneMore(start, sent, p);
      output.Transmit(p);
    }

    /** A marker, and its packet where a slot is left. */
    method Delayed(ttx: nat, input: Link<T>)
      requires input.Valid() && input.Contents() != [] && !queue.Full()
      modifies queue, input
      ensures input.Valid()
      ensures if |old(queue.packets)| + 1 < queue.capacity
              then queue.packets == old(queue.packets) + [Delay(ttx), Pkt(old(input.Contents())[0])]
                   && input.Contents() == old(input.Contents())[1..]
              else queue.packets == old(queue.packets) + [Delay(ttx)]
                   && input.Contents() == old(input.Contents())
    {
      hide Link.Valid;
      queue.EnqueueDelay(ttx);
      if !queue.Full() {
        var p := input.Receive();
        queue.EnqueuePacket(p);
      }
    }
  }

  // The reference: release times are running maxima

  /** A queue that stamps each packet with the latest marker so far, `high`. */
  datatype RefSpread<T> = RefSpread(queue: seq<Stamped<T>>, high: nat, bypassed: seq<T>)

  /** How much of an offered packet a turn takes: nothing on a full queue, and in the last free
      slot a marker alone. */
  datatype Taken = Nothing | Marker | Whole

  function TakenBy<T>(s: Spread<T>, capacity: nat, draw: Option<nat>): Taken {
    if |s.queue| >= capacity then Nothing else if LastSlot(s, capacity, draw) then Marker else Whole
  }

  /** A marker would take the last free slot. */
  predicate LastSlot<T>(s: Spread<T>, capacity: nat, draw: Option<nat>) {
    draw.Some? && |s.queue| + 1 == capacity
  }

  function RefTurn<T>(r: RefSpread<T>, reorder: bool, p: T, draw: Option<nat>, taken: Taken): RefSpread<T> {
    match taken
    case Nothing => r
    case Marker => if draw.Some? then r.(high := Max(r.high, draw.value)) else r
    case Whole =>
      match draw
      case Some(ttx) =>
        var high := Max(r.high, ttx);
        r.(queue := r.queue + [Stamped(p, high)], high := high)
      case None =>
        if reorder then r.(bypassed := r.bypassed + [p]) else r.(queue := r.queue + [Stamped(p, r.high)])
  }

  ghost predicate Stand<T>(s: Spread<T>, r: RefSpread<T>, past: nat) {
    && s.bypassed == r.bypassed
    && Stamps(s.queue, past) == r.queue && Latest(s.queue, past) == r.high
  }

  /** A turn refines the reference's, and it leaves every marker with a packet exactly when it
      does not put a marker in the last free slot. */
  lemma TurnRefines<T>(s: Spread<T>, r: RefSpread<T>, past: nat, capacity: nat, reorder: bool,
                       p: T, draw: Option<nat>)
    requires Stand(s, r, past)
    ensures var after := Turn(s, capacity, reorder, p, draw);
            && (Alternates(s.queue) ==> (Alternates(after.queue) <==> !LastSlot(s, capacity, draw)))
            && Stand(after, RefTurn(r, reorder, p, draw, TakenBy(s, capacity, draw)), past)
  {
    TurnAlternates(s, capacity, reorder, p, draw);
    assert Entries([p]) == [Pkt(p)];
    EntriesStamps([p], r.high);
    AppendStamps(s.queue, [Pkt(p)], past);
    assert StampAll([p], r.high) == [Stamped(p, r.high)];
    if draw.Some? {
      assert Batch<T>(draw.value, []) == [Delay(draw.value)];
      assert Batch(draw.value, [p]) == [Delay(draw.value), Pkt(p)];
      BatchStamps(draw.value, [p], r.high);
      BatchStamps<T>(draw.value, [], r.high);
      AppendStamps(s.queue, Batch(draw.value, [p]), past);
      AppendStamps(s.queue, Batch(draw.value, []), past);
      assert StampAll<T>([], Max(r.high, draw.value)) == [];
      assert StampAll([p], Max(r.high, draw.value)) == [Stamped(p, Max(r.high, draw.value))];
      assert r.queue + [] == r.queue;
    }
    hide Stamps, Latest, Alternates, Batch, StampAll, Entries;
  }

  lemma TurnAlternates<T>(s: Spread<T>, capacity: nat, reorder: bool, p: T, draw: Option<nat>)
    ensures var after := Turn(s, capacity, reorder, p, draw);
            Alternates(s.queue) ==> (Alternates(after.queue) <==> !LastSlot(s, capacity, draw))
  {
    if Alternates(s.queue) {
      assert Entries([p]) == [Pkt(p)];
      AppendAlternates(s.queue, 0, [p]);
      if draw.Some? {
        AppendAlternates(s.queue, draw.value, [p]);
        AppendAlternates<T>(s.queue, draw.value, []);
        assert Batch<T>(draw.value, []) == [Delay(draw.value)];
        assert Batch(draw.value, [p]) == [Delay(draw.value), Pkt(p)];
      }
    }
  }

  // Whole runs: a push is one turn for each waiting packet

  datatype JitterEvent<T> = Offer(p: T, draw: Option<nat>) | PullNow(now: nat)

  datatype JitterState<T> = Working(spread: Spread<T>, sent: seq<T>) | Panicked

  function JitterStep<T>(s: JitterState<T>, capacity: nat, reorder: bool, e: JitterEvent<T>): JitterState<T> {
    match s
    case Panicked => Panicked
    case Working(spread, sent) =>
      match e
      case Offer(p, draw) => s.(spread := Turn(spread, capacity, reorder, p, draw))
      case PullNow(now) =>
        match Drain(spread.queue, now)
        case Panic => Panicked
        case Drained(more, kept) => Working(spread.(queue := kept), sent + more)
  }

  function RunJitter<T>(capacity: nat, reorder: bool, es: seq<JitterEvent<T>>): JitterState<T> {
    if |es| == 0 then Working(Spread([], [], 0), [])
    else JitterStep(RunJitter(capacity, reorder, es[..|es| - 1]), capacity, reorder, es[|es| - 1])
  }

  /** The packets waiting at a push, each with its own draw. */
  function Offers<T>(input: seq<T>, draws: seq<Option<nat>>): (es: seq<JitterEvent<T>>)
    requires |input| <= |draws|
    ensures |es| == |input|
  {
    seq(|input|, i requires 0 <= i < |input| => Offer(input[i], draws[i]))
  }

  /** A push is the run of one offer for each waiting packet, wherever the run stood. */
  lemma {:induction false} PushIsOffers<T>(capacity: nat, reorder: bool, es: seq<JitterEvent<T>>,
                                           input: seq<T>, draws: seq<Option<nat>>)
    requires |input| <= |draws| && RunJitter(capacity, reorder, es).Working?
    ensures var s := RunJitter(capacity, reorder, es);
            var r := Turns(s.spread.queue, capacity, reorder, input, draws, |input|);
            RunJitter(capacity, reorder, es + Offers(input, draws))
            == Working(Spread(r.queue, s.spread.bypassed + r.bypassed, s.spread.taken + r.taken), s.sent)
  {
    hide RunJitter, Turn, Offers, Turns;
    var s := RunJitter(capacity, reorder, es);
    if |input| == 0 {
      assert es + Offers(input, draws) == es;
      TurnsNone(s.spread.queue, capacity, reorder, input, draws);
      assert s.spread.bypassed + [] == s.spread.bypassed;
    } else {
      var n := |input| - 1;
      PushIsOffers(capacity, reorder, es, input[..n], draws);
      OneMoreOffer(capacity, reorder, es, input, draws);
      TurnsFront(s.spread.queue, capacity, reorder, input, draws, n, n);
      TurnsLast(s.spread.queue, capacity, reorder, input, draws);
      TurnShifts(Turns(s.spread.queue, capacity, reorder, input, draws, n), capacity, reorder,
                 input[n], draws[n], s.spread.bypassed, s.spread.taken);
    }
  }

  lemma TurnsNone<T>(q: seq<Entry<T>>, capacity: nat, reorder: bool, input: seq<T>, draws: seq<Option<nat>>)
    requires |input| <= |draws|
    ensures Turns(q, capacity, reorder, input, draws, 0) == Spread(q, [], 0)
  {
  }

  lemma TurnsLast<T>(q: seq<Entry<T>>, capacity: nat, reorder: bool, input: seq<T>, draws: seq<Option<nat>>)
    requires 0 < |input| <= |draws|
    ensures var n := |input| - 1;
            Turns(q, capacity, reorder, input, draws, n + 1)
            == Turn(Turns(q, capacity, reorder, input, draws, n), capacity, reorder, input[n], draws[n])
  {
    hide Turn;
  }

  lemma OneMoreOffer<T>(capacity: nat, reorder: bool, es: seq<JitterEvent<T>>, input: seq<T>, draws: seq<Option<nat>>)
    requires 0 < |input| <= |draws|
    ensures var n := |input| - 1;
            RunJitter(capacity, reorder, es + Offers(input, draws))
            == JitterStep(RunJitter(capacity, reorder, es + Offers(input[..n], draws)), capacity, reorder,
                          Offer(input[n], draws[n]))
  {
    var n, all := |input| - 1, es + Offers(input, draws);
    assert Offers(input, draws)[n] == Offer(input[n], draws[n]);
    assert all[..|all| - 1] == es + Offers(input[..n], draws);
    hide Turn, Offers, JitterStep;
  }

  /** A turn does the same whatever was bypassed and taken before. */
  lemma TurnShifts<T>(r: Spread<T>, capacity: nat, reorder: bool, p: T, draw: Option<nat>, bypassed: seq<T>, taken: nat)
    ensures var after := Turn(r, capacity, reorder, p, draw);
            Turn(Spread(r.queue, bypassed + r.bypassed, taken + r.taken), capacity, reorder, p, draw)
            == Spread(after.queue, bypassed + after.bypassed, taken + after.taken)
  {
    Regroup(bypassed, r.bypassed, [p]);
  }

  lemma {:induction false} TurnsFront<T>(q: seq<Entry<T>>, capacity: nat, reorder: bool,
                                         input: seq<T>, draws: seq<Option<nat>>, n: nat, k: nat)
    requires k <= n <= |input| <= |draws|
    ensures Turns(q, capacity, reorder, input[..n], draws, k) == Turns(q, capacity, reorder, input, draws, k)
  {
    if k > 0 {
      TurnsFront(q, capacity, reorder, input, draws, n, k - 1);
      hide Turn;
    }
  }

  /** A turn takes its packet exactly when there is a slot for it, and for its marker if it has
      one; a marker with one slot fills the queue, and nothing else is done on a full queue. */
  lemma TurnTakes<T>(s: Spread<T>, capacity: nat, reorder: bool, p: T, draw: Option<nat>)
    ensures var after := Turn(s, capacity, reorder, p, draw);
            && (if |s.queue| + (if draw.Some? then 2 else 1) <= capacity
                then after.taken == s.taken + 1
                     && (if draw.None? && reorder
                         then after.queue == s.queue && after.bypassed == s.bypassed + [p]
                         else after.queue != s.queue && after.queue[|after.queue| - 1] == Pkt(p)
                              && after.bypassed == s.bypassed)
                else after.taken == s.taken && after.bypassed == s.bypassed && |after.queue| >= capacity)
            && (|s.queue| >= capacity ==> after == s)
            && |after.queue| <= Max(|s.queue|, capacity)
  {
  }

  /** The reference run, with the packets taken and those among them that were queued. */
  datatype RefJitter<T> = RefJitter(spread: RefSpread<T>, sent: seq<T>, taken: seq<T>, queued: seq<T>)

  function RefJitterStep<T>(r: RefJitter<T>, reorder: bool, e: JitterEvent<T>, taken: Taken): RefJitter<T> {
    match e
    case Offer(p, draw) =>
      var spread := RefTurn(r.spread, reorder, p, draw, taken);
      if !taken.Whole? then r.(spread := spread)
      else RefJitter(spread, r.sent, r.taken + [p], if reorder && draw.None? then r.queued else r.queued + [p])
    case PullNow(now) =>
      var released := Release(r.spread.queue, now);
      r.(spread := r.spread.(queue := released.kept), sent := r.sent + released.sent)
  }

  /** What an event takes in. */
  function Takes<T>(s: JitterState<T>, capacity: nat, e: JitterEvent<T>): Taken {
    if s.Working? && e.Offer? then TakenBy(s.spread, capacity, e.draw) else Nothing
  }

  function RefRun<T>(capacity: nat, reorder: bool, es: seq<JitterEvent<T>>): RefJitter<T> {
    if |es| == 0 then RefJitter(RefSpread([], 0, []), [], [], [])
    else
      var front, e := es[..|es| - 1], es[|es| - 1];
      RefJitterStep(RefRun(capacity, reorder, front), reorder, e,
                    Takes(RunJitter(capacity, reorder, front), capacity, e))
  }

  /** The time of the last pull. */
  function LastPull<T>(es: seq<JitterEvent<T>>): nat {
    if |es| == 0 then 0
    else if es[|es| - 1].PullNow? then es[|es| - 1].now else LastPull(es[..|es| - 1])
  }

  /** Engine time does not go back. */
  predicate PullsInTime<T>(es: seq<JitterEvent<T>>) {
    |es| > 0 ==>
      var front, e := es[..|es| - 1], es[|es| - 1];
      PullsInTime(front) && (e.PullNow? ==> LastPull(front) <= e.now)
  }

  ghost predicate RunStands<T>(s: JitterState<T>, r: RefJitter<T>, past: nat) {
    s.Working? && s.sent == r.sent && Stand(s.spread, r.spread, past)
  }

  lemma JitterStepStands<T>(s: JitterState<T>, r: RefJitter<T>, past: nat, clock: nat,
                            capacity: nat, reorder: bool, e: JitterEvent<T>)
    returns (past': nat)
    requires RunStands(s, r, past) && past <= clock && JitterStep(s, capacity, reorder, e).Working?
    requires e.PullNow? ==> clock <= e.now
    ensures past' <= if e.PullNow? then e.now else clock
    ensures RunStands(JitterStep(s, capacity, reorder, e),
                      RefJitterStep(r, reorder, e, Takes(s, capacity, e)), past')
  {
    past' := past;
    if e.Offer? {
      TurnRefines(s.spread, r.spread, past, capacity, reorder, e.p, e.draw);
      hide Turn, RefTurn, Stand, TakenBy, Alternates;
    } else {
      hide Stamps, Latest, Alternates, Drain, Release;
      past' := DrainRefines(s.spread.queue, past, e.now);
    }
  }

  /** As long as no pull has panicked, what was sent and what was forwarded at once are exactly
      the reference's: a packet leaves when the latest marker at or before it is due. */
  lemma {:induction false} JitterRefines<T>(capacity: nat, reorder: bool, es: seq<JitterEvent<T>>)
    returns (past: nat)
    requires PullsInTime(es) && RunJitter(capacity, reorder, es).Working?
    ensures past <= LastPull(es)
    ensures var s, r := RunJitter(capacity, reorder, es), RefRun(capacity, reorder, es);
            && s.sent == r.sent && s.spread.bypassed == r.spread.bypassed && RunStands(s, r, past)
  {
    past := 0;
    if |es| > 0 {
      var front, e := es[..|es| - 1], es[|es| - 1];
      past := JitterRefines(capacity, reorder, front);
      past := JitterStepStands(RunJitter(capacity, reorder, front), RefRun(capacity, reorder, front),
                               past, LastPull(front), capacity, reorder, e);
    }
  }

  /** Pull `i` finds a due marker with no packet behind it. */
  predicate PullsHole<T>(capacity: nat, reorder: bool, es: seq<JitterEvent<T>>, i: nat)
    requires i < |es|
  {
    var s := RunJitter(capacity, reorder, es[..i]);
    es[i].PullNow? && s.Working? && DueHole(s.spread.queue, es[i].now)
  }

  /** A run of the Jitter app panics exactly when one of its pulls finds, all due, a marker with
      no packet behind it and everything before it. */
  lemma {:induction false} JitterPanicsExactly<T>(capacity: nat, reorder: bool, es: seq<JitterEvent<T>>)
    ensures RunJitter(capacity, reorder, es).Panicked?
            <==> exists i :: 0 <= i < |es| && PullsHole(capacity, reorder, es, i)
  {
    if |es| > 0 {
      var n, e := |es| - 1, es[|es| - 1];
      var s := RunJitter(capacity, reorder, es[..n]);
      JitterPanicsExactly(capacity, reorder, es[..n]);
      assert RunJitter(capacity, reorder, es) == JitterStep(s, capacity, reorder, e);
      assert forall i :: 0 <= i < n ==> es[..n][..i] == es[..i];
      assert forall i :: 0 <= i < n ==> PullsHole(capacity, reorder, es[..n], i) == PullsHole(capacity, reorder, es, i);
      if s.Working? && e.PullNow? {
        DrainPanics(s.spread.queue, e.now);
      }
      assert PullsHole(capacity, reorder, es, n) <==> s.Working? && e.PullNow? && DueHole(s.spread.queue, e.now);
      hide RunJitter, Drain, DueHole, PullsHole, Turn;
    }
  }

  /** So a run in which no marker takes the last free slot does not panic. */
  lemma {:induction false} NoLastSlotNoPanic<T>(capacity: nat, reorder: bool, es: seq<JitterEvent<T>>)
    requires forall i :: 0 <= i < |es| ==> !MarkerAt(capacity, reorder, es, i)
    ensures var s := RunJitter(capacity, reorder, es); s.Working? && Alternates(s.spread.queue)
  {
    if |es| > 0 {
      var n, e := |es| - 1, es[|es| - 1];
      assert forall i :: 0 <= i < n ==> es[..n][..i] == es[..i];
      assert forall i :: 0 <= i < n ==> MarkerAt(capacity, reorder, es[..n], i) == MarkerAt(capacity, reorder, es, i);
      NoLastSlotNoPanic(capacity, reorder, es[..n]);
      assert !MarkerAt(capacity, reorder, es, n);
      var s := RunJitter(capacity, reorder, es[..n]);
      assert RunJitter(capacity, reorder, es) == JitterStep(s, capacity, reorder, e);
      hide RunJitter, Drain, Turn, Alternates;
      if e.PullNow? {
        PullWithoutHoles(s.spread.queue, e.now);
      } else {
        TurnAlternates(s.spread, capacity, reorder, e.p, e.draw);
      }
    }
  }

  /** Offer `i` puts a marker in the last free slot. */
  predicate MarkerAt<T>(capacity: nat, reorder: bool, es: seq<JitterEvent<T>>, i: nat)
    requires i < |es|
  {
    var s := RunJitter(capacity, reorder, es[..i]);
    es[i].Offer? && s.Working? && LastSlot(s.spread, capacity, es[i].draw)
  }

  /** But one that does may get its packet later, and then the run goes on. */
  lemma LastSlotFilled<T>(a: T, b: T)
    ensures var es := [Offer(a, None), Offer(b, Some(5)), PullNow(0), Offer(b, None), PullNow(5)];
            && MarkerAt(2, false, es, 1)
            && RunJitter(2, false, es).Working? && RunJitter(2, false, es).sent == [a, b]
  {
    var es := [Offer(a, None), Offer(b, Some(5)), PullNow(0), Offer(b, None), PullNow(5)];
    var q1 := [Pkt(a)];
    assert es[..5] == es && es[..5][..4] == es[..4] && es[..4][..3] == es[..3] && es[..3][..2] == es[..2];
    assert es[..2][..1] == es[..1] && es[..1][..0] == [];
    assert RunJitter(2, false, es[..1]) == Working(Spread([Pkt(a)], [], 1), []);
    assert RunJitter(2, false, es[..2]) == Working(Spread([Pkt(a), Delay(5)], [], 1), []);
    assert Drain([Pkt(a), Delay(5)], 0) == Drained([a], [Delay(5)]) by {
      assert [Pkt(a), Delay(5)][1..] == [Delay(5)];
      assert Drain<T>([Delay(5)], 0) == Drained([], [Delay(5)]);
    }
    assert RunJitter(2, false, es[..3]) == Working(Spread([Delay(5)], [], 1), [a]);
    assert RunJitter(2, false, es[..4]) == Working(Spread([Delay(5), Pkt(b)], [], 2), [a]);
    assert Drain([Delay(5), Pkt(b)], 5) == Drained([b], []) by {
      assert [Delay(5), Pkt(b)][1..] == [Pkt(b)] && [Pkt(b)][1..] == [];
    }
    assert RunJitter(2, false, es) == JitterStep(RunJitter(2, false, es[..4]), 2, false, es[4]);
  }

  /** What was queued left in order, or is still queued in order. */
  ghost predicate InOrder<T>(r: RefJitter<T>) {
    r.sent + Unstamped(r.spread.queue) == r.queued
  }

  /** Every packet taken is forwarded at once or queued, never both; without reordering, queued. */
  ghost predicate Routed<T>(r: RefJitter<T>, reorder: bool) {
    && multiset(r.taken) == multiset(r.queued) + multiset(r.spread.bypassed)
    && (!reorder ==> r.queued == r.taken && r.spread.bypassed == [])
  }

  lemma {:induction false} JitterConserves<T>(capacity: nat, reorder: bool, es: seq<JitterEvent<T>>)
    ensures InOrder(RefRun(capacity, reorder, es))
    ensures Routed(RefRun(capacity, reorder, es), reorder)
  {
    JitterStart<T>(capacity, reorder);
    hide InOrder, Routed, RefJitterStep, RunJitter, Takes;
    if |es| > 0 {
      var front, e := es[..|es| - 1], es[|es| - 1];
      JitterConserves(capacity, reorder, front);
      StepConserves(RefRun(capacity, reorder, front), reorder, e,
                    Takes(RunJitter(capacity, reorder, front), capacity, e));
    } else {
      assert es == [];
    }
  }

  lemma JitterStart<T>(capacity: nat, reorder: bool)
    ensures InOrder(RefRun<T>(capacity, reorder, [])) && Routed(RefRun<T>(capacity, reorder, []), reorder)
  {
  }

  lemma StepConserves<T>(r: RefJitter<T>, reorder: bool, e: JitterEvent<T>, taken: Taken)
    requires InOrder(r) && Routed(r, reorder)
    ensures InOrder(RefJitterStep(r, reorder, e, taken)) && Routed(RefJitterStep(r, reorder, e, taken), reorder)
  {
    StepRouted(r, reorder, e, taken);
    hide Routed;
    if e.PullNow? {
      PullInOrder(r, reorder, e.now);
      hide InOrder;
    } else if taken.Whole? {
      TakeInOrder(r, reorder, e.p, e.draw);
      hide InOrder;
    }
  }

  lemma StepRouted<T>(r: RefJitter<T>, reorder: bool, e: JitterEvent<T>, taken: Taken)
    requires Routed(r, reorder)
    ensures Routed(RefJitterStep(r, reorder, e, taken), reorder)
  {
    hide Release, Max;
    if e.Offer? && taken.Whole? {
      WholeRouted(r, reorder, e.p, e.draw);
      hide Routed;
    }
  }

  lemma WholeRouted<T>(r: RefJitter<T>, reorder: bool, p: T, draw: Option<nat>)
    requires Routed(r, reorder)
    ensures Routed(RefJitterStep(r, reorder, Offer(p, draw), Whole), reorder)
  {
    var after := RefJitterStep(r, reorder, Offer(p, draw), Whole);
    assert multiset(after.taken) == multiset(r.taken) + multiset([p]);
    hide Max;
  }

  lemma PullInOrder<T>(r: RefJitter<T>, reorder: bool, now: nat)
    requires InOrder(r)
    ensures InOrder(RefJitterStep(r, reorder, PullNow(now), Nothing))
  {
    ReleaseExact(r.spread.queue, now);
    var n := |Release(r.spread.queue, now).sent|;
    var gone, kept := r.spread.queue[..n], r.spread.queue[n..];
    assert gone + kept == r.spread.queue;
    assert RefJitterStep(r, reorder, PullNow(now), Nothing)
        == r.(spread := r.spread.(queue := kept), sent := r.sent + Unstamped(gone));
    UnstampedAppend(gone, kept);
    Regroup(r.sent, Unstamped(gone), Unstamped(kept));
    hide Unstamped, Release, RefJitterStep;
  }

  lemma TakeInOrder<T>(r: RefJitter<T>, reorder: bool, p: T, draw: Option<nat>)
    requires InOrder(r)
    ensures InOrder(RefJitterStep(r, reorder, Offer(p, draw), Whole))
  {
    var stamp := Stamped(p, if draw.Some? then Max(r.spread.high, draw.value) else r.spread.high);
    UnstampedAppend(r.spread.queue, [stamp]);
    assert Unstamped([stamp]) == [p];
    Regroup(r.sent, Unstamped(r.spread.queue), [p]);
  }

  // What a run takes in

  /** Everything offered, in order. */
  function AllOffered<T>(es: seq<JitterEvent<T>>): seq<T> {
    if |es| == 0 then []
    else AllOffered(es[..|es| - 1]) + if es[|es| - 1].Offer? then [es[|es| - 1].p] else []
  }

  /** The slots that a run's packets and their markers take, were none ever sent. */
  function SlotsFor<T>(es: seq<JitterEvent<T>>): nat {
    if |es| == 0 then 0
    else
      var e := es[|es| - 1];
      SlotsFor(es[..|es| - 1]) + if e.PullNow? then 0 else if e.draw.Some? then 2 else 1
  }

  /** Where the capacity is enough for a run, every packet offered is taken and no pull panics. */
  lemma {:induction false} EverythingTaken<T>(capacity: nat, reorder: bool, es: seq<JitterEvent<T>>)
    requires SlotsFor(es) <= capacity
    ensures var s := RunJitter(capacity, reorder, es);
            && s.Working? && Alternates(s.spread.queue) && |s.spread.queue| <= SlotsFor(es)
            && RefRun(capacity, reorder, es).taken == AllOffered(es)
  {
    if |es| > 0 {
      var e := es[|es| - 1];
      EverythingTaken(capacity, reorder, es[..|es| - 1]);
      var s := RunJitter(capacity, reorder, es[..|es| - 1]);
      assert RunJitter(capacity, reorder, es) == JitterStep(s, capacity, reorder, e);
      hide RunJitter, Drain, Turn, Alternates, Release, Max;
      if e.PullNow? {
        PullWithoutHoles(s.spread.queue, e.now);
        var k := DrainSuffix(s.spread.queue, e.now);
      } else {
        TurnAlternates(s.spread, capacity, reorder, e.p, e.draw);
        TurnGrows(s.spread, capacity, reorder, e.p, e.draw);
      }
    }
  }

  lemma TurnGrows<T>(s: Spread<T>, capacity: nat, reorder: bool, p: T, draw: Option<nat>)
    ensures |Turn(s, capacity, reorder, p, draw).queue| <= |s.queue| + if draw.Some? then 2 else 1
  {
  }

  // Loss

  /** The packets that the draws let through. */
  function Survivors<T>(ps: seq<T>, keep: seq<bool>): seq<T>
    requires |ps| <= |keep|
  {
    if |ps| == 0 then []
    else
      var before := Survivors(ps[..|ps| - 1], keep);
      if keep[|ps| - 1] then before + [ps[|ps| - 1]] else before
  }

  /** How many of the first `k` draws let their packet through. */
  function Kept(keep: seq<bool>, k: nat): nat
    requires k <= |keep|
  {
    if k == 0 then 0 else Kept(keep, k - 1) + if keep[k - 1] then 1 else 0
  }

  /** Each packet let through is at the place that those let through before it leave, and no
      other packet is among the survivors. */
  lemma {:induction false} SurvivorsExactly<T>(ps: seq<T>, keep: seq<bool>)
    requires |ps| <= |keep|
    ensures var r := Survivors(ps, keep);
            && |r| == Kept(keep, |ps|)
            && forall i :: 0 <= i < |ps| && keep[i] ==> Kept(keep, i) < |r| && r[Kept(keep, i)] == ps[i]
  {
    if |ps| > 0 {
      var n := |ps| - 1;
      SurvivorsExactly(ps[..n], keep);
      assert forall i :: 0 <= i < n ==> ps[..n][i] == ps[i];
      hide Survivors;
      SurvivorsNext(ps, keep, n);
      assert ps[..n + 1] == ps;
    }
  }

  /** Where the push loop is after `k` turns over what was waiting. */
  ghost predicate LossReached<T(0)>(waiting: seq<T>, start: History<T>, k: nat,
                                    input: Link<T>, output: Link<T>, keep: seq<bool>)
    requires |waiting| <= |keep|
    reads input, input.packets, output, output.packets
  {
    && input.Valid() && output.Valid() && input != output && input.packets != output.packets
    && k <= |waiting| && input.Contents() == waiting[k..]
    && output.history == SendAll(start, Survivors(waiting[..k], keep))
  }

  method LossPush<T(0)>(input: Link<T>, output: Link<T>, keep: seq<bool>)
    requires input.Valid() && output.Valid() && input != output && input.packets != output.packets
    requires |keep| >= |input.Contents()|
    modifies input, output, output.packets
    ensures input.Valid() && output.Valid() && input.Contents() == []
    ensures output.history == SendAll(old(output.history), Survivors(old(input.Contents()), keep))
  {
    ghost var waiting, start := input.Contents(), output.history;
    var k: nat := 0;
    input.Cursors();
    SendNone(start);
    assert Survivors(waiting[..0], keep) == [] && waiting[0..] == waiting;
    assert LossReached(waiting, start, 0, input, output, keep);
    hide Link.Valid, LossReached, Survivors, SendAll;
    while !input.Empty()
      invariant k <= |waiting| && LossReached(waiting, start, k, input, output, keep)
      invariant input.Empty() <==> k == |waiting|
      decreases |waiting| - k
    {
      LossOne(waiting, start, k, input, output, keep);
      k := k + 1;
    }
    LossEnd(waiting, start, input, output, keep);
  }

  lemma LossEnd<T(0)>(waiting: seq<T>, start: History<T>, input: Link<T>, output: Link<T>, keep: seq<bool>)
    requires |waiting| <= |keep| && LossReached(waiting, start, |waiting|, input, output, keep)
    ensures input.Valid() && output.Valid() && input.Contents() == []
    ensures output.history == SendAll(start, Survivors(waiting, keep))
  {
    assert waiting[..|waiting|] == waiting;
  }

  method LossOne<T(0)>(ghost waiting: seq<T>, ghost start: History<T>, k: nat,
                       input: Link<T>, output: Link<T>, keep: seq<bool>)
    requires |waiting| <= |keep| && LossReached(waiting, start, k, input, output, keep) && k < |waiting|
    modifies input, output, output.packets
    ensures LossReached(waiting, start, k + 1, input, output, keep)
    ensures input.Empty() <==> k + 1 == |waiting|
  {
    SurvivorsNext(waiting, keep, k);
    assert waiting[k..][1..] == waiting[k + 1..] && waiting[k..][0] == waiting[k];
    SendOneMore(start, Survivors(waiting[..k], keep), waiting[k]);
    hide Link.Valid, Survivors, SendAll, Step;
    Pass(input, output, keep[k]);
    input.Cursors();
  }

  method Pass<T(0)>(input: Link<T>, output: Link<T>, keep: bool)
    requires input.Valid() && output.Valid() && input != output && input.packets != output.packets
    requires input.Contents() != []
    modifies input, output, output.packets
    ensures input.Valid() && output.Valid() && input.Contents() == old(input.Contents())[1..]
    ensures output.history == if keep then Step(old(output.history), Send(old(input.Contents())[0]))
                              else old(output.history)
  {
    hide *;
    var p := input.Receive();
    if keep {
      output.Transmit(p);
    }
  }

  lemma SurvivorsNext<T>(ps: seq<T>, keep: seq<bool>, k: nat)
    requires k < |ps| <= |keep|
    ensures Survivors(ps[..k + 1], keep)
            == if keep[k] then Survivors(ps[..k], keep) + [ps[k]] else Survivors(ps[..k], keep)
  {
    assert ps[..k + 1][..k] == ps[..k];
  }
}
