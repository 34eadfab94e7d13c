/** `rush/src/link.rs`: a unidirectional link, a ring buffer with two cursors and counters.
    A packet on a link has one owner and cannot change, so the ring holds packet values. */
module Links {
  import opened Words
  import opened Wrappers

  const LINK_RING_SIZE: nat := 1024
  const LINK_MAX_PACKETS: nat := LINK_RING_SIZE - 1

  /** The total length of some packets. */
  function Bytes<T>(size: T -> u16, q: seq<T>): nat {
    if |q| == 0 then 0 else Bytes(size, q[..|q| - 1]) + size(q[|q| - 1])
  }

  lemma BytesAppend<T>(size: T -> u16, q: seq<T>, p: T)
    ensures Bytes(size, q + [p]) == Bytes(size, q) + size(p)
  {
    assert (q + [p])[..|q|] == q;
  }

  lemma {:induction false} BytesSplit<T>(size: T -> u16, a: seq<T>, b: seq<T>)
    ensures Bytes(size, a + b) == Bytes(size, a) + Bytes(size, b)
  {
    if |b| == 0 {
      assert a + b == a;
    } else {
      BytesSplit(size, a, b[..|b| - 1]);
      assert (a + b)[..|a + b| - 1] == a + b[..|b| - 1];
    }
  }

  /** What a ring of `LINK_RING_SIZE` slots holds between its cursors. */
  function Between<T>(ring: seq<T>, read: nat, write: nat): seq<T>
    requires read < |ring| && write < |ring|
  {
    if read <= write then ring[read..write] else ring[read..] + ring[..write]
  }

  /** A cursor's next position. The source masks with `SIZE - 1`; the size is a power of two. */
  function Next(cursor: nat): (n: nat)
    requires cursor < LINK_RING_SIZE
    ensures n == if cursor + 1 == LINK_RING_SIZE then 0 else cursor + 1
  {
    (cursor + 1) % LINK_RING_SIZE
  }

  lemma BetweenRead<T>(ring: seq<T>, read: nat, write: nat)
    requires |ring| == LINK_RING_SIZE && read < |ring| && write < |ring| && read != write
    ensures Between(ring, read, write) == [ring[read]] + Between(ring, Next(read), write)
  {
    hide Next;
    if read + 1 == |ring| {
      assert ring[read..] == [ring[read]] && Next(read) == 0;
    }
  }

  lemma BetweenWrite<T>(ring: seq<T>, read: nat, write: nat, p: T)
    requires |ring| == LINK_RING_SIZE && read < |ring| && write < |ring| && Next(write) != read
    ensures Between(ring[write := p], read, Next(write)) == Between(ring, read, write) + [p]
  {
    hide Next;
    if write + 1 == |ring| {
      assert Next(write) == 0;
    }
  }

  lemma TailIs<T>(x: T, rest: seq<T>, q: seq<T>)
    requires q == [x] + rest
    ensures q[0] == x && q[1..] == rest
  {
  }

  class Link<T(0)> {
    const packets: array<T>
    const size: T -> u16  // packet length, for the byte counters
    var read: nat
    var write: nat
    var txpackets: nat
    var txbytes: nat
    var txdrop: nat
    var rxpackets: nat
    var rxbytes: nat
    ghost var history: History<T>  // everything this link was given and gave back

    /** The ring holds the history's queue, the counters measure the history, and what was
        received and what is queued is what was sent, in order. */
    ghost predicate Valid()
      reads this, packets
    {
      && packets.Length == LINK_RING_SIZE
      && read < LINK_RING_SIZE && write < LINK_RING_SIZE
      && history.queue == Between(packets[..], read, write)
      && history.received + history.queue == history.sent
      && txpackets == |history.sent| && txbytes == Bytes(size, history.sent)
      && rxpackets == |history.received| && rxbytes == Bytes(size, history.received)
      && txdrop == |history.dropped|
    }

    ghost function Contents(): seq<T>
      reads this
    {
      history.queue
    }

    constructor (size: T -> u16)
      ensures Valid() && fresh(packets) && this.size == size
      ensures history == Start()
    {
      packets := new T[LINK_RING_SIZE];
      this.size := size;
      read, write := 0, 0;
      txpackets, txbytes, txdrop, rxpackets, rxbytes := 0, 0, 0, 0, 0;
      history := Start();
    }

    predicate Empty()
      reads this
    {
      read == write
    }

    predicate Full()
      requires write < LINK_RING_SIZE
      reads this
    {
      Next(write) == read
    }

    /** The cursor tests mean what their names say, and the ring never holds more than 1023. */
    lemma Cursors()
      requires Valid()
      ensures Empty() <==> Contents() == []
      ensures Full() <==> |Contents()| == LINK_MAX_PACKETS
      ensures |Contents()| <= LINK_MAX_PACKETS
    {
    }

    /** The counters of sent and received packets differ by the packets queued, and those of
        bytes by the bytes queued. */
    lemma Counters()
      requires Valid()
      ensures txpackets - rxpackets == |Contents()|
      ensures txbytes - rxbytes == Bytes(size, Contents())
      ensures txpackets + txdrop == |history.sent| + |history.dropped|
    {
      BytesSplit(size, history.received, history.queue);
      hide Between, Bytes;
    }

    method Receive() returns (p: T)
      requires Valid() && Contents() != []
      modifies this`read, this`rxpackets, this`rxbytes, this`history
      ensures Valid()
      ensures history == Step(old(history), Recv)
      ensures p == old(Contents())[0] && Contents() == old(Contents())[1..]
    {
      Cursors();
      hide Between, Next, Bytes;
      BetweenRead(packets[..], read, write);
      TailIs(packets[read], Between(packets[..], Next(read), write), history.queue);
      BytesAppend(size, history.received, packets[read]);
      StepInOrder(history, Recv);
      p := packets[read];
      read := Next(read);
      rxpackets := rxpackets + 1;
      rxbytes := rxbytes + size(p);
      history := Step(history, Recv);
    }

    /** Enqueue at the tail, or drop when full. */
    method Transmit(p: T)
      requires Valid()
      modifies this`write, this`txpackets, this`txbytes, this`txdrop, this`history, packets
      ensures Valid()
      ensures history == Step(old(history), Send(p))
    {
      Cursors();
      if Full() {
        txdrop := txdrop + 1;
        history := Step(history, Send(p));
      } else {
        hide Between, Next, Bytes;
        Enqueue(p);
      }
    }

    lemma Room()
      requires Valid() && !Full()
      ensures Next(write) != read && Next(write) < LINK_RING_SIZE
    {
    }

    method Enqueue(p: T)
      requires Valid() && !Full() && |Contents()| < LINK_MAX_PACKETS
      modifies this`write, this`txpackets, this`txbytes, this`history, packets
      ensures Valid()
      ensures history == Step(old(history), Send(p))
    {
      hide Between, Next, Bytes, Full;
      Room();
      BytesAppend(size, history.sent, p);
      StepInOrder(history, Send(p));
      BetweenWrite(packets[..], read, write, p);
      ghost var after := packets[..][write := p];
      txpackets := txpackets + 1;
      txbytes := txbytes + size(p);
      packets[write] := p;
      write := Next(write);
      history := Step(history, Send(p));
      assert packets[..] == after;
    }
  }

  /** A bounded FIFO offered some packets keeps those that fit. */
  function Offer<T>(queue: seq<T>, offered: seq<T>): seq<T> {
    var all := queue + offered;
    if |queue| >= LINK_MAX_PACKETS then queue
    else if |all| <= LINK_MAX_PACKETS then all else all[..LINK_MAX_PACKETS]
  }

  lemma SendOffers<T>(h: History<T>, p: T)
    requires |h.queue| <= LINK_MAX_PACKETS
    ensures Step(h, Send(p)).queue == Offer(h.queue, [p])
  {
  }

  lemma OfferInSteps<T>(queue: seq<T>, a: seq<T>, b: seq<T>)
    ensures Offer(Offer(queue, a), b) == Offer(queue, a + b)
  {
    assert queue + (a + b) == queue + a + b;
  }

  // Whole runs

  /** An operation on a link, and a link seen from outside: everything sent and received so far. */
  datatype Op<T> = Send(p: T) | Recv
  datatype History<T> = History(queue: seq<T>, sent: seq<T>, dropped: seq<T>, received: seq<T>)

  function Start<T>(): History<T> {
    History([], [], [], [])
  }

  /** A first-in first-out queue of capacity 1023: what `Transmit` and `Receive` refine. */
  function Step<T>(h: History<T>, op: Op<T>): History<T>
    requires op.Recv? ==> h.queue != []
  {
    match op
    case Send(p) =>
      if |h.queue| < LINK_MAX_PACKETS then h.(queue := h.queue + [p], sent := h.sent + [p])
      else h.(dropped := h.dropped + [p])
    case Recv => h.(queue := h.queue[1..], received := h.received + [h.queue[0]])
  }

  /** Sending some packets one after the other. */
  function SendAll<T>(h: History<T>, ps: seq<T>): History<T> {
    if |ps| == 0 then h else Step(SendAll(h, ps[..|ps| - 1]), Send(ps[|ps| - 1]))
  }

  lemma SendNone<T>(h: History<T>)
    ensures SendAll(h, []) == h
  {
  }

  lemma SendOneMore<T>(h: History<T>, ps: seq<T>, p: T)
    ensures SendAll(h, ps + [p]) == Step(SendAll(h, ps), Send(p))
  {
    assert (ps + [p])[..|ps|] == ps;
  }

  lemma SendNext<T>(h: History<T>, ps: seq<T>, k: nat)
    requires k < |ps|
    ensures SendAll(h, ps[..k + 1]) == Step(SendAll(h, ps[..k]), Send(ps[k]))
  {
    assert ps[..k + 1][..k] == ps[..k];
  }

  /** A link keeps what fits of the packets sent, in order, and drops the rest. */
  lemma {:induction false} SendAllOffers<T>(h: History<T>, ps: seq<T>)
    requires |h.queue| <= LINK_MAX_PACKETS
    ensures var r := SendAll(h, ps);
            && r.queue == Offer(h.queue, ps)
            && r.received == h.received
            && |r.queue| <= LINK_MAX_PACKETS
            && |r.sent| - |h.sent| == |r.queue| - |h.queue|
            && |r.sent| + |r.dropped| == |h.sent| + |h.dropped| + |ps|
  {
    if |ps| > 0 {
      var front, last := ps[..|ps| - 1], ps[|ps| - 1];
      SendAllOffers(h, front);
      SendOffers(SendAll(h, front), last);
      OfferInSteps(h.queue, front, [last]);
      assert front + [last] == ps;
    }
  }

  /** The state after some operations, or None when one of them receives from an empty link. */
  function Run<T>(ops: seq<Op<T>>): Option<History<T>> {
    if |ops| == 0 then Some(Start())
    else
      var op := ops[|ops| - 1];
      match Run(ops[..|ops| - 1])
      case None => None
      case Some(h) => if op.Recv? && h.queue == [] then None else Some(Step(h, op))
  }

  /** The packets a run offers, in order. */
  function Offered<T>(ops: seq<Op<T>>): seq<T> {
    if |ops| == 0 then []
    else
      var op := ops[|ops| - 1];
      Offered(ops[..|ops| - 1]) + (if op.Send? then [op.p] else [])
  }

  lemma RunLast<T>(ops: seq<Op<T>>)
    requires Run(ops).Some? && |ops| > 0
    ensures Run(ops[..|ops| - 1]).Some?
    ensures var h, op := Run(ops[..|ops| - 1]).value, ops[|ops| - 1];
            (op.Recv? ==> h.queue != []) && Run(ops) == Some(Step(h, op))
  {
  }

  lemma StepInOrder<T>(h: History<T>, op: Op<T>)
    requires h.received + h.queue == h.sent && (op.Recv? ==> h.queue != [])
    ensures Step(h, op).received + Step(h, op).queue == Step(h, op).sent
  {
    if op.Recv? {
      assert h.received + [h.queue[0]] + h.queue[1..] == h.received + h.queue;
    } else {
      assert h.received + (h.queue + [op.p]) == h.received + h.queue + [op.p];
    }
  }

  lemma StepKeepsOrder<T>(h: History<T>, op: Op<T>)
    requires h.received + h.queue == h.sent && |h.queue| <= LINK_MAX_PACKETS && (op.Recv? ==> h.queue != [])
    ensures var r := Step(h, op);
            && r.received + r.queue == r.sent && |r.queue| <= LINK_MAX_PACKETS
            && multiset(r.sent) + multiset(r.dropped)
               == multiset(h.sent) + multiset(h.dropped) + multiset(if op.Send? then [op.p] else [])
  {
    StepInOrder(h, op);
  }

  /** First in, first out, on every run: what was received, followed by what is queued, is
      exactly what was accepted, and each offered packet was accepted or dropped. */
  lemma {:induction false} FirstInFirstOut<T>(ops: seq<Op<T>>)
    requires Run(ops).Some?
    ensures var h := Run(ops).value;
            && h.received + h.queue == h.sent
            && |h.sent| - |h.received| == |h.queue| <= LINK_MAX_PACKETS
            && (forall size: T -> u16 :: Bytes(size, h.sent) - Bytes(size, h.received) == Bytes(size, h.queue))
            && multiset(Offered(ops)) == multiset(h.sent) + multiset(h.dropped)
  {
    if |ops| > 0 {
      var front, op := ops[..|ops| - 1], ops[|ops| - 1];
      FirstInFirstOut(front);
      StepKeepsOrder(Run(front).value, op);
      hide Step, Run, Bytes;
      assert Run(ops) == Some(Step(Run(front).value, op)) by { RunLast(ops); }
    }
    hide Bytes, Run;
    var h := Run(ops).value;
    forall size: T -> u16 ensures Bytes(size, h.sent) - Bytes(size, h.received) == Bytes(size, h.queue) {
      BytesSplit(size, h.received, h.queue);
    }
  }
}
