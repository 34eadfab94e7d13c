/** The delay queue of `rush/src/qos.rs`, one queue of time markers and packets, and what it
    means for a packet on it to be due. Time is in nanoseconds. */
module DelayQueues {
  import opened Links

  datatype Entry<T> = Delay(ttx: nat) | Pkt(p: T)

  /** What one pull does: the packets sent and the entries kept, or a panic. */
  datatype Drained<T> = Drained(sent: seq<T>, kept: seq<Entry<T>>) | Panic

  /** The pull loop: while the head is a packet or a due marker, drop the marker and send a
      packet. A due marker with no packet behind it panics. */
  function Drain<T>(q: seq<Entry<T>>, now: nat): Drained<T> {
    if q == [] || (q[0].Delay? && q[0].ttx > now) then Drained([], q)
    else
      var rest := if q[0].Delay? then q[1..] else q;
      if rest == [] || rest[0].Delay? then Panic
      else
        match Drain(rest[1..], now)
        case Panic => Panic
        case Drained(sent, kept) => Drained([rest[0].p] + sent, kept)
  }

  // When a pull panics

  /** A marker with no packet behind it. */
  predicate Hole<T>(q: seq<Entry<T>>, i: nat)
    requires i < |q|
  {
    q[i].Delay? && (i + 1 == |q| || q[i + 1].Delay?)
  }

  /** Every marker is followed by a packet. */
  predicate Alternates<T>(q: seq<Entry<T>>) {
    forall i :: 0 <= i < |q| ==> !Hole(q, i)
  }

  /** Everything up to an entry is due. */
  predicate Due<T>(q: seq<Entry<T>>, i: nat, now: nat)
    requires i < |q|
  {
    forall j :: 0 <= j <= i && q[j].Delay? ==> q[j].ttx <= now
  }

  predicate DueHole<T>(q: seq<Entry<T>>, now: nat) {
    exists i :: 0 <= i < |q| && Hole(q, i) && Due(q, i, now)
  }

  lemma DueHoleTail<T>(q: seq<Entry<T>>, k: nat, now: nat)
    requires k <= |q|
    requires forall j :: 0 <= j < k ==> !Hole(q, j)
    requires forall j :: 0 <= j < k && q[j].Delay? ==> q[j].ttx <= now
    ensures DueHole(q, now) <==> DueHole(q[k..], now)
  {
    var rest := q[k..];
    if i :| 0 <= i < |q| && Hole(q, i) && Due(q, i, now) {
      assert Hole(rest, i - k) && Due(rest, i - k, now) by {
        assert forall j :: 0 <= j < |rest| ==> rest[j] == q[j + k];
      }
    }
    if i :| 0 <= i < |rest| && Hole(rest, i) && Due(rest, i, now) {
      assert Hole(q, i + k) && Due(q, i + k, now) by {
        forall j | 0 <= j <= i + k && q[j].Delay? ensures q[j].ttx <= now {
          assert j >= k ==> rest[j - k] == q[j];
        }
      }
    }
  }

  /** A pull panics exactly when a marker with no packet behind it, and everything before it,
      is due. */
  lemma {:induction false} DrainPanics<T>(q: seq<Entry<T>>, now: nat)
    ensures Drain(q, now).Panic? <==> DueHole(q, now)
  {
    if q == [] {
    } else if q[0].Delay? && q[0].ttx > now {
      assert forall i :: 0 <= i < |q| ==> !Due(q, i, now);
    } else if q[0].Delay? && (|q| == 1 || q[1].Delay?) {
      assert Hole(q, 0) && Due(q, 0, now);
    } else {
      var k := if q[0].Delay? then 2 else 1;
      var rest := if q[0].Delay? then q[1..] else q;
      assert rest[1..] == q[k..];
      DrainPanics(q[k..], now);
      DueHoleTail(q, k, now);
    }
  }

  /** A pull keeps a tail of the queue, and what it takes off was due. */
  lemma {:induction false} DrainSuffix<T>(q: seq<Entry<T>>, now: nat) returns (k: nat)
    requires Drain(q, now).Drained?
    ensures k <= |q| && Drain(q, now).kept == q[k..] && DueBefore(q, k, now)
  {
    k := 0;
    if q != [] && !(q[0].Delay? && q[0].ttx > now) {
      var n := if q[0].Delay? then 2 else 1;
      var rest := if q[0].Delay? then q[1..] else q;
      assert rest[1..] == q[n..];
      assert Drain(q[n..], now).Drained? && Drain(q, now).kept == Drain(q[n..], now).kept;
      assert DueBefore(q, n, now);
      hide Drain, DueBefore;
      var m := DrainSuffix(q[n..], now);
      DueOn(q, n, m, now);
      k := n + m;
    }
  }

  predicate DueBefore<T>(q: seq<Entry<T>>, k: nat, now: nat)
    requires k <= |q|
  {
    forall j :: 0 <= j < k && q[j].Delay? ==> q[j].ttx <= now
  }

  lemma DueOn<T>(q: seq<Entry<T>>, n: nat, m: nat, now: nat)
    requires n <= |q| && m <= |q[n..]| && DueBefore(q, n, now) && DueBefore(q[n..], m, now)
    ensures q[n..][m..] == q[n + m..] && DueBefore(q, n + m, now)
  {
    forall j | 0 <= j < n + m && q[j].Delay? ensures q[j].ttx <= now {
      assert j >= n ==> q[n..][j - n] == q[j];
    }
  }

  class DelayQueue<T(0)> {
    var packets: seq<Entry<T>>
    const capacity: nat

    constructor (capacity: nat)
      ensures packets == [] && this.capacity == capacity
    {
      packets := [];
      this.capacity := capacity;
    }

    predicate Full()
      reads this
    {
      |packets| >= capacity
    }

    lemma FullIs()
      ensures Full() <==> |packets| >= capacity
    {
    }

    predicate Empty()
      reads this
    {
      packets == []
    }

    method EnqueueDelay(ttx: nat)
      requires !Full()
      modifies this
      ensures packets == old(packets) + [Delay(ttx)]
    {
      packets := packets + [Delay(ttx)];
    }

    method EnqueuePacket(p: T)
      requires !Full()
      modifies this
      ensures packets == old(packets) + [Pkt(p)]
    {
      packets := packets + [Pkt(p)];
    }

    /** Does the head ask for a transmission? Takes a due marker off on the way. */
    method NeedTx(now: nat) returns (tx: bool)
      requires !Empty()
      modifies this
      ensures tx <==> old(packets)[0].Pkt? || old(packets)[0].ttx <= now
      ensures packets == if tx && old(packets)[0].Delay? then old(packets)[1..] else old(packets)
    {
      match packets[0]
      case Pkt(_) =>
        tx := true;
      case Delay(ttx) =>
        tx := now >= ttx;
        if tx {
          packets := packets[1..];
        }
    }

    method DequeuePacket() returns (p: T)
      requires !Empty() && packets[0].Pkt?
      modifies this
      ensures old(packets) == [Pkt(p)] + packets
    {
      p := packets[0].p;
      packets := packets[1..];
    }

    /** The pull method of both apps. */
    method Pull(now: nat, output: Link<T>)
      requires output.Valid() && Drain(packets, now).Drained?
      modifies this, output, output.packets
      ensures output.Valid()
      ensures var r := Drain(old(packets), now);
              packets == r.kept && output.history == SendAll(old(output.history), r.sent)
    {
      ghost var r, start := Drain(packets, now), output.history;
      ghost var k: nat := 0;
      SendNone(start);
      assert r.sent[0..] == r.sent && r.sent[..0] == [];
      var tx := true;
      assert Pulling(r.sent, r.kept, start, now, k, tx, output);
      hide Pulling, Link.Valid;
      while !Empty() && tx
        invariant k <= |r.sent| && Pulling(r.sent, r.kept, start, now, k, tx, output)
        decreases tx, |packets|
      {
        tx := PullOne(r.sent, r.kept, start, now, k, output);
        k := if tx then k + 1 else k;
      }
      PullEnd(r.sent, r.kept, start, now, k, tx, output);
    }

    /** `k` packets were sent, and the rest are still to be drained unless the head said stop. */
    ghost predicate Pulling(sent: seq<T>, kept: seq<Entry<T>>, start: History<T>, now: nat, k: nat, tx: bool,
                            output: Link<T>)
      requires k <= |sent|
      reads this, output, output.packets
    {
      && output.Valid() && output.history == SendAll(start, sent[..k])
      && Drain(packets, now) == Drained(sent[k..], kept)
      && (!tx ==> packets == kept && k == |sent|)
    }

    method PullOne(ghost sent: seq<T>, ghost kept: seq<Entry<T>>, ghost start: History<T>, now: nat, ghost k: nat,
                   output: Link<T>) returns (tx: bool)
      requires k <= |sent| && Pulling(sent, kept, start, now, k, true, output) && !Empty()
      modifies this, output, output.packets
      ensures tx ==> k < |sent| && |packets| < |old(packets)|
      ensures Pulling(sent, kept, start, now, if tx then k + 1 else k, tx, output)
    {
      DrainHead(packets, now);
      hide Drain, SendAll, Step, Link.Valid;
      tx := NeedTx(now);
      if tx {
        var p := DequeuePacket();
        assert k < |sent| && sent[k..][1..] == sent[k + 1..];
        SendNext(start, sent, k);
        output.Transmit(p);
      }
    }

    lemma PullEnd(sent: seq<T>, kept: seq<Entry<T>>, start: History<T>, now: nat, k: nat, tx: bool, output: Link<T>)
      requires k <= |sent| && Pulling(sent, kept, start, now, k, tx, output) && (Empty() || !tx)
      ensures output.Valid() && packets == kept && output.history == SendAll(start, sent)
    {
      if Empty() {
        DrainEmpty<T>(now);
      }
      assert sent[..|sent|] == sent;
    }
  }

  lemma DrainEmpty<T>(now: nat)
    ensures Drain<T>([], now) == Drained([], [])
  {
  }

  /** One turn of the pull loop. */
  lemma DrainHead<T>(q: seq<Entry<T>>, now: nat)
    requires q != [] && Drain(q, now).Drained?
    ensures var r, rest := Drain(q, now), if q[0].Delay? then q[1..] else q;
            if q[0].Delay? && q[0].ttx > now then r == Drained([], q)
            else rest != [] && rest[0].Pkt? && r.sent != [] && r.sent[0] == rest[0].p
                 && Drain(rest[1..], now) == Drained(r.sent[1..], r.kept)
  {
  }

  // A queue that stamps every packet

  /** A packet and the time from which it may be sent. */
  datatype Stamped<T> = Stamped(p: T, due: nat)

  function Max(a: nat, b: nat): nat {
    if a < b then b else a
  }

  /** The packets of a queue, each due at the latest of the markers at or before it, where
      the markers already taken off the queue reached up to `past`. */
  function Stamps<T>(q: seq<Entry<T>>, past: nat): seq<Stamped<T>> {
    if q == [] then []
    else match q[0]
      case Delay(ttx) => Stamps(q[1..], Max(past, ttx))
      case Pkt(p) => [Stamped(p, past)] + Stamps(q[1..], past)
  }

  /** The latest marker on a queue, or `past`. */
  function Latest<T>(q: seq<Entry<T>>, past: nat): nat {
    if q == [] then past
    else Latest(q[1..], if q[0].Delay? then Max(past, q[0].ttx) else past)
  }

  /** What the reference sends and keeps. */
  datatype Released<T> = Released(sent: seq<T>, kept: seq<Stamped<T>>)

  /** The reference pull: send from the head while the head is due. */
  function Release<T>(q: seq<Stamped<T>>, now: nat): Released<T> {
    if q == [] || q[0].due > now then Released([], q)
    else
      var r := Release(q[1..], now);
      Released([q[0].p] + r.sent, r.kept)
  }

  /** No packet is stamped with less than the markers already taken off. */
  lemma {:induction false} StampsFrom<T>(q: seq<Entry<T>>, past: nat)
    ensures forall i :: 0 <= i < |Stamps(q, past)| ==> Stamps(q, past)[i].due >= past
  {
    if q != [] {
      StampsFrom(q[1..], if q[0].Delay? then Max(past, q[0].ttx) else past);
    }
  }

  /** A pull that does not panic refines the reference: it sends, in order, what is due there,
      and keeps what is not. The markers it takes off reach up to `past'`. */
  lemma {:induction false} DrainRefines<T>(q: seq<Entry<T>>, past: nat, now: nat) returns (past': nat)
    requires Drain(q, now).Drained? && past <= now
    ensures past <= past' <= now
    ensures var r, ref := Drain(q, now), Release(Stamps(q, past), now);
            && r.sent == ref.sent
            && Stamps(r.kept, past') == ref.kept
            && Latest(r.kept, past') == Latest(q, past)
  {
    past' := past;
    if q != [] {
      if q[0].Delay? && q[0].ttx > now {
        StampsFrom(q[1..], Max(past, q[0].ttx));
        hide Latest;
      } else {
        var mark := if q[0].Delay? then Max(past, q[0].ttx) else past;
        var rest := if q[0].Delay? then q[1..] else q;
        DrainHead(q, now);
        HeadStamp(q, past);
        hide Stamps, Latest, Drain;
        past' := DrainRefines(rest[1..], mark, now);
      }
    }
  }

  lemma HeadStamp<T>(q: seq<Entry<T>>, past: nat)
    requires q != []
    ensures var mark := if q[0].Delay? then Max(past, q[0].ttx) else past;
            var rest := if q[0].Delay? then q[1..] else q;
            rest != [] && rest[0].Pkt? ==>
              && Stamps(q, past) == [Stamped(rest[0].p, mark)] + Stamps(rest[1..], mark)
              && Latest(q, past) == Latest(rest[1..], mark)
  {
  }
}
