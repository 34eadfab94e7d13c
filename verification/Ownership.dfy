/** Where packets are, across the freelist of `rush/src/packet.rs`, links, delay queues and the
    apps that hold packets in hand: every allocated packet is in exactly one place. */
module Ownership {
  import opened Wrappers
  import opened Packets
  import Links

  /** A place outside the freelist. `Hand` is what running apps hold in a Box. */
  datatype Place = Hand | OnLink(name: string) | InQueue(app: string)

  datatype World = World(pool: Pool, places: map<Place, seq<nat>>)

  /** The elementary operations that apps and the engine perform on packets. */
  datatype Op =
    | Allocate
    | Free(i: nat)                   // the i-th packet in hand
    | Receive(from: Place)           // from the head of a link or delay queue
    | Transmit(i: nat, link: Place)  // drops and frees when the link is full
    | Enqueue(i: nat, queue: Place)
    | Open(place: Place)             // a new link or delay queue
    | Close(place: Place)            // one that went out of scope

  datatype Panic = FreelistOverflow | AllocationOverflow | Underflow | Leak | NotOwned

  datatype Result = Ok(w: World) | Failed(panic: Panic)

  function Removed(s: seq<nat>, i: nat): seq<nat>
    requires i < |s|
  {
    s[..i] + s[i + 1..]
  }

  function FreeInHand(w: World, i: nat): Result
    requires Hand in w.places
  {
    var hand := w.places[Hand];
    if i >= |hand| then Failed(NotOwned)
    else if |w.pool.free| == MAX_PACKETS then Failed(FreelistOverflow)
    else Ok(World(Give(w.pool, hand[i]), w.places[Hand := Removed(hand, i)]))
  }

  function MoveFromHand(w: World, i: nat, to: Place): Result
    requires Hand in w.places
  {
    var hand := w.places[Hand];
    if i >= |hand| || to !in w.places || to.Hand? then Failed(NotOwned)
    else Ok(w.(places := w.places[Hand := Removed(hand, i)][to := w.places[to] + [hand[i]]]))
  }

  function Step(w: World, op: Op): Result
    requires Hand in w.places
  {
    var hand := w.places[Hand];
    match op
    case Allocate =>
      (match Take(w.pool)
       case None => Failed(AllocationOverflow)
       case Some(taken) => Ok(World(taken.1, w.places[Hand := hand + [taken.0]])))
    case Free(i) => FreeInHand(w, i)
    case Receive(from) =>
      if from !in w.places || from.Hand? then Failed(NotOwned)
      else if w.places[from] == [] then Failed(Underflow)
      else Ok(w.(places := w.places[from := w.places[from][1..]][Hand := hand + [w.places[from][0]]]))
    case Transmit(i, link) =>
      if link in w.places && |w.places[link]| >= Links.LINK_MAX_PACKETS then FreeInHand(w, i)
      else MoveFromHand(w, i, link)
    case Enqueue(i, queue) => MoveFromHand(w, i, queue)
    case Open(place) => if place in w.places then Failed(NotOwned) else Ok(w.(places := w.places[place := []]))
    case Close(place) =>
      if place !in w.places || place.Hand? then Failed(NotOwned)
      else if w.places[place] != [] then Failed(Leak)
      else Ok(w.(places := w.places - {place}))
  }

  function Start(): World {
    World(NewPool(), map[Hand := []])
  }

  function RunFrom(w: World, ops: seq<Op>): (r: Result)
    requires Hand in w.places
    ensures r.Ok? ==> Hand in r.w.places
  {
    if |ops| == 0 then Ok(w)
    else
      match RunFrom(w, ops[..|ops| - 1])
      case Failed(panic) => Failed(panic)
      case Ok(w') => Step(w', ops[|ops| - 1])
  }

  // Counting packets over all places

  ghost function InUse(places: map<Place, seq<nat>>): multiset<nat>
    decreases |places|
  {
    if |places| == 0 then multiset{}
    else
      var k :| k in places;
      multiset(places[k]) + InUse(places - {k})
  }

  lemma InUsePick(places: map<Place, seq<nat>>) returns (j: Place)
    requires |places| > 0
    ensures j in places && InUse(places) == multiset(places[j]) + InUse(places - {j})
  {
    j :| j in places && InUse(places) == multiset(places[j]) + InUse(places - {j});
  }

  lemma {:induction false} InUseSplit(places: map<Place, seq<nat>>, k: Place)
    requires k in places
    ensures InUse(places) == multiset(places[k]) + InUse(places - {k})
    decreases |places|
  {
    hide InUse;
    var j := InUsePick(places);
    if j != k {
      InUseSplit(places - {j}, k);
      InUseSplit(places - {k}, j);
      assert places - {j} - {k} == places - {k} - {j};
      Exchange(multiset(places[j]), multiset(places[k]), InUse(places - {j} - {k}));
    }
  }

  lemma Exchange(a: multiset<nat>, b: multiset<nat>, c: multiset<nat>)
    ensures a + (b + c) == b + (a + c)
  {
  }

  lemma InUseUpdate(places: map<Place, seq<nat>>, k: Place, v: seq<nat>)
    requires k in places
    ensures InUse(places[k := v]) + multiset(places[k]) == InUse(places) + multiset(v)
  {
    InUseSplit(places, k);
    InUseSplit(places[k := v], k);
    assert places[k := v] - {k} == places - {k};
  }

  lemma InUseOpen(places: map<Place, seq<nat>>, k: Place)
    requires k !in places
    ensures InUse(places[k := []]) == InUse(places)
  {
    InUseSplit(places[k := []], k);
    assert places[k := []] - {k} == places;
  }

  /** Every allocated packet is on the freelist or in one place, once; and the freelist has
      grown in doubling steps. */
  ghost predicate Owned(w: World) {
    Hand in w.places && Sound(w.pool, InUse(w.places))
  }

  lemma RemovedCount(s: seq<nat>, i: nat)
    requires i < |s|
    ensures multiset(Removed(s, i)) + multiset{s[i]} == multiset(s)
    ensures s[i] in multiset(s)
  {
    assert s == s[..i] + ([s[i]] + s[i + 1..]);
  }

  lemma AppendedCount(s: seq<nat>, p: nat)
    ensures multiset(s + [p]) == multiset(s) + multiset{p}
  {
  }

  /** What is added to one of two equal sums is missing from the other. */
  lemma Cancel(a: multiset<nat>, b: multiset<nat>, m: multiset<nat>, n: multiset<nat>, p: nat)
    requires a + m == b + n && n == m + multiset{p}
    ensures a == b + multiset{p}
  {
    forall x: nat
      ensures a[x] == (b + multiset{p})[x]
    {
      assert (a + m)[x] == (b + n)[x];
    }
  }

  lemma AddedRemoved(a: multiset<nat>, b: multiset<nat>, p: nat)
    requires a == b + multiset{p}
    ensures p in a && a - multiset{p} == b
  {
  }

  lemma TakeHandCount(places: map<Place, seq<nat>>, p: nat)
    requires Hand in places
    ensures InUse(places[Hand := places[Hand] + [p]]) == InUse(places) + multiset{p}
  {
    hide InUse;
    var hand, hand' := places[Hand], places[Hand] + [p];
    InUseUpdate(places, Hand, hand');
    AppendedCount(hand, p);
    Cancel(InUse(places[Hand := hand']), InUse(places), multiset(hand), multiset(hand'), p);
  }

  lemma GiveHandCount(places: map<Place, seq<nat>>, i: nat)
    requires Hand in places && i < |places[Hand]|
    ensures InUse(places) == InUse(places[Hand := Removed(places[Hand], i)]) + multiset{places[Hand][i]}
  {
    hide InUse, Removed;
    var hand, hand' := places[Hand], Removed(places[Hand], i);
    InUseUpdate(places, Hand, hand');
    RemovedCount(hand, i);
    Cancel(InUse(places), InUse(places[Hand := hand']), multiset(hand'), multiset(hand), hand[i]);
  }

  lemma MoveCount(places: map<Place, seq<nat>>, i: nat, to: Place)
    requires Hand in places && i < |places[Hand]| && to in places && to != Hand
    ensures InUse(places[Hand := Removed(places[Hand], i)][to := places[to] + [places[Hand][i]]]) == InUse(places)
  {
    hide InUse, Removed;
    var p := places[Hand][i];
    GiveHandCount(places, i);
    var mid := places[Hand := Removed(places[Hand], i)];
    var after := mid[to := places[to] + [p]];
    InUseUpdate(mid, to, places[to] + [p]);
    AppendedCount(places[to], p);
    Cancel(InUse(after), InUse(mid), multiset(places[to]), multiset(places[to] + [p]), p);
  }

  lemma ReceiveCount(places: map<Place, seq<nat>>, from: Place)
    requires Hand in places && from in places && from != Hand && places[from] != []
    ensures InUse(places[from := places[from][1..]][Hand := places[Hand] + [places[from][0]]]) == InUse(places)
  {
    hide InUse;
    var p, rest := places[from][0], places[from][1..];
    var mid := places[from := rest];
    InUseUpdate(places, from, rest);
    assert places[from] == [p] + rest;
    assert multiset(places[from]) == multiset(rest) + multiset{p};
    Cancel(InUse(places), InUse(mid), multiset(rest), multiset(places[from]), p);
    TakeHandCount(mid, p);
  }

  lemma FreeOwned(w: World, i: nat)
    requires Owned(w)
    ensures var r := FreeInHand(w, i);
            if r.Ok? then Owned(r.w) else r.panic == NotOwned
  {
    hide InUse, Sound, Removed;
    if i < |w.places[Hand]| {
      GiveHandCount(w.places, i);
      AddedRemoved(InUse(w.places), InUse(w.places[Hand := Removed(w.places[Hand], i)]), w.places[Hand][i]);
      GiveSound(w.pool, InUse(w.places), w.places[Hand][i]);
    }
  }

  lemma MoveOwned(w: World, i: nat, to: Place)
    requires Owned(w)
    ensures var r := MoveFromHand(w, i, to);
            if r.Ok? then Owned(r.w) else r.panic == NotOwned
  {
    hide InUse, Sound, Removed;
    if i < |w.places[Hand]| && to in w.places && to != Hand {
      MoveCount(w.places, i, to);
    }
  }

  lemma AllocateOwned(w: World)
    requires Owned(w)
    ensures var r := Step(w, Allocate);
            if r.Ok? then Owned(r.w) else r.panic == AllocationOverflow && |InUse(w.places)| == MAX_ALLOCATED
  {
    hide InUse, Sound;
    TakeSound(w.pool, InUse(w.places));
    if Take(w.pool).Some? {
      TakeHandCount(w.places, Take(w.pool).value.0);
    }
  }

  /** One operation keeps ownership; the freelist never overflows, and allocation fails only
      with 511000 packets in use. */
  lemma StepOwned(w: World, op: Op)
    requires Owned(w)
    ensures var r := Step(w, op);
            if r.Ok? then Owned(r.w)
            else r.panic != FreelistOverflow
                 && (r.panic == AllocationOverflow ==> |InUse(w.places)| == MAX_ALLOCATED)
  {
    hide InUse, Sound, Removed;
    match op
    case Allocate => AllocateOwned(w);
    case Free(i) => FreeOwned(w, i);
    case Receive(from) =>
      if from in w.places && from != Hand && w.places[from] != [] {
        ReceiveCount(w.places, from);
      }
    case Transmit(i, link) =>
      FreeOwned(w, i);
      MoveOwned(w, i, link);
    case Enqueue(i, queue) => MoveOwned(w, i, queue);
    case Open(place) =>
      if place !in w.places {
        InUseOpen(w.places, place);
      }
    case Close(place) =>
      if place in w.places && place != Hand && w.places[place] == [] {
        var rest := w.places - {place};
        assert rest[place := []] == w.places;
        InUseOpen(rest, place);
      }
  }

  lemma StartOwned()
    ensures Owned(Start())
  {
    SoundStart();
    InUseSplit(Start().places, Hand);
    assert Start().places - {Hand} == map[];
  }

  /** Any program keeps ownership, from wherever it is owned: it ends with every packet owned, or
      in a panic that is not the freelist overflowing. */
  lemma {:induction false} RunOwned(w: World, ops: seq<Op>)
    requires Owned(w)
    ensures match RunFrom(w, ops)
            case Ok(w') => Owned(w')
            case Failed(panic) => panic != FreelistOverflow
  {
    assert Hand in w.places;
    hide Owned, Step;
    if |ops| > 0 {
      RunOwned(w, ops[..|ops| - 1]);
      var before := RunFrom(w, ops[..|ops| - 1]);
      if before.Ok? {
        StepOwned(before.w, ops[|ops| - 1]);
      }
    }
  }

  /** Across all runs: every allocated packet is in exactly one place, the counts add up, no
      more than 511000 packets are ever allocated, and the freelist-overflow panic never comes. */
  lemma AlwaysOwned(ops: seq<Op>)
    ensures match RunFrom(Start(), ops)
            case Ok(w) =>
              && Owned(w)
              && (forall p: nat :: multiset(w.pool.free)[p] + InUse(w.places)[p] == if p < w.pool.total then 1 else 0)
              && |w.pool.free| + |InUse(w.places)| == w.pool.total <= MAX_ALLOCATED
            case Failed(panic) => panic != FreelistOverflow
  {
    hide InUse, Owned, RunFrom;
    StartOwned();
    RunOwned(Start(), ops);
    if RunFrom(Start(), ops).Ok? {
      OwnedCounts(RunFrom(Start(), ops).w);
    }
  }

  lemma OwnedCounts(w: World)
    requires Owned(w)
    ensures forall p: nat :: multiset(w.pool.free)[p] + InUse(w.places)[p] == if p < w.pool.total then 1 else 0
    ensures |w.pool.free| + |InUse(w.places)| == w.pool.total <= MAX_ALLOCATED
  {
    hide InUse;
    CountShared(w.pool, InUse(w.places));
    GrowSound(w.pool, InUse(w.places));
  }
}
