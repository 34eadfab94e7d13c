/** `rush/src/basic_apps.rs`, and the dropping of links and delay queues, as programs of the
    elementary packet operations: what they leave behind, with every packet accounted for.
    A hash map's values come in any order. */
module BasicApps {
  import opened Packets
  import opened Ownership
  import Links
  import LinkApps

  type Places = map<Place, seq<nat>>

  /** Two sets of places hold the same packets outside of some of them. */
  ghost predicate SameBut(a: Places, b: Places, but: set<Place>) {
    a.Keys == b.Keys && forall k :: k in a && k !in but ==> a[k] == b[k]
  }

  /** The packets of some places, one place after the other. */
  function Gathered(places: Places, from: seq<Place>): seq<nat>
    requires forall k :: k in from ==> k in places
  {
    if |from| == 0 then [] else Gathered(places, from[..|from| - 1]) + places[from[|from| - 1]]
  }

  /** A program under way: the operations so far lead from `w0` to `w`. */
  ghost predicate Running(w0: World, ops: seq<Op>, w: World) {
    Owned(w0) && Owned(w) && RunFrom(w0, ops) == Ok(w)
  }

  lemma RunMore(w0: World, ops: seq<Op>, w: World, a: Op)
    requires Running(w0, ops, w)
    ensures RunFrom(w0, ops + [a]) == Step(w, a)
    ensures Step(w, a).Ok? ==> Running(w0, ops + [a], Step(w, a).w)
  {
    assert (ops + [a])[..|ops|] == ops;
    StepOwned(w, a);
    hide Owned, Step;
  }

  // Two operations at a time, leaving the hand as it was

  lemma RemovedLast(s: seq<nat>, p: nat)
    ensures Removed(s + [p], |s|) == s
  {
  }

  ghost predicate HasPacket(w: World, from: Place) {
    from in w.places && from != Hand && w.places[from] != []
  }

  /** Receive a packet, and hold it last. */
  method ReceiveHeld(ghost w0: World, ghost ops: seq<Op>, w: World, from: Place)
    returns (r: Result, p: nat, ghost ops': seq<Op>)
    requires Running(w0, ops, w) && HasPacket(w, from)
    ensures r == RunFrom(w0, ops') && r.Ok? && Running(w0, ops', r.w)
    ensures p == w.places[from][0]
    ensures r.w.places == w.places[from := w.places[from][1..]][Hand := w.places[Hand] + [p]]
  {
    hide Owned;
    RunMore(w0, ops, w, Receive(from));
    p := w.places[from][0];
    r, ops' := Step(w, Receive(from)), ops + [Receive(from)];
  }

  /** Free the packet held last. */
  method FreeHeld(ghost w0: World, ghost ops: seq<Op>, w: World, hand: seq<nat>, p: nat)
    returns (r: Result, ghost ops': seq<Op>)
    requires Running(w0, ops, w) && Hand in w.places && w.places[Hand] == hand + [p]
    ensures r == RunFrom(w0, ops') && r.Ok? && Running(w0, ops', r.w)
    ensures r.w.places == w.places[Hand := hand]
  {
    RunMore(w0, ops, w, Free(|hand|));
    RemovedLast(hand, p);
    FreeOwned(w, |hand|);
    hide Owned, Removed, RunFrom;
    r, ops' := Step(w, Free(|hand|)), ops + [Free(|hand|)];
  }

  /** Transmit the packet held last. */
  method TransmitHeld(ghost w0: World, ghost ops: seq<Op>, w: World, hand: seq<nat>, p: nat, to: Place)
    returns (w': World, ghost ops': seq<Op>)
    requires Running(w0, ops, w) && Hand in w.places && w.places[Hand] == hand + [p] && to in w.places && to != Hand
    ensures Running(w0, ops', w')
    ensures w'.places == w.places[Hand := hand][to := Links.Offer(w.places[to], [p])]
  {
    RunMore(w0, ops, w, Transmit(|hand|, to));
    RemovedLast(hand, p);
    FreeOwned(w, |hand|);
    hide Owned, Removed, RunFrom;
    w', ops' := Step(w, Transmit(|hand|, to)).w, ops + [Transmit(|hand|, to)];
  }

  /** Receive a packet and free it. */
  method ReceiveAndFree(ghost w0: World, ghost ops: seq<Op>, w: World, from: Place)
    returns (w': World, ghost ops': seq<Op>)
    requires Running(w0, ops, w) && HasPacket(w, from)
    ensures Running(w0, ops', w') && w'.places == w.places[from := w.places[from][1..]]
  {
    RunningIs(w0, ops, w);
    hide Running, RunFrom;
    var hand := w.places[Hand];
    var r, p;
    r, p, ops' := ReceiveHeld(w0, ops, w, from);
    r, ops' := FreeHeld(w0, ops', r.w, hand, p);
    w' := r.w;
    assert w'.places == w.places[from := w.places[from][1..]];
  }

  /** Receive a packet and transmit it on another link. */
  method ReceiveAndTransmit(ghost w0: World, ghost ops: seq<Op>, w: World, from: Place, to: Place)
    returns (w': World, ghost ops': seq<Op>)
    requires Running(w0, ops, w) && HasPacket(w, from) && to in w.places && to != Hand && to != from
    ensures Running(w0, ops', w')
    ensures w'.places == w.places[from := w.places[from][1..]][to := Links.Offer(w.places[to], [w.places[from][0]])]
  {
    RunningIs(w0, ops, w);
    hide Running, RunFrom;
    var hand := w.places[Hand];
    var r, p;
    hide Links.Offer;
    r, p, ops' := ReceiveHeld(w0, ops, w, from);
    HandMoves(w.places, from, w.places[from][1..], to, hand, p);
    w', ops' := TransmitHeld(w0, ops', r.w, hand, p, to);
    HandReturns(w.places, from, w.places[from][1..], hand, p, to, Links.Offer(w.places[to], [p]));
  }

  lemma HandMoves(places: Places, from: Place, rest: seq<nat>, to: Place, hand: seq<nat>, p: nat)
    requires to in places && to != Hand && to != from
    ensures var held := places[from := rest][Hand := hand + [p]];
            to in held && held[to] == places[to] && Hand in held && held[Hand] == hand + [p]
  {
  }

  lemma HandReturns(places: Places, from: Place, rest: seq<nat>, hand: seq<nat>, p: nat, to: Place, queue: seq<nat>)
    requires Hand in places && places[Hand] == hand && from != Hand && to != Hand
    ensures places[from := rest][Hand := hand + [p]][Hand := hand][to := queue] == places[from := rest][to := queue]
  {
    assert places[from := rest][Hand := hand + [p]][Hand := hand] == places[from := rest];
  }

  /** One queue is another one offered `n` more packets. */
  ghost predicate Grew(a: seq<nat>, b: seq<nat>, n: nat) {
    exists added: seq<nat> :: |added| == n && b == Links.Offer(a, added)
  }

  lemma GrewNone(a: seq<nat>)
    ensures Grew(a, a, 0)
  {
    assert a + [] == a;
    assert a == Links.Offer(a, []);
  }

  lemma GrewMore(a: seq<nat>, b: seq<nat>, c: seq<nat>, m: nat, n: nat)
    requires Grew(a, b, m) && Grew(b, c, n)
    ensures Grew(a, c, m + n)
  {
    var x: seq<nat> :| |x| == m && b == Links.Offer(a, x);
    var y: seq<nat> :| |y| == n && c == Links.Offer(b, y);
    Links.OfferInSteps(a, x, y);
    hide Links.Offer;
    assert |x + y| == m + n;
  }

  /** Allocate a packet and transmit it; the only failure is having no packet left. */
  method AllocateAndTransmit(ghost w0: World, ghost ops: seq<Op>, w: World, to: Place)
    returns (r: Result, ghost ops': seq<Op>)
    requires Running(w0, ops, w) && to in w.places && to != Hand
    ensures r == RunFrom(w0, ops')
    ensures if r.Ok? then Running(w0, ops', r.w) && SameBut(w.places, r.w.places, {to})
                          && Grew(w.places[to], r.w.places[to], 1)
            else r.panic == AllocationOverflow && |InUse(w.places)| == MAX_ALLOCATED
  {
    RunningIs(w0, ops, w);
    RunMore(w0, ops, w, Allocate);
    AllocateOwned(w);
    hide Owned, Take, Running, RunFrom;
    var hand := w.places[Hand];
    r := Step(w, Allocate);
    ops' := ops + [Allocate];
    if r.Ok? {
      var p := r.w.places[Hand][|hand|];
      assert r.w.places == w.places[Hand := hand + [p]];
      var w', ops'' := TransmitHeld(w0, ops', r.w, hand, p, to);
      RunningIs(w0, ops'', w');
      assert |[p]| == 1 && w'.places[to] == Links.Offer(w.places[to], [p]);
      r, ops' := Ok(w'), ops'';
    }
  }

  // The apps

  /** Free everything on one link or delay queue: one turn of Sink, and dropping the link or queue. */
  method Drain(ghost w0: World, ghost ops: seq<Op>, w: World, from: Place)
    returns (w': World, ghost ops': seq<Op>)
    requires Running(w0, ops, w) && from in w.places && from != Hand
    ensures Running(w0, ops', w') && w'.places == w.places[from := []]
  {
    w', ops' := w, ops;
    hide Running, RunFrom;
    while w'.places[from] != []
      invariant Running(w0, ops', w') && w'.places.Keys == w.places.Keys
      invariant w'.places == w.places[from := w'.places[from]]
      decreases |w'.places[from]|
    {
      w', ops' := ReceiveAndFree(w0, ops', w', from);
    }
  }

  /** A link or delay queue that goes out of scope frees its packets: none leaks. */
  method Drop(w0: World, place: Place) returns (w: World, ghost ops: seq<Op>)
    requires Owned(w0) && place in w0.places && place != Hand
    ensures Running(w0, ops, w) && w.places == w0.places - {place}
  {
    assert Running(w0, [], w0);
    w, ops := Drain(w0, [], w0, place);
    RunMore(w0, ops, w, Close(place));
    hide Running, RunFrom, Owned;
    w, ops := Step(w, Close(place)).w, ops + [Close(place)];
    assert w.places == w0.places - {place};
  }

  ghost predicate AreLinks(w: World, links: seq<Place>) {
    forall k :: k in links ==> k in w.places && k != Hand
  }

  /** The first `i` inputs are drained, and nothing else has changed. */
  ghost predicate Sinking(p0: Places, p: Places, inputs: seq<Place>, i: nat) {
    && i <= |inputs| && (forall k :: k in inputs ==> k in p0 && k != Hand)
    && SameBut(p0, p, set k | k in inputs)
    && forall j :: 0 <= j < i ==> p[inputs[j]] == []
  }

  lemma SinkingNext(p0: Places, p: Places, inputs: seq<Place>, i: nat)
    requires Sinking(p0, p, inputs, i) && i < |inputs|
    ensures inputs[i] in p && inputs[i] != Hand
    ensures Sinking(p0, p[inputs[i] := []], inputs, i + 1)
  {
    assert inputs[i] in inputs;
    assert forall j :: 0 <= j < i ==> inputs[j] in inputs;
  }

  /** Sink: free everything on every input. */
  method SinkPush(w0: World, inputs: seq<Place>) returns (w: World, ghost ops: seq<Op>)
    requires Owned(w0) && AreLinks(w0, inputs)
    ensures Running(w0, ops, w)
    ensures SameBut(w0.places, w.places, set k | k in inputs)
    ensures forall j :: 0 <= j < |inputs| ==> inputs[j] in w.places && w.places[inputs[j]] == []
  {
    w, ops := w0, [];
    var i := 0;
    assert forall j :: 0 <= j < |inputs| ==> inputs[j] in inputs;
    assert Running(w0, [], w0) && Sinking(w0.places, w0.places, inputs, 0);
    hide Running, RunFrom, Owned, Sinking;
    while i < |inputs|
      invariant 0 <= i <= |inputs| && Running(w0, ops, w) && Sinking(w0.places, w.places, inputs, i)
    {
      SinkingNext(w0.places, w.places, inputs, i);
      w, ops := Drain(w0, ops, w, inputs[i]);
      i := i + 1;
    }
    SinkingEnd(w0.places, w.places, inputs);
  }

  lemma SinkingEnd(p0: Places, p: Places, inputs: seq<Place>)
    requires Sinking(p0, p, inputs, |inputs|)
    ensures SameBut(p0, p, set k | k in inputs)
    ensures forall j :: 0 <= j < |inputs| ==> inputs[j] in p && p[inputs[j]] == []
  {
    assert forall j :: 0 <= j < |inputs| ==> inputs[j] in inputs;
  }

  ghost predicate DistinctPlaces(s: seq<Place>) {
    forall i, j :: 0 <= i < j < |s| ==> s[i] != s[j]
  }

  /** The first `i` inputs are drained into the output, the others not touched. */
  ghost predicate Joining(p0: Places, p: Places, inputs: seq<Place>, output: Place, i: nat) {
    && i <= |inputs| && (forall k :: k in inputs ==> k in p0 && k != Hand)
    && output in p0 && output != Hand && output !in inputs && DistinctPlaces(inputs)
    && SameBut(p0, p, (set k | k in inputs) + {output})
    && (forall j :: 0 <= j < i ==> p[inputs[j]] == [])
    && (forall j :: i <= j < |inputs| ==> p[inputs[j]] == p0[inputs[j]])
    && p[output] == Links.Offer(p0[output], Gathered(p0, inputs[..i]))
  }

  lemma JoiningStart(p0: Places, inputs: seq<Place>, output: Place)
    requires (forall k :: k in inputs ==> k in p0 && k != Hand) && output in p0 && output != Hand
    requires output !in inputs && DistinctPlaces(inputs)
    ensures Joining(p0, p0, inputs, output, 0)
  {
    assert forall j :: 0 <= j < |inputs| ==> inputs[j] in inputs;
    assert inputs[..0] == [];
  }

  lemma JoiningNext(p0: Places, p: Places, inputs: seq<Place>, output: Place, i: nat)
    requires Joining(p0, p, inputs, output, i) && i < |inputs|
    ensures inputs[i] in p && inputs[i] != Hand && output in p && output != Hand && inputs[i] != output
    ensures Joining(p0, p[inputs[i] := []][output := Links.Offer(p[output], p[inputs[i]])], inputs, output, i + 1)
  {
    hide Links.Offer;
    assert inputs[i] in inputs;
    assert forall j :: 0 <= j < |inputs| ==> inputs[j] in inputs;
    assert inputs[..i + 1][..i] == inputs[..i];
    Links.OfferInSteps(p0[output], Gathered(p0, inputs[..i]), p0[inputs[i]]);
  }

  /** Join: move everything on every input to the output, in order, dropping what does not fit. */
  method JoinPush(w0: World, inputs: seq<Place>, output: Place) returns (w: World, ghost ops: seq<Op>)
    requires Owned(w0) && AreLinks(w0, inputs) && output in w0.places && output != Hand
    requires output !in inputs && DistinctPlaces(inputs)
    ensures Running(w0, ops, w) && Joining(w0.places, w.places, inputs, output, |inputs|)
    ensures w.places[output] == Links.Offer(w0.places[output], Gathered(w0.places, inputs))
  {
    w, ops := w0, [];
    var i := 0;
    assert Running(w0, [], w0);
    JoiningStart(w0.places, inputs, output);
    hide Running, RunFrom, Owned, Links.Offer, Joining;
    while i < |inputs|
      invariant 0 <= i <= |inputs| && Running(w0, ops, w) && Joining(w0.places, w.places, inputs, output, i)
    {
      JoiningNext(w0.places, w.places, inputs, output, i);
      w, ops := Forward(w0, ops, w, inputs[i], output);
      i := i + 1;
    }
    JoiningEnd(w0.places, w.places, inputs, output);
  }

  lemma JoiningEnd(p0: Places, p: Places, inputs: seq<Place>, output: Place)
    requires Joining(p0, p, inputs, output, |inputs|)
    ensures output in p && p[output] == Links.Offer(p0[output], Gathered(p0, inputs))
  {
    assert inputs[..|inputs|] == inputs;
  }

  /** `k` of the packets first on `from` have been offered to `to`. */
  ghost predicate Forwarding(p0: Places, p: Places, from: Place, to: Place, k: nat) {
    && from in p0 && from != Hand && to in p0 && to != Hand && to != from
    && k <= |p0[from]|
    && p == p0[from := p0[from][k..]][to := Links.Offer(p0[to], p0[from][..k])]
  }

  lemma ForwardingNext(p0: Places, p: Places, from: Place, to: Place, k: nat)
    requires Forwarding(p0, p, from, to, k) && p[from] != []
    ensures k < |p0[from]|
    ensures Forwarding(p0, p[from := p[from][1..]][to := Links.Offer(p[to], [p[from][0]])], from, to, k + 1)
  {
    hide Links.Offer;
    var all := p0[from];
    Links.OfferInSteps(p0[to], all[..k], [all[k]]);
    assert all[..k + 1] == all[..k] + [all[k]];
    assert all[k..][1..] == all[k + 1..];
  }

  lemma ForwardingEnds(p0: Places, p: Places, from: Place, to: Place, k: nat)
    requires from in p0 && from != Hand && to in p0 && to != Hand && to != from
    ensures Forwarding(p0, p0, from, to, 0)
    ensures Forwarding(p0, p, from, to, k) ==>
              from in p && (p[from] == [] ==> p == p0[from := []][to := Links.Offer(p0[to], p0[from])])
  {
    var all := p0[from];
    assert all[..0] == [] && all[0..] == all && all[..|all|] == all;
    assert Links.Offer(p0[to], []) == p0[to];
    hide Links.Offer;
    assert Forwarding(p0, p0, from, to, 0);
  }

  method Forward(ghost w0: World, ghost ops: seq<Op>, w: World, from: Place, to: Place)
    returns (w': World, ghost ops': seq<Op>)
    requires Running(w0, ops, w) && from in w.places && from != Hand && to in w.places && to != Hand && to != from
    ensures Running(w0, ops', w')
    ensures w'.places == w.places[from := []][to := Links.Offer(w.places[to], w.places[from])]
  {
    hide Running, RunFrom, Links.Offer, Forwarding;
    w', ops' := w, ops;
    ghost var k: nat := 0;
    ForwardingEnds(w.places, w'.places, from, to, k);
    while w'.places[from] != []
      invariant Running(w0, ops', w') && Forwarding(w.places, w'.places, from, to, k)
      invariant from in w'.places && to in w'.places && k <= |w.places[from]|
      decreases |w.places[from]| - k
    {
      ForwardingNext(w.places, w'.places, from, to, k);
      w', ops' := ReceiveAndTransmit(w0, ops', w', from, to);
      k := k + 1;
    }
    ForwardingEnds(w.places, w'.places, from, to, k);
  }

  /** The first `i` outputs were offered `n` packets each, the others not touched. */
  ghost predicate Supplying(p0: Places, p: Places, outputs: seq<Place>, i: nat, n: nat) {
    && i <= |outputs| && (forall k :: k in outputs ==> k in p0 && k != Hand) && DistinctPlaces(outputs)
    && SameBut(p0, p, set k | k in outputs)
    && (forall j :: 0 <= j < i ==> Grew(p0[outputs[j]], p[outputs[j]], n))
    && (forall j :: i <= j < |outputs| ==> p[outputs[j]] == p0[outputs[j]])
  }

  /** Every output was offered `n` packets, and nothing else changed. */
  ghost predicate Supplied(p0: Places, p: Places, outputs: seq<Place>, n: nat) {
    && (forall k :: k in outputs ==> k in p0) && SameBut(p0, p, set k | k in outputs)
    && forall k :: k in outputs ==> Grew(p0[k], p[k], n)
  }

  lemma SupplyingReady(p0: Places, p: Places, outputs: seq<Place>, i: nat, n: nat)
    requires Supplying(p0, p, outputs, i, n) && i < |outputs|
    ensures outputs[i] in p && outputs[i] != Hand
  {
    assert outputs[i] in outputs;
  }

  lemma SupplyingNext(p0: Places, p: Places, outputs: seq<Place>, i: nat, n: nat, p': Places)
    requires Supplying(p0, p, outputs, i, n) && i < |outputs|
    requires outputs[i] in p && outputs[i] in p'
    requires SameBut(p, p', {outputs[i]}) && Grew(p[outputs[i]], p'[outputs[i]], n)
    ensures Supplying(p0, p', outputs, i + 1, n)
  {
    hide Grew;
    assert forall j :: 0 <= j < |outputs| ==> outputs[j] in outputs;
    forall j | 0 <= j < |outputs| && j != i ensures outputs[j] in p && p'[outputs[j]] == p[outputs[j]] {
      assert outputs[j] != outputs[i];
    }
  }

  lemma SupplyingEnd(p0: Places, p: Places, outputs: seq<Place>, n: nat)
    requires Supplying(p0, p, outputs, |outputs|, n)
    ensures Supplied(p0, p, outputs, n)
  {
    hide Grew;
  }

  /** Source: put `LinkApps.PULL_NPACKETS` fresh packets on every output. */
  method SourcePull(w0: World, outputs: seq<Place>) returns (r: Result, ghost ops: seq<Op>)
    requires Owned(w0) && AreLinks(w0, outputs) && DistinctPlaces(outputs)
    ensures r == RunFrom(w0, ops)
    ensures if r.Ok? then Running(w0, ops, r.w) && Supplied(w0.places, r.w.places, outputs, LinkApps.PULL_NPACKETS)
            else r.panic == AllocationOverflow
  {
    r, ops := Ok(w0), [];
    assert Running(w0, [], w0) && Supplying(w0.places, w0.places, outputs, 0, LinkApps.PULL_NPACKETS);
    RunningIs(w0, [], w0);
    hide Running, RunFrom, Owned, Supplying, SameBut, Grew;
    var i := 0;
    while i < |outputs|
      invariant 0 <= i <= |outputs| && r == RunFrom(w0, ops) && r.Ok? && Running(w0, ops, r.w)
      invariant Supplying(w0.places, r.w.places, outputs, i, LinkApps.PULL_NPACKETS)
    {
      ghost var p := r.w.places;
      SupplyingReady(w0.places, p, outputs, i, LinkApps.PULL_NPACKETS);
      r, ops := SourceOne(w0, ops, r.w, outputs[i]);
      if r.Failed? {
        return;
      }
      SupplyingNext(w0.places, p, outputs, i, LinkApps.PULL_NPACKETS, r.w.places);
      i := i + 1;
    }
    SupplyingEnd(w0.places, r.w.places, outputs, LinkApps.PULL_NPACKETS);
  }

  ghost predicate Sourcing(p0: Places, p: Places, to: Place, n: nat) {
    to in p0 && to in p && SameBut(p0, p, {to}) && Grew(p0[to], p[to], n)
  }

  lemma SourcingStart(p: Places, to: Place)
    requires to in p
    ensures Sourcing(p, p, to, 0)
  {
    GrewNone(p[to]);
  }

  lemma SourcingNext(p0: Places, p: Places, p': Places, to: Place, n: nat)
    requires Sourcing(p0, p, to, n) && to in p' && SameBut(p, p', {to}) && Grew(p[to], p'[to], 1)
    ensures Sourcing(p0, p', to, n + 1)
  {
    GrewMore(p0[to], p[to], p'[to], n, 1);
    hide Grew;
  }

  lemma SourcingIs(p0: Places, p: Places, to: Place, n: nat)
    requires Sourcing(p0, p, to, n)
    ensures to in p0 && to in p && SameBut(p0, p, {to}) && Grew(p0[to], p[to], n)
  {
  }

  lemma SameButHas(p0: Places, p: Places, but: set<Place>, k: Place)
    requires SameBut(p0, p, but)
    ensures k in p0 <==> k in p
  {
  }

  method SourceOne(ghost w0: World, ghost ops: seq<Op>, w: World, to: Place)
    returns (r: Result, ghost ops': seq<Op>)
    requires Running(w0, ops, w) && to in w.places && to != Hand
    ensures r == RunFrom(w0, ops')
    ensures if r.Ok? then Running(w0, ops', r.w) && to in r.w.places && SameBut(w.places, r.w.places, {to})
                          && Grew(w.places[to], r.w.places[to], LinkApps.PULL_NPACKETS)
            else r.panic == AllocationOverflow
  {
    r, ops' := Ok(w), ops;
    RunningIs(w0, ops, w);
    SourcingStart(w.places, to);
    hide Running, RunFrom, SameBut, Grew, Sourcing;
    var n := 0;
    while n < LinkApps.PULL_NPACKETS
      invariant 0 <= n <= LinkApps.PULL_NPACKETS && r.Ok? && r == RunFrom(w0, ops') && Running(w0, ops', r.w)
      invariant Sourcing(w.places, r.w.places, to, n)
    {
      ghost var p := r.w.places;
      SourcingIs(w.places, p, to, n);
      r, ops' := AllocateAndTransmit(w0, ops', r.w, to);
      if r.Failed? {
        return;
      }
      SameButHas(p, r.w.places, {to}, to);
      SourcingNext(w.places, p, r.w.places, to, n);
      n := n + 1;
    }
    SourcingIs(w.places, r.w.places, to, n);
  }

  /** The first `i` inputs are empty, and every output was offered as many copies as there were
      packets on them; the other inputs are not touched. */
  ghost predicate Teeing(p0: Places, p: Places, inputs: seq<Place>, outputs: seq<Place>, i: nat) {
    && i <= |inputs| && (forall k :: k in inputs ==> k in p0 && k != Hand && k !in outputs)
    && (forall k :: k in outputs ==> k in p0 && k != Hand) && DistinctPlaces(inputs)
    && SameBut(p0, p, (set k | k in inputs) + (set k | k in outputs))
    && (forall j :: 0 <= j < i ==> p[inputs[j]] == [])
    && (forall j :: i <= j < |inputs| ==> p[inputs[j]] == p0[inputs[j]])
    && (forall k :: k in outputs ==> Grew(p0[k], p[k], |Gathered(p0, inputs[..i])|))
  }

  lemma TeeingStart(p: Places, inputs: seq<Place>, outputs: seq<Place>)
    requires forall k :: k in inputs ==> k in p && k != Hand && k !in outputs
    requires (forall k :: k in outputs ==> k in p && k != Hand) && DistinctPlaces(inputs)
    ensures Teeing(p, p, inputs, outputs, 0)
  {
    hide Grew;
    forall k | k in outputs ensures Grew(p[k], p[k], 0) {
      GrewNone(p[k]);
    }
  }

  lemma GatheredNext(p0: Places, inputs: seq<Place>, i: nat)
    requires i < |inputs| && forall k :: k in inputs ==> k in p0
    ensures inputs[i] in p0
    ensures |Gathered(p0, inputs[..i + 1])| == |Gathered(p0, inputs[..i])| + |p0[inputs[i]]|
  {
    assert inputs[i] in inputs && inputs[..i + 1][..i] == inputs[..i];
  }

  lemma TeeingOutputs(p0: Places, p: Places, inputs: seq<Place>, outputs: seq<Place>, i: nat, p': Places)
    requires Teeing(p0, p, inputs, outputs, i) && i < |inputs|
    requires inputs[i] in p && Teed(p, p', inputs[i], outputs, |p[inputs[i]]|)
    ensures forall k :: k in outputs ==> k in p0 && k in p' && Grew(p0[k], p'[k], |Gathered(p0, inputs[..i + 1])|)
  {
    GatheredNext(p0, inputs, i);
    hide Grew, Gathered;
    forall k | k in outputs
      ensures k in p0 && k in p' && Grew(p0[k], p'[k], |Gathered(p0, inputs[..i + 1])|)
    {
      GrewMore(p0[k], p[k], p'[k], |Gathered(p0, inputs[..i])|, |p0[inputs[i]]|);
    }
  }

  lemma TeeingInputs(p0: Places, p: Places, inputs: seq<Place>, outputs: seq<Place>, i: nat, p': Places)
    requires Teeing(p0, p, inputs, outputs, i) && i < |inputs|
    requires inputs[i] in p && Teed(p, p', inputs[i], outputs, |p[inputs[i]]|)
    ensures SameBut(p0, p', (set k | k in inputs) + (set k | k in outputs))
    ensures forall j :: 0 <= j < |inputs| ==> inputs[j] in p0
    ensures forall j :: 0 <= j < i + 1 ==> p'[inputs[j]] == []
    ensures forall j :: i + 1 <= j < |inputs| ==> p'[inputs[j]] == p0[inputs[j]]
  {
    hide Grew, Gathered;
    assert inputs[i] in inputs;
    forall j | 0 <= j < |inputs| && j != i
      ensures inputs[j] in p && inputs[j] in p' && p'[inputs[j]] == p[inputs[j]]
    {
      assert inputs[j] in inputs && inputs[j] != inputs[i];
    }
  }

  lemma TeeingNext(p0: Places, p: Places, inputs: seq<Place>, outputs: seq<Place>, i: nat, p': Places)
    requires Teeing(p0, p, inputs, outputs, i) && i < |inputs|
    requires inputs[i] in p && Teed(p, p', inputs[i], outputs, |p[inputs[i]]|)
    ensures Teeing(p0, p', inputs, outputs, i + 1)
  {
    TeeingOutputs(p0, p, inputs, outputs, i, p');
    TeeingInputs(p0, p, inputs, outputs, i, p');
    hide Grew, Gathered, SameBut, Teed;
  }

  lemma TeeingReady(p0: Places, p: Places, inputs: seq<Place>, outputs: seq<Place>, i: nat)
    requires Teeing(p0, p, inputs, outputs, i) && i < |inputs|
    ensures inputs[i] in p && inputs[i] != Hand && inputs[i] !in outputs
    ensures forall k :: k in outputs ==> k in p && k != Hand
  {
    assert inputs[i] in inputs;
  }

  /** Tee: send a copy of every packet on every input to every output, then free the packet. */
  method TeePush(w0: World, inputs: seq<Place>, outputs: seq<Place>) returns (r: Result, ghost ops: seq<Op>)
    requires Owned(w0) && AreLinks(w0, inputs) && AreLinks(w0, outputs)
    requires DistinctPlaces(inputs) && DistinctPlaces(outputs) && forall k :: k in inputs ==> k !in outputs
    ensures r == RunFrom(w0, ops)
    ensures if r.Ok? then Running(w0, ops, r.w) && Teeing(w0.places, r.w.places, inputs, outputs, |inputs|)
            else r.panic == AllocationOverflow
  {
    r, ops := Ok(w0), [];
    var i := 0;
    TeeingStart(w0.places, inputs, outputs);
    assert Running(w0, [], w0);
    RunningIs(w0, [], w0);
    hide Running, RunFrom, Owned, Teeing, Teed;
    while i < |inputs|
      invariant 0 <= i <= |inputs| && r == RunFrom(w0, ops) && r.Ok? && Running(w0, ops, r.w)
      invariant Teeing(w0.places, r.w.places, inputs, outputs, i)
    {
      TeeingReady(w0.places, r.w.places, inputs, outputs, i);
      ghost var p := r.w.places;
      r, ops := TeeOne(w0, ops, r.w, inputs[i], outputs);
      if r.Failed? {
        return;
      }
      TeeingNext(w0.places, p, inputs, outputs, i, r.w.places);
      i := i + 1;
    }
  }

  /** `n` packets of one input are gone, and every output was offered `n` copies. */
  ghost predicate Teed(p0: Places, p: Places, from: Place, outputs: seq<Place>, n: nat) {
    && from in p0 && from != Hand && from !in outputs && (forall k :: k in outputs ==> k in p0 && k != Hand)
    && SameBut(p0, p, {from} + (set k | k in outputs))
    && n <= |p0[from]| && p[from] == p0[from][n..]
    && (forall k :: k in outputs ==> Grew(p0[k], p[k], n))
  }

  lemma TeedNone(p: Places, from: Place, outputs: seq<Place>)
    requires from in p && from != Hand && from !in outputs && forall k :: k in outputs ==> k in p && k != Hand
    ensures Teed(p, p, from, outputs, 0)
  {
    hide Grew;
    forall k | k in outputs ensures Grew(p[k], p[k], 0) {
      GrewNone(p[k]);
    }
  }

  lemma TeedMore(p0: Places, p: Places, p': Places, from: Place, outputs: seq<Place>, n: nat)
    requires Teed(p0, p, from, outputs, n) && Teed(p, p', from, outputs, 1)
    ensures Teed(p0, p', from, outputs, n + 1)
  {
    hide Grew;
    forall k | k in outputs ensures Grew(p0[k], p'[k], n + 1) {
      GrewMore(p0[k], p[k], p'[k], n, 1);
    }
    assert p0[from][n..][1..] == p0[from][n + 1..];
  }

  lemma TeedMeans(p0: Places, p: Places, from: Place, outputs: seq<Place>, n: nat)
    requires Teed(p0, p, from, outputs, n)
    ensures from in p && from != Hand && from !in outputs && forall k :: k in outputs ==> k in p && k != Hand
    ensures from in p0 && n <= |p0[from]| && p[from] == p0[from][n..]
  {
  }

  /** One input of Tee. Copies are transmitted before the next packet is received. */
  method TeeOne(ghost w0: World, ghost ops: seq<Op>, w: World, from: Place, outputs: seq<Place>)
    returns (r: Result, ghost ops': seq<Op>)
    requires Running(w0, ops, w) && from in w.places && from != Hand && from !in outputs
    requires AreLinks(w, outputs) && DistinctPlaces(outputs)
    ensures r == RunFrom(w0, ops')
    ensures if r.Ok? then Running(w0, ops', r.w) && Teed(w.places, r.w.places, from, outputs, |w.places[from]|)
            else r.panic == AllocationOverflow
  {
    r, ops' := Ok(w), ops;
    var n := 0;
    RunningIs(w0, ops, w);
    TeedNone(w.places, from, outputs);
    hide Running, RunFrom, Owned, Teed;
    while r.w.places[from] != []
      invariant r.Ok? && r == RunFrom(w0, ops') && Running(w0, ops', r.w)
      invariant 0 <= n <= |w.places[from]| && Teed(w.places, r.w.places, from, outputs, n)
      invariant from in r.w.places && r.w.places[from] == w.places[from][n..]
      decreases |w.places[from]| - n
    {
      ghost var p := r.w.places;
      TeedMeans(w.places, p, from, outputs, n);
      r, ops' := TeePacket(w0, ops', r.w, from, outputs);
      if r.Failed? {
        return;
      }
      TeedMore(w.places, p, r.w.places, from, outputs, n);
      n := n + 1;
      TeedMeans(w.places, r.w.places, from, outputs, n);
    }
  }

  /** One packet: receive, copy to every output, free. */
  method TeePacket(ghost w0: World, ghost ops: seq<Op>, w: World, from: Place, outputs: seq<Place>)
    returns (r: Result, ghost ops': seq<Op>)
    requires Running(w0, ops, w) && HasPacket(w, from) && from !in outputs
    requires AreLinks(w, outputs) && DistinctPlaces(outputs)
    ensures r == RunFrom(w0, ops')
    ensures if r.Ok? then Running(w0, ops', r.w) && Teed(w.places, r.w.places, from, outputs, 1)
            else r.panic == AllocationOverflow
  {
    RunningIs(w0, ops, w);
    var hand := w.places[Hand];
    hide Running, RunFrom, Owned, SameBut, AreLinks, Teed, Supplied;
    var p;
    r, p, ops' := ReceiveHeld(w0, ops, w, from);
    ghost var held := r.w.places;
    LinksRemain(w, r.w, outputs);
    r, ops' := CopyToAll(w0, ops', r.w, outputs);
    if r.Ok? {
      ghost var copied := r.w.places;
      HandStays(held, copied, outputs);
      r, ops' := FreeHeld(w0, ops', r.w, hand, p);
      OnePacketTeed(w, held, copied, from, outputs, p);
    }
  }

  lemma LinksRemain(w: World, w': World, outputs: seq<Place>)
    requires AreLinks(w, outputs) && w.places.Keys <= w'.places.Keys
    ensures AreLinks(w', outputs) && Hand !in outputs
  {
  }

  lemma HandStays(a: Places, b: Places, outputs: seq<Place>)
    requires Hand in a && Hand !in outputs && Supplied(a, b, outputs, 1)
    ensures Hand in b && b[Hand] == a[Hand]
  {
  }

  lemma OnePacketTeed(w: World, held: Places, copied: Places, from: Place, outputs: seq<Place>, p: nat)
    requires Hand in w.places && from in w.places && from != Hand && w.places[from] != []
    requires from !in outputs && AreLinks(w, outputs)
    requires held == w.places[from := w.places[from][1..]][Hand := w.places[Hand] + [p]]
    requires Supplied(held, copied, outputs, 1)
    ensures Teed(w.places, copied[Hand := w.places[Hand]], from, outputs, 1)
  {
    hide Grew;
  }

  /** A copy to every output. */
  method CopyToAll(ghost w0: World, ghost ops: seq<Op>, w: World, outputs: seq<Place>)
    returns (r: Result, ghost ops': seq<Op>)
    requires Running(w0, ops, w) && AreLinks(w, outputs) && DistinctPlaces(outputs)
    ensures r == RunFrom(w0, ops')
    ensures if r.Ok? then Running(w0, ops', r.w) && Supplied(w.places, r.w.places, outputs, 1)
            else r.panic == AllocationOverflow
  {
    r, ops' := Ok(w), ops;
    RunningIs(w0, ops, w);
    assert Supplying(w.places, w.places, outputs, 0, 1);
    hide Running, RunFrom, Owned, Supplying, SameBut, Grew;
    var i := 0;
    while i < |outputs|
      invariant 0 <= i <= |outputs| && r.Ok? && r == RunFrom(w0, ops') && Running(w0, ops', r.w)
      invariant Supplying(w.places, r.w.places, outputs, i, 1)
    {
      ghost var p := r.w.places;
      SupplyingReady(w.places, p, outputs, i, 1);
      r, ops' := AllocateAndTransmit(w0, ops', r.w, outputs[i]);
      if r.Failed? {
        return;
      }
      SameButHas(p, r.w.places, {outputs[i]}, outputs[i]);
      SupplyingNext(w.places, p, outputs, i, 1, r.w.places);
      i := i + 1;
    }
    SupplyingEnd(w.places, r.w.places, outputs, 1);
  }

  lemma RunningIs(w0: World, ops: seq<Op>, w: World)
    requires Running(w0, ops, w)
    ensures RunFrom(w0, ops) == Ok(w) && Hand in w.places
  {
  }

  /** Two programs, one after the other, are one. */
  lemma {:induction false} ProgramsCompose(w0: World, a: seq<Op>, w1: World, b: seq<Op>, w2: World)
    requires Running(w0, a, w1) && Running(w1, b, w2)
    ensures Running(w0, a + b, w2)
  {
    RunsCompose(w0, a, w1, b);
    hide RunFrom, Owned;
  }

  lemma {:induction false} RunsCompose(w0: World, a: seq<Op>, w1: World, b: seq<Op>)
    requires Hand in w0.places && Hand in w1.places && RunFrom(w0, a) == Ok(w1)
    ensures RunFrom(w0, a + b) == RunFrom(w1, b)
  {
    if b == [] {
      assert a + b == a;
    } else {
      RunsCompose(w0, a, w1, b[..|b| - 1]);
      assert (a + b)[..|a + b| - 1] == a + b[..|b| - 1];
    }
  }
}
