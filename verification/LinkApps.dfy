/** The apps of `rush/src/basic_apps.rs` on links whose packets have contents: what Source, Tee and
    Join send on their outputs. A hash map's links come in any order. */
module LinkApps {
  import opened Words
  import opened Links

  const PULL_NPACKETS: nat := LINK_MAX_PACKETS / 10

  /** A link of frames: of a packet, its first `length` bytes. */
  type FrameLink = Link<seq<byte>>

  ghost function Objects(ls: seq<FrameLink>): set<object> {
    set l | l in ls
  }

  ghost function Rings(ls: seq<FrameLink>): set<object> {
    set l | l in ls :: l.packets
  }

  /** Links of one app are different links. */
  ghost predicate Separate(ls: seq<FrameLink>) {
    forall i, j :: 0 <= i < j < |ls| ==> ls[i] != ls[j] && ls[i].packets != ls[j].packets
  }

  ghost predicate Apart(l: FrameLink, ls: seq<FrameLink>) {
    forall i :: 0 <= i < |ls| ==> l != ls[i] && l.packets != ls[i].packets
  }

  ghost predicate AllValid(ls: seq<FrameLink>)
    reads Objects(ls), Rings(ls)
  {
    forall i :: 0 <= i < |ls| ==> ls[i].Valid()
  }

  ghost function Histories(ls: seq<FrameLink>): (r: seq<History<seq<byte>>>)
    reads Objects(ls)
    ensures |r| == |ls| && forall i :: 0 <= i < |ls| ==> r[i] == ls[i].history
  {
    seq(|ls|, i requires 0 <= i < |ls| reads Objects(ls) => ls[i].history)
  }

  /** Each of some links was sent some frames, in order. */
  ghost predicate AllSent(start: seq<History<seq<byte>>>, now: seq<History<seq<byte>>>, ps: seq<seq<byte>>) {
    |now| == |start| && forall i :: 0 <= i < |start| ==> now[i] == SendAll(start[i], ps)
  }

  lemma NoneSent(start: seq<History<seq<byte>>>)
    ensures AllSent(start, start, [])
  {
    forall i | 0 <= i < |start| ensures start[i] == SendAll(start[i], []) {
      SendNone(start[i]);
    }
  }

  /** One link of some is sent one frame. */
  method TransmitTo(ls: seq<FrameLink>, i: nat, p: seq<byte>, ghost start: seq<History<seq<byte>>>)
    requires i < |ls| && AllValid(ls) && Separate(ls) && start == Histories(ls)
    modifies ls[i], ls[i].packets
    ensures AllValid(ls) && Histories(ls) == start[i := Step(start[i], Send(p))]
  {
    hide Link.Valid, Step;
    ls[i].Transmit(p);
  }

  /** Every link is sent one frame. */
  method SendToAll(ls: seq<FrameLink>, p: seq<byte>, ghost start: seq<History<seq<byte>>>, ghost sent: seq<seq<byte>>)
    requires AllValid(ls) && Separate(ls) && AllSent(start, Histories(ls), sent)
    modifies Objects(ls), Rings(ls)
    ensures AllValid(ls) && AllSent(start, Histories(ls), sent + [p])
  {
    hide Link.Valid, Step, SendAll;
    ghost var before := Histories(ls);
    var i := 0;
    while i < |ls|
      invariant 0 <= i <= |ls| && AllValid(ls)
      invariant forall j :: 0 <= j < i ==> Histories(ls)[j] == Step(before[j], Send(p))
      invariant forall j :: i <= j < |ls| ==> Histories(ls)[j] == before[j]
    {
      TransmitTo(ls, i, p, Histories(ls));
      i := i + 1;
    }
    EachSent(start, before, Histories(ls), sent, p);
  }

  lemma EachSent(start: seq<History<seq<byte>>>, before: seq<History<seq<byte>>>, now: seq<History<seq<byte>>>,
                 sent: seq<seq<byte>>, p: seq<byte>)
    requires AllSent(start, before, sent) && |now| == |before|
    requires forall j :: 0 <= j < |now| ==> now[j] == Step(before[j], Send(p))
    ensures AllSent(start, now, sent + [p])
  {
    hide Step, SendAll;
    forall j | 0 <= j < |start| ensures now[j] == SendAll(start[j], sent + [p]) {
      SendOneMore(start[j], sent, p);
    }
  }

  // Tee

  /** The first `k` packets of an input were sent to every output. */
  ghost predicate TeeReached(waiting: seq<seq<byte>>, start: seq<History<seq<byte>>>, sent: seq<seq<byte>>, k: nat,
                             input: FrameLink, outputs: seq<FrameLink>)
    requires k <= |waiting|
    reads input, input.packets, Objects(outputs), Rings(outputs)
  {
    && input.Valid() && AllValid(outputs) && Separate(outputs) && Apart(input, outputs)
    && input.Contents() == waiting[k..]
    && AllSent(start, Histories(outputs), sent + waiting[..k])
  }

  method TeeInput(input: FrameLink, outputs: seq<FrameLink>, ghost start: seq<History<seq<byte>>>,
                  ghost sent: seq<seq<byte>>)
    requires input.Valid() && AllValid(outputs) && Separate(outputs) && Apart(input, outputs)
    requires AllSent(start, Histories(outputs), sent)
    modifies input, Objects(outputs), Rings(outputs)
    ensures input.Valid() && AllValid(outputs) && input.Contents() == []
    ensures AllSent(start, Histories(outputs), sent + old(input.Contents()))
  {
    ghost var waiting := input.Contents();
    ghost var k: nat := 0;
    input.Cursors();
    assert waiting[0..] == waiting && sent + waiting[..0] == sent;
    assert TeeReached(waiting, start, sent, 0, input, outputs);
    hide Link.Valid, TeeReached, AllSent, Histories;
    while !input.Empty()
      invariant k <= |waiting| && TeeReached(waiting, start, sent, k, input, outputs)
      invariant input.Empty() <==> k == |waiting|
      decreases |waiting| - k
    {
      TeeOne(waiting, start, sent, k, input, outputs);
      k := k + 1;
    }
    TeeEnd(waiting, start, sent, input, outputs);
  }

  lemma TeeEnd(waiting: seq<seq<byte>>, start: seq<History<seq<byte>>>, sent: seq<seq<byte>>,
               input: FrameLink, outputs: seq<FrameLink>)
    requires TeeReached(waiting, start, sent, |waiting|, input, outputs)
    ensures input.Valid() && AllValid(outputs) && input.Contents() == []
    ensures AllSent(start, Histories(outputs), sent + waiting)
  {
    assert waiting[..|waiting|] == waiting;
  }

  method TeeOne(ghost waiting: seq<seq<byte>>, ghost start: seq<History<seq<byte>>>, ghost sent: seq<seq<byte>>,
                ghost k: nat, input: FrameLink, outputs: seq<FrameLink>)
    requires k < |waiting| && TeeReached(waiting, start, sent, k, input, outputs)
    modifies input, Objects(outputs), Rings(outputs)
    ensures TeeReached(waiting, start, sent, k + 1, input, outputs)
    ensures input.Empty() <==> k + 1 == |waiting|
  {
    assert waiting[k..][1..] == waiting[k + 1..] && waiting[k..][0] == waiting[k];
    assert sent + waiting[..k] + [waiting[k]] == sent + waiting[..k + 1];
    hide Link.Valid, AllSent, Step;
    TeeStep(input, outputs, start, sent + waiting[..k]);
    input.Cursors();
  }

  /** Receive a packet, and send a copy of it on every output. */
  method TeeStep(input: FrameLink, outputs: seq<FrameLink>, ghost start: seq<History<seq<byte>>>,
                 ghost sent: seq<seq<byte>>)
    requires input.Valid() && AllValid(outputs) && Separate(outputs) && Apart(input, outputs)
    requires input.Contents() != [] && AllSent(start, Histories(outputs), sent)
    modifies input, Objects(outputs), Rings(outputs)
    ensures input.Valid() && AllValid(outputs) && input.Contents() == old(input.Contents())[1..]
    ensures AllSent(start, Histories(outputs), sent + [old(input.Contents())[0]])
  {
    hide Link.Valid, AllSent, Step;
    ghost var before := Histories(outputs);
    var p := input.Receive();
    assert Histories(outputs) == before;
    SendToAll(outputs, p, start, sent);
  }

  /** What some links hold. */
  ghost function Holdings(ls: seq<FrameLink>): (r: seq<seq<seq<byte>>>)
    reads Objects(ls)
    ensures |r| == |ls| && forall i :: 0 <= i < |ls| ==> r[i] == ls[i].Contents()
  {
    seq(|ls|, i requires 0 <= i < |ls| reads Objects(ls) => ls[i].Contents())
  }

  /** The packets of some links, one link after the other. */
  function Together(holdings: seq<seq<seq<byte>>>): seq<seq<byte>> {
    if |holdings| == 0 then [] else Together(holdings[..|holdings| - 1]) + holdings[|holdings| - 1]
  }

  lemma TogetherNext(holdings: seq<seq<seq<byte>>>, i: nat)
    requires i < |holdings|
    ensures Together(holdings[..i + 1]) == Together(holdings[..i]) + holdings[i]
  {
    assert holdings[..i + 1][..i] == holdings[..i];
  }

  /** Links of an app: all different, and none both an input and an output. */
  ghost predicate Disjoint(inputs: seq<FrameLink>, outputs: seq<FrameLink>) {
    Separate(inputs) && Separate(outputs) && forall i :: 0 <= i < |inputs| ==> Apart(inputs[i], outputs)
  }

  /** The first `i` inputs are empty, and their packets were sent to every output. */
  ghost predicate Teed(holdings: seq<seq<seq<byte>>>, start: seq<History<seq<byte>>>, i: nat,
                       inputs: seq<FrameLink>, outputs: seq<FrameLink>)
    reads Objects(inputs), Rings(inputs), Objects(outputs), Rings(outputs)
  {
    && Disjoint(inputs, outputs) && AllValid(inputs) && AllValid(outputs)
    && i <= |inputs| == |holdings| && AllSent(start, Histories(outputs), Together(holdings[..i]))
    && (forall j :: 0 <= j < i ==> inputs[j].Contents() == [])
    && (forall j :: i <= j < |inputs| ==> inputs[j].Contents() == holdings[j])
  }

  /** Tee: every output is sent a copy of every packet, one input after the other and each in
      order; all inputs end empty. */
  method TeePush(inputs: seq<FrameLink>, outputs: seq<FrameLink>)
    requires Disjoint(inputs, outputs) && AllValid(inputs) && AllValid(outputs)
    modifies Objects(inputs), Objects(outputs), Rings(outputs)
    ensures AllValid(inputs) && AllValid(outputs)
    ensures forall i :: 0 <= i < |inputs| ==> inputs[i].Contents() == []
    ensures AllSent(old(Histories(outputs)), Histories(outputs), Together(old(Holdings(inputs))))
  {
    ghost var start, holdings := Histories(outputs), Holdings(inputs);
    NoneSent(start);
    assert holdings[..0] == [];
    assert Teed(holdings, start, 0, inputs, outputs);
    hide Teed, AllValid, Disjoint, AllSent, Histories, Together;
    var i := 0;
    while i < |inputs|
      invariant 0 <= i <= |inputs| && Teed(holdings, start, i, inputs, outputs)
    {
      TeeNext(holdings, start, i, inputs, outputs);
      i := i + 1;
    }
    TeedAll(holdings, start, inputs, outputs);
  }

  lemma TeedAll(holdings: seq<seq<seq<byte>>>, start: seq<History<seq<byte>>>,
                inputs: seq<FrameLink>, outputs: seq<FrameLink>)
    requires Teed(holdings, start, |inputs|, inputs, outputs)
    ensures AllValid(inputs) && AllValid(outputs)
    ensures forall i :: 0 <= i < |inputs| ==> inputs[i].Contents() == []
    ensures AllSent(start, Histories(outputs), Together(holdings))
  {
    assert holdings[..|inputs|] == holdings;
  }

  method TeeNext(ghost holdings: seq<seq<seq<byte>>>, ghost start: seq<History<seq<byte>>>, i: nat,
                 inputs: seq<FrameLink>, outputs: seq<FrameLink>)
    requires i < |inputs| && Teed(holdings, start, i, inputs, outputs)
    modifies Objects(inputs), Objects(outputs), Rings(outputs)
    ensures Teed(holdings, start, i + 1, inputs, outputs)
  {
    hide *;
    TeedParts(holdings, start, i, inputs, outputs);
    ghost var before := Holdings(inputs);
    TeeAmong(inputs, i, outputs, start, Together(holdings[..i]));
    TeedNext(holdings, start, i, inputs, outputs, before);
  }

  lemma TeedParts(holdings: seq<seq<seq<byte>>>, start: seq<History<seq<byte>>>, i: nat,
                  inputs: seq<FrameLink>, outputs: seq<FrameLink>)
    requires Teed(holdings, start, i, inputs, outputs)
    ensures Disjoint(inputs, outputs) && AllValid(inputs) && AllValid(outputs) && |holdings| == |inputs|
    ensures i <= |holdings| && AllSent(start, Histories(outputs), Together(holdings[..i]))
    ensures forall j :: 0 <= j < i ==> Holdings(inputs)[j] == []
    ensures forall j :: i <= j < |inputs| ==> Holdings(inputs)[j] == holdings[j]
  {
  }

  lemma TeedNext(holdings: seq<seq<seq<byte>>>, start: seq<History<seq<byte>>>, i: nat,
                 inputs: seq<FrameLink>, outputs: seq<FrameLink>, before: seq<seq<seq<byte>>>)
    requires i < |inputs| == |holdings| && |before| == |inputs|
    requires Disjoint(inputs, outputs) && AllValid(inputs) && AllValid(outputs)
    requires forall j :: 0 <= j < i ==> before[j] == []
    requires forall j :: i <= j < |inputs| ==> before[j] == holdings[j]
    requires Holdings(inputs) == before[i := []]
    requires AllSent(start, Histories(outputs), Together(holdings[..i]) + before[i])
    ensures Teed(holdings, start, i + 1, inputs, outputs)
  {
    TogetherNext(holdings, i);
    hide AllValid, AllSent, Together, Disjoint, Histories;
    assert forall j :: 0 <= j < |inputs| ==> inputs[j].Contents() == Holdings(inputs)[j];
  }

  /** Emptying one input leaves the others alone. */
  method TeeAmong(inputs: seq<FrameLink>, i: nat, outputs: seq<FrameLink>, ghost start: seq<History<seq<byte>>>,
                  ghost sent: seq<seq<byte>>)
    requires i < |inputs| && Disjoint(inputs, outputs) && AllValid(inputs) && AllValid(outputs)
    requires AllSent(start, Histories(outputs), sent)
    modifies Objects(inputs), Objects(outputs), Rings(outputs)
    ensures AllValid(inputs) && AllValid(outputs)
    ensures Holdings(inputs) == old(Holdings(inputs))[i := []]
    ensures AllSent(start, Histories(outputs), sent + old(Holdings(inputs))[i])
  {
    hide Link.Valid, AllSent, Histories;
    TeeInput(inputs[i], outputs, start, sent);
  }

  // Source

  function Repeated(p: seq<byte>, n: nat): (r: seq<seq<byte>>)
    ensures |r| == n && forall i :: 0 <= i < n ==> r[i] == p
  {
    if n == 0 then [] else Repeated(p, n - 1) + [p]
  }

  function Zeros(size: u16): (r: seq<byte>)
    ensures |r| == size && forall i :: 0 <= i < size ==> r[i] == 0
  {
    seq(size, i => 0)
  }

  /** The first `i` outputs were sent `n` packets, the others none. */
  ghost predicate Filled(start: seq<History<seq<byte>>>, now: seq<History<seq<byte>>>, i: nat, p: seq<byte>, n: nat) {
    && |now| == |start| && i <= |start|
    && (forall j :: 0 <= j < i ==> now[j] == SendAll(start[j], Repeated(p, n)))
    && (forall j :: i <= j < |start| ==> now[j] == start[j])
  }

  /** Source: every output is sent 102 packets of `size` zeros. */
  method SourcePull(outputs: seq<FrameLink>, size: u16)
    requires AllValid(outputs) && Separate(outputs)
    modifies Objects(outputs), Rings(outputs)
    ensures AllValid(outputs)
    ensures AllSent(old(Histories(outputs)), Histories(outputs), Repeated(Zeros(size), PULL_NPACKETS))
  {
    ghost var start := Histories(outputs);
    hide Link.Valid, SendAll, Repeated;
    var i := 0;
    while i < |outputs|
      invariant 0 <= i <= |outputs| && AllValid(outputs)
      invariant Filled(start, Histories(outputs), i, Zeros(size), PULL_NPACKETS)
    {
      SourceOne(outputs, i, Zeros(size));
      i := i + 1;
    }
  }

  method SourceOne(ls: seq<FrameLink>, i: nat, p: seq<byte>)
    requires i < |ls| && AllValid(ls) && Separate(ls)
    modifies ls[i], ls[i].packets
    ensures AllValid(ls)
    ensures var start := old(Histories(ls));
            Histories(ls) == start[i := SendAll(start[i], Repeated(p, PULL_NPACKETS))]
  {
    hide *;
    ghost var start := Histories(ls);
    FillStart(start, i, p);
    var n := 0;
    while n < PULL_NPACKETS
      invariant 0 <= n <= PULL_NPACKETS && AllValid(ls) && |Histories(ls)| == |start| == |ls|
      invariant Histories(ls) == start[i := SendAll(start[i], Repeated(p, n))]
    {
      ghost var before := Histories(ls);
      TransmitTo(ls, i, p, before);
      FillNext(start, before, i, p, n);
      n := n + 1;
    }
  }

  lemma FillStart(start: seq<History<seq<byte>>>, i: nat, p: seq<byte>)
    requires i < |start|
    ensures start == start[i := SendAll(start[i], Repeated(p, 0))]
  {
    SendNone(start[i]);
  }

  lemma FillNext(start: seq<History<seq<byte>>>, before: seq<History<seq<byte>>>, i: nat, p: seq<byte>, n: nat)
    requires i < |start| && before == start[i := SendAll(start[i], Repeated(p, n))]
    ensures before[i := Step(before[i], Send(p))] == start[i := SendAll(start[i], Repeated(p, n + 1))]
  {
    SendOneMore(start[i], Repeated(p, n), p);
    hide SendAll, Step;
  }
}
