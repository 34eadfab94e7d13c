/** `rush/src/flow.rs`: the Split app, which forwards packets by the flow they match. */
module Splits {
  import opened OnesComplement
  import opened Headers
  import opened FlowIds
  import opened FlowTops
  import opened Links
  import Configs

  const DEFAULT := "default"

  predicate PortInRange(data: Data, flow: Configs.Flow) {
    flow.portMin <= Port(data, flow.dir) <= flow.portMax
  }

  /** `flow_match`. */
  predicate FlowMatch(data: Data, flow: Configs.Flow) {
    if EtherType(data) != TYPE_IPV4 then false
    else if Ihl(data) > 5 then false
    else if flow.ip > 0 && Address(data, flow.dir) != flow.ip then false
    else if flow.protocol > 0 && Protocol(data) != flow.protocol then false
    else if flow.protocol == PROTOCOL_TCP then PortInRange(data, flow)
    else if flow.protocol == PROTOCOL_UDP then PortInRange(data, flow)
    else true
  }

  /** Which packets match a flow, read off their own bytes: IPv4 without options, the flow's
      address and protocol unless zero, and for TCP and UDP a port in its range. */
  lemma MatchExactly(data: Data, flow: Configs.Flow)
    ensures FlowMatch(data, flow) <==>
              && Get16(data, 12) == 0x0800 && data[14] % 16 <= 5
              && (flow.ip == 0 || flow.ip == Address(data, flow.dir))
              && (flow.protocol == 0 || flow.protocol == data[23])
              && (flow.protocol == 6 || flow.protocol == 17 ==>
                    flow.portMin <= Get16(data, if flow.dir.Src? then 34 else 36) <= flow.portMax)
  {
    hide Get16, Address;
  }

  /** A flow as a set of flow tuples. */
  predicate Covers(flow: Configs.Flow, t: FlowTuple) {
    && (flow.ip == 0 || flow.ip == t.ip)
    && (flow.protocol == 0 || flow.protocol == t.protocol)
    && (flow.protocol == PROTOCOL_TCP || flow.protocol == PROTOCOL_UDP ==> flow.portMin <= t.port <= flow.portMax)
  }

  /** Split and Top agree: an IPv4 packet without options matches a flow exactly when the tuple
      that Top profiles it as is one of the flow's. */
  lemma MatchIsCover(data: Data, flow: Configs.Flow)
    requires EtherType(data) == TYPE_IPV4 && Ihl(data) == 5
    ensures FlowMatch(data, flow) <==> Covers(flow, TupleOf(data, flow.dir))
  {
    hide Address, Port, EtherType, Ihl, Protocol;
  }

  /** With a shorter IHL they do not: Split still looks at ports, and Top does not. */
  lemma LowIhlDisagrees(data: Data, dir: Configs.Dir)
    requires EtherType(data) == TYPE_IPV4 && Ihl(data) < 5 && Protocol(data) == PROTOCOL_TCP && Port(data, dir) > 0
    ensures var port := Port(data, dir);
            var flow := Configs.Flow("web", dir, 0, PROTOCOL_TCP, port, port);
            FlowMatch(data, flow) && !Covers(flow, TupleOf(data, dir))
  {
  }

  /** The output that a packet goes to: the first matching flow's, or else the default. */
  function Route(flows: seq<Configs.Flow>, data: Data): string {
    if |flows| == 0 then DEFAULT
    else if FlowMatch(data, flows[0]) then flows[0].tag
    else Route(flows[1..], data)
  }

  ghost predicate FirstMatch(flows: seq<Configs.Flow>, data: Data, k: nat) {
    && k <= |flows| && (k < |flows| ==> FlowMatch(data, flows[k]))
    && forall j :: 0 <= j < k ==> !FlowMatch(data, flows[j])
  }

  lemma {:induction false} RouteIsFirstMatch(flows: seq<Configs.Flow>, data: Data, k: nat)
    requires FirstMatch(flows, data, k)
    ensures Route(flows, data) == if k == |flows| then DEFAULT else flows[k].tag
  {
    hide FlowMatch;
    if k > 0 {
      RouteIsFirstMatch(flows[1..], data, k - 1);
    }
  }

  /** Packets other than IPv4, and IPv4 packets with options, go to the default output whatever
      the flows are. */
  lemma {:induction false} OthersGoToDefault(flows: seq<Configs.Flow>, data: Data)
    requires Get16(data, 12) != 0x0800 || data[14] % 16 > 5
    ensures Route(flows, data) == DEFAULT
  {
    if |flows| > 0 {
      MatchExactly(data, flows[0]);
      OthersGoToDefault(flows[1..], data);
    }
    hide FlowMatch;
  }

  // The app

  type Outputs = map<string, Link<Frame>>

  /** Every output it unwraps is linked: the default and one for each flow. No flow has the
      reserved label, whose output the app would borrow twice. */
  predicate Linked(outputs: Outputs, flows: seq<Configs.Flow>) {
    DEFAULT in outputs && forall k :: 0 <= k < |flows| ==> flows[k].tag in outputs && flows[k].tag != DEFAULT
  }

  /** Links of one app are different links. */
  ghost predicate Distinct(input: Link<Frame>, outputs: Outputs) {
    && (forall l :: l in outputs ==> outputs[l] != input && outputs[l].packets != input.packets)
    && forall l, m :: l in outputs && m in outputs && l != m ==>
         outputs[l] != outputs[m] && outputs[l].packets != outputs[m].packets
  }

  ghost function Rings(outputs: Outputs): set<object> {
    set l | l in outputs :: outputs[l].packets
  }

  ghost function LinksOf(outputs: Outputs): set<object> {
    set l | l in outputs :: outputs[l]
  }

  /** Of some packets, those that go to one output, in order. */
  function Routed(flows: seq<Configs.Flow>, ps: seq<Frame>, tag: string): seq<Frame> {
    if |ps| == 0 then []
    else
      Routed(flows, ps[..|ps| - 1], tag)
      + if Route(flows, ps[|ps| - 1].data) == tag then [ps[|ps| - 1]] else []
  }

  lemma RoutedNext(flows: seq<Configs.Flow>, ps: seq<Frame>, tag: string, k: nat)
    requires k < |ps|
    ensures Routed(flows, ps[..k + 1], tag)
            == Routed(flows, ps[..k], tag) + if Route(flows, ps[k].data) == tag then [ps[k]] else []
  {
    assert ps[..k + 1][..k] == ps[..k];
  }

  ghost function Histories(outputs: Outputs): map<string, History<Frame>>
    reads LinksOf(outputs)
  {
    map l | l in outputs :: outputs[l].history
  }

  ghost predicate AllValid(outputs: Outputs)
    reads LinksOf(outputs), Rings(outputs)
  {
    forall l :: l in outputs ==> outputs[l].Valid()
  }

  /** Each output was sent its share of the first `k` packets, in order. */
  ghost predicate Shared(flows: seq<Configs.Flow>, waiting: seq<Frame>, start: map<string, History<Frame>>, k: nat,
                         now: map<string, History<Frame>>)
    requires k <= |waiting|
  {
    && now.Keys == start.Keys
    && forall l :: l in start ==> now[l] == SendAll(start[l], Routed(flows, waiting[..k], l))
  }

  ghost predicate SplitReached(flows: seq<Configs.Flow>, waiting: seq<Frame>, start: map<string, History<Frame>>,
                               k: nat,
                               input: Link<Frame>, outputs: Outputs)
    requires k <= |waiting|
    reads input, input.packets, LinksOf(outputs), Rings(outputs)
  {
    && input.Valid() && AllValid(outputs) && Distinct(input, outputs)
    && input.Contents() == waiting[k..]
    && Shared(flows, waiting, start, k, Histories(outputs))
  }

  method FindOutput(flows: seq<Configs.Flow>, data: Data) returns (tag: string)
    ensures tag == Route(flows, data)
  {
    hide FlowMatch;
    tag := DEFAULT;
    var k := 0;
    while k < |flows|
      invariant k <= |flows| && tag == DEFAULT
      invariant Route(flows, data) == Route(flows[k..], data)
    {
      if FlowMatch(data, flows[k]) {
        tag := flows[k].tag;
        return;
      }
      k := k + 1;
    }
  }

  method TransmitTo(outputs: Outputs, tag: string, p: Frame, input: Link<Frame>)
    requires tag in outputs && AllValid(outputs) && Distinct(input, outputs) && input.Valid()
    modifies LinksOf(outputs), Rings(outputs)
    ensures AllValid(outputs) && input.Valid() && input.Contents() == old(input.Contents())
    ensures Histories(outputs) == old(Histories(outputs))[tag := Step(old(Histories(outputs))[tag], Send(p))]
  {
    hide Link.Valid, Step;
    outputs[tag].Transmit(p);
  }

  /** Empty the input, each packet to its output; an output no packet is routed to is left alone. */
  method SplitPush(input: Link<Frame>, outputs: Outputs, flows: seq<Configs.Flow>)
    requires input.Valid() && AllValid(outputs) && Distinct(input, outputs) && Linked(outputs, flows)
    modifies input, LinksOf(outputs), Rings(outputs)
    ensures input.Valid() && AllValid(outputs) && input.Contents() == []
    ensures Shared(flows, old(input.Contents()), old(Histories(outputs)), |old(input.Contents())|, Histories(outputs))
  {
    ghost var waiting, start := input.Contents(), Histories(outputs);
    var k: nat := 0;
    input.Cursors();
    StartShared(flows, waiting, start);
    assert waiting[0..] == waiting;
    assert SplitReached(flows, waiting, start, 0, input, outputs);
    hide Link.Valid, SplitReached, Shared, Linked, Histories;
    while !input.Empty()
      invariant k <= |waiting| && SplitReached(flows, waiting, start, k, input, outputs)
      invariant input.Empty() <==> k == |waiting|
      decreases |waiting| - k
    {
      SplitOne(flows, waiting, start, k, input, outputs);
      k := k + 1;
    }
    SplitEnd(flows, waiting, start, input, outputs);
  }

  lemma StartShared(flows: seq<Configs.Flow>, waiting: seq<Frame>, start: map<string, History<Frame>>)
    ensures Shared(flows, waiting, start, 0, start)
  {
    forall l | l in start ensures start[l] == SendAll(start[l], Routed(flows, waiting[..0], l)) {
      SendNone(start[l]);
    }
  }

  lemma SplitEnd(flows: seq<Configs.Flow>, waiting: seq<Frame>, start: map<string, History<Frame>>,
                 input: Link<Frame>, outputs: Outputs)
    requires SplitReached(flows, waiting, start, |waiting|, input, outputs)
    ensures input.Valid() && AllValid(outputs) && input.Contents() == []
    ensures Shared(flows, waiting, start, |waiting|, Histories(outputs))
  {
  }

  lemma SharedNext(flows: seq<Configs.Flow>, waiting: seq<Frame>, start: map<string, History<Frame>>, k: nat,
                   now: map<string, History<Frame>>)
    requires k < |waiting| && Shared(flows, waiting, start, k, now) && Route(flows, waiting[k].data) in start
    ensures var tag := Route(flows, waiting[k].data);
            Shared(flows, waiting, start, k + 1, now[tag := Step(now[tag], Send(waiting[k]))])
  {
    hide Route, Step, SendAll, Routed;
    var tag := Route(flows, waiting[k].data);
    forall l | l in start
      ensures now[tag := Step(now[tag], Send(waiting[k]))][l] == SendAll(start[l], Routed(flows, waiting[..k + 1], l))
    {
      RoutedNext(flows, waiting, l, k);
      var sofar := Routed(flows, waiting[..k], l);
      assert sofar + [] == sofar;
      SendOneMore(start[l], sofar, waiting[k]);
    }
  }

  lemma {:induction false} RouteIsLinked(outputs: Outputs, flows: seq<Configs.Flow>, data: Data)
    requires Linked(outputs, flows)
    ensures Route(flows, data) in outputs
  {
    hide FlowMatch;
    if |flows| > 0 {
      assert forall k :: 0 <= k < |flows[1..]| ==> flows[1..][k] == flows[k + 1];
      RouteIsLinked(outputs, flows[1..], data);
    }
  }

  method SplitOne(flows: seq<Configs.Flow>, ghost waiting: seq<Frame>, ghost start: map<string, History<Frame>>,
                  ghost k: nat, input: Link<Frame>, outputs: Outputs)
    requires k < |waiting| && Linked(outputs, flows) && SplitReached(flows, waiting, start, k, input, outputs)
    modifies input, LinksOf(outputs), Rings(outputs)
    ensures SplitReached(flows, waiting, start, k + 1, input, outputs)
    ensures input.Empty() <==> k + 1 == |waiting|
  {
    assert waiting[k..][1..] == waiting[k + 1..] && waiting[k..][0] == waiting[k];
    RouteIsLinked(outputs, flows, waiting[k].data);
    assert Histories(outputs).Keys == outputs.Keys && Histories(outputs).Keys == start.Keys;
    SharedNext(flows, waiting, start, k, Histories(outputs));
    hide Link.Valid, Shared, Linked, Route, Step, Histories;
    SplitStep(flows, input, outputs);
    input.Cursors();
  }

  method SplitStep(flows: seq<Configs.Flow>, input: Link<Frame>, outputs: Outputs)
    requires input.Valid() && AllValid(outputs) && Distinct(input, outputs) && input.Contents() != []
    requires Route(flows, input.Contents()[0].data) in outputs
    modifies input, LinksOf(outputs), Rings(outputs)
    ensures input.Valid() && AllValid(outputs) && input.Contents() == old(input.Contents())[1..]
    ensures var p := old(input.Contents())[0];
            var tag := Route(flows, p.data);
            tag in old(Histories(outputs))
            && Histories(outputs) == old(Histories(outputs))[tag := Step(old(Histories(outputs))[tag], Send(p))]
  {
    hide Link.Valid, Route, Step;
    ghost var before := Histories(outputs);
    var p := input.Receive();
    assert Histories(outputs) == before;
    var tag := FindOutput(flows, p.data);
    TransmitTo(outputs, tag, p, input);
  }

  // Conservation

  function TotalRouted(flows: seq<Configs.Flow>, ps: seq<Frame>, tags: seq<string>): nat {
    if |tags| == 0 then 0 else |Routed(flows, ps, tags[0])| + TotalRouted(flows, ps, tags[1..])
  }

  predicate NoRepeats(tags: seq<string>) {
    |tags| == 0 || (tags[0] !in tags[1..] && NoRepeats(tags[1..]))
  }

  lemma {:induction false} TotalNext(flows: seq<Configs.Flow>, ps: seq<Frame>, tags: seq<string>)
    requires |ps| > 0 && NoRepeats(tags)
    ensures TotalRouted(flows, ps, tags)
            == TotalRouted(flows, ps[..|ps| - 1], tags) + if Route(flows, ps[|ps| - 1].data) in tags then 1 else 0
  {
    hide Route;
    if |tags| > 0 {
      TotalNext(flows, ps, tags[1..]);
      assert tags == [tags[0]] + tags[1..];
    }
  }

  lemma {:induction false} TotalOfNone(flows: seq<Configs.Flow>, tags: seq<string>)
    ensures TotalRouted(flows, [], tags) == 0
  {
    if |tags| > 0 {
      TotalOfNone(flows, tags[1..]);
    }
  }

  /** Every packet goes to exactly one output. */
  lemma {:induction false} SplitConserves(flows: seq<Configs.Flow>, ps: seq<Frame>, tags: seq<string>)
    requires NoRepeats(tags) && forall k :: 0 <= k < |ps| ==> Route(flows, ps[k].data) in tags
    ensures TotalRouted(flows, ps, tags) == |ps|
  {
    hide Route;
    if |ps| == 0 {
      TotalOfNone(flows, tags);
      assert ps == [];
    } else {
      SplitConserves(flows, ps[..|ps| - 1], tags);
      TotalNext(flows, ps, tags);
    }
  }
}
