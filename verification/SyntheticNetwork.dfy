/** `rush/src/synthetic_network.rs`: generating the configuration of a synthetic network, and
    what every generated network is like. */
module SyntheticNetworks {
  import opened Wrappers
  import opened Configs
  import opened SyntheticNames
  import B = BreatheOrder
  import E = Engine

  const MSS: nat := 1400
  const DELAY_QUEUE_CAPACITY: nat := 100_000

  // What is configured under each name

  function Clamp(r: real): real {
    if r < 0.0 then 0.0 else if r > 1.0 then 1.0 else r
  }

  function FlowsOf(flows: seq<SyntheticFlow>, dir: Dir): (r: seq<Flow>)
    ensures |r| == |flows|
    ensures forall k :: 0 <= k < |flows| ==> r[k] == FlowOf(flows[k], dir)
  {
    if |flows| == 0 then []
    else FlowsOf(flows[..|flows| - 1], dir) + [FlowOf(flows[|flows| - 1], dir)]
  }

  function FlowOf(f: SyntheticFlow, dir: Dir): Flow {
    Flow(f.name, dir, f.ip, f.protocol, f.portMin, f.portMax)
  }

  function QosOf(link: SyntheticLink, dir: Dir): Qos {
    if dir.Src? then link.ingress else link.egress
  }

  function LinkOf(spec: Spec, flow: Option<string>): SyntheticLink {
    if flow.None? then spec.defaultLink else Find(spec.flows, flow.value, spec.defaultLink)
  }

  /** The conditions of the flow of a name. */
  function Find(flows: seq<SyntheticFlow>, name: string, otherwise: SyntheticLink): SyntheticLink {
    if |flows| == 0 then otherwise
    else if flows[0].name == name then flows[0].link
    else Find(flows[1..], name, otherwise)
  }

  lemma {:induction false} FindIs(flows: seq<SyntheticFlow>, k: nat, otherwise: SyntheticLink)
    requires k < |flows| && Sanitary(flows)
    ensures Find(flows, flows[k].name, otherwise) == flows[k].link
  {
    if k > 0 {
      FindIs(flows[1..], k - 1, otherwise);
    }
  }

  function StageArg(stage: Stage, qos: Qos): AppArg {
    match stage
    case RateStage => RateLimiter(qos.rate)
    case LossStage => Loss(Clamp(qos.loss))
    case LatencyStage => Latency(qos.latency, DELAY_QUEUE_CAPACITY)
    case JitterStage => Jitter(qos.jitter, Clamp(qos.strength), qos.reorder, DELAY_QUEUE_CAPACITY)
  }

  /** Each interface segments, sums, profiles and splits what it receives from the network
      behind it; ingress traffic is what the outer interface receives. */
  function ArgOf(x: Setup, id: AppId): AppArg {
    match id
    case Piece(outer, part) => (
      match part
      case Interface => RawSocket(Face(x, outer))
      case Segmenter => TSD(MSS)
      case Offloader => Checksum
      case Profiler => Top(if outer then x.ingressProfile else x.egressProfile, if outer then Src else Dst)
      case Splitter => Split(FlowsOf(x.spec.flows, if outer then Src else Dst))
      case Joiner => Join
    )
    case Chained(dir, stage, flow) => StageArg(stage, QosOf(LinkOf(x.spec, flow), dir))
  }

  // What is linked to what

  /** An input port of an app. */
  datatype Target = Target(app: AppId, port: string)

  function PortOf(flow: Option<string>): string {
    if flow.None? then "default" else flow.value
  }

  /** Where the link on an output port of an app leads; None for a port that is not linked. */
  function Wire(x: Setup, id: AppId, port: string): Option<Target> {
    if id.Piece? && id.part.Splitter? then
      var dir := if id.outer then Src else Dst;
      if port == "default" then Some(Target(Chained(dir, RateStage, None), "input"))
      else if HasFlow(x.spec.flows, port) then Some(Target(Chained(dir, RateStage, Some(port)), "input"))
      else None
    else if port != "output" then None
    else
      match id
      case Piece(outer, part) => (
        match part
        case Interface => Some(Target(Piece(outer, Segmenter), "input"))
        case Segmenter => Some(Target(Piece(outer, Offloader), "input"))
        case Offloader => Some(Target(Piece(outer, Splitter), "input"))
        case Joiner => Some(Target(Piece(!outer, Profiler), "input"))
        case Profiler => Some(Target(Piece(!outer, Interface), "input"))
        case Splitter => None
      )
      case Chained(dir, stage, flow) => (
        match stage
        case RateStage => Some(Target(Chained(dir, LossStage, flow), "input"))
        case LossStage => Some(Target(Chained(dir, LatencyStage, flow), "input"))
        case LatencyStage => Some(Target(Chained(dir, JitterStage, flow), "input"))
        case JitterStage => Some(Target(Piece(dir.Dst?, Joiner), PortOf(flow)))
      )
  }

  /** The output ports that are linked. */
  ghost predicate Wired(x: Setup, id: AppId, port: string) {
    Present(x, id) && Wire(x, id, port).Some?
  }

  lemma WiresStay(x: Setup, id: AppId, port: string)
    requires Wired(x, id, port) && Sanitary(x.spec.flows)
    ensures Present(x, Wire(x, id, port).value.app)
    ensures IsWord(port) && IsWord(Wire(x, id, port).value.port)
  {
  }

  /** No two links end at one port. */
  lemma WireInjective(x: Setup, a: AppId, p: string, b: AppId, q: string)
    requires Sanitary(x.spec.flows) && Wired(x, a, p) && Wired(x, b, q) && Wire(x, a, p) == Wire(x, b, q)
    ensures a == b && p == q
  {
  }

  function LinkText(x: Setup, id: AppId, port: string): string {
    var to := Wire(x, id, port);
    if to.None? then "" else FormatLink(LinkSpec(Render(x, id), port, Render(x, to.value.app), to.value.port))
  }

  lemma LinkTextParses(x: Setup, id: AppId, port: string)
    requires Spelled(x) && Wired(x, id, port)
    ensures var to := Wire(x, id, port).value;
            var l := LinkSpec(Render(x, id), port, Render(x, to.app), to.port);
            && ParseLink(LinkText(x, id, port)) == Some(l)
            && CanonicalLink(LinkText(x, id, port)) == LinkText(x, id, port)
            && SpecOf(LinkText(x, id, port)) == l && Canonical(LinkText(x, id, port))
  {
    WiresStay(x, id, port);
    var to := Wire(x, id, port).value;
    NamesAreWords(x, id);
    NamesAreWords(x, to.app);
    hide Render, Wire, FormatLink, ParseLink, IsWord, Present, NonClashing, Sanitary;
    FormatParses(LinkSpec(Render(x, id), port, Render(x, to.app), to.port));
  }

  // The texts of links, as the source puts them together

  function OutToIn(from: string, to: string): string {
    from + ".output -> " + to + ".input"
  }

  function OutTo(from: string, output: string): string {
    from + ".output -> " + output
  }

  function ToIn(input: string, to: string): string {
    input + " -> " + to + ".input"
  }

  lemma Texts(from: string, port: string, to: string, input: string)
    ensures OutToIn(from, to) == FormatLink(LinkSpec(from, "output", to, "input"))
    ensures OutTo(from, to + "." + input) == FormatLink(LinkSpec(from, "output", to, input))
    ensures OutTo(from, to + ".input") == FormatLink(LinkSpec(from, "output", to, "input"))
    ensures ToIn(from + "." + port, to) == FormatLink(LinkSpec(from, port, to, "input"))
    ensures ToIn(from + ".output", to) == FormatLink(LinkSpec(from, "output", to, "input"))
  {
    assert from + "." + "output" + " -> " == from + ".output -> ";
    assert from + "." + "output" == from + ".output";
    var right := to + "." + input;
    assert from + ".output -> " + right == from + ".output -> " + to + "." + input;
    assert to + "." + "input" == to + ".input";
    assert from + ".output -> " + to + ".input" == from + ".output -> " + (to + ".input");
    assert from + ".output -> " + to + "." + "input" == from + ".output -> " + to + ".input";
    assert from + "." + port + " -> " + to + ".input" == from + "." + port + " -> " + to + "." + "input";
    assert from + ".output" + " -> " + to + ".input" == from + ".output -> " + to + ".input";
  }

  predicate Parses(s: string) {
    ParseLink(s).Some?
  }

  /** A string that the configuration takes for a wanted link. */
  predicate Writes(x: Setup, s: string, id: AppId, port: string) {
    Parses(s) && CanonicalLink(s) == LinkText(x, id, port)
  }

  lemma WritesOutput(x: Setup, id: AppId, other: string)
    requires Spelled(x) && Wired(x, id, "output")
    ensures var to := Wire(x, id, "output").value;
            && (to.port == "input" ==> Writes(x, OutToIn(Render(x, id), Render(x, to.app)), id, "output"))
            && (to.port == "input" ==> Writes(x, OutTo(Render(x, id), Render(x, to.app) + ".input"), id, "output"))
            && (to.port == "input" ==> Writes(x, ToIn(Render(x, id) + ".output", Render(x, to.app)), id, "output"))
            && Writes(x, OutTo(Render(x, id), Render(x, to.app) + "." + to.port), id, "output")
  {
    LinkTextParses(x, id, "output");
    var to := Wire(x, id, "output").value;
    hide Render, Wire, ParseLink, OutToIn, OutTo, ToIn, Spelled, Wired, FormatLink;
    Texts(Render(x, id), other, Render(x, to.app), to.port);
  }

  lemma WritesSplit(x: Setup, id: AppId, port: string)
    requires Spelled(x) && Wired(x, id, port) && Wire(x, id, port).value.port == "input"
    ensures Writes(x, ToIn(Render(x, id) + "." + port, Render(x, Wire(x, id, port).value.app)), id, port)
  {
    LinkTextParses(x, id, port);
    var to := Wire(x, id, port).value;
    hide Render, Wire, ParseLink, OutToIn, OutTo, ToIn, Spelled, Wired, FormatLink;
    Texts(Render(x, id), port, Render(x, to.app), to.port);
  }

  // How far generating has got

  type Port = (AppId, string)

  ghost predicate Built(x: Setup, apps: map<string, AppArg>, ids: set<AppId>) {
    && (forall id :: id in ids ==>
          Present(x, id) && Render(x, id) in apps && (NonClashing(x) ==> apps[Render(x, id)] == ArgOf(x, id)))
    && (forall n :: n in apps ==> exists id :: id in ids && Render(x, id) == n)
  }

  ghost predicate Laid(x: Setup, links: set<string>, ports: set<Port>) {
    && (forall p :: p in ports ==> Wired(x, p.0, p.1) && LinkText(x, p.0, p.1) in links)
    && (forall s :: s in links ==> exists p :: p in ports && LinkText(x, p.0, p.1) == s)
  }

  ghost predicate Reached(x: Setup, apps: map<string, AppArg>, links: set<string>, ids: set<AppId>, ports: set<Port>) {
    Built(x, apps, ids) && Laid(x, links, ports)
  }

  lemma AppAdded(x: Setup, apps: map<string, AppArg>, ids: set<AppId>, id: AppId)
    requires Spelled(x) && Built(x, apps, ids) && Present(x, id)
    ensures Built(x, apps[Render(x, id) := ArgOf(x, id)], ids + {id})
  {
    hide Render, ArgOf, Present, NonClashing;
    var after := apps[Render(x, id) := ArgOf(x, id)];
    forall i | i in ids
      ensures Present(x, i) && Render(x, i) in after && (NonClashing(x) ==> after[Render(x, i)] == ArgOf(x, i))
    {
      if NonClashing(x) && Render(x, i) == Render(x, id) {
        NamesApart(x, i, id);
      }
    }
    forall n | n in after
      ensures exists i :: i in ids + {id} && Render(x, i) == n
    {
      if n in apps {
        var i :| i in ids && Render(x, i) == n;
        assert i in ids + {id};
      } else {
        assert id in ids + {id} && n == Render(x, id);
      }
    }
  }

  lemma LinkAdded(x: Setup, links: set<string>, ports: set<Port>, id: AppId, port: string)
    requires Laid(x, links, ports) && Wired(x, id, port)
    ensures Laid(x, links + {LinkText(x, id, port)}, ports + {(id, port)})
  {
    hide LinkText, Wired;
    forall s | s in links + {LinkText(x, id, port)}
      ensures exists p :: p in ports + {(id, port)} && LinkText(x, p.0, p.1) == s
    {
      if s in links {
        var p :| p in ports && LinkText(x, p.0, p.1) == s;
        assert p in ports + {(id, port)};
      } else {
        assert (id, port) in ports + {(id, port)};
        assert LinkText(x, (id, port).0, (id, port).1) == s;
      }
    }
  }

  lemma PieceAdded(x: Setup, apps: map<string, AppArg>, links: set<string>, ids: set<AppId>, ports: set<Port>,
                   id: AppId, from: AppId, port: string, name: string, arg: AppArg, s: string)
    requires Spelled(x) && Reached(x, apps, links, ids, ports) && Present(x, id) && Wired(x, from, port)
    requires name == Render(x, id) && arg == ArgOf(x, id) && Writes(x, s, from, port)
    ensures Reached(x, apps[name := arg], links + {CanonicalLink(s)}, ids + {id}, ports + {(from, port)})
  {
    AppAdded(x, apps, ids, id);
    LinkAdded(x, links, ports, from, port);
    hide Spelled, Present, Wired, Render, ArgOf, Built, Laid, LinkText, CanonicalLink, ParseLink;
  }

  // Chains

  function QosApps(apps: map<string, AppArg>, tag: string, qos: Qos): map<string, AppArg> {
    apps["rate_" + tag := StageArg(RateStage, qos)]["loss_" + tag := StageArg(LossStage, qos)]
        ["latency_" + tag := StageArg(LatencyStage, qos)]["jitter_" + tag := StageArg(JitterStage, qos)]
  }

  datatype QosTexts = QosTexts(toRate: string, toLoss: string, toLatency: string, toJitter: string, toOutput: string)

  function TextsOf(tag: string, input: string, output: string): QosTexts {
    QosTexts(ToIn(input, "rate_" + tag), OutToIn("rate_" + tag, "loss_" + tag),
             OutToIn("loss_" + tag, "latency_" + tag), OutToIn("latency_" + tag, "jitter_" + tag),
             OutTo("jitter_" + tag, output))
  }

  predicate AllParse(t: QosTexts) {
    Parses(t.toRate) && Parses(t.toLoss) && Parses(t.toLatency) && Parses(t.toJitter) && Parses(t.toOutput)
  }

  function QosLinks(links: set<string>, t: QosTexts): set<string>
    requires AllParse(t)
  {
    links + {CanonicalLink(t.toRate)} + {CanonicalLink(t.toLoss)} + {CanonicalLink(t.toLatency)}
    + {CanonicalLink(t.toJitter)} + {CanonicalLink(t.toOutput)}
  }

  method ConfigureQos(config: Config, tag: string, input: string, output: string, qos: Qos)
    requires AllParse(TextsOf(tag, input, output))
    modifies config
    ensures config.apps == QosApps(old(config.apps), tag, qos)
    ensures config.links == QosLinks(old(config.links), TextsOf(tag, input, output))
  {
    hide ParseLink, CanonicalLink, ToIn, OutTo, OutToIn, Clamp;
    var rate := "rate_" + tag;
    var inputToRate := ToIn(input, rate);
    var loss := "loss_" + tag;
    var rateToLoss := OutToIn(rate, loss);
    var latency := "latency_" + tag;
    var lossToLatency := OutToIn(loss, latency);
    var jitter := "jitter_" + tag;
    var latencyToJitter := OutToIn(latency, jitter);
    var jitterToOutput := OutTo(jitter, output);

    config.AddLink(inputToRate);
    config.App(rate, RateLimiter(qos.rate));
    config.AddLink(rateToLoss);
    config.App(loss, Loss(Clamp(qos.loss)));
    config.AddLink(lossToLatency);
    config.App(latency, Latency(qos.latency, DELAY_QUEUE_CAPACITY));
    config.AddLink(latencyToJitter);
    config.App(jitter, Jitter(qos.jitter, Clamp(qos.strength), qos.reorder, DELAY_QUEUE_CAPACITY));
    config.AddLink(jitterToOutput);
  }

  function ChainIds(dir: Dir, flow: Option<string>): set<AppId> {
    {Chained(dir, RateStage, flow), Chained(dir, LossStage, flow),
     Chained(dir, LatencyStage, flow), Chained(dir, JitterStage, flow)}
  }

  function ChainPorts(dir: Dir, flow: Option<string>): set<Port> {
    {(Piece(dir.Src?, Splitter), PortOf(flow)),
     (Chained(dir, RateStage, flow), "output"), (Chained(dir, LossStage, flow), "output"),
     (Chained(dir, LatencyStage, flow), "output"), (Chained(dir, JitterStage, flow), "output")}
  }

  predicate FlowKnown(x: Setup, flow: Option<string>) {
    flow.Some? ==> HasFlow(x.spec.flows, flow.value)
  }

  /** What a chain is attached to. */
  function ChainInput(x: Setup, dir: Dir, flow: Option<string>): string {
    Render(x, Piece(dir.Src?, Splitter)) + "." + PortOf(flow)
  }

  function ChainOutput(x: Setup, dir: Dir, flow: Option<string>): string {
    Render(x, Piece(dir.Dst?, Joiner)) + "." + PortOf(flow)
  }

  function ChainTexts(x: Setup, dir: Dir, flow: Option<string>): QosTexts {
    TextsOf(ChainLabel(dir, flow), ChainInput(x, dir, flow), ChainOutput(x, dir, flow))
  }

  lemma ChainWires(x: Setup, dir: Dir, flow: Option<string>)
    requires Sanitary(x.spec.flows) && FlowKnown(x, flow)
    ensures Wired(x, Piece(dir.Src?, Splitter), PortOf(flow))
    ensures Wire(x, Piece(dir.Src?, Splitter), PortOf(flow)) == Some(Target(Chained(dir, RateStage, flow), "input"))
    ensures Wired(x, Chained(dir, RateStage, flow), "output")
    ensures Wire(x, Chained(dir, RateStage, flow), "output") == Some(Target(Chained(dir, LossStage, flow), "input"))
    ensures Wired(x, Chained(dir, LossStage, flow), "output")
    ensures Wire(x, Chained(dir, LossStage, flow), "output") == Some(Target(Chained(dir, LatencyStage, flow), "input"))
    ensures Wired(x, Chained(dir, LatencyStage, flow), "output")
    ensures Wire(x, Chained(dir, LatencyStage, flow), "output")
            == Some(Target(Chained(dir, JitterStage, flow), "input"))
    ensures Wired(x, Chained(dir, JitterStage, flow), "output")
    ensures Wire(x, Chained(dir, JitterStage, flow), "output") == Some(Target(Piece(dir.Dst?, Joiner), PortOf(flow)))
  {
  }

  /** The strings that a chain's links are written as are the wanted links. */
  lemma ChainWrites(x: Setup, dir: Dir, flow: Option<string>)
    requires Spelled(x) && FlowKnown(x, flow)
    ensures var t := ChainTexts(x, dir, flow);
            && Writes(x, t.toRate, Piece(dir.Src?, Splitter), PortOf(flow))
            && Writes(x, t.toLoss, Chained(dir, RateStage, flow), "output")
            && Writes(x, t.toLatency, Chained(dir, LossStage, flow), "output")
            && Writes(x, t.toJitter, Chained(dir, LatencyStage, flow), "output")
            && Writes(x, t.toOutput, Chained(dir, JitterStage, flow), "output")
  {
    ChainWires(x, dir, flow);
    WritesSplit(x, Piece(dir.Src?, Splitter), PortOf(flow));
    WritesOutput(x, Chained(dir, RateStage, flow), "");
    WritesOutput(x, Chained(dir, LossStage, flow), "");
    WritesOutput(x, Chained(dir, LatencyStage, flow), "");
    WritesOutput(x, Chained(dir, JitterStage, flow), "");
    ChainNames(x, dir, flow);
    hide Writes, ToIn, OutToIn, OutTo, Render, Wire, Wired, Spelled, ChainLabel, PortOf, FlowKnown;
  }

  lemma ChainNames(x: Setup, dir: Dir, flow: Option<string>)
    ensures Render(x, Chained(dir, RateStage, flow)) == "rate_" + ChainLabel(dir, flow)
    ensures Render(x, Chained(dir, LossStage, flow)) == "loss_" + ChainLabel(dir, flow)
    ensures Render(x, Chained(dir, LatencyStage, flow)) == "latency_" + ChainLabel(dir, flow)
    ensures Render(x, Chained(dir, JitterStage, flow)) == "jitter_" + ChainLabel(dir, flow)
  {
  }

  lemma ChainAppsAdded(x: Setup, apps: map<string, AppArg>, ids: set<AppId>, dir: Dir, flow: Option<string>, qos: Qos)
    requires Spelled(x) && Built(x, apps, ids) && FlowKnown(x, flow) && qos == QosOf(LinkOf(x.spec, flow), dir)
    ensures Built(x, QosApps(apps, ChainLabel(dir, flow), qos), ids + ChainIds(dir, flow))
  {
    ChainNames(x, dir, flow);
    hide Spelled, Built, Render, StageArg, ChainLabel, QosOf, LinkOf;
    var a, b, c, d := Chained(dir, RateStage, flow), Chained(dir, LossStage, flow),
                      Chained(dir, LatencyStage, flow), Chained(dir, JitterStage, flow);
    AppAdded(x, apps, ids, a);
    var one := apps[Render(x, a) := ArgOf(x, a)];
    AppAdded(x, one, ids + {a}, b);
    var two := one[Render(x, b) := ArgOf(x, b)];
    AppAdded(x, two, ids + {a} + {b}, c);
    var three := two[Render(x, c) := ArgOf(x, c)];
    AppAdded(x, three, ids + {a} + {b} + {c}, d);
    assert ids + ChainIds(dir, flow) == ids + {a} + {b} + {c} + {d};
  }

  lemma FiveLinksAdded(x: Setup, links: set<string>, ports: set<Port>, p: Port, q: Port, r: Port, s: Port, t: Port)
    requires Laid(x, links, ports)
    requires Wired(x, p.0, p.1) && Wired(x, q.0, q.1) && Wired(x, r.0, r.1) && Wired(x, s.0, s.1) && Wired(x, t.0, t.1)
    ensures Laid(x, links + {LinkText(x, p.0, p.1)} + {LinkText(x, q.0, q.1)} + {LinkText(x, r.0, r.1)}
                    + {LinkText(x, s.0, s.1)} + {LinkText(x, t.0, t.1)}, ports + {p, q, r, s, t})
  {
    hide Laid, LinkText, Wired;
    var l1 := links + {LinkText(x, p.0, p.1)};
    var l2 := l1 + {LinkText(x, q.0, q.1)};
    var l3 := l2 + {LinkText(x, r.0, r.1)};
    var l4 := l3 + {LinkText(x, s.0, s.1)};
    LinkAdded(x, links, ports, p.0, p.1);
    LinkAdded(x, l1, ports + {p}, q.0, q.1);
    LinkAdded(x, l2, ports + {p} + {q}, r.0, r.1);
    LinkAdded(x, l3, ports + {p} + {q} + {r}, s.0, s.1);
    LinkAdded(x, l4, ports + {p} + {q} + {r} + {s}, t.0, t.1);
    assert ports + {p, q, r, s, t} == ports + {p} + {q} + {r} + {s} + {t};
  }

  lemma ChainLinksAdded(x: Setup, links: set<string>, ports: set<Port>, dir: Dir, flow: Option<string>)
    requires Spelled(x) && Laid(x, links, ports) && FlowKnown(x, flow)
    ensures AllParse(ChainTexts(x, dir, flow))
    ensures Laid(x, QosLinks(links, ChainTexts(x, dir, flow)), ports + ChainPorts(dir, flow))
  {
    ChainWires(x, dir, flow);
    ChainWrites(x, dir, flow);
    hide Laid, Spelled, Wire, Wired, LinkText, CanonicalLink, ParseLink, ChainTexts, FlowKnown, PortOf;
    FiveLinksAdded(x, links, ports, (Piece(dir.Src?, Splitter), PortOf(flow)),
                   (Chained(dir, RateStage, flow), "output"), (Chained(dir, LossStage, flow), "output"),
                   (Chained(dir, LatencyStage, flow), "output"), (Chained(dir, JitterStage, flow), "output"));
  }

  /** Add one chain of the wanted network. */
  method ConfigureChain(x: Setup, config: Config, tag: string, input: string, output: string, qos: Qos,
                        ghost dir: Dir, ghost flow: Option<string>, ghost ids: set<AppId>, ghost ports: set<Port>)
    requires Spelled(x) && Reached(x, config.apps, config.links, ids, ports) && FlowKnown(x, flow)
    requires tag == ChainLabel(dir, flow) && qos == QosOf(LinkOf(x.spec, flow), dir)
    requires input == ChainInput(x, dir, flow) && output == ChainOutput(x, dir, flow)
    modifies config
    ensures Reached(x, config.apps, config.links, ids + ChainIds(dir, flow), ports + ChainPorts(dir, flow))
  {
    ChainAppsAdded(x, config.apps, ids, dir, flow, qos);
    ChainLinksAdded(x, config.links, ports, dir, flow);
    hide Built, Laid, Spelled, AllParse, QosApps, QosLinks, TextsOf, ChainIds, ChainPorts;
    hide ChainLabel, ChainInput, ChainOutput, FlowKnown, QosOf, LinkOf;
    ConfigureQos(config, tag, input, output, qos);
  }

  function FlowIds(dir: Dir, flows: seq<SyntheticFlow>): set<AppId> {
    if |flows| == 0 then {}
    else FlowIds(dir, flows[..|flows| - 1]) + ChainIds(dir, Some(flows[|flows| - 1].name))
  }

  function FlowPorts(dir: Dir, flows: seq<SyntheticFlow>): set<Port> {
    if |flows| == 0 then {}
    else FlowPorts(dir, flows[..|flows| - 1]) + ChainPorts(dir, Some(flows[|flows| - 1].name))
  }

  lemma FlowsNext(dir: Dir, flows: seq<SyntheticFlow>, k: nat)
    requires k < |flows|
    ensures FlowIds(dir, flows[..k + 1]) == FlowIds(dir, flows[..k]) + ChainIds(dir, Some(flows[k].name))
    ensures FlowPorts(dir, flows[..k + 1]) == FlowPorts(dir, flows[..k]) + ChainPorts(dir, Some(flows[k].name))
  {
    assert flows[..k + 1][..k] == flows[..k];
  }

  /** Where adding the flows' chains has got. */
  ghost predicate FlowsReached(x: Setup, apps: map<string, AppArg>, links: set<string>, ids: set<AppId>,
                               ports: set<Port>, dir: Dir, k: nat)
    requires k <= |x.spec.flows|
  {
    Reached(x, apps, links, ids + FlowIds(dir, x.spec.flows[..k]), ports + FlowPorts(dir, x.spec.flows[..k]))
  }

  method ConfigureFlows(x: Setup, config: Config, split: string, join: string, dir: Dir,
                        ghost ids: set<AppId>, ghost ports: set<Port>)
    requires Spelled(x) && Reached(x, config.apps, config.links, ids, ports)
    requires split == Render(x, Piece(dir.Src?, Splitter)) && join == Render(x, Piece(dir.Dst?, Joiner))
    modifies config
    ensures Reached(x, config.apps, config.links,
                    ids + FlowIds(dir, x.spec.flows), ports + FlowPorts(dir, x.spec.flows))
  {
    hide Spelled, FlowsReached, Reached, Render, FlowIds, FlowPorts;
    var flows, k := x.spec.flows, 0;
    FlowsStart(x, config.apps, config.links, ids, ports, dir);
    while k < |flows|
      invariant k <= |flows| && FlowsReached(x, config.apps, config.links, ids, ports, dir, k)
    {
      ConfigureFlow(x, config, split, join, dir, k, ids, ports);
      k := k + 1;
    }
    FlowsEnd(x, config.apps, config.links, ids, ports, dir);
  }

  lemma FlowsStart(x: Setup, apps: map<string, AppArg>, links: set<string>, ids: set<AppId>, ports: set<Port>, dir: Dir)
    requires Reached(x, apps, links, ids, ports)
    ensures FlowsReached(x, apps, links, ids, ports, dir, 0)
  {
    assert ids + {} == ids && ports + {} == ports;
    hide Reached, ChainIds, ChainPorts;
  }

  lemma FlowsEnd(x: Setup, apps: map<string, AppArg>, links: set<string>, ids: set<AppId>, ports: set<Port>, dir: Dir)
    requires FlowsReached(x, apps, links, ids, ports, dir, |x.spec.flows|)
    ensures Reached(x, apps, links, ids + FlowIds(dir, x.spec.flows), ports + FlowPorts(dir, x.spec.flows))
  {
    assert x.spec.flows[..|x.spec.flows|] == x.spec.flows;
  }

  method ConfigureFlow(x: Setup, config: Config, split: string, join: string, dir: Dir, k: nat,
                       ghost ids: set<AppId>, ghost ports: set<Port>)
    requires Spelled(x) && k < |x.spec.flows| && FlowsReached(x, config.apps, config.links, ids, ports, dir, k)
    requires split == Render(x, Piece(dir.Src?, Splitter)) && join == Render(x, Piece(dir.Dst?, Joiner))
    modifies config
    ensures FlowsReached(x, config.apps, config.links, ids, ports, dir, k + 1)
  {
    var flow := x.spec.flows[k];
    ghost var f: Option<string>, here, there := Some(flow.name), ids + FlowIds(dir, x.spec.flows[..k]),
                                                ports + FlowPorts(dir, x.spec.flows[..k]);
    FlowStep(x, ids, ports, dir, k);
    hide Spelled, FlowKnown, Reached, Render, FlowIds, FlowPorts, ChainIds, ChainPorts;
    hide ChainLabel, ChainInput, ChainOutput, QosOf, LinkOf;
    var input := split + "." + flow.name;
    var output := join + "." + flow.name;
    var tag := (if dir.Src? then "ingress" else "egress") + "_" + flow.name;
    var qos := if dir.Src? then flow.link.ingress else flow.link.egress;
    ConfigureChain(x, config, tag, input, output, qos, dir, f, here, there);
  }

  lemma FlowStep(x: Setup, ids: set<AppId>, ports: set<Port>, dir: Dir, k: nat)
    requires Sanitary(x.spec.flows) && k < |x.spec.flows|
    ensures var flow := x.spec.flows[k];
            var f: Option<string> := Some(flow.name);
            && FlowKnown(x, f)
            && ChainLabel(dir, f) == (if dir.Src? then "ingress" else "egress") + "_" + flow.name
            && QosOf(LinkOf(x.spec, f), dir) == (if dir.Src? then flow.link.ingress else flow.link.egress)
            && ChainInput(x, dir, f) == Render(x, Piece(dir.Src?, Splitter)) + "." + flow.name
            && ChainOutput(x, dir, f) == Render(x, Piece(dir.Dst?, Joiner)) + "." + flow.name
            && ids + FlowIds(dir, x.spec.flows[..k]) + ChainIds(dir, f) == ids + FlowIds(dir, x.spec.flows[..k + 1])
            && ports + FlowPorts(dir, x.spec.flows[..k]) + ChainPorts(dir, f)
               == ports + FlowPorts(dir, x.spec.flows[..k + 1])
  {
    FindIs(x.spec.flows, k, x.spec.defaultLink);
    FlowsNext(dir, x.spec.flows, k);
    hide Render, FlowIds, FlowPorts, ChainIds, ChainPorts, Find, Sanitary;
  }

  // One direction, and the whole network

  method ConfigureInterface(config: Config, ifname: string)
    modifies config`apps
    ensures config.apps == old(config.apps)[ifname := RawSocket(ifname)]
  {
    config.App(ifname, RawSocket(ifname));
  }

  method ConfigureTsd(config: Config, name: string, ifname: string, mss: nat)
    requires Parses(OutToIn(ifname, name))
    modifies config
    ensures config.apps == old(config.apps)[name := TSD(mss)]
    ensures config.links == old(config.links) + {CanonicalLink(OutToIn(ifname, name))}
  {
    config.App(name, TSD(mss));
    config.AddLink(OutToIn(ifname, name));
  }

  method ConfigureOffload(config: Config, name: string, ifname: string)
    requires Parses(OutToIn(ifname, name))
    modifies config
    ensures config.apps == old(config.apps)[name := Checksum]
    ensures config.links == old(config.links) + {CanonicalLink(OutToIn(ifname, name))}
  {
    config.App(name, Checksum);
    config.AddLink(OutToIn(ifname, name));
  }

  method ConfigureTop(config: Config, name: string, output: string, path: string, dir: Dir)
    requires Parses(OutTo(name, output))
    modifies config
    ensures config.apps == old(config.apps)[name := Top(path, dir)]
    ensures config.links == old(config.links) + {CanonicalLink(OutTo(name, output))}
  {
    config.App(name, Top(path, dir));
    config.AddLink(OutTo(name, output));
  }

  method ConfigureSplit(config: Config, name: string, input: string, synthetic: seq<SyntheticFlow>, dir: Dir)
    requires Parses(ToIn(input, name))
    modifies config
    ensures config.apps == old(config.apps)[name := Split(FlowsOf(synthetic, dir))]
    ensures config.links == old(config.links) + {CanonicalLink(ToIn(input, name))}
  {
    hide ParseLink, CanonicalLink, ToIn;
    var flows: seq<Flow>, k := [], 0;
    while k < |synthetic|
      invariant k <= |synthetic| && flows == FlowsOf(synthetic[..k], dir)
    {
      var f := synthetic[k];
      assert synthetic[..k + 1][..k] == synthetic[..k];
      flows := flows + [Flow(f.name, dir, f.ip, f.protocol, f.portMin, f.portMax)];
      k := k + 1;
    }
    assert synthetic[..k] == synthetic;
    config.App(name, Split(flows));
    config.AddLink(ToIn(input, name));
  }

  method ConfigureJoin(config: Config, name: string, output: string)
    requires Parses(OutToIn(name, output))
    modifies config
    ensures config.apps == old(config.apps)[name := Join]
    ensures config.links == old(config.links) + {CanonicalLink(OutToIn(name, output))}
  {
    config.App(name, Join);
    config.AddLink(OutToIn(name, output));
  }

  /** The names of one direction's apps. */
  datatype PathNames = PathNames(near: string, far: string, tsd: string, offload: string, top: string,
                                 split: string, join: string)

  function NamesOf(x: Setup, dir: Dir): PathNames {
    var near, far := Face(x, dir.Src?), Face(x, dir.Dst?);
    PathNames(near, far, near + "_tsd", near + "_offload", near + "_top", near + "_split", far + "_join")
  }

  lemma NamesRender(x: Setup, dir: Dir)
    ensures var n := NamesOf(x, dir);
            && n.near == Render(x, Piece(dir.Src?, Interface)) && n.far == Render(x, Piece(dir.Dst?, Interface))
            && n.tsd == Render(x, Piece(dir.Src?, Segmenter)) && n.offload == Render(x, Piece(dir.Src?, Offloader))
            && n.top == Render(x, Piece(dir.Src?, Profiler)) && n.split == Render(x, Piece(dir.Src?, Splitter))
            && n.join == Render(x, Piece(dir.Dst?, Joiner))
  {
    assert Face(x, dir.Src?) + "" == Face(x, dir.Src?) && Face(x, dir.Dst?) + "" == Face(x, dir.Dst?);
  }

  /** The apps of one direction in the order in which they are added, and the output port that
      is linked along with each. */
  function PieceAt(dir: Dir, k: nat): AppId {
    match k
    case 0 => Piece(dir.Src?, Segmenter)
    case 1 => Piece(dir.Src?, Offloader)
    case 2 => Piece(dir.Src?, Profiler)
    case 3 => Piece(dir.Src?, Splitter)
    case _ => Piece(dir.Dst?, Joiner)
  }

  function PortAt(dir: Dir, k: nat): Port {
    match k
    case 0 => (Piece(dir.Src?, Interface), "output")
    case 1 => (Piece(dir.Src?, Segmenter), "output")
    case 2 => (Piece(dir.Src?, Profiler), "output")
    case 3 => (Piece(dir.Src?, Offloader), "output")
    case _ => (Piece(dir.Dst?, Joiner), "output")
  }

  function PathIds(dir: Dir, k: nat): set<AppId> {
    if k == 0 then {} else PathIds(dir, k - 1) + {PieceAt(dir, k - 1)}
  }

  function PathPorts(dir: Dir, k: nat): set<Port> {
    if k == 0 then {} else PathPorts(dir, k - 1) + {PortAt(dir, k - 1)}
  }

  lemma PieceWired(x: Setup, dir: Dir, k: nat)
    ensures Present(x, PieceAt(dir, k)) && Wired(x, PortAt(dir, k).0, "output") && PortAt(dir, k).1 == "output"
    ensures Wire(x, PortAt(dir, k).0, "output").value.port == "input"
  {
  }

  /** Where the links of one direction lead. */
  lemma PieceTargets(x: Setup, dir: Dir, k: nat)
    ensures var n := NamesOf(x, dir);
            var from, to := Render(x, PortAt(dir, k).0), Render(x, WireTo(x, PortAt(dir, k).0));
            && (k == 0 ==> from == n.near && to == n.tsd) && (k == 1 ==> from == n.tsd && to == n.offload)
            && (k == 2 ==> from == n.top && to == n.far) && (k == 3 ==> from == n.offload && to == n.split)
            && (k == 4 ==> from == n.join && to == n.top)
  {
    NamesRender(x, dir);
    hide Render, NamesOf;
  }

  /** The app that a link from an `output` port leads to. */
  function WireTo(x: Setup, id: AppId): AppId {
    var to := Wire(x, id, "output");
    if to.None? then id else to.value.app
  }

  lemma PieceWrites(x: Setup, dir: Dir, k: nat)
    requires Spelled(x)
    ensures var from, to := Render(x, PortAt(dir, k).0), Render(x, WireTo(x, PortAt(dir, k).0));
            && WritesAt(x, OutToIn(from, to), dir, k)
            && WritesAt(x, OutTo(from, to + ".input"), dir, k)
            && WritesAt(x, ToIn(from + ".output", to), dir, k)
  {
    PieceWired(x, dir, k);
    hide Spelled, Wired, Wire, PortAt, PieceAt, Writes, OutToIn, OutTo, ToIn, Render;
    WritesOutput(x, PortAt(dir, k).0, "");
  }

  /** The strings that one direction's links are written as are the wanted links. */
  lemma PathWrites(x: Setup, dir: Dir)
    requires Spelled(x)
    ensures var n := NamesOf(x, dir);
            && WritesAt(x, OutToIn(n.near, n.tsd), dir, 0)
            && WritesAt(x, OutToIn(n.tsd, n.offload), dir, 1)
            && WritesAt(x, OutTo(n.top, n.far + ".input"), dir, 2)
            && WritesAt(x, ToIn(n.offload + ".output", n.split), dir, 3)
            && WritesAt(x, OutToIn(n.join, n.top), dir, 4)
  {
    hide *;
    PieceWrites(x, dir, 0);
    PieceWrites(x, dir, 1);
    PieceWrites(x, dir, 2);
    PieceWrites(x, dir, 3);
    PieceWrites(x, dir, 4);
    PieceTargets(x, dir, 0);
    PieceTargets(x, dir, 1);
    PieceTargets(x, dir, 2);
    PieceTargets(x, dir, 3);
    PieceTargets(x, dir, 4);
  }

  predicate WritesAt(x: Setup, s: string, dir: Dir, k: nat) {
    Writes(x, s, PortAt(dir, k).0, PortAt(dir, k).1)
  }

  predicate PlacedAt(x: Setup, name: string, arg: AppArg, dir: Dir, k: nat) {
    name == Render(x, PieceAt(dir, k)) && arg == ArgOf(x, PieceAt(dir, k))
  }

  lemma PathPlaces(x: Setup, dir: Dir)
    ensures var n := NamesOf(x, dir);
            && PlacedAt(x, n.tsd, TSD(MSS), dir, 0)
            && PlacedAt(x, n.offload, Checksum, dir, 1)
            && PlacedAt(x, n.top, Top(ProfileOf(x, dir), dir), dir, 2)
            && PlacedAt(x, n.split, Split(FlowsOf(x.spec.flows, dir)), dir, 3)
            && PlacedAt(x, n.join, Join, dir, 4)
  {
    NamesRender(x, dir);
    hide Render, NamesOf;
  }

  ghost predicate PathReached(x: Setup, apps: map<string, AppArg>, links: set<string>, ids: set<AppId>,
                              ports: set<Port>, dir: Dir, k: nat) {
    Reached(x, apps, links, ids + PathIds(dir, k), ports + PathPorts(dir, k))
  }

  lemma PathStart(x: Setup, apps: map<string, AppArg>, links: set<string>, ids: set<AppId>, ports: set<Port>, dir: Dir)
    requires Reached(x, apps, links, ids, ports)
    ensures PathReached(x, apps, links, ids, ports, dir, 0)
  {
    hide Reached;
    assert ids + {} == ids && ports + {} == ports;
  }

  lemma PathNext(x: Setup, apps: map<string, AppArg>, links: set<string>, ids: set<AppId>, ports: set<Port>,
                 dir: Dir, k: nat, name: string, arg: AppArg, s: string)
    requires Spelled(x) && PathReached(x, apps, links, ids, ports, dir, k)
    requires PlacedAt(x, name, arg, dir, k) && WritesAt(x, s, dir, k)
    ensures Parses(s)
    ensures PathReached(x, apps[name := arg], links + {CanonicalLink(s)}, ids, ports, dir, k + 1)
  {
    PieceWired(x, dir, k);
    hide Spelled, Reached, Render, ArgOf, Wire, Wired, LinkText, CanonicalLink, Present, PieceAt, PortAt;
    PieceAdded(x, apps, links, ids + PathIds(dir, k), ports + PathPorts(dir, k), PieceAt(dir, k),
               PortAt(dir, k).0, PortAt(dir, k).1, name, arg, s);
    assert ids + PathIds(dir, k + 1) == ids + PathIds(dir, k) + {PieceAt(dir, k)};
    assert ports + PathPorts(dir, k + 1) == ports + PathPorts(dir, k) + {(PortAt(dir, k).0, PortAt(dir, k).1)};
  }

  function ProfileOf(x: Setup, dir: Dir): string {
    if dir.Src? then x.ingressProfile else x.egressProfile
  }

  method ConfigurePieces(x: Setup, config: Config, dir: Dir, n: PathNames, ghost ids: set<AppId>,
                         ghost ports: set<Port>)
    requires Spelled(x) && PathReached(x, config.apps, config.links, ids, ports, dir, 0) && n == NamesOf(x, dir)
    modifies config
    ensures PathReached(x, config.apps, config.links, ids, ports, dir, 5)
  {
    PathWrites(x, dir);
    PathPlaces(x, dir);
    hide Spelled, PathReached, PlacedAt, WritesAt, NamesOf, ToIn, OutToIn, OutTo, FlowsOf, ProfileOf, ParseLink;
    hide CanonicalLink;
    var profile := ProfileOf(x, dir);
    var rx, tx := n.offload + ".output", n.far + ".input";
    PathNext(x, config.apps, config.links, ids, ports, dir, 0, n.tsd, TSD(MSS), OutToIn(n.near, n.tsd));
    ConfigureTsd(config, n.tsd, n.near, MSS);
    PathNext(x, config.apps, config.links, ids, ports, dir, 1, n.offload, Checksum, OutToIn(n.tsd, n.offload));
    ConfigureOffload(config, n.offload, n.tsd);
    PathNext(x, config.apps, config.links, ids, ports, dir, 2, n.top, Top(profile, dir), OutTo(n.top, tx));
    ConfigureTop(config, n.top, tx, profile, dir);
    PathNext(x, config.apps, config.links, ids, ports, dir, 3, n.split, Split(FlowsOf(x.spec.flows, dir)),
             ToIn(rx, n.split));
    ConfigureSplit(config, n.split, rx, x.spec.flows, dir);
    PathNext(x, config.apps, config.links, ids, ports, dir, 4, n.join, Join, OutToIn(n.join, n.top));
    ConfigureJoin(config, n.join, n.top);
  }

  function DirIds(dir: Dir, flows: seq<SyntheticFlow>): set<AppId> {
    PathIds(dir, 5) + ChainIds(dir, None) + FlowIds(dir, flows)
  }

  function DirPorts(dir: Dir, flows: seq<SyntheticFlow>): set<Port> {
    PathPorts(dir, 5) + ChainPorts(dir, None) + FlowPorts(dir, flows)
  }

  /** The apps and links of one direction; the source writes this out for each of the two. */
  method ConfigurePath(x: Setup, config: Config, dir: Dir, ghost ids: set<AppId>, ghost ports: set<Port>)
    requires Spelled(x) && Reached(x, config.apps, config.links, ids, ports)
    modifies config
    ensures Reached(x, config.apps, config.links, ids + DirIds(dir, x.spec.flows), ports + DirPorts(dir, x.spec.flows))
  {
    var near, far := Face(x, dir.Src?), Face(x, dir.Dst?);
    var n := PathNames(near, far, near + "_tsd", near + "_offload", near + "_top", near + "_split", far + "_join");
    PathStart(x, config.apps, config.links, ids, ports, dir);
    ConfigurePieces(x, config, dir, n, ids, ports);
    ghost var i, p := ids + PathIds(dir, 5), ports + PathPorts(dir, 5);
    assert Reached(x, config.apps, config.links, i, p);
    hide *;
    ConfigureChains(x, config, dir, n, i, p);
    AllAdded(dir, x.spec.flows, ids, ports);
  }

  lemma AllAdded(dir: Dir, flows: seq<SyntheticFlow>, ids: set<AppId>, ports: set<Port>)
    ensures ids + DirIds(dir, flows) == ids + PathIds(dir, 5) + ChainIds(dir, None) + FlowIds(dir, flows)
    ensures ports + DirPorts(dir, flows) == ports + PathPorts(dir, 5) + ChainPorts(dir, None) + FlowPorts(dir, flows)
  {
    hide PathIds, PathPorts, ChainIds, ChainPorts, FlowIds, FlowPorts;
  }

  method ConfigureChains(x: Setup, config: Config, dir: Dir, n: PathNames, ghost ids: set<AppId>,
                         ghost ports: set<Port>)
    requires Spelled(x) && Reached(x, config.apps, config.links, ids, ports) && n == NamesOf(x, dir)
    modifies config
    ensures Reached(x, config.apps, config.links, ids + ChainIds(dir, None) + FlowIds(dir, x.spec.flows),
                    ports + ChainPorts(dir, None) + FlowPorts(dir, x.spec.flows))
  {
    NamesRender(x, dir);
    DefaultChain(x, dir, n.split, n.join);
    hide *;
    var splitDefault, joinDefault := n.split + ".default", n.join + ".default";
    var qos := if dir.Src? then x.spec.defaultLink.ingress else x.spec.defaultLink.egress;
    ConfigureChain(x, config, DirName(dir), splitDefault, joinDefault, qos, dir, None, ids, ports);
    ConfigureFlows(x, config, n.split, n.join, dir, ids + ChainIds(dir, None), ports + ChainPorts(dir, None));
  }

  lemma DefaultChain(x: Setup, dir: Dir, split: string, join: string)
    requires split == Render(x, Piece(dir.Src?, Splitter)) && join == Render(x, Piece(dir.Dst?, Joiner))
    ensures FlowKnown(x, None) && ChainLabel(dir, None) == DirName(dir)
    ensures ChainInput(x, dir, None) == split + ".default" && ChainOutput(x, dir, None) == join + ".default"
    ensures QosOf(LinkOf(x.spec, None), dir)
            == if dir.Src? then x.spec.defaultLink.ingress else x.spec.defaultLink.egress
  {
    assert split + "." + "default" == split + ".default" && join + "." + "default" == join + ".default";
    hide Render;
  }

  /** The wanted network: exactly the apps that are present, each configured as wanted unless
      names clash, and exactly the links on ports that are wired. */
  ghost predicate Generated(x: Setup, apps: map<string, AppArg>, links: set<string>) {
    && (forall id :: Present(x, id) ==>
          Render(x, id) in apps && (NonClashing(x) ==> apps[Render(x, id)] == ArgOf(x, id)))
    && (forall n :: n in apps ==> exists id :: Present(x, id) && Render(x, id) == n)
    && (forall id, p :: Wired(x, id, p) ==> LinkText(x, id, p) in links)
    && (forall s :: s in links ==> exists id, p :: Wired(x, id, p) && LinkText(x, id, p) == s)
  }

  function Interfaces(): set<AppId> {
    {Piece(true, Interface)} + {Piece(false, Interface)}
  }

  function AllIds(x: Setup): set<AppId> {
    Interfaces() + DirIds(Src, x.spec.flows) + DirIds(Dst, x.spec.flows)
  }

  function AllPorts(x: Setup): set<Port> {
    {} + DirPorts(Src, x.spec.flows) + DirPorts(Dst, x.spec.flows)
  }

  lemma {:induction false} FlowsIn(dir: Dir, flows: seq<SyntheticFlow>, k: nat)
    requires k < |flows|
    ensures ChainIds(dir, Some(flows[k].name)) <= FlowIds(dir, flows)
    ensures ChainPorts(dir, Some(flows[k].name)) <= FlowPorts(dir, flows)
  {
    hide ChainIds, ChainPorts;
    if k < |flows| - 1 {
      FlowsIn(dir, flows[..|flows| - 1], k);
    }
  }

  lemma PathsIn(dir: Dir, k: nat)
    requires k < 5
    ensures PieceAt(dir, k) in PathIds(dir, 5) && PortAt(dir, k) in PathPorts(dir, 5)
  {
    hide PieceAt, PortAt;
    assert PathIds(dir, 5) == {PieceAt(dir, 0), PieceAt(dir, 1), PieceAt(dir, 2), PieceAt(dir, 3), PieceAt(dir, 4)};
    assert PathPorts(dir, 5) == {PortAt(dir, 0), PortAt(dir, 1), PortAt(dir, 2), PortAt(dir, 3), PortAt(dir, 4)};
  }

  lemma DirIdsAre(x: Setup, dir: Dir)
    ensures PathIds(dir, 5) <= AllIds(x) && ChainIds(dir, None) <= AllIds(x)
    ensures FlowIds(dir, x.spec.flows) <= AllIds(x) && Interfaces() <= AllIds(x)
    ensures PathPorts(dir, 5) <= AllPorts(x) && ChainPorts(dir, None) <= AllPorts(x)
    ensures FlowPorts(dir, x.spec.flows) <= AllPorts(x)
  {
    hide PathIds, ChainIds, FlowIds, PathPorts, ChainPorts, FlowPorts;
  }

  lemma AllPresent(x: Setup, id: AppId)
    requires Present(x, id)
    ensures id in AllIds(x)
  {
    hide AllIds, AllPorts;
    if id.Piece? {
      PieceListed(x, if id.outer then Src else Dst, id.part);
    } else {
      ChainListed(x, id.dir, id.flow);
      StageListed(id.dir, id.stage, id.flow);
      hide *;
    }
  }

  lemma StageListed(dir: Dir, stage: Stage, flow: Option<string>)
    ensures Chained(dir, stage, flow) in ChainIds(dir, flow)
    ensures (Chained(dir, stage, flow), "output") in ChainPorts(dir, flow)
    ensures (Piece(dir.Src?, Splitter), PortOf(flow)) in ChainPorts(dir, flow)
  {
  }

  lemma PieceListed(x: Setup, dir: Dir, part: Part)
    ensures Piece(dir.Src?, part) in AllIds(x)
    ensures part == Joiner ==> (Piece(dir.Src?, part), "output") in AllPorts(x)
    ensures part != Joiner && part != Splitter ==> (Piece(dir.Src?, part), "output") in AllPorts(x)
  {
    var other := if dir.Src? then Dst else Src;
    DirIdsAre(x, dir);
    DirIdsAre(x, other);
    hide AllIds, AllPorts, PathIds, PathPorts, ChainIds, ChainPorts, FlowIds, FlowPorts;
    PathsIn(dir, 0);
    PathsIn(dir, 1);
    PathsIn(dir, 2);
    PathsIn(dir, 3);
    PathsIn(other, 4);
  }

  lemma ChainListed(x: Setup, dir: Dir, flow: Option<string>)
    requires FlowKnown(x, flow)
    ensures ChainIds(dir, flow) <= AllIds(x) && ChainPorts(dir, flow) <= AllPorts(x)
  {
    DirIdsAre(x, dir);
    hide AllIds, AllPorts, ChainIds, ChainPorts, FlowIds, FlowPorts, PathIds, PathPorts;
    if flow.Some? {
      var k :| 0 <= k < |x.spec.flows| && x.spec.flows[k].name == flow.value;
      FlowsIn(dir, x.spec.flows, k);
    }
  }

  /** Only a splitter's ports are not called `output`. */
  lemma WiredCases(x: Setup, id: AppId, port: string)
    requires Wired(x, id, port)
    ensures id == Piece(true, Splitter) || id == Piece(false, Splitter) || port == "output"
    ensures id == Piece(true, Splitter) || id == Piece(false, Splitter) ==>
              exists flow :: FlowKnown(x, flow) && port == PortOf(flow)
    ensures id.Chained? ==> FlowKnown(x, id.flow)
  {
    if id.Piece? && id.part.Splitter? {
      var none: Option<string>, some := None, Some(port);
      assert if port == "default" then FlowKnown(x, none) && port == PortOf(none)
             else FlowKnown(x, some) && port == PortOf(some);
    }
  }

  lemma AllWired(x: Setup, id: AppId, port: string)
    requires Wired(x, id, port)
    ensures (id, port) in AllPorts(x)
  {
    WiredCases(x, id, port);
    hide AllIds, AllPorts, Wired, Wire, ChainIds, ChainPorts, FlowKnown, PortOf;
    if id.Chained? {
      ChainListed(x, id.dir, id.flow);
      StageListed(id.dir, id.stage, id.flow);
    } else if id.part == Splitter {
      var dir := if id.outer then Src else Dst;
      var flow :| FlowKnown(x, flow) && port == PortOf(flow);
      ChainListed(x, dir, flow);
      StageListed(dir, RateStage, flow);
    } else {
      PieceListed(x, if id.outer then Src else Dst, id.part);
    }
  }

  lemma ReachedAll(x: Setup, apps: map<string, AppArg>, links: set<string>)
    requires Reached(x, apps, links, AllIds(x), AllPorts(x))
    ensures Generated(x, apps, links)
  {
    hide AllIds, AllPorts, Wired, Present, LinkText, Render, ArgOf, NonClashing;
    forall id | Present(x, id)
      ensures Render(x, id) in apps && (NonClashing(x) ==> apps[Render(x, id)] == ArgOf(x, id))
    {
      AllPresent(x, id);
    }
    forall id, p | Wired(x, id, p) ensures LinkText(x, id, p) in links {
      AllWired(x, id, p);
      assert LinkText(x, (id, p).0, (id, p).1) in links;
    }
    forall s | s in links ensures exists id, p :: Wired(x, id, p) && LinkText(x, id, p) == s {
      var q :| q in AllPorts(x) && LinkText(x, q.0, q.1) == s;
      assert Wired(x, q.0, q.1);
    }
  }

  /** Generate the network of a specification. */
  method ConfigureSyntheticNetwork(x: Setup, config: Config)
    requires Spelled(x) && config.apps == map[] && config.links == {}
    modifies config
    ensures Generated(x, config.apps, config.links)
  {
    ConfigureInterface(config, x.outer);
    ConfigureInterface(config, x.inner);
    InterfacesReached(x);
    ghost var ids, ports: set<Port> := Interfaces(), {};
    assert Reached(x, config.apps, config.links, ids, ports);
    hide *;
    ConfigurePath(x, config, Src, ids, ports);
    ConfigurePath(x, config, Dst, ids + DirIds(Src, x.spec.flows), ports + DirPorts(Src, x.spec.flows));
    AllAre(x);
    ReachedAll(x, config.apps, config.links);
  }

  lemma AllAre(x: Setup)
    ensures AllIds(x) == Interfaces() + DirIds(Src, x.spec.flows) + DirIds(Dst, x.spec.flows)
    ensures AllPorts(x) == {} + DirPorts(Src, x.spec.flows) + DirPorts(Dst, x.spec.flows)
  {
  }

  lemma InterfacesReached(x: Setup)
    requires Spelled(x)
    ensures Reached(x, map[x.outer := RawSocket(x.outer)][x.inner := RawSocket(x.inner)], {}, Interfaces(), {})
  {
    assert x.outer + "" == x.outer && x.inner + "" == x.inner;
    var a, b := Piece(true, Interface), Piece(false, Interface);
    assert Render(x, a) == x.outer && Render(x, b) == x.inner;
    assert Present(x, a) && Present(x, b) && ArgOf(x, a) == RawSocket(x.outer) && ArgOf(x, b) == RawSocket(x.inner);
    hide Render, ArgOf, Present, Spelled, NonClashing;
    var none: map<string, AppArg> := map[];
    assert Built(x, none, {});
    AppAdded(x, none, {}, a);
    AppAdded(x, none[x.outer := RawSocket(x.outer)], {} + {a}, b);
    assert none[x.outer := RawSocket(x.outer)] == map[x.outer := RawSocket(x.outer)];
    assert {} + {a} + {b} == Interfaces();
  }
}
