/** What every network generated by `rush/src/synthetic_network.rs` is like, and how the engine
    runs it. */
module SyntheticProperties {
  import opened Wrappers
  import opened Configs
  import opened SyntheticNames
  import opened SyntheticNetworks
  import B = BreatheOrder
  import DelaySteps
  import E = Engine

  /** The names, ports and text of a link of the wanted network. */
  ghost predicate LinkIs(x: Setup, s: string, id: AppId, port: string) {
    && Wired(x, id, port) && LinkText(x, id, port) == s && Canonical(s)
    && var to := Wire(x, id, port).value;
       SpecOf(s) == LinkSpec(Render(x, id), port, Render(x, to.app), to.port) && Present(x, to.app)
  }

  lemma LinkOfText(x: Setup, apps: map<string, AppArg>, links: set<string>, s: string) returns (id: AppId, port: string)
    requires Spelled(x) && Generated(x, apps, links) && s in links
    ensures LinkIs(x, s, id, port)
  {
    hide Spelled, NonClashing, LinkText, Wired;
    id, port :| Wired(x, id, port) && LinkText(x, id, port) == s;
    TextLinks(x, id, port);
  }

  lemma TextLinks(x: Setup, id: AppId, port: string)
    requires Spelled(x) && Wired(x, id, port)
    ensures LinkIs(x, LinkText(x, id, port), id, port)
  {
    LinkTextParses(x, id, port);
    WiresStay(x, id, port);
    hide Spelled, LinkText, Wire, Render, Canonical, SpecOf, Present;
  }

  // Well-formedness

  lemma AppThere(x: Setup, apps: map<string, AppArg>, links: set<string>, id: AppId)
    requires Generated(x, apps, links) && Present(x, id)
    ensures Render(x, id) in apps && (NonClashing(x) ==> apps[Render(x, id)] == ArgOf(x, id))
  {
  }

  lemma EndsThere(x: Setup, apps: map<string, AppArg>, links: set<string>, s: string)
    requires Acceptable(x) && Generated(x, apps, links) && s in links
    ensures Canonical(s) && SpecOf(s).from in apps && SpecOf(s).to in apps
  {
    assert Spelled(x);
    hide Acceptable, Spelled, Generated, Canonical, SpecOf, Wire, Render, Present, LinkText;
    var id, port := LinkOfText(x, apps, links, s);
    AppThere(x, apps, links, id);
    AppThere(x, apps, links, Wire(x, id, port).value.app);
  }

  lemma PortsApart(x: Setup, apps: map<string, AppArg>, links: set<string>, s: string, t: string)
    requires Acceptable(x) && Generated(x, apps, links) && s in links && t in links
    ensures SpecOf(s).from == SpecOf(t).from && SpecOf(s).output == SpecOf(t).output ==> s == t
    ensures SpecOf(s).to == SpecOf(t).to && SpecOf(s).input == SpecOf(t).input ==> s == t
  {
    hide Generated, Canonical, SpecOf, Wire, Render, Present, LinkText, NonClashing, Sanitary, IsWord;
    var id, port := LinkOfText(x, apps, links, s);
    var jd, port' := LinkOfText(x, apps, links, t);
    var to, to' := Wire(x, id, port).value, Wire(x, jd, port').value;
    if SpecOf(s).from == SpecOf(t).from && SpecOf(s).output == SpecOf(t).output {
      NamesApart(x, id, jd);
    }
    if SpecOf(s).to == SpecOf(t).to && SpecOf(s).input == SpecOf(t).input {
      NamesApart(x, to.app, to'.app);
      WireInjective(x, id, port, jd, port');
    }
  }

  /** Links join configured apps, and no port is used twice. */
  lemma NetworkIsWellFormed(x: Setup, apps: map<string, AppArg>, links: set<string>)
    requires Acceptable(x) && Generated(x, apps, links)
    ensures E.WellFormed(apps, links)
  {
    hide Acceptable, Generated, Canonical, SpecOf;
    forall s | s in links ensures Canonical(s) && SpecOf(s).from in apps && SpecOf(s).to in apps {
      EndsThere(x, apps, links, s);
    }
    forall s, t | s in links && t in links && s != t
      ensures SpecOf(s).from != SpecOf(t).from || SpecOf(s).output != SpecOf(t).output
      ensures SpecOf(s).to != SpecOf(t).to || SpecOf(s).input != SpecOf(t).input
    {
      PortsApart(x, apps, links, s, t);
    }
  }

  // Unwrapped ports

  /** The input ports that an app's push panics without. */
  function UnwrappedInputs(a: AppArg): set<string> {
    if a.RawSocket? || a.Join? || a.Tee? || a.Source? || a.Sink? then {} else {"input"}
  }

  /** The output ports that an app's push or pull panics without. */
  function UnwrappedOutputs(a: AppArg): set<string> {
    match a
    case Split(flows) => {"default"} + set f | f in flows :: f.tag
    case _ => if UnwrappedInputs(a) == {} then {} else {"output"}
  }

  /** The output port whose link ends at an app's `input`; a joiner has no such port. */
  function Feeder(id: AppId): Port {
    match id
    case Piece(outer, part) => (
      match part
      case Interface => (Piece(!outer, Profiler), "output")
      case Segmenter => (Piece(outer, Interface), "output")
      case Offloader => (Piece(outer, Segmenter), "output")
      case Profiler => (Piece(!outer, Joiner), "output")
      case Splitter => (Piece(outer, Offloader), "output")
      case Joiner => (id, "input")
    )
    case Chained(dir, stage, flow) => (
      match stage
      case RateStage => (Piece(dir.Src?, Splitter), PortOf(flow))
      case LossStage => (Chained(dir, RateStage, flow), "output")
      case LatencyStage => (Chained(dir, LossStage, flow), "output")
      case JitterStage => (Chained(dir, LatencyStage, flow), "output")
    )
  }

  lemma FeederFeeds(x: Setup, id: AppId)
    requires Sanitary(x.spec.flows) && Present(x, id) && id != Piece(true, Joiner) && id != Piece(false, Joiner)
    ensures Wired(x, Feeder(id).0, Feeder(id).1)
    ensures Wire(x, Feeder(id).0, Feeder(id).1) == Some(Target(id, "input"))
  {
  }

  lemma UnwrappedAreWired(x: Setup, id: AppId, port: string)
    requires Present(x, id)
    ensures port in UnwrappedInputs(ArgOf(x, id)) ==>
              port == "input" && id != Piece(true, Joiner) && id != Piece(false, Joiner)
    ensures port in UnwrappedOutputs(ArgOf(x, id)) ==> Wired(x, id, port)
  {
    if port in UnwrappedOutputs(ArgOf(x, id)) && id.Piece? && id.part == Splitter && port != "default" {
      var flows := FlowsOf(x.spec.flows, if id.outer then Src else Dst);
      var f :| f in flows && f.tag == port;
      var k :| 0 <= k < |flows| && flows[k] == f;
      assert x.spec.flows[k].name == port;
      assert HasFlow(x.spec.flows, port);
    }
  }

  /** Every port an app unwraps is linked, so that no push or pull panics for want of one. */
  lemma UnwrappedPortsAreLinked(x: Setup, apps: map<string, AppArg>, links: set<string>, n: string, port: string)
    requires Acceptable(x) && Generated(x, apps, links) && n in apps
    ensures port in UnwrappedOutputs(apps[n]) ==>
              exists s :: s in links && SpecOf(s).from == n && SpecOf(s).output == port
    ensures port in UnwrappedInputs(apps[n]) ==>
              exists s :: s in links && SpecOf(s).to == n && SpecOf(s).input == port
  {
    var id :| Present(x, id) && Render(x, id) == n;
    AppThere(x, apps, links, id);
    UnwrappedAreWired(x, id, port);
    hide UnwrappedInputs, UnwrappedOutputs, ArgOf, Wire, Render, LinkText, Canonical, SpecOf, Feeder;
    if port in UnwrappedOutputs(apps[n]) {
      assert LinkText(x, id, port) in links;
      TextLinks(x, id, port);
    }
    if port in UnwrappedInputs(apps[n]) {
      FeederFeeds(x, id);
      assert LinkText(x, Feeder(id).0, Feeder(id).1) in links;
      TextLinks(x, Feeder(id).0, Feeder(id).1);
    }
  }

  // Paths

  ghost predicate Next(links: set<string>, n: string, m: string) {
    exists s :: s in links && SpecOf(s).from == n && SpecOf(s).to == m
  }

  ghost predicate Follows(links: set<string>, path: seq<string>) {
    forall k :: 0 < k < |path| ==> Next(links, path[k - 1], path[k])
  }

  /** What a packet of one direction and flow passes through, in order. */
  function Route(dir: Dir, flow: Option<string>): (r: seq<AppId>)
    ensures |r| == 11
  {
    [Piece(dir.Src?, Interface), Piece(dir.Src?, Segmenter), Piece(dir.Src?, Offloader), Piece(dir.Src?, Splitter),
     Chained(dir, RateStage, flow), Chained(dir, LossStage, flow), Chained(dir, LatencyStage, flow),
     Chained(dir, JitterStage, flow), Piece(dir.Dst?, Joiner), Piece(dir.Src?, Profiler), Piece(dir.Dst?, Interface)]
  }

  function RoutePort(flow: Option<string>, k: nat): string {
    if k == 3 then PortOf(flow) else "output"
  }

  lemma RouteWired(x: Setup, dir: Dir, flow: Option<string>, k: nat)
    requires Sanitary(x.spec.flows) && FlowKnown(x, flow) && k < 10
    ensures Wired(x, Route(dir, flow)[k], RoutePort(flow, k))
    ensures Wire(x, Route(dir, flow)[k], RoutePort(flow, k)).value.app == Route(dir, flow)[k + 1]
    ensures Present(x, Route(dir, flow)[k]) && Present(x, Route(dir, flow)[k + 1])
    ensures Route(dir, flow)[k] != Piece(dir.Dst?, Interface) && Route(dir, flow)[10] == Piece(dir.Dst?, Interface)
  {
  }

  /** Nothing but a splitter's default output and its flows' outputs branches. */
  lemma RouteForced(x: Setup, dir: Dir, flow: Option<string>, k: nat, port: string)
    requires k < 10 && k != 3 && Wired(x, Route(dir, flow)[k], port)
    ensures Wire(x, Route(dir, flow)[k], port).value.app == Route(dir, flow)[k + 1]
  {
  }

  lemma RouteBranches(x: Setup, dir: Dir, port: string) returns (flow: Option<string>)
    requires Sanitary(x.spec.flows) && Wired(x, Piece(dir.Src?, Splitter), port)
    ensures FlowKnown(x, flow) && Wire(x, Piece(dir.Src?, Splitter), port).value.app == Chained(dir, RateStage, flow)
  {
    flow := if port == "default" then None else Some(port);
  }

  lemma NextIs(x: Setup, apps: map<string, AppArg>, links: set<string>, id: AppId, m: string) returns (port: string)
    requires Acceptable(x) && Generated(x, apps, links) && Present(x, id) && Next(links, Render(x, id), m)
    ensures Wired(x, id, port) && m == Render(x, Wire(x, id, port).value.app)
  {
    hide Generated, Canonical, Wire, Render, Present, LinkText, Sanitary, NonClashing, IsWord;
    var s :| s in links && SpecOf(s).from == Render(x, id) && SpecOf(s).to == m;
    var jd;
    jd, port := LinkOfText(x, apps, links, s);
    NamesApart(x, id, jd);
  }

  /** From anywhere but its end a path goes on along a link. */
  lemma PathGoesOn(x: Setup, apps: map<string, AppArg>, links: set<string>, dir: Dir, path: seq<string>, k: nat,
                   id: AppId)
      returns (port: string)
    requires Acceptable(x) && Generated(x, apps, links) && Follows(links, path) && k < |path|
    requires path[|path| - 1] == Render(x, Piece(dir.Dst?, Interface))
    requires Present(x, id) && id != Piece(dir.Dst?, Interface) && path[k] == Render(x, id)
    ensures k + 1 < |path| && Wired(x, id, port) && path[k + 1] == Render(x, Wire(x, id, port).value.app)
  {
    assert Present(x, Piece(dir.Dst?, Interface));
    hide Generated, Wire, Render, Present, Wired, Sanitary, NonClashing, IsWord, Next;
    assert k + 1 < |path| by {
      if k + 1 == |path| {
        NamesApart(x, id, Piece(dir.Dst?, Interface));
      }
    }
    assert Next(links, path[k + 1 - 1], path[k + 1]);
    port := NextIs(x, apps, links, id, path[k + 1]);
  }

  /** The first `k + 1` apps of a path are those of a route. */
  ghost predicate AlongRoute(x: Setup, path: seq<string>, dir: Dir, flow: Option<string>, k: nat)
    requires k <= 10
  {
    k < |path| && forall j :: 0 <= j <= k ==> path[j] == Render(x, Route(dir, flow)[j])
  }

  lemma AlongNext(x: Setup, apps: map<string, AppArg>, links: set<string>, dir: Dir, flow: Option<string>,
                  path: seq<string>, k: nat)
    requires Acceptable(x) && Generated(x, apps, links) && Follows(links, path) && FlowKnown(x, flow)
    requires k < 10 && k != 3 && AlongRoute(x, path, dir, flow, k)
    requires path[|path| - 1] == Render(x, Piece(dir.Dst?, Interface))
    ensures AlongRoute(x, path, dir, flow, k + 1)
  {
    RouteWired(x, dir, flow, k);
    hide Generated, Wire, Render, Present, Wired, Sanitary, NonClashing, IsWord, Next, Follows, Route, FlowKnown;
    var port := PathGoesOn(x, apps, links, dir, path, k, Route(dir, flow)[k]);
    RouteForced(x, dir, flow, k, port);
  }

  /** Until the splitter, all routes of one direction are the same. */
  lemma AlongAny(x: Setup, path: seq<string>, dir: Dir, flow: Option<string>, other: Option<string>, k: nat)
    requires k <= 3 && AlongRoute(x, path, dir, flow, k)
    ensures AlongRoute(x, path, dir, other, k)
  {
    hide Render;
    assert forall j :: 0 <= j <= k ==> Route(dir, flow)[j] == Route(dir, other)[j];
  }

  lemma AlongBranch(x: Setup, apps: map<string, AppArg>, links: set<string>, dir: Dir, path: seq<string>)
      returns (flow: Option<string>)
    requires Acceptable(x) && Generated(x, apps, links) && Follows(links, path)
    requires AlongRoute(x, path, dir, None, 3)
    requires path[|path| - 1] == Render(x, Piece(dir.Dst?, Interface))
    ensures FlowKnown(x, flow) && AlongRoute(x, path, dir, flow, 4)
  {
    hide *;
    AtSplitter(x, path, dir);
    var port := PathGoesOn(x, apps, links, dir, path, 3, Piece(dir.Src?, Splitter));
    AcceptableIsSanitary(x);
    flow := RouteBranches(x, dir, port);
    AlongAny(x, path, dir, None, flow, 3);
    AlongFourth(x, path, dir, flow);
  }

  lemma AcceptableIsSanitary(x: Setup)
    requires Acceptable(x)
    ensures Sanitary(x.spec.flows)
  {
  }

  lemma AtSplitter(x: Setup, path: seq<string>, dir: Dir)
    requires AlongRoute(x, path, dir, None, 3)
    ensures 3 < |path| && path[3] == Render(x, Piece(dir.Src?, Splitter)) && Present(x, Piece(dir.Src?, Splitter))
  {
    hide Render;
    var none: Option<string> := None;
    assert Route(dir, none)[3] == Piece(dir.Src?, Splitter);
  }

  lemma AlongFourth(x: Setup, path: seq<string>, dir: Dir, flow: Option<string>)
    requires AlongRoute(x, path, dir, flow, 3) && 4 < |path| && path[4] == Render(x, Chained(dir, RateStage, flow))
    ensures AlongRoute(x, path, dir, flow, 4)
  {
    hide Render;
    assert Route(dir, flow)[4] == Chained(dir, RateStage, flow);
  }

  /** Every path from the near interface of a direction to where it first gets to the far one
      crosses exactly one rate limiter, loss, latency and jitter, in this order, and these are
      the four of one flow or of the default link. */
  lemma PathCrossesOneChain(x: Setup, apps: map<string, AppArg>, links: set<string>, dir: Dir, path: seq<string>)
    requires Acceptable(x) && Generated(x, apps, links) && Follows(links, path) && path != []
    requires path[0] == Render(x, Piece(dir.Src?, Interface))
    requires path[|path| - 1] == Render(x, Piece(dir.Dst?, Interface))
    requires forall k :: 0 < k < |path| - 1 ==> path[k] != Render(x, Piece(dir.Dst?, Interface))
    ensures exists flow :: FlowKnown(x, flow) && |path| == 11 && AlongRoute(x, path, dir, flow, 10)
  {
    var none: Option<string> := None;
    assert Route(dir, none)[0] == Piece(dir.Src?, Interface);
    assert AlongRoute(x, path, dir, none, 0) && FlowKnown(x, none);
    hide Acceptable, Generated, Render, Follows, AlongRoute, Route, FlowKnown;
    AlongNext(x, apps, links, dir, none, path, 0);
    AlongNext(x, apps, links, dir, none, path, 1);
    AlongNext(x, apps, links, dir, none, path, 2);
    var flow := AlongBranch(x, apps, links, dir, path);
    var k := 4;
    while k < 10
      invariant 4 <= k <= 10 && AlongRoute(x, path, dir, flow, k)
    {
      AlongNext(x, apps, links, dir, flow, path, k);
      k := k + 1;
    }
    AlongEnd(x, path, dir, flow);
  }

  lemma AlongEnd(x: Setup, path: seq<string>, dir: Dir, flow: Option<string>)
    requires AlongRoute(x, path, dir, flow, 10)
    ensures 10 < |path| && path[10] == Render(x, Piece(dir.Dst?, Interface))
  {
    hide Render;
    assert Route(dir, flow)[10] == Piece(dir.Dst?, Interface);
  }

  lemma EdgeThere(x: Setup, apps: map<string, AppArg>, links: set<string>, id: AppId, port: string)
    requires Acceptable(x) && Generated(x, apps, links) && Wired(x, id, port)
    ensures Next(links, Render(x, id), Render(x, Wire(x, id, port).value.app))
    ensures B.Edge(E.GraphOf(apps, links), Render(x, id), Render(x, Wire(x, id, port).value.app))
  {
    TextLinks(x, id, port);
    var to := Wire(x, id, port).value.app;
    AppThere(x, apps, links, to);
    NotASource(x, to);
    assert LinkText(x, id, port) in links;
    hide Acceptable, Render, ArgOf, Wire, LinkText, Canonical, SpecOf, Present, Wired;
  }

  lemma NotASource(x: Setup, id: AppId)
    ensures HasPush(ArgOf(x, id))
    ensures id.Piece? && id.part.Interface? ==> HasPull(ArgOf(x, id))
  {
  }

  /** And there is such a path for every flow, and one for the default link. */
  lemma RouteIsAPath(x: Setup, apps: map<string, AppArg>, links: set<string>, dir: Dir, flow: Option<string>)
    requires Acceptable(x) && Generated(x, apps, links) && FlowKnown(x, flow)
    ensures Follows(links, seq(11, k requires 0 <= k < 11 => Render(x, Route(dir, flow)[k])))
  {
    hide Generated, Render, Wire, Route, NonClashing, IsWord, Wired, Present, Next;
    var path := seq(11, k requires 0 <= k < 11 => Render(x, Route(dir, flow)[k]));
    forall k | 0 < k < 11 ensures Next(links, path[k - 1], path[k]) {
      RouteWired(x, dir, flow, k - 1);
      EdgeThere(x, apps, links, Route(dir, flow)[k - 1], RoutePort(flow, k - 1));
    }
  }

  // Breathing

  lemma {:induction false} RouteExhaled(x: Setup, apps: map<string, AppArg>, links: set<string>, dir: Dir,
                                        flow: Option<string>, k: nat)
    requires Acceptable(x) && Generated(x, apps, links) && FlowKnown(x, flow) && 0 < k <= 10
    ensures B.Exhalable(E.GraphOf(apps, links), Render(x, Route(dir, flow)[k]))
  {
    RouteWired(x, dir, flow, k - 1);
    InterfacePulls(x, apps, links, dir, flow);
    hide Generated, Render, Wire, Route, NonClashing, IsWord, Wired, Present, B.Exhalable, E.GraphOf, B.Edge;
    var g := E.GraphOf(apps, links);
    var from, to := Route(dir, flow)[k - 1], Route(dir, flow)[k];
    EdgeThere(x, apps, links, from, RoutePort(flow, k - 1));
    if k == 1 {
      B.ExhalableFromPull(g, Render(x, from), Render(x, to));
    } else {
      RouteExhaled(x, apps, links, dir, flow, k - 1);
      B.ExhalableNext(g, Render(x, from), Render(x, to));
    }
  }

  lemma InterfacePulls(x: Setup, apps: map<string, AppArg>, links: set<string>, dir: Dir, flow: Option<string>)
    requires Acceptable(x) && Generated(x, apps, links)
    ensures B.Pulls(E.GraphOf(apps, links), Render(x, Route(dir, flow)[0]))
  {
    var id := Piece(dir.Src?, Interface);
    assert Route(dir, flow)[0] == id && Present(x, id);
    NotASource(x, id);
    hide Render, ArgOf, Route;
    AppThere(x, apps, links, id);
  }

  /** Which route an app is on, and where. */
  lemma OnARoute(x: Setup, id: AppId) returns (dir: Dir, flow: Option<string>, k: nat)
    requires Present(x, id)
    ensures FlowKnown(x, flow) && 0 < k <= 10 && Route(dir, flow)[k] == id
  {
    match id
    case Piece(outer, part) =>
      var towards := part == Interface || part == Joiner;
      dir := if outer != towards then Src else Dst;
      flow := None;
      k := match part
           case Interface => 10
           case Segmenter => 1
           case Offloader => 2
           case Profiler => 9
           case Splitter => 3
           case Joiner => 8;
    case Chained(d, stage, f) =>
      dir, flow := d, f;
      k := match stage
           case RateStage => 4
           case LossStage => 5
           case LatencyStage => 6
           case JitterStage => 7;
  }

  lemma EveryAppExhaled(x: Setup, apps: map<string, AppArg>, links: set<string>, n: string)
    requires Acceptable(x) && Generated(x, apps, links) && n in apps
    ensures B.Exhalable(E.GraphOf(apps, links), n)
  {
    var id :| Present(x, id) && Render(x, id) == n;
    hide Acceptable, Generated, Render, Route, B.Exhalable, E.GraphOf, FlowKnown, Present;
    var dir, flow, k := OnARoute(x, id);
    RouteExhaled(x, apps, links, dir, flow, k);
  }

  // What each app is configured with, under its name, from the specification's own fields

  /** `r` is the ratio nearest to `q`. */
  predicate Nearest(r: real, q: real) {
    0.0 <= r <= 1.0 && (r == q || (r == 0.0 && q < 0.0) || (r == 1.0 && q > 1.0))
  }

  /** The chain of a label gives its traffic the conditions `q`. */
  predicate Conditions(apps: map<string, AppArg>, tag: string, q: Qos) {
    && "rate_" + tag in apps && apps["rate_" + tag] == RateLimiter(q.rate)
    && "loss_" + tag in apps && apps["loss_" + tag].Loss? && Nearest(apps["loss_" + tag].ratio, q.loss)
    && "latency_" + tag in apps && apps["latency_" + tag] == Latency(q.latency, 100_000)
    && "jitter_" + tag in apps && apps["jitter_" + tag].Jitter?
    && var jitter := apps["jitter_" + tag];
       jitter.ms == q.jitter && Nearest(jitter.strength, q.strength) && jitter.reorder == q.reorder
       && jitter.capacity == 100_000
  }

  /** An app is configured as wanted under its name, however that is written. */
  lemma ConfiguredAs(x: Setup, apps: map<string, AppArg>, links: set<string>, id: AppId, name: string)
    requires Acceptable(x) && Generated(x, apps, links) && Present(x, id) && Render(x, id) == name
    ensures name in apps && apps[name] == ArgOf(x, id)
  {
    hide Present, NonClashing, Render, ArgOf;
  }

  lemma StageConfigured(x: Setup, apps: map<string, AppArg>, links: set<string>, dir: Dir, stage: Stage,
                        flow: Option<string>)
    requires Acceptable(x) && Generated(x, apps, links) && FlowKnown(x, flow)
    ensures var name := Prefix(stage) + ChainLabel(dir, flow);
            name in apps && apps[name] == StageArg(stage, QosOf(LinkOf(x.spec, flow), dir))
  {
    ConfiguredAs(x, apps, links, Chained(dir, stage, flow), Prefix(stage) + ChainLabel(dir, flow));
    hide Generated, Acceptable, Prefix, ChainLabel, StageArg, QosOf, LinkOf;
  }

  lemma ChainConditions(x: Setup, apps: map<string, AppArg>, links: set<string>, dir: Dir, flow: Option<string>)
    requires Acceptable(x) && Generated(x, apps, links) && FlowKnown(x, flow)
    ensures Conditions(apps, ChainLabel(dir, flow), QosOf(LinkOf(x.spec, flow), dir))
  {
    hide Generated, Acceptable, FlowKnown, ChainLabel, QosOf, LinkOf;
    StageConfigured(x, apps, links, dir, RateStage, flow);
    StageConfigured(x, apps, links, dir, LossStage, flow);
    StageConfigured(x, apps, links, dir, LatencyStage, flow);
    StageConfigured(x, apps, links, dir, JitterStage, flow);
  }

  /** The traffic of every flow meets the conditions specified for it, each way. */
  lemma FlowConditions(x: Setup, apps: map<string, AppArg>, links: set<string>, k: nat)
    requires Acceptable(x) && Generated(x, apps, links) && k < |x.spec.flows|
    ensures Conditions(apps, "ingress_" + x.spec.flows[k].name, x.spec.flows[k].link.ingress)
    ensures Conditions(apps, "egress_" + x.spec.flows[k].name, x.spec.flows[k].link.egress)
  {
    hide Generated, Conditions, Acceptable, FlowKnown, ChainLabel, QosOf, LinkOf;
    var flow := Some(x.spec.flows[k].name);
    FlowIs(x, k);
    ChainConditions(x, apps, links, Src, flow);
    ChainConditions(x, apps, links, Dst, flow);
  }

  lemma FlowIs(x: Setup, k: nat)
    requires Acceptable(x) && k < |x.spec.flows|
    ensures var f := x.spec.flows[k];
            var flow := Some(f.name);
            && FlowKnown(x, flow)
            && ChainLabel(Src, flow) == "ingress_" + f.name && ChainLabel(Dst, flow) == "egress_" + f.name
            && QosOf(LinkOf(x.spec, flow), Src) == f.link.ingress
            && QosOf(LinkOf(x.spec, flow), Dst) == f.link.egress
  {
    FindIs(x.spec.flows, k, x.spec.defaultLink);
    assert "ingress" + "_" == "ingress_" && "egress" + "_" == "egress_";
    hide Find, NonClashing, Sanitary;
  }

  /** And all other traffic meets those of the default link. */
  lemma DefaultConditions(x: Setup, apps: map<string, AppArg>, links: set<string>)
    requires Acceptable(x) && Generated(x, apps, links)
    ensures Conditions(apps, "ingress", x.spec.defaultLink.ingress)
    ensures Conditions(apps, "egress", x.spec.defaultLink.egress)
  {
    ChainConditions(x, apps, links, Src, None);
    ChainConditions(x, apps, links, Dst, None);
    hide Generated, Conditions, Acceptable;
  }

  /** What serves one interface: the traffic it receives is split by the flows' own addresses,
      protocols and ports, looking at one end of it, and profiled looking at the same end. */
  predicate Serves(apps: map<string, AppArg>, face: string, profile: string, dir: Dir, flows: seq<SyntheticFlow>) {
    && face in apps && apps[face] == RawSocket(face)
    && face + "_tsd" in apps && apps[face + "_tsd"] == TSD(1400)
    && face + "_offload" in apps && apps[face + "_offload"] == Checksum
    && face + "_join" in apps && apps[face + "_join"] == Join
    && face + "_top" in apps && apps[face + "_top"] == Top(profile, dir)
    && face + "_split" in apps && apps[face + "_split"].Split?
    && var split := apps[face + "_split"].flows;
       |split| == |flows| && forall k :: 0 <= k < |flows| ==>
         split[k] == Flow(flows[k].name, dir, flows[k].ip, flows[k].protocol, flows[k].portMin, flows[k].portMax)
  }

  /** The outer interface is split and profiled by source, the inner one by destination. */
  lemma BothServed(x: Setup, apps: map<string, AppArg>, links: set<string>)
    requires Acceptable(x) && Generated(x, apps, links)
    ensures Serves(apps, x.outer, x.ingressProfile, Src, x.spec.flows)
    ensures Serves(apps, x.inner, x.egressProfile, Dst, x.spec.flows)
  {
    FaceServed(x, apps, links, true);
    FaceServed(x, apps, links, false);
    hide Generated, Serves, Acceptable;
  }

  lemma FaceServed(x: Setup, apps: map<string, AppArg>, links: set<string>, outer: bool)
    requires Acceptable(x) && Generated(x, apps, links)
    ensures if outer then Serves(apps, x.outer, x.ingressProfile, Src, x.spec.flows)
            else Serves(apps, x.inner, x.egressProfile, Dst, x.spec.flows)
  {
    hide Generated, Acceptable, FlowsOf, Face, NonClashing, Spelled, Sanitary, Render, Present;
    FaceIs(x, outer);
    PieceConfigured(x, apps, links, outer, Interface);
    PieceConfigured(x, apps, links, outer, Segmenter);
    PieceConfigured(x, apps, links, outer, Offloader);
    PieceConfigured(x, apps, links, outer, Joiner);
    PieceConfigured(x, apps, links, outer, Profiler);
    PieceConfigured(x, apps, links, outer, Splitter);
  }

  lemma FaceIs(x: Setup, outer: bool)
    ensures Face(x, outer) == if outer then x.outer else x.inner
    ensures Face(x, outer) + "" == Face(x, outer)
  {
  }

  lemma PieceConfigured(x: Setup, apps: map<string, AppArg>, links: set<string>, outer: bool, part: Part)
    requires Acceptable(x) && Generated(x, apps, links)
    ensures var name := Face(x, outer) + Suffix(part);
            name in apps && apps[name] == ArgOf(x, Piece(outer, part))
  {
    ConfiguredAs(x, apps, links, Piece(outer, part), Face(x, outer) + Suffix(part));
    hide Generated, Acceptable, Suffix, Face, ArgOf;
  }

  lemma WireMoves(x: Setup, id: AppId, port: string)
    requires Wired(x, id, port)
    ensures Wire(x, id, port).value.app != id
  {
  }

  lemma NoLinkToItself(x: Setup, apps: map<string, AppArg>, links: set<string>, s: string)
    requires Acceptable(x) && Generated(x, apps, links) && s in links
    ensures SpecOf(s).from != SpecOf(s).to
  {
    hide Generated, Canonical, SpecOf, Wire, Render, Present, LinkText, NonClashing, Sanitary, IsWord;
    var id, port := LinkOfText(x, apps, links, s);
    WireMoves(x, id, port);
    if SpecOf(s).from == SpecOf(s).to {
      NamesApart(x, id, Wire(x, id, port).value.app);
    }
  }

  lemma NetworkHasNoSelfLinks(x: Setup, apps: map<string, AppArg>, links: set<string>)
    requires Acceptable(x) && Generated(x, apps, links)
    ensures B.NoSelfLinks(E.GraphOf(apps, links))
  {
    hide Acceptable, Generated, SpecOf;
    forall s | s in links ensures SpecOf(s).from != SpecOf(s).to {
      NoLinkToItself(x, apps, links, s);
    }
  }

  /** From specification to running engine: every app of the network is exhaled exactly once in
      each breath, whatever ran before and whatever order hash tables are iterated in. */
  method Run(x: Setup, engine: E.EngineState) returns (config: Config)
    requires Acceptable(x) && E.Wired(engine.Net())
    modifies engine
    ensures fresh(config) && Generated(x, config.apps, config.links)
    ensures E.Realises(engine.Net(), config.apps, config.links)
    ensures DelaySteps.Distinct(engine.exhale) && forall n :: n in engine.exhale <==> n in config.apps
  {
    assert Spelled(x);
    hide Acceptable, Spelled, Generated, E.Wired, E.Realises, E.WellFormed, E.GraphOf, DelaySteps.Distinct;
    hide B.NoSelfLinks, B.Exhalable;
    config := new Config();
    ConfigureSyntheticNetwork(x, config);
    NetworkIsWellFormed(x, config.apps, config.links);
    ghost var _ := engine.Configure(config);
    NetworkHasNoSelfLinks(x, config.apps, config.links);
    forall n ensures n in engine.exhale <==> n in config.apps {
      if n in config.apps {
        EveryAppExhaled(x, config.apps, config.links, n);
      } else if B.Exhalable(E.GraphOf(config.apps, config.links), n) {
        ExhalableConfigured(config.apps, config.links, n);
      }
    }
  }

  lemma ExhalableConfigured(apps: map<string, AppArg>, links: set<string>, n: string)
    requires B.Exhalable(E.GraphOf(apps, links), n)
    ensures n in apps
  {
    var g := E.GraphOf(apps, links);
    var path :| B.IsPath(g, path) && path[|path| - 1] == n;
    assert B.Edge(g, path[|path| - 2], path[|path| - 1]);
  }
}
