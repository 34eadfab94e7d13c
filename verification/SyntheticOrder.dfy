/** The breathe order of the networks that `rush/src/synthetic_network.rs` generates is determined,
    though that of `rush/src/engine.rs` is not for all networks. */
module SyntheticOrders {
  import opened Configs
  import opened SyntheticNames
  import opened SyntheticNetworks
  import opened SyntheticProperties
  import D = DelaySteps
  import DelayOrders
  import B = BreatheOrder
  import BreatheRuns
  import E = Engine

  /** How many links an app is from the nearest pull app before it. */
  function Depth(id: AppId): nat {
    match id
    case Piece(_, part) => (
      match part
      case Interface => 3
      case Segmenter => 1
      case Offloader => 2
      case Profiler => 2
      case Splitter => 3
      case Joiner => 1
    )
    case Chained(_, stage, _) => (
      match stage
      case RateStage => 4
      case LossStage => 5
      case LatencyStage => 6
      case JitterStage => 1
    )
  }

  /** A link from a pull app leads to depth one, and any other one deeper. */
  lemma WireDeepens(x: Setup, id: AppId, port: string)
    requires Wired(x, id, port)
    ensures Depth(Wire(x, id, port).value.app) == if HasPull(ArgOf(x, id)) then 1 else Depth(id) + 1
  {
  }

  ghost predicate AtDepth(x: Setup, n: string, depth: nat) {
    exists id :: Present(x, id) && Render(x, id) == n && Depth(id) == depth
  }

  lemma AtOneDepth(x: Setup, n: string, depth: nat, depth': nat)
    requires Acceptable(x) && AtDepth(x, n, depth) && AtDepth(x, n, depth')
    ensures depth == depth'
  {
    hide Render, Depth, Present, Spelled, NonClashing;
    var id :| Present(x, id) && Render(x, id) == n && Depth(id) == depth;
    var jd :| Present(x, jd) && Render(x, jd) == n && Depth(jd) == depth';
    NamesApart(x, id, jd);
  }

  lemma LinkDeepens(x: Setup, apps: map<string, AppArg>, links: set<string>, n: string, s: string, depth: nat)
    requires Acceptable(x) && Generated(x, apps, links) && n in apps && s in B.Succ(E.GraphOf(apps, links), n)
    ensures B.Pulls(E.GraphOf(apps, links), n) ==> AtDepth(x, s, 1)
    ensures !B.Pulls(E.GraphOf(apps, links), n) && AtDepth(x, n, depth) ==> AtDepth(x, s, depth + 1)
  {
    hide *;
    var id, to := LinkEnds(x, apps, links, n, s);
    DepthIs(x, id);
    DepthIs(x, to);
    if AtDepth(x, n, depth) {
      AtOneDepth(x, n, depth, Depth(id));
    }
  }

  lemma DepthIs(x: Setup, id: AppId)
    requires Present(x, id)
    ensures AtDepth(x, Render(x, id), Depth(id))
  {
  }

  /** The apps that a link of the graph joins. */
  lemma LinkEnds(x: Setup, apps: map<string, AppArg>, links: set<string>, n: string, s: string)
      returns (id: AppId, to: AppId)
    requires Acceptable(x) && Generated(x, apps, links) && n in apps && s in B.Succ(E.GraphOf(apps, links), n)
    ensures Present(x, id) && Render(x, id) == n && Present(x, to) && Render(x, to) == s
    ensures Depth(to) == if B.Pulls(E.GraphOf(apps, links), n) then 1 else Depth(id) + 1
  {
    hide Render, ArgOf, Wire, Sanitary, NonClashing, B.Succ, Next, Present, IsWord, Depth;
    id :| Present(x, id) && Render(x, id) == n;
    SuccIsNext(apps, links, n, s);
    AppThere(x, apps, links, id);
    var port := NextIs(x, apps, links, id, s);
    WiresStay(x, id, port);
    WireDeepens(x, id, port);
    to := Wire(x, id, port).value.app;
    hide Generated;
  }

  lemma SuccIsNext(apps: map<string, AppArg>, links: set<string>, n: string, s: string)
    requires s in B.Succ(E.GraphOf(apps, links), n)
    ensures Next(links, n, s)
  {
    hide SpecOf;
    var t :| t in links && (SpecOf(t).from, SpecOf(t).to) == (n, s);
  }

  /** The dependents of a round are all at one depth, one deeper than those before. */
  lemma {:induction false} RoundsByDepth(x: Setup, apps: map<string, AppArg>, links: set<string>,
                                         rounds: seq<B.RoundRun>, names: seq<string>)
    requires Acceptable(x) && Generated(x, apps, links) && B.Linked(E.GraphOf(apps, links))
    requires B.IsRun(E.GraphOf(apps, links), rounds) && B.Collected(E.GraphOf(apps, links), rounds, names)
    ensures forall s :: s in names ==> AtDepth(x, s, |rounds| + 1)
  {
    var g := E.GraphOf(apps, links);
    if |rounds| == 0 {
      FirstByDepth(x, apps, links, names);
    } else {
      var front, last := rounds[..|rounds| - 1], rounds[|rounds| - 1];
      B.RoundIs(g, front, last);
      hide B.IsRun, B.IsRound, Acceptable, Generated, E.GraphOf, B.Linked, B.Collected, B.CollectOrder, AtDepth;
      RoundsByDepth(x, apps, links, front, last.names);
      NextByDepth(x, apps, links, rounds, names);
    }
  }

  lemma FirstByDepth(x: Setup, apps: map<string, AppArg>, links: set<string>, names: seq<string>)
    requires Acceptable(x) && Generated(x, apps, links) && B.Collected(E.GraphOf(apps, links), [], names)
    ensures forall s :: s in names ==> AtDepth(x, s, 1)
  {
    var g := E.GraphOf(apps, links);
    B.InhaleMembers(g);
    B.SuccMapIs(g, {});
    B.CollectOrderIs(g, B.SuccMap(g, {}), B.InhaleOf(g), [], names);
    hide B.CollectOrder, B.SuccMap, B.InhaleOf, D.SuccessorsOf, Acceptable, Generated, AtDepth, E.GraphOf, B.Succ;
    forall s | s in names ensures AtDepth(x, s, 1) {
      var n :| n in B.InhaleOf(g) && B.Eligible(g, B.SuccMap(g, {}), n, [], s);
      assert n in apps by {
        GraphApps(apps, links, n);
      }
      LinkDeepens(x, apps, links, n, s, 0);
    }
  }

  lemma GraphApps(apps: map<string, AppArg>, links: set<string>, n: string)
    ensures n in E.GraphOf(apps, links).apps <==> n in apps
  {
  }

  lemma NextByDepth(x: Setup, apps: map<string, AppArg>, links: set<string>, rounds: seq<B.RoundRun>,
                    names: seq<string>)
    requires Acceptable(x) && Generated(x, apps, links) && B.Linked(E.GraphOf(apps, links)) && |rounds| > 0
    requires B.IsRun(E.GraphOf(apps, links), rounds) && B.Collected(E.GraphOf(apps, links), rounds, names)
    requires forall s :: s in rounds[|rounds| - 1].names ==> AtDepth(x, s, |rounds|)
    ensures forall s :: s in names ==> AtDepth(x, s, |rounds| + 1)
  {
    hide *;
    forall s | s in names ensures AtDepth(x, s, |rounds| + 1) {
      var n := FedBy(E.GraphOf(apps, links), rounds, names, s);
      GraphApps(apps, links, n);
      LinkDeepens(x, apps, links, n, s, |rounds|);
      LastNames(x, rounds, n);
    }
  }

  lemma LastNames(x: Setup, rounds: seq<B.RoundRun>, n: string)
    requires |rounds| > 0 && n in rounds[|rounds| - 1].names
    requires forall s :: s in rounds[|rounds| - 1].names ==> AtDepth(x, s, |rounds|)
    ensures AtDepth(x, n, |rounds|)
  {
  }

  /** What is collected after some rounds is fed by a dependent of the last one. */
  lemma FedBy(g: B.Graph, rounds: seq<B.RoundRun>, names: seq<string>, s: string) returns (n: string)
    requires B.Linked(g) && |rounds| > 0 && B.IsRun(g, rounds) && B.Collected(g, rounds, names) && s in names
    ensures n in rounds[|rounds| - 1].names && n in g.apps && !B.Pulls(g, n) && s in B.Succ(g, n)
  {
    hide *;
    var front, last := rounds[..|rounds| - 1], rounds[|rounds| - 1];
    LastRound(g, rounds, names);
    B.RunProgress(g, front, last.names);
    ProgressIs(g, B.ExhaleOf(front), last.names);
    B.SurvivorsLoose(g, front, last);
    B.SuccMapIs(g, B.Done(g, front));
    B.CollectOrderIs(g, B.SuccMap(g, B.Done(g, front)), B.Survivors(last), B.ExhaleOf(rounds), names);
    n := Collector(g, front, B.Survivors(last), B.ExhaleOf(rounds), s);
  }

  lemma LastRound(g: B.Graph, rounds: seq<B.RoundRun>, names: seq<string>)
    requires |rounds| > 0 && B.IsRun(g, rounds) && B.Collected(g, rounds, names)
    ensures var front, last := rounds[..|rounds| - 1], rounds[|rounds| - 1];
            && B.IsRun(g, front) && B.Collected(g, front, last.names)
            && D.VisitOrder(last.names, B.SuccMap(g, B.Done(g, front)), last.visits)
            && B.CollectOrder(g, B.SuccMap(g, B.Done(g, front)), B.Survivors(last), B.ExhaleOf(rounds), names)
  {
    var front, last := rounds[..|rounds| - 1], rounds[|rounds| - 1];
    assert B.IsRun(g, front) && B.IsRound(g, front, last);
    B.RoundIs(g, front, last);
    hide B.CollectOrder, B.SuccMap, B.Survivors, B.IsRun, B.IsRound, D.VisitOrder, B.ExhaleOf, B.Done;
  }

  lemma ProgressIs(g: B.Graph, exhale: seq<string>, names: seq<string>)
    requires B.Progress(g, exhale, names)
    ensures D.Distinct(names) && forall n :: n in names ==> n in g.apps
  {
  }

  /** The app from which one is collected. */
  lemma Collector(g: B.Graph, front: seq<B.RoundRun>, from: seq<string>, exhale: seq<string>, s: string)
      returns (n: string)
    requires B.Further(g, B.SuccMap(g, B.Done(g, front)), from, exhale, s)
    requires B.Remaining(g, B.SuccMap(g, B.Done(g, front)), B.Done(g, front))
    ensures n in from && (n in g.apps ==> !B.Pulls(g, n)) && s in B.Succ(g, n)
  {
    hide B.SuccMap, D.SuccessorsOf, B.Succ, B.ExhaleOf;
    n :| n in from && B.Eligible(g, B.SuccMap(g, B.Done(g, front)), n, exhale, s);
  }

  /** So no dependent of a round feeds another one. */
  lemma NetworkHasNoRelays(x: Setup, apps: map<string, AppArg>, links: set<string>, rounds: seq<B.RoundRun>)
    requires Acceptable(x) && Generated(x, apps, links) && B.Linked(E.GraphOf(apps, links))
    requires B.IsRun(E.GraphOf(apps, links), rounds)
    ensures BreatheRuns.NoRelays(E.GraphOf(apps, links), rounds)
  {
    var g := E.GraphOf(apps, links);
    hide E.GraphOf, Acceptable, Generated, B.Linked, B.IsRun, DelayOrders.NoRelay, B.SuccMap, B.Done;
    forall i | 0 <= i < |rounds|
      ensures DelayOrders.NoRelay(D.ToSet(rounds[i].names), B.SuccMap(g, B.Done(g, rounds[..i])))
    {
      RoundHasNoRelay(x, apps, links, rounds, i);
    }
  }

  lemma RoundHasNoRelay(x: Setup, apps: map<string, AppArg>, links: set<string>, rounds: seq<B.RoundRun>, i: nat)
    requires Acceptable(x) && Generated(x, apps, links) && B.Linked(E.GraphOf(apps, links))
    requires B.IsRun(E.GraphOf(apps, links), rounds) && i < |rounds|
    ensures var g := E.GraphOf(apps, links);
            DelayOrders.NoRelay(D.ToSet(rounds[i].names), B.SuccMap(g, B.Done(g, rounds[..i])))
  {
    hide B.SuccMap, D.SuccessorsOf, Acceptable, Generated, AtDepth, E.GraphOf, B.Succ, B.IsRun, B.IsRound, B.Linked;
    hide D.VisitOrder, B.Exhalable, B.Collected, D.Distinct, B.ExhaleOf;
    var g, names, before := E.GraphOf(apps, links), rounds[i].names, rounds[..i];
    var done := B.Done(g, before);
    B.RunPrefix(g, rounds, i);
    B.RoundIs(g, before, rounds[i]);
    B.RunProgress(g, before, names);
    B.SuccMapIs(g, done);
    RoundsByDepth(x, apps, links, before, names);
    forall n, s | DelayOrders.Feeds(D.ToSet(names), B.SuccMap(g, done), n, s) ensures false {
      assert n in apps && !B.Pulls(g, n) && s in B.Succ(g, n) by {
        GraphApps(apps, links, n);
      }
      LinkDeepens(x, apps, links, n, s, i + 1);
      AtOneDepth(x, s, i + 1, i + 2);
      assert false;
    }
  }

  /** Every generated network breathes in one order, whatever order hash tables are iterated in. */
  lemma NetworkOrderDetermined(x: Setup, apps: map<string, AppArg>, links: set<string>,
                               a: seq<B.RoundRun>, b: seq<B.RoundRun>)
    requires Acceptable(x) && Generated(x, apps, links)
    requires B.Complete(E.GraphOf(apps, links), a) && B.Complete(E.GraphOf(apps, links), b)
    ensures B.ExhaleOf(a) == B.ExhaleOf(b)
  {
    hide E.GraphOf, Acceptable, Generated, E.WellFormed, B.Linked, B.IsRun, BreatheRuns.NoRelays;
    NetworkIsWellFormed(x, apps, links);
    E.GraphLinked(apps, links);
    NetworkHasNoRelays(x, apps, links, a);
    BreatheRuns.OrderDetermined(E.GraphOf(apps, links), a, b);
  }
}
