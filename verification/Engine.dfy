/** Configuration of the running app network: `configure` of `rush/src/engine.rs`. */
module Engine {
  import opened Words
  import opened Links
  import opened Configs
  import B = BreatheOrder
  import DelaySteps
  import BreatheRuns

  /** A running app; what tells instances apart is their identity. */
  class App {
    const conf: AppArg

    constructor (conf: AppArg)
      ensures this.conf == conf
    {
      this.conf := conf;
    }
  }

  /** Packets are known by their address. */
  type SharedLink = Link<nat>

  datatype AppState = AppState(app: App, conf: AppArg, input: map<string, SharedLink>, output: map<string, SharedLink>)

  type LinkTable = map<string, SharedLink>
  type AppTable = map<string, AppState>

  /** The state of the engine that configuring reads and writes. */
  datatype Network = Network(links: LinkTable, apps: AppTable)

  // What holds between configurations

  /** `s` is what connects output port `p` of app `n`. */
  ghost predicate Feeds(net: Network, n: string, p: string, s: string) {
    s in net.links && SpecOf(s).from == n && SpecOf(s).output == p
  }

  ghost predicate Drains(net: Network, n: string, p: string, s: string) {
    s in net.links && SpecOf(s).to == n && SpecOf(s).input == p
  }

  /** No app holds a link that the link table does not put on that very port. */
  ghost predicate NoStrays(net: Network) {
    NoStrayOutputs(net) && NoStrayInputs(net)
  }

  ghost predicate NoStrayOutputs(net: Network) {
    forall n, p :: n in net.apps && p in net.apps[n].output ==>
      exists s :: Feeds(net, n, p, s) && net.apps[n].output[p] == net.links[s]
  }

  ghost predicate NoStrayInputs(net: Network) {
    forall n, p :: n in net.apps && p in net.apps[n].input ==>
      exists s :: Drains(net, n, p, s) && net.apps[n].input[p] == net.links[s]
  }

  /** A link is on both its ports. */
  ghost predicate Connected(net: Network, s: string) {
    && s in net.links && SpecOf(s).from in net.apps && SpecOf(s).to in net.apps
    && SpecOf(s).output in net.apps[SpecOf(s).from].output
    && net.apps[SpecOf(s).from].output[SpecOf(s).output] == net.links[s]
    && SpecOf(s).input in net.apps[SpecOf(s).to].input
    && net.apps[SpecOf(s).to].input[SpecOf(s).input] == net.links[s]
  }

  /** Different strings have different links. */
  ghost predicate LinksApart(links: LinkTable) {
    forall s, t :: s in links && t in links && s != t ==> links[s] != links[t]
  }

  /** Every app runs an instance built from the configuration kept beside it, its own. */
  ghost predicate Instances(apps: AppTable) {
    && (forall n :: n in apps ==> apps[n].app.conf == apps[n].conf)
    && (forall n, m :: n in apps && m in apps && n != m ==> apps[n].app != apps[m].app)
  }

  /** The network is wired exactly as its link table says, and its apps run as configured. */
  ghost predicate Wired(net: Network) {
    && NoStrays(net) && LinksApart(net.links) && Instances(net.apps)
    && forall s :: s in net.links ==> Connected(net, s)
  }

  /** A configuration whose links join configured apps, no port used twice. */
  predicate WellFormed(apps: map<string, AppArg>, links: set<string>) {
    && (forall s :: s in links ==> Canonical(s) && SpecOf(s).from in apps && SpecOf(s).to in apps)
    && (forall s, t :: s in links && t in links && s != t ==>
          && (SpecOf(s).from != SpecOf(t).from || SpecOf(s).output != SpecOf(t).output)
          && (SpecOf(s).to != SpecOf(t).to || SpecOf(s).input != SpecOf(t).input))
  }

  /** The network realises a configuration. */
  ghost predicate Realises(net: Network, apps: map<string, AppArg>, links: set<string>) {
    && Wired(net) && net.links.Keys == links && net.apps.Keys == apps.Keys
    && forall n :: n in apps ==> net.apps[n].conf == apps[n]
  }

  /** Any two networks that realise a well-formed configuration are wired alike: the same
      apps use the same ports, each for the link of the same name. */
  lemma WiringDetermined(a: Network, b: Network, apps: map<string, AppArg>, links: set<string>, n: string, p: string)
    requires WellFormed(apps, links) && Realises(a, apps, links) && Realises(b, apps, links)
    requires n in apps
    ensures p in a.apps[n].output <==> p in b.apps[n].output
    ensures p in a.apps[n].input <==> p in b.apps[n].input
    ensures forall s :: s in links && p in a.apps[n].output ==>
              (a.apps[n].output[p] == a.links[s] <==> b.apps[n].output[p] == b.links[s])
    ensures forall s :: s in links && p in a.apps[n].input ==>
              (a.apps[n].input[p] == a.links[s] <==> b.apps[n].input[p] == b.links[s])
  {
    hide WellFormed, Wired, SpecOf;
    OutputPorts(a, apps, links, n, p);
    OutputPorts(b, apps, links, n, p);
    InputPorts(a, apps, links, n, p);
    InputPorts(b, apps, links, n, p);
  }

  /** A port is in use exactly when the configuration has a link on it, and then for that link. */
  lemma OutputPorts(net: Network, apps: map<string, AppArg>, links: set<string>, n: string, p: string)
    requires WellFormed(apps, links) && Realises(net, apps, links) && n in apps
    ensures p in net.apps[n].output <==> exists s :: s in links && SpecOf(s).from == n && SpecOf(s).output == p
    ensures forall s :: s in links && p in net.apps[n].output ==>
              (net.apps[n].output[p] == net.links[s] <==> SpecOf(s).from == n && SpecOf(s).output == p)
  {
    if p in net.apps[n].output {
      var s :| Feeds(net, n, p, s) && net.apps[n].output[p] == net.links[s];
      assert s in links && SpecOf(s).from == n && SpecOf(s).output == p;
    }
    forall s | s in links && SpecOf(s).from == n && SpecOf(s).output == p
      ensures p in net.apps[n].output && net.apps[n].output[p] == net.links[s]
    {
      assert Connected(net, s);
    }
  }

  lemma InputPorts(net: Network, apps: map<string, AppArg>, links: set<string>, n: string, p: string)
    requires WellFormed(apps, links) && Realises(net, apps, links) && n in apps
    ensures p in net.apps[n].input <==> exists s :: s in links && SpecOf(s).to == n && SpecOf(s).input == p
    ensures forall s :: s in links && p in net.apps[n].input ==>
              (net.apps[n].input[p] == net.links[s] <==> SpecOf(s).to == n && SpecOf(s).input == p)
  {
    if p in net.apps[n].input {
      var s :| Drains(net, n, p, s) && net.apps[n].input[p] == net.links[s];
      assert s in links && SpecOf(s).to == n && SpecOf(s).input == p;
    }
    forall s | s in links && SpecOf(s).to == n && SpecOf(s).input == p
      ensures p in net.apps[n].input && net.apps[n].input[p] == net.links[s]
    {
      assert Connected(net, s);
    }
  }

  // The four changes to a network

  function Unlink(net: Network, s: string): Network
    requires s in net.links && SpecOf(s).from in net.apps && SpecOf(s).to in net.apps
  {
    var from := net.apps[SpecOf(s).from];
    var apps := net.apps[SpecOf(s).from := from.(output := from.output - {SpecOf(s).output})];
    var to := apps[SpecOf(s).to];
    Network(net.links - {s}, apps[SpecOf(s).to := to.(input := to.input - {SpecOf(s).input})])
  }

  function StopApp(net: Network, n: string): Network {
    net.(apps := net.apps - {n})
  }

  function StartApp(net: Network, n: string, app: App, conf: AppArg): Network {
    net.(apps := net.apps[n := AppState(app, conf, map[], map[])])
  }

  function Connect(net: Network, s: string, link: SharedLink): Network
    requires SpecOf(s).from in net.apps && SpecOf(s).to in net.apps
  {
    var from := net.apps[SpecOf(s).from];
    var apps := net.apps[SpecOf(s).from := from.(output := from.output[SpecOf(s).output := link])];
    var to := apps[SpecOf(s).to];
    Network(net.links[s := link], apps[SpecOf(s).to := to.(input := to.input[SpecOf(s).input := link])])
  }

  lemma UnlinkKeeps(net: Network, s: string)
    requires NoStrays(net) && s in net.links && SpecOf(s).from in net.apps && SpecOf(s).to in net.apps
    ensures NoStrays(Unlink(net, s))
  {
    hide SpecOf;
    var after := Unlink(net, s);
    forall n, p | n in after.apps && p in after.apps[n].output
      ensures exists t :: Feeds(after, n, p, t) && after.apps[n].output[p] == after.links[t]
    {
      var t :| Feeds(net, n, p, t) && net.apps[n].output[p] == net.links[t];
      assert Feeds(after, n, p, t);
    }
    forall n, p | n in after.apps && p in after.apps[n].input
      ensures exists t :: Drains(after, n, p, t) && after.apps[n].input[p] == after.links[t]
    {
      var t :| Drains(net, n, p, t) && net.apps[n].input[p] == net.links[t];
      assert Drains(after, n, p, t);
    }
  }

  lemma SmallerKeeps(net: Network, after: Network)
    requires NoStrays(net) && after.links == net.links
    requires forall n :: n in after.apps ==>
               (n in net.apps && after.apps[n] == net.apps[n])
               || (after.apps[n].output == map[] && after.apps[n].input == map[])
    ensures NoStrays(after)
  {
    forall n, p | n in after.apps && p in after.apps[n].output
      ensures exists t :: Feeds(after, n, p, t) && after.apps[n].output[p] == after.links[t]
    {
      var t :| Feeds(net, n, p, t) && net.apps[n].output[p] == net.links[t];
      assert Feeds(after, n, p, t);
    }
    forall n, p | n in after.apps && p in after.apps[n].input
      ensures exists t :: Drains(after, n, p, t) && after.apps[n].input[p] == after.links[t]
    {
      var t :| Drains(net, n, p, t) && net.apps[n].input[p] == net.links[t];
      assert Drains(after, n, p, t);
    }
  }

  lemma ConnectKeeps(net: Network, s: string, link: SharedLink)
    requires NoStrays(net) && SpecOf(s).from in net.apps && SpecOf(s).to in net.apps
    requires s in net.links ==> link == net.links[s]
    ensures NoStrays(Connect(net, s, link)) && Connected(Connect(net, s, link), s)
  {
    hide NoStrayOutputs, NoStrayInputs, SpecOf;
    ConnectKeepsOutputs(net, s, link);
    ConnectKeepsInputs(net, s, link);
  }

  lemma ConnectKeepsOutputs(net: Network, s: string, link: SharedLink)
    requires NoStrayOutputs(net) && SpecOf(s).from in net.apps && SpecOf(s).to in net.apps
    requires s in net.links ==> link == net.links[s]
    ensures NoStrayOutputs(Connect(net, s, link))
  {
    hide SpecOf;
    var after := Connect(net, s, link);
    forall n, p | n in after.apps && p in after.apps[n].output
      ensures exists t :: Feeds(after, n, p, t) && after.apps[n].output[p] == after.links[t]
    {
      if n == SpecOf(s).from && p == SpecOf(s).output {
        assert Feeds(after, n, p, s);
      } else {
        var t :| Feeds(net, n, p, t) && net.apps[n].output[p] == net.links[t];
        assert Feeds(after, n, p, t);
      }
    }
  }

  lemma ConnectKeepsInputs(net: Network, s: string, link: SharedLink)
    requires NoStrayInputs(net) && SpecOf(s).from in net.apps && SpecOf(s).to in net.apps
    requires s in net.links ==> link == net.links[s]
    ensures NoStrayInputs(Connect(net, s, link))
  {
    hide SpecOf;
    var after := Connect(net, s, link);
    forall n, p | n in after.apps && p in after.apps[n].input
      ensures exists t :: Drains(after, n, p, t) && after.apps[n].input[p] == after.links[t]
    {
      if n == SpecOf(s).to && p == SpecOf(s).input {
        assert Drains(after, n, p, s);
      } else {
        var t :| Drains(net, n, p, t) && net.apps[n].input[p] == net.links[t];
        assert Drains(after, n, p, t);
      }
    }
  }

  /** Connecting one link leaves a link on other ports connected. */
  lemma ConnectFrames(net: Network, s: string, link: SharedLink, t: string)
    requires SpecOf(s).from in net.apps && SpecOf(s).to in net.apps
    requires Connected(net, t) && s != t
    requires SpecOf(s).from != SpecOf(t).from || SpecOf(s).output != SpecOf(t).output
    requires SpecOf(s).to != SpecOf(t).to || SpecOf(s).input != SpecOf(t).input
    ensures Connected(Connect(net, s, link), t)
  {
    hide SpecOf;
  }

  /** The same app, whatever its wiring. */
  predicate SameApp(a: AppState, b: AppState) {
    a.app == b.app && a.conf == b.conf
  }

  lemma InstancesKept(a: AppTable, b: AppTable)
    requires Instances(a) && forall n :: n in b ==> n in a && SameApp(b[n], a[n])
    ensures Instances(b)
  {
  }

  /** The first loop's progress from `before` to `net`, with the links in `rest` still to be looked at. */
  ghost predicate Removing(before: Network, net: Network, links: set<string>, rest: set<string>) {
    && Wired(before) && NoStrays(net)
    && rest <= net.links.Keys && net.links.Keys == (before.links.Keys * links) + rest
    && (forall s :: s in net.links ==> s in before.links && net.links[s] == before.links[s])
    && net.apps.Keys == before.apps.Keys
    && (forall n :: n in net.apps ==> SameApp(net.apps[n], before.apps[n]))
  }

  /** What the second loop has done. */
  ghost predicate Stopped(before: Network, net: Network, apps: map<string, AppArg>) {
    && NoStrays(net) && net.links == before.links
    && (forall n :: n in net.apps <==> n in before.apps && n in apps && before.apps[n].conf == apps[n])
    && (forall n :: n in net.apps ==> net.apps[n] == before.apps[n])
  }

  /** What the third loop has done. */
  ghost predicate Started(before: Network, net: Network, apps: map<string, AppArg>) {
    && NoStrays(net) && net.links == before.links && net.apps.Keys == apps.Keys
    && (forall n :: n in apps ==> net.apps[n].conf == apps[n]) && Instances(net.apps)
    && (forall n :: n in before.apps ==> n in net.apps && net.apps[n] == before.apps[n])
  }

  /** Links in both configurations are the same objects; apps of equal configuration, those that
      the second loop leaves, are the same instances; and the rest are those that the third
      loop started. */
  ghost predicate Kept(n0: Network, n2: Network, n3: Network, n4: Network, apps: map<string, AppArg>,
                       links: set<string>) {
    && (forall s :: s in n0.links && s in links ==> s in n4.links && n4.links[s] == n0.links[s])
    && (forall n :: n in n2.apps <==> n in n0.apps && n in apps && n0.apps[n].conf == apps[n])
    && (forall n :: n in n2.apps ==> n in n4.apps && n in n0.apps && n4.apps[n].app == n0.apps[n].app)
    && (forall n :: n in apps ==> n in n3.apps && n in n4.apps && n4.apps[n].app == n3.apps[n].app)
  }

  /** The four loops together. */
  lemma Migrated(n0: Network, n1: Network, n2: Network, n3: Network, n4: Network,
                 apps: map<string, AppArg>, links: set<string>)
    requires Removing(n0, n1, links, {}) && Stopped(n1, n2, apps) && Started(n2, n3, apps)
    requires Building(n3, n4, apps, links, {})
    ensures Realises(n4, apps, links) && Kept(n0, n2, n3, n4, apps, links)
  {
    hide *;
    BuiltRealises(n2, n3, n4, apps, links);
    MigratedLinks(n0, n1, n2, n3, n4, apps, links);
    MigratedApps(n0, n1, n2, n3, n4, apps, links);
    AllKept(n0, n2, n3, n4, apps, links);
  }

  lemma AllKept(n0: Network, n2: Network, n3: Network, n4: Network, apps: map<string, AppArg>, links: set<string>)
    requires forall s :: s in n0.links && s in links ==> s in n4.links && n4.links[s] == n0.links[s]
    requires n4.apps.Keys == n3.apps.Keys == apps.Keys
    requires forall n :: n in n2.apps <==> n in n0.apps && n in apps && n0.apps[n].conf == apps[n]
    requires forall n :: n in n2.apps ==> n in n4.apps && n4.apps[n].app == n0.apps[n].app
    requires forall n :: n in apps ==> n4.apps[n].app == n3.apps[n].app
    ensures Kept(n0, n2, n3, n4, apps, links)
  {
  }

  lemma BuiltRealises(n2: Network, n3: Network, n4: Network, apps: map<string, AppArg>, links: set<string>)
    requires Started(n2, n3, apps) && Building(n3, n4, apps, links, {})
    ensures Realises(n4, apps, links)
  {
    hide NoStrays, LinksApart, Connected, WellFormed, Instances;
    InstancesKept(n3.apps, n4.apps);
  }

  lemma MigratedLinks(n0: Network, n1: Network, n2: Network, n3: Network, n4: Network,
                      apps: map<string, AppArg>, links: set<string>)
    requires Removing(n0, n1, links, {}) && Stopped(n1, n2, apps) && Started(n2, n3, apps)
    requires Building(n3, n4, apps, links, {})
    ensures forall s :: s in n0.links && s in links ==> s in n4.links && n4.links[s] == n0.links[s]
  {
    hide NoStrays, LinksApart, Connected, WellFormed, Instances, Wired, SameApp;
    assert n3.links == n1.links;
    forall s | s in n0.links && s in links ensures s in n4.links && n4.links[s] == n0.links[s] {
      assert s in n1.links;
    }
  }

  lemma MigratedApps(n0: Network, n1: Network, n2: Network, n3: Network, n4: Network,
                     apps: map<string, AppArg>, links: set<string>)
    requires Removing(n0, n1, links, {}) && Stopped(n1, n2, apps) && Started(n2, n3, apps)
    requires Building(n3, n4, apps, links, {})
    ensures n4.apps.Keys == n3.apps.Keys == apps.Keys
    ensures forall n :: n in n2.apps <==> n in n0.apps && n in apps && n0.apps[n].conf == apps[n]
    ensures forall n :: n in n2.apps ==> n in n4.apps && n4.apps[n].app == n0.apps[n].app
    ensures forall n :: n in apps ==> n4.apps[n].app == n3.apps[n].app
  {
    hide NoStrays, LinksApart, Connected, WellFormed, Instances, Wired;
    forall n
      ensures n in n2.apps <==> n in n0.apps && n in apps && n0.apps[n].conf == apps[n]
    {
      assert n in n1.apps <==> n in n0.apps;
    }
  }

  lemma RemovingNext(before: Network, net: Network, links: set<string>, rest: set<string>, s: string)
    requires Removing(before, net, links, rest) && s in rest
    ensures SpecOf(s).from in net.apps && SpecOf(s).to in net.apps
    ensures Removing(before, if s in links then net else Unlink(net, s), links, rest - {s})
  {
    hide SpecOf;
    assert Connected(before, s);
    UnlinkKeeps(net, s);
    UnlinkFrames(net, s);
    RemovingStep(before, net, if s in links then net else Unlink(net, s), links, rest, s);
    hide *;
  }

  lemma RemovingStep(before: Network, net: Network, after: Network, links: set<string>, rest: set<string>, s: string)
    requires Removing(before, net, links, rest) && s in rest && NoStrays(after)
    requires after.links == if s in links then net.links else net.links - {s}
    requires after.apps.Keys == net.apps.Keys
    requires forall n :: n in net.apps ==> SameApp(after.apps[n], net.apps[n])
    ensures Removing(before, after, links, rest - {s})
  {
    hide NoStrays, Wired;
  }

  lemma UnlinkFrames(net: Network, s: string)
    requires s in net.links && SpecOf(s).from in net.apps && SpecOf(s).to in net.apps
    ensures Unlink(net, s).links == net.links - {s}
    ensures Unlink(net, s).apps.Keys == net.apps.Keys
    ensures forall n :: n in net.apps ==> SameApp(Unlink(net, s).apps[n], net.apps[n])
  {
    hide SpecOf;
  }

  class EngineState {
    var linkTable: LinkTable
    var appTable: AppTable
    var inhale: seq<string>
    var exhale: seq<string>
    const packetLength: nat -> u16

    function Net(): Network
      reads `linkTable, `appTable
    {
      Network(linkTable, appTable)
    }

    constructor (packetLength: nat -> u16)
      ensures Wired(Net()) && Net() == Network(map[], map[])
    {
      linkTable, appTable := map[], map[];
      inhale, exhale := [], [];
      this.packetLength := packetLength;
    }

    /** First loop: remove the links that are going away. */
    method RemoveLinks(links: set<string>)
      requires Wired(Net())
      modifies `linkTable, `appTable
      ensures Removing(old(Net()), Net(), links, {})
    {
      var rest := linkTable.Keys;
      hide SpecOf, NoStrays, LinksApart, Connected, Instances;
      assert Removing(old(Net()), Net(), links, rest);
      while rest != {}
        invariant Removing(old(Net()), Net(), links, rest)
        decreases rest
      {
        var s :| s in rest;
        RemovingNext(old(Net()), Net(), links, rest, s);
        if s !in links {
          UnlinkApps(s);
        }
        rest := rest - {s};
      }
    }

    method UnlinkApps(s: string)
      requires s in linkTable && SpecOf(s).from in appTable && SpecOf(s).to in appTable
      modifies `linkTable, `appTable
      ensures Net() == Unlink(old(Net()), s)
    {
      linkTable := linkTable - {s};
      var from := appTable[SpecOf(s).from];
      appTable := appTable[SpecOf(s).from := from.(output := from.output - {SpecOf(s).output})];
      var to := appTable[SpecOf(s).to];
      appTable := appTable[SpecOf(s).to := to.(input := to.input - {SpecOf(s).input})];
    }

    /** Second loop: stop the apps that are going away or whose configuration changed. */
    method StopApps(apps: map<string, AppArg>)
      requires NoStrays(Net())
      modifies `appTable
      ensures Stopped(old(Net()), Net(), apps)
    {
      var rest := appTable.Keys;
      while rest != {}
        invariant rest <= appTable.Keys
        invariant appTable.Keys == (set n | n in old(appTable) && n in apps && old(appTable)[n].conf == apps[n]) + rest
        invariant forall n :: n in appTable ==> n in old(appTable) && appTable[n] == old(appTable)[n]
        decreases rest
      {
        var n :| n in rest;
        if !(n in apps && appTable[n].conf == apps[n]) {
          appTable := StopApp(Net(), n).apps;
        }
        rest := rest - {n};
      }
      SmallerKeeps(old(Net()), Net());
    }

    /** Third loop: start the apps that are not running. */
    method StartApps(apps: map<string, AppArg>)
      requires NoStrays(Net()) && appTable.Keys <= apps.Keys && Instances(appTable)
      requires forall n :: n in appTable ==> appTable[n].conf == apps[n]
      modifies `appTable
      ensures Started(old(Net()), Net(), apps)
      ensures forall n :: n in apps && n !in old(appTable) ==> fresh(appTable[n].app)
    {
      hide Starting, NoStrays, Instances, Started;
      var rest := apps.Keys;
      StartingStart(Net(), apps);
      while rest != {}
        invariant rest <= apps.Keys && Starting(old(Net()), Net(), apps, rest)
        invariant forall n :: n in appTable && n !in old(appTable) ==> fresh(appTable[n].app)
        decreases rest
      {
        var n :| n in rest;
        if n !in appTable {
          var app := new App(apps[n]);
          StartingNew(old(Net()), Net(), apps, rest, n, app);
          appTable := appTable[n := AppState(app, apps[n], map[], map[])];
        } else {
          StartingKept(old(Net()), Net(), apps, rest, n);
        }
        rest := rest - {n};
      }
      StartingEnd(old(Net()), Net(), apps);
    }

    /** Fourth loop: build every link of the configuration, reusing those that are there. */
    method BuildLinks(apps: map<string, AppArg>, links: set<string>)
      requires WellFormed(apps, links) && NoStrays(Net()) && LinksApart(linkTable)
      requires linkTable.Keys <= links && appTable.Keys == apps.Keys
      modifies `linkTable, `appTable
      ensures Building(old(Net()), Net(), apps, links, {})
      ensures forall s :: s in linkTable && s !in old(linkTable) ==>
                fresh(linkTable[s]) && linkTable[s].history == Start()
    {
      hide Building, SpecOf, NoStrays, LinksApart, Connected, WellFormed, Instances;
      var rest := links;
      BuildingStart(Net(), apps, links);
      while rest != {}
        invariant Building(old(Net()), Net(), apps, links, rest)
        invariant forall s :: s in linkTable && s !in old(linkTable) ==>
                    fresh(linkTable[s]) && linkTable[s].history == Start()
        decreases rest
      {
        var s :| s in rest;
        ghost var before := Net();
        BuildingReady(old(Net()), before, apps, links, rest, s);
        var link := LinkApps(s);
        FreshApart(before, s, link);
        BuildingNext(old(Net()), before, apps, links, rest, s, link);
        rest := rest - {s};
      }
    }

    method LinkApps(s: string) returns (link: SharedLink)
      requires SpecOf(s).from in appTable && SpecOf(s).to in appTable
      modifies `linkTable, `appTable
      ensures Net() == Connect(old(Net()), s, link)
      ensures if s in old(linkTable) then link == old(linkTable)[s]
              else fresh(link) && link !in old(linkTable).Values && link.history == Start()
      ensures linkTable == old(linkTable)[s := link]
    {
      if s in linkTable {
        link := linkTable[s];
      } else {
        link := new Link(packetLength);
        linkTable := linkTable[s := link];
      }
      var from := appTable[SpecOf(s).from];
      appTable := appTable[SpecOf(s).from := from.(output := from.output[SpecOf(s).output := link])];
      var to := appTable[SpecOf(s).to];
      appTable := appTable[SpecOf(s).to := to.(input := to.input[SpecOf(s).input := link])];
    }

    /** Migrate to a configuration. The result is wired as the configuration says, whatever
        came before; links in both keep their objects, and so their packets and counters; apps
        with equal configuration keep their instance, and all others are new. */
    method Configure(config: Config) returns (ghost rounds: seq<B.RoundRun>)
      requires Wired(Net()) && WellFormed(config.apps, config.links)
      modifies this
      ensures Realises(Net(), config.apps, config.links)
      ensures forall s :: s in old(linkTable) && s in config.links ==> linkTable[s] == old(linkTable)[s]
      ensures forall s :: s in config.links && s !in old(linkTable) ==>
                s in linkTable && fresh(linkTable[s]) && linkTable[s].history == Start()
      ensures forall n :: n in old(appTable) && n in config.apps && old(appTable)[n].conf == config.apps[n]
                ==> appTable[n].app == old(appTable)[n].app
      ensures forall n :: n in config.apps && !(n in old(appTable) && old(appTable)[n].conf == config.apps[n])
                ==> fresh(appTable[n].app)
      ensures var g := GraphOf(config.apps, config.links);
              && (forall n :: n in inhale <==> B.Pulls(g, n)) && B.Sorted(inhale) && DelaySteps.Distinct(inhale)
              && B.Complete(g, rounds) && exhale == B.ExhaleOf(rounds)
              && DelaySteps.Distinct(exhale) && (forall n :: n in exhale ==> B.Exhalable(g, n))
              && (B.NoSelfLinks(g) ==> forall n :: B.Exhalable(g, n) ==> n in exhale)
    {
      ghost var n0 := Net();
      hide SpecOf, NoStrays, LinksApart, Connected, WellFormed, Instances, Wired, Realises;
      hide Removing, Stopped, Started, Building, GraphOf;
      hide B.Pulls, B.Sorted, DelaySteps.Distinct, B.Exhalable, B.NoSelfLinks, B.Linked, B.Complete, B.ExhaleOf;
      RemoveLinks(config.links);
      ghost var n1 := Net();
      RemovedReady(n0, n1, config.links);
      StopApps(config.apps);
      ghost var n2 := Net();
      StoppedReady(n1, n2, config.apps);
      StartApps(config.apps);
      ghost var n3 := Net();
      StartedReady(n0, n1, n2, n3, config.apps, config.links);
      BuildLinks(config.apps, config.links);
      Migrated(n0, n1, n2, n3, Net(), config.apps, config.links);
      NewLinks(n0, n1, n2, n3, Net(), config.apps, config.links);
      GraphLinked(config.apps, config.links);
      var g := GraphOf(config.apps, config.links);
      inhale, exhale, rounds := B.ComputeBreatheOrder(g);
      Breathing(g, rounds);
    }
  }

  /** Every run exhales no app twice, only those it should, and without self-links all of them. */
  lemma Breathing(g: B.Graph, rounds: seq<B.RoundRun>)
    requires B.Linked(g) && B.Complete(g, rounds)
    ensures DelaySteps.Distinct(B.ExhaleOf(rounds)) && forall n :: n in B.ExhaleOf(rounds) ==> B.Exhalable(g, n)
    ensures B.NoSelfLinks(g) ==> forall n :: B.Exhalable(g, n) ==> n in B.ExhaleOf(rounds)
  {
    BreatheRuns.RunExhales(g, rounds);
    if B.NoSelfLinks(g) {
      BreatheRuns.NoSelfLinksLossless(g, rounds);
    }
  }

  /** The third loop's progress from `before` to `net`, with the apps in `rest` still to be looked at. */
  ghost predicate Starting(before: Network, net: Network, apps: map<string, AppArg>, rest: set<string>) {
    && net.links == before.links
    && (forall n :: n in net.apps <==> n in before.apps || (n in apps && n !in rest))
    && Instances(net.apps) && before.apps.Keys <= apps.Keys
    && (forall n :: n in net.apps ==> n in apps && net.apps[n].conf == apps[n])
    && (forall n :: n in before.apps ==> n in net.apps && net.apps[n] == before.apps[n])
    && (forall n :: n in net.apps && n !in before.apps ==> net.apps[n].output == map[] && net.apps[n].input == map[])
  }

  lemma StartingStart(net: Network, apps: map<string, AppArg>)
    requires net.apps.Keys <= apps.Keys && Instances(net.apps)
    requires forall n :: n in net.apps ==> net.apps[n].conf == apps[n]
    ensures Starting(net, net, apps, apps.Keys)
  {
    hide Instances;
  }

  lemma StartingNew(before: Network, net: Network, apps: map<string, AppArg>, rest: set<string>, n: string, app: App)
    requires Starting(before, net, apps, rest) && n in rest && n in apps && n !in net.apps && app.conf == apps[n]
    requires forall m :: m in net.apps ==> net.apps[m].app != app
    ensures Starting(before, StartApp(net, n, app, apps[n]), apps, rest - {n})
  {
    hide Instances;
    OneMoreInstance(net.apps, n, AppState(app, apps[n], map[], map[]));
  }

  lemma OneMoreInstance(a: AppTable, n: string, state: AppState)
    requires Instances(a) && n !in a && state.app.conf == state.conf
    requires forall m :: m in a ==> a[m].app != state.app
    ensures Instances(a[n := state])
  {
  }

  lemma StartingKept(before: Network, net: Network, apps: map<string, AppArg>, rest: set<string>, n: string)
    requires Starting(before, net, apps, rest) && n in net.apps
    ensures Starting(before, net, apps, rest - {n})
  {
    hide Instances;
  }

  lemma StartingEnd(before: Network, net: Network, apps: map<string, AppArg>)
    requires NoStrays(before) && Starting(before, net, apps, {})
    ensures Started(before, net, apps) && net.apps.Keys == apps.Keys
  {
    hide Instances, NoStrays;
    SmallerKeeps(before, net);
  }

  lemma RemovedReady(n0: Network, n1: Network, links: set<string>)
    requires Removing(n0, n1, links, {})
    ensures NoStrays(n1) && Instances(n1.apps)
  {
    hide NoStrays, LinksApart, Connected, Instances;
    InstancesKept(n0.apps, n1.apps);
  }

  lemma StoppedReady(n1: Network, n2: Network, apps: map<string, AppArg>)
    requires Stopped(n1, n2, apps) && Instances(n1.apps)
    ensures NoStrays(n2) && n2.apps.Keys <= apps.Keys && Instances(n2.apps)
    ensures forall n :: n in n2.apps ==> n2.apps[n].conf == apps[n]
  {
    hide NoStrays, Instances;
    InstancesKept(n1.apps, n2.apps);
  }

  lemma StartedReady(n0: Network, n1: Network, n2: Network, n3: Network,
                     apps: map<string, AppArg>, links: set<string>)
    requires Removing(n0, n1, links, {}) && Stopped(n1, n2, apps) && Started(n2, n3, apps)
    ensures NoStrays(n3) && LinksApart(n3.links)
    ensures n3.links.Keys <= links && n3.apps.Keys == apps.Keys
  {
    hide NoStrays, Instances, Connected, SameApp;
    assert n3.links == n1.links;
    assert LinksApart(n1.links);
  }

  lemma NewLinks(n0: Network, n1: Network, n2: Network, n3: Network, n4: Network,
                 apps: map<string, AppArg>, links: set<string>)
    requires Removing(n0, n1, links, {}) && Stopped(n1, n2, apps) && Started(n2, n3, apps)
    requires Building(n3, n4, apps, links, {})
    ensures forall s :: s in links && s !in n0.links ==> s in n4.links && s !in n3.links
  {
    hide NoStrays, LinksApart, Connected, WellFormed, Instances, Wired, SameApp;
  }

  /** What the breathe order depends on. */
  function GraphOf(apps: map<string, AppArg>, links: set<string>): B.Graph {
    B.Graph(map n | n in apps :: B.Caps(HasPull(apps[n]), HasPush(apps[n])),
            set s | s in links :: (SpecOf(s).from, SpecOf(s).to))
  }

  lemma GraphLinked(apps: map<string, AppArg>, links: set<string>)
    requires WellFormed(apps, links)
    ensures B.Linked(GraphOf(apps, links))
  {
    hide SpecOf, Canonical;
  }

  lemma BuildingReady(before: Network, net: Network, apps: map<string, AppArg>, links: set<string>, rest: set<string>,
                      s: string)
    requires Building(before, net, apps, links, rest) && s in rest
    ensures SpecOf(s).from in net.apps && SpecOf(s).to in net.apps && LinksApart(net.links)
    ensures before.links.Keys <= net.links.Keys
  {
    hide SpecOf, Canonical, NoStrays, LinksApart, Connected;
  }

  lemma FreshApart(net: Network, s: string, link: SharedLink)
    requires LinksApart(net.links)
    requires if s in net.links then link == net.links[s] else link !in net.links.Values
    ensures LinksApart(net.links[s := link])
  {
  }

  /** The fourth loop's progress from `before` to `net`, with the links in `rest` still to be built. */
  ghost predicate Building(before: Network, net: Network, apps: map<string, AppArg>, links: set<string>,
                           rest: set<string>) {
    && WellFormed(apps, links) && NoStrays(net) && LinksApart(net.links) && rest <= links
    && links - rest <= net.links.Keys <= links
    && (forall s :: s in links && s !in rest ==> Connected(net, s))
    && (forall s :: s in before.links ==> s in net.links && net.links[s] == before.links[s])
    && net.apps.Keys == apps.Keys == before.apps.Keys
    && (forall n :: n in net.apps ==> SameApp(net.apps[n], before.apps[n]))
  }

  lemma BuildingStart(net: Network, apps: map<string, AppArg>, links: set<string>)
    requires WellFormed(apps, links) && NoStrays(net) && LinksApart(net.links)
    requires net.links.Keys <= links && net.apps.Keys == apps.Keys
    ensures Building(net, net, apps, links, links)
  {
    hide WellFormed, NoStrays, LinksApart;
  }

  lemma BuildingNext(before: Network, net: Network, apps: map<string, AppArg>, links: set<string>,
                     rest: set<string>, s: string, link: SharedLink)
    requires Building(before, net, apps, links, rest) && s in rest
    requires SpecOf(s).from in net.apps && SpecOf(s).to in net.apps
    requires s in net.links ==> link == net.links[s]
    requires LinksApart(net.links[s := link])
    ensures Building(before, Connect(net, s, link), apps, links, rest - {s})
  {
    var after := Connect(net, s, link);
    ConnectKeeps(net, s, link);
    ConnectLinks(net, s, link);
    ConnectOthers(net, apps, links, rest, s, link);
    BuildingStep(before, net, after, apps, links, rest, s, link);
    hide *;
  }

  lemma ConnectOthers(net: Network, apps: map<string, AppArg>, links: set<string>,
                      rest: set<string>, s: string, link: SharedLink)
    requires WellFormed(apps, links) && s in rest && rest <= links
    requires SpecOf(s).from in net.apps && SpecOf(s).to in net.apps
    requires forall t :: t in links && t !in rest ==> Connected(net, t)
    ensures forall t :: t in links && t !in rest ==> Connected(Connect(net, s, link), t)
  {
    forall t | t in links && t !in rest
      ensures Connected(Connect(net, s, link), t)
    {
      ConnectFrames(net, s, link, t);
      hide *;
    }
  }

  lemma BuildingStep(before: Network, net: Network, after: Network, apps: map<string, AppArg>, links: set<string>,
                     rest: set<string>, s: string, link: SharedLink)
    requires Building(before, net, apps, links, rest) && s in rest
    requires after.links == net.links[s := link] && after.apps.Keys == net.apps.Keys
    requires s in net.links ==> link == net.links[s]
    requires LinksApart(after.links) && NoStrays(after) && Connected(after, s)
    requires forall n :: n in net.apps ==> SameApp(after.apps[n], net.apps[n])
    requires forall t :: t in links && t !in rest ==> Connected(after, t)
    ensures Building(before, after, apps, links, rest - {s})
  {
    hide SpecOf, Canonical, NoStrays, LinksApart, Connected, WellFormed, Instances;
  }

  lemma ConnectLinks(net: Network, s: string, link: SharedLink)
    requires SpecOf(s).from in net.apps && SpecOf(s).to in net.apps
    ensures Connect(net, s, link).links == net.links[s := link]
    ensures Connect(net, s, link).apps.Keys == net.apps.Keys
    ensures forall n :: n in net.apps ==> SameApp(Connect(net, s, link).apps[n], net.apps[n])
  {
    hide SpecOf;
  }
}
