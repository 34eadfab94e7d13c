/** `compute_breathe_order` of `rush/src/engine.rs`: rounds that delay, sort and exhale. The
    iteration order of hash maps and sets is an arbitrary choice: a run records the choices
    made, and every result here is about every run. */
module BreatheOrder {
  import opened DelaySteps
  import opened DelayOrders
  import opened DelayLosses

  /** What the order depends on: which apps pull and push, and which are linked. */
  datatype Caps = Caps(pull: bool, push: bool)
  datatype Graph = Graph(apps: map<Name, Caps>, links: set<(Name, Name)>)

  /** Every link ends at configured apps; elsewhere the source panics. */
  ghost predicate Linked(g: Graph) {
    forall l :: l in g.links ==> l.0 in g.apps && l.1 in g.apps
  }

  /** A link from `n` to a push-capable app. */
  predicate Edge(g: Graph, n: Name, s: Name) {
    (n, s) in g.links && s in g.apps && g.apps[s].push
  }

  predicate Pulls(g: Graph, n: Name) {
    n in g.apps && g.apps[n].pull
  }

  // Sorting by name

  predicate LexLe(a: Name, b: Name) {
    a == [] || (b != [] && (a[0] < b[0] || (a[0] == b[0] && LexLe(a[1..], b[1..]))))
  }

  lemma {:induction false} LexTotal(a: Name, b: Name)
    ensures LexLe(a, b) || LexLe(b, a)
    ensures LexLe(a, b) && LexLe(b, a) ==> a == b
  {
    if a != [] && b != [] {
      LexTotal(a[1..], b[1..]);
      assert a == [a[0]] + a[1..] && b == [b[0]] + b[1..];
    }
  }

  lemma {:induction false} LexTransitive(a: Name, b: Name, c: Name)
    requires LexLe(a, b) && LexLe(b, c)
    ensures LexLe(a, c)
  {
    if a != [] && a[0] == b[0] == c[0] {
      LexTransitive(a[1..], b[1..], c[1..]);
    }
  }

  predicate Sorted(s: seq<Name>) {
    s == [] || ((forall x :: x in s[1..] ==> LexLe(s[0], x)) && Sorted(s[1..]))
  }

  function Insert(x: Name, s: seq<Name>): (r: seq<Name>)
    ensures forall y :: y in r <==> y == x || y in s
  {
    if s == [] then [x]
    else if LexLe(x, s[0]) then [x] + s
    else [s[0]] + Insert(x, s[1..])
  }

  /** `sort()` on a vector of names. */
  function Sort(s: seq<Name>): (r: seq<Name>)
    ensures forall y :: y in r <==> y in s
  {
    if s == [] then [] else Insert(s[0], Sort(s[1..]))
  }

  lemma {:induction false} InsertKeeps(x: Name, s: seq<Name>)
    requires Sorted(s)
    ensures Sorted(Insert(x, s)) && |Insert(x, s)| == |s| + 1
    ensures Distinct(s) && x !in s ==> Distinct(Insert(x, s))
  {
    if s != [] {
      LexTotal(x, s[0]);
      if LexLe(x, s[0]) {
        forall y | y in s
          ensures LexLe(x, y)
        {
          if y != s[0] {
            LexTransitive(x, s[0], y);
          }
        }
        assert ([x] + s)[1..] == s;
      } else {
        InsertKeeps(x, s[1..]);
        assert Insert(x, s)[1..] == Insert(x, s[1..]);
      }
    }
  }

  lemma {:induction false} SortSorts(s: seq<Name>)
    ensures Sorted(Sort(s)) && |Sort(s)| == |s|
    ensures Distinct(s) ==> Distinct(Sort(s))
  {
    if s != [] {
      SortSorts(s[1..]);
      InsertKeeps(s[0], Sort(s[1..]));
    }
  }

  /** A set of names has one sorted list: sorting undoes whatever order hashing chose. */
  lemma {:induction false} SortedUnique(a: seq<Name>, b: seq<Name>)
    requires Sorted(a) && Sorted(b) && Distinct(a) && Distinct(b)
    requires forall x :: x in a <==> x in b
    ensures a == b
  {
    assert b != [] ==> b[0] in a;
    if a != [] {
      assert a[0] in b;
      LexTotal(a[0], b[0]);
      assert a[0] == b[0];
      forall x
        ensures x in a[1..] <==> x in b[1..]
      {
        assert x in a <==> x == a[0] || x in a[1..];
        assert x in b <==> x == b[0] || x in b[1..];
      }
      SortedUnique(a[1..], b[1..]);
      assert a == [a[0]] + a[1..] && b == [b[0]] + b[1..];
    }
  }

  // What is to be exhaled

  /** A path from a pull app along links, through push-capable apps only. */
  ghost predicate IsPath(g: Graph, path: seq<Name>) {
    && |path| >= 2 && Pulls(g, path[0])
    && forall i :: 0 < i < |path| ==> Edge(g, path[i - 1], path[i])
  }

  /** What is to be exhaled: push-capable apps reached from a pull app through such apps. */
  ghost predicate Exhalable(g: Graph, n: Name) {
    exists path :: IsPath(g, path) && path[|path| - 1] == n
  }

  lemma ExhalableFromPull(g: Graph, n: Name, s: Name)
    requires Pulls(g, n) && Edge(g, n, s)
    ensures Exhalable(g, s)
  {
    assert IsPath(g, [n, s]) && [n, s][1] == s;
  }

  lemma ExhalableNext(g: Graph, n: Name, s: Name)
    requires Exhalable(g, n) && Edge(g, n, s)
    ensures Exhalable(g, s)
  {
    var path :| IsPath(g, path) && path[|path| - 1] == n;
    var longer := path + [s];
    assert IsPath(g, longer) && longer[|longer| - 1] == s;
  }

  /** Whatever takes in the push-capable successors of pull apps and of its own members
      takes in every app to be exhaled. */
  lemma {:induction false} ExhalableWithin(g: Graph, closed: set<Name>, path: seq<Name>)
    requires IsPath(g, path)
    requires forall n, s :: (Pulls(g, n) || n in closed) && Edge(g, n, s) ==> s in closed
    ensures path[|path| - 1] in closed
  {
    assert Edge(g, path[|path| - 2], path[|path| - 1]);
    if |path| > 2 {
      ExhalableWithin(g, closed, path[..|path| - 1]);
    }
  }

  /** No push-capable app is linked to itself, unless it pulls. */
  predicate NoSelfLinks(g: Graph) {
    forall l :: l in g.links && l.0 == l.1 && l.0 in g.apps ==> g.apps[l.0].pull || !g.apps[l.0].push
  }

  function Succ(g: Graph, n: Name): set<Name> {
    set l | l in g.links && l.0 == n :: l.1
  }

  // Runs

  function Pullers(g: Graph): set<Name> {
    set n | n in g.apps && g.apps[n].pull
  }

  /** The map of successors, without the entries of processed apps. */
  function SuccMap(g: Graph, done: set<Name>): map<Name, set<Name>> {
    map l | l in g.links && l.0 !in done :: l.0 := Succ(g, l.0)
  }

  ghost predicate Remaining(g: Graph, successors: map<Name, set<Name>>, done: set<Name>) {
    forall n :: SuccessorsOf(successors, n) == if n in done then {} else Succ(g, n)
  }

  lemma SuccMapIs(g: Graph, done: set<Name>)
    ensures Remaining(g, SuccMap(g, done), done)
  {
    forall n ensures SuccessorsOf(SuccMap(g, done), n) == if n in done then {} else Succ(g, n) {
      if n !in done && n !in SuccMap(g, done) {
        assert forall l :: l in g.links ==> l.0 != n;
      }
    }
  }

  lemma SuccMapLess(g: Graph, done: set<Name>, more: set<Name>)
    ensures SuccMap(g, done) - more == SuccMap(g, done + more)
  {
  }

  /** One round: the dependents in the order of the list, and the visits in theirs. */
  datatype RoundRun = RoundRun(names: seq<Name>, visits: seq<(Name, Name)>)

  function Survivors(r: RoundRun): seq<Name> {
    Sort(Visits(r.names, r.visits).dependents)
  }

  function ExhaleOf(rounds: seq<RoundRun>): seq<Name> {
    if |rounds| == 0 then [] else ExhaleOf(rounds[..|rounds| - 1]) + Survivors(rounds[|rounds| - 1])
  }

  /** What is processed after some rounds. */
  function Done(g: Graph, rounds: seq<RoundRun>): set<Name> {
    Pullers(g) + ToSet(ExhaleOf(rounds))
  }

  ghost function InhaleOf(g: Graph): seq<Name> {
    Sort(Listing(Pullers(g)))
  }

  /** The apps whose successors are collected after some rounds, and the successors then known. */
  ghost function FromOf(g: Graph, rounds: seq<RoundRun>): seq<Name> {
    if |rounds| == 0 then InhaleOf(g) else Survivors(rounds[|rounds| - 1])
  }

  ghost function LeadsOf(g: Graph, rounds: seq<RoundRun>): map<Name, set<Name>> {
    if |rounds| == 0 then SuccMap(g, {}) else SuccMap(g, Done(g, rounds[..|rounds| - 1]))
  }

  /** A push-capable successor that is not exhaled yet. */
  predicate Eligible(g: Graph, successors: map<Name, set<Name>>, n: Name, exhale: seq<Name>, s: Name) {
    s in SuccessorsOf(successors, n) && s in g.apps && g.apps[s].push && s !in exhale
  }

  /** `names` is an order in which the eligible successors of some apps may be collected. */
  ghost predicate CollectOrder(g: Graph, successors: map<Name, set<Name>>, from: seq<Name>, exhale: seq<Name>,
                               names: seq<Name>) {
    if |from| == 0 then names == []
    else
      exists k :: 0 <= k <= |names|
        && CollectOrder(g, successors, from[..|from| - 1], exhale, names[..k])
        && Adds(g, successors, from[|from| - 1], exhale, names[..k], names[k..])
  }

  /** `more` is what one app adds to a list, in some order. */
  ghost predicate Adds(g: Graph, successors: map<Name, set<Name>>, n: Name, exhale: seq<Name>, names: seq<Name>,
                       more: seq<Name>) {
    Distinct(more) && forall s :: s in more <==> Eligible(g, successors, n, exhale, s) && s !in names
  }

  ghost predicate Collected(g: Graph, rounds: seq<RoundRun>, names: seq<Name>) {
    CollectOrder(g, LeadsOf(g, rounds), FromOf(g, rounds), ExhaleOf(rounds), names)
  }

  /** Rounds as the source may carry them out. */
  ghost predicate IsRun(g: Graph, rounds: seq<RoundRun>) {
    |rounds| == 0 ||
      var front, last := rounds[..|rounds| - 1], rounds[|rounds| - 1];
      IsRun(g, front) && IsRound(g, front, last)
  }

  ghost predicate IsRound(g: Graph, before: seq<RoundRun>, r: RoundRun) {
    r.names != [] && Collected(g, before, r.names) && VisitOrder(r.names, SuccMap(g, Done(g, before)), r.visits)
  }

  /** A run that ends because no dependents are left. */
  ghost predicate Complete(g: Graph, rounds: seq<RoundRun>) {
    IsRun(g, rounds) && Collected(g, rounds, [])
  }

  lemma {:induction false} RunPrefix(g: Graph, rounds: seq<RoundRun>, i: nat)
    requires IsRun(g, rounds) && i <= |rounds|
    ensures IsRun(g, rounds[..i])
    ensures i < |rounds| ==> IsRound(g, rounds[..i], rounds[i])
  {
    hide IsRound;
    if i < |rounds| {
      var front := rounds[..|rounds| - 1];
      RunPrefix(g, front, i);
      assert front[..i] == rounds[..i];
    } else {
      assert rounds[..i] == rounds;
    }
  }

  lemma CollectOrderLast(g: Graph, successors: map<Name, set<Name>>, from: seq<Name>, exhale: seq<Name>,
                         names: seq<Name>) returns (k: nat)
    requires CollectOrder(g, successors, from, exhale, names) && |from| > 0
    ensures k <= |names| && names[..k] + names[k..] == names
    ensures CollectOrder(g, successors, from[..|from| - 1], exhale, names[..k])
    ensures Adds(g, successors, from[|from| - 1], exhale, names[..k], names[k..])
  {
    k :| 0 <= k <= |names| && CollectOrder(g, successors, from[..|from| - 1], exhale, names[..k])
         && Adds(g, successors, from[|from| - 1], exhale, names[..k], names[k..]);
  }

  ghost predicate Further(g: Graph, successors: map<Name, set<Name>>, from: seq<Name>, exhale: seq<Name>, s: Name) {
    exists n :: n in from && Eligible(g, successors, n, exhale, s)
  }

  /** Collecting gives every eligible successor once. */
  lemma {:induction false} CollectOrderIs(g: Graph, successors: map<Name, set<Name>>, from: seq<Name>,
                                          exhale: seq<Name>, names: seq<Name>)
    requires CollectOrder(g, successors, from, exhale, names)
    ensures Distinct(names) && forall s :: s in names <==> Further(g, successors, from, exhale, s)
  {
    if |from| > 0 {
      var front, last := from[..|from| - 1], from[|from| - 1];
      var k := CollectOrderLast(g, successors, from, exhale, names);
      CollectOrderIs(g, successors, front, exhale, names[..k]);
      DistinctConcat(names[..k], names[k..]);
      hide CollectOrder, Eligible, Distinct;
      assert from == front + [last];
      assert forall s :: s in names <==> s in names[..k] || s in names[k..] by {
        assert names == names[..k] + names[k..];
      }
      forall s
        ensures s in names <==> Further(g, successors, from, exhale, s)
      {
        assert forall n :: n in from <==> n in front || n == last;
      }
    }
  }

  // The loops

  method BuildSuccessors(g: Graph) returns (successors: map<Name, set<Name>>)
    ensures successors == SuccMap(g, {})
  {
    successors := map[];
    var rest := g.links;
    ghost var done: set<(Name, Name)> := {};
    while rest != {}
      invariant done + rest == g.links
      invariant successors == SuccMap(Graph(g.apps, done), {})
      decreases rest
    {
      var l :| l in rest;
      AddLink(Graph(g.apps, done), l);
      successors := successors[l.0 := SuccessorsOf(successors, l.0) + {l.1}];
      rest, done := rest - {l}, done + {l};
    }
    assert done == g.links;
  }

  lemma SuccMore(g: Graph, l: (Name, Name), n: Name)
    ensures Succ(Graph(g.apps, g.links + {l}), n) == if n == l.0 then Succ(g, n) + {l.1} else Succ(g, n)
  {
  }

  lemma SuccKeys(g: Graph, n: Name)
    ensures n in SuccMap(g, {}) <==> Succ(g, n) != {}
    ensures n in SuccMap(g, {}) ==> SuccMap(g, {})[n] == Succ(g, n)
  {
    if l :| l in g.links && l.0 == n {
      assert l.1 in Succ(g, n);
    }
  }

  lemma AddLink(g: Graph, l: (Name, Name))
    ensures var before := SuccMap(g, {});
            SuccMap(Graph(g.apps, g.links + {l}), {}) == before[l.0 := SuccessorsOf(before, l.0) + {l.1}]
  {
    hide SuccMap, Succ;
    var g' := Graph(g.apps, g.links + {l});
    var before, after := SuccMap(g, {}), SuccMap(g', {});
    var wanted := before[l.0 := SuccessorsOf(before, l.0) + {l.1}];
    forall n
      ensures n in after <==> n in wanted
      ensures n in after ==> after[n] == wanted[n]
    {
      SuccMore(g, l, n);
      SuccKeys(g, n);
      SuccKeys(g', n);
    }
  }

  method Collect(g: Graph, successors: map<Name, set<Name>>, from: seq<Name>, exhale: seq<Name>)
    returns (dependents: seq<Name>)
    requires forall n, s :: s in SuccessorsOf(successors, n) ==> s in g.apps
    ensures CollectOrder(g, successors, from, exhale, dependents)
  {
    hide Adds, SuccessorsOf;
    dependents := [];
    var i := 0;
    CollectNothing(g, successors, from, exhale);
    while i < |from|
      invariant 0 <= i <= |from| && CollectOrder(g, successors, from[..i], exhale, dependents)
    {
      var more := CollectOne(g, successors, from[i], exhale, dependents);
      CollectMore(g, successors, from[..i], from[i], exhale, dependents, more);
      assert from[..i] + [from[i]] == from[..i + 1];
      dependents := dependents + more;
      i := i + 1;
    }
    assert from[..i] == from;
  }

  lemma CollectNothing(g: Graph, successors: map<Name, set<Name>>, from: seq<Name>, exhale: seq<Name>)
    ensures CollectOrder(g, successors, from[..0], exhale, [])
  {
  }

  lemma CollectMore(g: Graph, successors: map<Name, set<Name>>, from: seq<Name>, n: Name, exhale: seq<Name>,
                    names: seq<Name>, more: seq<Name>)
    requires CollectOrder(g, successors, from, exhale, names) && Adds(g, successors, n, exhale, names, more)
    ensures CollectOrder(g, successors, from + [n], exhale, names + more)
  {
    hide Adds;
    var k, all := |names|, names + more;
    assert (from + [n])[..|from|] == from;
    assert all[..k] == names && all[k..] == more;
  }

  lemma {:induction false} DistinctBound(s: seq<Name>, all: set<Name>)
    requires Distinct(s) && forall x :: x in s ==> x in all
    ensures |s| <= |all|
  {
    if s != [] {
      DistinctBound(s[1..], all - {s[0]});
    }
  }

  method CollectOne(g: Graph, successors: map<Name, set<Name>>, n: Name, exhale: seq<Name>, before: seq<Name>)
    returns (more: seq<Name>)
    requires forall n, s :: s in SuccessorsOf(successors, n) ==> s in g.apps
    ensures Adds(g, successors, n, exhale, before, more)
  {
    more := [];
    var rest := SuccessorsOf(successors, n);
    while rest != {}
      invariant rest <= SuccessorsOf(successors, n) && Distinct(more)
      invariant forall s :: s in more <==> Eligible(g, successors, n, exhale, s) && s !in before && s !in rest
      decreases rest
    {
      var s :| s in rest;
      if g.apps[s].push && s !in exhale && s !in before && s !in more {
        DistinctConcat(more, [s]);
        more := more + [s];
      }
      rest := rest - {s};
    }
  }

  /** One round: delay, sort, exhale, and collect further dependents. */
  method Round(g: Graph, ghost rounds0: seq<RoundRun>, exhale0: seq<Name>, dependents0: seq<Name>,
               successors0: map<Name, set<Name>>)
    returns (ghost rounds: seq<RoundRun>, exhale: seq<Name>, dependents: seq<Name>, successors: map<Name, set<Name>>)
    requires Linked(g) && Under(g, rounds0, exhale0, dependents0, successors0) && dependents0 != []
    ensures Under(g, rounds, exhale, dependents, successors)
    ensures |exhale0| < |exhale| <= |g.apps|
  {
    EndpointsKnown(g, rounds0, exhale0, dependents0, successors0);
    hide *;
    var exhaled;
    ghost var visits;
    exhaled, visits := Delay(dependents0, successors0);
    exhaled := Sort(exhaled);
    exhale := exhale0 + exhaled;
    dependents := Collect(g, successors0, exhaled, exhale);
    successors := successors0 - ToSet(exhaled);
    rounds := rounds0 + [RoundRun(dependents0, visits)];
    RoundDone(g, rounds0, exhale0, dependents0, successors0, visits, exhaled, dependents);
    UnderBound(g, rounds0, exhale0, dependents0, successors0, visits, exhaled, dependents);
  }

  /** The state of the loop is that of a run. */
  ghost predicate Under(g: Graph, rounds: seq<RoundRun>, exhale: seq<Name>, dependents: seq<Name>,
                        successors: map<Name, set<Name>>) {
    && IsRun(g, rounds) && exhale == ExhaleOf(rounds) && Collected(g, rounds, dependents)
    && successors == SuccMap(g, Done(g, rounds))
  }

  lemma EndpointsKnown(g: Graph, rounds: seq<RoundRun>, exhale: seq<Name>, dependents: seq<Name>,
                       successors: map<Name, set<Name>>)
    requires Linked(g) && Under(g, rounds, exhale, dependents, successors)
    ensures forall n, s :: s in SuccessorsOf(successors, n) ==> s in g.apps
  {
    SuccMapEndpoints(g, Done(g, rounds));
    hide IsRun, Collected, SuccMap;
  }

  lemma SuccMapEndpoints(g: Graph, done: set<Name>)
    requires Linked(g)
    ensures forall n, s :: s in SuccessorsOf(SuccMap(g, done), n) ==> s in g.apps
  {
    SuccMapIs(g, done);
    hide SuccMap, SuccessorsOf;
    forall n, s | s in SuccessorsOf(SuccMap(g, done), n) ensures s in g.apps {
      assert s in Succ(g, n);
    }
  }

  lemma RoundDone(g: Graph, rounds: seq<RoundRun>, exhale: seq<Name>, dependents: seq<Name>,
                  successors: map<Name, set<Name>>, visits: seq<(Name, Name)>, exhaled: seq<Name>, further: seq<Name>)
    requires Under(g, rounds, exhale, dependents, successors) && dependents != []
    requires VisitOrder(dependents, successors, visits) && exhaled == Sort(Visits(dependents, visits).dependents)
    requires CollectOrder(g, successors, exhaled, exhale + exhaled, further)
    ensures Under(g, rounds + [RoundRun(dependents, visits)], exhale + exhaled, further, successors - ToSet(exhaled))
  {
    hide VisitOrder, Visits, Sort, CollectOrder, SuccMap;
    var r := RoundRun(dependents, visits);
    var all := rounds + [r];
    assert all[..|all| - 1] == rounds;
    assert IsRound(g, rounds, r);
    SuccMapLess(g, Done(g, rounds), ToSet(exhaled));
    assert Done(g, all) == Done(g, rounds) + ToSet(exhaled) by {
      assert forall x :: x in exhale + exhaled <==> x in exhale || x in exhaled;
    }
  }

  lemma UnderBound(g: Graph, rounds: seq<RoundRun>, exhale: seq<Name>, dependents: seq<Name>,
                   successors: map<Name, set<Name>>, visits: seq<(Name, Name)>, exhaled: seq<Name>, further: seq<Name>)
    requires Linked(g) && Under(g, rounds, exhale, dependents, successors) && dependents != []
    requires VisitOrder(dependents, successors, visits) && exhaled == Sort(Visits(dependents, visits).dependents)
    requires CollectOrder(g, successors, exhaled, exhale + exhaled, further)
    ensures |exhale| < |exhale + exhaled| <= |g.apps|
  {
    RoundDone(g, rounds, exhale, dependents, successors, visits, exhaled, further);
    var all := rounds + [RoundRun(dependents, visits)];
    RunProgress(g, all, further);
    assert exhaled != [] by {
      RunProgress(g, rounds, dependents);
      SurvivorsLoose(g, rounds, RoundRun(dependents, visits));
    }
    hide *;
    ProgressBound(g, exhale + exhaled, further);
  }

  lemma ProgressBound(g: Graph, exhale: seq<Name>, dependents: seq<Name>)
    requires Progress(g, exhale, dependents)
    ensures |exhale| <= |g.apps|
  {
    DistinctBound(exhale, g.apps.Keys);
  }

  /** Whatever the hash order, what is computed is a complete run, from the pull apps sorted by
      name. */
  method ComputeBreatheOrder(g: Graph) returns (inhale: seq<Name>, exhale: seq<Name>, ghost rounds: seq<RoundRun>)
    requires Linked(g)
    ensures Sorted(inhale) && Distinct(inhale) && forall n :: n in inhale <==> Pulls(g, n)
    ensures Complete(g, rounds) && exhale == ExhaleOf(rounds)
  {
    inhale := Inhalers(g);
    exhale := [];
    rounds := [];
    var successors := BuildSuccessors(g);
    SuccMapEndpoints(g, {});
    InhaleIs(g, inhale);
    var dependents := Collect(g, successors, inhale, exhale);
    SuccMapLess(g, {}, ToSet(inhale));
    StartUnder(g, inhale, dependents);
    successors := successors - ToSet(inhale);
    hide Sorted, Distinct, Pulls, Under, Linked, Complete;
    while dependents != []
      invariant Under(g, rounds, exhale, dependents, successors) && |exhale| <= |g.apps|
      decreases |g.apps| - |exhale|
    {
      rounds, exhale, dependents, successors := Round(g, rounds, exhale, dependents, successors);
    }
    UnderIs(g, rounds, exhale, dependents, successors);
  }

  lemma UnderIs(g: Graph, rounds: seq<RoundRun>, exhale: seq<Name>, dependents: seq<Name>,
                successors: map<Name, set<Name>>)
    requires Under(g, rounds, exhale, dependents, successors) && dependents == []
    ensures Complete(g, rounds) && exhale == ExhaleOf(rounds)
  {
  }

  lemma InhaleIs(g: Graph, inhale: seq<Name>)
    requires Sorted(inhale) && Distinct(inhale) && forall n :: n in inhale <==> Pulls(g, n)
    ensures inhale == InhaleOf(g) && ToSet(inhale) == Pullers(g)
  {
    var listed := Listing(Pullers(g));
    assert forall n :: n in listed <==> n in ToSet(listed);
    SortSorts(listed);
    hide Sorted, Distinct, Sort, Listing;
    SortedUnique(inhale, Sort(listed));
  }

  lemma StartUnder(g: Graph, inhale: seq<Name>, dependents: seq<Name>)
    requires inhale == InhaleOf(g) && ToSet(inhale) == Pullers(g)
    requires CollectOrder(g, SuccMap(g, {}), inhale, [], dependents)
    ensures Under(g, [], [], dependents, SuccMap(g, {} + ToSet(inhale)))
  {
    hide CollectOrder, SuccMap, InhaleOf;
    assert ToSet([]) == {};
    assert Done(g, []) == {} + ToSet(inhale);
  }

  /** The pull apps, sorted. */
  method Inhalers(g: Graph) returns (inhale: seq<Name>)
    ensures Sorted(inhale) && Distinct(inhale) && forall n :: n in inhale <==> Pulls(g, n)
  {
    inhale := [];
    var rest := g.apps.Keys;
    while rest != {}
      invariant rest <= g.apps.Keys && Distinct(inhale)
      invariant forall n :: n in inhale <==> Pulls(g, n) && n !in rest
      decreases rest
    {
      var n :| n in rest;
      if g.apps[n].pull {
        DistinctConcat(inhale, [n]);
        inhale := inhale + [n];
      }
      rest := rest - {n};
    }
    SortSorts(inhale);
    inhale := Sort(inhale);
  }

  // What every run is like

  /** Between rounds: the exhalers hold no app twice and only apps to be exhaled. */
  ghost predicate Progress(g: Graph, exhale: seq<Name>, dependents: seq<Name>) {
    && Distinct(exhale) && Distinct(dependents)
    && (forall n :: n in dependents ==> n !in exhale && n in g.apps && g.apps[n].push && Exhalable(g, n))
    && (forall n :: n in exhale ==> n in g.apps && g.apps[n].push && Exhalable(g, n))
  }

  lemma InhaleMembers(g: Graph)
    ensures forall n :: n in InhaleOf(g) <==> Pulls(g, n)
  {
    var listed := Listing(Pullers(g));
    assert forall n :: n in listed <==> n in ToSet(listed);
    hide Sort, Listing;
  }

  /** The survivors of a round are some of its dependents, at least one, each once. */
  lemma SurvivorsLoose(g: Graph, before: seq<RoundRun>, r: RoundRun)
    requires Distinct(r.names) && VisitOrder(r.names, SuccMap(g, Done(g, before)), r.visits)
    ensures Distinct(Survivors(r)) && (r.names != [] ==> Survivors(r) != [])
    ensures forall x :: x in Survivors(r) ==> x in r.names
    ensures ToSet(Survivors(r)) == ToSet(Visits(r.names, r.visits).dependents) <= ToSet(r.names)
  {
    OrderCovers(r.names, SuccMap(g, Done(g, before)), r.visits);
    var d := Visits(r.names, r.visits);
    hide VisitOrder, SuccMap;
    assert forall v :: v in r.visits ==> Linking(r.names, SuccMap(g, Done(g, before)), v);
    AfterLoose(r.names, Delays(r.names, {}), r.visits);
    SortSorts(d.dependents);
    hide After, Sort, Distinct;
    assert r.names != [] ==> d.dependents[0] in Survivors(r);
    assert forall x :: x in Survivors(r) <==> x in d.dependents;
    forall x | x in Survivors(r) ensures x in r.names {
      assert x in ToSet(d.dependents);
    }
  }

  lemma {:induction false} RunProgress(g: Graph, rounds: seq<RoundRun>, names: seq<Name>)
    requires Linked(g) && IsRun(g, rounds) && Collected(g, rounds, names)
    ensures Progress(g, ExhaleOf(rounds), names)
  {
    if |rounds| == 0 {
      StartProgress(g, names);
    } else {
      var front, last := rounds[..|rounds| - 1], rounds[|rounds| - 1];
      RunProgress(g, front, last.names);
      hide IsRun, IsRound, SuccMap, CollectOrder, Linked;
      RoundIs(g, front, last);
      RoundProgress(g, front, last, names);
    }
  }

  lemma RoundIs(g: Graph, before: seq<RoundRun>, r: RoundRun)
    requires IsRound(g, before, r)
    ensures r.names != [] && Collected(g, before, r.names)
    ensures VisitOrder(r.names, SuccMap(g, Done(g, before)), r.visits)
  {
  }

  lemma StartProgress(g: Graph, names: seq<Name>)
    requires Linked(g) && Collected(g, [], names)
    ensures Progress(g, [], names)
  {
    InhaleMembers(g);
    SuccMapIs(g, {});
    CollectOrderIs(g, SuccMap(g, {}), InhaleOf(g), [], names);
    hide CollectOrder, SuccMap, InhaleOf, SuccessorsOf, Linked, Exhalable;
    forall s | s in names ensures s in g.apps && g.apps[s].push && Exhalable(g, s) {
      var n :| n in InhaleOf(g) && Eligible(g, SuccMap(g, {}), n, [], s);
      assert s in Succ(g, n);
      ExhalableFromPull(g, n, s);
    }
  }

  lemma RoundProgress(g: Graph, before: seq<RoundRun>, r: RoundRun, names: seq<Name>)
    requires Progress(g, ExhaleOf(before), r.names) && VisitOrder(r.names, SuccMap(g, Done(g, before)), r.visits)
    requires CollectOrder(g, SuccMap(g, Done(g, before)), Survivors(r), ExhaleOf(before) + Survivors(r), names)
    ensures Progress(g, ExhaleOf(before) + Survivors(r), names)
  {
    hide CollectOrder, SuccMap, SuccessorsOf, Exhalable, Distinct, Survivors, VisitOrder, ToSet, ExhaleOf, Done;
    var exhale, survivors, successors := ExhaleOf(before), Survivors(r), SuccMap(g, Done(g, before));
    SuccMapIs(g, Done(g, before));
    SurvivorsLoose(g, before, r);
    CollectOrderIs(g, successors, survivors, exhale + survivors, names);
    DistinctConcat(exhale, survivors);
    forall s | s in names
      ensures s !in exhale + survivors && s in g.apps && g.apps[s].push && Exhalable(g, s)
    {
      FurtherExhalable(g, successors, Done(g, before), survivors, exhale + survivors, s);
    }
  }

  lemma FurtherExhalable(g: Graph, successors: map<Name, set<Name>>, done: set<Name>, from: seq<Name>,
                         exhale: seq<Name>, s: Name)
    requires Remaining(g, successors, done) && Further(g, successors, from, exhale, s)
    requires forall n :: n in from ==> Exhalable(g, n)
    ensures s !in exhale && s in g.apps && g.apps[s].push && Exhalable(g, s)
  {
    hide SuccessorsOf, Exhalable;
    var n :| n in from && Eligible(g, successors, n, exhale, s);
    assert s in Succ(g, n);
    ExhalableNext(g, n, s);
  }
}
