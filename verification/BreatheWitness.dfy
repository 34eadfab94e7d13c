/** Graphs that show what `compute_breathe_order` of `rush/src/engine.rs` does not guarantee. */
module BreatheWitnesses {
  import opened DelaySteps
  import opened DelayOrders
  import opened DelayLosses
  import opened BreatheOrder
  import opened BreatheRuns

  // Building runs

  lemma OneVisit(n: Name, s: Name)
    ensures Enumerates([(n, s)], n, {s})
  {
    assert [(n, s)][0] == (n, s);
  }

  lemma NoneVisited(n: Name)
    ensures Enumerates([], n, {})
  {
  }

  /** The next round of a run, its outcome worked out. */
  lemma RoundRuns(g: Graph, before: seq<RoundRun>, r: RoundRun, out: seq<Name>, next: seq<Name>)
    requires IsRun(g, before) && IsRound(g, before, r) && Survivors(r) == out
    requires CollectOrder(g, SuccMap(g, Done(g, before)), out, ExhaleOf(before) + out, next)
    ensures IsRun(g, before + [r]) && Collected(g, before + [r], next)
    ensures ExhaleOf(before + [r]) == ExhaleOf(before) + out
  {
    assert (before + [r])[..|before|] == before && (before + [r])[|before|] == r;
    hide IsRound, CollectOrder, Survivors, SuccMap;
  }

  lemma CollectOne(g: Graph, successors: map<Name, set<Name>>, n: Name, exhale: seq<Name>, names: seq<Name>)
    requires Distinct(names) && forall s :: s in names <==> Eligible(g, successors, n, exhale, s)
    ensures CollectOrder(g, successors, [n], exhale, names)
  {
    CollectNothing(g, successors, [], exhale);
    assert Adds(g, successors, n, exhale, [], names);
    hide CollectOrder;
    CollectMore(g, successors, [], n, exhale, [], names);
    assert [] + [n] == [n] && [] + names == names;
  }

  lemma VisitNone(d: Delays)
    ensures After(d, []) == d
  {
  }

  lemma VisitOne(d: Delays, v: (Name, Name))
    ensures After(d, [v]) == Visit(d, v)
  {
    VisitNone(d);
    AfterNext(d, [], v);
    assert [] + [v] == [v];
  }

  lemma VisitTwo(d: Delays, v: (Name, Name), w: (Name, Name))
    ensures After(d, [v, w]) == Visit(Visit(d, v), w)
  {
    VisitOne(d, v);
    AfterNext(d, [v], w);
    assert [v] + [w] == [v, w];
  }

  lemma OrderOne(n: Name, successors: map<Name, set<Name>>, vs: seq<(Name, Name)>)
    requires Enumerates(vs, n, SuccessorsOf(successors, n))
    ensures VisitOrder([n], successors, vs)
  {
    NoVisits([], successors);
    assert [] + [n] == [n] && [] + vs == vs;
    hide VisitOrder, Enumerates;
    VisitOrderMore([], n, successors, [], vs);
  }

  lemma OrderThree(a: Name, b: Name, c: Name, successors: map<Name, set<Name>>,
                   va: seq<(Name, Name)>, vb: seq<(Name, Name)>, vc: seq<(Name, Name)>)
    requires Enumerates(va, a, SuccessorsOf(successors, a)) && Enumerates(vb, b, SuccessorsOf(successors, b))
    requires Enumerates(vc, c, SuccessorsOf(successors, c))
    ensures VisitOrder([a, b], successors, va + vb) && VisitOrder([a, b, c], successors, va + vb + vc)
  {
    OrderOne(a, successors, va);
    hide VisitOrder, Enumerates, SuccessorsOf;
    VisitOrderMore([a], b, successors, va, vb);
    assert [a] + [b] == [a, b];
    VisitOrderMore([a, b], c, successors, va + vb, vc);
    assert [a, b] + [c] == [a, b, c];
  }

  lemma SortOne(a: Name)
    ensures Sort([a]) == [a]
  {
    assert [a][1..] == [];
  }

  lemma SortTwo(a: Name, b: Name)
    requires LexLe(a, b)
    ensures Sort([a, b]) == [a, b]
  {
    SortOne(b);
    assert [a, b][1..] == [b];
  }

  lemma WithoutOne(a: Name, x: Name)
    ensures Without([a], x) == if a == x then [] else [a]
  {
    assert [a][1..] == [];
  }

  lemma WithoutTwo(a: Name, b: Name, x: Name)
    ensures Without([a, b], x) == (if a == x then [] else [a]) + (if b == x then [] else [b])
  {
    WithoutOne(b, x);
    assert [a, b][1..] == [b];
  }

  lemma WithoutThree(a: Name, b: Name, c: Name, x: Name)
    ensures Without([a, b, c], x)
            == (if a == x then [] else [a]) + (if b == x then [] else [b]) + (if c == x then [] else [c])
  {
    WithoutTwo(b, c, x);
    assert [a, b, c][1..] == [b, c];
  }

  /** A graph with one pull app, `a`, and any links. */
  function OnePuller(a: Name, others: set<Name>, links: set<(Name, Name)>): Graph {
    Graph(map n | n in others + {a} :: Caps(n == a, n != a), links)
  }

  lemma FromPuller(a: Name, others: set<Name>, links: set<(Name, Name)>)
    requires a !in others
    ensures var g := OnePuller(a, others, links);
            InhaleOf(g) == [a] && Pullers(g) == {a} && Done(g, []) == {a} && IsRun(g, [])
  {
    var g := OnePuller(a, others, links);
    assert Pullers(g) == {a};
    SortOne(a);
    InhaleIs(g, [a]) by {
      assert [a][1..] == [];
      assert forall n :: n in [a] <==> Pulls(g, n);
    }
  }

  // A chain of three apps, all fed by one pull app

  /** `p` feeds `n`, `s` and `t`; `n` feeds `s`, which feeds `t`. */
  function Chain(p: Name, n: Name, s: Name, t: Name): Graph {
    OnePuller(p, {n, s, t}, {(p, n), (p, s), (p, t), (n, s), (s, t)})
  }

  ghost predicate Different(p: Name, n: Name, s: Name, t: Name) {
    p != n && p != s && p != t && n != s && n != t && s != t
  }

  lemma ChainLinks(p: Name, n: Name, s: Name, t: Name)
    requires Different(p, n, s, t)
    ensures var g := Chain(p, n, s, t);
            Succ(g, p) == {n, s, t} && Succ(g, n) == {s} && Succ(g, s) == {t} && Succ(g, t) == {}
    ensures Linked(Chain(p, n, s, t)) && NoSelfLinks(Chain(p, n, s, t))
  {
  }

  /** The links left after some apps are processed. */
  lemma ChainLeft(p: Name, n: Name, s: Name, t: Name, done: set<Name>)
    requires Different(p, n, s, t)
    ensures var m := SuccMap(Chain(p, n, s, t), done);
            && (p !in done ==> SuccessorsOf(m, p) == {n, s, t})
            && (n !in done ==> SuccessorsOf(m, n) == {s})
            && (s !in done ==> SuccessorsOf(m, s) == {t})
            && SuccessorsOf(m, t) == {}
  {
    ChainLinks(p, n, s, t);
    SuccMapIs(Chain(p, n, s, t), done);
    hide Chain, SuccMap, SuccessorsOf, Succ;
  }

  lemma ChainPushes(p: Name, n: Name, s: Name, t: Name, x: Name)
    requires Different(p, n, s, t) && x in {n, s, t}
    ensures x in Chain(p, n, s, t).apps && Chain(p, n, s, t).apps[x].push
  {
  }

  /** The dependents of the first round, in any order. */
  lemma ChainFirst(p: Name, n: Name, s: Name, t: Name, names: seq<Name>)
    requires Different(p, n, s, t) && Distinct(names) && ToSet(names) == {n, s, t}
    ensures IsRun(Chain(p, n, s, t), []) && Collected(Chain(p, n, s, t), [], names)
    ensures Done(Chain(p, n, s, t), []) == {p}
  {
    var g := Chain(p, n, s, t);
    FromPuller(p, {n, s, t}, {(p, n), (p, s), (p, t), (n, s), (s, t)});
    ChainLeft(p, n, s, t, {});
    assert forall x :: x in names <==> x in ToSet(names);
    forall x | x in {n, s, t} ensures x in g.apps && g.apps[x].push {
      ChainPushes(p, n, s, t, x);
    }
    hide CollectOrder, SuccMap, SuccessorsOf, Chain, OnePuller, InhaleOf;
    CollectOne(g, SuccMap(g, {}), p, [], names);
  }

  lemma DistinctTwo(a: Name, b: Name)
    requires a != b
    ensures Distinct([a, b]) && Distinct([a]) && Distinct([b])
  {
    assert [a, b][1..] == [b] && [a][1..] == [] && [b][1..] == [];
    assert Distinct([b]);
  }

  lemma DistinctThree(a: Name, b: Name, c: Name)
    requires a != b && a != c && b != c
    ensures Distinct([a, b, c]) && ToSet([a, b, c]) == {a, b, c}
  {
    DistinctTwo(b, c);
    assert [a, b, c][1..] == [b, c];
  }

  /** A round of one dependent that feeds no other one. */
  lemma SoleRound(g: Graph, before: seq<RoundRun>, x: Name, vs: seq<(Name, Name)>)
    requires Collected(g, before, [x]) && Enumerates(vs, x, SuccessorsOf(SuccMap(g, Done(g, before)), x))
    requires |vs| <= 1 && forall v :: v in vs ==> v.1 != x
    ensures IsRound(g, before, RoundRun([x], vs)) && Survivors(RoundRun([x], vs)) == [x]
  {
    OrderOne(x, SuccMap(g, Done(g, before)), vs);
    SortOne(x);
    var d := Delays([x], {});
    if |vs| == 0 {
      VisitNone(d);
    } else {
      VisitOne(d, vs[0]);
      assert vs == [vs[0]];
    }
    hide Collected, VisitOrder, SuccMap, Sort, After, CollectOrder;
  }

  lemma FirstVisited(n: Name, s: Name, t: Name)
    requires n != s && n != t && s != t
    ensures Visits([n, s, t], [(n, s), (s, t)]).dependents == [n]
    ensures Visits([s, n, t], [(s, t), (n, s)]).dependents == [s, n]
  {
    VisitTwo(Delays([n, s, t], {}), (n, s), (s, t));
    VisitTwo(Delays([s, n, t], {}), (s, t), (n, s));
    WithoutThree(n, s, t, s);
    WithoutTwo(n, t, t);
    WithoutThree(s, n, t, t);
    hide Without, After;
    assert [n] + [] + [t] == [n, t] && [n] + [] == [n] && [s] + [n] + [] == [s, n];
    assert Visit(Delays([n, s, t], {}), (n, s)) == Delays([n, t], {n});
    assert Visit(Delays([s, n, t], {}), (s, t)) == Delays([s, n], {s});
  }

  /** A later round, of `s` or `t` alone. */
  lemma SoleStep(p: Name, n: Name, s: Name, t: Name, before: seq<RoundRun>, x: Name) returns (r: RoundRun)
    requires Different(p, n, s, t) && IsRun(Chain(p, n, s, t), before) && Collected(Chain(p, n, s, t), before, [x])
    requires x == s || x == t
    requires x !in Done(Chain(p, n, s, t), before) && (x == s ==> t !in ExhaleOf(before))
    ensures var g := Chain(p, n, s, t);
            && IsRun(g, before + [r]) && ExhaleOf(before + [r]) == ExhaleOf(before) + [x]
            && Collected(g, before + [r], if x == s then [t] else [])
  {
    hide Collected, IsRun, CollectOrder, SuccMap, Chain, Done, ExhaleOf, Sort, VisitOrder, Eligible, Enumerates;
    hide Survivors, IsRound, SuccessorsOf;
    var g := Chain(p, n, s, t);
    var done, exhale := Done(g, before), ExhaleOf(before) + [x];
    r := RoundRun([x], if x == s then [(s, t)] else []);
    var next := if x == s then [t] else [];
    SoleVisits(p, n, s, t, done, x);
    SoleRound(g, before, x, r.visits);
    SoleCollects(p, n, s, t, done, x, exhale);
    RoundRuns(g, before, r, [x], next);
  }

  lemma SoleVisits(p: Name, n: Name, s: Name, t: Name, done: set<Name>, x: Name)
    requires Different(p, n, s, t) && (x == s || x == t) && x !in done
    ensures Enumerates(if x == s then [(s, t)] else [], x, SuccessorsOf(SuccMap(Chain(p, n, s, t), done), x))
  {
    hide SuccMap, Chain, SuccessorsOf, Enumerates;
    ChainLeft(p, n, s, t, done);
    OneVisit(s, t);
    NoneVisited(t);
  }

  lemma SoleCollects(p: Name, n: Name, s: Name, t: Name, done: set<Name>, x: Name, exhale: seq<Name>)
    requires Different(p, n, s, t) && (x == s || x == t) && x !in done && (x == s ==> t !in exhale)
    ensures CollectOrder(Chain(p, n, s, t), SuccMap(Chain(p, n, s, t), done), [x], exhale, if x == s then [t] else [])
  {
    ChainLeft(p, n, s, t, done);
    ChainPushes(p, n, s, t, t);
    DistinctTwo(s, t);
    hide SuccMap, Chain, CollectOrder, SuccessorsOf, Distinct;
    CollectOne(Chain(p, n, s, t), SuccMap(Chain(p, n, s, t), done), x, exhale, if x == s then [t] else []);
  }

  /** The first round of a run, whose visits are worked out. */
  lemma ChainRound(p: Name, n: Name, s: Name, t: Name, r: RoundRun, out: seq<Name>, next: seq<Name>)
    requires Different(p, n, s, t) && Distinct(r.names) && ToSet(r.names) == {n, s, t}
    requires VisitOrder(r.names, SuccMap(Chain(p, n, s, t), {p}), r.visits) && Survivors(r) == out
    requires CollectOrder(Chain(p, n, s, t), SuccMap(Chain(p, n, s, t), {p}), out, out, next)
    ensures var g := Chain(p, n, s, t);
            IsRun(g, [r]) && Collected(g, [r], next) && ExhaleOf([r]) == out && Done(g, [r]) == {p} + ToSet(out)
  {
    var g := Chain(p, n, s, t);
    ChainFirst(p, n, s, t, r.names);
    assert [] + [r] == [r] && [] + out == out && ExhaleOf([]) == [];
    assert r.names != [] by {
      assert n in ToSet(r.names);
    }
    hide Collected, IsRun, CollectOrder, SuccMap, Chain, ExhaleOf, Sort, VisitOrder, Visits, Done, Survivors;
    RoundRuns(g, [], r, out, next);
    DoneIs(g, [r], out);
  }

  lemma DoneIs(g: Graph, rounds: seq<RoundRun>, out: seq<Name>)
    requires ExhaleOf(rounds) == out
    ensures Done(g, rounds) == Done(g, []) + ToSet(out)
  {
    assert ExhaleOf([]) == [] && ToSet([]) == {};
    hide ExhaleOf, Pullers;
  }

  lemma ChainVisits(p: Name, n: Name, s: Name, t: Name)
    requires Different(p, n, s, t)
    ensures VisitOrder([n, s, t], SuccMap(Chain(p, n, s, t), {p}), [(n, s), (s, t)])
    ensures VisitOrder([s, n, t], SuccMap(Chain(p, n, s, t), {p}), [(s, t), (n, s)])
  {
    hide SuccMap, Chain, VisitOrder, Enumerates, SuccessorsOf;
    ChainLeft(p, n, s, t, {p});
    var m := SuccMap(Chain(p, n, s, t), {p});
    OneVisit(n, s);
    OneVisit(s, t);
    NoneVisited(t);
    OrderThree(n, s, t, m, [(n, s)], [(s, t)], []);
    OrderThree(s, n, t, m, [(s, t)], [(n, s)], []);
    assert [(n, s)] + [(s, t)] + [] == [(n, s), (s, t)] && [(s, t)] + [(n, s)] + [] == [(s, t), (n, s)];
  }

  lemma ChainEligible(p: Name, n: Name, s: Name, t: Name, exhale: seq<Name>, x: Name)
    requires Different(p, n, s, t)
    ensures var g := Chain(p, n, s, t);
            && (Eligible(g, SuccMap(g, {p}), n, exhale, x) <==> x == s && s !in exhale)
            && (Eligible(g, SuccMap(g, {p}), s, exhale, x) <==> x == t && t !in exhale)
  {
    ChainLeft(p, n, s, t, {p});
    ChainPushes(p, n, s, t, s);
    ChainPushes(p, n, s, t, t);
    hide SuccMap, Chain, SuccessorsOf;
  }

  lemma ChainCollects(p: Name, n: Name, s: Name, t: Name)
    requires Different(p, n, s, t)
    ensures var g := Chain(p, n, s, t);
            && CollectOrder(g, SuccMap(g, {p}), [n], [n], [s])
            && CollectOrder(g, SuccMap(g, {p}), [s, n], [s, n], [t])
  {
    hide SuccMap, Chain, CollectOrder, Eligible, Distinct;
    var g := Chain(p, n, s, t);
    var m := SuccMap(g, {p});
    forall x
      ensures Eligible(g, m, n, [n], x) <==> x == s
      ensures Eligible(g, m, s, [s, n], x) <==> x == t
      ensures !Eligible(g, m, n, [s, n], x)
    {
      ChainEligible(p, n, s, t, [n], x);
      ChainEligible(p, n, s, t, [s, n], x);
    }
    DistinctTwo(s, t);
    CollectOne(g, m, n, [n], [s]);
    CollectOne(g, m, s, [s, n], [t]);
    AddsNothing(g, m, n, [s, n], [t]);
    CollectMore(g, m, [s], n, [s, n], [t], []);
    assert [s] + [n] == [s, n] && [t] + [] == [t];
  }

  lemma AddsNothing(g: Graph, successors: map<Name, set<Name>>, n: Name, exhale: seq<Name>, names: seq<Name>)
    requires forall x :: !Eligible(g, successors, n, exhale, x)
    ensures Adds(g, successors, n, exhale, names, [])
  {
    hide Eligible;
  }

  /** Both first rounds. */
  lemma ChainStarts(p: Name, n: Name, s: Name, t: Name)
    requires Different(p, n, s, t) && LexLe(s, n)
    ensures var g, r := Chain(p, n, s, t), RoundRun([n, s, t], [(n, s), (s, t)]);
            IsRun(g, [r]) && Collected(g, [r], [s]) && ExhaleOf([r]) == [n] && Done(g, [r]) == {p} + ToSet([n])
    ensures var g, r := Chain(p, n, s, t), RoundRun([s, n, t], [(s, t), (n, s)]);
            IsRun(g, [r]) && Collected(g, [r], [t]) && ExhaleOf([r]) == [s, n] && Done(g, [r]) == {p} + ToSet([s, n])
  {
    hide Chain, SuccMap, CollectOrder, VisitOrder, Visits, Sort, Collected, IsRun, Done, ExhaleOf, Distinct;
    DistinctThree(n, s, t);
    DistinctThree(s, n, t);
    ChainVisits(p, n, s, t);
    ChainCollects(p, n, s, t);
    FirstVisited(n, s, t);
    SortOne(n);
    SortTwo(s, n);
    ChainRound(p, n, s, t, RoundRun([n, s, t], [(n, s), (s, t)]), [n], [s]);
    ChainRound(p, n, s, t, RoundRun([s, n, t], [(s, t), (n, s)]), [s, n], [t]);
  }

  lemma ChainDone(g: Graph, p: Name, rounds: seq<RoundRun>, x: Name)
    ensures Done(g, []) == {p} ==> (x in Done(g, rounds) <==> x == p || x in ExhaleOf(rounds))
  {
    DoneIs(g, rounds, ExhaleOf(rounds));
    hide ExhaleOf, Pullers;
    assert x in ToSet(ExhaleOf(rounds)) <==> x in ExhaleOf(rounds);
  }

  lemma ChainPuller(p: Name, n: Name, s: Name, t: Name)
    requires Different(p, n, s, t)
    ensures Done(Chain(p, n, s, t), []) == {p}
  {
    FromPuller(p, {n, s, t}, {(p, n), (p, s), (p, t), (n, s), (s, t)});
  }

  /** Visiting `n` first, the apps are exhaled along the links. */
  lemma ChainInOrder(p: Name, n: Name, s: Name, t: Name) returns (rounds: seq<RoundRun>)
    requires Different(p, n, s, t) && LexLe(s, n)
    ensures Complete(Chain(p, n, s, t), rounds) && ExhaleOf(rounds) == [n, s, t]
  {
    hide Chain, Collected, IsRun, Done, ExhaleOf, LexLe;
    var g, r1 := Chain(p, n, s, t), RoundRun([n, s, t], [(n, s), (s, t)]);
    ChainPuller(p, n, s, t);
    ChainStarts(p, n, s, t);
    ChainDone(g, p, [r1], s);
    var r2 := SoleStep(p, n, s, t, [r1], s);
    assert [n] + [s] == [n, s];
    ChainDone(g, p, [r1] + [r2], t);
    var r3 := SoleStep(p, n, s, t, [r1] + [r2], t);
    assert [n, s] + [t] == [n, s, t];
    rounds := [r1] + [r2] + [r3];
  }

  /** Visiting `s` first, it is exhaled together with `n`, which feeds it, and before it. */
  lemma ChainOutOfOrder(p: Name, n: Name, s: Name, t: Name) returns (rounds: seq<RoundRun>)
    requires Different(p, n, s, t) && LexLe(s, n)
    ensures Complete(Chain(p, n, s, t), rounds) && ExhaleOf(rounds) == [s, n, t]
  {
    hide Chain, Collected, IsRun, Done, ExhaleOf, LexLe;
    var g, r1 := Chain(p, n, s, t), RoundRun([s, n, t], [(s, t), (n, s)]);
    ChainPuller(p, n, s, t);
    ChainStarts(p, n, s, t);
    ChainDone(g, p, [r1], t);
    var r2 := SoleStep(p, n, s, t, [r1], t);
    assert [s, n] + [t] == [s, n, t];
    rounds := [r1] + [r2];
  }

  /** The comment above the source's function calls the order deterministic, and says that it
      follows links when possible. But one configuration, whose links have no cycle, is exhaled
      along its links or not, by hash order alone. */
  lemma OrderNotDetermined()
    ensures var g := Chain("a", "c", "b", "d");
            && Linked(g) && NoSelfLinks(g) && ("c", "b") in g.links
            && (exists rounds :: Complete(g, rounds) && ExhaleOf(rounds) == ["c", "b", "d"])
            && (exists rounds :: Complete(g, rounds) && ExhaleOf(rounds) == ["b", "c", "d"])
  {
    assert "a"[0] == 'a' && "b"[0] == 'b' && "c"[0] == 'c' && "d"[0] == 'd';
    ChainLinks("a", "c", "b", "d");
    var x := ChainInOrder("a", "c", "b", "d");
    var y := ChainOutOfOrder("a", "c", "b", "d");
    hide Complete, ExhaleOf, Linked, NoSelfLinks;
  }

  // An app linked to itself

  /** `p` feeds `y` and `z`; `y` is linked to itself. */
  function Looped(p: Name, y: Name, z: Name): Graph {
    OnePuller(p, {y, z}, {(p, y), (p, z), (y, y)})
  }

  lemma LoopedLinks(p: Name, y: Name, z: Name, done: set<Name>)
    requires p != y && p != z && y != z
    ensures var g := Looped(p, y, z);
            && Linked(g) && y in g.apps && g.apps[y].push && z in g.apps && g.apps[z].push
            && Succ(g, p) == {y, z} && Succ(g, y) == {y} && Succ(g, z) == {}
            && var m := SuccMap(g, done);
               && (p !in done ==> SuccessorsOf(m, p) == {y, z})
               && (y !in done ==> SuccessorsOf(m, y) == {y})
               && SuccessorsOf(m, z) == {}
  {
    SuccMapIs(Looped(p, y, z), done);
    hide SuccMap, SuccessorsOf;
  }

  lemma LoopedRound(p: Name, y: Name, z: Name, r: RoundRun)
    requires p != y && p != z && y != z && r == RoundRun([y, z], [(y, y)])
    ensures var g := Looped(p, y, z);
            && IsRun(g, []) && IsRound(g, [], r) && Survivors(r) == [z]
            && CollectOrder(g, SuccMap(g, Done(g, [])), [z], [z], [])
  {
    var g := Looped(p, y, z);
    FromPuller(p, {y, z}, {(p, y), (p, z), (y, y)});
    LoopedLinks(p, y, z, {});
    LoopedLinks(p, y, z, {p});
    hide SuccMap, SuccessorsOf, Looped, OnePuller, CollectOrder, Enumerates, VisitOrder, InhaleOf, Done, Sort;
    DistinctTwo(y, z);
    CollectOne(g, SuccMap(g, {}), p, [], [y, z]);
    assert Collected(g, [], [y, z]);
    LoopedVisits(y, z, SuccMap(g, {p}));
    SortOne(z);
    CollectOne(g, SuccMap(g, {p}), z, [z], []);
  }

  lemma LoopedVisits(y: Name, z: Name, successors: map<Name, set<Name>>)
    requires y != z && SuccessorsOf(successors, y) == {y} && SuccessorsOf(successors, z) == {}
    ensures VisitOrder([y, z], successors, [(y, y)]) && Visits([y, z], [(y, y)]).dependents == [z]
  {
    hide SuccessorsOf, VisitOrder, Enumerates, After, Without;
    OneVisit(y, y);
    NoneVisited(z);
    OrderThree(y, z, z, successors, [(y, y)], [], []);
    assert [(y, y)] + [] == [(y, y)];
    VisitOne(Delays([y, z], {}), (y, y));
    WithoutTwo(y, z, y);
    assert [] + [z] == [z];
  }

  /** Its self-link delays `y` away. */
  lemma LoopedRun(p: Name, y: Name, z: Name) returns (rounds: seq<RoundRun>)
    requires p != y && p != z && y != z
    ensures Complete(Looped(p, y, z), rounds) && ExhaleOf(rounds) == [z]
    ensures Exhalable(Looped(p, y, z), y)
  {
    hide Looped, CollectOrder, VisitOrder, Exhalable, SuccMap, Done, Survivors, IsRound, IsRun, ExhaleOf;
    var g := Looped(p, y, z);
    LoopedEdge(p, y, z);
    ExhalableFromPull(g, p, y);
    var r := RoundRun([y, z], [(y, y)]);
    LoopedRound(p, y, z, r);
    NoneExhaled();
    assert [] + [r] == [r] && [] + [z] == [z];
    RoundRuns(g, [], r, [z], []);
    rounds := [r];
  }

  lemma LoopedEdge(p: Name, y: Name, z: Name)
    requires p != y && p != z && y != z
    ensures var g := Looped(p, y, z); Pulls(g, p) && Edge(g, p, y)
  {
  }

  lemma NoneExhaled()
    ensures ExhaleOf([]) == []
  {
  }

  /** Why links from an app to itself must be excluded: such an app can be reached and never be
      exhaled. */
  lemma SelfLinkLosesApp()
    ensures var g := Looped("a", "b", "c");
            && Linked(g) && Exhalable(g, "b")
            && exists rounds :: Complete(g, rounds) && "b" !in ExhaleOf(rounds)
  {
    assert "a"[0] == 'a' && "b"[0] == 'b' && "c"[0] == 'c';
    LoopedLinks("a", "b", "c", {});
    var rounds := LoopedRun("a", "b", "c");
    hide Complete, ExhaleOf, Exhalable, Linked;
    assert "b" !in ExhaleOf(rounds);
  }

  /** A self-link alone loses nothing: the last dependent is never removed. */
  lemma SoleDependentStays(all: set<Name>, successors: map<Name, set<Name>>)
    requires forall x, y :: x in all && y in all ==> x == y
    ensures !CanLose(all, successors)
  {
    hide Clears, SourceClosed;
    forall c, p, z ensures !Losing(c, all, successors, p, z) {
      if x :| x in c {
        assert x in all && z in all && z !in c ==> x == z;
      }
    }
  }

  /** Nor need it lose anything when others feed the self-linked app only from among what it
      leads to: in no order are `y`, `b` and `c` all removed, though `z` lies outside. */
  lemma LoopWithExit(y: Name, b: Name, c: Name, z: Name)
    requires y != b && y != c && y != z && b != c && b != z && c != z
    ensures !CanLose({y, b, c, z}, map[y := {y, b, z}, b := {c}, c := {y}])
  {
    var all, m: map<Name, set<Name>> := {y, b, c, z}, map[y := {y, b, z}, b := {c}, c := {y}];
    forall d, p, u ensures !Losing(d, all, m, p, u) {
      if Losing(d, all, m, p, u) {
        ExitClosed(y, b, c, z, d, u);
        ExitFirst(y, b, c, z, d, p, u);
      }
    }
  }

  lemma ExitClosed(y: Name, b: Name, c: Name, z: Name, d: set<Name>, u: Name)
    requires y != b && y != c && y != z && b != c && b != z && c != z
    requires var all, m: map<Name, set<Name>> := {y, b, c, z}, map[y := {y, b, z}, b := {c}, c := {y}];
             SourceClosed(d, all, m) && d <= all && d != {} && u in all && u !in d
    ensures d == {y, b, c} && u == z
  {
    var all, m: map<Name, set<Name>> := {y, b, c, z}, map[y := {y, b, z}, b := {c}, c := {y}];
    assert Feeds(all, m, y, b) && Feeds(all, m, y, z) && Feeds(all, m, b, c) && Feeds(all, m, c, y);
    var x :| x in d;
    assert y in d && c in d && b in d;
  }

  lemma ExitFirst(y: Name, b: Name, c: Name, z: Name, d: set<Name>, p: seq<Name>, u: Name)
    requires y != b && y != c && y != z && b != c && b != z && c != z && d == {y, b, c} && u == z
    ensures !Losing(d, {y, b, c, z}, map[y := {y, b, z}, b := {c}, c := {y}], p, u)
  {
    var m: map<Name, set<Name>> := map[y := {y, b, z}, b := {c}, c := {y}];
    assert SuccessorsOf(m, y) == {y, b, z} && SuccessorsOf(m, b) == {c};
    assert SuccessorsOf(m, c) == {y} && SuccessorsOf(m, z) == {};
    hide SuccessorsOf, Distinct, SourceClosed;
    if Clears(d, m, p) {
      ExitStart(y, b, c, m, d, p);
      assert z in SuccessorsOf(m, p[0]);
      assert !Holds(d, {y, b, c, z}, m, z);
    }
  }

  lemma ExitStart(y: Name, b: Name, c: Name, m: map<Name, set<Name>>, d: set<Name>, p: seq<Name>)
    requires y != b && y != c && b != c && d == {y, b, c} && Clears(d, m, p)
    requires b !in SuccessorsOf(m, b) && c !in SuccessorsOf(m, c) && c !in SuccessorsOf(m, y)
    ensures |p| > 1 && p[0] == y
  {
    hide SuccessorsOf, Clears;
    var i := ClearsHit(d, m, p, c);
    ClearsFirst(d, m, p);
  }
}
