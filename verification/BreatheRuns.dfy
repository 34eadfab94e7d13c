/** What every run of `compute_breathe_order` of `rush/src/engine.rs` is like: which apps it
    exhales, and when their order is determined. */
module BreatheRuns {
  import opened DelaySteps
  import opened DelayOrders
  import opened DelayLosses
  import opened BreatheOrder

  // Which apps are exhaled

  /** No round of a run is one in which some order of visits loses an app. */
  ghost predicate Lossless(g: Graph, rounds: seq<RoundRun>) {
    forall i :: 0 <= i < |rounds| ==> !CanLose(ToSet(rounds[i].names), SuccMap(g, Done(g, rounds[..i])))
  }

  /** What the apps processed so far and the dependents still lead to. A set that takes in the
      dependents and, outside of what is exhaled, its own further successors, takes in with it
      every successor of a processed app. */
  ghost predicate Covered(g: Graph, pulls: set<Name>, exhaled: set<Name>, dependents: set<Name>) {
    forall t: set<Name> :: dependents <= t && Closed(g, pulls, exhaled, t) ==> Reaches(g, pulls + exhaled, exhaled + t)
  }

  ghost predicate Closed(g: Graph, pulls: set<Name>, exhaled: set<Name>, t: set<Name>) {
    forall n, s :: n in t && n !in pulls && Edge(g, n, s) ==> s in t || s in exhaled
  }

  ghost predicate Reaches(g: Graph, from: set<Name>, within: set<Name>) {
    forall n, s :: n in from && Edge(g, n, s) ==> s in within
  }

  /** One round keeps `Covered`, because the survivors generate the round's dependents. */
  lemma RoundCovers(g: Graph, pulls: set<Name>, exhaled: set<Name>, dependents: set<Name>,
                    successors: map<Name, set<Name>>, survivors: set<Name>, further: set<Name>)
    requires Covered(g, pulls, exhaled, dependents) && Remaining(g, successors, pulls + exhaled)
    requires Generated(dependents, successors, survivors) && survivors <= dependents
    requires forall d :: d in dependents ==> d !in exhaled && d in g.apps && g.apps[d].push
    requires forall n, s :: n in survivors && n !in pulls && Edge(g, n, s)
                            ==> s in further || s in exhaled + survivors
    ensures Covered(g, pulls, exhaled + survivors, further)
  {
    var exhaled' := exhaled + survivors;
    forall t: set<Name> | further <= t && Closed(g, pulls, exhaled', t)
      ensures Reaches(g, pulls + exhaled', exhaled' + t)
    {
      var u := t + survivors;
      RoundFollows(g, pulls, exhaled, dependents, successors, survivors, further, t);
      assert dependents <= u * dependents;
      assert Closed(g, pulls, exhaled, u);
      assert Reaches(g, pulls + exhaled, exhaled + u);
    }
  }

  lemma RoundFollows(g: Graph, pulls: set<Name>, exhaled: set<Name>, dependents: set<Name>,
                     successors: map<Name, set<Name>>, survivors: set<Name>, further: set<Name>, t: set<Name>)
    requires Remaining(g, successors, pulls + exhaled) && survivors <= dependents
    requires forall d :: d in dependents ==> d !in exhaled && d in g.apps && g.apps[d].push
    requires forall n, s :: n in survivors && n !in pulls && Edge(g, n, s)
                            ==> s in further || s in exhaled + survivors
    requires further <= t && Closed(g, pulls, exhaled + survivors, t)
    ensures survivors <= (t + survivors) * dependents
    ensures Follows((t + survivors) * dependents, dependents, successors)
  {
    var v := (t + survivors) * dependents;
    forall n, s | n in v && s in dependents && s in SuccessorsOf(successors, n)
      ensures s in v
    {
      assert SuccessorsOf(successors, n) == if n in pulls + exhaled then {} else Succ(g, n);
      assert Edge(g, n, s);
    }
  }

  /** No app is lost: as long as no round can lose one, what is exhaled and collected leads to
      everything that is still to be exhaled. */
  lemma {:induction false} RunCovers(g: Graph, rounds: seq<RoundRun>, names: seq<Name>)
    requires Linked(g) && IsRun(g, rounds) && Collected(g, rounds, names) && Lossless(g, rounds)
    ensures Covered(g, Pullers(g), ToSet(ExhaleOf(rounds)), ToSet(names))
  {
    if |rounds| == 0 {
      StartCovers(g, names);
    } else {
      var front, last := rounds[..|rounds| - 1], rounds[|rounds| - 1];
      LosslessFront(g, rounds);
      hide Lossless, IsRound, Covered, SuccMap, CollectOrder, Linked;
      RunCovers(g, front, last.names);
      RoundIs(g, front, last);
      RunProgress(g, front, last.names);
      RoundGenerated(g, front, last);
      NextCovers(g, front, last, names);
    }
  }

  lemma LosslessFront(g: Graph, rounds: seq<RoundRun>)
    requires Lossless(g, rounds) && |rounds| > 0
    ensures Lossless(g, rounds[..|rounds| - 1])
    ensures !CanLose(ToSet(rounds[|rounds| - 1].names), SuccMap(g, Done(g, rounds[..|rounds| - 1])))
  {
    hide CanLose, SuccMap, Done;
    var front := rounds[..|rounds| - 1];
    forall i | 0 <= i < |front| ensures !CanLose(ToSet(front[i].names), SuccMap(g, Done(g, front[..i]))) {
      assert front[..i] == rounds[..i];
    }
  }

  lemma StartCovers(g: Graph, names: seq<Name>)
    requires Linked(g) && Collected(g, [], names)
    ensures Covered(g, Pullers(g), ToSet([]), ToSet(names))
  {
    InhaleMembers(g);
    SuccMapIs(g, {});
    CollectOrderIs(g, SuccMap(g, {}), InhaleOf(g), [], names);
    hide CollectOrder, SuccMap, InhaleOf, SuccessorsOf, Linked;
    assert ToSet([]) == {};
    forall t: set<Name> | ToSet(names) <= t && Closed(g, Pullers(g), {}, t)
      ensures Reaches(g, Pullers(g) + {}, {} + t)
    {
      forall n, s | n in Pullers(g) && Edge(g, n, s)
        ensures s in t
      {
        assert s in Succ(g, n) && Eligible(g, SuccMap(g, {}), n, [], s);
        assert Further(g, SuccMap(g, {}), InhaleOf(g), [], s);
        assert s in ToSet(names);
      }
    }
  }

  lemma RoundGenerated(g: Graph, before: seq<RoundRun>, r: RoundRun)
    requires Distinct(r.names) && VisitOrder(r.names, SuccMap(g, Done(g, before)), r.visits)
    requires !CanLose(ToSet(r.names), SuccMap(g, Done(g, before)))
    ensures Generated(ToSet(r.names), SuccMap(g, Done(g, before)), ToSet(Survivors(r)))
  {
    SurvivorsLoose(g, before, r);
    var all, successors := ToSet(r.names), SuccMap(g, Done(g, before));
    OrderMade(all, successors, r.names, r.visits);
    hide CanLose, Generated, SuccMap, Visits, Survivors, VisitOrder, Order;
    LossExactly(all, successors);
  }

  lemma NextCovers(g: Graph, before: seq<RoundRun>, r: RoundRun, names: seq<Name>)
    requires Covered(g, Pullers(g), ToSet(ExhaleOf(before)), ToSet(r.names))
    requires Progress(g, ExhaleOf(before), r.names) && VisitOrder(r.names, SuccMap(g, Done(g, before)), r.visits)
    requires Generated(ToSet(r.names), SuccMap(g, Done(g, before)), ToSet(Survivors(r)))
    requires CollectOrder(g, SuccMap(g, Done(g, before)), Survivors(r), ExhaleOf(before) + Survivors(r), names)
    ensures Covered(g, Pullers(g), ToSet(ExhaleOf(before) + Survivors(r)), ToSet(names))
  {
    var successors, exhale := SuccMap(g, Done(g, before)), ExhaleOf(before);
    SuccMapIs(g, Done(g, before));
    SurvivorsLoose(g, before, r);
    CollectOrderIs(g, successors, Survivors(r), exhale + Survivors(r), names);
    hide CollectOrder, SuccMap, SuccessorsOf, Survivors, VisitOrder, Covered, Generated, Distinct, Exhalable, ExhaleOf;
    var pulls, exhaled, survivors := Pullers(g), ToSet(exhale), ToSet(Survivors(r));
    assert ToSet(exhale + Survivors(r)) == exhaled + survivors;
    forall n, s | n in survivors && n !in pulls && Edge(g, n, s)
      ensures s in ToSet(names) || s in exhaled + survivors
    {
      assert n !in Done(g, before) && s in Succ(g, n);
      if s !in exhale + Survivors(r) {
        assert Eligible(g, successors, n, exhale + Survivors(r), s);
        assert Further(g, successors, Survivors(r), exhale + Survivors(r), s);
      }
    }
    RoundCovers(g, pulls, exhaled, ToSet(r.names), successors, survivors, ToSet(names));
  }

  /** On every run, whatever the hash order, no app is exhaled twice and only push-capable apps
      reached from a pull app through such apps are; and where no round can lose one, all are. */
  lemma RunExhales(g: Graph, rounds: seq<RoundRun>)
    requires Linked(g) && Complete(g, rounds)
    ensures Distinct(ExhaleOf(rounds)) && forall n :: n in ExhaleOf(rounds) ==> Exhalable(g, n)
    ensures Lossless(g, rounds) ==> forall n :: Exhalable(g, n) ==> n in ExhaleOf(rounds)
  {
    RunProgress(g, rounds, []);
    if Lossless(g, rounds) {
      RunCovers(g, rounds, []);
      hide Lossless, Complete, Linked, ExhaleOf;
      AllExhaled(g, ToSet(ExhaleOf(rounds)));
    }
  }

  lemma AllExhaled(g: Graph, exhaled: set<Name>)
    requires Covered(g, Pullers(g), exhaled, ToSet([]))
    ensures forall n :: Exhalable(g, n) ==> n in exhaled
  {
    var pulls := Pullers(g);
    assert Closed(g, pulls, exhaled, {}) && ToSet([]) <= {};
    assert Reaches(g, pulls + exhaled, exhaled + {});
    forall n, s | (Pulls(g, n) || n in exhaled) && Edge(g, n, s)
      ensures s in exhaled
    {
      assert n in pulls + exhaled;
    }
    forall n | Exhalable(g, n)
      ensures n in exhaled
    {
      var path :| IsPath(g, path) && path[|path| - 1] == n;
      ExhalableWithin(g, exhaled, path);
    }
  }

  /** Without links from an app to itself, no run of a graph can lose an app. */
  lemma {:induction false} NoSelfLinksLossless(g: Graph, rounds: seq<RoundRun>)
    requires Linked(g) && IsRun(g, rounds) && NoSelfLinks(g)
    ensures Lossless(g, rounds)
  {
    hide CanLose, IsRound, SuccMap, IsRun;
    forall i | 0 <= i < |rounds|
      ensures !CanLose(ToSet(rounds[i].names), SuccMap(g, Done(g, rounds[..i])))
    {
      RunPrefix(g, rounds, i);
      RoundIs(g, rounds[..i], rounds[i]);
      RunProgress(g, rounds[..i], rounds[i].names);
      NoSelfLinkInRound(g, rounds[..i], rounds[i].names);
      NoSelfLinkNoLoss(ToSet(rounds[i].names), SuccMap(g, Done(g, rounds[..i])));
    }
  }

  lemma NoSelfLinkInRound(g: Graph, before: seq<RoundRun>, names: seq<Name>)
    requires NoSelfLinks(g) && Progress(g, ExhaleOf(before), names)
    ensures NoSelfLink(ToSet(names), SuccMap(g, Done(g, before)))
  {
    SuccMapIs(g, Done(g, before));
    hide SuccMap, SuccessorsOf, Exhalable, ExhaleOf;
    forall n | n in ToSet(names)
      ensures n !in SuccessorsOf(SuccMap(g, Done(g, before)), n)
    {
      assert n in Succ(g, n) ==> (n, n) in g.links;
    }
  }

  // When the order is determined

  /** No dependent of any round is both fed by one of them and feeds one. */
  ghost predicate NoRelays(g: Graph, rounds: seq<RoundRun>) {
    forall i :: 0 <= i < |rounds| ==> NoRelay(ToSet(rounds[i].names), SuccMap(g, Done(g, rounds[..i])))
  }

  /** Two runs that agree so far collect the same dependents next. */
  lemma SameDependents(g: Graph, a: seq<RoundRun>, b: seq<RoundRun>, names: seq<Name>, names': seq<Name>)
    requires LeadsOf(g, a) == LeadsOf(g, b) && FromOf(g, a) == FromOf(g, b) && ExhaleOf(a) == ExhaleOf(b)
    requires Collected(g, a, names) && Collected(g, b, names')
    ensures Distinct(names) && Distinct(names') && forall s :: s in names <==> s in names'
  {
    hide CollectOrder, LeadsOf, FromOf, ExhaleOf, Further, Distinct;
    CollectOrderIs(g, LeadsOf(g, a), FromOf(g, a), ExhaleOf(a), names);
    CollectOrderIs(g, LeadsOf(g, b), FromOf(g, b), ExhaleOf(b), names');
  }

  ghost predicate Agree(g: Graph, a: seq<RoundRun>, b: seq<RoundRun>) {
    LeadsOf(g, a) == LeadsOf(g, b) && FromOf(g, a) == FromOf(g, b) && ExhaleOf(a) == ExhaleOf(b)
  }

  lemma AgreeNext(g: Graph, a: seq<RoundRun>, b: seq<RoundRun>, r: RoundRun, r': RoundRun)
    requires Agree(g, a, b) && IsRound(g, a, r) && IsRound(g, b, r')
    requires NoRelay(ToSet(r.names), SuccMap(g, Done(g, a)))
    ensures Agree(g, a + [r], b + [r'])
  {
    hide *;
    SurvivorsAgree(g, a, b, r, r');
    AgreeExtends(g, a, b, r, r');
  }

  lemma AgreeExtends(g: Graph, a: seq<RoundRun>, b: seq<RoundRun>, r: RoundRun, r': RoundRun)
    requires Agree(g, a, b) && Survivors(r) == Survivors(r')
    ensures Agree(g, a + [r], b + [r'])
  {
    assert (a + [r])[..|a|] == a && (b + [r'])[..|b|] == b;
    hide SuccMap, Survivors;
  }

  lemma SurvivorsAgree(g: Graph, a: seq<RoundRun>, b: seq<RoundRun>, r: RoundRun, r': RoundRun)
    requires Agree(g, a, b) && IsRound(g, a, r) && IsRound(g, b, r')
    requires NoRelay(ToSet(r.names), SuccMap(g, Done(g, a)))
    ensures Survivors(r) == Survivors(r')
  {
    hide NoRelay, SuccMap, VisitOrder, Order, Visits, Distinct, Sort, CollectOrder, LeadsOf, FromOf, ExhaleOf;
    SameDependents(g, a, b, r.names, r'.names);
    var all, successors := ToSet(r.names), SuccMap(g, Done(g, a));
    assert ToSet(r'.names) == all;
    OrderMade(all, successors, r.names, r.visits);
    OrderMade(all, successors, r'.names, r'.visits);
    SurvivorsLoose(g, a, r);
    SurvivorsLoose(g, b, r');
    UnfedIsDetermined(all, successors);
    SameSurvivors(r, r');
  }

  lemma SameSurvivors(r: RoundRun, r': RoundRun)
    requires ToSet(Survivors(r)) == ToSet(Survivors(r')) && Distinct(Survivors(r)) && Distinct(Survivors(r'))
    ensures Survivors(r) == Survivors(r')
  {
    SortSorts(Visits(r.names, r.visits).dependents);
    SortSorts(Visits(r'.names, r'.visits).dependents);
    assert forall x :: x in Survivors(r) <==> x in ToSet(Survivors(r));
    assert forall x :: x in Survivors(r') <==> x in ToSet(Survivors(r'));
    hide Visits, Sort, Distinct, Sorted;
    SortedUnique(Survivors(r), Survivors(r'));
  }

  lemma {:induction false} RunsAgree(g: Graph, a: seq<RoundRun>, b: seq<RoundRun>, i: nat)
    requires IsRun(g, a) && IsRun(g, b) && NoRelays(g, a) && i <= |a| && i <= |b|
    ensures Agree(g, a[..i], b[..i])
  {
    hide LeadsOf, IsRound, IsRun, NoRelay, SuccMap, Done;
    if i > 0 {
      RunsAgree(g, a, b, i - 1);
      RunPrefix(g, a, i - 1);
      RunPrefix(g, b, i - 1);
      assert a[..i - 1] + [a[i - 1]] == a[..i] && b[..i - 1] + [b[i - 1]] == b[..i];
      AgreeNext(g, a[..i - 1], b[..i - 1], a[i - 1], b[i - 1]);
    } else {
      AgreeAtStart(g, a[..0], b[..0]);
    }
  }

  lemma AgreeAtStart(g: Graph, a: seq<RoundRun>, b: seq<RoundRun>)
    requires a == [] && b == []
    ensures Agree(g, a, b)
  {
  }

  /** Runs that agree stop together. */
  lemma StopsTogether(g: Graph, a: seq<RoundRun>, b: seq<RoundRun>, r: RoundRun)
    requires Collected(g, a, []) && IsRound(g, b, r)
    ensures !Agree(g, a, b)
  {
    assert r.names[0] in r.names;
    hide LeadsOf, FromOf, ExhaleOf, CollectOrder, VisitOrder, Distinct;
    if Agree(g, a, b) {
      SameDependents(g, a, b, [], r.names);
    }
  }

  lemma NotEarlier(g: Graph, a: seq<RoundRun>, b: seq<RoundRun>)
    requires Complete(g, a) && IsRun(g, b) && (NoRelays(g, a) || NoRelays(g, b))
    ensures |b| <= |a|
  {
    hide IsRun, NoRelays, IsRound, Collected, Agree;
    if |a| < |b| {
      RunPrefix(g, b, |a|);
      assert a[..|a|] == a;
      StopsTogether(g, a, b[..|a|], b[|a|]);
      if NoRelays(g, a) {
        RunsAgree(g, a, b, |a|);
      } else {
        RunsAgree(g, b, a, |a|);
        AgreeBoth(g, a, b[..|a|]);
      }
    }
  }

  lemma AgreeBoth(g: Graph, a: seq<RoundRun>, b: seq<RoundRun>)
    ensures Agree(g, a, b) <==> Agree(g, b, a)
  {
  }

  /** The order is determined when no round has a relay: then every run exhales the same list. */
  lemma OrderDetermined(g: Graph, a: seq<RoundRun>, b: seq<RoundRun>)
    requires Complete(g, a) && Complete(g, b) && NoRelays(g, a)
    ensures ExhaleOf(a) == ExhaleOf(b)
  {
    NotEarlier(g, a, b);
    NotEarlier(g, b, a);
    RunsAgree(g, a, b, |a|);
    assert a[..|a|] == a && b[..|b|] == b;
  }
}
