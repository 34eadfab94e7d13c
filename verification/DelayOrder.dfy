/** When the delay step of `compute_breathe_order` is determined by its round, whatever order
    dependents and successors come in. */
module DelayOrders {
  import opened DelaySteps

  /** No dependent is its own successor. */
  predicate NoSelfLink(all: set<Name>, successors: map<Name, set<Name>>) {
    forall n :: n in all ==> n !in SuccessorsOf(successors, n)
  }

  /** `n` feeds `s`, both of them dependents. */
  predicate Feeds(all: set<Name>, successors: map<Name, set<Name>>, n: Name, s: Name) {
    n in all && s in all && s in SuccessorsOf(successors, n)
  }

  /** No dependent is both fed by a dependent and feeds one. */
  ghost predicate NoRelay(all: set<Name>, successors: map<Name, set<Name>>) {
    forall n, s, t :: Feeds(all, successors, n, s) ==> !Feeds(all, successors, s, t)
  }

  ghost predicate Fed(all: set<Name>, successors: map<Name, set<Name>>, s: Name) {
    exists n :: Feeds(all, successors, n, s)
  }

  /** Whichever order the round is visited in, the same dependents survive. */
  ghost predicate Determined(all: set<Name>, successors: map<Name, set<Name>>) {
    forall names, vs, names', vs' :: Order(all, successors, names, vs) && Order(all, successors, names', vs') ==>
      ToSet(Visits(names, vs).dependents) == ToSet(Visits(names', vs').dependents)
  }

  // Without relays, exactly the dependents that are not fed survive

  /** What holds after some visits: what they link to is removed, and what selected feeds. */
  ghost predicate Removing(all: set<Name>, successors: map<Name, set<Name>>, d: Delays, vs: seq<(Name, Name)>) {
    && (forall x :: x in d.dependents <==> x in all && forall v :: v in vs ==> v.1 != x)
    && (forall x :: x in d.selected ==> x in all && exists s :: Feeds(all, successors, x, s))
  }

  lemma RemovingNext(all: set<Name>, successors: map<Name, set<Name>>, d: Delays, vs: seq<(Name, Name)>,
                     v: (Name, Name))
    requires Removing(all, successors, d, vs) && NoRelay(all, successors)
    requires forall u :: u in vs ==> u.0 in all && u.1 in SuccessorsOf(successors, u.0)
    requires v.0 in all && v.1 in SuccessorsOf(successors, v.0)
    ensures Removing(all, successors, Visit(d, v), vs + [v])
  {
    if v.1 in d.dependents {
      assert Feeds(all, successors, v.0, v.1);
      assert v.1 !in d.selected;
      assert forall u :: u in vs ==> u.1 != v.0 by {
        forall u | u in vs && u.1 == v.0 ensures false {
          assert Feeds(all, successors, u.0, v.0);
        }
      }
      assert v.0 in d.dependents && v.0 != v.1;
      TwoMembers(d.dependents, v.0, v.1);
    }
    var after := Visit(d, v);
    forall x
      ensures x in after.dependents <==> x in all && forall u :: u in vs + [v] ==> u.1 != x
    {
      assert (forall u :: u in vs + [v] ==> u.1 != x) <==> (forall u :: u in vs ==> u.1 != x) && v.1 != x by {
        assert forall u :: u in vs + [v] <==> u in vs || u == v;
      }
    }
  }

  lemma TwoMembers(s: seq<Name>, a: Name, b: Name)
    requires a in s && b in s && a != b
    ensures |s| > 1
  {
  }

  lemma {:induction false} RemovingAll(all: set<Name>, successors: map<Name, set<Name>>, names: seq<Name>,
                                       vs: seq<(Name, Name)>)
    requires ToSet(names) == all && NoRelay(all, successors)
    requires forall u :: u in vs ==> u.0 in all && u.1 in SuccessorsOf(successors, u.0)
    ensures Removing(all, successors, Visits(names, vs), vs)
  {
    if |vs| > 0 {
      var front, last := vs[..|vs| - 1], vs[|vs| - 1];
      RemovingAll(all, successors, names, front);
      RemovingNext(all, successors, Visits(names, front), front, last);
      assert front + [last] == vs;
    } else {
      assert forall x :: x in names <==> x in ToSet(names);
    }
  }

  lemma OrderVisits(all: set<Name>, successors: map<Name, set<Name>>, names: seq<Name>, vs: seq<(Name, Name)>)
    requires Order(all, successors, names, vs)
    ensures ToSet(names) == all
    ensures forall u :: u in vs ==> u.0 in all && u.1 in SuccessorsOf(successors, u.0)
    ensures forall n, x :: Feeds(all, successors, n, x) ==> (n, x) in vs
  {
    OrderCovers(names, successors, vs);
    hide VisitOrder, Distinct, SuccessorsOf;
    assert forall x :: x in names <==> x in ToSet(names);
    forall u | u in vs ensures u.0 in all && u.1 in SuccessorsOf(successors, u.0) {
      assert Linking(names, successors, u);
    }
    forall n, x | Feeds(all, successors, n, x) ensures (n, x) in vs {
      assert Linking(names, successors, (n, x));
    }
  }

  /** Without a relay, the survivors are exactly the dependents that no dependent feeds. */
  lemma SurvivorsAreUnfed(all: set<Name>, successors: map<Name, set<Name>>, names: seq<Name>, vs: seq<(Name, Name)>)
    requires Order(all, successors, names, vs) && NoRelay(all, successors)
    ensures forall x :: x in Visits(names, vs).dependents <==> x in all && !Fed(all, successors, x)
  {
    hide Order, NoRelay, Visits, SuccessorsOf, ToSet;
    OrderVisits(all, successors, names, vs);
    RemovingAll(all, successors, names, vs);
    var d := Visits(names, vs);
    forall x
      ensures x in d.dependents <==> x in all && !Fed(all, successors, x)
    {
      if x in all && Fed(all, successors, x) {
        var n :| Feeds(all, successors, n, x);
        assert (n, x) in vs;
      } else if x in all {
        forall v | v in vs ensures v.1 != x {
          assert v.1 == x ==> Feeds(all, successors, v.0, x);
        }
      }
    }
  }

  // With one, some order removes it and some other keeps it

  lemma FirstOne(successors: map<Name, set<Name>>, n: Name, s: Name) returns (vs: seq<(Name, Name)>)
    requires s in SuccessorsOf(successors, n)
    ensures VisitOrder([n], successors, vs) && vs != [] && vs[0] == (n, s)
  {
    var ss := ListFrom(s, SuccessorsOf(successors, n));
    PairsEnumerate(n, ss);
    NoVisits([n], successors);
    assert [n][..0] == [] && [] + [n] == [n];
    vs := Pairs(n, ss);
    assert [] + vs == vs;
    hide Enumerates, VisitOrder, SuccessorsOf, ToSet, Distinct, Pairs;
    VisitOrderMore([], n, successors, [], vs);
  }

  /** Any visit of two different dependents can be the first one. */
  lemma FirstVisit(all: set<Name>, successors: map<Name, set<Name>>, n: Name, s: Name)
      returns (names: seq<Name>, vs: seq<(Name, Name)>)
    requires Feeds(all, successors, n, s) && n != s
    ensures Order(all, successors, names, vs)
    ensures n in Visits(names, vs).dependents && s !in Visits(names, vs).dependents
  {
    hide VisitOrder, SuccessorsOf, Distinct, Visits;
    var first := FirstOne(successors, n, s);
    names := ListFrom(n, all);
    var rest := OrderContinues([n], names[1..], successors, first);
    assert [n] + names[1..] == names;
    vs := first + rest;
    assert s in ToSet(names);
    FirstPersists(names, vs, n, s);
  }

  lemma ListFrom(n: Name, all: set<Name>) returns (names: seq<Name>)
    requires n in all
    ensures Distinct(names) && ToSet(names) == all && names != [] && names[0] == n
  {
    names := [n] + Listing(all - {n});
    assert names[1..] == Listing(all - {n});
    assert n !in ToSet(names[1..]);
    assert ToSet(names) == {n} + ToSet(names[1..]);
  }

  lemma FirstPersists(names: seq<Name>, vs: seq<(Name, Name)>, n: Name, s: Name)
    requires n in names && s in names && n != s && vs != [] && vs[0] == (n, s)
    ensures n in Visits(names, vs).dependents && s !in Visits(names, vs).dependents
  {
    var start := Delays(names, {});
    TwoMembers(names, n, s);
    assert vs[..1][..0] == [] && After(start, vs[..1]) == Visit(After(start, []), (n, s));
    hide Visit, After;
    assert vs[..1] + vs[1..] == vs;
    AfterConcat(start, vs[..1], vs[1..]);
    FirstEffect(names, n, s);
    AfterPersists(After(start, vs[..1]), vs[1..], n);
    AfterPersists(After(start, vs[..1]), vs[1..], s);
    assert After(start, []) == start by { AfterNone(start); }
  }

  lemma AfterNone(d: Delays)
    ensures After(d, []) == d
  {
  }

  lemma FirstEffect(names: seq<Name>, n: Name, s: Name)
    requires n in names && s in names && n != s
    ensures var d := Visit(Delays(names, {}), (n, s));
            n in d.dependents && n in d.selected && s !in d.dependents
  {
    TwoMembers(names, n, s);
  }

  /** A round without self-links is determined exactly when no dependent both is fed by one and
      feeds one: a relay survives when its own link is visited first, and is removed when the
      link to it is. */
  lemma DeterminedExactly(all: set<Name>, successors: map<Name, set<Name>>)
    requires NoSelfLink(all, successors)
    ensures Determined(all, successors) <==> NoRelay(all, successors)
  {
    if NoRelay(all, successors) {
      UnfedIsDetermined(all, successors);
    } else {
      var n, s, t :| Feeds(all, successors, n, s) && Feeds(all, successors, s, t);
      assert n != s && s != t;
      hide Visits, Order;
      var names, vs := FirstVisit(all, successors, n, s);
      var names', vs' := FirstVisit(all, successors, s, t);
      assert s in ToSet(Visits(names', vs').dependents) && s !in ToSet(Visits(names, vs).dependents);
    }
  }

  lemma UnfedIsDetermined(all: set<Name>, successors: map<Name, set<Name>>)
    requires NoRelay(all, successors)
    ensures Determined(all, successors)
  {
    hide NoRelay, Visits, Order, Fed;
    forall names, vs, names', vs' | Order(all, successors, names, vs) && Order(all, successors, names', vs')
      ensures ToSet(Visits(names, vs).dependents) == ToSet(Visits(names', vs').dependents)
    {
      SurvivorsAreUnfed(all, successors, names, vs);
      SurvivorsAreUnfed(all, successors, names', vs');
    }
  }

  // The order of successors alone never matters

  /** A list without the members of a set. */
  function Except(s: seq<Name>, x: set<Name>): (r: seq<Name>)
    ensures forall y :: y in r <==> y in s && y !in x
  {
    if s == [] then []
    else if s[0] in x then Except(s[1..], x) else [s[0]] + Except(s[1..], x)
  }

  lemma {:induction false} ExceptOne(s: seq<Name>, x: set<Name>, y: Name)
    ensures Without(Except(s, x), y) == Except(s, x + {y})
  {
    if s != [] {
      ExceptOne(s[1..], x, y);
      if s[0] !in x {
        assert Except(s, x)[1..] == Except(s[1..], x);
      }
    }
  }

  lemma {:induction false} ExceptNone(s: seq<Name>, x: set<Name>)
    requires forall y :: y in s ==> y !in x
    ensures Except(s, x) == s
  {
    if s != [] {
      ExceptNone(s[1..], x);
    }
  }

  /** The effect of visiting some successors of one dependent, whatever order they come in. */
  function Visited(d: Delays, n: Name, ss: set<Name>): Delays {
    var gone := ss - d.selected;
    Delays(Except(d.dependents, gone),
           if exists x :: x in gone && x in d.dependents then d.selected + {n} else d.selected)
  }

  /** Either nothing was removed, or some selected dependent is still there. */
  ghost predicate Anchored(names: seq<Name>, d: Delays) {
    (exists x :: x in d.selected && x in d.dependents) || forall x :: x in names ==> x in d.dependents
  }

  /** The guard that keeps one dependent never stops a removal. */
  lemma GuardHolds(names: seq<Name>, d: Delays, n: Name, s: Name)
    requires n in names && s != n && Anchored(names, d) && s in d.dependents && s !in d.selected
    ensures |d.dependents| > 1
  {
    if x :| x in d.selected && x in d.dependents {
      TwoMembers(d.dependents, s, x);
    } else {
      TwoMembers(d.dependents, s, n);
    }
  }

  lemma VisitedRemoves(names: seq<Name>, d: Delays, n: Name, ss: set<Name>, s: Name)
    requires n in names && s != n && Anchored(names, Visited(d, n, ss))
    requires s in Visited(d, n, ss).dependents && s !in Visited(d, n, ss).selected
    ensures Visit(Visited(d, n, ss), (n, s)) == Visited(d, n, ss + {s})
  {
    GuardHolds(names, Visited(d, n, ss), n, s);
    ExceptOne(d.dependents, ss - d.selected, s);
    assert (ss + {s}) - d.selected == (ss - d.selected) + {s};
    hide Except, Without;
  }

  lemma VisitedIgnores(d: Delays, n: Name, ss: set<Name>, s: Name)
    requires s != n && (s !in Visited(d, n, ss).dependents || s in Visited(d, n, ss).selected)
    ensures Visited(d, n, ss) == Visited(d, n, ss + {s})
  {
    assert s in d.selected || s !in d.dependents || s in ss;
    ExceptSame(d.dependents, ss - d.selected, (ss + {s}) - d.selected);
    hide Except;
  }

  lemma VisitedNext(names: seq<Name>, d: Delays, n: Name, ss: set<Name>, s: Name)
    requires n in names && s != n && n !in ss && Anchored(names, d)
    ensures Visit(Visited(d, n, ss), (n, s)) == Visited(d, n, ss + {s})
  {
    hide Anchored, Visited;
    var was := Visited(d, n, ss);
    VisitedAnchored(names, d, n, ss);
    if s in was.dependents && s !in was.selected {
      VisitedRemoves(names, d, n, ss, s);
    } else {
      VisitedIgnores(d, n, ss, s);
    }
  }

  lemma {:induction false} ExceptSame(s: seq<Name>, x: set<Name>, y: set<Name>)
    requires forall a :: a in s ==> (a in x <==> a in y)
    ensures Except(s, x) == Except(s, y)
  {
    if s != [] {
      ExceptSame(s[1..], x, y);
    }
  }

  lemma VisitedAnchored(names: seq<Name>, d: Delays, n: Name, ss: set<Name>)
    requires n in names && n !in ss && Anchored(names, d)
    ensures Anchored(names, Visited(d, n, ss))
  {
    var after := Visited(d, n, ss);
    if x :| x in d.selected && x in d.dependents {
      assert x in after.selected && x in after.dependents;
    } else if exists x :: x in ss - d.selected && x in d.dependents {
      assert n in after.selected && n in after.dependents;
    }
  }

  function Targets(vs: seq<(Name, Name)>): set<Name> {
    set v | v in vs :: v.1
  }

  lemma {:induction false} OneDependent(names: seq<Name>, d: Delays, n: Name, vs: seq<(Name, Name)>)
    requires n in names && Anchored(names, d)
    requires forall v :: v in vs ==> v.0 == n && v.1 != n
    ensures After(d, vs) == Visited(d, n, Targets(vs))
  {
    if vs == [] {
      ExceptNone(d.dependents, {});
      assert Targets(vs) - d.selected == {};
    } else {
      var front, last := vs[..|vs| - 1], vs[|vs| - 1];
      OneDependent(names, d, n, front);
      assert last in vs && last == (n, last.1);
      assert n !in Targets(front);
      assert vs == front + [last];
      assert Targets(vs) == Targets(front) + {last.1} by {
        assert forall v :: v in vs <==> v in front || v == last;
      }
      hide Visited, Anchored, Visit;
      VisitedNext(names, d, n, Targets(front), last.1);
    }
  }

  lemma TargetsAre(vs: seq<(Name, Name)>, n: Name, succ: set<Name>)
    requires Enumerates(vs, n, succ)
    ensures Targets(vs) == succ && forall v :: v in vs ==> v.0 == n && v.1 in succ
  {
    forall s | s in succ ensures s in Targets(vs) {
      assert (n, s) in vs;
    }
  }

  /** For one order of the dependents, the outcome does not depend on the order of successors. */
  lemma {:induction false} SuccessorOrderIrrelevant(start: seq<Name>, names: seq<Name>,
                                                    successors: map<Name, set<Name>>,
                                                    vs: seq<(Name, Name)>, vs': seq<(Name, Name)>)
    requires VisitOrder(names, successors, vs) && VisitOrder(names, successors, vs')
    requires forall n :: n in names ==> n in start && n !in SuccessorsOf(successors, n)
    ensures Visits(start, vs) == Visits(start, vs') && Anchored(start, Visits(start, vs))
  {
    if |names| == 0 {
      assert vs == [] && vs' == [];
    } else {
      var front, n := names[..|names| - 1], names[|names| - 1];
      var k := VisitOrderLast(names, successors, vs);
      var k' := VisitOrderLast(names, successors, vs');
      SuccessorOrderIrrelevant(start, front, successors, vs[..k], vs'[..k']);
      hide VisitOrder, After, Anchored, Visited, Enumerates;
      var d, ss := Visits(start, vs[..k]), SuccessorsOf(successors, n);
      AfterConcat(Delays(start, {}), vs[..k], vs[k..]);
      AfterConcat(Delays(start, {}), vs'[..k'], vs'[k'..]);
      TargetsAre(vs[k..], n, ss);
      TargetsAre(vs'[k'..], n, ss);
      OneDependent(start, d, n, vs[k..]);
      OneDependent(start, d, n, vs'[k'..]);
      VisitedAnchored(start, d, n, ss);
    }
  }
}
