/** When the delay step of `compute_breathe_order` can lose an app for good: some order of
    visits leaves survivors that do not lead to all dependents. It takes a link from an app to
    itself, and more. */
module DelayLosses {
  import opened DelaySteps
  import opened DelayOrders

  /** Whatever feeds a member of `c` is a member. */
  ghost predicate SourceClosed(c: set<Name>, all: set<Name>, successors: map<Name, set<Name>>) {
    forall n, s :: Feeds(all, successors, n, s) && s in c ==> n in c
  }

  /** `p[i]` is linked to itself or from an earlier one. */
  ghost predicate Entered(p: seq<Name>, successors: map<Name, set<Name>>, i: nat)
    requires i < |p|
  {
    p[i] in SuccessorsOf(successors, p[i]) || exists j :: 0 <= j < i && p[i] in SuccessorsOf(successors, p[j])
  }

  ghost predicate Hit(p: seq<Name>, successors: map<Name, set<Name>>, x: Name) {
    exists i :: 0 <= i < |p| && x in SuccessorsOf(successors, p[i])
  }

  /** The members of `p`, each linked to itself or from an earlier one, link to all of `c`. */
  ghost predicate Clears(c: set<Name>, successors: map<Name, set<Name>>, p: seq<Name>) {
    && Distinct(p) && (forall i :: 0 <= i < |p| ==> p[i] in c && Entered(p, successors, i))
    && forall x :: x in c ==> Hit(p, successors, x)
  }

  /** `z` feeds another dependent outside of `c`. */
  ghost predicate Holds(c: set<Name>, all: set<Name>, successors: map<Name, set<Name>>, z: Name) {
    exists w :: w !in c && w != z && Feeds(all, successors, z, w)
  }

  /** `z`, outside of `c`, outlasts it: it feeds another one outside, or none but the last of
      `p` links to it. */
  ghost predicate Outlasts(c: set<Name>, all: set<Name>, successors: map<Name, set<Name>>, p: seq<Name>, z: Name) {
    && z in all && z !in c
    && (Holds(c, all, successors, z) || forall i :: 0 <= i < |p| - 1 ==> z !in SuccessorsOf(successors, p[i]))
  }

  /** Some dependents, fed by none but themselves, can all be removed while another one stays. */
  ghost predicate CanLose(all: set<Name>, successors: map<Name, set<Name>>) {
    exists c, p, z :: Losing(c, all, successors, p, z)
  }

  ghost predicate Losing(c: set<Name>, all: set<Name>, successors: map<Name, set<Name>>, p: seq<Name>, z: Name) {
    && c != {} && c <= all && SourceClosed(c, all, successors)
    && Clears(c, successors, p) && Outlasts(c, all, successors, p, z)
  }

  lemma ClearsHit(c: set<Name>, successors: map<Name, set<Name>>, p: seq<Name>, x: Name) returns (i: nat)
    requires Clears(c, successors, p) && x in c
    ensures i < |p| && p[i] in c && x in SuccessorsOf(successors, p[i])
  {
    hide Distinct, Entered, SuccessorsOf;
    assert Hit(p, successors, x);
    i :| 0 <= i < |p| && x in SuccessorsOf(successors, p[i]);
  }

  lemma ClearsFirst(c: set<Name>, successors: map<Name, set<Name>>, p: seq<Name>)
    requires Clears(c, successors, p) && |p| > 0
    ensures p[0] in c && p[0] in SuccessorsOf(successors, p[0])
  {
    hide Distinct, Hit, SuccessorsOf;
    assert Entered(p, successors, 0);
  }

  lemma LosingSelfLinked(c: set<Name>, all: set<Name>, successors: map<Name, set<Name>>, p: seq<Name>, z: Name)
      returns (x: Name)
    requires Losing(c, all, successors, p, z)
    ensures x in all && x in SuccessorsOf(successors, x)
  {
    hide SourceClosed, Outlasts, Clears, SuccessorsOf;
    var y :| y in c;
    var i := ClearsHit(c, successors, p, y);
    ClearsFirst(c, successors, p);
    x := p[0];
  }

  /** Without a link from a dependent to itself nothing can be lost. */
  lemma NoSelfLinkNoLoss(all: set<Name>, successors: map<Name, set<Name>>)
    requires NoSelfLink(all, successors)
    ensures !CanLose(all, successors)
  {
    hide Losing;
    forall c, p, z ensures !Losing(c, all, successors, p, z) {
      if Losing(c, all, successors, p, z) {
        var x := LosingSelfLinked(c, all, successors, p, z);
      }
    }
  }

  // Every loss comes about like that

  /** What the removals so far of members of `c`, none of which is to survive, say of their links. */
  ghost predicate Traced(c: set<Name>, all: set<Name>, successors: map<Name, set<Name>>, d: Delays, p: seq<Name>) {
    && Distinct(p) && (forall i :: 0 <= i < |p| ==> p[i] in c && Entered(p, successors, i))
    && (forall x :: x in c && x !in d.dependents ==> Hit(p, successors, x))
    && (forall n :: n in d.selected && n in d.dependents ==> exists m :: m != n && Feeds(all, successors, n, m))
    && Distinct(d.dependents) && forall x :: x in d.dependents ==> x in all
  }

  /** No member of `c` is there to stay. */
  ghost predicate Doomed(c: set<Name>, d: Delays) {
    forall x :: x in c && x in d.dependents ==> x !in d.selected
  }

  /** A visited link's end is gone, or selected, or the only one left. */
  ghost predicate Spent(d: Delays, vs: seq<(Name, Name)>) {
    forall v :: v in vs && v.1 in d.dependents ==> v.1 in d.selected || |d.dependents| <= 1
  }

  lemma SpentNext(d: Delays, vs: seq<(Name, Name)>, v: (Name, Name))
    requires Spent(d, vs) && Distinct(d.dependents)
    ensures Spent(Visit(d, v), vs + [v])
  {
    WithoutDistinct(d.dependents, v.1);
    forall u | u in vs + [v] && u.1 in Visit(d, v).dependents
      ensures u.1 in Visit(d, v).selected || |Visit(d, v).dependents| <= 1
    {
      assert u in vs || u == v;
    }
  }

  ghost predicate Gone(c: set<Name>, d: Delays) {
    forall x :: x in c ==> x !in d.dependents
  }

  /** Either part of `c` is still there, or the loss is explained. */
  ghost predicate Explained(c: set<Name>, all: set<Name>, successors: map<Name, set<Name>>, d: Delays, p: seq<Name>) {
    Gone(c, d) ==> exists z :: Outlasts(c, all, successors, p, z)
  }

  /** A list and a member that is added to it once. */
  function Noted(p: seq<Name>, v: Name): seq<Name> {
    if v in p then p else p + [v]
  }

  lemma HitMore(p: seq<Name>, successors: map<Name, set<Name>>, v: Name, x: Name)
    requires Hit(p, successors, x) || x in SuccessorsOf(successors, v)
    ensures Hit(Noted(p, v), successors, x)
  {
    var q := Noted(p, v);
    if x !in SuccessorsOf(successors, v) {
      var i :| 0 <= i < |p| && x in SuccessorsOf(successors, p[i]);
      assert q[i] == p[i];
    } else if v in p {
      var i :| 0 <= i < |p| && p[i] == v;
    } else {
      assert q[|p|] == v;
    }
  }

  lemma EnteredStays(p: seq<Name>, q: seq<Name>, successors: map<Name, set<Name>>, i: nat)
    requires |p| <= |q| && p == q[..|p|] && i < |p| && Entered(p, successors, i)
    ensures Entered(q, successors, i)
  {
    assert p[i] == q[i];
    if p[i] !in SuccessorsOf(successors, p[i]) {
      var j :| 0 <= j < i && p[i] in SuccessorsOf(successors, p[j]);
      assert p[j] == q[j];
    }
  }

  lemma EnteredMore(p: seq<Name>, successors: map<Name, set<Name>>, v: Name)
    requires Distinct(p) && forall i :: 0 <= i < |p| ==> Entered(p, successors, i)
    requires v in SuccessorsOf(successors, v) || Hit(p, successors, v)
    ensures Distinct(Noted(p, v))
    ensures forall i :: 0 <= i < |Noted(p, v)| ==> Entered(Noted(p, v), successors, i)
  {
    var q := Noted(p, v);
    if v !in p {
      DistinctConcat(p, [v]);
      forall i | 0 <= i < |q| ensures Entered(q, successors, i) {
        if i < |p| {
          EnteredStays(p, q, successors, i);
        } else if v !in SuccessorsOf(successors, v) {
          var j :| 0 <= j < |p| && v in SuccessorsOf(successors, p[j]);
          assert q[j] == p[j] && q[i] == v;
        }
      }
    }
  }

  /** A visit removes a member of `c`: then it is one by a member, entered before. */
  lemma TracedRemoval(c: set<Name>, all: set<Name>, successors: map<Name, set<Name>>, d: Delays, p: seq<Name>,
                      v: (Name, Name))
    requires Traced(c, all, successors, d, p) && SourceClosed(c, all, successors)
    requires Feeds(all, successors, v.0, v.1) && v.1 in c && Visit(d, v) != d && Doomed(c, Visit(d, v))
    ensures v.0 in c && Traced(c, all, successors, Visit(d, v), Noted(p, v.0))
  {
    var after := Visit(d, v);
    assert v.0 in c;
    assert v.0 == v.1 || v.0 !in d.dependents;
    EnteredMore(p, successors, v.0);
    WithoutDistinct(d.dependents, v.1);
    hide Entered, Hit, SuccessorsOf, SourceClosed;
    forall x | x in c && x !in after.dependents ensures Hit(Noted(p, v.0), successors, x) {
      assert x !in d.dependents || x == v.1;
      NotedHits(all, p, successors, v, x);
    }
  }

  lemma NotedHits(all: set<Name>, p: seq<Name>, successors: map<Name, set<Name>>, v: (Name, Name), x: Name)
    requires Feeds(all, successors, v.0, v.1) && (Hit(p, successors, x) || x == v.1)
    ensures Hit(Noted(p, v.0), successors, x)
  {
    HitMore(p, successors, v.0, x);
  }

  lemma TracedOther(c: set<Name>, all: set<Name>, successors: map<Name, set<Name>>, d: Delays, p: seq<Name>,
                    v: (Name, Name))
    requires Traced(c, all, successors, d, p) && v.0 in all && v.1 in SuccessorsOf(successors, v.0)
    requires Visit(d, v) == d || v.1 !in c
    ensures Traced(c, all, successors, Visit(d, v), p)
  {
    WithoutDistinct(d.dependents, v.1);
    var after := Visit(d, v);
    hide Entered, Hit;
    if after != d {
      forall n | n in after.selected && n in after.dependents
        ensures exists m :: m != n && Feeds(all, successors, n, m)
      {
        if n == v.0 && n !in d.selected {
          assert Feeds(all, successors, n, v.1) && v.1 != n;
        }
      }
    }
  }

  /** The last member of `c` goes only while another dependent is there, which outlasts it. */
  lemma LastRemoval(c: set<Name>, all: set<Name>, successors: map<Name, set<Name>>, d: Delays,
                    p0: seq<Name>, p: seq<Name>, vs: seq<(Name, Name)>, v: (Name, Name))
    requires Traced(c, all, successors, d, p) && SourceClosed(c, all, successors) && Spent(d, vs)
    requires Visit(d, v) != d && v.1 in c && Gone(c, Visit(d, v))
    requires p == p0 || p == p0 + [v.0]
    requires v.0 !in p0
    requires forall i, s :: 0 <= i < |p0| && s in SuccessorsOf(successors, p0[i]) ==> (p0[i], s) in vs
    ensures exists z :: Outlasts(c, all, successors, Noted(p, v.0), z)
  {
    WithoutDistinct(d.dependents, v.1);
    var z :| z in d.dependents && z != v.1 by { AnotherMember(d.dependents, v.1); }
    assert z in Visit(d, v).dependents && z !in c;
    var q := Noted(p, v.0);
    assert q == p0 + [v.0];
    if z in d.selected {
      SelectedHolds(c, all, successors, d, p, z);
    } else {
      forall i | 0 <= i < |q| - 1 ensures z !in SuccessorsOf(successors, q[i]) {
        assert q[i] == p0[i] && (p0[i], z) !in vs;
      }
    }
    assert Outlasts(c, all, successors, q, z);
  }

  lemma SelectedHolds(c: set<Name>, all: set<Name>, successors: map<Name, set<Name>>, d: Delays, p: seq<Name>, z: Name)
    requires Traced(c, all, successors, d, p) && SourceClosed(c, all, successors)
    requires z in d.selected && z in d.dependents && z !in c
    ensures Holds(c, all, successors, z)
  {
    hide Hit, Entered;
    var m :| m != z && Feeds(all, successors, z, m);
    assert m !in c;
  }

  lemma AnotherMember(s: seq<Name>, x: Name)
    requires Distinct(s) && |s| > 1
    ensures exists z :: z in s && z != x
  {
    assert s[1] in s[1..];
    assert s[0] != s[1];
    assert s[0] in s && s[1] in s;
  }

  /** A list after the visits of dependent `n`: it has been noted, or not. */
  ghost predicate Grown(p0: seq<Name>, p: seq<Name>, n: Name) {
    p == p0 || p == p0 + [n]
  }

  /** What is known after each visit. */
  ghost predicate Known(c: set<Name>, all: set<Name>, successors: map<Name, set<Name>>, d: Delays,
                        vs: seq<(Name, Name)>, p: seq<Name>) {
    Traced(c, all, successors, d, p) && Spent(d, vs) && Explained(c, all, successors, d, p)
  }

  lemma KnownNext(c: set<Name>, all: set<Name>, successors: map<Name, set<Name>>, d: Delays, vs: seq<(Name, Name)>,
                  p0: seq<Name>, p: seq<Name>, v: (Name, Name)) returns (p': seq<Name>)
    requires SourceClosed(c, all, successors) && Known(c, all, successors, d, vs, p) && Doomed(c, Visit(d, v))
    requires Grown(p0, p, v.0) && v.0 !in p0 && v.0 in all && v.1 in SuccessorsOf(successors, v.0)
    requires forall i, s :: 0 <= i < |p0| && s in SuccessorsOf(successors, p0[i]) ==> (p0[i], s) in vs
    ensures Grown(p0, p', v.0) && Known(c, all, successors, Visit(d, v), vs + [v], p')
  {
    SpentNext(d, vs, v);
    if Visit(d, v) != d && v.1 in c {
      p' := Noted(p, v.0);
      hide SourceClosed, SuccessorsOf, Doomed, Spent, Outlasts;
      TracedRemoval(c, all, successors, d, p, v);
      if Gone(c, Visit(d, v)) {
        LastRemoval(c, all, successors, d, p0, p, vs, v);
      }
    } else {
      p' := p;
      TracedOther(c, all, successors, d, p, v);
      OthersStay(c, d, v);
      hide Traced, SourceClosed, SuccessorsOf, Doomed, Visit, Spent, Outlasts;
    }
  }

  lemma OthersStay(c: set<Name>, d: Delays, v: (Name, Name))
    requires Visit(d, v) == d || v.1 !in c
    ensures Gone(c, Visit(d, v)) ==> Gone(c, d)
  {
  }

  lemma {:induction false} KnownOne(c: set<Name>, all: set<Name>, successors: map<Name, set<Name>>, d: Delays,
                                    before: seq<(Name, Name)>, p0: seq<Name>, n: Name, vs: seq<(Name, Name)>)
      returns (p: seq<Name>)
    requires SourceClosed(c, all, successors) && Known(c, all, successors, d, before, p0) && n !in p0 && n in all
    requires forall v :: v in vs ==> v.0 == n && v.1 in SuccessorsOf(successors, n)
    requires forall k :: 0 <= k <= |vs| ==> Doomed(c, After(d, vs[..k]))
    requires forall i, s :: 0 <= i < |p0| && s in SuccessorsOf(successors, p0[i]) ==> (p0[i], s) in before
    ensures Grown(p0, p, n) && Known(c, all, successors, After(d, vs), before + vs, p)
  {
    if |vs| == 0 {
      p := p0;
      assert before + vs == before;
    } else {
      var front, last := vs[..|vs| - 1], vs[|vs| - 1];
      assert forall k :: 0 <= k <= |front| ==> front[..k] == vs[..k];
      assert vs[..|vs|] == vs && last in vs;
      assert before + front + [last] == before + vs;
      hide SourceClosed, Known, Visit, Doomed, SuccessorsOf;
      p := KnownOne(c, all, successors, d, before, p0, n, front);
      p := KnownNext(c, all, successors, After(d, front), before + front, p0, p, last);
    }
  }

  /** Looking at a whole order of visits, one dependent after the other. */
  lemma {:induction false} KnownAll(c: set<Name>, all: set<Name>, successors: map<Name, set<Name>>, start: seq<Name>,
                                    names: seq<Name>, vs: seq<(Name, Name)>) returns (p: seq<Name>)
    requires SourceClosed(c, all, successors) && c != {} && c <= all
    requires Distinct(start) && ToSet(start) == all && Distinct(names) && ToSet(names) <= all
    requires VisitOrder(names, successors, vs)
    requires forall k :: 0 <= k <= |vs| ==> Doomed(c, Visits(start, vs[..k]))
    ensures ToSet(p) <= ToSet(names) && Known(c, all, successors, Visits(start, vs), vs, p)
  {
    hide *;
    if |names| == 0 {
      p := [];
      NoVisitsMade(names, successors, vs);
      KnownAtStart(c, all, successors, start);
    } else {
      var front, n := names[..|names| - 1], names[|names| - 1];
      var k := LastDependent(all, names, successors, vs);
      var before, last := vs[..k], vs[k..];
      DoomedParts(c, start, vs, k);
      var p0 := KnownAll(c, all, successors, start, front, before);
      NotedVisited(front, successors, before, p0, n);
      p := KnownOne(c, all, successors, Visits(start, before), before, p0, n, last);
      VisitsRejoined(start, before, last);
      GrownWithin(names, p0, p);
    }
  }

  lemma NoVisitsMade(names: seq<Name>, successors: map<Name, set<Name>>, vs: seq<(Name, Name)>)
    requires |names| == 0 && VisitOrder(names, successors, vs)
    ensures vs == []
  {
  }

  /** An order of visits, up to the last dependent and from there. */
  lemma LastDependent(all: set<Name>, names: seq<Name>, successors: map<Name, set<Name>>, vs: seq<(Name, Name)>)
      returns (k: nat)
    requires VisitOrder(names, successors, vs) && |names| > 0 && Distinct(names) && ToSet(names) <= all
    ensures k <= |vs| && vs[..k] + vs[k..] == vs
    ensures var front, n := names[..|names| - 1], names[|names| - 1];
            && VisitOrder(front, successors, vs[..k]) && Distinct(front) && ToSet(front) <= all
            && n in all && n !in front
            && (forall v :: v in vs[..k] <==> Linking(front, successors, v))
            && (forall v :: v in vs[k..] ==> v.0 == n && v.1 in SuccessorsOf(successors, n))
  {
    hide Enumerates, SuccessorsOf, Linking;
    k := VisitOrderLast(names, successors, vs);
    hide VisitOrder;
    var front, n := names[..|names| - 1], names[|names| - 1];
    assert front + [n] == names;
    DistinctParts(front, [n]);
    OrderCovers(front, successors, vs[..k]);
    TargetsAre(vs[k..], n, SuccessorsOf(successors, n));
    assert n in ToSet(names) && ToSet(front) <= ToSet(names);
  }

  lemma VisitsRejoined(start: seq<Name>, before: seq<(Name, Name)>, last: seq<(Name, Name)>)
    ensures Visits(start, before + last) == After(Visits(start, before), last)
  {
    AfterConcat(Delays(start, {}), before, last);
    hide After;
  }

  lemma GrownWithin(names: seq<Name>, p0: seq<Name>, p: seq<Name>)
    requires |names| > 0 && ToSet(p0) <= ToSet(names[..|names| - 1]) && Grown(p0, p, names[|names| - 1])
    ensures ToSet(p) <= ToSet(names)
  {
    forall x | x in ToSet(p) ensures x in ToSet(names) {
      assert x in p0 ==> x in ToSet(p0);
    }
  }

  lemma KnownAtStart(c: set<Name>, all: set<Name>, successors: map<Name, set<Name>>, start: seq<Name>)
    requires Distinct(start) && ToSet(start) == all && c != {} && c <= all
    ensures Known(c, all, successors, Visits(start, []), [], [])
  {
    assert forall x :: x in start <==> x in ToSet(start);
    var x :| x in c;
    assert !Gone(c, Delays(start, {}));
  }

  lemma DoomedParts(c: set<Name>, start: seq<Name>, vs: seq<(Name, Name)>, k: nat)
    requires k <= |vs| && forall j :: 0 <= j <= |vs| ==> Doomed(c, Visits(start, vs[..j]))
    ensures forall j :: 0 <= j <= k ==> Doomed(c, Visits(start, vs[..k][..j]))
    ensures forall j :: 0 <= j <= |vs| - k ==> Doomed(c, After(Visits(start, vs[..k]), vs[k..][..j]))
  {
    hide Doomed, After;
    forall j | 0 <= j <= k ensures Doomed(c, Visits(start, vs[..k][..j])) {
      assert vs[..k][..j] == vs[..j];
    }
    forall j | 0 <= j <= |vs| - k ensures Doomed(c, After(Visits(start, vs[..k]), vs[k..][..j])) {
      AfterConcat(Delays(start, {}), vs[..k], vs[k..][..j]);
      assert vs[..k] + vs[k..][..j] == vs[..k + j];
    }
  }

  lemma NotedVisited(names: seq<Name>, successors: map<Name, set<Name>>, vs: seq<(Name, Name)>, p: seq<Name>, n: Name)
    requires ToSet(p) <= ToSet(names) && n !in names
    requires forall v :: v in vs <==> Linking(names, successors, v)
    ensures n !in p
    ensures forall i, s :: 0 <= i < |p| && s in SuccessorsOf(successors, p[i]) ==> (p[i], s) in vs
  {
    hide SuccessorsOf;
    forall x | x in p ensures x in names {
      assert x in ToSet(p);
    }
    forall i, s | 0 <= i < |p| && s in SuccessorsOf(successors, p[i]) ensures (p[i], s) in vs {
      assert Linking(names, successors, (p[i], s));
    }
  }

  /** A loss shows who is lost, and how. */
  lemma LossExplained(all: set<Name>, successors: map<Name, set<Name>>, names: seq<Name>, vs: seq<(Name, Name)>)
    requires Order(all, successors, names, vs)
    requires !Generated(all, successors, ToSet(Visits(names, vs).dependents))
    ensures CanLose(all, successors)
  {
    var c := Lost(all, successors, names, vs);
    DoomedThroughout(c, names, vs);
    hide VisitOrder, Visits, SourceClosed, Doomed, Clears, Outlasts, Distinct, Order, Generated;
    OrderIs(all, successors, names, vs);
    var p := KnownAll(c, all, successors, names, names, vs);
    ClearedBy(c, all, successors, Visits(names, vs), vs, p);
    var z :| Outlasts(c, all, successors, p, z);
    assert Losing(c, all, successors, p, z);
  }

  lemma OrderIs(all: set<Name>, successors: map<Name, set<Name>>, names: seq<Name>, vs: seq<(Name, Name)>)
    requires Order(all, successors, names, vs)
    ensures Distinct(names) && ToSet(names) == all && VisitOrder(names, successors, vs)
  {
  }

  lemma ClearedBy(c: set<Name>, all: set<Name>, successors: map<Name, set<Name>>, d: Delays, vs: seq<(Name, Name)>,
                  p: seq<Name>)
    requires Known(c, all, successors, d, vs, p) && Gone(c, d)
    ensures Clears(c, successors, p) && exists z :: Outlasts(c, all, successors, p, z)
  {
    hide Outlasts, Entered, Hit, Spent;
  }

  /** What survivors do not lead to. */
  lemma Lost(all: set<Name>, successors: map<Name, set<Name>>, names: seq<Name>, vs: seq<(Name, Name)>)
      returns (c: set<Name>)
    requires Order(all, successors, names, vs)
    requires !Generated(all, successors, ToSet(Visits(names, vs).dependents))
    ensures c != {} && c <= all && SourceClosed(c, all, successors) && Gone(c, Visits(names, vs))
  {
    hide VisitOrder, Visits, Distinct, SuccessorsOf;
    var survivors := ToSet(Visits(names, vs).dependents);
    var t: set<Name> :| survivors <= t && Follows(t, all, successors) && !(all <= t);
    c := all - t;
    var y :| y in all && y !in t;
    assert y in c;
    forall n, s | Feeds(all, successors, n, s) && s in c ensures n in c {
    }
    forall x | x in c ensures x !in Visits(names, vs).dependents {
      assert x in Visits(names, vs).dependents ==> x in survivors;
    }
  }

  lemma DoomedThroughout(c: set<Name>, names: seq<Name>, vs: seq<(Name, Name)>)
    requires Gone(c, Visits(names, vs))
    ensures forall k :: 0 <= k <= |vs| ==> Doomed(c, Visits(names, vs[..k]))
  {
    hide After;
    forall k, x | 0 <= k <= |vs| && x in c && x in Visits(names, vs[..k]).dependents
      ensures x !in Visits(names, vs[..k]).selected
    {
      assert vs[..k] + vs[k..] == vs;
      AfterConcat(Delays(names, {}), vs[..k], vs[k..]);
      AfterPersists(Visits(names, vs[..k]), vs[k..], x);
    }
  }

  // And every such constellation is lost in some order

  /** The first `j` of `p` have done their work: what they link to in `c` is removed, and nothing
      in `c` is there to stay, but `z` is there. */
  ghost predicate Cleared(c: set<Name>, all: set<Name>, successors: map<Name, set<Name>>, p: seq<Name>, z: Name,
                          j: nat, d: Delays)
    requires j <= |p|
  {
    && z in d.dependents && Doomed(c, d) && (Holds(c, all, successors, z) ==> z in d.selected)
    && forall i, x :: 0 <= i < j && x in c && x in SuccessorsOf(successors, p[i]) ==> x !in d.dependents
  }

  /** A removed member of `c` removes whatever it visits, as long as `z` is there. */
  lemma {:induction false} ClearVisits(c: set<Name>, z: Name, d: Delays, v: Name, xs: seq<Name>)
    requires v !in d.dependents && z in d.dependents && z !in c && Doomed(c, d)
    requires z !in xs || z in d.selected
    ensures var after := After(d, Pairs(v, xs));
            && v !in after.dependents && z in after.dependents && Doomed(c, after)
            && (forall x :: x in xs && x in c ==> x !in after.dependents)
  {
    if |xs| > 0 {
      var front, x := xs[..|xs| - 1], xs[|xs| - 1];
      ClearVisits(c, z, d, v, front);
      assert Pairs(v, xs) == Pairs(v, front) + [(v, x)];
      AfterNext(d, Pairs(v, front), (v, x));
      AfterPersists(d, Pairs(v, front), z);
      assert forall y :: y in xs <==> y in front || y == x;
      ClearVisit(c, z, After(d, Pairs(v, front)), v, x);
      hide After, Doomed;
    }
  }

  lemma ClearVisit(c: set<Name>, z: Name, d: Delays, v: Name, x: Name)
    requires v !in d.dependents && z in d.dependents && z !in c && Doomed(c, d)
    requires z != x || z in d.selected
    ensures var after := Visit(d, (v, x));
            && v !in after.dependents && z in after.dependents && Doomed(c, after)
            && (x in c ==> x !in after.dependents)
            && forall y :: y in after.dependents ==> y in d.dependents
  {
    if x in d.dependents && x !in d.selected {
      TwoMembers(d.dependents, x, z);
    }
  }

  function Itself(v: Name, succ: set<Name>): seq<Name> {
    if v in succ then [v] else []
  }

  /** The successors of a member of `c`: itself first, then members of `c`, then others. */
  lemma MembersFirst(c: set<Name>, v: Name, succ: set<Name>) returns (xs: seq<Name>, ys: seq<Name>)
    requires v in c
    ensures Distinct(Itself(v, succ) + xs + ys) && ToSet(Itself(v, succ) + xs + ys) == succ
    ensures (forall x :: x in xs <==> x in succ * c - {v}) && forall y :: y in ys <==> y in succ - c
  {
    xs, ys := Listing(succ * c - {v}), Listing(succ - c);
    assert forall x :: x in xs <==> x in ToSet(xs);
    assert forall y :: y in ys <==> y in ToSet(ys);
    hide Listing;
    DistinctConcat(Itself(v, succ), xs);
    DistinctConcat(Itself(v, succ) + xs, ys);
    assert ToSet(Itself(v, succ) + xs + ys) == succ;
  }

  lemma PairsConcat(v: Name, a: seq<Name>, b: seq<Name>)
    ensures Pairs(v, a + b) == Pairs(v, a) + Pairs(v, b)
  {
  }

  /** Once a member of `p` has visited itself, if it does, it is gone. */
  lemma SelfGone(c: set<Name>, all: set<Name>, successors: map<Name, set<Name>>, p: seq<Name>, z: Name, j: nat,
                 d: Delays)
    requires j < |p| && p[j] in c && Entered(p, successors, j) && z !in c && Cleared(c, all, successors, p, z, j, d)
    ensures var after := After(d, Pairs(p[j], Itself(p[j], SuccessorsOf(successors, p[j]))));
            p[j] !in after.dependents && Cleared(c, all, successors, p, z, j, after)
  {
    var v, succ := p[j], SuccessorsOf(successors, p[j]);
    if v in succ {
      assert Pairs(v, Itself(v, succ)) == [] + [(v, v)];
      AfterNext(d, [], (v, v));
      AfterNone(d);
      if v in d.dependents {
        TwoMembers(d.dependents, v, z);
      }
    } else {
      assert Pairs(v, Itself(v, succ)) == [];
      AfterNone(d);
      var i :| 0 <= i < j && v in SuccessorsOf(successors, p[i]);
    }
  }

  /** All visits of one member of `p`, in such an order. */
  lemma ClearOne(c: set<Name>, all: set<Name>, successors: map<Name, set<Name>>, p: seq<Name>, z: Name, j: nat,
                 d: Delays)
      returns (vs: seq<(Name, Name)>)
    requires Losing(c, all, successors, p, z) && j < |p| && Cleared(c, all, successors, p, z, j, d)
    ensures Enumerates(vs, p[j], SuccessorsOf(successors, p[j]))
    ensures Holds(c, all, successors, z) || j + 1 < |p| ==> Cleared(c, all, successors, p, z, j + 1, After(d, vs))
    ensures j + 1 == |p| ==> Gone(c, After(d, vs))
  {
    LosingMember(c, all, successors, p, z, j);
    hide Losing, Cleared, Enumerates, After, Doomed, Holds, Entered, Hit, SuccessorsOf;
    var v, succ := p[j], SuccessorsOf(successors, p[j]);
    var xs, ys := MembersFirst(c, v, succ);
    var self := Itself(v, succ);
    vs := Pairs(v, self + xs + ys);
    PairsEnumerate(v, self + xs + ys);
    PairsConcat(v, self + xs, ys);
    PairsConcat(v, self, xs);
    SelfGone(c, all, successors, p, z, j, d);
    var d1 := After(d, Pairs(v, self));
    var d2 := After(d1, Pairs(v, xs));
    AfterConcat(d, Pairs(v, self), Pairs(v, xs));
    AfterConcat(d, Pairs(v, self) + Pairs(v, xs), Pairs(v, ys));
    MembersGone(c, all, successors, p, z, j, d1, xs);
    if Holds(c, all, successors, z) || j + 1 < |p| {
      OthersVisited(c, all, successors, p, z, j, d2, ys);
    }
    if j + 1 == |p| {
      GoneStays(c, d2, Pairs(v, ys));
    }
  }

  lemma LosingMember(c: set<Name>, all: set<Name>, successors: map<Name, set<Name>>, p: seq<Name>, z: Name, j: nat)
    requires Losing(c, all, successors, p, z) && j < |p|
    ensures p[j] in c && Entered(p, successors, j) && z !in c
  {
    hide SourceClosed, Distinct, Hit;
  }

  lemma GoneStays(c: set<Name>, d: Delays, vs: seq<(Name, Name)>)
    requires Gone(c, d)
    ensures Gone(c, After(d, vs))
  {
    forall x | x in c ensures x !in After(d, vs).dependents {
      AfterPersists(d, vs, x);
    }
  }

  lemma MembersGone(c: set<Name>, all: set<Name>, successors: map<Name, set<Name>>, p: seq<Name>, z: Name, j: nat,
                    d: Delays, xs: seq<Name>)
    requires Losing(c, all, successors, p, z) && j < |p| && Cleared(c, all, successors, p, z, j, d)
    requires p[j] !in d.dependents && forall x :: x in xs <==> x in SuccessorsOf(successors, p[j]) * c - {p[j]}
    ensures var after := After(d, Pairs(p[j], xs));
            && Cleared(c, all, successors, p, z, j + 1, after) && p[j] !in after.dependents
            && (j + 1 == |p| ==> Gone(c, after))
  {
    hide Losing, After, Doomed, Holds, Entered, Pairs, Gone, SuccessorsOf;
    LosingMember(c, all, successors, p, z, j);
    var vs := Pairs(p[j], xs);
    ClearVisits(c, z, d, p[j], xs);
    AfterPersists(d, vs, z);
    forall i, x | 0 <= i < j + 1 && x in c && x in SuccessorsOf(successors, p[i])
      ensures x !in After(d, vs).dependents
    {
      AfterPersists(d, vs, x);
      assert i == j && x != p[j] ==> x in xs;
    }
    if j + 1 == |p| {
      AllHit(c, all, successors, p, z, After(d, vs));
    }
  }

  lemma AllHit(c: set<Name>, all: set<Name>, successors: map<Name, set<Name>>, p: seq<Name>, z: Name, d: Delays)
    requires Losing(c, all, successors, p, z)
    requires forall i, x :: 0 <= i < |p| && x in c && x in SuccessorsOf(successors, p[i]) ==> x !in d.dependents
    ensures Gone(c, d)
  {
    hide SourceClosed, Distinct, SuccessorsOf, Outlasts, Entered;
    forall x | x in c ensures x !in d.dependents {
      assert Hit(p, successors, x);
    }
  }

  lemma OthersVisited(c: set<Name>, all: set<Name>, successors: map<Name, set<Name>>, p: seq<Name>, z: Name, j: nat,
                      d: Delays, ys: seq<Name>)
    requires Losing(c, all, successors, p, z) && j < |p| && Cleared(c, all, successors, p, z, j + 1, d)
    requires p[j] !in d.dependents && forall y :: y in ys <==> y in SuccessorsOf(successors, p[j]) - c
    requires Holds(c, all, successors, z) || j + 1 < |p|
    ensures Cleared(c, all, successors, p, z, j + 1, After(d, Pairs(p[j], ys)))
  {
    LosingMember(c, all, successors, p, z, j);
    var vs := Pairs(p[j], ys);
    assert z !in ys || z in d.selected by {
      hide Clears, SourceClosed, Holds;
    }
    ClearVisits(c, z, d, p[j], ys);
    AfterPersists(d, vs, z);
    hide Losing, After, Doomed, Holds, Entered, Pairs;
    forall i, x | 0 <= i < j + 1 && x in c && x in SuccessorsOf(successors, p[i])
      ensures x !in After(d, vs).dependents
    {
      AfterPersists(d, vs, x);
    }
  }

  /** `z` first, where it feeds another one. */
  function First(z: Name, held: bool): seq<Name> {
    if held then [z] else []
  }

  lemma ClearStart(c: set<Name>, all: set<Name>, successors: map<Name, set<Name>>, p: seq<Name>, z: Name,
                   names: seq<Name>) returns (vs: seq<(Name, Name)>)
    requires z !in c && z in names && ToSet(names) == all
    ensures VisitOrder(First(z, Holds(c, all, successors, z)), successors, vs)
    ensures Cleared(c, all, successors, p, z, 0, Visits(names, vs))
  {
    if Holds(c, all, successors, z) {
      var w :| w !in c && w != z && Feeds(all, successors, z, w);
      hide VisitOrder, After, SuccessorsOf;
      vs := FirstOne(successors, z, w);
      assert w in ToSet(names);
      FirstPersists(names, vs, z, w);
      OrderCovers([z], successors, vs);
      assert forall v :: v in vs ==> Linking([z], successors, v);
      SelectedBy(Delays(names, {}), vs, z);
      assert w !in Visits(names, vs).dependents && w in names;
      assert z in Visits(names, vs).selected by { SelectedWhenRemoved(Delays(names, {}), vs, z, w); }
    } else {
      vs := [];
      NoVisits([], successors);
    }
  }

  lemma {:induction false} SelectedBy(d: Delays, vs: seq<(Name, Name)>, z: Name)
    requires forall v :: v in vs ==> v.0 == z
    ensures After(d, vs).selected <= d.selected + {z}
  {
    if |vs| > 0 {
      assert vs[|vs| - 1] in vs;
      SelectedBy(d, vs[..|vs| - 1], z);
    }
  }

  lemma {:induction false} SelectedWhenRemoved(d: Delays, vs: seq<(Name, Name)>, z: Name, w: Name)
    requires (forall v :: v in vs ==> v.0 == z) && w in d.dependents && w !in After(d, vs).dependents
    ensures z in After(d, vs).selected
  {
    if |vs| > 0 {
      assert vs[|vs| - 1] in vs;
      if w !in After(d, vs[..|vs| - 1]).dependents {
        SelectedWhenRemoved(d, vs[..|vs| - 1], z, w);
      }
    }
  }

  /** The visits of `z`, where it feeds another one, and then of the first `j` of `p`. */
  lemma {:induction false} ClearMany(c: set<Name>, all: set<Name>, successors: map<Name, set<Name>>, p: seq<Name>,
                                     z: Name, names: seq<Name>, j: nat) returns (vs: seq<(Name, Name)>)
    requires Losing(c, all, successors, p, z) && j <= |p| && z !in c && z in names && ToSet(names) == all && p != []
    ensures VisitOrder(First(z, Holds(c, all, successors, z)) + p[..j], successors, vs)
    ensures Holds(c, all, successors, z) || j < |p| ==> Cleared(c, all, successors, p, z, j, Visits(names, vs))
    ensures j == |p| ==> Gone(c, Visits(names, vs))
  {
    hide Losing, Cleared, VisitOrder, Enumerates, After, Holds, SuccessorsOf, Gone;
    var q := First(z, Holds(c, all, successors, z));
    if j == 0 {
      vs := ClearStart(c, all, successors, p, z, names);
      assert q + p[..0] == q;
    } else {
      var before := ClearMany(c, all, successors, p, z, names, j - 1);
      var last := ClearOne(c, all, successors, p, z, j - 1, Visits(names, before));
      VisitOrderMore(q + p[..j - 1], p[j - 1], successors, before, last);
      assert q + p[..j - 1] + [p[j - 1]] == q + p[..j];
      AfterConcat(Delays(names, {}), before, last);
      vs := before + last;
    }
  }

  /** Such an order exists. */
  lemma LossHappens(c: set<Name>, all: set<Name>, successors: map<Name, set<Name>>, p: seq<Name>, z: Name)
      returns (names: seq<Name>, vs: seq<(Name, Name)>)
    requires Losing(c, all, successors, p, z)
    ensures Order(all, successors, names, vs) && Gone(c, Visits(names, vs))
  {
    hide *;
    var q := First(z, Holds(c, all, successors, z));
    var more := LosingOrder(c, all, successors, p, z);
    names := q + p + more;
    var before := ClearMany(c, all, successors, p, z, names, |p|);
    assert p[..|p|] == p;
    var rest := OrderContinues(q + p, more, successors, before);
    vs := before + rest;
    AfterConcat(Delays(names, {}), before, rest);
    GoneAtEnd(c, names, before, rest);
    OrderMade(all, successors, names, vs);
  }

  lemma GoneAtEnd(c: set<Name>, names: seq<Name>, before: seq<(Name, Name)>, rest: seq<(Name, Name)>)
    requires Gone(c, Visits(names, before))
    ensures Gone(c, Visits(names, before + rest))
  {
    hide Gone, After;
    AfterConcat(Delays(names, {}), before, rest);
    GoneStays(c, Visits(names, before), rest);
  }

  lemma OrderMade(all: set<Name>, successors: map<Name, set<Name>>, names: seq<Name>, vs: seq<(Name, Name)>)
    requires Distinct(names) && ToSet(names) == all && VisitOrder(names, successors, vs)
    ensures Order(all, successors, names, vs)
  {
  }

  lemma LosingOrder(c: set<Name>, all: set<Name>, successors: map<Name, set<Name>>, p: seq<Name>, z: Name)
      returns (more: seq<Name>)
    requires Losing(c, all, successors, p, z)
    ensures var names := First(z, Holds(c, all, successors, z)) + p + more;
            Distinct(names) && ToSet(names) == all && z in names && z !in c && p != []
  {
    LosingParts(c, all, successors, p, z);
    hide Losing, Holds, SuccessorsOf;
    var q := First(z, Holds(c, all, successors, z));
    more := Listing(all - ToSet(q + p));
    DistinctConcat(q, p);
    Joined(all, q + p, more);
    assert z in ToSet(q + p + more);
  }

  lemma LosingParts(c: set<Name>, all: set<Name>, successors: map<Name, set<Name>>, p: seq<Name>, z: Name)
    requires Losing(c, all, successors, p, z)
    ensures Distinct(p) && p != [] && z in all && z !in c && c <= all && forall x :: x in p ==> x in c
  {
    hide Holds, Entered, SourceClosed, SuccessorsOf;
    var y :| y in c;
    assert Hit(p, successors, y);
  }

  lemma Joined(all: set<Name>, a: seq<Name>, b: seq<Name>)
    requires Distinct(a) && Distinct(b) && ToSet(b) == all - ToSet(a) && forall x :: x in a ==> x in all
    ensures Distinct(a + b) && ToSet(a + b) == all
  {
    assert forall x :: x in a <==> x in ToSet(a);
    assert forall x :: x in b <==> x in ToSet(b);
    hide Distinct;
    DistinctConcat(a, b);
    assert forall x :: x in a + b <==> x in a || x in b;
  }

  lemma GoneIsLost(c: set<Name>, all: set<Name>, successors: map<Name, set<Name>>, names: seq<Name>,
                   vs: seq<(Name, Name)>)
    requires Order(all, successors, names, vs) && Gone(c, Visits(names, vs))
    requires c != {} && c <= all && SourceClosed(c, all, successors)
    ensures !Generated(all, successors, ToSet(Visits(names, vs).dependents))
  {
    OrderVisits(all, successors, names, vs);
    assert forall x :: x in names <==> x in ToSet(names);
    hide VisitOrder, SuccessorsOf;
    AfterLoose(names, Delays(names, {}), vs);
    hide After, Distinct;
    var t := all - c;
    assert ToSet(Visits(names, vs).dependents) <= t;
    assert Follows(t, all, successors) by {
      forall n, s | n in t && s in all && s in SuccessorsOf(successors, n) ensures s in t {
        assert Feeds(all, successors, n, s);
      }
    }
    var y :| y in c;
    assert y in all && y !in t;
  }

  /** Some order of visits loses an app exactly when there are apps fed by none but themselves
      that can be cleared while another dependent outlasts them. */
  lemma LossExactly(all: set<Name>, successors: map<Name, set<Name>>)
    ensures (exists names, vs :: Order(all, successors, names, vs)
                                 && !Generated(all, successors, ToSet(Visits(names, vs).dependents)))
            <==> CanLose(all, successors)
  {
    hide Order, Visits, Generated, Clears, Outlasts, SourceClosed, ToSet;
    if CanLose(all, successors) {
      var c, p, z :| Losing(c, all, successors, p, z);
      var names, vs := LossHappens(c, all, successors, p, z);
      GoneIsLost(c, all, successors, names, vs);
    }
    forall names, vs | Order(all, successors, names, vs)
                       && !Generated(all, successors, ToSet(Visits(names, vs).dependents))
      ensures CanLose(all, successors)
    {
      LossExplained(all, successors, names, vs);
    }
  }
}
