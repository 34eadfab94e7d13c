/** The delay step of `compute_breathe_order` in `rush/src/engine.rs`: one round takes apps off
    its list that are fed by others on it. Hash sets are iterated in an arbitrary order. */
module DelaySteps {

  type Name = string

  predicate Distinct(s: seq<Name>) {
    s == [] || (s[0] !in s[1..] && Distinct(s[1..]))
  }

  function ToSet(s: seq<Name>): set<Name> {
    set x | x in s
  }

  function Without(s: seq<Name>, x: Name): (r: seq<Name>)
    ensures forall y :: y in r <==> y in s && y != x
  {
    if s == [] then []
    else if s[0] == x then Without(s[1..], x) else [s[0]] + Without(s[1..], x)
  }

  lemma {:induction false} WithoutDistinct(s: seq<Name>, x: Name)
    requires Distinct(s)
    ensures Distinct(Without(s, x))
    ensures |Without(s, x)| == |s| - (if x in s then 1 else 0)
  {
    if s != [] {
      WithoutDistinct(s[1..], x);
      if s[0] != x {
        assert Without(s, x)[1..] == Without(s[1..], x);
      }
    }
  }

  lemma {:induction false} DistinctConcat(a: seq<Name>, b: seq<Name>)
    requires Distinct(a) && Distinct(b)
    requires forall x :: x in a ==> x !in b
    ensures Distinct(a + b)
  {
    if a == [] {
      assert a + b == b;
    } else {
      DistinctConcat(a[1..], b);
      assert (a + b)[1..] == a[1..] + b;
    }
  }

  lemma {:induction false} DistinctParts(a: seq<Name>, b: seq<Name>)
    requires Distinct(a + b)
    ensures Distinct(a) && Distinct(b) && forall x :: x in a ==> x !in b
  {
    if a == [] {
      assert a + b == b;
    } else {
      assert (a + b)[1..] == a[1..] + b;
      DistinctParts(a[1..], b);
    }
  }

  lemma {:induction false} DistinctSize(s: seq<Name>)
    requires Distinct(s)
    ensures |ToSet(s)| == |s|
  {
    if s != [] {
      DistinctSize(s[1..]);
      assert ToSet(s) == {s[0]} + ToSet(s[1..]);
    }
  }

  /** A list of a set, in some order. */
  ghost function Listing(s: set<Name>): (r: seq<Name>)
    ensures Distinct(r) && ToSet(r) == s
  {
    if s == {} then []
    else
      var x :| x in s;
      var r := [x] + Listing(s - {x});
      assert r[1..] == Listing(s - {x}) && ToSet(r) == {x} + ToSet(r[1..]);
      r
  }

  // Visits

  /** The round's two mutable collections. */
  datatype Delays = Delays(dependents: seq<Name>, selected: set<Name>)

  /** The body of the two inner loops, for a dependent `v.0` and one of its successors `v.1`. */
  function Visit(d: Delays, v: (Name, Name)): Delays {
    if v.1 !in d.selected && v.1 in d.dependents && |d.dependents| > 1
    then Delays(Without(d.dependents, v.1), d.selected + {v.0})
    else d
  }

  function After(d: Delays, vs: seq<(Name, Name)>): Delays {
    if |vs| == 0 then d else Visit(After(d, vs[..|vs| - 1]), vs[|vs| - 1])
  }

  function Visits(names: seq<Name>, vs: seq<(Name, Name)>): Delays {
    After(Delays(names, {}), vs)
  }

  lemma AfterNext(d: Delays, vs: seq<(Name, Name)>, v: (Name, Name))
    ensures After(d, vs + [v]) == Visit(After(d, vs), v)
  {
    assert (vs + [v])[..|vs|] == vs;
  }

  lemma {:induction false} AfterConcat(d: Delays, a: seq<(Name, Name)>, b: seq<(Name, Name)>)
    ensures After(d, a + b) == After(After(d, a), b)
  {
    if b == [] {
      assert a + b == a;
    } else {
      AfterConcat(d, a, b[..|b| - 1]);
      assert (a + b)[..|a + b| - 1] == a + b[..|b| - 1];
    }
  }

  /** What a round keeps whatever the links. */
  ghost predicate Loose(start: seq<Name>, d: Delays) {
    && Distinct(d.dependents) && (start != [] ==> d.dependents != [])
    && ToSet(d.dependents) <= ToSet(start) && d.selected <= ToSet(start)
  }

  lemma VisitLoose(start: seq<Name>, d: Delays, v: (Name, Name))
    requires Loose(start, d) && v.0 in start
    ensures Loose(start, Visit(d, v))
  {
    WithoutDistinct(d.dependents, v.1);
  }

  lemma {:induction false} AfterLoose(start: seq<Name>, d: Delays, vs: seq<(Name, Name)>)
    requires Loose(start, d) && forall v :: v in vs ==> v.0 in start
    ensures Loose(start, After(d, vs))
  {
    if |vs| > 0 {
      AfterLoose(start, d, vs[..|vs| - 1]);
      VisitLoose(start, After(d, vs[..|vs| - 1]), vs[|vs| - 1]);
      hide Loose, Visit;
    }
  }

  /** A removed app stays removed, and a selected one that is still there stays there. */
  lemma {:induction false} AfterPersists(d: Delays, vs: seq<(Name, Name)>, x: Name)
    ensures x !in d.dependents ==> x !in After(d, vs).dependents
    ensures x in d.selected ==> x in After(d, vs).selected
    ensures x in d.selected && x in d.dependents ==> x in After(d, vs).dependents
  {
    if |vs| > 0 {
      AfterPersists(d, vs[..|vs| - 1], x);
    }
  }

  // Orders of visits

  /** `vs` runs over the successors of `n`, each once, in some order. */
  ghost predicate Enumerates(vs: seq<(Name, Name)>, n: Name, succ: set<Name>) {
    && |vs| == |succ|
    && (forall i :: 0 <= i < |vs| ==> vs[i].0 == n && vs[i].1 in succ)
    && (forall s :: s in succ ==> (n, s) in vs)
  }

  function SuccessorsOf(successors: map<Name, set<Name>>, n: Name): set<Name> {
    if n in successors then successors[n] else {}
  }

  /** `vs` is an order in which the round may visit the dependents and their successors. */
  ghost predicate VisitOrder(names: seq<Name>, successors: map<Name, set<Name>>, vs: seq<(Name, Name)>) {
    if |names| == 0 then vs == []
    else
      exists k :: 0 <= k <= |vs|
        && VisitOrder(names[..|names| - 1], successors, vs[..k])
        && Enumerates(vs[k..], names[|names| - 1], SuccessorsOf(successors, names[|names| - 1]))
  }

  /** An order in which a round may visit a set of dependents: any order of the dependents, and
      any order of the successors of each. */
  ghost predicate Order(all: set<Name>, successors: map<Name, set<Name>>, names: seq<Name>, vs: seq<(Name, Name)>) {
    Distinct(names) && ToSet(names) == all && VisitOrder(names, successors, vs)
  }

  lemma VisitOrderMore(names: seq<Name>, n: Name, successors: map<Name, set<Name>>,
                       before: seq<(Name, Name)>, vs: seq<(Name, Name)>)
    requires VisitOrder(names, successors, before) && Enumerates(vs, n, SuccessorsOf(successors, n))
    ensures VisitOrder(names + [n], successors, before + vs)
  {
    var k, all := |before|, before + vs;
    assert (names + [n])[..|names|] == names;
    assert all[..k] == before && all[k..] == vs;
  }

  lemma Rejoined<T>(s: seq<T>, k: nat)
    requires k <= |s|
    ensures s[..k] + s[k..] == s
  {
  }

  /** The last dependent's visits in an order. */
  lemma VisitOrderLast(names: seq<Name>, successors: map<Name, set<Name>>, vs: seq<(Name, Name)>) returns (k: nat)
    requires VisitOrder(names, successors, vs) && |names| > 0
    ensures k <= |vs| && vs[..k] + vs[k..] == vs
    ensures VisitOrder(names[..|names| - 1], successors, vs[..k])
    ensures Enumerates(vs[k..], names[|names| - 1], SuccessorsOf(successors, names[|names| - 1]))
  {
    hide Enumerates, SuccessorsOf;
    k :| 0 <= k <= |vs| && VisitOrder(names[..|names| - 1], successors, vs[..k])
         && Enumerates(vs[k..], names[|names| - 1], SuccessorsOf(successors, names[|names| - 1]));
    hide VisitOrder;
    Rejoined(vs, k);
  }

  ghost predicate Linking(names: seq<Name>, successors: map<Name, set<Name>>, v: (Name, Name)) {
    v.0 in names && v.1 in SuccessorsOf(successors, v.0)
  }

  /** An order visits exactly the links of its dependents. */
  lemma {:induction false} OrderCovers(names: seq<Name>, successors: map<Name, set<Name>>, vs: seq<(Name, Name)>)
    requires VisitOrder(names, successors, vs)
    ensures forall v :: v in vs <==> Linking(names, successors, v)
  {
    if |names| > 0 {
      var k := VisitOrderLast(names, successors, vs);
      var front, last := names[..|names| - 1], names[|names| - 1];
      OrderCovers(front, successors, vs[..k]);
      hide VisitOrder;
      assert names == front + [last];
      forall v
        ensures v in vs <==> Linking(names, successors, v)
      {
        assert v in vs <==> v in vs[..k] || v in vs[k..];
        assert v in vs[k..] <==> Linking([last], successors, v);
      }
    }
  }

  /** Successors as the visits of one dependent. */
  function Pairs(n: Name, ss: seq<Name>): (r: seq<(Name, Name)>)
    ensures |r| == |ss| && forall i :: 0 <= i < |ss| ==> r[i] == (n, ss[i])
  {
    seq(|ss|, i requires 0 <= i < |ss| => (n, ss[i]))
  }

  lemma PairsEnumerate(n: Name, ss: seq<Name>)
    requires Distinct(ss)
    ensures Enumerates(Pairs(n, ss), n, ToSet(ss))
  {
    DistinctSize(ss);
    forall s | s in ToSet(ss)
      ensures (n, s) in Pairs(n, ss)
    {
      var i :| 0 <= i < |ss| && ss[i] == s;
      assert Pairs(n, ss)[i] == (n, s);
    }
  }

  lemma OneMore(names: seq<Name>, n: Name, successors: map<Name, set<Name>>, vs: seq<(Name, Name)>)
      returns (more: seq<(Name, Name)>)
    requires VisitOrder(names, successors, vs)
    ensures VisitOrder(names + [n], successors, vs + more)
  {
    hide VisitOrder, Enumerates;
    var ss := Listing(SuccessorsOf(successors, n));
    more := Pairs(n, ss);
    PairsEnumerate(n, ss);
    VisitOrderMore(names, n, successors, vs, more);
  }

  /** An order of some dependents can be continued to any more of them. */
  lemma {:induction false} OrderContinues(names: seq<Name>, more: seq<Name>, successors: map<Name, set<Name>>,
                                          vs: seq<(Name, Name)>) returns (rest: seq<(Name, Name)>)
    requires VisitOrder(names, successors, vs)
    ensures VisitOrder(names + more, successors, vs + rest)
    decreases |more|
  {
    hide *;
    if |more| == 0 {
      rest := [];
      assert names + more == names && vs + rest == vs;
    } else {
      var next := OneMore(names, more[0], successors, vs);
      var last := OrderContinues(names + [more[0]], more[1..], successors, vs + next);
      assert names + [more[0]] + more[1..] == names + more;
      assert vs + next + last == vs + (next + last);
      rest := next + last;
    }
  }

  // What a round must not lose

  /** Survivors lead to all dependents: whatever contains the survivors and follows the links
      among the round's dependents contains them all. */
  ghost predicate Generated(all: set<Name>, successors: map<Name, set<Name>>, survivors: set<Name>) {
    forall t: set<Name> :: survivors <= t && Follows(t, all, successors) ==> all <= t
  }

  ghost predicate Follows(t: set<Name>, all: set<Name>, successors: map<Name, set<Name>>) {
    forall n, s :: n in t && s in all && s in SuccessorsOf(successors, n) ==> s in t
  }

  // The loops

  /** The successors of `n` visited so far, `rest` still to come. */
  ghost predicate Enumerating(vs: seq<(Name, Name)>, n: Name, succ: set<Name>, rest: set<Name>) {
    && rest <= succ && |vs| + |rest| == |succ|
    && (forall i :: 0 <= i < |vs| ==> vs[i].0 == n && vs[i].1 in succ)
    && (forall s :: s in succ ==> s in rest || (n, s) in vs)
  }

  lemma EnumerateOne(vs: seq<(Name, Name)>, n: Name, succ: set<Name>, rest: set<Name>, s: Name)
    requires Enumerating(vs, n, succ, rest) && s in rest
    ensures Enumerating(vs + [(n, s)], n, succ, rest - {s})
  {
    assert (vs + [(n, s)])[|vs|] == (n, s);
    forall x | x in succ
      ensures x in rest - {s} || (n, x) in vs + [(n, s)]
    {
    }
  }

  /** Delay dependents after their inputs, but keep at least one. */
  method Delay(names: seq<Name>, successors: map<Name, set<Name>>)
    returns (dependents: seq<Name>, ghost visits: seq<(Name, Name)>)
    ensures VisitOrder(names, successors, visits) && dependents == Visits(names, visits).dependents
  {
    hide *;
    var d := Delays(names, {});
    visits := [];
    var i := 0;
    NoVisits(names, successors);
    while i < |names|
      invariant 0 <= i <= |names|
      invariant d == Visits(names, visits) && VisitOrder(names[..i], successors, visits)
    {
      ghost var vs;
      d, vs := DelayOne(names[i], successors, d);
      DelayNext(names, i, successors, visits, vs);
      visits := visits + vs;
      i := i + 1;
    }
    assert names[..i] == names;
    dependents := d.dependents;
  }

  lemma DelayNext(names: seq<Name>, i: nat, successors: map<Name, set<Name>>,
                  visits: seq<(Name, Name)>, vs: seq<(Name, Name)>)
    requires i < |names| && VisitOrder(names[..i], successors, visits)
    requires Enumerates(vs, names[i], SuccessorsOf(successors, names[i]))
    ensures VisitOrder(names[..i + 1], successors, visits + vs)
    ensures Visits(names, visits + vs) == After(Visits(names, visits), vs)
  {
    hide VisitOrder, Enumerates, After;
    VisitOrderMore(names[..i], names[i], successors, visits, vs);
    AfterConcat(Delays(names, {}), visits, vs);
    assert names[..i] + [names[i]] == names[..i + 1];
  }

  lemma NoVisits(names: seq<Name>, successors: map<Name, set<Name>>)
    ensures VisitOrder(names[..0], successors, []) && Visits(names, []) == Delays(names, {})
  {
  }

  /** The inner loop: visit the successors of one dependent in any order. */
  method DelayOne(name: Name, successors: map<Name, set<Name>>, d0: Delays)
    returns (d: Delays, ghost vs: seq<(Name, Name)>)
    ensures d == After(d0, vs) && Enumerates(vs, name, SuccessorsOf(successors, name))
  {
    d := d0;
    vs := [];
    var rest := SuccessorsOf(successors, name);
    hide Visit;
    while rest != {}
      invariant Enumerating(vs, name, SuccessorsOf(successors, name), rest)
      invariant d == After(d0, vs)
      decreases rest
    {
      var s :| s in rest;
      AfterNext(d0, vs, (name, s));
      EnumerateOne(vs, name, SuccessorsOf(successors, name), rest, s);
      d := Visit(d, (name, s));
      vs := vs + [(name, s)];
      rest := rest - {s};
    }
  }
}
