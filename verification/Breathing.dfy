/** `breathe` of `rush/src/engine.rs`, and whole runs of the engine: breaths and reconfigurations,
    with every packet accounted for. Apps are arbitrary: what a pull or a push does to packets is a
    parameter, and may depend on everything. */
module Breathing {
  import opened Packets
  import opened Ownership

  /** What the pull or the push of each app does to packets, by its name and the state it meets. */
  type Program = (string, World) -> seq<Op>

  /** One call of an app. A packet that it leaves in hand is dropped, which is a panic. */
  function Call(w: World, ops: seq<Op>): (r: Result)
    requires Hand in w.places
    ensures r.Ok? ==> Hand in r.w.places && r.w.places[Hand] == []
  {
    match RunFrom(w, ops)
    case Failed(panic) => Failed(panic)
    case Ok(w') => if w'.places[Hand] != [] then Failed(Leak) else Ok(w')
  }

  /** Calls of some apps, in the order of a list. */
  function CallAll(w: World, names: seq<string>, program: Program): (r: Result)
    requires Hand in w.places
    ensures r.Ok? ==> Hand in r.w.places && (names != [] ==> r.w.places[Hand] == [])
  {
    if |names| == 0 then Ok(w)
    else
      match CallAll(w, names[..|names| - 1], program)
      case Failed(panic) => Failed(panic)
      case Ok(w') => Call(w', program(names[|names| - 1], w'))
  }

  /** A breath: the pulls of the inhalers, then the pushes of the exhalers. */
  function Breath(w: World, inhale: seq<string>, exhale: seq<string>, pull: Program, push: Program): (r: Result)
    requires Hand in w.places
    ensures r.Ok? ==> Hand in r.w.places
  {
    match CallAll(w, inhale, pull)
    case Failed(panic) => Failed(panic)
    case Ok(w') => CallAll(w', exhale, push)
  }

  /** `breathe`. */
  method Breathe(w: World, inhale: seq<string>, exhale: seq<string>, pull: Program, push: Program) returns (r: Result)
    requires Hand in w.places
    ensures r == Breath(w, inhale, exhale, pull, push)
  {
    r := CallEach(w, inhale, pull);
    if r.Ok? {
      r := CallEach(r.w, exhale, push);
    }
  }

  method CallEach(w: World, names: seq<string>, program: Program) returns (r: Result)
    requires Hand in w.places
    ensures r == CallAll(w, names, program)
  {
    hide Call;
    r := Ok(w);
    var k := 0;
    while k < |names| && r.Ok?
      invariant k <= |names| && r == CallAll(w, names[..k], program)
    {
      assert names[..k + 1][..k] == names[..k];
      r := Call(r.w, program(names[k], r.w));
      k := k + 1;
    }
    Stopped(w, names, k, program);
  }

  /** After a panic no more apps are called. */
  lemma {:induction false} Stopped(w: World, names: seq<string>, k: nat, program: Program)
    requires Hand in w.places && k <= |names|
    requires k == |names| || CallAll(w, names[..k], program).Failed?
    ensures CallAll(w, names, program) == CallAll(w, names[..k], program)
  {
    if k < |names| {
      var front := names[..|names| - 1];
      assert front[..k] == names[..k];
      Stopped(w, front, k, program);
    } else {
      assert names[..k] == names;
    }
  }

  // Ownership

  /** How a run may end: with every packet owned, or in another panic than the freelist's. */
  ghost predicate Accounted(r: Result) {
    match r
    case Ok(w) => Owned(w)
    case Failed(panic) => panic != FreelistOverflow
  }

  lemma {:induction false} CallAllOwned(w: World, names: seq<string>, program: Program)
    requires Owned(w)
    ensures Accounted(CallAll(w, names, program))
  {
    assert Hand in w.places;
    hide Owned, RunFrom;
    if |names| > 0 {
      CallAllOwned(w, names[..|names| - 1], program);
      var before := CallAll(w, names[..|names| - 1], program);
      if before.Ok? {
        RunOwned(before.w, program(names[|names| - 1], before.w));
      }
    }
  }

  /** A breath keeps every packet in exactly one place, whatever the apps do and in whatever order
      they are called. */
  lemma BreathOwned(w: World, inhale: seq<string>, exhale: seq<string>, pull: Program, push: Program)
    requires Owned(w)
    ensures Accounted(Breath(w, inhale, exhale, pull, push))
  {
    assert Hand in w.places;
    hide Owned, CallAll;
    CallAllOwned(w, inhale, pull);
    var between := CallAll(w, inhale, pull);
    if between.Ok? {
      CallAllOwned(between.w, exhale, push);
    }
  }

  // Whole runs

  /** A breath, or a reconfiguration: what closing and opening links and queues does to packets. */
  datatype EngineEvent =
    | Breathes(inhale: seq<string>, exhale: seq<string>, pull: Program, push: Program)
    | Reconfigures(change: World -> seq<Op>)

  function EngineStep(w: World, e: EngineEvent): (r: Result)
    requires Hand in w.places
    ensures r.Ok? ==> Hand in r.w.places
  {
    match e
    case Breathes(inhale, exhale, pull, push) => Breath(w, inhale, exhale, pull, push)
    case Reconfigures(change) => Call(w, change(w))
  }

  function RunEngine(events: seq<EngineEvent>): (r: Result)
    ensures r.Ok? ==> Hand in r.w.places
  {
    if |events| == 0 then Ok(Start())
    else
      match RunEngine(events[..|events| - 1])
      case Failed(panic) => Failed(panic)
      case Ok(w) => EngineStep(w, events[|events| - 1])
  }

  lemma EngineStepOwned(w: World, e: EngineEvent)
    requires Owned(w)
    ensures Accounted(EngineStep(w, e))
  {
    hide Owned, Breath, RunFrom;
    match e
    case Breathes(inhale, exhale, pull, push) => BreathOwned(w, inhale, exhale, pull, push);
    case Reconfigures(change) => RunOwned(w, change(w));
  }

  lemma {:induction false} RunEngineAccounted(events: seq<EngineEvent>)
    ensures Accounted(RunEngine(events))
  {
    hide Owned, EngineStep;
    if |events| == 0 {
      StartOwned();
    } else {
      RunEngineAccounted(events[..|events| - 1]);
      var before := RunEngine(events[..|events| - 1]);
      if before.Ok? {
        EngineStepOwned(before.w, events[|events| - 1]);
      }
    }
  }

  lemma {:induction false} CallAllRests(w: World, names: seq<string>, program: Program)
    requires Hand in w.places && w.places[Hand] == []
    ensures CallAll(w, names, program).Ok? ==> CallAll(w, names, program).w.places[Hand] == []
  {
  }

  lemma {:induction false} EngineRests(events: seq<EngineEvent>)
    ensures RunEngine(events).Ok? ==> RunEngine(events).w.places[Hand] == []
  {
    hide CallAll, Call;
    if |events| > 0 {
      EngineRests(events[..|events| - 1]);
      var before, e := RunEngine(events[..|events| - 1]), events[|events| - 1];
      if before.Ok? && e.Breathes? {
        CallAllRests(before.w, e.inhale, e.pull);
        var between := CallAll(before.w, e.inhale, e.pull);
        if between.Ok? {
          CallAllRests(between.w, e.exhale, e.push);
        }
      }
    }
  }

  /** After any breaths and reconfigurations every allocated packet is in exactly one place, none
      of them in hand: on the freelist, on one link or in one delay queue. The counts add up to the
      packets allocated, at most 511000, and the freelist never overflows. */
  lemma EngineKeepsPackets(events: seq<EngineEvent>)
    ensures match RunEngine(events)
            case Ok(w) =>
              && w.places[Hand] == []
              && (forall p: nat :: multiset(w.pool.free)[p] + InUse(w.places)[p] == if p < w.pool.total then 1 else 0)
              && |w.pool.free| + |InUse(w.places)| == w.pool.total <= MAX_ALLOCATED
            case Failed(panic) => panic != FreelistOverflow
  {
    hide Owned, RunEngine, InUse;
    RunEngineAccounted(events);
    EngineRests(events);
    if RunEngine(events).Ok? {
      OwnedCounts(RunEngine(events).w);
    }
  }
}
