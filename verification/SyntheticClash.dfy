/** When a network generated by `rush/src/synthetic_network.rs` is well-formed: exactly when no
    names clash. A clash is passed on along the links of the two apps, forwards and backwards,
    until it is one that names cannot have. */
module SyntheticClashes {
  import opened Wrappers
  import opened Configs
  import opened SyntheticNames
  import opened SyntheticNetworks
  import opened SyntheticProperties
  import E = Engine

  /** What was generated is well-formed. */
  ghost predicate Sound(x: Setup, apps: map<string, AppArg>, links: set<string>) {
    Spelled(x) && Generated(x, apps, links) && E.WellFormed(apps, links)
  }

  lemma SoundLinks(x: Setup, apps: map<string, AppArg>, links: set<string>, a: AppId, p: string, b: AppId, q: string)
    requires Sound(x, apps, links) && Wired(x, a, p) && Wired(x, b, q)
    ensures var s, t := SpecOf(LinkText(x, a, p)), SpecOf(LinkText(x, b, q));
            (s.from == t.from && s.output == t.output) || (s.to == t.to && s.input == t.input) ==> s == t
  {
    assert LinkText(x, a, p) in links && LinkText(x, b, q) in links;
    hide Spelled, LinkText, SpecOf, Canonical, Wired;
  }

  /** Apps of one name have links to apps of one name on ports of one name. */
  lemma Forward(x: Setup, apps: map<string, AppArg>, links: set<string>, a: AppId, b: AppId, port: string)
    requires Sound(x, apps, links) && Wired(x, a, port) && Wired(x, b, port) && Render(x, a) == Render(x, b)
    ensures var to, to' := Wire(x, a, port).value, Wire(x, b, port).value;
            Render(x, to.app) == Render(x, to'.app) && to.port == to'.port
  {
    assert Spelled(x);
    SoundLinks(x, apps, links, a, port, b, port);
    hide Sound, Spelled, LinkText, SpecOf, Canonical, Wire, Render;
    TextLinks(x, a, port);
    TextLinks(x, b, port);
  }

  /** And from apps of one name, where the ports they come in on have one name. */
  lemma Backward(x: Setup, apps: map<string, AppArg>, links: set<string>, a: AppId, p: string, b: AppId, q: string)
    requires Sound(x, apps, links) && Wired(x, a, p) && Wired(x, b, q)
    requires Wire(x, a, p).value.port == Wire(x, b, q).value.port
    requires Render(x, Wire(x, a, p).value.app) == Render(x, Wire(x, b, q).value.app)
    ensures Render(x, a) == Render(x, b) && p == q
  {
    assert Spelled(x);
    SoundLinks(x, apps, links, a, p, b, q);
    hide Sound, Spelled, LinkText, SpecOf, Canonical, Wire, Render;
    TextLinks(x, a, p);
    TextLinks(x, b, q);
  }

  // Names that cannot be equal

  lemma ShortName(face: string, s: Part)
    requires |face| == 1
    ensures |face + Suffix(s)| == 1 || (face + Suffix(s))[1] == '_'
  {
  }

  /** Two stages differ in the first two characters, and no name of a piece is that short. */
  lemma StagesApart(face: string, s: Part, t: Part, stage: Stage, stage': Stage, rest: string, rest': string)
    requires face != [] && stage != stage' && face + Suffix(s) == Prefix(stage) + rest
    ensures face + Suffix(t) != Prefix(stage') + rest'
  {
    var n, m := face + Suffix(s), face + Suffix(t);
    assert n[0] == Prefix(stage)[0] && n[1] == Prefix(stage)[1];
    if |face| == 1 {
      ShortName(face, s);
    }
    assert m[0] == n[0] && m[1] == n[1];
    assert (Prefix(stage') + rest')[0] == Prefix(stage')[0] && (Prefix(stage') + rest')[1] == Prefix(stage')[1];
  }

  /** No name is itself with a suffix. */
  lemma NotLonger(face: string, part: Part)
    requires part != Interface
    ensures face + Suffix(Interface) != face + Suffix(part)
  {
    assert |face + Suffix(part)| > |face + Suffix(Interface)|;
  }

  lemma NextOutputs(x: Setup, outer: bool)
    ensures Wired(x, Piece(outer, Interface), "output") && Wired(x, Piece(outer, Segmenter), "output")
    ensures Wired(x, Piece(outer, Offloader), "output") && Wired(x, Piece(outer, Profiler), "output")
    ensures Wired(x, Piece(outer, Joiner), "output") && Wired(x, Piece(outer, Splitter), "default")
    ensures Wire(x, Piece(outer, Interface), "output") == Some(Target(Piece(outer, Segmenter), "input"))
    ensures Wire(x, Piece(outer, Segmenter), "output") == Some(Target(Piece(outer, Offloader), "input"))
    ensures Wire(x, Piece(outer, Offloader), "output") == Some(Target(Piece(outer, Splitter), "input"))
    ensures Wire(x, Piece(outer, Joiner), "output") == Some(Target(Piece(!outer, Profiler), "input"))
    ensures Wire(x, Piece(outer, Profiler), "output") == Some(Target(Piece(!outer, Interface), "input"))
    ensures Wire(x, Piece(outer, Splitter), "default")
            == Some(Target(Chained(if outer then Src else Dst, RateStage, None), "input"))
  {
  }

  // Piece against piece

  /** An interface is not called like a piece of the other one. */
  lemma FacesApart(x: Setup, apps: map<string, AppArg>, links: set<string>, outer: bool, part: Part)
    requires Sound(x, apps, links)
    ensures Face(x, outer) != Face(x, !outer) + Suffix(part)
  {
    NextOutputs(x, true);
    NextOutputs(x, false);
    assert Render(x, Piece(outer, Interface)) == Face(x, outer) by {
      assert Face(x, outer) + "" == Face(x, outer);
    }
    hide Sound, Wire, Wired, Suffix;
    if Face(x, outer) == Face(x, !outer) + Suffix(part) {
      var a, b := Piece(outer, Interface), Piece(!outer, part);
      match part
      case Interface => InterfacesApart(x, apps, links);
      case Segmenter =>
        Forward(x, apps, links, a, b, "output");
        SuffixesApart(Face(x, outer), Segmenter, Face(x, !outer), Offloader);
      case Offloader =>
        Forward(x, apps, links, a, b, "output");
        SuffixesApart(Face(x, outer), Segmenter, Face(x, !outer), Splitter);
      case Profiler =>
        Forward(x, apps, links, a, b, "output");
        NotLonger(Face(x, outer), Segmenter);
      case Joiner =>
        Forward(x, apps, links, a, b, "output");
        SuffixesApart(Face(x, outer), Segmenter, Face(x, outer), Profiler);
      case Splitter =>
        Backward(x, apps, links, Piece(!outer, Profiler), "output", Piece(!outer, Offloader), "output");
        SuffixesApart(Face(x, !outer), Profiler, Face(x, !outer), Offloader);
    }
  }

  /** The interfaces have two names: else both default links would start at one port. */
  lemma InterfacesApart(x: Setup, apps: map<string, AppArg>, links: set<string>)
    requires Sound(x, apps, links)
    ensures x.outer != x.inner
  {
    NextOutputs(x, true);
    NextOutputs(x, false);
    var none: Option<string> := None;
    hide Sound, Wire, Wired, Render;
    if x.outer == x.inner {
      PiecesOfOneName(x, Splitter);
      Forward(x, apps, links, Piece(true, Splitter), Piece(false, Splitter), "default");
      ChainsApart(x, Chained(Src, RateStage, none), Chained(Dst, RateStage, none));
    }
  }

  lemma PiecesOfOneName(x: Setup, part: Part)
    requires x.outer == x.inner
    ensures Render(x, Piece(true, part)) == Render(x, Piece(false, part))
  {
  }

  // Piece against chain stage

  function NextStage(stage: Stage): Stage {
    match stage
    case RateStage => LossStage
    case LossStage => LatencyStage
    case _ => JitterStage
  }

  /** Where a stage's link leads. */
  lemma StageOutput(x: Setup, dir: Dir, stage: Stage, flow: Option<string>)
    requires Sanitary(x.spec.flows) && FlowKnown(x, flow)
    ensures Wired(x, Chained(dir, stage, flow), "output")
    ensures stage != JitterStage ==> Wire(x, Chained(dir, stage, flow), "output")
                                     == Some(Target(Chained(dir, NextStage(stage), flow), "input"))
    ensures stage == JitterStage ==> Wire(x, Chained(dir, stage, flow), "output")
                                     == Some(Target(Piece(dir.Dst?, Joiner), PortOf(flow)))
  {
  }

  /** No piece whose link leads to another piece of its interface has a stage's name. */
  lemma PieceNotStage(x: Setup, apps: map<string, AppArg>, links: set<string>, outer: bool, part: Part, next: Part,
                      dir: Dir, stage: Stage, flow: Option<string>)
    requires Sound(x, apps, links) && FlowKnown(x, flow)
    requires (part == Interface && next == Segmenter) || (part == Segmenter && next == Offloader)
             || (part == Offloader && next == Splitter)
    ensures Render(x, Piece(outer, part)) != Render(x, Chained(dir, stage, flow))
  {
    var a, b, face := Piece(outer, part), Chained(dir, stage, flow), Face(x, outer);
    NextOutputs(x, outer);
    assert Sanitary(x.spec.flows) && face != [];
    StageOutput(x, dir, stage, flow);
    hide Sound, Wire, Wired, Sanitary, Suffix, Prefix, ChainLabel, Face;
    if Render(x, a) == Render(x, b) {
      Forward(x, apps, links, a, b, "output");
      if stage == JitterStage {
        NextNotJoiner(face, next, Face(x, dir.Dst?));
      } else {
        StagesApart(face, part, next, stage, NextStage(stage), ChainLabel(dir, flow), ChainLabel(dir, flow));
      }
    }
  }

  lemma NextNotJoiner(face: string, part: Part, other: string)
    requires part != Interface && part != Joiner
    ensures face + Suffix(part) != other + Suffix(Joiner)
  {
    SuffixesApart(face, part, other, Joiner);
  }

  /** A splitter is fed by its interface, and a stage by another one or a splitter. */
  lemma SplitterNotStage(x: Setup, apps: map<string, AppArg>, links: set<string>, outer: bool,
                         dir: Dir, stage: Stage, flow: Option<string>)
    requires Sound(x, apps, links) && FlowKnown(x, flow)
    ensures Render(x, Piece(outer, Splitter)) != Render(x, Chained(dir, stage, flow))
  {
    var a, b, face := Piece(outer, Splitter), Chained(dir, stage, flow), Face(x, outer);
    var from, port := StageFeeder(x, dir, stage, flow);
    NextOutputs(x, outer);
    assert Sanitary(x.spec.flows) && face != [];
    hide Sound, Wire, Wired, Sanitary, Suffix, Prefix, ChainLabel, Face;
    if Render(x, a) == Render(x, b) {
      Backward(x, apps, links, Piece(outer, Offloader), "output", from, port);
      if stage == RateStage {
        SuffixesApart(face, Offloader, Face(x, dir.Src?), Splitter);
      } else {
        StagesApart(face, Splitter, Offloader, stage, from.stage, ChainLabel(dir, flow), ChainLabel(dir, flow));
      }
    }
  }

  lemma StageFeeder(x: Setup, dir: Dir, stage: Stage, flow: Option<string>) returns (from: AppId, port: string)
    requires Spelled(x) && FlowKnown(x, flow)
    ensures Wired(x, from, port) && Wire(x, from, port) == Some(Target(Chained(dir, stage, flow), "input"))
    ensures stage == RateStage ==> from == Piece(dir.Src?, Splitter)
    ensures stage != RateStage ==> exists before :: before != stage && from == Chained(dir, before, flow)
  {
    var f := Feeder(Chained(dir, stage, flow));
    from, port := f.0, f.1;
    FeederFeeds(x, Chained(dir, stage, flow));
  }

  /** A profiler leads to the other interface. */
  lemma ProfilerNotStage(x: Setup, apps: map<string, AppArg>, links: set<string>, outer: bool,
                         dir: Dir, stage: Stage, flow: Option<string>)
    requires Sound(x, apps, links) && FlowKnown(x, flow)
    ensures Render(x, Piece(outer, Profiler)) != Render(x, Chained(dir, stage, flow))
  {
    var a, b := Piece(outer, Profiler), Chained(dir, stage, flow);
    NextOutputs(x, outer);
    assert Sanitary(x.spec.flows);
    StageOutput(x, dir, stage, flow);
    hide Sound, Wire, Wired, Sanitary;
    if Render(x, a) == Render(x, b) {
      Forward(x, apps, links, a, b, "output");
      if stage == JitterStage {
        InterfaceNotJoiner(x, apps, links, !outer, dir.Dst?);
      } else {
        PieceNotStage(x, apps, links, !outer, Interface, Segmenter, dir, NextStage(stage), flow);
      }
    }
  }

  lemma InterfaceNotJoiner(x: Setup, apps: map<string, AppArg>, links: set<string>, outer: bool, other: bool)
    requires Sound(x, apps, links)
    ensures Render(x, Piece(outer, Interface)) != Render(x, Piece(other, Joiner))
  {
    FacesApart(x, apps, links, outer, Joiner);
    NotLonger(Face(x, outer), Joiner);
    assert Face(x, outer) + "" == Face(x, outer);
    hide Sound;
  }

  /** A joiner leads to the other interface's profiler. */
  lemma JoinerNotStage(x: Setup, apps: map<string, AppArg>, links: set<string>, outer: bool,
                       dir: Dir, stage: Stage, flow: Option<string>)
    requires Sound(x, apps, links) && FlowKnown(x, flow)
    ensures Render(x, Piece(outer, Joiner)) != Render(x, Chained(dir, stage, flow))
  {
    var a, b := Piece(outer, Joiner), Chained(dir, stage, flow);
    NextOutputs(x, outer);
    assert Sanitary(x.spec.flows);
    StageOutput(x, dir, stage, flow);
    hide Sound, Wire, Wired, Sanitary, Suffix;
    if Render(x, a) == Render(x, b) {
      Forward(x, apps, links, a, b, "output");
      if stage == JitterStage {
        NextNotJoiner(Face(x, !outer), Profiler, Face(x, dir.Dst?));
      } else {
        ProfilerNotStage(x, apps, links, !outer, dir, NextStage(stage), flow);
      }
    }
  }

  lemma NoPieceIsAStage(x: Setup, apps: map<string, AppArg>, links: set<string>, p: AppId, c: AppId)
    requires Sound(x, apps, links) && p.Piece? && c.Chained? && Present(x, c)
    ensures Render(x, p) != Render(x, c)
  {
    hide Sound, Render;
    match p.part
    case Interface => PieceNotStage(x, apps, links, p.outer, Interface, Segmenter, c.dir, c.stage, c.flow);
    case Segmenter => PieceNotStage(x, apps, links, p.outer, Segmenter, Offloader, c.dir, c.stage, c.flow);
    case Offloader => PieceNotStage(x, apps, links, p.outer, Offloader, Splitter, c.dir, c.stage, c.flow);
    case Splitter => SplitterNotStage(x, apps, links, p.outer, c.dir, c.stage, c.flow);
    case Profiler => ProfilerNotStage(x, apps, links, p.outer, c.dir, c.stage, c.flow);
    case Joiner => JoinerNotStage(x, apps, links, p.outer, c.dir, c.stage, c.flow);
  }

  // The condition

  /** A well-formed network has no clashing names. */
  lemma SoundDoesNotClash(x: Setup, apps: map<string, AppArg>, links: set<string>)
    requires Sound(x, apps, links)
    ensures NonClashing(x)
  {
    hide Sound, Render, Suffix, Present;
    forall part ensures x.outer != x.inner + Suffix(part) && x.inner != x.outer + Suffix(part) {
      FacesApart(x, apps, links, true, part);
      FacesApart(x, apps, links, false, part);
    }
    forall p: AppId, c: AppId | p.Piece? && c.Chained? && Present(x, c) ensures Render(x, p) != Render(x, c) {
      NoPieceIsAStage(x, apps, links, p, c);
    }
  }

  /** What is generated is well-formed exactly when no names clash. */
  lemma WellFormedExactly(x: Setup, apps: map<string, AppArg>, links: set<string>)
    requires Spelled(x) && Generated(x, apps, links)
    ensures E.WellFormed(apps, links) <==> NonClashing(x)
  {
    if NonClashing(x) {
      NetworkIsWellFormed(x, apps, links);
    }
    if E.WellFormed(apps, links) {
      SoundDoesNotClash(x, apps, links);
    }
  }

  /** Two interfaces of one name, or the name of an interface and of something named after the
      other one, give a network that is not well-formed. */
  lemma SameInterfaceClashes(x: Setup, apps: map<string, AppArg>, links: set<string>, part: Part)
    requires Spelled(x) && Generated(x, apps, links) && x.outer == x.inner + Suffix(part)
    ensures !E.WellFormed(apps, links)
  {
    hide Spelled, Generated, E.WellFormed, Suffix;
    WellFormedExactly(x, apps, links);
  }

  /** So does an interface called like a stage: `rate_ingress`. */
  lemma StageNameClashes(x: Setup, apps: map<string, AppArg>, links: set<string>)
    requires Spelled(x) && Generated(x, apps, links) && x.outer == "rate_ingress"
    ensures !E.WellFormed(apps, links)
  {
    hide *;
    CalledLikeAStage(x);
    WellFormedExactly(x, apps, links);
  }

  lemma CalledLikeAStage(x: Setup)
    requires x.outer == "rate_ingress"
    ensures !NonClashing(x)
  {
    var p, c := Piece(true, Interface), Chained(Src, RateStage, None);
    assert Present(x, c) && x.outer + "" == x.outer && Render(x, p) == Render(x, c);
  }
}
