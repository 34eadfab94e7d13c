/** `rush/src/synthetic_network.rs`: the specification of a synthetic network, and which app
    has which name in the network generated from it. */
module SyntheticNames {
  import opened Wrappers
  import opened Configs

  datatype Qos = Qos(rate: nat, loss: real, latency: nat, jitter: nat, strength: real, reorder: bool)
  datatype SyntheticLink = SyntheticLink(ingress: Qos, egress: Qos)
  datatype SyntheticFlow = SyntheticFlow(name: string, ip: nat, protocol: nat, portMin: nat, portMax: nat,
                                         link: SyntheticLink)
  datatype Spec = Spec(defaultLink: SyntheticLink, flows: seq<SyntheticFlow>)

  /** The interfaces and profiles that a network is set up for. */
  datatype Setup = Setup(outer: string, inner: string, ingressProfile: string, egressProfile: string, spec: Spec)

  // Labels

  /** What `sanitize_labels` lets pass. */
  predicate Sanitary(flows: seq<SyntheticFlow>) {
    && (forall k :: 0 <= k < |flows| ==> IsWord(flows[k].name) && flows[k].name != "default")
    && (forall j, k :: 0 <= j < k < |flows| ==> flows[j].name != flows[k].name)
  }

  method SanitizeLabels(spec: Spec) returns (ok: bool)
    ensures ok <==> Sanitary(spec.flows)
  {
    var seen: set<string>, k := {}, 0;
    while k < |spec.flows|
      invariant k <= |spec.flows| && Sanitary(spec.flows[..k])
      invariant forall l :: l in seen <==> exists j :: 0 <= j < k && spec.flows[j].name == l
    {
      var name := spec.flows[k].name;
      if name == "default" || !IsWord(name) || name in seen {
        return false;
      }
      seen := seen + {name};
      k := k + 1;
    }
    assert spec.flows[..k] == spec.flows;
    return true;
  }

  // Apps

  /** What an interface has besides itself. */
  datatype Part = Interface | Segmenter | Offloader | Profiler | Splitter | Joiner

  /** The stages of a chain that conditions traffic. */
  datatype Stage = RateStage | LossStage | LatencyStage | JitterStage

  /** The apps of the network: parts of the outer or the inner interface, and stages of the
      chains that carry one direction of one flow, or of the default link. `Src` is ingress. */
  datatype AppId = Piece(outer: bool, part: Part) | Chained(dir: Dir, stage: Stage, flow: Option<string>)

  predicate HasFlow(flows: seq<SyntheticFlow>, name: string) {
    exists k :: 0 <= k < |flows| && flows[k].name == name
  }

  predicate Present(x: Setup, id: AppId) {
    id.Chained? && id.flow.Some? ==> HasFlow(x.spec.flows, id.flow.value)
  }

  function Suffix(part: Part): string {
    match part
    case Interface => ""
    case Segmenter => "_tsd"
    case Offloader => "_offload"
    case Profiler => "_top"
    case Splitter => "_split"
    case Joiner => "_join"
  }

  function Prefix(stage: Stage): string {
    match stage
    case RateStage => "rate_"
    case LossStage => "loss_"
    case LatencyStage => "latency_"
    case JitterStage => "jitter_"
  }

  function DirName(dir: Dir): string {
    if dir.Src? then "ingress" else "egress"
  }

  function ChainLabel(dir: Dir, flow: Option<string>): string {
    if flow.None? then DirName(dir) else DirName(dir) + "_" + flow.value
  }

  function Face(x: Setup, outer: bool): string {
    if outer then x.outer else x.inner
  }

  function Render(x: Setup, id: AppId): string {
    match id
    case Piece(outer, part) => Face(x, outer) + Suffix(part)
    case Chained(dir, stage, flow) => Prefix(stage) + ChainLabel(dir, flow)
  }

  /** The interface names clash neither with one another, nor with what is named after the
      other one, nor do they make anything named after them clash with a chain. */
  ghost predicate NonClashing(x: Setup) {
    && (forall part :: x.outer != x.inner + Suffix(part) && x.inner != x.outer + Suffix(part))
    && (forall p: AppId, c: AppId :: p.Piece? && c.Chained? && Present(x, c) ==> Render(x, p) != Render(x, c))
  }

  /** What a network can be generated for: words throughout, and sanitary labels. */
  predicate Spelled(x: Setup) {
    IsWord(x.outer) && IsWord(x.inner) && Sanitary(x.spec.flows)
  }

  ghost predicate Acceptable(x: Setup) {
    Spelled(x) && NonClashing(x)
  }

  lemma CancelRight(a: string, b: string, s: string)
    ensures a + s == b + s <==> a == b
  {
    assert |a| == |b| ==> a == (a + s)[..|a|] && b == (b + s)[..|a|];
  }

  lemma CancelLeft(a: string, s: string, t: string)
    ensures a + s == a + t <==> s == t
  {
    assert s == (a + s)[|a|..] && t == (a + t)[|a|..];
  }

  lemma LastTwo(a: string, t: string)
    requires |t| >= 2
    ensures (a + t)[|a| + |t| - 2..] == t[|t| - 2..]
  {
  }

  /** No suffix ends another one: they differ in their last two characters. */
  lemma SuffixesApart(a: string, s: Part, b: string, t: Part)
    requires !s.Interface? && !t.Interface? && s != t
    ensures a + Suffix(s) != b + Suffix(t)
  {
    LastTwo(a, Suffix(s));
    LastTwo(b, Suffix(t));
    var m, n := Suffix(s)[|Suffix(s)| - 2..], Suffix(t)[|Suffix(t)| - 2..];
    assert m[0] != n[0] || m[1] != n[1];
  }

  lemma PiecesApart(x: Setup, a: AppId, b: AppId)
    requires NonClashing(x) && a.Piece? && b.Piece? && Render(x, a) == Render(x, b)
    ensures a == b
  {
    assert x.outer != x.inner + Suffix(Interface);
    assert x.inner + Suffix(Interface) == x.inner && x.outer + Suffix(Interface) == x.outer;
    hide NonClashing;
    if a.part == b.part {
      CancelRight(Face(x, a.outer), Face(x, b.outer), Suffix(a.part));
    } else if a.part.Interface? || b.part.Interface? {
      InterfaceApart(x, a, b);
    } else {
      SuffixesApart(Face(x, a.outer), a.part, Face(x, b.outer), b.part);
    }
  }

  lemma InterfaceApart(x: Setup, a: AppId, b: AppId)
    requires NonClashing(x) && a.Piece? && b.Piece? && a.part != b.part && (a.part.Interface? || b.part.Interface?)
    ensures Render(x, a) != Render(x, b)
  {
    assert Suffix(Interface) == "";
    assert x.inner + "" == x.inner && x.outer + "" == x.outer;
    hide NonClashing;
    if a.outer == b.outer {
      assert Suffix(a.part) != Suffix(b.part);
      CancelLeft(Face(x, a.outer), Suffix(a.part), Suffix(b.part));
    } else {
      OtherSide(x, if a.part.Interface? then b.part else a.part);
    }
  }

  lemma OtherSide(x: Setup, part: Part)
    requires NonClashing(x)
    ensures x.outer != x.inner + Suffix(part) && x.inner != x.outer + Suffix(part)
  {
  }

  lemma ChainsApart(x: Setup, a: AppId, b: AppId)
    requires a.Chained? && b.Chained? && Render(x, a) == Render(x, b)
    ensures a == b
  {
    var n := Render(x, a);
    assert n[0] == Prefix(a.stage)[0] && n[0] == Prefix(b.stage)[0];
    assert n[1] == Prefix(a.stage)[1] && n[1] == Prefix(b.stage)[1];
    assert a.stage == b.stage;
    CancelLeft(Prefix(a.stage), ChainLabel(a.dir, a.flow), ChainLabel(b.dir, b.flow));
    LabelsApart(a.dir, a.flow, b.dir, b.flow);
  }

  lemma LabelsApart(d: Dir, f: Option<string>, e: Dir, g: Option<string>)
    requires ChainLabel(d, f) == ChainLabel(e, g)
    ensures d == e && f == g
  {
    assert ChainLabel(d, f)[0] == DirName(d)[0] && ChainLabel(e, g)[0] == DirName(e)[0];
    assert d == e;
    if f.Some? && g.Some? {
      CancelLeft(DirName(d) + "_", f.value, g.value);
    }
  }

  /** Different apps have different names. */
  lemma NamesApart(x: Setup, a: AppId, b: AppId)
    requires NonClashing(x) && Present(x, a) && Present(x, b) && Render(x, a) == Render(x, b)
    ensures a == b
  {
    if a.Piece? && b.Piece? {
      PiecesApart(x, a, b);
    } else if a.Chained? && b.Chained? {
      ChainsApart(x, a, b);
    }
  }

  /** Different apps have different names exactly when names do not clash. */
  lemma NamesApartExactly(x: Setup)
    ensures NonClashing(x) <==> forall a, b :: Present(x, a) && Present(x, b) && Render(x, a) == Render(x, b) ==> a == b
  {
    if NonClashing(x) {
      forall a, b | Present(x, a) && Present(x, b) && Render(x, a) == Render(x, b) ensures a == b {
        NamesApart(x, a, b);
      }
    }
    assert x.outer + "" == x.outer && x.inner + "" == x.inner;
    forall part
      ensures x.outer == x.inner + Suffix(part) ==> Render(x, Piece(true, Interface)) == Render(x, Piece(false, part))
      ensures x.inner == x.outer + Suffix(part) ==> Render(x, Piece(false, Interface)) == Render(x, Piece(true, part))
    {
    }
    assert forall outer, part :: Present(x, Piece(outer, part));
  }

  lemma WordsJoin(a: string, b: string)
    requires IsWord(a) && forall i :: 0 <= i < |b| ==> IsWordChar(b[i])
    ensures IsWord(a + b)
  {
  }

  /** Every name is one that the link syntax accepts. */
  lemma NamesAreWords(x: Setup, id: AppId)
    requires Spelled(x) && Present(x, id)
    ensures IsWord(Render(x, id))
  {
    match id
    case Piece(outer, part) =>
      WordsJoin(Face(x, outer), Suffix(part));
    case Chained(dir, stage, flow) =>
      WordsJoin(Prefix(stage), DirName(dir));
      if flow.Some? {
        WordsJoin(Prefix(stage) + DirName(dir), "_");
        WordsJoin(Prefix(stage) + DirName(dir) + "_", flow.value);
        assert Render(x, id) == Prefix(stage) + DirName(dir) + "_" + flow.value;
      }
  }

  // Interface names that do not clash

  predicate StartsWith(s: string, prefix: string) {
    |prefix| <= |s| && s[..|prefix|] == prefix
  }

  /** Not called like a stage of a chain. */
  predicate NotAStage(name: string) {
    && !StartsWith(name, "rate_") && !StartsWith(name, "loss_")
    && !StartsWith(name, "latency_") && !StartsWith(name, "jitter_")
  }

  /** Neither name is the other one with a suffix that is used, or none. */
  predicate Unrelated(a: string, b: string) {
    && a != b && a != b + "_tsd" && a != b + "_offload" && a != b + "_top" && a != b + "_split" && a != b + "_join"
    && b != a + "_tsd" && b != a + "_offload" && b != a + "_top" && b != a + "_split" && b != a + "_join"
  }

  /** A condition on the two interface names alone. */
  predicate OrdinaryNames(outer: string, inner: string) {
    NotAStage(outer) && NotAStage(inner) && Unrelated(outer, inner)
  }

  /** Ordinary names do not clash, whatever the labels. */
  lemma OrdinaryNamesDoNotClash(x: Setup)
    requires OrdinaryNames(x.outer, x.inner)
    ensures NonClashing(x)
  {
    forall part ensures x.outer != x.inner + Suffix(part) && x.inner != x.outer + Suffix(part) {
      assert x.inner + "" == x.inner && x.outer + "" == x.outer;
    }
    forall p: AppId, c: AppId | p.Piece? && c.Chained? && Present(x, c) ensures Render(x, p) != Render(x, c) {
      PieceIsNoStage(Face(x, p.outer), p.part, c.dir, c.stage, c.flow);
    }
  }

  lemma PieceIsNoStage(face: string, part: Part, dir: Dir, stage: Stage, flow: Option<string>)
    requires NotAStage(face)
    ensures face + Suffix(part) != Prefix(stage) + ChainLabel(dir, flow)
  {
    var prefix := Prefix(stage);
    var n, m := face + Suffix(part), prefix + ChainLabel(dir, flow);
    ChainStart(dir, flow);
    assert |face| >= |prefix| ==> face[..|prefix|] == n[..|prefix|];
    assert m[..|prefix|] == prefix && m[|prefix|] == ChainLabel(dir, flow)[0];
    if n == m && |face| < |prefix| {
      ShortFace(face, part, stage);
    }
  }

  lemma ChainStart(dir: Dir, flow: Option<string>)
    ensures ChainLabel(dir, flow) != [] && ChainLabel(dir, flow)[0] in {'i', 'e'}
  {
    assert flow.Some? ==> ChainLabel(dir, flow)[0] == DirName(dir)[0];
  }

  /** A face shorter than a stage's prefix goes on as no label does. */
  lemma ShortFace(face: string, part: Part, stage: Stage)
    requires |face| < |Prefix(stage)| < |face + Suffix(part)|
    requires (face + Suffix(part))[..|Prefix(stage)|] == Prefix(stage)
    ensures (face + Suffix(part))[|Prefix(stage)|] !in {'i', 'e'}
  {
    var n, prefix := face + Suffix(part), Prefix(stage);
    assert n[|face|] == Suffix(part)[0] == '_' && n[|face|] == n[..|prefix|][|face|] == prefix[|face|];
    assert |face| == |prefix| - 1;
    assert n[|prefix|] == Suffix(part)[1];
  }

  /** For ordinary words as names, any sanitary specification is acceptable. */
  lemma OrdinaryIsAcceptable(x: Setup)
    requires IsWord(x.outer) && IsWord(x.inner) && Sanitary(x.spec.flows) && OrdinaryNames(x.outer, x.inner)
    ensures Acceptable(x)
  {
    OrdinaryNamesDoNotClash(x);
  }

  /** `eth0` and `eth1` are such names. */
  lemma EthernetIsAcceptable(x: Setup)
    requires x.outer == "eth0" && x.inner == "eth1" && Sanitary(x.spec.flows)
    ensures Acceptable(x)
  {
    assert x.outer[0] == 'e' && x.inner[0] == 'e' && x.outer[3] != x.inner[3];
    OrdinaryIsAcceptable(x);
  }
}
