/** `rush/src/config.rs`: configurations of apps and links, and the syntax of links. */
module Configs {
  import opened Wrappers

  datatype LinkSpec = LinkSpec(from: string, output: string, to: string, input: string)

  // The syntax of links

  /** `\w`, for ASCII. */
  predicate IsWordChar(c: char) {
    'a' <= c <= 'z' || 'A' <= c <= 'Z' || '0' <= c <= '9' || c == '_'
  }

  predicate IsWord(s: string) {
    s != [] && forall i :: 0 <= i < |s| ==> IsWordChar(s[i])
  }

  /** How many characters of `s` a greedy `\w*` takes. */
  function WordLength(s: string): (n: nat)
    ensures n <= |s|
    ensures forall i :: 0 <= i < n ==> IsWordChar(s[i])
    ensures n < |s| ==> !IsWordChar(s[n])
  {
    if s == [] || !IsWordChar(s[0]) then 0 else 1 + WordLength(s[1..])
  }

  function SkipSpaces(s: string): string {
    if s != [] && s[0] == ' ' then SkipSpaces(s[1..]) else s
  }

  /** One end of a link, `\w+\.\w+`, and what follows it. */
  datatype End = End(app: string, port: string, rest: string)

  function ParseEnd(s: string): Option<End> {
    var n := WordLength(s);
    if n == 0 || n == |s| || s[n] != '.' then None
    else
      var t := s[n + 1..];
      var m := WordLength(t);
      if m == 0 then None else Some(End(s[..n], t[..m], t[m..]))
  }

  /** A match of the link syntax that starts where `s` starts. Nothing in it can match in two
      ways, so greedy matching never backtracks. */
  function ParseAt(s: string): Option<LinkSpec> {
    match ParseEnd(SkipSpaces(s))
    case None => None
    case Some(a) =>
      var arrow := SkipSpaces(a.rest);
      if |arrow| < 2 || arrow[..2] != "->" then None
      else
        match ParseEnd(SkipSpaces(arrow[2..]))
        case None => None
        case Some(b) => Some(LinkSpec(a.app, a.port, b.app, b.port))
  }

  /** `parse_link`: the first match anywhere in the string; None stands for the panic. */
  function ParseLink(s: string): Option<LinkSpec> {
    if ParseAt(s).Some? || s == [] then ParseAt(s) else ParseLink(s[1..])
  }

  function FormatLink(l: LinkSpec): string {
    l.from + "." + l.output + " -> " + l.to + "." + l.input
  }

  predicate WordSpec(l: LinkSpec) {
    IsWord(l.from) && IsWord(l.output) && IsWord(l.to) && IsWord(l.input)
  }

  lemma WordLengthIs(w: string, rest: string)
    requires IsWord(w) && (rest == [] || !IsWordChar(rest[0]))
    ensures WordLength(w + rest) == |w|
  {
    assert forall i :: 0 <= i < |w| ==> (w + rest)[i] == w[i];
    assert rest != [] ==> (w + rest)[|w|] == rest[0];
    hide WordLength;
    assert forall i :: 0 <= i < |w| ==> IsWordChar((w + rest)[i]);
  }

  lemma Parts(a: string, c: char, b: string)
    ensures (a + ([c] + b))[..|a|] == a && (a + ([c] + b))[|a|] == c && (a + ([c] + b))[|a| + 1..] == b
  {
  }

  lemma Halves(a: string, b: string)
    ensures (a + b)[..|a|] == a && (a + b)[|a|..] == b
  {
  }

  lemma ParseEndIs(app: string, port: string, rest: string)
    requires IsWord(app) && IsWord(port) && (rest == [] || !IsWordChar(rest[0]))
    ensures ParseEnd(app + (['.'] + (port + rest))) == Some(End(app, port, rest))
  {
    WordLengthIs(app, ['.'] + (port + rest));
    WordLengthIs(port, rest);
    Parts(app, '.', port + rest);
    Halves(port, rest);
    hide WordLength, IsWord;
  }

  lemma SkipOne(s: string)
    requires s == [] || s[0] != ' '
    ensures SkipSpaces(s) == s && SkipSpaces([' '] + s) == s
  {
    assert ([' '] + s)[1..] == s;
  }

  /** Parsing a printed link gives the link back. */
  lemma FormatParses(l: LinkSpec)
    requires WordSpec(l)
    ensures ParseLink(FormatLink(l)) == Some(l)
  {
    hide ParseEnd, SkipSpaces, FormatLink, IsWord;
    var right := l.to + (['.'] + (l.input + []));
    var arrow := "->" + ([' '] + right);
    var whole := l.from + (['.'] + (l.output + ([' '] + arrow)));
    FormatIs(l, right, arrow);
    ParseEndIs(l.from, l.output, [' '] + arrow);
    ParseEndIs(l.to, l.input, []);
    WordFirst(l.from, ['.'] + (l.output + ([' '] + arrow)));
    WordFirst(l.to, ['.'] + (l.input + []));
    SkipOne(whole);
    SkipOne(arrow);
    SkipOne(right);
    Halves("->", [' '] + right);
    ParseAtParts(whole, End(l.from, l.output, [' '] + arrow), right, End(l.to, l.input, []));
  }

  lemma WordFirst(w: string, rest: string)
    requires IsWord(w)
    ensures w + rest != [] && (w + rest)[0] != ' '
  {
    assert (w + rest)[0] == w[0];
  }

  /** How the parts of a link make one. */
  lemma ParseAtParts(s: string, a: End, right: string, b: End)
    requires ParseEnd(SkipSpaces(s)) == Some(a)
    requires SkipSpaces(a.rest) == "->" + ([' '] + right)
    requires SkipSpaces([' '] + right) == right && ParseEnd(right) == Some(b)
    ensures ParseAt(s) == Some(LinkSpec(a.app, a.port, b.app, b.port)) == ParseLink(s)
  {
    hide ParseEnd, SkipSpaces;
    Halves("->", [' '] + right);
  }

  lemma FormatIs(l: LinkSpec, right: string, arrow: string)
    requires right == l.to + (['.'] + (l.input + [])) && arrow == "->" + ([' '] + right)
    ensures FormatLink(l) == l.from + (['.'] + (l.output + ([' '] + arrow)))
  {
    assert right == l.to + "." + l.input;
    assert [' '] + arrow == " -> " + right;
    assert l.from + "." + l.output + (" -> " + right) == FormatLink(l);
  }

  /** Whatever parses names words only. */
  lemma {:induction false} ParseGivesWords(s: string)
    requires ParseLink(s).Some?
    ensures WordSpec(ParseLink(s).value)
  {
    if ParseAt(s).None? {
      ParseGivesWords(s[1..]);
    }
  }

  /** `canonical_link`. */
  function CanonicalLink(s: string): string
    requires ParseLink(s).Some?
  {
    FormatLink(ParseLink(s).value)
  }

  /** Canonical strings name links one to one: canonicalising is idempotent, and two strings
      have one canonical form exactly when they parse to one link. */
  lemma CanonicalForm(s: string, t: string)
    requires ParseLink(s).Some? && ParseLink(t).Some?
    ensures ParseLink(CanonicalLink(s)) == ParseLink(s)
    ensures CanonicalLink(s) == CanonicalLink(t) <==> ParseLink(s) == ParseLink(t)
  {
    ParseGivesWords(s);
    ParseGivesWords(t);
    FormatParses(ParseLink(s).value);
    FormatParses(ParseLink(t).value);
  }

  // Apps and their configurations

  datatype Dir = Src | Dst

  /** A flow that Split matches; zero for ip or protocol means any. */
  datatype Flow = Flow(tag: string, dir: Dir, ip: nat, protocol: nat, portMin: nat, portMax: nat)

  /** The configurable apps. Two configurations are equal when all their fields are. */
  datatype AppArg =
    | RawSocket(ifname: string)
    | TSD(mss: nat)
    | Checksum
    | Top(path: string, dir: Dir)
    | Split(flows: seq<Flow>)
    | Join
    | Tee
    | Source(size: nat)
    | Sink
    | RateLimiter(rate: nat)
    | Loss(ratio: real)
    | Latency(ms: nat, capacity: nat)
    | Jitter(ms: nat, strength: real, reorder: bool, capacity: nat)

  predicate HasPull(a: AppArg) {
    a.RawSocket? || a.Source? || a.Latency? || a.Jitter?
  }

  predicate HasPush(a: AppArg) {
    !a.Source?
  }

  class Config {
    var apps: map<string, AppArg>
    var links: set<string>

    constructor ()
      ensures apps == map[] && links == {}
    {
      apps := map[];
      links := {};
    }

    method App(name: string, app: AppArg)
      modifies `apps
      ensures apps == old(apps)[name := app]
    {
      apps := apps[name := app];
    }

    /** Add a link, in canonical form. */
    method AddLink(spec: string)
      requires ParseLink(spec).Some?
      modifies `links
      ensures links == old(links) + {CanonicalLink(spec)}
    {
      links := links + {CanonicalLink(spec)};
    }
  }

  /** The link that a string of a configuration stands for. */
  function SpecOf(s: string): LinkSpec {
    if ParseLink(s).Some? then ParseLink(s).value else LinkSpec("", "", "", "")
  }

  /** A string as `AddLink` stores it. */
  predicate Canonical(s: string) {
    ParseLink(s).Some? && CanonicalLink(s) == s
  }
}
