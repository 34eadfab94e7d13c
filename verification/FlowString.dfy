/** `frontend/client/flow.js`: flow expressions, printed and parsed. None stands for a thrown
    exception. */
module FlowString {
  import opened Wrappers

  /** What the backend understands; zero for ip or protocol means any. */
  datatype Flow = Flow(ip: nat, protocol: nat, portMin: nat, portMax: nat)

  predicate ValidFlow(f: Flow) {
    f.ip < 0x1_0000_0000 && f.protocol < 0x100 && f.portMin < 0x1_0000 && f.portMax < 0x1_0000
  }

  // Decimal numbers

  predicate IsDigit(c: char) {
    '0' <= c <= '9'
  }

  /** `\d+`, the whole string. */
  predicate IsDigits(s: string) {
    s != [] && forall i :: 0 <= i < |s| ==> IsDigit(s[i])
  }

  function Digit(d: nat): char
    requires d < 10
  {
    '0' + d as char
  }

  function Dec(n: nat): string {
    if n < 10 then [Digit(n)] else Dec(n / 10) + [Digit(n % 10)]
  }

  function Value(s: string): nat
    requires forall i :: 0 <= i < |s| ==> IsDigit(s[i])
  {
    if s == [] then 0
    else
      assert IsDigit(s[|s| - 1]);
      Value(s[..|s| - 1]) * 10 + (s[|s| - 1] as int - '0' as int)
  }

  lemma {:induction false} DecIs(n: nat)
    ensures IsDigits(Dec(n)) && Value(Dec(n)) == n
    ensures n < 1000 ==> |Dec(n)| <= 3
  {
    if n >= 10 {
      DecIs(n / 10);
      DecShort(n / 10);
      var front := Dec(n / 10);
      assert (front + [Digit(n % 10)])[..|front|] == front;
    } else {
      assert [Digit(n)][..0] == [];
    }
  }

  lemma DecShort(n: nat)
    ensures n < 10 ==> |Dec(n)| == 1
    ensures n < 100 ==> |Dec(n)| <= 2
  {
  }

  // Splitting at the first separator

  datatype Parts = Parts(before: string, after: Option<string>)

  function SplitAt(s: string, c: char): Parts {
    if s == [] then Parts([], None)
    else if s[0] == c then Parts([], Some(s[1..]))
    else var r := SplitAt(s[1..], c); Parts([s[0]] + r.before, r.after)
  }

  lemma {:induction false} SplitIs(a: string, c: char, b: string)
    requires c !in a
    ensures SplitAt(a + [c] + b, c) == Parts(a, Some(b))
    ensures SplitAt(a, c) == Parts(a, None)
  {
    if a == [] {
      assert a + [c] + b == [c] + b;
    } else {
      SplitIs(a[1..], c, b);
      assert (a + [c] + b)[1..] == a[1..] + [c] + b;
      assert a == [a[0]] + a[1..];
    }
  }

  // IPv4 addresses, as 32-bit numbers with the first octet lowest

  /** A number converted to a signed 32-bit integer, as JavaScript's bit operators do. */
  function ToInt32(n: nat): int {
    if n % 0x1_0000_0000 < 0x8000_0000 then n % 0x1_0000_0000 else n % 0x1_0000_0000 - 0x1_0000_0000
  }

  /** `(ip >> k) & 0xff`, `place` being 2^k: the shift keeps the sign. */
  function Octet(ip: nat, place: nat): nat
    requires place > 0
  {
    ToInt32(ip) / place % 0x100
  }

  function Ntop(ip: nat): string {
    Dec(Octet(ip, 1)) + ['.'] + (Dec(Octet(ip, 0x100)) + ['.']
    + (Dec(Octet(ip, 0x1_0000)) + ['.'] + Dec(Octet(ip, 0x100_0000))))
  }

  /** What one octet's alternatives match: one to three digits, at most 255. */
  function ParseOctet(s: string): Option<nat> {
    if IsDigits(s) && |s| <= 3 && Value(s) <= 255 then Some(Value(s)) else None
  }

  function Pton(s: string): Option<nat> {
    var a := SplitAt(s, '.');
    if a.after.None? then None
    else
      var b := SplitAt(a.after.value, '.');
      if b.after.None? then None
      else
        var c := SplitAt(b.after.value, '.');
        if c.after.None? then None
        else
          match (ParseOctet(a.before), ParseOctet(b.before), ParseOctet(c.before), ParseOctet(c.after.value))
          case (Some(w), Some(x), Some(y), Some(z)) => Some(w + 0x100 * x + 0x1_0000 * y + 0x100_0000 * z)
          case _ => None
  }

  lemma OctetsIs(ip: nat)
    requires ip < 0x1_0000_0000
    ensures Octet(ip, 1) + 0x100 * Octet(ip, 0x100) + 0x1_0000 * Octet(ip, 0x1_0000)
            + 0x100_0000 * Octet(ip, 0x100_0000) == ip
  {
    var n := ToInt32(ip);
    assert n / 0x1_0000 == n / 0x100 / 0x100 && n / 0x100_0000 == n / 0x1_0000 / 0x100;
    assert n / 0x100_0000 % 0x100 == ip / 0x100_0000;
  }

  lemma NoSeparators(s: string)
    requires IsDigits(s)
    ensures ':' !in s && '.' !in s && '-' !in s && '*' !in s
  {
  }

  lemma PtonNtop(ip: nat)
    requires ip < 0x1_0000_0000
    ensures Pton(Ntop(ip)) == Some(ip)
    ensures ':' !in Ntop(ip) && Ntop(ip) != [] && Ntop(ip) != "*"
  {
    var w, x, y, z := Octet(ip, 1), Octet(ip, 0x100), Octet(ip, 0x1_0000), Octet(ip, 0x100_0000);
    OctetsIs(ip);
    OctetParses(w);
    OctetParses(x);
    OctetParses(y);
    OctetParses(z);
    hide Dec, Octet, Pton, ParseOctet;
    FourParts(Dec(w), Dec(x), Dec(y), Dec(z));
    assert Ntop(ip)[|Dec(w)|] == '.' && "*"[0] != '.';
  }

  lemma FourParts(a: string, b: string, c: string, d: string)
    requires '.' !in a && '.' !in b && '.' !in c
    requires ParseOctet(a).Some? && ParseOctet(b).Some? && ParseOctet(c).Some? && ParseOctet(d).Some?
    ensures Pton(a + ['.'] + (b + ['.'] + (c + ['.'] + d)))
            == Some(ParseOctet(a).value + 0x100 * ParseOctet(b).value + 0x1_0000 * ParseOctet(c).value
                    + 0x100_0000 * ParseOctet(d).value)
  {
    hide SplitAt, ParseOctet;
    SplitIs(a, '.', b + ['.'] + (c + ['.'] + d));
    SplitIs(b, '.', c + ['.'] + d);
    SplitIs(c, '.', d);
  }

  lemma OctetParses(n: nat)
    requires n < 0x100
    ensures ParseOctet(Dec(n)) == Some(n)
    ensures ':' !in Dec(n) && '.' !in Dec(n)
  {
    DecIs(n);
    NoSeparators(Dec(n));
    hide Dec, Value, IsDigits;
  }

  // Protocols

  predicate IsSpace(c: char) {
    var n := c as int;
    9 <= n <= 13 || n == 32 || n == 0xA0 || n == 0x1680 || 0x2000 <= n <= 0x200A
    || n == 0x2028 || n == 0x2029 || n == 0x202F || n == 0x205F || n == 0x3000 || n == 0xFEFF
  }

  function TrimStart(s: string): string {
    if s != [] && IsSpace(s[0]) then TrimStart(s[1..]) else s
  }

  function DigitsPrefix(s: string): (r: string)
    ensures forall i :: 0 <= i < |r| ==> IsDigit(r[i])
  {
    if s == [] || !IsDigit(s[0]) then [] else [s[0]] + DigitsPrefix(s[1..])
  }

  /** `parseInt(s, 10)`; None is NaN. */
  function ParseInt(s: string): Option<int> {
    var t := TrimStart(s);
    var signed := t != [] && (t[0] == '-' || t[0] == '+');
    var digits := DigitsPrefix(if signed then t[1..] else t);
    if digits == [] then None
    else
      var n: int := Value(digits);
      Some(if signed && t[0] == '-' then -n else n)
  }

  function ProtocolName(p: nat): Option<string> {
    if p == 1 then Some("icmp") else if p == 6 then Some("tcp") else if p == 17 then Some("udp") else None
  }

  function ProtocolNumber(s: string): Option<nat> {
    if s == "icmp" then Some(1) else if s == "tcp" then Some(6) else if s == "udp" then Some(17) else None
  }

  /** `parseProtocol(parseInt(s, 10) || s)`: a number that is not zero, else a name. */
  function ParseProtocol(s: string): Option<nat> {
    match ParseInt(s)
    case Some(n) =>
      if n == 0 then ProtocolNumber(s) else if n < 0 || n > 255 then None else Some(n % 0x100)
    case None => ProtocolNumber(s)
  }

  function ProtocolString(p: nat): string {
    if ProtocolName(p).Some? then ProtocolName(p).value else if p > 0 then Dec(p) else "*"
  }

  // Ports

  function ParsePort(s: string): Option<nat> {
    if IsDigits(s) && Value(s) <= 65535 then Some(Value(s)) else None
  }

  /** `\d+(-\d+)?`, in either order. */
  function ParsePortRange(s: string): Option<(nat, nat)> {
    var r := SplitAt(s, '-');
    match ParsePort(r.before)
    case None => None
    case Some(a) =>
      if r.after.None? then Some((a, a))
      else
        match ParsePort(r.after.value)
        case None => None
        case Some(b) => Some(if a <= b then (a, b) else (b, a))
  }

  /** The source compares `ports_max`, which no flow has, instead of `port_max`; comparing
      nothing with a number is false, so only a positive `port_min` prints a range. */
  function PortsString(f: Flow): string {
    if f.portMin == f.portMax then Dec(f.portMin)
    else if f.portMin > 0 then Dec(f.portMin) + ['-'] + Dec(f.portMax)
    else "*"
  }

  // Flow expressions

  function ToString(f: Flow): string {
    (if f.ip > 0 then Ntop(f.ip) else "*") + [':'] + (ProtocolString(f.protocol) + [':'] + PortsString(f))
  }

  function ParseIp(s: string): Option<nat> {
    if s == "*" then Some(0) else Pton(s)
  }

  function ParseProtocolPart(s: Option<string>): Option<nat> {
    if s.None? || s.value == "*" then Some(0) else ParseProtocol(s.value)
  }

  function ParsePortsPart(s: Option<string>): Option<(nat, nat)> {
    if s.None? || s.value == "*" then Some((0, 65535)) else ParsePortRange(s.value)
  }

  /** `parseFlow`: one to three parts, none of them empty, only the last with a colon in it. */
  function Parse(s: string): Option<Flow> {
    var a := SplitAt(s, ':');
    var b := if a.after.Some? then SplitAt(a.after.value, ':') else Parts([], None);
    if a.before == [] || (a.after.Some? && b.before == []) || (b.after.Some? && b.after.value == []) then None
    else
      var protocol := if a.after.Some? then Some(b.before) else None;
      match (ParseIp(a.before), ParseProtocolPart(protocol), ParsePortsPart(b.after))
      case (Some(ip), Some(p), Some(ports)) => Some(Flow(ip, p, ports.0, ports.1))
      case _ => None
  }

  /** A part left out is any: an address alone is any protocol and any port of it, and without
      ports any port, just as with `*` in their place. */
  lemma PartsLeftOut(ip: string, protocol: string)
    requires ':' !in ip && ':' !in protocol
    ensures Parse(ip) == Parse(ip + ":*") == Parse(ip + ":*:*")
    ensures Parse(ip) == if ip != [] && ParseIp(ip).Some? then Some(Flow(ParseIp(ip).value, 0, 0, 65535)) else None
    ensures Parse(ip + ":" + protocol) == Parse(ip + ":" + protocol + ":*")
    ensures Parse(ip + ":" + protocol).Some? ==>
              var f := Parse(ip + ":" + protocol).value; f.portMin == 0 && f.portMax == 65535
  {
    hide Parse, ParseIp, Joined;
    OnePart(ip);
    TwoParts(ip, "*");
    TwoParts(ip, protocol);
    ThreeParts(ip, "*", "*");
    ThreeParts(ip, protocol, "*");
    Stars(ip, protocol);
    StarsJoin(ip, protocol);
  }

  lemma Stars(ip: string, protocol: string)
    ensures ip + ":" + "*" == ip + ":*" && ip + ":" + "*" + ":" + "*" == ip + ":*:*"
    ensures ip + ":" + protocol + ":" + "*" == ip + ":" + protocol + ":*"
  {
  }

  lemma StarsJoin(ip: string, protocol: string)
    ensures Joined(ip, None, None) == Joined(ip, Some("*"), None) == Joined(ip, Some("*"), Some("*"))
    ensures Joined(ip, None, None)
            == if ip != [] && ParseIp(ip).Some? then Some(Flow(ParseIp(ip).value, 0, 0, 65535)) else None
    ensures Joined(ip, Some(protocol), None) == Joined(ip, Some(protocol), Some("*"))
    ensures Joined(ip, Some(protocol), None).Some? ==>
              var f := Joined(ip, Some(protocol), None).value; f.portMin == 0 && f.portMax == 65535
  {
    hide ParseIp, ParseProtocol, ParsePortRange;
  }

  /** What three parts parse to, and none of them may be empty. */
  function Joined(ip: string, protocol: Option<string>, ports: Option<string>): Option<Flow> {
    match (ParseIp(ip), ParseProtocolPart(protocol), ParsePortsPart(ports))
    case (Some(i), Some(p), Some(r)) =>
      if ip == [] || protocol == Some([]) || ports == Some([]) then None else Some(Flow(i, p, r.0, r.1))
    case _ => None
  }

  lemma OnePart(ip: string)
    requires ':' !in ip
    ensures Parse(ip) == Joined(ip, None, None)
  {
    SplitIs(ip, ':', []);
    hide SplitAt, ParseIp, ParseProtocolPart, ParsePortsPart;
  }

  lemma TwoParts(ip: string, protocol: string)
    requires ':' !in ip && ':' !in protocol
    ensures Parse(ip + ":" + protocol) == Joined(ip, Some(protocol), None)
  {
    SplitIs(ip, ':', protocol);
    SplitIs(protocol, ':', []);
    hide SplitAt, ParseIp, ParseProtocolPart, ParsePortsPart;
  }

  lemma ThreeParts(ip: string, protocol: string, ports: string)
    requires ':' !in ip && ':' !in protocol
    ensures Parse(ip + ":" + protocol + ":" + ports) == Joined(ip, Some(protocol), Some(ports))
  {
    SplitIs(ip, ':', protocol + ":" + ports);
    SplitIs(protocol, ':', ports);
    assert ip + ":" + protocol + ":" + ports == ip + ":" + (protocol + ":" + ports);
    hide SplitAt, ParseIp, ParseProtocolPart, ParsePortsPart;
  }

  lemma {:induction false} DigitsPrefixIs(s: string)
    requires forall i :: 0 <= i < |s| ==> IsDigit(s[i])
    ensures DigitsPrefix(s) == s
  {
    if s != [] {
      DigitsPrefixIs(s[1..]);
      assert s == [s[0]] + s[1..];
    }
  }

  lemma ParseIntDec(n: nat)
    ensures ParseInt(Dec(n)) == Some(n)
  {
    DecIs(n);
    var s := Dec(n);
    assert IsDigit(s[0]);
    assert !IsSpace(s[0]);
    assert TrimStart(s) == s;
    DigitsPrefixIs(s);
  }

  lemma ParseProtocolString(p: nat)
    requires p < 0x100
    ensures ParseProtocolPart(Some(ProtocolString(p))) == Some(p)
    ensures ':' !in ProtocolString(p) && ProtocolString(p) != []
  {
    if ProtocolName(p).Some? {
      NamesParse();
    } else if p > 0 {
      ParseIntDec(p);
      DecIs(p);
      NoSeparators(Dec(p));
      assert Dec(p) != "*" by {
        assert "*"[0] == '*';
      }
    }
  }

  lemma NamesParse()
    ensures ParseProtocol("icmp") == Some(1) && ParseProtocol("tcp") == Some(6) && ParseProtocol("udp") == Some(17)
  {
    assert TrimStart("icmp") == "icmp" && TrimStart("tcp") == "tcp" && TrimStart("udp") == "udp";
    assert DigitsPrefix("icmp") == [] && DigitsPrefix("tcp") == [] && DigitsPrefix("udp") == [];
  }

  lemma ParsePortDec(n: nat)
    requires n < 0x1_0000
    ensures ParsePort(Dec(n)) == Some(n)
    ensures Dec(n) != [] && Dec(n) != "*" && ':' !in Dec(n) && '-' !in Dec(n)
  {
    DecIs(n);
    NoSeparators(Dec(n));
    hide Dec, Value;
    assert "*"[0] == '*';
  }

  lemma ParseOne(a: nat)
    requires a < 0x1_0000
    ensures ParsePortsPart(Some(Dec(a))) == Some((a, a))
  {
    ParsePortDec(a);
    hide Dec, Value, SplitAt, ParsePort;
    SplitIs(Dec(a), '-', []);
  }

  lemma ParseTwo(a: nat, b: nat)
    requires a < 0x1_0000 && b < 0x1_0000
    ensures ParsePortsPart(Some(Dec(a) + ['-'] + Dec(b))) == Some(if a <= b then (a, b) else (b, a))
    ensures ':' !in Dec(a) + ['-'] + Dec(b) && Dec(a) + ['-'] + Dec(b) != []
  {
    ParsePortDec(a);
    ParsePortDec(b);
    hide Dec, Value, SplitAt, ParsePort;
    SplitIs(Dec(a), '-', Dec(b));
    assert (Dec(a) + ['-'] + Dec(b))[|Dec(a)|] == '-';
  }

  lemma ParsePortsString(f: Flow)
    requires ValidFlow(f)
    ensures ':' !in PortsString(f) && PortsString(f) != []
    ensures ParsePortsPart(Some(PortsString(f)))
            == Some(if f.portMin == f.portMax then (f.portMin, f.portMin)
                    else if f.portMin == 0 then (0, 65535)
                    else if f.portMin < f.portMax then (f.portMin, f.portMax)
                    else (f.portMax, f.portMin))
  {
    hide Dec, ParsePortRange;
    ParsePortDec(f.portMin);
    ParseOne(f.portMin);
    ParseTwo(f.portMin, f.portMax);
  }

  /** Parsing a printed flow gives the flow back, for every address and protocol, exactly when
      its ports are in order and it is not a range from port zero to anything between. */
  lemma PrintParses(f: Flow)
    requires ValidFlow(f)
    ensures Parse(ToString(f)) == Some(f)
            <==> f.portMin <= f.portMax && (f.portMin > 0 || f.portMax == 0 || f.portMax == 65535)
  {
    var ip, protocol, ports := if f.ip > 0 then Ntop(f.ip) else "*", ProtocolString(f.protocol), PortsString(f);
    PtonNtop(f.ip);
    ParseProtocolString(f.protocol);
    ParsePortsString(f);
    assert ParseIp(ip) == Some(f.ip) && ':' !in ip && ip != [];
    hide Ntop, Pton, ProtocolString, PortsString, ParseIp, ParseProtocolPart, ParsePortsPart, SplitAt;
    SplitIs(ip, ':', protocol + [':'] + ports);
    SplitIs(protocol, ':', ports);
    assert ToString(f) == ip + [':'] + (protocol + [':'] + ports);
  }

  /** Whatever parses is a valid flow with its ports in order. */
  lemma ParseGivesValid(s: string)
    requires Parse(s).Some?
    ensures ValidFlow(Parse(s).value) && Parse(s).value.portMin <= Parse(s).value.portMax
  {
    hide SplitAt, ParseInt, Value, IsDigits;
  }

  /** So an expression that a user entered survives printing exactly when its range of ports is
      not one from zero to anything between. */
  lemma ParsedPrints(s: string)
    requires Parse(s).Some?
    ensures var f := Parse(s).value;
            Parse(ToString(f)) == Some(f) <==> f.portMin > 0 || f.portMax == 0 || f.portMax == 65535
  {
    ParseGivesValid(s);
    PrintParses(Parse(s).value);
    hide Parse, ToString;
  }

  /** Such a range prints as any port. */
  lemma RangeFromZeroIsLost()
    ensures var f := Flow(0, 6, 0, 80); Parse(ToString(f)) == Some(f.(portMax := 65535))
  {
    var f := Flow(0, 6, 0, 80);
    PrintParses(f.(portMax := 65535));
    assert ToString(f) == ToString(f.(portMax := 65535)) by {
      hide ProtocolString;
    }
    hide ToString, Parse;
  }
}
