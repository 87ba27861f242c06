/**
 Textual freshness tokens of a resolved SSH connection, and a decoder that reads every source
 fact back out of them.

 Text is modelled by its UTF-8 bytes, one `char` for each byte, so `|s|` is the byte length that
 the token writes in front of a user name. Every `Put` function writes one token part in front of
 a given tail; a whole token is the same text with an empty tail.
 */
module RevisionToken {
  import opened Basics

  predicate IsSeparator(c: char) {
    c == ':' || c == ';' || c == ','
  }

  predicate IsPlain(c: char) {
    !IsSeparator(c)
  }

  predicate IsDigit(c: char) {
    '0' <= c <= '9'
  }

  /** Host and credential ids are UUID texts; only the absence of separators matters here. */
  type Id = s: string | s != [] && forall c | c in s :: IsPlain(c) witness "0"

  datatype CredentialRevision = CredentialRevision(id: Id, version: nat)

  datatype IngressRevision =
    | NoProxyCredential
    | ProxyCredential(credential: CredentialRevision, username: string)

  datatype JumpRevision = JumpRevision(
    hostId: Id,
    hostVersion: nat,
    username: string,
    authentication: nat,
    algorithm: nat,
    route: nat,
    credentials: seq<CredentialRevision>)

  datatype BaseRevision = BaseRevision(
    hostId: Id,
    hostVersion: nat,
    username: string,
    route: nat,
    authentication: nat,
    algorithm: nat,
    ingress: IngressRevision,
    jumps: seq<JumpRevision>,
    credentials: seq<CredentialRevision>)

  datatype TerminalRevision = TerminalRevision(connection: BaseRevision, heartbeat: nat, login: nat)

  datatype MetricsRevision = MetricsRevision(connection: BaseRevision, monitoring: nat)

  // ---------------------------------------------------------------- writing

  function Digit(n: nat): char
    requires n < 10
  {
    '0' + n as char
  }

  function Decimal(n: nat): (s: string)
    ensures s != []
    ensures forall c | c in s :: IsDigit(c)
  {
    if n < 10 then [Digit(n)] else Decimal(n / 10) + [Digit(n % 10)]
  }

  function PutNumber(n: nat, tail: string): string {
    Decimal(n) + tail
  }

  function PutText(value: string, tail: string): string {
    PutNumber(|value|, ":" + (value + tail))
  }

  function PutCredential(c: CredentialRevision, tail: string): string {
    c.id + (":" + PutNumber(c.version, tail))
  }

  function PutCredentials(cs: seq<CredentialRevision>, tail: string): string {
    if cs == [] then tail
    else if |cs| == 1 then PutCredential(cs[0], tail)
    else PutCredential(cs[0], "," + PutCredentials(cs[1..], tail))
  }

  function PutIngress(ingress: IngressRevision, tail: string): string {
    match ingress
    case NoProxyCredential => "none" + tail
    case ProxyCredential(credential, username) => PutCredential(credential, ":" + PutText(username, tail))
  }

  function PutJump(j: JumpRevision, tail: string): string {
    "jump-v2:" + (j.hostId + (":" + PutNumber(j.hostVersion, ":" + PutText(j.username, ":"
    + PutNumber(j.authentication, ":" + PutNumber(j.algorithm, ":" + PutNumber(j.route, ":"
    + PutCredentials(j.credentials, tail))))))))
  }

  function PutJumps(js: seq<JumpRevision>, tail: string): string {
    if js == [] then tail
    else if |js| == 1 then PutJump(js[0], tail)
    else PutJump(js[0], ";" + PutJumps(js[1..], tail))
  }

  function PutRoute(b: BaseRevision, tail: string): string {
    PutIngress(b.ingress, ":" + PutJumps(b.jumps, ":" + PutCredentials(b.credentials, tail)))
  }

  function PutBase(b: BaseRevision, tail: string): string {
    "base-v2:" + (b.hostId + (":" + PutNumber(b.hostVersion, ":" + PutText(b.username, ":"
    + PutNumber(b.route, ":" + PutNumber(b.authentication, ":" + PutNumber(b.algorithm, ":"
    + PutRoute(b, tail))))))))
  }

  function BaseToken(b: BaseRevision): string {
    PutBase(b, "")
  }

  function TerminalToken(t: TerminalRevision): string {
    "terminal-v1:" + PutBase(t.connection, ":heartbeat:" + PutNumber(t.heartbeat, ":login:" + Decimal(t.login)))
  }

  function MetricsToken(m: MetricsRevision): string {
    "metrics-probe-v1:" + PutBase(m.connection, ":monitoring:" + Decimal(m.monitoring))
  }

  // ---------------------------------------------------------------- reading

  /** Length of the longest prefix of `s` whose characters all satisfy `p`. */
  function Span(s: string, p: char -> bool): (k: nat)
    ensures k <= |s|
    ensures forall i | 0 <= i < k :: p(s[i])
    ensures k < |s| ==> !p(s[k])
  {
    if s == [] || !p(s[0]) then 0 else 1 + Span(s[1..], p)
  }

  function Value(digits: string): nat
    requires forall c | c in digits :: IsDigit(c)
  {
    if digits == [] then 0
    else
      var last := digits[|digits| - 1];
      assert IsDigit(last);
      Value(digits[..|digits| - 1]) * 10 + (last - '0') as nat
  }

  function Skip(literal: string, s: string): (rest: Option<string>)
    ensures rest.Some? ==> |rest.value| <= |s|
  {
    if literal <= s then Some(s[|literal|..]) else None
  }

  function ReadNumber(s: string): (r: Option<(nat, string)>)
    ensures r.Some? ==> |r.value.1| < |s|
  {
    var k := Span(s, IsDigit);
    if k == 0 then None else Some((Value(s[..k]), s[k..]))
  }

  function ReadId(s: string): (r: Option<(Id, string)>)
    ensures r.Some? ==> |r.value.1| < |s|
  {
    var k := Span(s, IsPlain);
    if k == 0 then None else Some((s[..k], s[k..]))
  }

  function ReadText(s: string): (r: Option<(string, string)>)
    ensures r.Some? ==> |r.value.1| < |s|
  {
    var (n, s1) :- ReadNumber(s);
    var s2 :- Skip(":", s1);
    if n <= |s2| then Some((s2[..n], s2[n..])) else None
  }

  function ReadCredential(s: string): (r: Option<(CredentialRevision, string)>)
    ensures r.Some? ==> |r.value.1| < |s|
  {
    var (id, s1) :- ReadId(s);
    var s2 :- Skip(":", s1);
    var (version, s3) :- ReadNumber(s2);
    Some((CredentialRevision(id, version), s3))
  }

  /** A credential list ends where no further credential can start: the end, `:` or `;`. */
  function ReadCredentials(s: string): (r: Option<(seq<CredentialRevision>, string)>)
    ensures r.Some? ==> |r.value.1| <= |s|
    decreases |s|
  {
    if s == [] || IsSeparator(s[0]) then Some(([], s))
    else
      var (c, s1) :- ReadCredential(s);
      if s1 != [] && s1[0] == ',' then
        var (cs, s2) :- ReadCredentials(s1[1..]);
        Some(([c] + cs, s2))
      else
        Some(([c], s1))
  }

  /** "none" names a missing proxy credential unless a version number follows it. */
  function ReadIngress(s: string): Option<(IngressRevision, string)> {
    var (id, s1) :- ReadId(s);
    if id == "none" && !(|s1| >= 2 && IsDigit(s1[1])) then Some((NoProxyCredential, s1))
    else
      var (credential, s2) :- ReadCredential(s);
      var s3 :- Skip(":", s2);
      var (username, s4) :- ReadText(s3);
      Some((ProxyCredential(credential, username), s4))
  }

  function ReadJump(s: string): (r: Option<(JumpRevision, string)>)
    ensures r.Some? ==> |r.value.1| < |s|
  {
    var s :- Skip("jump-v2:", s);
    var (hostId, s) :- ReadId(s);
    var s :- Skip(":", s);
    var (hostVersion, s) :- ReadNumber(s);
    var s :- Skip(":", s);
    var (username, s) :- ReadText(s);
    var s :- Skip(":", s);
    var (authentication, s) :- ReadNumber(s);
    var s :- Skip(":", s);
    var (algorithm, s) :- ReadNumber(s);
    var s :- Skip(":", s);
    var (route, s) :- ReadNumber(s);
    var s :- Skip(":", s);
    var (credentials, s) :- ReadCredentials(s);
    Some((JumpRevision(hostId, hostVersion, username, authentication, algorithm, route, credentials), s))
  }

  function ReadJumps(s: string): (r: Option<(seq<JumpRevision>, string)>)
    ensures r.Some? ==> |r.value.1| <= |s|
    decreases |s|
  {
    if s == [] || s[0] == ':' then Some(([], s))
    else
      var (j, s1) :- ReadJump(s);
      if s1 != [] && s1[0] == ';' then
        var (js, s2) :- ReadJumps(s1[1..]);
        Some(([j] + js, s2))
      else
        Some(([j], s1))
  }

  function ReadRoute(s: string): Option<((IngressRevision, seq<JumpRevision>, seq<CredentialRevision>), string)> {
    var (ingress, s) :- ReadIngress(s);
    var s :- Skip(":", s);
    var (jumps, s) :- ReadJumps(s);
    var s :- Skip(":", s);
    var (credentials, s) :- ReadCredentials(s);
    Some(((ingress, jumps, credentials), s))
  }

  function ReadBase(s: string): Option<(BaseRevision, string)> {
    var s :- Skip("base-v2:", s);
    var (hostId, s) :- ReadId(s);
    var s :- Skip(":", s);
    var (hostVersion, s) :- ReadNumber(s);
    var s :- Skip(":", s);
    var (username, s) :- ReadText(s);
    var s :- Skip(":", s);
    var (route, s) :- ReadNumber(s);
    var s :- Skip(":", s);
    var (authentication, s) :- ReadNumber(s);
    var s :- Skip(":", s);
    var (algorithm, s) :- ReadNumber(s);
    var s :- Skip(":", s);
    var (way, s) :- ReadRoute(s);
    Some((BaseRevision(hostId, hostVersion, username, route, authentication, algorithm, way.0, way.1, way.2), s))
  }

  function DecodeTerminal(s: string): Option<TerminalRevision> {
    var s :- Skip("terminal-v1:", s);
    var (connection, s) :- ReadBase(s);
    var s :- Skip(":heartbeat:", s);
    var (heartbeat, s) :- ReadNumber(s);
    var s :- Skip(":login:", s);
    var (login, _) :- ReadNumber(s);
    Some(TerminalRevision(connection, heartbeat, login))
  }

  function DecodeMetrics(s: string): Option<MetricsRevision> {
    var s :- Skip("metrics-probe-v1:", s);
    var (connection, s) :- ReadBase(s);
    var s :- Skip(":monitoring:", s);
    var (monitoring, _) :- ReadNumber(s);
    Some(MetricsRevision(connection, monitoring))
  }

  // ---------------------------------------------------------------- round trips

  /** A tail that cannot be mistaken for more of a number, an id or a credential list. */
  predicate EndsList(tail: string) {
    tail == [] || tail[0] == ':' || tail[0] == ';'
  }

  lemma {:induction false} SpanOfPrefix(a: string, tail: string, p: char -> bool)
    requires forall c | c in a :: p(c)
    requires tail == [] || !p(tail[0])
    ensures Span(a + tail, p) == |a|
    ensures (a + tail)[..|a|] == a && (a + tail)[|a|..] == tail
  {
    if a == [] {
      assert a + tail == tail;
    } else {
      assert (a + tail)[1..] == a[1..] + tail;
      SpanOfPrefix(a[1..], tail, p);
    }
  }

  lemma {:induction false} ValueOfDecimal(n: nat)
    ensures Value(Decimal(n)) == n
  {
    if n >= 10 {
      ValueOfDecimal(n / 10);
      assert Decimal(n)[..|Decimal(n)| - 1] == Decimal(n / 10);
    }
  }

  lemma SkipLiteral(literal: string, tail: string)
    ensures Skip(literal, literal + tail) == Some(tail)
  {
    assert (literal + tail)[|literal|..] == tail;
  }

  lemma NumberRoundTrip(n: nat, tail: string)
    requires tail == [] || !IsDigit(tail[0])
    ensures ReadNumber(PutNumber(n, tail)) == Some((n, tail))
  {
    SpanOfPrefix(Decimal(n), tail, IsDigit);
    ValueOfDecimal(n);
  }

  lemma IdRoundTrip(id: Id, tail: string)
    requires tail == [] || IsSeparator(tail[0])
    ensures ReadId(id + tail) == Some((id, tail))
  {
    SpanOfPrefix(id, tail, IsPlain);
  }

  lemma TextRoundTrip(value: string, tail: string)
    ensures ReadText(PutText(value, tail)) == Some((value, tail))
  {
    NumberRoundTrip(|value|, ":" + (value + tail));
    SkipLiteral(":", value + tail);
    assert (value + tail)[..|value|] == value && (value + tail)[|value|..] == tail;
  }

  lemma CredentialRoundTrip(c: CredentialRevision, tail: string)
    requires tail == [] || !IsDigit(tail[0])
    ensures ReadCredential(PutCredential(c, tail)) == Some((c, tail))
  {
    IdRoundTrip(c.id, ":" + PutNumber(c.version, tail));
    SkipLiteral(":", PutNumber(c.version, tail));
    NumberRoundTrip(c.version, tail);
  }

  lemma CredentialStarts(c: CredentialRevision, tail: string)
    ensures PutCredential(c, tail) != [] && !IsSeparator(PutCredential(c, tail)[0])
  {
    assert PutCredential(c, tail)[0] == c.id[0] && c.id[0] in c.id;
  }

  lemma LastCredential(c: CredentialRevision, tail: string)
    requires EndsList(tail)
    ensures ReadCredentials(PutCredential(c, tail)) == Some(([c], tail))
  {
    CredentialStarts(c, tail);
    CredentialRoundTrip(c, tail);
  }

  lemma NextCredential(c: CredentialRevision, more: string, cs: seq<CredentialRevision>, tail: string)
    requires ReadCredentials(more) == Some((cs, tail))
    ensures ReadCredentials(PutCredential(c, "," + more)) == Some(([c] + cs, tail))
  {
    var after := "," + more;
    CredentialStarts(c, after);
    CredentialRoundTrip(c, after);
    assert after[1..] == more;
  }

  lemma {:induction false} CredentialsRoundTrip(cs: seq<CredentialRevision>, tail: string)
    requires EndsList(tail)
    ensures ReadCredentials(PutCredentials(cs, tail)) == Some((cs, tail))
  {
    if |cs| == 1 {
      LastCredential(cs[0], tail);
      assert cs == [cs[0]];
    } else if cs != [] {
      CredentialsRoundTrip(cs[1..], tail);
      NextCredential(cs[0], PutCredentials(cs[1..], tail), cs[1..], tail);
      assert cs == [cs[0]] + cs[1..];
    }
  }

  lemma IngressRoundTrip(ingress: IngressRevision, tail: string)
    requires |tail| >= 2 && tail[0] == ':' && !IsDigit(tail[1])
    ensures ReadIngress(PutIngress(ingress, tail)) == Some((ingress, tail))
  {
    match ingress
    case NoProxyCredential =>
      IdRoundTrip("none", tail);
    case ProxyCredential(credential, username) =>
      var afterVersion := ":" + PutText(username, tail);
      var afterId := ":" + PutNumber(credential.version, afterVersion);
      IdRoundTrip(credential.id, afterId);
      assert afterId[1] == Decimal(credential.version)[0];
      CredentialRoundTrip(credential, afterVersion);
      SkipLiteral(":", PutText(username, tail));
      TextRoundTrip(username, tail);
  }

  lemma JumpRoundTrip(j: JumpRevision, tail: string)
    requires EndsList(tail)
    ensures ReadJump(PutJump(j, tail)) == Some((j, tail))
  {
    var s8 := PutCredentials(j.credentials, tail);
    var s7 := ":" + s8;
    var s6 := ":" + PutNumber(j.route, s7);
    var s5 := ":" + PutNumber(j.algorithm, s6);
    var s4 := ":" + PutNumber(j.authentication, s5);
    var s3 := ":" + PutText(j.username, s4);
    var s2 := ":" + PutNumber(j.hostVersion, s3);
    SkipLiteral("jump-v2:", j.hostId + s2);
    IdRoundTrip(j.hostId, s2);
    SkipLiteral(":", PutNumber(j.hostVersion, s3));
    NumberRoundTrip(j.hostVersion, s3);
    SkipLiteral(":", PutText(j.username, s4));
    TextRoundTrip(j.username, s4);
    SkipLiteral(":", PutNumber(j.authentication, s5));
    NumberRoundTrip(j.authentication, s5);
    SkipLiteral(":", PutNumber(j.algorithm, s6));
    NumberRoundTrip(j.algorithm, s6);
    SkipLiteral(":", PutNumber(j.route, s7));
    NumberRoundTrip(j.route, s7);
    SkipLiteral(":", s8);
    CredentialsRoundTrip(j.credentials, tail);
  }

  lemma LastJump(j: JumpRevision, tail: string)
    requires tail != [] && tail[0] == ':'
    ensures ReadJumps(PutJump(j, tail)) == Some(([j], tail))
  {
    JumpRoundTrip(j, tail);
  }

  lemma NextJump(j: JumpRevision, more: string, js: seq<JumpRevision>, tail: string)
    requires ReadJumps(more) == Some((js, tail))
    ensures ReadJumps(PutJump(j, ";" + more)) == Some(([j] + js, tail))
  {
    var after := ";" + more;
    assert after[1..] == more;
    NextJumpAfter(j, after, js, tail);
  }

  lemma NextJumpAfter(j: JumpRevision, after: string, js: seq<JumpRevision>, tail: string)
    requires after != [] && after[0] == ';' && ReadJumps(after[1..]) == Some((js, tail))
    ensures ReadJumps(PutJump(j, after)) == Some(([j] + js, tail))
  {
    JumpRoundTrip(j, after);
  }

  lemma {:induction false} JumpsRoundTrip(js: seq<JumpRevision>, tail: string)
    requires tail != [] && tail[0] == ':'
    ensures ReadJumps(PutJumps(js, tail)) == Some((js, tail))
  {
    if |js| == 1 {
      LastJump(js[0], tail);
      assert js == [js[0]];
    } else if js != [] {
      JumpsRoundTrip(js[1..], tail);
      NextJump(js[0], PutJumps(js[1..], tail), js[1..], tail);
      assert js == [js[0]] + js[1..];
    }
  }

  lemma RouteRoundTrip(b: BaseRevision, tail: string)
    requires EndsList(tail)
    ensures ReadRoute(PutRoute(b, tail)) == Some(((b.ingress, b.jumps, b.credentials), tail))
  {
    var s10 := PutCredentials(b.credentials, tail);
    var s9 := ":" + s10;
    var s8 := ":" + PutJumps(b.jumps, s9);
    IngressRoundTrip(b.ingress, s8);
    SkipLiteral(":", PutJumps(b.jumps, s9));
    JumpsRoundTrip(b.jumps, s9);
    SkipLiteral(":", s10);
    CredentialsRoundTrip(b.credentials, tail);
  }

  /** The decoder recovers every source fact from a base token, whatever user names contain. */
  lemma BaseRoundTrip(b: BaseRevision, tail: string)
    requires EndsList(tail)
    ensures ReadBase(PutBase(b, tail)) == Some((b, tail))
  {
    var s7 := ":" + PutRoute(b, tail);
    var s6 := ":" + PutNumber(b.algorithm, s7);
    var s5 := ":" + PutNumber(b.authentication, s6);
    var s4 := ":" + PutNumber(b.route, s5);
    var s3 := ":" + PutText(b.username, s4);
    var s2 := ":" + PutNumber(b.hostVersion, s3);
    SkipLiteral("base-v2:", b.hostId + s2);
    IdRoundTrip(b.hostId, s2);
    SkipLiteral(":", PutNumber(b.hostVersion, s3));
    NumberRoundTrip(b.hostVersion, s3);
    SkipLiteral(":", PutText(b.username, s4));
    TextRoundTrip(b.username, s4);
    SkipLiteral(":", PutNumber(b.route, s5));
    NumberRoundTrip(b.route, s5);
    SkipLiteral(":", PutNumber(b.authentication, s6));
    NumberRoundTrip(b.authentication, s6);
    SkipLiteral(":", PutNumber(b.algorithm, s7));
    NumberRoundTrip(b.algorithm, s7);
    SkipLiteral(":", PutRoute(b, tail));
    RouteRoundTrip(b, tail);
  }

  lemma TerminalRoundTrip(t: TerminalRevision)
    ensures DecodeTerminal(TerminalToken(t)) == Some(t)
  {
    var login := Decimal(t.login);
    var afterBase := PutNumber(t.heartbeat, ":login:" + login);
    SkipLiteral("terminal-v1:", PutBase(t.connection, ":heartbeat:" + afterBase));
    BaseRoundTrip(t.connection, ":heartbeat:" + afterBase);
    SkipLiteral(":heartbeat:", afterBase);
    NumberRoundTrip(t.heartbeat, ":login:" + login);
    SkipLiteral(":login:", login);
    LastNumberRoundTrip(t.login);
  }

  lemma LastNumberRoundTrip(n: nat)
    ensures ReadNumber(Decimal(n)) == Some((n, ""))
  {
    assert Decimal(n) == PutNumber(n, "");
    NumberRoundTrip(n, "");
  }

  lemma MetricsRoundTrip(m: MetricsRevision)
    ensures DecodeMetrics(MetricsToken(m)) == Some(m)
  {
    var monitoring := Decimal(m.monitoring);
    SkipLiteral("metrics-probe-v1:", PutBase(m.connection, ":monitoring:" + monitoring));
    BaseRoundTrip(m.connection, ":monitoring:" + monitoring);
    SkipLiteral(":monitoring:", monitoring);
    LastNumberRoundTrip(m.monitoring);
  }

  // Equal tokens were written from equal sources.

  lemma BaseTokenIsInjective(b: BaseRevision, b': BaseRevision)
    requires BaseToken(b) == BaseToken(b')
    ensures b == b'
  {
    BaseRoundTrip(b, "");
    BaseRoundTrip(b', "");
  }

  lemma TerminalTokenIsInjective(t: TerminalRevision, t': TerminalRevision)
    requires TerminalToken(t) == TerminalToken(t')
    ensures t == t'
  {
    TerminalRoundTrip(t);
    TerminalRoundTrip(t');
  }

  lemma MetricsTokenIsInjective(m: MetricsRevision, m': MetricsRevision)
    requires MetricsToken(m) == MetricsToken(m')
    ensures m == m'
  {
    MetricsRoundTrip(m);
    MetricsRoundTrip(m');
  }
}
