/**
 The server side of a SOCKS5 handshake: method selection and CONNECT requests, sections 3 to 6 of
 RFC 1928. The client's bytes are a finite stream; a stream that ends, or that stays silent until
 the handshake deadline, is the same truncated input.
 */
module Socks5 {
  import opened Basics

  type byte = x: int | 0 <= x < 256

  const VERSION: byte := 5
  const NO_AUTH: byte := 0
  const NO_ACCEPTABLE_AUTH: byte := 0xff
  const CONNECT: byte := 1
  const ADDRESS_IPV4: byte := 1
  const ADDRESS_DOMAIN: byte := 3
  const ADDRESS_IPV6: byte := 4

  datatype Address = IPv4(octets: seq<byte>) | IPv6(octets: seq<byte>) | Domain(name: seq<byte>)

  datatype Target = Target(address: Address, port: nat)

  datatype Code =
    | SocksTruncated
    | SocksAuthenticationRejected
    | SocksCommandRejected
    | SocksAddressRejected
    | Protocol
    | RemoteRegistrationRejected
    | TargetConnect
    | ConnectTimeout
    | OtherFailure

  datatype Message = Selection(choice: byte) | Reply(status: byte) {
    function Bytes(): seq<byte> {
      match this
      case Selection(choice) => [VERSION, choice]
      case Reply(status) => [VERSION, status, 0, ADDRESS_IPV4, 0, 0, 0, 0, 0, 0]
    }
  }

  /** How a handshake ended, how many bytes it took from the client and what it wrote. */
  datatype Outcome = Outcome(result: Result<Target, Code>, consumed: nat, written: seq<Message>)

  // ---------------------------------------------------------------- what RFC 1928 asks for

  predicate IsNameByte(b: byte) {
    0x21 <= b <= 0x7e
  }

  predicate ValidAddress(a: Address) {
    match a
    case IPv4(octets) => |octets| == 4
    case IPv6(octets) => |octets| == 16
    case Domain(name) => 1 <= |name| <= 255 && forall b | b in name :: IsNameByte(b)
  }

  predicate ValidTarget(t: Target) {
    ValidAddress(t.address) && 1 <= t.port <= 65535
  }

  predicate ValidMethods(methods: seq<byte>) {
    1 <= |methods| <= 255 && NO_AUTH in methods
  }

  function EncodeAddress(a: Address): seq<byte>
    requires ValidAddress(a)
  {
    match a
    case IPv4(octets) => [ADDRESS_IPV4] + octets
    case IPv6(octets) => [ADDRESS_IPV6] + octets
    case Domain(name) => [ADDRESS_DOMAIN, |name|] + name
  }

  function EncodePort(port: nat): seq<byte>
    requires port <= 65535
  {
    [port / 256, port % 256]
  }

  /** What a client sends: the greeting, then a CONNECT request. */
  function Encode(methods: seq<byte>, t: Target): seq<byte>
    requires ValidMethods(methods) && ValidTarget(t)
  {
    [VERSION, |methods|] + methods + [VERSION, CONNECT, 0] + EncodeAddress(t.address) + EncodePort(t.port)
  }

  // ---------------------------------------------------------------- the reader

  function Failed(code: Code, consumed: nat, written: seq<Message>): Outcome {
    Outcome(Failure(code), consumed, written)
  }

  const CHOSEN := [Selection(NO_AUTH)]

  function Rejected(code: Code, consumed: nat, status: byte): Outcome {
    Failed(code, consumed, CHOSEN + [Reply(status)])
  }

  predicate Offered(input: seq<byte>, from: nat, to: nat)
    requires to <= |input|
  {
    exists i | from <= i < to :: input[i] == NO_AUTH
  }

  predicate Printable(input: seq<byte>, from: nat, to: nat)
    requires to <= |input|
  {
    forall i | from <= i < to :: IsNameByte(input[i])
  }

  function ReadPort(input: seq<byte>, at: nat, address: Address): Outcome
    requires at <= |input|
  {
    if |input| < at + 2 then Failed(SocksTruncated, |input|, CHOSEN)
    else
      var port := input[at] as nat * 256 + input[at + 1] as nat;
      if port == 0 then Rejected(SocksAddressRejected, at + 2, 8)
      else Outcome(Success(Target(address, port)), at + 2, CHOSEN)
  }

  function ReadDomain(input: seq<byte>, at: nat): Outcome
    requires at <= |input|
  {
    if |input| < at + 1 then Failed(SocksTruncated, |input|, CHOSEN)
    else if input[at] == 0 then Rejected(SocksAddressRejected, at + 1, 8)
    else
      var end := at + 1 + input[at];
      if |input| < end then Failed(SocksTruncated, |input|, CHOSEN)
      else if !Printable(input, at + 1, end) then Rejected(SocksAddressRejected, end, 8)
      else ReadPort(input, end, Domain(input[at + 1..end]))
  }

  function ReadAddress(input: seq<byte>, at: nat, kind: byte): Outcome
    requires at <= |input|
  {
    if kind == ADDRESS_IPV4 then
      if |input| < at + 4 then Failed(SocksTruncated, |input|, CHOSEN)
      else ReadPort(input, at + 4, IPv4(input[at..at + 4]))
    else if kind == ADDRESS_IPV6 then
      if |input| < at + 16 then Failed(SocksTruncated, |input|, CHOSEN)
      else ReadPort(input, at + 16, IPv6(input[at..at + 16]))
    else if kind == ADDRESS_DOMAIN then ReadDomain(input, at)
    else Rejected(SocksAddressRejected, at, 8)
  }

  function ReadRequest(input: seq<byte>, at: nat): Outcome
    requires at <= |input|
  {
    if |input| < at + 4 then Failed(SocksTruncated, |input|, CHOSEN)
    else if input[at] != VERSION || input[at + 2] != 0 then Rejected(Protocol, at + 4, 1)
    else if input[at + 1] != CONNECT then Rejected(SocksCommandRejected, at + 4, 7)
    else ReadAddress(input, at + 4, input[at + 3])
  }

  /** The greeting ends the handshake, or its end is where the request begins. */
  datatype Greeting = Dismissed(outcome: Outcome) | Greeted(end: nat)

  function ReadGreeting(input: seq<byte>): (g: Greeting)
    ensures g.Greeted? ==> 2 <= g.end <= |input| && g.end == 2 + input[1] as nat
  {
    if |input| < 2 then Dismissed(Failed(SocksTruncated, |input|, []))
    else if input[0] != VERSION then Dismissed(Failed(Protocol, 2, []))
    else if input[1] == 0 then Dismissed(Failed(SocksAuthenticationRejected, 2, [Selection(NO_ACCEPTABLE_AUTH)]))
    else
      var end := 2 + input[1] as nat;
      if |input| < end then Dismissed(Failed(SocksTruncated, |input|, []))
      else if !Offered(input, 2, end) then
        Dismissed(Failed(SocksAuthenticationRejected, end, [Selection(NO_ACCEPTABLE_AUTH)]))
      else Greeted(end)
  }

  /** `selected` says whether writing the method selection succeeds. */
  function ReadHandshake(input: seq<byte>, selected: bool): Outcome {
    match ReadGreeting(input)
    case Dismissed(outcome) => outcome
    case Greeted(end) => if !selected then Failed(Protocol, end, CHOSEN) else ReadRequest(input, end)
  }

  // ---------------------------------------------------------------- it accepts exactly the encoded requests

  /** A stretch of the input, cut into a head, a middle part and the rest. */
  lemma Cut(input: seq<byte>, at: nat, head: seq<byte>, middle: seq<byte>, tail: seq<byte>)
    requires at <= |input| && input[at..] == head + middle + tail
    ensures |input| == at + |head| + |middle| + |tail|
    ensures input[at..at + |head|] == head
    ensures input[at + |head|..at + |head| + |middle|] == middle
    ensures input[at + |head| + |middle|..] == tail
  {
    var body := input[at..];
    assert body[..|head|] == head;
    assert body[|head|..|head| + |middle|] == middle;
    assert body[|head| + |middle|..] == tail;
  }

  lemma PortRoundTrip(input: seq<byte>, at: nat, address: Address, port: nat, rest: seq<byte>)
    requires 1 <= port <= 65535 && at <= |input| && input[at..] == EncodePort(port) + rest
    ensures ReadPort(input, at, address) == Outcome(Success(Target(address, port)), |input| - |rest|, CHOSEN)
  {
    assert input[at..][0] == port / 256 && input[at..][1] == port % 256;
    assert (port / 256) * 256 + port % 256 == port;
  }

  lemma IPv4RoundTrip(input: seq<byte>, at: nat, octets: seq<byte>, port: nat, rest: seq<byte>)
    requires |octets| == 4 && 1 <= port <= 65535 && at < |input|
    requires input[at..] == [ADDRESS_IPV4] + octets + (EncodePort(port) + rest)
    ensures ReadAddress(input, at + 1, input[at])
            == Outcome(Success(Target(IPv4(octets), port)), |input| - |rest|, CHOSEN)
  {
    Cut(input, at, [ADDRESS_IPV4], octets, EncodePort(port) + rest);
    assert input[at] == input[at..at + 1][0];
    PortRoundTrip(input, at + 5, IPv4(octets), port, rest);
  }

  lemma IPv6RoundTrip(input: seq<byte>, at: nat, octets: seq<byte>, port: nat, rest: seq<byte>)
    requires |octets| == 16 && 1 <= port <= 65535 && at < |input|
    requires input[at..] == [ADDRESS_IPV6] + octets + (EncodePort(port) + rest)
    ensures ReadAddress(input, at + 1, input[at])
            == Outcome(Success(Target(IPv6(octets), port)), |input| - |rest|, CHOSEN)
  {
    Cut(input, at, [ADDRESS_IPV6], octets, EncodePort(port) + rest);
    assert input[at] == input[at..at + 1][0];
    PortRoundTrip(input, at + 17, IPv6(octets), port, rest);
  }

  lemma DomainRoundTrip(input: seq<byte>, at: nat, name: seq<byte>, port: nat, rest: seq<byte>)
    requires ValidAddress(Domain(name)) && 1 <= port <= 65535 && at < |input|
    requires input[at..] == [ADDRESS_DOMAIN, |name|] + name + (EncodePort(port) + rest)
    ensures ReadAddress(input, at + 1, input[at])
            == Outcome(Success(Target(Domain(name), port)), |input| - |rest|, CHOSEN)
  {
    Cut(input, at, [ADDRESS_DOMAIN, |name|], name, EncodePort(port) + rest);
    assert input[at] == input[at..at + 2][0] && input[at + 1] == input[at..at + 2][1];
    PortRoundTrip(input, at + 2 + |name|, Domain(name), port, rest);
  }

  /** The tail of a request, from its address type on, when it starts at `at`. */
  lemma AddressRoundTrip(input: seq<byte>, at: nat, t: Target, rest: seq<byte>)
    requires ValidTarget(t) && at < |input|
    requires input[at..] == EncodeAddress(t.address) + (EncodePort(t.port) + rest)
    ensures ReadAddress(input, at + 1, input[at]) == Outcome(Success(t), |input| - |rest|, CHOSEN)
  {
    match t.address
    case IPv4(octets) => IPv4RoundTrip(input, at, octets, t.port, rest);
    case IPv6(octets) => IPv6RoundTrip(input, at, octets, t.port, rest);
    case Domain(name) => DomainRoundTrip(input, at, name, t.port, rest);
  }

  function EncodeRequest(t: Target): seq<byte>
    requires ValidTarget(t)
  {
    [VERSION, CONNECT, 0] + EncodeAddress(t.address) + EncodePort(t.port)
  }

  lemma RequestRoundTrip(input: seq<byte>, at: nat, t: Target, rest: seq<byte>)
    requires ValidTarget(t) && at <= |input| && input[at..] == EncodeRequest(t) + rest
    ensures ReadRequest(input, at) == Outcome(Success(t), |input| - |rest|, CHOSEN)
  {
    var tail := EncodeAddress(t.address) + (EncodePort(t.port) + rest);
    assert EncodeRequest(t) + rest == [] + [VERSION, CONNECT, 0] + tail;
    Cut(input, at, [], [VERSION, CONNECT, 0], tail);
    assert input[at..at + 3] == [VERSION, CONNECT, 0];
    assert input[at] == input[at..at + 3][0] && input[at + 1] == input[at..at + 3][1]
           && input[at + 2] == input[at..at + 3][2];
    AddressRoundTrip(input, at + 3, t, rest);
  }

  /** Reading is a left inverse of encoding and leaves every byte after the request unread. */
  lemma HandshakeRoundTrip(methods: seq<byte>, t: Target, rest: seq<byte>)
    requires ValidMethods(methods) && ValidTarget(t)
    ensures ReadHandshake(Encode(methods, t) + rest, true)
            == Outcome(Success(t), |Encode(methods, t)|, CHOSEN)
  {
    EncodeSplits(methods, t);
    Regroup([VERSION, |methods|], methods, EncodeRequest(t), rest);
    HandshakeRead(Encode(methods, t) + rest, methods, EncodeRequest(t) + rest, t, rest);
  }

  lemma Regroup(a: seq<byte>, b: seq<byte>, c: seq<byte>, d: seq<byte>)
    ensures a + b + c + d == a + b + (c + d)
  {
  }

  lemma HandshakeRead(input: seq<byte>, methods: seq<byte>, tail: seq<byte>, t: Target, rest: seq<byte>)
    requires ValidMethods(methods) && ValidTarget(t) && tail == EncodeRequest(t) + rest
    requires input == [VERSION, |methods|] + methods + tail
    ensures ReadHandshake(input, true) == Outcome(Success(t), |input| - |rest|, CHOSEN)
  {
    GreetingLeadsToRequest(input, methods, tail);
    RequestRoundTrip(input, 2 + |methods|, t, rest);
  }

  lemma GreetingLeadsToRequest(input: seq<byte>, methods: seq<byte>, tail: seq<byte>)
    requires ValidMethods(methods) && input == [VERSION, |methods|] + methods + tail
    ensures 2 + |methods| <= |input| && input[2 + |methods|..] == tail
    ensures ReadHandshake(input, true) == ReadRequest(input, 2 + |methods|)
  {
    GreetingRoundTrip(input, methods, tail);
  }

  lemma GreetingRoundTrip(input: seq<byte>, methods: seq<byte>, tail: seq<byte>)
    requires ValidMethods(methods) && input == [VERSION, |methods|] + methods + tail
    ensures 2 + |methods| <= |input| && input[2 + |methods|..] == tail
    ensures ReadGreeting(input) == Greeted(2 + |methods|)
  {
    assert input[0..] == input;
    Cut(input, 0, [VERSION, |methods|], methods, tail);
  }

  lemma EncodeSplits(methods: seq<byte>, t: Target)
    requires ValidMethods(methods) && ValidTarget(t)
    ensures Encode(methods, t) == [VERSION, |methods|] + methods + EncodeRequest(t)
  {
  }

  lemma PortAccepted(input: seq<byte>, at: nat, address: Address)
    requires at <= |input| && ReadPort(input, at, address).result.Success?
    ensures var r := ReadPort(input, at, address);
            && r.consumed == at + 2 <= |input|
            && r.result.value.address == address && 1 <= r.result.value.port <= 65535
            && input[at..at + 2] == EncodePort(r.result.value.port)
  {
  }

  lemma AddressAccepted(input: seq<byte>, at: nat)
    requires at < |input| && ReadAddress(input, at + 1, input[at]).result.Success?
    ensures var r := ReadAddress(input, at + 1, input[at]);
            && at <= r.consumed <= |input| && ValidTarget(r.result.value)
            && input[at..r.consumed] == EncodeAddress(r.result.value.address) + EncodePort(r.result.value.port)
  {
    if input[at] == ADDRESS_DOMAIN {
      DomainAccepted(input, at);
    } else {
      OctetsAccepted(input, at, if input[at] == ADDRESS_IPV4 then 4 else 16);
    }
  }

  lemma DomainAccepted(input: seq<byte>, at: nat)
    requires at < |input| && input[at] == ADDRESS_DOMAIN && ReadDomain(input, at + 1).result.Success?
    ensures var r := ReadDomain(input, at + 1);
            && at <= r.consumed <= |input| && ValidTarget(r.result.value)
            && input[at..r.consumed] == EncodeAddress(r.result.value.address) + EncodePort(r.result.value.port)
  {
    var end := at + 2 + input[at + 1];
    PortAccepted(input, end, Domain(input[at + 2..end]));
    assert input[at..end] == [input[at], input[at + 1]] + input[at + 2..end];
    assert input[at..end + 2] == input[at..end] + input[end..end + 2];
  }

  lemma OctetsAccepted(input: seq<byte>, at: nat, n: nat)
    requires at < |input| && (if input[at] == ADDRESS_IPV4 then n == 4 else input[at] == ADDRESS_IPV6 && n == 16)
    requires ReadAddress(input, at + 1, input[at]).result.Success?
    ensures var r := ReadAddress(input, at + 1, input[at]);
            && at <= r.consumed <= |input| && ValidTarget(r.result.value)
            && input[at..r.consumed] == EncodeAddress(r.result.value.address) + EncodePort(r.result.value.port)
  {
    var end := at + 1 + n;
    var octets := input[at + 1..end];
    PortAccepted(input, end, if n == 4 then IPv4(octets) else IPv6(octets));
    assert input[at..end] == [input[at]] + octets;
    assert input[at..end + 2] == input[at..end] + input[end..end + 2];
  }

  lemma RequestAccepted(input: seq<byte>, at: nat)
    requires at <= |input| && ReadRequest(input, at).result.Success?
    ensures var r := ReadRequest(input, at);
            && at <= r.consumed <= |input| && ValidTarget(r.result.value) && r.written == CHOSEN
            && input[at..r.consumed] == EncodeRequest(r.result.value)
  {
    var r := ReadRequest(input, at);
    AddressAccepted(input, at + 3);
    assert input[at..at + 3] == [VERSION, CONNECT, 0];
    assert input[at..r.consumed] == input[at..at + 3] + input[at + 3..r.consumed];
  }

  /** Whatever is accepted was encoded, and exactly its bytes were consumed. */
  lemma AcceptedWasEncoded(input: seq<byte>, selected: bool) returns (methods: seq<byte>)
    requires ReadHandshake(input, selected).result.Success?
    ensures var r := ReadHandshake(input, selected);
            && selected && r.consumed <= |input| && r.written == CHOSEN
            && ValidMethods(methods) && ValidTarget(r.result.value)
            && input[..r.consumed] == Encode(methods, r.result.value)
  {
    var end := ReadGreeting(input).end;
    methods := input[2..end];
    GreetingAccepted(input, ReadRequest(input, end).consumed);
    RequestAccepted(input, end);
    EncodeSplits(methods, ReadRequest(input, end).result.value);
  }

  lemma GreetingAccepted(input: seq<byte>, consumed: nat)
    requires ReadGreeting(input).Greeted?
    ensures var end := ReadGreeting(input).end;
            && ValidMethods(input[2..end])
            && (end <= consumed <= |input| ==>
                  input[..consumed] == [VERSION, |input[2..end]|] + input[2..end] + input[end..consumed])
  {
  }

  /** Acceptance in both directions: the target read is the encoded one, for one split of the input. */
  lemma AcceptsExactly(input: seq<byte>, t: Target)
    ensures ReadHandshake(input, true).result == Success(t) <==>
              exists methods :: IsRequestPrefix(input, methods, t)
  {
    if ReadHandshake(input, true).result == Success(t) {
      var methods := AcceptedWasEncoded(input, true);
      assert IsRequestPrefix(input, methods, t);
    }
    if methods :| IsRequestPrefix(input, methods, t) {
      var encoded := Encode(methods, t);
      HandshakeRoundTrip(methods, t, input[|encoded|..]);
      assert input == encoded + input[|encoded|..];
    }
  }

  ghost predicate IsRequestPrefix(input: seq<byte>, methods: seq<byte>, t: Target) {
    ValidMethods(methods) && ValidTarget(t) && Encode(methods, t) <= input
  }

  // ---------------------------------------------------------------- streams that end early

  lemma RequestConsumes(input: seq<byte>, at: nat)
    requires at <= |input|
    ensures at <= ReadRequest(input, at).consumed <= |input|
    ensures at + 4 <= |input| ==> at + 4 <= ReadRequest(input, at).consumed
  {
  }

  lemma HandshakeConsumes(input: seq<byte>, selected: bool)
    ensures ReadHandshake(input, selected).consumed <= |input|
  {
    if ReadGreeting(input).Greeted? {
      RequestConsumes(input, ReadGreeting(input).end);
    }
  }

  /** A result that was not a truncation does not depend on the bytes after the consumed ones. */
  lemma ResultIgnoresTheRest(input: seq<byte>, selected: bool, input': seq<byte>)
    requires ReadHandshake(input, selected).result != Failure(SocksTruncated)
    requires Agree(input, input', ReadHandshake(input, selected).consumed)
    ensures ReadHandshake(input', selected) == ReadHandshake(input, selected)
  {
    var r, g := ReadHandshake(input, selected), ReadGreeting(input);
    if g.Greeted? {
      RequestConsumes(input, g.end);
      GreetingIgnoresTheRest(input, input', g.end);
      if selected {
        RequestIgnoresTheRest(input, input', g.end);
      }
    } else {
      GreetingIgnoresTheRest(input, input', r.consumed);
    }
  }

  lemma GreetingIgnoresTheRest(input: seq<byte>, input': seq<byte>, length: nat)
    requires Agree(input, input', length)
    requires var g := ReadGreeting(input);
             if g.Greeted? then length == g.end
             else length == g.outcome.consumed && g.outcome.result != Failure(SocksTruncated)
    ensures ReadGreeting(input') == ReadGreeting(input)
  {
    if |input| >= 2 && input[0] == VERSION && input[1] != 0 {
      var end := 2 + input[1] as nat;
      assert input'[2..end] == input[2..end];
    }
  }

  predicate Agree(input: seq<byte>, input': seq<byte>, length: nat) {
    length <= |input| && length <= |input'| && forall i | 0 <= i < length :: input'[i] == input[i]
  }

  lemma DomainIgnoresTheRest(input: seq<byte>, input': seq<byte>, at: nat)
    requires at <= |input| && at <= |input'|
    requires var r := ReadDomain(input, at);
             at <= r.consumed && Agree(input, input', r.consumed) && r.result != Failure(SocksTruncated)
    ensures ReadDomain(input', at) == ReadDomain(input, at)
  {
    if input[at] != 0 {
      var end := at + 1 + input[at];
      assert input'[at + 1..end] == input[at + 1..end];
    }
  }

  lemma AddressIgnoresTheRest(input: seq<byte>, input': seq<byte>, at: nat, kind: byte)
    requires at <= |input| && at <= |input'|
    requires var r := ReadAddress(input, at, kind);
             at <= r.consumed && Agree(input, input', r.consumed) && r.result != Failure(SocksTruncated)
    ensures ReadAddress(input', at, kind) == ReadAddress(input, at, kind)
  {
    if kind == ADDRESS_IPV4 {
      assert input'[at..at + 4] == input[at..at + 4];
    } else if kind == ADDRESS_IPV6 {
      assert input'[at..at + 16] == input[at..at + 16];
    } else if kind == ADDRESS_DOMAIN {
      DomainIgnoresTheRest(input, input', at);
    }
  }

  lemma RequestIgnoresTheRest(input: seq<byte>, input': seq<byte>, at: nat)
    requires at <= |input|
    requires var r := ReadRequest(input, at);
             Agree(input, input', r.consumed) && r.result != Failure(SocksTruncated)
    ensures at <= |input'| && ReadRequest(input', at) == ReadRequest(input, at)
  {
    RequestConsumes(input, at);
    if input[at] == VERSION && input[at + 2] == 0 && input[at + 1] == CONNECT {
      AddressConsumes(input, at + 4, input[at + 3]);
      AddressIgnoresTheRest(input, input', at + 4, input[at + 3]);
    }
  }

  lemma AddressConsumes(input: seq<byte>, at: nat, kind: byte)
    requires at <= |input|
    ensures at <= ReadAddress(input, at, kind).consumed <= |input|
  {
  }

  /** Every proper prefix of a valid handshake is reported as truncated, with no error reply. */
  lemma ProperPrefixIsTruncated(methods: seq<byte>, t: Target, k: nat)
    requires ValidMethods(methods) && ValidTarget(t) && k < |Encode(methods, t)|
    ensures var r := ReadHandshake(Encode(methods, t)[..k], true);
            r.result == Failure(SocksTruncated) && r.consumed == k && (r.written == [] || r.written == CHOSEN)
  {
    var whole := Encode(methods, t);
    HandshakeRoundTrip(methods, t, []);
    assert whole + [] == whole;
    if ReadHandshake(whole[..k], true).result != Failure(SocksTruncated) {
      EarlyResultIsFinal(whole, k);
    }
    TruncationTakesAll(whole[..k], true);
  }

  /** A result reached before the end of a stream is the result for the whole stream. */
  lemma EarlyResultIsFinal(whole: seq<byte>, k: nat)
    requires k <= |whole| && ReadHandshake(whole[..k], true).result != Failure(SocksTruncated)
    ensures ReadHandshake(whole, true) == ReadHandshake(whole[..k], true) && ReadHandshake(whole, true).consumed <= k
  {
    HandshakeConsumes(whole[..k], true);
    ResultIgnoresTheRest(whole[..k], true, whole);
  }

  lemma TruncationTakesAll(input: seq<byte>, selected: bool)
    requires ReadHandshake(input, selected).result == Failure(SocksTruncated)
    ensures var r := ReadHandshake(input, selected);
            r.consumed == |input| && (r.written == [] || r.written == CHOSEN)
  {
  }

  // ---------------------------------------------------------------- what is written

  /** At most one method selection, first, and at most one error reply, last. */
  predicate Orderly(written: seq<Message>) {
    || written == []
    || written == [Selection(NO_ACCEPTABLE_AUTH)]
    || written == CHOSEN
    || (|written| == 2 && written[0] == Selection(NO_AUTH) && written[1].Reply?)
  }

  lemma RequestWritesOrderly(input: seq<byte>, at: nat)
    requires at <= |input|
    ensures var r := ReadRequest(input, at);
            && (r.written == CHOSEN || (|r.written| == 2 && r.written[0] == Selection(NO_AUTH) && r.written[1].Reply?
                                        && r.written[1].status != 0 && r.result.Failure?))
            && (r.result.Success? ==> r.written == CHOSEN)
            && r.result != Failure(SocksAuthenticationRejected)
  {
  }

  function Wire(written: seq<Message>): seq<byte> {
    if written == [] then [] else written[0].Bytes() + Wire(written[1..])
  }

  /** The bytes on the wire tell which messages were written. */
  lemma WireIsReadable(written: seq<Message>, written': seq<Message>)
    requires Orderly(written) && Orderly(written') && Wire(written) == Wire(written')
    ensures written == written'
  {
    WireOf(written);
    WireOf(written');
  }

  lemma WireOf(written: seq<Message>)
    requires Orderly(written)
    ensures |Wire(written)| == if written == [] then 0 else if |written| == 1 then 2 else 12
    ensures |written| > 0 ==> Wire(written)[1] == written[0].choice
    ensures |written| == 2 ==> Wire(written)[3] == written[1].status
  {
    if |written| > 0 {
      var rest := written[1..];
      assert rest == [] || rest == [written[1]];
      assert |rest| == 1 ==> Wire(rest) == rest[0].Bytes() + Wire(rest[1..]) && rest[1..] == [];
    }
  }

  lemma HandshakeWritesOrderly(input: seq<byte>, selected: bool)
    ensures var r := ReadHandshake(input, selected);
            && Orderly(r.written)
            && (r.result.Success? ==> r.written == CHOSEN)
            && (|r.written| == 2 ==> r.result.Failure? && r.written[1].status != 0)
            && (Selection(NO_ACCEPTABLE_AUTH) in r.written <==> r.result == Failure(SocksAuthenticationRejected))
  {
    if ReadGreeting(input).Greeted? {
      RequestWritesOrderly(input, ReadGreeting(input).end);
    }
  }

  // ---------------------------------------------------------------- the whole child task

  /** The actor's answer to the channel request, which cannot even be sent once the actor is gone. */
  datatype Opening = Opened | Refused(code: Code) | Dropped | Unsent

  function ReplyFor(code: Code): byte {
    match code
    case RemoteRegistrationRejected => 2
    case TargetConnect => 5
    case ConnectTimeout => 4
    case _ => 1
  }

  /** Messages of one SOCKS5 client up to the start of its relay. */
  function ChildWrites(input: seq<byte>, selected: bool, opening: Opening): seq<Message> {
    var r := ReadHandshake(input, selected);
    if r.result.Failure? then r.written
    else
      match opening
      case Opened => r.written + [Reply(0)]
      case Refused(code) => r.written + [Reply(ReplyFor(code))]
      case Dropped => r.written + [Reply(1)]
      case Unsent => r.written
  }

  /** A client sees success exactly when its request was valid and the channel was opened. */
  lemma SuccessReplyMeansOpened(input: seq<byte>, selected: bool, opening: Opening)
    ensures var written := ChildWrites(input, selected, opening);
            && Orderly(written)
            && (Reply(0) in written <==> ReadHandshake(input, selected).result.Success? && opening.Opened?)
            && (ReadHandshake(input, selected).result.Success? ==> (|written| == 1 <==> opening.Unsent?))
  {
    HandshakeWritesOrderly(input, selected);
  }

  // ---------------------------------------------------------------- the stream

  /** A client connection: its unread bytes and what was written to it. */
  class SocksStream {
    const input: seq<byte>
    const selected: bool
    var position: nat
    var written: seq<Message>

    constructor (input: seq<byte>, selected: bool)
      ensures this.input == input && this.selected == selected && position == 0 && written == []
    {
      this.input, this.selected, position, written := input, selected, 0, [];
    }

    ghost predicate Valid()
      reads this
    {
      position <= |input|
    }

    /** Reads exactly `count` bytes, or takes what is left and reports the truncation. */
    method ReadExact(count: nat) returns (buffer: Option<seq<byte>>)
      requires Valid()
      modifies this`position
      ensures Valid()
      ensures buffer.Some? <==> old(position) + count <= |input|
      ensures buffer.Some? ==> position == old(position) + count && buffer.value == input[old(position)..position]
      ensures buffer.None? ==> position == |input|
    {
      if position + count <= |input| {
        buffer := Some(input[position..position + count]);
        position := position + count;
      } else {
        buffer := None;
        position := |input|;
      }
    }

    method ReadTarget(address: Address) returns (r: Result<Target, Code>)
      requires Valid() && written == CHOSEN
      modifies this
      ensures Outcome(r, position, written) == old(ReadPort(input, position, address))
    {
      var port := ReadExact(2);
      if port.None? {
        return Failure(SocksTruncated);
      }
      var number := port.value[0] as nat * 256 + port.value[1] as nat;
      if number == 0 {
        written := written + [Reply(8)];
        return Failure(SocksAddressRejected);
      }
      return Success(Target(address, number));
    }

    method ReadDomainTarget() returns (r: Result<Target, Code>)
      requires Valid() && written == CHOSEN
      modifies this
      ensures Outcome(r, position, written) == old(ReadDomain(input, position))
    {
      var length := ReadExact(1);
      if length.None? {
        return Failure(SocksTruncated);
      }
      if length.value[0] == 0 {
        written := written + [Reply(8)];
        return Failure(SocksAddressRejected);
      }
      var name := ReadExact(length.value[0]);
      if name.None? {
        return Failure(SocksTruncated);
      }
      if exists b | b in name.value :: !IsNameByte(b) {
        written := written + [Reply(8)];
        return Failure(SocksAddressRejected);
      }
      r := ReadTarget(Domain(name.value));
    }

    method ReadSocks5Request() returns (r: Result<Target, Code>)
      requires position == 0 && written == []
      modifies this
      ensures Outcome(r, position, written) == ReadHandshake(input, selected)
    {
      var greeting := ReadExact(2);
      if greeting.None? {
        return Failure(SocksTruncated);
      }
      if greeting.value[0] != VERSION {
        return Failure(Protocol);
      }
      if greeting.value[1] == 0 {
        written := [Selection(NO_ACCEPTABLE_AUTH)];
        return Failure(SocksAuthenticationRejected);
      }
      var methods := ReadExact(greeting.value[1]);
      if methods.None? {
        return Failure(SocksTruncated);
      }
      if NO_AUTH !in methods.value {
        written := [Selection(NO_ACCEPTABLE_AUTH)];
        return Failure(SocksAuthenticationRejected);
      }
      written := [Selection(NO_AUTH)];
      if !selected {
        return Failure(Protocol);
      }
      r := ReadConnect();
    }

    method ReadConnect() returns (r: Result<Target, Code>)
      requires Valid() && written == CHOSEN
      modifies this
      ensures Outcome(r, position, written) == old(ReadRequest(input, position))
    {
      var request := ReadExact(4);
      if request.None? {
        return Failure(SocksTruncated);
      }
      if request.value[0] != VERSION || request.value[2] != 0 {
        written := written + [Reply(1)];
        return Failure(Protocol);
      }
      if request.value[1] != CONNECT {
        written := written + [Reply(7)];
        return Failure(SocksCommandRejected);
      }
      var kind := request.value[3];
      if kind == ADDRESS_IPV4 || kind == ADDRESS_IPV6 {
        var octets := ReadExact(if kind == ADDRESS_IPV4 then 4 else 16);
        if octets.None? {
          return Failure(SocksTruncated);
        }
        r := ReadTarget(if kind == ADDRESS_IPV4 then IPv4(octets.value) else IPv6(octets.value));
      } else if kind == ADDRESS_DOMAIN {
        r := ReadDomainTarget();
      } else {
        written := written + [Reply(8)];
        return Failure(SocksAddressRejected);
      }
    }
  }
}
