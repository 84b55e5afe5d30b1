/**
  The local SOCKS5 front end (RFC 1928): method selection, the CONNECT
  request, and the 10-byte reply. Only the "no authentication" method and
  the CONNECT command are supported; IPv4 and domain-name targets are
  accepted, IPv6 targets are not.

  The client's TCP stream is an input byte sequence consumed left to right
  plus the bytes written back. Opening a tunnel stream is the parameter
  `open`, which says whether the tunnel accepted the target.
 */
module Socks5 {
  import opened Wire

  const SOCKS_VERSION: byte := 0x05
  const AUTH_NO_AUTH: byte := 0x00
  /** The method-selection answer "no acceptable methods" (section 3 of RFC 1928). */
  const NO_ACCEPTABLE_METHODS: byte := 0xFF
  const CMD_CONNECT: byte := 0x01
  const ATYP_IPV4: byte := 0x01
  const ATYP_DOMAIN: byte := 0x03
  const ATYP_IPV6: byte := 0x04
  const REP_SUCCESS: byte := 0x00
  const REP_HOST_UNREACHABLE: byte := 0x04
  const REP_CMD_NOT_SUPPORTED: byte := 0x07
  const REP_ATYP_NOT_SUPPORTED: byte := 0x08

  const DOT: byte := 0x2E
  const PLUS: byte := 0x2B
  /** The bind address every reply carries. */
  const UNSPECIFIED: seq<byte> := Ascii("0.0.0.0")

  // ---------------------------------------------------------------------
  // Decimal text
  // ---------------------------------------------------------------------

  predicate IsDigit(b: byte) {
    0x30 <= b <= 0x39
  }

  predicate AllDigits(s: seq<byte>) {
    forall i | 0 <= i < |s| :: IsDigit(s[i])
  }

  /** `{}` formatting of a number: its decimal digits, without leading zeros. */
  function Decimal(n: nat): (r: seq<byte>)
    ensures |r| > 0 && AllDigits(r)
    decreases n
  {
    if n < 10 then [0x30 + n] else Decimal(n / 10) + [0x30 + n % 10]
  }

  /** The value of a string of decimal digits. */
  function DigitsValue(s: seq<byte>): nat
    requires AllDigits(s)
    decreases |s|
  {
    if s == [] then 0 else DigitsValue(s[..|s| - 1]) * 10 + (s[|s| - 1] - 0x30)
  }

  /** `u8::from_str`: an optional '+', then one or more decimal digits whose value is at most 255. */
  function ParseU8(s: seq<byte>): (r: Option<byte>)
    ensures r.Some? ==> |s| > 0
  {
    var digits := if |s| > 0 && s[0] == PLUS then s[1..] else s;
    if digits == [] || !AllDigits(digits) then None
    else if DigitsValue(digits) > 255 then None
    else Some(DigitsValue(digits))
  }

  /** `.filter_map(|s| s.parse::<u8>().ok())`: the pieces that parse, in order. */
  function ParsedOctets(parts: seq<seq<byte>>): (r: seq<byte>)
    ensures |r| <= |parts|
    decreases |parts|
  {
    if parts == [] then [] else Octet(parts[0]) + ParsedOctets(parts[1..])
  }

  /** The octet a piece contributes: its value if it parses, nothing otherwise. */
  function Octet(piece: seq<byte>): (r: seq<byte>)
    ensures |r| <= 1
  {
    match ParseU8(piece)
    case Some(b) => [b]
    case None => []
  }

  /** `addr_parts.get(i).copied().unwrap_or(0)`. */
  function OctetOrZero(octets: seq<byte>, i: nat): byte {
    if i < |octets| then octets[i] else 0
  }

  /** The `{}.{}.{}.{}` text of an IPv4 address. */
  function FormatIpv4(addr: seq<byte>): seq<byte>
    requires |addr| == 4
  {
    Decimal(addr[0]) + [DOT] + Decimal(addr[1]) + [DOT] + Decimal(addr[2]) + [DOT] + Decimal(addr[3])
  }

  // ---------------------------------------------------------------------
  // The reply (section 6 of RFC 1928)
  // ---------------------------------------------------------------------

  /**
    `send_reply`: VER, REP, RSV, ATYP=IPv4, four address octets taken from
    the dotted text of `bindAddr` (0 where missing), and the port big-endian.
   */
  function SendReply(rep: byte, bindAddr: seq<byte>, bindPort: u16): (r: seq<byte>)
    ensures |r| == 10
    ensures r[..4] == [SOCKS_VERSION, rep, 0x00, ATYP_IPV4] && r[8..] == Be16(bindPort)
  {
    var octets := ParsedOctets(Split(bindAddr, DOT));
    [SOCKS_VERSION, rep, 0x00, ATYP_IPV4,
     OctetOrZero(octets, 0), OctetOrZero(octets, 1), OctetOrZero(octets, 2), OctetOrZero(octets, 3),
     bindPort / 0x100, bindPort % 0x100]
  }

  // ---------------------------------------------------------------------
  // The negotiation as a function of the client's bytes
  // ---------------------------------------------------------------------

  /** Why `handle_socks5_connection` gave up. */
  datatype SocksError =
    | UnexpectedEof
    | InvalidVersion(version: byte)
    | NoSupportedAuthMethod
    | InvalidRequestVersion
    | CommandNotSupported
    | Ipv6NotSupported
    | UnknownAddressType(atyp: byte)
    | InvalidUtf8

  /** Where a connection ends up. */
  datatype Status =
    | Relaying(host: seq<byte>, port: u16)       // the tunnel stream is open; relaying starts
    | TunnelFailed(host: seq<byte>, port: u16)   // the tunnel refused; reply 0x04 and Ok(())
    | Failed(error: SocksError)

  /** What was written back, what of the input is left unread, and the status. */
  datatype Outcome = Outcome(written: seq<byte>, rest: seq<byte>, status: Status)

  /** A destination read from the request, and the bytes after it. */
  datatype Target = Target(host: seq<byte>, port: u16, rest: seq<byte>)

  /**
    The reply with bind address 0.0.0.0 and port 0, which is what every call
    of `send_reply` passes; `UnspecifiedReply` shows it equals `SendReply`'s bytes.
   */
  function Reply(rep: byte): seq<byte> {
    [SOCKS_VERSION, rep, 0x00, ATYP_IPV4, 0, 0, 0, 0, 0, 0]
  }

  /** The outcome of a `read_exact` that hits the end of the stream: everything is consumed. */
  function Eof(): Outcome {
    Outcome([], [], Failed(UnexpectedEof))
  }

  /** DST.ADDR and DST.PORT of a CONNECT request whose address type is `atyp` (section 5 of RFC 1928). */
  function ReadTarget(atyp: byte, input: seq<byte>): Result<Target, Outcome> {
    if atyp == ATYP_IPV4 then
      if |input| < 6 then Err(Eof())
      else Ok(Target(FormatIpv4(input[..4]), U16At(input, 4), input[6..]))
    else if atyp == ATYP_DOMAIN then
      if |input| < 1 || |input| < 3 + input[0] as nat then Err(Eof())
      else
        var len := input[0] as nat;
        if !ValidUtf8(input[1..1 + len]) then Err(Outcome([], input[3 + len..], Failed(InvalidUtf8)))
        else Ok(Target(input[1..1 + len], U16At(input, 1 + len), input[3 + len..]))
    else if atyp == ATYP_IPV6 then Err(Outcome(Reply(REP_ATYP_NOT_SUPPORTED), input, Failed(Ipv6NotSupported)))
    else Err(Outcome(Reply(REP_ATYP_NOT_SUPPORTED), input, Failed(UnknownAddressType(atyp))))
  }

  /** The request (section 4 of RFC 1928), read after method selection succeeded. */
  function Request(input: seq<byte>, open: (seq<byte>, u16) -> bool): Outcome {
    if |input| < 4 then Eof()
    else if input[0] != SOCKS_VERSION then Outcome([], input[4..], Failed(InvalidRequestVersion))
    else if input[1] != CMD_CONNECT then Outcome(Reply(REP_CMD_NOT_SUPPORTED), input[4..], Failed(CommandNotSupported))
    else match ReadTarget(input[3], input[4..])
      case Err(o) => o
      case Ok(t) =>
        if open(t.host, t.port) then Outcome(Reply(REP_SUCCESS), t.rest, Relaying(t.host, t.port))
        else Outcome(Reply(REP_HOST_UNREACHABLE), t.rest, TunnelFailed(t.host, t.port))
  }

  /** `handle_socks5_connection` up to the relay: method selection (section 3 of RFC 1928), then the request. */
  function Negotiate(input: seq<byte>, open: (seq<byte>, u16) -> bool): Outcome {
    if |input| < 2 then Eof()
    else if input[0] != SOCKS_VERSION then Outcome([], input[2..], Failed(InvalidVersion(input[0])))
    else Methods(input[1], input[2..], open)
  }

  /** After a version-5 greeting: the `nmethods` offered methods, then the answer. */
  function Methods(nmethods: byte, input: seq<byte>, open: (seq<byte>, u16) -> bool): Outcome {
    if |input| < nmethods as nat then Eof()
    else if AUTH_NO_AUTH !in input[..nmethods] then
      Outcome([SOCKS_VERSION, NO_ACCEPTABLE_METHODS], input[nmethods..], Failed(NoSupportedAuthMethod))
    else
      var r := Request(input[nmethods..], open);
      r.(written := [SOCKS_VERSION, AUTH_NO_AUTH] + r.written)
  }

  // ---------------------------------------------------------------------
  // The connection handler, reading and writing the stream step by step
  // ---------------------------------------------------------------------

  /** A client TCP stream: the bytes not yet read, and the bytes written back so far. */
  class Socket {
    var input: seq<byte>
    var output: seq<byte>

    constructor (input: seq<byte>)
      ensures this.input == input && output == []
    {
      this.input := input;
      output := [];
    }

    /** `read_exact`: exactly `n` bytes, or an end-of-stream error after consuming what was left. */
    method ReadExact(n: nat) returns (r: Option<seq<byte>>)
      modifies this
      ensures n <= |old(input)| ==> r == Some(old(input)[..n]) && input == old(input)[n..]
      ensures |old(input)| < n ==> r == None && input == []
      ensures output == old(output)
    {
      if |input| < n {
        input := [];
        return None;
      }
      r := Some(input[..n]);
      input := input[n..];
    }

    /** `write_all`. */
    method WriteAll(bytes: seq<byte>)
      modifies this
      ensures output == old(output) + bytes && input == old(input)
    {
      output := output + bytes;
    }
  }

  /** `send_reply(stream, rep, "0.0.0.0", 0)`. */
  method SendReplyOn(sock: Socket, rep: byte)
    modifies sock
    ensures sock.output == old(sock.output) + Reply(rep) && sock.input == old(sock.input)
  {
    var reply := SendReply(rep, UNSPECIFIED, 0);
    UnspecifiedReply(rep);
    sock.WriteAll(reply);
  }

  /** Reads DST.ADDR and DST.PORT, or answers 0x08 to an unsupported address type. */
  method ReadTargetFrom(sock: Socket, atyp: byte) returns (r: Result<Target, Outcome>)
    modifies sock
    ensures r == ReadTarget(atyp, old(sock.input))
    ensures r.Ok? ==> sock.input == r.value.rest && sock.output == old(sock.output)
    ensures r.Err? ==> sock.input == r.error.rest && sock.output == old(sock.output) + r.error.written
  {
    if atyp == ATYP_IPV4 {
      r := ReadIpv4Target(sock);
    } else if atyp == ATYP_DOMAIN {
      r := ReadDomainTarget(sock);
    } else if atyp == ATYP_IPV6 {
      SendReplyOn(sock, REP_ATYP_NOT_SUPPORTED);
      return Err(Outcome(Reply(REP_ATYP_NOT_SUPPORTED), sock.input, Failed(Ipv6NotSupported)));
    } else {
      SendReplyOn(sock, REP_ATYP_NOT_SUPPORTED);
      return Err(Outcome(Reply(REP_ATYP_NOT_SUPPORTED), sock.input, Failed(UnknownAddressType(atyp))));
    }
  }

  /** The IPv4 arm: four address bytes, then the port. */
  method ReadIpv4Target(sock: Socket) returns (r: Result<Target, Outcome>)
    modifies sock
    ensures r == ReadTarget(ATYP_IPV4, old(sock.input))
    ensures r.Ok? ==> sock.input == r.value.rest && sock.output == old(sock.output)
    ensures r.Err? ==> sock.input == r.error.rest && sock.output == old(sock.output) + r.error.written
  {
    ghost var input := sock.input;
    var addr := sock.ReadExact(4);
    if addr.None? { return Err(Eof()); }
    var portBuf := sock.ReadExact(2);
    if portBuf.None? { return Err(Eof()); }
    assert input[..4] == addr.value && input[4..6] == portBuf.value && input[6..] == sock.input;
    var port := U16At(portBuf.value, 0);
    return Ok(Target(FormatIpv4(addr.value), port, sock.input));
  }

  /** The domain-name arm: a length byte, that many bytes of name, then the port. */
  method ReadDomainTarget(sock: Socket) returns (r: Result<Target, Outcome>)
    modifies sock
    ensures r == ReadTarget(ATYP_DOMAIN, old(sock.input))
    ensures r.Ok? ==> sock.input == r.value.rest && sock.output == old(sock.output)
    ensures r.Err? ==> sock.input == r.error.rest && sock.output == old(sock.output) + r.error.written
  {
    ghost var input := sock.input;
    var lenBuf := sock.ReadExact(1);
    if lenBuf.None? { return Err(Eof()); }
    var len := lenBuf.value[0];
    var domain := sock.ReadExact(len);
    if domain.None? { return Err(Eof()); }
    var portBuf := sock.ReadExact(2);
    if portBuf.None? { return Err(Eof()); }
    assert input[1..1 + len] == domain.value && input[1 + len..3 + len] == portBuf.value;
    assert input[3 + len..] == sock.input;
    if !ValidUtf8(domain.value) {
      return Err(Outcome([], sock.input, Failed(InvalidUtf8)));
    }
    var port := U16At(portBuf.value, 0);
    return Ok(Target(domain.value, port, sock.input));
  }

  /** Steps 2 and 3 of `handle_socks5_connection`: the request, the target, and the tunnel. */
  method HandleRequest(sock: Socket, open: (seq<byte>, u16) -> bool) returns (status: Status)
    modifies sock
    ensures var o := Request(old(sock.input), open);
      sock.output == old(sock.output) + o.written && sock.input == o.rest && status == o.status
  {
    ghost var input := sock.input;
    var header := sock.ReadExact(4);
    if header.None? { return Failed(UnexpectedEof); }
    assert header.value == input[..4] && sock.input == input[4..];
    if header.value[0] != SOCKS_VERSION {
      return Failed(InvalidRequestVersion);
    }
    if header.value[1] != CMD_CONNECT {
      SendReplyOn(sock, REP_CMD_NOT_SUPPORTED);
      return Failed(CommandNotSupported);
    }
    var target := ReadTargetFrom(sock, header.value[3]);
    if target.Err? {
      return target.error.status;
    }
    var t := target.value;
    if open(t.host, t.port) {
      SendReplyOn(sock, REP_SUCCESS);
      status := Relaying(t.host, t.port);
    } else {
      SendReplyOn(sock, REP_HOST_UNREACHABLE);
      status := TunnelFailed(t.host, t.port);
    }
  }

  /** `handle_socks5_connection`, up to the point where the relay takes over the stream. */
  method HandleConnection(sock: Socket, open: (seq<byte>, u16) -> bool) returns (status: Status)
    modifies sock
    ensures var o := Negotiate(old(sock.input), open);
      sock.output == old(sock.output) + o.written && sock.input == o.rest && status == o.status
  {
    var buf := sock.ReadExact(2);
    if buf.None? { return Failed(UnexpectedEof); }
    if buf.value[0] != SOCKS_VERSION {
      return Failed(InvalidVersion(buf.value[0]));
    }
    status := HandleMethods(sock, buf.value[1], open);
  }

  /** Reads the offered methods and answers with the chosen one, then handles the request. */
  method HandleMethods(sock: Socket, nmethods: byte, open: (seq<byte>, u16) -> bool) returns (status: Status)
    modifies sock
    ensures var o := Methods(nmethods, old(sock.input), open);
      sock.output == old(sock.output) + o.written && sock.input == o.rest && status == o.status
  {
    ghost var input := sock.input;
    var methods := sock.ReadExact(nmethods);
    if methods.None? {
      return Failed(UnexpectedEof);
    }
    assert methods.value == input[..nmethods];
    if AUTH_NO_AUTH !in methods.value {
      sock.WriteAll([SOCKS_VERSION, NO_ACCEPTABLE_METHODS]);
      return Failed(NoSupportedAuthMethod);
    }
    status := AcceptNoAuth(sock, open);
  }

  /** Answers [5, 0x00] to the greeting, then handles the request. */
  method AcceptNoAuth(sock: Socket, open: (seq<byte>, u16) -> bool) returns (status: Status)
    modifies sock
    ensures var o := Request(old(sock.input), open);
      sock.output == old(sock.output) + ([SOCKS_VERSION, AUTH_NO_AUTH] + o.written) &&
      sock.input == o.rest && status == o.status
  {
    ghost var before := sock.output;
    ghost var o := Request(sock.input, open);
    sock.WriteAll([SOCKS_VERSION, AUTH_NO_AUTH]);
    status := HandleRequest(sock, open);
    assert sock.output == (before + [SOCKS_VERSION, AUTH_NO_AUTH]) + o.written;
  }

  // ---------------------------------------------------------------------
  // Client-side encodings (the partner of the server's parser)
  // ---------------------------------------------------------------------

  /** A method-selection message offering `methods`. */
  function ClientGreeting(methods: seq<byte>): seq<byte>
    requires |methods| < 0x100
  {
    [SOCKS_VERSION, |methods|] + methods
  }

  /** A CONNECT request for a domain name. */
  function ConnectDomain(host: seq<byte>, port: u16): seq<byte>
    requires |host| < 0x100
  {
    [SOCKS_VERSION, CMD_CONNECT, 0x00, ATYP_DOMAIN, |host|] + host + Be16(port)
  }

  /** A CONNECT request for an IPv4 address. */
  function ConnectIpv4(addr: seq<byte>, port: u16): seq<byte>
    requires |addr| == 4
  {
    [SOCKS_VERSION, CMD_CONNECT, 0x00, ATYP_IPV4] + addr + Be16(port)
  }

  // ---------------------------------------------------------------------
  // Properties of the reply
  // ---------------------------------------------------------------------

  /** A value's decimal text reads back as that value. */
  lemma {:induction false} DecimalValue(n: nat)
    ensures DigitsValue(Decimal(n)) == n
    decreases n
  {
    if n >= 10 {
      var d := Decimal(n);
      assert d[..|d| - 1] == Decimal(n / 10);
      DecimalValue(n / 10);
    }
  }

  /** `u8::from_str` reads back the `{}` text of every byte. */
  lemma ParseDecimal(b: byte)
    ensures ParseU8(Decimal(b)) == Some(b)
  {
    DecimalValue(b);
    assert IsDigit(Decimal(b)[0]);
  }

  /** Decimal text contains no dot. */
  lemma DecimalHasNoDot(n: nat)
    ensures DOT !in Decimal(n)
  {
  }

  /** The dotted text of an IPv4 address splits into its four decimal numbers. */
  lemma SplitDottedQuad(addr: seq<byte>)
    requires |addr| == 4
    ensures Split(FormatIpv4(addr), DOT) == [Decimal(addr[0]), Decimal(addr[1]), Decimal(addr[2]), Decimal(addr[3])]
  {
    var d0, d1, d2, d3 := Decimal(addr[0]), Decimal(addr[1]), Decimal(addr[2]), Decimal(addr[3]);
    DecimalHasNoDot(addr[0]);
    DecimalHasNoDot(addr[1]);
    DecimalHasNoDot(addr[2]);
    DecimalHasNoDot(addr[3]);
    assert FormatIpv4(addr) == d0 + [DOT] + (d1 + [DOT] + (d2 + [DOT] + d3));
    SplitAtSeparator(d0, DOT, d1 + [DOT] + (d2 + [DOT] + d3));
    SplitAtSeparator(d1, DOT, d2 + [DOT] + d3);
    SplitAtSeparator(d2, DOT, d3);
    SplitWithoutSeparator(d3, DOT);
  }

  /** The octets of a list of pieces: those of the first piece, then those of the rest. */
  lemma ParsedOctetsCons(p: seq<byte>, rest: seq<seq<byte>>)
    ensures ParsedOctets([p] + rest) == Octet(p) + ParsedOctets(rest)
  {
    assert ([p] + rest)[1..] == rest;
  }

  /** When every piece parses, the octets are the pieces' values, in order. */
  lemma {:induction false} AllPiecesParse(parts: seq<seq<byte>>, values: seq<byte>)
    requires |parts| == |values|
    requires forall i | 0 <= i < |parts| :: ParseU8(parts[i]) == Some(values[i])
    ensures ParsedOctets(parts) == values
    decreases |parts|
  {
    if parts != [] {
      assert Octet(parts[0]) == [values[0]];
      AllPiecesParse(parts[1..], values[1..]);
      assert [values[0]] + values[1..] == values;
    }
  }

  /** A bind address written as dotted text is copied into the reply octet for octet. */
  lemma DottedQuadReply(rep: byte, addr: seq<byte>, port: u16)
    requires |addr| == 4
    ensures SendReply(rep, FormatIpv4(addr), port) == [SOCKS_VERSION, rep, 0x00, ATYP_IPV4] + addr + Be16(port)
  {
    SplitDottedQuad(addr);
    ParseDecimal(addr[0]);
    ParseDecimal(addr[1]);
    ParseDecimal(addr[2]);
    ParseDecimal(addr[3]);
    AllPiecesParse([Decimal(addr[0]), Decimal(addr[1]), Decimal(addr[2]), Decimal(addr[3])], addr);
  }

  /** `send_reply(…, "0.0.0.0", 0)` sends ten bytes with a zero address and port. */
  lemma UnspecifiedReply(rep: byte)
    ensures SendReply(rep, UNSPECIFIED, 0) == Reply(rep)
  {
    assert FormatIpv4([0, 0, 0, 0]) == UNSPECIFIED;
    DottedQuadReply(rep, [0, 0, 0, 0], 0);
  }

  /** A piece that is not a number is skipped, and the octets it leaves missing are 0. */
  lemma ShortBindAddress(rep: byte)
    ensures SendReply(rep, Ascii("10.x"), 0) == [SOCKS_VERSION, rep, 0x00, ATYP_IPV4, 10, 0, 0, 0, 0, 0]
  {
    var a := Ascii("10.x");
    assert a == Decimal(10) + [DOT] + [0x78];
    DecimalHasNoDot(10);
    SplitAtSeparator(Decimal(10), DOT, [0x78]);
    SplitWithoutSeparator([0x78], DOT);
    ParseDecimal(10);
    assert ParseU8([0x78]) == None;
    ParsedOctetsCons([0x78], []);
    ParsedOctetsCons(Decimal(10), [[0x78]]);
    assert [Decimal(10)] + [[0x78]] == [Decimal(10), [0x78]];
    assert ParsedOctets(Split(a, DOT)) == [10];
  }

  // ---------------------------------------------------------------------
  // Properties of the negotiation
  // ---------------------------------------------------------------------

  /** A greeting whose version is not 5 is refused without any answer. */
  lemma BadVersionRefusedSilently(input: seq<byte>, open: (seq<byte>, u16) -> bool)
    requires |input| >= 2 && input[0] != SOCKS_VERSION
    ensures Negotiate(input, open) == Outcome([], input[2..], Failed(InvalidVersion(input[0])))
  {
  }

  /** How a client greeting followed by more bytes is laid out. */
  lemma GreetingLayout(methods: seq<byte>, r: seq<byte>)
    requires |methods| < 0x100
    ensures var s := ClientGreeting(methods) + r;
      |s| >= 2 && s[0] == SOCKS_VERSION && s[1] == |methods| &&
      s[2..][..|methods|] == methods && s[2..][|methods|..] == r
  {
    var s := ClientGreeting(methods) + r;
    assert s[2..] == methods + r;
  }

  /** A greeting that offers "no authentication" is answered [5, 0x00] and the request follows. */
  lemma GreetingAccepted(methods: seq<byte>, r: seq<byte>, open: (seq<byte>, u16) -> bool)
    requires |methods| < 0x100 && AUTH_NO_AUTH in methods
    ensures var o := Request(r, open);
      Negotiate(ClientGreeting(methods) + r, open) == o.(written := [SOCKS_VERSION, AUTH_NO_AUTH] + o.written)
  {
    GreetingLayout(methods, r);
  }

  /** A greeting without "no authentication" is answered [5, 0xFF] and nothing more is read. */
  lemma GreetingRefused(methods: seq<byte>, r: seq<byte>, open: (seq<byte>, u16) -> bool)
    requires |methods| < 0x100 && AUTH_NO_AUTH !in methods
    ensures Negotiate(ClientGreeting(methods) + r, open) ==
      Outcome([SOCKS_VERSION, NO_ACCEPTABLE_METHODS], r, Failed(NoSupportedAuthMethod))
  {
    GreetingLayout(methods, r);
  }

  /** A request whose version is not 5 is refused without any reply, before the command is looked at. */
  lemma RequestVersionRejected(v: byte, cmd: byte, rsv: byte, atyp: byte, r: seq<byte>, open: (seq<byte>, u16) -> bool)
    requires v != SOCKS_VERSION
    ensures Request([v, cmd, rsv, atyp] + r, open) == Outcome([], r, Failed(InvalidRequestVersion))
  {
    assert ([v, cmd, rsv, atyp] + r)[4..] == r;
  }

  /** A command other than CONNECT gets reply 0x07, before any address is read. */
  lemma CommandRejected(cmd: byte, rsv: byte, atyp: byte, r: seq<byte>, open: (seq<byte>, u16) -> bool)
    requires cmd != CMD_CONNECT
    ensures Request([SOCKS_VERSION, cmd, rsv, atyp] + r, open) ==
      Outcome(Reply(REP_CMD_NOT_SUPPORTED), r, Failed(CommandNotSupported))
  {
    assert ([SOCKS_VERSION, cmd, rsv, atyp] + r)[4..] == r;
  }

  /** IPv6 and unknown address types get reply 0x08, before any address is read. */
  lemma AddressTypeRejected(rsv: byte, atyp: byte, r: seq<byte>, open: (seq<byte>, u16) -> bool)
    requires atyp != ATYP_IPV4 && atyp != ATYP_DOMAIN
    ensures Request([SOCKS_VERSION, CMD_CONNECT, rsv, atyp] + r, open) ==
      Outcome(Reply(REP_ATYP_NOT_SUPPORTED), r,
        Failed(if atyp == ATYP_IPV6 then Ipv6NotSupported else UnknownAddressType(atyp)))
  {
    assert ([SOCKS_VERSION, CMD_CONNECT, rsv, atyp] + r)[4..] == r;
  }

  /** The answer once a target has been read: 0x00 and relaying, or 0x04 when the tunnel refuses. */
  function Connected(host: seq<byte>, port: u16, rest: seq<byte>, open: (seq<byte>, u16) -> bool): Outcome {
    if open(host, port) then Outcome(Reply(REP_SUCCESS), rest, Relaying(host, port))
    else Outcome(Reply(REP_HOST_UNREACHABLE), rest, TunnelFailed(host, port))
  }

  /** How the address part of a domain CONNECT is laid out. */
  lemma DomainLayout(host: seq<byte>, port: u16, extra: seq<byte>)
    requires |host| < 0x100
    ensures var a := (ConnectDomain(host, port) + extra)[4..];
      |a| >= 3 + |host| && a[0] as nat == |host| && a[1..1 + |host|] == host &&
      U16At(a, 1 + |host|) == port && a[3 + |host|..] == extra
  {
    var a := (ConnectDomain(host, port) + extra)[4..];
    assert a == [|host|] + host + Be16(port) + extra;
    assert a[1..1 + |host|] == host;
    assert a[1 + |host|..3 + |host|] == Be16(port);
    assert a[3 + |host|..] == extra;
    Be16Decodes(port, a, 1 + |host|);
  }

  /** Reading a domain address whose name, port and tail are known. */
  lemma DomainArm(a: seq<byte>, host: seq<byte>, port: u16, extra: seq<byte>)
    requires |a| >= 3 + |host| && a[0] as nat == |host| && a[1..1 + |host|] == host
    requires U16At(a, 1 + |host|) == port && a[3 + |host|..] == extra
    ensures ValidUtf8(host) ==> ReadTarget(ATYP_DOMAIN, a) == Ok(Target(host, port, extra))
    ensures !ValidUtf8(host) ==> ReadTarget(ATYP_DOMAIN, a) == Err(Outcome([], extra, Failed(InvalidUtf8)))
  {
  }

  /** A CONNECT to a domain name reads back the name and the port; the bytes after it are left for the relay. */
  lemma ConnectDomainRoundTrip(host: seq<byte>, port: u16, extra: seq<byte>, open: (seq<byte>, u16) -> bool)
    requires |host| < 0x100 && ValidUtf8(host)
    ensures Request(ConnectDomain(host, port) + extra, open) == Connected(host, port, extra, open)
  {
    var s := ConnectDomain(host, port) + extra;
    DomainLayout(host, port, extra);
    DomainArm(s[4..], host, port, extra);
  }

  /** A domain name that is not UTF-8 is refused with no reply (`String::from_utf8` fails). */
  lemma DomainMustBeUtf8(host: seq<byte>, port: u16, extra: seq<byte>, open: (seq<byte>, u16) -> bool)
    requires |host| < 0x100 && !ValidUtf8(host)
    ensures Request(ConnectDomain(host, port) + extra, open) == Outcome([], extra, Failed(InvalidUtf8))
  {
    var s := ConnectDomain(host, port) + extra;
    DomainLayout(host, port, extra);
    DomainArm(s[4..], host, port, extra);
  }

  /** A CONNECT to an IPv4 address reads back its dotted-quad text and the port. */
  lemma ConnectIpv4RoundTrip(addr: seq<byte>, port: u16, extra: seq<byte>, open: (seq<byte>, u16) -> bool)
    requires |addr| == 4
    ensures Request(ConnectIpv4(addr, port) + extra, open) == Connected(FormatIpv4(addr), port, extra, open)
  {
    var s := ConnectIpv4(addr, port) + extra;
    var a := s[4..];
    assert a == addr + Be16(port) + extra;
    assert a[..4] == addr;
    assert a[4..6] == Be16(port);
    assert a[6..] == extra;
    Be16Decodes(port, a, 4);
  }

  /** The whole exchange for a domain target: [5, 0] then a success or host-unreachable reply. */
  lemma NegotiateDomain(methods: seq<byte>, host: seq<byte>, port: u16, extra: seq<byte>, open: (seq<byte>, u16) -> bool)
    requires |methods| < 0x100 && AUTH_NO_AUTH in methods && |host| < 0x100 && ValidUtf8(host)
    ensures var o := Negotiate(ClientGreeting(methods) + (ConnectDomain(host, port) + extra), open);
      o.written == [SOCKS_VERSION, AUTH_NO_AUTH] + Reply(if open(host, port) then REP_SUCCESS else REP_HOST_UNREACHABLE) &&
      o.rest == extra &&
      o.status == if open(host, port) then Relaying(host, port) else TunnelFailed(host, port)
  {
    GreetingAccepted(methods, ConnectDomain(host, port) + extra, open);
    ConnectDomainRoundTrip(host, port, extra, open);
  }

  /** What a request can write back: nothing, or one reply whose code says how the connection ended. */
  lemma RequestReplies(input: seq<byte>, open: (seq<byte>, u16) -> bool)
    ensures var o := Request(input, open);
      (o.written == [] && o.status.Failed?) ||
      (o.written == Reply(REP_SUCCESS) && o.status.Relaying?) ||
      (o.written == Reply(REP_HOST_UNREACHABLE) && o.status.TunnelFailed?) ||
      (o.written == Reply(REP_CMD_NOT_SUPPORTED) && o.status == Failed(CommandNotSupported)) ||
      (o.written == Reply(REP_ATYP_NOT_SUPPORTED) && o.status.Failed? &&
        (o.status.error == Ipv6NotSupported || o.status.error.UnknownAddressType?))
  {
  }

  /**
    What a connection can write back before relaying: nothing, the refusal
    [5, 0xFF], or [5, 0] followed by at most one reply; success is reported
    only when the tunnel stream is open.
   */
  lemma NegotiateReplies(input: seq<byte>, open: (seq<byte>, u16) -> bool)
    ensures var o := Negotiate(input, open);
      o.written == [] || o.written == [SOCKS_VERSION, NO_ACCEPTABLE_METHODS] ||
      (o.written[..2] == [SOCKS_VERSION, AUTH_NO_AUTH] && (|o.written| == 2 || |o.written| == 12))
    ensures var o := Negotiate(input, open);
      o.status.Relaying? <==> o.written == [SOCKS_VERSION, AUTH_NO_AUTH] + Reply(REP_SUCCESS)
  {
    if |input| >= 2 && input[0] == SOCKS_VERSION && |input| >= 2 + input[1] as nat && AUTH_NO_AUTH in input[2..][..input[1]] {
      RequestReplies(input[2..][input[1]..], open);
    }
  }
}
