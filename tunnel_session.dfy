/**
  The worker's per-connection session: it validates CONNECT targets against
  private and loopback ranges, tracks the status of every stream in a table,
  counts accepted WebSocket upgrades and answers each binary frame.

  What the network does (the outbound TCP connect, the DNS-over-HTTPS fetch)
  is an input of type `Network`. Replies sent back over the WebSocket are
  recorded in `sent`, in order.
 */
module TunnelSession {
  import opened Wire
  import opened Message

  // ---------------------------------------------------------------------
  // Host validation
  // ---------------------------------------------------------------------

  /** The prefixes of private, loopback, link-local and local-name targets. */
  const BLOCKED_PREFIXES: seq<string> := [
    "127.", "10.", "192.168.", "172.16.", "172.17.", "172.18.", "172.19.", "172.20.", "172.21.",
    "172.22.", "172.23.", "172.24.", "172.25.", "172.26.", "172.27.", "172.28.", "172.29.",
    "172.30.", "172.31.", "169.254.", "0.", "localhost", "::1", "fc", "fd", "fe80"]

  /** The longest host name accepted, in bytes. */
  const MAX_HOST_LEN: nat := 253

  /** ASCII lower-casing, byte by byte. */
  function LowerAscii(s: seq<byte>): (r: seq<byte>)
    ensures |r| == |s|
    ensures forall i | 0 <= i < |s| :: r[i] == if 0x41 <= s[i] <= 0x5A then s[i] + 0x20 else s[i]
  {
    seq(|s|, i requires 0 <= i < |s| => if 0x41 <= s[i] <= 0x5A then s[i] + 0x20 else s[i])
  }

  predicate StartsWith(s: seq<byte>, prefix: seq<byte>) {
    |prefix| <= |s| && s[..|prefix|] == prefix
  }

  /**
    `is_valid_host`: the lower-cased host starts with no blocked prefix, and
    the host is non-empty and at most 253 bytes long.
   */
  predicate IsValidHost(host: seq<byte>) {
    (forall p | p in BLOCKED_PREFIXES :: !StartsWith(LowerAscii(host), Ascii(p))) &&
    0 < |host| <= MAX_HOST_LEN
  }

  /** `is_valid_host` as written: the prefix loop with its early return, then the length check. */
  method CheckHost(host: seq<byte>) returns (ok: bool)
    ensures ok == IsValidHost(host)
  {
    var hostLower := LowerAscii(host);
    for k := 0 to |BLOCKED_PREFIXES|
      invariant forall j | 0 <= j < k :: !StartsWith(hostLower, Ascii(BLOCKED_PREFIXES[j]))
    {
      if StartsWith(hostLower, Ascii(BLOCKED_PREFIXES[k])) {
        BlockedPrefixRejected(host, k);
        return false;
      }
    }
    if |host| == 0 || |host| > MAX_HOST_LEN {
      return false;
    }
    OtherHostsAccepted(host);
    ok := true;
  }

  /** Any host whose lower-cased form starts with a blocked prefix is rejected. */
  lemma BlockedPrefixRejected(host: seq<byte>, k: nat)
    requires k < |BLOCKED_PREFIXES| && StartsWith(LowerAscii(host), Ascii(BLOCKED_PREFIXES[k]))
    ensures !IsValidHost(host)
  {
    assert BLOCKED_PREFIXES[k] in BLOCKED_PREFIXES;
  }

  /** Length bounds: empty and over-long hosts are rejected. */
  lemma HostLengthBounds(host: seq<byte>)
    ensures |host| == 0 || |host| > MAX_HOST_LEN ==> !IsValidHost(host)
  {
  }

  /** Hosts that start with no blocked prefix and have an admissible length are accepted. */
  lemma OtherHostsAccepted(host: seq<byte>)
    requires 0 < |host| <= MAX_HOST_LEN
    requires forall k | 0 <= k < |BLOCKED_PREFIXES| :: !StartsWith(LowerAscii(host), Ascii(BLOCKED_PREFIXES[k]))
    ensures IsValidHost(host)
  {
    forall p | p in BLOCKED_PREFIXES ensures !StartsWith(LowerAscii(host), Ascii(p)) {
      var k :| 0 <= k < |BLOCKED_PREFIXES| && BLOCKED_PREFIXES[k] == p;
    }
  }

  /** A sequence that differs from a prefix at one of the prefix's positions does not start with it. */
  lemma DiffersAt(s: seq<byte>, prefix: seq<byte>, i: nat)
    requires i < |prefix| && (i >= |s| || s[i] != prefix[i])
    ensures !StartsWith(s, prefix)
  {
    if |prefix| <= |s| {
      assert s[..|prefix|][i] == s[i];
    }
  }

  /** Lower-casing leaves a text without upper-case letters unchanged. */
  lemma LowerOfNoUpper(s: seq<byte>)
    requires forall i | 0 <= i < |s| :: !(0x41 <= s[i] <= 0x5A)
    ensures LowerAscii(s) == s
  {
  }

  /** The check is case-insensitive: "LOCALHOST" is rejected like "localhost". */
  lemma UpperCaseLocalhostBlocked()
    ensures !IsValidHost(Ascii("LOCALHOST"))
  {
    var h := Ascii("LOCALHOST");
    assert LowerAscii(h) == Ascii("localhost");
    BlockedPrefixRejected(h, 21);
  }

  /** The check is case-insensitive: "FE80::1" is rejected like "fe80::1". */
  lemma UpperCaseLinkLocalBlocked()
    ensures !IsValidHost(Ascii("FE80::1"))
  {
    var h := Ascii("FE80::1");
    assert LowerAscii(h)[..4] == Ascii("fe80");
    BlockedPrefixRejected(h, 25);
  }

  /**
    The "fc" prefix meant for IPv6 unique-local addresses also rejects
    ordinary domain names that happen to begin with those letters.
   */
  lemma DomainNameStartingWithFcRejected()
    ensures !IsValidHost(Ascii("fcc.gov"))
  {
    var h := Ascii("fcc.gov");
    assert Ascii(BLOCKED_PREFIXES[23]) == [0x66, 0x63];
    assert LowerAscii(h)[..2] == [0x66, 0x63];
    BlockedPrefixRejected(h, 23);
  }

  /** Likewise the "fd" prefix rejects domain names beginning "fd". */
  lemma DomainNameStartingWithFdRejected()
    ensures !IsValidHost(Ascii("fdic.gov"))
  {
    var h := Ascii("fdic.gov");
    assert Ascii(BLOCKED_PREFIXES[24]) == [0x66, 0x64];
    assert LowerAscii(h)[..2] == [0x66, 0x64];
    BlockedPrefixRejected(h, 24);
  }

  /** A host beginning "17" is blocked by none of the prefixes outside 172.16.–172.31. */
  lemma SeventeenOnlyMeets172Prefixes(h: seq<byte>)
    requires |h| >= 2 && h[0] == 0x31 && h[1] == 0x37
    ensures forall k | 0 <= k < |BLOCKED_PREFIXES| && !(3 <= k < 19) :: !StartsWith(h, Ascii(BLOCKED_PREFIXES[k]))
  {
    forall k | 0 <= k < |BLOCKED_PREFIXES| && !(3 <= k < 19) ensures !StartsWith(h, Ascii(BLOCKED_PREFIXES[k])) {
      if k < 3 || k == 19 { DiffersAt(h, Ascii(BLOCKED_PREFIXES[k]), 1); }
      else { DiffersAt(h, Ascii(BLOCKED_PREFIXES[k]), 0); }
    }
  }

  /** The prefixes 172.16.–172.19. need '1' then a digit 6–9 after "172.". */
  lemma Not172Teens(h: seq<byte>)
    requires |h| >= 6 && (h[4] != 0x31 || h[5] < 0x36 || 0x39 < h[5])
    ensures forall k | 3 <= k < 7 :: !StartsWith(h, Ascii(BLOCKED_PREFIXES[k]))
  {
    forall k | 3 <= k < 7 ensures !StartsWith(h, Ascii(BLOCKED_PREFIXES[k])) {
      if h[4] != 0x31 { DiffersAt(h, Ascii(BLOCKED_PREFIXES[k]), 4); }
      else { DiffersAt(h, Ascii(BLOCKED_PREFIXES[k]), 5); }
    }
  }

  /** The prefixes 172.20.–172.29. need '2' after "172.". */
  lemma Not172Twenties(h: seq<byte>)
    requires |h| >= 5 && h[4] != 0x32
    ensures forall k | 7 <= k < 17 :: !StartsWith(h, Ascii(BLOCKED_PREFIXES[k]))
  {
    forall k | 7 <= k < 17 ensures !StartsWith(h, Ascii(BLOCKED_PREFIXES[k])) {
      DiffersAt(h, Ascii(BLOCKED_PREFIXES[k]), 4);
    }
  }

  /** The prefixes 172.30. and 172.31. need '3' then '0' or '1' after "172.". */
  lemma Not172Thirties(h: seq<byte>)
    requires |h| >= 6 && (h[4] != 0x33 || (h[5] != 0x30 && h[5] != 0x31))
    ensures forall k | 17 <= k < 19 :: !StartsWith(h, Ascii(BLOCKED_PREFIXES[k]))
  {
    forall k | 17 <= k < 19 ensures !StartsWith(h, Ascii(BLOCKED_PREFIXES[k])) {
      if h[4] != 0x33 { DiffersAt(h, Ascii(BLOCKED_PREFIXES[k]), 4); }
      else { DiffersAt(h, Ascii(BLOCKED_PREFIXES[k]), 5); }
    }
  }

  /** The 172.16.0.0/12 block starts where it should: 172.15.x is let through. */
  lemma BelowPrivateRangeAccepted()
    ensures IsValidHost(Ascii("172.15.0.1"))
  {
    var a := Ascii("172.15.0.1");
    assert a == [0x31, 0x37, 0x32, 0x2E, 0x31, 0x35, 0x2E, 0x30, 0x2E, 0x31];
    LowerOfNoUpper(a);
    SeventeenOnlyMeets172Prefixes(a);
    Not172Teens(a);
    Not172Twenties(a);
    Not172Thirties(a);
    OtherHostsAccepted(a);
  }

  /** The 172.16.0.0/12 block ends where it should: 172.32.x is let through. */
  lemma AbovePrivateRangeAccepted()
    ensures IsValidHost(Ascii("172.32.0.1"))
  {
    var b := Ascii("172.32.0.1");
    assert b == [0x31, 0x37, 0x32, 0x2E, 0x33, 0x32, 0x2E, 0x30, 0x2E, 0x31];
    LowerOfNoUpper(b);
    SeventeenOnlyMeets172Prefixes(b);
    Not172Teens(b);
    Not172Twenties(b);
    Not172Thirties(b);
    OtherHostsAccepted(b);
  }

  // ---------------------------------------------------------------------
  // Session state and the handlers as functions
  // ---------------------------------------------------------------------

  datatype StreamStatus = Connecting | Connected | Closing

  /** What goes back over the WebSocket: an encoded frame, or a DNS answer frame. */
  datatype Reply = Frame(msg: TunnelMessage) | DnsAnswer(requestId: u32, response: seq<byte>)

  /**
    The frames the worker handles. The codec decodes the first six; the DNS
    and UDP frames have no encoding in the codec and arrive here already
    parsed.
   */
  datatype Incoming =
    | Tunnel(msg: TunnelMessage)
    | DnsQuery(requestId: u32, query: seq<byte>)
    | DnsResponse(requestId: u32, response: seq<byte>)
    | UdpDatagram(requestId: u32, host: seq<byte>, port: u16, payload: seq<byte>)

  /**
    The outcomes of the network calls a frame may trigger: the outbound
    connect (its error's debug text on failure) and the DNS-over-HTTPS fetch.
   */
  datatype Network = Network(connect: Result<(), seq<byte>>, doh: Result<seq<byte>, seq<byte>>)

  datatype Session = Session(streams: map<StreamId, StreamStatus>, connectionCount: u32, sent: seq<Reply>)

  const INVALID_HOST: seq<byte> := Ascii("Invalid host")
  const STREAM_IN_USE: seq<byte> := Ascii("Stream ID already in use")
  const STREAM_NOT_FOUND: seq<byte> := Ascii("Stream not found")
  const CONNECTION_FAILED: seq<byte> := Ascii("Connection failed: ")
  const UDP_NOT_SUPPORTED: seq<byte> := Ascii("UDP not supported (except DNS via DoH)")
  const DNS_FAILED: seq<byte> := Ascii("DNS resolution failed: ")
  const DNS_PORT: u16 := 53

  function ErrorFrame(id: u32, code: u16, text: seq<byte>): Reply {
    Frame(ErrorReply(id, code, text))
  }

  function Send(s: Session, r: Reply): Session {
    s.(sent := s.sent + [r])
  }

  /** `handle_connect`, after the host has passed validation. */
  function ConnectStep(s: Session, id: StreamId, net: Network): Session {
    if id in s.streams then Send(s, ErrorFrame(id, 409, STREAM_IN_USE))
    else match net.connect
      case Ok(_) => s.(streams := s.streams[id := Connected])
      case Err(e) => Send(s.(streams := s.streams[id := Connecting] - {id}), ErrorFrame(id, 502, CONNECTION_FAILED + e))
  }

  /** `handle_data`: never changes the table; 404 unless the stream is Connected or Connecting. */
  function DataStep(s: Session, id: StreamId): Session {
    if id in s.streams && s.streams[id] != Closing then s
    else Send(s, ErrorFrame(id, 404, STREAM_NOT_FOUND))
  }

  /** `handle_close`: drops the stream, if it is there. */
  function CloseStep(s: Session, id: StreamId): Session {
    s.(streams := s.streams - {id})
  }

  /** `handle_dns_query`: the DoH answer, or error 503 with the failure text. */
  function DnsStep(s: Session, requestId: u32, net: Network): Session {
    match net.doh
      case Ok(answer) => Send(s, DnsAnswer(requestId, answer))
      case Err(e) => Send(s, ErrorFrame(requestId, 503, DNS_FAILED + e))
  }

  /** The dispatch of `handle_binary_message` on a frame. */
  function Step(s: Session, frame: Incoming, net: Network): Session {
    match frame
      case Tunnel(Connect(id, host, _)) =>
        if !IsValidHost(host) then Send(s, ErrorFrame(id, 400, INVALID_HOST)) else ConnectStep(s, id, net)
      case Tunnel(Data(id, _)) => DataStep(s, id)
      case Tunnel(Close(id)) => CloseStep(s, id)
      case Tunnel(Ping) => Send(s, Frame(Pong))
      case Tunnel(Pong) => s
      case Tunnel(ErrorReply(_, _, _)) => s
      case DnsQuery(requestId, _) => DnsStep(s, requestId, net)
      case DnsResponse(_, _) => s
      case UdpDatagram(requestId, _, port, _) =>
        if port == DNS_PORT then DnsStep(s, requestId, net)
        else Send(s, ErrorFrame(requestId, 501, UDP_NOT_SUPPORTED))
  }

  /** `handle_binary_message` on raw bytes: frames that fail to decode are dropped. */
  function BinaryStep(s: Session, data: seq<byte>, net: Network): Session {
    match Decode(data)
      case Err(_) => s
      case Ok(m) => Step(s, Tunnel(m), net)
  }

  /** The result of `fetch`. */
  datatype FetchResponse = UpgradeRequired | SwitchingProtocols

  /** `fetch`: anything but a WebSocket upgrade gets 426; an upgrade bumps the u32 connection counter. */
  function FetchStep(s: Session, upgrade: Option<seq<byte>>): (Session, FetchResponse) {
    if upgrade != Some(Ascii("websocket")) then (s, UpgradeRequired)
    else (s.(connectionCount := (s.connectionCount + 1) % U32_MOD), SwitchingProtocols)
  }

  class TunnelSession {
    var activeStreams: map<StreamId, StreamStatus>
    var connectionCount: u32
    var sent: seq<Reply>

    function Model(): Session
      reads this
    {
      Session(activeStreams, connectionCount, sent)
    }

    /** `TunnelSession::new`: no streams, no connections. */
    constructor ()
      ensures Model() == Session(map[], 0, [])
    {
      activeStreams := map[];
      connectionCount := 0;
      sent := [];
    }

    method SendError(id: u32, code: u16, text: seq<byte>)
      modifies this
      ensures Model() == Send(old(Model()), ErrorFrame(id, code, text))
    {
      sent := sent + [ErrorFrame(id, code, text)];
    }

    /** `fetch`. */
    method Fetch(upgrade: Option<seq<byte>>) returns (response: FetchResponse)
      modifies this
      ensures (Model(), response) == FetchStep(old(Model()), upgrade)
    {
      if upgrade != Some(Ascii("websocket")) {
        return UpgradeRequired;
      }
      connectionCount := (connectionCount + 1) % U32_MOD;
      response := SwitchingProtocols;
    }

    /** `websocket_close`: every stream is dropped. */
    method WebsocketClose()
      modifies this
      ensures Model() == old(Model()).(streams := map[])
    {
      activeStreams := map[];
    }

    /** `handle_connect`: 409 on a duplicate id; otherwise Connecting, then Connected or removed with 502. */
    method HandleConnect(id: StreamId, net: Network)
      modifies this
      ensures Model() == ConnectStep(old(Model()), id, net)
    {
      if id in activeStreams {
        SendError(id, 409, STREAM_IN_USE);
        return;
      }
      activeStreams := activeStreams[id := Connecting];
      match net.connect {
        case Ok(_) =>
          activeStreams := activeStreams[id := Connected];
        case Err(e) =>
          activeStreams := activeStreams - {id};
          SendError(id, 502, CONNECTION_FAILED + e);
      }
    }

    /** `handle_data`. */
    method HandleData(id: StreamId)
      modifies this
      ensures Model() == DataStep(old(Model()), id)
    {
      var status := if id in activeStreams then Some(activeStreams[id]) else None;
      match status {
        case Some(Connected) =>
        case Some(Connecting) =>
        case Some(Closing) => SendError(id, 404, STREAM_NOT_FOUND);
        case None => SendError(id, 404, STREAM_NOT_FOUND);
      }
    }

    /** `handle_close`. */
    method HandleClose(id: StreamId)
      modifies this
      ensures Model() == CloseStep(old(Model()), id)
    {
      activeStreams := activeStreams - {id};
    }

    /** `handle_dns_query`. */
    method HandleDnsQuery(requestId: u32, net: Network)
      modifies this
      ensures Model() == DnsStep(old(Model()), requestId, net)
    {
      match net.doh {
        case Ok(answer) => sent := sent + [DnsAnswer(requestId, answer)];
        case Err(e) => SendError(requestId, 503, DNS_FAILED + e);
      }
    }

    /** The dispatch of `handle_binary_message` on a decoded frame. */
    method HandleMessage(frame: Incoming, net: Network)
      modifies this
      ensures Model() == Step(old(Model()), frame, net)
    {
      match frame {
        case Tunnel(Connect(id, host, _)) =>
          var valid := CheckHost(host);
          if !valid {
            SendError(id, 400, INVALID_HOST);
            return;
          }
          HandleConnect(id, net);
        case Tunnel(Data(id, _)) => HandleData(id);
        case Tunnel(Close(id)) => HandleClose(id);
        case Tunnel(Ping) => sent := sent + [Frame(Pong)];
        case Tunnel(Pong) =>
        case Tunnel(ErrorReply(_, _, _)) =>
        case DnsQuery(requestId, _) => HandleDnsQuery(requestId, net);
        case DnsResponse(_, _) =>
        case UdpDatagram(requestId, _, port, _) =>
          if port == DNS_PORT {
            HandleDnsQuery(requestId, net);
          } else {
            SendError(requestId, 501, UDP_NOT_SUPPORTED);
          }
      }
    }

    /** `handle_binary_message`: decode, drop what does not decode, dispatch the rest. */
    method HandleBinaryMessage(data: seq<byte>, net: Network)
      modifies this
      ensures Model() == BinaryStep(old(Model()), data, net)
    {
      match Decode(data) {
        case Err(_) =>
        case Ok(m) => HandleMessage(Tunnel(m), net);
      }
    }
  }

  // ---------------------------------------------------------------------
  // Properties of the handlers
  // ---------------------------------------------------------------------

  /** Connect to an invalid host: error 400, table unchanged. */
  lemma ConnectInvalidHost(s: Session, id: StreamId, host: seq<byte>, port: u16, net: Network)
    requires !IsValidHost(host)
    ensures Step(s, Tunnel(Connect(id, host, port)), net) == s.(sent := s.sent + [ErrorFrame(id, 400, INVALID_HOST)])
  {
  }

  /** Connect on an id already in the table: error 409, table unchanged. */
  lemma ConnectDuplicate(s: Session, id: StreamId, host: seq<byte>, port: u16, net: Network)
    requires IsValidHost(host) && id in s.streams
    ensures Step(s, Tunnel(Connect(id, host, port)), net) == s.(sent := s.sent + [ErrorFrame(id, 409, STREAM_IN_USE)])
  {
  }

  /**
    Connect on a new id: Connected on success with nothing sent; on failure
    the table is as before and 502 carries the failure text.
   */
  lemma ConnectNewStream(s: Session, id: StreamId, host: seq<byte>, port: u16, net: Network)
    requires IsValidHost(host) && id !in s.streams
    ensures var t := Step(s, Tunnel(Connect(id, host, port)), net);
      match net.connect
        case Ok(_) => t.streams == s.streams[id := Connected] && t.sent == s.sent
        case Err(e) => t.streams == s.streams && t.sent == s.sent + [ErrorFrame(id, 502, CONNECTION_FAILED + e)]
  {
    if net.connect.Err? {
      assert s.streams[id := Connecting] - {id} == s.streams;
    }
  }

  /** Data never changes the table; it answers 404 exactly when the stream is absent or Closing. */
  lemma DataSpec(s: Session, id: StreamId, payload: seq<byte>, net: Network)
    ensures Step(s, Tunnel(Data(id, payload)), net).streams == s.streams
    ensures Step(s, Tunnel(Data(id, payload)), net).sent ==
      if id !in s.streams || s.streams[id] == Closing then s.sent + [ErrorFrame(id, 404, STREAM_NOT_FOUND)] else s.sent
  {
  }

  /** Close removes the id and nothing else, and is a no-op for an unknown id. */
  lemma CloseSpec(s: Session, id: StreamId, net: Network)
    ensures var t := Step(s, Tunnel(Close(id)), net);
      id !in t.streams && t.sent == s.sent &&
      (forall other | other in s.streams && other != id :: other in t.streams && t.streams[other] == s.streams[other])
    ensures id !in s.streams ==> Step(s, Tunnel(Close(id)), net) == s
  {
    if id !in s.streams {
      assert s.streams - {id} == s.streams;
    }
  }

  /** UDP to any port but 53 gets error 501; ping gets pong; neither touches the table. */
  lemma UdpAndPing(s: Session, requestId: u32, host: seq<byte>, port: u16, payload: seq<byte>, net: Network)
    ensures port != DNS_PORT ==>
      Step(s, UdpDatagram(requestId, host, port, payload), net) == Send(s, ErrorFrame(requestId, 501, UDP_NOT_SUPPORTED))
    ensures port == DNS_PORT ==>
      Step(s, UdpDatagram(requestId, host, port, payload), net) == Step(s, DnsQuery(requestId, payload), net)
    ensures Step(s, Tunnel(Ping), net) == Send(s, Frame(Pong))
  {
  }

  /** A failed DoH fetch is reported with 503. */
  lemma DnsFailureReported(s: Session, requestId: u32, query: seq<byte>, net: Network)
    requires net.doh.Err?
    ensures Step(s, DnsQuery(requestId, query), net) == Send(s, ErrorFrame(requestId, 503, DNS_FAILED + net.doh.error))
  {
  }

  /** Undecodable bytes are dropped without a reply. */
  lemma UndecodableDropped(s: Session, data: seq<byte>, net: Network)
    requires Decode(data).Err?
    ensures BinaryStep(s, data, net) == s
  {
  }

  /** Only a WebSocket upgrade is counted; the count wraps at 2^32. */
  lemma FetchCounts(s: Session, upgrade: Option<seq<byte>>)
    ensures upgrade != Some(Ascii("websocket")) ==> FetchStep(s, upgrade) == (s, UpgradeRequired)
    ensures upgrade == Some(Ascii("websocket")) && s.connectionCount < U32_MOD - 1 ==>
      FetchStep(s, upgrade).0.connectionCount == s.connectionCount + 1
  {
  }

  /** Every stream in the table is Connected. */
  predicate AllConnected(s: Session) {
    forall id | id in s.streams :: s.streams[id] == Connected
  }

  /**
    Because the connect outcome is known before the handler returns, no
    stream is ever left Connecting, and nothing ever marks one Closing.
   */
  lemma StepKeepsAllConnected(s: Session, frame: Incoming, net: Network)
    requires AllConnected(s)
    ensures AllConnected(Step(s, frame, net))
  {
    match frame
    case Tunnel(Connect(id, host, _)) =>
      if IsValidHost(host) { ConnectStepKeepsAllConnected(s, id, net); }
    case _ =>
  }

  /** A connect either records the stream as Connected or leaves the table without it. */
  lemma ConnectStepKeepsAllConnected(s: Session, id: StreamId, net: Network)
    requires AllConnected(s)
    ensures AllConnected(ConnectStep(s, id, net))
  {
    if id !in s.streams && net.connect.Err? {
      assert ConnectStep(s, id, net).streams == s.streams;
    }
  }

  /** The same holds across socket close and fetch, which only clear the table or touch the counter. */
  lemma OtherEventsKeepAllConnected(s: Session, upgrade: Option<seq<byte>>)
    requires AllConnected(s)
    ensures AllConnected(s.(streams := map[]))
    ensures AllConnected(FetchStep(s, upgrade).0)
  {
  }

  /**
    One thing that can happen to a session: a decoded frame or raw bytes
    arriving, each meeting its own network outcomes, the socket closing, or
    a `fetch`.
   */
  datatype SessionEvent =
    | FrameEvent(frame: Incoming, net: Network)
    | BinaryEvent(data: seq<byte>, net: Network)
    | SocketClosed
    | FetchEvent(upgrade: Option<seq<byte>>)

  /** The session after one event. */
  function EventStep(s: Session, e: SessionEvent): Session {
    match e
      case FrameEvent(frame, net) => Step(s, frame, net)
      case BinaryEvent(data, net) => BinaryStep(s, data, net)
      case SocketClosed => s.(streams := map[])
      case FetchEvent(upgrade) => FetchStep(s, upgrade).0
  }

  /** The session after a sequence of events. */
  function Run(s: Session, events: seq<SessionEvent>): Session
    decreases |events|
  {
    if events == [] then s else Run(EventStep(s, events[0]), events[1..])
  }

  /** Every kind of event keeps "every stream in the table is Connected". */
  lemma EventKeepsAllConnected(s: Session, e: SessionEvent)
    requires AllConnected(s)
    ensures AllConnected(EventStep(s, e))
  {
    match e
    case FrameEvent(frame, net) => StepKeepsAllConnected(s, frame, net);
    case BinaryEvent(data, net) =>
      if Decode(data).Ok? { StepKeepsAllConnected(s, Tunnel(Decode(data).value), net); }
    case SocketClosed => OtherEventsKeepAllConnected(s, None);
    case FetchEvent(upgrade) => OtherEventsKeepAllConnected(s, upgrade);
  }

  lemma {:induction false} RunKeepsAllConnected(s: Session, events: seq<SessionEvent>)
    requires AllConnected(s)
    ensures AllConnected(Run(s, events))
    decreases |events|
  {
    if events != [] {
      EventKeepsAllConnected(s, events[0]);
      RunKeepsAllConnected(EventStep(s, events[0]), events[1..]);
    }
  }

  /**
    In any session reached from a new one by frames, raw bytes, socket
    closes and fetches, each frame meeting its own network outcomes, the
    Connecting and Closing branches of `handle_data` are unreachable: Data is
    answered with 404 exactly when the stream is absent.
   */
  lemma DataAfterAnyEvents(events: seq<SessionEvent>, net: Network, id: StreamId, payload: seq<byte>)
    ensures var s := Run(Session(map[], 0, []), events);
      AllConnected(s) &&
      Step(s, Tunnel(Data(id, payload)), net).sent ==
        if id in s.streams then s.sent else s.sent + [ErrorFrame(id, 404, STREAM_NOT_FOUND)]
  {
    RunKeepsAllConnected(Session(map[], 0, []), events);
  }
}
