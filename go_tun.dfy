/**
  The Go client's TUN helpers: finding the default gateway in the output of
  `route print 0.0.0.0`, the loop that forwards IPv4 packets read from the
  TUN device to the relay, and the loop that writes packets received from
  the relay to the device.

  The command's output, the device's reads and the relay's messages are
  inputs: a `Result` for the command, and sequences of events for the two
  loops, which end at the first error or when the events run out.
 */
module GoTun {
  import opened Wire

  // ---------------------------------------------------------------------
  // Whitespace-separated fields (`strings.Fields`, on ASCII whitespace)
  // ---------------------------------------------------------------------

  const SPACE: byte := 0x20
  const NEWLINE: byte := 0x0A

  /** Tab, line feed, vertical tab, form feed, carriage return and space. */
  predicate IsSpace(b: byte) {
    b == SPACE || 0x09 <= b <= 0x0D
  }

  predicate NoSpace(s: seq<byte>) {
    forall i | 0 <= i < |s| :: !IsSpace(s[i])
  }

  predicate AllSpace(s: seq<byte>) {
    forall i | 0 <= i < |s| :: IsSpace(s[i])
  }

  /** The longest prefix of `s` without whitespace. */
  function Word(s: seq<byte>): (r: seq<byte>)
    ensures |r| <= |s| && r == s[..|r|] && NoSpace(r)
    ensures |r| < |s| ==> IsSpace(s[|r|])
    decreases |s|
  {
    if s == [] || IsSpace(s[0]) then [] else [s[0]] + Word(s[1..])
  }

  /** `strings.Fields`: the maximal runs of non-whitespace, in order. */
  function Fields(s: seq<byte>): (r: seq<seq<byte>>)
    ensures forall i | 0 <= i < |r| :: |r[i]| > 0 && NoSpace(r[i])
    decreases |s|
  {
    if s == [] then []
    else if IsSpace(s[0]) then Fields(s[1..])
    else
      var w := Word(s);
      [w] + Fields(s[|w|..])
  }

  /** Words joined by single spaces. */
  function JoinWords(ws: seq<seq<byte>>): seq<byte>
    decreases |ws|
  {
    if ws == [] then []
    else if |ws| == 1 then ws[0]
    else ws[0] + [SPACE] + JoinWords(ws[1..])
  }

  /** A word ends at the first whitespace. */
  lemma {:induction false} WordOf(w: seq<byte>, rest: seq<byte>)
    requires NoSpace(w) && (rest == [] || IsSpace(rest[0]))
    ensures Word(w + rest) == w
    decreases |w|
  {
    if w == [] {
      assert w + rest == rest;
    } else {
      assert (w + rest)[1..] == w[1..] + rest;
      WordOf(w[1..], rest);
      assert [w[0]] + w[1..] == w;
    }
  }

  /** Leading whitespace is skipped. */
  lemma {:induction false} FieldsSkipSpace(pad: seq<byte>, s: seq<byte>)
    requires AllSpace(pad)
    ensures Fields(pad + s) == Fields(s)
    decreases |pad|
  {
    if pad == [] {
      assert pad + s == s;
    } else {
      assert (pad + s)[1..] == pad[1..] + s;
      FieldsSkipSpace(pad[1..], s);
    }
  }

  /** Splitting words joined by spaces gives back the words. */
  lemma {:induction false} FieldsOfJoin(ws: seq<seq<byte>>)
    requires forall i | 0 <= i < |ws| :: |ws[i]| > 0 && NoSpace(ws[i])
    ensures Fields(JoinWords(ws)) == ws
    decreases |ws|
  {
    if |ws| == 1 {
      var w := ws[0];
      WordOf(w, []);
      assert w + [] == w;
      assert w[|w|..] == [];
    } else if |ws| > 1 {
      var w := ws[0];
      var tail := JoinWords(ws[1..]);
      var s := w + [SPACE] + tail;
      assert s == w + ([SPACE] + tail);
      WordOf(w, [SPACE] + tail);
      assert s[|w|..] == [SPACE] + tail;
      FieldsSkipSpace([SPACE], tail);
      FieldsOfJoin(ws[1..]);
      assert [w] + ws[1..] == ws;
    }
  }

  // ---------------------------------------------------------------------
  // getDefaultGateway
  // ---------------------------------------------------------------------

  const ZERO_ROUTE: seq<byte> := Ascii("0.0.0.0")
  const GATEWAY_NOT_FOUND: seq<byte> := Ascii("default gateway not found")

  /** The gateway a line names: its third field, when it has more than two and the first is 0.0.0.0. */
  function LineGateway(line: seq<byte>): Option<seq<byte>> {
    var f := Fields(line);
    if |f| > 2 && f[0] == ZERO_ROUTE then Some(f[2]) else None
  }

  /** The gateway of the first line that names one. */
  function FindGateway(lines: seq<seq<byte>>): Result<seq<byte>, seq<byte>>
    decreases |lines|
  {
    if lines == [] then Err(GATEWAY_NOT_FOUND)
    else match LineGateway(lines[0])
      case Some(g) => Ok(g)
      case None => FindGateway(lines[1..])
  }

  /** `getDefaultGateway` on the outcome of running `route print 0.0.0.0`. */
  function DefaultGateway(output: Result<seq<byte>, seq<byte>>): Result<seq<byte>, seq<byte>> {
    match output
    case Err(e) => Err(e)
    case Ok(out) => FindGateway(Split(out, NEWLINE))
  }

  /** `getDefaultGateway`: scans the lines in order and returns at the first one that names a gateway. */
  method GetDefaultGateway(output: Result<seq<byte>, seq<byte>>) returns (r: Result<seq<byte>, seq<byte>>)
    ensures r == DefaultGateway(output)
  {
    if output.Err? {
      return Err(output.error);
    }
    var lines := Split(output.value, NEWLINE);
    for k := 0 to |lines|
      invariant FindGateway(lines[k..]) == FindGateway(lines)
    {
      assert lines[k..][1..] == lines[k + 1..];
      var g := LineGateway(lines[k]);
      if g.Some? {
        return Ok(g.value);
      }
    }
    return Err(GATEWAY_NOT_FOUND);
  }

  /** A gateway is found exactly when some line names one; otherwise the error is "default gateway not found". */
  lemma {:induction false} FindGatewayOkIff(lines: seq<seq<byte>>)
    ensures FindGateway(lines).Ok? <==> exists i | 0 <= i < |lines| :: LineGateway(lines[i]).Some?
    ensures FindGateway(lines).Err? ==> FindGateway(lines) == Err(GATEWAY_NOT_FOUND)
    decreases |lines|
  {
    if lines != [] && LineGateway(lines[0]).None? {
      FindGatewayOkIff(lines[1..]);
      if exists i | 0 <= i < |lines| :: LineGateway(lines[i]).Some? {
        var i :| 0 <= i < |lines| && LineGateway(lines[i]).Some?;
        assert lines[1..][i - 1] == lines[i];
      }
    }
  }

  /** The gateway found is that of the first line naming one. */
  lemma {:induction false} FindGatewayFirstMatch(lines: seq<seq<byte>>)
    requires FindGateway(lines).Ok?
    ensures exists i | 0 <= i < |lines| ::
      LineGateway(lines[i]) == Some(FindGateway(lines).value) && forall j | 0 <= j < i :: LineGateway(lines[j]).None?
    decreases |lines|
  {
    if LineGateway(lines[0]).None? {
      FindGatewayFirstMatch(lines[1..]);
      var i :| 0 <= i < |lines[1..]| &&
        LineGateway(lines[1..][i]) == Some(FindGateway(lines).value) && forall j | 0 <= j < i :: LineGateway(lines[1..][j]).None?;
      assert LineGateway(lines[i + 1]) == Some(FindGateway(lines).value);
      forall j | 0 <= j < i + 1 ensures LineGateway(lines[j]).None? {
        if j > 0 { assert lines[j] == lines[1..][j - 1]; }
      }
    } else {
      assert LineGateway(lines[0]) == Some(FindGateway(lines).value);
    }
  }

  /**
    A route line "0.0.0.0 <mask> <gateway> …", indented by any whitespace,
    names its third column as the gateway.
   */
  lemma RouteLineGateway(pad: seq<byte>, mask: seq<byte>, gateway: seq<byte>, more: seq<seq<byte>>)
    requires AllSpace(pad)
    requires |mask| > 0 && NoSpace(mask) && |gateway| > 0 && NoSpace(gateway)
    requires forall i | 0 <= i < |more| :: |more[i]| > 0 && NoSpace(more[i])
    ensures LineGateway(pad + JoinWords([ZERO_ROUTE, mask, gateway] + more)) == Some(gateway)
  {
    var ws := [ZERO_ROUTE, mask, gateway] + more;
    assert ZERO_ROUTE == [0x30, 0x2E, 0x30, 0x2E, 0x30, 0x2E, 0x30];
    assert NoSpace(ZERO_ROUTE);
    FieldsSkipSpace(pad, JoinWords(ws));
    FieldsOfJoin(ws);
  }

  // ---------------------------------------------------------------------
  // readLoop
  // ---------------------------------------------------------------------

  /** The size of the read buffer. */
  const BUF_SIZE: nat := 2048
  /** The size of an IPv4 header without options. */
  const MIN_IPV4_PACKET: nat := 20

  /**
    One `Read` of the device: an error, or a count of packets read and the
    bytes of the packet (at most the buffer's size), together with whether
    sending it to the relay would succeed.
   */
  datatype ReadEvent = ReadError | ReadDone(n: nat, data: seq<byte>, sendOk: bool)

  /** `(buf[0] >> 4) & 0x0F`: the IP version nibble. */
  function IpVersion(b: byte): nat {
    (b / 16) % 16
  }

  /** A read that `readLoop` passes on: a packet was read, of at least 20 bytes, with version 4. */
  predicate Forwardable(n: nat, data: seq<byte>) {
    n != 0 && |data| >= MIN_IPV4_PACKET && IpVersion(data[0]) == 4
  }

  predicate Bounded(events: seq<ReadEvent>) {
    forall i | 0 <= i < |events| :: events[i].ReadDone? ==> |events[i].data| <= BUF_SIZE
  }

  /** The payloads `readLoop` sends to the relay, in order, until a read or a send fails. */
  function Forwarded(events: seq<ReadEvent>): seq<seq<byte>>
    decreases |events|
  {
    if events == [] then []
    else match events[0]
      case ReadError => []
      case ReadDone(n, data, sendOk) =>
        if !Forwardable(n, data) then Forwarded(events[1..])
        else if sendOk then [data] + Forwarded(events[1..])
        else []
  }

  /** What `device.Read` does to the buffer: the packet's bytes at the front, the rest as it was. */
  method DeviceRead(buf: array<byte>, data: seq<byte>)
    requires |data| <= buf.Length
    modifies buf
    ensures buf[..|data|] == data && buf[|data|..] == old(buf[|data|..])
  {
    for j := 0 to |data|
      invariant buf[..j] == data[..j] && buf[j..] == old(buf[j..])
    {
      buf[j] := data[j];
      assert buf[j + 1..] == old(buf[j + 1..]);
    }
  }

  /** `payload := make([]byte, size); copy(payload, buf[:size])`. */
  method CopyPrefix(buf: array<byte>, size: nat) returns (payload: array<byte>)
    requires size <= buf.Length
    ensures fresh(payload) && payload[..] == buf[..size]
  {
    payload := new byte[size];
    for j := 0 to size
      invariant payload[..j] == buf[..j]
    {
      payload[j] := buf[j];
    }
  }

  /**
    `readLoop`: one reused 2048-byte buffer; reads that return no packet,
    packets shorter than 20 bytes and packets that are not IPv4 are skipped;
    every other packet is sent as a fresh copy of exactly its bytes.
   */
  method ReadLoop(events: seq<ReadEvent>) returns (sent: seq<seq<byte>>)
    requires Bounded(events)
    ensures sent == Forwarded(events)
  {
    var buf := new byte[BUF_SIZE];
    sent := [];
    var i := 0;
    while i < |events|
      invariant 0 <= i <= |events|
      invariant Forwarded(events) == sent + Forwarded(events[i..])
      decreases |events| - i
    {
      assert events[i..][1..] == events[i + 1..];
      var ev := events[i];
      if ev.ReadError? {
        assert sent + [] == sent;
        return;
      }
      DeviceRead(buf, ev.data);
      var size := |ev.data|;
      if ev.n != 0 && size != 0 && size >= MIN_IPV4_PACKET && IpVersion(buf[0]) == 4 {
        assert buf[0] == ev.data[0];
        var payload := CopyPrefix(buf, size);
        if !ev.sendOk {
          assert sent + [] == sent;
          return;
        }
        sent := sent + [payload[..]];
      } else {
        assert size > 0 ==> buf[0] == ev.data[0];
      }
      i := i + 1;
    }
    assert sent + [] == sent;
  }

  /** Every payload sent is an IPv4 packet of 20 to 2048 bytes that some read returned. */
  lemma {:induction false} ForwardedAreIpv4(events: seq<ReadEvent>)
    requires Bounded(events)
    ensures forall k | 0 <= k < |Forwarded(events)| ::
      MIN_IPV4_PACKET <= |Forwarded(events)[k]| <= BUF_SIZE && IpVersion(Forwarded(events)[k][0]) == 4
    ensures forall k | 0 <= k < |Forwarded(events)| ::
      exists i | 0 <= i < |events| :: events[i].ReadDone? && events[i].data == Forwarded(events)[k]
    decreases |events|
  {
    if events != [] && events[0].ReadDone? {
      var rest := events[1..];
      assert Bounded(rest) by {
        forall i | 0 <= i < |rest| ensures rest[i].ReadDone? ==> |rest[i].data| <= BUF_SIZE {
          assert rest[i] == events[i + 1];
        }
      }
      ForwardedAreIpv4(rest);
      var f := Forwarded(events);
      forall k | 0 <= k < |f|
        ensures MIN_IPV4_PACKET <= |f[k]| <= BUF_SIZE && IpVersion(f[k][0]) == 4
        ensures exists i | 0 <= i < |events| :: events[i].ReadDone? && events[i].data == f[k]
      {
        if Forwardable(events[0].n, events[0].data) && k == 0 {
          assert events[0].data == f[0];
        } else {
          var k' := if Forwardable(events[0].n, events[0].data) then k - 1 else k;
          assert f[k] == Forwarded(rest)[k'];
          var i :| 0 <= i < |rest| && rest[i].ReadDone? && rest[i].data == Forwarded(rest)[k'];
          assert events[i + 1] == rest[i];
        }
      }
    } else {
      assert Forwarded(events) == [];
    }
  }

  /** A read the filter skips changes nothing that is sent, wherever it occurs before the loop stops. */
  lemma {:induction false} SkippedReadIsInvisible(before: seq<ReadEvent>, n: nat, data: seq<byte>, ok: bool, after: seq<ReadEvent>)
    requires !Forwardable(n, data)
    ensures Forwarded(before + [ReadDone(n, data, ok)] + after) == Forwarded(before + after)
    decreases |before|
  {
    var ev := ReadDone(n, data, ok);
    if before == [] {
      assert (before + [ev] + after)[1..] == after;
      assert before + after == after;
    } else {
      assert (before + [ev] + after)[0] == before[0];
      assert (before + [ev] + after)[1..] == before[1..] + [ev] + after;
      assert (before + after)[0] == before[0];
      assert (before + after)[1..] == before[1..] + after;
      SkippedReadIsInvisible(before[1..], n, data, ok, after);
    }
  }

  // ---------------------------------------------------------------------
  // writeLoop
  // ---------------------------------------------------------------------

  /** The relay messages the loop can receive. */
  datatype RelayMessage = IpPacket(payload: seq<byte>) | BatchIpPacket(packets: seq<seq<byte>>) | OtherMessage

  /** One `Recv` from the relay: an error, or a message. */
  datatype RecvEvent = RecvError | Received(msg: RelayMessage)

  /** The payloads `writeLoop` writes to the device, in order, until a receive fails. */
  function DeviceWrites(events: seq<RecvEvent>): seq<seq<byte>>
    decreases |events|
  {
    if events == [] then []
    else match events[0]
      case RecvError => []
      case Received(IpPacket(p)) => [p] + DeviceWrites(events[1..])
      case Received(_) => DeviceWrites(events[1..])
  }

  /** `writeLoop`: every IpPacket's payload is written; a write error is logged and the loop goes on. */
  method WriteLoop(events: seq<RecvEvent>) returns (written: seq<seq<byte>>)
    ensures written == DeviceWrites(events)
  {
    written := [];
    var i := 0;
    while i < |events|
      invariant 0 <= i <= |events|
      invariant DeviceWrites(events) == written + DeviceWrites(events[i..])
      decreases |events| - i
    {
      assert events[i..][1..] == events[i + 1..];
      if events[i].RecvError? {
        assert written + [] == written;
        return;
      }
      if events[i].msg.IpPacket? {
        written := written + [events[i].msg.payload];
      }
      i := i + 1;
    }
    assert written + [] == written;
  }

  /** Messages other than IpPacket, batches included, are ignored wherever they occur. */
  lemma {:induction false} NonIpMessageIgnored(before: seq<RecvEvent>, m: RelayMessage, after: seq<RecvEvent>)
    requires !m.IpPacket?
    ensures DeviceWrites(before + [Received(m)] + after) == DeviceWrites(before + after)
    decreases |before|
  {
    if before == [] {
      assert ([Received(m)] + after)[1..] == after;
      assert before + [Received(m)] + after == [Received(m)] + after;
      assert before + after == after;
    } else {
      assert (before + [Received(m)] + after)[0] == before[0];
      assert (before + [Received(m)] + after)[1..] == before[1..] + [Received(m)] + after;
      assert (before + after)[0] == before[0];
      assert (before + after)[1..] == before[1..] + after;
      NonIpMessageIgnored(before[1..], m, after);
    }
  }

  /** Every write carries the payload of an IpPacket the relay sent. */
  lemma {:induction false} WritesAreIpPacketPayloads(events: seq<RecvEvent>)
    ensures forall k | 0 <= k < |DeviceWrites(events)| ::
      exists i | 0 <= i < |events| :: events[i] == Received(IpPacket(DeviceWrites(events)[k]))
    decreases |events|
  {
    if events != [] && events[0].Received? {
      var rest := events[1..];
      WritesAreIpPacketPayloads(rest);
      var w := DeviceWrites(events);
      forall k | 0 <= k < |w|
        ensures exists i | 0 <= i < |events| :: events[i] == Received(IpPacket(w[k]))
      {
        if events[0].msg.IpPacket? && k == 0 {
          assert events[0] == Received(IpPacket(w[0]));
        } else {
          var k' := if events[0].msg.IpPacket? then k - 1 else k;
          assert w[k] == DeviceWrites(rest)[k'];
          var i :| 0 <= i < |rest| && rest[i] == Received(IpPacket(DeviceWrites(rest)[k']));
          assert events[i + 1] == rest[i];
        }
      }
    } else {
      assert DeviceWrites(events) == [];
    }
  }
}
