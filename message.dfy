/**
  The tunnel wire codec: the six `TunnelMessage` frames exchanged between the
  tunnel client and the worker, their binary encoding (one command byte,
  big-endian fields, u16/u32 length prefixes) and the decoder with its closed
  set of `ProtoError`s.

  Frame layouts:
    Connect:    [1][stream_id:4][port:2][host_len:2][host]
    Data:       [2][stream_id:4][payload_len:4][payload]
    Close:      [3][stream_id:4]
    ErrorReply: [4][stream_id:4][code:2][msg_len:2][msg]
    Ping:       [5]
    Pong:       [6]
 */
module Message {
  import opened Wire

  /** Maximum size of a single frame (1 MiB); declared but never checked by the decoder. */
  const MAX_FRAME_SIZE: nat := 1024 * 1024

  datatype CommandType = ConnectCmd | DataCmd | CloseCmd | ErrorReplyCmd | PingCmd | PongCmd

  datatype ProtoError =
    | InvalidCommand(b: byte)
    | EmptyMessage
    | InsufficientData
    | InvalidUtf8
    | FrameTooLarge(size: nat, max: nat)
    | Io

  type StreamId = u32

  /** Host names and error messages are Rust `String`s: UTF-8 byte sequences. */
  datatype TunnelMessage =
    | Connect(streamId: StreamId, host: seq<byte>, port: u16)
    | Data(streamId: StreamId, payload: seq<byte>)
    | Close(streamId: StreamId)
    | ErrorReply(streamId: StreamId, code: u16, message: seq<byte>)
    | Ping
    | Pong

  /** `CommandType as u8`. */
  function CommandByte(c: CommandType): byte {
    match c
    case ConnectCmd => 0x01
    case DataCmd => 0x02
    case CloseCmd => 0x03
    case ErrorReplyCmd => 0x04
    case PingCmd => 0x05
    case PongCmd => 0x06
  }

  /** `CommandType::try_from(u8)`: the inverse of `CommandByte` on 0x01..0x06. */
  function CommandFromByte(b: byte): (r: Result<CommandType, ProtoError>)
    ensures r.Ok? <==> 0x01 <= b <= 0x06
    ensures r.Ok? ==> CommandByte(r.value) == b
    ensures r.Err? ==> r.error == InvalidCommand(b)
  {
    match b
    case 0x01 => Ok(ConnectCmd)
    case 0x02 => Ok(DataCmd)
    case 0x03 => Ok(CloseCmd)
    case 0x04 => Ok(ErrorReplyCmd)
    case 0x05 => Ok(PingCmd)
    case 0x06 => Ok(PongCmd)
    case _ => Err(InvalidCommand(b))
  }

  lemma CommandRoundTrip(c: CommandType)
    ensures CommandFromByte(CommandByte(c)) == Ok(c)
  {
    match c
    case ConnectCmd =>
    case DataCmd =>
    case CloseCmd =>
    case ErrorReplyCmd =>
    case PingCmd =>
    case PongCmd =>
  }

  function CommandOf(m: TunnelMessage): CommandType {
    match m
    case Connect(_, _, _) => ConnectCmd
    case Data(_, _) => DataCmd
    case Close(_) => CloseCmd
    case ErrorReply(_, _, _) => ErrorReplyCmd
    case Ping => PingCmd
    case Pong => PongCmd
  }

  /** What the Rust types guarantee of a message: its strings are UTF-8. */
  predicate WellFormed(m: TunnelMessage) {
    match m
    case Connect(_, host, _) => ValidUtf8(host)
    case ErrorReply(_, _, message) => ValidUtf8(message)
    case _ => true
  }

  /** Every length fits its prefix (`as u16` / `as u32` loses nothing). */
  predicate LengthsFit(m: TunnelMessage) {
    match m
    case Connect(_, host, _) => |host| < U16_MOD
    case Data(_, payload) => |payload| < U32_MOD
    case ErrorReply(_, _, message) => |message| < U16_MOD
    case _ => true
  }

  /** `TunnelMessage::encode`. The length prefixes are the lengths cast to u16/u32. */
  function Encode(m: TunnelMessage): (r: seq<byte>) {
    match m
    case Connect(id, host, port) =>
      [CommandByte(ConnectCmd)] + Be32(id) + Be16(port) + Be16(|host| % U16_MOD) + host
    case Data(id, payload) =>
      [CommandByte(DataCmd)] + Be32(id) + Be32(|payload| % U32_MOD) + payload
    case Close(id) =>
      [CommandByte(CloseCmd)] + Be32(id)
    case ErrorReply(id, code, message) =>
      [CommandByte(ErrorReplyCmd)] + Be32(id) + Be16(code) + Be16(|message| % U16_MOD) + message
    case Ping => [CommandByte(PingCmd)]
    case Pong => [CommandByte(PongCmd)]
  }

  /** The Connect arm of the decoder, on the bytes after the command byte. */
  function DecodeConnect(rest: seq<byte>): Result<TunnelMessage, ProtoError> {
    if |rest| < 8 then Err(InsufficientData)
    else
      var id, port, len := U32At(rest, 0), U16At(rest, 4), U16At(rest, 6);
      if |rest| - 8 < len then Err(InsufficientData)
      else
        var host := rest[8..8 + len];
        if !ValidUtf8(host) then Err(InvalidUtf8)
        else Ok(Connect(id, host, port))
  }

  /** The Data arm of the decoder. */
  function DecodeData(rest: seq<byte>): Result<TunnelMessage, ProtoError> {
    if |rest| < 8 then Err(InsufficientData)
    else
      var id, len := U32At(rest, 0), U32At(rest, 4);
      if |rest| - 8 < len then Err(InsufficientData)
      else Ok(Data(id, rest[8..8 + len]))
  }

  /** The Close arm of the decoder. */
  function DecodeClose(rest: seq<byte>): Result<TunnelMessage, ProtoError> {
    if |rest| < 4 then Err(InsufficientData)
    else Ok(Close(U32At(rest, 0)))
  }

  /** The ErrorReply arm of the decoder. */
  function DecodeErrorReply(rest: seq<byte>): Result<TunnelMessage, ProtoError> {
    if |rest| < 8 then Err(InsufficientData)
    else
      var id, code, len := U32At(rest, 0), U16At(rest, 4), U16At(rest, 6);
      if |rest| - 8 < len then Err(InsufficientData)
      else
        var message := rest[8..8 + len];
        if !ValidUtf8(message) then Err(InvalidUtf8)
        else Ok(ErrorReply(id, code, message))
  }

  /** `TunnelMessage::decode`: reads one frame from the front of `data`; trailing bytes are ignored. */
  function Decode(data: seq<byte>): (r: Result<TunnelMessage, ProtoError>)
    ensures r.Ok? ==> WellFormed(r.value) && LengthsFit(r.value)
    ensures r.Err? ==> !r.error.FrameTooLarge? && !r.error.Io?
  {
    if |data| == 0 then Err(EmptyMessage)
    else
      match CommandFromByte(data[0])
      case Err(e) => Err(e)
      case Ok(cmd) =>
        match cmd
        case ConnectCmd => DecodeConnect(data[1..])
        case DataCmd => DecodeData(data[1..])
        case CloseCmd => DecodeClose(data[1..])
        case ErrorReplyCmd => DecodeErrorReply(data[1..])
        case PingCmd => Ok(Ping)
        case PongCmd => Ok(Pong)
  }

  // ---------------------------------------------------------------------
  // Properties of the format
  // ---------------------------------------------------------------------

  /** Fixed frame sizes: 9 + N for the length-prefixed frames, 5 for Close, 1 for Ping/Pong. */
  lemma EncodedLength(m: TunnelMessage)
    ensures |Encode(m)| == match m
      case Connect(_, host, _) => 9 + |host|
      case Data(_, payload) => 9 + |payload|
      case Close(_) => 5
      case ErrorReply(_, _, message) => 9 + |message|
      case _ => 1
    ensures Encode(m)[0] == CommandByte(CommandOf(m))
  {
  }

  /** The header fields sit big-endian at fixed offsets after the command byte. */
  lemma EncodedFields(m: TunnelMessage)
    requires !m.Ping? && !m.Pong?
    ensures U32At(Encode(m), 1) == m.streamId
    ensures m.Connect? ==> U16At(Encode(m), 5) == m.port && U16At(Encode(m), 7) == |m.host| % U16_MOD
    ensures m.Data? ==> U32At(Encode(m), 5) == |m.payload| % U32_MOD
    ensures m.ErrorReply? ==> U16At(Encode(m), 5) == m.code && U16At(Encode(m), 7) == |m.message| % U16_MOD
  {
    var e := Encode(m);
    assert e[1..5] == Be32(m.streamId);
    Be32Decodes(m.streamId, e, 1);
    match m
    case Connect(_, host, port) =>
      assert e[5..7] == Be16(port);
      assert e[7..9] == Be16(|host| % U16_MOD);
      Be16Decodes(port, e, 5);
      Be16Decodes(|host| % U16_MOD, e, 7);
    case Data(_, payload) =>
      assert e[5..9] == Be32(|payload| % U32_MOD);
      Be32Decodes(|payload| % U32_MOD, e, 5);
    case ErrorReply(_, code, message) =>
      assert e[5..7] == Be16(code);
      assert e[7..9] == Be16(|message| % U16_MOD);
      Be16Decodes(code, e, 5);
      Be16Decodes(|message| % U16_MOD, e, 7);
    case Close(_) =>
  }

  /** The first header fields of a frame body, read back. */
  lemma HeaderDecodes(id: u32, a: u16, b: u16, tail: seq<byte>)
    ensures var rest := Be32(id) + Be16(a) + Be16(b) + tail;
      U32At(rest, 0) == id && U16At(rest, 4) == a && U16At(rest, 6) == b &&
      rest[8..] == tail
  {
    var rest := Be32(id) + Be16(a) + Be16(b) + tail;
    assert rest[0..4] == Be32(id);
    assert rest[4..6] == Be16(a);
    assert rest[6..8] == Be16(b);
    Be32Decodes(id, rest, 0);
    Be16Decodes(a, rest, 4);
    Be16Decodes(b, rest, 6);
  }

  lemma DataHeaderDecodes(id: u32, len: u32, tail: seq<byte>)
    ensures var rest := Be32(id) + Be32(len) + tail;
      U32At(rest, 0) == id && U32At(rest, 4) == len && rest[8..] == tail
  {
    var rest := Be32(id) + Be32(len) + tail;
    assert rest[0..4] == Be32(id);
    assert rest[4..8] == Be32(len);
    Be32Decodes(id, rest, 0);
    Be32Decodes(len, rest, 4);
  }

  /** Where the decoder finds the fields of an encoded Connect frame (UTF-8 aside). */
  lemma ConnectLayout(id: u32, host: seq<byte>, port: u16, extra: seq<byte>)
    requires |host| < U16_MOD
    ensures var data := Encode(Connect(id, host, port)) + extra;
      |data| >= 9 && data[0] == 0x01 && |data[1..]| - 8 >= |host| &&
      U32At(data[1..], 0) == id && U16At(data[1..], 4) == port &&
      U16At(data[1..], 6) == |host| && data[1..][8..8 + |host|] == host
  {
    var len: u16 := |host| % U16_MOD;
    assert len == |host|;
    Regroup([CommandByte(ConnectCmd)], Be32(id), Be16(port), Be16(len), host, extra);
    HeaderDecodes(id, port, len, host + extra);
    assert (host + extra)[..len] == host;
  }

  /**
    An encoded frame followed by extra bytes, regrouped as its command byte
    and the body the decoder reads.
   */
  lemma Regroup(cmd: seq<byte>, a: seq<byte>, b: seq<byte>, c: seq<byte>, body: seq<byte>, extra: seq<byte>)
    requires |cmd| == 1
    ensures (cmd + a + b + c + body + extra)[0] == cmd[0]
    ensures (cmd + a + b + c + body + extra)[1..] == a + b + c + (body + extra)
  {
    assert cmd + a + b + c + body + extra == cmd + (a + b + c + (body + extra));
  }

  lemma RegroupData(cmd: seq<byte>, a: seq<byte>, b: seq<byte>, body: seq<byte>, extra: seq<byte>)
    requires |cmd| == 1
    ensures (cmd + a + b + body + extra)[0] == cmd[0]
    ensures (cmd + a + b + body + extra)[1..] == a + b + (body + extra)
  {
    assert cmd + a + b + body + extra == cmd + (a + b + (body + extra));
  }

  lemma DecodeEncodeConnect(id: u32, host: seq<byte>, port: u16, extra: seq<byte>)
    requires ValidUtf8(host) && |host| < U16_MOD
    ensures Decode(Encode(Connect(id, host, port)) + extra) == Ok(Connect(id, host, port))
  {
    ConnectLayout(id, host, port, extra);
    var data := Encode(Connect(id, host, port)) + extra;
    ConnectArm(data[1..], id, host, port);
    assert Decode(data) == DecodeConnect(data[1..]);
  }

  /** The Connect arm accepts a body whose fields were laid out by the encoder. */
  lemma ConnectArm(rest: seq<byte>, id: u32, host: seq<byte>, port: u16)
    requires ValidUtf8(host) && |rest| - 8 >= |host| && |rest| >= 8
    requires U32At(rest, 0) == id && U16At(rest, 4) == port && U16At(rest, 6) == |host|
    requires rest[8..8 + |host|] == host
    ensures DecodeConnect(rest) == Ok(Connect(id, host, port))
  {
  }

  lemma DecodeEncodeData(id: u32, payload: seq<byte>, extra: seq<byte>)
    requires |payload| < U32_MOD
    ensures Decode(Encode(Data(id, payload)) + extra) == Ok(Data(id, payload))
  {
    var len: u32 := |payload| % U32_MOD;
    assert len == |payload|;
    var data := Encode(Data(id, payload)) + extra;
    RegroupData([CommandByte(DataCmd)], Be32(id), Be32(len), payload, extra);
    DataHeaderDecodes(id, len, payload + extra);
    assert (payload + extra)[..len] == payload;
    DataArm(data[1..], id, payload);
    assert Decode(data) == DecodeData(data[1..]);
  }

  /** The Data arm accepts a body whose fields were laid out by the encoder. */
  lemma DataArm(rest: seq<byte>, id: u32, payload: seq<byte>)
    requires |rest| >= 8 && |rest| - 8 >= |payload|
    requires U32At(rest, 0) == id && U32At(rest, 4) == |payload|
    requires rest[8..][..|payload|] == payload
    ensures DecodeData(rest) == Ok(Data(id, payload))
  {
    assert rest[8..8 + |payload|] == rest[8..][..|payload|];
  }

  /** Where the decoder finds the fields of an encoded ErrorReply frame (UTF-8 aside). */
  lemma ErrorReplyLayout(id: u32, code: u16, message: seq<byte>, extra: seq<byte>)
    requires |message| < U16_MOD
    ensures var data := Encode(ErrorReply(id, code, message)) + extra;
      |data| >= 9 && data[0] == 0x04 && |data[1..]| - 8 >= |message| &&
      U32At(data[1..], 0) == id && U16At(data[1..], 4) == code &&
      U16At(data[1..], 6) == |message| && data[1..][8..8 + |message|] == message
  {
    var len: u16 := |message| % U16_MOD;
    assert len == |message|;
    Regroup([CommandByte(ErrorReplyCmd)], Be32(id), Be16(code), Be16(len), message, extra);
    HeaderDecodes(id, code, len, message + extra);
    assert (message + extra)[..len] == message;
  }

  lemma DecodeEncodeErrorReply(id: u32, code: u16, message: seq<byte>, extra: seq<byte>)
    requires ValidUtf8(message) && |message| < U16_MOD
    ensures Decode(Encode(ErrorReply(id, code, message)) + extra) == Ok(ErrorReply(id, code, message))
  {
    ErrorReplyLayout(id, code, message, extra);
    var data := Encode(ErrorReply(id, code, message)) + extra;
    ErrorReplyArm(data[1..], id, code, message);
    assert Decode(data) == DecodeErrorReply(data[1..]);
  }

  /** The ErrorReply arm accepts a body whose fields were laid out by the encoder. */
  lemma ErrorReplyArm(rest: seq<byte>, id: u32, code: u16, message: seq<byte>)
    requires ValidUtf8(message) && |rest| - 8 >= |message| && |rest| >= 8
    requires U32At(rest, 0) == id && U16At(rest, 4) == code && U16At(rest, 6) == |message|
    requires rest[8..8 + |message|] == message
    ensures DecodeErrorReply(rest) == Ok(ErrorReply(id, code, message))
  {
  }

  /**
    Round trip: decoding an encoded message gives it back, whatever bytes
    follow the frame, as long as its strings are UTF-8 and its lengths fit
    their prefixes.
   */
  lemma DecodeEncode(m: TunnelMessage, extra: seq<byte>)
    requires WellFormed(m) && LengthsFit(m)
    ensures Decode(Encode(m) + extra) == Ok(m)
  {
    match m
    case Connect(id, host, port) => DecodeEncodeConnect(id, host, port, extra);
    case Data(id, payload) => DecodeEncodeData(id, payload, extra);
    case ErrorReply(id, code, message) => DecodeEncodeErrorReply(id, code, message, extra);
    case Close(id) =>
      var data := Encode(m) + extra;
      assert data[1..][..4] == Be32(id);
      Be32Decodes(id, data[1..], 0);
    case Ping =>
      assert (Encode(m) + extra)[0] == 0x05;
    case Pong =>
      assert (Encode(m) + extra)[0] == 0x06;
  }

  /** The decoder's reads at offsets of `data[1..]` are reads of `data` one byte later. */
  lemma ShiftedFields(data: seq<byte>)
    requires |data| >= 9
    ensures U32At(data[1..], 0) == U32At(data, 1) && U16At(data[1..], 4) == U16At(data, 5)
    ensures U16At(data[1..], 6) == U16At(data, 7) && U32At(data[1..], 4) == U32At(data, 5)
  {
  }

  /** The bytes a Connect frame occupies are the encoding of the fields read from them. */
  lemma ConnectConsumed(data: seq<byte>)
    requires |data| >= 9 && data[0] == 0x01 && |data| >= 9 + U16At(data, 7)
    ensures var len := U16At(data, 7);
      Encode(Connect(U32At(data, 1), data[9..9 + len], U16At(data, 5))) == data[..9 + len]
  {
    var len := U16At(data, 7);
    U32AtEncodes(data, 1);
    U16AtEncodes(data, 5);
    U16AtEncodes(data, 7);
    assert len % U16_MOD == len;
    assert data[..9 + len] == [data[0]] + data[1..5] + data[5..7] + data[7..9] + data[9..9 + len];
  }

  /** The bytes an ErrorReply frame occupies are the encoding of the fields read from them. */
  lemma ErrorReplyConsumed(data: seq<byte>)
    requires |data| >= 9 && data[0] == 0x04 && |data| >= 9 + U16At(data, 7)
    ensures var len := U16At(data, 7);
      Encode(ErrorReply(U32At(data, 1), U16At(data, 5), data[9..9 + len])) == data[..9 + len]
  {
    var len := U16At(data, 7);
    U32AtEncodes(data, 1);
    U16AtEncodes(data, 5);
    U16AtEncodes(data, 7);
    assert len % U16_MOD == len;
    assert data[..9 + len] == [data[0]] + data[1..5] + data[5..7] + data[7..9] + data[9..9 + len];
  }

  /** The bytes a Data frame occupies are the encoding of the fields read from them. */
  lemma DataConsumed(data: seq<byte>)
    requires |data| >= 9 && data[0] == 0x02 && |data| >= 9 + U32At(data, 5)
    ensures var len := U32At(data, 5);
      Encode(Data(U32At(data, 1), data[9..9 + len])) == data[..9 + len]
  {
    var len := U32At(data, 5);
    U32AtEncodes(data, 1);
    U32AtEncodes(data, 5);
    assert len % U32_MOD == len;
    assert data[..9 + len] == [data[0]] + data[1..5] + data[5..9] + data[9..9 + len];
  }

  /**
    The other direction: whenever decoding succeeds, the bytes it consumed are
    exactly the encoding of the decoded message.
   */
  lemma EncodeDecode(data: seq<byte>)
    requires Decode(data).Ok?
    ensures |Encode(Decode(data).value)| <= |data|
    ensures Encode(Decode(data).value) == data[..|Encode(Decode(data).value)|]
  {
    var b := data[0];
    if b == 0x01 {
      EncodeDecodeConnect(data);
    } else if b == 0x02 {
      EncodeDecodeData(data);
    } else if b == 0x04 {
      EncodeDecodeErrorReply(data);
    } else if b == 0x03 {
      U32AtEncodes(data, 1);
      assert U32At(data[1..], 0) == U32At(data, 1);
      assert data[..5] == [data[0]] + data[1..5];
    }
  }

  lemma EncodeDecodeConnect(data: seq<byte>)
    requires |data| > 0 && data[0] == 0x01 && Decode(data).Ok?
    ensures |Encode(Decode(data).value)| <= |data|
    ensures Encode(Decode(data).value) == data[..|Encode(Decode(data).value)|]
  {
    assert Decode(data) == DecodeConnect(data[1..]);
    ShiftedFields(data);
    assert data[1..][8..] == data[9..];
    ConnectConsumed(data);
  }

  lemma EncodeDecodeData(data: seq<byte>)
    requires |data| > 0 && data[0] == 0x02 && Decode(data).Ok?
    ensures |Encode(Decode(data).value)| <= |data|
    ensures Encode(Decode(data).value) == data[..|Encode(Decode(data).value)|]
  {
    assert Decode(data) == DecodeData(data[1..]);
    ShiftedFields(data);
    assert data[1..][8..] == data[9..];
    DataConsumed(data);
  }

  lemma EncodeDecodeErrorReply(data: seq<byte>)
    requires |data| > 0 && data[0] == 0x04 && Decode(data).Ok?
    ensures |Encode(Decode(data).value)| <= |data|
    ensures Encode(Decode(data).value) == data[..|Encode(Decode(data).value)|]
  {
    assert Decode(data) == DecodeErrorReply(data[1..]);
    ShiftedFields(data);
    assert data[1..][8..] == data[9..];
    ErrorReplyConsumed(data);
  }

  /** Empty input is rejected before anything else is looked at. */
  lemma DecodeEmpty()
    ensures Decode([]) == Err(EmptyMessage)
  {
  }

  /** A first byte outside 0x01..0x06 is reported as that invalid command. */
  lemma DecodeInvalidCommand(data: seq<byte>)
    requires |data| > 0 && !(0x01 <= data[0] <= 0x06)
    ensures Decode(data) == Err(InvalidCommand(data[0]))
  {
  }

  /**
    Truncated frames: Connect, Data and ErrorReply need 8 header bytes after
    the command, and then as many bytes as their length field declares; Close
    needs 4.
   */
  lemma DecodeInsufficient(data: seq<byte>)
    requires |data| > 0
    ensures data[0] in {0x01, 0x02, 0x04} && |data| < 9 ==> Decode(data) == Err(InsufficientData)
    ensures data[0] == 0x03 && |data| < 5 ==> Decode(data) == Err(InsufficientData)
    ensures data[0] in {0x01, 0x04} && |data| >= 9 && |data| - 9 < U16At(data, 7) ==>
      Decode(data) == Err(InsufficientData)
    ensures data[0] == 0x02 && |data| >= 9 && |data| - 9 < U32At(data, 5) ==>
      Decode(data) == Err(InsufficientData)
  {
    if |data| >= 9 {
      var rest := data[1..];
      assert U16At(rest, 6) == U16At(data, 7);
      assert U32At(rest, 4) == U32At(data, 5) by {
        assert U16At(rest, 4) == U16At(data, 5);
        assert U16At(rest, 6) == U16At(data, 7);
      }
    }
  }

  /** A host or error message that is not UTF-8 is rejected with InvalidUtf8. */
  lemma DecodeRejectsBadUtf8(data: seq<byte>)
    requires |data| >= 9 && data[0] in {0x01, 0x04}
    requires |data| - 9 >= U16At(data, 7)
    requires !ValidUtf8(data[9..9 + U16At(data, 7)])
    ensures Decode(data) == Err(InvalidUtf8)
  {
    var rest := data[1..];
    assert U16At(rest, 6) == U16At(data, 7);
    assert rest[8..8 + U16At(rest, 6)] == data[9..9 + U16At(data, 7)];
  }

  /** The decoder accepts frames larger than MAX_FRAME_SIZE. */
  lemma DecodeIgnoresMaxFrameSize(id: StreamId)
    ensures var m := Data(id, seq(MAX_FRAME_SIZE, _ => 0));
      |Encode(m)| > MAX_FRAME_SIZE && Decode(Encode(m)) == Ok(m)
  {
    var m := Data(id, seq(MAX_FRAME_SIZE, _ => 0));
    EncodedLength(m);
    DecodeEncode(m, []);
    assert Encode(m) + [] == Encode(m);
  }

  /**
    A host of 2^16 bytes or more is encoded with its length cast to u16, so
    the decoder reads back only the first |host| mod 2^16 bytes.
   */
  lemma LongHostIsTruncated(id: StreamId, host: seq<byte>, port: u16)
    requires |host| >= U16_MOD
    requires ValidUtf8(host[..|host| % U16_MOD])
    ensures Decode(Encode(Connect(id, host, port))) == Ok(Connect(id, host[..|host| % U16_MOD], port))
  {
    var k := |host| % U16_MOD;
    var m := Connect(id, host, port);
    var short := Connect(id, host[..k], port);
    var extra := host[k..];
    assert |host[..k]| % U16_MOD == k;
    assert host == host[..k] + extra;
    var header := [CommandByte(ConnectCmd)] + Be32(id) + Be16(port) + Be16(k);
    assert Encode(m) == header + host;
    assert Encode(short) == header + host[..k];
    assert Encode(m) == Encode(short) + extra;
    DecodeEncode(short, extra);
  }
}
