# ZKS-Tunnel core, modelled in Dafny

This project models the non-cryptographic core of the ZKS-Tunnel VPN:

- the binary tunnel codec, `TunnelMessage`;
- the client's replay protection, key rotation, traffic shaping and packet buffer pool;
- the worker's per-WebSocket tunnel session;
- the client's SOCKS5 front end;
- the system-wide VPN controller and its stub;
- the Go client's TUN read and write loops and its default-gateway lookup.

Each module proves properties of its model.

One module per source file:

| module | file | models |
|---|---|---|
| `Wire` | wire.dfy | shared vocabulary (see below) |
| `Message` | message.dfy | zks-tunnel-proto/src/message.rs |
| `ReplayProtection` | replay_protection.dfy | zks-tunnel-client/src/replay_protection.rs |
| `KeyRotation` | key_rotation.dfy | zks-tunnel-client/src/key_rotation.rs |
| `TrafficShaping` | traffic_shaping.dfy | zks-tunnel-client/src/traffic_shaping.rs |
| `PacketPool` | packet_pool.dfy | zks-tunnel-client/src/packet_pool.rs |
| `TunnelSession` | tunnel_session.dfy | zks-tunnel-worker/src/tunnel_session.rs |
| `Socks5` | socks5.dfy | zks-tunnel-client/src/socks5.rs |
| `Vpn` and `VpnStub` | vpn.dfy | zks-tunnel-client/src/vpn.rs, with and without the `vpn` feature |
| `GoTun` | go_tun.dfy | zks-go-client/vpn/tun.go |

The shared vocabulary in wire.dfy covers:

- bytes and 16/32/64-bit integers;
- big-endian encoding and decoding;
- `Result` and `Option`;
- UTF-8 validity, following the table in section 4 of RFC 3629;
- saturating time differences;
- byte-string splitting on a separator.

The source's own form is kept:

- Objects whose fields the source updates in place are classes: `ReplayProtection`, `KeyRotationManager`, `BufferPool`, `TimingShaper`, `PacketBufPool`, `TunnelSession`, `VpnController`, and a `Socket` for the SOCKS5 stream.
- Each mutating method is proved against a pure function of the old state. Properties are then proved as lemmas about those functions.
- Loops in the source are `for` or `while` loops with invariants:
  - `BufferPool::new`;
  - `flush_batch`;
  - the prefix loop of `is_valid_host`;
  - `getDefaultGateway`;
  - `readLoop` over an `array` buffer;
  - `writeLoop`.

Effects outside the program are parameters:

- Clock: time is a `nat` number of nanoseconds passed in by the caller. Each clock read is its own argument. `check_and_record` gets two: its own `now`, and the later instant that `cleanup_old_nonces` reads.
- Random bytes (`getrandom`, and the stale memory a `set_len` exposes): a `noise` or `stale` argument.
- SHA-256: a function parameter `hash`.
- Outbound TCP connect and DNS-over-HTTPS fetch: their outcomes, in `Network`.
- Tunnel `open_stream`: a predicate `open(host, port)`.
- Outcome of each VPN platform step: a `Platform` record.
- TUN device reads and relay receives: finite event sequences.
- `route print` output: an input.

Integer widths are written out:

- `as u16` and `as u32` length prefixes are reduced modulo 2^16 and 2^32;
- the `u64` packet counter and generation wrap at 2^64;
- the worker's `u32` connection counter wraps at 2^32.

## Model

| member | source | states |
|---|---|---|
| Wire.Be16Decodes | zks-tunnel-proto/src/message.rs:145-147 | `get_u16` reads back what `put_u16` wrote, big-endian |
| Wire.Be32Decodes | zks-tunnel-proto/src/message.rs:163-164 | `get_u32` reads back what `put_u32` wrote, big-endian |
| Wire.Be64Injective | zks-tunnel-client/src/key_rotation.rs:86 | `to_be_bytes` on u64 is injective |
| Wire.Elapsed | zks-tunnel-client/src/replay_protection.rs:56 | `duration_since` saturates: zero when the earlier instant is later, else the difference |
| Wire.Zeros | zks-tunnel-client/src/packet_pool.rs:47 | `vec![0u8; n]` is n zero bytes |
| Wire.Grown | zks-tunnel-client/src/packet_pool.rs:33-35 | after `reserve` the capacity is at least the requested size and never shrinks |
| Wire.Split | zks-go-client/vpn/tun.go:212 | `strings.Split` and `str::split` always yield at least one piece |
| Wire.SplitAtSeparator | zks-tunnel-client/src/socks5.rs:164-166 | splitting `a + [sep] + b`, with no separator in `a`, yields `a` and then the pieces of `b` |
| Wire.SplitWithoutSeparator | zks-tunnel-client/src/socks5.rs:164-166 | a text without the separator splits into itself alone |
| Message.CommandFromByte | zks-tunnel-proto/src/message.rs:36-46 | `try_from` succeeds exactly on 0x01..0x06 and inverts `as u8` there; any other byte gives `InvalidCommand(byte)` |
| Message.CommandRoundTrip | zks-tunnel-proto/src/message.rs:33-46 | `try_from(c as u8) == Ok(c)` for every command |
| Message.Decode | zks-tunnel-proto/src/message.rs:132-201 | a decoded message has UTF-8 strings and lengths that fit their prefixes; the decoder never reports FrameTooLarge or Io |
| Message.EncodedLength | zks-tunnel-proto/src/message.rs:85-126 | frame sizes: 9+N for Connect, Data and ErrorReply, 5 for Close, 1 for Ping and Pong; the first byte is the command |
| Message.EncodedFields | zks-tunnel-proto/src/message.rs:96-119 | stream id, port, code and length prefixes sit big-endian at offsets 1, 5 and 7 |
| Message.DecodeEncode | zks-tunnel-proto/src/message.rs:92-201 | decode(encode(m) ++ extra) == m for every message whose strings are UTF-8 and whose lengths fit their prefixes |
| Message.DecodeEncodeConnect | zks-tunnel-proto/src/message.rs:141-158 | the Connect round trip, with any trailing bytes |
| Message.DecodeEncodeData | zks-tunnel-proto/src/message.rs:159-172 | the Data round trip, with any trailing bytes |
| Message.DecodeEncodeErrorReply | zks-tunnel-proto/src/message.rs:180-197 | the ErrorReply round trip, with any trailing bytes |
| Message.EncodeDecode | zks-tunnel-proto/src/message.rs:132-201 | the converse: whenever decoding succeeds, the consumed bytes are exactly the encoding of the decoded message |
| Message.ConnectConsumed | zks-tunnel-proto/src/message.rs:141-157 | the bytes a Connect frame spans re-encode from the fields read out of them |
| Message.DataConsumed | zks-tunnel-proto/src/message.rs:159-171 | the bytes a Data frame spans re-encode from the fields read out of them |
| Message.ErrorReplyConsumed | zks-tunnel-proto/src/message.rs:180-196 | the bytes an ErrorReply frame spans re-encode from the fields read out of them |
| Message.DecodeEmpty | zks-tunnel-proto/src/message.rs:133-135 | empty input gives `EmptyMessage` |
| Message.DecodeInvalidCommand | zks-tunnel-proto/src/message.rs:138 | a first byte outside 0x01..0x06 gives `InvalidCommand(byte)` |
| Message.DecodeInsufficient | zks-tunnel-proto/src/message.rs:142-190 | `InsufficientData` when fewer than 8 header bytes follow (4 for Close) or fewer than the declared length remain |
| Message.DecodeRejectsBadUtf8 | zks-tunnel-proto/src/message.rs:154-155 | a complete Connect or ErrorReply frame whose string is not UTF-8 gives `InvalidUtf8` |
| Message.DecodeIgnoresMaxFrameSize | zks-tunnel-proto/src/message.rs:12-13 | a Data frame larger than MAX_FRAME_SIZE still decodes |
| Message.LongHostIsTruncated | zks-tunnel-proto/src/message.rs:100 | a host of 2^16 bytes or more comes back cut to its length mod 2^16 |
| ReplayProtection.Retain | zks-tunnel-client/src/replay_protection.rs:73-77 | `retain` keeps exactly the entries younger than max_age, with their timestamps |
| ReplayProtection.ReplayProtection.constructor | zks-tunnel-client/src/replay_protection.rs:31-37 | `new`: empty table, 5-minute window, cleanup clock at now |
| ReplayProtection.ReplayProtection.WithMaxAge | zks-tunnel-client/src/replay_protection.rs:40-46 | `with_max_age`: empty table with the given window |
| ReplayProtection.ReplayProtection.CheckAndRecord | zks-tunnel-client/src/replay_protection.rs:51-77 | new table and answer equal `Check` of the old state. The schedule and the insert use the call's instant; `retain` uses the cleanup's own, later reading |
| ReplayProtection.ReplayProtection.CleanupOldNonces | zks-tunnel-client/src/replay_protection.rs:73-77 | the table becomes `Retain` of the old one; window and cleanup clock unchanged |
| ReplayProtection.ReplayProtection.Len | zks-tunnel-client/src/replay_protection.rs:80-82 | `len` is the table size |
| ReplayProtection.ReplayProtection.IsEmpty | zks-tunnel-client/src/replay_protection.rs:85-87 | `is_empty` holds exactly when the size is 0 |
| ReplayProtection.FreshNonceRecorded | zks-tunnel-client/src/replay_protection.rs:61-69 | a nonce absent after cleanup is accepted, stored with the call's timestamp, and the table grows by one |
| ReplayProtection.ReplayRejected | zks-tunnel-client/src/replay_protection.rs:62-65 | a nonce present after cleanup is rejected; the table is as cleanup left it |
| ReplayProtection.CleanupSchedule | zks-tunnel-client/src/replay_protection.rs:55-59 | cleanup runs only when more than min(max_age, 60 s)/2 has passed since the last one. Then it retains at the cleanup's own instant and restarts its clock at the call's instant |
| ReplayProtection.CleanupKeepsYoung | zks-tunnel-client/src/replay_protection.rs:73-77 | cleanup keeps every entry younger than max_age at the cleanup's own instant and changes no timestamp |
| ReplayProtection.RecordedNonceRejectedWithinWindow | zks-tunnel-client/src/replay_protection.rs:51-77 | a nonce accepted at t1 is rejected by a later call, whether or not cleanup runs, when that call's cleanup reading c2 ≥ its own instant satisfies c2 - t1 < max_age |
| ReplayProtection.LateCleanupReadAcceptsReplay | zks-tunnel-client/src/replay_protection.rs:52-76 | the window is measured by the cleanup's clock read: with max_age 10, a nonce accepted at 0 and replayed at 9 is accepted again if the cleanup reads 10 |
| ReplayProtection.DistinctNoncesBothAccepted | zks-tunnel-client/src/replay_protection.rs:51-77 | two distinct nonces given to a new table are both accepted, and its size is then 2 |
| KeyRotation.WrappingIncrement | zks-tunnel-client/src/key_rotation.rs:72 | `fetch_add(1)` adds one below 2^64 - 1 and wraps to 0 at 2^64 - 1 |
| KeyRotation.RatchetInput | zks-tunnel-client/src/key_rotation.rs:84-87 | the hashed bytes: the 32-byte key, then be64(generation), then "zks-key-rotation-v1" |
| KeyRotation.KeyRotationManager.constructor | zks-tunnel-client/src/key_rotation.rs:37-45 | `new`: 5-minute interval, 100 000-packet limit, both counters 0 |
| KeyRotation.KeyRotationManager.WithParams | zks-tunnel-client/src/key_rotation.rs:48-56 | `with_params`: the given interval and limit, both counters 0 |
| KeyRotation.KeyRotationManager.ShouldRotate | zks-tunnel-client/src/key_rotation.rs:59-68 | true at or above the packet limit; otherwise true exactly when the interval has elapsed |
| KeyRotation.KeyRotationManager.IncrementPacketCount | zks-tunnel-client/src/key_rotation.rs:71-73 | the counters become `CountPacket` of the old ones |
| KeyRotation.KeyRotationManager.Rotate | zks-tunnel-client/src/key_rotation.rs:77-98 | returns the incremented generation and the hash of the ratchet input; counters become `Rotated` of the old ones |
| KeyRotation.KeyRotationManager.CurrentGeneration | zks-tunnel-client/src/key_rotation.rs:101-103 | returns the generation |
| KeyRotation.KeyRotationManager.PacketCount | zks-tunnel-client/src/key_rotation.rs:106-108 | returns the packet count |
| KeyRotation.FreshManagerNotDue | zks-tunnel-client/src/key_rotation.rs:37-56 | a new manager has generation 0 and count 0; with a positive limit it is not due before the interval passes |
| KeyRotation.PacketLimitForcesRotation | zks-tunnel-client/src/key_rotation.rs:61-63 | at or above the packet limit rotation is due, whatever the clock |
| KeyRotation.TimeTrigger | zks-tunnel-client/src/key_rotation.rs:66-67 | below the limit, due exactly when now ≥ last rotation + interval (saturating) |
| KeyRotation.CountPacketAddsOne | zks-tunnel-client/src/key_rotation.rs:71-73 | one increment adds exactly 1 and changes no other field |
| KeyRotation.CountPacketsAddsK | zks-tunnel-client/src/key_rotation.rs:71-73 | k increments add exactly k below 2^64 |
| KeyRotation.DueAfterLimitPackets | zks-tunnel-client/src/key_rotation.rs:61-73 | a new manager is due after exactly `limit` increments |
| KeyRotation.RotationResets | zks-tunnel-client/src/key_rotation.rs:93-95 | after `rotate` the count is 0, the clock restarts at now, and rotation is not due within the interval |
| KeyRotation.RotationsCountGenerations | zks-tunnel-client/src/key_rotation.rs:80 | k rotations raise the generation by exactly k, so a new manager yields 1, 2, 3, … |
| KeyRotation.RatchetInputInjective | zks-tunnel-client/src/key_rotation.rs:84-87 | the ratchet input determines key and generation, so distinct generations hash distinct inputs |
| TrafficShaping.FirstIndex | zks-tunnel-client/src/traffic_shaping.rs:110 | `position` and `find`: the first index satisfying the predicate, or none when no element does |
| TrafficShaping.PoolIndex | zks-tunnel-client/src/traffic_shaping.rs:110 | a standard size maps to its own pool; any other size maps to the 1460 pool |
| TrafficShaping.SelectTargetSize | zks-tunnel-client/src/traffic_shaping.rs:179-185 | the target is always one of 536, 1200, 1460 |
| TrafficShaping.SelectTargetSizeIsSmallestFit | zks-tunnel-client/src/traffic_shaping.rs:179-185 | the smallest standard size ≥ the input, else 1460 |
| TrafficShaping.SelectTargetSizeExamples | zks-tunnel-client/src/traffic_shaping.rs:21-25 | the sizes chosen at each boundary: 100, 536, 537, 1200, 1201, 1460 and 2000 |
| TrafficShaping.InitialPoolsOk | zks-tunnel-client/src/traffic_shaping.rs:92-106 | the ten buffers per size from `new` satisfy the pool invariant |
| TrafficShaping.TakeSpec | zks-tunnel-client/src/traffic_shaping.rs:109-121 | `get(size)` returns exactly `size` bytes with capacity ≥ size and pops only from the size's pool; the invariant holds |
| TrafficShaping.GivePreservesPools | zks-tunnel-client/src/traffic_shaping.rs:124-133 | `return_buf` keeps every pool at ≤ 20 buffers of its own capacity |
| TrafficShaping.GiveSpec | zks-tunnel-client/src/traffic_shaping.rs:124-133 | a non-standard capacity is dropped; a standard one is cleared and pushed only while its pool holds fewer than 20 |
| TrafficShaping.TakeThenGiveRestoresCounts | zks-tunnel-client/src/traffic_shaping.rs:172-174 | getting a standard-size buffer from a non-empty pool and returning it restores every pool's count |
| TrafficShaping.BufferPool.constructor | zks-tunnel-client/src/traffic_shaping.rs:92-106 | the nested loops fill the pools with `InitialPools` |
| TrafficShaping.BufferPool.Get | zks-tunnel-client/src/traffic_shaping.rs:109-121 | pools and result equal `Take` of the old pools; the invariant holds |
| TrafficShaping.BufferPool.ReturnBuf | zks-tunnel-client/src/traffic_shaping.rs:124-133 | pools equal `Give` of the old pools; the invariant holds |
| TrafficShaping.PadDisabledIsIdentity | zks-tunnel-client/src/traffic_shaping.rs:161-164 | with padding off the packet is unchanged |
| TrafficShaping.PadSpec | zks-tunnel-client/src/traffic_shaping.rs:166-175 | a shorter packet grows to exactly its target and keeps its bytes as a prefix; a standard-size packet, or one of ≥ 1460 bytes, is unchanged |
| TrafficShaping.PadPoolsOk | zks-tunnel-client/src/traffic_shaping.rs:169-175 | padding never breaks the pool invariant |
| TrafficShaping.TrafficShaper.constructor | zks-tunnel-client/src/traffic_shaping.rs:153-158 | the configuration and a fresh, initial buffer pool |
| TrafficShaping.TrafficShaper.PadPacket | zks-tunnel-client/src/traffic_shaping.rs:161-176 | the padded packet equals `Pad`, and the pool equals `PadPools` of the old pool |
| TrafficShaping.ConcatAppend | zks-tunnel-client/src/traffic_shaping.rs:251-253 | writing a + b writes the bytes of a, then those of b |
| TrafficShaping.ShapeAllConserves | zks-tunnel-client/src/traffic_shaping.rs:210-257 | the bytes written, followed by those still queued, are all packets in order: nothing is lost or reordered |
| TrafficShaping.ShapeAllBatchBounded | zks-tunnel-client/src/traffic_shaping.rs:222-227 | with batching on, the queue stays below `batch_size` between calls |
| TrafficShaping.ShapeAllPassThrough | zks-tunnel-client/src/traffic_shaping.rs:215-219 | without timing obfuscation every packet is written at once and the queue is untouched |
| TrafficShaping.QueuedUntilFull | zks-tunnel-client/src/traffic_shaping.rs:221-227 | with batching on, packets are only queued while the batch stays below `batch_size` |
| TrafficShaping.FullBatchFlushes | zks-tunnel-client/src/traffic_shaping.rs:225-227 | the packet that fills the batch writes the whole batch in FIFO order, itself last, and leaves it empty |
| TrafficShaping.PresetBehaviour | zks-tunnel-client/src/traffic_shaping.rs:47-80 | fast neither pads nor batches; balanced pads and writes at once; stealth pads and holds seven packets, writing all eight at the eighth |
| TrafficShaping.TimingShaper.constructor | zks-tunnel-client/src/traffic_shaping.rs:201-207 | the configuration and an empty batch |
| TrafficShaping.TimingShaper.SendWithShaping | zks-tunnel-client/src/traffic_shaping.rs:210-230 | batch and written bytes become `Shape` of the old ones |
| TrafficShaping.TimingShaper.FlushBatch | zks-tunnel-client/src/traffic_shaping.rs:233-257 | the `pop_front` loop writes every queued packet in order and empties the batch |
| TrafficShaping.TimingShaper.Flush | zks-tunnel-client/src/traffic_shaping.rs:260-265 | the same as `flush_batch` |
| PacketPool.PoolGet | zks-tunnel-client/src/packet_pool.rs:28-50 | `get` always returns exactly `buf_size` bytes with capacity ≥ `buf_size` |
| PacketPool.PoolReturn | zks-tunnel-client/src/packet_pool.rs:53-63 | `return_buf` either leaves the queue as it was or appends the buffer |
| PacketPool.PacketBufPool.constructor | zks-tunnel-client/src/packet_pool.rs:20-25 | `new`: an empty queue with the given bound and buffer size |
| PacketPool.PacketBufPool.Get | zks-tunnel-client/src/packet_pool.rs:28-50 | queue and buffer equal `PoolGet` of the old queue; the invariant holds |
| PacketPool.PacketBufPool.ReturnBuf | zks-tunnel-client/src/packet_pool.rs:53-63 | queue equals `PoolReturn` of the old queue; the invariant holds |
| PacketPool.GetFromEmpty | zks-tunnel-client/src/packet_pool.rs:45-48 | on an empty pool, `get` allocates zeros and the pool stays empty |
| PacketPool.GetTakesOldest | zks-tunnel-client/src/packet_pool.rs:29-35 | on a non-empty pool, `get` removes exactly the oldest buffer and keeps its allocation |
| PacketPool.OperationsPreservePoolOk | zks-tunnel-client/src/packet_pool.rs:20-62 | both operations keep the queue within `capacity` and free of undersized buffers |
| PacketPool.ReturnKeepsIff | zks-tunnel-client/src/packet_pool.rs:53-62 | a buffer is queued exactly when its capacity ≥ `buf_size` and the queue has room |
| PacketPool.FifoOrder | zks-tunnel-client/src/packet_pool.rs:29 | returned buffers come back out in the order they went in |
| TunnelSession.LowerAscii | zks-tunnel-worker/src/tunnel_session.rs:192 | lower-casing maps exactly A–Z to a–z and keeps the length |
| TunnelSession.CheckHost | zks-tunnel-worker/src/tunnel_session.rs:184-206 | the prefix loop with its early return, then the length check, computes `IsValidHost` |
| TunnelSession.BlockedPrefixRejected | zks-tunnel-worker/src/tunnel_session.rs:186-198 | a host whose lower-cased form starts with any of the 26 prefixes is rejected |
| TunnelSession.HostLengthBounds | zks-tunnel-worker/src/tunnel_session.rs:201-203 | empty hosts and hosts over 253 bytes are rejected |
| TunnelSession.OtherHostsAccepted | zks-tunnel-worker/src/tunnel_session.rs:184-206 | every other host is accepted |
| TunnelSession.UpperCaseLocalhostBlocked | zks-tunnel-worker/src/tunnel_session.rs:192-196 | "LOCALHOST" is rejected: the check ignores case |
| TunnelSession.UpperCaseLinkLocalBlocked | zks-tunnel-worker/src/tunnel_session.rs:192-196 | "FE80::1" is rejected |
| TunnelSession.DomainNameStartingWithFcRejected | zks-tunnel-worker/src/tunnel_session.rs:190 | the IPv6 prefix "fc" also rejects the domain name "fcc.gov" |
| TunnelSession.DomainNameStartingWithFdRejected | zks-tunnel-worker/src/tunnel_session.rs:190 | the prefix "fd" also rejects "fdic.gov" |
| TunnelSession.BelowPrivateRangeAccepted | zks-tunnel-worker/src/tunnel_session.rs:186-189 | 172.15.0.1, just below 172.16.0.0/12, is accepted |
| TunnelSession.AbovePrivateRangeAccepted | zks-tunnel-worker/src/tunnel_session.rs:186-189 | 172.32.0.1, just above 172.16.0.0/12, is accepted |
| TunnelSession.TunnelSession.constructor | zks-tunnel-worker/src/tunnel_session.rs:38-46 | no streams, connection count 0 |
| TunnelSession.TunnelSession.SendError | zks-tunnel-worker/src/tunnel_session.rs:209-216 | appends one ErrorReply frame |
| TunnelSession.TunnelSession.Fetch | zks-tunnel-worker/src/tunnel_session.rs:48-67 | state and response equal `FetchStep` |
| TunnelSession.TunnelSession.WebsocketClose | zks-tunnel-worker/src/tunnel_session.rs:98-100 | the stream table is emptied and nothing else changes |
| TunnelSession.TunnelSession.HandleConnect | zks-tunnel-worker/src/tunnel_session.rs:219-261 | state equals `ConnectStep` |
| TunnelSession.TunnelSession.HandleData | zks-tunnel-worker/src/tunnel_session.rs:264-282 | state equals `DataStep` |
| TunnelSession.TunnelSession.HandleClose | zks-tunnel-worker/src/tunnel_session.rs:285-292 | state equals `CloseStep` |
| TunnelSession.TunnelSession.HandleDnsQuery | zks-tunnel-worker/src/tunnel_session.rs:296-322 | state equals `DnsStep` |
| TunnelSession.TunnelSession.HandleMessage | zks-tunnel-worker/src/tunnel_session.rs:123-180 | state equals `Step` for every frame kind |
| TunnelSession.TunnelSession.HandleBinaryMessage | zks-tunnel-worker/src/tunnel_session.rs:114-181 | state equals `BinaryStep`: decode, then dispatch |
| TunnelSession.ConnectInvalidHost | zks-tunnel-worker/src/tunnel_session.rs:126-130 | a Connect to an invalid host sends 400 and leaves the table unchanged |
| TunnelSession.ConnectDuplicate | zks-tunnel-worker/src/tunnel_session.rs:227-231 | a Connect on an id already in the table sends 409 and leaves the table unchanged |
| TunnelSession.ConnectNewStream | zks-tunnel-worker/src/tunnel_session.rs:234-258 | a new id ends Connected on success; on failure it is removed and 502 carries the error text |
| TunnelSession.DataSpec | zks-tunnel-worker/src/tunnel_session.rs:264-281 | Data never changes the table; it sends 404 exactly when the stream is absent or Closing |
| TunnelSession.CloseSpec | zks-tunnel-worker/src/tunnel_session.rs:285-291 | Close removes the id and nothing else; for an unknown id it changes nothing |
| TunnelSession.UdpAndPing | zks-tunnel-worker/src/tunnel_session.rs:141-177 | UDP to a port other than 53 gets 501, UDP to 53 is a DNS query, and Ping gets Pong |
| TunnelSession.DnsFailureReported | zks-tunnel-worker/src/tunnel_session.rs:309-320 | a failed DoH fetch is answered with 503 and the failure text |
| TunnelSession.UndecodableDropped | zks-tunnel-worker/src/tunnel_session.rs:115-121 | bytes that fail to decode are dropped with no reply and no state change |
| TunnelSession.FetchCounts | zks-tunnel-worker/src/tunnel_session.rs:49-63 | non-upgrade requests get 426 and change nothing; an upgrade adds 1 to the counter |
| TunnelSession.StepKeepsAllConnected | zks-tunnel-worker/src/tunnel_session.rs:219-292 | every handler keeps "every stream in the table is Connected" |
| TunnelSession.EventKeepsAllConnected | zks-tunnel-worker/src/tunnel_session.rs:48-181 | so do raw binary messages, socket close and `fetch` |
| TunnelSession.RunKeepsAllConnected | zks-tunnel-worker/src/tunnel_session.rs:48-181 | the same over any sequence of events, each frame meeting its own network outcomes |
| TunnelSession.DataAfterAnyEvents | zks-tunnel-worker/src/tunnel_session.rs:269-278 | Data is answered 404 exactly when the stream is absent, so the Connecting and Closing arms are dead. This holds in any session reached from a new one by frames, raw messages, socket closes and fetches, each frame with its own connect and DoH outcomes |
| Socks5.Decimal | zks-tunnel-client/src/socks5.rs:113 | `{}` on a number yields a non-empty string of digits |
| Socks5.DecimalValue | zks-tunnel-client/src/socks5.rs:113 | the decimal text of n has value n |
| Socks5.ParseDecimal | zks-tunnel-client/src/socks5.rs:166 | `parse::<u8>` reads back the `{}` text of every byte |
| Socks5.ParseU8 | zks-tunnel-client/src/socks5.rs:166 | `parse::<u8>` fails on the empty string |
| Socks5.ParsedOctets | zks-tunnel-client/src/socks5.rs:164-167 | `filter_map` keeps at most one octet per piece |
| Socks5.SplitDottedQuad | zks-tunnel-client/src/socks5.rs:165 | the dotted text of an address splits into its four decimal numbers |
| Socks5.AllPiecesParse | zks-tunnel-client/src/socks5.rs:166-167 | when every piece parses, the collected octets are their values, in order |
| Socks5.SendReply | zks-tunnel-client/src/socks5.rs:164-180 | the reply is 10 bytes: 5, rep, 0, 1, four address bytes, then the port big-endian |
| Socks5.DottedQuadReply | zks-tunnel-client/src/socks5.rs:164-180 | a dotted-quad bind address is copied into the reply octet for octet |
| Socks5.UnspecifiedReply | zks-tunnel-client/src/socks5.rs:101 | `send_reply(…, "0.0.0.0", 0)` sends [5, rep, 0, 1, 0, 0, 0, 0, 0, 0] |
| Socks5.ShortBindAddress | zks-tunnel-client/src/socks5.rs:174-177 | pieces that do not parse are skipped and missing octets are 0 |
| Socks5.Socket.constructor | zks-tunnel-client/src/socks5.rs:63-66 | a stream with the given input and nothing written |
| Socks5.Socket.ReadExact | zks-tunnel-client/src/socks5.rs:69 | `read_exact(n)` takes the next n bytes, or fails with end of stream |
| Socks5.Socket.WriteAll | zks-tunnel-client/src/socks5.rs:182 | `write_all` appends the bytes to the output |
| Socks5.SendReplyOn | zks-tunnel-client/src/socks5.rs:158-184 | writes exactly `Reply(rep)` |
| Socks5.ReadTargetFrom | zks-tunnel-client/src/socks5.rs:106-136 | result, remaining input and output equal `ReadTarget` for every address type |
| Socks5.ReadIpv4Target | zks-tunnel-client/src/socks5.rs:107-115 | the IPv4 arm equals `ReadTarget(0x01, …)` |
| Socks5.ReadDomainTarget | zks-tunnel-client/src/socks5.rs:116-127 | the domain arm equals `ReadTarget(0x03, …)` |
| Socks5.HandleRequest | zks-tunnel-client/src/socks5.rs:89-153 | output, remaining input and status equal `Request` |
| Socks5.HandleConnection | zks-tunnel-client/src/socks5.rs:63-156 | output, remaining input and status equal `Negotiate` |
| Socks5.HandleMethods | zks-tunnel-client/src/socks5.rs:75-86 | output, remaining input and status equal `Methods` |
| Socks5.AcceptNoAuth | zks-tunnel-client/src/socks5.rs:86-153 | writes [5, 0], then behaves as `Request` |
| Socks5.BadVersionRefusedSilently | zks-tunnel-client/src/socks5.rs:71-73 | a greeting whose version is not 5 gets no reply |
| Socks5.GreetingAccepted | zks-tunnel-client/src/socks5.rs:80-86 | a greeting offering 0x00 is answered [5, 0] and the request follows |
| Socks5.GreetingRefused | zks-tunnel-client/src/socks5.rs:80-83 | a greeting without 0x00 is answered [5, 0xFF] and nothing more is read |
| Socks5.RequestVersionRejected | zks-tunnel-client/src/socks5.rs:92-94 | a request whose version byte is not 5 is refused with no reply |
| Socks5.CommandRejected | zks-tunnel-client/src/socks5.rs:99-103 | a command other than CONNECT gets reply 0x07 before any address is read |
| Socks5.AddressTypeRejected | zks-tunnel-client/src/socks5.rs:128-135 | ATYP 0x04 and unknown types get reply 0x08 |
| Socks5.ConnectDomainRoundTrip | zks-tunnel-client/src/socks5.rs:116-127 | a domain CONNECT reads back name and port; later bytes are left for the relay |
| Socks5.DomainMustBeUtf8 | zks-tunnel-client/src/socks5.rs:125 | a domain that is not UTF-8 is refused with no reply |
| Socks5.ConnectIpv4RoundTrip | zks-tunnel-client/src/socks5.rs:107-115 | an IPv4 CONNECT reads back its dotted-quad text and the big-endian port |
| Socks5.NegotiateDomain | zks-tunnel-client/src/socks5.rs:63-156 | the whole exchange for a domain target: [5, 0], then reply 0x00 and relaying, or 0x04 when the tunnel refuses |
| Socks5.RequestReplies | zks-tunnel-client/src/socks5.rs:89-153 | a request writes nothing or one reply, and the reply code matches the status |
| Socks5.NegotiateReplies | zks-tunnel-client/src/socks5.rs:63-156 | a connection writes nothing, [5, 0xFF], or [5, 0] plus at most one reply; it relays exactly when it wrote [5, 0] then reply 0x00 |
| Vpn.VpnController.constructor | zks-tunnel-client/src/vpn.rs:78-84 | a new controller is Disconnected |
| Vpn.VpnController.Start | zks-tunnel-client/src/vpn.rs:87-116 | state and result equal `StartStep` |
| Vpn.VpnController.Stop | zks-tunnel-client/src/vpn.rs:119-141 | state and result equal `StopStep` |
| Vpn.VpnController.State | zks-tunnel-client/src/vpn.rs:277-279 | returns the state |
| Vpn.StartRefusedUnlessDisconnected | zks-tunnel-client/src/vpn.rs:88-91 | `start` outside Disconnected errors and leaves the state unchanged |
| Vpn.StartSucceedsIff | zks-tunnel-client/src/vpn.rs:87-116 | `start` succeeds exactly from Disconnected with all three steps succeeding, and then ends Connected |
| Vpn.FailedStartLeavesConnecting | zks-tunnel-client/src/vpn.rs:92-107 | a failed step leaves the controller Connecting |
| Vpn.StopRefusedUnlessConnected | zks-tunnel-client/src/vpn.rs:120-123 | `stop` outside Connected errors and leaves the state unchanged |
| Vpn.StopSucceedsIff | zks-tunnel-client/src/vpn.rs:119-141 | `stop` succeeds exactly from Connected with both steps succeeding, then ends Disconnected; a failed step leaves Disconnecting |
| Vpn.IntermediateStatesAreTraps | zks-tunnel-client/src/vpn.rs:87-141 | no sequence of `start`/`stop` calls leaves Connecting or Disconnecting |
| Vpn.SupportedPlatformNeverStuck | zks-tunnel-client/src/vpn.rs:144-164 | where every step succeeds, the state is only ever Disconnected or Connected |
| Vpn.StartThenStop | zks-tunnel-client/src/vpn.rs:87-141 | on a supported platform `start` then `stop` returns to Disconnected |
| Vpn.FailedStartStuck | zks-tunnel-client/src/vpn.rs:92-107 | a `start` with a failing platform step leaves the controller Connecting for good |
| VpnStub.VpnController.Start | zks-tunnel-client/src/vpn.rs:307-309 | always the feature-not-enabled error |
| VpnStub.VpnController.Stop | zks-tunnel-client/src/vpn.rs:311-313 | always the feature-not-enabled error |
| VpnStub.VpnController.State | zks-tunnel-client/src/vpn.rs:315-317 | always Disconnected |
| GoTun.Word | zks-go-client/vpn/tun.go:214 | the longest whitespace-free prefix of a text |
| GoTun.Fields | zks-go-client/vpn/tun.go:214 | `strings.Fields` yields non-empty, whitespace-free fields |
| GoTun.FieldsSkipSpace | zks-go-client/vpn/tun.go:214 | leading whitespace does not change the fields |
| GoTun.FieldsOfJoin | zks-go-client/vpn/tun.go:214 | splitting words joined by spaces gives back the words |
| GoTun.GetDefaultGateway | zks-go-client/vpn/tun.go:204-220 | the loop with its early return computes `DefaultGateway`: a command error is passed through |
| GoTun.FindGatewayOkIff | zks-go-client/vpn/tun.go:213-219 | a gateway is found exactly when some line has more than two fields and first field "0.0.0.0"; otherwise the error is "default gateway not found" |
| GoTun.FindGatewayFirstMatch | zks-go-client/vpn/tun.go:213-217 | the gateway returned is the third field of the first such line |
| GoTun.RouteLineGateway | zks-go-client/vpn/tun.go:214-216 | an indented route line "0.0.0.0 mask gateway …" names its third column |
| GoTun.DeviceRead | zks-go-client/vpn/tun.go:138 | a read puts the packet at the front of `buf` and leaves the rest as it was |
| GoTun.CopyPrefix | zks-go-client/vpn/tun.go:161-162 | the payload is a fresh array holding exactly `buf[:size]` |
| GoTun.ReadLoop | zks-go-client/vpn/tun.go:129-175 | the payloads sent are exactly `Forwarded(events)` |
| GoTun.ForwardedAreIpv4 | zks-go-client/vpn/tun.go:144-165 | every payload sent is 20 to 2048 bytes, has version nibble 4, and is what some read returned |
| GoTun.SkippedReadIsInvisible | zks-go-client/vpn/tun.go:144-156 | a read of size 0, shorter than 20 bytes, or not IPv4 changes nothing that is sent, wherever it occurs |
| GoTun.WriteLoop | zks-go-client/vpn/tun.go:178-201 | the payloads written to the device are exactly `DeviceWrites(events)` |
| GoTun.NonIpMessageIgnored | zks-go-client/vpn/tun.go:187-198 | messages other than IpPacket change nothing that is written, wherever they occur |
| GoTun.WritesAreIpPacketPayloads | zks-go-client/vpn/tun.go:187-191 | every write carries the payload of an IpPacket the relay sent |

## Left out

- The cryptographic modules are not part of this model, because their source is not among the files modelled. These are the modules that zks-tunnel-client/src/lib.rs declares: true_vernam, key_exchange, onion, chain, ct_ops, entropy_tax, swarm entropy and tls_mimicry.
- SHA-256 is the parameter `hash`. Nothing is assumed about it, so the model states no collision resistance.
- `getrandom` output and the uninitialised bytes after `set_len` are arbitrary inputs (`noise`, `stale`).
- Atomics, the `Mutex` in key_rotation.rs and the lock-free `ArrayQueue` in packet_pool.rs are modelled for one thread at a time.
- `KeyRotationManager` and `ReplayProtection` zeroise themselves on `Drop`. This is not modelled: nothing can observe the state afterwards.
- KeyRotation.KeyRotationManager.Rotate: key_rotation.rs:80 adds 1 to `fetch_add`'s result with plain `u64` arithmetic. A debug build panics there when the generation is u64::MAX; a release build wraps to 0, as the model does.
- PacketPool.PacketBufPool.constructor: `ArrayQueue::new(0)` panics, at packet_pool.rs:22. The model does not have that panic; the constructor requires `capacity > 0` instead.
- TunnelSession.TunnelSession.Fetch: the `u32` connection counter wraps at 2^32 in the model, where a debug build of the source would panic instead.
- `BurstShaper`: f64 token arithmetic and sleeping.
- `CombinedTrafficShaper`: it only chains the three shapers.
- The refill rate of `TrafficShapingConfig`: a floating-point value used only by `BurstShaper`.
- The delay in `flush_batch` and the `last_send` instant.
- TrafficShaping.TimingShaper.SendWithShaping: a `write_all` error is not modelled. Writes always succeed, so the early return that leaves the rest of the batch queued is not captured.
- TrafficShaping.TrafficShaper.PadPacket: `packet` and the padding buffer are values, not in-place `Vec`s. The capacity growth of `resize` is modelled only as "at least the requested size".
- Text WebSocket messages, `websocket_error`, logging and the `Response`/`WebSocketPair` plumbing of `fetch`.
- The DoH fetch, the outbound TCP connect and the JavaScript `fetch` call are not modelled; only their outcomes enter, through `Network`.
- The DNS and UDP frames (`DnsQuery`, `DnsResponse`, `UdpDatagram`) that the worker dispatches have no encoding in message.rs. They reach the session already parsed.
- TunnelSession.LowerAscii: `to_lowercase` is modelled as ASCII lower-casing, so non-ASCII case mappings are not covered.
- GoTun.Fields: `strings.Fields` is modelled with ASCII whitespace only, so Unicode spaces are not covered.
- Socks5: `write_all` failures and the bidirectional relay after a successful CONNECT are not modelled. The model stops at status `Relaying`.
- Socks5: the `Box<dyn Error>` messages are modelled by the `SocksError` variants, not their text.
- The accept loop of `Socks5Server::run` is not modelled.
- Vpn: the platform steps (`create_tun_*`, `configure_routing`, the background packet processor, `restore_routing`, `destroy_tun_device`) are placeholders or OS calls. Only whether each succeeds is modelled. On every target the `vpn` feature builds for (Linux, macOS, Windows), every step succeeds, which is `SUPPORTED_PLATFORM`. On any other target, vpn.rs:201-204 defines `create_tun_device` a second time, so the feature does not build there. A failing step in `Platform` stands for an implementation that can fail.
- The `VpnConfig` fields are carried but never read.
- tun.go: `NewTUN`, `Start`, `Stop`, `configureInterface`, `net.LookupIP` and the `exec` route commands are OS configuration and are not modelled.
- GoTun.GetDefaultGateway: the `route print` command is its result, an input to the model.
- GoTun.ReadLoop: the blocking device is a finite sequence of read events; reads of more than 2048 bytes are excluded (`Bounded`).
- GoTun.WriteLoop: device write errors are logged and the loop goes on, so the model counts every IpPacket payload as written.
