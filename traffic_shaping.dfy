/**
  Traffic shaping: packets are padded up to one of three standard sizes,
  padding bytes come from a small pool of reusable buffers, and in stealth
  mode packets are held back and written in batches.

  Random bytes (`getrandom`) are a `noise` parameter, delays and sleeping
  are not modelled, and the writer is an `Output` object that records what
  was written.
 */
module TrafficShaping {
  import opened Wire

  /** PACKET_SIZES: TCP MSS, a typical QUIC packet, Ethernet MTU minus headers. */
  const PACKET_SIZES: seq<nat> := [536, 1200, 1460]
  /** The largest standard size, used for everything that does not fit. */
  const MAX_PACKET_SIZE: nat := 1460
  /** Buffers preallocated per size by `BufferPool::new`. */
  const PREALLOCATED: nat := 10
  /** `return_buf` keeps a buffer only while its pool holds fewer than this. */
  const POOL_LIMIT: nat := 20

  // ---------------------------------------------------------------------
  // Configuration presets
  // ---------------------------------------------------------------------

  /** `TrafficShapingConfig` without the floating-point refill rate. */
  datatype Config = Config(
    packetPadding: bool,
    timingObfuscation: bool,
    burstShaping: bool,
    targetDelayUs: u64,
    batchSize: nat)

  /** Fast mode: no shaping at all. */
  function Fast(): Config {
    Config(false, false, false, 0, 1)
  }

  /** Balanced mode: padding only. */
  function Balanced(): Config {
    Config(true, false, false, 100, 4)
  }

  /** Stealth mode: padding, batching and burst shaping. */
  function Stealth(): Config {
    Config(true, true, true, 500, 8)
  }

  // ---------------------------------------------------------------------
  // Size selection
  // ---------------------------------------------------------------------

  /** The index of the first element of `s` that satisfies `p` (`position` / `find`). */
  function FirstIndex(s: seq<nat>, p: nat -> bool): (r: Option<nat>)
    ensures r.Some? ==> r.value < |s| && p(s[r.value]) && forall j | 0 <= j < r.value :: !p(s[j])
    ensures r.None? ==> forall j | 0 <= j < |s| :: !p(s[j])
  {
    if s == [] then None
    else if p(s[0]) then Some(0)
    else match FirstIndex(s[1..], p)
      case None => None
      case Some(i) => Some(i + 1)
  }

  /** The pool a size draws from: its own pool when standard, the 1460 pool otherwise. */
  function PoolIndex(size: nat): (i: nat)
    ensures i < |PACKET_SIZES|
    ensures size in PACKET_SIZES ==> PACKET_SIZES[i] == size
    ensures size !in PACKET_SIZES ==> i == 2
  {
    match FirstIndex(PACKET_SIZES, s => s == size)
      case Some(i) => i
      case None => 2
  }

  /** `select_target_size`: the first standard size at least `current`, else 1460. */
  function SelectTargetSize(current: nat): (t: nat)
    ensures t in PACKET_SIZES
  {
    match FirstIndex(PACKET_SIZES, s => s >= current)
      case Some(i) => PACKET_SIZES[i]
      case None => MAX_PACKET_SIZE
  }

  /** The target is the smallest standard size that fits, or 1460 when none does. */
  lemma SelectTargetSizeIsSmallestFit(current: nat)
    ensures current <= MAX_PACKET_SIZE ==> current <= SelectTargetSize(current)
    ensures forall s | s in PACKET_SIZES && s >= current :: SelectTargetSize(current) <= s
    ensures current > MAX_PACKET_SIZE ==> SelectTargetSize(current) == MAX_PACKET_SIZE
  {
    var r := FirstIndex(PACKET_SIZES, s => s >= current);
    if r.None? {
      assert !(PACKET_SIZES[2] >= current);
    }
  }

  /** The sizes chosen for the packet lengths around each boundary. */
  lemma SelectTargetSizeExamples()
    ensures SelectTargetSize(100) == 536 && SelectTargetSize(536) == 536
    ensures SelectTargetSize(537) == 1200 && SelectTargetSize(1200) == 1200
    ensures SelectTargetSize(1201) == 1460 && SelectTargetSize(1460) == 1460
    ensures SelectTargetSize(2000) == 1460
  {
    SelectTargetSizeIsSmallestFit(100);
    SelectTargetSizeIsSmallestFit(536);
    SelectTargetSizeIsSmallestFit(537);
    SelectTargetSizeIsSmallestFit(1200);
    SelectTargetSizeIsSmallestFit(1201);
    SelectTargetSizeIsSmallestFit(1460);
    SelectTargetSizeIsSmallestFit(2000);
  }

  // ---------------------------------------------------------------------
  // Buffer pool, as pure functions over the three pools
  // ---------------------------------------------------------------------

  /**
    The pool invariant: three pools, each of at most POOL_LIMIT buffers, and
    every buffer in pool i has capacity PACKET_SIZES[i].
   */
  predicate PoolsOk(p: seq<seq<Buffer>>) {
    |p| == 3 &&
    forall i | 0 <= i < 3 ::
      |p[i]| <= POOL_LIMIT &&
      forall j | 0 <= j < |p[i]| :: p[i][j].capacity == PACKET_SIZES[i] && |p[i][j].data| <= p[i][j].capacity
  }

  /** The ten buffers `BufferPool::new` puts in pool i: random bytes in the source, zeros here, since `get` refills them before they are seen. */
  function InitialPool(i: nat): seq<Buffer>
    requires i < 3
  {
    seq(PREALLOCATED, _ => Buffer(Zeros(PACKET_SIZES[i]), PACKET_SIZES[i]))
  }

  function InitialPools(): seq<seq<Buffer>> {
    [InitialPool(0), InitialPool(1), InitialPool(2)]
  }

  /**
    `get(size)`: pops the most recently returned buffer of the size's pool
    (or allocates one of capacity `size`), resizes it to `size` and fills it
    with the random bytes `noise`.
   */
  function Take(p: seq<seq<Buffer>>, size: nat, noise: seq<byte>): (seq<seq<Buffer>>, Buffer)
    requires |p| == 3 && |noise| == size
  {
    var i := PoolIndex(size);
    if p[i] == [] then (p, Buffer(noise, size))
    else
      var b := p[i][|p[i]| - 1];
      (p[i := p[i][..|p[i]| - 1]], Buffer(noise, Grown(b.capacity, size)))
  }

  /**
    `return_buf`: a buffer whose capacity is a standard size is cleared and
    kept if that pool holds fewer than POOL_LIMIT buffers; any other is dropped.
   */
  function Give(p: seq<seq<Buffer>>, buf: Buffer): seq<seq<Buffer>>
    requires |p| == 3
  {
    match FirstIndex(PACKET_SIZES, s => s == buf.capacity)
      case None => p
      case Some(i) =>
        if |p[i]| < POOL_LIMIT then p[i := p[i] + [Buffer([], buf.capacity)]] else p
  }

  lemma InitialPoolsOk()
    ensures PoolsOk(InitialPools())
  {
  }

  /**
    `get` returns exactly `size` bytes with at least that capacity, and only the
    size's pool loses its last buffer; for a standard size a reused buffer needs
    no growth, and a non-standard size draws from the 1460 pool.
   */
  lemma TakeSpec(p: seq<seq<Buffer>>, size: nat, noise: seq<byte>)
    requires PoolsOk(p) && |noise| == size
    ensures var (q, b) := Take(p, size, noise);
      PoolsOk(q) && b.data == noise && b.capacity >= size &&
      (size in PACKET_SIZES ==> b.capacity == size) &&
      (size !in PACKET_SIZES ==> q[0] == p[0] && q[1] == p[1]) &&
      forall i | 0 <= i < 3 ::
        q[i] == (if i == PoolIndex(size) && p[i] != [] then p[i][..|p[i]| - 1] else p[i])
  {
  }

  /** `return_buf` keeps the invariant, so no pool ever holds more than POOL_LIMIT buffers. */
  lemma GivePreservesPools(p: seq<seq<Buffer>>, buf: Buffer)
    requires PoolsOk(p)
    ensures PoolsOk(Give(p, buf))
  {
    var r := FirstIndex(PACKET_SIZES, s => s == buf.capacity);
    if r.Some? {
      var i := r.value;
      if |p[i]| < POOL_LIMIT {
        var q := Give(p, buf);
        assert q[i] == p[i] + [Buffer([], buf.capacity)];
        forall k | 0 <= k < 3
          ensures |q[k]| <= POOL_LIMIT
          ensures forall j | 0 <= j < |q[k]| :: q[k][j].capacity == PACKET_SIZES[k] && |q[k][j].data| <= q[k][j].capacity
        {
          if k == i {
            forall j | 0 <= j < |q[k]|
              ensures q[k][j].capacity == PACKET_SIZES[k] && |q[k][j].data| <= q[k][j].capacity
            {
              if j < |p[i]| { assert q[k][j] == p[i][j]; }
            }
          }
        }
      }
    }
  }

  /** What `return_buf` keeps: a cleared buffer of standard capacity, whenever its pool has room. */
  lemma GiveSpec(p: seq<seq<Buffer>>, buf: Buffer)
    requires |p| == 3
    ensures buf.capacity !in PACKET_SIZES ==> Give(p, buf) == p
    ensures buf.capacity in PACKET_SIZES ==>
      var i := PoolIndex(buf.capacity);
      Give(p, buf) == if |p[i]| < POOL_LIMIT then p[i := p[i] + [Buffer([], buf.capacity)]] else p
  {
    var r := FirstIndex(PACKET_SIZES, s => s == buf.capacity);
    if buf.capacity in PACKET_SIZES {
      assert r.Some?;
      assert PACKET_SIZES[r.value] == buf.capacity == PACKET_SIZES[PoolIndex(buf.capacity)];
    }
  }

  /**
    Getting a standard-size buffer and returning it leaves every pool with as
    many buffers as before, provided the pool was not empty.
   */
  lemma TakeThenGiveRestoresCounts(p: seq<seq<Buffer>>, size: nat, noise: seq<byte>)
    requires PoolsOk(p) && |noise| == size && size in PACKET_SIZES && p[PoolIndex(size)] != []
    ensures var (q, b) := Take(p, size, noise);
      |b.data| == size && forall i | 0 <= i < 3 :: |Give(q, b)[i]| == |p[i]|
  {
    TakeSpec(p, size, noise);
    var (q, b) := Take(p, size, noise);
    GiveSpec(q, b);
  }

  class BufferPool {
    var pools: array<seq<Buffer>>

    predicate Valid()
      reads this, pools
    {
      pools.Length == 3 && PoolsOk(pools[..])
    }

    function Model(): seq<seq<Buffer>>
      reads this, pools
    {
      pools[..]
    }

    /** `BufferPool::new`: ten buffers of each standard size, holding arbitrary bytes (zeros in the model). */
    constructor ()
      ensures Valid() && fresh(pools) && Model() == InitialPools()
    {
      var a := new seq<Buffer>[3](_ => []);
      for i := 0 to 3
        invariant forall k | 0 <= k < i :: a[k] == InitialPool(k)
        invariant forall k | i <= k < 3 :: a[k] == []
      {
        var size := PACKET_SIZES[i];
        for j := 0 to PREALLOCATED
          invariant a[i] == seq(j, _ => Buffer(Zeros(size), size))
          invariant forall k | 0 <= k < i :: a[k] == InitialPool(k)
          invariant forall k | i < k < 3 :: a[k] == []
        {
          a[i] := a[i] + [Buffer(Zeros(size), size)];
        }
      }
      pools := a;
      new;
      assert pools[..] == [a[0], a[1], a[2]];
      InitialPoolsOk();
    }

    /** `get`: a buffer of exactly `size` random bytes, reused from the pool when one is there. */
    method Get(size: nat, noise: seq<byte>) returns (buf: Buffer)
      requires Valid() && |noise| == size
      modifies pools
      ensures Valid()
      ensures (Model(), buf) == Take(old(Model()), size, noise)
    {
      TakeSpec(pools[..], size, noise);
      var i := PoolIndex(size);
      var pool := pools[i];
      var cap := size;
      if |pool| > 0 {
        cap := pool[|pool| - 1].capacity;
        pools[i] := pool[..|pool| - 1];
        cap := Grown(cap, size);
      }
      buf := Buffer(noise, cap);
    }

    /** `return_buf`: keeps a cleared standard-capacity buffer while its pool has room. */
    method ReturnBuf(buf: Buffer)
      requires Valid()
      modifies pools
      ensures Valid()
      ensures Model() == Give(old(Model()), buf)
    {
      GivePreservesPools(pools[..], buf);
      var r := FirstIndex(PACKET_SIZES, s => s == buf.capacity);
      if r.Some? {
        var i := r.value;
        if |pools[i]| < POOL_LIMIT {
          pools[i] := pools[i] + [Buffer([], buf.capacity)];
        }
      }
    }
  }

  // ---------------------------------------------------------------------
  // Padding
  // ---------------------------------------------------------------------

  /** `pad_packet` on the packet: extended with `noise[|packet|..target]` when shorter than its target. */
  function Pad(cfg: Config, packet: seq<byte>, noise: seq<byte>): seq<byte>
    requires |noise| == SelectTargetSize(|packet|)
  {
    if !cfg.packetPadding then packet
    else
      var target := SelectTargetSize(|packet|);
      if target > |packet| then packet + noise[|packet|..target] else packet
  }

  /** `pad_packet` on the pool: the padding buffer is taken and given back. */
  function PadPools(cfg: Config, p: seq<seq<Buffer>>, len: nat, noise: seq<byte>): seq<seq<Buffer>>
    requires |p| == 3 && |noise| == SelectTargetSize(len)
  {
    var target := SelectTargetSize(len);
    if cfg.packetPadding && target > len then
      var (q, b) := Take(p, target, noise);
      Give(q, b)
    else p
  }

  /** With padding off the packet is left as it is. */
  lemma PadDisabledIsIdentity(cfg: Config, packet: seq<byte>, noise: seq<byte>)
    requires !cfg.packetPadding && |noise| == SelectTargetSize(|packet|)
    ensures Pad(cfg, packet, noise) == packet
  {
  }

  /**
    With padding on, a packet shorter than its target grows to exactly the
    target and keeps its bytes as a prefix; a packet already on a standard
    size, or of 1460 bytes or more, is unchanged.
   */
  lemma PadSpec(cfg: Config, packet: seq<byte>, noise: seq<byte>)
    requires cfg.packetPadding && |noise| == SelectTargetSize(|packet|)
    ensures var r := Pad(cfg, packet, noise);
      |packet| <= MAX_PACKET_SIZE ==> |r| == SelectTargetSize(|packet|) && r[..|packet|] == packet
    ensures |packet| in PACKET_SIZES || |packet| >= MAX_PACKET_SIZE ==> Pad(cfg, packet, noise) == packet
  {
    SelectTargetSizeIsSmallestFit(|packet|);
  }

  /** Padding never disturbs the pool invariant. */
  lemma PadPoolsOk(cfg: Config, p: seq<seq<Buffer>>, len: nat, noise: seq<byte>)
    requires PoolsOk(p) && |noise| == SelectTargetSize(len)
    ensures PoolsOk(PadPools(cfg, p, len, noise))
  {
    var target := SelectTargetSize(len);
    if cfg.packetPadding && target > len {
      TakeSpec(p, target, noise);
      var (q, b) := Take(p, target, noise);
      GivePreservesPools(q, b);
    }
  }

  class TrafficShaper {
    const config: Config
    var bufferPool: BufferPool

    /** `TrafficShaper::new`: the configuration and a fresh buffer pool. */
    constructor (config: Config)
      ensures this.config == config && fresh(bufferPool) && fresh(bufferPool.pools)
      ensures bufferPool.Valid() && bufferPool.Model() == InitialPools()
    {
      this.config := config;
      bufferPool := new BufferPool();
    }

    /** `pad_packet`: the padded packet, with the padding buffer borrowed from the pool. */
    method PadPacket(packet: seq<byte>, noise: seq<byte>) returns (padded: seq<byte>)
      requires bufferPool.Valid() && |noise| == SelectTargetSize(|packet|)
      modifies bufferPool.pools
      ensures bufferPool.Valid()
      ensures padded == Pad(config, packet, noise)
      ensures bufferPool.Model() == PadPools(config, old(bufferPool.Model()), |packet|, noise)
    {
      if !config.packetPadding {
        return packet;
      }
      var current := |packet|;
      var target := SelectTargetSize(current);
      padded := packet;
      if target > current {
        var paddingBuf := bufferPool.Get(target, noise);
        padded := packet + paddingBuf.data[current..target];
        bufferPool.ReturnBuf(paddingBuf);
      }
    }
  }

  // ---------------------------------------------------------------------
  // Batching
  // ---------------------------------------------------------------------

  /** The bytes of a sequence of packets written one after the other. */
  function Concat(packets: seq<seq<byte>>): seq<byte> {
    if packets == [] then [] else packets[0] + Concat(packets[1..])
  }

  lemma {:induction false} ConcatAppend(a: seq<seq<byte>>, b: seq<seq<byte>>)
    ensures Concat(a + b) == Concat(a) + Concat(b)
  {
    if a == [] {
      assert a + b == b;
    } else {
      assert (a + b)[1..] == a[1..] + b;
      ConcatAppend(a[1..], b);
    }
  }

  lemma ConcatSingleAppend(a: seq<seq<byte>>, x: seq<byte>)
    ensures Concat(a + [x]) == Concat(a) + x
  {
    ConcatAppend(a, [x]);
    assert [x][1..] == [];
    assert Concat([x]) == x + Concat([]);
  }

  /**
    `send_with_shaping` on (batch, written bytes): written at once without
    timing obfuscation; otherwise queued, and the whole batch written in order
    once it holds `batch_size` packets.
   */
  function Shape(cfg: Config, batch: seq<seq<byte>>, out: seq<byte>, packet: seq<byte>): (seq<seq<byte>>, seq<byte>) {
    if !cfg.timingObfuscation then (batch, out + packet)
    else if |batch| + 1 >= cfg.batchSize then ([], out + Concat(batch + [packet]))
    else (batch + [packet], out)
  }

  /** A sequence of `send_with_shaping` calls. */
  function ShapeAll(cfg: Config, batch: seq<seq<byte>>, out: seq<byte>, packets: seq<seq<byte>>): (seq<seq<byte>>, seq<byte>)
    decreases |packets|
  {
    if packets == [] then (batch, out)
    else
      var (b, o) := Shape(cfg, batch, out, packets[0]);
      ShapeAll(cfg, b, o, packets[1..])
  }

  /** Nothing is lost or reordered: written bytes followed by the queued ones are all the packets in order. */
  lemma {:induction false} ShapeAllConserves(cfg: Config, batch: seq<seq<byte>>, out: seq<byte>, packets: seq<seq<byte>>)
    requires cfg.timingObfuscation || batch == []
    ensures var (b, o) := ShapeAll(cfg, batch, out, packets);
      o + Concat(b) == out + Concat(batch) + Concat(packets)
    decreases |packets|
  {
    if packets != [] {
      var (b, o) := Shape(cfg, batch, out, packets[0]);
      assert ShapeAll(cfg, batch, out, packets) == ShapeAll(cfg, b, o, packets[1..]);
      ConcatSingleAppend(batch, packets[0]);
      assert Concat(packets) == packets[0] + Concat(packets[1..]);
      assert o + Concat(b) == out + Concat(batch) + packets[0];
      ShapeAllConserves(cfg, b, o, packets[1..]);
    }
  }

  /** With batching on, the queue never reaches `batch_size` between calls. */
  lemma {:induction false} ShapeAllBatchBounded(cfg: Config, batch: seq<seq<byte>>, out: seq<byte>, packets: seq<seq<byte>>)
    requires cfg.timingObfuscation && |batch| < cfg.batchSize
    ensures |ShapeAll(cfg, batch, out, packets).0| < cfg.batchSize
    decreases |packets|
  {
    if packets != [] {
      var (b, o) := Shape(cfg, batch, out, packets[0]);
      assert ShapeAll(cfg, batch, out, packets) == ShapeAll(cfg, b, o, packets[1..]);
      ShapeAllBatchBounded(cfg, b, o, packets[1..]);
    }
  }

  /** Without timing obfuscation every packet is written at once and the queue is never touched. */
  lemma {:induction false} ShapeAllPassThrough(cfg: Config, batch: seq<seq<byte>>, out: seq<byte>, packets: seq<seq<byte>>)
    requires !cfg.timingObfuscation
    ensures ShapeAll(cfg, batch, out, packets) == (batch, out + Concat(packets))
    decreases |packets|
  {
    if packets != [] {
      assert Shape(cfg, batch, out, packets[0]) == (batch, out + packets[0]);
      assert ShapeAll(cfg, batch, out, packets) == ShapeAll(cfg, batch, out + packets[0], packets[1..]);
      assert Concat(packets) == packets[0] + Concat(packets[1..]);
      assert out + packets[0] + Concat(packets[1..]) == out + Concat(packets);
      ShapeAllPassThrough(cfg, batch, out + packets[0], packets[1..]);
    } else {
      assert out + Concat(packets) == out;
    }
  }

  /** With batching on, packets are only queued while the batch stays below `batch_size`. */
  lemma {:induction false} QueuedUntilFull(cfg: Config, batch: seq<seq<byte>>, out: seq<byte>, packets: seq<seq<byte>>)
    requires cfg.timingObfuscation && |batch| + |packets| < cfg.batchSize
    ensures ShapeAll(cfg, batch, out, packets) == (batch + packets, out)
    decreases |packets|
  {
    if packets != [] {
      assert Shape(cfg, batch, out, packets[0]) == (batch + [packets[0]], out);
      assert ShapeAll(cfg, batch, out, packets) == ShapeAll(cfg, batch + [packets[0]], out, packets[1..]);
      assert batch + [packets[0]] + packets[1..] == batch + packets;
      QueuedUntilFull(cfg, batch + [packets[0]], out, packets[1..]);
    } else {
      assert batch + packets == batch;
    }
  }

  /** The packet that fills the batch writes the whole batch, itself last, and empties it. */
  lemma FullBatchFlushes(cfg: Config, batch: seq<seq<byte>>, out: seq<byte>, packet: seq<byte>)
    requires cfg.timingObfuscation && |batch| + 1 >= cfg.batchSize
    ensures Shape(cfg, batch, out, packet) == ([], out + Concat(batch) + packet)
  {
    var r := Shape(cfg, batch, out, packet);
    assert r == ([], out + Concat(batch + [packet]));
    ConcatSingleAppend(batch, packet);
    assert out + Concat(batch + [packet]) == out + Concat(batch) + packet;
  }

  /**
    The presets: fast neither pads nor batches, balanced pads and writes at
    once, stealth pads and holds seven packets before writing all eight.
   */
  lemma PresetBehaviour(packet: seq<byte>, noise: seq<byte>, seven: seq<seq<byte>>)
    requires |noise| == SelectTargetSize(|packet|) && |seven| == 7
    ensures Pad(Fast(), packet, noise) == packet
    ensures Shape(Fast(), [], [], packet) == ([], packet)
    ensures Shape(Balanced(), [], [], packet) == ([], packet)
    ensures |packet| <= MAX_PACKET_SIZE ==> |Pad(Balanced(), packet, noise)| == SelectTargetSize(|packet|)
    ensures ShapeAll(Stealth(), [], [], seven) == (seven, [])
    ensures Shape(Stealth(), seven, [], packet) == ([], Concat(seven) + packet)
  {
    assert [] + packet == packet;
    PadSpec(Balanced(), packet, noise);
    QueuedUntilFull(Stealth(), [], [], seven);
    assert [] + seven == seven;
    FullBatchFlushes(Stealth(), seven, [], packet);
    assert [] + Concat(seven) + packet == Concat(seven) + packet;
  }

  /** The writer: everything written to it, in order. */
  class Output {
    var written: seq<byte>

    constructor ()
      ensures written == []
    {
      written := [];
    }
  }

  class TimingShaper {
    const config: Config
    var batch: seq<seq<byte>>

    /** `TimingShaper::new`: an empty batch. */
    constructor (config: Config)
      ensures this.config == config && batch == []
    {
      this.config := config;
      batch := [];
    }

    /** `send_with_shaping`: write through, or queue and flush once the batch is full. */
    method SendWithShaping(out: Output, packet: seq<byte>)
      modifies this, out
      ensures (batch, out.written) == Shape(config, old(batch), old(out.written), packet)
    {
      if !config.timingObfuscation {
        out.written := out.written + packet;
        return;
      }
      batch := batch + [packet];
      if |batch| >= config.batchSize {
        FlushBatch(out);
      }
    }

    /** `flush_batch` without its delay: writes every queued packet in FIFO order. */
    method FlushBatch(out: Output)
      modifies this, out
      ensures batch == [] && out.written == old(out.written) + Concat(old(batch))
    {
      while batch != []
        invariant out.written + Concat(batch) == old(out.written) + Concat(old(batch))
        decreases |batch|
      {
        var packet := batch[0];
        batch := batch[1..];
        out.written := out.written + packet;
      }
    }

    /** `flush`: forces out whatever is queued. */
    method Flush(out: Output)
      modifies this, out
      ensures batch == [] && out.written == old(out.written) + Concat(old(batch))
    {
      FlushBatch(out);
    }
  }
}
