/**
  Session key rotation: a generation counter, a packet counter and the
  instant of the last rotation. Rotation is due after `packet_limit` packets
  or after `rotation_interval` has elapsed; each rotation ratchets the key
  through a one-way hash.

  SHA-256 is a parameter `hash` of the operations that use it. Instants are
  natural numbers of nanoseconds supplied by the caller.
 */
module KeyRotation {
  import opened Wire

  type Key = s: seq<byte> | |s| == 32 witness seq(32, _ => 0)

  /** DEFAULT_ROTATION_INTERVAL: 5 minutes. */
  const DEFAULT_ROTATION_INTERVAL: nat := 300 * NANOS_PER_SEC
  /** DEFAULT_PACKET_LIMIT: 100 000 packets. */
  const DEFAULT_PACKET_LIMIT: u64 := 100_000

  /** The domain-separation label appended to every ratchet input. */
  const LABEL: seq<byte> := Ascii("zks-key-rotation-v1")

  /** The fields of a `KeyRotationManager`. */
  datatype Counters = Counters(
    rotationInterval: nat,
    packetLimit: u64,
    generation: u64,
    packetCount: u64,
    lastRotation: nat)

  /** A freshly built manager: both counters at zero, the clock started at `now`. */
  function Initial(rotationInterval: nat, packetLimit: u64, now: nat): Counters {
    Counters(rotationInterval, packetLimit, 0, 0, now)
  }

  /** `should_rotate`: the packet limit is reached, or the rotation interval has elapsed. */
  predicate RotationDue(c: Counters, now: nat) {
    if c.packetCount >= c.packetLimit then true
    else Elapsed(now, c.lastRotation) >= c.rotationInterval
  }

  /** `fetch_add(1)` on a u64 wraps around at 2^64. */
  function WrappingIncrement(x: u64): (r: u64)
    ensures x < U64_MOD - 1 ==> r == x + 1
    ensures x == U64_MOD - 1 ==> r == 0
  {
    (x + 1) % U64_MOD
  }

  /** The counters after `increment_packet_count`. */
  function CountPacket(c: Counters): Counters {
    c.(packetCount := WrappingIncrement(c.packetCount))
  }

  /** The counters after `rotate` at `now`. */
  function Rotated(c: Counters, now: nat): Counters {
    c.(generation := WrappingIncrement(c.generation), packetCount := 0, lastRotation := now)
  }

  /** The bytes hashed by the ratchet: current_key || be64(generation) || label. */
  function RatchetInput(key: Key, generation: u64): (r: seq<byte>)
    ensures |r| == 32 + 8 + 19
    ensures r[..32] == key && r[32..40] == Be64(generation) && r[40..] == LABEL
  {
    key + Be64(generation) + LABEL
  }

  /** The next key: the 32-byte digest of the ratchet input. */
  function NextKey(hash: seq<byte> -> Key, key: Key, generation: u64): Key {
    hash(RatchetInput(key, generation))
  }

  class KeyRotationManager {
    var rotationInterval: nat
    var packetLimit: u64
    var currentGeneration: u64
    var packetCount: u64
    var lastRotation: nat

    function Model(): Counters
      reads this
    {
      Counters(rotationInterval, packetLimit, currentGeneration, packetCount, lastRotation)
    }

    /** `KeyRotationManager::new`: the default interval and packet limit. */
    constructor (now: nat)
      ensures Model() == Initial(DEFAULT_ROTATION_INTERVAL, DEFAULT_PACKET_LIMIT, now)
    {
      rotationInterval := DEFAULT_ROTATION_INTERVAL;
      packetLimit := DEFAULT_PACKET_LIMIT;
      currentGeneration := 0;
      packetCount := 0;
      lastRotation := now;
    }

    /** `KeyRotationManager::with_params`. */
    constructor WithParams(rotationInterval: nat, packetLimit: u64, now: nat)
      ensures Model() == Initial(rotationInterval, packetLimit, now)
    {
      this.rotationInterval := rotationInterval;
      this.packetLimit := packetLimit;
      currentGeneration := 0;
      packetCount := 0;
      lastRotation := now;
    }

    /** `should_rotate`: true when the packet limit is reached, else when the interval has elapsed. */
    method ShouldRotate(now: nat) returns (due: bool)
      ensures packetCount >= packetLimit ==> due
      ensures packetCount < packetLimit ==> (due <==> Elapsed(now, lastRotation) >= rotationInterval)
    {
      if packetCount >= packetLimit {
        return true;
      }
      due := Elapsed(now, lastRotation) >= rotationInterval;
    }

    /** `increment_packet_count`. */
    method IncrementPacketCount()
      modifies this
      ensures Model() == CountPacket(old(Model()))
    {
      packetCount := WrappingIncrement(packetCount);
    }

    /**
      `rotate`: advances the generation, derives the next key from `currentKey`
      and resets the packet counter and the rotation clock.
     */
    method Rotate(currentKey: Key, hash: seq<byte> -> Key, now: nat) returns (newGeneration: u64, newKey: Key)
      modifies this
      ensures newGeneration == WrappingIncrement(old(currentGeneration))
      ensures newKey == NextKey(hash, currentKey, newGeneration)
      ensures Model() == Rotated(old(Model()), now)
    {
      newGeneration := WrappingIncrement(currentGeneration);
      currentGeneration := newGeneration;
      newKey := hash(RatchetInput(currentKey, newGeneration));
      packetCount := 0;
      lastRotation := now;
    }

    /** `current_generation`. */
    method CurrentGeneration() returns (g: u64)
      ensures g == currentGeneration
    {
      g := currentGeneration;
    }

    /** `packet_count`. */
    method PacketCount() returns (n: u64)
      ensures n == packetCount
    {
      n := packetCount;
    }
  }

  // ---------------------------------------------------------------------
  // Properties
  // ---------------------------------------------------------------------

  /** A new manager with a positive packet limit is not due before its interval has elapsed. */
  lemma FreshManagerNotDue(rotationInterval: nat, packetLimit: u64, t0: nat, now: nat)
    requires packetLimit > 0 && Elapsed(now, t0) < rotationInterval
    ensures Initial(rotationInterval, packetLimit, t0).generation == 0
    ensures Initial(rotationInterval, packetLimit, t0).packetCount == 0
    ensures !RotationDue(Initial(rotationInterval, packetLimit, t0), now)
  {
  }

  /** The packet trigger fires regardless of the clock. */
  lemma PacketLimitForcesRotation(c: Counters, now: nat)
    requires c.packetCount >= c.packetLimit
    ensures RotationDue(c, now)
  {
  }

  /** Below the packet limit, rotation is due exactly when the interval has elapsed. */
  lemma TimeTrigger(c: Counters, now: nat)
    requires c.packetCount < c.packetLimit
    ensures RotationDue(c, now) <==> now >= c.lastRotation + c.rotationInterval || (now < c.lastRotation && c.rotationInterval == 0)
  {
  }

  /** `increment_packet_count` adds exactly one (below 2^64 - 1) and touches nothing else. */
  lemma CountPacketAddsOne(c: Counters)
    requires c.packetCount < U64_MOD - 1
    ensures CountPacket(c).packetCount == c.packetCount + 1
    ensures CountPacket(c).(packetCount := c.packetCount) == c
  {
  }

  /** The counters after `k` calls of `increment_packet_count`. */
  function CountPackets(c: Counters, k: nat): Counters
    decreases k
  {
    if k == 0 then c else CountPacket(CountPackets(c, k - 1))
  }

  /** `k` calls of `increment_packet_count` raise a small count by exactly `k`. */
  lemma {:induction false} CountPacketsAddsK(c: Counters, k: nat)
    requires c.packetCount + k < U64_MOD
    ensures CountPackets(c, k) == c.(packetCount := c.packetCount + k)
    decreases k
  {
    if k > 0 {
      CountPacketsAddsK(c, k - 1);
    }
  }

  /**
    With packet limit `limit`, a new manager becomes due after exactly `limit`
    packets, whatever the clock says.
   */
  lemma DueAfterLimitPackets(rotationInterval: nat, limit: u64, t0: nat, now: nat)
    ensures RotationDue(CountPackets(Initial(rotationInterval, limit, t0), limit), now)
  {
    CountPacketsAddsK(Initial(rotationInterval, limit, t0), limit);
  }

  /** After a rotation the packet trigger is off (for a positive limit) and the interval restarts at `now`. */
  lemma RotationResets(c: Counters, now: nat, later: nat)
    requires c.packetLimit > 0 && now <= later < now + c.rotationInterval
    ensures Rotated(c, now).packetCount == 0 && Rotated(c, now).lastRotation == now
    ensures !RotationDue(Rotated(c, now), later)
  {
  }

  /** The counters after `k` rotations, all performed at `now`. */
  function Rotations(c: Counters, k: nat, now: nat): Counters
    decreases k
  {
    if k == 0 then c else Rotated(Rotations(c, k - 1, now), now)
  }

  /** Successive rotations of a new manager yield generations 1, 2, 3, … */
  lemma {:induction false} RotationsCountGenerations(c: Counters, k: nat, now: nat)
    requires c.generation + k < U64_MOD
    ensures Rotations(c, k, now).generation == c.generation + k
    ensures Rotations(c, k, now).rotationInterval == c.rotationInterval
    ensures Rotations(c, k, now).packetLimit == c.packetLimit
    decreases k
  {
    if k > 0 {
      RotationsCountGenerations(c, k - 1, now);
    }
  }

  /** The ratchet input determines the key and the generation, so distinct generations hash distinct inputs. */
  lemma RatchetInputInjective(k1: Key, g1: u64, k2: Key, g2: u64)
    requires RatchetInput(k1, g1) == RatchetInput(k2, g2)
    ensures k1 == k2 && g1 == g2
  {
    var r := RatchetInput(k1, g1);
    assert k1 == r[..32] == k2;
    assert Be64(g1) == r[32..40] == Be64(g2);
    Be64Injective(g1, g2);
  }
}
