/**
  A bounded FIFO of reusable packet buffers. `get` hands out a buffer of
  length exactly `buf_size`, reusing the oldest pooled one when there is
  one; `return_buf` recycles a buffer only if it is still large enough and
  the queue has room.

  The lock-free queue is modelled as a sequence used by one thread at a
  time. The bytes of a reused buffer are whatever its memory held before;
  they are the `stale` parameter.
 */
module PacketPool {
  import opened Wire

  /** The pool's invariant: within its bound, and every pooled buffer large enough. */
  predicate PoolOk(pool: seq<Buffer>, capacity: nat, bufSize: nat) {
    |pool| <= capacity && forall i | 0 <= i < |pool| :: pool[i].capacity >= bufSize
  }

  /**
    `get`: the oldest pooled buffer, cleared, grown to at least `bufSize` and
    with its length set to `bufSize`; or a new zero-filled buffer when the
    pool is empty.
   */
  function PoolGet(pool: seq<Buffer>, bufSize: nat, stale: seq<byte>): (r: (seq<Buffer>, Buffer))
    requires |stale| == bufSize
    ensures |r.1.data| == bufSize && r.1.capacity >= bufSize
  {
    if pool == [] then ([], Buffer(Zeros(bufSize), bufSize))
    else (pool[1..], Buffer(stale, Grown(pool[0].capacity, bufSize)))
  }

  /** `return_buf`: a buffer smaller than `bufSize` is dropped; otherwise it is queued if there is room. */
  function PoolReturn(pool: seq<Buffer>, capacity: nat, bufSize: nat, buf: Buffer): (r: seq<Buffer>)
    ensures r == pool || r == pool + [buf]
  {
    if buf.capacity >= bufSize && |pool| < capacity then pool + [buf] else pool
  }

  class PacketBufPool {
    var pool: seq<Buffer>
    const capacity: nat
    const bufSize: nat

    predicate Valid()
      reads this
    {
      capacity > 0 && PoolOk(pool, capacity, bufSize)
    }

    /** `PacketBufPool::new`: an empty queue holding at most `capacity` buffers. */
    constructor (capacity: nat, bufSize: nat)
      requires capacity > 0
      ensures Valid() && pool == [] && this.capacity == capacity && this.bufSize == bufSize
    {
      this.capacity := capacity;
      this.bufSize := bufSize;
      pool := [];
    }

    /** `get`: a buffer of exactly `bufSize` bytes, the oldest pooled one if any. */
    method Get(stale: seq<byte>) returns (buf: Buffer)
      requires Valid() && |stale| == bufSize
      modifies this
      ensures Valid()
      ensures (pool, buf) == PoolGet(old(pool), bufSize, stale)
    {
      if pool == [] {
        return Buffer(Zeros(bufSize), bufSize);
      }
      buf := pool[0];
      pool := pool[1..];
      buf := Buffer([], buf.capacity);
      if buf.capacity < bufSize {
        buf := buf.(capacity := Grown(buf.capacity, bufSize));
      }
      buf := buf.(data := stale);
    }

    /** `return_buf`: keeps a large-enough buffer while the queue is below its bound. */
    method ReturnBuf(buf: Buffer)
      requires Valid()
      modifies this
      ensures Valid()
      ensures pool == PoolReturn(old(pool), capacity, bufSize, buf)
    {
      if buf.capacity >= bufSize {
        if |pool| < capacity {
          pool := pool + [buf];
        }
      }
    }
  }

  // ---------------------------------------------------------------------
  // Properties
  // ---------------------------------------------------------------------

  /** On an empty pool, `get` allocates zeros and the pool stays empty. */
  lemma GetFromEmpty(bufSize: nat, stale: seq<byte>)
    requires |stale| == bufSize
    ensures PoolGet([], bufSize, stale) == ([], Buffer(Zeros(bufSize), bufSize))
    ensures forall i | 0 <= i < bufSize :: PoolGet([], bufSize, stale).1.data[i] == 0
  {
  }

  /** On a non-empty pool, `get` removes exactly the oldest buffer and reuses its allocation. */
  lemma GetTakesOldest(pool: seq<Buffer>, capacity: nat, bufSize: nat, stale: seq<byte>)
    requires PoolOk(pool, capacity, bufSize) && pool != [] && |stale| == bufSize
    ensures PoolGet(pool, bufSize, stale).0 == pool[1..]
    ensures PoolGet(pool, bufSize, stale).1.capacity == pool[0].capacity
    ensures [pool[0]] + PoolGet(pool, bufSize, stale).0 == pool
  {
  }

  /** Both operations keep the pool within its bound and free of undersized buffers. */
  lemma OperationsPreservePoolOk(pool: seq<Buffer>, capacity: nat, bufSize: nat, stale: seq<byte>, buf: Buffer)
    requires PoolOk(pool, capacity, bufSize) && |stale| == bufSize
    ensures PoolOk(PoolGet(pool, bufSize, stale).0, capacity, bufSize)
    ensures PoolOk(PoolReturn(pool, capacity, bufSize, buf), capacity, bufSize)
  {
  }

  /** `return_buf` queues a buffer exactly when it is large enough and the pool has room. */
  lemma ReturnKeepsIff(pool: seq<Buffer>, capacity: nat, bufSize: nat, buf: Buffer)
    ensures |PoolReturn(pool, capacity, bufSize, buf)| == |pool| + 1 <==> buf.capacity >= bufSize && |pool| < capacity
    ensures buf.capacity < bufSize ==> PoolReturn(pool, capacity, bufSize, buf) == pool
  {
  }

  /** Returned buffers come back out in the order they went in. */
  lemma {:induction false} FifoOrder(pool: seq<Buffer>, bufSize: nat, stale: seq<byte>, buf: Buffer)
    requires |stale| == bufSize && pool != []
    ensures PoolGet(pool + [buf], bufSize, stale).0 == PoolGet(pool, bufSize, stale).0 + [buf]
  {
    assert (pool + [buf])[0] == pool[0];
    assert (pool + [buf])[1..] == pool[1..] + [buf];
  }
}
