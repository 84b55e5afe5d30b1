/**
  Replay protection: a table from 12-byte nonces to the instant they were
  first seen. `CheckAndRecord` accepts a nonce once and rejects it while it is
  still in the table; a periodic cleanup drops entries older than `max_age`.

  Instants and durations are natural numbers of nanoseconds, passed in by the
  caller in place of `Instant::now()`. The source reads the clock twice:
  `check_and_record` reads `now` for the schedule and the insert, and
  `cleanup_old_nonces` reads its own, possibly later, instant `cleanupNow`
  for `retain`.
 */
module ReplayProtection {
  import opened Wire

  type Nonce = s: seq<byte> | |s| == 12 witness [0, 0, 0, 0, 0, 0, 0, 0, 0, 0, 0, 0]

  /** MAX_NONCE_AGE: 5 minutes. */
  const MAX_NONCE_AGE: nat := 300 * NANOS_PER_SEC
  /** CLEANUP_INTERVAL: 1 minute. */
  const CLEANUP_INTERVAL: nat := 60 * NANOS_PER_SEC

  /** The time that must pass between two cleanups: min(max_age, 60 s) / 2. */
  function CleanupInterval(maxAge: nat): nat {
    (if maxAge < CLEANUP_INTERVAL then maxAge else CLEANUP_INTERVAL) / 2
  }

  /** `retain`: the entries younger than maxAge at `now`. */
  function Retain(seen: map<Nonce, nat>, now: nat, maxAge: nat): (r: map<Nonce, nat>)
    ensures forall n | n in r :: n in seen && r[n] == seen[n] && Elapsed(now, r[n]) < maxAge
    ensures forall n | n in seen && Elapsed(now, seen[n]) < maxAge :: n in r
  {
    map n | n in seen && Elapsed(now, seen[n]) < maxAge :: seen[n]
  }

  /** The whole state of a `ReplayProtection` value. */
  datatype State = State(seen: map<Nonce, nat>, maxAge: nat, lastCleanup: nat)

  /**
    The table after the cleanup step that opens `check_and_record`: the
    schedule is judged at `now`, `retain` runs at `cleanupNow`, and the
    cleanup clock restarts at `now`.
   */
  function AfterCleanup(s: State, now: nat, cleanupNow: nat): State {
    if Elapsed(now, s.lastCleanup) > CleanupInterval(s.maxAge) then
      State(Retain(s.seen, cleanupNow, s.maxAge), s.maxAge, now)
    else s
  }

  /** `check_and_record` as a function: the new state and whether the nonce was fresh. */
  function Check(s: State, nonce: Nonce, now: nat, cleanupNow: nat): (State, bool) {
    var c := AfterCleanup(s, now, cleanupNow);
    if nonce in c.seen then (c, false)
    else (State(c.seen[nonce := now], c.maxAge, c.lastCleanup), true)
  }

  class ReplayProtection {
    var seenNonces: map<Nonce, nat>
    var maxAge: nat
    var lastCleanup: nat

    function Model(): State
      reads this
    {
      State(seenNonces, maxAge, lastCleanup)
    }

    /** `ReplayProtection::new`: an empty table with the default 5-minute window. */
    constructor (now: nat)
      ensures Model() == State(map[], MAX_NONCE_AGE, now)
    {
      seenNonces := map[];
      maxAge := MAX_NONCE_AGE;
      lastCleanup := now;
    }

    /** `ReplayProtection::with_max_age`. */
    constructor WithMaxAge(maxAge: nat, now: nat)
      ensures Model() == State(map[], maxAge, now)
    {
      seenNonces := map[];
      this.maxAge := maxAge;
      lastCleanup := now;
    }

    /** `check_and_record`: true exactly for a nonce not in the (cleaned) table, which then records it. */
    method CheckAndRecord(nonce: Nonce, now: nat, cleanupNow: nat) returns (accepted: bool)
      modifies this
      ensures (Model(), accepted) == Check(old(Model()), nonce, now, cleanupNow)
    {
      if Elapsed(now, lastCleanup) > CleanupInterval(maxAge) {
        CleanupOldNonces(cleanupNow);
        lastCleanup := now;
      }
      if nonce in seenNonces {
        return false;
      }
      seenNonces := seenNonces[nonce := now];
      return true;
    }

    /** `cleanup_old_nonces`: keeps exactly the entries younger than max_age. */
    method CleanupOldNonces(now: nat)
      modifies this
      ensures seenNonces == Retain(old(seenNonces), now, maxAge)
      ensures maxAge == old(maxAge) && lastCleanup == old(lastCleanup)
    {
      seenNonces := map n | n in seenNonces && Elapsed(now, seenNonces[n]) < maxAge :: seenNonces[n];
    }

    /** `len`: the number of tracked nonces. */
    method Len() returns (n: nat)
      ensures n == |seenNonces|
    {
      n := |seenNonces|;
    }

    /** `is_empty`: holds exactly when the table has no entry. */
    method IsEmpty() returns (b: bool)
      ensures b <==> |seenNonces| == 0
    {
      b := seenNonces == map[];
    }
  }

  // ---------------------------------------------------------------------
  // Properties of check_and_record
  // ---------------------------------------------------------------------

  /** A nonce absent from the cleaned table is accepted and then stored with timestamp `now`. */
  lemma FreshNonceRecorded(s: State, nonce: Nonce, now: nat, cleanupNow: nat)
    requires nonce !in AfterCleanup(s, now, cleanupNow).seen
    ensures Check(s, nonce, now, cleanupNow).1
    ensures var t := Check(s, nonce, now, cleanupNow).0;
      nonce in t.seen && t.seen[nonce] == now && |t.seen| == |AfterCleanup(s, now, cleanupNow).seen| + 1
  {
  }

  /** A nonce still present after the cleanup is rejected and the table is left as the cleanup made it. */
  lemma ReplayRejected(s: State, nonce: Nonce, now: nat, cleanupNow: nat)
    requires nonce in AfterCleanup(s, now, cleanupNow).seen
    ensures Check(s, nonce, now, cleanupNow) == (AfterCleanup(s, now, cleanupNow), false)
  {
  }

  /** Cleanup runs only after more than min(max_age, 60 s)/2 has passed, and then restarts its clock at `now`. */
  lemma CleanupSchedule(s: State, now: nat, cleanupNow: nat)
    ensures Elapsed(now, s.lastCleanup) <= CleanupInterval(s.maxAge) ==> AfterCleanup(s, now, cleanupNow) == s
    ensures Elapsed(now, s.lastCleanup) > CleanupInterval(s.maxAge) ==>
      AfterCleanup(s, now, cleanupNow) == State(Retain(s.seen, cleanupNow, s.maxAge), s.maxAge, now)
  {
  }

  /** Only entries at least max_age old at the cleanup's own instant are dropped; nothing is added. */
  lemma CleanupKeepsYoung(s: State, now: nat, cleanupNow: nat, n: Nonce)
    requires n in s.seen
    ensures Elapsed(cleanupNow, s.seen[n]) < s.maxAge ==> n in AfterCleanup(s, now, cleanupNow).seen
    ensures n in AfterCleanup(s, now, cleanupNow).seen ==> AfterCleanup(s, now, cleanupNow).seen[n] == s.seen[n]
  {
  }

  /**
    A nonce accepted at `t1` is rejected by a later call at `t2` whenever the
    cleanup's own clock reading `c2` of that call is less than max_age after
    `t1`, whether or not the cleanup runs.
   */
  lemma RecordedNonceRejectedWithinWindow(s: State, nonce: Nonce, t1: nat, c1: nat, t2: nat, c2: nat)
    requires Check(s, nonce, t1, c1).1
    requires t1 <= t2 <= c2 && c2 - t1 < s.maxAge
    ensures !Check(Check(s, nonce, t1, c1).0, nonce, t2, c2).1
  {
    var s1 := Check(s, nonce, t1, c1).0;
    assert nonce in s1.seen && s1.seen[nonce] == t1;
    assert Elapsed(c2, s1.seen[nonce]) < s1.maxAge;
    CleanupKeepsYoung(s1, t2, c2, nonce);
  }

  /**
    The window is measured by the cleanup's clock reading, not by the check's:
    with max_age 10, a nonce accepted at 0 and replayed at 9 is accepted again
    when the cleanup's own reading is 10.
   */
  lemma LateCleanupReadAcceptsReplay(nonce: Nonce)
    ensures var (s1, ok1) := Check(State(map[], 10, 0), nonce, 0, 0);
      ok1 && Check(s1, nonce, 9, 10).1
  {
    var s1 := Check(State(map[], 10, 0), nonce, 0, 0).0;
    assert s1.seen == map[nonce := 0];
    assert Retain(s1.seen, 10, 10) == map[];
  }

  /** Two distinct nonces seen one after the other by a fresh table are both accepted and both tracked. */
  lemma DistinctNoncesBothAccepted(maxAge: nat, t0: nat, a: Nonce, b: Nonce, t1: nat, c1: nat, t2: nat, c2: nat)
    requires a != b && t0 <= t1 <= t2 <= c2 && c2 - t1 < maxAge
    ensures var (s1, ok1) := Check(State(map[], maxAge, t0), a, t1, c1);
      var (s2, ok2) := Check(s1, b, t2, c2);
      ok1 && ok2 && |s2.seen| == 2
  {
    var s1 := Check(State(map[], maxAge, t0), a, t1, c1).0;
    assert s1.seen == map[a := t1];
    CleanupKeepsYoung(s1, t2, c2, a);
    var c := AfterCleanup(s1, t2, c2);
    assert c.seen == map[a := t1];
    assert c.seen[b := t2].Keys == {a, b};
  }
}
