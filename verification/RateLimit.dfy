/** The login attempt limiter: buckets by address, each with its failures, its
    lockout and the attempts in flight. Times are nanoseconds. */
module RateLimit {
  import opened Prelude
  import Runtime

  const FAILURE_THRESHOLD: nat := 5
  const STALE_AFTER: nat := 900 * Runtime.SECOND
  /** Failure counts are `u32`. */
  const COUNT_LIMIT: nat := 0x1_0000_0000

  // ---- buckets of addresses

  /** An address in 16-bit groups: a V4 address has two, a V6 address eight. */
  datatype Address = V4(a: nat, b: nat) | V6(net: (nat, nat, nat, nat), host: (nat, nat, nat, nat))

  predicate MapsV4(ip: Address) { ip.V6? && ip.net == (0, 0, 0, 0) && ip.host.0 == 0 && ip.host.1 == 0xffff }

  function LimitKey(ip: Address): Address {
    if ip.V4? then ip
    else if MapsV4(ip) then V4(ip.host.2, ip.host.3)
    else V6(ip.net, (0, 0, 0, 0))
  }

  /** Two addresses share a bucket exactly when they are the same V4 address
      (written either way) or lie in the same V6 /64 outside the mapped range. */
  lemma SharedBucket(x: Address, y: Address)
    ensures LimitKey(x) == LimitKey(y) <==>
      if x.V4? || MapsV4(x) then (y.V4? || MapsV4(y)) && Tail(x) == Tail(y)
      else y.V6? && !MapsV4(y) && x.net == y.net
    ensures LimitKey(LimitKey(x)) == LimitKey(x)
  {
  }

  function Tail(ip: Address): (nat, nat) { if ip.V4? then (ip.a, ip.b) else (ip.host.2, ip.host.3) }

  // ---- one bucket

  datatype Bucket = Bucket(failures: nat, inFlight: nat, lockedUntil: Option<nat>, lastFailure: Option<nat>)
  {
    predicate LockedAt(now: nat) { lockedUntil.Some? && now < lockedUntil.value }

    predicate Allows() {
      if failures >= FAILURE_THRESHOLD then inFlight == 0 else failures + inFlight < FAILURE_THRESHOLD
    }

    function Failed(now: nat): Bucket {
      var n := (failures + 1) % COUNT_LIMIT;
      var until := if n >= FAILURE_THRESHOLD then Some(now + CooldownFor(n - FAILURE_THRESHOLD)) else lockedUntil;
      Bucket(n, inFlight, until, Some(now))
    }

    predicate KeptAt(now: nat) {
      LockedAt(now) || (lastFailure.Some? && now < lastFailure.value + STALE_AFTER) || inFlight > 0
    }
  }

  const EMPTY := Bucket(0, 0, None, None)

  type Buckets = map<Address, Bucket>

  function At(m: Buckets, key: Address): Bucket { if key in m then m[key] else EMPTY }

  function CooldownFor(overThreshold: nat): nat { Runtime.CooldownSeconds(overThreshold) * Runtime.SECOND }

  /** How long failure number `n`, the fifth or a later one, locks its bucket:
      2, 2, 4, 8, ... seconds, at most five minutes. */
  function LockoutSeconds(n: nat): nat {
    var p := Runtime.Pow2(if n <= 6 then 1 else n - 5);
    if p < 300 then p else 300
  }

  lemma CooldownIs(k: nat)
    ensures CooldownFor(k) == LockoutSeconds(k + 5) * 1_000_000_000
  {
    Runtime.CooldownClosedForm(if k <= 1 then 1 else k);
  }

  lemma LockoutTable(n: nat)
    ensures LockoutSeconds(n) ==
      if n <= 6 then 2 else if n == 7 then 4 else if n == 8 then 8 else if n == 9 then 16 else if n == 10 then 32
      else if n == 11 then 64 else if n == 12 then 128 else if n == 13 then 256 else 300
  {
    if n >= 5 {
      CooldownIs(n - 5);
      Runtime.CooldownTable(n - 5);
    } else {
      CooldownIs(0);
      Runtime.CooldownTable(0);
    }
  }

  /** The fifth failure and each later one locks its bucket for exactly that long;
      an earlier one locks nothing. */
  lemma FailureLocks(b: Bucket, now: nat, t: nat)
    requires b.failures + 1 < 0x1_0000_0000
    ensures var c := b.Failed(now);
      var n := b.failures + 1;
      && c.failures == n && c.lastFailure == Some(now) && c.inFlight == b.inFlight
      && (n >= 5 ==> (c.LockedAt(t) <==> t < now + LockoutSeconds(n) * 1_000_000_000))
      && (n < 5 ==> c.lockedUntil == b.lockedUntil)
  {
    var n := b.failures + 1;
    assert n % COUNT_LIMIT == n;
    if n >= 5 { CooldownIs(n - 5); }
  }

  /** A success opens the bucket to the next attempts at once. */
  lemma SuccessReopens(m: Buckets, key: Address, now: nat)
    requires key in m
    ensures Admits(Cleared(m, key), key, now) <==> m[key].inFlight < 5
  {
  }

  /** Pruning forgets exactly the buckets that are not locked, hold no attempt and
      saw no failure for fifteen minutes. */
  lemma PruneForgetsIdle(m: Buckets, now: nat, key: Address)
    requires key in m
    ensures key !in Pruned(m, now) <==>
      && (m[key].lockedUntil.Some? ==> m[key].lockedUntil.value <= now)
      && (m[key].lastFailure.Some? ==> m[key].lastFailure.value + 900_000_000_000 <= now)
      && m[key].inFlight == 0
    ensures key in Pruned(m, now) ==> Pruned(m, now)[key] == m[key]
  {
  }

  predicate Admits(m: Buckets, key: Address, now: nat) { !At(m, key).LockedAt(now) && At(m, key).Allows() }

  function Begun(m: Buckets, key: Address, now: nat): Buckets {
    var b := At(m, key);
    m[key := if Admits(m, key, now) then b.(inFlight := b.inFlight + 1) else b]
  }

  function Released(m: Buckets, key: Address): Buckets {
    if key in m then m[key := m[key].(inFlight := if m[key].inFlight > 0 then m[key].inFlight - 1 else 0)] else m
  }

  function Recorded(m: Buckets, key: Address, now: nat): Buckets { m[key := At(m, key).Failed(now)] }

  function Cleared(m: Buckets, key: Address): Buckets {
    if key in m then m[key := m[key].(failures := 0, lockedUntil := None)] else m
  }

  function Pruned(m: Buckets, now: nat): Buckets { map k | k in m && m[k].KeptAt(now) :: m[k] }

  /** The limiter as the program keeps it. */
  class LoginAttempts {
    var buckets: Buckets

    constructor ()
      ensures buckets == map[]
    {
      buckets := map[];
    }

    method IsLockedOut(ip: Address, now: nat) returns (locked: bool)
      ensures locked == At(buckets, LimitKey(ip)).LockedAt(now)
    {
      var key := LimitKey(ip);
      locked := key in buckets && buckets[key].LockedAt(now);
    }

    /** Checks the lockout and reserves a slot in one step; the guard is the key
        to release. */
    method TryBeginAttempt(ip: Address, now: nat) returns (guard: Option<Address>)
      modifies this
      ensures guard == if Admits(old(buckets), LimitKey(ip), now) then Some(LimitKey(ip)) else None
      ensures buckets == Begun(old(buckets), LimitKey(ip), now)
    {
      var key := LimitKey(ip);
      if key !in buckets { buckets := buckets[key := EMPTY]; }
      var entry := buckets[key];
      if entry.LockedAt(now) { return None; }
      var allowed := if entry.failures >= FAILURE_THRESHOLD then entry.inFlight == 0
                     else entry.failures + entry.inFlight < FAILURE_THRESHOLD;
      if !allowed { return None; }
      buckets := buckets[key := entry.(inFlight := entry.inFlight + 1)];
      return Some(key);
    }

    method DropGuard(key: Address)
      modifies this
      ensures buckets == Released(old(buckets), key)
    {
      if key in buckets {
        var s := buckets[key];
        buckets := buckets[key := s.(inFlight := if s.inFlight > 0 then s.inFlight - 1 else 0)];
      }
    }

    method RecordFailure(ip: Address, now: nat)
      modifies this
      ensures buckets == Recorded(old(buckets), LimitKey(ip), now)
    {
      var key := LimitKey(ip);
      var entry := if key in buckets then buckets[key] else EMPTY;
      entry := entry.(failures := (entry.failures + 1) % COUNT_LIMIT);
      entry := entry.(lastFailure := Some(now));
      if entry.failures >= FAILURE_THRESHOLD {
        var cooldown := CooldownFor(entry.failures - FAILURE_THRESHOLD);
        entry := entry.(lockedUntil := Some(now + cooldown));
      }
      buckets := buckets[key := entry];
    }

    method RecordSuccess(ip: Address)
      modifies this
      ensures buckets == Cleared(old(buckets), LimitKey(ip))
    {
      var key := LimitKey(ip);
      if key in buckets { buckets := buckets[key := buckets[key].(failures := 0, lockedUntil := None)]; }
    }

    method PruneStale(now: nat) returns (removed: nat)
      modifies this
      ensures buckets == Pruned(old(buckets), now)
      ensures removed == |old(buckets)| - |buckets|
    {
      var before := |buckets|;
      var keys := buckets.Keys;
      while keys != {}
        invariant keys <= buckets.Keys <= old(buckets).Keys
        invariant forall k :: k in buckets ==> buckets[k] == old(buckets)[k]
        invariant forall k :: k in old(buckets) && k !in keys ==> (k in buckets <==> old(buckets)[k].KeptAt(now))
        invariant forall k :: k in buckets && k !in keys ==> buckets[k].KeptAt(now)
        decreases keys
      {
        var k :| k in keys;
        keys := keys - {k};
        if !buckets[k].KeptAt(now) { buckets := buckets - {k}; }
      }
      SmallerKeys(buckets, old(buckets));
      removed := before - |buckets|;
    }
  }

  lemma SmallerKeys(small: Buckets, large: Buckets)
    requires small.Keys <= large.Keys
    ensures |small| <= |large|
  {
    SmallerSet(small.Keys, large.Keys);
  }

  lemma {:induction false} SmallerSet<T>(small: set<T>, large: set<T>)
    requires small <= large
    ensures |small| <= |large|
  {
    if small != {} {
      var x :| x in small;
      SmallerSet(small - {x}, large - {x});
    }
  }
}
