/** Rate limiting of logins: token buckets in a table that expires and evicts
    entries to stay small. Times and token counts are exact reals. */
module LoginAdmission {
  import opened Types

  // ----- buckets ------------------------------------------------------------------------

  /** A bucket policy with the table's capacity and entry lifetime. */
  datatype Limits = Limits(burst: nat, interval: real, capacity: nat, ttl: real)

  ghost predicate LimitsOk(c: Limits) {
    0 < c.burst && 0.0 < c.interval && 0 < c.capacity && 0.0 < c.ttl
  }

  datatype Bucket = Bucket(tokens: real, lastRefill: real, lastSeen: real)

  function Fresh(c: Limits, now: real): Bucket {
    Bucket(c.burst as real, now, now)
  }

  function Since(now: real, then': real): real {
    if now < then' then 0.0 else now - then'
  }

  function Min(a: real, b: real): real {
    if a < b then a else b
  }

  function Max(a: real, b: real): real {
    if a < b then b else a
  }

  /** The tokens that come back in a while. */
  function Refilled(c: Limits, elapsed: real): real
    requires LimitsOk(c)
  {
    elapsed / c.interval
  }

  function TokensAt(c: Limits, b: Bucket, now: real): real
    requires LimitsOk(c)
  {
    Min(b.tokens + Refilled(c, Since(now, b.lastRefill)), c.burst as real)
  }

  function DelayUntil(c: Limits, b: Bucket, wanted: real, now: real): real
    requires LimitsOk(c)
  {
    Max(wanted - TokensAt(c, b, now), 0.0) * c.interval
  }

  // ----- arithmetic of refilling ----------------------------------------------------------

  lemma ProductSign(a: real, b: real)
    requires 0.0 < b
    ensures a * b < 0.0 <==> a < 0.0
    ensures a * b == 0.0 <==> a == 0.0
  {
  }

  lemma RefilledAdds(c: Limits, a: real, b: real)
    requires LimitsOk(c)
    ensures Refilled(c, a + b) == Refilled(c, a) + Refilled(c, b)
  {
    var d := Refilled(c, a + b) - (Refilled(c, a) + Refilled(c, b));
    assert d * c.interval == 0.0;
    ProductSign(d, c.interval);
  }

  /** Waiting long enough for some tokens is exactly what brings them back. */
  lemma RefilledCovers(c: Limits, elapsed: real, tokens: real)
    requires LimitsOk(c)
    ensures tokens <= Refilled(c, elapsed) <==> tokens * c.interval <= elapsed
  {
    var d := Refilled(c, elapsed) - tokens;
    assert d * c.interval == elapsed - tokens * c.interval;
    ProductSign(d, c.interval);
  }

  // ----- the table -----------------------------------------------------------------------------

  type Table<K(==)> = map<K, Bucket>

  /** What a check answers; both refusals carry a delay for Retry-After. */
  datatype Verdict = Admitted | Throttled(delay: real) | NoRoom(delay: real)

  predicate Expired(c: Limits, b: Bucket, now: real) {
    Since(now, b.lastSeen) >= c.ttl
  }

  /** `prune_expired`. */
  function Pruned<K>(c: Limits, e: Table<K>, now: real): Table<K> {
    map k | k in e && !Expired(c, e[k], now) :: e[k]
  }

  predicate Full(c: Limits, b: Bucket, now: real)
    requires LimitsOk(c)
  {
    TokensAt(c, b, now) >= c.burst as real
  }

  /** An entry `make_room` may evict: full, and none full was seen earlier. */
  ghost predicate IsVictim<K(!new)>(c: Limits, e: Table<K>, now: real, v: K)
    requires LimitsOk(c)
  {
    v in e && Full(c, e[v], now) && forall k :: k in e && Full(c, e[k], now) ==> e[v].lastSeen <= e[k].lastSeen
  }

  /** When an entry will next be full or expired. */
  function UntilEvictable(c: Limits, b: Bucket, now: real): real
    requires LimitsOk(c)
  {
    Min(DelayUntil(c, b, c.burst as real, now), Max(c.ttl - Since(now, b.lastSeen), 0.0))
  }

  const NANOSECOND: real := 0.000000001

  ghost predicate IsRetryDelay<K(!new)>(c: Limits, e: Table<K>, now: real, d: real)
    requires LimitsOk(c)
  {
    exists k :: k in e && d == Max(UntilEvictable(c, e[k], now), NANOSECOND)
      && forall j :: j in e ==> UntilEvictable(c, e[k], now) <= UntilEvictable(c, e[j], now)
  }

  /** Take a token from the key's bucket, or say when there will be one. */
  ghost predicate Served<K(!new)>(c: Limits, e: Table<K>, key: K, now: real, e': Table<K>, v: Verdict)
    requires LimitsOk(c) && key in e
  {
    var tokens := TokensAt(c, e[key], now);
    if tokens < 1.0 then
      e' == e[key := Bucket(tokens, now, now)] && v == Throttled((1.0 - tokens) * c.interval)
    else
      e' == e[key := Bucket(tokens - 1.0, now, now)] && v == Admitted
  }

  /** `check_at`, as a relation: which of several equally old full entries goes
      is left open. */
  ghost predicate Check<K(!new)>(c: Limits, e: Table<K>, key: K, now: real, e': Table<K>, v: Verdict)
    requires LimitsOk(c)
  {
    var live := Pruned(c, e, now);
    if key in live then Served(c, live, key, now, e', v)
    else if |live| < c.capacity then Served(c, live[key := Fresh(c, now)], key, now, e', v)
    else if exists k :: k in live && Full(c, live[k], now) then
      exists k :: IsVictim(c, live, now, k) && Served(c, (live - {k})[key := Fresh(c, now)], key, now, e', v)
    else e' == live && v.NoRoom? && IsRetryDelay(c, live, now, v.delay)
  }

  /** `BoundedBuckets`. */
  class BoundedBuckets<K(==, !new)> {
    const limits: Limits
    var entries: Table<K>

    constructor (limits: Limits)
      requires LimitsOk(limits)
      ensures this.limits == limits && entries == map[]
    {
      this.limits := limits;
      entries := map[];
    }

    method PruneExpired(now: real)
      modifies this
      ensures entries == Pruned(limits, old(entries), now)
    {
      entries := map k | k in entries && Since(now, entries[k].lastSeen) < limits.ttl :: entries[k];
    }

    /** The oldest full entry, if any is full. */
    method FindVictim(now: real) returns (victim: Option<K>)
      requires LimitsOk(limits)
      ensures victim.Some? ==> IsVictim(limits, entries, now, victim.value)
      ensures victim.None? ==> forall k :: k in entries ==> !Full(limits, entries[k], now)
      ensures victim.Some? ==>
        victim.value in entries && Full(limits, entries[victim.value], now)
        && forall k :: k in entries && entries[k].lastSeen < entries[victim.value].lastSeen ==>
             !Full(limits, entries[k], now)
    {
      victim := None;
      var rest := entries.Keys;
      while rest != {}
        invariant rest <= entries.Keys
        invariant victim.Some? ==> victim.value in entries && Full(limits, entries[victim.value], now)
        invariant victim.Some? ==>
          forall k :: k in entries.Keys - rest && Full(limits, entries[k], now) ==>
            entries[victim.value].lastSeen <= entries[k].lastSeen
        invariant victim.None? ==> forall k :: k in entries.Keys - rest ==> !Full(limits, entries[k], now)
        decreases |rest|
      {
        var k :| k in rest;
        rest := rest - {k};
        if TokensAt(limits, entries[k], now) >= limits.burst as real
           && (victim.None? || entries[k].lastSeen < entries[victim.value].lastSeen) {
          victim := Some(k);
        }
      }
    }

    /** The shortest wait until some entry can go. */
    method RetryDelay(now: real) returns (d: real)
      requires LimitsOk(limits) && entries != map[]
      ensures IsRetryDelay(limits, entries, now, d)
    {
      var first :| first in entries;
      var best, soonest := first, UntilEvictable(limits, entries[first], now);
      var rest := entries.Keys - {first};
      while rest != {}
        invariant rest <= entries.Keys && best in entries && soonest == UntilEvictable(limits, entries[best], now)
        invariant forall k :: k in entries.Keys - rest ==> soonest <= UntilEvictable(limits, entries[k], now)
        decreases |rest|
      {
        var k :| k in rest;
        rest := rest - {k};
        if UntilEvictable(limits, entries[k], now) < soonest {
          best, soonest := k, UntilEvictable(limits, entries[k], now);
        }
      }
      d := Max(soonest, NANOSECOND);
    }

    /** `make_room`: evict the oldest full entry, or say when one will be. */
    method MakeRoom(now: real) returns (retry: Option<real>)
      requires LimitsOk(limits)
      modifies this
      ensures |old(entries)| < limits.capacity ==> retry.None? && entries == old(entries)
      ensures |old(entries)| >= limits.capacity && retry.None? ==>
        exists v :: IsVictim(limits, old(entries), now, v) && entries == old(entries) - {v}
      ensures retry.Some? ==>
        |old(entries)| >= limits.capacity && entries == old(entries)
        && IsRetryDelay(limits, entries, now, retry.value)
        && forall k :: k in entries ==> !Full(limits, entries[k], now)
    {
      if |entries| < limits.capacity {
        return None;
      }
      var victim := FindVictim(now);
      if victim.Some? {
        entries := entries - {victim.value};
        return None;
      }
      var d := RetryDelay(now);
      return Some(d);
    }

    /** `check_at`. */
    method CheckAt(key: K, now: real) returns (v: Verdict)
      requires LimitsOk(limits)
      modifies this
      ensures Check(limits, old(entries), key, now, entries, v)
    {
      PruneExpired(now);
      if key !in entries {
        var refused := MakeRoom(now);
        if refused.Some? {
          return NoRoom(refused.value);
        }
        entries := entries[key := Fresh(limits, now)];
      }
      var tokens := TokensAt(limits, entries[key], now);
      entries := entries[key := Bucket(tokens, now, now)];
      if tokens < 1.0 {
        return Throttled(DelayUntil(limits, entries[key], 1.0, now));
      }
      entries := entries[key := entries[key].(tokens := tokens - 1.0)];
      return Admitted;
    }
  }
}
