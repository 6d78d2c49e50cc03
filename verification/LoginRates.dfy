/** What the bounded table of login buckets promises over whole runs: it is an
    unbounded table in disguise, it caps the rate of every key, and the delays
    it hands out are exact. */
module LoginRates {
  import opened Types
  import opened LoginAdmission

  // ----- levels ---------------------------------------------------------------------------

  /** The tokens a key has; a key without an entry has a full bucket. */
  ghost function Level<K(!new)>(c: Limits, e: Table<K>, k: K, now: real): real
    requires LimitsOk(c)
  {
    if k in e then TokensAt(c, e[k], now) else c.burst as real
  }

  ghost predicate BucketsOk<K(!new)>(c: Limits, e: Table<K>, t: real) {
    forall k :: k in e ==>
      0.0 <= e[k].tokens <= c.burst as real && e[k].lastRefill == e[k].lastSeen <= t
  }

  ghost predicate Valid<K(!new)>(c: Limits, e: Table<K>, t: real) {
    BucketsOk(c, e, t) && |e| <= c.capacity
  }

  /** An entry lives until its bucket is full again. */
  ghost predicate OutlivesRefill(c: Limits) {
    c.burst as real * c.interval <= c.ttl
  }

  lemma LevelBounds<K(!new)>(c: Limits, e: Table<K>, k: K, now: real, t: real)
    requires LimitsOk(c) && BucketsOk(c, e, t)
    ensures 0.0 <= Level(c, e, k, now) <= c.burst as real
  {
    if k in e {
      RefilledCovers(c, Since(now, e[k].lastRefill), 0.0);
    }
  }

  /** A level later on depends only on the level now. */
  lemma LevelLater<K(!new)>(c: Limits, e: Table<K>, k: K, t: real, now: real)
    requires LimitsOk(c) && BucketsOk(c, e, t) && t <= now
    ensures Level(c, e, k, now) == Min(Level(c, e, k, t) + Refilled(c, now - t), c.burst as real)
    ensures 0.0 <= Refilled(c, now - t)
  {
    RefilledCovers(c, now - t, 0.0);
    if k in e {
      RefilledAdds(c, t - e[k].lastRefill, now - t);
    }
  }

  /** Pruning removes only full buckets. */
  lemma PruneKeepsLevels<K(!new)>(c: Limits, e: Table<K>, t: real, now: real, k: K)
    requires LimitsOk(c) && OutlivesRefill(c) && BucketsOk(c, e, t) && t <= now
    ensures Level(c, Pruned(c, e, now), k, now) == Level(c, e, k, now)
  {
    if k in e && Expired(c, e[k], now) {
      RefilledCovers(c, now - e[k].lastRefill, c.burst as real);
    }
  }

  lemma PruneShrinks<K(!new)>(c: Limits, e: Table<K>, now: real)
    ensures |Pruned(c, e, now)| <= |e|
  {
    Smaller(Pruned(c, e, now).Keys, e.Keys);
  }

  lemma Smaller<T>(a: set<T>, b: set<T>)
    requires a <= b
    ensures |a| <= |b|
    ensures a < b ==> |a| < |b|
  {
    assert b == a + (b - a);
  }

  lemma FreshLevel(c: Limits, now: real)
    requires LimitsOk(c)
    ensures TokensAt(c, Fresh(c, now), now) == c.burst as real
  {
    RefilledCovers(c, 0.0, 0.0);
  }

  /** A bucket written at a time has, at that time, what was written. */
  lemma WrittenLevel(c: Limits, tokens: real, now: real)
    requires LimitsOk(c) && 0.0 <= tokens <= c.burst as real
    ensures TokensAt(c, Bucket(tokens, now, now), now) == tokens
  {
    RefilledCovers(c, 0.0, 0.0);
    RefilledAdds(c, 0.0, 0.0);
  }

  ghost predicate Took<K(!new)>(c: Limits, e: Table<K>, key: K, now: real, e': Table<K>, v: Verdict)
    requires LimitsOk(c)
  {
    && (forall k :: Level(c, e', k, now) == Level(c, e, k, now) - (if k == key && v.Admitted? then 1.0 else 0.0))
    && (v.Admitted? ==> Level(c, e, key, now) >= 1.0)
    && (v.Throttled? ==> Level(c, e, key, now) < 1.0 && v.delay == (1.0 - Level(c, e, key, now)) * c.interval)
  }

  lemma ServedTakes<K(!new)>(c: Limits, e: Table<K>, key: K, now: real, e': Table<K>, v: Verdict)
    requires LimitsOk(c) && BucketsOk(c, e, now) && key in e && Served(c, e, key, now, e', v)
    ensures BucketsOk(c, e', now) && e'.Keys == e.Keys && Took(c, e, key, now, e', v) && !v.NoRoom?
  {
    LevelBounds(c, e, key, now, now);
    var tokens := TokensAt(c, e[key], now);
    WrittenLevel(c, if tokens < 1.0 then tokens else tokens - 1.0, now);
  }

  /** Making room for a key changes no level: what goes is full, and so is what
      comes. */
  lemma RoomKeepsLevels<K(!new)>(c: Limits, live: Table<K>, key: K, now: real, e: Table<K>, gone: set<K>)
    requires LimitsOk(c) && key !in live && e == (live - gone)[key := Fresh(c, now)]
    requires forall k :: k in gone && k in live ==> Full(c, live[k], now)
    ensures forall k :: Level(c, e, k, now) == Level(c, live, k, now)
  {
    FreshLevel(c, now);
  }

  /** The table a check serves its key from: the live entries, with room made
      for a new key. */
  lemma CheckServes<K(!new)>(c: Limits, e: Table<K>, key: K, now: real, e': Table<K>, v: Verdict)
    returns (live: Table<K>, gone: set<K>, from: Table<K>)
    requires LimitsOk(c) && |e| <= c.capacity && Check(c, e, key, now, e', v)
    ensures live == Pruned(c, e, now) && |live| <= c.capacity
    ensures forall k :: k in gone && k in live ==> Full(c, live[k], now)
    ensures (v.NoRoom? && key !in live && e' == live)
         || (key in from && |from| <= c.capacity && Served(c, from, key, now, e', v)
             && ((key in live && from == live) || (key !in live && from == (live - gone)[key := Fresh(c, now)])))
  {
    hide Served, Full, Pruned, Fresh, IsRetryDelay;
    live, gone := Pruned(c, e, now), {};
    PruneShrinks(c, e, now);
    from := if key in live then live else live[key := Fresh(c, now)];
    assert live - {} == live;
    if key !in live && |live| >= c.capacity && exists k :: k in live && Full(c, live[k], now) {
      var victim :| IsVictim(c, live, now, victim)
        && Served(c, (live - {victim})[key := Fresh(c, now)], key, now, e', v);
      gone := {victim};
      from := (live - {victim})[key := Fresh(c, now)];
      assert from.Keys == (live.Keys - {victim}) + {key};
    } else if key !in live && |live| < c.capacity {
      assert from.Keys == live.Keys + {key};
    }
  }

  /** The table never outgrows its capacity, whatever its limits. */
  lemma CheckSizes<K(!new)>(c: Limits, e: Table<K>, key: K, now: real, e': Table<K>, v: Verdict)
    requires LimitsOk(c) && |e| <= c.capacity && Check(c, e, key, now, e', v)
    ensures |e'| <= c.capacity
  {
    var live, gone, from := CheckServes(c, e, key, now, e', v);
    if key in from && Served(c, from, key, now, e', v) {
      assert e'.Keys == from.Keys;
    }
  }

  lemma SameLevels<K(!new)>(c: Limits, e: Table<K>, from: Table<K>, key: K, now: real, e': Table<K>, v: Verdict)
    requires LimitsOk(c) && Took(c, from, key, now, e', v)
    requires forall k :: Level(c, from, k, now) == Level(c, e, k, now)
    ensures Took(c, e, key, now, e', v)
  {
    hide Level;
    assert Level(c, from, key, now) == Level(c, e, key, now);
  }

  lemma RoomTakes<K(!new)>(c: Limits, live: Table<K>, gone: set<K>, from: Table<K>, key: K, now: real, e': Table<K>,
                           v: Verdict)
    requires LimitsOk(c) && BucketsOk(c, live, now) && key in from && Served(c, from, key, now, e', v)
    requires (key in live && from == live) || (key !in live && from == (live - gone)[key := Fresh(c, now)])
    requires forall k :: k in gone && k in live ==> Full(c, live[k], now)
    ensures BucketsOk(c, e', now) && Took(c, live, key, now, e', v)
  {
    assert BucketsOk(c, from, now);
    if key !in live {
      RoomKeepsLevels(c, live, key, now, from, gone);
    }
    ServedTakes(c, from, key, now, e', v);
    SameLevels(c, live, from, key, now, e', v);
  }

  /** One check, whatever it prunes or evicts: it takes a token from its own key
      or nothing at all, and refuses for want of a token only when there is
      none. */
  lemma CheckTakes<K(!new)>(c: Limits, e: Table<K>, t: real, key: K, now: real, e': Table<K>, v: Verdict)
    requires LimitsOk(c) && OutlivesRefill(c) && Valid(c, e, t) && t <= now && Check(c, e, key, now, e', v)
    ensures Valid(c, e', now) && Took(c, e, key, now, e', v)
  {
    CheckSizes(c, e, key, now, e', v);
    var live, gone, from := CheckServes(c, e, key, now, e', v);
    assert BucketsOk(c, live, now);
    forall k ensures Level(c, live, k, now) == Level(c, e, k, now) {
      PruneKeepsLevels(c, e, t, now, k);
    }
    hide Check, Level, Pruned, Full, OutlivesRefill, Served, Fresh;
    if key in from && Served(c, from, key, now, e', v) {
      RoomTakes(c, live, gone, from, key, now, e', v);
    }
    SameLevels(c, e, live, key, now, e', v);
  }

  // ----- runs ---------------------------------------------------------------------------------

  datatype Event<K> = Event(key: K, now: real, verdict: Verdict)

  ghost predicate InOrder<K(!new)>(events: seq<Event<K>>) {
    forall i, j :: 0 <= i < j < |events| ==> events[i].now <= events[j].now
  }

  /** Checks of a new table, at times that never go back. */
  ghost predicate Run<K(!new)>(c: Limits, tables: seq<Table<K>>, events: seq<Event<K>>)
    requires LimitsOk(c)
  {
    && |tables| == |events| + 1 && tables[0] == map[] && InOrder(events)
    && forall i :: 0 <= i < |events| ==>
         Check(c, tables[i], events[i].key, events[i].now, tables[i + 1], events[i].verdict)
  }

  /** Some time no later than event `i`, and no earlier than the one before. */
  ghost function Before<K(!new)>(events: seq<Event<K>>, i: nat): real
    requires i <= |events|
  {
    if i > 0 then events[i - 1].now else if |events| > 0 then events[0].now else 0.0
  }

  lemma {:induction false} RunCapacity<K(!new)>(c: Limits, tables: seq<Table<K>>, events: seq<Event<K>>, i: nat)
    requires LimitsOk(c) && Run(c, tables, events) && i < |tables|
    ensures |tables[i]| <= c.capacity
  {
    if i > 0 {
      RunCapacity(c, tables, events, i - 1);
      CheckSizes(c, tables[i - 1], events[i - 1].key, events[i - 1].now, tables[i], events[i - 1].verdict);
    }
  }

  lemma {:induction false} RunValid<K(!new)>(c: Limits, tables: seq<Table<K>>, events: seq<Event<K>>, i: nat)
    requires LimitsOk(c) && OutlivesRefill(c) && Run(c, tables, events) && i < |tables|
    ensures Valid(c, tables[i], Before(events, i))
    ensures i > 0 ==>
      Took(c, tables[i - 1], events[i - 1].key, events[i - 1].now, tables[i], events[i - 1].verdict)
  {
    if i > 0 {
      RunValid(c, tables, events, i - 1);
      CheckTakes(c, tables[i - 1], Before(events, i - 1), events[i - 1].key, events[i - 1].now, tables[i],
                 events[i - 1].verdict);
    }
  }

  // ----- the unbounded table it stands for -------------------------------------------------------

  /** A table with no capacity and no expiry, where an absent key is full. */
  ghost function IdealBucket<K(!new)>(c: Limits, u: Table<K>, key: K, now: real): Bucket {
    if key in u then u[key] else Fresh(c, now)
  }

  ghost function IdealVerdict<K(!new)>(c: Limits, u: Table<K>, key: K, now: real): Verdict
    requires LimitsOk(c)
  {
    var tokens := TokensAt(c, IdealBucket(c, u, key, now), now);
    if tokens < 1.0 then Throttled((1.0 - tokens) * c.interval) else Admitted
  }

  ghost function IdealNext<K(!new)>(c: Limits, u: Table<K>, key: K, now: real): Table<K>
    requires LimitsOk(c)
  {
    var tokens := TokensAt(c, IdealBucket(c, u, key, now), now);
    u[key := Bucket(if tokens < 1.0 then tokens else tokens - 1.0, now, now)]
  }

  /** The unbounded table after the checks the bounded one had room for. */
  ghost function IdealAfter<K(!new)>(c: Limits, events: seq<Event<K>>): Table<K>
    requires LimitsOk(c)
  {
    if events == [] then map[]
    else
      var last := events[|events| - 1];
      var u := IdealAfter(c, events[..|events| - 1]);
      if last.verdict.NoRoom? then u else IdealNext(c, u, last.key, last.now)
  }

  lemma IdealServes<K(!new)>(c: Limits, u: Table<K>, key: K, now: real)
    requires LimitsOk(c) && BucketsOk(c, u, now)
    ensures BucketsOk(c, IdealNext(c, u, key, now), now)
    ensures Took(c, u, key, now, IdealNext(c, u, key, now), IdealVerdict(c, u, key, now))
  {
    var from := u[key := IdealBucket(c, u, key, now)];
    FreshLevel(c, now);
    assert from[key := IdealNext(c, u, key, now)[key]] == IdealNext(c, u, key, now);
    ServedTakes(c, from, key, now, IdealNext(c, u, key, now), IdealVerdict(c, u, key, now));
    forall k ensures Level(c, from, k, now) == Level(c, u, k, now) {
    }
    SameLevels(c, u, from, key, now, IdealNext(c, u, key, now), IdealVerdict(c, u, key, now));
  }

  ghost predicate SameLevel<K(!new)>(c: Limits, e: Table<K>, u: Table<K>, t: real)
    requires LimitsOk(c)
  {
    forall k :: Level(c, e, k, t) == Level(c, u, k, t)
  }

  lemma SameLevelLater<K(!new)>(c: Limits, e: Table<K>, u: Table<K>, t: real, now: real)
    requires LimitsOk(c) && BucketsOk(c, e, t) && BucketsOk(c, u, t) && t <= now && SameLevel(c, e, u, t)
    ensures SameLevel(c, e, u, now)
  {
    forall k ensures Level(c, e, k, now) == Level(c, u, k, now) {
      assert Level(c, e, k, t) == Level(c, u, k, t);
      LevelLater(c, e, k, t, now);
      LevelLater(c, u, k, t, now);
    }
  }

  /** Equal levels give equal answers, and leave equal levels. */
  lemma SameAnswer<K(!new)>(c: Limits, e: Table<K>, u: Table<K>, key: K, now: real, e': Table<K>, v: Verdict,
                            u': Table<K>, v': Verdict)
    requires LimitsOk(c) && SameLevel(c, e, u, now) && Took(c, e, key, now, e', v)
    requires v.NoRoom? || (Took(c, u, key, now, u', v') && !v'.NoRoom?)
    ensures if v.NoRoom? then SameLevel(c, e', u, now) else v == v' && SameLevel(c, e', u', now)
  {
    hide Level;
    assert Level(c, e, key, now) == Level(c, u, key, now);
    forall k ensures Level(c, e, k, now) == Level(c, u, k, now) {
    }
  }

  /** One check of the bounded table is the same check of the unbounded one,
      with the same answer, unless it is refused for want of room. */
  lemma CheckRefines<K(!new)>(c: Limits, e: Table<K>, u: Table<K>, t: real, key: K, now: real, e': Table<K>, v: Verdict)
    requires LimitsOk(c) && OutlivesRefill(c) && Valid(c, e, t) && BucketsOk(c, u, t) && t <= now
    requires SameLevel(c, e, u, t) && Check(c, e, key, now, e', v)
    ensures if v.NoRoom? then SameLevel(c, e', u, now)
            else v == IdealVerdict(c, u, key, now) && SameLevel(c, e', IdealNext(c, u, key, now), now)
    ensures BucketsOk(c, u, now) && BucketsOk(c, IdealNext(c, u, key, now), now)
  {
    hide Check, Level, TokensAt, OutlivesRefill, IdealNext, IdealVerdict, SameLevel, Took;
    CheckTakes(c, e, t, key, now, e', v);
    SameLevelLater(c, e, u, t, now);
    assert BucketsOk(c, u, now);
    IdealServes(c, u, key, now);
    IdealNeverRefuses(c, u, key, now);
    SameAnswer(c, e, u, key, now, e', v, IdealNext(c, u, key, now), IdealVerdict(c, u, key, now));
  }

  lemma IdealNeverRefuses<K(!new)>(c: Limits, u: Table<K>, key: K, now: real)
    requires LimitsOk(c)
    ensures !IdealVerdict(c, u, key, now).NoRoom?
  {
  }

  lemma {:induction false} RunRefines<K(!new)>(c: Limits, tables: seq<Table<K>>, events: seq<Event<K>>, i: nat)
    requires LimitsOk(c) && OutlivesRefill(c) && Run(c, tables, events) && i < |tables|
    ensures BucketsOk(c, IdealAfter(c, events[..i]), Before(events, i))
    ensures SameLevel(c, tables[i], IdealAfter(c, events[..i]), Before(events, i))
    ensures i > 0 && !events[i - 1].verdict.NoRoom? ==>
      events[i - 1].verdict == IdealVerdict(c, IdealAfter(c, events[..i - 1]), events[i - 1].key, events[i - 1].now)
  {
    if i > 0 {
      RunRefines(c, tables, events, i - 1);
      RunValid(c, tables, events, i - 1);
      var u, last := IdealAfter(c, events[..i - 1]), events[i - 1];
      CheckRefines(c, tables[i - 1], u, Before(events, i - 1), last.key, last.now, tables[i], last.verdict);
      assert events[..i][..i - 1] == events[..i - 1];
    }
  }

  /** Every check that is not refused for want of room is answered as the
      unbounded table would. */
  ghost predicate Agrees<K(!new)>(c: Limits, events: seq<Event<K>>)
    requires LimitsOk(c)
  {
    forall i :: 0 <= i < |events| ==> AgreesAt(c, events, i)
  }

  ghost predicate AgreesAt<K(!new)>(c: Limits, events: seq<Event<K>>, i: nat)
    requires LimitsOk(c) && i < |events|
  {
    events[i].verdict.NoRoom?
    || events[i].verdict == IdealVerdict(c, IdealAfter(c, events[..i]), events[i].key, events[i].now)
  }

  lemma RunAgrees<K(!new)>(c: Limits, tables: seq<Table<K>>, events: seq<Event<K>>)
    requires LimitsOk(c) && OutlivesRefill(c) && Run(c, tables, events)
    ensures Agrees(c, events)
  {
    forall i | 0 <= i < |events| ensures AgreesAt(c, events, i) {
      RunRefines(c, tables, events, i + 1);
    }
  }

  // ----- rates -----------------------------------------------------------------------------------

  function Admissions<K(==, !new)>(events: seq<Event<K>>, key: K): nat {
    if events == [] then 0
    else
      Admissions(events[..|events| - 1], key) + Spent(events[|events| - 1], key)
  }

  /** In any stretch of checks a key gets no more than a burst and what came
      back in between. */
  ghost predicate RateBounded<K(!new)>(c: Limits, events: seq<Event<K>>)
    requires LimitsOk(c)
  {
    forall i, j, key :: 0 <= i < j <= |events| ==>
      Admissions(events[i..j], key) as real <= c.burst as real + Refilled(c, events[j - 1].now - events[i].now)
  }

  /** Tables between which every check takes its token from the levels. */
  ghost predicate Levelled<K(!new)>(c: Limits, tables: seq<Table<K>>, events: seq<Event<K>>)
    requires LimitsOk(c)
  {
    && |tables| == |events| + 1 && InOrder(events)
    && (forall i :: 0 <= i < |tables| ==> BucketsOk(c, tables[i], Before(events, i)))
    && (forall i :: 0 <= i < |events| ==>
          Took(c, tables[i], events[i].key, events[i].now, tables[i + 1], events[i].verdict))
  }

  function Spent<K(==, !new)>(event: Event<K>, key: K): nat {
    if event.key == key && event.verdict.Admitted? then 1 else 0
  }

  /** One check: a token spent comes from the level, and levels only refill. */
  lemma SpendStep<K(!new)>(c: Limits, e: Table<K>, t: real, event: Event<K>, e': Table<K>, key: K)
    requires LimitsOk(c) && BucketsOk(c, e, t) && t <= event.now && Took(c, e, event.key, event.now, e', event.verdict)
    ensures Spent(event, key) as real + Level(c, e', key, event.now) <= c.burst as real
    ensures Spent(event, key) as real + Level(c, e', key, event.now) <= Level(c, e, key, t) + Refilled(c, event.now - t)
  {
    LevelBounds(c, e, key, event.now, t);
    LevelLater(c, e, key, t, event.now);
    hide Level, Refilled, BucketsOk;
    assert Level(c, e', key, event.now) == Level(c, e, key, event.now) - Spent(event, key) as real;
  }

  lemma AdmissionsLast<K(!new)>(events: seq<Event<K>>, i: nat, j: nat, key: K)
    requires i < j <= |events|
    ensures Admissions(events[i..j], key) as real
         == Admissions(events[i..j - 1], key) as real + Spent(events[j - 1], key) as real
  {
    assert events[i..j][..j - i - 1] == events[i..j - 1];
  }

  lemma {:induction false} AdmissionsSpendLevel<K(!new)>(c: Limits, tables: seq<Table<K>>, events: seq<Event<K>>,
                                                         i: nat, j: nat, key: K)
    requires LimitsOk(c) && Levelled(c, tables, events) && i < j <= |events|
    ensures Admissions(events[i..j], key) as real + Level(c, tables[j], key, events[j - 1].now)
         <= c.burst as real + Refilled(c, events[j - 1].now - events[i].now)
    decreases j
  {
    hide Level, Refilled, BucketsOk, Took, Admissions, Spent;
    var now := events[j - 1].now;
    AdmissionsLast(events, i, j, key);
    LevelledStep(c, tables, events, j - 1, key);
    hide Levelled;
    if i + 1 == j {
      assert events[i..j - 1] == [];
      NoAdmissions<K>(key);
      RefilledSpans(c, now, now, now);
    } else {
      AdmissionsSpendLevel(c, tables, events, i, j - 1, key);
      RefilledSpans(c, events[i].now, events[j - 2].now, now);
    }
  }

  lemma RefilledSpans(c: Limits, a: real, b: real, d: real)
    requires LimitsOk(c)
    ensures Refilled(c, d - a) == Refilled(c, b - a) + Refilled(c, d - b)
  {
    RefilledAdds(c, b - a, d - b);
    assert (b - a) + (d - b) == d - a;
  }

  lemma NoAdmissions<K(!new)>(key: K)
    ensures Admissions<K>([], key) as real == 0.0
  {
  }

  lemma LevelledStep<K(!new)>(c: Limits, tables: seq<Table<K>>, events: seq<Event<K>>, j: nat, key: K)
    requires LimitsOk(c) && Levelled(c, tables, events) && j < |events|
    ensures Spent(events[j], key) as real + Level(c, tables[j + 1], key, events[j].now) <= c.burst as real
    ensures j > 0 ==>
      Spent(events[j], key) as real + Level(c, tables[j + 1], key, events[j].now)
      <= Level(c, tables[j], key, events[j - 1].now) + Refilled(c, events[j].now - events[j - 1].now)
  {
    hide Level, Refilled, Took;
    assert Took(c, tables[j], events[j].key, events[j].now, tables[j + 1], events[j].verdict);
    assert BucketsOk(c, tables[j], Before(events, j));
    hide BucketsOk;
    SpendStep(c, tables[j], Before(events, j), events[j], tables[j + 1], key);
  }

  lemma LevelledIsRateBounded<K(!new)>(c: Limits, tables: seq<Table<K>>, events: seq<Event<K>>)
    requires LimitsOk(c) && Levelled(c, tables, events)
    ensures RateBounded(c, events)
  {
    forall i, j, key | 0 <= i < j <= |events|
      ensures Admissions(events[i..j], key) as real <= c.burst as real + Refilled(c, events[j - 1].now - events[i].now)
    {
      AdmissionsSpendLevel(c, tables, events, i, j, key);
      assert BucketsOk(c, tables[j], Before(events, j));
      LevelBounds(c, tables[j], key, events[j - 1].now, Before(events, j));
    }
  }

  /** The rate of every key is capped in every run, even when its entry is
      evicted or expires and is made anew. */
  lemma RunIsRateBounded<K(!new)>(c: Limits, tables: seq<Table<K>>, events: seq<Event<K>>)
    requires LimitsOk(c) && OutlivesRefill(c) && Run(c, tables, events)
    ensures RateBounded(c, events)
  {
    forall i | 0 <= i < |tables| ensures BucketsOk(c, tables[i], Before(events, i)) {
      RunValid(c, tables, events, i);
    }
    forall i | 0 <= i < |events|
      ensures Took(c, tables[i], events[i].key, events[i].now, tables[i + 1], events[i].verdict)
    {
      RunValid(c, tables, events, i + 1);
    }
    LevelledIsRateBounded(c, tables, events);
  }

  // ----- both fail as soon as entries expire too early ------------------------------------------

  /** Drain a key at once, and again when its entry has expired. */
  function BreachEvent<K>(c: Limits, key: K, i: nat): Event<K> {
    Event(key, if i < c.burst then 0.0 else c.ttl, Admitted)
  }

  function BreachTable<K(==, !new)>(c: Limits, key: K, i: nat): Table<K> {
    if i == 0 then map[]
    else if i <= c.burst then map[key := Bucket(c.burst as real - i as real, 0.0, 0.0)]
    else map[key := Bucket(2.0 * c.burst as real - i as real, c.ttl, c.ttl)]
  }

  function BreachEvents<K>(c: Limits, key: K): (events: seq<Event<K>>)
    ensures |events| == 2 * c.burst && forall i :: 0 <= i < |events| ==> events[i] == BreachEvent(c, key, i)
  {
    seq(2 * c.burst, i requires 0 <= i < 2 * c.burst => BreachEvent(c, key, i))
  }

  function BreachTables<K(==, !new)>(c: Limits, key: K): (tables: seq<Table<K>>)
    ensures |tables| == 2 * c.burst + 1 && forall i :: 0 <= i < |tables| ==> tables[i] == BreachTable(c, key, i)
  {
    seq(2 * c.burst + 1, i requires 0 <= i < 2 * c.burst + 1 => BreachTable(c, key, i))
  }

  lemma BreachStep<K(!new)>(c: Limits, key: K, i: nat)
    requires LimitsOk(c) && i < 2 * c.burst
    ensures Check(c, BreachTable(c, key, i), key, BreachEvent(c, key, i).now, BreachTable(c, key, i + 1), Admitted)
  {
    var now := BreachEvent(c, key, i).now;
    var live := Pruned(c, BreachTable(c, key, i), now);
    if i == 0 || i == c.burst {
      FreshLevel(c, now);
      assert live == map[];
      assert live[key := Fresh(c, now)] == map[key := Fresh(c, now)];
    } else {
      assert live == BreachTable(c, key, i);
      WrittenLevel(c, live[key].tokens, now);
    }
  }

  lemma BreachRuns<K(!new)>(c: Limits, key: K)
    requires LimitsOk(c)
    ensures Run(c, BreachTables(c, key), BreachEvents(c, key))
  {
    forall i | 0 <= i < 2 * c.burst
      ensures Check(c, BreachTables(c, key)[i], BreachEvents(c, key)[i].key, BreachEvents(c, key)[i].now,
                    BreachTables(c, key)[i + 1], BreachEvents(c, key)[i].verdict)
    {
      BreachStep(c, key, i);
    }
  }

  lemma {:induction false} BreachAdmissions<K(!new)>(c: Limits, key: K, n: nat)
    requires n <= 2 * c.burst
    ensures Admissions(BreachEvents(c, key)[..n], key) == n
  {
    if n > 0 {
      BreachAdmissions(c, key, n - 1);
      assert BreachEvents(c, key)[..n][..n - 1] == BreachEvents(c, key)[..n - 1];
    }
  }

  lemma BreachExceedsRate<K(!new)>(c: Limits, key: K)
    requires LimitsOk(c) && !OutlivesRefill(c)
    ensures !RateBounded(c, BreachEvents(c, key))
  {
    var events := BreachEvents(c, key);
    BreachAdmissions(c, key, |events|);
    assert events[0..|events|] == events[..|events|];
    RefilledCovers(c, c.ttl, c.burst as real);
    assert Admissions(events[0..|events|], key) as real
         > c.burst as real + Refilled(c, events[|events| - 1].now - events[0].now);
  }

  ghost predicate AlwaysRateBounded<K(!new)>(c: Limits)
    requires LimitsOk(c)
  {
    forall tables: seq<Table<K>>, events: seq<Event<K>> :: Run(c, tables, events) ==> RateBounded(c, events)
  }

  ghost predicate AlwaysAgrees<K(!new)>(c: Limits)
    requires LimitsOk(c)
  {
    forall tables: seq<Table<K>>, events: seq<Event<K>> :: Run(c, tables, events) ==> Agrees(c, events)
  }

  /** The rate bound holds in every run exactly when entries outlive a refill. */
  lemma RateBoundedIff<K(!new)>(c: Limits, key: K)
    requires LimitsOk(c)
    ensures AlwaysRateBounded<K>(c) <==> OutlivesRefill(c)
  {
    if OutlivesRefill(c) {
      forall tables: seq<Table<K>>, events: seq<Event<K>> | Run(c, tables, events) ensures RateBounded(c, events) {
        RunIsRateBounded(c, tables, events);
      }
    } else {
      BreachRuns(c, key);
      BreachExceedsRate(c, key);
    }
  }

  /** The unbounded tables beside a run that agrees with them. */
  lemma AgreeingIsLevelled<K(!new)>(c: Limits, events: seq<Event<K>>, tables: seq<Table<K>>)
    requires LimitsOk(c) && InOrder(events) && Agrees(c, events)
    requires forall i :: 0 <= i < |events| ==> !events[i].verdict.NoRoom?
    requires |tables| == |events| + 1 && forall i :: 0 <= i < |tables| ==> tables[i] == IdealAfter(c, events[..i])
    ensures Levelled(c, tables, events)
  {
    forall i | 0 <= i < |tables| ensures BucketsOk(c, tables[i], Before(events, i)) {
      IdealBuckets(c, events, i);
    }
    forall i | 0 <= i < |events|
      ensures Took(c, tables[i], events[i].key, events[i].now, tables[i + 1], events[i].verdict)
    {
      assert AgreesAt(c, events, i);
      IdealBuckets(c, events, i);
      assert BucketsOk(c, tables[i], events[i].now);
      IdealServes(c, tables[i], events[i].key, events[i].now);
      assert events[..i + 1][..i] == events[..i];
    }
  }

  lemma {:induction false} IdealBuckets<K(!new)>(c: Limits, events: seq<Event<K>>, i: nat)
    requires LimitsOk(c) && InOrder(events) && i <= |events|
    ensures BucketsOk(c, IdealAfter(c, events[..i]), Before(events, i))
  {
    if i > 0 {
      IdealBuckets(c, events, i - 1);
      assert events[..i][..i - 1] == events[..i - 1];
      var u := IdealAfter(c, events[..i - 1]);
      assert BucketsOk(c, u, events[i - 1].now);
      IdealServes(c, u, events[i - 1].key, events[i - 1].now);
    }
  }

  /** So does the disguise: the bounded table answers like the unbounded one in
      every run exactly when entries outlive a refill. */
  lemma AgreesIff<K(!new)>(c: Limits, key: K)
    requires LimitsOk(c)
    ensures AlwaysAgrees<K>(c) <==> OutlivesRefill(c)
  {
    if OutlivesRefill(c) {
      forall tables: seq<Table<K>>, events: seq<Event<K>> | Run(c, tables, events) ensures Agrees(c, events) {
        RunAgrees(c, tables, events);
      }
    } else {
      var events := BreachEvents(c, key);
      BreachRuns(c, key);
      if Agrees(c, events) {
        var ideal := seq(|events| + 1, i requires 0 <= i < |events| + 1 => IdealAfter(c, events[..i]));
        AgreeingIsLevelled(c, events, ideal);
        LevelledIsRateBounded(c, ideal, events);
        BreachExceedsRate(c, key);
        assert false;
      }
    }
  }

  // ----- the delays handed out ----------------------------------------------------------------

  /** `retry_after_seconds`: whole seconds, rounded up, at least one. */
  function RetryAfterSeconds(delay: real): (seconds: int)
    ensures delay <= seconds as real && 1 <= seconds
    ensures seconds == 1 || (seconds - 1) as real < delay
  {
    var whole := delay.Floor;
    var up := whole + (if whole as real == delay then 0 else 1);
    if up < 1 then 1 else up
  }

  lemma ServedVerdict<K(!new)>(c: Limits, e: Table<K>, key: K, now: real, e': Table<K>, v: Verdict)
    requires LimitsOk(c) && key in e && Served(c, e, key, now, e', v)
    ensures v.Admitted? <==> TokensAt(c, e[key], now) >= 1.0
  {
  }

  /** A level short of a token reaches one after the delay it names, and not
      before. */
  lemma TokenComesBack(c: Limits, level: real, later: real, elapsed: real)
    requires LimitsOk(c) && level < 1.0 && later == Min(level + Refilled(c, elapsed), c.burst as real)
    ensures later >= 1.0 <==> elapsed >= (1.0 - level) * c.interval
  {
    RefilledCovers(c, elapsed, 1.0 - level);
  }

  lemma VerdictByLevel<K(!new)>(c: Limits, e: Table<K>, key: K, now: real, e': Table<K>, v: Verdict)
    requires LimitsOk(c) && Took(c, e, key, now, e', v) && !v.NoRoom?
    ensures v.Admitted? <==> Level(c, e, key, now) >= 1.0
    ensures v.Throttled? ==>
      Level(c, e', key, now) == Level(c, e, key, now) < 1.0 && v.delay == (1.0 - Level(c, e, key, now)) * c.interval
  {
  }

  lemma ThrottledThenChecked<K(!new)>(c: Limits, e: Table<K>, t: real, key: K, now: real, e': Table<K>, v: Verdict,
                                      later: real, e'': Table<K>, v': Verdict)
    requires LimitsOk(c) && OutlivesRefill(c) && Valid(c, e, t) && t <= now <= later
    requires Check(c, e, key, now, e', v) && v.Throttled? && Check(c, e', key, later, e'', v')
    ensures v'.Admitted? <==> later >= now + v.delay
  {
    hide Check, Level, Took, Refilled;
    CheckTakes(c, e, t, key, now, e', v);
    CheckTakes(c, e', now, key, later, e'', v');
    RoomAfterThrottle(c, e, key, now, e', v, later, e'', v');
    VerdictByLevel(c, e, key, now, e', v);
    VerdictByLevel(c, e', key, later, e'', v');
    LevelLater(c, e', key, now, later);
    TokenComesBack(c, Level(c, e', key, now), Level(c, e', key, later), later - now);
  }

  /** A throttled key still has its entry, or room for one, when it comes back. */
  lemma RoomAfterThrottle<K(!new)>(c: Limits, e: Table<K>, key: K, now: real, e': Table<K>, v: Verdict,
                                   later: real, e'': Table<K>, v': Verdict)
    requires LimitsOk(c) && |e| <= c.capacity && Check(c, e, key, now, e', v) && v.Throttled?
    requires Check(c, e', key, later, e'', v')
    ensures !v'.NoRoom?
  {
    CheckSizes(c, e, key, now, e', v);
    assert key in e' by {
      var live, gone, from := CheckServes(c, e, key, now, e', v);
    }
    var live := Pruned(c, e', later);
    if key !in live {
      assert live.Keys <= e'.Keys && live.Keys != e'.Keys;
      Smaller(live.Keys, e'.Keys);
    }
  }

  /** When an entry is full or expired, and not sooner. */
  lemma EvictableIff(c: Limits, b: Bucket, now: real, later: real)
    requires LimitsOk(c) && b.lastRefill == b.lastSeen <= now <= later && 0.0 <= b.tokens
    requires !Full(c, b, now) && !Expired(c, b, now)
    ensures Full(c, b, later) || Expired(c, b, later) <==> later >= now + UntilEvictable(c, b, now)
  {
    var missing := c.burst as real - TokensAt(c, b, now);
    RefilledCovers(c, later - now, missing);
    RefilledAdds(c, now - b.lastRefill, later - now);
    assert TokensAt(c, b, now) == b.tokens + Refilled(c, now - b.lastRefill);
    assert (now - b.lastRefill) + (later - now) == later - b.lastRefill;
    assert missing * c.interval == DelayUntil(c, b, c.burst as real, now);
  }

  lemma RefusedThenChecked<K(!new)>(c: Limits, e: Table<K>, t: real, key: K, now: real, e': Table<K>, v: Verdict,
                                    key': K, later: real, e'': Table<K>, v': Verdict)
    requires LimitsOk(c) && Valid(c, e, t) && t <= now <= later
    requires Check(c, e, key, now, e', v) && v.NoRoom?
    requires key' !in e' && Check(c, e', key', later, e'', v')
    ensures later >= now + v.delay ==> v'.Admitted?
    ensures later < now + v.delay && v.delay > NANOSECOND ==> v'.NoRoom?
  {
    hide Check, UntilEvictable, Full, Expired, Pruned, OutlivesRefill;
    NoRoomMeans(c, e, t, key, now, e', v);
    forall j | j in e'
      ensures Full(c, e'[j], later) || Expired(c, e'[j], later) <==> later >= now + UntilEvictable(c, e'[j], now)
    {
      EvictableIff(c, e'[j], now, later);
    }
    var first :| first in e' && v.delay == Max(UntilEvictable(c, e'[first], now), NANOSECOND)
      && forall j :: j in e' ==> UntilEvictable(c, e'[first], now) <= UntilEvictable(c, e'[j], now);
    if later >= now + v.delay {
      NewKeyEnters(c, e', first, key', later, e'', v');
    } else if v.delay > NANOSECOND {
      NewKeyWaits(c, e', key', later, e'', v');
    }
  }

  lemma NoRoomMeans<K(!new)>(c: Limits, e: Table<K>, t: real, key: K, now: real, e': Table<K>, v: Verdict)
    requires LimitsOk(c) && Valid(c, e, t) && t <= now && Check(c, e, key, now, e', v) && v.NoRoom?
    ensures |e'| == c.capacity && IsRetryDelay(c, e', now, v.delay) && BucketsOk(c, e', now)
    ensures forall k :: k in e' ==> !Full(c, e'[k], now) && !Expired(c, e'[k], now)
  {
    PruneShrinks(c, e, now);
  }

  lemma NewKeyEnters<K(!new)>(c: Limits, e: Table<K>, first: K, key: K, now: real, e': Table<K>, v: Verdict)
    requires LimitsOk(c) && |e| <= c.capacity && key !in e && Check(c, e, key, now, e', v)
    requires first in e && (Full(c, e[first], now) || Expired(c, e[first], now))
    ensures v.Admitted?
  {
    var live := Pruned(c, e, now);
    if first !in live {
      assert live.Keys <= e.Keys && live.Keys != e.Keys;
      Smaller(live.Keys, e.Keys);
    }
    var live', gone, from := CheckServes(c, e, key, now, e', v);
    FreshLevel(c, now);
    hide Full, TokensAt, Fresh;
    if key in from && Served(c, from, key, now, e', v) {
      ServedVerdict(c, from, key, now, e', v);
    }
  }

  lemma NewKeyWaits<K(!new)>(c: Limits, e: Table<K>, key: K, now: real, e': Table<K>, v: Verdict)
    requires LimitsOk(c) && |e| >= c.capacity && key !in e && Check(c, e, key, now, e', v)
    requires forall k :: k in e ==> !Full(c, e[k], now) && !Expired(c, e[k], now)
    ensures v.NoRoom?
  {
    assert Pruned(c, e, now) == e;
  }

  /** Event `i` is a refusal, and nothing comes between it and the next check. */
  ghost predicate RefusedAt<K(!new)>(events: seq<Event<K>>, i: nat) {
    i + 1 < |events| && !events[i].verdict.Admitted?
  }

  /** The delay of a throttled check is exact: the same key, left alone, is
      admitted from then on and not a moment earlier. */
  lemma ThrottleDelayIsExact<K(!new)>(c: Limits, tables: seq<Table<K>>, events: seq<Event<K>>, i: nat)
    requires LimitsOk(c) && OutlivesRefill(c) && Run(c, tables, events)
    requires RefusedAt(events, i) && events[i].verdict.Throttled? && events[i + 1].key == events[i].key
    ensures events[i + 1].verdict.Admitted? <==> events[i + 1].now >= events[i].now + events[i].verdict.delay
  {
    RunValid(c, tables, events, i);
    ThrottledThenChecked(c, tables[i], Before(events, i), events[i].key, events[i].now, tables[i + 1],
                         events[i].verdict, events[i + 1].now, tables[i + 2], events[i + 1].verdict);
  }

  /** The delay of a full table is exact too: until then no new key gets in,
      and from then on, if the table is left alone, any key does. */
  lemma NoRoomDelayIsExact<K(!new)>(c: Limits, tables: seq<Table<K>>, events: seq<Event<K>>, i: nat)
    requires LimitsOk(c) && OutlivesRefill(c) && Run(c, tables, events)
    requires RefusedAt(events, i) && events[i].verdict.NoRoom? && events[i + 1].key !in tables[i + 1]
    ensures events[i + 1].now >= events[i].now + events[i].verdict.delay ==> events[i + 1].verdict.Admitted?
    ensures events[i + 1].now < events[i].now + events[i].verdict.delay && events[i].verdict.delay > NANOSECOND ==>
      events[i + 1].verdict.NoRoom?
  {
    RunValid(c, tables, events, i);
    RefusedThenChecked(c, tables[i], Before(events, i), events[i].key, events[i].now, tables[i + 1],
                       events[i].verdict, events[i + 1].key, events[i + 1].now, tables[i + 2], events[i + 1].verdict);
  }

  /** So waiting the whole seconds of Retry-After is always enough. */
  lemma RetryAfterSuffices<K(!new)>(c: Limits, tables: seq<Table<K>>, events: seq<Event<K>>, i: nat)
    requires LimitsOk(c) && OutlivesRefill(c) && Run(c, tables, events)
    requires RefusedAt(events, i) && events[i + 1].key == events[i].key
    requires events[i + 1].now >= events[i].now + RetryAfterSeconds(events[i].verdict.delay) as real
    ensures events[i + 1].verdict.Admitted?
  {
    if events[i].verdict.Throttled? {
      ThrottleDelayIsExact(c, tables, events, i);
    } else {
      NoRoomKeyAbsent(c, tables[i], events[i].key, events[i].now, tables[i + 1], events[i].verdict);
      NoRoomDelayIsExact(c, tables, events, i);
    }
  }

  lemma NoRoomKeyAbsent<K(!new)>(c: Limits, e: Table<K>, key: K, now: real, e': Table<K>, v: Verdict)
    requires LimitsOk(c) && Check(c, e, key, now, e', v) && v.NoRoom?
    ensures key !in e'
  {
  }

  // ----- the limits in use, and what they rest on ------------------------------------------------

  const SOURCE_LIMITS := Limits(16, 1.0, 2048, 900.0)
  const ACCOUNT_LIMITS := Limits(8, 15.0, 4096, 900.0)

  /** The limits the server runs with outlive a refill. */
  lemma ServerLimitsHold()
    ensures LimitsOk(SOURCE_LIMITS) && OutlivesRefill(SOURCE_LIMITS)
    ensures LimitsOk(ACCOUNT_LIMITS) && OutlivesRefill(ACCOUNT_LIMITS)
  {
  }
}
