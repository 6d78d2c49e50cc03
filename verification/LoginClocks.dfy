/** The limiter reads its clock before it takes its lock, so checks may carry
    times that go back. What that costs: the rate of a key stays bounded if and
    only if times never go back at all. */
module LoginClocks {
  import opened Types
  import opened LoginAdmission
  import opened LoginRates

  // ----- runs whose times may go back -------------------------------------------------

  /** No check carries a time more than `d` before that of an earlier one. */
  ghost predicate GoesBackAtMost<K(!new)>(events: seq<Event<K>>, d: real) {
    forall i, j :: 0 <= i < j < |events| ==> events[i].now - d <= events[j].now
  }

  /** Checks of a new table, in the order they take the lock. */
  ghost predicate Checks<K(!new)>(c: Limits, tables: seq<Table<K>>, events: seq<Event<K>>)
    requires LimitsOk(c)
  {
    && |tables| == |events| + 1 && tables[0] == map[]
    && forall i :: 0 <= i < |events| ==>
         Check(c, tables[i], events[i].key, events[i].now, tables[i + 1], events[i].verdict)
  }

  /** All these checks carry times from `from` to `to`. */
  ghost predicate Within<K(!new)>(events: seq<Event<K>>, from: real, to: real) {
    forall i :: 0 <= i < |events| ==> from <= events[i].now <= to
  }

  /** In any stretch of checks a key gets no more than a burst and what comes
      back in the span of time they cover. */
  ghost predicate SpanBounded<K(!new)>(c: Limits, events: seq<Event<K>>)
    requires LimitsOk(c)
  {
    forall i, j, key, from, to :: 0 <= i < j <= |events| && Within(events[i..j], from, to) ==>
      Admissions(events[i..j], key) as real <= c.burst as real + Refilled(c, to - from)
  }

  ghost predicate AlwaysSpanBounded<K(!new)>(c: Limits, d: real)
    requires LimitsOk(c)
  {
    forall tables: seq<Table<K>>, events: seq<Event<K>> ::
      Checks(c, tables, events) && GoesBackAtMost(events, d) ==> SpanBounded(c, events)
  }

  // ----- times in order ------------------------------------------------------------------

  lemma RefilledGrows(c: Limits, a: real, b: real)
    requires LimitsOk(c) && a <= b
    ensures Refilled(c, a) <= Refilled(c, b)
  {
    RefilledAdds(c, a, b - a);
    RefilledCovers(c, b - a, 0.0);
    assert a + (b - a) == b;
  }

  lemma InOrderIsSpanBounded<K(!new)>(c: Limits, tables: seq<Table<K>>, events: seq<Event<K>>)
    requires LimitsOk(c) && OutlivesRefill(c) && Checks(c, tables, events) && InOrder(events)
    ensures SpanBounded(c, events)
  {
    assert Run(c, tables, events);
    RunIsRateBounded(c, tables, events);
    hide Checks, Run, Refilled, Admissions;
    forall i, j, key, from, to | 0 <= i < j <= |events| && Within(events[i..j], from, to)
      ensures Admissions(events[i..j], key) as real <= c.burst as real + Refilled(c, to - from)
    {
      assert events[i..j][0] == events[i] && events[i..j][j - i - 1] == events[j - 1];
      RefilledGrows(c, events[j - 1].now - events[i].now, to - from);
    }
  }

  // ----- times that go back ----------------------------------------------------------------

  /** How far back a check goes: one n-th of the time a token takes. */
  function Back(c: Limits, n: nat): real
    requires LimitsOk(c) && 2 <= n
  {
    c.interval / n as real
  }

  /** The part of a token that one going back brings. */
  function Gain(n: nat): real
    requires 2 <= n
  {
    1.0 / n as real
  }

  lemma Cancel(n: real, a: real, b: real)
    requires 0.0 < n && n * a == n * b
    ensures a == b
  {
    assert n * (a - b) == 0.0;
  }

  /** A fraction of a positive amount. */
  lemma Fraction(x: real, n: real)
    requires 0.0 < x && 2.0 <= n
    ensures n * (x / n) == x && 0.0 < x / n < x
  {
    var f := x / n;
    assert n * f == x;
    assert f * n == x;
    ProductSign(f, n);
    ProductSign(f, n - 1.0);
    assert f * (n - 1.0) == x - f;
  }

  lemma BackGains(c: Limits, n: nat)
    requires LimitsOk(c) && 2 <= n
    ensures Refilled(c, Back(c, n)) == Gain(n) && 0.0 < Back(c, n) < c.interval
    ensures n as real * Gain(n) == 1.0 && 0.0 < Gain(n) < 1.0
  {
    var q, b, r := Gain(n), Back(c, n), Refilled(c, Back(c, n));
    Fraction(1.0, n as real);
    Fraction(c.interval, n as real);
    assert c.interval * r == b;
    assert n as real * (c.interval * q) == (n as real * q) * c.interval;
    Cancel(n as real, c.interval * q, b);
    Cancel(c.interval, r, q);
  }

  /** Small enough steps back for any tolerance. */
  lemma SmallBack(c: Limits, d: real) returns (n: nat)
    requires LimitsOk(c) && 0.0 < d
    ensures 2 <= n && Back(c, n) <= d
  {
    var times := (c.interval / d).Floor + 2;
    assert c.interval / d > 0.0;
    n := times;
    assert n as real > c.interval / d;
    assert n as real * d >= c.interval by {
      assert (n as real - c.interval / d) * d >= 0.0;
      assert (c.interval / d) * d == c.interval;
    }
    assert (d - Back(c, n)) * n as real >= 0.0;
  }

  /** What so many goings back have brought. */
  function Brought(n: nat, k: nat): real
    requires 2 <= n
  {
    if k == 0 then 0.0 else Brought(n, k - 1) + Gain(n)
  }

  lemma {:induction false} BroughtIs(n: nat, k: nat)
    requires 2 <= n
    ensures Brought(n, k) == k as real * Gain(n)
  {
    hide Gain;
    if k > 0 {
      BroughtIs(n, k - 1);
      assert k as real * Gain(n) == (k - 1) as real * Gain(n) + Gain(n);
    }
  }

  /** Only the last of them completes a token. */
  lemma {:induction false} BroughtBelow(c: Limits, n: nat, k: nat)
    requires LimitsOk(c) && 2 <= n && k <= n
    ensures 0.0 <= Brought(n, k) <= 1.0 && (Brought(n, k) == 1.0 <==> k == n)
    decreases n - k
  {
    BackGains(c, n);
    BroughtIs(n, k);
    hide Gain, Back;
    if k < n {
      BroughtBelow(c, n, k + 1);
      assert Brought(n, k + 1) == Brought(n, k) + Gain(n);
      assert k as real * Gain(n) >= 0.0;
    }
  }

  /** Drain a key, then check it alternately one step back and now. */
  function BackEvent<K>(c: Limits, key: K, n: nat, i: nat): Event<K>
    requires LimitsOk(c) && 2 <= n
  {
    if i < c.burst then Event(key, 0.0, Admitted)
    else if (i - c.burst) % 2 == 0 then GoBack(c, key, n, (i - c.burst) / 2)
    else GoForth(c, key, n, (i - c.burst) / 2)
  }

  function GoBack<K>(c: Limits, key: K, n: nat, k: nat): Event<K>
    requires LimitsOk(c) && 2 <= n
  {
    Event(key, -Back(c, n), Throttled((1.0 - Brought(n, k)) * c.interval))
  }

  function GoForth<K>(c: Limits, key: K, n: nat, k: nat): Event<K>
    requires LimitsOk(c) && 2 <= n
  {
    Event(key, 0.0, if k + 1 == n then Admitted else Throttled((1.0 - Brought(n, k + 1)) * c.interval))
  }

  function BackTable<K(==, !new)>(c: Limits, key: K, n: nat, i: nat): Table<K>
    requires LimitsOk(c) && 2 <= n
  {
    if i == 0 then map[]
    else if i < c.burst then map[key := Bucket(c.burst as real - i as real, 0.0, 0.0)]
    else if (i - c.burst) % 2 == 0 then AfterForth(key, n, (i - c.burst) / 2)
    else AfterBack(c, key, n, (i - c.burst) / 2)
  }

  function AfterForth<K(==, !new)>(key: K, n: nat, k: nat): Table<K>
    requires 2 <= n
  {
    map[key := Bucket(if k == n then 0.0 else Brought(n, k), 0.0, 0.0)]
  }

  function AfterBack<K(==, !new)>(c: Limits, key: K, n: nat, k: nat): Table<K>
    requires LimitsOk(c) && 2 <= n
  {
    map[key := Bucket(Brought(n, k), -Back(c, n), -Back(c, n))]
  }

  /** What one check makes of the key's only bucket, when it has not expired. */
  lemma ServesOnly<K(!new)>(c: Limits, key: K, b: Bucket, now: real)
    requires LimitsOk(c) && !Expired(c, b, now)
    ensures var tokens := TokensAt(c, b, now);
      if tokens < 1.0
      then Check(c, map[key := b], key, now, map[key := Bucket(tokens, now, now)],
                 Throttled((1.0 - tokens) * c.interval))
      else Check(c, map[key := b], key, now, map[key := Bucket(tokens - 1.0, now, now)], Admitted)
  {
    assert Pruned(c, map[key := b], now) == map[key := b];
  }

  /** Draining: a bucket loses one token at each check. */
  lemma DrainStep<K(!new)>(c: Limits, key: K, n: nat, i: nat)
    requires LimitsOk(c) && 2 <= n && i < c.burst
    ensures Check(c, BackTable(c, key, n, i), key, 0.0, BackTable(c, key, n, i + 1), Admitted)
  {
    hide Gain, Back;
    if i == 0 {
      FreshLevel(c, 0.0);
      var live := Pruned(c, BackTable(c, key, n, 0), 0.0);
      assert live == map[];
      assert live[key := Fresh(c, 0.0)] == map[key := Fresh(c, 0.0)];
      assert BackTable(c, key, n, 1) == map[key := Bucket(c.burst as real - 1.0, 0.0, 0.0)];
    } else {
      var tokens := c.burst as real - i as real;
      WrittenLevel(c, tokens, 0.0);
      ServesOnly(c, key, Bucket(tokens, 0.0, 0.0), 0.0);
      assert BackTable(c, key, n, i) == map[key := Bucket(tokens, 0.0, 0.0)];
      assert BackTable(c, key, n, i + 1) == map[key := Bucket(tokens - 1.0, 0.0, 0.0)];
    }
  }

  lemma TokensBackThen(c: Limits, tokens: real, back: real)
    requires LimitsOk(c) && 0.0 <= tokens <= 1.0 && 0.0 < back
    ensures TokensAt(c, Bucket(tokens, 0.0, 0.0), -back) == tokens
  {
    RefilledCovers(c, 0.0, 0.0);
    RefilledAdds(c, 0.0, 0.0);
  }

  /** Going back: nothing comes back, and the bucket forgets when it was. */
  lemma BackStep<K(!new)>(c: Limits, key: K, n: nat, k: nat)
    requires LimitsOk(c) && 2 <= n && k < n
    ensures var e := GoBack(c, key, n, k);
      Check(c, AfterForth(key, n, k), key, e.now, AfterBack(c, key, n, k), e.verdict)
  {
    BroughtBelow(c, n, k);
    BackGains(c, n);
    hide Back, Gain, Brought, TokensAt, Check;
    TokensBackThen(c, Brought(n, k), Back(c, n));
    ServesOnly(c, key, Bucket(Brought(n, k), 0.0, 0.0), -Back(c, n));
  }

  lemma TokensForth(c: Limits, n: nat, k: nat)
    requires LimitsOk(c) && 2 <= n && k < n
    ensures TokensAt(c, Bucket(Brought(n, k), -Back(c, n), -Back(c, n)), 0.0) == Brought(n, k + 1)
  {
    BroughtBelow(c, n, k + 1);
    BackGains(c, n);
    hide Back, Gain, Refilled;
    assert Since(0.0, -Back(c, n)) == Back(c, n);
  }

  lemma IntervalFitsTtl(c: Limits)
    requires LimitsOk(c) && OutlivesRefill(c)
    ensures c.interval <= c.ttl
  {
    assert (c.burst as real - 1.0) * c.interval >= 0.0;
  }

  /** And forth: the same step of time refills the bucket again. */
  lemma ForthStep<K(!new)>(c: Limits, key: K, n: nat, k: nat)
    requires LimitsOk(c) && OutlivesRefill(c) && 2 <= n && k < n
    ensures var e := GoForth(c, key, n, k);
      Check(c, AfterBack(c, key, n, k), key, e.now, AfterForth(key, n, k + 1), e.verdict)
  {
    BroughtBelow(c, n, k + 1);
    BackGains(c, n);
    TokensForth(c, n, k);
    IntervalFitsTtl(c);
    hide Back, Gain, Brought, TokensAt, Check, OutlivesRefill;
    ServesOnly(c, key, Bucket(Brought(n, k), -Back(c, n), -Back(c, n)), 0.0);
  }

  function BackEvents<K>(c: Limits, key: K, n: nat): (events: seq<Event<K>>)
    requires LimitsOk(c) && 2 <= n
    ensures |events| == c.burst + 2 * n && forall i :: 0 <= i < |events| ==> events[i] == BackEvent(c, key, n, i)
  {
    seq(c.burst + 2 * n, i requires 0 <= i < c.burst + 2 * n => BackEvent(c, key, n, i))
  }

  function BackTables<K(==, !new)>(c: Limits, key: K, n: nat): (tables: seq<Table<K>>)
    requires LimitsOk(c) && 2 <= n
    ensures |tables| == c.burst + 2 * n + 1
    ensures forall i :: 0 <= i < |tables| ==> tables[i] == BackTable(c, key, n, i)
  {
    seq(c.burst + 2 * n + 1, i requires 0 <= i < c.burst + 2 * n + 1 => BackTable(c, key, n, i))
  }

  lemma BackChecks<K(!new)>(c: Limits, key: K, n: nat)
    requires LimitsOk(c) && OutlivesRefill(c) && 2 <= n
    ensures Checks(c, BackTables(c, key, n), BackEvents(c, key, n))
    ensures Within(BackEvents(c, key, n), -Back(c, n), 0.0)
  {
    BackGains(c, n);
    hide Check, Back, Gain, Brought;
    var tables, events := BackTables(c, key, n), BackEvents(c, key, n);
    forall i | 0 <= i < c.burst + 2 * n
      ensures Check(c, tables[i], events[i].key, events[i].now, tables[i + 1], events[i].verdict)
    {
      BackCheck(c, key, n, i);
    }
  }

  lemma BackCheck<K(!new)>(c: Limits, key: K, n: nat, i: nat)
    requires LimitsOk(c) && OutlivesRefill(c) && 2 <= n && i < c.burst + 2 * n
    ensures var e := BackEvent(c, key, n, i);
      e.key == key && Check(c, BackTable(c, key, n, i), key, e.now, BackTable(c, key, n, i + 1), e.verdict)
  {
    hide Check, Back, Gain, Brought, AfterBack, AfterForth, OutlivesRefill;
    if i < c.burst {
      DrainStep(c, key, n, i);
    } else {
      var k := (i - c.burst) / 2;
      if (i - c.burst) % 2 == 0 {
        assert (i + 1 - c.burst) / 2 == k && (i + 1 - c.burst) % 2 == 1;
        BackStep(c, key, n, k);
      } else {
        assert (i + 1 - c.burst) / 2 == k + 1 && (i + 1 - c.burst) % 2 == 0;
        ForthStep(c, key, n, k);
      }
    }
  }

  /** The whole schedule admits a burst and one more. */
  lemma {:induction false} BackAdmissions<K(!new)>(c: Limits, key: K, n: nat, i: nat)
    requires LimitsOk(c) && 2 <= n && i <= c.burst + 2 * n
    ensures Admissions(BackEvents(c, key, n)[..i], key)
         == if i <= c.burst then i else if i < c.burst + 2 * n then c.burst else c.burst + 1
  {
    hide Back, Gain, Brought;
    if i > 0 {
      BackAdmissions(c, key, n, i - 1);
      assert BackEvents(c, key, n)[..i][..i - 1] == BackEvents(c, key, n)[..i - 1];
    }
  }

  /** For all limits, and however little times may go back, some run lets a key
      get more than a burst and what the time it covers brings back. */
  lemma GoingBackRefillsTwice<K(!new)>(c: Limits, key: K, d: real)
    returns (tables: seq<Table<K>>, events: seq<Event<K>>)
    requires LimitsOk(c) && OutlivesRefill(c) && 0.0 < d
    ensures Checks(c, tables, events) && GoesBackAtMost(events, d) && !SpanBounded(c, events)
  {
    var n := SmallBack(c, d);
    BackGains(c, n);
    BackChecks(c, key, n);
    tables, events := BackTables(c, key, n), BackEvents(c, key, n);
    BackAdmissions(c, key, n, |events|);
    hide Checks, Back, Gain, Refilled, BackEvents, BackTables, Admissions;
    assert events[0..|events|] == events && events[..|events|] == events;
    var spent := Admissions(events[0..|events|], key) as real;
    assert spent == c.burst as real + 1.0;
    assert 0.0 - (-Back(c, n)) == Back(c, n);
    assert !(spent <= c.burst as real + Refilled(c, 0.0 - (-Back(c, n))));
  }

  /** The rate of every key is bounded in every run whose times go back by no
      more than `d` exactly when `d` is zero. */
  lemma SpanBoundedIff<K(!new)>(c: Limits, key: K, d: real)
    requires LimitsOk(c) && OutlivesRefill(c) && 0.0 <= d
    ensures AlwaysSpanBounded<K>(c, d) <==> d == 0.0
  {
    if d == 0.0 {
      forall tables: seq<Table<K>>, events: seq<Event<K>> | Checks(c, tables, events) && GoesBackAtMost(events, d)
        ensures SpanBounded(c, events)
      {
        InOrderIsSpanBounded(c, tables, events);
      }
    } else {
      var tables, events := GoingBackRefillsTwice(c, key, d);
    }
  }
}
