/**
 The GCRA rate limiter: the virtual scheduling algorithm of Annex A of ITU-T Recommendation
 I.371, kept in one Redis key that holds the theoretical arrival time (TAT) and expires.
 Times are reals; the float rounding of the Lua script is outside the model.
 */
module RateLimit {
  import opened Wrappers

  /** What the script is called with: the emission interval and the burst tolerance, in seconds. */
  datatype Pace = Pace(interval: real, tolerance: real) {
    predicate Valid() { interval > 0.0 && tolerance >= 0.0 }
  }

  /** A configured limit; the admin may set any numbers. */
  datatype Limit = Limit(perMinute: int, burst: int) {
    function Burst(): nat { if burst < 0 then 0 else burst }

    function AsPace(): (p: Pace)
      requires perMinute > 0
      ensures p.Valid()
    {
      Pace(60.0 / perMinute as real, 60.0 / perMinute as real * Burst() as real)
    }
  }

  function Ceil(x: real): int { -((-x).Floor) }

  // ------------------------------------------------------------------ the algorithm

  /** The TAT a request at `now` is judged by. */
  function Arrival(tat: Option<real>, now: real): real {
    if tat.None? || tat.value < now then now else tat.value
  }

  predicate Allows(p: Pace, tat: Option<real>, now: real) {
    Arrival(tat, now) - now <= p.tolerance
  }

  function NextTat(p: Pace, tat: Option<real>, now: real): Option<real> {
    if Allows(p, tat, now) then Some(Arrival(tat, now) + p.interval) else tat
  }

  // ------------------------------------------------------------------ the key and its expiry

  datatype Key = Key(tat: real, expires: real)

  /** GET: nothing once the key has expired. */
  function Read(key: Option<Key>, now: real): Option<real> {
    if key.Some? && now < key.value.expires then Some(key.value.tat) else None
  }

  /** Every SET leaves a TAT that lies in the past when the key goes. */
  predicate OutlivedByKey(key: Option<Key>) {
    key.Some? ==> key.value.tat < key.value.expires
  }

  /** The whole seconds of an EX: one more than the next whole number of seconds. */
  predicate Lasts(seconds: real, needed: real) {
    seconds == seconds.Floor as real && needed + 1.0 <= seconds < needed + 2.0
  }

  class Limiter {
    var key: Option<Key>

    constructor ()
      ensures key.None?
    {
      key := None;
    }

    /** GCRA_LUA: one request at the Redis server's `now`. */
    method Script(p: Pace, now: real) returns (allowed: bool, retryAfter: real)
      requires p.Valid() && OutlivedByKey(key)
      modifies this
      ensures OutlivedByKey(key) && key == NextKey(p, old(key), now)
      ensures allowed == Allows(p, Read(old(key), now), now)
      ensures Read(key, now) == NextTat(p, Read(old(key), now), now)
      ensures retryAfter == if allowed then 0.0 else RetryAfter(p, Read(old(key), now), now)
      ensures !allowed ==> key == old(key)
      ensures allowed ==> key.Some? && Lasts(key.value.expires - now, p.tolerance + p.interval)
    {
      var tat := Read(key, now);
      if tat.None? || tat.value < now { tat := Some(now); }
      if tat.value - now > p.tolerance { return false, tat.value - p.tolerance - now; }
      LastsThatLong(now, p.tolerance + p.interval);
      key := Some(Key(tat.value + p.interval, now + (Ceil(p.tolerance + p.interval) + 1) as real));
      return true, 0.0;
    }

    /** A misconfigured rate denies everything for a minute at a time. */
    method Check(l: Limit, now: real) returns (allowed: bool, retryAfter: real)
      requires OutlivedByKey(key)
      modifies this
      ensures OutlivedByKey(key)
      ensures l.perMinute <= 0 ==> !allowed && retryAfter == 60.0 && key == old(key)
      ensures l.perMinute > 0 ==>
        && allowed == Allows(l.AsPace(), Read(old(key), now), now)
        && allowed == WithinBurst(l, Read(old(key), now), now)
        && key == NextKey(l.AsPace(), old(key), now)
        && retryAfter == if allowed then 0.0 else RetryAfter(l.AsPace(), Read(old(key), now), now)
    {
      if l.perMinute <= 0 { return false, 60.0; }
      AllowsWithinBurst(l, Read(key, now), now);
      allowed, retryAfter := Script(l.AsPace(), now);
    }
  }

  /** The TAT is no more than max(burst, 0) intervals of 60 / perMinute seconds ahead. */
  predicate WithinBurst(l: Limit, tat: Option<real>, now: real)
    requires l.perMinute > 0
  {
    tat.None? || tat.value <= now + 60.0 / l.perMinute as real * (if l.burst < 0 then 0 else l.burst) as real
  }

  /** An allowed request takes one interval of 60 / perMinute seconds. */
  lemma AllowedTakesAnInterval(l: Limit, tat: Option<real>, now: real)
    requires l.perMinute > 0 && WithinBurst(l, tat, now)
    ensures NextTat(l.AsPace(), tat, now) ==
      Some((if tat.None? || tat.value < now then now else tat.value) + 60.0 / l.perMinute as real)
  {
    AllowsWithinBurst(l, tat, now);
  }

  lemma AllowsWithinBurst(l: Limit, tat: Option<real>, now: real)
    requires l.perMinute > 0
    ensures Allows(l.AsPace(), tat, now) <==> WithinBurst(l, tat, now)
  {
    var t, n := 60.0 / l.perMinute as real, (if l.burst < 0 then 0 else l.burst) as real;
    assert t > 0.0 && n >= 0.0;
    assert t * n >= 0.0;
  }

  function RetryAfter(p: Pace, tat: Option<real>, now: real): real {
    Arrival(tat, now) - p.tolerance - now
  }

  lemma CeilIsAbove(x: real)
    ensures x <= Ceil(x) as real < x + 1.0
  {
  }

  lemma LastsThatLong(now: real, needed: real)
    ensures var expires := now + (Ceil(needed) + 1) as real; Lasts(expires - now, needed) && now + needed < expires
  {
    CeilIsAbove(needed);
    var whole := Ceil(needed) + 1;
    assert (now + whole as real) - now == whole as real && (whole as real).Floor == whole;
  }

  /** One request against a key that expires, as a function of the stored key. */
  function NextKey(p: Pace, key: Option<Key>, now: real): Option<Key> {
    var tat := Read(key, now);
    if Allows(p, tat, now)
    then Some(Key(Arrival(tat, now) + p.interval, now + (Ceil(p.tolerance + p.interval) + 1) as real))
    else key
  }

  predicate NonDecreasing(times: seq<real>) {
    forall i, j :: 0 <= i < j < |times| ==> times[i] <= times[j]
  }

  function Decisions(p: Pace, tat: Option<real>, times: seq<real>): (ds: seq<bool>)
    ensures |ds| == |times|
    decreases |times|
  {
    if times == [] then []
    else [Allows(p, tat, times[0])] + Decisions(p, NextTat(p, tat, times[0]), times[1..])
  }

  /** A request, and the pace configured when it comes: an admin may change the limit at any time. */
  datatype Request = Request(pace: Pace, now: real)

  function At(p: Pace, times: seq<real>): (rs: seq<Request>)
    ensures |rs| == |times|
  {
    seq(|times|, i requires 0 <= i < |times| => Request(p, times[i]))
  }

  function LastingDecisions(tat: Option<real>, rs: seq<Request>): seq<bool>
    decreases |rs|
  {
    if rs == [] then []
    else [Allows(rs[0].pace, tat, rs[0].now)] + LastingDecisions(NextTat(rs[0].pace, tat, rs[0].now), rs[1..])
  }

  function ExpiringDecisions(key: Option<Key>, rs: seq<Request>): seq<bool>
    decreases |rs|
  {
    if rs == [] then []
    else
      [Allows(rs[0].pace, Read(key, rs[0].now), rs[0].now)] +
      ExpiringDecisions(NextKey(rs[0].pace, key, rs[0].now), rs[1..])
  }

  lemma {:induction false} OnePace(p: Pace, tat: Option<real>, times: seq<real>)
    ensures LastingDecisions(tat, At(p, times)) == Decisions(p, tat, times)
    decreases |times|
  {
    if times != [] {
      assert At(p, times)[1..] == At(p, times[1..]);
      OnePace(p, NextTat(p, tat, times[0]), times[1..]);
    }
  }

  /** The same TAT, with and without expiry. */
  predicate SameTat(key: Option<Key>, tat: Option<real>) {
    && OutlivedByKey(key)
    && (key.Some? <==> tat.Some?)
    && (key.Some? ==> key.value.tat == tat.value)
  }

  lemma ExpiredKeyReadsTheSame(p: Pace, key: Option<Key>, tat: Option<real>, now: real)
    requires p.Valid() && SameTat(key, tat)
    ensures Arrival(Read(key, now), now) == Arrival(tat, now)
    ensures SameTat(NextKey(p, key, now), NextTat(p, tat, now))
  {
  }

  /** On every request history, with the pace of each request its own, the expiring key decides
      exactly as one that never expires. */
  lemma {:induction false} ExpiryIsInvisible(key: Option<Key>, tat: Option<real>, rs: seq<Request>)
    requires SameTat(key, tat) && forall i :: 0 <= i < |rs| ==> rs[i].pace.Valid()
    ensures ExpiringDecisions(key, rs) == LastingDecisions(tat, rs)
    decreases |rs|
  {
    if rs != [] {
      var p, now := rs[0].pace, rs[0].now;
      ExpiredKeyReadsTheSame(p, key, tat, now);
      ExpiryIsInvisible(NextKey(p, key, now), NextTat(p, tat, now), rs[1..]);
    }
  }

  // ------------------------------------------------------------------ how much gets through

  function Count(allowed: seq<bool>): nat {
    if allowed == [] then 0 else (if allowed[0] then 1 else 0) + Count(allowed[1..])
  }

  function AfterAll(p: Pace, tat: Option<real>, times: seq<real>): Option<real>
    decreases |times|
  {
    if times == [] then tat else AfterAll(p, NextTat(p, tat, times[0]), times[1..])
  }

  /** n intervals, one after the other. */
  ghost function Span(n: nat, t: real): real {
    if n == 0 then 0.0 else Span(n - 1, t) + t
  }

  lemma {:induction false} SpanIsProduct(n: nat, t: real)
    ensures Span(n, t) == n as real * t
  {
    if n > 0 {
      SpanIsProduct(n - 1, t);
      assert n as real == (n - 1) as real + 1.0;
      assert ((n - 1) as real + 1.0) * t == (n - 1) as real * t + t;
    }
  }

  lemma FirstDecision(p: Pace, tat: Option<real>, times: seq<real>)
    requires times != []
    ensures Count(Decisions(p, tat, times)) ==
      (if Allows(p, tat, times[0]) then 1 else 0) + Count(Decisions(p, NextTat(p, tat, times[0]), times[1..]))
  {
  }

  /** n requests allowed from TAT v onwards push the TAT n - 1 intervals, and it never gets more than
      the tolerance ahead. */
  lemma {:induction false} TatOutruns(p: Pace, v: real, times: seq<real>, hi: real)
    requires p.Valid() && forall i :: 0 <= i < |times| ==> times[i] <= hi
    ensures var n := Count(Decisions(p, Some(v), times));
      n > 0 ==> v + Span(n - 1, p.interval) <= hi + p.tolerance
    decreases |times|
  {
    if times != [] {
      FirstDecision(p, Some(v), times);
      var next := NextTat(p, Some(v), times[0]).value;
      TatOutruns(p, next, times[1..], hi);
    }
  }

  lemma {:induction false} WindowSpan(p: Pace, tat: Option<real>, times: seq<real>, lo: real, hi: real)
    requires p.Valid() && forall i :: 0 <= i < |times| ==> lo <= times[i] <= hi
    ensures var n := Count(Decisions(p, tat, times));
      n > 0 ==> Span(n - 1, p.interval) <= hi - lo + p.tolerance
    decreases |times|
  {
    if times != [] {
      FirstDecision(p, tat, times);
      if Allows(p, tat, times[0]) {
        TatOutruns(p, Arrival(tat, times[0]) + p.interval, times[1..], hi);
      } else {
        WindowSpan(p, tat, times[1..], lo, hi);
      }
    }
  }

  lemma IntegerQuotient(m: int, b: nat, w: real, t: real)
    requires t > 0.0 && m as real * t <= w + b as real * t
    ensures m <= b + (w / t).Floor
  {
    var d, q := m - b, w / t;
    assert d as real == m as real - b as real;
    assert d as real * t == m as real * t - b as real * t;
    assert q * t == w;
    assert (d as real - q) * t <= 0.0;
    assert d as real - q <= 0.0 by { NonPositive(d as real - q, t); }
  }

  lemma NonPositive(x: real, t: real)
    requires t > 0.0 && x * t <= 0.0
    ensures x <= 0.0
  {
  }

  lemma PaceWindowBound(p: Pace, burst: nat, tat: Option<real>, times: seq<real>, i: nat, j: nat, w: real)
    requires p.Valid() && p.tolerance == p.interval * burst as real && NonDecreasing(times)
    requires i < j <= |times| && times[j - 1] - times[i] <= w
    ensures Count(Decisions(p, tat, times)[i..j]) <= burst + 1 + (w / p.interval).Floor
  {
    WindowOfHistory(p, tat, times, i, j);
    var n := Count(Decisions(p, AfterAll(p, tat, times[..i]), times[i..j]));
    WindowSpan(p, AfterAll(p, tat, times[..i]), times[i..j], times[i], times[i] + w);
    assert times[i] <= times[j - 1];
    SpanFits(if n > 0 then n - 1 else 0, burst, w, p);
  }

  lemma SpanFits(m: nat, burst: nat, w: real, p: Pace)
    requires p.Valid() && p.tolerance == p.interval * burst as real && Span(m, p.interval) <= w + p.tolerance
    ensures m <= burst + (w / p.interval).Floor
  {
    SpanIsProduct(m, p.interval);
    IntegerQuotient(m, burst, w, p.interval);
  }

  /** Seconds over the interval are seconds times the rate per minute over 60. */
  lemma IntervalsIn(l: Limit, w: real)
    requires l.perMinute > 0
    ensures w / l.AsPace().interval == w * l.perMinute as real / 60.0
  {
    var r, t := l.perMinute as real, 60.0 / l.perMinute as real;
    assert t * r == 60.0;
    assert (w / t) * t == w;
    assert (w / t) * 60.0 == w * r by { assert (w / t) * (t * r) == w * r; }
  }

  /** Whatever the TAT at its start, a window of `w` seconds lets at most burst + 1 requests through,
      and one more for each 60 / perMinute seconds in it. */
  lemma WindowBound(l: Limit, tat: Option<real>, times: seq<real>, i: nat, j: nat, w: real)
    requires l.perMinute > 0 && NonDecreasing(times)
    requires i < j <= |times| && times[j - 1] - times[i] <= w
    ensures Count(Decisions(l.AsPace(), tat, times)[i..j]) <=
      (if l.burst < 0 then 0 else l.burst) + 1 + (w * l.perMinute as real / 60.0).Floor
  {
    IntervalsIn(l, w);
    PaceWindowBound(l.AsPace(), l.Burst(), tat, times, i, j, w);
  }

  /** So does the limiter itself, whose key expires. */
  lemma LimiterWindowBound(l: Limit, key: Option<Key>, tat: Option<real>, times: seq<real>, i: nat, j: nat, w: real)
    requires l.perMinute > 0 && NonDecreasing(times) && SameTat(key, tat)
    requires i < j <= |times| && times[j - 1] - times[i] <= w
    ensures |ExpiringDecisions(key, At(l.AsPace(), times))| == |times|
    ensures Count(ExpiringDecisions(key, At(l.AsPace(), times))[i..j]) <=
      (if l.burst < 0 then 0 else l.burst) + 1 + (w * l.perMinute as real / 60.0).Floor
  {
    ExpiryIsInvisible(key, tat, At(l.AsPace(), times));
    OnePace(l.AsPace(), tat, times);
    WindowBound(l, tat, times, i, j, w);
  }

  /** A client that leaves 60 / perMinute seconds between its requests is never denied. */
  lemma SpacedRequestsPass(l: Limit, times: seq<real>, k: nat)
    requires l.perMinute > 0 && k < |times|
    requires forall i :: 0 <= i < |times| - 1 ==> times[i] + 60.0 / l.perMinute as real <= times[i + 1]
    ensures |ExpiringDecisions(None, At(l.AsPace(), times))| == |times|
    ensures ExpiringDecisions(None, At(l.AsPace(), times))[k]
  {
    ExpiryIsInvisible(None, None, At(l.AsPace(), times));
    OnePace(l.AsPace(), None, times);
    SpacedFrom(l.AsPace(), None, times, k);
  }

  lemma {:induction false} SpacedFrom(p: Pace, tat: Option<real>, times: seq<real>, k: nat)
    requires p.Valid() && k < |times| && (tat.None? || tat.value <= times[0])
    requires forall i :: 0 <= i < |times| - 1 ==> times[i] + p.interval <= times[i + 1]
    ensures Decisions(p, tat, times)[k]
    decreases |times|
  {
    if k > 0 {
      assert times[1..][0] == times[1];
      SpacedFrom(p, NextTat(p, tat, times[0]), times[1..], k - 1);
    }
  }

  lemma {:induction false} DecisionsSplit(p: Pace, tat: Option<real>, a: seq<real>, b: seq<real>)
    ensures Decisions(p, tat, a + b) == Decisions(p, tat, a) + Decisions(p, AfterAll(p, tat, a), b)
    decreases |a|
  {
    if a == [] {
      assert a + b == b;
    } else {
      assert (a + b)[0] == a[0] && (a + b)[1..] == a[1..] + b;
      DecisionsSplit(p, NextTat(p, tat, a[0]), a[1..], b);
    }
  }

  /** A window's decisions are those of a history that starts with the TAT found there. */
  lemma WindowOfHistory(p: Pace, tat: Option<real>, times: seq<real>, i: nat, j: nat)
    requires i <= j <= |times|
    ensures Decisions(p, tat, times)[i..j] == Decisions(p, AfterAll(p, tat, times[..i]), times[i..j])
  {
    var mid := AfterAll(p, tat, times[..i]);
    assert times == times[..i] + (times[i..j] + times[j..]);
    DecisionsSplit(p, tat, times[..i], times[i..j] + times[j..]);
    DecisionsSplit(p, mid, times[i..j], times[j..]);
    DecisionsSplit(p, AfterAll(p, mid, times[i..j]), times[j..], []);
  }

  /** The bound is reached: from an unused key exactly burst + 1 requests at once are allowed. */
  lemma InstantBurst(l: Limit, now: real, times: seq<real>)
    requires l.perMinute > 0 && forall i :: 0 <= i < |times| ==> times[i] == now
    ensures var most := (if l.burst < 0 then 0 else l.burst) + 1;
      Count(Decisions(l.AsPace(), None, times)) == if |times| < most then |times| else most
  {
    InstantBurstOf(l, now, times);
  }

  lemma InstantBurstOf(l: Limit, now: real, times: seq<real>)
    requires l.perMinute > 0 && forall i :: 0 <= i < |times| ==> times[i] == now
    ensures Count(Decisions(l.AsPace(), None, times)) == if |times| < l.Burst() + 1 then |times| else l.Burst() + 1
  {
    SpanIsProduct(l.Burst(), l.AsPace().interval);
    InstantBurstFrom(l.AsPace(), l.Burst(), now, 0, None, times);
  }

  lemma {:induction false} InstantBurstFrom(p: Pace, burst: nat, now: real, used: nat, tat: Option<real>,
                                            times: seq<real>)
    requires p.Valid() && p.tolerance == Span(burst, p.interval) && used <= burst + 1
    requires Arrival(tat, now) == now + Span(used, p.interval) && forall i :: 0 <= i < |times| ==> times[i] == now
    ensures Count(Decisions(p, tat, times)) == if |times| < burst + 1 - used then |times| else burst + 1 - used
    decreases |times|
  {
    if times != [] {
      FirstDecision(p, tat, times);
      if used <= burst {
        SpanGrows(used, burst, p.interval);
        SpanGrows(0, used + 1, p.interval);
        InstantBurstFrom(p, burst, now, used + 1, NextTat(p, tat, now), times[1..]);
      } else {
        InstantBurstFrom(p, burst, now, used, tat, times[1..]);
      }
    }
  }

  lemma {:induction false} SpanGrows(m: nat, n: nat, t: real)
    requires m <= n && t > 0.0
    ensures Span(m, t) <= Span(n, t)
  {
    if m < n { SpanGrows(m, n - 1, t); }
  }

  /** A denied request's retry_after is exact: with no request allowed in between, a retry is
      allowed if and only if that much time has passed. */
  lemma RetryAfterIsExact(p: Pace, key: Option<Key>, now: real, retry: real)
    requires p.Valid() && OutlivedByKey(key) && !Allows(p, Read(key, now), now) && now <= retry
    ensures Allows(p, Read(key, retry), retry) <==> now + RetryAfter(p, Read(key, now), now) <= retry
  {
  }

  function KeyAfter(p: Pace, key: Option<Key>, times: seq<real>): Option<Key>
    decreases |times|
  {
    if times == [] then key else KeyAfter(p, NextKey(p, key, times[0]), times[1..])
  }

  /** However often a denied client retries before its retry_after is over, it is denied, the key
      does not move, and the first retry at or after it is allowed. */
  lemma {:induction false} DeniedUntilRetryAfter(p: Pace, key: Option<Key>, now: real, retries: seq<real>, at: real)
    requires p.Valid() && OutlivedByKey(key) && !Allows(p, Read(key, now), now)
    requires forall i :: 0 <= i < |retries| ==> now <= retries[i] < now + RetryAfter(p, Read(key, now), now)
    requires now + RetryAfter(p, Read(key, now), now) <= at
    ensures Count(ExpiringDecisions(key, At(p, retries))) == 0 && KeyAfter(p, key, retries) == key
    ensures Allows(p, Read(KeyAfter(p, key, retries), at), at)
    decreases |retries|
  {
    RetryAfterIsExact(p, key, now, at);
    if retries != [] {
      RetryAfterIsExact(p, key, now, retries[0]);
      DeniedUntilRetryAfter(p, key, now, retries[1..], at);
      assert At(p, retries)[1..] == At(p, retries[1..]);
      assert ExpiringDecisions(key, At(p, retries))[1..] == ExpiringDecisions(key, At(p, retries[1..]));
    }
  }
}
