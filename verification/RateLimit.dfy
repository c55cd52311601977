/**
 The fixed-window rate limiter: one counter per key, reset when its window is over and
 otherwise incremented up to a ceiling.
 */
module RateLimit {
  import opened Wrappers
  import opened Arithmetic
  import opened SessionClock

  const COUNT_CEILING: nat := 1_000_000
  const IP_REQUESTS: nat := 60
  const IP_WINDOW: Span := MINUTE
  const SUBJECT_REQUESTS: nat := 10
  const SUBJECT_WINDOW: Span := 15 * MINUTE

  datatype Bucket = Bucket(count: nat, expires: Instant)

  /** The upsert: the first request of a window sets its end, later ones only count. */
  function Hit(b: Option<Bucket>, now: Instant, window: Span): Bucket {
    if b.None? || b.value.expires <= now then Bucket(1, now + window)
    else Bucket(Min(b.value.count + 1, COUNT_CEILING), b.value.expires)
  }

  /** The advertised delay in whole seconds. */
  function RetryAfter(b: Bucket, now: Instant): nat {
    var left := if b.expires <= now then 0 else (b.expires - now + SECOND - 1) / SECOND;
    if left < 1 then 1 else left
  }

  /** The bucket after requests at the given instants, starting from none. */
  function After(window: Span, times: seq<Instant>): Option<Bucket> {
    if times == [] then None
    else Some(Hit(After(window, times[..|times| - 1]), times[|times| - 1], window))
  }

  predicate Ordered(times: seq<Instant>) {
    forall i, j | 0 <= i < j < |times| :: times[i] <= times[j]
  }

  /** The bucket that request k was answered from. */
  function Answer(window: Span, times: seq<Instant>, k: nat): Bucket
    requires k < |times|
  {
    Hit(After(window, times[..k]), times[k], window)
  }

  predicate Admitted(window: Span, max: nat, times: seq<Instant>, k: nat)
    requires k < |times|
  {
    Answer(window, times, k).count <= max
  }

  // ---- the counter counts the requests of its window

  /** How many of the requests fell into the window that ends at e. */
  function InWindow(window: Span, times: seq<Instant>, e: Instant): nat {
    if times == [] then 0
    else InWindow(window, times[..|times| - 1], e) + if Answer(window, times, |times| - 1).expires == e then 1 else 0
  }

  lemma {:induction false} CountIsPosition(window: Span, times: seq<Instant>)
    requires window > 0 && Ordered(times) && times != []
    ensures var b := After(window, times).value;
            && b.count == Min(InWindow(window, times, b.expires), COUNT_CEILING)
            && InWindow(window, times, b.expires) >= 1
            && times[|times| - 1] < b.expires
            && forall e | e > b.expires :: InWindow(window, times, e) == 0
  {
    var n := |times| - 1;
    var init := times[..n];
    assert Answer(window, times, n) == After(window, times).value;
    if init != [] {
      CountIsPosition(window, init);
      var a := After(window, init).value;
      if a.expires <= times[n] {
        assert times[n] + window > a.expires;
      }
    }
  }

  /**
   Exactly the first `max` requests of each window are admitted. The ceiling never shows,
   because `max` is below it.
   */
  lemma FixedWindowExact(window: Span, max: nat, times: seq<Instant>, k: nat)
    requires window > 0 && Ordered(times) && k < |times| && max < COUNT_CEILING
    ensures Admitted(window, max, times, k) <==> InWindow(window, times[..k], Answer(window, times, k).expires) < max
  {
    var past := times[..k + 1];
    assert past[..k] == times[..k];
    assert After(window, past).value == Answer(window, past, k) == Answer(window, times, k);
    CountIsPosition(window, past);
  }

  /** The same counter without a ceiling. */
  function Unbounded(window: Span, times: seq<Instant>): Option<Bucket> {
    if times == [] then None
    else
      var b, now := Unbounded(window, times[..|times| - 1]), times[|times| - 1];
      Some(if b.None? || b.value.expires <= now then Bucket(1, now + window) else Bucket(b.value.count + 1, b.value.expires))
  }

  /** Saturation is harmless: the saturated counter answers every comparison with `max` as the unbounded one. */
  lemma {:induction false} SaturationIsHarmless(window: Span, times: seq<Instant>, max: nat)
    requires max < COUNT_CEILING && times != []
    ensures After(window, times).value.expires == Unbounded(window, times).value.expires
    ensures After(window, times).value.count == Min(Unbounded(window, times).value.count, COUNT_CEILING)
    ensures After(window, times).value.count <= max <==> Unbounded(window, times).value.count <= max
  {
    if times[..|times| - 1] != [] {
      SaturationIsHarmless(window, times[..|times| - 1], max);
    }
  }

  // ---- how many requests get through

  /** Admitted requests with instants from lo to hi. */
  function AdmittedBetween(window: Span, max: nat, times: seq<Instant>, lo: Instant, hi: Instant): nat {
    if times == [] then 0
    else AdmittedBetween(window, max, times[..|times| - 1], lo, hi)
         + if lo <= times[|times| - 1] <= hi && Admitted(window, max, times, |times| - 1) then 1 else 0
  }

  /** Counts by where the current window began, relative to the observed span. */
  lemma {:induction false} SpanBound(window: Span, max: nat, times: seq<Instant>, x: Instant)
    requires 0 < window && 1 <= max < COUNT_CEILING && Ordered(times) && times != []
    ensures var b, n := After(window, times).value, AdmittedBetween(window, max, times, x, x + window);
            && times[|times| - 1] < b.expires <= times[|times| - 1] + window && window <= b.expires
            && n <= 2 * max
            && (b.expires <= x + window ==> n <= Min(b.count, max))
            && (b.expires <= x + 2 * window ==> n <= max + Min(b.count, max))
            && (n > 0 ==> b.expires > x)
  {
    var i := |times| - 1;
    var init := times[..i];
    assert Answer(window, times, i) == After(window, times).value;
    if init != [] {
      assert init[|init| - 1] == times[i - 1] <= times[i];
      SpanBound(window, max, init, x);
    }
  }

  /** Over any request sequence at most 2·max requests are admitted in any closed span of one window length. */
  lemma AtMostTwiceMax(window: Span, max: nat, times: seq<Instant>, x: Instant)
    requires 0 < window && 1 <= max < COUNT_CEILING && Ordered(times)
    ensures AdmittedBetween(window, max, times, x, x + window) <= 2 * max
  {
    if times != [] {
      SpanBound(window, max, times, x);
    }
  }

  /** n requests at one instant. */
  function Burst(at: Instant, n: nat): (times: seq<Instant>)
    ensures |times| == n && forall i | 0 <= i < n :: times[i] == at
  {
    if n == 0 then [] else Burst(at, n - 1) + [at]
  }

  lemma OneMore(window: Span, max: nat, times: seq<Instant>, at: Instant, lo: Instant, hi: Instant)
    ensures After(window, times + [at]) == Some(Hit(After(window, times), at, window))
    ensures AdmittedBetween(window, max, times + [at], lo, hi) ==
            AdmittedBetween(window, max, times, lo, hi) + if lo <= at <= hi && Hit(After(window, times), at, window).count <= max then 1 else 0
  {
    var all := times + [at];
    assert all[..|all| - 1] == times;
  }

  /** A burst at an instant at which no window is open: it opens one, and its requests are counted from one. */
  lemma {:induction false} BurstCounts(window: Span, max: nat, past: seq<Instant>, at: Instant, n: nat, lo: Instant, hi: Instant)
    requires window > 0 && n <= max < COUNT_CEILING && lo <= at <= hi
    requires After(window, past).Some? ==> After(window, past).value.expires <= at
    ensures n > 0 ==> After(window, past + Burst(at, n)) == Some(Bucket(n, at + window))
    ensures AdmittedBetween(window, max, past + Burst(at, n), lo, hi) == AdmittedBetween(window, max, past, lo, hi) + n
  {
    hide After, AdmittedBetween;
    if n == 0 {
      assert past + Burst(at, 0) == past;
    } else {
      BurstCounts(window, max, past, at, n - 1, lo, hi);
      var before := past + Burst(at, n - 1);
      assert n == 1 ==> before == past;
      OneMore(window, max, before, at, lo, hi);
      assert past + Burst(at, n) == before + [at];
    }
  }

  /**
   The bound is tight for every max: max requests at the first instant of a span and max at its last
   are all admitted.
   */
  lemma TwiceMaxIsReached(window: Span, max: nat, x: Instant)
    requires window > 0 && 1 <= max < COUNT_CEILING
    ensures var times := Burst(x, max) + Burst(x + window, max);
            Ordered(times) && AdmittedBetween(window, max, times, x, x + window) == 2 * max
  {
    hide After, AdmittedBetween, Ordered, Burst;
    BurstsOrdered(x, x + window, max);
    FirstBurst(window, max, x);
    BurstCounts(window, max, Burst(x, max), x + window, max, x, x + window);
  }

  lemma FirstBurst(window: Span, max: nat, x: Instant)
    requires window > 0 && 1 <= max < COUNT_CEILING
    ensures After(window, Burst(x, max)) == Some(Bucket(max, x + window))
    ensures AdmittedBetween(window, max, Burst(x, max), x, x + window) == max
  {
    NoRequests(window, max, x, x + window);
    hide After, AdmittedBetween, Burst;
    assert [] + Burst(x, max) == Burst(x, max);
    BurstCounts(window, max, [], x, max, x, x + window);
  }

  lemma NoRequests(window: Span, max: nat, lo: Instant, hi: Instant)
    ensures After(window, []) == None && AdmittedBetween(window, max, [], lo, hi) == 0
  {
  }

  lemma BurstsOrdered(x: Instant, y: Instant, n: nat)
    requires x <= y
    ensures Ordered(Burst(x, n) + Burst(y, n))
  {
    var times := Burst(x, n) + Burst(y, n);
    assert forall i | 0 <= i < |times| :: times[i] == if i < n then x else y;
  }

  /** Admitted requests of the window that ends at e. */
  function AdmittedInWindow(window: Span, max: nat, times: seq<Instant>, e: Instant): nat {
    if times == [] then 0
    else AdmittedInWindow(window, max, times[..|times| - 1], e)
         + if Answer(window, times, |times| - 1).expires == e && Admitted(window, max, times, |times| - 1) then 1 else 0
  }

  /** Each window admits the first `max` of its requests: all of them, or exactly `max`. */
  lemma {:induction false} WindowAdmitsMax(window: Span, max: nat, times: seq<Instant>, e: Instant)
    requires 0 < window && max < COUNT_CEILING && Ordered(times)
    ensures AdmittedInWindow(window, max, times, e) == Min(InWindow(window, times, e), max)
  {
    if times != [] {
      var k := |times| - 1;
      WindowAdmitsMax(window, max, times[..k], e);
      FixedWindowExact(window, max, times, k);
    }
  }

  // ---- the advertised delay

  /**
   After a refused request the advertised delay suffices, and no smaller whole number of seconds
   does: a retry after s seconds is admitted exactly when s is at least the advertised delay.
   */
  lemma RetryAfterExact(window: Span, max: nat, times: seq<Instant>, s: nat)
    requires window > 0 && Ordered(times) && times != [] && 1 <= max < COUNT_CEILING
    requires !Admitted(window, max, times, |times| - 1)
    ensures var now := times[|times| - 1];
            Admitted(window, max, times + [now + s * SECOND], |times|) <==> s >= RetryAfter(After(window, times).value, now)
  {
    var k, now := |times| - 1, times[|times| - 1];
    var b := After(window, times).value;
    assert Answer(window, times, k) == b;
    CountIsPosition(window, times);
    var retried := times + [now + s * SECOND];
    assert retried[..|times|] == times;
    CeilingDivides(b.expires - now, s);
  }

  lemma CeilingDivides(left: nat, s: nat)
    requires left > 0
    ensures left <= s * SECOND <==> s >= (left + SECOND - 1) / SECOND
    ensures (left + SECOND - 1) / SECOND >= 1
  {
  }

  // ---- the counters as they are stored

  datatype Kind = ByIp | BySubject

  /** The digest of category and value; digests do not collide. */
  datatype Key = Key(category: nat, kind: Kind, value: nat)

  datatype Verdict = Admit | Refuse(retryAfter: nat)

  function Stored(buckets: map<Key, Bucket>, key: Key): Option<Bucket> {
    if key in buckets then Some(buckets[key]) else None
  }

  class Limiter {
    var now: Instant
    var buckets: map<Key, Bucket>

    constructor ()
      ensures now == 0 && buckets == map[]
    {
      now, buckets := 0, map[];
    }

    method Limit(key: Key, max: nat, window: Span) returns (verdict: Verdict)
      requires window > 0
      modifies this`buckets
      ensures var b := Hit(Stored(old(buckets), key), now, window);
              && buckets == old(buckets)[key := b]
              && (verdict.Admit? <==> b.count <= max)
              && (verdict.Refuse? ==> verdict.retryAfter == RetryAfter(b, now))
    {
      if key !in buckets || buckets[key].expires <= now {
        buckets := buckets[key := Bucket(1, now + window)];
      } else {
        var count := buckets[key].count + 1;
        if count > COUNT_CEILING {
          count := COUNT_CEILING;
        }
        buckets := buckets[key := buckets[key].(count := count)];
      }
      var b := buckets[key];
      if b.count > max {
        return Refuse(RetryAfter(b, now));
      }
      return Admit;
    }

    /** The address is counted first; a request refused there does not touch the subject's counter. */
    method EntryLimit(category: nat, ip: nat, subject: nat) returns (verdict: Verdict)
      modifies this`buckets
      ensures var ipKey, subjectKey := Key(category, ByIp, ip), Key(category, BySubject, subject);
              var first := Hit(Stored(old(buckets), ipKey), now, IP_WINDOW);
              var second := Hit(Stored(old(buckets), subjectKey), now, SUBJECT_WINDOW);
              if first.count > IP_REQUESTS
              then verdict == Refuse(RetryAfter(first, now)) && buckets == old(buckets)[ipKey := first]
              else && buckets == old(buckets)[ipKey := first][subjectKey := second]
                   && verdict == if second.count > SUBJECT_REQUESTS then Refuse(RetryAfter(second, now)) else Admit
    {
      verdict := Limit(Key(category, ByIp, ip), IP_REQUESTS, IP_WINDOW);
      if verdict.Refuse? {
        return;
      }
      verdict := Limit(Key(category, BySubject, subject), SUBJECT_REQUESTS, SUBJECT_WINDOW);
    }
  }
}
