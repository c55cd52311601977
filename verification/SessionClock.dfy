/**
 The idle and absolute limits of one login session, and the throttled renewal that
 every authenticated request performs. All instants and spans are nanoseconds.
 */
module SessionClock {
  import opened Arithmetic

  type Instant = nat
  type Span = nat

  const MILLISECOND: Span := 1_000_000
  const SECOND: Span := 1_000_000_000
  const MINUTE: Span := 60 * SECOND

  /** The service options that govern sessions. */
  datatype Limits = Limits(idleTtl: Span, maxTtl: Span)

  /** What the service constructor accepts. */
  predicate ValidLimits(l: Limits) {
    MINUTE <= l.idleTtl <= l.maxTtl
  }

  /** The idle span that reaches the database: whole seconds. */
  function IdleSpan(l: Limits): Span {
    l.idleTtl / SECOND * SECOND
  }

  /** The absolute span that reaches the database: whole seconds. */
  function MaxSpan(l: Limits): Span {
    l.maxTtl / SECOND * SECOND
  }

  /** A session is written back at most once per this interval. */
  function RenewalInterval(l: Limits): Span {
    Min(MINUTE, l.idleTtl / 2)
  }

  /** The same threshold as the database sees it: whole milliseconds. */
  function RenewalThreshold(l: Limits): Span {
    RenewalInterval(l) / MILLISECOND * MILLISECOND
  }

  datatype Timing = Timing(createdAt: Instant, lastSeen: Instant, idleExpires: Instant, absoluteExpires: Instant)

  /** The timing of a session inserted now. */
  function Started(l: Limits, now: Instant): Timing {
    Timing(now, now, now + IdleSpan(l), now + MaxSpan(l))
  }

  predicate Open(t: Timing, now: Instant) {
    t.idleExpires > now && t.absoluteExpires > now
  }

  /** The conditional renewal statement. */
  function Touched(l: Limits, t: Timing, now: Instant): Timing {
    if t.lastSeen + RenewalThreshold(l) <= now && Open(t, now)
    then t.(lastSeen := now, idleExpires := Min(t.absoluteExpires, now + IdleSpan(l)))
    else t
  }

  /** One authenticated request: refuse a closed session, otherwise renew it when the interval has passed. */
  function Authenticated(l: Limits, t: Timing, now: Instant): Timing {
    if Open(t, now) && t.lastSeen + RenewalInterval(l) <= now then Touched(l, t, now) else t
  }

  /** The timing after requests at the given instants. */
  function After(l: Limits, t: Timing, requests: seq<Instant>): Timing {
    if requests == [] then t
    else Authenticated(l, After(l, t, requests[..|requests| - 1]), requests[|requests| - 1])
  }

  /** Request k of the sequence is accepted. */
  predicate Accepted(l: Limits, t: Timing, requests: seq<Instant>, k: nat)
    requires k < |requests|
  {
    Open(After(l, t, requests[..k]), requests[k])
  }

  /** The relation that renewal maintains between the three recorded instants. */
  predicate Regular(l: Limits, t: Timing) {
    && t.idleExpires == Min(t.absoluteExpires, t.lastSeen + IdleSpan(l))
    && t.createdAt <= t.lastSeen <= t.absoluteExpires
    && t.absoluteExpires == t.createdAt + MaxSpan(l)
  }

  lemma SpansOrdered(l: Limits)
    requires ValidLimits(l)
    ensures MINUTE <= IdleSpan(l) <= MaxSpan(l)
    ensures IdleSpan(l) <= l.idleTtl < IdleSpan(l) + SECOND && IdleSpan(l) % SECOND == 0
    ensures MaxSpan(l) <= l.maxTtl < MaxSpan(l) + SECOND && MaxSpan(l) % SECOND == 0
    ensures MINUTE / 2 <= RenewalInterval(l) <= MINUTE && RenewalInterval(l) <= IdleSpan(l)
    ensures RenewalInterval(l) == MINUTE || RenewalInterval(l) == l.idleTtl / 2
    ensures RenewalThreshold(l) <= RenewalInterval(l) < RenewalThreshold(l) + MILLISECOND && RenewalInterval(l) <= l.idleTtl / 2
  {
    var i, m := l.idleTtl / SECOND, l.maxTtl / SECOND;
    assert i >= 60;
    assert i <= m;
  }

  lemma StartedRegular(l: Limits, now: Instant)
    requires ValidLimits(l)
    ensures Regular(l, Started(l, now))
    ensures Open(Started(l, now), now)
  {
    SpansOrdered(l);
  }

  lemma TouchedRegular(l: Limits, t: Timing, now: Instant)
    requires Regular(l, t)
    ensures Regular(l, Touched(l, t, now))
  {
  }

  /** The instant before request k: the previous request, or the creation of the session. */
  function Previous(start: Instant, requests: seq<Instant>, k: nat): Instant
    requires k <= |requests|
  {
    if k == 0 then start else requests[k - 1]
  }

  /** A sequence of requests in time order, none before the session exists. */
  predicate Ordered(start: Instant, requests: seq<Instant>) {
    forall k | 0 <= k < |requests| :: Previous(start, requests, k) <= requests[k]
  }

  /** Consecutive requests (and the first one, counted from the start) are at most `gap` apart. */
  predicate Spaced(start: Instant, requests: seq<Instant>, gap: Span) {
    && Ordered(start, requests)
    && forall k | 0 <= k < |requests| :: requests[k] <= Previous(start, requests, k) + gap
  }

  function Last(start: Instant, requests: seq<Instant>): Instant {
    Previous(start, requests, |requests|)
  }

  /** The idle limit tracks the last renewal at every point of every request sequence. */
  lemma {:induction false} AlwaysRegular(l: Limits, start: Instant, requests: seq<Instant>)
    requires ValidLimits(l)
    requires Ordered(start, requests)
    ensures Regular(l, After(l, Started(l, start), requests))
    ensures After(l, Started(l, start), requests).lastSeen <= Last(start, requests)
    ensures After(l, Started(l, start), requests).createdAt == start
  {
    SpansOrdered(l);
    if requests == [] {
      StartedRegular(l, start);
    } else {
      var n := |requests| - 1;
      var init := requests[..n];
      assert forall k | 0 <= k < |init| :: init[k] == requests[k] && Previous(start, init, k) == Previous(start, requests, k);
      assert Previous(start, requests, n) <= requests[n];
      AlwaysRegular(l, start, init);
      assert Last(start, init) <= Last(start, requests);
      var t := After(l, Started(l, start), init);
      TouchedRegular(l, t, Last(start, requests));
    }
  }

  /**
   A session that is still open was renewed (or created) less than one idle span ago, by a
   request that was itself accepted: an idle span without one always ends the session.
   */
  lemma {:induction false} OpenNeedsRecentAuthentication(l: Limits, start: Instant, requests: seq<Instant>, now: Instant)
    requires ValidLimits(l)
    requires Ordered(start, requests)
    requires Open(After(l, Started(l, start), requests), now)
    ensures now < start + IdleSpan(l)
         || exists k | 0 <= k < |requests| :: Accepted(l, Started(l, start), requests, k) && now < requests[k] + IdleSpan(l)
  {
    var t := After(l, Started(l, start), requests);
    AlwaysRegular(l, start, requests);
    assert now < t.lastSeen + IdleSpan(l);
    var k := RenewedBy(l, start, requests);
    assert k >= 0 ==> Accepted(l, Started(l, start), requests, k);
  }

  /** Finds the request that set `lastSeen`, or -1 when none did. */
  lemma {:induction false} RenewedBy(l: Limits, start: Instant, requests: seq<Instant>) returns (k: int)
    ensures -1 <= k < |requests|
    ensures k == -1 ==> After(l, Started(l, start), requests).lastSeen == start
    ensures k >= 0 ==> Accepted(l, Started(l, start), requests, k)
    ensures k >= 0 ==> After(l, Started(l, start), requests).lastSeen == requests[k]
  {
    if requests == [] {
      k := -1;
    } else {
      var n := |requests| - 1;
      var before := After(l, Started(l, start), requests[..n]);
      if After(l, Started(l, start), requests) == before {
        k := RenewedBy(l, start, requests[..n]);
        assert k >= 0 ==> requests[..n][..k] == requests[..k];
      } else {
        k := n;
      }
    }
  }

  /** Requests no further apart than this can never lose the session before its absolute limit. */
  function SafeGap(l: Limits): Span
    requires ValidLimits(l)
  {
    SpansOrdered(l);
    IdleSpan(l) - RenewalInterval(l)
  }

  lemma NextRequestAccepted(l: Limits, t: Timing, previous: Instant, now: Instant)
    requires ValidLimits(l)
    requires Regular(l, t)
    requires t.lastSeen <= previous < t.lastSeen + RenewalInterval(l)
    requires previous <= now <= previous + SafeGap(l)
    requires now < t.absoluteExpires
    ensures Open(t, now)
    ensures now < Authenticated(l, t, now).lastSeen + RenewalInterval(l)
  {
    SpansOrdered(l);
  }

  lemma SpacedPrefix(start: Instant, requests: seq<Instant>, gap: Span)
    requires Spaced(start, requests, gap)
    requires requests != []
    ensures Spaced(start, requests[..|requests| - 1], gap)
    ensures Last(start, requests[..|requests| - 1]) <= Last(start, requests) <= Last(start, requests[..|requests| - 1]) + gap
  {
    var n := |requests| - 1;
    var init := requests[..n];
    assert forall k | 0 <= k < |init| :: init[k] == requests[k] && Previous(start, init, k) == Previous(start, requests, k);
    assert Previous(start, requests, n) <= requests[n] <= Previous(start, requests, n) + gap;
  }

  lemma {:induction false} SpacedStaysFresh(l: Limits, start: Instant, requests: seq<Instant>, gap: Span)
    requires ValidLimits(l)
    requires gap <= SafeGap(l)
    requires Spaced(start, requests, gap)
    requires Last(start, requests) < start + MaxSpan(l)
    ensures Last(start, requests) < After(l, Started(l, start), requests).lastSeen + RenewalInterval(l)
    ensures requests != [] ==> Accepted(l, Started(l, start), requests, |requests| - 1)
  {
    if requests == [] {
      SpansOrdered(l);
    } else {
      var init := requests[..|requests| - 1];
      SpacedPrefix(start, requests, gap);
      SpacedStaysFresh(l, start, init, gap);
      AlwaysRegular(l, start, init);
      NextRequestAccepted(l, After(l, Started(l, start), init), Last(start, init), Last(start, requests));
    }
  }

  lemma {:induction false} SpacedAllAccepted(l: Limits, start: Instant, requests: seq<Instant>, gap: Span, k: nat)
    requires ValidLimits(l)
    requires gap <= SafeGap(l)
    requires Spaced(start, requests, gap)
    requires Last(start, requests) < start + MaxSpan(l)
    requires k < |requests|
    ensures Accepted(l, Started(l, start), requests, k)
  {
    if k == |requests| - 1 {
      SpacedStaysFresh(l, start, requests, gap);
    } else {
      var init := requests[..|requests| - 1];
      SpacedPrefix(start, requests, gap);
      SpacedAllAccepted(l, start, init, gap, k);
      assert init[..k] == requests[..k];
    }
  }

  /** A spaced sequence that loses the session when the gap exceeds the safe one. */
  function Lapse(l: Limits, start: Instant): seq<Instant>
    requires ValidLimits(l)
  {
    SpansOrdered(l);
    var quiet := start + RenewalInterval(l) - 1;
    [start + Min(SafeGap(l) + 1, RenewalInterval(l) - 1), quiet, quiet + SafeGap(l) + 1]
  }

  lemma LapseLoses(l: Limits, start: Instant)
    requires ValidLimits(l)
    requires IdleSpan(l) < MaxSpan(l)
    ensures Spaced(start, Lapse(l, start), SafeGap(l) + 1)
    ensures Last(start, Lapse(l, start)) < start + MaxSpan(l)
    ensures !Accepted(l, Started(l, start), Lapse(l, start), 2)
  {
    SpansOrdered(l);
    var r, t := Lapse(l, start), Started(l, start);
    assert RenewalInterval(l) - 1 <= 2 * (SafeGap(l) + 1);
    assert r[..2][..1] == r[..1] && r[..1][..0] == [];
    assert After(l, t, r[..1]) == Authenticated(l, After(l, t, []), r[0]) == t;
    assert After(l, t, r[..2]) == Authenticated(l, After(l, t, r[..1]), r[1]) == t;
  }

  /** When the two limits coincide, idleness alone never ends a session. */
  lemma EqualLimitsNeverLapse(l: Limits, start: Instant, requests: seq<Instant>, k: nat)
    requires ValidLimits(l)
    requires IdleSpan(l) == MaxSpan(l)
    requires Ordered(start, requests)
    requires k < |requests| && requests[k] < start + MaxSpan(l)
    ensures Accepted(l, Started(l, start), requests, k)
  {
    var past := requests[..k];
    assert forall j | 0 <= j < |past| :: past[j] == requests[j] && Previous(start, past, j) == Previous(start, requests, j);
    AlwaysRegular(l, start, past);
  }

  lemma {:induction false} OrderedUpTo(start: Instant, requests: seq<Instant>, k: nat)
    requires Ordered(start, requests)
    requires k < |requests|
    ensures requests[k] <= Last(start, requests)
    decreases |requests| - k
  {
    if k + 1 < |requests| {
      assert Previous(start, requests, k + 1) <= requests[k + 1];
      OrderedUpTo(start, requests, k + 1);
    }
  }

  /** Every spaced request sequence that ends before the absolute limit is accepted throughout. */
  ghost predicate KeepsAlive(l: Limits, start: Instant, gap: Span) {
    forall requests, k | Spaced(start, requests, gap) && Last(start, requests) < start + MaxSpan(l) && 0 <= k < |requests| ::
      Accepted(l, Started(l, start), requests, k)
  }

  /**
   The exact bound: a gap keeps every spaced request sequence alive until the absolute limit
   if and only if it is at most the idle span minus the renewal interval (or both limits coincide).
   */
  lemma RenewalGapExact(l: Limits, start: Instant, gap: Span)
    requires ValidLimits(l)
    ensures KeepsAlive(l, start, gap) <==> gap <= SafeGap(l) || IdleSpan(l) == MaxSpan(l)
  {
    SpansOrdered(l);
    if gap <= SafeGap(l) || IdleSpan(l) == MaxSpan(l) {
      forall requests, k | Spaced(start, requests, gap) && Last(start, requests) < start + MaxSpan(l) && 0 <= k < |requests|
        ensures Accepted(l, Started(l, start), requests, k)
      {
        if gap <= SafeGap(l) {
          SpacedAllAccepted(l, start, requests, gap, k);
        } else {
          OrderedUpTo(start, requests, k);
          EqualLimitsNeverLapse(l, start, requests, k);
        }
      }
    } else {
      LapseLoses(l, start);
      assert Spaced(start, Lapse(l, start), gap);
    }
  }
}
