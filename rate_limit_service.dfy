/**
 * Per-user rate limits: each user has a tracker with a daily and a monthly counter for
 * API requests and for analysis runs. A check first resets the daily counter when the
 * counter was last used on another day, then tests the daily limit, then the monthly one,
 * and on acceptance raises both counters by one.
 *
 * Days are integers (two instants fall on the same calendar day exactly when they map to
 * the same integer); the unlimited tier's `Infinity` limits are `Unbounded`.
 */
module RateLimitService {
  import opened Wrappers
  import opened JsText

  datatype Tier = Startup | Enterprise | Unlimited

  /** A limit, or a count derived from one: a number, or `Infinity`. */
  datatype Bound = Finite(n: int) | Unbounded

  datatype Limits = Limits(requestsPerDay: Bound, requestsPerMonth: Bound,
                           analysisRunsPerDay: Bound, analysisRunsPerMonth: Bound)

  /** The `LIMITS` table. */
  function LimitsOf(tier: Tier): (l: Limits)
    ensures tier == Unlimited <==> l.requestsPerDay.Unbounded?
    ensures tier == Unlimited ==>
      l.requestsPerMonth.Unbounded? && l.analysisRunsPerDay.Unbounded? && l.analysisRunsPerMonth.Unbounded?
  {
    match tier
    case Startup => Limits(Finite(1000), Finite(20000), Finite(20), Finite(200))
    case Enterprise => Limits(Finite(10000), Finite(200000), Finite(500), Finite(5000))
    case Unlimited => Limits(Unbounded, Unbounded, Unbounded, Unbounded)
  }

  /** `count >= limit`, which never holds for `Infinity`. */
  predicate Reaches(count: nat, limit: Bound) {
    limit.Finite? && count >= limit.n
  }

  /** `limit - count`: `Infinity` stays `Infinity`. */
  function Minus(limit: Bound, count: int): (r: Bound)
    ensures r.Unbounded? <==> limit.Unbounded?
    ensures limit.Finite? ==> r.n + count == limit.n
  {
    match limit
    case Finite(n) => Finite(n - count)
    case Unbounded => Unbounded
  }

  /** `Math.max(0, b)`. */
  function AtLeastZero(b: Bound): (r: Bound)
    ensures r.Unbounded? <==> b.Unbounded?
    ensures r.Finite? ==> r.n >= 0 && r.n >= b.n && (b.n >= 0 ==> r.n == b.n)
  {
    match b
    case Finite(n) => Finite(if n < 0 then 0 else n)
    case Unbounded => Unbounded
  }

  /** One pair of counters and the day of the last accepted use (`null` before the first). */
  datatype Counter = Counter(daily: nat, monthly: nat, lastDay: Option<int>)

  /** A user's tracker row: counters for requests and for analysis runs. */
  datatype Tracker = Tracker(requests: Counter, analyses: Counter)

  /** The row `create({ data: { userId } })` makes: every counter zero, never used. */
  const FreshTracker: Tracker := Tracker(Counter(0, 0, None), Counter(0, 0, None))

  /** Which of the two checks runs; it selects the limits, the counters and the messages. */
  datatype Kind = Requests | Analyses

  function PerDay(l: Limits, kind: Kind): Bound {
    if kind == Requests then l.requestsPerDay else l.analysisRunsPerDay
  }

  function PerMonth(l: Limits, kind: Kind): Bound {
    if kind == Requests then l.requestsPerMonth else l.analysisRunsPerMonth
  }

  function CounterOf(t: Tracker, kind: Kind): Counter {
    if kind == Requests then t.requests else t.analyses
  }

  function WithCounter(t: Tracker, kind: Kind, c: Counter): (r: Tracker)
    ensures CounterOf(r, kind) == c
    ensures CounterOf(r, if kind == Requests then Analyses else Requests) ==
            CounterOf(t, if kind == Requests then Analyses else Requests)
  {
    if kind == Requests then t.(requests := c) else t.(analyses := c)
  }

  const UpgradeHint: string := ". Upgrade your plan for more."

  /** The message of the error thrown when the daily limit `n` is reached. */
  function DailyMessage(kind: Kind, n: int): string {
    if kind == Requests then "Daily request limit exceeded: " + IntToString(n) + "/day"
    else "Daily analysis limit exceeded: " + IntToString(n) + "/day" + UpgradeHint
  }

  /** The message of the error thrown when the monthly limit `n` is reached. */
  function MonthlyMessage(kind: Kind, n: int): string {
    if kind == Requests then "Monthly request limit exceeded: " + IntToString(n) + "/month"
    else "Monthly analysis limit exceeded: " + IntToString(n) + "/month" + UpgradeHint
  }

  /** What an accepted check returns: the daily limit and what is left of it today. */
  datatype Quota = Quota(limit: Bound, remaining: Bound)

  /** The counter after the new-day reset: the daily count is zero unless it was last used `today`. */
  function ResetDaily(c: Counter, today: int): (r: Counter)
    ensures r.monthly == c.monthly && r.lastDay == c.lastDay
    ensures c.lastDay == Some(today) ==> r == c
    ensures c.lastDay != Some(today) ==> r.daily == 0
  {
    if c.lastDay != Some(today) then c.(daily := 0) else c
  }

  /** The counter a check leaves behind, and its verdict. */
  datatype Tracked = Tracked(counter: Counter, verdict: Result<Quota, string>)

  /**
   * One check on one counter under the given limits, on day `today`: the daily limit is
   * checked first, and a rejection keeps the counter as the reset left it; an acceptance
   * raises both counts by one, records the day and reports the daily limit minus the new
   * daily count.
   */
  function Track(c: Counter, perDay: Bound, perMonth: Bound, today: int, kind: Kind): (r: Tracked)
    ensures var z := ResetDaily(c, today);
      r.verdict.Success? <==> !Reaches(z.daily, perDay) && !Reaches(z.monthly, perMonth)
    ensures var z := ResetDaily(c, today);
      Reaches(z.daily, perDay) ==> r.verdict == Failure(DailyMessage(kind, perDay.n))
    ensures var z := ResetDaily(c, today);
      !Reaches(z.daily, perDay) && Reaches(z.monthly, perMonth) ==>
        r.verdict == Failure(MonthlyMessage(kind, perMonth.n))
    ensures r.verdict.Failure? ==> r.counter == ResetDaily(c, today)
    ensures r.verdict.Success? ==>
      r.counter == Counter(ResetDaily(c, today).daily + 1, c.monthly + 1, Some(today)) &&
      r.verdict.value.limit == perDay &&
      r.verdict.value.remaining == Minus(perDay, r.counter.daily) &&
      (perDay.Finite? ==> r.verdict.value.remaining.n >= 0)
  {
    var z := ResetDaily(c, today);
    if Reaches(z.daily, perDay) then Tracked(z, Failure(DailyMessage(kind, perDay.n)))
    else if Reaches(z.monthly, perMonth) then Tracked(z, Failure(MonthlyMessage(kind, perMonth.n)))
    else
      var next := Counter(z.daily + 1, z.monthly + 1, Some(today));
      Tracked(next, Success(Quota(perDay, Minus(perDay, next.daily))))
  }

  /** The tracker a check reads: the stored row, or a fresh one. */
  function TrackerOf(trackers: map<string, Tracker>, userId: string): (t: Tracker)
    ensures userId !in trackers ==> t == FreshTracker
  {
    if userId in trackers then trackers[userId] else FreshTracker
  }

  /** One check under the given limits, on the whole tracker table: only `userId`'s row changes. */
  function TrackIn(trackers: map<string, Tracker>, userId: string, perDay: Bound, perMonth: Bound, today: int, kind: Kind):
    (r: (map<string, Tracker>, Result<Quota, string>))
    ensures userId in r.0 && r.0.Keys == trackers.Keys + {userId}
    ensures forall u :: u in trackers && u != userId ==> r.0[u] == trackers[u]
    ensures var other := if kind == Requests then Analyses else Requests;
      CounterOf(r.0[userId], other) == CounterOf(TrackerOf(trackers, userId), other)
  {
    var t := TrackerOf(trackers, userId);
    var out := Track(CounterOf(t, kind), perDay, perMonth, today, kind);
    (trackers[userId := WithCounter(t, kind, out.counter)], out.verdict)
  }

  /** `checkAndTrackRequest` / `checkAndTrackAnalysis`: one check under the tier's limits. */
  function CheckAndTrack(trackers: map<string, Tracker>, userId: string, tier: Tier, today: int, kind: Kind):
    (r: (map<string, Tracker>, Result<Quota, string>))
    ensures tier == Unlimited ==> r.1 == Success(Quota(Unbounded, Unbounded))
  {
    var l := LimitsOf(tier);
    TrackIn(trackers, userId, PerDay(l, kind), PerMonth(l, kind), today, kind)
  }

  /**
   * The tracker rows as the service sees them. The two checks follow the source's steps
   * one database write at a time: create the row when missing, reset the daily count on a
   * new day, test the limits, then write the raised counts.
   */
  class RateLimitStore {
    var trackers: map<string, Tracker>

    constructor ()
      ensures trackers == map[]
    {
      trackers := map[];
    }

    /**
     * The first two steps of a check: create the user's row when it is missing, then zero
     * the daily count of the counters `kind` selects when they were last used on another day.
     */
    method Load(userId: string, today: int, kind: Kind) returns (counter: Counter)
      modifies this
      ensures counter == ResetDaily(CounterOf(TrackerOf(old(trackers), userId), kind), today)
      ensures trackers == old(trackers)[userId := WithCounter(TrackerOf(old(trackers), userId), kind, counter)]
    {
      var tracker: Tracker;
      if userId in trackers {
        tracker := trackers[userId];
      } else {
        tracker := FreshTracker;
        trackers := trackers[userId := tracker];
      }
      counter := CounterOf(tracker, kind);
      if counter.lastDay != Some(today) {
        counter := counter.(daily := 0);
        tracker := WithCounter(tracker, kind, counter);
        trackers := trackers[userId := tracker];
      }
      assert tracker == WithCounter(TrackerOf(old(trackers), userId), kind, counter);
    }

    /** The steps shared by both checks, on the counters `kind` selects. */
    method Check(userId: string, perDay: Bound, perMonth: Bound, today: int, kind: Kind) returns (r: Result<Quota, string>)
      modifies this
      ensures trackers == TrackIn(old(trackers), userId, perDay, perMonth, today, kind).0
      ensures r == TrackIn(old(trackers), userId, perDay, perMonth, today, kind).1
    {
      ghost var start := TrackerOf(trackers, userId);
      var counter := Load(userId, today, kind);
      ghost var out := Track(CounterOf(start, kind), perDay, perMonth, today, kind);
      assert TrackIn(old(trackers), userId, perDay, perMonth, today, kind) ==
        (old(trackers)[userId := WithCounter(start, kind, out.counter)], out.verdict);
      if perDay.Finite? && counter.daily >= perDay.n {
        r := Failure(DailyMessage(kind, perDay.n));
        assert out == Tracked(counter, r);
        return;
      }
      if perMonth.Finite? && counter.monthly >= perMonth.n {
        r := Failure(MonthlyMessage(kind, perMonth.n));
        assert out == Tracked(counter, r);
        return;
      }
      counter := Counter(counter.daily + 1, counter.monthly + 1, Some(today));
      var tracker := WithCounter(trackers[userId], kind, counter);
      assert tracker == WithCounter(start, kind, counter);
      trackers := trackers[userId := tracker];
      r := Success(Quota(perDay, Minus(perDay, counter.daily)));
      assert out == Tracked(counter, r);
    }

    /** `checkAndTrackRequest`. */
    method CheckAndTrackRequest(userId: string, tier: Tier, today: int) returns (r: Result<Quota, string>)
      modifies this
      ensures trackers == CheckAndTrack(old(trackers), userId, tier, today, Requests).0
      ensures r == CheckAndTrack(old(trackers), userId, tier, today, Requests).1
      ensures tier == Unlimited ==> r.Success? && r.value == Quota(Unbounded, Unbounded)
    {
      var limits := LimitsOf(tier);
      r := Check(userId, limits.requestsPerDay, limits.requestsPerMonth, today, Requests);
    }

    /** `checkAndTrackAnalysis`. */
    method CheckAndTrackAnalysis(userId: string, tier: Tier, today: int) returns (r: Result<Quota, string>)
      modifies this
      ensures trackers == CheckAndTrack(old(trackers), userId, tier, today, Analyses).0
      ensures r == CheckAndTrack(old(trackers), userId, tier, today, Analyses).1
      ensures tier == Unlimited ==> r.Success? && r.value == Quota(Unbounded, Unbounded)
    {
      var limits := LimitsOf(tier);
      r := Check(userId, limits.analysisRunsPerDay, limits.analysisRunsPerMonth, today, Analyses);
    }
  }

  /** What `getUserLimits` reports. */
  datatype UserLimits = UserLimits(tier: Tier, requests: Bound, requestsRemaining: Bound,
                                   analysisRuns: Bound, analysisRunsRemaining: Bound)

  /**
   * `getUserLimits`: the daily limits and what is left of them. Without a tracker the
   * full limits are left; otherwise the limit minus the stored daily count, never below 0.
   * The stored count is read as is, without the new-day reset.
   */
  function GetUserLimits(trackers: map<string, Tracker>, userId: string, tier: Tier): (r: UserLimits)
    ensures r.tier == tier && r.requests == LimitsOf(tier).requestsPerDay &&
            r.analysisRuns == LimitsOf(tier).analysisRunsPerDay
    ensures userId !in trackers ==>
      r.requestsRemaining == r.requests && r.analysisRunsRemaining == r.analysisRuns
    ensures userId in trackers ==>
      r.requestsRemaining == AtLeastZero(Minus(r.requests, trackers[userId].requests.daily)) &&
      r.analysisRunsRemaining == AtLeastZero(Minus(r.analysisRuns, trackers[userId].analyses.daily))
    ensures r.requestsRemaining.Finite? ==> r.requestsRemaining.n >= 0
    ensures r.analysisRunsRemaining.Finite? ==> r.analysisRunsRemaining.n >= 0
  {
    var l := LimitsOf(tier);
    if userId !in trackers then
      UserLimits(tier, l.requestsPerDay, l.requestsPerDay, l.analysisRunsPerDay, l.analysisRunsPerDay)
    else
      var t := trackers[userId];
      UserLimits(tier, l.requestsPerDay, AtLeastZero(Minus(l.requestsPerDay, t.requests.daily)),
                 l.analysisRunsPerDay, AtLeastZero(Minus(l.analysisRunsPerDay, t.analyses.daily)))
  }

  /** Right after an accepted request, `getUserLimits` reports the same remaining count the check did. */
  lemma LimitsAgreeAfterRequest(trackers: map<string, Tracker>, userId: string, tier: Tier, today: int)
    requires CheckAndTrack(trackers, userId, tier, today, Requests).1.Success?
    ensures var (after, r) := CheckAndTrack(trackers, userId, tier, today, Requests);
      GetUserLimits(after, userId, tier).requestsRemaining == r.value.remaining
  {
  }

  /** One use of the limiter: a check of either kind, by some user, on some day. */
  datatype Use = Use(userId: string, tier: Tier, today: int, kind: Kind)

  /** The tracker table after a series of checks. */
  function Replay(trackers: map<string, Tracker>, uses: seq<Use>): map<string, Tracker>
    decreases |uses|
  {
    if uses == [] then trackers
    else
      var u := uses[0];
      Replay(CheckAndTrack(trackers, u.userId, u.tier, u.today, u.kind).0, uses[1..])
  }

  /** A counter's monthly count never goes down. */
  predicate MonthlyAtLeast(before: Tracker, after: Tracker) {
    after.requests.monthly >= before.requests.monthly && after.analyses.monthly >= before.analyses.monthly
  }

  /**
   * No check ever lowers a monthly count: after any series of checks, on any days and
   * tiers, every user's monthly counts are at least what they were.
   */
  lemma {:induction false} MonthlyNeverDecreases(trackers: map<string, Tracker>, uses: seq<Use>, userId: string)
    ensures MonthlyAtLeast(TrackerOf(trackers, userId), TrackerOf(Replay(trackers, uses), userId))
    decreases |uses|
  {
    if uses != [] {
      var u := uses[0];
      var next := CheckAndTrack(trackers, u.userId, u.tier, u.today, u.kind).0;
      MonthlyNeverDecreases(next, uses[1..], userId);
      assert MonthlyAtLeast(TrackerOf(trackers, userId), TrackerOf(next, userId));
    }
  }

  /** A counter within the limits: neither count is past its bound. */
  predicate Within(c: Counter, perDay: Bound, perMonth: Bound) {
    (perDay.Finite? ==> c.daily <= perDay.n) && (perMonth.Finite? ==> c.monthly <= perMonth.n)
  }

  /** A check never takes a counter past its limits: the counts stop at the bound. */
  lemma TrackStaysWithin(c: Counter, perDay: Bound, perMonth: Bound, today: int, kind: Kind)
    requires Within(c, perDay, perMonth)
    ensures Within(Track(c, perDay, perMonth, today, kind).counter, perDay, perMonth)
  {
  }
}
