/**
 * The two Express middlewares in front of the API and the analysis routes, and the
 * `/usage` route that reports the limits. Each middleware rejects an unauthenticated
 * request (401) and an unknown user (404), picks the user's tier, runs the matching
 * rate-limit check, and either rejects with 429 or lets the request through with the
 * limit headers set.
 */
module RateLimitMiddleware {
  import opened Wrappers
  import opened Users
  import opened RateLimitService

  /**
   * The tier rule shared by both middlewares and the `/usage` route: a BYOK user is
   * unlimited; otherwise more than 500 credits makes an enterprise user.
   */
  function TierOf(user: User): (tier: Tier)
    ensures tier == Unlimited <==> user.isUnlimited
    ensures tier == Enterprise <==> !user.isUnlimited && user.credits > 500
    ensures tier == Startup <==> !user.isUnlimited && user.credits <= 500
  {
    if user.isUnlimited then Unlimited
    else if user.credits > 500 then Enterprise
    else Startup
  }

  /** How a middleware answers: an error response, or `next()` with the limit headers. */
  datatype Outcome =
    | Rejected(status: nat, error: string, retryAfter: Option<nat>)
    | Passed(limit: Bound, remaining: Bound)

  const AuthRequired: Outcome := Rejected(401, "Authentication required", None)
  const UserNotFound: Outcome := Rejected(404, "User not found", None)

  /** `retryAfter` of a 429: one hour for requests, a day for analysis runs. */
  function RetryAfter(kind: Kind): nat {
    if kind == Requests then 3600 else 86400
  }

  /** `req.user?.id`, falsy when missing or empty. */
  predicate Authenticated(userId: Option<string>) {
    userId.Some? && userId.value != ""
  }

  /**
   * What a middleware of the given kind does to the tracker table and how it answers.
   * The tracker table changes only when the user is authenticated and known.
   */
  function Admit(trackers: map<string, Tracker>, users: UserTable, userId: Option<string>, today: int, kind: Kind):
    (r: (map<string, Tracker>, Outcome))
    ensures !Authenticated(userId) ==> r == (trackers, AuthRequired)
    ensures Authenticated(userId) && userId.value !in users ==> r == (trackers, UserNotFound)
    ensures r.1.Rejected? && r.1.status == 429 ==>
      Authenticated(userId) && userId.value in users && r.1.retryAfter == Some(RetryAfter(kind))
    ensures r.1.Rejected? ==> r.1.status in {401, 404, 429}
    ensures Authenticated(userId) && userId.value in users ==>
      var (after, verdict) := CheckAndTrack(trackers, userId.value, TierOf(users[userId.value]), today, kind);
      r.0 == after &&
      (verdict.Success? <==> r.1.Passed?) &&
      (verdict.Success? ==> r.1 == Passed(verdict.value.limit, verdict.value.remaining)) &&
      (verdict.Failure? ==> r.1 == Rejected(429, verdict.error, Some(RetryAfter(kind))))
  {
    if !Authenticated(userId) then (trackers, AuthRequired)
    else if userId.value !in users then (trackers, UserNotFound)
    else
      var (after, verdict) := CheckAndTrack(trackers, userId.value, TierOf(users[userId.value]), today, kind);
      match verdict
      case Success(q) => (after, Passed(q.limit, q.remaining))
      case Failure(message) => (after, Rejected(429, message, Some(RetryAfter(kind))))
  }

  /** `rateLimitMiddleware`: the request limits, checked against the store. */
  method RateLimit(store: RateLimitStore, users: UserTable, userId: Option<string>, today: int) returns (o: Outcome)
    modifies store
    ensures (store.trackers, o) == Admit(old(store.trackers), users, userId, today, Requests)
  {
    if userId.None? || userId.value == "" {
      return AuthRequired;
    }
    if userId.value !in users {
      return UserNotFound;
    }
    var tier := TierOf(users[userId.value]);
    var result := store.CheckAndTrackRequest(userId.value, tier, today);
    if result.Failure? {
      return Rejected(429, result.error, Some(3600));
    }
    o := Passed(result.value.limit, result.value.remaining);
  }

  /** `analysisRateLimitMiddleware`: the analysis-run limits, checked against the store. */
  method AnalysisRateLimit(store: RateLimitStore, users: UserTable, userId: Option<string>, today: int) returns (o: Outcome)
    modifies store
    ensures (store.trackers, o) == Admit(old(store.trackers), users, userId, today, Analyses)
  {
    if userId.None? || userId.value == "" {
      return AuthRequired;
    }
    if userId.value !in users {
      return UserNotFound;
    }
    var tier := TierOf(users[userId.value]);
    var result := store.CheckAndTrackAnalysis(userId.value, tier, today);
    if result.Failure? {
      return Rejected(429, result.error, Some(86400));
    }
    o := Passed(result.value.limit, result.value.remaining);
  }

  /** A known BYOK user is never rate limited, by either middleware, however much they used. */
  lemma UnlimitedUsersPass(trackers: map<string, Tracker>, users: UserTable, userId: string, today: int, kind: Kind)
    requires userId != "" && userId in users && users[userId].isUnlimited
    ensures Admit(trackers, users, Some(userId), today, kind).1 == Passed(Unbounded, Unbounded)
  {
  }

  /**
   * The monthly counts are never reset: once a user on a finite tier has used up the
   * month's requests, every later request is refused, on any day.
   */
  lemma MonthlyLimitIsPermanent(trackers: map<string, Tracker>, users: UserTable, userId: string, today: int)
    requires userId != "" && userId in users && !users[userId].isUnlimited
    requires userId in trackers
    requires trackers[userId].requests.monthly >= LimitsOf(TierOf(users[userId])).requestsPerMonth.n
    ensures Admit(trackers, users, Some(userId), today, Requests).1.Rejected?
    ensures Admit(trackers, users, Some(userId), today, Requests).1.status == 429
  {
  }

  /** The `/usage` route: the user's daily limits and what is left of them, or 404. */
  function Usage(trackers: map<string, Tracker>, users: UserTable, userId: string): (r: Result<UserLimits, Outcome>)
    ensures userId !in users <==> r == Failure(UserNotFound)
    ensures r.Success? ==> r.value == GetUserLimits(trackers, userId, TierOf(users[userId]))
  {
    if userId !in users then Failure(UserNotFound)
    else Success(GetUserLimits(trackers, userId, TierOf(users[userId])))
  }

  /**
   * `/usage` and the middleware agree: right after a request got through, the route
   * reports the same number of requests left as the middleware's header.
   */
  lemma UsageMatchesHeader(trackers: map<string, Tracker>, users: UserTable, userId: string, today: int)
    requires userId != ""
    requires Admit(trackers, users, Some(userId), today, Requests).1.Passed?
    ensures var (after, o) := Admit(trackers, users, Some(userId), today, Requests);
      Usage(after, users, userId).Success? &&
      Usage(after, users, userId).value.requestsRemaining == o.remaining
  {
    LimitsAgreeAfterRequest(trackers, userId, TierOf(users[userId]), today);
  }
}
