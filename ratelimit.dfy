/**
 * The rate-limit handler: recognises a rate-limited API response, switches
 * the agent into overflow mode with an exponentially extended cooldown,
 * leaves overflow mode again, and watches the health of the overflow route
 * through a capped event log.
 */
module RateLimitHandler {
  import opened Wrappers
  import opened Strings
  import opened Seqs

  // ---------------------------------------------------------------------
  // Detection

  const STATUS_CODES: seq<int> := [429, 529]
  const ERROR_MESSAGES: seq<string> :=
    ["rate_limit_exceeded", "rate limit", "too many requests", "overloaded", "capacity", "throttl"]
  const ERROR_TYPES: seq<string> := ["rate_limit_error", "overloaded_error", "api_error"]

  datatype ErrorBody = ErrorBody(errorType: Option<string>, message: Option<string>)

  /** An API response: an optional status, an optional error object and an optional message. */
  datatype Response = Response(status: Option<int>, error: Option<ErrorBody>, message: Option<string>)

  datatype Detection = Detection(limited: bool, reason: Option<string>)

  /** `response.error?.type`. */
  function ErrorType(r: Response): Option<string>
  {
    if r.error.Some? then r.error.value.errorType else None
  }

  /** `(response.error?.message || response.message || '').toLowerCase()`. */
  function MessageOf(r: Response): string
  {
    var e := if r.error.Some? then r.error.value.message else None;
    LowerStr(if Truthy(e) then e.value else StrOr(r.message, ""))
  }

  /** `patterns.some(p => s.includes(p))`. */
  function AnyContained(s: string, patterns: seq<string>): (r: bool)
    ensures r <==> exists i :: 0 <= i < |patterns| && Contains(s, patterns[i])
  {
    if patterns == [] then false
    else if Contains(s, patterns[0]) then true
    else
      var rest := AnyContained(s, patterns[1..]);
      assert forall i :: 1 <= i < |patterns| ==> patterns[i] == patterns[1..][i - 1];
      rest
  }

  predicate StatusLimited(r: Response)
  {
    r.status.Some? && r.status.value in STATUS_CODES
  }

  predicate TypeLimited(r: Response)
  {
    Truthy(ErrorType(r)) && exists i :: 0 <= i < |ERROR_TYPES| && Contains(LowerStr(ErrorType(r).value), ERROR_TYPES[i])
  }

  predicate MessageLimited(r: Response)
  {
    exists i :: 0 <= i < |ERROR_MESSAGES| && Contains(MessageOf(r), ERROR_MESSAGES[i])
  }

  /** The first 50 characters, as `slice(0, 50)`. */
  function Prefix50(s: string): (p: string)
    ensures |p| <= |s| && p == s[..|p|]
    ensures |p| == 50 || p == s
  {
    if |s| <= 50 then s else s[..50]
  }

  /**
   * `isRateLimited`: the status code is checked first, then the error type,
   * then the message; the reason names the first check that fired.
   */
  function IsRateLimited(r: Response): (d: Detection)
    ensures d.limited <==> StatusLimited(r) || TypeLimited(r) || MessageLimited(r)
    ensures d.reason.None? <==> !d.limited
    ensures StatusLimited(r) ==> d.reason == Some("HTTP " + IntToString(r.status.value))
    ensures !StatusLimited(r) && TypeLimited(r) ==> d.reason == Some("Error type: " + ErrorType(r).value)
    ensures !StatusLimited(r) && !TypeLimited(r) && MessageLimited(r) ==>
      d.reason == Some("Message: " + Prefix50(MessageOf(r)))
  {
    if r.status.Some? && r.status.value in STATUS_CODES then
      Detection(true, Some("HTTP " + IntToString(r.status.value)))
    else if Truthy(ErrorType(r)) && AnyContained(LowerStr(ErrorType(r).value), ERROR_TYPES) then
      Detection(true, Some("Error type: " + ErrorType(r).value))
    else if AnyContained(MessageOf(r), ERROR_MESSAGES) then
      Detection(true, Some("Message: " + Prefix50(MessageOf(r))))
    else Detection(false, None)
  }

  /** Self-test 1: status 429 is a rate limit. */
  lemma DetectsStatus()
    ensures IsRateLimited(Response(Some(429), None, None)).limited
  {
    assert StatusLimited(Response(Some(429), None, None));
  }

  /** Self-test 2: the `rate_limit_error` type is a rate limit despite status 200. */
  lemma DetectsErrorType()
    ensures IsRateLimited(Response(Some(200), Some(ErrorBody(Some("rate_limit_error"), Some("Rate limit exceeded"))), None)).limited
  {
    var typed := Response(Some(200), Some(ErrorBody(Some("rate_limit_error"), Some("Rate limit exceeded"))), None);
    LowerStrIs("rate_limit_error", "rate_limit_error");
    ContainsSelf("rate_limit_error");
    assert Contains(LowerStr(ErrorType(typed).value), ERROR_TYPES[0]);
  }

  /** Self-test 3: "Too many requests" in the message is a rate limit, whatever its case. */
  lemma DetectsMessage()
    ensures IsRateLimited(Response(Some(200), None, Some("Too many requests, please try again later"))).limited
  {
    BusyLowered();
    assert Contains(MessageOf(Response(Some(200), None, Some("Too many requests, please try again later"))), ERROR_MESSAGES[2]);
  }

  lemma BusyLowered()
    ensures Contains(LowerStr("Too many requests, please try again later"), "too many requests")
  {
    var lowered := LowerStr("Too many requests, please try again later");
    forall i | 0 <= i < 17 ensures lowered[i] == "too many requests"[i] {
    }
    ContainsAt(lowered, "too many requests", 0);
  }

  /** Lower-casing keeps a string free of `_`, `a` and `h` when it has none of `_aAhH`. */
  lemma LowerAvoids(s: string)
    requires Avoids(s, "_aAhH")
    ensures Avoids(LowerStr(s), "_ah")
  {
    var cs := "_aAhH";
    assert cs[0] == '_' && cs[1] == 'a' && cs[2] == 'A' && cs[3] == 'h' && cs[4] == 'H';
    forall i | 0 <= i < |s| ensures LowerStr(s)[i] !in "_ah" {
      assert s[i] != '_' && s[i] != 'a' && s[i] != 'A' && s[i] != 'h' && s[i] != 'H';
    }
  }

  /** A message without `_`, `a` or `h` matches none of the message patterns. */
  lemma MessageMisses(text: string)
    requires Avoids(text, "_ah")
    ensures !AnyContained(text, ERROR_MESSAGES)
  {
    forall i | 0 <= i < |ERROR_MESSAGES| ensures !Contains(text, ERROR_MESSAGES[i]) {
      if i == 0 { AvoidsNotContains(text, "_ah", 0, ERROR_MESSAGES[i], 4); }
      else if i == 1 { AvoidsNotContains(text, "_ah", 1, ERROR_MESSAGES[i], 1); }
      else if i == 2 { AvoidsNotContains(text, "_ah", 1, ERROR_MESSAGES[i], 5); }
      else if i == 3 { AvoidsNotContains(text, "_ah", 1, ERROR_MESSAGES[i], 6); }
      else if i == 4 { AvoidsNotContains(text, "_ah", 1, ERROR_MESSAGES[i], 1); }
      else { AvoidsNotContains(text, "_ah", 2, ERROR_MESSAGES[i], 1); }
    }
  }

  /** Self-test 4: an ordinary success message is not a rate limit. */
  lemma PassesSuccess()
    ensures !IsRateLimited(Response(Some(200), None, Some("Request completed successfully"))).limited
  {
    assert Avoids("Request completed successfully", "_aAhH");
    LowerAvoids("Request completed successfully");
    MessageMisses(LowerStr("Request completed successfully"));
  }

  // ---------------------------------------------------------------------
  // Cooldown

  /** The handler's configuration, after `{ ...DEFAULT_CONFIG, ...config }`. */
  datatype Config = Config(maxCooldownMs: real, cooldownMultiplier: real, overflowEnabled: bool,
                           overflowEndpoint: Option<string>)

  /** The starting cooldown; `exitOverflow` resets to it whatever the configuration says. */
  const DEFAULT_COOLDOWN_MS: real := 300000.0
  const DEFAULT_CONFIG: Config := Config(1800000.0, 1.5, true, None)

  function MinReal(a: real, b: real): real
  {
    if a <= b then a else b
  }

  /** `Math.min(cooldown * multiplier, maxCooldownMs)`. */
  function NextCooldown(cooldown: real, cfg: Config): (c: real)
    ensures c <= cfg.maxCooldownMs
    ensures c == cfg.maxCooldownMs || c == cooldown * cfg.cooldownMultiplier
  {
    MinReal(cooldown * cfg.cooldownMultiplier, cfg.maxCooldownMs)
  }

  /** With a multiplier of at least 1 an extension never shortens a cooldown below the cap. */
  lemma NextCooldownGrows(cooldown: real, cfg: Config)
    requires 0.0 <= cooldown <= cfg.maxCooldownMs && cfg.cooldownMultiplier >= 1.0
    ensures cooldown <= NextCooldown(cooldown, cfg) <= cfg.maxCooldownMs
  {
    assert cooldown * cfg.cooldownMultiplier >= cooldown * 1.0;
  }

  /** The cooldown after `k` extensions. */
  function ExtendedTimes(cooldown: real, cfg: Config, k: nat): real
  {
    if k == 0 then cooldown else NextCooldown(ExtendedTimes(cooldown, cfg, k - 1), cfg)
  }

  /** Under the default configuration the fifth extension reaches the 30-minute cap. */
  lemma DefaultCooldownReachesCap()
    ensures ExtendedTimes(DEFAULT_COOLDOWN_MS, DEFAULT_CONFIG, 4) == 1518750.0
    ensures ExtendedTimes(DEFAULT_COOLDOWN_MS, DEFAULT_CONFIG, 5) == DEFAULT_CONFIG.maxCooldownMs
  {
    assert ExtendedTimes(DEFAULT_COOLDOWN_MS, DEFAULT_CONFIG, 1) == 450000.0;
    assert ExtendedTimes(DEFAULT_COOLDOWN_MS, DEFAULT_CONFIG, 2) == 675000.0;
    assert ExtendedTimes(DEFAULT_COOLDOWN_MS, DEFAULT_CONFIG, 3) == 1012500.0;
  }

  // ---------------------------------------------------------------------
  // Event log and health

  const LOG_CAP := 1000
  const HOUR_MS := 3600000
  const MAX_OVERFLOW_MS := 7200000

  /** The overflow log's events, each stamped with the time it was logged. */
  datatype Event =
    | OverflowStarted(at: int, cooldownMs: real)
    | CooldownExtended(at: int, newCooldownMs: real)
    | OverflowEnded(at: int, durationMs: Option<int>)
    | OverflowRouted(at: int, endpoint: string)
    | OverflowCritical(at: int, failuresLastHour: nat)
    | ExtendedOverflow(at: int, overflowMs: int)
    | OverflowFailed(at: int)

  function IsRecentFailure(now: int): Event -> bool
  {
    (e: Event) => e.OverflowFailed? && e.at > now - HOUR_MS
  }

  /** The overflow failures logged within the last hour. */
  function RecentFailures(events: seq<Event>, now: int): nat
  {
    Count(IsRecentFailure(now), events)
  }

  datatype Health = Healthy | Failing(failures: nat) | Prolonged(durationMs: int)

  /**
   * `checkOverflowHealth`'s verdict: three recent failures make the route
   * unhealthy before the time spent in overflow is looked at; more than two
   * hours in overflow make it unhealthy too.
   */
  function HealthOf(events: seq<Event>, inOverflow: bool, startedAt: Option<int>, now: int): (h: Health)
    ensures h.Failing? <==> RecentFailures(events, now) >= 3
    ensures h.Failing? ==> h.failures == RecentFailures(events, now)
    ensures h.Prolonged? <==>
      RecentFailures(events, now) < 3 && inOverflow && startedAt.Some? && now - startedAt.value > MAX_OVERFLOW_MS
    ensures h.Prolonged? ==> h.durationMs == now - startedAt.value
  {
    var failures := RecentFailures(events, now);
    if failures >= 3 then Failing(failures)
    else if inOverflow && startedAt.Some? && now - startedAt.value > MAX_OVERFLOW_MS then
      Prolonged(now - startedAt.value)
    else Healthy
  }

  /** Outside overflow mode only failures can make the route unhealthy. */
  lemma {:induction false} HealthyOutsideOverflow(events: seq<Event>, startedAt: Option<int>, now: int)
    requires forall i :: 0 <= i < |events| ==> !events[i].OverflowFailed?
    ensures HealthOf(events, false, startedAt, now) == Healthy
  {
    if events != [] {
      HealthyOutsideOverflow(events[1..], startedAt, now);
      assert !events[0].OverflowFailed?;
      assert RecentFailures(events, now) == RecentFailures(events[1..], now);
    }
  }

  /** What `shouldUseOverflow` answers. */
  datatype Routing = Routing(useOverflow: bool, reason: Option<string>, endpoint: Option<string>)

  // ---------------------------------------------------------------------
  // The persisted handler state

  /**
   * The rate-limit state file and the overflow log, with the operations
   * that update them.
   */
  class Handler {
    var inOverflow: bool
    var overflowStartedAt: Option<int>
    var overflowCount: nat
    var currentCooldown: real
    var lastRateLimitAt: Option<int>
    var totalRateLimits: nat
    var events: seq<Event>

    /** Overflow mode always has a start time, and the log never holds more than `LOG_CAP` events. */
    ghost predicate Valid()
      reads this
    {
      (inOverflow ==> overflowStartedAt.Some?) && |events| <= LOG_CAP
    }

    /** The state `loadState` falls back to, and an empty log. */
    constructor()
      ensures Valid()
      ensures !inOverflow && overflowStartedAt.None? && overflowCount == 0
      ensures currentCooldown == DEFAULT_COOLDOWN_MS && lastRateLimitAt.None? && totalRateLimits == 0
      ensures events == []
    {
      inOverflow := false;
      overflowStartedAt := None;
      overflowCount := 0;
      currentCooldown := DEFAULT_COOLDOWN_MS;
      lastRateLimitAt := None;
      totalRateLimits := 0;
      events := [];
    }

    /** `logEvent`: append, then keep only the last `LOG_CAP` events. */
    method LogEvent(e: Event)
      requires Valid()
      modifies this
      ensures Valid()
      ensures events == Capped(old(events), e, LOG_CAP)
      ensures inOverflow == old(inOverflow) && overflowStartedAt == old(overflowStartedAt)
      ensures overflowCount == old(overflowCount) && currentCooldown == old(currentCooldown)
      ensures lastRateLimitAt == old(lastRateLimitAt) && totalRateLimits == old(totalRateLimits)
    {
      events := events + [e];
      if |events| > LOG_CAP {
        events := events[|events| - LOG_CAP..];
      }
    }

    /**
     * `handleRateLimit`: counts the rate limit; outside overflow it enters
     * overflow mode with the cooldown unchanged, inside it extends the
     * cooldown up to the cap.
     */
    method HandleRateLimit(cfg: Config, now: int)
      requires Valid()
      modifies this
      ensures Valid()
      ensures totalRateLimits == old(totalRateLimits) + 1 && lastRateLimitAt == Some(now)
      ensures inOverflow
      ensures !old(inOverflow) ==>
        && overflowStartedAt == Some(now) && overflowCount == old(overflowCount) + 1
        && currentCooldown == old(currentCooldown)
        && events == Capped(old(events), OverflowStarted(now, old(currentCooldown)), LOG_CAP)
      ensures old(inOverflow) ==>
        && overflowStartedAt == old(overflowStartedAt) && overflowCount == old(overflowCount)
        && currentCooldown == NextCooldown(old(currentCooldown), cfg)
        && currentCooldown <= cfg.maxCooldownMs
        && events == Capped(old(events), CooldownExtended(now, currentCooldown), LOG_CAP)
    {
      lastRateLimitAt := Some(now);
      totalRateLimits := totalRateLimits + 1;
      if !inOverflow {
        inOverflow := true;
        overflowStartedAt := Some(now);
        overflowCount := overflowCount + 1;
        LogEvent(OverflowStarted(now, currentCooldown));
      } else {
        currentCooldown := NextCooldown(currentCooldown, cfg);
        LogEvent(CooldownExtended(now, currentCooldown));
      }
    }

    /**
     * `exitOverflow`: in overflow mode, leaves it, resets the cooldown to the
     * default and logs how long overflow lasted; otherwise changes nothing,
     * so a second call is a no-op.
     */
    method ExitOverflow(now: int)
      requires Valid()
      modifies this
      ensures Valid()
      ensures !inOverflow
      ensures !old(inOverflow) ==> unchanged(this)
      ensures old(inOverflow) ==>
        && currentCooldown == DEFAULT_COOLDOWN_MS
        && events == Capped(old(events), OverflowEnded(now, Some(now - old(overflowStartedAt).value)), LOG_CAP)
        && overflowStartedAt == old(overflowStartedAt) && overflowCount == old(overflowCount)
        && lastRateLimitAt == old(lastRateLimitAt) && totalRateLimits == old(totalRateLimits)
    {
      if inOverflow {
        var duration := now - overflowStartedAt.value;
        inOverflow := false;
        currentCooldown := DEFAULT_COOLDOWN_MS;
        LogEvent(OverflowEnded(now, Some(duration)));
      }
    }

    /** `shouldUseOverflow`: only when overflow is enabled, an endpoint is set and the handler is in overflow. */
    function ShouldUseOverflow(cfg: Config): (r: Routing)
      reads this
      ensures r.useOverflow <==> cfg.overflowEnabled && Truthy(cfg.overflowEndpoint) && inOverflow
      ensures r.useOverflow ==> r.endpoint == cfg.overflowEndpoint
      ensures !r.useOverflow ==> r.endpoint.None? && r.reason.Some?
    {
      if !cfg.overflowEnabled || !Truthy(cfg.overflowEndpoint) then Routing(false, Some("Overflow not configured"), None)
      else if !inOverflow then Routing(false, Some("Not in overflow mode"), None)
      else Routing(true, None, cfg.overflowEndpoint)
    }

    /** `routeRequest`: logs and reports a routing through the overflow endpoint when one is due. */
    method RouteRequest(cfg: Config, now: int) returns (routed: bool, endpoint: Option<string>)
      requires Valid()
      modifies this
      ensures Valid()
      ensures routed == old(ShouldUseOverflow(cfg)).useOverflow
      ensures routed ==>
        && endpoint == cfg.overflowEndpoint
        && events == Capped(old(events), OverflowRouted(now, cfg.overflowEndpoint.value), LOG_CAP)
      ensures !routed ==> endpoint.None? && events == old(events)
      ensures inOverflow == old(inOverflow) && currentCooldown == old(currentCooldown)
    {
      var overflow := ShouldUseOverflow(cfg);
      if overflow.useOverflow {
        LogEvent(OverflowRouted(now, overflow.endpoint.value));
        return true, overflow.endpoint;
      }
      return false, None;
    }

    /**
     * `checkOverflowHealth`: reports the verdict of `HealthOf` on the state
     * before the call and logs an event for each kind of unhealthy verdict.
     */
    method CheckOverflowHealth(now: int) returns (h: Health)
      requires Valid()
      modifies this
      ensures Valid()
      ensures h == HealthOf(old(events), inOverflow, overflowStartedAt, now)
      ensures h.Failing? ==> events == Capped(old(events), OverflowCritical(now, h.failures), LOG_CAP)
      ensures h.Prolonged? ==> events == Capped(old(events), ExtendedOverflow(now, h.durationMs), LOG_CAP)
      ensures h.Healthy? ==> events == old(events)
      ensures inOverflow == old(inOverflow) && overflowStartedAt == old(overflowStartedAt)
      ensures currentCooldown == old(currentCooldown) && totalRateLimits == old(totalRateLimits)
    {
      h := HealthOf(events, inOverflow, overflowStartedAt, now);
      match h {
        case Failing(n) => LogEvent(OverflowCritical(now, n));
        case Prolonged(d) => LogEvent(ExtendedOverflow(now, d));
        case Healthy =>
      }
    }
  }
}
