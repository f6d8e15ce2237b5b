/**
 * The resource tracker of a night-shift session: token, API-call, runtime
 * and persona budgets, the usage counters its methods raise, and the
 * limit check that turns them into warnings, errors and a go/no-go flag.
 * The clock is an input; persistence of the state file and the lock are
 * not modelled.
 */
module ResourceTracking {
  import opened Wrappers
  import opened Seqs

  datatype ResourceBudget = ResourceBudget(
    maxTokens: int,
    maxApiCalls: int,
    maxRuntimeSeconds: int,
    maxRetriesPerStep: int,
    maxPersonas: int,
    warnAtTokenPct: real,
    warnAtTimePct: real)

  /** `ResourceBudget()`: the default limits and the 70% / 80% warning levels. */
  const DEFAULT_BUDGET := ResourceBudget(100000, 50, 600, 2, 5, 0.7, 0.8)

  /** The presets of `NightShiftBudgets`: only the four hard limits differ from the defaults. */
  const DRY_RUN := DEFAULT_BUDGET.(maxTokens := 20000, maxApiCalls := 10, maxRuntimeSeconds := 300, maxPersonas := 3)
  const STANDARD := DEFAULT_BUDGET.(maxTokens := 100000, maxApiCalls := 50, maxRuntimeSeconds := 600, maxPersonas := 5)
  const HEAVY := DEFAULT_BUDGET.(maxTokens := 500000, maxApiCalls := 200, maxRuntimeSeconds := 1800, maxPersonas := 10)

  /** Each preset allows at least as much as the one before it, and the standard preset is the default budget. */
  lemma PresetsOrdered()
    ensures STANDARD == DEFAULT_BUDGET
    ensures DRY_RUN.maxTokens <= STANDARD.maxTokens <= HEAVY.maxTokens
    ensures DRY_RUN.maxApiCalls <= STANDARD.maxApiCalls <= HEAVY.maxApiCalls
    ensures DRY_RUN.maxRuntimeSeconds <= STANDARD.maxRuntimeSeconds <= HEAVY.maxRuntimeSeconds
    ensures DRY_RUN.maxPersonas <= STANDARD.maxPersonas <= HEAVY.maxPersonas
  {
  }

  /** The usage counters; a time of 0.0 counts as unset, as Python's `not` makes it. */
  datatype ResourceUsage = ResourceUsage(
    tokensUsed: int,
    apiCallsMade: int,
    startTime: Option<real>,
    endTime: Option<real>,
    personasLoaded: seq<string>,
    stepsCompleted: int,
    stepsFailed: int,
    retriesTotal: int)

  const NO_USAGE := ResourceUsage(0, 0, None, None, [], 0, 0, 0)

  /** A time that Python treats as set: present and not zero. */
  predicate IsSet(t: Option<real>)
  {
    t.Some? && t.value != 0.0
  }

  /** `runtime_seconds` at time `now`: zero before the start, then up to the end or to now. */
  function RuntimeSeconds(u: ResourceUsage, now: real): (r: real)
    ensures !IsSet(u.startTime) ==> r == 0.0
    ensures IsSet(u.startTime) && IsSet(u.endTime) ==> r == u.endTime.value - u.startTime.value
    ensures IsSet(u.startTime) && !IsSet(u.endTime) ==> r == now - u.startTime.value
  {
    if !IsSet(u.startTime) then 0.0
    else (if IsSet(u.endTime) then u.endTime.value else now) - u.startTime.value
  }

  datatype Warning = TokenUsageAt(pct: real) | RuntimeAt(pct: real)

  datatype LimitError =
    | TokenLimitExceeded(tokens: int)
    | ApiCallLimitExceeded(calls: int)
    | RuntimeLimitExceeded(seconds: real)
    | PersonaLimitExceeded(personas: nat)

  datatype Status = Status(ok: bool, warnings: seq<Warning>, errors: seq<LimitError>)

  /** The token check: an error at or over the limit, else a warning at or over the warning level. */
  function TokenCheck(b: ResourceBudget, u: ResourceUsage): (r: (seq<Warning>, seq<LimitError>))
    requires b.maxTokens != 0
  {
    var pct := u.tokensUsed as real / b.maxTokens as real;
    if pct >= 1.0 then ([], [TokenLimitExceeded(u.tokensUsed)])
    else if pct >= b.warnAtTokenPct then ([TokenUsageAt(pct)], [])
    else ([], [])
  }

  /** The runtime check: an error at or over the limit, else a warning at or over the warning level. */
  function RuntimeCheck(b: ResourceBudget, u: ResourceUsage, now: real): (r: (seq<Warning>, seq<LimitError>))
    requires b.maxRuntimeSeconds != 0
  {
    var runtime := RuntimeSeconds(u, now);
    var pct := runtime / b.maxRuntimeSeconds as real;
    if pct >= 1.0 then ([], [RuntimeLimitExceeded(runtime)])
    else if pct >= b.warnAtTimePct then ([RuntimeAt(pct)], [])
    else ([], [])
  }

  /**
   * `_check_limits` at time `now`: the token, API-call, runtime and persona
   * checks in that order. A zero token or runtime limit raises
   * ZeroDivisionError when its share is computed.
   */
  function CheckLimits(b: ResourceBudget, u: ResourceUsage, now: real): (r: Result<Status>)
    ensures r.Err? <==> b.maxTokens == 0 || b.maxRuntimeSeconds == 0
    ensures r.Err? ==> r.error == "ZeroDivisionError"
    ensures r.Ok? ==> (r.value.ok <==> r.value.errors == [])
    ensures r.Ok? ==> |r.value.errors| <= 4 && |r.value.warnings| <= 2
  {
    if b.maxTokens == 0 || b.maxRuntimeSeconds == 0 then Err("ZeroDivisionError")
    else
      var (tw, te) := TokenCheck(b, u);
      var api := if u.apiCallsMade >= b.maxApiCalls then [ApiCallLimitExceeded(u.apiCallsMade)] else [];
      var (rw, re) := RuntimeCheck(b, u, now);
      var personas := if |u.personasLoaded| > b.maxPersonas then [PersonaLimitExceeded(|u.personasLoaded|)] else [];
      var errors := te + api + re + personas;
      Ok(Status(errors == [], tw + rw, errors))
  }

  /** For a positive limit, a share of at least 1 is a count of at least the limit. */
  lemma ShareReachesOne(used: real, limit: int)
    requires limit > 0
    ensures used / limit as real >= 1.0 <==> used >= limit as real
  {
    var l := limit as real;
    assert used / l * l == used;
    if used / l >= 1.0 {
      assert used / l * l >= 1.0 * l;
    }
    if used >= l {
      assert used / l >= l / l;
    }
  }

  /**
   * With positive limits the run may go on exactly when the tokens, the
   * API calls and the runtime are below their limits and the personas at
   * most their limit.
   */
  lemma OkExactly(b: ResourceBudget, u: ResourceUsage, now: real)
    requires b.maxTokens > 0 && b.maxRuntimeSeconds > 0
    ensures var r := CheckLimits(b, u, now);
      r.Ok? && (r.value.ok <==>
        && u.tokensUsed < b.maxTokens
        && u.apiCallsMade < b.maxApiCalls
        && RuntimeSeconds(u, now) < b.maxRuntimeSeconds as real
        && |u.personasLoaded| <= b.maxPersonas)
  {
    ShareReachesOne(u.tokensUsed as real, b.maxTokens);
    ShareReachesOne(RuntimeSeconds(u, now), b.maxRuntimeSeconds);
  }

  /**
   * The token warning is raised only below the token limit, and exactly
   * when the share of tokens used reaches the warning level.
   */
  lemma TokenWarningBelowLimit(b: ResourceBudget, u: ResourceUsage, now: real)
    requires b.maxTokens > 0 && b.maxRuntimeSeconds > 0
    ensures var r := CheckLimits(b, u, now);
      var pct := u.tokensUsed as real / b.maxTokens as real;
      r.Ok? && (TokenUsageAt(pct) in r.value.warnings <==> u.tokensUsed < b.maxTokens && pct >= b.warnAtTokenPct)
  {
    ShareReachesOne(u.tokensUsed as real, b.maxTokens);
    var (rw, re) := RuntimeCheck(b, u, now);
    assert forall w :: w in rw ==> w.RuntimeAt?;
  }

  /** Recording a start: only the first start sets the start time. */
  function Started(u: ResourceUsage, now: real): (v: ResourceUsage)
    ensures IsSet(u.startTime) ==> v == u
    ensures !IsSet(u.startTime) ==> v == u.(startTime := Some(now))
  {
    if IsSet(u.startTime) then u else u.(startTime := Some(now))
  }

  /** A second start keeps the time of the first one. */
  lemma StartOnce(u: ResourceUsage, t1: real, t2: real)
    requires t1 != 0.0
    ensures Started(Started(u, t1), t2) == Started(u, t1)
    ensures Started(u, t1).startTime == if IsSet(u.startTime) then u.startTime else Some(t1)
  {
  }

  /** Loading a persona: appended only when it is not loaded yet. */
  function WithPersona(loaded: seq<string>, personaId: string): (r: seq<string>)
    ensures personaId in r
    ensures forall p :: p in r <==> p in loaded || p == personaId
    ensures NoDup(loaded) ==> NoDup(r)
    ensures |r| == if personaId in loaded then |loaded| else |loaded| + 1
  {
    if personaId in loaded then loaded
    else
      var r := loaded + [personaId];
      assert forall i :: 0 <= i < |loaded| ==> r[i] == loaded[i] && r[i] in loaded;
      r
  }

  /** The tracker of one session. */
  class ResourceTracker {
    const sessionId: string
    var budget: ResourceBudget
    var usage: ResourceUsage

    /** No persona id is recorded twice. */
    ghost predicate Valid()
      reads this
    {
      NoDup(usage.personasLoaded)
    }

    /** A tracker with the given budget, or the default one, and no usage. */
    constructor(sessionId: string, budget: Option<ResourceBudget>)
      ensures this.sessionId == sessionId && this.budget == budget.GetOr(DEFAULT_BUDGET)
      ensures usage == NO_USAGE && Valid()
    {
      this.sessionId := sessionId;
      this.budget := budget.GetOr(DEFAULT_BUDGET);
      usage := NO_USAGE;
    }

    /** `start`: the start time is recorded only the first time. */
    method Start(now: real)
      requires Valid()
      modifies this
      ensures Valid()
      ensures usage == Started(old(usage), now) && budget == old(budget)
    {
      if !IsSet(usage.startTime) {
        usage := usage.(startTime := Some(now));
      }
    }

    /** `stop`: the end time is now. */
    method Stop(now: real)
      requires Valid()
      modifies this
      ensures Valid()
      ensures usage == old(usage).(endTime := Some(now)) && budget == old(budget)
    {
      usage := usage.(endTime := Some(now));
    }

    /** `add_tokens`: raises the token count by exactly `count`, then checks the limits. */
    method AddTokens(count: int, now: real) returns (status: Result<Status>)
      requires Valid()
      modifies this
      ensures Valid()
      ensures usage == old(usage).(tokensUsed := old(usage).tokensUsed + count) && budget == old(budget)
      ensures status == CheckLimits(budget, usage, now)
    {
      usage := usage.(tokensUsed := usage.tokensUsed + count);
      status := CheckLimits(budget, usage, now);
    }

    /** `add_api_call`: one more API call, then the limit check. */
    method AddApiCall(now: real) returns (status: Result<Status>)
      requires Valid()
      modifies this
      ensures Valid()
      ensures usage == old(usage).(apiCallsMade := old(usage).apiCallsMade + 1) && budget == old(budget)
      ensures status == CheckLimits(budget, usage, now)
    {
      usage := usage.(apiCallsMade := usage.apiCallsMade + 1);
      status := CheckLimits(budget, usage, now);
    }

    /** `load_persona`: records the persona unless it is already loaded, then the limit check. */
    method LoadPersona(personaId: string, now: real) returns (status: Result<Status>)
      requires Valid()
      modifies this
      ensures Valid()
      ensures usage == old(usage).(personasLoaded := WithPersona(old(usage).personasLoaded, personaId))
      ensures budget == old(budget)
      ensures status == CheckLimits(budget, usage, now)
    {
      if personaId !in usage.personasLoaded {
        usage := usage.(personasLoaded := usage.personasLoaded + [personaId]);
      }
      status := CheckLimits(budget, usage, now);
    }

    /** `complete_step`: one more completed or failed step, and the retries added up. */
    method CompleteStep(success: bool := true, retries: int := 0)
      requires Valid()
      modifies this
      ensures Valid()
      ensures success ==> usage == old(usage).(stepsCompleted := old(usage).stepsCompleted + 1,
                                               retriesTotal := old(usage).retriesTotal + retries)
      ensures !success ==> usage == old(usage).(stepsFailed := old(usage).stepsFailed + 1,
                                                retriesTotal := old(usage).retriesTotal + retries)
      ensures budget == old(budget)
    {
      if success {
        usage := usage.(stepsCompleted := usage.stepsCompleted + 1);
      } else {
        usage := usage.(stepsFailed := usage.stepsFailed + 1);
      }
      usage := usage.(retriesTotal := usage.retriesTotal + retries);
    }

    /** `can_continue`: the `ok` flag of the limit check. */
    method CanContinue(now: real) returns (r: Result<bool>)
      ensures var s := CheckLimits(budget, usage, now);
        (r.Ok? <==> s.Ok?) && (r.Ok? ==> r.value == s.value.ok) && (r.Err? ==> r.error == s.error)
    {
      var s := CheckLimits(budget, usage, now);
      r := if s.Ok? then Ok(s.value.ok) else Err(s.error);
    }
  }

  /** However many distinct ids are loaded, the persona count is the number of distinct ids. */
  lemma {:induction false} PersonasDistinct(loaded: seq<string>, ids: seq<string>)
    requires NoDup(loaded)
    ensures var r := LoadAll(loaded, ids);
      NoDup(r) && (forall p :: p in r <==> p in loaded || p in ids) && |r| <= |loaded| + |ids|
  {
    if ids != [] {
      var init, last := ids[..|ids| - 1], ids[|ids| - 1];
      PersonasDistinct(loaded, init);
      assert ids == init + [last];
      assert forall p :: p in ids <==> p in init || p == last;
    }
  }

  /** Loading each of `ids` in turn. */
  function LoadAll(loaded: seq<string>, ids: seq<string>): seq<string>
  {
    if ids == [] then loaded else WithPersona(LoadAll(loaded, ids[..|ids| - 1]), ids[|ids| - 1])
  }
}
