/**
 * The constraint enforcer: action categories and hardening profiles, the
 * ordered forbidden / approval / allow-list check on an action name, the
 * path-prefix and domain-suffix checks, and the audited combination of the
 * three. The audit log file is the `AuditLog` object; `path.resolve` and
 * `new URL(...).hostname` are parameters.
 */
module ConstraintEnforcer {
  import opened Wrappers
  import opened Strings
  import opened Seqs

  datatype ActionType = READ | WRITE | DELETE | EXECUTE | NETWORK | GIT | ANALYZE | UNKNOWN

  /** `ACTION_CATEGORIES`. */
  function Category(t: ActionType): seq<string>
  {
    match t
    case READ => ["read_file", "read_db", "read_api", "list_files", "query_notion", "search"]
    case WRITE => ["write_file", "create_file", "update_db", "create_notion", "update_notion"]
    case DELETE => ["delete_file", "delete_db", "archive_notion", "trash"]
    case EXECUTE => ["exec_command", "run_script", "spawn_process"]
    case NETWORK => ["http_request", "webhook", "send_message", "notify"]
    case GIT => ["git_commit", "git_push", "git_pull", "git_branch"]
    case ANALYZE => ["parse", "validate", "transform", "compare", "summarize"]
    case UNKNOWN => []
  }

  datatype Profile = Profile(allowed: seq<ActionType>, forbidden: seq<ActionType>, requiresApproval: seq<ActionType>)

  /** `HARDENING_PROFILES[level]`. */
  function HardeningProfile(level: string): Option<Profile>
  {
    if level == "Alpha" then Some(Profile([READ, ANALYZE], [DELETE, EXECUTE], [WRITE, NETWORK, GIT]))
    else if level == "Beta" then Some(Profile([READ, ANALYZE, WRITE], [DELETE], [EXECUTE, GIT]))
    else if level == "Stable" then Some(Profile([READ, ANALYZE, WRITE, NETWORK, GIT], [], [DELETE, EXECUTE]))
    else None
  }

  /** `cats.flatMap(cat => ACTION_CATEGORIES[cat] || [])`. */
  function Expand(cats: seq<ActionType>): seq<string>
  {
    if cats == [] then [] else Category(cats[0]) + Expand(cats[1..])
  }

  /** The expansion holds exactly the words of the listed categories. */
  lemma {:induction false} ExpandWords(cats: seq<ActionType>, a: string)
    ensures a in Expand(cats) <==> exists t :: t in cats && a in Category(t)
  {
    if cats != [] {
      ExpandWords(cats[1..], a);
      assert forall t :: t in cats <==> t == cats[0] || t in cats[1..];
    }
  }

  // ------------------------------------------------------------ action type

  /** The keyword groups of `parseActionType`, in the order they are tried. */
  const KEYWORDS: seq<(ActionType, seq<string>)> := [
    (READ, ["read", "get", "fetch"]),
    (WRITE, ["write", "create", "update", "set"]),
    (DELETE, ["delete", "remove", "trash"]),
    (EXECUTE, ["exec", "run", "spawn"]),
    (NETWORK, ["http", "request", "send", "notify"]),
    (GIT, ["git", "commit", "push"]),
    (ANALYZE, ["parse", "validate", "analyze"])]

  /** `words.some(w => s.includes(w))`. */
  predicate MentionsAny(s: string, words: seq<string>)
  {
    exists i :: 0 <= i < |words| && Contains(s, words[i])
  }

  /** The index of the first keyword group, from `i` on, that `s` mentions. */
  function FirstGroup(s: string, i: nat): (r: Option<nat>)
    requires i <= |KEYWORDS|
    ensures r.None? <==> forall j :: i <= j < |KEYWORDS| ==> !MentionsAny(s, KEYWORDS[j].1)
    ensures r.Some? ==> i <= r.value < |KEYWORDS| && MentionsAny(s, KEYWORDS[r.value].1)
    ensures r.Some? ==> forall k :: i <= k < r.value ==> !MentionsAny(s, KEYWORDS[k].1)
    decreases |KEYWORDS| - i
  {
    if i == |KEYWORDS| then None
    else if MentionsAny(s, KEYWORDS[i].1) then Some(i)
    else FirstGroup(s, i + 1)
  }

  /** `parseActionType`: the type of the first group the lower-cased action mentions. */
  function ParseActionType(action: string): (r: ActionType)
    ensures r == UNKNOWN <==> forall j :: 0 <= j < |KEYWORDS| ==> !MentionsAny(LowerStr(action), KEYWORDS[j].1)
  {
    match FirstGroup(LowerStr(action), 0)
    case None => UNKNOWN
    case Some(j) => KEYWORDS[j].0
  }

  // ------------------------------------------------------------ constraints

  datatype Constraints = Constraints(
    allowedActions: seq<string>,
    forbiddenActions: seq<string>,
    requiresApproval: seq<string>,
    maxExecutionTime: nat,
    maxFileSize: nat,
    allowedPaths: seq<string>,
    forbiddenPaths: seq<string>,
    allowedDomains: seq<string>,
    source: string)

  /** The configuration handed to `loadConstraints`. */
  datatype ConstraintConfig = ConstraintConfig(
    hardeningLevel: Option<string>,
    allowedActions: Option<seq<string>>,
    forbiddenActions: Option<seq<string>>)

  const DEFAULT_CONSTRAINTS := Constraints(
    [], [], [], 300, 10 * 1024 * 1024,
    ["/root/clawd/", "/tmp/"], ["/etc/", "/var/", "/usr/"],
    ["api.notion.com", "api.github.com"], "default")

  /** The defaults with the hardening profile applied, when the level names one. */
  function ProfileConstraints(level: Option<string>): (c: Constraints)
    ensures Truthy(level) && HardeningProfile(level.value).Some? ==>
      var p := HardeningProfile(level.value).value;
      c == DEFAULT_CONSTRAINTS.(allowedActions := Expand(p.allowed), forbiddenActions := Expand(p.forbidden),
                                requiresApproval := Expand(p.requiresApproval), source := "hardening:" + level.value)
    ensures !(Truthy(level) && HardeningProfile(level.value).Some?) ==> c == DEFAULT_CONSTRAINTS
  {
    if Truthy(level) && HardeningProfile(level.value).Some? then
      var p := HardeningProfile(level.value).value;
      DEFAULT_CONSTRAINTS.(allowedActions := Expand(p.allowed), forbiddenActions := Expand(p.forbidden),
                           requiresApproval := Expand(p.requiresApproval), source := "hardening:" + level.value)
    else DEFAULT_CONSTRAINTS
  }

  /**
   * `loadConstraints`: the profile, then an explicit allow-list (any array,
   * even an empty one) replaces the allowed actions and marks the source
   * task-specific, and an explicit forbidden list replaces the forbidden ones.
   */
  function LoadConstraints(cfg: ConstraintConfig): (c: Constraints)
    ensures cfg.allowedActions.Some? ==> c.allowedActions == cfg.allowedActions.value && c.source == "task-specific"
    ensures cfg.allowedActions.None? ==>
      c.allowedActions == ProfileConstraints(cfg.hardeningLevel).allowedActions
      && c.source == ProfileConstraints(cfg.hardeningLevel).source
    ensures cfg.forbiddenActions.Some? ==> c.forbiddenActions == cfg.forbiddenActions.value
    ensures cfg.forbiddenActions.None? ==> c.forbiddenActions == ProfileConstraints(cfg.hardeningLevel).forbiddenActions
    ensures c.requiresApproval == ProfileConstraints(cfg.hardeningLevel).requiresApproval
    ensures c.allowedPaths == DEFAULT_CONSTRAINTS.allowedPaths && c.forbiddenPaths == DEFAULT_CONSTRAINTS.forbiddenPaths
    ensures c.allowedDomains == DEFAULT_CONSTRAINTS.allowedDomains
  {
    var base := ProfileConstraints(cfg.hardeningLevel);
    var withAllowed := if cfg.allowedActions.Some? then base.(allowedActions := cfg.allowedActions.value, source := "task-specific") else base;
    if cfg.forbiddenActions.Some? then withAllowed.(forbiddenActions := cfg.forbiddenActions.value) else withAllowed
  }

  /** An unknown or missing level leaves every action list empty and the source 'default'. */
  lemma UnknownLevelIsDefault(cfg: ConstraintConfig)
    requires cfg.hardeningLevel.None? || HardeningProfile(cfg.hardeningLevel.value).None?
    requires cfg.allowedActions.None? && cfg.forbiddenActions.None?
    ensures LoadConstraints(cfg).allowedActions == [] && LoadConstraints(cfg).forbiddenActions == []
    ensures LoadConstraints(cfg).requiresApproval == [] && LoadConstraints(cfg).source == "default"
  {
  }

  // --------------------------------------------------------------- actions

  datatype ActionCheck = ActionCheck(
    action: string,
    actionType: ActionType,
    allowed: bool,
    requiresApproval: bool,
    reason: string,
    timestamp: int)

  /** `list.some(a => actionLower.includes(a.toLowerCase()))`. */
  predicate Lists(actionLower: string, list: seq<string>)
  {
    MentionsAny(actionLower, Map(LowerStr, list))
  }

  /**
   * `validateAction`: forbidden substrings are checked first, then approval
   * substrings, then the allow-list, which an empty list satisfies.
   */
  function ValidateAction(action: string, c: Constraints, now: int): (r: ActionCheck)
    ensures r.action == action && r.actionType == ParseActionType(action) && r.timestamp == now
    ensures r.allowed <==>
      && !Lists(LowerStr(action), c.forbiddenActions)
      && !Lists(LowerStr(action), c.requiresApproval)
      && (c.allowedActions == [] || Lists(LowerStr(action), c.allowedActions))
    ensures r.requiresApproval <==>
      !Lists(LowerStr(action), c.forbiddenActions) && Lists(LowerStr(action), c.requiresApproval)
    ensures Lists(LowerStr(action), c.forbiddenActions) ==> r.reason == "Action is explicitly forbidden"
    ensures r.allowed ==> r.reason == "Action permitted"
  {
    var lower := LowerStr(action);
    var base := ActionCheck(action, ParseActionType(action), false, false, "", now);
    if Lists(lower, c.forbiddenActions) then base.(reason := "Action is explicitly forbidden")
    else if Lists(lower, c.requiresApproval) then base.(requiresApproval := true, reason := "Action requires manual approval")
    else if !(c.allowedActions == [] || Lists(lower, c.allowedActions)) then base.(reason := "Action not in allowed list")
    else base.(allowed := true, reason := "Action permitted")
  }

  /** A forbidden action is refused without an approval request, whatever the other lists say. */
  lemma ForbiddenWins(action: string, c: Constraints, now: int)
    requires Lists(LowerStr(action), c.forbiddenActions)
    ensures !ValidateAction(action, c, now).allowed && !ValidateAction(action, c, now).requiresApproval
  {
  }

  /** With an empty allow-list, every action that is neither forbidden nor approval-gated is allowed. */
  lemma EmptyAllowListAllows(action: string, c: Constraints, now: int)
    requires c.allowedActions == []
    requires !Lists(LowerStr(action), c.forbiddenActions) && !Lists(LowerStr(action), c.requiresApproval)
    ensures ValidateAction(action, c, now).allowed
  {
  }

  /** The words of `list`, lower-cased, that some witness character keeps out of `s`. */
  lemma NotListed(s: string, list: seq<string>, ws: seq<nat>, cs: string)
    requires |ws| == |list| && |cs| == |list|
    requires forall i :: 0 <= i < |list| ==> ws[i] < |list[i]| && list[i][ws[i]] == cs[i]
    requires forall i :: 0 <= i < |cs| ==> !IsUpper(cs[i])
    requires Avoids(s, cs)
    ensures !Lists(s, list)
  {
    NoneContains(s, list, ws, cs);
  }

  /** An action that names one of the listed words, lower-cased, is listed. */
  lemma Listed(s: string, list: seq<string>, i: nat)
    requires i < |list| && Contains(s, LowerStr(list[i]))
    ensures Lists(s, list)
  {
    assert Map(LowerStr, list)[i] == LowerStr(list[i]);
  }

  lemma ListsAppend(s: string, a: seq<string>, b: seq<string>)
    ensures Lists(s, a + b) <==> Lists(s, a) || Lists(s, b)
  {
    var la, lb, lab := Map(LowerStr, a), Map(LowerStr, b), Map(LowerStr, a + b);
    if Lists(s, a) {
      var i :| 0 <= i < |la| && Contains(s, la[i]);
      assert lab[i] == la[i];
    }
    if Lists(s, b) {
      var i :| 0 <= i < |lb| && Contains(s, lb[i]);
      assert lab[|a| + i] == lb[i];
    }
    if Lists(s, a + b) {
      var i :| 0 <= i < |lab| && Contains(s, lab[i]);
      if i < |a| { assert la[i] == lab[i]; } else { assert lb[i - |a|] == lab[i]; }
    }
  }

  lemma ExpandCons(t: ActionType, rest: seq<ActionType>)
    ensures Expand([t] + rest) == Category(t) + Expand(rest)
  {
    assert ([t] + rest)[1..] == rest;
  }

  function AtLevel(level: string): Constraints
  {
    LoadConstraints(ConstraintConfig(Some(level), None, None))
  }

  /** Constraints whose action lists are the Alpha profile's, category by category. */
  predicate AlphaShaped(c: Constraints)
  {
    && c.allowedActions == Category(READ) + Category(ANALYZE)
    && c.forbiddenActions == Category(DELETE) + Category(EXECUTE)
    && c.requiresApproval == Category(WRITE) + (Category(NETWORK) + Category(GIT))
  }

  /** Constraints whose action lists are the Beta profile's, category by category. */
  predicate BetaShaped(c: Constraints)
  {
    && c.allowedActions == Category(READ) + (Category(ANALYZE) + Category(WRITE))
    && c.forbiddenActions == Category(DELETE)
    && c.requiresApproval == Category(EXECUTE) + Category(GIT)
  }

  /** Constraints whose action lists are the Stable profile's, category by category. */
  predicate StableShaped(c: Constraints)
  {
    && c.allowedActions == Category(READ) + (Category(ANALYZE) + (Category(WRITE) + (Category(NETWORK) + Category(GIT))))
    && c.forbiddenActions == []
    && c.requiresApproval == Category(DELETE) + Category(EXECUTE)
  }

  lemma Expand2(a: ActionType, b: ActionType)
    ensures Expand([a, b]) == Category(a) + Category(b)
  {
    ExpandCons(a, [b]);
    ExpandCons(b, []);
  }

  lemma Expand3(a: ActionType, b: ActionType, c: ActionType)
    ensures Expand([a, b, c]) == Category(a) + (Category(b) + Category(c))
  {
    ExpandCons(a, [b, c]);
    Expand2(b, c);
  }

  /** Loading a level the profile table names applies that profile to the defaults. */
  lemma AlphaProfile()
    ensures AtLevel("Alpha") == DEFAULT_CONSTRAINTS.(
      allowedActions := Expand([READ, ANALYZE]), forbiddenActions := Expand([DELETE, EXECUTE]),
      requiresApproval := Expand([WRITE, NETWORK, GIT]), source := "hardening:Alpha")
  {
  }

  lemma BetaProfile()
    ensures AtLevel("Beta") == DEFAULT_CONSTRAINTS.(
      allowedActions := Expand([READ, ANALYZE, WRITE]), forbiddenActions := Expand([DELETE]),
      requiresApproval := Expand([EXECUTE, GIT]), source := "hardening:Beta")
  {
  }

  lemma StableProfile()
    ensures AtLevel("Stable") == DEFAULT_CONSTRAINTS.(
      allowedActions := Expand([READ, ANALYZE, WRITE, NETWORK, GIT]), forbiddenActions := Expand([]),
      requiresApproval := Expand([DELETE, EXECUTE]), source := "hardening:Stable")
  {
  }

  /** Loading the Alpha level yields the Alpha lists, with source 'hardening:Alpha'. */
  lemma AlphaLists()
    ensures AlphaShaped(AtLevel("Alpha")) && AtLevel("Alpha").source == "hardening:Alpha"
  {
    AlphaProfile();
    Expand2(READ, ANALYZE);
    Expand2(DELETE, EXECUTE);
    Expand3(WRITE, NETWORK, GIT);
  }

  /** Loading the Beta level yields the Beta lists, with source 'hardening:Beta'. */
  lemma BetaLists()
    ensures BetaShaped(AtLevel("Beta")) && AtLevel("Beta").source == "hardening:Beta"
  {
    BetaProfile();
    Expand3(READ, ANALYZE, WRITE);
    ExpandCons(DELETE, []);
    Expand2(EXECUTE, GIT);
  }

  /** Loading the Stable level yields the Stable lists, with source 'hardening:Stable'. */
  lemma StableLists()
    ensures StableShaped(AtLevel("Stable")) && AtLevel("Stable").source == "hardening:Stable"
  {
    StableProfile();
    ExpandCons(READ, [ANALYZE, WRITE, NETWORK, GIT]);
    ExpandCons(ANALYZE, [WRITE, NETWORK, GIT]);
    Expand3(WRITE, NETWORK, GIT);
    Expand2(DELETE, EXECUTE);
  }

  // ------------------------------------------------------------ paths, domains

  /** The outcome of the path and domain checks. */
  datatype Verdict = Verdict(allowed: bool, reason: string)

  /** The first of `prefixes` that `p` starts with, if any. */
  function FirstPrefix(p: string, prefixes: seq<string>): (r: Option<string>)
    ensures r.Some? ==> r.value in prefixes && StartsWith(p, r.value)
    ensures r.None? <==> forall i :: 0 <= i < |prefixes| ==> !StartsWith(p, prefixes[i])
  {
    if prefixes == [] then None
    else if StartsWith(p, prefixes[0]) then Some(prefixes[0])
    else FirstPrefix(p, prefixes[1..])
  }

  /** `FirstPrefix` names the earliest matching prefix of the list. */
  lemma {:induction false} FirstPrefixIsFirst(p: string, prefixes: seq<string>)
    requires FirstPrefix(p, prefixes).Some?
    ensures exists i :: 0 <= i < |prefixes| && prefixes[i] == FirstPrefix(p, prefixes).value
                        && (forall k :: 0 <= k < i ==> !StartsWith(p, prefixes[k]))
  {
    if !StartsWith(p, prefixes[0]) {
      FirstPrefixIsFirst(p, prefixes[1..]);
      var i :| 0 <= i < |prefixes[1..]| && prefixes[1..][i] == FirstPrefix(p, prefixes).value
        && forall k :: 0 <= k < i ==> !StartsWith(p, prefixes[1..][k]);
      assert prefixes[i + 1] == FirstPrefix(p, prefixes).value;
    } else {
      assert prefixes[0] == FirstPrefix(p, prefixes).value;
    }
  }

  /** `list.some(a => p.startsWith(a))`. */
  predicate UnderAny(p: string, prefixes: seq<string>)
  {
    exists i :: 0 <= i < |prefixes| && StartsWith(p, prefixes[i])
  }

  /**
   * `validatePath`, on the path `path.resolve` has already normalised: a
   * forbidden prefix refuses it, then a non-empty allowed list must hold a
   * prefix of it.
   */
  function ValidatePath(p: string, c: Constraints): (r: Verdict)
    ensures r.allowed <==>
      (forall i :: 0 <= i < |c.forbiddenPaths| ==> !StartsWith(p, c.forbiddenPaths[i]))
      && (c.allowedPaths == [] || UnderAny(p, c.allowedPaths))
    ensures r.allowed ==> r.reason == "Path permitted"
    ensures FirstPrefix(p, c.forbiddenPaths).Some? ==>
      r.reason == "Path " + p + " is in forbidden zone: " + FirstPrefix(p, c.forbiddenPaths).value
  {
    match FirstPrefix(p, c.forbiddenPaths)
    case Some(f) => Verdict(false, "Path " + p + " is in forbidden zone: " + f)
    case None =>
      if c.allowedPaths != [] && !UnderAny(p, c.allowedPaths) then
        Verdict(false, "Path " + p + " not in allowed zones: " + Join(c.allowedPaths, ", "))
      else Verdict(true, "Path permitted")
  }

  /** A path under a forbidden prefix is refused even when an allowed prefix also covers it. */
  lemma ForbiddenZoneWins(p: string, c: Constraints, i: nat)
    requires i < |c.forbiddenPaths| && StartsWith(p, c.forbiddenPaths[i]) && UnderAny(p, c.allowedPaths)
    ensures !ValidatePath(p, c).allowed
  {
  }

  /** Two prefixes that differ at a position both cover cannot both start one path. */
  lemma PrefixesClash(p: string, a: string, b: string, k: nat)
    requires k < |a| && k < |b| && a[k] != b[k]
    ensures !(StartsWith(p, a) && StartsWith(p, b))
  {
  }

  /**
   * Under the default zones a path is permitted exactly when it lies under
   * '/root/clawd/' or '/tmp/': no allowed zone overlaps a forbidden one.
   */
  lemma DefaultPaths(p: string, c: Constraints)
    requires c.allowedPaths == DEFAULT_CONSTRAINTS.allowedPaths && c.forbiddenPaths == DEFAULT_CONSTRAINTS.forbiddenPaths
    ensures ValidatePath(p, c).allowed <==> StartsWith(p, "/root/clawd/") || StartsWith(p, "/tmp/")
  {
    var allowed, forbidden := c.allowedPaths, c.forbiddenPaths;
    if StartsWith(p, "/root/clawd/") || StartsWith(p, "/tmp/") {
      forall i | 0 <= i < |forbidden| ensures !StartsWith(p, forbidden[i]) {
        PrefixesClash(p, "/root/clawd/", forbidden[i], 1);
        PrefixesClash(p, "/tmp/", forbidden[i], 1);
      }
      assert StartsWith(p, allowed[0]) || StartsWith(p, allowed[1]);
    }
  }

  /** `domain === allowed || domain.endsWith('.' + allowed)`. */
  predicate DomainMatches(host: string, allowed: string)
  {
    host == allowed || EndsWith(host, "." + allowed)
  }

  /**
   * `validateDomain`, on the host name `new URL(url).hostname` yields, or
   * `None` when the URL does not parse.
   */
  function ValidateDomain(host: Option<string>, c: Constraints): (r: Verdict)
    ensures r.allowed <==>
      host.Some? && (c.allowedDomains == [] || exists i :: 0 <= i < |c.allowedDomains| && DomainMatches(host.value, c.allowedDomains[i]))
    ensures host.None? ==> r.reason == "Invalid URL"
    ensures r.allowed ==> r.reason == "Domain permitted"
  {
    match host
    case None => Verdict(false, "Invalid URL")
    case Some(d) =>
      if c.allowedDomains != [] && !(exists i :: 0 <= i < |c.allowedDomains| && DomainMatches(d, c.allowedDomains[i])) then
        Verdict(false, "Domain " + d + " not in allowed list: " + Join(c.allowedDomains, ", "))
      else Verdict(true, "Domain permitted")
  }

  /** Every sub-domain of an allowed domain is allowed. */
  lemma SubdomainAllowed(name: string, i: nat, c: Constraints)
    requires i < |c.allowedDomains|
    ensures ValidateDomain(Some(name + "." + c.allowedDomains[i]), c).allowed
  {
    var a := c.allowedDomains[i];
    assert (name + "." + a)[|name + "." + a| - |"." + a|..] == "." + a;
    assert DomainMatches(name + "." + a, a);
  }

  /** A host that merely ends with an allowed name, without the dot, is refused. */
  lemma SuffixWithoutDotRefused(host: string, c: Constraints)
    requires host == "evilapi.github.com"
    requires c.allowedDomains == DEFAULT_CONSTRAINTS.allowedDomains
    ensures !ValidateDomain(Some(host), c).allowed
  {
    forall i | 0 <= i < |c.allowedDomains| ensures !DomainMatches(host, c.allowedDomains[i]) {
      var a := c.allowedDomains[i];
      assert |a| == 14;
      assert host[3] != ("." + a)[0];
    }
  }

  // ------------------------------------------------------------ audits

  /** The call's context: the runner passes only a task id. */
  datatype Context = Context(taskId: Option<string>, path: Option<string>, url: Option<string>)

  /** One entry of `audit.checks`, tagged with the check's type. */
  datatype CheckRecord = ActionRecord(check: ActionCheck) | PathRecord(verdict: Verdict) | DomainRecord(verdict: Verdict)
  {
    predicate Allowed()
    {
      if ActionRecord? then check.allowed else verdict.allowed
    }

    function Reason(): string
    {
      if ActionRecord? then check.reason else verdict.reason
    }
  }

  datatype Audit = Audit(
    action: string,
    context: Context,
    timestamp: int,
    checks: seq<CheckRecord>,
    allowed: bool,
    reason: Option<string>,
    requiresApproval: Option<bool>)

  /** The reason of the first check that failed, or none when all passed. */
  function FirstFailure(checks: seq<CheckRecord>): (r: Option<string>)
    ensures r.None? <==> forall i :: 0 <= i < |checks| ==> checks[i].Allowed()
  {
    if checks == [] then None
    else if !checks[0].Allowed() then Some(checks[0].Reason())
    else FirstFailure(checks[1..])
  }

  /** The optional check, as a list of zero or one records. */
  function Optional(v: Option<Verdict>, isPath: bool): (r: seq<CheckRecord>)
    ensures |r| == (if v.Some? then 1 else 0)
    ensures v.Some? ==> r[0] == if isPath then PathRecord(v.value) else DomainRecord(v.value)
  {
    if v.None? then [] else if isPath then [PathRecord(v.value)] else [DomainRecord(v.value)]
  }

  /**
   * The audit built from the action check and the optional path and domain
   * checks, in that order: it is allowed iff every check is, its reason is
   * the first failing check's, and only a failed action check sets the
   * approval flag.
   */
  function Assemble(action: string, ctx: Context, now: int, a: ActionCheck,
                    pv: Option<Verdict>, dv: Option<Verdict>): (r: Audit)
    ensures r.action == action && r.context == ctx && r.timestamp == now
    ensures r.checks == [ActionRecord(a)] + Optional(pv, true) + Optional(dv, false)
    ensures r.allowed <==> a.allowed && (pv.Some? ==> pv.value.allowed) && (dv.Some? ==> dv.value.allowed)
    ensures r.reason == FirstFailure(r.checks)
    ensures r.reason.None? <==> r.allowed
    ensures !a.allowed ==> r.reason == Some(a.reason)
    ensures r.requiresApproval == if a.allowed then None else Some(a.requiresApproval)
  {
    var pathChecks, domainChecks := Optional(pv, true), Optional(dv, false);
    var checks := [ActionRecord(a)] + pathChecks + domainChecks;
    assert checks[0].Allowed() == a.allowed;
    assert forall i :: 0 <= i < |pathChecks| ==> checks[1 + i] == pathChecks[i];
    assert forall i :: 0 <= i < |domainChecks| ==> checks[1 + |pathChecks| + i] == domainChecks[i];
    assert (forall i :: 0 <= i < |checks| ==> checks[i].Allowed()) <==>
      a.allowed && (forall i :: 0 <= i < |pathChecks| ==> pathChecks[i].Allowed())
      && (forall i :: 0 <= i < |domainChecks| ==> domainChecks[i].Allowed());
    Audit(action, ctx, now, checks, FirstFailure(checks).None?, FirstFailure(checks),
          if a.allowed then None else Some(a.requiresApproval))
  }

  /**
   * The audit `enforceConstraints` records: the action check always, the
   * path check when the context has a path, the domain check when it has a
   * URL. `resolve` stands for `path.resolve` and `hostOf` for URL parsing.
   */
  function Enforce(action: string, ctx: Context, c: Constraints, now: int,
                   resolve: string -> string, hostOf: string -> Option<string>): (r: Audit)
    ensures r.allowed <==>
      && ValidateAction(action, c, now).allowed
      && (Truthy(ctx.path) ==> ValidatePath(resolve(ctx.path.value), c).allowed)
      && (Truthy(ctx.url) ==> ValidateDomain(hostOf(ctx.url.value), c).allowed)
    ensures r.reason.None? <==> r.allowed
    ensures !ValidateAction(action, c, now).allowed ==> r.reason == Some(ValidateAction(action, c, now).reason)
  {
    Assemble(action, ctx, now, ValidateAction(action, c, now),
             if Truthy(ctx.path) then Some(ValidatePath(resolve(ctx.path.value), c)) else None,
             if Truthy(ctx.url) then Some(ValidateDomain(hostOf(ctx.url.value), c)) else None)
  }


  /** The audit log file: every enforcement appends its audit. */
  class AuditLog {
    var audits: seq<Audit>

    constructor ()
      ensures audits == []
    {
      audits := [];
    }

    /** `enforceConstraints`: computes the audit and appends exactly that one audit to the log. */
    method EnforceConstraints(action: string, ctx: Context, c: Constraints, now: int,
                              resolve: string -> string, hostOf: string -> Option<string>) returns (audit: Audit)
      modifies this
      ensures audit == Enforce(action, ctx, c, now, resolve, hostOf)
      ensures audits == old(audits) + [audit]
    {
      audit := Enforce(action, ctx, c, now, resolve, hostOf);
      audits := audits + [audit];
    }
  }

  // The category words an action name does not contain, each shown by a
  // character of every word that the name never uses.

  lemma ReadFileMissesDelete(s: string)
    requires s == "read_file"
    ensures !Lists(s, Category(DELETE))
  {
    NotListed(s, Category(DELETE), [4, 4, 2, 0], "ttct");
  }

  lemma ReadFileMissesExecute(s: string)
    requires s == "read_file"
    ensures !Lists(s, Category(EXECUTE))
  {
    NotListed(s, Category(EXECUTE), [1, 1, 0], "xus");
  }

  lemma ReadFileMissesWrite(s: string)
    requires s == "read_file"
    ensures !Lists(s, Category(WRITE))
  {
    NotListed(s, Category(WRITE), [0, 0, 0, 0, 0], "wcucu");
  }

  lemma ReadFileMissesNetwork(s: string)
    requires s == "read_file"
    ensures !Lists(s, Category(NETWORK))
  {
    NotListed(s, Category(NETWORK), [0, 0, 0, 0], "hwsn");
  }

  lemma ReadFileMissesGit(s: string)
    requires s == "read_file"
    ensures !Lists(s, Category(GIT))
  {
    NotListed(s, Category(GIT), [0, 0, 0, 0], "gggg");
  }

  lemma ParseJsonMissesDelete(s: string)
    requires s == "parse_json"
    ensures !Lists(s, Category(DELETE))
  {
    NotListed(s, Category(DELETE), [0, 0, 2, 0], "ddct");
  }

  lemma ParseJsonMissesExecute(s: string)
    requires s == "parse_json"
    ensures !Lists(s, Category(EXECUTE))
  {
    NotListed(s, Category(EXECUTE), [1, 1, 3], "xuw");
  }

  lemma ParseJsonMissesWrite(s: string)
    requires s == "parse_json"
    ensures !Lists(s, Category(WRITE))
  {
    NotListed(s, Category(WRITE), [0, 0, 0, 0, 0], "wcucu");
  }

  lemma ParseJsonMissesNetwork(s: string)
    requires s == "parse_json"
    ensures !Lists(s, Category(NETWORK))
  {
    NotListed(s, Category(NETWORK), [0, 0, 3, 2], "hwdt");
  }

  lemma ParseJsonMissesGit(s: string)
    requires s == "parse_json"
    ensures !Lists(s, Category(GIT))
  {
    NotListed(s, Category(GIT), [0, 0, 0, 0], "gggg");
  }

  lemma ValidateSchemaMissesDelete(s: string)
    requires s == "validate_schema"
    ensures !Lists(s, Category(DELETE))
  {
    NotListed(s, Category(DELETE), [7, 8, 1, 1], "fbrr");
  }

  lemma ValidateSchemaMissesExecute(s: string)
    requires s == "validate_schema"
    ensures !Lists(s, Category(EXECUTE))
  {
    NotListed(s, Category(EXECUTE), [1, 0, 1], "xrp");
  }

  lemma ValidateSchemaMissesWrite(s: string)
    requires s == "validate_schema"
    ensures !Lists(s, Category(WRITE))
  {
    NotListed(s, Category(WRITE), [0, 1, 0, 1, 0], "wruru");
  }

  lemma ValidateSchemaMissesNetwork(s: string)
    requires s == "validate_schema"
    ensures !Lists(s, Category(NETWORK))
  {
    NotListed(s, Category(NETWORK), [3, 0, 2, 0], "pwnn");
  }

  lemma ValidateSchemaMissesGit(s: string)
    requires s == "validate_schema"
    ensures !Lists(s, Category(GIT))
  {
    NotListed(s, Category(GIT), [0, 0, 0, 0], "gggg");
  }

  lemma ExecuteTaskMissesRead(s: string)
    requires s == "execute_task"
    ensures !Lists(s, Category(READ))
  {
    NotListed(s, Category(READ), [0, 0, 0, 0, 0, 3], "rrrlqr");
  }

  lemma ExecuteTaskMissesAnalyze(s: string)
    requires s == "execute_task"
    ensures !Lists(s, Category(ANALYZE))
  {
    NotListed(s, Category(ANALYZE), [0, 0, 1, 1, 2], "pvrom");
  }

  lemma ExecuteTaskMissesWrite(s: string)
    requires s == "execute_task"
    ensures !Lists(s, Category(WRITE))
  {
    NotListed(s, Category(WRITE), [0, 1, 1, 1, 1], "wrprp");
  }

  lemma ExecuteTaskMissesNetwork(s: string)
    requires s == "execute_task"
    ensures !Lists(s, Category(NETWORK))
  {
    NotListed(s, Category(NETWORK), [0, 0, 2, 0], "hwnn");
  }

  lemma ExecuteTaskMissesGit(s: string)
    requires s == "execute_task"
    ensures !Lists(s, Category(GIT))
  {
    NotListed(s, Category(GIT), [0, 0, 0, 0], "gggg");
  }

  /** Under Alpha, `read_file` is allowed. */
  lemma AlphaReadFile(s: string, c: Constraints, now: int)
    requires s == "read_file" && AlphaShaped(c)
    ensures ValidateAction(s, c, now).allowed
  {
    ReadFileMissesDelete(s);
    ReadFileMissesExecute(s);
    ReadFileMissesWrite(s);
    ReadFileMissesNetwork(s);
    ReadFileMissesGit(s);
    ListsAppend(s, Category(DELETE), Category(EXECUTE));
    ListsAppend(s, Category(NETWORK), Category(GIT));
    ListsAppend(s, Category(WRITE), Category(NETWORK) + Category(GIT));
    LowerStrIs("read_file", "read_file");
    ContainsAt(s, "read_file", 0);
    Listed(s, Category(READ), 0);
    ListsAppend(s, Category(READ), Category(ANALYZE));
    LowerStrIs(s, s);
  }

  /** Under Alpha, `write_file` is refused: it needs approval. */
  lemma AlphaWriteFile(s: string, c: Constraints, now: int)
    requires s == "write_file" && AlphaShaped(c)
    ensures !ValidateAction(s, c, now).allowed
  {
    LowerStrIs("write_file", "write_file");
    ContainsAt(s, "write_file", 0);
    Listed(s, Category(WRITE), 0);
    ListsAppend(s, Category(NETWORK), Category(GIT));
    ListsAppend(s, Category(WRITE), Category(NETWORK) + Category(GIT));
    LowerStrIs(s, s);
  }

  /** Under Alpha, `delete_file` is forbidden. */
  lemma AlphaDeleteFile(s: string, c: Constraints, now: int)
    requires s == "delete_file" && AlphaShaped(c)
    ensures !ValidateAction(s, c, now).allowed
  {
    LowerStrIs("delete_file", "delete_file");
    ContainsAt(s, "delete_file", 0);
    Listed(s, Category(DELETE), 0);
    ListsAppend(s, Category(DELETE), Category(EXECUTE));
    LowerStrIs(s, s);
  }

  /** Under Alpha, `exec_command` is forbidden. */
  lemma AlphaExecCommand(s: string, c: Constraints, now: int)
    requires s == "exec_command" && AlphaShaped(c)
    ensures !ValidateAction(s, c, now).allowed
  {
    LowerStrIs("exec_command", "exec_command");
    ContainsAt(s, "exec_command", 0);
    Listed(s, Category(EXECUTE), 0);
    ListsAppend(s, Category(DELETE), Category(EXECUTE));
    LowerStrIs(s, s);
  }

  /** Under Alpha, `parse_json` is allowed. */
  lemma AlphaParseJson(s: string, c: Constraints, now: int)
    requires s == "parse_json" && AlphaShaped(c)
    ensures ValidateAction(s, c, now).allowed
  {
    ParseJsonMissesDelete(s);
    ParseJsonMissesExecute(s);
    ParseJsonMissesWrite(s);
    ParseJsonMissesNetwork(s);
    ParseJsonMissesGit(s);
    ListsAppend(s, Category(DELETE), Category(EXECUTE));
    ListsAppend(s, Category(NETWORK), Category(GIT));
    ListsAppend(s, Category(WRITE), Category(NETWORK) + Category(GIT));
    LowerStrIs("parse", "parse");
    ContainsAt(s, "parse", 0);
    Listed(s, Category(ANALYZE), 0);
    ListsAppend(s, Category(READ), Category(ANALYZE));
    LowerStrIs(s, s);
  }

  /** Under Alpha, `validate_schema` is allowed. */
  lemma AlphaValidateSchema(s: string, c: Constraints, now: int)
    requires s == "validate_schema" && AlphaShaped(c)
    ensures ValidateAction(s, c, now).allowed
  {
    ValidateSchemaMissesDelete(s);
    ValidateSchemaMissesExecute(s);
    ValidateSchemaMissesWrite(s);
    ValidateSchemaMissesNetwork(s);
    ValidateSchemaMissesGit(s);
    ListsAppend(s, Category(DELETE), Category(EXECUTE));
    ListsAppend(s, Category(NETWORK), Category(GIT));
    ListsAppend(s, Category(WRITE), Category(NETWORK) + Category(GIT));
    LowerStrIs("validate", "validate");
    ContainsAt(s, "validate", 0);
    Listed(s, Category(ANALYZE), 1);
    ListsAppend(s, Category(READ), Category(ANALYZE));
    LowerStrIs(s, s);
  }

  /** Under Alpha, the runner's `execute_task` is in no allow-list, so it is refused. */
  lemma ExecuteTaskRefusedAlpha(s: string, c: Constraints, now: int)
    requires s == "execute_task" && AlphaShaped(c)
    ensures !ValidateAction(s, c, now).allowed
  {
    ExecuteTaskMissesRead(s);
    ExecuteTaskMissesAnalyze(s);
    ListsAppend(s, Category(READ), Category(ANALYZE));
    LowerStrIs(s, s);
  }

  /** Under Beta, the runner's `execute_task` is in no allow-list, so it is refused. */
  lemma ExecuteTaskRefusedBeta(s: string, c: Constraints, now: int)
    requires s == "execute_task" && BetaShaped(c)
    ensures !ValidateAction(s, c, now).allowed
  {
    ExecuteTaskMissesRead(s);
    ExecuteTaskMissesAnalyze(s);
    ExecuteTaskMissesWrite(s);
    ListsAppend(s, Category(ANALYZE), Category(WRITE));
    ListsAppend(s, Category(READ), Category(ANALYZE) + Category(WRITE));
    LowerStrIs(s, s);
  }

  /** Under Stable, the runner's `execute_task` is in no allow-list, so it is refused. */
  lemma ExecuteTaskRefusedStable(s: string, c: Constraints, now: int)
    requires s == "execute_task" && StableShaped(c)
    ensures !ValidateAction(s, c, now).allowed
  {
    ExecuteTaskMissesRead(s);
    ExecuteTaskMissesAnalyze(s);
    ExecuteTaskMissesWrite(s);
    ExecuteTaskMissesNetwork(s);
    ExecuteTaskMissesGit(s);
    ListsAppend(s, Category(NETWORK), Category(GIT));
    ListsAppend(s, Category(WRITE), Category(NETWORK) + Category(GIT));
    ListsAppend(s, Category(ANALYZE), Category(WRITE) + (Category(NETWORK) + Category(GIT)));
    ListsAppend(s, Category(READ), Category(ANALYZE) + (Category(WRITE) + (Category(NETWORK) + Category(GIT))));
    LowerStrIs(s, s);
  }


  /**
   * At every level the profile table names, the runner's `execute_task`
   * action is refused; only an unknown level (empty lists) lets it through.
   */
  lemma ExecuteTaskRefusedAtKnownLevels(s: string, level: string, now: int)
    requires s == "execute_task" && HardeningProfile(level).Some?
    ensures !ValidateAction(s, AtLevel(level), now).allowed
  {
    if level == "Alpha" {
      AlphaLists();
      ExecuteTaskRefusedAlpha(s, AtLevel(level), now);
    } else if level == "Beta" {
      BetaLists();
      ExecuteTaskRefusedBeta(s, AtLevel(level), now);
    } else {
      StableLists();
      ExecuteTaskRefusedStable(s, AtLevel(level), now);
    }
  }

  /** Under an unknown level every action that is listed nowhere passes, `execute_task` included. */
  lemma UnknownLevelAllows(action: string, level: string, now: int)
    requires HardeningProfile(level).None?
    ensures ValidateAction(action, AtLevel(level), now).allowed
  {
    UnknownLevelIsDefault(ConstraintConfig(Some(level), None, None));
  }
}
