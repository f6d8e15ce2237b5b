/**
 * The persona loader of the Night Shift: a persona record read from a
 * Notion page, the night-shift eligibility checks, the roster filter, the
 * execution context handed to an agent and the system prompt built from it.
 */
module PersonaLoader {
  import opened Wrappers
  import opened NotionProps
  import opened Checks
  import opened Seqs

  datatype Persona = Persona(
    id: string,
    codename: Option<string>,
    displayName: Option<string>,
    entityType: Option<string>,
    hardeningLevel: Option<string>,
    lifecycleState: Option<string>,
    maturityStage: Option<string>,
    primaryJob: Option<string>,
    decisionRule: Option<string>,
    allowedActions: Option<seq<string>>,
    escalationTriggers: Option<string>,
    defaultOutputs: Option<string>,
    formatPreference: Option<string>,
    domain: Option<seq<string>>,
    team: Option<string>,
    complianceLevel: Option<int>)

  datatype Page = Page(id: string, properties: Props)

  /** Reads each persona field with its declared property type. */
  function ParsePersona(page: Page): (p: Persona)
    ensures p.id == page.id
    ensures ReadsText(page.properties, "codename", RichText, p.codename)
    ensures ReadsText(page.properties, "displayName", Title, p.displayName)
    ensures ReadsText(page.properties, "entityType", RichText, p.entityType)
    ensures ReadsText(page.properties, "hardeningLevel", Select, p.hardeningLevel)
    ensures ReadsText(page.properties, "lifecycleState", Select, p.lifecycleState)
    ensures ReadsText(page.properties, "maturityStage", RichText, p.maturityStage)
    ensures ReadsText(page.properties, "primaryJob", RichText, p.primaryJob)
    ensures ReadsText(page.properties, "decisionRule", RichText, p.decisionRule)
    ensures ReadsNames(page.properties, "allowedActions", p.allowedActions)
    ensures ReadsText(page.properties, "escalationTriggers", RichText, p.escalationTriggers)
    ensures ReadsText(page.properties, "defaultOutputs", RichText, p.defaultOutputs)
    ensures ReadsText(page.properties, "formatPreference", RichText, p.formatPreference)
    ensures ReadsNames(page.properties, "domain", p.domain)
    ensures ReadsText(page.properties, "team", Select, p.team)
    ensures ReadsNum(page.properties, "complianceLevel", p.complianceLevel)
  {
    var ps := page.properties;
    Persona(
      page.id,
      TextProp(ps, "codename", RichText),
      TextProp(ps, "displayName", Title),
      TextProp(ps, "entityType", RichText),
      TextProp(ps, "hardeningLevel", Select),
      TextProp(ps, "lifecycleState", Select),
      TextProp(ps, "maturityStage", RichText),
      TextProp(ps, "primaryJob", RichText),
      TextProp(ps, "decisionRule", RichText),
      NamesProp(ps, "allowedActions"),
      TextProp(ps, "escalationTriggers", RichText),
      TextProp(ps, "defaultOutputs", RichText),
      TextProp(ps, "formatPreference", RichText),
      NamesProp(ps, "domain"),
      TextProp(ps, "team", Select),
      NumProp(ps, "complianceLevel"))
  }

  // ---------------------------------------------------------------------
  // Eligibility and the roster

  predicate IsPersona(p: Persona) { p.entityType == Some("PERSONA") }
  predicate IsActive(p: Persona) { p.lifecycleState == Some("ACTIVE") }
  /** `['Beta', 'Stable'].includes(hardeningLevel)`. */
  predicate IsHardened(p: Persona) { p.hardeningLevel == Some("Beta") || p.hardeningLevel == Some("Stable") }

  datatype Eligibility = Eligibility(passed: bool, checks: seq<Check>, failures: seq<string>)

  /** The five checks, in declaration order. */
  function PersonaChecks(p: Persona): (cs: seq<Check>)
    ensures |cs| == 5
  {
    [Check("isPersona", IsPersona(p)),
     Check("isActive", IsActive(p)),
     Check("isHardened", IsHardened(p)),
     Check("hasCodename", Truthy(p.codename)),
     Check("hasPrimaryJob", Truthy(p.primaryJob))]
  }

  function ValidateNightShiftEligibility(p: Persona): (r: Eligibility)
    ensures r.passed <==> IsPersona(p) && IsActive(p) && IsHardened(p) && Truthy(p.codename) && Truthy(p.primaryJob)
    ensures r.checks == PersonaChecks(p)
    ensures r.failures == Failures(r.checks)
    ensures r.passed <==> r.failures == []
  {
    var cs := PersonaChecks(p);
    FailuresEmpty(cs);
    var passed := IsPersona(p) && IsActive(p) && IsHardened(p) && Truthy(p.codename) && Truthy(p.primaryJob);
    assert AllOk(cs) <==> passed by {
      if AllOk(cs) {
        assert cs[0].ok && cs[1].ok && cs[2].ok && cs[3].ok && cs[4].ok;
      }
    }
    Eligibility(passed, cs, Failures(cs))
  }

  /** A check's name is listed as a failure exactly when that check is false. */
  lemma EligibilityFailures(p: Persona, i: nat)
    requires i < 5
    ensures PersonaChecks(p)[i].name in ValidateNightShiftEligibility(p).failures <==> !PersonaChecks(p)[i].ok
  {
    var cs := PersonaChecks(p);
    FailuresListed(cs, cs[i].name);
    if PersonaChecks(p)[i].name in Failures(cs) {
      var j :| 0 <= j < |cs| && cs[j].name == cs[i].name && !cs[j].ok;
      assert j == i;
    }
  }

  /** The roster's in-memory filter. */
  predicate InRoster(p: Persona)
  {
    IsPersona(p) && IsActive(p) && IsHardened(p)
  }

  /** `loadAllPersonas`' filter on the parsed pages. */
  function AllPersonas(pages: seq<Page>): (r: seq<Persona>)
    ensures forall i :: 0 <= i < |r| ==> IsPersona(r[i])
    ensures forall p :: p in r <==> p in Map(ParsePersona, pages) && IsPersona(p)
  {
    var parsed := Map(ParsePersona, pages);
    assert forall p :: p in Filter(IsPersona, parsed) <==> p in parsed && IsPersona(p) by {
      forall p ensures p in Filter(IsPersona, parsed) <==> p in parsed && IsPersona(p) {
        FilterIn(IsPersona, parsed, p);
      }
    }
    Filter(IsPersona, parsed)
  }

  function NightShiftRoster(pages: seq<Page>): (r: seq<Persona>)
    ensures forall i :: 0 <= i < |r| ==> InRoster(r[i])
  {
    Filter(InRoster, AllPersonas(pages))
  }

  /**
   * The roster keeps exactly the parsed personas that are PERSONA, ACTIVE
   * and Beta or Stable.
   */
  lemma RosterMembers(pages: seq<Page>, p: Persona)
    ensures p in NightShiftRoster(pages) <==> p in Map(ParsePersona, pages) && InRoster(p)
  {
    FilterIn(InRoster, AllPersonas(pages), p);
    FilterIn(IsPersona, Map(ParsePersona, pages), p);
  }

  /**
   * The roster filter asks less than eligibility, so an eligible persona
   * is always on the roster (the converse fails for a persona without a
   * codename or a primary job).
   */
  lemma EligibleIsOnRoster(pages: seq<Page>, p: Persona)
    requires p in Map(ParsePersona, pages)
    requires ValidateNightShiftEligibility(p).passed
    ensures p in NightShiftRoster(pages)
  {
    RosterMembers(pages, p);
  }

  lemma RosterNotEligible(p: Persona)
    requires InRoster(p) && p.codename.None?
    ensures !ValidateNightShiftEligibility(p).passed
    ensures "hasCodename" in ValidateNightShiftEligibility(p).failures
  {
    EligibilityFailures(p, 3);
  }

  // ---------------------------------------------------------------------
  // Execution context

  datatype Identity = Identity(codename: Option<string>, name: Option<string>, role: Option<string>, team: Option<string>)
  datatype Limits = Limits(allowedActions: seq<string>, escalationTriggers: Option<string>, hardeningLevel: Option<string>)
  datatype Outputs = Outputs(defaultOutputs: Option<string>, formatPreference: Option<string>)
  datatype Framework = Framework(decisionRule: Option<string>, domain: seq<string>)
  datatype TaskInfo = TaskInfo(id: string, title: Option<string>, description: Option<string>,
                               successCriteria: Option<string>, constraints: Option<seq<string>>)
  datatype ExecutionContext = ExecutionContext(identity: Identity, constraints: Limits, outputs: Outputs,
                                               decisionFramework: Framework, task: Option<TaskInfo>)

  function BuildExecutionContext(p: Persona, task: Option<TaskInfo>): (c: ExecutionContext)
    ensures c.identity.name == (if Truthy(p.displayName) then p.displayName else p.codename)
    ensures c.identity.codename == p.codename && c.identity.role == p.primaryJob
    ensures c.constraints.allowedActions == (if p.allowedActions.Some? then p.allowedActions.value else [])
    ensures c.decisionFramework.domain == (if p.domain.Some? then p.domain.value else [])
    ensures c.constraints.hardeningLevel == p.hardeningLevel
    ensures c.task.Some? <==> task.Some?
    ensures c.task.Some? ==> c.task.value == task.value
  {
    ExecutionContext(
      Identity(p.codename, if Truthy(p.displayName) then p.displayName else p.codename, p.primaryJob, p.team),
      Limits(p.allowedActions.GetOr([]), p.escalationTriggers, p.hardeningLevel),
      Outputs(p.defaultOutputs, p.formatPreference),
      Framework(p.decisionRule, p.domain.GetOr([])),
      task)
  }

  // ---------------------------------------------------------------------
  // System prompt

  /** A template-literal substitution: `null` renders as the text "null". */
  function Show(o: Option<string>): string
  {
    if o.Some? then o.value else "null"
  }

  /** One "- a" line per allowed action, in order. */
  function Bullets(actions: seq<string>): (r: string)
    ensures actions == [] ==> r == ""
  {
    if actions == [] then "" else Line(actions[0]) + Bullets(actions[1..])
  }

  function Line(a: string): string
  {
    "- " + a + "\n"
  }

  /** "You are <name> (<codename>)." and a blank line. */
  function Opening(c: ExecutionContext): string
  {
    "You are " + Show(c.identity.name) + " (" + Show(c.identity.codename) + ").\n\n"
  }

  function Header(c: ExecutionContext): string
  {
    Opening(c) + "## Role\n" + Show(c.identity.role) + "\n\n"
  }

  function DecisionSection(c: ExecutionContext): string
  {
    if Truthy(c.decisionFramework.decisionRule)
    then "## Decision Framework\n" + c.decisionFramework.decisionRule.value + "\n\n"
    else ""
  }

  function ActionsSection(c: ExecutionContext): string
  {
    if |c.constraints.allowedActions| > 0
    then "## Allowed Actions\nYou may only perform these actions:\n" + Bullets(c.constraints.allowedActions) + "\n"
    else ""
  }

  function EscalationSection(c: ExecutionContext): string
  {
    if Truthy(c.constraints.escalationTriggers)
    then "## Escalation\nEscalate when: " + c.constraints.escalationTriggers.value + "\n\n"
    else ""
  }

  function TaskSection(c: ExecutionContext): string
  {
    if c.task.None? then ""
    else
      var t := c.task.value;
      "## Current Task\n" + "**Title:** " + Show(t.title) + "\n"
      + (if Truthy(t.description) then "**Description:** " + t.description.value + "\n" else "")
      + (if Truthy(t.successCriteria) then "**Success Criteria:** " + t.successCriteria.value + "\n" else "")
      + "\n"
  }

  /** The prompt is the sections in their fixed order. */
  function GenerateSystemPrompt(c: ExecutionContext): (prompt: string)
    ensures |prompt| >= |Header(c)| && prompt[..|Header(c)|] == Header(c)
    ensures prompt[..|Opening(c)|] == Opening(c)
  {
    Header(c) + Sections(c)
  }

  function Sections(c: ExecutionContext): string
  {
    DecisionSection(c) + ActionsSection(c) + EscalationSection(c) + TaskSection(c)
  }

  /** Each optional section is empty exactly when its data is absent or empty. */
  lemma SectionsPresentIff(c: ExecutionContext)
    ensures DecisionSection(c) != "" <==> Truthy(c.decisionFramework.decisionRule)
    ensures ActionsSection(c) != "" <==> c.constraints.allowedActions != []
    ensures EscalationSection(c) != "" <==> Truthy(c.constraints.escalationTriggers)
    ensures TaskSection(c) != "" <==> c.task.Some?
  {
  }

  /** A bare persona — no rule, no actions, no escalation, no task — gets only the header. */
  lemma MinimalPrompt(c: ExecutionContext)
    requires !Truthy(c.decisionFramework.decisionRule) && c.constraints.allowedActions == []
    requires !Truthy(c.constraints.escalationTriggers) && c.task.None?
    ensures GenerateSystemPrompt(c) == Header(c)
  {
  }

  /** The bullet list has one line per action, in order: it splits back into them. */
  lemma {:induction false} BulletsAppend(a: seq<string>, b: seq<string>)
    ensures Bullets(a + b) == Bullets(a) + Bullets(b)
  {
    if a == [] {
      assert a + b == b;
    } else {
      assert (a + b)[1..] == a[1..] + b;
      BulletsAppend(a[1..], b);
    }
  }

  /** Each action `a` contributes the line "- a\n" at the position of its predecessors' lines. */
  lemma BulletLine(actions: seq<string>, i: nat)
    requires i < |actions|
    ensures Bullets(actions) == Bullets(actions[..i]) + Line(actions[i]) + Bullets(actions[i + 1..])
  {
    var pre, t, post := actions[..i], actions[i..], actions[i + 1..];
    assert actions == pre + t;
    BulletsAppend(pre, t);
    assert t[0] == actions[i] && t[1..] == post;
    assert Bullets(t) == Line(actions[i]) + Bullets(post);
  }
}
