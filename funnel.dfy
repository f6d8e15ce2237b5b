/**
 * The funnel monitor: builders per program type, the phase chain of a
 * funnel project, and the checks run over the projects of the funnel board
 * (blocked, due dates, stale projects, new intakes and phase transitions).
 * The Notion queries are outside the model: the projects each check would
 * fetch are an input, the clock is an input, and parsing a date text is a
 * function-typed input that yields no time for an invalid date.
 */
module FunnelMonitor {
  import opened Wrappers
  import opened Strings
  import opened Seqs

  // --------------------------------------------------------------- builders

  datatype Builder = Builder(primary: string, backup: string)

  /** The program types with a builder of their own. */
  const PROGRAM_TYPES: seq<string> := ["SPV", "Fund", "Tokenization", "Infrastructure", "Energy", "Real Estate"]

  /** `getBuilderForProgram`: the routing table entry, or the deal director backed by the liaison chair. */
  function GetBuilderForProgram(programType: string): (b: Builder)
    ensures programType !in PROGRAM_TYPES ==> b == Builder("DEAL_DIRECTOR", "LIAISON_CHAIR")
    ensures b.primary != b.backup
  {
    match programType
    case "SPV" => Builder("SOLUTION_PACKAGING_ENGINEER", "DEAL_DIRECTOR")
    case "Fund" => Builder("FUND_STRUCTURING_TEAM", "CFO_OFFICE")
    case "Tokenization" => Builder("TOKENIZATION_ARCHITECT", "TECH_TEAM")
    case "Infrastructure" => Builder("INFRASTRUCTURE_LEAD", "DEAL_DIRECTOR")
    case "Energy" => Builder("ENERGY_SPECIALIST", "INFRASTRUCTURE_LEAD")
    case "Real Estate" => Builder("RE_STRUCTURING_TEAM", "DEAL_DIRECTOR")
    case _ => Builder("DEAL_DIRECTOR", "LIAISON_CHAIR")
  }

  /** Every listed program type has a builder other than the fallback. */
  lemma ListedTypesHaveOwnBuilder(programType: string)
    requires programType in PROGRAM_TYPES
    ensures GetBuilderForProgram(programType).primary != "DEAL_DIRECTOR"
  {
  }

  // ------------------------------------------------------------------ phases

  datatype Transition = Transition(next: Option<string>, notifyTeam: Option<string>, exitCriteria: seq<string>)

  /** The four phases in funnel order. */
  const PHASES: seq<string> := ["A - Intake", "B - Diligence", "C - Structuring", "D - Close"]

  /** `getPhaseTransition`: the transition rule of a phase, none for an unknown or missing phase. */
  function GetPhaseTransition(phase: Option<string>): (t: Option<Transition>)
    ensures t.Some? <==> phase.Some? && phase.value in PHASES
  {
    match phase
    case None => None
    case Some(name) =>
      match name
      case "A - Intake" =>
        Some(Transition(Some("B - Diligence"), Some("RESEARCH_TEAM"),
                        ["intake_complete", "materials_received", "agent_assigned"]))
      case "B - Diligence" =>
        Some(Transition(Some("C - Structuring"), Some("DEAL_DIRECTOR"),
                        ["diligence_complete", "ic_memo_approved", "no_blockers"]))
      case "C - Structuring" =>
        Some(Transition(Some("D - Close"), Some("LEGAL_TEAM"),
                        ["structure_approved", "terms_agreed", "compliance_cleared"]))
      case "D - Close" =>
        Some(Transition(None, None, ["docs_signed", "funding_complete", "handoff_done"]))
      case _ => None
  }

  /** The phases form the chain A, B, C, D: each leads to the one after it, and Close leads nowhere. */
  lemma PhaseChain(i: nat)
    requires i < |PHASES|
    ensures var t := GetPhaseTransition(Some(PHASES[i])).value;
      && (i + 1 < |PHASES| ==> t.next == Some(PHASES[i + 1]) && t.notifyTeam.Some?)
      && (i + 1 == |PHASES| ==> t.next.None? && t.notifyTeam.None?)
      && |t.exitCriteria| == 3
  {
  }

  // ---------------------------------------------------------------- projects

  /** A funnel project as the board query reads it; empty texts are absent. */
  datatype Project = Project(
    id: string,
    project: Option<string>,
    client: Option<string>,
    phase: Option<string>,
    status: Option<string>,
    leadAgent: Option<string>,
    dueDate: Option<string>,
    priority: Option<string>,
    lastUpdated: string)

  datatype Alert =
    | Blocked(project: Option<string>, client: Option<string>, agent: Option<string>, phase: Option<string>,
              priority: Option<string>)
    | Overdue(project: Option<string>, dueDate: string, agent: Option<string>, priority: Option<string>)
    | DueSoon(project: Option<string>, dueDate: string, agent: Option<string>, daysLeft: int)
    | Stale(project: Option<string>, lastUpdated: string, agent: Option<string>, daysSinceUpdate: int)
    | NewIntake(project: Option<string>, client: Option<string>, priority: Option<string>)
    | PhaseTransitionReady(project: Option<string>, currentPhase: string, nextPhase: string,
                           notifyTeam: Option<string>)

  /** Milliseconds in a day. */
  const DAY := 24 * 60 * 60 * 1000

  /** `Math.ceil(a / d)` for a non-negative `a`. */
  function CeilDiv(a: nat, d: nat): (q: nat)
    requires d > 0
    ensures (q - 1) * d < a <= q * d
  {
    (a + d - 1) / d
  }

  /** The query filter of `checkBlockedProjects`: status Blocked. */
  predicate IsBlocked(p: Project)
  {
    p.status == Some("Blocked")
  }

  /** The BLOCKED alert built from a project's fields. */
  function BlockedAlert(p: Project): Alert
  {
    Blocked(p.project, p.client, p.leadAgent, p.phase, p.priority)
  }

  /** The blocked-project alert of a project, if the query returns it. */
  function BlockedAlertOf(p: Project): Option<Alert>
  {
    if IsBlocked(p) then Some(BlockedAlert(p)) else None
  }

  /** `checkBlockedProjects`: one alert per blocked project, in project order. */
  function BlockedAlerts(projects: seq<Project>): (r: seq<Alert>)
    ensures |r| == |Filter(IsBlocked, projects)|
    ensures forall i :: 0 <= i < |r| ==> r[i] == BlockedAlert(Filter(IsBlocked, projects)[i])
  {
    BlockedCount(projects);
    Collect(projects, BlockedAlertOf)
  }

  /** The collected alerts are the alerts of the blocked projects, in order. */
  lemma {:induction false} BlockedCount(projects: seq<Project>)
    ensures Collect(projects, BlockedAlertOf) == Map(BlockedAlert, Filter(IsBlocked, projects))
  {
    if projects != [] {
      var init := projects[..|projects| - 1];
      var x := projects[|projects| - 1];
      BlockedCount(init);
      assert projects == init + [x];
      FilterSnoc(IsBlocked, init, x);
      MapAppend(BlockedAlert, Filter(IsBlocked, init), if IsBlocked(x) then [x] else []);
    }
  }

  /**
   * The due-date alert of one project: none without a due date, for a
   * complete project or for a date that does not parse; OVERDUE before now,
   * DUE_SOON within the next three days, none later.
   */
  function DueAlertOf(now: int, parseDate: string -> Option<int>): Project -> Option<Alert>
  {
    (p: Project) =>
      if p.dueDate.None? || p.status == Some("Complete") then None
      else
        match parseDate(p.dueDate.value)
        case None => None
        case Some(due) =>
          if due < now then Some(Overdue(p.project, p.dueDate.value, p.leadAgent, p.priority))
          else if due < now + 3 * DAY then Some(DueSoon(p.project, p.dueDate.value, p.leadAgent, CeilDiv(due - now, DAY)))
          else None
  }

  /** The due-date classification, both ways, and the days left of a DUE_SOON alert. */
  lemma DueAlertClassification(now: int, parseDate: string -> Option<int>, p: Project)
    ensures var a := DueAlertOf(now, parseDate)(p);
      && (a.Some? <==> p.dueDate.Some? && p.status != Some("Complete") && parseDate(p.dueDate.value).Some?
                       && parseDate(p.dueDate.value).value < now + 3 * DAY)
      && (a.Some? ==> (a.value.Overdue? <==> parseDate(p.dueDate.value).value < now))
      && (a.Some? ==> a.value.Overdue? || a.value.DueSoon?)
      && (a.Some? && a.value.DueSoon? ==> 0 <= a.value.daysLeft <= 3
                                          && (a.value.daysLeft == 0 <==> parseDate(p.dueDate.value).value == now))
  {
  }

  /** `checkDueDates`: at most one alert per project, in project order. */
  method CheckDueDates(projects: seq<Project>, now: int, parseDate: string -> Option<int>) returns (alerts: seq<Alert>)
    ensures alerts == Collect(projects, DueAlertOf(now, parseDate))
  {
    alerts := [];
    for i := 0 to |projects|
      invariant alerts == Collect(projects[..i], DueAlertOf(now, parseDate))
    {
      CollectSnoc(projects[..i], projects[i], DueAlertOf(now, parseDate));
      assert projects[..i + 1] == projects[..i] + [projects[i]];
      var p := projects[i];
      if p.dueDate.None? || p.status == Some("Complete") {
        continue;
      }
      match parseDate(p.dueDate.value)
      case None =>
      case Some(due) =>
        if due < now {
          alerts := alerts + [Overdue(p.project, p.dueDate.value, p.leadAgent, p.priority)];
        } else if due < now + 3 * DAY {
          alerts := alerts + [DueSoon(p.project, p.dueDate.value, p.leadAgent, CeilDiv(due - now, DAY))];
        }
    }
    assert projects[..|projects|] == projects;
  }

  /** Every due-date alert comes from a project that yields it. */
  lemma DueAlertsExactly(projects: seq<Project>, now: int, parseDate: string -> Option<int>, a: Alert)
    ensures a in Collect(projects, DueAlertOf(now, parseDate)) <==>
      exists i :: 0 <= i < |projects| && DueAlertOf(now, parseDate)(projects[i]) == Some(a)
  {
    CollectIn(projects, DueAlertOf(now, parseDate), a);
  }

  /**
   * The stale alert of a project: not complete, and last edited (a date that
   * parses) more than seven days before now.
   */
  function StaleAlertOf(now: int, parseDate: string -> Option<int>): Project -> Option<Alert>
  {
    (p: Project) =>
      if p.status == Some("Complete") then None
      else
        match parseDate(p.lastUpdated)
        case None => None
        case Some(updated) =>
          if updated < now - 7 * DAY then Some(Stale(p.project, p.lastUpdated, p.leadAgent, (now - updated) / DAY))
          else None
  }

  /**
   * `checkStaleProjects`: one STALE alert per project that yields one, in
   * project order, each at least seven whole days old.
   */
  function StaleAlerts(projects: seq<Project>, now: int, parseDate: string -> Option<int>): (r: seq<Alert>)
    ensures |r| == |Filter(Yields(StaleAlertOf(now, parseDate)), projects)|
    ensures forall i :: 0 <= i < |r| ==>
      StaleAlertOf(now, parseDate)(Filter(Yields(StaleAlertOf(now, parseDate)), projects)[i]) == Some(r[i])
    ensures forall a :: a in r ==> a.Stale? && a.daysSinceUpdate >= 7
  {
    CollectPicks(projects, StaleAlertOf(now, parseDate));
    Collect(projects, StaleAlertOf(now, parseDate))
  }

  /** A project is reported stale iff it is not complete and untouched for more than seven days, and then for at least seven whole days. */
  lemma StaleExactly(projects: seq<Project>, now: int, parseDate: string -> Option<int>, i: nat)
    requires i < |projects|
    ensures var p := projects[i];
      var a := StaleAlertOf(now, parseDate)(p);
      && (a.Some? <==> p.status != Some("Complete") && parseDate(p.lastUpdated).Some?
                       && parseDate(p.lastUpdated).value < now - 7 * DAY)
      && (a.Some? ==> a.value in StaleAlerts(projects, now, parseDate) && a.value.daysSinceUpdate >= 7)
  {
    var a := StaleAlertOf(now, parseDate)(projects[i]);
    if a.Some? {
      CollectIn(projects, StaleAlertOf(now, parseDate), a.value);
    }
  }

  // ----------------------------------------------------------- monitor state

  /** `id` is not in the recorded ids. */
  function NotSeen(seen: seq<string>): Project -> bool
  {
    (p: Project) => p.id !in seen
  }

  function ProjectId(p: Project): string
  {
    p.id
  }

  function IntakeAlert(p: Project): Alert
  {
    NewIntake(p.project, p.client, p.priority)
  }

  /** One step of the transition scan: its alerts and the keys recorded so far. */
  datatype Scan = Scan(alerts: seq<Alert>, keys: seq<string>)

  /** A Complete or Review project in a phase that has a next phase. */
  predicate Eligible(p: Project)
  {
    && (p.status == Some("Complete") || p.status == Some("Review"))
    && GetPhaseTransition(p.phase).Some?
    && GetPhaseTransition(p.phase).value.next.Some?
  }

  /** The key under which a transition is recorded: the project id and its phase. */
  function TransitionKey(p: Project): string
    requires p.phase.Some?
  {
    p.id + "-" + p.phase.value
  }

  function TransitionAlert(p: Project): Alert
    requires Eligible(p)
  {
    var t := GetPhaseTransition(p.phase).value;
    PhaseTransitionReady(p.project, p.phase.value, t.next.value, t.notifyTeam)
  }

  /** The scan of `checkPhaseTransitions` over the projects, starting from the recorded keys. */
  function ScanTransitions(keys: seq<string>, projects: seq<Project>): (r: Scan)
    ensures |keys| <= |r.keys| && r.keys[..|keys|] == keys
  {
    if projects == [] then Scan([], keys)
    else
      var s := ScanTransitions(keys, projects[..|projects| - 1]);
      var p := projects[|projects| - 1];
      if Eligible(p) && TransitionKey(p) !in s.keys
      then Scan(s.alerts + [TransitionAlert(p)], s.keys + [TransitionKey(p)])
      else s
  }

  /** Every eligible project's key is recorded once the scan has passed it. */
  lemma {:induction false} ScanRecordsEligible(keys: seq<string>, projects: seq<Project>, i: nat)
    requires i < |projects| && Eligible(projects[i])
    ensures TransitionKey(projects[i]) in ScanTransitions(keys, projects).keys
  {
    var init := projects[..|projects| - 1];
    var s := ScanTransitions(keys, init);
    assert ScanTransitions(keys, projects).keys[..|s.keys|] == s.keys;
    if i < |projects| - 1 {
      ScanRecordsEligible(keys, init, i);
      assert TransitionKey(projects[i]) in s.keys;
    }
  }

  /** An alert of the scan is that of an eligible project whose key was recorded neither before nor earlier in the scan. */
  lemma {:induction false} ScanAlertsEligible(keys: seq<string>, projects: seq<Project>, a: Alert)
    requires a in ScanTransitions(keys, projects).alerts
    ensures exists i :: 0 <= i < |projects| && Eligible(projects[i]) && TransitionKey(projects[i]) !in keys
                        && a == TransitionAlert(projects[i])
  {
    var init := projects[..|projects| - 1];
    var s := ScanTransitions(keys, init);
    var p := projects[|projects| - 1];
    if a in s.alerts {
      ScanAlertsEligible(keys, init, a);
      var i :| 0 <= i < |init| && Eligible(init[i]) && TransitionKey(init[i]) !in keys && a == TransitionAlert(init[i]);
      assert projects[i] == init[i];
    } else {
      assert s.keys[..|keys|] == keys;
      assert TransitionKey(p) !in keys;
    }
  }

  /** The scan records no key twice. */
  lemma {:induction false} ScanKeysNoDup(keys: seq<string>, projects: seq<Project>)
    requires NoDup(keys)
    ensures NoDup(ScanTransitions(keys, projects).keys)
  {
    if projects != [] {
      ScanKeysNoDup(keys, projects[..|projects| - 1]);
    }
  }

  /** With every eligible key already recorded, the scan alerts nothing and records nothing. */
  lemma {:induction false} ScanCovered(keys: seq<string>, projects: seq<Project>)
    requires forall i :: 0 <= i < |projects| && Eligible(projects[i]) ==> TransitionKey(projects[i]) in keys
    ensures ScanTransitions(keys, projects) == Scan([], keys)
  {
    if projects != [] {
      ScanCovered(keys, projects[..|projects| - 1]);
    }
  }

  /** A second scan over the same projects, from the keys the first recorded, is silent. */
  lemma RescanSilent(keys: seq<string>, projects: seq<Project>)
    ensures ScanTransitions(ScanTransitions(keys, projects).keys, projects).alerts == []
  {
    var k := ScanTransitions(keys, projects).keys;
    forall i | 0 <= i < |projects| && Eligible(projects[i]) ensures TransitionKey(projects[i]) in k {
      ScanRecordsEligible(keys, projects, i);
    }
    ScanCovered(k, projects);
  }

  /** The state file of the monitor. */
  class FunnelState {
    var seenIds: seq<string>
    var notifiedTransitions: seq<string>
    var alerts: seq<Alert>

    constructor()
      ensures seenIds == [] && notifiedTransitions == [] && alerts == []
    {
      seenIds := [];
      notifiedTransitions := [];
      alerts := [];
    }

    /**
     * `checkNewIntakes`: report the intakes whose id was not seen before,
     * record each of their ids once, and keep the last 100 recorded ids.
     */
    method CheckNewIntakes(intakes: seq<Project>) returns (out: seq<Alert>)
      modifies this
      ensures var newOnes := Filter(NotSeen(old(seenIds)), intakes);
        && out == Map(IntakeAlert, newOnes)
        && seenIds == Last(AddNew(old(seenIds), Map(ProjectId, newOnes)), 100)
      ensures |seenIds| <= 100
      ensures notifiedTransitions == old(notifiedTransitions) && alerts == old(alerts)
    {
      var newProjects := Filter(NotSeen(seenIds), intakes);
      var ids := Map(ProjectId, newProjects);
      var seen := seenIds;
      for i := 0 to |newProjects|
        invariant seen == AddNew(old(seenIds), ids[..i])
      {
        assert ids[..i + 1][..i] == ids[..i];
        if newProjects[i].id !in seen {
          seen := seen + [newProjects[i].id];
        }
      }
      assert ids[..|newProjects|] == ids;
      if |seen| > 100 {
        seen := seen[|seen| - 100..];
      }
      seenIds := seen;
      out := Map(IntakeAlert, newProjects);
    }

    /**
     * `checkPhaseTransitions`: alert each eligible project whose key is not
     * recorded, record the key at once, and keep the last 100 keys.
     */
    method CheckPhaseTransitions(projects: seq<Project>) returns (out: seq<Alert>)
      modifies this
      ensures out == ScanTransitions(old(notifiedTransitions), projects).alerts
      ensures notifiedTransitions == Last(ScanTransitions(old(notifiedTransitions), projects).keys, 100)
      ensures seenIds == old(seenIds) && alerts == old(alerts)
    {
      out := [];
      var keys := notifiedTransitions;
      for i := 0 to |projects|
        invariant Scan(out, keys) == ScanTransitions(old(notifiedTransitions), projects[..i])
      {
        assert projects[..i + 1][..i] == projects[..i];
        var p := projects[i];
        if p.status != Some("Complete") && p.status != Some("Review") {
          continue;
        }
        var transition := GetPhaseTransition(p.phase);
        if transition.None? || transition.value.next.None? {
          continue;
        }
        var key := p.id + "-" + p.phase.value;
        if key in keys {
          continue;
        }
        out := out + [PhaseTransitionReady(p.project, p.phase.value, transition.value.next.value,
                                           transition.value.notifyTeam)];
        keys := keys + [key];
      }
      assert projects[..|projects|] == projects;
      if |keys| > 100 {
        keys := keys[|keys| - 100..];
      }
      notifiedTransitions := keys;
    }
  }

  /** Intakes reported by one check are not reported again when the recorded ids stayed within the cap. */
  lemma IntakesReportedOnce(seen: seq<string>, intakes: seq<Project>)
    requires |AddNew(seen, Map(ProjectId, Filter(NotSeen(seen), intakes)))| <= 100
    ensures Filter(NotSeen(Last(AddNew(seen, Map(ProjectId, Filter(NotSeen(seen), intakes))), 100)), intakes) == []
  {
    var newOnes := Filter(NotSeen(seen), intakes);
    var after := AddNew(seen, Map(ProjectId, newOnes));
    AddNewSpec(seen, Map(ProjectId, newOnes));
    forall i | 0 <= i < |intakes| ensures !NotSeen(after)(intakes[i]) {
      var p := intakes[i];
      if p.id !in seen {
        FilterIn(NotSeen(seen), intakes, p);
        var k :| 0 <= k < |newOnes| && newOnes[k] == p;
        assert Map(ProjectId, newOnes)[k] == p.id;
      }
    }
    FilterNone(NotSeen(after), intakes);
  }

  /** The recorded ids never repeat. */
  lemma SeenIdsNoDup(seen: seq<string>, intakes: seq<Project>)
    requires NoDup(seen)
    ensures NoDup(Last(AddNew(seen, Map(ProjectId, Filter(NotSeen(seen), intakes))), 100))
  {
    AddNewSpec(seen, Map(ProjectId, Filter(NotSeen(seen), intakes)));
    LastNoDup(AddNew(seen, Map(ProjectId, Filter(NotSeen(seen), intakes))), 100);
  }

  /** Two intakes with the same new id in one batch are both reported, but the id is recorded once. */
  lemma DuplicateIntakeInBatch(seen: seq<string>, p: Project)
    requires p.id !in seen
    ensures Map(IntakeAlert, Filter(NotSeen(seen), [p, p])) == [IntakeAlert(p), IntakeAlert(p)]
    ensures AddNew(seen, Map(ProjectId, Filter(NotSeen(seen), [p, p]))) == seen + [p.id]
  {
    assert Filter(NotSeen(seen), [p, p]) == [p, p];
    var ids := Map(ProjectId, [p, p]);
    assert ids == [p.id, p.id];
    assert ids[..1] == [p.id];
    assert AddNew(seen, [p.id]) == seen + [p.id];
  }
}
