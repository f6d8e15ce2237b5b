/**
 * The work-plan loader of the Night Shift: tasks read from the Notion task
 * database, the night-shift eligibility checks, the execution plan (tasks
 * ordered by priority) and the execution context handed to an agent.
 */
module WorkPlanLoader {
  import opened Wrappers
  import opened NotionProps
  import opened Checks
  import opened Sorting

  datatype WorkTask = WorkTask(
    id: string,
    title: Option<string>,
    description: Option<string>,
    status: Option<string>,
    priority: Option<string>,
    taskType: Option<string>,
    assignedAgent: Option<string>,
    executionMode: Option<string>,
    automationEligible: Option<bool>,
    automationScore: Option<int>,
    requiresApproval: Option<bool>,
    requiresReview: Option<bool>,
    approvalStatus: Option<string>,
    dueDate: Option<string>,
    claimedBy: Option<string>,
    claimedAt: Option<string>,
    artifacts: Option<string>,
    successCriteria: Option<string>)

  datatype Page = Page(id: string, properties: Props)

  /**
   * Reads each task field with its declared property type; the success
   * criteria come from the `resolutionNotes` property.
   */
  function ParseTask(page: Page): (t: WorkTask)
    ensures t.id == page.id
    ensures ReadsText(page.properties, "ID", Title, t.title)
    ensures ReadsText(page.properties, "Description", RichText, t.description)
    ensures ReadsText(page.properties, "status", Select, t.status)
    ensures ReadsText(page.properties, "priority", Select, t.priority)
    ensures ReadsText(page.properties, "taskType", Select, t.taskType)
    ensures ReadsText(page.properties, "assignedAgent", Select, t.assignedAgent)
    ensures ReadsText(page.properties, "executionMode", Select, t.executionMode)
    ensures ReadsFlag(page.properties, "automationEligible", t.automationEligible)
    ensures ReadsNum(page.properties, "automationScore", t.automationScore)
    ensures ReadsFlag(page.properties, "requiresApproval", t.requiresApproval)
    ensures ReadsFlag(page.properties, "requiresReview", t.requiresReview)
    ensures ReadsText(page.properties, "approvalStatus", Select, t.approvalStatus)
    ensures ReadsText(page.properties, "dueDate", Date, t.dueDate)
    ensures ReadsText(page.properties, "claimed_by", RichText, t.claimedBy)
    ensures ReadsText(page.properties, "claimed_at", Date, t.claimedAt)
    ensures ReadsText(page.properties, "artifacts", RichText, t.artifacts)
    ensures ReadsText(page.properties, "resolutionNotes", RichText, t.successCriteria)
  {
    var ps := page.properties;
    WorkTask(
      page.id,
      TextProp(ps, "ID", Title),
      TextProp(ps, "Description", RichText),
      TextProp(ps, "status", Select),
      TextProp(ps, "priority", Select),
      TextProp(ps, "taskType", Select),
      TextProp(ps, "assignedAgent", Select),
      TextProp(ps, "executionMode", Select),
      FlagProp(ps, "automationEligible"),
      NumProp(ps, "automationScore"),
      FlagProp(ps, "requiresApproval"),
      FlagProp(ps, "requiresReview"),
      TextProp(ps, "approvalStatus", Select),
      TextProp(ps, "dueDate", Date),
      TextProp(ps, "claimed_by", RichText),
      TextProp(ps, "claimed_at", Date),
      TextProp(ps, "artifacts", RichText),
      TextProp(ps, "resolutionNotes", RichText))
  }

  // ---------------------------------------------------------------------
  // Eligibility

  datatype Eligibility = Eligibility(passed: bool, checks: seq<Check>, failures: seq<string>)

  /** The five reported checks, in declaration order. */
  function TaskChecks(t: WorkTask): (cs: seq<Check>)
    ensures |cs| == 5
  {
    [Check("isAutomationEligible", t.automationEligible == Some(true)),
     Check("isReady", t.status == Some("Ready")),
     Check("hasDescription", Truthy(t.description)),
     Check("notBlocked", t.status != Some("Blocked")),
     Check("hasAssignee", Truthy(t.assignedAgent))]
  }

  /**
   * Only the first three checks decide eligibility; `notBlocked` and
   * `hasAssignee` are reported among the failures but do not count.
   */
  function ValidateNightShiftEligibility(t: WorkTask): (r: Eligibility)
    ensures r.passed <==> t.automationEligible == Some(true) && t.status == Some("Ready") && Truthy(t.description)
    ensures r.checks == TaskChecks(t)
    ensures r.failures == Failures(r.checks)
  {
    var cs := TaskChecks(t);
    Eligibility(cs[0].ok && cs[1].ok && cs[2].ok, cs, Failures(cs))
  }

  /** A check's name is listed as a failure exactly when that check is false. */
  lemma EligibilityFailures(t: WorkTask, i: nat)
    requires i < 5
    ensures TaskChecks(t)[i].name in ValidateNightShiftEligibility(t).failures <==> !TaskChecks(t)[i].ok
  {
    var cs := TaskChecks(t);
    FailuresListed(cs, cs[i].name);
    if cs[i].name in Failures(cs) {
      var j :| 0 <= j < |cs| && cs[j].name == cs[i].name && !cs[j].ok;
      assert j == i;
    }
  }

  /** An eligible task can still report a failure: the unassigned one. */
  lemma UnassignedStillEligible(t: WorkTask)
    requires ValidateNightShiftEligibility(t).passed && t.assignedAgent.None?
    ensures ValidateNightShiftEligibility(t).failures == ["hasAssignee"]
  {
    var cs := TaskChecks(t);
    assert cs == cs[..4] + [cs[4]];
    FailuresAppend(cs[..4], [cs[4]]);
    assert cs[..4] == [cs[0]] + [cs[1]] + [cs[2]] + [cs[3]];
    FailuresAppend([cs[0]] + [cs[1]] + [cs[2]], [cs[3]]);
    FailuresAppend([cs[0]] + [cs[1]], [cs[2]]);
    FailuresAppend([cs[0]], [cs[1]]);
  }

  /** The passed flag agrees with the failure list once the two ignored checks hold. */
  lemma PassedIffNoFailures(t: WorkTask)
    requires Truthy(t.assignedAgent)
    ensures ValidateNightShiftEligibility(t).passed <==> ValidateNightShiftEligibility(t).failures == []
  {
    var cs := TaskChecks(t);
    FailuresEmpty(cs);
    if AllOk(cs) {
      assert cs[0].ok && cs[1].ok && cs[2].ok;
    }
    if ValidateNightShiftEligibility(t).passed {
      assert cs[3].ok;
      assert forall i :: 0 <= i < 5 ==> cs[i].ok by {
        forall i | 0 <= i < 5 ensures cs[i].ok {
          if i == 0 {} else if i == 1 {} else if i == 2 {} else if i == 3 {} else {}
        }
      }
    }
  }

  // ---------------------------------------------------------------------
  // Execution plan

  /**
   * The sort rank of `priorityOrder[p] || 99`: P0's rank 0 is falsy, so P0
   * falls back to 99 together with a missing or unknown priority.
   */
  function Rank(priority: Option<string>): (n: int)
    ensures n in {1, 2, 3, 99}
  {
    match priority
    case Some(p) =>
      if p == "P1" then 1 else if p == "P2" then 2 else if p == "P3" then 3 else 99
    case None => 99
  }

  function PlanKey(t: WorkTask): Key
  {
    Key(Rank(t.priority), 0)
  }

  datatype Plan = Plan(tasks: seq<WorkTask>, totalTasks: nat, estimatedDuration: nat, createdAt: string)

  /** A stable sort of a copy by rank, with a 15-minute estimate per task. */
  function BuildExecutionPlan(tasks: seq<WorkTask>, now: string): (plan: Plan)
    ensures multiset(plan.tasks) == multiset(tasks)
    ensures plan.totalTasks == |tasks| == |plan.tasks|
    ensures plan.estimatedDuration == 15 * |tasks|
    ensures plan.createdAt == now
  {
    SortByPerm(tasks, PlanKey);
    var sorted := SortBy(tasks, PlanKey);
    Plan(sorted, |sorted|, |sorted| * 15, now)
  }

  /** The plan is ordered by rank, and tasks of equal rank keep their input order. */
  lemma PlanOrdered(tasks: seq<WorkTask>, now: string, rank: int)
    ensures forall i, j :: 0 <= i < j < |tasks| ==>
      Rank(BuildExecutionPlan(tasks, now).tasks[i].priority) <= Rank(BuildExecutionPlan(tasks, now).tasks[j].priority)
    ensures WithKey(BuildExecutionPlan(tasks, now).tasks, PlanKey, Key(rank, 0)) == WithKey(tasks, PlanKey, Key(rank, 0))
  {
    SortBySorted(tasks, PlanKey);
    SortByStable(tasks, PlanKey, Key(rank, 0));
  }

  /** P0 has no precedence: a P0 task stays behind a later P1 task. */
  lemma P0SortsLast(a: WorkTask, b: WorkTask, now: string)
    requires a.priority == Some("P0") && b.priority == Some("P1")
    ensures BuildExecutionPlan([a, b], now).tasks == [b, a]
  {
    assert Rank(a.priority) == 99 && Rank(b.priority) == 1;
    assert [a, b][1..] == [b];
    assert SortBy([b], PlanKey) == [b];
  }

  /** A P0 task and a task without a priority keep their input order. */
  lemma P0TiesWithUnknown(a: WorkTask, b: WorkTask, now: string)
    requires a.priority == Some("P0") && b.priority.None?
    ensures BuildExecutionPlan([a, b], now).tasks == [a, b]
    ensures BuildExecutionPlan([b, a], now).tasks == [b, a]
  {
    assert [a, b][1..] == [b];
    assert [b, a][1..] == [a];
    assert SortBy([b], PlanKey) == [b];
    assert SortBy([a], PlanKey) == [a];
  }

  // ---------------------------------------------------------------------
  // Execution context

  datatype TaskPart = TaskPart(id: string, title: Option<string>, description: Option<string>,
                               priority: Option<string>, taskType: Option<string>)
  datatype ConstraintPart = ConstraintPart(requiresApproval: Option<bool>, requiresReview: Option<bool>,
                                           executionMode: Option<string>)
  datatype ExecutionContext = ExecutionContext(task: TaskPart, constraints: ConstraintPart,
                                               successCriteria: Option<string>, artifacts: Option<string>)

  /** The fields the context copies; every other task field is dropped. */
  predicate SameContextFields(t: WorkTask, u: WorkTask)
  {
    t.id == u.id && t.title == u.title && t.description == u.description && t.priority == u.priority
    && t.taskType == u.taskType && t.requiresApproval == u.requiresApproval
    && t.requiresReview == u.requiresReview && t.executionMode == u.executionMode
    && t.successCriteria == u.successCriteria && t.artifacts == u.artifacts
  }

  function GenerateExecutionContext(t: WorkTask): (c: ExecutionContext)
    ensures c.task.id == t.id && c.task.title == t.title && c.task.description == t.description
    ensures c.task.priority == t.priority && c.task.taskType == t.taskType
    ensures c.constraints == ConstraintPart(t.requiresApproval, t.requiresReview, t.executionMode)
    ensures c.successCriteria == t.successCriteria && c.artifacts == t.artifacts
  {
    ExecutionContext(
      TaskPart(t.id, t.title, t.description, t.priority, t.taskType),
      ConstraintPart(t.requiresApproval, t.requiresReview, t.executionMode),
      t.successCriteria, t.artifacts)
  }

  /** The context depends on the copied fields only, and determines them. */
  lemma ContextCopiesOnly(t: WorkTask, u: WorkTask)
    ensures GenerateExecutionContext(t) == GenerateExecutionContext(u) <==> SameContextFields(t, u)
  {
  }
}
