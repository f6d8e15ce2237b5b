/**
 * The Night Shift runner: configuration with defaults, the night-time
 * window, the prerequisite check, the execution of one task (constraint
 * enforcement, then the checkpoint) and the main loop that drives a
 * sequential run to its end, handling failures as it goes.
 *
 * The Notion queries, the clock and the persona lookup are inputs; the
 * agent itself is not called (the source only simulates execution).
 */
module NightShiftRunner {
  import opened Wrappers
  import opened Strings
  import O = SequentialOrchestrator
  import CE = ConstraintEnforcer
  import FH = FailureHandler
  import CV = CheckpointValidator
  import PL = PersonaLoader
  import WP = WorkPlanLoader
  import Sorting

  // ---------------------------------------------------------------------
  // Configuration

  datatype Config = Config(
    maxTasksPerRun: int,
    taskTimeoutMs: int,
    runTimeoutMs: int,
    stopOnFailure: bool,
    maxRetries: int,
    defaultPersona: Option<string>,
    requireBetaHardening: bool,
    enforceConstraints: bool,
    defaultHardeningLevel: string,
    logToNotion: bool,
    alertOnFailure: bool,
    startHour: int,
    endHour: int,
    timezone: string)

  const DEFAULT_CONFIG := Config(10, 300000, 3600000, true, 1, None, true, true, "Alpha", true, true, 23, 6, "UTC")

  /** The keys a configuration file sets; `None` for a key the file leaves out. */
  datatype Overrides = Overrides(
    maxTasksPerRun: Option<int>,
    taskTimeoutMs: Option<int>,
    runTimeoutMs: Option<int>,
    stopOnFailure: Option<bool>,
    maxRetries: Option<int>,
    defaultPersona: Option<Option<string>>,
    requireBetaHardening: Option<bool>,
    enforceConstraints: Option<bool>,
    defaultHardeningLevel: Option<string>,
    logToNotion: Option<bool>,
    alertOnFailure: Option<bool>,
    startHour: Option<int>,
    endHour: Option<int>,
    timezone: Option<string>)

  /**
   * `{ ...DEFAULT_CONFIG, ...custom }`; `file` is None when the file is
   * missing or cannot be read or parsed, which gives the defaults.
   */
  function LoadConfig(file: Option<Overrides>): (c: Config)
    ensures file.None? ==> c == DEFAULT_CONFIG
    ensures file.Some? ==> (c.maxTasksPerRun == file.value.maxTasksPerRun.GetOr(10)
      && c.runTimeoutMs == file.value.runTimeoutMs.GetOr(3600000)
      && c.stopOnFailure == file.value.stopOnFailure.GetOr(true)
      && c.maxRetries == file.value.maxRetries.GetOr(1)
      && c.enforceConstraints == file.value.enforceConstraints.GetOr(true)
      && c.defaultHardeningLevel == file.value.defaultHardeningLevel.GetOr("Alpha")
      && c.startHour == file.value.startHour.GetOr(23) && c.endHour == file.value.endHour.GetOr(6)
      && c.taskTimeoutMs == file.value.taskTimeoutMs.GetOr(300000)
      && c.defaultPersona == file.value.defaultPersona.GetOr(None)
      && c.requireBetaHardening == file.value.requireBetaHardening.GetOr(true)
      && c.logToNotion == file.value.logToNotion.GetOr(true)
      && c.alertOnFailure == file.value.alertOnFailure.GetOr(true)
      && c.timezone == file.value.timezone.GetOr("UTC"))
  {
    match file
    case None => DEFAULT_CONFIG
    case Some(o) =>
      var d := DEFAULT_CONFIG;
      Config(
        o.maxTasksPerRun.GetOr(d.maxTasksPerRun), o.taskTimeoutMs.GetOr(d.taskTimeoutMs),
        o.runTimeoutMs.GetOr(d.runTimeoutMs), o.stopOnFailure.GetOr(d.stopOnFailure),
        o.maxRetries.GetOr(d.maxRetries), o.defaultPersona.GetOr(d.defaultPersona),
        o.requireBetaHardening.GetOr(d.requireBetaHardening), o.enforceConstraints.GetOr(d.enforceConstraints),
        o.defaultHardeningLevel.GetOr(d.defaultHardeningLevel), o.logToNotion.GetOr(d.logToNotion),
        o.alertOnFailure.GetOr(d.alertOnFailure), o.startHour.GetOr(d.startHour),
        o.endHour.GetOr(d.endHour), o.timezone.GetOr(d.timezone))
  }

  /** A file that sets every key. */
  function AllKeys(c: Config): Overrides
  {
    Overrides(Some(c.maxTasksPerRun), Some(c.taskTimeoutMs), Some(c.runTimeoutMs), Some(c.stopOnFailure),
              Some(c.maxRetries), Some(c.defaultPersona), Some(c.requireBetaHardening),
              Some(c.enforceConstraints), Some(c.defaultHardeningLevel), Some(c.logToNotion),
              Some(c.alertOnFailure), Some(c.startHour), Some(c.endHour), Some(c.timezone))
  }

  const NO_KEYS := Overrides(None, None, None, None, None, None, None, None, None, None, None, None, None, None)

  /**
   * An empty file gives the defaults, and a file that sets every key gives
   * exactly that configuration: custom keys replace defaults key by key.
   */
  lemma LoadConfigOverlay(c: Config)
    ensures LoadConfig(Some(NO_KEYS)) == DEFAULT_CONFIG
    ensures LoadConfig(Some(AllKeys(c))) == c
  {
  }

  // ---------------------------------------------------------------------
  // Schedule and prerequisites

  /** `isNightShiftTime` for the UTC hour of the clock. */
  function IsNightShiftTime(c: Config, hour: int): (r: bool)
    ensures c.startHour > c.endHour ==> (r <==> hour >= c.startHour || hour < c.endHour)
    ensures c.startHour <= c.endHour ==> (r <==> c.startHour <= hour < c.endHour)
  {
    if c.startHour > c.endHour then hour >= c.startHour || hour < c.endHour
    else hour >= c.startHour && hour < c.endHour
  }

  /** With the defaults, the night shift runs from 23:00 to 05:59. */
  lemma DefaultNightHours(hour: int)
    requires 0 <= hour < 24
    ensures IsNightShiftTime(DEFAULT_CONFIG, hour) <==> hour == 23 || hour <= 5
  {
  }

  /** What the prerequisite check observes; a failed query is an `Err`. */
  datatype Probe = Probe(
    eligibleTasks: Result<seq<WP.WorkTask>>,
    roster: Result<seq<PL.Persona>>,
    notionTokenPresent: bool,
    hour: int)

  datatype Prereqs = Prereqs(
    passed: bool,
    hasEligibleTasks: bool,
    hasEligiblePersonas: bool,
    isNightShiftTime: bool,
    notionAvailable: bool,
    configValid: bool,
    taskCount: Option<nat>,
    personaCount: Option<nat>,
    taskError: Option<string>,
    personaError: Option<string>)

  function ValidatePrerequisites(c: Config, p: Probe): (r: Prereqs)
    ensures r.hasEligibleTasks <==> p.eligibleTasks.Ok? && |p.eligibleTasks.value| > 0
    ensures r.hasEligiblePersonas <==> p.roster.Ok? && (|p.roster.value| > 0 || !c.requireBetaHardening)
    ensures r.passed <==> r.hasEligibleTasks && (r.hasEligiblePersonas || !c.requireBetaHardening) && p.notionTokenPresent
    ensures r.isNightShiftTime == IsNightShiftTime(c, p.hour)
    ensures r.taskError.Some? <==> p.eligibleTasks.Err?
  {
    var tasksOk := p.eligibleTasks.Ok? && |p.eligibleTasks.value| > 0;
    var personasOk := p.roster.Ok? && (|p.roster.value| > 0 || !c.requireBetaHardening);
    Prereqs(
      tasksOk && (personasOk || !c.requireBetaHardening) && p.notionTokenPresent,
      tasksOk, personasOk, IsNightShiftTime(c, p.hour), p.notionTokenPresent, true,
      if p.eligibleTasks.Ok? then Some(|p.eligibleTasks.value|) else None,
      if p.roster.Ok? then Some(|p.roster.value|) else None,
      if p.eligibleTasks.Err? then Some(p.eligibleTasks.error) else None,
      if p.roster.Err? then Some(p.roster.error) else None)
  }

  /** The night-time check is reported but never decides the outcome. */
  lemma PrereqsIgnoreClock(c: Config, p: Probe, hour: int)
    ensures ValidatePrerequisites(c, p.(hour := hour)).passed == ValidatePrerequisites(c, p).passed
  {
  }

  /** Without the hardening requirement, the roster (even a failed query) does not matter. */
  lemma PrereqsWithoutHardening(c: Config, p: Probe)
    requires !c.requireBetaHardening
    ensures ValidatePrerequisites(c, p).passed <==>
      p.eligibleTasks.Ok? && |p.eligibleTasks.value| > 0 && p.notionTokenPresent
  {
  }

  // ---------------------------------------------------------------------
  // Executing one task

  /** The action name every task is checked under. */
  const EXECUTE_ACTION := "execute_task"

  datatype ExecResult = ExecResult(success: bool, output: Option<string>, error: Option<string>, requiresApproval: Option<bool>)

  /** The persona's constraints: its hardening level, or the configured default. */
  function PersonaConstraints(p: PL.Persona, c: Config): CE.Constraints
  {
    CE.AtLevel(StrOr(p.hardeningLevel, c.defaultHardeningLevel))
  }

  /**
   * The enforcement audit, when constraints are enforced and a persona was
   * loaded. The context carries only the task id, so only the action check
   * can refuse.
   */
  function Guard(id: string, persona: Option<PL.Persona>, c: Config, now: int): (g: Option<CE.Audit>)
    ensures g.Some? <==> c.enforceConstraints && persona.Some?
    ensures g.Some? ==> (g.value.allowed <==> CE.ValidateAction(EXECUTE_ACTION, PersonaConstraints(persona.value, c), now).allowed)
    ensures g.Some? ==> (g.value.reason.None? <==> g.value.allowed)
  {
    if c.enforceConstraints && persona.Some? then
      Some(CE.Enforce(EXECUTE_ACTION, CE.Context(Some(id), None, None), PersonaConstraints(persona.value, c),
                      now, s => s, s => None))
    else None
  }

  function SuccessOutput(id: string): string
  {
    "Task " + id + " executed successfully"
  }

  /** The failure for a refused audit; an absent reason prints as `undefined`. */
  function Refusal(a: CE.Audit): ExecResult
  {
    ExecResult(false, None, Some("Constraint violation: " + a.reason.GetOr("undefined")), a.requiresApproval)
  }

  /**
   * The result once the guard `g` has been consulted: a refusal, or the
   * (simulated) execution, which succeeds unless success criteria are given
   * and the checkpoint built from them fails. A checkpoint that cannot be
   * built (an invalid pattern) is an exception.
   */
  function Outcome(g: Option<CE.Audit>, id: string, criteria: Option<string>, or: CV.Oracles, now: int): (r: Result<ExecResult>)
    ensures g.Some? && !g.value.allowed ==> r == Ok(Refusal(g.value))
    ensures (g.None? || g.value.allowed) && !Truthy(criteria) ==> r == Ok(ExecResult(true, Some(SuccessOutput(id)), None, None))
    ensures r.Ok? && r.value.success ==> r.value.output == Some(SuccessOutput(id)) && r.value.error.None?
    ensures r.Ok? && !r.value.success ==> r.value.error.Some?
    ensures r.Ok? && !r.value.success && (g.None? || g.value.allowed) ==>
      var cp := CV.MakeCheckpoint(id, CV.Str(SuccessOutput(id)), criteria, or, now);
      Truthy(criteria) && cp.Ok? && !cp.value.passed
      && r.value.error == Some("Checkpoint failed: " + Join(cp.value.failedRules, ", "))
    ensures r.Err? ==> Truthy(criteria) && CV.MakeCheckpoint(id, CV.Str(SuccessOutput(id)), criteria, or, now).Err?
  {
    if g.Some? && !g.value.allowed then Ok(Refusal(g.value))
    else
      var output := SuccessOutput(id);
      if !Truthy(criteria) then Ok(ExecResult(true, Some(output), None, None))
      else
        match CV.MakeCheckpoint(id, CV.Str(output), criteria, or, now)
        case Err(e) => Err(e)
        case Ok(cp) =>
          if cp.passed then Ok(ExecResult(true, Some(output), None, None))
          else Ok(ExecResult(false, Some(output), Some("Checkpoint failed: " + Join(cp.failedRules, ", ")), None))
  }

  /** `executeTask`'s outcome. */
  function Execute(id: string, persona: Option<PL.Persona>, c: Config, criteria: Option<string>,
                   or: CV.Oracles, now: int): Result<ExecResult>
  {
    Outcome(Guard(id, persona, c, now), id, criteria, or, now)
  }

  /**
   * A persona at a known hardening level (Alpha, Beta or Stable, or no level
   * under a known default) is never allowed `execute_task`: with
   * enforcement on, its task fails before it runs, with the refusal's reason.
   */
  lemma KnownLevelRefusesTask(id: string, p: PL.Persona, c: Config, criteria: Option<string>, or: CV.Oracles, now: int)
    requires c.enforceConstraints
    requires CE.HardeningProfile(StrOr(p.hardeningLevel, c.defaultHardeningLevel)).Some?
    ensures Guard(id, Some(p), c, now).Some?
    ensures Execute(id, Some(p), c, criteria, or, now) == Ok(Refusal(Guard(id, Some(p), c, now).value))
  {
    CE.ExecuteTaskRefusedAtKnownLevels(EXECUTE_ACTION, StrOr(p.hardeningLevel, c.defaultHardeningLevel), now);
  }

  /** Under the default configuration, every persona of the night-shift roster has its task refused. */
  lemma RosterPersonaRefused(id: string, p: PL.Persona, criteria: Option<string>, or: CV.Oracles, now: int)
    requires PL.InRoster(p)
    ensures Execute(id, Some(p), DEFAULT_CONFIG, criteria, or, now).Ok?
    ensures !Execute(id, Some(p), DEFAULT_CONFIG, criteria, or, now).value.success
  {
    var c := DEFAULT_CONFIG;
    assert StrOr(p.hardeningLevel, c.defaultHardeningLevel) == p.hardeningLevel.value;
    assert CE.HardeningProfile(p.hardeningLevel.value).Some?;
    KnownLevelRefusesTask(id, p, c, criteria, or, now);
  }

  /**
   * A persona at an unknown level gets the empty default lists, which allow
   * everything: without success criteria its task succeeds.
   */
  lemma UnknownLevelRunsTask(id: string, p: PL.Persona, c: Config, or: CV.Oracles, now: int)
    requires CE.HardeningProfile(StrOr(p.hardeningLevel, c.defaultHardeningLevel)).None?
    ensures Execute(id, Some(p), c, None, or, now) == Ok(ExecResult(true, Some(SuccessOutput(id)), None, None))
  {
    CE.UnknownLevelAllows(EXECUTE_ACTION, StrOr(p.hardeningLevel, c.defaultHardeningLevel), now);
  }

  /** Without a persona, or with enforcement off, only the checkpoint can fail a task. */
  lemma NoGuardWithoutPersona(id: string, persona: Option<PL.Persona>, c: Config, criteria: Option<string>,
                              or: CV.Oracles, now: int)
    requires persona.None? || !c.enforceConstraints
    ensures Execute(id, persona, c, criteria, or, now) == Outcome(None, id, criteria, or, now)
  {
  }

  /**
   * `executeTask`: enforcement appends one audit when it applies, and a
   * checkpoint is recorded when success criteria are given.
   */
  method ExecuteTask(id: string, persona: Option<PL.Persona>, c: Config, criteria: Option<string>,
                     or: CV.Oracles, now: int, audits: CE.AuditLog, checkpoints: CV.CheckpointLog)
    returns (r: Result<ExecResult>)
    modifies audits, checkpoints
    ensures r == Outcome(Guard(id, persona, c, now), id, criteria, or, now)
    ensures var g := Guard(id, persona, c, now);
      audits.audits == old(audits.audits) + (if g.Some? then [g.value] else [])
    ensures var g := Guard(id, persona, c, now);
      var cp := CV.MakeCheckpoint(id, CV.Str(SuccessOutput(id)), criteria, or, now);
      checkpoints.checkpoints == old(checkpoints.checkpoints)
        + (if (g.None? || g.value.allowed) && Truthy(criteria) && cp.Ok? then [cp.value] else [])
  {
    ghost var g := Guard(id, persona, c, now);
    if c.enforceConstraints && persona.Some? {
      var audit := audits.EnforceConstraints(EXECUTE_ACTION, CE.Context(Some(id), None, None),
                                             PersonaConstraints(persona.value, c), now, s => s, s => None);
      assert g == Some(audit);
      if !audit.allowed {
        return Ok(Refusal(audit));
      }
    }
    var output := SuccessOutput(id);
    r := Ok(ExecResult(true, Some(output), None, None));
    if Truthy(criteria) {
      var cp := checkpoints.ValidateCheckpoint(id, CV.Str(output), criteria, or, now);
      if cp.Err? {
        return Err(cp.error);
      }
      if !cp.value.passed {
        r := Ok(ExecResult(false, Some(output), Some("Checkpoint failed: " + Join(cp.value.failedRules, ", ")), None));
      }
    }
  }

  // ---------------------------------------------------------------------
  // The run loop

  /** `tasks.slice(0, n)`: a negative `n` counts back from the end. */
  function SliceEnd(len: nat, n: int): (e: nat)
    ensures e <= len
    ensures n >= 0 ==> e == (if n < len then n else len)
    ensures n < 0 ==> e == (if len + n > 0 then len + n else 0)
  {
    if n < 0 then (if len + n > 0 then len + n else 0) else if n < len then n else len
  }

  /** A work-plan task as `createRun` receives it: no persona, sequence or dependencies of its own. */
  function RunInput(t: WP.WorkTask): O.TaskInput
  {
    O.TaskInput(Some(t.id), t.title, t.description, None, t.assignedAgent, t.priority, None, None)
  }

  function RunInputs(ts: seq<WP.WorkTask>): (r: seq<O.TaskInput>)
    ensures |r| == |ts|
    ensures forall i :: 0 <= i < |r| ==> r[i].dependencies.None?
  {
    seq(|ts|, i requires 0 <= i < |ts| => RunInput(ts[i]))
  }

  function RunConfigOf(c: Config): O.ConfigInput
  {
    O.ConfigInput(Some(c.stopOnFailure), Some(c.maxRetries), Some(c.taskTimeoutMs))
  }

  /** The lifetime totals kept in the state file. */
  datatype LastRun = LastRun(id: string, timestamp: int, completed: nat, failed: nat)

  class StateFile {
    var lastRun: Option<LastRun>
    var totalRuns: nat
    var totalTasksCompleted: nat
    var totalTasksFailed: nat

    /** The state `loadState` starts from when there is no file. */
    constructor ()
      ensures lastRun.None? && totalRuns == 0 && totalTasksCompleted == 0 && totalTasksFailed == 0
    {
      lastRun := None;
      totalRuns := 0;
      totalTasksCompleted := 0;
      totalTasksFailed := 0;
    }

    /** Records one finished run and adds its counts to the totals. */
    method RecordRun(id: string, now: int, completed: nat, failed: nat)
      modifies this
      ensures lastRun == Some(LastRun(id, now, completed, failed))
      ensures totalRuns == old(totalRuns) + 1
      ensures totalTasksCompleted == old(totalTasksCompleted) + completed
      ensures totalTasksFailed == old(totalTasksFailed) + failed
    {
      lastRun := Some(LastRun(id, now, completed, failed));
      totalRuns := totalRuns + 1;
      totalTasksCompleted := totalTasksCompleted + completed;
      totalTasksFailed := totalTasksFailed + failed;
    }
  }

  /** How the loop ended. */
  datatype Exit = Drained | Stopped | TimedOut

  /** How one pass of the task loop ended: the task completed, or it failed with that severity. */
  datatype Pass = Completed | FailedWith(severity: FH.Severity)

  /** The failure action of the pass was STOP (only CRITICAL failures map to it). */
  predicate Halts(o: Pass)
  {
    o == FailedWith(FH.CRITICAL)
  }

  /**
   * After each of the passes in `trace` the loop went on: none ended in a
   * STOP, and at the clock reading of the `k`-th pass the run had been going
   * for no longer than `limit`.
   */
  ghost predicate KeptGoing(trace: seq<Pass>, clock: nat -> int, start: int, limit: int)
  {
    forall k :: 0 <= k < |trace| ==> !Halts(trace[k]) && clock(k + 1) - start <= limit
  }

  /** Every pass in `trace` but the last let the loop go on. */
  ghost predicate KeptGoingToLast(trace: seq<Pass>, clock: nat -> int, start: int, limit: int)
  {
    forall k :: 0 <= k < |trace| - 1 ==> !Halts(trace[k]) && clock(k + 1) - start <= limit
  }

  /** A loop that went on after every pass went on after all passes but the last. */
  lemma KeptGoingWeakens(trace: seq<Pass>, clock: nat -> int, start: int, limit: int)
    requires KeptGoing(trace, clock, start, limit)
    ensures KeptGoingToLast(trace, clock, start, limit)
  {
  }

  /**
   * One more pass `p` after passes that all let the loop go on: every pass
   * but `p` let it go on, and so did `p` itself when it was no STOP and
   * came before the timeout.
   */
  lemma KeptGoingSnoc(trace: seq<Pass>, p: Pass, clock: nat -> int, start: int, limit: int)
    requires KeptGoing(trace, clock, start, limit)
    ensures KeptGoingToLast(trace + [p], clock, start, limit)
    ensures KeptGoing(trace + [p], clock, start, limit) <==> !Halts(p) && clock(|trace| + 1) - start <= limit
  {
    var t := trace + [p];
    assert forall k :: 0 <= k < |trace| ==> t[k] == trace[k];
    if KeptGoing(t, clock, start, limit) {
      assert t[|trace|] == p;
    }
  }

  /** The loop's exit as `trace` determines it: a STOP, or a pass past the timeout. */
  ghost predicate ExitMatches(exit: Option<Exit>, trace: seq<Pass>, clock: nat -> int, start: int, limit: int)
  {
    && KeptGoingToLast(trace, clock, start, limit)
    && (exit == Some(Stopped) <==> |trace| > 0 && Halts(trace[|trace| - 1]))
    && (exit == Some(TimedOut) <==>
          |trace| > 0 && !Halts(trace[|trace| - 1]) && clock(|trace|) - start > limit)
  }

  /** The loop's exit behind a result: None when the step bound ran out or the loop never ran. */
  function ExitOf(r: NightResult): (e: Option<Exit>)
    ensures e.Some? <==> r.Finished?
  {
    if r.Finished? then Some(r.exit) else None
  }

  datatype NightResult =
    | PrereqsFailed(prereqs: Prereqs)
    | NoTasks
    | Finished(success: bool, runId: string, summary: O.Summary, completedCount: nat, failedCount: nat, exit: Exit)
      /** The loop was still going when the step bound ran out. */
    | Unfinished(runId: string, completedCount: nat, failedCount: nat)

  /** No task waits to be decided and none is mid-execution. */
  predicate Quiet(ts: seq<O.Task>)
  {
    forall i :: 0 <= i < |ts| ==> ts[i].state != O.PENDING && ts[i].state != O.RUNNING
  }

  /** A pass over a list without PENDING tasks changes nothing. */
  lemma PassWithoutPending(ts: seq<O.Task>)
    requires forall i :: 0 <= i < |ts| ==> ts[i].state != O.PENDING
    ensures O.UpdatePass(ts) == ts
  {
    O.PassShape(ts, |ts|);
  }

  /** Tasks without dependencies all become READY in the first pass. */
  lemma FirstPassReadiesAll(ts: seq<O.Task>)
    requires forall i :: 0 <= i < |ts| ==> ts[i].state == O.PENDING && ts[i].dependencies == []
    ensures forall i :: 0 <= i < |O.UpdatePass(ts)| ==> O.UpdatePass(ts)[i].state == O.READY
  {
    forall k | 0 <= k < |ts| ensures O.UpdatePass(ts)[k].state == O.READY {
      O.PassDecidedAt(ts, k);
      O.PassShape(ts, k);
    }
  }

  /** A new run over work-plan tasks holds only PENDING tasks without dependencies. */
  lemma NewRunShape(ws: seq<WP.WorkTask>)
    ensures var ts := O.InitialTasks(RunInputs(ws));
      forall i :: 0 <= i < |ts| ==> ts[i].state == O.PENDING && ts[i].dependencies == []
  {
    var ins := RunInputs(ws);
    var made := O.NewTasks(ins, 0);
    var ts := O.InitialTasks(ins);
    O.CreateRunOrder(ins, Sorting.Key(0, 0));
    forall i | 0 <= i < |ts| ensures ts[i].state == O.PENDING && ts[i].dependencies == [] {
      assert ts[i] in multiset(made);
      var j :| 0 <= j < |made| && made[j] == ts[i];
      O.NewTasksAt(ins, 0, j);
    }
  }

  /** With no READY task in a quiet run, the stored status shows nothing outstanding. */
  lemma QuietRunIsDrained(ts: seq<O.Task>)
    requires Quiet(ts) && forall i :: 0 <= i < |ts| ==> ts[i].state != O.READY
    ensures O.CountState(ts, O.PENDING) == 0 && O.CountState(ts, O.READY) == 0 && O.CountState(ts, O.RUNNING) == 0
  {
    O.CountPositive(ts, O.PENDING);
    O.CountPositive(ts, O.READY);
    O.CountPositive(ts, O.RUNNING);
  }

  /** Quiet except at `k`, the task being executed. */
  predicate QuietBut(ts: seq<O.Task>, k: nat)
  {
    forall i :: 0 <= i < |ts| && i != k ==> ts[i].state != O.PENDING && ts[i].state != O.RUNNING
  }

  /** Settling the task at `k` of a list quiet elsewhere leaves a quiet list that the pass does not change. */
  lemma SettleQuiet(ts: seq<O.Task>, k: nat, u: O.Task)
    requires k < |ts| && QuietBut(ts, k) && u.state != O.PENDING && u.state != O.RUNNING
    ensures O.UpdatePass(ts[k := u]) == ts[k := u] && Quiet(ts[k := u])
  {
    PassWithoutPending(ts[k := u]);
  }

  /** `startTask` on the first task with the id of the READY task chosen. */
  method Begin(run: O.Run, store: O.Store, id: string, now: int) returns (k: nat)
    requires Quiet(run.tasks) && exists i :: 0 <= i < |run.tasks| && run.tasks[i].id == id
    modifies run, store
    ensures k < |run.tasks| && O.IndexOfId(run.tasks, id) == k && QuietBut(run.tasks, k)
    ensures |run.tasks| == old(|run.tasks|) && run.config == old(run.config)
    ensures run.id == old(run.id) && run.startedAt == old(run.startedAt)
    ensures store.currentRun == Some(run.Record())
    ensures store.completed == old(store.completed) && store.failed == old(store.failed)
  {
    var j := O.IndexOfId(run.tasks, id);
    ghost var before := run.tasks;
    var started := run.StartTask(store, id, now);
    O.IndexOfSameIds(before, run.tasks, id);
    k := j;
  }

  /** `completeTask` on the task at `k`, which settles as COMPLETED. */
  method Complete(run: O.Run, store: O.Store, id: string, k: nat, output: string, now: int)
    requires k < |run.tasks| && O.IndexOfId(run.tasks, id) == k && QuietBut(run.tasks, k)
    modifies run, store
    ensures Quiet(run.tasks) && |run.tasks| == old(|run.tasks|)
    ensures run.id == old(run.id) && run.startedAt == old(run.startedAt)
    ensures store.currentRun == Some(run.Record())
    ensures store.completed == old(store.completed) + [O.CompletedEntry(id, now)] && store.failed == old(store.failed)
  {
    SettleQuiet(run.tasks, k, O.CompletedTask(run.tasks[k], output, now));
    var done := run.CompleteTask(store, id, output, now);
  }

  /** `failTask` on the task at `k`, which settles as READY (a retry) or FAILED. */
  method Fail(run: O.Run, store: O.Store, id: string, k: nat, error: string, now: int)
    requires k < |run.tasks| && O.IndexOfId(run.tasks, id) == k && QuietBut(run.tasks, k)
    modifies run, store
    ensures Quiet(run.tasks) && |run.tasks| == old(|run.tasks|)
    ensures run.id == old(run.id) && run.startedAt == old(run.startedAt)
    ensures store.currentRun == Some(run.Record())
    ensures store.failed == old(store.failed) + [O.FailedEntry(id, error, now)] && store.completed == old(store.completed)
  {
    SettleQuiet(run.tasks, k, O.FailedTask(run.tasks[k], run.config, error, now));
    var failed := run.FailTask(store, id, error, now);
  }

  /** Without success criteria, the execution never throws and a failure always carries its error. */
  lemma ExecuteWithoutCriteria(g: Option<CE.Audit>, id: string, or: CV.Oracles, now: int)
    ensures Outcome(g, id, None, or, now).Ok?
    ensures !Outcome(g, id, None, or, now).value.success ==> Outcome(g, id, None, or, now).value.error.Some?
  {
  }

  /**
   * `executeTask` on a run task, which has no success criteria: whether it
   * succeeded, and its output or its error.
   */
  method Attempt(id: string, persona: Option<PL.Persona>, c: Config, or: CV.Oracles, now: int,
                 audits: CE.AuditLog, checkpoints: CV.CheckpointLog)
    returns (success: bool, text: string)
    modifies audits, checkpoints
    ensures Execute(id, persona, c, None, or, now).Ok?
    ensures success == Execute(id, persona, c, None, or, now).value.success
    ensures !success ==> Some(text) == Execute(id, persona, c, None, or, now).value.error
    ensures checkpoints.checkpoints == old(checkpoints.checkpoints)
  {
    ExecuteWithoutCriteria(Guard(id, persona, c, now), id, or, now);
    var result := ExecuteTask(id, persona, c, None, or, now, audits, checkpoints);
    success := result.value.success;
    text := if success then result.value.output.GetOr("") else result.value.error.value;
  }

  /**
   * The end of the loop body: complete the task at `k`, or hand the error to
   * the failure handler and fail the task. Returns whether the failure
   * handler's action was STOP.
   */
  method Settle(run: O.Run, store: O.Store, failures: FH.FailureLog, id: string, k: nat,
                success: bool, text: string, now: int)
    returns (stop: bool)
    requires k < |run.tasks| && O.IndexOfId(run.tasks, id) == k && QuietBut(run.tasks, k)
    modifies run, store, failures
    ensures Quiet(run.tasks) && |run.tasks| == old(|run.tasks|)
    ensures store.currentRun == Some(run.Record())
    ensures run.id == old(run.id) && run.startedAt == old(run.startedAt)
    ensures success ==> store.completed == old(store.completed) + [O.CompletedEntry(id, now)]
                        && store.failed == old(store.failed) && failures.failures == old(failures.failures) && !stop
    ensures !success ==>
      var f := FH.MakeFailure(text, FH.Context(false, false, Some(id), Some(run.id)), now);
      && store.completed == old(store.completed)
      && store.failed == old(store.failed) + [O.FailedEntry(id, text, now)]
      && failures.failures == old(failures.failures) + [f]
      && (stop <==> f.severity == FH.CRITICAL)
  {
    if success {
      Complete(run, store, id, k, text, now);
      return false;
    }
    var failure, action := failures.HandleFailure(text, FH.Context(false, false, Some(id), Some(run.id)), now);
    Fail(run, store, id, k, text, now);
    stop := action == FH.STOP;
  }

  /**
   * One pass of the loop body for the READY task `t`: start it, run it with
   * its persona, then complete it, or handle the failure and fail it.
   * Returns whether it completed (whether `Attempt` succeeded) and whether
   * the failure action was STOP.
   */
  method Step(run: O.Run, store: O.Store, t: O.Task, persona: Option<PL.Persona>, c: Config,
              or: CV.Oracles, now: int, audits: CE.AuditLog, checkpoints: CV.CheckpointLog,
              failures: FH.FailureLog)
    returns (completed: bool, stop: bool, ghost p: Pass)
    requires t in run.tasks && Quiet(run.tasks)
    modifies run, store, audits, checkpoints, failures
    ensures Quiet(run.tasks) && |run.tasks| == old(|run.tasks|)
    ensures store.currentRun == Some(run.Record())
    ensures run.id == old(run.id) && run.startedAt == old(run.startedAt)
    ensures completed ==> |store.completed| == old(|store.completed|) + 1 && store.failed == old(store.failed)
                          && failures.failures == old(failures.failures)
    ensures !completed ==> store.completed == old(store.completed) && |store.failed| == old(|store.failed|) + 1
                           && |failures.failures| == old(|failures.failures|) + 1
                           && failures.failures[|failures.failures| - 1].taskId == Some(t.id)
    ensures stop <==> !completed && failures.failures[|failures.failures| - 1].severity == FH.CRITICAL
    ensures p == if completed then Completed else FailedWith(failures.failures[|failures.failures| - 1].severity)
    ensures stop <==> Halts(p)
  {
    assert exists i :: 0 <= i < |run.tasks| && run.tasks[i].id == t.id by {
      var i :| 0 <= i < |run.tasks| && run.tasks[i] == t;
      assert run.tasks[i].id == t.id;
    }
    var k := Begin(run, store, t.id, now);
    var success, text := Attempt(t.id, persona, c, or, now, audits, checkpoints);
    stop := Settle(run, store, failures, t.id, k, success, text, now);
    completed := success;
    p := if completed then Completed else FailedWith(failures.failures[|failures.failures| - 1].severity);
  }

  /** `abortRun('Run timeout exceeded')` on the stored run. */
  method AbortForTimeout(store: O.Store, now: int)
    requires store.currentRun.Some?
    modifies store
    ensures store.currentRun.None?
    ensures store.history == old(store.history) + [O.Aborted(old(store.currentRun).value.id, "Run timeout exceeded", now)]
    ensures store.completed == old(store.completed) && store.failed == old(store.failed)
  {
    var aborted := store.AbortRun("Run timeout exceeded", now);
  }

  /**
   * The rest of the loop body once the READY task `t` was taken at clock
   * reading `now`: `Step`, then, unless the failure action was STOP, the
   * timeout check, which aborts the stored run once it has been going for
   * longer than `runTimeoutMs`.
   */
  method Turn(run: O.Run, store: O.Store, t: O.Task, persona: Option<PL.Persona>, c: Config,
              or: CV.Oracles, now: int, audits: CE.AuditLog, checkpoints: CV.CheckpointLog,
              failures: FH.FailureLog)
    returns (completed: bool, stop: bool, timedOut: bool, ghost p: Pass)
    requires t in run.tasks && Quiet(run.tasks) && run.startedAt.Some?
    modifies run, store, audits, checkpoints, failures
    ensures Quiet(run.tasks) && |run.tasks| == old(|run.tasks|)
    ensures run.id == old(run.id) && run.startedAt == old(run.startedAt)
    ensures timedOut <==> !stop && now - run.startedAt.value > c.runTimeoutMs
    ensures if timedOut then store.currentRun.None? else store.currentRun == Some(run.Record())
    ensures |store.completed| == old(|store.completed|) + (if completed then 1 else 0)
    ensures |store.failed| == old(|store.failed|) + (if completed then 0 else 1)
    ensures |failures.failures| == old(|failures.failures|) + (if completed then 0 else 1)
    ensures p == if completed then Completed else FailedWith(failures.failures[|failures.failures| - 1].severity)
    ensures stop <==> Halts(p)
  {
    completed, stop, p := Step(run, store, t, persona, c, or, now, audits, checkpoints, failures);
    timedOut := !stop && now - run.startedAt.value > c.runTimeoutMs;
    if timedOut {
      AbortForTimeout(store, now);
    }
  }

  /**
   * The task loop of `runNightShift` over a started run: take the next
   * READY task, run it, and stop when nothing is outstanding, on a STOP
   * action, or when the run has been going longer than `runTimeoutMs`
   * (aborting it). The `k`-th task is processed at `clock(k)`, and `fuel`
   * bounds the number of tasks processed; `exit` is None when it runs out.
   */
  method Drive(run: O.Run, store: O.Store, c: Config, personaOf: string -> Option<PL.Persona>,
               clock: nat -> int, fuel: nat, or: CV.Oracles,
               audits: CE.AuditLog, checkpoints: CV.CheckpointLog, failures: FH.FailureLog)
    returns (completedCount: nat, failedCount: nat, exit: Option<Exit>, ghost trace: seq<Pass>)
    requires Quiet(run.tasks) && store.currentRun == Some(run.Record()) && run.startedAt.Some?
    modifies run, store, audits, checkpoints, failures
    ensures completedCount + failedCount <= fuel
    ensures |trace| == completedCount + failedCount
    ensures ExitMatches(exit, trace, clock, old(run.startedAt).value, c.runTimeoutMs)
    ensures exit.None? || exit == Some(Drained) ==> KeptGoing(trace, clock, old(run.startedAt).value, c.runTimeoutMs)
    ensures exit.None? ==> completedCount + failedCount == fuel
    ensures |run.tasks| == old(|run.tasks|) && run.id == old(run.id)
    ensures |store.completed| == old(|store.completed|) + completedCount
    ensures |store.failed| == old(|store.failed|) + failedCount
    ensures |failures.failures| == old(|failures.failures|) + failedCount
    ensures exit == Some(Stopped) ==> failedCount > 0 && failures.failures[|failures.failures| - 1].severity == FH.CRITICAL
    ensures exit == Some(TimedOut) ==> store.currentRun.None?
    ensures exit == Some(Drained) ==> store.currentRun == Some(run.Record()) && O.Outstanding(run.tasks) == 0
  {
    completedCount, failedCount := 0, 0;
    exit := None;
    trace := [];
    var start := run.startedAt.value;
    while completedCount + failedCount < fuel
      invariant completedCount + failedCount <= fuel
      invariant exit.None? && |trace| == completedCount + failedCount
      invariant KeptGoing(trace, clock, start, c.runTimeoutMs)
      invariant Quiet(run.tasks) && |run.tasks| == old(|run.tasks|)
      invariant store.currentRun == Some(run.Record())
      invariant run.id == old(run.id) && run.startedAt == Some(start)
      invariant |store.completed| == old(|store.completed|) + completedCount
      invariant |store.failed| == old(|store.failed|) + failedCount
      invariant |failures.failures| == old(|failures.failures|) + failedCount
      decreases fuel - (completedCount + failedCount)
    {
      var next := run.GetNextTask();
      if next.None? {
        var status := O.RunStatusOf(store.currentRun);
        QuietRunIsDrained(run.tasks);
        if status.NoActiveRun? || (status.pending == 0 && status.ready == 0 && status.running == 0) {
          KeptGoingWeakens(trace, clock, start, c.runTimeoutMs);
          exit := Some(Drained);
          break;
        }
        // The source would `continue` here and spin; a quiet run never gets here.
        assert false;
      }
      var t := next.value;
      var now := clock(completedCount + failedCount + 1);
      var persona := if Truthy(t.persona) then personaOf(t.persona.value) else None;
      var completed, stop, timedOut, p := Turn(run, store, t, persona, c, or, now, audits, checkpoints, failures);
      KeptGoingSnoc(trace, p, clock, start, c.runTimeoutMs);
      trace := trace + [p];
      if completed {
        completedCount := completedCount + 1;
      } else {
        failedCount := failedCount + 1;
      }
      if stop {
        exit := Some(Stopped);
        break;
      }
      if timedOut {
        exit := Some(TimedOut);
        break;
      }
    }
    if exit.None? {
      KeptGoingWeakens(trace, clock, start, c.runTimeoutMs);
    }
  }

  /**
   * `createRun` over the limited task list, then `startRun`: every task is
   * READY after the first dependency pass, since none has dependencies.
   */
  method Launch(limited: seq<WP.WorkTask>, c: Config, now: int, store: O.Store) returns (run: O.Run)
    modifies store
    ensures fresh(run)
    ensures |run.tasks| == |limited| && Quiet(run.tasks)
    ensures run.id == "run-" + IntToString(now) && run.startedAt == Some(now)
    ensures store.currentRun == Some(run.Record())
    ensures store.completed == old(store.completed) && store.failed == old(store.failed)
  {
    run := new O.Run(RunInputs(limited), RunConfigOf(c), now);
    NewRunShape(limited);
    FirstPassReadiesAll(run.tasks);
    run.StartRun(store, now);
  }

  /**
   * `runNightShift` from the creation of the run on: launch it over the
   * limited task list, drive it, summarise it and record it in the state
   * file, unless the step bound ran out first.
   */
  method Shift(limited: seq<WP.WorkTask>, c: Config, personaOf: string -> Option<PL.Persona>, clock: nat -> int,
               fuel: nat, or: CV.Oracles, lifetime: StateFile, store: O.Store, audits: CE.AuditLog,
               checkpoints: CV.CheckpointLog, failures: FH.FailureLog)
    returns (result: NightResult, ghost trace: seq<Pass>)
    modifies lifetime, store, audits, checkpoints, failures
    ensures result.Finished? || result.Unfinished?
    ensures |trace| == result.completedCount + result.failedCount
    ensures ExitMatches(ExitOf(result), trace, clock, clock(0), c.runTimeoutMs)
    ensures result.Unfinished? || result.exit == Drained ==> KeptGoing(trace, clock, clock(0), c.runTimeoutMs)
    ensures result.Unfinished? ==>
      lifetime.totalRuns == old(lifetime.totalRuns) && lifetime.lastRun == old(lifetime.lastRun)
      && result.completedCount + result.failedCount == fuel
    ensures result.Finished? ==>
      && (result.success <==> result.failedCount == 0)
      && lifetime.totalRuns == old(lifetime.totalRuns) + 1
      && lifetime.totalTasksCompleted == old(lifetime.totalTasksCompleted) + result.completedCount
      && lifetime.totalTasksFailed == old(lifetime.totalTasksFailed) + result.failedCount
      && lifetime.lastRun.Some? && lifetime.lastRun.value.id == result.runId
      && result.summary.total == |limited|
    ensures && result.completedCount + result.failedCount <= fuel
      && |store.completed| == old(|store.completed|) + result.completedCount
      && |store.failed| == old(|store.failed|) + result.failedCount
      && |failures.failures| == old(|failures.failures|) + result.failedCount
    ensures result.Finished? && result.exit == Stopped ==>
      result.failedCount > 0 && failures.failures[|failures.failures| - 1].severity == FH.CRITICAL
    ensures result.Finished? && result.exit == TimedOut ==> store.currentRun.None?
    ensures result.Finished? && result.exit == Drained ==>
      store.currentRun.Some? && O.Outstanding(store.currentRun.value.tasks) == 0
  {
    var run := Launch(limited, c, clock(0), store);
    var completedCount, failedCount, exit;
    completedCount, failedCount, exit, trace := Drive(run, store, c, personaOf, clock, fuel, or, audits, checkpoints, failures);
    result := Conclude(run.Record(), lifetime, completedCount, failedCount, exit, clock(completedCount + failedCount + 1));
  }

  /**
   * The end of `runNightShift` once the loop has stopped: summarise the run
   * and record it in the state file; nothing is recorded when the step
   * bound ran out first.
   */
  method Conclude(record: O.RunRecord, lifetime: StateFile, completedCount: nat, failedCount: nat,
                  exit: Option<Exit>, now: int)
    returns (result: NightResult)
    modifies lifetime
    ensures exit.None? ==>
      && result == Unfinished(record.id, completedCount, failedCount)
      && lifetime.totalRuns == old(lifetime.totalRuns) && lifetime.lastRun == old(lifetime.lastRun)
    ensures exit.Some? ==>
      && result.Finished? && result.exit == exit.value && result.runId == record.id
      && result.completedCount == completedCount && result.failedCount == failedCount
      && (result.success <==> failedCount == 0)
      && result.summary.total == |record.tasks|
      && lifetime.totalRuns == old(lifetime.totalRuns) + 1
      && lifetime.totalTasksCompleted == old(lifetime.totalTasksCompleted) + completedCount
      && lifetime.totalTasksFailed == old(lifetime.totalTasksFailed) + failedCount
      && lifetime.lastRun == Some(LastRun(record.id, now, completedCount, failedCount))
  {
    if exit.None? {
      result := Unfinished(record.id, completedCount, failedCount);
    } else {
      var summary := O.MakeSummary(record);
      lifetime.RecordRun(record.id, now, completedCount, failedCount);
      result := Finished(failedCount == 0, record.id, summary, completedCount, failedCount, exit.value);
    }
  }

  /**
   * `runNightShift`. `personaOf` is the persona lookup (None when
   * `loadPersona` fails); the run is created and started at `clock(0)`,
   * and the state file is updated at the clock reading after the last task.
   */
  method RunNightShift(skipValidation: bool, file: Option<Overrides>, probe: Probe, eligible: seq<WP.WorkTask>,
                       personaOf: string -> Option<PL.Persona>, clock: nat -> int, fuel: nat, or: CV.Oracles,
                       lifetime: StateFile, store: O.Store, audits: CE.AuditLog, checkpoints: CV.CheckpointLog,
                       failures: FH.FailureLog)
    returns (result: NightResult, ghost trace: seq<Pass>)
    modifies lifetime, store, audits, checkpoints, failures
    ensures var c := LoadConfig(file);
      !skipValidation && !ValidatePrerequisites(c, probe).passed ==>
        result == PrereqsFailed(ValidatePrerequisites(c, probe))
    ensures var c := LoadConfig(file);
      (skipValidation || ValidatePrerequisites(c, probe).passed) && SliceEnd(|eligible|, c.maxTasksPerRun) == 0 ==>
        result == NoTasks
    ensures result.PrereqsFailed? || result.NoTasks? || result.Unfinished? ==>
      lifetime.totalRuns == old(lifetime.totalRuns) && lifetime.lastRun == old(lifetime.lastRun)
    ensures result.PrereqsFailed? || result.NoTasks? ==>
      store.failed == old(store.failed) && store.completed == old(store.completed)
      && store.currentRun == old(store.currentRun)
    ensures result.Finished? ==>
      && (result.success <==> result.failedCount == 0)
      && lifetime.totalRuns == old(lifetime.totalRuns) + 1
      && lifetime.totalTasksCompleted == old(lifetime.totalTasksCompleted) + result.completedCount
      && lifetime.totalTasksFailed == old(lifetime.totalTasksFailed) + result.failedCount
      && lifetime.lastRun.Some? && lifetime.lastRun.value.id == result.runId
      && result.summary.total == SliceEnd(|eligible|, LoadConfig(file).maxTasksPerRun)
    ensures result.Finished? || result.Unfinished? ==>
      && result.completedCount + result.failedCount <= fuel
      && |store.completed| == old(|store.completed|) + result.completedCount
      && |store.failed| == old(|store.failed|) + result.failedCount
      && |failures.failures| == old(|failures.failures|) + result.failedCount
    ensures result.Unfinished? ==> result.completedCount + result.failedCount == fuel
    ensures result.Finished? || result.Unfinished? ==>
      && |trace| == result.completedCount + result.failedCount
      && ExitMatches(ExitOf(result), trace, clock, clock(0), LoadConfig(file).runTimeoutMs)
      && (result.Unfinished? || result.exit == Drained ==> KeptGoing(trace, clock, clock(0), LoadConfig(file).runTimeoutMs))
    ensures result.Finished? && result.exit == Stopped ==>
      result.failedCount > 0 && failures.failures[|failures.failures| - 1].severity == FH.CRITICAL
    ensures result.Finished? && result.exit == TimedOut ==> store.currentRun.None?
    ensures result.Finished? && result.exit == Drained ==>
      store.currentRun.Some? && O.Outstanding(store.currentRun.value.tasks) == 0
  {
    var c := LoadConfig(file);
    trace := [];
    if !skipValidation {
      var prereqs := ValidatePrerequisites(c, probe);
      if !prereqs.passed {
        return PrereqsFailed(prereqs), [];
      }
    }
    var limited := eligible[..SliceEnd(|eligible|, c.maxTasksPerRun)];
    if |limited| == 0 {
      return NoTasks, [];
    }
    result, trace := Shift(limited, c, personaOf, clock, fuel, or, lifetime, store, audits, checkpoints, failures);
  }
}
