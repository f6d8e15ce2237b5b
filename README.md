# Night Shift orchestration core, modelled in Dafny

Night Shift is the unattended overnight mode of the mesh's VoltAgent
personas. A runner picks eligible tasks from the work plan and checks that
the time window and prerequisites allow a shift. It then hands the tasks
to a sequential orchestrator, one at a time, in dependency order. Every
action a persona takes passes the constraint enforcer for its hardening
level (Alpha, Beta, Stable). Results are checked against success criteria
by the checkpoint validator. Failures are classified and answered by the
failure handler. Around this loop sit:

- a rate-limit handler that moves requests to an overflow node;
- a priority engine and a task queue;
- mesh task ownership with stale-task hand-off;
- the Notion task sync, the feedback loop and improvement requests;
- SOUL file versioning, the funnel and activity monitors;
- the weekly leaderboard rollup and idle-point decay;
- on the BD side, the intake router, its activity log and the
  per-session resource tracker.

The model has one Dafny module per source file. Code that computes a
value becomes functions over datatypes. Objects the source updates in
place become classes whose methods are proved against those functions:
the run and its store, the audit, checkpoint and failure logs, the
rate-limit handler, mesh ownership, the queue, the feedback and request
stores, the SOUL workspace, the monitors' state, the activity log and the
resource tracker. Loops become `while`/`for` loops with invariants.

| module | file | source |
|---|---|---|
| SequentialOrchestrator | orchestrator.dfy | shared/voltagent/sequential_orchestrator.js |
| CheckpointValidator | checkpoint.dfy | shared/voltagent/checkpoint_validator.js |
| FailureHandler | failure.dfy | shared/voltagent/failure_handler.js |
| PriorityEngine | priority.dfy | shared/voltagent/priority_engine.js |
| NightShiftRunner | runner.dfy | shared/voltagent/night_shift_runner.js |
| ConstraintEnforcer | constraints.dfy | shared/voltagent/constraint_enforcer.js |
| NotionProps, WorkPlanLoader | notion_props.dfy, workplan.dfy | shared/voltagent/work_plan_loader.js |
| PersonaLoader | persona.dfy | shared/voltagent/persona_loader.js |
| RateLimitHandler | ratelimit.dfy | shared/voltagent/rate_limit_handler.js |
| CoherenceScreener | coherence.dfy | shared/voltagent/coherence_screener.js |
| DecayCalculator | decay.dfy | shared/voltagent/decay_calculator.js |
| MeshResilience | mesh.dfy | shared/voltagent/mesh_resilience.js |
| TaskQueue | queue.dfy | shared/voltagent/process_queue.js |
| NotionSync | notion.dfy | shared/voltagent/notion_sync.js |
| FeedbackLoop | feedback.dfy | shared/voltagent/feedback.js |
| ImprovementRequests | improvement.dfy | shared/voltagent/improvement_request.js |
| SoulUpdater | soul.dfy | shared/voltagent/soul_updater.js |
| FunnelMonitor | funnel.dfy | shared/voltagent/funnel_monitor.js |
| ActivityMonitor | activity.dfy | shared/voltagent/activity_monitor.js |
| WeeklyRollup | rollup.dfy | shared/voltagent/weekly_rollup.js |
| BDRouter | router.dfy | infra/lib/bd_router.py |
| ActivityLog | activitylog.dfy | infra/lib/activity_log.py |
| ResourceTracking | resources.dfy | infra/lib/resource_tracker.py |
| Wrappers, Strings, Seqs, Sorting, Numbers, Tally, Checks | wrappers.dfy, strings.dfy, seqs.dfy, sorting.dfy, numbers.dfy, maps.dfy, checks.dfy | shared helpers: Option/Result, JavaScript string operations, list operations, stable sort, `Math.round`, counters, named checks |

Inputs from outside the program become parameters:

- clock readings, random bytes and generated ids;
- the contents of files read at start-up;
- Notion pages and query results;
- library predicates whose behaviour the model does not fix. These are
  `RegExp.test`, `JSON.parse`, `fs.existsSync`, `path.resolve`,
  `new URL`, the sha256 hash of a backup name, Python's `float()` of text
  and its text of a float.

Where the repository's design notes and the code differ, the model
follows the code:

- `createRun` leaves every task PENDING. Tasks without dependencies
  become READY only when `startRun` runs `updateTaskStates`.
- `failTask` does not run `checkRunCompletion`, so a run whose last task
  fails keeps its slot. `completeTask` and `skipTask` both run it.
- When the run has finished, `checkRunCompletion` clears the current-run
  slot. The `completeTask` or `skipTask` that triggered it then saves
  the run back into the slot.
- The runner's `createRun` call drops each task's success criteria, so
  tasks driven by the runner are never checkpointed.
- The runner classifies a task as the action `execute_task`, which
  parses to EXECUTE. Under every known hardening level that action is
  refused.

## Model

| member | source | states |
|---|---|---|
| SequentialOrchestrator.MakeConfig | shared/voltagent/sequential_orchestrator.js:80-85 | stopOnFailure is true unless explicitly false; maxRetries defaults to 0 and timeoutMs to 300000 (five minutes) |
| SequentialOrchestrator.NewTasks | shared/voltagent/sequential_orchestrator.js:86-100 | one task record per input, in input order |
| SequentialOrchestrator.NewTasksAt | shared/voltagent/sequential_orchestrator.js:86-100 | input `j` becomes the task at position `j`, defaulted with its own index |
| SequentialOrchestrator.CreateRunDefaults | shared/voltagent/sequential_orchestrator.js:86-100 | every new task is in the run, PENDING with zero attempts; id defaults to `task-<index>`, sequence to the index, dependencies to the empty list |
| SequentialOrchestrator.CreateRunOrder | shared/voltagent/sequential_orchestrator.js:107-112 | the run's tasks are a permutation of the inputs, sorted by sequence then priority rank (P0..P3, else 99), stably, all PENDING |
| SequentialOrchestrator.IndexOfId | shared/voltagent/sequential_orchestrator.js:172-173 | `tasks.find` by id: -1 exactly when no task has the id, otherwise the first task with it |
| SequentialOrchestrator.IndexOfSameIds | shared/voltagent/sequential_orchestrator.js:172 | two task lists with the same ids in the same places find the same task |
| SequentialOrchestrator.Pass | shared/voltagent/sequential_orchestrator.js:138-159 | the partial forward pass keeps the list length |
| SequentialOrchestrator.PassShape | shared/voltagent/sequential_orchestrator.js:139-157 | tasks not yet reached are untouched; a reached task changes only if it was PENDING, only in its state, and only to READY or BLOCKED |
| SequentialOrchestrator.PassKeepsSettled | shared/voltagent/sequential_orchestrator.js:139-140 | a task that is no longer PENDING is never changed again later in the pass |
| SequentialOrchestrator.PassDecidedAt | shared/voltagent/sequential_orchestrator.js:139-158 | each task's final value is the decision taken against the list as it stood when the loop reached it |
| SequentialOrchestrator.UpdateOnlyPending | shared/voltagent/sequential_orchestrator.js:138-159 | `updateTaskStates` changes only PENDING tasks, only their state, and only to READY or BLOCKED |
| SequentialOrchestrator.ReadyOnlyWhenDepsCompleted | shared/voltagent/sequential_orchestrator.js:143-156 | a task made READY has every dependency present and COMPLETED |
| SequentialOrchestrator.BlockedOnlyWhenDepFailed | shared/voltagent/sequential_orchestrator.js:148-154 | a task made BLOCKED has some present dependency that is FAILED or BLOCKED |
| SequentialOrchestrator.UnknownDependencyNeverReady | shared/voltagent/sequential_orchestrator.js:143-146 | a dependency on an id no task has keeps the task from ever becoming READY |
| SequentialOrchestrator.ForwardPassExample | shared/voltagent/sequential_orchestrator.js:139-158 | the pass is single and forward: with a -> b -> FAILED c, b becomes BLOCKED but a stays PENDING |
| SequentialOrchestrator.CountState | shared/voltagent/sequential_orchestrator.js:343-347 | a state count never exceeds the number of tasks |
| SequentialOrchestrator.CountsPartition | shared/voltagent/sequential_orchestrator.js:62-70 | every task is in exactly one of the seven states, so the counts add up to the total |
| SequentialOrchestrator.CountPositive | shared/voltagent/sequential_orchestrator.js:272-279 | a state count is positive exactly when some task is in that state |
| SequentialOrchestrator.NextReady | shared/voltagent/sequential_orchestrator.js:164-166 | `getNextTask`: None exactly when no task is READY, otherwise the first READY task in list order |
| SequentialOrchestrator.Completed | shared/voltagent/sequential_orchestrator.js:329 | one reference per COMPLETED task |
| SequentialOrchestrator.FailedRefs | shared/voltagent/sequential_orchestrator.js:328 | one reference per FAILED task |
| SequentialOrchestrator.MakeSummary | shared/voltagent/sequential_orchestrator.js:310-331 | total is the task count; completed, failed, skipped and blocked are the state counts and together at most the total; the task lists have matching lengths; no abort reason |
| SequentialOrchestrator.RunStatusOf | shared/voltagent/sequential_orchestrator.js:336-363 | NO_ACTIVE_RUN exactly when no run is stored; otherwise each state count is the number of tasks in that state and the next task is the title of the first READY task |
| SequentialOrchestrator.StartedTask | shared/voltagent/sequential_orchestrator.js:175-177 | the started task is RUNNING with one more attempt and keeps its id and dependencies |
| SequentialOrchestrator.FailedTask | shared/voltagent/sequential_orchestrator.js:221-234 | READY again while attempts < maxRetries, else FAILED; the error is recorded and attempts are unchanged |
| SequentialOrchestrator.CompletedTask | shared/voltagent/sequential_orchestrator.js:193-195 | COMPLETED with completion time and output; every other field unchanged |
| SequentialOrchestrator.SkippedTask | shared/voltagent/sequential_orchestrator.js:254-256 | SKIPPED with completion time; the error is the reason, or "Skipped by user" when it is empty; every other field unchanged |
| SequentialOrchestrator.RetryBound | shared/voltagent/sequential_orchestrator.js:177-225 | a task is started max(1, maxRetries - attempts) times before failTask marks it FAILED |
| SequentialOrchestrator.FreshTaskRetryBound | shared/voltagent/sequential_orchestrator.js:171-233 | a fresh task is started at most max(1, maxRetries) times |
| SequentialOrchestrator.FinalStatus | shared/voltagent/sequential_orchestrator.js:279-280 | COMPLETED_WITH_FAILURES exactly when some task FAILED, else COMPLETED |
| SequentialOrchestrator.FinishRun | shared/voltagent/sequential_orchestrator.js:278-284 | the finished run has the final status, the completion time and a summary of itself; nothing else changes |
| SequentialOrchestrator.Settled | shared/voltagent/sequential_orchestrator.js:271-305 | the completion check never changes tasks, id, config or start time, and changes nothing while a task is outstanding |
| SequentialOrchestrator.Archived | shared/voltagent/sequential_orchestrator.js:286-298 | one history line is appended exactly when nothing is outstanding |
| SequentialOrchestrator.FinishEntry | shared/voltagent/sequential_orchestrator.js:288-297 | the history line carries the run id, the completion time and the task total, and its counts are at most the total |
| SequentialOrchestrator.Store.constructor | shared/voltagent/sequential_orchestrator.js:22-35 | with no state file: no current run, empty completed, failed and history lists |
| SequentialOrchestrator.Store.AbortRun | shared/voltagent/sequential_orchestrator.js:368-393 | nothing stored gives None and changes nothing; otherwise the run is returned ABORTED with its summary and reason, one history line is appended and the slot is cleared |
| SequentialOrchestrator.Run.constructor | shared/voltagent/sequential_orchestrator.js:75-115 | `createRun`: id `run-<now>`, CREATED, the defaulted config, the sorted tasks, index -1, no timestamps or summary |
| SequentialOrchestrator.Run.UpdateTaskStates | shared/voltagent/sequential_orchestrator.js:138-159 | the loop leaves exactly the list the forward pass specifies, and nothing else in the run changes |
| SequentialOrchestrator.Run.StartRun | shared/voltagent/sequential_orchestrator.js:120-133 | RUNNING, start time, index 0, one dependency pass, and the run saved as current |
| SequentialOrchestrator.Run.GetNextTask | shared/voltagent/sequential_orchestrator.js:164-166 | the first READY task in list order, or None exactly when no task is READY |
| SequentialOrchestrator.Run.StartTask | shared/voltagent/sequential_orchestrator.js:171-184 | an unknown id gives None and changes nothing; otherwise the first task with the id is started and the run saved |
| SequentialOrchestrator.Run.CheckRunCompletion | shared/voltagent/sequential_orchestrator.js:271-305 | the run becomes `Settled`, the history gains `Archived`, and the slot is cleared exactly when nothing is outstanding |
| SequentialOrchestrator.Run.SettleTask | shared/voltagent/sequential_orchestrator.js:197-262 | the settled task is stored, one pass runs, then the completion check, and the run is saved as current again even when the check had cleared it |
| SequentialOrchestrator.Run.CompleteTask | shared/voltagent/sequential_orchestrator.js:189-211 | unknown id: None, nothing changes; otherwise COMPLETED, pass, completion check, saved as current, and one completion log entry |
| SequentialOrchestrator.Run.FailTask | shared/voltagent/sequential_orchestrator.js:216-245 | unknown id: None; otherwise retry or FAILED (the run FAILED under stopOnFailure), pass, a failure log entry, and no completion check |
| SequentialOrchestrator.Run.SkipTask | shared/voltagent/sequential_orchestrator.js:250-266 | unknown id: None; otherwise SKIPPED with its reason, pass, completion check, saved as current |
| NightShiftRunner.LoadConfig | shared/voltagent/night_shift_runner.js:35-69 | a missing or unreadable file gives the defaults; otherwise each of the fourteen keys takes the file's value when present and its default when absent: 10 tasks per run, 5-minute task timeout, 1-hour run timeout, stopOnFailure, 1 retry, no default persona, Beta hardening required, enforcement on, Alpha, Notion logging on, alerts on, 23:00 to 06:00, UTC |
| NightShiftRunner.LoadConfigOverlay | shared/voltagent/night_shift_runner.js:65 | an empty file gives the defaults and a file setting every key gives exactly that configuration |
| NightShiftRunner.IsNightShiftTime | shared/voltagent/night_shift_runner.js:100-110 | a window that crosses midnight holds for hour >= start or hour < end; otherwise for start <= hour < end |
| NightShiftRunner.DefaultNightHours | shared/voltagent/night_shift_runner.js:56-110 | with the defaults the night shift covers 23:00 to 05:59 |
| NightShiftRunner.ValidatePrerequisites | shared/voltagent/night_shift_runner.js:115-153 | eligible tasks iff the query succeeded with at least one; eligible personas iff the roster query succeeded and was non-empty or hardening is not required; passed iff tasks, personas-or-no-hardening, and the Notion token; a task error exactly when the task query failed |
| NightShiftRunner.PrereqsIgnoreClock | shared/voltagent/night_shift_runner.js:119-150 | the night-time check is reported but never changes whether the prerequisites pass |
| NightShiftRunner.PrereqsWithoutHardening | shared/voltagent/night_shift_runner.js:136-150 | without the hardening requirement the roster, even a failed query, does not decide the outcome |
| NightShiftRunner.Guard | shared/voltagent/night_shift_runner.js:169-176 | an audit is made exactly when enforcement is on and a persona was loaded, and it allows the task exactly when `execute_task` is allowed under the persona's (or the default) hardening level |
| NightShiftRunner.Outcome | shared/voltagent/night_shift_runner.js:177-211 | a refused audit gives the refusal; with no success criteria the task succeeds with `Task <id> executed successfully`; a failure carries an error, which for a checkpoint lists its failed rules |
| NightShiftRunner.KnownLevelRefusesTask | shared/voltagent/night_shift_runner.js:169-183 | a persona at Alpha, Beta or Stable (its own or the default) is refused `execute_task` before its task runs |
| NightShiftRunner.RosterPersonaRefused | shared/voltagent/night_shift_runner.js:169-183 | under the default configuration every persona of the night-shift roster has its task refused |
| NightShiftRunner.UnknownLevelRunsTask | shared/voltagent/night_shift_runner.js:170-192 | a persona at an unknown level gets the empty default lists, and without success criteria its task succeeds |
| NightShiftRunner.NoGuardWithoutPersona | shared/voltagent/night_shift_runner.js:169 | without a persona or with enforcement off only the checkpoint can fail a task |
| NightShiftRunner.ExecuteTask | shared/voltagent/night_shift_runner.js:158-212 | the result is `Outcome` of the guard; one audit is appended when enforcement applies, and one checkpoint when success criteria are given and the action was allowed |
| NightShiftRunner.SliceEnd | shared/voltagent/night_shift_runner.js:245 | `slice(0, n)`: at most the list length; a negative `n` counts back from the end |
| NightShiftRunner.RunInputs | shared/voltagent/night_shift_runner.js:254 | one run input per work-plan task, none with dependencies |
| NightShiftRunner.StateFile.constructor | shared/voltagent/night_shift_runner.js:81-86 | no last run and zero totals |
| NightShiftRunner.StateFile.RecordRun | shared/voltagent/night_shift_runner.js:354-363 | the last run is replaced and the run and task totals grow by this run's counts |
| NightShiftRunner.PassWithoutPending | shared/voltagent/sequential_orchestrator.js:139-140 | a dependency pass over a list without PENDING tasks changes nothing |
| NightShiftRunner.FirstPassReadiesAll | shared/voltagent/night_shift_runner.js:261 | tasks without dependencies all become READY in the first pass of `startRun` |
| NightShiftRunner.NewRunShape | shared/voltagent/night_shift_runner.js:254-258 | a run built from work-plan tasks holds only PENDING tasks without dependencies |
| NightShiftRunner.QuietRunIsDrained | shared/voltagent/night_shift_runner.js:273-279 | with no READY task and nothing PENDING or RUNNING, the stored status shows zero pending, ready and running, so the loop breaks rather than spinning |
| NightShiftRunner.SettleQuiet | shared/voltagent/night_shift_runner.js:303-315 | settling the executing task leaves no PENDING or RUNNING task, and the pass changes nothing |
| NightShiftRunner.Begin | shared/voltagent/night_shift_runner.js:286 | `startTask` on the chosen id finds the first task with that id and saves the run as current |
| NightShiftRunner.Complete | shared/voltagent/night_shift_runner.js:304 | `completeTask` appends exactly one completion entry, keeps the run current and leaves the run quiet |
| NightShiftRunner.Fail | shared/voltagent/night_shift_runner.js:315 | `failTask` appends exactly one failure entry, keeps the run current and leaves the run quiet |
| NightShiftRunner.ExecuteWithoutCriteria | shared/voltagent/night_shift_runner.js:195-202 | without success criteria execution never throws and a failure always carries its error |
| NightShiftRunner.Attempt | shared/voltagent/night_shift_runner.js:301 | the task succeeds exactly when `executeTask` says so, and a failure returns its error; no checkpoint is recorded for run tasks |
| NightShiftRunner.Settle | shared/voltagent/night_shift_runner.js:303-323 | success appends one completion; failure appends one failure-handler record and one failed entry, and stops exactly when that failure is CRITICAL (the handler's STOP action) |
| NightShiftRunner.Step | shared/voltagent/night_shift_runner.js:285-323 | one loop body: exactly one of the completion and failure lists grows, and a stop follows only a failure |
| NightShiftRunner.AbortForTimeout | shared/voltagent/night_shift_runner.js:342-345 | the stored run is archived as aborted with "Run timeout exceeded" and the slot is cleared |
| NightShiftRunner.Drive | shared/voltagent/night_shift_runner.js:267-347 | the completed and failed counts match the growth of the completion, failure and failure-handler lists and the length of the pass trace; the exit is STOP iff the last pass was a CRITICAL failure and TIMEOUT iff the last pass was not and ended past the timeout, every earlier pass neither halted nor ran past the timeout, and a drained or unfinished loop never halted or timed out; a drained exit leaves nothing outstanding |
| NightShiftRunner.Turn | shared/voltagent/night_shift_runner.js:285-346 | one loop body and its timeout check: the run stays quiet, a timeout is reported iff no stop occurred and the elapsed time exceeds the limit, and then the slot is cleared, otherwise the run is saved as current |
| NightShiftRunner.KeptGoingSnoc | shared/voltagent/night_shift_runner.js:267-347 | a trace that kept going, extended by one pass, keeps going iff that pass neither halted nor ran past the timeout |
| NightShiftRunner.Launch | shared/voltagent/night_shift_runner.js:254-261 | the run has one task per limited task, all READY, id `run-<now>`, started now and saved as current |
| NightShiftRunner.Conclude | shared/voltagent/night_shift_runner.js:349-376 | the result reports success iff no task failed, carries the summary of the run, and the state file records the run and adds its counts |
| NightShiftRunner.Shift | shared/voltagent/night_shift_runner.js:253-376 | from run creation to the return value: the state totals grow by the reported counts, the summary covers every limited task, and the exit is characterised by the pass trace as in `Drive` |
| NightShiftRunner.RunNightShift | shared/voltagent/night_shift_runner.js:217-377 | failed prerequisites (unless skipped) return them and change nothing; an empty limited list returns "No tasks"; otherwise as `Shift` over the first `maxTasksPerRun` eligible tasks, with the exit characterised by the pass trace against the configured timeout |
| RateLimitHandler.AnyContained | shared/voltagent/rate_limit_handler.js:124-131 | true exactly when some pattern occurs in the text |
| RateLimitHandler.Prefix50 | shared/voltagent/rate_limit_handler.js:132 | `slice(0, 50)`: a prefix of the text, of length 50 or the whole text |
| RateLimitHandler.IsRateLimited | shared/voltagent/rate_limit_handler.js:115-136 | limited exactly when the status (429, 529), the lower-cased error type, or the lower-cased message matches; a reason exactly when limited, naming the first check that fired in that order |
| RateLimitHandler.DetectsStatus | shared/voltagent/rate_limit_handler.js:422 | status 429 is a rate limit |
| RateLimitHandler.DetectsErrorType | shared/voltagent/rate_limit_handler.js:423 | the `rate_limit_error` type is a rate limit despite status 200 |
| RateLimitHandler.DetectsMessage | shared/voltagent/rate_limit_handler.js:424 | "Too many requests" in a message is a rate limit whatever its case |
| RateLimitHandler.BusyLowered | shared/voltagent/rate_limit_handler.js:130 | the lower-cased busy message contains "too many requests" |
| RateLimitHandler.PassesSuccess | shared/voltagent/rate_limit_handler.js:425 | an ordinary success message is not a rate limit |
| RateLimitHandler.NextCooldown | shared/voltagent/rate_limit_handler.js:191-194 | the extended cooldown is the multiplied cooldown or the cap, never above the cap |
| RateLimitHandler.NextCooldownGrows | shared/voltagent/rate_limit_handler.js:191-194 | with a multiplier of at least 1 an extension never shortens the cooldown |
| RateLimitHandler.DefaultCooldownReachesCap | shared/voltagent/rate_limit_handler.js:191-194 | from 5 minutes at x1.5, the fourth extension gives 1518750 ms and the fifth reaches the 30-minute cap |
| RateLimitHandler.HealthOf | shared/voltagent/rate_limit_handler.js:353-386 | unhealthy with the failure count exactly when at least three overflow failures were logged in the last hour; otherwise prolonged exactly when in overflow for more than two hours |
| RateLimitHandler.HealthyOutsideOverflow | shared/voltagent/rate_limit_handler.js:355-386 | outside overflow mode, with no overflow failures logged, the route is healthy |
| RateLimitHandler.Handler.constructor | shared/voltagent/rate_limit_handler.js:69-91 | not in overflow, no start time, zero counts, the default cooldown, and an empty log |
| RateLimitHandler.Handler.LogEvent | shared/voltagent/rate_limit_handler.js:98-110 | the event is appended and only the last 1000 events are kept; the state is unchanged |
| RateLimitHandler.Handler.HandleRateLimit | shared/voltagent/rate_limit_handler.js:159-205 | the rate limit is counted and timestamped; outside overflow it enters overflow with the cooldown unchanged and logs OVERFLOW_STARTED; inside it extends the cooldown up to the cap and logs COOLDOWN_EXTENDED |
| RateLimitHandler.Handler.ExitOverflow | shared/voltagent/rate_limit_handler.js:210-228 | in overflow: leaves it, resets the cooldown to 5 minutes and logs the duration; otherwise nothing changes |
| RateLimitHandler.Handler.ShouldUseOverflow | shared/voltagent/rate_limit_handler.js:233-246 | overflow is used exactly when it is enabled, an endpoint is set and the handler is in overflow; the endpoint is returned only then, a reason otherwise |
| RateLimitHandler.Handler.RouteRequest | shared/voltagent/rate_limit_handler.js:251-262 | routed exactly when `shouldUseOverflow` says so, logging OVERFLOW_ROUTED with the endpoint; otherwise nothing changes |
| RateLimitHandler.Handler.CheckOverflowHealth | shared/voltagent/rate_limit_handler.js:348-387 | the verdict of `HealthOf`; OVERFLOW_CRITICAL or EXTENDED_OVERFLOW is logged for the matching unhealthy verdict and nothing for a healthy one |
| ConstraintEnforcer.ExpandWords | shared/voltagent/constraint_enforcer.js:137-139 | the expanded list holds exactly the words of the listed categories |
| ConstraintEnforcer.FirstGroup | shared/voltagent/constraint_enforcer.js:89-113 | the first keyword group, from a position on, that the text mentions, or None exactly when it mentions none |
| ConstraintEnforcer.ParseActionType | shared/voltagent/constraint_enforcer.js:89-116 | UNKNOWN exactly when the lower-cased action mentions no keyword of any group |
| ConstraintEnforcer.ProfileConstraints | shared/voltagent/constraint_enforcer.js:121-141 | a level the profile table names applies its three expanded lists and source `hardening:<level>` to the defaults; any other level leaves the defaults |
| ConstraintEnforcer.LoadConstraints | shared/voltagent/constraint_enforcer.js:121-154 | an explicit allow-list replaces the allowed actions and marks the source task-specific; an explicit forbidden list replaces the forbidden actions; otherwise the profile's lists stay |
| ConstraintEnforcer.UnknownLevelIsDefault | shared/voltagent/constraint_enforcer.js:121-135 | a missing or unknown level leaves every action list empty and the source 'default' |
| ConstraintEnforcer.ValidateAction | shared/voltagent/constraint_enforcer.js:159-202 | allowed exactly when the lower-cased action contains no forbidden word, no approval word, and an allow-list word unless the allow-list is empty; approval is requested exactly when not forbidden and an approval word occurs |
| ConstraintEnforcer.ForbiddenWins | shared/voltagent/constraint_enforcer.js:172-177 | a forbidden action is refused without an approval request, whatever the other lists say |
| ConstraintEnforcer.EmptyAllowListAllows | shared/voltagent/constraint_enforcer.js:180-201 | with an empty allow-list every action neither forbidden nor approval-gated is allowed |
| ConstraintEnforcer.NotListed | shared/voltagent/constraint_enforcer.js:173-184 | a text that avoids one lower-case character of every word matches none of them |
| ConstraintEnforcer.Listed | shared/voltagent/constraint_enforcer.js:173-184 | a text containing one of the lower-cased words matches the list |
| ConstraintEnforcer.ListsAppend | shared/voltagent/constraint_enforcer.js:137-173 | matching a concatenated list is matching either part |
| ConstraintEnforcer.ExpandCons | shared/voltagent/constraint_enforcer.js:137 | the expansion of a category list is the first category's words followed by the rest's |
| ConstraintEnforcer.Expand2 | shared/voltagent/constraint_enforcer.js:137 | the expansion of two categories is their word lists concatenated |
| ConstraintEnforcer.Expand3 | shared/voltagent/constraint_enforcer.js:137 | the expansion of three categories is their word lists concatenated |
| ConstraintEnforcer.AlphaProfile | shared/voltagent/constraint_enforcer.js:69-73 | loading Alpha gives allowed READ+ANALYZE, forbidden DELETE+EXECUTE, approval WRITE+NETWORK+GIT |
| ConstraintEnforcer.BetaProfile | shared/voltagent/constraint_enforcer.js:74-78 | loading Beta gives allowed READ+ANALYZE+WRITE, forbidden DELETE, approval EXECUTE+GIT |
| ConstraintEnforcer.StableProfile | shared/voltagent/constraint_enforcer.js:79-83 | loading Stable gives allowed READ+ANALYZE+WRITE+NETWORK+GIT, nothing forbidden, approval DELETE+EXECUTE |
| ConstraintEnforcer.AlphaLists | shared/voltagent/constraint_enforcer.js:69-73 | the Alpha lists category by category, with source 'hardening:Alpha' |
| ConstraintEnforcer.BetaLists | shared/voltagent/constraint_enforcer.js:74-78 | the Beta lists category by category, with source 'hardening:Beta' |
| ConstraintEnforcer.StableLists | shared/voltagent/constraint_enforcer.js:79-83 | the Stable lists category by category, with source 'hardening:Stable' |
| ConstraintEnforcer.FirstPrefix | shared/voltagent/constraint_enforcer.js:211-217 | the first forbidden prefix the path starts with, None exactly when it starts with none |
| ConstraintEnforcer.FirstPrefixIsFirst | shared/voltagent/constraint_enforcer.js:211-217 | the prefix found is the earliest matching one in list order |
| ConstraintEnforcer.ValidatePath | shared/voltagent/constraint_enforcer.js:207-235 | permitted exactly when the path starts with no forbidden prefix and, when allowed zones are listed, with one of them; a refusal names the first forbidden zone |
| ConstraintEnforcer.ForbiddenZoneWins | shared/voltagent/constraint_enforcer.js:211-218 | a path under a forbidden prefix is refused even when an allowed zone covers it |
| ConstraintEnforcer.PrefixesClash | shared/voltagent/constraint_enforcer.js:211-224 | two prefixes that differ at a common position cannot both start one path |
| ConstraintEnforcer.DefaultPaths | shared/voltagent/constraint_enforcer.js:207-235 | under the default zones a path is permitted exactly when it lies under /root/clawd/ or /tmp/ |
| ConstraintEnforcer.ValidateDomain | shared/voltagent/constraint_enforcer.js:240-262 | permitted exactly when the URL parses and its host equals an allowed domain or ends with `.` + one (or the list is empty); an unparsable URL gives 'Invalid URL' |
| ConstraintEnforcer.SubdomainAllowed | shared/voltagent/constraint_enforcer.js:246-248 | every sub-domain of an allowed domain is permitted |
| ConstraintEnforcer.SuffixWithoutDotRefused | shared/voltagent/constraint_enforcer.js:246-248 | `evilapi.github.com` is refused under the default domains: a suffix without the dot does not match |
| ConstraintEnforcer.FirstFailure | shared/voltagent/constraint_enforcer.js:281-306 | no failure reason exactly when every check passed |
| ConstraintEnforcer.Optional | shared/voltagent/constraint_enforcer.js:287-307 | a path or domain check is recorded exactly when it was run |
| ConstraintEnforcer.Assemble | shared/voltagent/constraint_enforcer.js:267-307 | the checks are the action check then the optional path and domain checks; the audit is allowed exactly when every check is, with the first failing check's reason |
| ConstraintEnforcer.Enforce | shared/voltagent/constraint_enforcer.js:267-315 | allowed exactly when the action check passes, the path check passes when a path is given, and the domain check passes when a URL is given |
| ConstraintEnforcer.AuditLog.constructor | shared/voltagent/constraint_enforcer.js:21-28 | an empty audit log |
| ConstraintEnforcer.AuditLog.EnforceConstraints | shared/voltagent/constraint_enforcer.js:267-315 | the audit returned is `Enforce`'s and exactly that audit is appended to the log |
| ConstraintEnforcer.AlphaReadFile | shared/voltagent/constraint_enforcer.js:403 | under Alpha `read_file` is allowed |
| ConstraintEnforcer.AlphaWriteFile | shared/voltagent/constraint_enforcer.js:404 | under Alpha `write_file` is refused because it needs approval |
| ConstraintEnforcer.AlphaDeleteFile | shared/voltagent/constraint_enforcer.js:405 | under Alpha `delete_file` is forbidden |
| ConstraintEnforcer.AlphaExecCommand | shared/voltagent/constraint_enforcer.js:406 | under Alpha `exec_command` is forbidden |
| ConstraintEnforcer.AlphaParseJson | shared/voltagent/constraint_enforcer.js:407 | under Alpha `parse_json` is allowed |
| ConstraintEnforcer.AlphaValidateSchema | shared/voltagent/constraint_enforcer.js:408 | under Alpha `validate_schema` is allowed |
| ConstraintEnforcer.ExecuteTaskRefusedAlpha | shared/voltagent/constraint_enforcer.js:69-73 | under Alpha the runner's `execute_task` is in no allow-list, so it is refused |
| ConstraintEnforcer.ExecuteTaskRefusedBeta | shared/voltagent/constraint_enforcer.js:74-78 | under Beta `execute_task` is refused |
| ConstraintEnforcer.ExecuteTaskRefusedStable | shared/voltagent/constraint_enforcer.js:79-83 | under Stable `execute_task` is refused |
| ConstraintEnforcer.ExecuteTaskRefusedAtKnownLevels | shared/voltagent/constraint_enforcer.js:68-84 | at every level of the profile table `execute_task` is refused |
| ConstraintEnforcer.UnknownLevelAllows | shared/voltagent/constraint_enforcer.js:121-181 | under an unknown level every action listed nowhere passes, `execute_task` included |
| FailureHandler.KeyHits | shared/voltagent/failure_handler.js:126-131 | one flag per table row, set exactly when that row's key matches the text |
| FailureHandler.FirstHit | shared/voltagent/failure_handler.js:126-131 | the first set flag from a position on, or None exactly when no flag from there is set |
| FailureHandler.ClassifyFailure | shared/voltagent/failure_handler.js:122-147 | the scan returns exactly the classification `Classify` specifies |
| FailureHandler.ClassifyFirstMatch | shared/voltagent/failure_handler.js:126-131 | the first table key that matches the lower-cased text decides type and severity, whatever later keys and the fallback would say |
| FailureHandler.ClassifyNoMatch | shared/voltagent/failure_handler.js:133-146 | with no matching key the keyword checks and then the context flags decide |
| FailureHandler.SeverityAgreesWithMatrix | shared/voltagent/failure_handler.js:122-147 | whenever the reported type is a table key, the severity is that key's table entry |
| FailureHandler.FallbackAgrees | shared/voltagent/failure_handler.js:134-146 | the fallback's types that are table keys carry the table's severities |
| FailureHandler.KeysDistinct | shared/voltagent/failure_handler.js:53-79 | the table keys are pairwise distinct |
| FailureHandler.KeyNotSecurityFailure | shared/voltagent/failure_handler.js:53-79 | the flag-based type `security_failure` is not a table key |
| FailureHandler.KeyMisses | shared/voltagent/failure_handler.js:127-128 | a row whose key has a character other than `_` that the text lacks cannot match |
| FailureHandler.RateLimitKeyMisses | shared/voltagent/failure_handler.js:127-128 | `api_rate_limit` with only its first `_` replaced still has a `_`, so it never matches a text without `_` |
| FailureHandler.ScanFirst | shared/voltagent/failure_handler.js:126-131 | the scan stops at the first matching row |
| FailureHandler.HitsFirst | shared/voltagent/failure_handler.js:126-131 | over any table, the scan stops at its first matching row |
| FailureHandler.ScanNone | shared/voltagent/failure_handler.js:126-131 | the scan finds nothing when no row matches |
| FailureHandler.ActionFor | shared/voltagent/failure_handler.js:246-248 | STOP exactly for CRITICAL, PAUSE exactly for HIGH, CONTINUE for LOW and MEDIUM |
| FailureHandler.ResponsePolicy | shared/voltagent/failure_handler.js:84-117 | every severity is logged; all but LOW alert and preserve state; HIGH and CRITICAL escalate; none both pauses and stops |
| FailureHandler.MakeFailure | shared/voltagent/failure_handler.js:211-231 | the record carries the classification, the severity's response, the error text and the context's task and run ids, and a snapshot exactly when the severity is not LOW |
| FailureHandler.CountSeverity | shared/voltagent/failure_handler.js:275 | a severity count never exceeds the number of records |
| FailureHandler.CountType | shared/voltagent/failure_handler.js:276 | a type count never exceeds the number of records |
| FailureHandler.CountSince | shared/voltagent/failure_handler.js:278-280 | the recent count never exceeds the number of records |
| FailureHandler.SeverityStep | shared/voltagent/failure_handler.js:274-275 | counting one more record bumps exactly that record's severity |
| FailureHandler.TypeStep | shared/voltagent/failure_handler.js:274-276 | counting one more record bumps exactly that record's type |
| FailureHandler.FailureLog.constructor | shared/voltagent/failure_handler.js:29 | an empty failure log |
| FailureHandler.FailureLog.HandleFailure | shared/voltagent/failure_handler.js:211-250 | exactly one record, `MakeFailure`'s, is appended, and the action is the one its severity calls for |
| FailureHandler.FailureLog.GetFailureStats | shared/voltagent/failure_handler.js:263-284 | total is the log length; each severity and type tally equals its count over the log and each tally sums to the total; last24h counts the records of the last day |
| FailureHandler.VectorConnectionTimeout | shared/voltagent/failure_handler.js:371 | "Connection timeout" is classified task_timeout, MEDIUM (through the `timeout` keyword) |
| FailureHandler.VectorRateLimit | shared/voltagent/failure_handler.js:372 | "API rate limit exceeded" is classified api_rate_limit, LOW (through the `rate limit` keyword) |
| FailureHandler.VectorUnauthorized | shared/voltagent/failure_handler.js:373 | "Unauthorized access" is classified unauthorized, HIGH (table row 12) |
| FailureHandler.VectorForbidden | shared/voltagent/failure_handler.js:374 | "Forbidden action blocked" is classified forbidden_action, CRITICAL (table row 13) |
| FailureHandler.VectorDiskSpace | shared/voltagent/failure_handler.js:375 | "Out of disk space" is classified disk_full, CRITICAL (through the `disk` keyword) |
| FailureHandler.VectorRandomError | shared/voltagent/failure_handler.js:376 | "Random unknown error" is classified unknown, MEDIUM (table key `unknown`) |
| CheckpointValidator.StringToNumber | shared/voltagent/checkpoint_validator.js:88 | `Number` of a string is a finite number or NaN, never undefined |
| CheckpointValidator.ValidateRule | shared/voltagent/checkpoint_validator.js:155-181 | throws only for a pattern rule whose expression does not compile; passed is null and review is requested exactly for manual rules; an unknown type fails with 'Unknown rule type' |
| CheckpointValidator.ExistsVectors | shared/voltagent/checkpoint_validator.js:44-46 | exists is false for null, undefined and the empty string, and true for a non-empty string, 0 and false |
| CheckpointValidator.ContainsVectors | shared/voltagent/checkpoint_validator.js:59-61 | contains is false for every non-string output and true for ('hello world', 'world') |
| CheckpointValidator.LengthOfOthers | shared/voltagent/checkpoint_validator.js:80-84 | lengthBetween measures an output that is neither a string nor an array as 0 |
| CheckpointValidator.Segments | shared/voltagent/checkpoint_validator.js:124 | `split(';').map(trim).filter(s => s)` never yields more segments than parts |
| CheckpointValidator.SegmentsIsMapFilter | shared/voltagent/checkpoint_validator.js:124 | the segments are exactly the trimmed parts that are not empty, in order, as `map(trim)` then `filter(s => s)` |
| CheckpointValidator.SegmentsTrimmed | shared/voltagent/checkpoint_validator.js:124 | every kept segment is non-empty with no blank at either end |
| CheckpointValidator.RulesOf | shared/voltagent/checkpoint_validator.js:126-147 | one rule per segment |
| CheckpointValidator.RulesOfAppend | shared/voltagent/checkpoint_validator.js:126-147 | a further segment adds its own rule at the end |
| CheckpointValidator.RulesOfAt | shared/voltagent/checkpoint_validator.js:126-147 | the rule at position i is the one for segment i |
| CheckpointValidator.ParseSuccessCriteria | shared/voltagent/checkpoint_validator.js:120-150 | the loop yields exactly the rules `ParseCriteria` specifies; null or empty criteria give no rules |
| CheckpointValidator.LabelRoundTrip | shared/voltagent/checkpoint_validator.js:126-177 | a token that is not a length or number range is reported under its own text, or `manual:` + its text |
| CheckpointValidator.SplitExample | shared/voltagent/checkpoint_validator.js:320-321 | "exists;contains:hello;json" splits into three tokens |
| CheckpointValidator.SegmentsKeep | shared/voltagent/checkpoint_validator.js:124 | a token that is already trimmed and non-empty is kept as it is |
| CheckpointValidator.SegmentsExample | shared/voltagent/checkpoint_validator.js:320-321 | the three tokens of the example are all kept |
| CheckpointValidator.CriteriaExample | shared/voltagent/checkpoint_validator.js:320-321 | the example's segments are `exists`, `contains:hello` and `json` |
| CheckpointValidator.TokenExample | shared/voltagent/checkpoint_validator.js:127-134 | `exists`, `contains:hello` and `json` become the exists, contains and JSON rules |
| CheckpointValidator.RulesExample | shared/voltagent/checkpoint_validator.js:126-147 | the example's segments become [exists, contains hello, JSON] |
| CheckpointValidator.ParseExample | shared/voltagent/checkpoint_validator.js:320-321 | the documented example parses to [exists, contains hello, JSON] |
| CheckpointValidator.ValidateAll | shared/voltagent/checkpoint_validator.js:194 | one result per rule, each the rule's own result; it throws exactly when some rule throws |
| CheckpointValidator.FailedLabels | shared/voltagent/checkpoint_validator.js:197-205 | no failed labels exactly when no result has passed === false |
| CheckpointValidator.FailedLabelsExact | shared/voltagent/checkpoint_validator.js:197-205 | a label is listed as failed exactly when some result with that label has passed === false |
| CheckpointValidator.ReviewLabels | shared/voltagent/checkpoint_validator.js:198-207 | no review items exactly when no result requests review |
| CheckpointValidator.EffectiveRules | shared/voltagent/checkpoint_validator.js:187-192 | the parsed rules, or the single exists rule when there are none |
| CheckpointValidator.MakeCheckpoint | shared/voltagent/checkpoint_validator.js:186-209 | passed exactly when no result is false (null counts as passing), exactly when failedRules is empty; manual review exactly when some effective rule is manual; one result per effective rule |
| CheckpointValidator.EveryPasses | shared/voltagent/checkpoint_validator.js:228-231 | `every` gives the same verdict as the full map when nothing throws, and throws only when the map does |
| CheckpointValidator.QuickMatchesCheckpoint | shared/voltagent/checkpoint_validator.js:221-232 | quickValidate agrees with validateCheckpoint's verdict whenever the checkpoint can be built, and throws only when it cannot |
| CheckpointValidator.CheckpointLog.constructor | shared/voltagent/checkpoint_validator.js:27 | an empty checkpoint log |
| CheckpointValidator.CheckpointLog.ValidateCheckpoint | shared/voltagent/checkpoint_validator.js:186-216 | returns `MakeCheckpoint`'s record and appends exactly it; a throwing rule appends nothing |
| PriorityEngine.RevenueScore | shared/voltagent/priority_engine.js:35-42 | a known revenue-proximity kind scores between 10 and 100 |
| PriorityEngine.UrgencyScore | shared/voltagent/priority_engine.js:45-51 | a known urgency scores between 20 and 100 |
| PriorityEngine.EffortScore | shared/voltagent/priority_engine.js:54-60 | a known effort scores between 20 and 100, less effort scoring higher |
| PriorityEngine.Lookup | shared/voltagent/priority_engine.js:67-70 | a table lookup with a default keeps a table hit and falls back to the default on a missing key or unknown value |
| PriorityEngine.MakeBreakdown | shared/voltagent/priority_engine.js:66-72 | the defaults 30, 40 and 50 for missing revenue, urgency and effort; each factor stays in its table's range; dependencies are 0 for a missing or zero blocks count and otherwise `min(100, 25 * blocks)`; a falsy strategic value becomes 50 |
| PriorityEngine.PartialSumFull | shared/voltagent/priority_engine.js:75-78 | the loop's five weighted steps add up to the whole weighted sum |
| PriorityEngine.RoundHundredths | shared/voltagent/priority_engine.js:81 | `Math.round` of a value in hundredths lies within half a point of it |
| PriorityEngine.WeightsSum | shared/voltagent/priority_engine.js:25-32 | the five weights sum to 100 |
| PriorityEngine.RoundMonotone | shared/voltagent/priority_engine.js:81 | rounding never reverses the order of two sums |
| PriorityEngine.ScoreBounds | shared/voltagent/priority_engine.js:65-85 | raw factor scores in [0, 100] give a priority score in [0, 100] |
| PriorityEngine.ScoreMonotone | shared/voltagent/priority_engine.js:65-85 | raising any raw factor never lowers the priority score |
| PriorityEngine.TaskScoreBounds | shared/voltagent/priority_engine.js:65-85 | every task whose blocks count is non-negative and whose strategic value is in [0, 100] scores in [0, 100] |
| PriorityEngine.TopTaskScores100 | shared/voltagent/priority_engine.js:65-85 | a direct, critical, trivial task that blocks four or more and has strategic value 100 scores exactly 100 |
| PriorityEngine.ZeroStrategicIsDefault | shared/voltagent/priority_engine.js:71 | a strategic value of 0 is falsy and scores like an absent one, as 50 |
| PriorityEngine.CalculatePriority | shared/voltagent/priority_engine.js:65-85 | the loop over the weight table yields the breakdown of the task and a score within half a point of the weighted sum |
| PriorityEngine.LabelOf | shared/voltagent/priority_engine.js:330 | HIGH exactly above 70, MEDIUM exactly in (40, 70], LOW exactly at or below 40 |
| PriorityEngine.LabelMonotone | shared/voltagent/priority_engine.js:330 | a higher score never gets a lower label |
| PriorityEngine.Ids | shared/voltagent/priority_engine.js:281 | the id set holds exactly the ids of the tasks |
| PriorityEngine.Fresh | shared/voltagent/priority_engine.js:283 | the filtered batch is no longer than the incoming one |
| PriorityEngine.FreshExactly | shared/voltagent/priority_engine.js:283 | a task is kept by the merge iff it was incoming and its id was not known |
| PriorityEngine.MergeTwiceAddsNothing | shared/voltagent/priority_engine.js:278-288 | saving the same batch a second time adds nothing |
| PriorityEngine.Prioritize | shared/voltagent/priority_engine.js:301-304 | one prioritized entry per discovered task, in order, each carrying that task's breakdown and score |
| PriorityEngine.Ranked | shared/voltagent/priority_engine.js:307 | the sort keeps exactly the prioritized entries (same multiset) |
| PriorityEngine.RankedDescending | shared/voltagent/priority_engine.js:307 | the ranked list is in non-increasing score order |
| PriorityEngine.RankedStable | shared/voltagent/priority_engine.js:307 | tasks with equal scores keep their backlog order (the sort is stable) |
| PriorityEngine.Take | shared/voltagent/priority_engine.js:310 | `slice(0, n)` is a prefix: of length `min(n, length)` for a non-negative n, and all but the last `-n` elements (none when `-n` reaches the length) for a negative n |
| PriorityEngine.MakeEntry | shared/voltagent/priority_engine.js:326-335 | a queue entry carries the task's id, score and label, the agent `sandman` and the creation time |
| PriorityEngine.QueueIds | shared/voltagent/priority_engine.js:320 | the id set holds exactly the ids of the queued entries |
| PriorityEngine.NewEntries | shared/voltagent/priority_engine.js:324-338 | at most one new entry per picked task |
| PriorityEngine.NewEntriesExactly | shared/voltagent/priority_engine.js:324-338 | no entry is added for an id already queued, and every picked task with a new id gets its entry |
| PriorityEngine.NewEntriesSnoc | shared/voltagent/priority_engine.js:324-338 | one more picked task adds its entry iff its id is not queued |
| PriorityEngine.EntryIds | shared/voltagent/priority_engine.js:336-348 | the returned ids are those of the new entries, in order |
| PriorityEngine.TopOf | shared/voltagent/priority_engine.js:349-353 | the top list holds the ids and scores of the first five ranked tasks |
| PriorityEngine.PriorityEngine.constructor | shared/voltagent/priority_engine.js:266-273 | a fresh engine has no discovered tasks, no queue and no log |
| PriorityEngine.PriorityEngine.SaveDiscoveredTasks | shared/voltagent/priority_engine.js:278-288 | the existing tasks stay in order, only incoming tasks with unknown ids are appended, and the count of appended tasks is returned |
| PriorityEngine.PriorityEngine.LogPrioritization | shared/voltagent/priority_engine.js:360-380 | one entry with the counts and the top task is appended and only the last 100 are kept |
| PriorityEngine.PriorityEngine.QueuePicked | shared/voltagent/priority_engine.js:323-338 | the loop appends exactly the new entries and returns their ids |
| PriorityEngine.PriorityEngine.PrioritizeAndQueue | shared/voltagent/priority_engine.js:293-355 | an empty backlog changes nothing; otherwise the queue grows by the entries of `slice(0, maxTasks)` of the ranked tasks that are not already queued, the log records the run, and the result lists the new ids and the top five; at most `maxTasks` are queued for a non-negative count, and for a negative count (the CLI passes any non-zero `parseInt` result through) none or at most the backlog size minus `-maxTasks` |
| CoherenceScreener.ProgramDocs | shared/voltagent/coherence_screener.js:25-69 | `ALL` gives the five common documents again; a known program type gives four documents of its own; any other type gives none |
| CoherenceScreener.Found | shared/voltagent/coherence_screener.js:113-116 | a required document is found iff some document name, lower-cased, contains it or is contained in it |
| CoherenceScreener.MissingDocs | shared/voltagent/coherence_screener.js:112-126 | a document is reported missing iff it is required and no name matches it |
| CoherenceScreener.Assess | shared/voltagent/coherence_screener.js:110-133 | present plus missing equals required, one HIGH `MISSING_DOCUMENT` finding per missing document, none for a found one |
| CoherenceScreener.CheckCompleteness | shared/voltagent/coherence_screener.js:108-134 | the common five documents plus the program's own are required (ten for `ALL`); present plus missing equals required; a required document gives a HIGH finding iff it is missing |
| CoherenceScreener.UnknownProgramRequiresCommon | shared/voltagent/coherence_screener.js:109 | an unknown program type requires the five common documents only, and its findings are exactly those of the missing common documents |
| CoherenceScreener.AllProgramDoublesCommon | shared/voltagent/coherence_screener.js:25-32 | `ALL` requires the common list twice, so every missing common document is reported twice |
| CoherenceScreener.EveryDocumentPresent | shared/voltagent/coherence_screener.js:108-134 | a data room holding every required document by name has nothing missing |
| CoherenceScreener.ValuesOf | shared/voltagent/coherence_screener.js:144-146 | at most one defined value per source |
| CoherenceScreener.Distinct | shared/voltagent/coherence_screener.js:149 | `new Set` keeps every value exactly once |
| CoherenceScreener.DistinctMany | shared/voltagent/coherence_screener.js:149-151 | there are two unique values iff two of the values differ |
| CoherenceScreener.AtMostOneValue | shared/voltagent/coherence_screener.js:151 | a set of at most one element holds at most one value |
| CoherenceScreener.CheckRef | shared/voltagent/coherence_screener.js:143-161 | a cross-reference gives a finding iff two defined values of its field differ, with the reference's severity and name |
| CoherenceScreener.CheckRefs | shared/voltagent/coherence_screener.js:143-162 | one finding per mismatching cross-reference, in order, each the finding of that reference |
| CoherenceScreener.CheckNumericalConsistency | shared/voltagent/coherence_screener.js:139-165 | one `NUMERICAL_MISMATCH` finding per mismatching cross-reference of the table, in order, carrying that reference's name and severity |
| CoherenceScreener.SingleSourceConsistent | shared/voltagent/coherence_screener.js:92-148 | a field read from a single source can never be inconsistent |
| CoherenceScreener.ClaimFinding | shared/voltagent/coherence_screener.js:174-190 | missing or empty evidence is a HIGH unsupported claim; otherwise `weak` evidence is a MEDIUM weak-evidence finding; otherwise no finding |
| CoherenceScreener.CheckClaimEvidence | shared/voltagent/coherence_screener.js:170-194 | one finding per flagged claim, in order, each the finding of that claim |
| CoherenceScreener.RecommendationFor | shared/voltagent/coherence_screener.js:209-212 | HOLD iff a critical or more than three high findings; conditions iff no critical and one to three high; PROCEED iff neither |
| CoherenceScreener.GenerateReport | shared/voltagent/coherence_screener.js:199-235 | each severity group holds exactly the findings of that severity, the counts are their sizes, the lead defaults to `COHERENCE_ANALYST` |
| CoherenceScreener.SeverityCountsSum | shared/voltagent/coherence_screener.js:202-227 | the four severity counts add up to the total |
| CoherenceScreener.RunScreening | shared/voltagent/coherence_screener.js:305-331 | the report counts every finding of the three checks |
| CoherenceScreener.HighPrefix | shared/voltagent/coherence_screener.js:204 | findings that are all HIGH all count among the high findings of a longer list |
| CoherenceScreener.ManyMissingHolds | shared/voltagent/coherence_screener.js:209-212 | more than three missing documents put the data room on HOLD whatever else is found |
| NotionProps.TextOrNull | shared/voltagent/work_plan_loader.js:75-87 | a present non-empty text reads as that text; an absent or empty one reads as null |
| NotionProps.FirstText | shared/voltagent/work_plan_loader.js:71-73 | the first run's text when there is a first run and it is non-empty; otherwise null |
| NotionProps.ExtractProperty | shared/voltagent/work_plan_loader.js:65-91 | a missing property reads as null; title and rich text read as their first run's text, select as its name, date as its start, url as itself, each null when absent or empty; a checkbox reads as `true` only when set and otherwise `false`; multi-select and relation read as their name lists, defaulting to `[]`; a number reads as its value or null; any other type reads as null |
| NotionProps.AsText | shared/voltagent/work_plan_loader.js:65-91 | a property value is a text exactly when it reads as a string |
| NotionProps.AsNames | shared/voltagent/work_plan_loader.js:77-85 | a property value is a list exactly when it reads as names |
| NotionProps.AsFlag | shared/voltagent/work_plan_loader.js:79 | a property value is a flag exactly when it reads as a boolean |
| NotionProps.AsNum | shared/voltagent/work_plan_loader.js:81 | a property value is a number exactly when it reads as one |
| NotionProps.TextNeverEmpty | shared/voltagent/work_plan_loader.js:71-87 | a text read through `extractProperty` is never the empty string |
| NotionProps.EmptyTextIsNull | shared/voltagent/work_plan_loader.js:73 | a rich-text property holding `""` reads as null, like a missing one |
| PersonaLoader.ParsePersona | shared/voltagent/persona_loader.js:90-111 | the persona keeps the page id, and each field is `extractProperty` of its own property under its own type (rich text, title, select, multi-select or number) |
| PersonaLoader.PersonaChecks | shared/voltagent/persona_loader.js:158-164 | exactly the five eligibility checks |
| PersonaLoader.ValidateNightShiftEligibility | shared/voltagent/persona_loader.js:157-170 | passed iff PERSONA, ACTIVE, Beta or Stable, with a codename and a primary job; passed iff no failures; failures are the names of the false checks |
| PersonaLoader.EligibilityFailures | shared/voltagent/persona_loader.js:167 | a check is listed as a failure iff it is false |
| PersonaLoader.AllPersonas | shared/voltagent/persona_loader.js:151-154 | a persona is kept iff it is a parsed page whose entity type is PERSONA |
| PersonaLoader.NightShiftRoster | shared/voltagent/persona_loader.js:136-140 | every roster persona is PERSONA, ACTIVE and Beta or Stable |
| PersonaLoader.RosterMembers | shared/voltagent/persona_loader.js:130-155 | the roster holds exactly the parsed personas that are PERSONA, ACTIVE and Beta or Stable |
| PersonaLoader.EligibleIsOnRoster | shared/voltagent/persona_loader.js:130-170 | every eligible persona is on the roster |
| PersonaLoader.RosterNotEligible | shared/voltagent/persona_loader.js:136-162 | a roster persona without a codename is not eligible and reports `hasCodename` |
| PersonaLoader.BuildExecutionContext | shared/voltagent/persona_loader.js:172-206 | the name is the display name or else the codename; codename and role are copied; missing action and domain lists become `[]`; the task part is present exactly when a task is given |
| PersonaLoader.Bullets | shared/voltagent/persona_loader.js:220 | no actions give no bullet lines |
| PersonaLoader.GenerateSystemPrompt | shared/voltagent/persona_loader.js:208-237 | the prompt starts with the identity line and the role section |
| PersonaLoader.SectionsPresentIff | shared/voltagent/persona_loader.js:214-234 | each optional section appears iff its data is present and non-empty |
| PersonaLoader.MinimalPrompt | shared/voltagent/persona_loader.js:208-237 | without rule, actions, escalation and task the prompt is only the identity and role |
| PersonaLoader.BulletsAppend | shared/voltagent/persona_loader.js:220 | the bullet lines of two action lists are the lines of each, in order |
| PersonaLoader.BulletLine | shared/voltagent/persona_loader.js:220 | each action contributes its own "- a" line after the lines of the actions before it |
| WorkPlanLoader.ParseTask | shared/voltagent/work_plan_loader.js:115-138 | the task keeps the page id, and each field is `extractProperty` of its own property under its own type; the success criteria come from `resolutionNotes` |
| WorkPlanLoader.TaskChecks | shared/voltagent/work_plan_loader.js:196-202 | exactly the five reported checks |
| WorkPlanLoader.ValidateNightShiftEligibility | shared/voltagent/work_plan_loader.js:195-208 | passed iff automation-eligible, Ready and with a description; failures are the names of the false checks |
| WorkPlanLoader.EligibilityFailures | shared/voltagent/work_plan_loader.js:205 | a check is listed as a failure iff it is false |
| WorkPlanLoader.UnassignedStillEligible | shared/voltagent/work_plan_loader.js:201-205 | an eligible task without an agent passes yet reports `hasAssignee` as its only failure |
| WorkPlanLoader.PassedIffNoFailures | shared/voltagent/work_plan_loader.js:196-205 | for an assigned task, passed iff no failures |
| WorkPlanLoader.Rank | shared/voltagent/work_plan_loader.js:212-215 | the rank is 1, 2, 3 or 99 |
| WorkPlanLoader.BuildExecutionPlan | shared/voltagent/work_plan_loader.js:210-224 | the plan is a permutation of the tasks, with their count and 15 minutes per task |
| WorkPlanLoader.PlanOrdered | shared/voltagent/work_plan_loader.js:212-216 | the plan is in non-decreasing rank order and tasks of equal rank keep their input order |
| WorkPlanLoader.P0SortsLast | shared/voltagent/work_plan_loader.js:212-216 | P0's rank 0 is falsy, so the logical-or default of 99 replaces it and a P0 task sorts behind a P1 task |
| WorkPlanLoader.P0TiesWithUnknown | shared/voltagent/work_plan_loader.js:212-216 | a P0 task and one without a priority keep their input order |
| WorkPlanLoader.GenerateExecutionContext | shared/voltagent/work_plan_loader.js:226-243 | the context copies id, title, description, priority, type, the three constraint fields, success criteria and artifacts |
| WorkPlanLoader.ContextCopiesOnly | shared/voltagent/work_plan_loader.js:226-243 | two tasks give the same context iff they agree on exactly the copied fields |
| MeshResilience.HealthyNodes | shared/voltagent/mesh_resilience.js:107-120 | the healthy list holds exactly the configured nodes that answered |
| MeshResilience.FirstOther | shared/voltagent/mesh_resilience.js:246-247 | the chosen node is healthy and differs from the current one, and there is none iff every healthy node is the current one |
| MeshResilience.HandedOffPointwise | shared/voltagent/mesh_resilience.js:242-265 | a table that agrees with the handoff on every task is the handed-off table |
| MeshResilience.HandoffMovesToOther | shared/voltagent/mesh_resilience.js:249-256 | a task the pass hands off sits on another healthy node, remembers its previous node and is updated now |
| MeshResilience.NoHandoffToSelf | shared/voltagent/mesh_resilience.js:246-249 | when the only healthy node owns every task, nothing moves |
| MeshResilience.HandedOffNotStale | shared/voltagent/mesh_resilience.js:201-256 | a stale task that is handed off is no longer stale |
| MeshResilience.GetBestNode | shared/voltagent/mesh_resilience.js:282-315 | a healthy preferred node wins; otherwise a healthy `sandman` (the primary); otherwise the first healthy node; a node is chosen iff one is healthy, and it is always a configured healthy node |
| MeshResilience.FallbackToOracle | shared/voltagent/mesh_resilience.js:302-308 | with the primary down and both others up, `oracle` is the fallback |
| MeshResilience.Ownership.constructor | shared/voltagent/mesh_resilience.js:125-132 | a fresh ownership file has no tasks |
| MeshResilience.Ownership.AssignTask | shared/voltagent/mesh_resilience.js:144-158 | the task is (re)assigned to the node as a fresh `assigned` record and nothing else changes |
| MeshResilience.Ownership.UpdateTaskProgress | shared/voltagent/mesh_resilience.js:163-177 | an unknown task is a `Task not found` error that changes nothing; a known one gets the new status and update time |
| MeshResilience.Ownership.CompleteTask | shared/voltagent/mesh_resilience.js:182-196 | an unknown task is an error; a known one becomes `completed` with its result and time, and is no longer stale |
| MeshResilience.Ownership.FindStaleTasks | shared/voltagent/mesh_resilience.js:201-222 | exactly the tasks not completed and not updated for more than thirty minutes |
| MeshResilience.Ownership.HandoffStaleTasks | shared/voltagent/mesh_resilience.js:227-277 | no stale tasks or no healthy node change nothing; otherwise the tasks become the handed-off map, every reported handoff is legal, the reported ids are exactly the moved tasks, none twice, and the count is the number moved |
| MeshResilience.HandoffPass | shared/voltagent/mesh_resilience.js:242-265 | the loop over stale tasks keeps the task ids, gives every task its handed-off target, reports only legal handoffs, each moved task exactly once |
| TaskQueue.TemplateKey | shared/voltagent/process_queue.js:92-118 | a lower-cased task type with a template selects it; anything else selects the default |
| TaskQueue.GenerateTaskPrompt | shared/voltagent/process_queue.js:91-132 | the prompt opens with the task id and holds the chosen template's text followed by the description |
| TaskQueue.UnknownTypeUsesDefault | shared/voltagent/process_queue.js:113-118 | a missing or unknown task type gets the default `Task:` template |
| TaskQueue.TemplateCaseInsensitive | shared/voltagent/process_queue.js:118 | the template choice ignores letter case |
| TaskQueue.ResultOf | shared/voltagent/process_queue.js:163-187 | the result names the task and is `queued` iff the output was written |
| TaskQueue.SliceTo | shared/voltagent/process_queue.js:220 | `slice(0, n)` is a prefix, of length `min(n, length)` for a non-negative n |
| TaskQueue.Selected | shared/voltagent/process_queue.js:215-220 | the selected tasks are a prefix of the queued tasks not being processed, at most `maxTasks` of them |
| TaskQueue.ProcessedPlusErrors | shared/voltagent/process_queue.js:240-241 | processed plus errors equals the number of tasks taken |
| TaskQueue.NewQueueKeepsFailed | shared/voltagent/process_queue.js:231-232 | a task stays in the queue iff no outcome for its id succeeded |
| TaskQueue.MarkThenUnmark | shared/voltagent/process_queue.js:142-193 | marking a task as processing and removing the mark leaves the processing file as before |
| TaskQueue.QueueProcessor.constructor | shared/voltagent/process_queue.js:22-79 | a processor over a queue starts with nothing processing and no results |
| TaskQueue.QueueProcessor.SaveResult | shared/voltagent/process_queue.js:56-66 | the result is appended and only the last hundred kept |
| TaskQueue.QueueProcessor.ProcessTask | shared/voltagent/process_queue.js:137-197 | success iff the output was written; the result is saved; the task's processing mark is gone afterwards |
| TaskQueue.QueueProcessor.ProcessAll | shared/voltagent/process_queue.js:224-228 | one outcome per selected task, in order, and one saved result each |
| TaskQueue.QueueProcessor.ProcessQueue | shared/voltagent/process_queue.js:202-245 | an empty queue changes nothing; otherwise the selected tasks are processed, the queue loses exactly the tasks that succeeded, and the counts are those of the outcomes |
| TaskQueue.ResultsAreLastHundred | shared/voltagent/process_queue.js:56-66 | after a run the results log is the last hundred of the old results followed by the new ones |
| FunnelMonitor.GetBuilderForProgram | shared/voltagent/funnel_monitor.js:253-288 | an unlisted program type falls back to the deal director backed by the liaison chair; primary and backup always differ |
| FunnelMonitor.ListedTypesHaveOwnBuilder | shared/voltagent/funnel_monitor.js:253-260 | every listed program type has a primary builder other than the fallback |
| FunnelMonitor.GetPhaseTransition | shared/voltagent/funnel_monitor.js:290-292 | a transition rule exists iff the phase is one of the four phases |
| FunnelMonitor.PhaseChain | shared/voltagent/funnel_monitor.js:263-284 | each phase leads to the next with a team to notify, Close leads nowhere, and each has three exit criteria |
| FunnelMonitor.CeilDiv | shared/voltagent/funnel_monitor.js:149 | `Math.ceil(a / d)` is the least multiple count covering `a` |
| FunnelMonitor.BlockedAlerts | shared/voltagent/funnel_monitor.js:107-121 | one BLOCKED alert per blocked project, in project order, carrying that project's name, client, lead agent, phase and priority |
| FunnelMonitor.BlockedCount | shared/voltagent/funnel_monitor.js:107-121 | collecting the alerts project by project equals mapping the alert over the blocked projects |
| FunnelMonitor.DueAlertClassification | shared/voltagent/funnel_monitor.js:130-152 | a project gets a due-date alert iff it has a parseable due date, is not complete and is due within three days; the alert is OVERDUE iff the date is past, otherwise DUE_SOON with the days left rounded up |
| FunnelMonitor.CheckDueDates | shared/voltagent/funnel_monitor.js:123-155 | the loop collects each project's due-date alert, in project order |
| FunnelMonitor.DueAlertsExactly | shared/voltagent/funnel_monitor.js:123-155 | an alert is reported iff some project yields it |
| FunnelMonitor.StaleExactly | shared/voltagent/funnel_monitor.js:157-174 | a project is reported stale iff it is not complete and untouched for more than seven days |
| FunnelMonitor.StaleAlerts | shared/voltagent/funnel_monitor.js:157-174 | one STALE alert per stale project, in order, each with at least seven days since the update |
| FunnelMonitor.ScanTransitions | shared/voltagent/funnel_monitor.js:298-319 | the scan only appends to the recorded keys |
| FunnelMonitor.ScanRecordsEligible | shared/voltagent/funnel_monitor.js:298-319 | every eligible project's key is recorded by the scan |
| FunnelMonitor.ScanAlertsEligible | shared/voltagent/funnel_monitor.js:298-319 | every alert is that of an eligible project whose key was not yet recorded |
| FunnelMonitor.ScanKeysNoDup | shared/voltagent/funnel_monitor.js:306-318 | the scan never records a key twice |
| FunnelMonitor.ScanCovered | shared/voltagent/funnel_monitor.js:306 | with every eligible key recorded, the scan alerts nothing and records nothing |
| FunnelMonitor.RescanSilent | shared/voltagent/funnel_monitor.js:294-327 | a second scan over the same projects is silent |
| FunnelMonitor.FunnelState.constructor | shared/voltagent/funnel_monitor.js:59-66 | a fresh state has no seen ids, no notified transitions and no alerts |
| FunnelMonitor.FunnelState.CheckNewIntakes | shared/voltagent/funnel_monitor.js:176-202 | the intakes with unseen ids are reported in order, their ids are recorded once, and only the last 100 ids are kept |
| FunnelMonitor.FunnelState.CheckPhaseTransitions | shared/voltagent/funnel_monitor.js:294-327 | the alerts are those of the scan and the recorded keys are the scan's, cut to the last 100 |
| FunnelMonitor.IntakesReportedOnce | shared/voltagent/funnel_monitor.js:176-202 | intakes reported once are not reported again while the recorded ids stay within 100 |
| FunnelMonitor.SeenIdsNoDup | shared/voltagent/funnel_monitor.js:185-194 | the recorded ids never repeat |
| FunnelMonitor.DuplicateIntakeInBatch | shared/voltagent/funnel_monitor.js:182-189 | two intakes with the same new id in one batch are both reported but the id is recorded once |
| ActivityMonitor.Classify | shared/voltagent/activity_monitor.js:86-98 | ACTIVE under 30 minutes idle, IDLE under 2 hours, STALE under 24 hours, DEAD otherwise, each both ways |
| ActivityMonitor.ClassifyMonotone | shared/voltagent/activity_monitor.js:86-98 | a longer idle time never gives a livelier status |
| ActivityMonitor.GetAgentStatus | shared/voltagent/activity_monitor.js:71-110 | an unknown agent is UNKNOWN; otherwise the status is the classification of the idle time, with the last activity, the idle minutes rounded to the nearest minute and the 24-hour count equal to the number of activities of the last 24 hours |
| ActivityMonitor.Last24hExactly | shared/voltagent/activity_monitor.js:106-108 | an activity counts for the last 24 hours iff it is newer than a day |
| ActivityMonitor.Recorded | shared/voltagent/activity_monitor.js:42-68 | the first sighting is kept, the last activity is now, and the new activity ends a list of at most 100 |
| ActivityMonitor.RecordedIsActive | shared/voltagent/activity_monitor.js:42-110 | right after recording, the agent is ACTIVE with 0 idle minutes and at least one recent activity |
| ActivityMonitor.ActivityState.constructor | shared/voltagent/activity_monitor.js:28-34 | a fresh state has no agents |
| ActivityMonitor.ActivityState.RecordActivity | shared/voltagent/activity_monitor.js:42-68 | the agent's record becomes the recorded one, the activity type defaults to `heartbeat`, and no other agent changes |
| ActivityMonitor.ActivityState.GetAllStatus | shared/voltagent/activity_monitor.js:113-122 | one status per known agent, each that agent's status |
| ActivityMonitor.ActivityState.CheckAlerts | shared/voltagent/activity_monitor.js:125-140 | the alerts are those of the STALE and DEAD agents, in agent order |
| ActivityMonitor.AlertsOf | shared/voltagent/activity_monitor.js:129-137 | the loop collects an alert per STALE or DEAD status, in order |
| ActivityMonitor.AlertsExactly | shared/voltagent/activity_monitor.js:125-140 | an alert is raised iff its agent is known and classified STALE or DEAD |
| SoulUpdater.BumpVersion | shared/voltagent/soul_updater.js:75-83 | the bumped version is strictly newer; major resets minor and patch, minor resets patch, any other type bumps the patch |
| SoulUpdater.ParseDotted | shared/voltagent/soul_updater.js:76 | three digit runs joined by dots split into those three numbers |
| SoulUpdater.ParseRender | shared/voltagent/soul_updater.js:76-81 | a rendered version parses back to itself |
| SoulUpdater.DigitRun | shared/voltagent/soul_updater.js:71 | the `\d+` run stays inside the text |
| SoulUpdater.DigitRunSpec | shared/voltagent/soul_updater.js:71 | the greedy `\d+` run is all digits and ends at a non-digit or the end of the text |
| SoulUpdater.DigitRunIs | shared/voltagent/soul_updater.js:71 | a digit run ended by a non-digit or the end is the greedy run |
| SoulUpdater.DottedRun | shared/voltagent/soul_updater.js:71 | a `\d+\.` piece covers at least a digit and the dot |
| SoulUpdater.FinalRun | shared/voltagent/soul_updater.js:71 | a final `\d+` piece covers at least a digit |
| SoulUpdater.MarkerEnd | shared/voltagent/soul_updater.js:71-105 | a `*v\d+.\d+.\d+` marker is at least seven characters long |
| SoulUpdater.FirstMarker | shared/voltagent/soul_updater.js:71-105 | the regular-expression match is the leftmost position where a marker starts, and there is none iff no position starts one |
| SoulUpdater.DottedRunParts | shared/voltagent/soul_updater.js:71 | a dotted piece is digits followed by a dot |
| SoulUpdater.FinalRunParts | shared/voltagent/soul_updater.js:71 | a final piece is digits not followed by a digit |
| SoulUpdater.MarkerTextParses | shared/voltagent/soul_updater.js:71-76 | the captured version text always splits into three numbers |
| SoulUpdater.MarkerHasOneStar | shared/voltagent/soul_updater.js:71 | a marker holds no star after its first character |
| SoulUpdater.MarkerEndIs | shared/voltagent/soul_updater.js:71 | the marker assembled from its three pieces |
| SoulUpdater.MarkerLocal | shared/voltagent/soul_updater.js:71 | whether a marker starts at a position depends only on the text up to just past its end |
| SoulUpdater.DefaultVersionTexts | shared/voltagent/soul_updater.js:72-97 | the defaults are "0.0.0" for a file without a marker and "1.0.0" for a missing file |
| SoulUpdater.GetCurrentVersion | shared/voltagent/soul_updater.js:67-73 | none iff the file is missing; otherwise the first marker's version, or "0.0.0" without a marker; the result always parses |
| SoulUpdater.ReplaceFirstMarker | shared/voltagent/soul_updater.js:104-107 | a text without a marker is left unchanged |
| SoulUpdater.Spliced | shared/voltagent/soul_updater.js:104-107 | replacing the marker changes the length by the difference of the version texts |
| SoulUpdater.MarkerInPieces | shared/voltagent/soul_updater.js:71-106 | three digit runs after `*v`, followed by a non-digit, form a marker exactly that long |
| SoulUpdater.MarkerAtRendered | shared/voltagent/soul_updater.js:106 | the written marker `*v` + version, followed by a non-digit, is a whole marker |
| SoulUpdater.FirstMarkerIs | shared/voltagent/soul_updater.js:71 | a marker with none before it is the match |
| SoulUpdater.NoEarlierMarker | shared/voltagent/soul_updater.js:71-107 | rewriting after a position cannot create a marker before it |
| SoulUpdater.StaysFirst | shared/voltagent/soul_updater.js:104-107 | a text agreeing up to the first marker's star, with a marker there, has it first too |
| SoulUpdater.ReplaceIsSpliced | shared/voltagent/soul_updater.js:104-107 | the replacement rewrites exactly the first marker |
| SoulUpdater.SplicedMarker | shared/voltagent/soul_updater.js:104-107 | the rewritten marker is a whole marker |
| SoulUpdater.SplicedStaysFirst | shared/voltagent/soul_updater.js:104-107 | the rewritten marker is still the first one |
| SoulUpdater.ReplacedMarkerStaysFirst | shared/voltagent/soul_updater.js:104-107 | rewriting the first marker leaves a whole marker at the same place, still first |
| SoulUpdater.SplicedVersion | shared/voltagent/soul_updater.js:67-107 | after the rewrite the file reads as the new version |
| SoulUpdater.VersionAfterReplace | shared/voltagent/soul_updater.js:67-107 | rewriting the first marker with a version makes that version the file's version |
| SoulUpdater.FindLine | shared/voltagent/soul_updater.js:157-158 | `findIndex` gives the first line from the start point with the prefix, or -1 when no line has it |
| SoulUpdater.InsertPoint | shared/voltagent/soul_updater.js:158-160 | content goes after the section line, before the next `## ` line, or at the end when there is none |
| SoulUpdater.InsertKeepsSeparatorFree | shared/voltagent/soul_updater.js:161 | inserting a blank line and a one-line content keeps every line free of newlines |
| SoulUpdater.InsertIntoSection | shared/voltagent/soul_updater.js:156-162 | with a section line, the new lines are the old ones with a blank line and the content spliced in at the insertion point |
| SoulUpdater.NewSectionAtEnd | shared/voltagent/soul_updater.js:163-166 | without a section line the section is written after the text with trailing blanks removed, as the source does when the header occurs nowhere |
| SoulUpdater.NewSectionIsFound | shared/voltagent/soul_updater.js:153-165 | a section once written has its header line, so the next append goes into it |
| SoulUpdater.AppendedSectionIsFound | shared/voltagent/soul_updater.js:150-168 | after a one-line section is appended to, by either branch, its header line is present |
| SoulUpdater.ExampleLines | shared/voltagent/soul_updater.js:156 | the lines of the example text |
| SoulUpdater.ExampleHasNoSectionLine | shared/voltagent/soul_updater.js:157 | no line of the example starts with `## E` |
| SoulUpdater.ExampleFirstHeading | shared/voltagent/soul_updater.js:158 | the first `## ` line of the example is its second line |
| SoulUpdater.InsertSectionAsWrittenMisplaces | shared/voltagent/soul_updater.js:154-162 | as written, `### E` passes the `includes("## E")` test, so the content lands in the preamble and no `## E` section is written |
| SoulUpdater.InsertSectionWritesSection | shared/voltagent/soul_updater.js:153-166 | under the line test, the same input gets a new `## E` section at the end |
| SoulUpdater.Basename | shared/voltagent/soul_updater.js:199 | a basename contains no slash |
| SoulUpdater.BasenameOfJoin | shared/voltagent/soul_updater.js:199 | a slash-free name joined under a directory has that name as its basename |
| SoulUpdater.RollbackTarget | shared/voltagent/soul_updater.js:199-200 | a backup named SOUL… restores into SOUL.md, any other into IDENTITY.md |
| SoulUpdater.StemOfMd | shared/voltagent/soul_updater.js:47 | `basename(p, '.md')` strips exactly the `.md` ending |
| SoulUpdater.BackupNameParts | shared/voltagent/soul_updater.js:47-48 | the backup name is the stem, the stamp and the hash, slash-free and starting with the stem |
| SoulUpdater.RollbackTargetOfBackup | shared/voltagent/soul_updater.js:194-200 | rolling back a backup of SOUL.md or IDENTITY.md restores into the file it came from |
| SoulUpdater.VersionBefore | shared/voltagent/soul_updater.js:97 | the starting version always parses, and is "1.0.0" for a missing file |
| SoulUpdater.UpdateBumpsVersion | shared/voltagent/soul_updater.js:85-107 | an update whose output has a marker leaves the file at the bumped version, strictly newer than before |
| SoulUpdater.UpdateWithoutMarker | shared/voltagent/soul_updater.js:101-107 | an update whose output has no marker writes that output unchanged |
| SoulUpdater.RollbackUndoesUpdate | shared/voltagent/soul_updater.js:194-207 | rolling back to the backup an update took restores the file's text from before the update |
| SoulUpdater.AuditHistory | shared/voltagent/soul_updater.js:170-178 | a suffix of the log, in order: the last `limit` entries for a positive limit, all of them for `slice(-0)`, and all but the first `-limit` for a negative limit (the CLI passes any non-zero `parseInt` result through) |
| SoulUpdater.Workspace.constructor | shared/voltagent/soul_updater.js:18-22 | a workspace starts with its files, no backups and an empty audit log |
| SoulUpdater.Workspace.UpdateFile | shared/voltagent/soul_updater.js:85-148 | the old file is backed up, the file gets the transform's output with its first marker rewritten to the bumped version, one UPDATE entry is audited plus a GIT_COMMIT entry exactly when the commit succeeded, and the result reports both versions and hashes |
| SoulUpdater.Workspace.AppendSection | shared/voltagent/soul_updater.js:150-168 | a patch-level update whose transform inserts the content into the section, by the line test; one audit entry, or two when the commit succeeded, and the earlier entries are kept |
| SoulUpdater.Workspace.Rollback | shared/voltagent/soul_updater.js:194-220 | an unknown backup is a `Backup not found` error that changes nothing; otherwise the target is backed up, restored from the backup, and one ROLLBACK entry is audited |
| NotionSync.FirstOr | shared/voltagent/notion_sync.js:114-134 | a chain of logical-or defaults gives the first present value, else the fallback |
| NotionSync.TitleOf | shared/voltagent/notion_sync.js:114-116 | the title is never empty: Entry, then Name, then `Untitled Task` |
| NotionSync.PriorityOf | shared/voltagent/notion_sync.js:122-125 | CRITICAL iff the raw name contains Critical; HIGH iff not that but High; LOW iff neither but Low; MEDIUM otherwise |
| NotionSync.MissingPriorityIsMedium | shared/voltagent/notion_sync.js:122-125 | a missing priority reads as Medium and maps to MEDIUM |
| NotionSync.MapCategoryToTaskType | shared/voltagent/notion_sync.js:150-163 | a category maps to `default` iff it is not one of the nine; every result has a prompt template |
| NotionSync.MapOwnerToAgent | shared/voltagent/notion_sync.js:168-180 | the agent of the first owner keyword the lower-cased owner contains, else `general-pool` |
| NotionSync.GeneralPoolIffNoKeyword | shared/voltagent/notion_sync.js:168-180 | an owner goes to the general pool iff it contains no owner keyword |
| NotionSync.PageToTask | shared/voltagent/notion_sync.js:110-145 | the task id and Notion page id are the page id, the creation time is kept, the task type has a template and the priority is one of the four |
| NotionSync.MissingCategoryIsAutomation | shared/voltagent/notion_sync.js:128-129 | a page without a category is an Operations, hence automation, task |
| NotionSync.TrimUntitled | shared/voltagent/notion_sync.js:138 | trimming `Untitled Task` followed by two newlines gives `Untitled Task` |
| NotionSync.UntitledPage | shared/voltagent/notion_sync.js:114-138 | a page without title and details is described as `Untitled Task` |
| NotionSync.SyncFromNotion | shared/voltagent/notion_sync.js:202-248 | no pages change nothing; otherwise exactly the pages whose id is not queued are converted and appended, in order, and their ids are marked Processing |
| NotionSync.NewPagesNotQueued | shared/voltagent/notion_sync.js:222-227 | a sync never appends a page whose id was already queued |
| NotionSync.SyncKeepsIdsUnique | shared/voltagent/notion_sync.js:222-235 | a queue and a batch of pages without repeated ids give a queue without repeated ids |
| FeedbackLoop.FindEntry | shared/voltagent/feedback.js:88-135 | `feedback.find` gives the first entry for the request, and -1 iff there is none |
| FeedbackLoop.Without | shared/voltagent/feedback.js:100-126 | the filter removes every occurrence of the id and keeps every other id |
| FeedbackLoop.FindAfterComplete | shared/voltagent/feedback.js:59-84 | after `complete` of a request without an entry, its first entry is the new one |
| FeedbackLoop.FindAfterUpdate | shared/voltagent/feedback.js:95-124 | `verify` and `outcome` keep every request id, so the first entry for a request stays the same |
| FeedbackLoop.FlowReachesComplete | shared/voltagent/feedback.js:59-131 | complete, verify, outcome leave one new complete entry with its outcome, the earlier entries untouched, and the id off both pending lists |
| FeedbackLoop.OutcomeWithoutVerifyStaysPending | shared/voltagent/feedback.js:109-131 | recording an outcome without verifying marks the entry complete but leaves the id pending verification |
| FeedbackLoop.LessonsAreLastFifty | shared/voltagent/feedback.js:133-151 | the lesson list is the last fifty lessons captured, and the entries are untouched |
| FeedbackLoop.LessonForUnknownRequest | shared/voltagent/feedback.js:139-154 | a lesson for a request without an entry is titled Unknown and logged under the request id |
| FeedbackLoop.SumScoresBounds | shared/voltagent/feedback.js:197-198 | scores each in [lo, hi] sum to between n·lo and n·hi |
| FeedbackLoop.Mean | shared/voltagent/feedback.js:198 | the mean times the count is the sum |
| FeedbackLoop.MeanBounds | shared/voltagent/feedback.js:198 | a mean of values in [lo, hi] lies in [lo, hi] |
| FeedbackLoop.FeedbackStore.constructor | shared/voltagent/feedback.js:23-38 | a fresh state has no entries, pending ids or lessons |
| FeedbackLoop.FeedbackStore.Complete | shared/voltagent/feedback.js:59-84 | an unknown request changes nothing; a known one appends a pending-verification entry and its id to the pending-verification list |
| FeedbackLoop.FeedbackStore.Verify | shared/voltagent/feedback.js:86-107 | with no entry nothing changes; otherwise the first entry becomes pending-outcome and the id moves between the pending lists |
| FeedbackLoop.FeedbackStore.RecordOutcome | shared/voltagent/feedback.js:109-131 | with no entry nothing changes; otherwise the first entry becomes complete with the parsed score and the id leaves the pending-outcome list |
| FeedbackLoop.FeedbackStore.CaptureLesson | shared/voltagent/feedback.js:133-160 | the lesson is appended, the last fifty kept, and its section appended to the learning log |
| FeedbackLoop.NoneComplete | shared/voltagent/feedback.js:190-195 | an empty filter result means no entry is complete |
| FeedbackLoop.RollupOf | shared/voltagent/feedback.js:188-213 | nothing iff no entry is complete; otherwise the count of complete entries, the mean of their scores (missing as 0) and the pending counts |
| FeedbackLoop.AverageOnScale | shared/voltagent/feedback.js:197-198 | with every completed score on the one-to-ten scale or missing, the average lies between 0 and 10 |
| ImprovementRequests.AutoAssignOwner | shared/voltagent/improvement_request.js:20-80 | protocol goes to sandman, infra and config to oracle; any other type goes to the owner of the first capability keyword in the lower-cased description, else sandman |
| ImprovementRequests.OwnerIsAgent | shared/voltagent/improvement_request.js:20-80 | the owner is always sandman, oracle or oraclelocalbot |
| ImprovementRequests.OwnerIgnoresCase | shared/voltagent/improvement_request.js:67 | the owner choice ignores the letter case of the description |
| ImprovementRequests.FirstKeywordWins | shared/voltagent/improvement_request.js:74-76 | a description mentioning `persona` goes to sandman whatever other keywords it holds |
| ImprovementRequests.HexDigit | shared/voltagent/improvement_request.js:43 | a value below sixteen gives an upper-case hex digit |
| ImprovementRequests.HexByte | shared/voltagent/improvement_request.js:43 | a byte gives two hex digits |
| ImprovementRequests.Hex | shared/voltagent/improvement_request.js:43 | bytes give twice as many hex digits |
| ImprovementRequests.GenerateId | shared/voltagent/improvement_request.js:42-44 | an id is `IR-` followed by eight upper-case hex digits |
| ImprovementRequests.HexByteValue | shared/voltagent/improvement_request.js:43 | the two hex digits of a byte read back as the byte |
| ImprovementRequests.HexInjective | shared/voltagent/improvement_request.js:43 | different bytes give different hex texts |
| ImprovementRequests.IdsDistinct | shared/voltagent/improvement_request.js:42-44 | different random bytes give different ids |
| ImprovementRequests.FindIndex | shared/voltagent/improvement_request.js:113 | `find` gives the first request with the id, and -1 iff there is none |
| ImprovementRequests.GetRequest | shared/voltagent/improvement_request.js:143-146 | none iff no request has the id; otherwise the first stored request with that id |
| ImprovementRequests.ListRequests | shared/voltagent/improvement_request.js:132-141 | the list is the stored requests filtered by status, then by lower-cased owner, then by priority, each step skipped when its filter is empty |
| ImprovementRequests.StagesSingle | shared/voltagent/improvement_request.js:136-138 | one request passes the three filters in turn iff it passes them all at once |
| ImprovementRequests.CombinedIsStages | shared/voltagent/improvement_request.js:132-141 | filtering by the three filters in turn equals filtering once by their conjunction |
| ImprovementRequests.ListRequestsExactly | shared/voltagent/improvement_request.js:132-141 | a request is listed iff it is stored and passes every given non-empty filter, the owner compared lower-cased |
| ImprovementRequests.ListWithoutFilters | shared/voltagent/improvement_request.js:132-141 | without filters every request is listed, in order |
| ImprovementRequests.RequestStore.constructor | shared/voltagent/improvement_request.js:50-59 | a fresh requests file is empty |
| ImprovementRequests.RequestStore.FileRequest | shared/voltagent/improvement_request.js:82-109 | one FILED request is appended with a fresh id, a one-entry history, priority `medium` by default, and the owner chosen automatically for `auto` and lower-cased otherwise |
| ImprovementRequests.RequestStore.UpdateStatus | shared/voltagent/improvement_request.js:111-130 | an unknown id is an `IR not found` error that changes nothing; otherwise the first request with the id takes the status, the time and one more history entry |
| WeeklyRollup.NumOr0 | shared/voltagent/weekly_rollup.js:80-82 | a present number is kept, a missing one reads as 0 |
| WeeklyRollup.ParseTask | shared/voltagent/weekly_rollup.js:74-86 | the task keeps the page id; missing task and status texts read as empty, a missing or empty agent as `Unknown`, missing points, confidence and coherence as 0, and a completion time only when one is given; the agent is never empty |
| WeeklyRollup.WithAverages | shared/voltagent/weekly_rollup.js:122-128 | only the two averages change; with no completed task the sums are divided by 1 |
| WeeklyRollup.WithAveragesIdempotent | shared/voltagent/weekly_rollup.js:122-128 | computing the averages twice gives the same counters |
| WeeklyRollup.AggregateSnoc | shared/voltagent/weekly_rollup.js:104-119 | one more task bumps the counters by exactly that task's contribution |
| WeeklyRollup.AddTask | shared/voltagent/weekly_rollup.js:104-119 | adding a task adds its points, counts a completion with its confidence and coherence, a rework and a penalty |
| WeeklyRollup.AggMapSnoc | shared/voltagent/weekly_rollup.js:91-120 | one more task changes only its own agent's counters |
| WeeklyRollup.AgentsSnoc | shared/voltagent/weekly_rollup.js:93-102 | an agent seen for the first time is added at the end, an agent already seen is not added again |
| WeeklyRollup.CountTasks | shared/voltagent/weekly_rollup.js:89-120 | the first loop yields every agent in first-seen order, each with the counters of exactly its own tasks |
| WeeklyRollup.AddAverages | shared/voltagent/weekly_rollup.js:123-128 | the second loop keeps the agents and gives each its averages |
| WeeklyRollup.CalculateAggregates | shared/voltagent/weekly_rollup.js:88-131 | every agent with a task, and no other, maps to the averaged counters of its own tasks |
| WeeklyRollup.AgentsExactly | shared/voltagent/weekly_rollup.js:89-102 | the agents list has no repeats and holds exactly the agents of the tasks |
| WeeklyRollup.CountsBounded | shared/voltagent/weekly_rollup.js:105-119 | completions plus reworks, and penalties, never exceed the number of tasks |
| WeeklyRollup.AveragesInRange | shared/voltagent/weekly_rollup.js:122-128 | with scores between 0 and 100 the averages stay between 0 and 100 |
| WeeklyRollup.Leaderboard | shared/voltagent/weekly_rollup.js:180-182 | the leaderboard is a permutation of the agents' point entries |
| WeeklyRollup.LeaderboardDescending | shared/voltagent/weekly_rollup.js:182 | the leaderboard is sorted by points, highest first |
| WeeklyRollup.LeaderboardStable | shared/voltagent/weekly_rollup.js:182 | agents with equal points keep their first-seen order |
| DecayCalculator.Total | shared/voltagent/decay_calculator.js:15-21 | the schedule's total decay is never negative |
| DecayCalculator.CalculateDecay | shared/voltagent/decay_calculator.js:23-38 | the bracket loop yields the floor of the schedule's total: nothing up to 2 hours, then 1, 2, 5 and 10 points an hour |
| DecayCalculator.NoDecayFirstTwoHours | shared/voltagent/decay_calculator.js:16 | up to two idle hours cost nothing |
| DecayCalculator.BracketTotals | shared/voltagent/decay_calculator.js:15-21 | 6, 12 and 24 idle hours cost 4, 16 and 76 points, and each hour past 24 costs 10 more |
| DecayCalculator.DecayMonotone | shared/voltagent/decay_calculator.js:23-38 | the decay never shrinks as the idle time grows |
| DecayCalculator.RowOf | shared/voltagent/decay_calculator.js:96-109 | the new points lie between 0 and the old points (or 0), a missing score reads as 0, and an agent idle over 24 hours is `Idle`, otherwise `Active` |
| DecayCalculator.Rows | shared/voltagent/decay_calculator.js:95-122 | agents without a last-update time are skipped, so there are at most as many rows as agents |
| DecayCalculator.Run | shared/voltagent/decay_calculator.js:88-129 | the run yields one row per agent with a last-update time and one update per row with positive decay, in order |
| DecayCalculator.RowsBounded | shared/voltagent/decay_calculator.js:108-122 | every row keeps its new points between 0 and its old points, and a row is Idle exactly when its agent was idle more than 24 hours |
| DecayCalculator.PositiveRowsWritten | shared/voltagent/decay_calculator.js:117-122 | the rows with positive decay are exactly the rows of the agents that are written back, in order |
| DecayCalculator.UpdatesWritten | shared/voltagent/decay_calculator.js:117-120 | the updates sent are one per written agent, in order, with its new points and status |
| BDRouter.InferredSize | infra/lib/bd_router.py:207-215 | an inferred deal size is always between 10 000 and 500 000 |
| BDRouter.InferredSizeMonotone | infra/lib/bd_router.py:208-215 | a larger organisation never gets a smaller inferred deal size |
| BDRouter.EstimateDealSize | infra/lib/bd_router.py:201-215 | an explicit size is converted with `float` and wins; otherwise the size is inferred from the employee count, which must be comparable with a number, and lies between 10 000 and 500 000 |
| BDRouter.IsSpam | infra/lib/bd_router.py:217-231 | a submission is spam iff at least two of a missing organisation, a disposable e-mail marker and a spam phrase in the lower-cased message hold; a non-text e-mail or message raises |
| BDRouter.Holds | infra/lib/bd_router.py:108-198 | only the high-value and spam conditions can raise, and the catch-all condition always holds |
| BDRouter.HighValueNeedsExplicitSize | infra/lib/bd_router.py:112-122 | the high-value rule fires only for an inbound submission whose explicit deal size is at least 1 000 000 |
| BDRouter.SortByDrop | infra/lib/bd_router.py:199 | sorting a suffix is inserting its head into the sorted rest |
| BDRouter.DefaultRulesSorted | infra/lib/bd_router.py:108-199 | the default rules, sorted by descending priority, are spam, high value, referral, existing, clear intent, research, low signal, escalate |
| BDRouter.MatchIndex | infra/lib/bd_router.py:259-261 | the matched rule is the first whose condition holds, and none before it holds |
| BDRouter.LeadSignals | infra/lib/bd_router.py:247-256 | a routing records at most one lead-score signal |
| BDRouter.Completeness | infra/lib/bd_router.py:333-339 | at most five contact fields count towards completeness |
| BDRouter.Confidence | infra/lib/bd_router.py:310-342 | the confidence lies between 0.5 and 1.0, at most 0.8 without a lead score and at most 0.6 for a low-priority rule without one |
| BDRouter.ConfidenceMonotone | infra/lib/bd_router.py:332-340 | more complete data never lowers the confidence |
| BDRouter.ConfidenceFull | infra/lib/bd_router.py:317-342 | a high-priority auto-qualify match on a hot lead with complete data is capped at exactly 1.0 |
| BDRouter.Reasoning | infra/lib/bd_router.py:344-370 | the reasoning starts with `Matched rule: ` and the rule's name |
| BDRouter.ReasoningOmitsRuleErrors | infra/lib/bd_router.py:362-366 | rule-error signals never change the reasoning |
| BDRouter.TryRules | infra/lib/bd_router.py:259-296 | the rule loop stops at the first rule that holds and collects an error signal for each rule before it that raised |
| BDRouter.Route | infra/lib/bd_router.py:233-308 | `route` with the lead step corrected (the default scorer's record is read as a record, not as the code as written reads it): the first matching rule's outcome, or the fallback escalation |
| BDRouter.RouteFirstMatch | infra/lib/bd_router.py:259-274 | the first rule that holds gives the decision, target stage, bot and matched rule, and the reasoning names it |
| BDRouter.RoutedSignals | infra/lib/bd_router.py:244-296 | the signals are the lead signal followed by the errors of the rules tried before the match |
| BDRouter.RouteRecordsRuleErrors | infra/lib/bd_router.py:293-296 | a rule-error signal is recorded iff a rule tried before the match raised that error |
| BDRouter.RouteReasoningIgnoresErrors | infra/lib/bd_router.py:362-366 | the reasoning of a match depends only on the lead signal, not on earlier rule errors |
| BDRouter.CollectAllErrors | infra/lib/bd_router.py:293-296 | everything the rule loop collects is a rule-error signal |
| BDRouter.DefaultAlwaysMatches | infra/lib/bd_router.py:191-198 | with the default rules some rule always matches, so the fallback is never reached |
| BDRouter.SpamIsRejected | infra/lib/bd_router.py:181-188 | spam is rejected under `spam_filter`, with no target stage and no bot |
| BDRouter.UnclaimedIsEscalated | infra/lib/bd_router.py:191-198 | a submission no other rule claims is escalated to the qualification bot at the contact stage |
| BDRouter.UpdateFor | infra/lib/bd_router.py:401-426 | a rejection marks the intake page Rejected and anything else Triaged; a funnel entry is created iff the result is not a rejection and has a target stage |
| BDRouter.DefaultRulesTargeted | infra/lib/bd_router.py:108-198 | every default rule that does not reject has a target stage |
| BDRouter.RoutedTargeted | infra/lib/bd_router.py:265-308 | with such rules, every routing that is not a rejection has a target stage |
| BDRouter.DefaultEntryIffTriaged | infra/lib/bd_router.py:401-426 | with the default rules a funnel entry is created exactly for the triaged pages |
| BDRouter.ProcessNewSubmissions | infra/lib/bd_router.py:372-428 | each new page, in order, is routed and gets its status update and funnel entry |
| BDRouter.LeadStepAsWritten | infra/lib/bd_router.py:247-256 | as written, the lead step succeeds exactly without a contact id or with a scorer that finds no score, and then records no signal |
| BDRouter.DefaultScorerRaisesAsWritten | infra/lib/bd_router.py:247-250 | as written, the default scorer makes `route` raise for every submission with a contact id |
| BDRouter.ScoredLeadRaisesAsWritten | infra/lib/bd_router.py:251-256 | as written, a scored contact makes `route` raise, so a routing never exceeds confidence 0.8 |
| BDRouter.RouteRecordsLeadScore | infra/lib/bd_router.py:247-256 | corrected, a scored contact's signal carries its score and tier, and a hot lead lifts a high-priority auto-qualify match to at least 0.9 |
| ActivityLog.FromScore | infra/lib/activity_log.py:32-47 | a score of 0.85 or more is HIGH, from 0.60 MEDIUM, from 0.40 LOW, and below that UNCERTAIN, each in both directions |
| ActivityLog.FromScoreMonotone | infra/lib/activity_log.py:39-47 | a higher score never gets a less confident bucket |
| ActivityLog.ActionFor | infra/lib/activity_log.py:227-230 | HIGH routes directly, UNCERTAIN asks for clarification, MEDIUM and LOW suggest |
| ActivityLog.Lookup | infra/lib/activity_log.py:137-183 | a dictionary member is found iff some member has that name |
| ActivityLog.LookupFirst | infra/lib/activity_log.py:137-183 | a lookup gives the value of the first member with that name |
| ActivityLog.ToDictKeys | infra/lib/activity_log.py:137-183 | the serialised entry has id, timestamp, session, user and input, then contact and routing only when set, then resolution and feedback |
| ActivityLog.ToDict | infra/lib/activity_log.py:137-183 | seven keys, plus one for a contact and one for a routing, all distinct |
| ActivityLog.ToDictRouting | infra/lib/activity_log.py:157-175 | an entry with a routing serialises that routing and its resolution |
| ActivityLog.Logged | infra/lib/activity_log.py:216-248 | a logged entry is pending with no feedback, carries the confidence bucket of its score and the matching action, and defaults the user to empty and the channel to `telegram` |
| ActivityLog.IndexOfId | infra/lib/activity_log.py:264-285 | the search finds the first entry with the id, or reports that none has it |
| ActivityLog.SliceTo | infra/lib/activity_log.py:300 | Python's `[:limit]` keeps a prefix: `limit` entries at most, and a negative limit drops that many from the end |
| ActivityLog.PendingAfterUpdate | infra/lib/activity_log.py:264-271 | replacing one entry changes the pending count only by that entry's status change |
| ActivityLog.BDActivityLog.constructor | infra/lib/activity_log.py:192-206 | a new log holds no entries |
| ActivityLog.BDActivityLog.LogRouting | infra/lib/activity_log.py:208-254 | logging appends exactly the new entry and returns it |
| ActivityLog.BDActivityLog.Find | infra/lib/activity_log.py:264-265 | the scan finds the first entry with the id |
| ActivityLog.BDActivityLog.Resolve | infra/lib/activity_log.py:256-274 | an unknown id changes nothing and yields none; otherwise the first entry with the id gets the new resolution and nothing else changes |
| ActivityLog.BDActivityLog.AddFeedback | infra/lib/activity_log.py:276-293 | an unknown id changes nothing and yields none; otherwise the first entry with the id gets the new feedback and nothing else changes |
| ActivityLog.BDActivityLog.GetPending | infra/lib/activity_log.py:295-300 | the pending entries in insertion order, cut by `[:limit]` |
| ActivityLog.BDActivityLog.GetBySession | infra/lib/activity_log.py:302-304 | the entries of one session, in insertion order |
| ActivityLog.IndexOfIdIs | infra/lib/activity_log.py:264-265 | an entry with the id and none before it is the one found |
| ActivityLog.GetPendingSpec | infra/lib/activity_log.py:295-300 | only pending entries of the log are returned, in order, and no more than a non-negative limit |
| ActivityLog.GetBySessionExactly | infra/lib/activity_log.py:302-304 | an entry is returned iff it is in the log and belongs to the session |
| ActivityLog.LoggingAddsPending | infra/lib/activity_log.py:250 | logging a routing adds exactly one pending entry |
| ActivityLog.ResolveLeavesPending | infra/lib/activity_log.py:256-274 | resolving a pending entry with a final status removes exactly one pending entry |
| ResourceTracking.PresetsOrdered | infra/lib/resource_tracker.py:220-251 | the standard preset equals the default budget, and dry-run, standard and heavy grow in every hard limit |
| ResourceTracking.RuntimeSeconds | infra/lib/resource_tracker.py:43-48 | the runtime is 0 before a start, then the time from the start to the end, or to now while running |
| ResourceTracking.CheckLimits | infra/lib/resource_tracker.py:146-186 | a zero token or runtime limit raises a division by zero; otherwise the run is ok iff no error was recorded, with at most four errors and two warnings |
| ResourceTracking.ShareReachesOne | infra/lib/resource_tracker.py:161-175 | a used share reaches 1.0 iff the usage reaches the limit |
| ResourceTracking.OkExactly | infra/lib/resource_tracker.py:146-186 | the run is ok iff tokens, API calls and runtime are below their limits and the personas do not exceed theirs |
| ResourceTracking.TokenWarningBelowLimit | infra/lib/resource_tracker.py:160-166 | the token warning is given iff the tokens are under the limit but at or over the warning share |
| ResourceTracking.Started | infra/lib/resource_tracker.py:99-104 | a start records the time only when none is set yet |
| ResourceTracking.StartOnce | infra/lib/resource_tracker.py:99-104 | a second start leaves the first start time in place |
| ResourceTracking.WithPersona | infra/lib/resource_tracker.py:128-134 | loading a persona adds it once: the list holds it, keeps every other persona, stays free of repeats and grows by one only for a new persona |
| ResourceTracking.ResourceTracker.constructor | infra/lib/resource_tracker.py:59-73 | a tracker starts with the given budget, or the default one, and no usage |
| ResourceTracking.ResourceTracker.Start | infra/lib/resource_tracker.py:99-104 | starting records the start time once, keeps the tracker valid and changes nothing else |
| ResourceTracking.ResourceTracker.Stop | infra/lib/resource_tracker.py:106-110 | stopping sets the end time, keeps the tracker valid and changes nothing else |
| ResourceTracking.ResourceTracker.AddTokens | infra/lib/resource_tracker.py:112-119 | the tokens grow by the count and the limit check of the new usage is returned |
| ResourceTracking.ResourceTracker.AddApiCall | infra/lib/resource_tracker.py:121-126 | the API calls grow by one and the limit check of the new usage is returned |
| ResourceTracking.ResourceTracker.LoadPersona | infra/lib/resource_tracker.py:128-134 | the persona is added when new and the limit check of the new usage is returned |
| ResourceTracking.ResourceTracker.CompleteStep | infra/lib/resource_tracker.py:136-144 | with `success` defaulting to true and `retries` to 0, a success or a failure is counted and the retries are added |
| ResourceTracking.ResourceTracker.CanContinue | infra/lib/resource_tracker.py:188-190 | execution may continue iff the limit check is ok, and the check's division by zero is passed on |
| ResourceTracking.PersonasDistinct | infra/lib/resource_tracker.py:128-134 | loading any personas in turn keeps the list free of repeats and holds exactly the old and the loaded ones |
| Numbers.RoundDiv | shared/voltagent/weekly_rollup.js:126-127 | `Math.round(a / d)` for a positive divisor: the nearest integer, halves rounded up |
| Numbers.RoundDivBounds | shared/voltagent/weekly_rollup.js:126-127 | rounding a quotient stays within bounds the quotient respects |
| Strings.LowerStr | shared/voltagent/improvement_request.js:67 | `toLowerCase` keeps the length and lower-cases every letter |
| Strings.LowerIdempotent | shared/voltagent/improvement_request.js:67 | lower-casing twice is lower-casing once |
| Strings.Split | shared/voltagent/soul_updater.js:156 | `split` gives at least one piece and no piece holds the separator |
| Strings.SplitJoin | shared/voltagent/soul_updater.js:156-161 | joining the pieces of a split with the separator gives back the text |
| Strings.SplitOfJoin | shared/voltagent/soul_updater.js:156-161 | splitting lines joined by a separator they lack gives back the lines |
| Strings.Trim | shared/voltagent/notion_sync.js:138 | `trim` gives a part of the text that neither starts nor ends with white space |
| Strings.ParseInt | shared/voltagent/feedback.js:120 | `parseInt` without a radix: NaN (None) iff no digit follows the blanks and sign, hexadecimal after `0x` or `0X` |
| Strings.ParseIntHex | shared/voltagent/feedback.js:120 | `parseInt("0x10")` is 16 |
| Strings.ParseIntOfNatToString | shared/voltagent/feedback.js:120 | a decimal number written out parses back to itself |
| Sorting.SortBySorted | shared/voltagent/weekly_rollup.js:182 | a sort orders its result by the key |
| Sorting.SortByPerm | shared/voltagent/weekly_rollup.js:182 | a sort is a permutation of its input |
| Sorting.SortByStable | shared/voltagent/weekly_rollup.js:182 | a sort keeps the input order of elements with equal keys, as JavaScript's `Array.prototype.sort` does |

## Left out

- File persistence is not modelled. Every `loadState`/`saveState`, log, history, queue, cache, snapshot and backup file is an object field or a map held in memory. That covers the orchestrator's state and history, the audit, checkpoint and failure logs, the rate-limit state and event log, the ownership file, the queue and results files, the request and feedback stores, the SOUL files and backups, the monitors' state, the activity log file and the tracker's state file. Write errors and partial writes are not modelled.
- The clock, random ids and the sha256 hash of a backup are inputs. The model does not fix what they return.
- Notion and HTTP traffic is outside the model. This covers every `notionRequest`, the Notion client, and the node probes `checkNodeHealth`/`checkAllNodes` of the mesh. Their results (pages, query results, the set of healthy nodes) are inputs, and the updates the source would send are outputs where they carry logic.
- Alerts, `sendAlert`, `sendDailySummary`, console output, CLI `switch` blocks and `main` functions are not modelled. They only report.
- Report formatting is not modelled: `generateMorningSummary`, `formatReportMarkdown`, `getSummary`, `getStats`, `generateSummary` of the rate-limit handler, `getStatus` of the mesh, queue and priority engine, and `get_summary` of the resource tracker. Each only assembles text or counts from state the model already exposes.
- History and statistics readers are not modelled: `getAuditHistory`/`getAuditStats` of the constraint enforcer, `getCheckpointHistory`/`getCheckpointStats`, `getFailureHistory`, `loadSnapshot` and `listSnapshots` of the failure handler, `listBackups` of the SOUL updater, and `pending` of the feedback CLI. They read back stored logs without logic beyond slicing. The SOUL updater's audit history, which has a non-trivial slice, is modelled.
- `saveConfig` of the runner, `saveReport` of the screener and `saveDiscoveredTasks`' file write are pure writes and are not modelled. The git commit of the SOUL updater is not run: whether it succeeded is an input, and the GIT_COMMIT audit entry it adds is modelled.
- Task discovery is not modelled: `discoverTasks`, `checkDocumentationGaps`, `checkStaleData`, `checkIncompleteWork`, `checkHealthIssues` and `runCycle` of the priority engine. They inspect the file system. The discovered tasks are an input to the merge and the queueing step, which are modelled.
- Notion loaders are not modelled: `loadProjects`, `loadTasks`, `loadNightShiftEligibleTasks` and `parseProject` of the work-plan loader, `loadPersona`, `loadAllPersonas` and the persona cache, `queryFunnelProjects` and `runMonitor` of the funnel monitor, and `getAutomationReadyTasks`, `updateTaskStatus` and `reportCompletion` of the Notion sync. They are queries and writes; the page parsing and filtering they call is modelled.
- `_persist`, `_sync_notion` and `get_routing_accuracy` of the activity log are not modelled. The first two are file and Notion writes; the third is a floating-point ratio report.
- `_load_state`, `_save_state`, `cleanup` and the `threading.Lock` of the resource tracker are not modelled. A tracker therefore starts from an empty usage, and concurrent callers are not modelled.
- `_extract_submission_data` of the router reads Notion property payloads and is not modelled. The submission dictionary is an input. Custom rule lists are modelled only through the rules' conditions, with the default rules named after their conditions.
- BDRouter.Route: the decision logging to the activity log is left out. It names `SignalCategory.INFORMATIONAL`, which does not exist, so the call raises AttributeError, which is swallowed, and `route` never logs.
- MeshResilience.Ownership.UpdateTaskProgress: the `details` object merged into the task record by `Object.assign` is not modelled; only the status and the time change.
- The `setTimeout` that calls `exitOverflow` when the cooldown expires is not modelled. Overflow mode is left only by an explicit `exitOverflow`. `Promise.all` fan-out is not modelled either.
- Floating point is replaced by exact arithmetic: router confidences, activity-log thresholds, the resource tracker's shares and runtimes, decay hours and the cooldown multiplier are reals; the priority score is an integer `Math.round` of the weighted sum. Rounding errors of IEEE doubles, `toFixed` and percentage texts in messages are not modelled.
- Strings.LowerStr: lower-cases ASCII letters only, while `toLowerCase` and Python's `lower` also map other Unicode letters.
- Strings.Trim: strips ASCII blanks (space, tab, line feed, carriage return, vertical tab, form feed) only, while `trim` also strips other Unicode white space.
- Regular expressions (the `pattern:` rule), `JSON.parse` (the `json` rule), `fs.existsSync` (the `file:` rule), `path.resolve`, `new URL(...).hostname` and Python's `float()` of text are function-typed inputs that the model does not interpret. The SOUL version marker's regular expression is the exception: it is written out as a scan.
- NightShiftRunner.Drive: a `fuel` bound caps the number of tasks processed. Without the bound, a task list with a repeated id can restart the same task indefinitely, because `startTask` finds the first task with the id. When the fuel runs out the loop ends without a verdict.
- NightShiftRunner.Shift: when the fuel runs out, the run is neither summarised nor recorded in the state file.
- NightShiftRunner.RunNightShift: inherits the fuel bound of Drive. The agent itself is not called, as in the source, which only simulates execution.
- The weekly rollup's and the decay calculator's writes of the leaderboard back to Notion are outputs of the model (the aggregates and the update list), not calls.
- Console messages of the activity monitor (`Last activity … minutes ago`) are not modelled; the status, the idle minutes and the activity counts are.
- CheckpointValidator.StringToNumber: accepts blanks, an optional sign and decimal digits only. JavaScript's `Number` also accepts decimal points, exponents, `0x`/`0o`/`0b` literals and `Infinity`. The same gap reaches `OutputToNumber` and the bounds of the `length:` and `number:` rules.
- JavaScript object keys are modelled as a map or an insertion-ordered list of own keys. This drops two behaviours of plain objects, named member by member below. (a) Order: `Object.keys` and `Object.entries` list array-index keys such as `"7"` first, in ascending numeric order, and only then the other keys in insertion order; the model keeps insertion order for every key. (b) Inherited names: a lookup such as `table[key]` also finds `Object.prototype` members (`constructor`, `toString`, `__proto__`, ...); the model treats only own keys as present.
- WeeklyRollup.CountTasks: an agent named like an array index is ordered by insertion, not first; an agent named `constructor` or `toString` finds an inherited member in `byAgent`, so the source skips its initialisation, while the model starts it from zero counters.
- WeeklyRollup.CalculateAggregates: inherits both gaps of CountTasks.
- WeeklyRollup.Leaderboard: equal-point agents follow insertion order; with agents `b` then `7` the source lists `7` first and the model `b` first.
- WeeklyRollup.LeaderboardStable: the tie order it proves is insertion order, which is the source's order only for agent names that are not array indices.
- ActivityMonitor.GetAgentStatus: an agent named after an inherited member (`toString`) is UNKNOWN in the model but not in the source.
- ActivityMonitor.ActivityState.GetAllStatus: agents are listed in insertion order, not with index-like names first.
- ActivityMonitor.ActivityState.CheckAlerts: alerts follow insertion order, not with index-like names first.
- PriorityEngine.Lookup: an inherited name such as `constructor` reads as the default, while `TABLE[key] || default` yields the inherited function.
- PriorityEngine.MakeBreakdown: inherits the Lookup gap for inherited names.
- NotionSync.MapCategoryToTaskType: an inherited name maps to `default` in the model, while `mapping[category] || 'default'` yields the inherited member.
- FunnelMonitor.GetPhaseTransition: an inherited name has no transition in the model, while `PHASE_TRANSITIONS[phase]` finds the inherited member.
- ConstraintEnforcer.ProfileConstraints: an inherited level name leaves the defaults in the model, while `HARDENING_PROFILES[level]` finds the inherited member.
- MeshResilience.Ownership.UpdateTaskProgress: a task id naming an inherited member is `Task not found` in the model, while `ownership.tasks[taskId]` finds that member in the source.
- MeshResilience.Ownership.CompleteTask: the same inherited-name gap as UpdateTaskProgress.
- WorkPlanLoader.Rank: an inherited priority name ranks 99 in the model, while the rank table yields the inherited member.
- SequentialOrchestrator.PriorityRank: an inherited priority name ranks 99 in the model, while `?? 99` keeps the inherited member.
- CheckpointValidator.ValidateRule: a `has:` rule counts a property as present only when it is an own key of an object, or `length` or an index of an array; the source's `p in output` also finds inherited members, so `has:toString` or `has:constructor` passes on every object and `has:push` or `has:map` on every array.
- TaskQueue.TemplateKey: a task type whose lower-cased text names an inherited member (`constructor` or `__proto__`) selects the default template in the model, while `taskTypePrompts[type] || taskTypePrompts.default` selects that inherited member (the `Object` function or `Object.prototype`).
- TaskQueue.GenerateTaskPrompt: inherits the TemplateKey gap; for task type `constructor` or `__proto__` the source embeds the string form of the inherited member where the model embeds the default template.
- TaskQueue.UnknownTypeUsesDefault: matches the source for every type whose lower-cased text is not an inherited member name; for `constructor` or `__proto__` the source uses the inherited member rather than the default template.
- FunnelMonitor.GetBuilderForProgram: an inherited program type such as `constructor` gets the DEAL_DIRECTOR/LIAISON_CHAIR fallback in the model, while `ROUTING_RULES[programType] || fallback` returns the inherited member.
- ActivityMonitor.ActivityState.RecordActivity: for an agent named `toString` or `__proto__` (when not already an own key) the source finds the inherited member, skips the initialisation, and `.activities.push` throws a TypeError; the model records a fresh agent instead.
- CoherenceScreener.CheckCompleteness: a program type naming an inherited `Object` property (`constructor`, `__proto__`, `toString`) makes the spread of `REQUIRED_DOCS[programType]` throw a TypeError in the source; the model treats such a type as unknown.
- NightShiftRunner.Drive: that each pass runs the first READY task is stated by `GetNextTask` and `Begin`, not as a property of the pass trace.
- Strings.ParseInt: `parseInt` without a radix is modelled for decimal and `0x` hexadecimal text; the result is an exact integer, not a double, so digit strings beyond 2^53 are not rounded.

## Findings

| source | as written | input that shows it | evidently intended | confidence | as-written member | corrected member |
|---|---|---|---|---|---|---|
| shared/voltagent/soul_updater.js:154-162 | the section test is `current.includes("## " + section)`, but the insertion point is found by line prefix | the file `#\n## C\n### E` and section `E`: the content is spliced in before `## C` and no `## E` line is ever written | a section counts as present only when some line starts with its header; otherwise a new section is appended | not executed | SoulUpdater.InsertSectionAsWrittenMisplaces | SoulUpdater.InsertSectionWritesSection |
| infra/lib/bd_router.py:247-250 | the router defaults to `LeadScorer()`, whose score lookup is not `get_score` | any submission with a `contact_id`: `route` raises AttributeError before any rule is tried | the lead score is consulted and routing continues | not executed | BDRouter.DefaultScorerRaisesAsWritten | BDRouter.RouteRecordsLeadScore |
| infra/lib/bd_router.py:251-256 | the signal reads `lead_score.total_score` and then `lead_score.tier.value`, but LeadScore (infra/lib/lead_scoring.py:71-81) has no `total_score` field and its tier is a text | a contact with any score: `route` raises AttributeError at `total_score` (and, were that field present, at `tier.value`), so the hot-lead boost of `_calculate_confidence` never applies | the signal records the score's total and its tier text, and the boost applies | not executed | BDRouter.ScoredLeadRaisesAsWritten | BDRouter.RouteRecordsLeadScore |
