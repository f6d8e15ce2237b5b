/**
 * The sequential orchestrator: a run owns an ordered list of tasks; tasks move
 * PENDING -> READY/BLOCKED -> RUNNING -> COMPLETED/FAILED/SKIPPED according
 * to their dependencies, with retry bookkeeping, run completion and abort.
 * The persisted state file and the history file are the `Store` object.
 */
module SequentialOrchestrator {
  import opened Wrappers
  import opened Strings
  import opened Sorting

  datatype TaskState = PENDING | READY | RUNNING | COMPLETED | FAILED | BLOCKED | SKIPPED

  datatype RunStatus = CREATED | RUNNING_RUN | COMPLETED_RUN | COMPLETED_WITH_FAILURES | FAILED_RUN | ABORTED

  /** A task as the caller hands it to `createRun`; every field may be absent. */
  datatype TaskInput = TaskInput(
    id: Option<string>,
    title: Option<string>,
    description: Option<string>,
    persona: Option<string>,
    assignedAgent: Option<string>,
    priority: Option<string>,
    sequence: Option<int>,
    dependencies: Option<seq<string>>)

  datatype Task = Task(
    id: string,
    title: string,
    description: Option<string>,
    persona: Option<string>,
    priority: Option<string>,
    sequence: int,
    dependencies: seq<string>,
    state: TaskState,
    attempts: nat,
    startedAt: Option<int>,
    completedAt: Option<int>,
    output: Option<string>,
    error: Option<string>)

  datatype RunConfig = RunConfig(stopOnFailure: bool, maxRetries: int, timeoutMs: int)

  datatype ConfigInput = ConfigInput(stopOnFailure: Option<bool>, maxRetries: Option<int>, timeoutMs: Option<int>)

  datatype TaskRef = TaskRef(id: string, title: string)

  datatype FailedRef = FailedRef(id: string, title: string, error: Option<string>)

  datatype Summary = Summary(
    runId: string,
    status: RunStatus,
    duration: string,
    total: nat,
    completed: nat,
    failed: nat,
    skipped: nat,
    blocked: nat,
    failedTasks: seq<FailedRef>,
    completedTasks: seq<TaskRef>,
    abortReason: Option<string>)

  /** The run as it is written to the state file. */
  datatype RunRecord = RunRecord(
    id: string,
    createdAt: int,
    status: RunStatus,
    config: RunConfig,
    tasks: seq<Task>,
    currentTaskIndex: int,
    startedAt: Option<int>,
    completedAt: Option<int>,
    summary: Option<Summary>)

  datatype CompletedEntry = CompletedEntry(taskId: string, completedAt: int)

  datatype FailedEntry = FailedEntry(taskId: string, error: string, failedAt: int)

  datatype HistoryEntry =
    | Finished(id: string, status: RunStatus, startedAt: Option<int>, completedAt: int,
               totalTasks: nat, completed: nat, failed: nat, skipped: nat)
    | Aborted(id: string, abortReason: string, at: int)

  datatype RunStatusReport =
    | NoActiveRun
    | Active(runId: string, status: RunStatus, startedAt: Option<int>, total: nat, pending: nat,
             ready: nat, running: nat, completed: nat, failed: nat, nextTask: Option<string>)

  // ---------------------------------------------------------------- createRun

  /** Defaults of `createRun`'s config: stopOnFailure true, maxRetries 0, timeout 5 minutes. */
  function MakeConfig(c: ConfigInput): (r: RunConfig)
    ensures r.stopOnFailure == (c.stopOnFailure != Some(false))
    ensures r.maxRetries == (if c.maxRetries.Some? then c.maxRetries.value else 0)
    ensures r.timeoutMs == (if c.timeoutMs.Some? then c.timeoutMs.value else 300000)
  {
    RunConfig(c.stopOnFailure.GetOr(true), c.maxRetries.GetOr(0), c.timeoutMs.GetOr(300000))
  }

  /** The task record `createRun` builds from the input at position `index`. */
  function NewTask(t: TaskInput, index: nat): Task
  {
    Task(
      StrOr(t.id, "task-" + NatToString(index)),
      StrOr(t.title, StrOr(t.id, "Task " + NatToString(index + 1))),
      t.description,
      if Truthy(t.persona) then t.persona else t.assignedAgent,
      t.priority,
      t.sequence.GetOr(index),
      t.dependencies.GetOr([]),
      PENDING, 0, None, None, None, None)
  }

  /** The defaulted tasks of a batch of inputs, the first at position `from`. */
  function NewTasks(ts: seq<TaskInput>, from: nat): (r: seq<Task>)
    ensures |r| == |ts|
    decreases |ts|
  {
    if ts == [] then [] else [NewTask(ts[0], from)] + NewTasks(ts[1..], from + 1)
  }

  /** Input `j` becomes the task at `j`, defaulted with its own position. */
  lemma {:induction false} NewTasksAt(ts: seq<TaskInput>, from: nat, j: nat)
    requires j < |ts|
    ensures NewTasks(ts, from)[j] == NewTask(ts[j], from + j)
    decreases |ts|
  {
    if j > 0 {
      NewTasksAt(ts[1..], from + 1, j - 1);
    }
  }

  /** `{P0: 0, P1: 1, P2: 2, P3: 3}[priority] ?? 99`. */
  function PriorityRank(p: Option<string>): nat
  {
    if p == Some("P0") then 0
    else if p == Some("P1") then 1
    else if p == Some("P2") then 2
    else if p == Some("P3") then 3
    else 99
  }

  /** Sequence first, then priority rank. */
  function RunOrder(t: Task): Key
  {
    Key(t.sequence, PriorityRank(t.priority))
  }

  /** The task list of a new run: the defaulted tasks, stably sorted. */
  function InitialTasks(ts: seq<TaskInput>): seq<Task>
  {
    SortBy(NewTasks(ts, 0), RunOrder)
  }

  /** Every new task is PENDING with no attempts, and ids, sequence and dependencies take their defaults. */
  lemma CreateRunDefaults(ts: seq<TaskInput>, j: nat)
    requires j < |ts|
    ensures NewTask(ts[j], j) in multiset(InitialTasks(ts))
    ensures NewTask(ts[j], j).state == PENDING && NewTask(ts[j], j).attempts == 0
    ensures NewTask(ts[j], j).id == if Truthy(ts[j].id) then ts[j].id.value else "task-" + NatToString(j)
    ensures NewTask(ts[j], j).sequence == if ts[j].sequence.Some? then ts[j].sequence.value else j
    ensures NewTask(ts[j], j).dependencies == if ts[j].dependencies.Some? then ts[j].dependencies.value else []
  {
    var made := NewTasks(ts, 0);
    NewTasksAt(ts, 0, j);
    SortByPerm(made, RunOrder);
    assert made[j] in multiset(made);
  }

  /** The run's tasks are a permutation of the inputs, ordered by (sequence, priority rank), stably. */
  lemma CreateRunOrder(ts: seq<TaskInput>, k: Key)
    ensures multiset(InitialTasks(ts)) == multiset(NewTasks(ts, 0))
    ensures Sorted(InitialTasks(ts), RunOrder)
    ensures WithKey(InitialTasks(ts), RunOrder, k) == WithKey(NewTasks(ts, 0), RunOrder, k)
    ensures forall t :: t in InitialTasks(ts) ==> t.state == PENDING && t.attempts == 0
  {
    SortByPerm(NewTasks(ts, 0), RunOrder);
    SortBySorted(NewTasks(ts, 0), RunOrder);
    SortByStable(NewTasks(ts, 0), RunOrder, k);
    forall t | t in InitialTasks(ts) ensures t.state == PENDING && t.attempts == 0 {
      var made := NewTasks(ts, 0);
      assert t in multiset(made);
      var j :| 0 <= j < |made| && made[j] == t;
      NewTasksAt(ts, 0, j);
    }
  }

  // ---------------------------------------------------------- task lookups

  /** `tasks.find(t => t.id === id)` as an index, -1 when absent. */
  function IndexOfId(ts: seq<Task>, id: string): (r: int)
    ensures -1 <= r < |ts|
    ensures r == -1 <==> forall k :: 0 <= k < |ts| ==> ts[k].id != id
    ensures r >= 0 ==> ts[r].id == id && forall k :: 0 <= k < r ==> ts[k].id != id
  {
    if ts == [] then -1
    else if ts[0].id == id then 0
    else
      var k := IndexOfId(ts[1..], id);
      if k == -1 then -1 else k + 1
  }

  /** Lists with the same ids in the same places find the same index. */
  lemma IndexOfSameIds(a: seq<Task>, b: seq<Task>, id: string)
    requires |a| == |b| && forall k :: 0 <= k < |a| ==> a[k].id == b[k].id
    ensures IndexOfId(a, id) == IndexOfId(b, id)
  {
  }

  predicate DepCompleted(ts: seq<Task>, depId: string)
  {
    var k := IndexOfId(ts, depId);
    k >= 0 && ts[k].state == COMPLETED
  }

  predicate DepBlocking(ts: seq<Task>, depId: string)
  {
    var k := IndexOfId(ts, depId);
    k >= 0 && (ts[k].state == FAILED || ts[k].state == BLOCKED)
  }

  predicate DepsComplete(ts: seq<Task>, deps: seq<string>)
  {
    forall j :: 0 <= j < |deps| ==> DepCompleted(ts, deps[j])
  }

  predicate DepsBlocked(ts: seq<Task>, deps: seq<string>)
  {
    exists j :: 0 <= j < |deps| && DepBlocking(ts, deps[j])
  }

  // ---------------------------------------------------- updateTaskStates

  /** The new value of the task at `k`, decided against the list as it stands. */
  function Decide(ts: seq<Task>, k: nat): (r: Task)
    requires k < |ts|
  {
    var t := ts[k];
    if t.state != PENDING then t
    else if DepsBlocked(ts, t.dependencies) then t.(state := BLOCKED)
    else if DepsComplete(ts, t.dependencies) then t.(state := READY)
    else t
  }

  /** Two tasks that differ at most in their state. */
  predicate SameButState(a: Task, b: Task)
  {
    a.(state := b.state) == b
  }

  /**
   * The list after the forward pass has decided the first `n` tasks; later
   * decisions see the earlier ones.
   */
  function Pass(ts: seq<Task>, n: nat): (r: seq<Task>)
    requires n <= |ts|
    ensures |r| == |ts|
    decreases n
  {
    if n == 0 then ts
    else
      var prev := Pass(ts, n - 1);
      prev[n - 1 := Decide(prev, n - 1)]
  }

  /**
   * What a partial pass may do: tasks not yet reached are untouched, and a
   * reached task changes only if it was PENDING, only in its state, and only
   * to READY or BLOCKED.
   */
  lemma {:induction false} PassShape(ts: seq<Task>, n: nat)
    requires n <= |ts|
    ensures forall k :: 0 <= k < |ts| ==> SameButState(ts[k], Pass(ts, n)[k])
    ensures forall k :: n <= k < |ts| ==> Pass(ts, n)[k] == ts[k]
    ensures forall k :: 0 <= k < |ts| && ts[k].state != PENDING ==> Pass(ts, n)[k] == ts[k]
    ensures forall k :: 0 <= k < |ts| ==> Pass(ts, n)[k].state in {ts[k].state, READY, BLOCKED}
    decreases n
  {
    if n > 0 {
      PassShape(ts, n - 1);
    }
  }

  /** `updateTaskStates`: one forward pass over the whole list. */
  function UpdatePass(ts: seq<Task>): seq<Task>
  {
    Pass(ts, |ts|)
  }

  /** Tasks that are not PENDING never change again as the pass goes on. */
  lemma {:induction false} PassKeepsSettled(ts: seq<Task>, n: nat, m: nat)
    requires n <= m <= |ts|
    ensures forall k :: 0 <= k < |ts| && Pass(ts, n)[k].state != PENDING ==> Pass(ts, m)[k] == Pass(ts, n)[k]
    ensures forall k :: 0 <= k < n ==> Pass(ts, m)[k] == Pass(ts, n)[k]
    decreases m - n
  {
    if n < m {
      PassKeepsSettled(ts, n, m - 1);
    }
  }

  /** The final value of task `k` is the decision taken when the pass reached it. */
  lemma PassDecidedAt(ts: seq<Task>, k: nat)
    requires k < |ts|
    ensures UpdatePass(ts)[k] == Decide(Pass(ts, k), k)
  {
    PassKeepsSettled(ts, k + 1, |ts|);
  }

  /** Only PENDING tasks change, and only their state, to READY or BLOCKED. */
  lemma UpdateOnlyPending(ts: seq<Task>, k: nat)
    requires k < |ts|
    ensures SameButState(ts[k], UpdatePass(ts)[k])
    ensures UpdatePass(ts)[k] != ts[k] ==>
      ts[k].state == PENDING && UpdatePass(ts)[k].state in {READY, BLOCKED}
  {
    PassShape(ts, |ts|);
  }

  /** Dependency gating: a task made READY has every dependency present and COMPLETED. */
  lemma {:induction false} ReadyOnlyWhenDepsCompleted(ts: seq<Task>, k: nat)
    requires k < |ts|
    requires ts[k].state == PENDING && UpdatePass(ts)[k].state == READY
    ensures DepsComplete(UpdatePass(ts), ts[k].dependencies)
  {
    var mid := Pass(ts, k);
    var fin := UpdatePass(ts);
    PassDecidedAt(ts, k);
    PassShape(ts, k);
    PassShape(ts, |ts|);
    assert DepsComplete(mid, ts[k].dependencies);
    forall j | 0 <= j < |ts[k].dependencies| ensures DepCompleted(fin, ts[k].dependencies[j]) {
      var d := ts[k].dependencies[j];
      assert DepCompleted(mid, d);
      IndexOfSameIds(mid, fin, d);
    }
  }

  /** Blocking: a task made BLOCKED has some present dependency that is FAILED or BLOCKED. */
  lemma {:induction false} BlockedOnlyWhenDepFailed(ts: seq<Task>, k: nat)
    requires k < |ts|
    requires ts[k].state == PENDING && UpdatePass(ts)[k].state == BLOCKED
    ensures DepsBlocked(UpdatePass(ts), ts[k].dependencies)
  {
    var mid := Pass(ts, k);
    var fin := UpdatePass(ts);
    PassDecidedAt(ts, k);
    PassShape(ts, k);
    PassShape(ts, |ts|);
    PassKeepsSettled(ts, k, |ts|);
    assert DepsBlocked(mid, ts[k].dependencies);
    var j :| 0 <= j < |ts[k].dependencies| && DepBlocking(mid, ts[k].dependencies[j]);
    IndexOfSameIds(mid, fin, ts[k].dependencies[j]);
    assert DepBlocking(fin, ts[k].dependencies[j]);
  }

  /** A dependency on an id that no task has keeps the dependent from ever becoming READY. */
  lemma UnknownDependencyNeverReady(ts: seq<Task>, k: nat, d: string)
    requires k < |ts| && ts[k].state == PENDING
    requires d in ts[k].dependencies && forall i :: 0 <= i < |ts| ==> ts[i].id != d
    ensures UpdatePass(ts)[k].state != READY
  {
    if UpdatePass(ts)[k].state == READY {
      ReadyOnlyWhenDepsCompleted(ts, k);
      var j :| 0 <= j < |ts[k].dependencies| && ts[k].dependencies[j] == d;
      assert DepCompleted(UpdatePass(ts), d);
      PassShape(ts, |ts|);
      IndexOfSameIds(ts, UpdatePass(ts), d);
    }
  }

  function ExampleTask(id: string, deps: seq<string>, s: TaskState): Task
  {
    Task(id, id, None, None, None, 0, deps, s, 0, None, None, None, None)
  }

  /**
   * The pass is single and forward: "a" depends on "b", which depends on the
   * FAILED task "c". "b" becomes BLOCKED, but "a" was decided while "b" was
   * still PENDING, so "a" stays PENDING until the next pass.
   */
  lemma ForwardPassExample()
    ensures var ts := [ExampleTask("a", ["b"], PENDING), ExampleTask("b", ["c"], PENDING), ExampleTask("c", [], FAILED)];
            UpdatePass(ts)[0].state == PENDING && UpdatePass(ts)[1].state == BLOCKED
  {
    var ts := [ExampleTask("a", ["b"], PENDING), ExampleTask("b", ["c"], PENDING), ExampleTask("c", [], FAILED)];
    assert Pass(ts, 0) == ts;
    assert IndexOfId(ts, "b") == 1;
    assert ts[0].dependencies == ["b"];
    assert !DepBlocking(ts, "b") && !DepCompleted(ts, "b");
    assert !DepsBlocked(ts, ts[0].dependencies);
    assert !DepCompleted(ts, ts[0].dependencies[0]);
    assert !DepsComplete(ts, ts[0].dependencies);
    assert Decide(ts, 0) == ts[0];
    var p1 := Pass(ts, 1);
    assert p1 == ts;
    assert IndexOfId(p1, "c") == 2;
    assert p1[1].dependencies == ["c"];
    assert DepBlocking(p1, p1[1].dependencies[0]);
    assert DepsBlocked(p1, p1[1].dependencies);
    assert Decide(p1, 1).state == BLOCKED;
    PassKeepsSettled(ts, 2, 3);
  }

  // ---------------------------------------------- queries on the task list

  function CountState(ts: seq<Task>, s: TaskState): (r: nat)
    ensures r <= |ts|
  {
    if ts == [] then 0 else (if ts[0].state == s then 1 else 0) + CountState(ts[1..], s)
  }

  /** Every task is in exactly one state, so the seven counts add up to the total. */
  lemma {:induction false} CountsPartition(ts: seq<Task>)
    ensures CountState(ts, PENDING) + CountState(ts, READY) + CountState(ts, RUNNING)
          + CountState(ts, COMPLETED) + CountState(ts, FAILED) + CountState(ts, BLOCKED)
          + CountState(ts, SKIPPED) == |ts|
  {
    if ts != [] {
      CountsPartition(ts[1..]);
    }
  }

  lemma {:induction false} CountPositive(ts: seq<Task>, s: TaskState)
    ensures CountState(ts, s) > 0 <==> exists i :: 0 <= i < |ts| && ts[i].state == s
  {
    if ts != [] {
      CountPositive(ts[1..], s);
      if ts[0].state != s && CountState(ts, s) > 0 {
        var i :| 0 <= i < |ts[1..]| && ts[1..][i].state == s;
        assert ts[i + 1].state == s;
      }
      if CountState(ts, s) == 0 {
        forall i | 0 <= i < |ts| ensures ts[i].state != s {
          if i > 0 { assert ts[1..][i - 1] == ts[i]; }
        }
      }
    }
  }

  /** `getNextTask`: the first READY task in list order. */
  function NextReady(ts: seq<Task>): (r: Option<Task>)
    ensures r.None? <==> forall i :: 0 <= i < |ts| ==> ts[i].state != READY
    ensures r.Some? ==> exists i :: 0 <= i < |ts| && ts[i] == r.value && ts[i].state == READY
                                    && forall j :: 0 <= j < i ==> ts[j].state != READY
  {
    if ts == [] then None
    else if ts[0].state == READY then Some(ts[0])
    else
      var r := NextReady(ts[1..]);
      assert r.Some? ==> exists i :: 0 <= i < |ts[1..]| && ts[1..][i] == r.value && ts[1..][i].state == READY
                                     && forall j :: 0 <= j < i ==> ts[1..][j].state != READY;
      assert forall i :: 1 <= i < |ts| ==> ts[i] == ts[1..][i - 1];
      r
  }

  function Completed(ts: seq<Task>): (r: seq<TaskRef>)
    ensures |r| == CountState(ts, COMPLETED)
  {
    if ts == [] then []
    else (if ts[0].state == COMPLETED then [TaskRef(ts[0].id, ts[0].title)] else []) + Completed(ts[1..])
  }

  function FailedRefs(ts: seq<Task>): (r: seq<FailedRef>)
    ensures |r| == CountState(ts, FAILED)
  {
    if ts == [] then []
    else (if ts[0].state == FAILED then [FailedRef(ts[0].id, ts[0].title, ts[0].error)] else []) + FailedRefs(ts[1..])
  }

  /** `Math.round(ms / 60000)` on integer milliseconds. */
  function RoundMinutes(ms: int): int
  {
    (ms + 30000) / 60000
  }

  /** `generateSummary`; a missing timestamp reads as the epoch, as `new Date(null)` does. */
  function MakeSummary(r: RunRecord): (s: Summary)
    ensures s.total == |r.tasks|
    ensures s.completed == CountState(r.tasks, COMPLETED) && s.failed == CountState(r.tasks, FAILED)
    ensures s.skipped == CountState(r.tasks, SKIPPED) && s.blocked == CountState(r.tasks, BLOCKED)
    ensures s.completed + s.failed + s.skipped + s.blocked <= s.total
    ensures |s.failedTasks| == s.failed && |s.completedTasks| == s.completed
    ensures s.abortReason.None?
  {
    CountsPartition(r.tasks);
    Summary(
      r.id, r.status,
      IntToString(RoundMinutes(r.completedAt.GetOr(0) - r.startedAt.GetOr(0))) + " minutes",
      |r.tasks|,
      CountState(r.tasks, COMPLETED), CountState(r.tasks, FAILED),
      CountState(r.tasks, SKIPPED), CountState(r.tasks, BLOCKED),
      FailedRefs(r.tasks), Completed(r.tasks), None)
  }

  /** Counts of tasks still to run. */
  function Outstanding(ts: seq<Task>): nat
  {
    CountState(ts, PENDING) + CountState(ts, READY) + CountState(ts, RUNNING)
  }

  /** `getRunStatus` over the persisted current-run slot. */
  function RunStatusOf(current: Option<RunRecord>): (r: RunStatusReport)
    ensures current.None? <==> r.NoActiveRun?
    ensures r.Active? ==> (r.total == |current.value.tasks|
      && r.pending + r.ready + r.running + r.completed + r.failed <= r.total)
    ensures r.Active? ==> (r.nextTask.Some? ==> r.ready > 0)
    ensures r.Active? ==> var ts := current.value.tasks;
      && r.pending == CountState(ts, PENDING) && r.ready == CountState(ts, READY)
      && r.running == CountState(ts, RUNNING) && r.completed == CountState(ts, COMPLETED)
      && r.failed == CountState(ts, FAILED)
    ensures r.Active? ==> var next := NextReady(current.value.tasks);
      r.nextTask == if next.Some? && next.value.title != "" then Some(next.value.title) else None
  {
    match current
    case None => NoActiveRun
    case Some(run) =>
      var next := NextReady(run.tasks);
      CountsPartition(run.tasks);
      CountPositive(run.tasks, READY);
      Active(run.id, run.status, run.startedAt, |run.tasks|,
             CountState(run.tasks, PENDING), CountState(run.tasks, READY), CountState(run.tasks, RUNNING),
             CountState(run.tasks, COMPLETED), CountState(run.tasks, FAILED),
             if next.Some? && next.value.title != "" then Some(next.value.title) else None)
  }

  // ------------------------------------------------ single-task transitions

  /** `startTask` on the found task: RUNNING, start time, one more attempt. */
  function StartedTask(t: Task, now: int): (r: Task)
    ensures r.state == RUNNING && r.attempts == t.attempts + 1
    ensures r.id == t.id && r.dependencies == t.dependencies
  {
    t.(state := RUNNING, startedAt := Some(now), attempts := t.attempts + 1)
  }

  /** `failTask` on the found task: back to READY while attempts < maxRetries, else FAILED. */
  function FailedTask(t: Task, cfg: RunConfig, error: string, now: int): (r: Task)
    ensures r.state == (if t.attempts < cfg.maxRetries then READY else FAILED)
    ensures r.attempts == t.attempts && r.id == t.id && r.error == Some(error)
  {
    if t.attempts < cfg.maxRetries then t.(state := READY, error := Some(error))
    else t.(state := FAILED, completedAt := Some(now), error := Some(error))
  }

  /** `completeTask` on the found task: COMPLETED, completion time, output. */
  function CompletedTask(t: Task, output: string, now: int): (r: Task)
    ensures r.state == COMPLETED && r.completedAt == Some(now) && r.output == Some(output)
    ensures r.(state := t.state, completedAt := t.completedAt, output := t.output) == t
  {
    t.(state := COMPLETED, completedAt := Some(now), output := Some(output))
  }

  /** `skipTask` on the found task: SKIPPED, completion time, the reason or "Skipped by user". */
  function SkippedTask(t: Task, reason: Option<string>, now: int): (r: Task)
    ensures r.state == SKIPPED && r.completedAt == Some(now)
    ensures r.error == Some(if Truthy(reason) then reason.value else "Skipped by user")
    ensures r.(state := t.state, completedAt := t.completedAt, error := t.error) == t
  {
    t.(state := SKIPPED, completedAt := Some(now), error := Some(StrOr(reason, "Skipped by user")))
  }

  /** Number of start/fail cycles a task goes through until failTask marks it FAILED. */
  function StartFailCycles(t: Task, cfg: RunConfig): nat
    decreases if cfg.maxRetries > t.attempts then cfg.maxRetries - t.attempts else 0
  {
    var after := FailedTask(StartedTask(t, 0), cfg, "", 0);
    if after.state == READY then 1 + StartFailCycles(after, cfg) else 1
  }

  /** A fresh task is started at most max(1, maxRetries) times before it is FAILED. */
  lemma {:induction false} RetryBound(t: Task, cfg: RunConfig)
    ensures StartFailCycles(t, cfg) == if cfg.maxRetries > t.attempts + 1 then cfg.maxRetries - t.attempts else 1
    decreases if cfg.maxRetries > t.attempts then cfg.maxRetries - t.attempts else 0
  {
    var after := FailedTask(StartedTask(t, 0), cfg, "", 0);
    if after.state == READY {
      RetryBound(after, cfg);
    }
  }

  lemma FreshTaskRetryBound(t: Task, cfg: RunConfig)
    requires t.attempts == 0
    ensures StartFailCycles(t, cfg) == if cfg.maxRetries > 1 then cfg.maxRetries else 1
  {
    RetryBound(t, cfg);
  }

  // ---------------------------------------------------- run completion

  /** The status a run finishes with: COMPLETED_WITH_FAILURES when some task FAILED, else COMPLETED. */
  function FinalStatus(ts: seq<Task>): (r: RunStatus)
    ensures r == COMPLETED_WITH_FAILURES <==> exists i :: 0 <= i < |ts| && ts[i].state == FAILED
    ensures r == COMPLETED_RUN || r == COMPLETED_WITH_FAILURES
  {
    CountPositive(ts, FAILED);
    if CountState(ts, FAILED) > 0 then COMPLETED_WITH_FAILURES else COMPLETED_RUN
  }

  /** The finished run: final status, completion time, and the summary of the finished run. */
  function FinishRun(rec: RunRecord, now: int): (r: RunRecord)
    ensures r.status == FinalStatus(rec.tasks) && r.completedAt == Some(now)
    ensures r.summary.Some? && r.summary.value.status == r.status
    ensures r.summary.value.total == |rec.tasks|
    ensures r.summary.value.failed == CountState(rec.tasks, FAILED)
    ensures r.(status := rec.status, completedAt := rec.completedAt, summary := rec.summary) == rec
  {
    var done := rec.(status := FinalStatus(rec.tasks), completedAt := Some(now));
    done.(summary := Some(MakeSummary(done)))
  }

  /** The run after the completion check: finished when nothing is outstanding, else as it was. */
  function Settled(rec: RunRecord, now: int): (r: RunRecord)
    ensures r.tasks == rec.tasks && r.id == rec.id && r.config == rec.config && r.startedAt == rec.startedAt
    ensures Outstanding(rec.tasks) > 0 ==> r == rec
  {
    if Outstanding(rec.tasks) == 0 then FinishRun(rec, now) else rec
  }

  /** What the completion check appends to the history: one line when the run finishes. */
  function Archived(rec: RunRecord, now: int): (r: seq<HistoryEntry>)
    ensures |r| == (if Outstanding(rec.tasks) == 0 then 1 else 0)
  {
    if Outstanding(rec.tasks) == 0 then [FinishEntry(rec, now)] else []
  }

  /** The history line `checkRunCompletion` appends. */
  function FinishEntry(rec: RunRecord, now: int): (e: HistoryEntry)
    ensures e.Finished? && e.id == rec.id && e.completedAt == now && e.totalTasks == |rec.tasks|
    ensures e.completed + e.failed + e.skipped <= e.totalTasks
  {
    CountsPartition(rec.tasks);
    Finished(rec.id, FinalStatus(rec.tasks), rec.startedAt, now, |rec.tasks|,
             CountState(rec.tasks, COMPLETED), CountState(rec.tasks, FAILED), CountState(rec.tasks, SKIPPED))
  }

  // --------------------------------------------------------------- objects

  /** The orchestrator state file and the run history file. */
  class Store {
    var currentRun: Option<RunRecord>
    var completed: seq<CompletedEntry>
    var failed: seq<FailedEntry>
    var history: seq<HistoryEntry>

    /** The state `loadState` returns when no file exists. */
    constructor ()
      ensures currentRun.None? && completed == [] && failed == [] && history == []
    {
      currentRun := None;
      completed := [];
      failed := [];
      history := [];
    }

    /**
     * `abortRun`: nothing to abort gives None; otherwise the stored run is marked
     * ABORTED with its summary and reason, archived, and the slot is cleared.
     */
    method AbortRun(reason: string, now: int) returns (aborted: Option<RunRecord>)
      modifies this
      ensures old(currentRun).None? ==> aborted.None? && currentRun == old(currentRun) && history == old(history)
      ensures old(currentRun).Some? ==>
        var was := old(currentRun).value;
        var marked := was.(status := ABORTED, completedAt := Some(now));
        && aborted == Some(marked.(summary := Some(MakeSummary(marked).(abortReason := Some(reason)))))
        && history == old(history) + [Aborted(was.id, reason, now)]
        && currentRun.None?
      ensures completed == old(completed) && failed == old(failed)
    {
      if currentRun.None? {
        return None;
      }
      var marked := currentRun.value.(status := ABORTED, completedAt := Some(now));
      var r := marked.(summary := Some(MakeSummary(marked).(abortReason := Some(reason))));
      history := history + [Aborted(r.id, reason, now)];
      currentRun := None;
      aborted := Some(r);
    }
  }

  class Run {
    var id: string
    var createdAt: int
    var status: RunStatus
    var config: RunConfig
    var tasks: seq<Task>
    var currentTaskIndex: int
    var startedAt: Option<int>
    var completedAt: Option<int>
    var summary: Option<Summary>

    function Record(): RunRecord
      reads this
    {
      RunRecord(id, createdAt, status, config, tasks, currentTaskIndex, startedAt, completedAt, summary)
    }

    /** `createRun`: id from the clock, CREATED, defaulted config, tasks sorted by sequence then priority. */
    constructor (inputs: seq<TaskInput>, cfg: ConfigInput, now: int)
      ensures id == "run-" + IntToString(now) && createdAt == now
      ensures status == CREATED && config == MakeConfig(cfg)
      ensures tasks == InitialTasks(inputs)
      ensures currentTaskIndex == -1 && startedAt.None? && completedAt.None? && summary.None?
    {
      id := "run-" + IntToString(now);
      createdAt := now;
      status := CREATED;
      config := MakeConfig(cfg);
      tasks := InitialTasks(inputs);
      currentTaskIndex := -1;
      startedAt := None;
      completedAt := None;
      summary := None;
    }

    /** `updateTaskStates`, the loop of the source over the task list. */
    method UpdateTaskStates()
      modifies this
      ensures tasks == UpdatePass(old(tasks))
      ensures Record() == old(Record()).(tasks := tasks)
    {
      var i := 0;
      while i < |tasks|
        invariant 0 <= i <= |tasks| && |tasks| == |old(tasks)|
        invariant tasks == Pass(old(tasks), i)
        invariant Record() == old(Record()).(tasks := tasks)
      {
        tasks := tasks[i := Decide(tasks, i)];
        i := i + 1;
      }
    }

    /** `startRun`: RUNNING, start time, index 0, first pass, saved as the current run. */
    method StartRun(store: Store, now: int)
      modifies this, store
      ensures status == RUNNING_RUN && startedAt == Some(now) && currentTaskIndex == 0
      ensures tasks == UpdatePass(old(tasks))
      ensures id == old(id) && config == old(config) && completedAt == old(completedAt) && summary == old(summary)
      ensures store.currentRun == Some(Record())
      ensures store.completed == old(store.completed) && store.failed == old(store.failed)
      ensures store.history == old(store.history)
    {
      status := RUNNING_RUN;
      startedAt := Some(now);
      currentTaskIndex := 0;
      UpdateTaskStates();
      store.currentRun := Some(Record());
    }

    /** `getNextTask`; it changes nothing. */
    function GetNextTask(): (r: Option<Task>)
      reads this
      ensures r.Some? ==> r.value in tasks && r.value.state == READY
      ensures r.Some? ==> exists i :: 0 <= i < |tasks| && tasks[i] == r.value && tasks[i].state == READY
                                      && forall j :: 0 <= j < i ==> tasks[j].state != READY
      ensures r.None? ==> forall i :: 0 <= i < |tasks| ==> tasks[i].state != READY
    {
      NextReady(tasks)
    }

    /** `startTask`: unknown id gives None and changes nothing; otherwise one more attempt, RUNNING. */
    method StartTask(store: Store, taskId: string, now: int) returns (r: Option<Task>)
      modifies this, store
      ensures var k := IndexOfId(old(tasks), taskId);
        if k == -1 then r.None? && tasks == old(tasks) && store.currentRun == old(store.currentRun)
        else r == Some(StartedTask(old(tasks)[k], now)) && tasks == old(tasks)[k := r.value]
             && store.currentRun == Some(Record())
      ensures Record() == old(Record()).(tasks := tasks)
      ensures store.completed == old(store.completed) && store.failed == old(store.failed)
      ensures store.history == old(store.history)
    {
      var k := IndexOfId(tasks, taskId);
      if k == -1 {
        return None;
      }
      var t := StartedTask(tasks[k], now);
      tasks := tasks[k := t];
      store.currentRun := Some(Record());
      r := Some(t);
    }

    /**
     * `checkRunCompletion`: once no task is PENDING, READY or RUNNING the run is
     * finished as `FinishRun` says, archived, and the current-run slot is cleared.
     */
    method CheckRunCompletion(store: Store, now: int)
      modifies this, store
      ensures Record() == Settled(old(Record()), now)
      ensures store.history == old(store.history) + Archived(old(Record()), now)
      ensures store.currentRun == if Outstanding(tasks) == 0 then None else old(store.currentRun)
      ensures store.completed == old(store.completed) && store.failed == old(store.failed)
    {
      if Outstanding(tasks) == 0 {
        var finished := FinishRun(Record(), now);
        store.history := store.history + [FinishEntry(Record(), now)];
        status := finished.status;
        completedAt := finished.completedAt;
        summary := finished.summary;
        store.currentRun := None;
      }
    }

    /**
     * The common tail of `completeTask` and `skipTask`: the settled task is
     * stored, a dependency pass, the completion check, and the run saved as
     * current. The settled task keeps its new value through the pass.
     */
    method SettleTask(store: Store, k: nat, t: Task, now: int)
      requires k < |tasks| && t.state != PENDING
      modifies this, store
      ensures var marked := old(Record()).(tasks := UpdatePass(old(tasks)[k := t]));
        && Record() == Settled(marked, now)
        && store.history == old(store.history) + Archived(marked, now)
        && store.currentRun == Some(Record())
      ensures |tasks| == |old(tasks)| && tasks[k] == t
      ensures store.completed == old(store.completed) && store.failed == old(store.failed)
    {
      tasks := tasks[k := t];
      ghost var marked := tasks;
      UpdateTaskStates();
      UpdateOnlyPending(marked, k);
      assert tasks[k] == t;
      CheckRunCompletion(store, now);
      store.currentRun := Some(Record());
    }

    /**
     * `completeTask`: COMPLETED with its output, a dependency pass, the
     * completion check, then the run is saved as current again and the
     * completion is logged.
     */
    method CompleteTask(store: Store, taskId: string, output: string, now: int) returns (r: Option<Task>)
      modifies this, store
      ensures var k := IndexOfId(old(tasks), taskId);
        if k == -1 then r.None? && Record() == old(Record()) && store.currentRun == old(store.currentRun)
                        && store.completed == old(store.completed) && store.history == old(store.history)
        else
          var marked := old(Record()).(tasks := UpdatePass(old(tasks)[k := CompletedTask(old(tasks)[k], output, now)]));
          && Record() == Settled(marked, now)
          && store.history == old(store.history) + Archived(marked, now)
          && r == Some(tasks[k]) && r.value.state == COMPLETED
          && store.currentRun == Some(Record())
          && store.completed == old(store.completed) + [CompletedEntry(taskId, now)]
      ensures store.failed == old(store.failed)
    {
      var k := IndexOfId(tasks, taskId);
      if k == -1 {
        return None;
      }
      SettleTask(store, k, CompletedTask(tasks[k], output, now), now);
      if tasks[k].state == COMPLETED {
        store.completed := store.completed + [CompletedEntry(taskId, now)];
      }
      r := Some(tasks[k]);
    }

    /**
     * `failTask`: READY again while attempts < maxRetries, otherwise FAILED (and
     * the run FAILED under stopOnFailure); then a dependency pass and the
     * failure log. It never checks for run completion.
     */
    method FailTask(store: Store, taskId: string, error: string, now: int) returns (r: Option<Task>)
      modifies this, store
      ensures var k := IndexOfId(old(tasks), taskId);
        if k == -1 then r.None? && Record() == old(Record()) && store.currentRun == old(store.currentRun)
                        && store.failed == old(store.failed)
        else
          var failed := FailedTask(old(tasks)[k], old(config), error, now);
          && tasks == UpdatePass(old(tasks)[k := failed])
          && r == Some(tasks[k])
          && (if failed.state == FAILED && old(config).stopOnFailure
              then status == FAILED_RUN && completedAt == Some(now)
              else status == old(status) && completedAt == old(completedAt))
          && summary == old(summary)
          && store.currentRun == Some(Record())
          && store.failed == old(store.failed) + [FailedEntry(taskId, error, now)]
      ensures id == old(id) && config == old(config) && startedAt == old(startedAt)
      ensures store.completed == old(store.completed) && store.history == old(store.history)
    {
      var k := IndexOfId(tasks, taskId);
      if k == -1 {
        return None;
      }
      var failed := FailedTask(tasks[k], config, error, now);
      tasks := tasks[k := failed];
      if failed.state == FAILED && config.stopOnFailure {
        status := FAILED_RUN;
        completedAt := Some(now);
      }
      UpdateTaskStates();
      store.currentRun := Some(Record());
      store.failed := store.failed + [FailedEntry(taskId, error, now)];
      r := Some(tasks[k]);
    }

    /** `skipTask`: SKIPPED with the reason, a dependency pass, the completion check, saved as current. */
    method SkipTask(store: Store, taskId: string, reason: Option<string>, now: int) returns (r: Option<Task>)
      modifies this, store
      ensures var k := IndexOfId(old(tasks), taskId);
        if k == -1 then r.None? && Record() == old(Record()) && store.currentRun == old(store.currentRun)
                        && store.history == old(store.history)
        else
          var marked := old(Record()).(tasks := UpdatePass(old(tasks)[k := SkippedTask(old(tasks)[k], reason, now)]));
          && Record() == Settled(marked, now)
          && store.history == old(store.history) + Archived(marked, now)
          && r == Some(tasks[k]) && r.value.state == SKIPPED
          && store.currentRun == Some(Record())
      ensures store.completed == old(store.completed) && store.failed == old(store.failed)
    {
      var k := IndexOfId(tasks, taskId);
      if k == -1 {
        return None;
      }
      SettleTask(store, k, SkippedTask(tasks[k], reason, now), now);
      r := Some(tasks[k]);
    }
  }
}
