/**
 * The task queue processor: takes up to `maxTasks` queued tasks that are not
 * already being processed, processes each one (a prompt for a sub-agent and
 * a result record), and rewrites the queue without the tasks that succeeded.
 * The queue, processing and results files are fields; whether writing a
 * task's output file fails is an input.
 */
module TaskQueue {
  import opened Wrappers
  import opened Strings
  import opened Seqs

  datatype QueueTask = QueueTask(
    taskId: string,
    taskType: Option<string>,
    description: string,
    priority: string,
    assignedAgent: string,
    notionPageId: Option<string>,
    createdAt: Option<string>)

  /** The task types with a prompt template of their own. */
  const TEMPLATE_KEYS: seq<string> := ["research", "analysis", "automation", "content", "data", "default"]

  /** The template used for a task type: its lower-case form when that has a template, else `default`. */
  function TemplateKey(taskType: Option<string>): (k: string)
    ensures k in TEMPLATE_KEYS
    ensures k != "default" ==> taskType.Some? && LowerStr(taskType.value) == k
    ensures taskType.Some? && LowerStr(taskType.value) in TEMPLATE_KEYS ==> k == LowerStr(taskType.value)
  {
    if taskType.Some? && LowerStr(taskType.value) in TEMPLATE_KEYS then LowerStr(taskType.value) else "default"
  }

  const OUTPUTS := "/root/clawd/voltagent/outputs/"

  /** The text of a template before the description. */
  function Lead(key: string): string
  {
    match key
    case "research" => "Research task: "
    case "analysis" => "Analysis task: "
    case "automation" => "Automation task: "
    case "content" => "Content creation task: "
    case "data" => "Data task: "
    case _ => "Task: "
  }

  /** The text of a template after the description. */
  function Tail(key: string, taskId: string): string
  {
    match key
    case "research" => ". \nOutput: Write findings to " + OUTPUTS + taskId + ".md\nFormat: Structured markdown with sources."
    case "analysis" =>
      "\nOutput: Write analysis to " + OUTPUTS + taskId + ".md\nFormat: Executive summary, detailed findings, recommendations."
    case "automation" => "\nOutput: Create script or update config as needed.\nTest the automation before marking complete."
    case "content" =>
      "\nOutput: Write content to " + OUTPUTS + taskId + ".md\nFormat: Ready-to-use content with variations if applicable."
    case "data" => "\nOutput: Process data and save results to " + OUTPUTS + taskId + ".json\nInclude summary statistics."
    case _ => "\nExecute this task and report results.\nOutput: " + OUTPUTS + taskId + ".md"
  }

  const PROMPT_INTRO := "You are executing a VoltAgent task.\n\nTask ID: "
  const PROMPT_CLOSING :=
    "\n\nWhen complete:\n1. Write output to the specified file\n2. Report success/failure\n3. Note any follow-up actions needed"

  /** `generateTaskPrompt`: the header, the template for the task type, and the closing steps. */
  function GenerateTaskPrompt(task: QueueTask): (p: string)
    ensures StartsWith(p, PROMPT_INTRO + task.taskId)
    ensures Contains(p, Lead(TemplateKey(task.taskType)) + task.description)
  {
    var key := TemplateKey(task.taskType);
    var body := Lead(key) + task.description;
    var rest := "\nPriority: " + task.priority + "\nAssigned Agent: " + task.assignedAgent + "\n\n";
    var p := (PROMPT_INTRO + task.taskId) + (rest + (body + (Tail(key, task.taskId) + PROMPT_CLOSING)));
    ContainsSelf(body);
    ContainsInAppend(body, Tail(key, task.taskId) + PROMPT_CLOSING, body);
    ContainsInAppend(rest, body + (Tail(key, task.taskId) + PROMPT_CLOSING), body);
    ContainsInAppend(PROMPT_INTRO + task.taskId, rest + (body + (Tail(key, task.taskId) + PROMPT_CLOSING)), body);
    p
  }

  /** A task type that has no template, in any letter case, gets the default template. */
  lemma UnknownTypeUsesDefault(task: QueueTask)
    requires task.taskType.None? || LowerStr(task.taskType.value) !in TEMPLATE_KEYS
    ensures Contains(GenerateTaskPrompt(task), "Task: " + task.description)
  {
  }

  /** The template choice ignores letter case. */
  lemma TemplateCaseInsensitive(t: string)
    ensures TemplateKey(Some(t)) == TemplateKey(Some(LowerStr(t)))
  {
    LowerIdempotent(t);
  }

  /** The placeholder output file written for a task. */
  function OutputFile(taskId: string): string
  {
    "outputs/" + taskId + ".md"
  }

  /** An entry of the results file. */
  datatype TaskResult =
    | Queued(taskId: string, prompt: string, outputFile: string)
    | Errored(taskId: string, error: string)

  /** An entry of the list `processQueue` returns. */
  datatype Outcome = Outcome(taskId: string, success: bool, result: TaskResult)

  const RESULTS_CAP := 100

  /** The result of processing `task` when writing its output fails with `writeError`, if it does. */
  function ResultOf(task: QueueTask, writeError: Option<string>): (r: TaskResult)
    ensures r.taskId == task.taskId
    ensures r.Queued? <==> writeError.None?
  {
    if writeError.None? then Queued(task.taskId, GenerateTaskPrompt(task), OutputFile(task.taskId))
    else Errored(task.taskId, writeError.value)
  }

  /** The write failure of a task, looked up by id. */
  function ErrorFor(failures: map<string, string>, taskId: string): Option<string>
  {
    if taskId in failures then Some(failures[taskId]) else None
  }

  function OutcomeFor(failures: map<string, string>): QueueTask -> Outcome
  {
    (t: QueueTask) => Outcome(t.taskId, t.taskId !in failures, ResultOf(t, ErrorFor(failures, t.taskId)))
  }

  function ResultFor(failures: map<string, string>): QueueTask -> TaskResult
  {
    (t: QueueTask) => ResultOf(t, ErrorFor(failures, t.taskId))
  }

  predicate Succeeded(o: Outcome)
  {
    o.success
  }

  predicate Failed(o: Outcome)
  {
    !o.success
  }

  function NotIn(ids: set<string>): QueueTask -> bool
  {
    (t: QueueTask) => t.taskId !in ids
  }

  /** `Array.prototype.slice(0, end)`: a negative end counts from the back. */
  function SliceTo<T>(s: seq<T>, end: int): (r: seq<T>)
    ensures |r| <= |s| && r == s[..|r|]
    ensures end >= 0 ==> |r| == if end < |s| then end else |s|
  {
    if end >= 0 then (if end < |s| then s[..end] else s)
    else if |s| + end > 0 then s[..|s| + end] else []
  }

  /** The tasks `processQueue` takes: in queue order, not being processed, at most `maxTasks`. */
  function Selected(queue: seq<QueueTask>, busy: set<string>, maxTasks: int): (sel: seq<QueueTask>)
    ensures forall i :: 0 <= i < |sel| ==> sel[i] in queue && sel[i].taskId !in busy
    ensures maxTasks >= 0 ==> |sel| <= maxTasks
    ensures |sel| <= |Filter(NotIn(busy), queue)| && sel == Filter(NotIn(busy), queue)[..|sel|]
  {
    SliceTo(Filter(NotIn(busy), queue), maxTasks)
  }

  /** The ids of the tasks that succeeded. */
  function SucceededIds(outs: seq<Outcome>): set<string>
  {
    set o | o in outs && o.success :: o.taskId
  }

  datatype QueueReport =
    | NothingQueued
    | Report(processed: nat, errors: nat, remaining: nat, tasks: seq<Outcome>)

  /** Every outcome is a success or an error, so the two counts add up to the number processed. */
  lemma {:induction false} ProcessedPlusErrors(outs: seq<Outcome>)
    ensures |Filter(Succeeded, outs)| + |Filter(Failed, outs)| == |outs|
  {
    if outs != [] {
      ProcessedPlusErrors(outs[1..]);
    }
  }

  /**
   * The rewritten queue keeps, in their order, exactly the tasks whose id
   * did not succeed; a task that failed stays queued.
   */
  lemma NewQueueKeepsFailed(queue: seq<QueueTask>, outs: seq<Outcome>, t: QueueTask)
    ensures t in Filter(NotIn(SucceededIds(outs)), queue) <==>
      t in queue && forall o :: o in outs && o.taskId == t.taskId ==> !o.success
  {
    FilterIn(NotIn(SucceededIds(outs)), queue, t);
  }

  /** Marking a task as processing and then removing the mark leaves no mark. */
  lemma MarkThenUnmark(m: map<string, QueueTask>, id: string, t: QueueTask)
    ensures m[id := t] - {id} == m - {id}
    ensures id !in m ==> m - {id} == m
  {
  }

  /** The queue, processing and results files. */
  class QueueProcessor {
    var queue: seq<QueueTask>
    var processing: map<string, QueueTask>
    var results: seq<TaskResult>

    constructor(queue: seq<QueueTask>)
      ensures this.queue == queue && processing == map[] && results == []
    {
      this.queue := queue;
      processing := map[];
      results := [];
    }

    /** `saveResult`: append, keeping the last hundred. */
    method SaveResult(r: TaskResult)
      modifies this
      ensures results == Capped(old(results), r, RESULTS_CAP)
      ensures queue == old(queue) && processing == old(processing)
    {
      var kept := Capped(results, r, RESULTS_CAP);
      results := kept;
    }

    /**
     * `processTask`: marks the task as processing, records its result and
     * removes the mark again on the success and the error path alike.
     */
    method ProcessTask(task: QueueTask, writeError: Option<string>) returns (success: bool, r: TaskResult)
      modifies this
      ensures success <==> writeError.None?
      ensures r == ResultOf(task, writeError)
      ensures processing == old(processing) - {task.taskId}
      ensures task.taskId !in old(processing) ==> processing == old(processing)
      ensures results == Capped(old(results), r, RESULTS_CAP)
      ensures queue == old(queue)
    {
      processing := processing[task.taskId := task];
      if writeError.None? {
        var prompt := GenerateTaskPrompt(task);
        r := Queued(task.taskId, prompt, OutputFile(task.taskId));
        success := true;
      } else {
        r := Errored(task.taskId, writeError.value);
        success := false;
      }
      SaveResult(r);
      processing := processing - {task.taskId};
      MarkThenUnmark(old(processing), task.taskId, task);
    }

    /**
     * The loop of `processQueue`: each selected task in turn, collecting one
     * outcome per task. The tasks are not being processed when it starts,
     * and are not afterwards.
     */
    method ProcessAll(sel: seq<QueueTask>, failures: map<string, string>) returns (outs: seq<Outcome>)
      requires forall i :: 0 <= i < |sel| ==> sel[i].taskId !in processing
      modifies this
      ensures outs == Map(OutcomeFor(failures), sel)
      ensures queue == old(queue) && processing == old(processing)
      ensures results == CappedAll(old(results), Map(ResultFor(failures), sel), RESULTS_CAP)
    {
      outs := [];
      var i := 0;
      while i < |sel|
        invariant i <= |sel|
        invariant queue == old(queue) && processing == old(processing)
        invariant outs == Map(OutcomeFor(failures), sel[..i])
        invariant results == CappedAll(old(results), Map(ResultFor(failures), sel[..i]), RESULTS_CAP)
      {
        var task := sel[i];
        var success, r := ProcessTask(task, ErrorFor(failures, task.taskId));
        outs := outs + [Outcome(task.taskId, success, r)];
        MapPrefix(ResultFor(failures), sel, i);
        MapPrefix(OutcomeFor(failures), sel, i);
        CappedAllSnoc(old(results), Map(ResultFor(failures), sel[..i]), r, RESULTS_CAP);
        i := i + 1;
      }
      assert sel[..|sel|] == sel;
    }

    /**
     * `processQueue`: with an empty queue nothing is touched; otherwise the
     * selected tasks are processed in order and the queue loses exactly the
     * tasks that succeeded.
     */
    method ProcessQueue(maxTasks: int, failures: map<string, string>) returns (report: QueueReport)
      modifies this
      ensures old(queue) == [] ==>
        report == NothingQueued && queue == old(queue) && processing == old(processing) && results == old(results)
      ensures old(queue) != [] ==>
        var sel := Selected(old(queue), old(processing).Keys, maxTasks);
        var outs := Map(OutcomeFor(failures), sel);
        && report == Report(|Filter(Succeeded, outs)|, |Filter(Failed, outs)|, |queue|, outs)
        && queue == Filter(NotIn(SucceededIds(outs)), old(queue))
        && processing == old(processing)
        && results == CappedAll(old(results), Map(ResultFor(failures), sel), RESULTS_CAP)
    {
      if queue == [] {
        return NothingQueued;
      }
      var sel := Selected(queue, processing.Keys, maxTasks);
      var outs := ProcessAll(sel, failures);
      queue := Filter(NotIn(SucceededIds(outs)), queue);
      report := Report(|Filter(Succeeded, outs)|, |Filter(Failed, outs)|, |queue|, outs);
    }
  }

  /**
   * The results log after a run holds the last hundred of the old entries
   * followed by one entry per processed task, in order.
   */
  lemma ResultsAreLastHundred(old_results: seq<TaskResult>, sel: seq<QueueTask>, failures: map<string, string>)
    requires sel != []
    ensures CappedAll(old_results, Map(ResultFor(failures), sel), RESULTS_CAP)
         == Last(old_results + Map(ResultFor(failures), sel), RESULTS_CAP)
  {
    CappedAllIsLast(old_results, Map(ResultFor(failures), sel), RESULTS_CAP);
  }
}
