/**
 * The weekly leaderboard rollup: every task page of the work log is read
 * into a task (the query applies no date filter), the tasks are aggregated
 * per agent (points, completed tasks, confidence and coherence averages,
 * rework and penalty counts), and the agents are ranked by total points.
 * The Notion queries and updates are outside the model: the task pages are
 * an input and the aggregates are the output.
 */
module WeeklyRollup {
  import opened Wrappers
  import opened Strings
  import opened Seqs
  import opened Sorting
  import opened Numbers

  /** A task page's properties as read; `None` stands for a missing property. */
  datatype TaskPage = TaskPage(
    id: string,
    task: Option<string>,
    agent: Option<string>,
    points: Option<int>,
    confidence: Option<int>,
    coherence: Option<int>,
    status: Option<string>,
    completedAt: Option<string>)

  datatype Task = Task(
    id: string,
    task: string,
    agent: string,
    points: int,
    confidence: int,
    coherence: int,
    status: string,
    completedAt: Option<string>)

  /** JavaScript `n || 0` for an optional number. */
  function NumOr0(o: Option<int>): (n: int)
    ensures o.Some? ==> n == o.value
    ensures o.None? ==> n == 0
  {
    o.GetOr(0)
  }

  /** `parseTask`: missing texts read as empty, a missing agent as "Unknown", missing numbers as 0. */
  function ParseTask(page: TaskPage): (t: Task)
    ensures t.id == page.id && t.agent != ""
    ensures Truthy(page.agent) ==> t.agent == page.agent.value
    ensures t.agent == "Unknown" <==> !Truthy(page.agent) || page.agent.value == "Unknown"
    ensures t.task == StrOr(page.task, "") && t.status == StrOr(page.status, "")
    ensures t.points == NumOr0(page.points) && t.confidence == NumOr0(page.confidence)
    ensures t.coherence == NumOr0(page.coherence)
    ensures t.completedAt.Some? <==> Truthy(page.completedAt)
    ensures t.completedAt.Some? ==> t.completedAt == page.completedAt
  {
    Task(page.id, StrOr(page.task, ""), StrOr(page.agent, "Unknown"), NumOr0(page.points), NumOr0(page.confidence),
         NumOr0(page.coherence), StrOr(page.status, ""), if Truthy(page.completedAt) then page.completedAt else None)
  }

  datatype Stats = Stats(
    totalPoints: int,
    tasksCompleted: nat,
    confidenceSum: int,
    coherenceSum: int,
    reworkCount: nat,
    penaltyCount: nat,
    avgConfidence: int,
    avgCoherence: int)

  /** The counters of an agent seen for the first time. */
  const ZERO := Stats(0, 0, 0, 0, 0, 0, 0, 0)

  predicate IsCompleted(t: Task) { t.status == "Completed" }
  predicate IsRework(t: Task) { t.status == "Rework" }
  predicate IsPenalty(t: Task) { Contains(t.task, "PENALTY") }
  predicate Any(t: Task) { true }
  function Points(t: Task): int { t.points }
  function Confidence(t: Task): int { t.confidence }
  function Coherence(t: Task): int { t.coherence }

  /**
   * The counters over some tasks, defined by sums and counts over them:
   * points of every task, confidence and coherence of the completed ones.
   */
  function Aggregate(ts: seq<Task>): Stats
  {
    Stats(SumIf(Any, Points, ts), Count(IsCompleted, ts), SumIf(IsCompleted, Confidence, ts),
          SumIf(IsCompleted, Coherence, ts), Count(IsRework, ts), Count(IsPenalty, ts), 0, 0)
  }

  /** The averages over the completed tasks; with none, the sums are divided by 1. */
  function WithAverages(a: Stats): (r: Stats)
    ensures r == a.(avgConfidence := r.avgConfidence, avgCoherence := r.avgCoherence)
    ensures a.tasksCompleted == 0 ==> r.avgConfidence == a.confidenceSum && r.avgCoherence == a.coherenceSum
  {
    var count := if a.tasksCompleted == 0 then 1 else a.tasksCompleted;
    a.(avgConfidence := RoundDiv(a.confidenceSum, count), avgCoherence := RoundDiv(a.coherenceSum, count))
  }

  /** Averages are computed from the sums alone, so computing them twice changes nothing. */
  lemma WithAveragesIdempotent(a: Stats)
    ensures WithAverages(WithAverages(a)) == WithAverages(a)
  {
  }

  function AgentOf(t: Task): string { t.agent }

  function HasAgent(agent: string): Task -> bool
  {
    (t: Task) => t.agent == agent
  }

  /** The agents in the order of their first task. */
  function Agents(ts: seq<Task>): seq<string>
  {
    AddNew([], Map(AgentOf, ts))
  }

  /** An agent's counters after one more of its tasks. */
  function Bump(a: Stats, t: Task): Stats
  {
    a.(totalPoints := a.totalPoints + t.points,
       tasksCompleted := a.tasksCompleted + (if IsCompleted(t) then 1 else 0),
       confidenceSum := a.confidenceSum + (if IsCompleted(t) then t.confidence else 0),
       coherenceSum := a.coherenceSum + (if IsCompleted(t) then t.coherence else 0),
       reworkCount := a.reworkCount + (if IsRework(t) then 1 else 0),
       penaltyCount := a.penaltyCount + (if IsPenalty(t) then 1 else 0))
  }

  /** The sums and counts over one more task are the old ones bumped by that task. */
  lemma AggregateSnoc(ts: seq<Task>, t: Task)
    ensures Aggregate(ts + [t]) == Bump(Aggregate(ts), t)
  {
    SumIfSnoc(Any, Points, ts, t);
    SumIfSnoc(IsCompleted, Confidence, ts, t);
    SumIfSnoc(IsCompleted, Coherence, ts, t);
    CountSnoc(IsCompleted, ts, t);
    CountSnoc(IsRework, ts, t);
    CountSnoc(IsPenalty, ts, t);
  }

  /** The body of the counting loop: the task's points, and its status and penalty counters. */
  method AddTask(a: Stats, task: Task) returns (r: Stats)
    ensures r == Bump(a, task)
  {
    r := a.(totalPoints := a.totalPoints + task.points);
    if task.status == "Completed" {
      r := r.(tasksCompleted := r.tasksCompleted + 1, confidenceSum := r.confidenceSum + task.confidence,
              coherenceSum := r.coherenceSum + task.coherence);
    }
    if task.status == "Rework" {
      r := r.(reworkCount := r.reworkCount + 1);
    }
    if Contains(task.task, "PENALTY") {
      r := r.(penaltyCount := r.penaltyCount + 1);
    }
  }

  /** One more task changes only its own agent's list of tasks. */
  lemma TasksOfSnoc(ts: seq<Task>, t: Task, agent: string)
    ensures t.agent == agent ==> Filter(HasAgent(agent), ts + [t]) == Filter(HasAgent(agent), ts) + [t]
    ensures t.agent != agent ==> Filter(HasAgent(agent), ts + [t]) == Filter(HasAgent(agent), ts)
  {
    FilterSnoc(HasAgent(agent), ts, t);
    assert Filter(HasAgent(agent), ts) + [] == Filter(HasAgent(agent), ts);
  }

  /** The counters of every agent of `done`, over that agent's tasks. */
  function AggMap(done: seq<Task>): map<string, Stats>
  {
    map a | a in Agents(done) :: Aggregate(Filter(HasAgent(a), done))
  }

  /** The counters the loop finds for the agent of the next task (fresh zeros for a new agent). */
  lemma CountersBefore(done: seq<Task>, t: Task)
    ensures (if t.agent in AggMap(done) then AggMap(done)[t.agent] else ZERO) == Aggregate(Filter(HasAgent(t.agent), done))
  {
    if t.agent !in AggMap(done) {
      AddNewSpec([], Map(AgentOf, done));
      forall i | 0 <= i < |done| ensures !HasAgent(t.agent)(done[i]) {
        assert Map(AgentOf, done)[i] == done[i].agent;
      }
      FilterNone(HasAgent(t.agent), done);
    }
  }

  /** One task counted: only its agent's counters change, and the agent is added when new. */
  lemma AgentsSnoc(done: seq<Task>, t: Task)
    ensures Agents(done + [t]) == if t.agent in Agents(done) then Agents(done) else Agents(done) + [t.agent]
  {
    MapAppend(AgentOf, done, [t]);
    AddNewSnoc([], Map(AgentOf, done), t.agent);
  }

  lemma AggMapKeysSnoc(done: seq<Task>, t: Task)
    ensures AggMap(done + [t]).Keys == AggMap(done).Keys + {t.agent}
  {
    AgentsSnoc(done, t);
  }

  /** Another agent's counters do not change. */
  lemma AggMapOther(done: seq<Task>, t: Task, agent: string)
    requires agent in AggMap(done + [t]) && agent != t.agent
    ensures agent in AggMap(done) && AggMap(done + [t])[agent] == AggMap(done)[agent]
  {
    AggMapKeysSnoc(done, t);
    TasksOfSnoc(done, t, agent);
  }

  lemma AggMapSnoc(done: seq<Task>, t: Task)
    ensures AggMap(done + [t]) == AggMap(done)[t.agent := Aggregate(Filter(HasAgent(t.agent), done + [t]))]
  {
    AggMapKeysSnoc(done, t);
    var before, after := AggMap(done), AggMap(done + [t]);
    var expected := before[t.agent := Aggregate(Filter(HasAgent(t.agent), done + [t]))];
    assert after.Keys == expected.Keys;
    forall agent | agent in after ensures after[agent] == expected[agent] {
      if agent != t.agent {
        AggMapOther(done, t, agent);
      }
    }
  }

  lemma UpdateTwice(m: map<string, Stats>, k: string, v1: Stats, v2: Stats)
    ensures m[k := v1][k := v2] == m[k := v2]
  {
  }

  lemma UpdateSame(m: map<string, Stats>, k: string)
    requires k in m
    ensures m[k := m[k]] == m
  {
  }

  /** The counting loop of `calculateAggregates`. */
  method CountTasks(tasks: seq<Task>) returns (agents: seq<string>, byAgent: map<string, Stats>)
    ensures agents == Agents(tasks) && byAgent == AggMap(tasks)
  {
    agents, byAgent := [], map[];
    for i := 0 to |tasks|
      invariant agents == Agents(tasks[..i]) && byAgent == AggMap(tasks[..i])
    {
      var task := tasks[i];
      ghost var done, before := tasks[..i], byAgent;
      ghost var prev := if task.agent in byAgent then byAgent[task.agent] else ZERO;
      CountersBefore(done, task);
      TasksOfSnoc(done, task, task.agent);
      AggregateSnoc(Filter(HasAgent(task.agent), done), task);
      assert Bump(prev, task) == Aggregate(Filter(HasAgent(task.agent), done + [task]));
      AgentsSnoc(done, task);
      AggMapSnoc(done, task);
      TakeSnoc(tasks, i);
      if task.agent !in byAgent {
        byAgent := byAgent[task.agent := ZERO];
        agents := agents + [task.agent];
      } else {
        UpdateSame(before, task.agent);
      }
      var a := AddTask(byAgent[task.agent], task);
      byAgent := byAgent[task.agent := a];
      UpdateTwice(before, task.agent, prev, a);
    }
    assert tasks[..|tasks|] == tasks;
  }

  /** The averaging loop of `calculateAggregates`, over the agents in order. */
  method AddAverages(agents: seq<string>, counted: map<string, Stats>) returns (byAgent: map<string, Stats>)
    requires forall a :: a in counted <==> a in agents
    ensures byAgent.Keys == counted.Keys
    ensures forall a :: a in byAgent ==> byAgent[a] == WithAverages(counted[a])
  {
    byAgent := counted;
    for j := 0 to |agents|
      invariant byAgent.Keys == counted.Keys
      invariant forall a :: a in byAgent ==> byAgent[a] == if a in agents[..j] then WithAverages(counted[a]) else counted[a]
    {
      TakeSnoc(agents, j);
      var agent := agents[j];
      var a := byAgent[agent];
      var count := if a.tasksCompleted == 0 then 1 else a.tasksCompleted;
      a := a.(avgConfidence := RoundDiv(a.confidenceSum, count), avgCoherence := RoundDiv(a.coherenceSum, count));
      WithAveragesIdempotent(counted[agent]);
      byAgent := byAgent[agent := a];
    }
    assert agents[..|agents|] == agents;
  }

  /** `calculateAggregates`: the counters of every agent, then the averages of each. */
  method CalculateAggregates(tasks: seq<Task>) returns (agents: seq<string>, byAgent: map<string, Stats>)
    ensures agents == Agents(tasks)
    ensures forall a :: a in byAgent <==> a in agents
    ensures forall a :: a in byAgent ==> byAgent[a] == WithAverages(Aggregate(Filter(HasAgent(a), tasks)))
  {
    var counted;
    agents, counted := CountTasks(tasks);
    byAgent := AddAverages(agents, counted);
  }

  /** Every agent with a task has an entry, each agent once, and no agent without tasks has one. */
  lemma AgentsExactly(tasks: seq<Task>)
    ensures NoDup(Agents(tasks))
    ensures forall a :: a in Agents(tasks) <==> exists i :: 0 <= i < |tasks| && tasks[i].agent == a
  {
    AddNewSpec([], Map(AgentOf, tasks));
    forall a ensures a in Map(AgentOf, tasks) <==> exists i :: 0 <= i < |tasks| && tasks[i].agent == a {
      if a in Map(AgentOf, tasks) {
        var i :| 0 <= i < |tasks| && Map(AgentOf, tasks)[i] == a;
      }
      if exists i :: 0 <= i < |tasks| && tasks[i].agent == a {
        var i :| 0 <= i < |tasks| && tasks[i].agent == a;
        assert Map(AgentOf, tasks)[i] == a;
      }
    }
  }

  /** Completed and rework tasks are distinct statuses, so together they never exceed the agent's tasks. */
  lemma {:induction false} CountsBounded(ts: seq<Task>)
    ensures Count(IsCompleted, ts) + Count(IsRework, ts) <= |ts|
    ensures Count(IsPenalty, ts) <= |ts|
  {
    if ts != [] {
      CountsBounded(ts[1..]);
    }
  }

  /** With confidences and coherences in [0, 100] on the completed tasks, so are the averages. */
  lemma AveragesInRange(ts: seq<Task>)
    requires forall t :: t in ts && IsCompleted(t) ==> 0 <= t.confidence <= 100 && 0 <= t.coherence <= 100
    ensures var a := WithAverages(Aggregate(ts));
      0 <= a.avgConfidence <= 100 && 0 <= a.avgCoherence <= 100
  {
    var c := Count(IsCompleted, ts);
    var d := if c == 0 then 1 else c;
    SumIfBounds(IsCompleted, Confidence, ts, 0, 100);
    SumIfBounds(IsCompleted, Coherence, ts, 0, 100);
    RoundDivBounds(SumIf(IsCompleted, Confidence, ts), d, 0, 100);
    RoundDivBounds(SumIf(IsCompleted, Coherence, ts), d, 0, 100);
  }

  /** One leaderboard line. */
  datatype Entry = Entry(name: string, points: int)

  function ByPointsDesc(e: Entry): Key
  {
    Key(-e.points, 0)
  }

  function EntryOf(byAgent: map<string, Stats>): string -> Entry
  {
    (name: string) => Entry(name, if name in byAgent then byAgent[name].totalPoints else 0)
  }

  /** The leaderboard: every agent with its points, sorted by points descending (a stable sort). */
  function Leaderboard(agents: seq<string>, byAgent: map<string, Stats>): (r: seq<Entry>)
    ensures |r| == |agents|
    ensures multiset(r) == multiset(Map(EntryOf(byAgent), agents))
  {
    SortByPerm(Map(EntryOf(byAgent), agents), ByPointsDesc);
    SortBy(Map(EntryOf(byAgent), agents), ByPointsDesc)
  }

  /** The leaderboard has the most points first. */
  lemma LeaderboardDescending(agents: seq<string>, byAgent: map<string, Stats>, i: nat, j: nat)
    requires i < j < |agents|
    ensures Leaderboard(agents, byAgent)[i].points >= Leaderboard(agents, byAgent)[j].points
  {
    SortBySorted(Map(EntryOf(byAgent), agents), ByPointsDesc);
    assert KeyLe(ByPointsDesc(Leaderboard(agents, byAgent)[i]), ByPointsDesc(Leaderboard(agents, byAgent)[j]));
  }

  /** Agents with equal points keep the order of their first task. */
  lemma LeaderboardStable(agents: seq<string>, byAgent: map<string, Stats>, points: int)
    ensures WithKey(Leaderboard(agents, byAgent), ByPointsDesc, Key(-points, 0)) ==
            WithKey(Map(EntryOf(byAgent), agents), ByPointsDesc, Key(-points, 0))
  {
    SortByStable(Map(EntryOf(byAgent), agents), ByPointsDesc, Key(-points, 0));
  }
}
