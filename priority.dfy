/**
 * The priority engine: an integer weighted score over five factors, the
 * deduplicating merge of discovered tasks into the backlog, and the step that
 * queues the best-scoring backlog tasks. The backlog file, the queue file and
 * the prioritization log are the fields of a `PriorityEngine` object.
 */
module PriorityEngine {
  import opened Wrappers
  import opened Sorting
  import opened Seqs

  /** A discovered task; the five scoring inputs may be absent. */
  datatype Discovered = Discovered(
    taskId: string,
    description: string,
    taskType: string,
    source: string,
    revenueProximity: Option<string>,
    urgency: Option<string>,
    effort: Option<string>,
    blocksCount: Option<int>,
    strategicValue: Option<int>)

  /** The raw score of each factor, before weighting. */
  datatype Breakdown = Breakdown(revenue: int, urgency: int, dependencies: int, effort: int, strategic: int)

  datatype Priority = Priority(score: int, breakdown: Breakdown)

  datatype Label = HIGH | MEDIUM | LOW

  datatype QueueEntry = QueueEntry(
    taskId: string,
    description: string,
    taskType: string,
    priority: Label,
    priorityScore: int,
    assignedAgent: string,
    source: string,
    createdAt: int)

  datatype LogEntry = LogEntry(timestamp: int, discovered: nat, queued: nat, topTask: string, topScore: int)

  datatype TopEntry = TopEntry(id: string, score: int, description: string)

  datatype QueueResult =
    | NothingDiscovered
    | Queued(queued: nat, tasks: seq<string>, topPriorities: seq<TopEntry>)

  /** The weights of revenue proximity, urgency, dependencies, effort and strategic value. */
  const WEIGHTS: seq<int> := [30, 25, 20, 15, 10]

  /** The number of entries the prioritization log keeps. */
  const LOG_CAP: nat := 100

  // ------------------------------------------------------------ the tables

  function RevenueScore(k: string): (r: Option<int>)
    ensures r.Some? ==> 10 <= r.value <= 100
  {
    if k == "direct" then Some(100)
    else if k == "enables_deal" then Some(80)
    else if k == "pipeline" then Some(60)
    else if k == "capacity" then Some(40)
    else if k == "infrastructure" then Some(20)
    else if k == "nice_to_have" then Some(10)
    else None
  }

  function UrgencyScore(k: string): (r: Option<int>)
    ensures r.Some? ==> 20 <= r.value <= 100
  {
    if k == "critical" then Some(100)
    else if k == "today" then Some(80)
    else if k == "this_week" then Some(60)
    else if k == "this_month" then Some(40)
    else if k == "backlog" then Some(20)
    else None
  }

  function EffortScore(k: string): (r: Option<int>)
    ensures r.Some? ==> 20 <= r.value <= 100
  {
    if k == "trivial" then Some(100)
    else if k == "small" then Some(80)
    else if k == "medium" then Some(60)
    else if k == "large" then Some(40)
    else if k == "epic" then Some(20)
    else None
  }

  /** `TABLE[key] || d`: every table value is non-zero, so a hit is kept and a miss gives `d`. */
  function Lookup(table: string -> Option<int>, key: Option<string>, d: int): (r: int)
    ensures key.Some? && table(key.value).Some? ==> r == table(key.value).value
    ensures key.None? || table(key.value).None? ==> r == d
  {
    if key.Some? && table(key.value).Some? then table(key.value).value else d
  }

  // ---------------------------------------------------------------- scores

  /** The raw factor scores of `calculatePriority`, with their defaults. */
  function MakeBreakdown(t: Discovered): (b: Breakdown)
    ensures t.revenueProximity.None? ==> b.revenue == 30
    ensures t.urgency.None? ==> b.urgency == 40
    ensures t.effort.None? ==> b.effort == 50
    ensures 10 <= b.revenue <= 100 && 20 <= b.urgency <= 100 && 20 <= b.effort <= 100
    ensures b.dependencies == (if t.blocksCount.None? || t.blocksCount.value == 0 then 0
                               else if 25 * t.blocksCount.value < 100 then 25 * t.blocksCount.value else 100)
    ensures b.strategic == (if t.strategicValue.None? || t.strategicValue.value == 0 then 50
                            else t.strategicValue.value)
  {
    var blocks := if t.blocksCount.Some? then t.blocksCount.value else 0;
    var strategic := if t.strategicValue.Some? then t.strategicValue.value else 0;
    Breakdown(
      Lookup(RevenueScore, t.revenueProximity, 30),
      Lookup(UrgencyScore, t.urgency, 40),
      if blocks != 0 then (if 100 < blocks * 25 then 100 else blocks * 25) else 0,
      Lookup(EffortScore, t.effort, 50),
      if strategic != 0 then strategic else 50)
  }

  /** The factors in the order of the weight table. */
  function Factor(b: Breakdown, i: nat): int
    requires i < 5
  {
    match i
    case 0 => b.revenue
    case 1 => b.urgency
    case 2 => b.dependencies
    case 3 => b.effort
    case _ => b.strategic
  }

  /** The first `n` weighted terms, as the loop of `calculatePriority` adds them up. */
  function PartialSum(b: Breakdown, n: nat): int
    requires n <= 5
  {
    if n == 0 then 0 else PartialSum(b, n - 1) + Factor(b, n - 1) * WEIGHTS[n - 1]
  }

  /** The weighted sum, in hundredths of a score point. */
  function Weighted(b: Breakdown): int
  {
    30 * b.revenue + 25 * b.urgency + 20 * b.dependencies + 15 * b.effort + 10 * b.strategic
  }

  /** The loop's five steps add up to the weighted sum. */
  lemma PartialSumFull(b: Breakdown)
    ensures PartialSum(b, 5) == Weighted(b)
  {
    assert PartialSum(b, 1) == 30 * b.revenue;
    assert PartialSum(b, 2) == PartialSum(b, 1) + 25 * b.urgency;
    assert PartialSum(b, 3) == PartialSum(b, 2) + 20 * b.dependencies;
    assert PartialSum(b, 4) == PartialSum(b, 3) + 15 * b.effort;
    assert PartialSum(b, 5) == PartialSum(b, 4) + 10 * b.strategic;
  }

  /** `Math.round(x / 100)`: halves round towards positive infinity. */
  function RoundHundredths(x: int): (r: int)
    ensures 100 * r - 50 <= x < 100 * r + 50
  {
    (x + 50) / 100
  }

  function Score(b: Breakdown): int
  {
    RoundHundredths(Weighted(b))
  }

  predicate InRange(b: Breakdown)
  {
    && 0 <= b.revenue <= 100 && 0 <= b.urgency <= 100 && 0 <= b.dependencies <= 100
    && 0 <= b.effort <= 100 && 0 <= b.strategic <= 100
  }

  /** The weights add up to 100. */
  lemma WeightsSum()
    ensures WEIGHTS[0] + WEIGHTS[1] + WEIGHTS[2] + WEIGHTS[3] + WEIGHTS[4] == 100
  {
  }

  lemma RoundMonotone(x: int, y: int)
    requires x <= y
    ensures RoundHundredths(x) <= RoundHundredths(y)
  {
    var rx, ry := RoundHundredths(x), RoundHundredths(y);
    if ry < rx {
      assert false;
    }
  }

  /** Raw scores in [0, 100] give a score in [0, 100]. */
  lemma ScoreBounds(b: Breakdown)
    requires InRange(b)
    ensures 0 <= Score(b) <= 100
  {
    assert 0 <= Weighted(b) <= 10000;
    RoundMonotone(0, Weighted(b));
    RoundMonotone(Weighted(b), 10000);
  }

  /** Raising any raw factor never lowers the score. */
  lemma ScoreMonotone(b: Breakdown, c: Breakdown)
    requires b.revenue <= c.revenue && b.urgency <= c.urgency && b.dependencies <= c.dependencies
    requires b.effort <= c.effort && b.strategic <= c.strategic
    ensures Score(b) <= Score(c)
  {
    RoundMonotone(Weighted(b), Weighted(c));
  }

  /** Every task whose explicit blocks count and strategic value lie in range scores in [0, 100]. */
  lemma TaskScoreBounds(t: Discovered)
    requires t.blocksCount.None? || t.blocksCount.value >= 0
    requires t.strategicValue.None? || 0 <= t.strategicValue.value <= 100
    ensures 0 <= Score(MakeBreakdown(t)) <= 100
  {
    ScoreBounds(MakeBreakdown(t));
  }

  /** direct, critical, four or more blocked tasks, trivial and strategic value 100 score exactly 100. */
  lemma TopTaskScores100(t: Discovered)
    requires t.revenueProximity == Some("direct") && t.urgency == Some("critical")
    requires t.blocksCount.Some? && t.blocksCount.value >= 4
    requires t.effort == Some("trivial") && t.strategicValue == Some(100)
    ensures Score(MakeBreakdown(t)) == 100
  {
    var b := MakeBreakdown(t);
    assert b == Breakdown(100, 100, 100, 100, 100);
  }

  /** A strategic value of 0 is falsy and scores like an absent one. */
  lemma ZeroStrategicIsDefault(t: Discovered)
    requires t.strategicValue == Some(0)
    ensures MakeBreakdown(t) == MakeBreakdown(t.(strategicValue := None))
    ensures MakeBreakdown(t).strategic == 50
  {
  }

  /**
   * `calculatePriority`: the loop over the weight table accumulates the
   * weighted terms, and the total is rounded.
   */
  method CalculatePriority(t: Discovered) returns (p: Priority)
    ensures p.breakdown == MakeBreakdown(t)
    ensures p.score == Score(p.breakdown)
    ensures 100 * p.score - 50 <= Weighted(p.breakdown) < 100 * p.score + 50
  {
    var b := MakeBreakdown(t);
    var total := 0;
    var i := 0;
    while i < 5
      invariant 0 <= i <= 5
      invariant total == PartialSum(b, i)
    {
      total := total + Factor(b, i) * WEIGHTS[i];
      i := i + 1;
    }
    PartialSumFull(b);
    p := Priority(RoundHundredths(total), b);
  }

  /** The queue label: HIGH above 70, MEDIUM above 40, LOW otherwise. */
  function LabelOf(score: int): (l: Label)
    ensures l == HIGH <==> score > 70
    ensures l == MEDIUM <==> 40 < score <= 70
    ensures l == LOW <==> score <= 40
  {
    if score > 70 then HIGH else if score > 40 then MEDIUM else LOW
  }

  function LabelRank(l: Label): nat
  {
    match l
    case LOW => 0
    case MEDIUM => 1
    case HIGH => 2
  }

  /** A higher score never gets a lower label. */
  lemma LabelMonotone(s: int, t: int)
    requires s <= t
    ensures LabelRank(LabelOf(s)) <= LabelRank(LabelOf(t))
  {
  }

  // ----------------------------------------------------------- the backlog

  function Ids(ts: seq<Discovered>): (r: set<string>)
    ensures forall t :: t in ts ==> t.taskId in r
    ensures forall id :: id in r ==> exists t :: t in ts && t.taskId == id
  {
    if ts == [] then {} else {ts[0].taskId} + Ids(ts[1..])
  }

  /** The test `!existingIds.has(t.task_id)`. */
  function Unknown(known: set<string>): Discovered -> bool
  {
    (t: Discovered) => t.taskId !in known
  }

  /** The incoming tasks whose id is not in `known`, in order. */
  function Fresh(ts: seq<Discovered>, known: set<string>): (r: seq<Discovered>)
    ensures |r| <= |ts|
  {
    Filter(Unknown(known), ts)
  }

  /** A task is kept by the merge iff it was incoming and its id was not known. */
  lemma FreshExactly(ts: seq<Discovered>, known: set<string>, t: Discovered)
    ensures t in Fresh(ts, known) <==> t in ts && t.taskId !in known
  {
    FilterIn(Unknown(known), ts, t);
  }

  /** Merging the same batch twice adds nothing the second time. */
  lemma MergeTwiceAddsNothing(existing: seq<Discovered>, ts: seq<Discovered>)
    ensures Fresh(ts, Ids(existing + Fresh(ts, Ids(existing)))) == []
  {
    var merged := existing + Fresh(ts, Ids(existing));
    var f := Fresh(ts, Ids(merged));
    if f != [] {
      var t := f[0];
      FreshExactly(ts, Ids(merged), t);
      FreshExactly(ts, Ids(existing), t);
      assert false;
    }
  }

  // ------------------------------------------------------------ the queue

  /** The score of a prioritized task, as a sort key: highest score first. */
  function ByScoreDesc(p: (Discovered, Priority)): Key
  {
    Key(-p.1.score, 0)
  }

  function Prioritize(ts: seq<Discovered>): (r: seq<(Discovered, Priority)>)
    ensures |r| == |ts|
    ensures forall i :: 0 <= i < |ts| ==> r[i].0 == ts[i] && r[i].1.breakdown == MakeBreakdown(ts[i])
    ensures forall i :: 0 <= i < |ts| ==> r[i].1.score == Score(r[i].1.breakdown)
  {
    seq(|ts|, i requires 0 <= i < |ts| => (ts[i], Priority(Score(MakeBreakdown(ts[i])), MakeBreakdown(ts[i]))))
  }

  /** `prioritized.sort((a, b) => b.priority.score - a.priority.score)`, a stable sort. */
  function Ranked(ts: seq<Discovered>): (r: seq<(Discovered, Priority)>)
    ensures |r| == |ts|
    ensures multiset(r) == multiset(Prioritize(ts))
  {
    SortByPerm(Prioritize(ts), ByScoreDesc);
    SortBy(Prioritize(ts), ByScoreDesc)
  }

  /** The ranked list is in non-increasing score order. */
  lemma RankedDescending(ts: seq<Discovered>, i: nat, j: nat)
    requires i < j < |ts|
    ensures Ranked(ts)[i].1.score >= Ranked(ts)[j].1.score
  {
    SortBySorted(Prioritize(ts), ByScoreDesc);
    assert KeyLe(ByScoreDesc(Ranked(ts)[i]), ByScoreDesc(Ranked(ts)[j]));
  }

  /** Tasks with equal scores keep their backlog order. */
  lemma RankedStable(ts: seq<Discovered>, score: int)
    ensures WithKey(Ranked(ts), ByScoreDesc, Key(-score, 0)) == WithKey(Prioritize(ts), ByScoreDesc, Key(-score, 0))
  {
    SortByStable(Prioritize(ts), ByScoreDesc, Key(-score, 0));
  }

  /** `slice(0, n)`: a negative `n` counts from the back. */
  function Take<T>(s: seq<T>, n: int): (r: seq<T>)
    ensures n >= 0 ==> |r| == if n < |s| then n else |s|
    ensures n < 0 ==> |r| == if |s| + n > 0 then |s| + n else 0
    ensures r == s[..|r|]
  {
    if n >= 0 then (if n < |s| then s[..n] else s)
    else if |s| + n > 0 then s[..|s| + n] else []
  }

  function MakeEntry(p: (Discovered, Priority), now: int): (e: QueueEntry)
    ensures e.taskId == p.0.taskId && e.priorityScore == p.1.score && e.priority == LabelOf(p.1.score)
    ensures e.assignedAgent == "sandman" && e.createdAt == now
  {
    QueueEntry(p.0.taskId, p.0.description, p.0.taskType, LabelOf(p.1.score), p.1.score,
               "sandman", p.0.source, now)
  }

  function QueueIds(q: seq<QueueEntry>): (r: set<string>)
    ensures forall e :: e in q ==> e.taskId in r
    ensures forall id :: id in r ==> exists e :: e in q && e.taskId == id
  {
    if q == [] then {} else {q[0].taskId} + QueueIds(q[1..])
  }

  /** The test `!queuedIds.has(task.task_id)` on a prioritized task. */
  function NotQueued(queued: set<string>): ((Discovered, Priority)) -> bool
  {
    (p: (Discovered, Priority)) => p.0.taskId !in queued
  }

  /** The queue entry built for a prioritized task at time `now`. */
  function EntryAt(now: int): ((Discovered, Priority)) -> QueueEntry
  {
    (p: (Discovered, Priority)) => MakeEntry(p, now)
  }

  /**
   * The entries queued from `picked`: those whose id is not in `queued`. The
   * set is computed once before the loop, so two picked tasks with the same
   * new id are both queued.
   */
  function NewEntries(picked: seq<(Discovered, Priority)>, queued: set<string>, now: int): (r: seq<QueueEntry>)
    ensures |r| <= |picked|
  {
    Map(EntryAt(now), Filter(NotQueued(queued), picked))
  }

  /** No entry is added for an id already queued, and every picked task with a new id gets one. */
  lemma NewEntriesExactly(picked: seq<(Discovered, Priority)>, queued: set<string>, now: int, p: (Discovered, Priority))
    ensures p in picked && p.0.taskId !in queued ==> MakeEntry(p, now) in NewEntries(picked, queued, now)
    ensures forall e :: e in NewEntries(picked, queued, now) ==> e.taskId !in queued
  {
    var kept := Filter(NotQueued(queued), picked);
    FilterIn(NotQueued(queued), picked, p);
    if p in kept {
      var i :| 0 <= i < |kept| && kept[i] == p;
      assert NewEntries(picked, queued, now)[i] == MakeEntry(p, now);
    }
    forall e | e in NewEntries(picked, queued, now) ensures e.taskId !in queued {
      var i :| 0 <= i < |kept| && NewEntries(picked, queued, now)[i] == e;
      assert NotQueued(queued)(kept[i]);
    }
  }

  function EntryIds(es: seq<QueueEntry>): (r: seq<string>)
    ensures |r| == |es|
    ensures forall i :: 0 <= i < |es| ==> r[i] == es[i].taskId
  {
    seq(|es|, i requires 0 <= i < |es| => es[i].taskId)
  }

  function TopOf(r: seq<(Discovered, Priority)>): (top: seq<TopEntry>)
    ensures |top| == if |r| < 5 then |r| else 5
    ensures forall i :: 0 <= i < |top| ==> top[i].id == r[i].0.taskId && top[i].score == r[i].1.score
  {
    var firstFive := Take(r, 5);
    seq(|firstFive|, i requires 0 <= i < |firstFive| =>
      var d := firstFive[i].0.description;
      TopEntry(firstFive[i].0.taskId, firstFive[i].1.score, if |d| <= 50 then d else d[..50]))
  }

  // --------------------------------------------------------------- object

  class PriorityEngine {
    /** The discovered-task backlog file. */
    var discovered: seq<Discovered>
    /** The task queue file. */
    var queue: seq<QueueEntry>
    /** The prioritization log file. */
    var log: seq<LogEntry>

    constructor ()
      ensures discovered == [] && queue == [] && log == []
    {
      discovered := [];
      queue := [];
      log := [];
    }

    /**
     * `saveDiscoveredTasks`: existing entries stay as they are and in order,
     * and only the incoming tasks whose id is not already in the backlog are
     * appended; the result is how many were appended.
     */
    method SaveDiscoveredTasks(ts: seq<Discovered>) returns (added: nat)
      modifies this
      ensures discovered == old(discovered) + Fresh(ts, Ids(old(discovered)))
      ensures added == |discovered| - |old(discovered)|
      ensures queue == old(queue) && log == old(log)
    {
      var incoming := Fresh(ts, Ids(discovered));
      discovered := discovered + incoming;
      added := |incoming|;
    }

    /** `logPrioritization`: one entry appended, then only the last 100 kept. */
    method LogPrioritization(ranked: seq<(Discovered, Priority)>, newlyQueued: nat, now: int)
      requires |ranked| > 0
      modifies this
      ensures log == Capped(old(log), LogEntry(now, |ranked|, newlyQueued, ranked[0].0.taskId, ranked[0].1.score), LOG_CAP)
      ensures |log| <= LOG_CAP
      ensures discovered == old(discovered) && queue == old(queue)
    {
      var entry := LogEntry(now, |ranked|, newlyQueued, ranked[0].0.taskId, ranked[0].1.score);
      log := log + [entry];
      if |log| > LOG_CAP {
        log := log[|log| - LOG_CAP..];
      }
    }

    /**
     * The loop of `prioritizeAndQueue` over the picked tasks: each one whose
     * id is not in `queuedIds` gets a queue entry, in order.
     */
    method QueuePicked(picked: seq<(Discovered, Priority)>, queuedIds: set<string>, now: int) returns (newly: seq<string>)
      modifies this
      ensures queue == old(queue) + NewEntries(picked, queuedIds, now)
      ensures newly == EntryIds(NewEntries(picked, queuedIds, now))
      ensures discovered == old(discovered) && log == old(log)
    {
      newly := [];
      var i := 0;
      while i < |picked|
        invariant 0 <= i <= |picked|
        invariant queue == old(queue) + NewEntries(picked[..i], queuedIds, now)
        invariant newly == EntryIds(NewEntries(picked[..i], queuedIds, now))
        invariant discovered == old(discovered) && log == old(log)
      {
        NewEntriesSnoc(picked[..i], picked[i], queuedIds, now);
        assert picked[..i + 1] == picked[..i] + [picked[i]];
        if picked[i].0.taskId !in queuedIds {
          queue := queue + [MakeEntry(picked[i], now)];
          newly := newly + [picked[i].0.taskId];
        }
        i := i + 1;
      }
      assert picked[..|picked|] == picked;
    }

    /**
     * `prioritizeAndQueue`: an empty backlog writes nothing. Otherwise the
     * backlog is scored and ranked, `slice(0, maxTasks)` of it is taken (a
     * negative count leaves out that many from the back), those
     * whose id is not yet queued are appended (existing queue entries are left
     * unchanged), and one log entry is written.
     */
    method PrioritizeAndQueue(maxTasks: int, now: int) returns (r: QueueResult)
      modifies this
      ensures old(discovered) == [] ==> r == NothingDiscovered && queue == old(queue) && log == old(log)
      ensures old(discovered) != [] ==>
        var ranked := Ranked(old(discovered));
        var added := NewEntries(Take(ranked, maxTasks), QueueIds(old(queue)), now);
        && queue == old(queue) + added
        && r == Queued(|added|, EntryIds(added), TopOf(ranked))
        && log == Capped(old(log), LogEntry(now, |ranked|, |added|, ranked[0].0.taskId, ranked[0].1.score), LOG_CAP)
      ensures r.Queued? && maxTasks >= 0 ==> r.queued <= maxTasks
      ensures r.Queued? && maxTasks < 0 ==> r.queued == 0 || r.queued <= |old(discovered)| + maxTasks
      ensures discovered == old(discovered)
    {
      if discovered == [] {
        return NothingDiscovered;
      }
      var ranked := Ranked(discovered);
      var picked := Take(ranked, maxTasks);
      var newly := QueuePicked(picked, QueueIds(queue), now);
      LogPrioritization(ranked, |newly|, now);
      r := Queued(|newly|, newly, TopOf(ranked));
    }
  }

  /** Extending the picked list by one task extends the new entries by at most that task's entry. */
  lemma NewEntriesSnoc(ps: seq<(Discovered, Priority)>, p: (Discovered, Priority), queued: set<string>, now: int)
    ensures NewEntries(ps + [p], queued, now)
         == NewEntries(ps, queued, now) + (if p.0.taskId in queued then [] else [MakeEntry(p, now)])
  {
    FilterSnoc(NotQueued(queued), ps, p);
    var kept := Filter(NotQueued(queued), ps);
    MapAppend(EntryAt(now), kept, if NotQueued(queued)(p) then [p] else []);
  }
}
