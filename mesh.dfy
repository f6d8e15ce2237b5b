/**
 * Mesh resilience: which node owns which task, stale tasks (no progress for
 * thirty minutes) and their handoff to a healthy node, and the choice of a
 * node for a new task. Node health, which the source probes over HTTP, is an
 * input: the set of nodes that answered.
 */
module MeshResilience {
  import opened Wrappers
  import opened Seqs

  /** The mesh nodes, in declaration order; only `sandman` is primary. */
  const NODE_IDS: seq<string> := ["sandman", "oracle", "oraclelocal"]

  predicate IsPrimary(nodeId: string)
  {
    nodeId == "sandman"
  }

  const STALE_THRESHOLD_MS := 30 * 60 * 1000

  /** `meshStatus.healthyNodes`: the nodes that are up, in declaration order. */
  function HealthyNodes(up: set<string>): (h: seq<string>)
    ensures forall n :: n in h <==> n in NODE_IDS && n in up
  {
    var h := Filter((n: string) => n in up, NODE_IDS);
    forall n ensures n in h <==> n in NODE_IDS && n in up {
      FilterIn((n: string) => n in up, NODE_IDS, n);
    }
    h
  }

  /** One entry of the ownership table; the times are in milliseconds. */
  datatype TaskRecord = TaskRecord(
    nodeId: string,
    assignedAt: int,
    lastUpdate: int,
    description: string,
    status: string,
    completedAt: Option<int>,
    result: Option<string>,
    previousNode: Option<string>,
    handoffAt: Option<int>,
    handoffReason: Option<string>)

  /** A task is stale when it is not completed and its last update is more than thirty minutes old. */
  predicate IsStale(t: TaskRecord, now: int)
  {
    t.status != "completed" && now - t.lastUpdate > STALE_THRESHOLD_MS
  }

  /** `Math.round` of the minutes since the last update. */
  function MinutesSince(t: TaskRecord, now: int): int
  {
    ((now - t.lastUpdate) as real / 60000.0 + 0.5).Floor
  }

  /** `healthyNodes.find(n => n !== current)`. */
  function FirstOther(healthy: seq<string>, current: string): (r: Option<string>)
    ensures r.Some? ==> r.value in healthy && r.value != current
    ensures r.None? <==> forall i :: 0 <= i < |healthy| ==> healthy[i] == current
  {
    if healthy == [] then None
    else if healthy[0] != current then Some(healthy[0])
    else
      var rest := FirstOther(healthy[1..], current);
      assert forall i :: 1 <= i < |healthy| ==> healthy[i] == healthy[1..][i - 1];
      rest
  }

  /** The record of a stale task after its handoff to `to`. */
  function Moved(t: TaskRecord, to: string, now: int): TaskRecord
  {
    t.(previousNode := Some(t.nodeId), nodeId := to, handoffAt := Some(now), handoffReason := Some("stale"),
       lastUpdate := now, status := "handed_off")
  }

  /** A task's record after the handoff pass: moved when stale and another healthy node exists. */
  function Target(t: TaskRecord, healthy: seq<string>, now: int): TaskRecord
  {
    if IsStale(t, now) && FirstOther(healthy, t.nodeId).Some?
    then Moved(t, FirstOther(healthy, t.nodeId).value, now)
    else t
  }

  /** The ownership table after every stale task with a healthy other node has moved to the first such node. */
  function HandedOff(tasks: map<string, TaskRecord>, healthy: seq<string>, now: int): map<string, TaskRecord>
  {
    map id | id in tasks :: Target(tasks[id], healthy, now)
  }

  /** A table that agrees with the handoff pass on every task is its result. */
  lemma HandedOffPointwise(before: map<string, TaskRecord>, after: map<string, TaskRecord>, healthy: seq<string>, now: int)
    requires after.Keys == before.Keys
    requires forall id :: id in before ==> after[id] == Target(before[id], healthy, now)
    ensures after == HandedOff(before, healthy, now)
  {
  }

  /** Every handed-off task now sits on a healthy node other than the one it left, which it records. */
  lemma HandoffMovesToOther(tasks: map<string, TaskRecord>, healthy: seq<string>, now: int, id: string)
    requires id in tasks
    ensures var t := HandedOff(tasks, healthy, now)[id];
      (t.status == "handed_off" && tasks[id].status != "handed_off") ==>
        && t.nodeId in healthy && t.nodeId != tasks[id].nodeId
        && t.previousNode == Some(tasks[id].nodeId) && t.lastUpdate == now
  {
  }

  /** Moving only to another node: when the only healthy node is the task's own node, nothing moves. */
  lemma NoHandoffToSelf(tasks: map<string, TaskRecord>, node: string, now: int)
    requires forall id :: id in tasks ==> tasks[id].nodeId == node
    ensures HandedOff(tasks, [node], now) == tasks
  {
    forall id | id in tasks ensures HandedOff(tasks, [node], now)[id] == tasks[id] {
      assert FirstOther([node], tasks[id].nodeId).None?;
    }
  }

  /** A handed-off task is fresh again: it is not stale at the time of the handoff. */
  lemma HandedOffNotStale(tasks: map<string, TaskRecord>, healthy: seq<string>, now: int, id: string)
    requires id in tasks && IsStale(tasks[id], now) && FirstOther(healthy, tasks[id].nodeId).Some?
    ensures !IsStale(HandedOff(tasks, healthy, now)[id], now)
  {
  }

  datatype Handoff = Handoff(taskId: string, from: string, to: string, minutes: int)

  /**
   * A handoff moves a stale task from the node that held it to the first
   * healthy node other than that one, and reports its minutes without an
   * update.
   */
  predicate LegalHandoff(h: Handoff, stale: set<string>, tasks: map<string, TaskRecord>, healthy: seq<string>,
                         now: int)
  {
    && h.taskId in stale && h.taskId in tasks && h.from == tasks[h.taskId].nodeId
    && FirstOther(healthy, h.from) == Some(h.to) && h.minutes == MinutesSince(tasks[h.taskId], now)
  }

  /** The tasks the handoff pass moves: stale, with a healthy node other than their own. */
  function MovedIds(tasks: map<string, TaskRecord>, healthy: seq<string>, now: int): set<string>
  {
    set id | id in tasks && IsStale(tasks[id], now) && FirstOther(healthy, tasks[id].nodeId).Some?
  }

  /** The task ids of the reported handoffs. */
  function HandoffIds(details: seq<Handoff>): set<string>
  {
    set h | h in details :: h.taskId
  }

  datatype HandoffResult =
    | NoStaleTasks
    | NoHealthyNodes
    | Handed(handoffs: nat, details: seq<Handoff>)

  datatype BestNode = BestNode(nodeId: Option<string>, reason: string)

  /**
   * `getBestNode`: a healthy preferred node, else the healthy primary, else
   * the first healthy node, else none.
   */
  function GetBestNode(preferred: Option<string>, up: set<string>): (b: BestNode)
    ensures Truthy(preferred) && preferred.value in HealthyNodes(up) ==> b == BestNode(preferred, "preferred_healthy")
    ensures b.nodeId.Some? <==> HealthyNodes(up) != []
    ensures b.nodeId.Some? ==> b.nodeId.value in NODE_IDS && b.nodeId.value in up
    ensures b.reason == "no_healthy_nodes" <==> HealthyNodes(up) == []
    ensures b.reason == "primary_healthy" ==> IsPrimary(b.nodeId.value)
    ensures (!(Truthy(preferred) && preferred.value in HealthyNodes(up)) && "sandman" in HealthyNodes(up))
            ==> b == BestNode(Some("sandman"), "primary_healthy")
    ensures (!(Truthy(preferred) && preferred.value in HealthyNodes(up)) && "sandman" !in HealthyNodes(up)
             && HealthyNodes(up) != []) ==> b == BestNode(Some(HealthyNodes(up)[0]), "fallback_healthy")
  {
    var healthy := HealthyNodes(up);
    if Truthy(preferred) && preferred.value in healthy then BestNode(preferred, "preferred_healthy")
    else if "sandman" in healthy then BestNode(Some("sandman"), "primary_healthy")
    else if |healthy| > 0 then BestNode(Some(healthy[0]), "fallback_healthy")
    else BestNode(None, "no_healthy_nodes")
  }

  /** With the primary down, the first healthy node in declaration order is the fallback. */
  lemma FallbackToOracle()
    ensures GetBestNode(None, {"oracle", "oraclelocal"}) == BestNode(Some("oracle"), "fallback_healthy")
  {
    var h := HealthyNodes({"oracle", "oraclelocal"});
    assert "sandman" !in h;
    assert "oracle" in h;
    assert h == Filter((n: string) => n in {"oracle", "oraclelocal"}, NODE_IDS);
    assert NODE_IDS[1..] == ["oracle", "oraclelocal"];
    assert h[0] == "oracle";
  }

  /** The task ownership file. */
  class Ownership {
    var tasks: map<string, TaskRecord>

    constructor()
      ensures tasks == map[]
    {
      tasks := map[];
    }

    /** `assignTask`: (re)assigns the task to the node, fresh. */
    method AssignTask(taskId: string, nodeId: string, description: string, now: int) returns (t: TaskRecord)
      modifies this
      ensures t == TaskRecord(nodeId, now, now, description, "assigned", None, None, None, None, None)
      ensures tasks == old(tasks)[taskId := t]
    {
      t := TaskRecord(nodeId, now, now, description, "assigned", None, None, None, None, None);
      tasks := tasks[taskId := t];
    }

    /** `updateTaskProgress`: an unknown task is an error and changes nothing. */
    method UpdateTaskProgress(taskId: string, status: string, now: int) returns (r: Result<TaskRecord>)
      modifies this
      ensures taskId !in old(tasks) ==> r == Err("Task not found") && tasks == old(tasks)
      ensures taskId in old(tasks) ==>
        && r == Ok(old(tasks)[taskId].(lastUpdate := now, status := status))
        && tasks == old(tasks)[taskId := r.value]
    {
      if taskId !in tasks {
        return Err("Task not found");
      }
      var t := tasks[taskId].(lastUpdate := now, status := status);
      tasks := tasks[taskId := t];
      r := Ok(t);
    }

    /** `completeTask`: marks a known task completed; an unknown task is an error and changes nothing. */
    method CompleteTask(taskId: string, result: string, now: int) returns (r: Result<TaskRecord>)
      modifies this
      ensures taskId !in old(tasks) ==> r == Err("Task not found") && tasks == old(tasks)
      ensures taskId in old(tasks) ==>
        && r == Ok(old(tasks)[taskId].(status := "completed", completedAt := Some(now), result := Some(result)))
        && tasks == old(tasks)[taskId := r.value]
        && !IsStale(r.value, now)
    {
      if taskId !in tasks {
        return Err("Task not found");
      }
      var t := tasks[taskId].(status := "completed", completedAt := Some(now), result := Some(result));
      tasks := tasks[taskId := t];
      r := Ok(t);
    }

    /** `findStaleTasks`: the ids of exactly the stale tasks. */
    function FindStaleTasks(now: int): (s: set<string>)
      reads this
      ensures forall id :: id in s <==> id in tasks && IsStale(tasks[id], now)
    {
      set id | id in tasks && IsStale(tasks[id], now)
    }

    /**
     * `handoffStaleTasks`: with stale tasks and at least one healthy node,
     * moves each stale task to the first healthy node other than its own.
     */
    method HandoffStaleTasks(up: set<string>, now: int) returns (r: HandoffResult)
      modifies this
      ensures old(FindStaleTasks(now)) == {} ==> r == NoStaleTasks && tasks == old(tasks)
      ensures old(FindStaleTasks(now)) != {} && HealthyNodes(up) == [] ==> r == NoHealthyNodes && tasks == old(tasks)
      ensures old(FindStaleTasks(now)) != {} && HealthyNodes(up) != [] ==>
        && r.Handed?
        && tasks == HandedOff(old(tasks), HealthyNodes(up), now)
        && (forall h :: h in r.details ==> LegalHandoff(h, old(FindStaleTasks(now)), old(tasks), HealthyNodes(up), now))
        && HandoffIds(r.details) == MovedIds(old(tasks), HealthyNodes(up), now)
        && (forall i, j :: 0 <= i < j < |r.details| ==> r.details[i].taskId != r.details[j].taskId)
        && r.handoffs == |r.details| == |MovedIds(old(tasks), HealthyNodes(up), now)|
    {
      var stale := FindStaleTasks(now);
      if stale == {} {
        return NoStaleTasks;
      }
      var healthy := HealthyNodes(up);
      if healthy == [] {
        return NoHealthyNodes;
      }
      var before := tasks;
      var after, handoffs := HandoffPass(before, stale, healthy, now);
      HandedOffPointwise(before, after, healthy, now);
      tasks := after;
      r := Handed(|handoffs|, handoffs);
    }
  }

  /** Removing one pending id from the pending set moves it to the done part exactly when it is to be moved. */
  lemma DoneStep(moved: set<string>, todo: set<string>, id: string)
    requires id in todo
    ensures id in moved ==> id !in moved - todo && moved - (todo - {id}) == (moved - todo) + {id}
    ensures id !in moved ==> moved - (todo - {id}) == moved - todo
  {
  }

  lemma HandoffIdsSnoc(details: seq<Handoff>, h: Handoff)
    ensures HandoffIds(details + [h]) == HandoffIds(details) + {h.taskId}
  {
  }

  /** Handoffs of pairwise distinct tasks are as many as their task ids. */
  lemma {:induction false} DistinctIdsCount(details: seq<Handoff>)
    requires forall i, j :: 0 <= i < j < |details| ==> details[i].taskId != details[j].taskId
    ensures |HandoffIds(details)| == |details|
  {
    if details != [] {
      var init, last := details[..|details| - 1], details[|details| - 1];
      assert details == init + [last];
      DistinctIdsCount(init);
      HandoffIdsSnoc(init, last);
    }
  }

  /** The record and the handoff of one stale task, when another healthy node exists. */
  function StepOf(before: map<string, TaskRecord>, healthy: seq<string>, now: int, id: string)
    : Option<(TaskRecord, Handoff)>
    requires id in before
  {
    var current := before[id].nodeId;
    var other := FirstOther(healthy, current);
    if other.Some? then Some((Moved(before[id], other.value, now), Handoff(id, current, other.value, MinutesSince(before[id], now))))
    else None
  }

  /** What holds after the loop has visited every stale id outside `todo`. */
  predicate PassInv(before: map<string, TaskRecord>, stale: set<string>, healthy: seq<string>, now: int,
                    todo: set<string>, after: map<string, TaskRecord>, handoffs: seq<Handoff>)
  {
    && stale == (set id | id in before && IsStale(before[id], now))
    && todo <= stale
    && after.Keys == before.Keys
    && (forall id :: id in before && id !in todo ==> after[id] == Target(before[id], healthy, now))
    && (forall id :: id in todo ==> after[id] == before[id])
    && (forall h :: h in handoffs ==> LegalHandoff(h, stale, before, healthy, now))
    && HandoffIds(handoffs) == MovedIds(before, healthy, now) - todo
    && (forall i, j :: 0 <= i < j < |handoffs| ==> handoffs[i].taskId != handoffs[j].taskId)
  }

  /** The table after the loop visits `id`. */
  function NextAfter(before: map<string, TaskRecord>, healthy: seq<string>, now: int,
                     after: map<string, TaskRecord>, id: string): map<string, TaskRecord>
    requires id in before
  {
    var step := StepOf(before, healthy, now, id);
    if step.Some? then after[id := step.value.0] else after
  }

  /** The handoffs after the loop visits `id`. */
  function NextHandoffs(before: map<string, TaskRecord>, healthy: seq<string>, now: int,
                        handoffs: seq<Handoff>, id: string): seq<Handoff>
    requires id in before
  {
    var step := StepOf(before, healthy, now, id);
    if step.Some? then handoffs + [step.value.1] else handoffs
  }

  /** One loop step keeps the table part of the invariant. */
  lemma StepTable(before: map<string, TaskRecord>, stale: set<string>, healthy: seq<string>, now: int,
                  todo: set<string>, after: map<string, TaskRecord>, handoffs: seq<Handoff>, id: string)
    requires PassInv(before, stale, healthy, now, todo, after, handoffs) && id in todo
    ensures var after' := NextAfter(before, healthy, now, after, id);
      && after'.Keys == before.Keys
      && (forall x :: x in before && x !in todo - {id} ==> after'[x] == Target(before[x], healthy, now))
      && (forall x :: x in todo - {id} ==> after'[x] == before[x])
  {
  }

  /** One loop step keeps the handoff part of the invariant. */
  lemma StepHandoffs(before: map<string, TaskRecord>, stale: set<string>, healthy: seq<string>, now: int,
                     todo: set<string>, after: map<string, TaskRecord>, handoffs: seq<Handoff>, id: string)
    requires PassInv(before, stale, healthy, now, todo, after, handoffs) && id in todo
    ensures var handoffs' := NextHandoffs(before, healthy, now, handoffs, id);
      && (forall h :: h in handoffs' ==> LegalHandoff(h, stale, before, healthy, now))
      && HandoffIds(handoffs') == MovedIds(before, healthy, now) - (todo - {id})
      && (forall i, j :: 0 <= i < j < |handoffs'| ==> handoffs'[i].taskId != handoffs'[j].taskId)
  {
    var moved := MovedIds(before, healthy, now);
    DoneStep(moved, todo, id);
    var step := StepOf(before, healthy, now, id);
    if step.Some? {
      HandoffIdsSnoc(handoffs, step.value.1);
      assert id !in HandoffIds(handoffs);
    }
  }

  /** One loop step keeps the invariant. */
  lemma PassStep(before: map<string, TaskRecord>, stale: set<string>, healthy: seq<string>, now: int,
                 todo: set<string>, after: map<string, TaskRecord>, handoffs: seq<Handoff>, id: string)
    requires PassInv(before, stale, healthy, now, todo, after, handoffs) && id in todo
    ensures PassInv(before, stale, healthy, now, todo - {id}, NextAfter(before, healthy, now, after, id),
                    NextHandoffs(before, healthy, now, handoffs, id))
  {
    StepTable(before, stale, healthy, now, todo, after, handoffs, id);
    StepHandoffs(before, stale, healthy, now, todo, after, handoffs, id);
  }

  /** The invariant holds before the first step. */
  lemma PassStart(before: map<string, TaskRecord>, stale: set<string>, healthy: seq<string>, now: int)
    requires stale == set id | id in before && IsStale(before[id], now)
    ensures PassInv(before, stale, healthy, now, stale, before, [])
  {
    assert MovedIds(before, healthy, now) <= stale;
  }

  /** The loop of `handoffStaleTasks` over the stale ids. */
  method HandoffPass(before: map<string, TaskRecord>, stale: set<string>, healthy: seq<string>, now: int)
    returns (after: map<string, TaskRecord>, handoffs: seq<Handoff>)
    requires stale == set id | id in before && IsStale(before[id], now)
    ensures after.Keys == before.Keys
    ensures forall id :: id in before ==> after[id] == Target(before[id], healthy, now)
    ensures forall h :: h in handoffs ==> LegalHandoff(h, stale, before, healthy, now)
    ensures HandoffIds(handoffs) == MovedIds(before, healthy, now)
    ensures |handoffs| == |MovedIds(before, healthy, now)|
    ensures forall i, j :: 0 <= i < j < |handoffs| ==> handoffs[i].taskId != handoffs[j].taskId
  {
    after := before;
    handoffs := [];
    var todo := stale;
    PassStart(before, stale, healthy, now);
    while todo != {}
      invariant PassInv(before, stale, healthy, now, todo, after, handoffs)
      decreases todo
    {
      var id :| id in todo;
      PassStep(before, stale, healthy, now, todo, after, handoffs, id);
      after := NextAfter(before, healthy, now, after, id);
      handoffs := NextHandoffs(before, healthy, now, handoffs, id);
      todo := todo - {id};
    }
    assert MovedIds(before, healthy, now) - {} == MovedIds(before, healthy, now);
    DistinctIdsCount(handoffs);
  }
}
