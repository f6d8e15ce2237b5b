/**
 * The agent activity monitor: heartbeats recorded per agent, the idle
 * classification of an agent (ACTIVE, IDLE, STALE, DEAD) and the alerts
 * for stale and dead agents. The state file is the `ActivityState` object
 * and the clock is an input.
 */
module ActivityMonitor {
  import opened Wrappers
  import opened Seqs
  import opened Numbers

  const MINUTE := 60 * 1000
  const HOUR := 60 * MINUTE
  const DAY := 24 * HOUR

  /** The thresholds: idle after 30 minutes, stale after 2 hours, dead after 24 hours. */
  const IDLE_MINUTES := 30
  const STALE_HOURS := 2
  const DEAD_HOURS := 24

  /** The activities kept per agent. */
  const MAX_ACTIVITIES := 100

  datatype Activity = Activity(activityType: string, timestamp: int)

  datatype AgentRecord = AgentRecord(firstSeen: int, lastActivity: int, lastActivityType: string, activities: seq<Activity>)

  datatype Status = Active | Idle | Stale | Dead

  /** The order of the statuses from the most to the least alive. */
  function Rank(s: Status): nat
  {
    match s
    case Active => 0
    case Idle => 1
    case Stale => 2
    case Dead => 3
  }

  /**
   * The status of an agent idle for `idleMs` milliseconds; the source's
   * comparisons of minutes and hours are scaled to milliseconds.
   */
  function Classify(idleMs: int): (s: Status)
    ensures s == Active <==> idleMs < IDLE_MINUTES * MINUTE
    ensures s == Idle <==> IDLE_MINUTES * MINUTE <= idleMs < STALE_HOURS * HOUR
    ensures s == Stale <==> STALE_HOURS * HOUR <= idleMs < DEAD_HOURS * HOUR
    ensures s == Dead <==> DEAD_HOURS * HOUR <= idleMs
  {
    if idleMs < IDLE_MINUTES * MINUTE then Active
    else if idleMs < STALE_HOURS * HOUR then Idle
    else if idleMs < DEAD_HOURS * HOUR then Stale
    else Dead
  }

  /** An agent idle for longer is never classified as more alive. */
  lemma ClassifyMonotone(idle1: int, idle2: int)
    requires idle1 <= idle2
    ensures Rank(Classify(idle1)) <= Rank(Classify(idle2))
  {
  }

  /** An activity of the last 24 hours. */
  function Recent(now: int): Activity -> bool
  {
    (a: Activity) => a.timestamp > now - DAY
  }

  datatype Report =
    | Unknown
    | Report(status: Status, lastActivity: int, lastActivityType: string, idleMinutes: int, activitiesLast24h: nat)

  /** `getAgentStatus` at time `now`. */
  function GetAgentStatus(agents: map<string, AgentRecord>, name: string, now: int): (r: Report)
    ensures r.Unknown? <==> name !in agents
    ensures r.Report? ==>
      var a := agents[name];
      && r.status == Classify(now - a.lastActivity)
      && r.lastActivity == a.lastActivity && r.lastActivityType == a.lastActivityType
      && 2 * r.idleMinutes * MINUTE - MINUTE <= 2 * (now - a.lastActivity) < 2 * r.idleMinutes * MINUTE + MINUTE
      && r.activitiesLast24h == |Filter(Recent(now), a.activities)| <= |a.activities|
  {
    if name !in agents then Unknown
    else
      var a := agents[name];
      var idleMs := now - a.lastActivity;
      Report(Classify(idleMs), a.lastActivity, a.lastActivityType, RoundDiv(idleMs, MINUTE),
             |Filter(Recent(now), a.activities)|)
  }

  /** The activities counted for the last 24 hours are exactly those stamped after `now` minus a day. */
  lemma Last24hExactly(agents: map<string, AgentRecord>, name: string, now: int, x: Activity)
    requires name in agents
    ensures x in Filter(Recent(now), agents[name].activities) <==> x in agents[name].activities && x.timestamp > now - DAY
  {
    FilterIn(Recent(now), agents[name].activities, x);
  }

  /** The record of an agent after one more activity at `now`. */
  function Recorded(prev: Option<AgentRecord>, activityType: string, now: int): (rec: AgentRecord)
    ensures rec.firstSeen == if prev.Some? then prev.value.firstSeen else now
    ensures rec.lastActivity == now && rec.lastActivityType == activityType
    ensures 1 <= |rec.activities| <= MAX_ACTIVITIES
    ensures rec.activities[|rec.activities| - 1] == Activity(activityType, now)
    ensures prev.Some? ==> rec.activities == Last(prev.value.activities + [Activity(activityType, now)], MAX_ACTIVITIES)
    ensures prev.None? ==> rec.activities == [Activity(activityType, now)]
  {
    var acts := (if prev.Some? then prev.value.activities else []) + [Activity(activityType, now)];
    AgentRecord(if prev.Some? then prev.value.firstSeen else now, now, activityType, Last(acts, MAX_ACTIVITIES))
  }

  /** Right after recording, an agent is ACTIVE, idle for 0 minutes, with at least one activity in the last day. */
  lemma RecordedIsActive(agents: map<string, AgentRecord>, name: string, prev: Option<AgentRecord>,
                         activityType: string, now: int)
    ensures var r := GetAgentStatus(agents[name := Recorded(prev, activityType, now)], name, now);
      r.Report? && r.status == Active && r.idleMinutes == 0 && r.activitiesLast24h >= 1
  {
    var rec := Recorded(prev, activityType, now);
    var m := agents[name := rec];
    assert m[name] == rec;
    assert RoundDiv(0, MINUTE) == 0;
    var last := rec.activities[|rec.activities| - 1];
    FilterIn(Recent(now), rec.activities, last);
  }

  datatype Alert = Alert(agent: string, status: Status)

  /** The alert of an agent report: only STALE and DEAD agents are reported. */
  function AlertOf(all: map<string, Report>): string -> Option<Alert>
  {
    (name: string) =>
      if name in all && all[name].Report? && (all[name].status == Stale || all[name].status == Dead)
      then Some(Alert(name, all[name].status))
      else None
  }

  /** The state file: the agents in the order they were first recorded. */
  class ActivityState {
    var names: seq<string>
    var agents: map<string, AgentRecord>

    ghost predicate Valid()
      reads this
    {
      NoDup(names) && forall n :: n in agents <==> n in names
    }

    constructor()
      ensures names == [] && agents == map[] && Valid()
    {
      names := [];
      agents := map[];
    }

    /**
     * `recordActivity`: the agent's record, created on first sight, takes
     * `now` as its last activity and one more activity, keeping the last 100.
     */
    method RecordActivity(agentName: string, activityType: Option<string>, now: int) returns (rec: AgentRecord)
      requires Valid()
      modifies this
      ensures Valid()
      ensures rec == Recorded(if agentName in old(agents) then Some(old(agents)[agentName]) else None,
                              activityType.GetOr("heartbeat"), now)
      ensures agents == old(agents)[agentName := rec]
      ensures names == if agentName in old(agents) then old(names) else old(names) + [agentName]
    {
      var kind := activityType.GetOr("heartbeat");
      var entry: AgentRecord;
      if agentName !in agents {
        entry := AgentRecord(now, now, kind, []);
        names := names + [agentName];
      } else {
        entry := agents[agentName];
      }
      var activities := entry.activities + [Activity(kind, now)];
      if |activities| > MAX_ACTIVITIES {
        activities := activities[|activities| - MAX_ACTIVITIES..];
      }
      rec := entry.(lastActivity := now, lastActivityType := kind, activities := activities);
      agents := agents[agentName := rec];
    }

    /** `getAllStatus`: the report of every recorded agent. */
    method GetAllStatus(now: int) returns (all: map<string, Report>)
      requires Valid()
      ensures all.Keys == agents.Keys
      ensures forall n :: n in all ==> all[n] == GetAgentStatus(agents, n, now) && all[n].Report?
    {
      all := map[];
      for i := 0 to |names|
        invariant forall n :: n in all <==> n in names[..i]
        invariant forall n :: n in all ==> n in agents && all[n] == GetAgentStatus(agents, n, now)
      {
        assert names[..i + 1] == names[..i] + [names[i]];
        all := all[names[i] := GetAgentStatus(agents, names[i], now)];
      }
      assert names[..|names|] == names;
    }

    /** `checkAlerts`: one alert per STALE or DEAD agent, in recording order. */
    method CheckAlerts(now: int) returns (alerts: seq<Alert>)
      requires Valid()
      ensures alerts == Collect(names, AlertOf(StatusMap(now)))
    {
      var all := GetAllStatus(now);
      assert all == StatusMap(now);
      alerts := AlertsOf(names, all);
    }

    /** The reports `getAllStatus` returns. */
    function StatusMap(now: int): map<string, Report>
      reads this
    {
      map n | n in agents :: GetAgentStatus(agents, n, now)
    }
  }

  /** The loop of `checkAlerts` over the reports, in the order of `names`. */
  method AlertsOf(names: seq<string>, all: map<string, Report>) returns (alerts: seq<Alert>)
    ensures alerts == Collect(names, AlertOf(all))
  {
    alerts := [];
    for i := 0 to |names|
      invariant alerts == Collect(names[..i], AlertOf(all))
    {
      CollectSnoc(names[..i], names[i], AlertOf(all));
      assert names[..i + 1] == names[..i] + [names[i]];
      var name := names[i];
      if name in all && all[name].Report? && (all[name].status == Stale || all[name].status == Dead) {
        alerts := alerts + [Alert(name, all[name].status)];
      }
    }
    assert names[..|names|] == names;
  }

  /** An alert is raised for a recorded agent exactly when its status is STALE or DEAD. */
  lemma AlertsExactly(names: seq<string>, agents: map<string, AgentRecord>, now: int, a: Alert)
    requires forall n :: n in agents <==> n in names
    ensures a in Collect(names, AlertOf(map n | n in agents :: GetAgentStatus(agents, n, now))) <==>
      && a.agent in agents
      && a.status == Classify(now - agents[a.agent].lastActivity)
      && (a.status == Stale || a.status == Dead)
  {
    var all := map n | n in agents :: GetAgentStatus(agents, n, now);
    CollectIn(names, AlertOf(all), a);
    if a.agent in agents && a.status == Classify(now - agents[a.agent].lastActivity) && (a.status == Stale || a.status == Dead) {
      var i :| 0 <= i < |names| && names[i] == a.agent;
      assert AlertOf(all)(names[i]) == Some(a);
    }
  }
}
