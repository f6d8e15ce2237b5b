/**
 * The idle-decay calculator: agents lose points for every hour they stay
 * idle, at a rate that grows bracket by bracket, and the leaderboard is
 * updated with the decayed points and an Idle/Active status.
 */
module DecayCalculator {
  import opened Wrappers
  import opened Seqs

  /** A bracket's upper end, in hours; the last bracket is unbounded. */
  datatype Bound = Finite(hours: int) | Infinite

  /** [upper end, points per hour], in increasing order of the upper end. */
  const DECAY_SCHEDULE: seq<(Bound, int)> := [(Finite(2), 0), (Finite(6), 1), (Finite(12), 2), (Finite(24), 5), (Infinite, 10)]

  function Min(a: real, b: real): real
  {
    if a <= b then a else b
  }

  /** `Math.min(remaining, threshold - prev)`, where an infinite threshold leaves `remaining`. */
  function InBracket(threshold: Bound, remaining: real, prev: int): real
  {
    if threshold.Infinite? then remaining else Min(remaining, (threshold.hours - prev) as real)
  }

  /** The previous threshold after a bracket (irrelevant after the unbounded last one). */
  function Reached(threshold: Bound, prev: int): int
  {
    if threshold.Finite? then threshold.hours else prev
  }

  /** Where bracket `i` starts: 0, then the upper end of the bracket before it. */
  function Start(i: nat): int
    requires i < |DECAY_SCHEDULE|
  {
    if i == 0 then 0 else DECAY_SCHEDULE[i - 1].0.hours
  }

  /** The total decay in closed form: 0 up to 2 h, then 1, 2, 5 and 10 points per hour. */
  function Total(h: real): (d: real)
    ensures d >= 0.0
  {
    if h <= 2.0 then 0.0
    else if h <= 6.0 then h - 2.0
    else if h <= 12.0 then 4.0 + 2.0 * (h - 6.0)
    else if h <= 24.0 then 16.0 + 5.0 * (h - 12.0)
    else 76.0 + 10.0 * (h - 24.0)
  }

  /** `calculateDecay`: the floored total. */
  function Decay(h: real): int
  {
    Total(h).Floor
  }

  /** `calculateDecay`, the loop of the source over the schedule. */
  method CalculateDecay(hoursIdle: real) returns (decay: int)
    ensures decay == Decay(hoursIdle)
  {
    var totalDecay := 0.0;
    var remainingHours := hoursIdle;
    var prevThreshold := 0;
    var i := 0;
    while i < |DECAY_SCHEDULE|
      invariant i <= |DECAY_SCHEDULE|
      invariant i < |DECAY_SCHEDULE| ==> prevThreshold == Start(i)
      invariant i == |DECAY_SCHEDULE| ==> remainingHours <= 0.0
      invariant remainingHours > 0.0 ==>
        remainingHours == hoursIdle - prevThreshold as real && totalDecay == Total(prevThreshold as real)
      invariant remainingHours <= 0.0 ==> totalDecay == Total(hoursIdle)
    {
      if remainingHours <= 0.0 {
        break;
      }
      var threshold, rate := DECAY_SCHEDULE[i].0, DECAY_SCHEDULE[i].1;
      var hoursInBracket := InBracket(threshold, remainingHours, prevThreshold);
      totalDecay := totalDecay + hoursInBracket * rate as real;
      remainingHours := remainingHours - hoursInBracket;
      prevThreshold := Reached(threshold, prevThreshold);
      i := i + 1;
    }
    decay := totalDecay.Floor;
  }

  /** No decay for the first two idle hours, nor for a negative idle time. */
  lemma NoDecayFirstTwoHours(h: real)
    requires h <= 2.0
    ensures Decay(h) == 0
  {
  }

  /** The bracket totals: 4 after 6 h, 16 after 12 h, 76 after 24 h, then 10 per further hour. */
  lemma BracketTotals(k: nat)
    ensures Decay(6.0) == 4 && Decay(12.0) == 16 && Decay(24.0) == 76
    ensures Decay(24.0 + k as real) == 76 + 10 * k
  {
    assert Total(24.0 + k as real) == (76 + 10 * k) as real;
  }

  /** Decay never decreases with idle time and is never negative. */
  lemma DecayMonotone(h1: real, h2: real)
    requires h1 <= h2
    ensures 0 <= Decay(h1) <= Decay(h2)
  {
    assert Total(h1) <= Total(h2);
  }

  // ---------------------------------------------------------------------
  // Applying decay to the leaderboard

  /** A leaderboard row as read: name, points and the last update in ms, when present. */
  datatype Agent = Agent(id: string, name: Option<string>, points: Option<int>, lastUpdated: Option<int>)

  datatype Row = Row(name: string, points: int, hoursIdle: real, decay: int, newPoints: int, status: string)

  /** A page update sent for an agent whose decay is positive. */
  datatype Update = Update(pageId: string, newPoints: int, status: string)

  const MS_PER_HOUR := 3600000

  function Max(a: int, b: int): int
  {
    if a >= b then a else b
  }

  /** The result row of an agent with a last-update time. */
  function RowOf(a: Agent, now: int): (r: Row)
    requires a.lastUpdated.Some?
    ensures r.newPoints >= 0 && r.newPoints <= Max(0, r.points)
    ensures r.status == (if r.hoursIdle > 24.0 then "Idle" else "Active")
    ensures r.decay >= 0 && r.points == (if a.points.Some? then a.points.value else 0)
  {
    var hoursIdle := (now - a.lastUpdated.value) as real / MS_PER_HOUR as real;
    var decay := Decay(hoursIdle);
    var points := a.points.GetOr(0);
    Row(StrOr(a.name, "Unknown"), points, hoursIdle, decay, Max(0, points - decay),
        if hoursIdle > 24.0 then "Idle" else "Active")
  }

  /** The rows of `run`: agents without a last-update time are skipped. */
  function Rows(agents: seq<Agent>, now: int): (rs: seq<Row>)
    ensures |rs| <= |agents|
  {
    if agents == [] then []
    else Rows(agents[..|agents| - 1], now)
         + (if agents[|agents| - 1].lastUpdated.Some? then [RowOf(agents[|agents| - 1], now)] else [])
  }

  /** The updates of `run`: one per row with positive decay, in order. */
  function Updates(agents: seq<Agent>, now: int): (us: seq<Update>)
  {
    if agents == [] then []
    else
      var a := agents[|agents| - 1];
      Updates(agents[..|agents| - 1], now)
      + (if a.lastUpdated.Some? && RowOf(a, now).decay > 0
         then [Update(a.id, RowOf(a, now).newPoints, RowOf(a, now).status)] else [])
  }

  /** Rows and updates of one more agent. */
  lemma RunStep(agents: seq<Agent>, i: nat, now: int)
    requires i < |agents|
    ensures Rows(agents[..i + 1], now)
         == Rows(agents[..i], now) + (if agents[i].lastUpdated.Some? then [RowOf(agents[i], now)] else [])
    ensures Updates(agents[..i + 1], now)
         == Updates(agents[..i], now)
            + (if agents[i].lastUpdated.Some? && RowOf(agents[i], now).decay > 0
               then [Update(agents[i].id, RowOf(agents[i], now).newPoints, RowOf(agents[i], now).status)] else [])
  {
    assert agents[..i + 1][..i] == agents[..i];
  }

  /** `run`'s loop over the agents, with the leaderboard updates it sends as an output. */
  method Run(agents: seq<Agent>, now: int) returns (results: seq<Row>, updates: seq<Update>)
    ensures results == Rows(agents, now)
    ensures updates == Updates(agents, now)
  {
    results, updates := [], [];
    var i := 0;
    while i < |agents|
      invariant i <= |agents|
      invariant results == Rows(agents[..i], now) && updates == Updates(agents[..i], now)
    {
      RunStep(agents, i, now);
      var agent := agents[i];
      if agent.lastUpdated.None? {
        i := i + 1;
        continue;
      }
      var hoursIdle := (now - agent.lastUpdated.value) as real / MS_PER_HOUR as real;
      var decay := CalculateDecay(hoursIdle);
      var points := agent.points.GetOr(0);
      var newPoints := Max(0, points - decay);
      var status := if hoursIdle > 24.0 then "Idle" else "Active";
      if decay > 0 {
        updates := updates + [Update(agent.id, newPoints, status)];
      }
      results := results + [Row(StrOr(agent.name, "Unknown"), points, hoursIdle, decay, newPoints, status)];
      i := i + 1;
    }
    assert agents[..|agents|] == agents;
  }

  /** The agents `run` writes back: those with a last-update time and positive decay. */
  function Written(now: int): Agent -> bool
  {
    (a: Agent) => a.lastUpdated.Some? && RowOf(a, now).decay > 0
  }

  /** The row of an agent with a last-update time (an empty row for the others, which `run` skips). */
  function RowAt(now: int): Agent -> Row
  {
    (a: Agent) => if a.lastUpdated.Some? then RowOf(a, now) else Row("", 0, 0.0, 0, 0, "")
  }

  /** The page update sent for an agent `run` writes back. */
  function UpdateAt(now: int): Agent -> Update
  {
    (a: Agent) => if a.lastUpdated.Some? then Update(a.id, RowOf(a, now).newPoints, RowOf(a, now).status)
                  else Update(a.id, 0, "")
  }

  /** A row whose decay is positive. */
  predicate Positive(r: Row)
  {
    r.decay > 0
  }

  /**
   * Every row keeps its points within [0, max(0, points)] and is Idle
   * exactly after 24 idle hours.
   */
  lemma {:induction false} RowsBounded(agents: seq<Agent>, now: int)
    ensures forall r :: r in Rows(agents, now) ==>
      0 <= r.newPoints <= Max(0, r.points) && (r.status == "Idle" <==> r.hoursIdle > 24.0)
  {
    if agents != [] {
      RowsBounded(agents[..|agents| - 1], now);
    }
  }

  /** The rows with positive decay are the rows of the written-back agents, in agent order. */
  lemma {:induction false} PositiveRowsWritten(agents: seq<Agent>, now: int)
    ensures Filter(Positive, Rows(agents, now)) == Map(RowAt(now), Filter(Written(now), agents))
  {
    if agents != [] {
      var init, a := agents[..|agents| - 1], agents[|agents| - 1];
      PositiveRowsWritten(init, now);
      assert agents == init + [a];
      FilterSnoc(Written(now), init, a);
      var tail := if a.lastUpdated.Some? then [RowOf(a, now)] else [];
      FilterAppend(Positive, Rows(init, now), tail);
      MapAppend(RowAt(now), Filter(Written(now), init), if Written(now)(a) then [a] else []);
      if a.lastUpdated.Some? {
        assert Filter(Positive, tail) == if Positive(RowOf(a, now)) then tail else [];
      }
    }
  }

  /** Each written-back agent gets one update carrying its row's new points and status, in agent order. */
  lemma {:induction false} UpdatesWritten(agents: seq<Agent>, now: int)
    ensures Updates(agents, now) == Map(UpdateAt(now), Filter(Written(now), agents))
  {
    if agents != [] {
      var init, a := agents[..|agents| - 1], agents[|agents| - 1];
      UpdatesWritten(init, now);
      var last := if Written(now)(a) then [a] else [];
      assert agents == init + [a];
      FilterSnoc(Written(now), init, a);
      MapAppend(UpdateAt(now), Filter(Written(now), init), last);
      assert Map(UpdateAt(now), last) == if Written(now)(a) then [UpdateAt(now)(a)] else [];
      assert Updates(agents, now) == Updates(init, now) + Map(UpdateAt(now), last);
    }
  }
}
