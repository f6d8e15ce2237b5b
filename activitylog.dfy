/**
 * The activity log of the business-development surface: a confidence
 * bucket and a routing action for each logged routing decision, an
 * in-memory list of entries whose resolution and feedback are replaced by
 * entry id, the pending and per-session queries, and the dictionary an
 * entry is serialised to. Entry ids and the clock are inputs; a time is
 * its ISO text.
 */
module ActivityLog {
  import opened Wrappers
  import opened Seqs

  datatype SignalCategory = Blocker | Rhythm | Strategy | Coaching | Escalation | Intelligence
  {
    function Value(): string
    {
      match this
      case Blocker => "BLOCKER"
      case Rhythm => "RHYTHM"
      case Strategy => "STRATEGY"
      case Coaching => "COACHING"
      case Escalation => "ESCALATION"
      case Intelligence => "INTELLIGENCE"
    }
  }

  datatype ConfidenceLevel = High | Medium | Low | Uncertain
  {
    function Value(): string
    {
      match this
      case High => "HIGH"
      case Medium => "MEDIUM"
      case Low => "LOW"
      case Uncertain => "UNCERTAIN"
    }

    /** The order of the buckets from the least to the most confident. */
    function Rank(): nat
    {
      match this
      case Uncertain => 0
      case Low => 1
      case Medium => 2
      case High => 3
    }
  }

  /** `ConfidenceLevel.from_score`: the buckets split the scores at 0.85, 0.60 and 0.40. */
  function FromScore(score: real): (l: ConfidenceLevel)
    ensures l == High <==> score >= 0.85
    ensures l == Medium <==> 0.60 <= score < 0.85
    ensures l == Low <==> 0.40 <= score < 0.60
    ensures l == Uncertain <==> score < 0.40
  {
    if score >= 0.85 then High
    else if score >= 0.60 then Medium
    else if score >= 0.40 then Low
    else Uncertain
  }

  /** A higher score never falls in a lower bucket. */
  lemma FromScoreMonotone(a: real, b: real)
    requires a <= b
    ensures FromScore(a).Rank() <= FromScore(b).Rank()
  {
  }

  datatype ActionTaken = RouteDirect | Suggest | Clarify
  {
    function Value(): string
    {
      match this
      case RouteDirect => "route_direct"
      case Suggest => "suggest"
      case Clarify => "clarify"
    }
  }

  /** The action of a routing: direct when confident, a question when uncertain, a suggestion otherwise. */
  function ActionFor(level: ConfidenceLevel): (a: ActionTaken)
    ensures a == RouteDirect <==> level == High
    ensures a == Clarify <==> level == Uncertain
    ensures a == Suggest <==> level == Medium || level == Low
  {
    match level
    case High => RouteDirect
    case Uncertain => Clarify
    case Medium => Suggest
    case Low => Suggest
  }

  datatype ResolutionStatus = Pending | Completed | Escalated | Abandoned
  {
    function Value(): string
    {
      match this
      case Pending => "pending"
      case Completed => "completed"
      case Escalated => "escalated"
      case Abandoned => "abandoned"
    }
  }

  datatype OrgConfidence = Known | Inferred | Default
  {
    function Value(): string
    {
      match this
      case Known => "known"
      case Inferred => "inferred"
      case Default => "default"
    }
  }

  datatype ContactInfo = ContactInfo(personId: string, orgId: Option<string>, orgConfidence: OrgConfidence)

  datatype RoutingDecision = RoutingDecision(
    signalDetected: SignalCategory,
    confidence: real,
    confidenceLevel: ConfidenceLevel,
    evidence: seq<string>,
    targetAgent: string,
    fallbackAgent: Option<string>,
    ccAgents: seq<string>,
    actionTaken: ActionTaken,
    protocolId: Option<string>)

  datatype Resolution = Resolution(status: ResolutionStatus, resolvedBy: Option<string>,
                                   resolvedAt: Option<string>, outcomeSummary: Option<string>)

  /** A new entry's resolution: pending, by nobody, at no time. */
  const NO_RESOLUTION := Resolution(Pending, None, None, None)

  datatype Feedback = Feedback(routingCorrect: Option<bool>, userOverride: Option<string>, notes: Option<string>)

  const NO_FEEDBACK := Feedback(None, None, None)

  datatype Entry = Entry(
    id: string,
    timestamp: string,
    sessionId: string,
    userId: string,
    rawText: string,
    sourceChannel: string,
    contact: Option<ContactInfo>,
    routing: Option<RoutingDecision>,
    resolution: Resolution,
    feedback: Feedback)

  /** A JSON value, with the members of an object in insertion order. */
  datatype Json =
    | JNull
    | JBool(b: bool)
    | JNum(x: real)
    | JStr(s: string)
    | JArr(items: seq<Json>)
    | JObj(members: seq<(string, Json)>)

  function OptStr(o: Option<string>): Json
  {
    if o.Some? then JStr(o.value) else JNull
  }

  function OptBool(o: Option<bool>): Json
  {
    if o.Some? then JBool(o.value) else JNull
  }

  function Strs(xs: seq<string>): Json
  {
    JArr(Map((x: string) => JStr(x), xs))
  }

  function ContactJson(c: ContactInfo): Json
  {
    JObj([("person_id", JStr(c.personId)), ("org_id", OptStr(c.orgId)),
          ("org_confidence", JStr(c.orgConfidence.Value()))])
  }

  function RoutingJson(r: RoutingDecision): Json
  {
    JObj([("signal_detected", JStr(r.signalDetected.Value())),
          ("confidence", JNum(r.confidence)),
          ("confidence_level", JStr(r.confidenceLevel.Value())),
          ("evidence", Strs(r.evidence)),
          ("target_agent", JStr(r.targetAgent)),
          ("fallback_agent", OptStr(r.fallbackAgent)),
          ("cc_agents", Strs(r.ccAgents)),
          ("action_taken", JStr(r.actionTaken.Value())),
          ("protocol_id", OptStr(r.protocolId))])
  }

  function ResolutionJson(r: Resolution): Json
  {
    JObj([("status", JStr(r.status.Value())), ("resolved_by", OptStr(r.resolvedBy)),
          ("resolved_at", OptStr(r.resolvedAt)), ("outcome_summary", OptStr(r.outcomeSummary))])
  }

  function FeedbackJson(f: Feedback): Json
  {
    JObj([("routing_correct", OptBool(f.routingCorrect)), ("user_override", OptStr(f.userOverride)),
          ("notes", OptStr(f.notes))])
  }

  /** The members of a serialised entry, each with its key. */
  datatype Member = Id | Timestamp | SessionId | UserId | Input | ContactMember | RoutingMember
                  | ResolutionMember | FeedbackMember
  {
    function Key(): string
    {
      match this
      case Id => "id"
      case Timestamp => "timestamp"
      case SessionId => "session_id"
      case UserId => "user_id"
      case Input => "input"
      case ContactMember => "contact"
      case RoutingMember => "routing"
      case ResolutionMember => "resolution"
      case FeedbackMember => "feedback"
    }
  }

  /**
   * `ActivityLogEntry.to_dict`: the contact and routing members only when
   * those are set; no member name occurs twice, as in a Python dict.
   */
  function ToDict(e: Entry): (d: seq<(Member, Json)>)
    ensures |d| == 7 + (if e.contact.Some? then 1 else 0) + (if e.routing.Some? then 1 else 0)
    ensures forall i, j :: 0 <= i < j < |d| ==> d[i].0 != d[j].0
  {
    var head := [(Id, JStr(e.id)), (Timestamp, JStr(e.timestamp)), (SessionId, JStr(e.sessionId)),
                 (UserId, JStr(e.userId)),
                 (Input, JObj([("raw_text", JStr(e.rawText)), ("source_channel", JStr(e.sourceChannel))]))];
    var contact := if e.contact.Some? then [(ContactMember, ContactJson(e.contact.value))] else [];
    var routing := if e.routing.Some? then [(RoutingMember, RoutingJson(e.routing.value))] else [];
    head + contact + routing + [(ResolutionMember, ResolutionJson(e.resolution)),
                                (FeedbackMember, FeedbackJson(e.feedback))]
  }

  /** The member names of a dictionary, in order. */
  function Keys<K, V>(members: seq<(K, V)>): seq<K>
  {
    Map((m: (K, V)) => m.0, members)
  }

  /** The value of the first member named `k`, if any. */
  function Lookup<K(==), V>(members: seq<(K, V)>, k: K): (r: Option<V>)
    ensures r.Some? <==> exists i :: 0 <= i < |members| && members[i].0 == k
  {
    if members == [] then None
    else if members[0].0 == k then Some(members[0].1)
    else
      var r := Lookup(members[1..], k);
      assert r.Some? ==> exists i :: 0 <= i < |members| && members[i].0 == k by {
        if r.Some? {
          var i :| 0 <= i < |members[1..]| && members[1..][i].0 == k;
          assert members[i + 1].0 == k;
        }
      }
      r
  }

  /** Lookup finds the first member with the name. */
  lemma {:induction false} LookupFirst<K, V>(members: seq<(K, V)>, k: K, i: nat)
    requires i < |members| && members[i].0 == k
    requires forall j :: 0 <= j < i ==> members[j].0 != k
    ensures Lookup(members, k) == Some(members[i].1)
  {
    if i > 0 {
      LookupFirst(members[1..], k, i - 1);
    }
  }

  /**
   * The members of a serialised entry: the five fixed ones, `contact` and
   * `routing` exactly when set, then `resolution` and `feedback`.
   */
  lemma ToDictKeys(e: Entry)
    ensures Keys(ToDict(e)) == [Id, Timestamp, SessionId, UserId, Input]
      + (if e.contact.Some? then [ContactMember] else [])
      + (if e.routing.Some? then [RoutingMember] else [])
      + [ResolutionMember, FeedbackMember]
  {
    var d := ToDict(e);
    var f := (m: (Member, Json)) => m.0;
    var head := d[..5];
    var contact := if e.contact.Some? then [(ContactMember, ContactJson(e.contact.value))] else [];
    var routing := if e.routing.Some? then [(RoutingMember, RoutingJson(e.routing.value))] else [];
    var tail := [(ResolutionMember, ResolutionJson(e.resolution)), (FeedbackMember, FeedbackJson(e.feedback))];
    assert d == head + contact + routing + tail;
    MapAppend(f, head + contact + routing, tail);
    MapAppend(f, head + contact, routing);
    MapAppend(f, head, contact);
  }

  /** The routing member, when present, is the serialised decision; the resolution member is always there. */
  lemma ToDictRouting(e: Entry)
    requires e.routing.Some?
    ensures Lookup(ToDict(e), RoutingMember) == Some(RoutingJson(e.routing.value))
    ensures Lookup(ToDict(e), ResolutionMember) == Some(ResolutionJson(e.resolution))
  {
    var d := ToDict(e);
    var k := if e.contact.Some? then 6 else 5;
    ToDictKeys(e);
    assert d[k].0 == RoutingMember;
    LookupFirst(d, RoutingMember, k);
    LookupFirst(d, ResolutionMember, k + 1);
  }

  /** The entry `log_routing` creates. */
  function Logged(id: string, now: string, userInput: string, signal: SignalCategory, confidence: real,
                  targetAgent: string, evidence: seq<string>, sessionId: string, userId: Option<string>,
                  sourceChannel: Option<string>, contact: Option<ContactInfo>, fallbackAgent: Option<string>,
                  protocolId: Option<string>): (e: Entry)
    ensures e.routing.Some? && e.routing.value.confidenceLevel == FromScore(confidence)
    ensures e.routing.value.actionTaken == RouteDirect <==> confidence >= 0.85
    ensures e.routing.value.actionTaken == Clarify <==> confidence < 0.40
    ensures e.routing.value.actionTaken == Suggest <==> 0.40 <= confidence < 0.85
    ensures e.resolution.status == Pending && e.feedback == NO_FEEDBACK
    ensures e.id == id && e.sessionId == sessionId && e.rawText == userInput
    ensures e.userId == userId.GetOr("") && e.sourceChannel == sourceChannel.GetOr("telegram")
  {
    var level := FromScore(confidence);
    Entry(id, now, sessionId, userId.GetOr(""), userInput, sourceChannel.GetOr("telegram"), contact,
          Some(RoutingDecision(signal, confidence, level, evidence, targetAgent, fallbackAgent, [],
                               ActionFor(level), protocolId)),
          NO_RESOLUTION, NO_FEEDBACK)
  }

  /** The position of the first entry with the id. */
  function IndexOfId(es: seq<Entry>, id: string): (r: Option<nat>)
    ensures r.Some? ==> r.value < |es| && es[r.value].id == id
    ensures r.Some? ==> forall j :: 0 <= j < r.value ==> es[j].id != id
    ensures r.None? ==> forall j :: 0 <= j < |es| ==> es[j].id != id
  {
    if es == [] then None
    else if es[0].id == id then Some(0)
    else
      var r := IndexOfId(es[1..], id);
      assert r.None? ==> forall j :: 1 <= j < |es| ==> es[j].id != id by {
        if r.None? {
          forall j | 1 <= j < |es| ensures es[j].id != id {
            assert es[1..][j - 1] == es[j];
          }
        }
      }
      if r.Some? then Some(r.value + 1) else None
  }

  predicate IsPending(e: Entry)
  {
    e.resolution.status == Pending
  }

  /** Python's `s[:limit]`: a negative limit drops that many entries from the end. */
  function SliceTo<T>(s: seq<T>, limit: int): (r: seq<T>)
    ensures limit >= 0 ==> |r| == if limit <= |s| then limit else |s|
    ensures limit < 0 ==> |r| == if -limit <= |s| then |s| + limit else 0
    ensures r == s[..|r|]
  {
    if limit >= 0 then (if limit <= |s| then s[..limit] else s)
    else if -limit <= |s| then s[..|s| + limit]
    else []
  }

  /** Giving the i-th entry a new resolution changes the pending count by its old and new status only. */
  lemma {:induction false} PendingAfterUpdate(es: seq<Entry>, i: nat, e: Entry)
    requires i < |es|
    ensures Count(IsPending, es[i := e])
         == Count(IsPending, es) - (if IsPending(es[i]) then 1 else 0) + (if IsPending(e) then 1 else 0)
  {
    var a, b := es[..i], es[i + 1..];
    assert es == a + [es[i]] + b;
    assert es[i := e] == a + [e] + b;
    CountAppend(IsPending, a + [es[i]], b);
    CountAppend(IsPending, a, [es[i]]);
    CountAppend(IsPending, a + [e], b);
    CountAppend(IsPending, a, [e]);
  }

  /** The in-memory log. */
  class BDActivityLog {
    var entries: seq<Entry>

    constructor()
      ensures entries == []
    {
      entries := [];
    }

    /** `log_routing`: appends exactly one new pending entry and returns it. */
    method LogRouting(id: string, now: string, userInput: string, signal: SignalCategory, confidence: real,
                      targetAgent: string, evidence: seq<string>, sessionId: string, userId: Option<string>,
                      sourceChannel: Option<string>, contact: Option<ContactInfo>, fallbackAgent: Option<string>,
                      protocolId: Option<string>) returns (entry: Entry)
      modifies this
      ensures entry == Logged(id, now, userInput, signal, confidence, targetAgent, evidence, sessionId, userId,
                              sourceChannel, contact, fallbackAgent, protocolId)
      ensures entries == old(entries) + [entry]
    {
      entry := Logged(id, now, userInput, signal, confidence, targetAgent, evidence, sessionId, userId,
                      sourceChannel, contact, fallbackAgent, protocolId);
      entries := entries + [entry];
    }

    /** The scan shared by `resolve` and `add_feedback`: the first entry with the id. */
    method Find(entryId: string) returns (k: Option<nat>)
      ensures k == IndexOfId(entries, entryId)
    {
      var i := 0;
      while i < |entries|
        invariant i <= |entries|
        invariant forall j :: 0 <= j < i ==> entries[j].id != entryId
      {
        if entries[i].id == entryId {
          IndexOfIdIs(entries, entryId, i);
          return Some(i);
        }
        i := i + 1;
      }
      k := None;
    }

    /**
     * `resolve`: the first entry with the id gets the new resolution,
     * stamped now; an unknown id changes nothing and gives `None`.
     */
    method Resolve(entryId: string, status: ResolutionStatus, resolvedBy: string, outcome: Option<string>,
                   now: string) returns (r: Option<Entry>)
      modifies this
      ensures var k := IndexOfId(old(entries), entryId);
        && (k.None? ==> r.None? && entries == old(entries))
        && (k.Some? ==>
              && entries == old(entries)[k.value := old(entries)[k.value].(
                   resolution := Resolution(status, Some(resolvedBy), Some(now), outcome))]
              && r == Some(entries[k.value]))
    {
      var k := Find(entryId);
      if k.None? {
        return None;
      }
      var e := entries[k.value].(resolution := Resolution(status, Some(resolvedBy), Some(now), outcome));
      entries := entries[k.value := e];
      r := Some(e);
    }

    /** `add_feedback`: the first entry with the id gets the feedback; an unknown id changes nothing. */
    method AddFeedback(entryId: string, routingCorrect: bool, override: Option<string>, notes: Option<string>)
      returns (r: Option<Entry>)
      modifies this
      ensures var k := IndexOfId(old(entries), entryId);
        && (k.None? ==> r.None? && entries == old(entries))
        && (k.Some? ==>
              && entries == old(entries)[k.value := old(entries)[k.value].(
                   feedback := Feedback(Some(routingCorrect), override, notes))]
              && r == Some(entries[k.value]))
    {
      var k := Find(entryId);
      if k.None? {
        return None;
      }
      var e := entries[k.value].(feedback := Feedback(Some(routingCorrect), override, notes));
      entries := entries[k.value := e];
      r := Some(e);
    }

    /** `get_pending`: the pending entries in insertion order, cut by Python's `[:limit]`. */
    function GetPending(limit: int): (r: seq<Entry>)
      reads this
      ensures r == SliceTo(Filter(IsPending, entries), limit)
    {
      SliceTo(Filter(IsPending, entries), limit)
    }

    /** `get_by_session`: the entries of one session, in insertion order. */
    function GetBySession(sessionId: string): (r: seq<Entry>)
      reads this
      ensures r == Filter((e: Entry) => e.sessionId == sessionId, entries)
    {
      Filter((e: Entry) => e.sessionId == sessionId, entries)
    }
  }

  /** The index found by the scan is the first one. */
  lemma IndexOfIdIs(es: seq<Entry>, id: string, i: nat)
    requires i < |es| && es[i].id == id
    requires forall j :: 0 <= j < i ==> es[j].id != id
    ensures IndexOfId(es, id) == Some(i)
  {
    var r := IndexOfId(es, id);
    assert r.Some?;
  }

  /** The pending query returns only pending entries, at most `limit` for a non-negative limit, oldest first. */
  lemma GetPendingSpec(es: seq<Entry>, limit: int, x: Entry)
    ensures var r := SliceTo(Filter(IsPending, es), limit);
      && (x in r ==> x in es && IsPending(x))
      && (limit >= 0 ==> |r| <= limit)
      && r == Filter(IsPending, es)[..|r|]
  {
    var r := SliceTo(Filter(IsPending, es), limit);
    if x in r {
      FilterIn(IsPending, es, x);
    }
  }

  /** The session query returns exactly the entries of that session. */
  lemma GetBySessionExactly(es: seq<Entry>, sessionId: string, x: Entry)
    ensures x in Filter((e: Entry) => e.sessionId == sessionId, es) <==> x in es && x.sessionId == sessionId
  {
    FilterIn((e: Entry) => e.sessionId == sessionId, es, x);
  }

  /** A new entry is pending: logging adds one to the pending count. */
  lemma LoggingAddsPending(es: seq<Entry>, e: Entry)
    requires IsPending(e)
    ensures Count(IsPending, es + [e]) == Count(IsPending, es) + 1
  {
    CountSnoc(IsPending, es, e);
  }

  /**
   * Resolving an existing entry with a status other than PENDING removes
   * exactly one pending entry when that entry was pending, and none otherwise.
   */
  lemma ResolveLeavesPending(es: seq<Entry>, entryId: string, status: ResolutionStatus, resolvedBy: string,
                             outcome: Option<string>, now: string)
    requires IndexOfId(es, entryId).Some? && status != Pending
    ensures var k := IndexOfId(es, entryId).value;
      Count(IsPending, es[k := es[k].(resolution := Resolution(status, Some(resolvedBy), Some(now), outcome))])
        == Count(IsPending, es) - (if IsPending(es[k]) then 1 else 0)
  {
    var k := IndexOfId(es, entryId).value;
    PendingAfterUpdate(es, k, es[k].(resolution := Resolution(status, Some(resolvedBy), Some(now), outcome)));
  }
}
