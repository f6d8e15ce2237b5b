/**
 * The feedback loop over improvement requests: a completed request is
 * logged as pending verification, then verified (pending its outcome), then
 * given an outcome score (complete); lessons are captured along the way and
 * a rollup averages the outcome scores. The state file is the fields of a
 * store; the improvement requests, the clock and the date are inputs, and
 * the learning log is a text field that lessons append to.
 */
module FeedbackLoop {
  import opened Wrappers
  import opened Strings
  import opened Seqs
  import IR = ImprovementRequests

  datatype OutcomeCheck = OutcomeCheck(score: Option<int>, problemSolved: bool, notes: string)

  /** One feedback entry; the verification and outcome fields are set by the later steps. */
  datatype Entry = Entry(
    irId: string,
    title: string,
    implementedBy: string,
    implementedAt: int,
    deliverable: string,
    status: string,
    verifiedAt: Option<int>,
    verificationMethod: Option<string>,
    verificationNotes: Option<string>,
    outcomeCheckedAt: Option<int>,
    outcome: Option<OutcomeCheck>)

  datatype Lesson = Lesson(irId: string, title: string, lesson: string, capturedAt: int)

  /** The whole feedback state, with the learning log beside it. */
  datatype State = State(
    feedback: seq<Entry>,
    pendingVerification: seq<string>,
    pendingOutcome: seq<string>,
    lessons: seq<Lesson>,
    learningLog: string)

  const LESSONS_CAP := 50

  /** The index of the first entry for this request (`feedback.find`), or -1. */
  function FindEntry(fs: seq<Entry>, irId: string): (k: int)
    ensures k == -1 <==> forall i :: 0 <= i < |fs| ==> fs[i].irId != irId
    ensures k != -1 ==> 0 <= k < |fs| && fs[k].irId == irId && forall i :: 0 <= i < k ==> fs[i].irId != irId
  {
    if fs == [] then -1
    else if fs[0].irId == irId then 0
    else
      var k := FindEntry(fs[1..], irId);
      if k == -1 then -1 else k + 1
  }

  function Other(irId: string): string -> bool
  {
    (id: string) => id != irId
  }

  /** `ids.filter(id => id !== irId)`: every occurrence removed, the rest kept in order. */
  function Without(ids: seq<string>, irId: string): (r: seq<string>)
    ensures forall x :: x in r <==> x in ids && x != irId
  {
    var r := Filter(Other(irId), ids);
    forall x ensures x in r <==> x in ids && x != irId {
      FilterIn(Other(irId), ids, x);
    }
    r
  }

  /** The state after `complete` for a known request. */
  function Completed(st: State, ir: IR.Request, deliverable: string, implementedBy: string, now: int): State
  {
    var e := Entry(ir.id, ir.title, implementedBy, now, deliverable, "pending_verification", None, None, None, None, None);
    st.(feedback := st.feedback + [e], pendingVerification := st.pendingVerification + [ir.id])
  }

  /** The state after `verify` of the entry at `k`. */
  function Verified(st: State, k: nat, how: string, notes: string, now: int): State
    requires k < |st.feedback|
  {
    var e := st.feedback[k];
    st.(feedback := st.feedback[k := e.(verifiedAt := Some(now), verificationMethod := Some(how),
                                        verificationNotes := Some(notes), status := "pending_outcome")],
        pendingVerification := Without(st.pendingVerification, e.irId),
        pendingOutcome := st.pendingOutcome + [e.irId])
  }

  /** The state after `outcome` for the entry at `k`. */
  function OutcomeRecorded(st: State, k: nat, score: string, notes: string, solved: bool, now: int): State
    requires k < |st.feedback|
  {
    var e := st.feedback[k];
    st.(feedback := st.feedback[k := e.(outcomeCheckedAt := Some(now),
                                        outcome := Some(OutcomeCheck(ParseInt(score), solved, notes)),
                                        status := "complete")],
        pendingOutcome := Without(st.pendingOutcome, e.irId))
  }

  /** The lesson title: the entry's title when there is a non-empty one, else "Unknown". */
  function LessonTitle(fs: seq<Entry>, irId: string): string
  {
    var k := FindEntry(fs, irId);
    if k != -1 && fs[k].title != "" then fs[k].title else "Unknown"
  }

  /** The learning-log section of a lesson, headed by the date and the title (or the request id). */
  function LogSection(fs: seq<Entry>, irId: string, text: string, date: string): string
  {
    var k := FindEntry(fs, irId);
    var heading := if k != -1 && fs[k].title != "" then fs[k].title else irId;
    "\n## " + date + " — " + heading + "\n\n" + text + "\n"
  }

  /** The state after `lesson`. */
  function LessonCaptured(st: State, irId: string, text: string, date: string, now: int): State
  {
    st.(lessons := Capped(st.lessons, Lesson(irId, LessonTitle(st.feedback, irId), text, now), LESSONS_CAP),
        learningLog := st.learningLog + LogSection(st.feedback, irId, text, date))
  }

  /** After `complete` of a request with no entry, its first entry is the new last one. */
  lemma FindAfterComplete(st: State, ir: IR.Request, deliverable: string, implementer: string, now: int)
    requires FindEntry(st.feedback, ir.id) == -1
    ensures FindEntry(Completed(st, ir, deliverable, implementer, now).feedback, ir.id) == |st.feedback|
  {
    assert Completed(st, ir, deliverable, implementer, now).feedback[|st.feedback|].irId == ir.id;
  }

  /** `verify` and `outcome` keep every entry's request id, so the first entry for a request stays put. */
  lemma FindAfterUpdate(fs: seq<Entry>, k: nat, e: Entry, irId: string)
    requires k < |fs| && e.irId == fs[k].irId
    ensures FindEntry(fs[k := e], irId) == FindEntry(fs, irId)
  {
    var gs := fs[k := e];
    assert forall i :: 0 <= i < |fs| ==> gs[i].irId == fs[i].irId;
  }

  /**
   * The documented flow: for a request with no feedback entry yet,
   * complete → verify → outcome leaves one new entry with status complete,
   * the earlier entries untouched, the id off both pending lists (unless it
   * was pending verification before) and on no pending-outcome list.
   */
  lemma FlowReachesComplete(st: State, ir: IR.Request, deliverable: string, implementer: string, how: string, vnotes: string,
                            score: string, onotes: string, solved: bool, t1: int, t2: int, t3: int)
    requires FindEntry(st.feedback, ir.id) == -1
    ensures var s1 := Completed(st, ir, deliverable, implementer, t1);
      var n := |st.feedback|;
      && FindEntry(s1.feedback, ir.id) == n
      && var s2 := Verified(s1, n, how, vnotes, t2);
      && FindEntry(s2.feedback, ir.id) == n
      && var s3 := OutcomeRecorded(s2, n, score, onotes, solved, t3);
      && |s3.feedback| == n + 1 && s3.feedback[..n] == st.feedback
      && s3.feedback[n].status == "complete"
      && s3.feedback[n].outcome == Some(OutcomeCheck(ParseInt(score), solved, onotes))
      && ir.id !in s3.pendingOutcome
      && (forall x :: x in s3.pendingVerification <==> x in st.pendingVerification && x != ir.id)
  {
    var s1 := Completed(st, ir, deliverable, implementer, t1);
    var n := |st.feedback|;
    FindAfterComplete(st, ir, deliverable, implementer, t1);
    var s2 := Verified(s1, n, how, vnotes, t2);
    FindAfterUpdate(s1.feedback, n, s2.feedback[n], ir.id);
    var s3 := OutcomeRecorded(s2, n, score, onotes, solved, t3);
    assert s3.feedback[..n] == s2.feedback[..n] == s1.feedback[..n] == st.feedback;
  }

  /** Recording an outcome without verifying first leaves the request pending verification. */
  lemma OutcomeWithoutVerifyStaysPending(st: State, ir: IR.Request, deliverable: string, implementer: string,
                                         score: string, notes: string, solved: bool, t1: int, t2: int)
    requires FindEntry(st.feedback, ir.id) == -1
    ensures var s1 := Completed(st, ir, deliverable, implementer, t1);
      var n := |st.feedback|;
      && FindEntry(s1.feedback, ir.id) == n
      && var s2 := OutcomeRecorded(s1, n, score, notes, solved, t2);
      && s2.feedback[n].status == "complete"
      && ir.id in s2.pendingVerification
  {
    var s1 := Completed(st, ir, deliverable, implementer, t1);
    assert s1.feedback[|st.feedback|].irId == ir.id;
    assert s1.pendingVerification[|st.pendingVerification|] == ir.id;
  }

  /** The lesson list is the last fifty lessons ever captured. */
  lemma LessonsAreLastFifty(st: State, irId: string, text: string, date: string, now: int)
    ensures var s := LessonCaptured(st, irId, text, date, now);
      && s.lessons == Last(st.lessons + [Lesson(irId, LessonTitle(st.feedback, irId), text, now)], LESSONS_CAP)
      && |s.lessons| <= LESSONS_CAP
      && s.feedback == st.feedback
  {
    CappedIsLast(st.lessons, Lesson(irId, LessonTitle(st.feedback, irId), text, now), LESSONS_CAP);
  }

  /** A lesson for a request without a feedback entry is titled Unknown and logged under the request id. */
  lemma LessonForUnknownRequest(fs: seq<Entry>, irId: string, text: string, date: string)
    requires forall i :: 0 <= i < |fs| ==> fs[i].irId != irId
    ensures LessonTitle(fs, irId) == "Unknown"
    ensures LogSection(fs, irId, text, date) == "\n## " + date + " — " + irId + "\n\n" + text + "\n"
  {
  }

  predicate IsComplete(e: Entry)
  {
    e.status == "complete"
  }

  /** `f.outcome?.score || 0`: a missing or unparsable score counts as zero. */
  function ScoreOf(e: Entry): int
  {
    if e.outcome.Some? && e.outcome.value.score.Some? then e.outcome.value.score.value else 0
  }

  function SumScores(es: seq<Entry>): int
  {
    if es == [] then 0 else SumScores(es[..|es| - 1]) + ScoreOf(es[|es| - 1])
  }

  /** A sum of scores that each lie in [lo, hi] lies between |es|·lo and |es|·hi. */
  lemma {:induction false} SumScoresBounds(es: seq<Entry>, lo: int, hi: int)
    requires forall i :: 0 <= i < |es| ==> lo <= ScoreOf(es[i]) <= hi
    ensures |es| * lo <= SumScores(es) <= |es| * hi
  {
    if es != [] {
      var n := |es| - 1;
      SumScoresBounds(es[..n], lo, hi);
      assert SumScores(es) == SumScores(es[..n]) + ScoreOf(es[n]);
      assert |es| * lo == n * lo + lo && |es| * hi == n * hi + hi;
    }
  }

  /** The mean of `n` values summing to `sum`. */
  function Mean(sum: int, n: nat): (m: real)
    requires n > 0
    ensures m * n as real == sum as real
  {
    sum as real / n as real
  }

  /** A mean of values that each lie in [lo, hi] lies in [lo, hi]. */
  lemma MeanBounds(sum: int, n: nat, lo: int, hi: int)
    requires n > 0 && n * lo <= sum <= n * hi
    ensures lo as real <= Mean(sum, n) <= hi as real
  {
    var m := Mean(sum, n);
    var nr := n as real;
    assert (n * lo) as real == nr * lo as real;
    assert (n * hi) as real == nr * hi as real;
    assert m < lo as real ==> m * nr < lo as real * nr;
    assert m > hi as real ==> m * nr > hi as real * nr;
  }

  /** Preview of a lesson in the rollup: its first sixty characters and an ellipsis. */
  function Preview(l: Lesson): string
  {
    (if |l.lesson| <= 60 then l.lesson else l.lesson[..60]) + "..."
  }

  datatype Rollup = Rollup(
    completed: nat,
    averageScore: real,
    pendingVerification: nat,
    pendingOutcome: nat,
    lessons: nat,
    recentLessons: seq<string>)

  /** The state file. */
  class FeedbackStore {
    var feedback: seq<Entry>
    var pendingVerification: seq<string>
    var pendingOutcome: seq<string>
    var lessons: seq<Lesson>
    var learningLog: string

    function Snapshot(): State
      reads this
    {
      State(feedback, pendingVerification, pendingOutcome, lessons, learningLog)
    }

    constructor(log: string)
      ensures Snapshot() == State([], [], [], [], log)
    {
      feedback := [];
      pendingVerification := [];
      pendingOutcome := [];
      lessons := [];
      learningLog := log;
    }

    /** `complete`: an unknown request changes nothing; a known one starts a feedback entry. */
    method Complete(irId: string, deliverable: string, implementedBy: string, requests: seq<IR.Request>, now: int)
      returns (r: Option<Entry>)
      modifies this
      ensures IR.GetRequest(requests, irId).None? ==> r == None && Snapshot() == old(Snapshot())
      ensures IR.GetRequest(requests, irId).Some? ==>
        && Snapshot() == Completed(old(Snapshot()), IR.GetRequest(requests, irId).value, deliverable, implementedBy, now)
        && r == Some(feedback[|feedback| - 1])
    {
      var ir := IR.GetRequest(requests, irId);
      if ir.None? {
        return None;
      }
      var e := Entry(irId, ir.value.title, implementedBy, now, deliverable, "pending_verification",
                     None, None, None, None, None);
      feedback := feedback + [e];
      pendingVerification := pendingVerification + [irId];
      r := Some(e);
    }

    /** `verify`: with no entry nothing changes; otherwise the first entry moves to pending outcome. */
    method Verify(irId: string, how: string, notes: string, now: int) returns (r: Option<Entry>)
      modifies this
      ensures FindEntry(old(feedback), irId) == -1 ==> r == None && Snapshot() == old(Snapshot())
      ensures FindEntry(old(feedback), irId) != -1 ==>
        && Snapshot() == Verified(old(Snapshot()), FindEntry(old(feedback), irId), how, notes, now)
        && r == Some(feedback[FindEntry(old(feedback), irId)])
    {
      var k := FindEntry(feedback, irId);
      if k == -1 {
        return None;
      }
      var e := feedback[k].(verifiedAt := Some(now), verificationMethod := Some(how),
                            verificationNotes := Some(notes), status := "pending_outcome");
      feedback := feedback[k := e];
      pendingVerification := Without(pendingVerification, irId);
      pendingOutcome := pendingOutcome + [irId];
      r := Some(e);
    }

    /** `outcome`: with no entry nothing changes; otherwise the first entry is complete with the parsed score. */
    method RecordOutcome(irId: string, score: string, notes: string, problemSolved: bool, now: int)
      returns (r: Option<Entry>)
      modifies this
      ensures FindEntry(old(feedback), irId) == -1 ==> r == None && Snapshot() == old(Snapshot())
      ensures FindEntry(old(feedback), irId) != -1 ==>
        && Snapshot() == OutcomeRecorded(old(Snapshot()), FindEntry(old(feedback), irId), score, notes, problemSolved, now)
        && r == Some(feedback[FindEntry(old(feedback), irId)])
    {
      var k := FindEntry(feedback, irId);
      if k == -1 {
        return None;
      }
      var e := feedback[k].(outcomeCheckedAt := Some(now), outcome := Some(OutcomeCheck(ParseInt(score), problemSolved, notes)),
                            status := "complete");
      feedback := feedback[k := e];
      pendingOutcome := Without(pendingOutcome, irId);
      r := Some(e);
    }

    /** `lesson`: appends the lesson, keeping the last fifty, and appends a section to the learning log. */
    method CaptureLesson(irId: string, text: string, date: string, now: int) returns (l: Lesson)
      modifies this
      ensures l == Lesson(irId, LessonTitle(old(feedback), irId), text, now)
      ensures Snapshot() == LessonCaptured(old(Snapshot()), irId, text, date, now)
    {
      l := Lesson(irId, LessonTitle(feedback, irId), text, now);
      var kept := lessons + [l];
      if |kept| > LESSONS_CAP {
        kept := kept[|kept| - LESSONS_CAP..];
      }
      lessons := kept;
      learningLog := learningLog + LogSection(feedback, irId, text, date);
    }
  }

  /** A filter that keeps nothing met no element that passes. */
  lemma NoneComplete(fs: seq<Entry>)
    requires Filter(IsComplete, fs) == []
    ensures forall i :: 0 <= i < |fs| ==> !IsComplete(fs[i])
  {
    forall i | 0 <= i < |fs| ensures !IsComplete(fs[i]) {
      FilterIn(IsComplete, fs, fs[i]);
    }
  }

  /**
   * `rollup`: nothing without a completed entry; otherwise the number of
   * completed entries, the mean of their scores, the pending counts and
   * previews of the last five lessons.
   */
  function RollupOf(st: State): (r: Option<Rollup>)
    ensures r.None? <==> forall i :: 0 <= i < |st.feedback| ==> !IsComplete(st.feedback[i])
    ensures r.Some? ==>
      var done := Filter(IsComplete, st.feedback);
      && r.value.completed == |done| > 0
      && r.value.averageScore == Mean(SumScores(done), |done|)
      && r.value.pendingVerification == |st.pendingVerification| && r.value.pendingOutcome == |st.pendingOutcome|
      && r.value.lessons == |st.lessons| && |r.value.recentLessons| <= 5
  {
    var done := Filter(IsComplete, st.feedback);
    if done == [] then
      NoneComplete(st.feedback);
      None
    else
      FilterIn(IsComplete, st.feedback, done[0]);
      Some(Rollup(|done|, Mean(SumScores(done), |done|), |st.pendingVerification|, |st.pendingOutcome|,
                  |st.lessons|, Map(Preview, Last(st.lessons, 5))))
  }

  /** With every completed score on the one-to-ten scale (or missing), the average stays within zero to ten. */
  lemma AverageOnScale(st: State)
    requires forall i :: 0 <= i < |st.feedback| && IsComplete(st.feedback[i]) ==> 0 <= ScoreOf(st.feedback[i]) <= 10
    ensures RollupOf(st).Some? ==> 0.0 <= RollupOf(st).value.averageScore <= 10.0
  {
    var done := Filter(IsComplete, st.feedback);
    forall i | 0 <= i < |done| ensures 0 <= ScoreOf(done[i]) <= 10 {
      FilterIn(IsComplete, st.feedback, done[i]);
    }
    SumScoresBounds(done, 0, 10);
    if done != [] {
      MeanBounds(SumScores(done), |done|, 0, 10);
    }
  }
}
