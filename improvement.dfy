/**
 * Improvement requests (IRs): filing a request with an owner chosen from
 * the domain table, status updates that keep a history, and filtered
 * listing. The requests file is the `requests` field of a store; the clock
 * and the four random bytes of a new id are inputs.
 */
module ImprovementRequests {
  import opened Wrappers
  import opened Strings
  import opened Seqs

  /** The capability keywords in table order, and the owner of each. */
  const CAPABILITY_KEYWORDS: seq<string> :=
    ["persona", "creative", "intelligence", "virtual-teams", "systems", "infrastructure", "notion-api",
     "database", "github", "deployment", "local", "mac", "camera", "screen"]
  const CAPABILITY_OWNERS: seq<string> :=
    ["sandman", "sandman", "sandman", "sandman", "oracle", "oracle", "oracle",
     "oracle", "oracle", "oracle", "oraclelocalbot", "oraclelocalbot", "oraclelocalbot", "oraclelocalbot"]

  /**
   * `autoAssignOwner`: protocol requests go to sandman and infra or config
   * requests to oracle whatever the description says; any other request
   * goes to the owner of the first capability keyword in the lower-cased
   * description, else to sandman.
   */
  function AutoAssignOwner(irType: string, description: string): (owner: string)
    ensures irType == "protocol" ==> owner == "sandman"
    ensures irType == "infra" || irType == "config" ==> owner == "oracle"
    ensures irType !in {"protocol", "infra", "config"} ==>
      var k := FirstKeyword(LowerStr(description), CAPABILITY_KEYWORDS);
      owner == if k == -1 then "sandman" else CAPABILITY_OWNERS[k]
  {
    if irType == "protocol" then "sandman"
    else if irType == "infra" then "oracle"
    else if irType == "config" then "oracle"
    else
      var k := FirstKeyword(LowerStr(description), CAPABILITY_KEYWORDS);
      if k == -1 then "sandman" else CAPABILITY_OWNERS[k]
  }

  /** Every request gets one of the three agents. */
  lemma OwnerIsAgent(irType: string, description: string)
    ensures AutoAssignOwner(irType, description) in {"sandman", "oracle", "oraclelocalbot"}
  {
    assert forall i :: 0 <= i < |CAPABILITY_OWNERS| ==> CAPABILITY_OWNERS[i] in {"sandman", "oracle", "oraclelocalbot"};
  }

  /** The keyword test ignores letter case in the description. */
  lemma OwnerIgnoresCase(irType: string, description: string)
    ensures AutoAssignOwner(irType, description) == AutoAssignOwner(irType, LowerStr(description))
  {
    LowerIdempotent(description);
  }

  /** Keyword order decides: a description naming both a persona and a database goes to sandman. */
  lemma FirstKeywordWins(description: string)
    requires Contains(LowerStr(description), "persona")
    ensures AutoAssignOwner("capability", description) == "sandman"
  {
    assert CAPABILITY_KEYWORDS[0] == "persona";
  }

  newtype byte = x: int | 0 <= x < 256

  /** The hex digit of a value below sixteen, upper-case as the id shows it. */
  function HexDigit(d: int): (c: char)
    requires 0 <= d < 16
    ensures '0' <= c <= '9' || 'A' <= c <= 'F'
  {
    if d < 10 then ('0' as int + d) as char else ('A' as int + d - 10) as char
  }

  predicate IsHexDigit(c: char)
  {
    '0' <= c <= '9' || 'A' <= c <= 'F'
  }

  /** Two upper-case hex digits of a byte. */
  function HexByte(b: byte): (s: string)
    ensures |s| == 2 && IsHexDigit(s[0]) && IsHexDigit(s[1])
  {
    [HexDigit(b as int / 16), HexDigit(b as int % 16)]
  }

  function Hex(bs: seq<byte>): (s: string)
    ensures |s| == 2 * |bs|
    ensures forall i :: 0 <= i < |s| ==> IsHexDigit(s[i])
  {
    if bs == [] then [] else HexByte(bs[0]) + Hex(bs[1..])
  }

  /** `generateId`: "IR-" and the four random bytes as eight upper-case hex digits. */
  function GenerateId(random: seq<byte>): (id: string)
    requires |random| == 4
    ensures |id| == 11 && id[..3] == "IR-"
    ensures forall i :: 3 <= i < 11 ==> IsHexDigit(id[i])
  {
    "IR-" + Hex(random)
  }

  /** The value of a hex digit. */
  function HexValue(c: char): int
  {
    if '0' <= c <= '9' then c as int - '0' as int
    else if 'A' <= c <= 'F' then c as int - 'A' as int + 10
    else 0
  }

  /** Reading two digits back gives the byte. */
  lemma HexByteValue(b: byte)
    ensures 16 * HexValue(HexByte(b)[0]) + HexValue(HexByte(b)[1]) == b as int
  {
  }

  /** The hex text of a byte sequence determines the bytes. */
  lemma {:induction false} HexInjective(a: seq<byte>, b: seq<byte>)
    requires Hex(a) == Hex(b)
    ensures a == b
  {
    if a != [] {
      assert b != [];
      assert HexByte(a[0]) == Hex(a)[..2] == Hex(b)[..2] == HexByte(b[0]);
      HexByteValue(a[0]);
      HexByteValue(b[0]);
      assert Hex(a[1..]) == Hex(a)[2..] == Hex(b)[2..] == Hex(b[1..]);
      HexInjective(a[1..], b[1..]);
      assert a == [a[0]] + a[1..];
      assert b == [b[0]] + b[1..];
    }
  }

  /** Distinct random bytes give distinct ids. */
  lemma IdsDistinct(r1: seq<byte>, r2: seq<byte>)
    requires |r1| == 4 && |r2| == 4 && r1 != r2
    ensures GenerateId(r1) != GenerateId(r2)
  {
    if GenerateId(r1) == GenerateId(r2) {
      assert Hex(r1) == GenerateId(r1)[3..] == GenerateId(r2)[3..] == Hex(r2);
      HexInjective(r1, r2);
    }
  }

  datatype HistoryEntry = HistoryEntry(action: string, actor: string, at: int, notes: Option<string>)

  datatype Request = Request(
    id: string,
    irType: string,
    title: string,
    description: string,
    priority: string,
    owner: string,
    requester: string,
    status: string,
    createdAt: int,
    updatedAt: int,
    history: seq<HistoryEntry>)

  /** The index of the first request with this id, if any (`find`). */
  function FindIndex(rs: seq<Request>, id: string): (k: int)
    ensures k == -1 <==> forall i :: 0 <= i < |rs| ==> rs[i].id != id
    ensures k != -1 ==> 0 <= k < |rs| && rs[k].id == id && forall i :: 0 <= i < k ==> rs[i].id != id
  {
    if rs == [] then -1
    else if rs[0].id == id then 0
    else
      var k := FindIndex(rs[1..], id);
      if k == -1 then -1 else k + 1
  }

  /** `getRequest`. */
  function GetRequest(rs: seq<Request>, id: string): (r: Option<Request>)
    ensures r.None? <==> forall i :: 0 <= i < |rs| ==> rs[i].id != id
    ensures r.Some? ==> exists k :: 0 <= k < |rs| && rs[k] == r.value && r.value.id == id
                                   && forall i :: 0 <= i < k ==> rs[i].id != id
  {
    var k := FindIndex(rs, id);
    if k == -1 then None else Some(rs[k])
  }

  /** The filters of `listRequests`; an absent or empty filter lets everything through. */
  function Matches(status: Option<string>, owner: Option<string>, priority: Option<string>): Request -> bool
  {
    (r: Request) =>
      && (Truthy(status) ==> r.status == status.value)
      && (Truthy(owner) ==> r.owner == LowerStr(owner.value))
      && (Truthy(priority) ==> r.priority == priority.value)
  }

  /** `if (given) results = results.filter(keep)`: one filter stage of `listRequests`. */
  function FilterWhen(given: bool, keep: Request -> bool, rs: seq<Request>): seq<Request>
  {
    if given then Filter(keep, rs) else rs
  }

  lemma FilterWhenAppend(given: bool, keep: Request -> bool, a: seq<Request>, b: seq<Request>)
    ensures FilterWhen(given, keep, a + b) == FilterWhen(given, keep, a) + FilterWhen(given, keep, b)
  {
    if given {
      FilterAppend(keep, a, b);
    }
  }

  function StatusIs(status: string): Request -> bool { (r: Request) => r.status == status }
  function OwnerIs(owner: string): Request -> bool { (r: Request) => r.owner == LowerStr(owner) }
  function PriorityIs(priority: string): Request -> bool { (r: Request) => r.priority == priority }

  /** The source's three successive filters: status, then owner, then priority. */
  function Stages(rs: seq<Request>, status: Option<string>, owner: Option<string>, priority: Option<string>)
    : seq<Request>
  {
    var byStatus := FilterWhen(Truthy(status), StatusIs(status.GetOr("")), rs);
    var byOwner := FilterWhen(Truthy(owner), OwnerIs(owner.GetOr("")), byStatus);
    FilterWhen(Truthy(priority), PriorityIs(priority.GetOr("")), byOwner)
  }

  lemma {:induction false} StagesAppend(a: seq<Request>, b: seq<Request>, status: Option<string>,
                                        owner: Option<string>, priority: Option<string>)
    ensures Stages(a + b, status, owner, priority) == Stages(a, status, owner, priority) + Stages(b, status, owner, priority)
  {
    var f1, f2, f3 := StatusIs(status.GetOr("")), OwnerIs(owner.GetOr("")), PriorityIs(priority.GetOr(""));
    FilterWhenAppend(Truthy(status), f1, a, b);
    FilterWhenAppend(Truthy(owner), f2, FilterWhen(Truthy(status), f1, a), FilterWhen(Truthy(status), f1, b));
    FilterWhenAppend(Truthy(priority), f3, FilterWhen(Truthy(owner), f2, FilterWhen(Truthy(status), f1, a)),
                     FilterWhen(Truthy(owner), f2, FilterWhen(Truthy(status), f1, b)));
  }

  /** One request passes the three stages exactly when it passes the combined filter. */
  lemma StagesSingle(r: Request, status: Option<string>, owner: Option<string>, priority: Option<string>)
    ensures Stages([r], status, owner, priority) == if Matches(status, owner, priority)(r) then [r] else []
  {
    assert [r][1..] == [];
    var f1, f2, f3 := StatusIs(status.GetOr("")), OwnerIs(owner.GetOr("")), PriorityIs(priority.GetOr(""));
    assert Filter(f1, [r]) == if f1(r) then [r] else [];
    assert Filter(f2, [r]) == if f2(r) then [r] else [];
    assert Filter(f3, [r]) == if f3(r) then [r] else [];
  }

  /** The one combined filter lists what the three successive filters list. */
  lemma {:induction false} CombinedIsStages(rs: seq<Request>, status: Option<string>, owner: Option<string>,
                                            priority: Option<string>)
    ensures Filter(Matches(status, owner, priority), rs) == Stages(rs, status, owner, priority)
  {
    if rs != [] {
      assert rs == [rs[0]] + rs[1..];
      CombinedIsStages(rs[1..], status, owner, priority);
      StagesAppend([rs[0]], rs[1..], status, owner, priority);
      StagesSingle(rs[0], status, owner, priority);
    }
  }

  /** `listRequests`: the stored requests that pass every given filter, in stored order. */
  function ListRequests(rs: seq<Request>, status: Option<string>, owner: Option<string>, priority: Option<string>)
    : (out: seq<Request>)
    ensures |out| <= |rs|
    ensures out == Stages(rs, status, owner, priority)
  {
    CombinedIsStages(rs, status, owner, priority);
    Filter(Matches(status, owner, priority), rs)
  }

  lemma ListRequestsExactly(rs: seq<Request>, status: Option<string>, owner: Option<string>, priority: Option<string>,
                            r: Request)
    ensures r in ListRequests(rs, status, owner, priority) <==>
      && r in rs
      && (Truthy(status) ==> r.status == status.value)
      && (Truthy(owner) ==> r.owner == LowerStr(owner.value))
      && (Truthy(priority) ==> r.priority == priority.value)
  {
    FilterIn(Matches(status, owner, priority), rs, r);
  }

  /** With no filter, every request is listed. */
  lemma ListWithoutFilters(rs: seq<Request>)
    ensures ListRequests(rs, None, None, None) == rs
  {
    FilterAll(Matches(None, None, None), rs);
  }

  /** The requests file. */
  class RequestStore {
    var requests: seq<Request>

    constructor()
      ensures requests == []
    {
      requests := [];
    }

    /**
     * `fileRequest`: appends one FILED request with a one-entry history; the
     * owner is chosen automatically for "auto" (the default) and
     * lower-cased otherwise.
     */
    method FileRequest(irType: string, title: string, description: Option<string>, priority: Option<string>,
                       owner: Option<string>, requester: Option<string>, random: seq<byte>, now: int)
      returns (ir: Request)
      requires |random| == 4
      modifies this
      ensures requests == old(requests) + [ir]
      ensures ir.id == GenerateId(random) && ir.status == "FILED"
      ensures ir.history == [HistoryEntry("FILED", requester.GetOr("sandman"), now, None)]
      ensures ir.owner == if owner.GetOr("auto") == "auto" then AutoAssignOwner(irType, description.GetOr(""))
                          else LowerStr(owner.value)
      ensures ir.priority == priority.GetOr("medium")
    {
      var ownerArg := owner.GetOr("auto");
      var chosen := if ownerArg == "auto" then AutoAssignOwner(irType, description.GetOr("")) else LowerStr(ownerArg);
      var actor := requester.GetOr("sandman");
      ir := Request(GenerateId(random), irType, title, description.GetOr(""), priority.GetOr("medium"), chosen,
                    actor, "FILED", now, now, [HistoryEntry("FILED", actor, now, None)]);
      requests := requests + [ir];
    }

    /**
     * `updateStatus`: an unknown id is an error and changes nothing;
     * otherwise the first request with that id takes the status and one
     * more history entry whose action is the status.
     */
    method UpdateStatus(id: string, status: string, notes: string, actor: string, now: int) returns (r: Result<Request>)
      modifies this
      ensures FindIndex(old(requests), id) == -1 ==> r == Err("IR not found") && requests == old(requests)
      ensures FindIndex(old(requests), id) != -1 ==>
        var k := FindIndex(old(requests), id);
        && r.Ok?
        && r.value == old(requests)[k].(status := status, updatedAt := now,
                                         history := old(requests)[k].history + [HistoryEntry(status, actor, now, Some(notes))])
        && requests == old(requests)[k := r.value]
    {
      var k := FindIndex(requests, id);
      if k == -1 {
        return Err("IR not found");
      }
      var ir := requests[k];
      var updated := ir.(status := status, updatedAt := now, history := ir.history + [HistoryEntry(status, actor, now, Some(notes))]);
      requests := requests[k := updated];
      r := Ok(updated);
    }
  }
}
