/**
 * The coherence screener for data rooms: which required documents are
 * missing, which cross-referenced figures disagree between sources, which
 * claims lack evidence, and the HOLD / PROCEED recommendation drawn from
 * the findings.
 */
module CoherenceScreener {
  import opened Wrappers
  import opened Strings
  import opened Seqs

  datatype Severity = CRITICAL | HIGH | MEDIUM | ADVISORY

  /** One finding: its type tag, severity, the document, check or claim it is about, and its message. */
  datatype Finding = Finding(kind: string, severity: Severity, subject: string, message: string)

  // ---------------------------------------------------------------------
  // Completeness

  const ALL_DOCS: seq<string> :=
    ["Executive Summary / Pitch Deck", "Financial Model", "Cap Table", "Legal Formation Docs", "Management Bios"]

  /**
   * `REQUIRED_DOCS[programType] || []`. `ALL` is itself a key of the
   * table, so the program type `ALL` gets the common documents.
   */
  function ProgramDocs(programType: string): (docs: seq<string>)
    ensures programType == "ALL" ==> docs == ALL_DOCS
    ensures !KnownProgram(programType) && programType != "ALL" ==> docs == []
    ensures KnownProgram(programType) ==> |docs| == 4
  {
    if programType == "ALL" then ALL_DOCS
    else if programType == "SPV" then
      ["Asset Purchase Agreement", "Asset Valuation", "Escrow Instructions", "Distribution Waterfall"]
    else if programType == "Fund" then
      ["PPM (Private Placement Memo)", "Limited Partnership Agreement", "Investment Policy", "Fee Schedule"]
    else if programType == "Tokenization" then
      ["Token Economics", "Smart Contract Audit", "Legal Opinion", "Custody Arrangement"]
    else if programType == "Infrastructure" then
      ["Engineering Report", "Environmental Assessment", "Permits/Approvals", "Construction Timeline"]
    else if programType == "Energy" then
      ["Resource Assessment", "PPA (Power Purchase Agreement)", "Interconnection Agreement", "Environmental Permits"]
    else if programType == "Real Estate" then
      ["Appraisal", "Title Report", "Property Condition Report", "Zoning Confirmation"]
    else []
  }

  predicate KnownProgram(programType: string)
  {
    programType in {"SPV", "Fund", "Tokenization", "Infrastructure", "Energy", "Real Estate"}
  }

  function Required(programType: string): seq<string>
  {
    ALL_DOCS + ProgramDocs(programType)
  }

  /** A document name and a required document match when either, lower-cased, contains the other. */
  predicate NamesMatch(name: string, doc: string)
  {
    Contains(LowerStr(name), LowerStr(doc)) || Contains(LowerStr(doc), LowerStr(name))
  }

  /** `documents.some(d => NamesMatch(d.name, doc))`. */
  function Found(names: seq<string>, doc: string): (r: bool)
    ensures r <==> exists i :: 0 <= i < |names| && NamesMatch(names[i], doc)
  {
    if names == [] then false
    else if NamesMatch(names[0], doc) then true
    else
      var rest := Found(names[1..], doc);
      assert forall i :: 1 <= i < |names| ==> names[i] == names[1..][i - 1];
      rest
  }

  function MissingFinding(doc: string): Finding
  {
    Finding("MISSING_DOCUMENT", HIGH, doc, "Required document missing: " + doc)
  }

  datatype Completeness = Completeness(required: nat, present: int, missing: nat, findings: seq<Finding>)

  function IsMissing(names: seq<string>): string -> bool
  {
    (doc: string) => !Found(names, doc)
  }

  /** The required documents no document name matches, in table order. */
  function MissingDocs(names: seq<string>, required: seq<string>): (m: seq<string>)
    ensures |m| <= |required|
    ensures forall doc :: doc in m <==> doc in required && !Found(names, doc)
  {
    var missing := Filter(IsMissing(names), required);
    forall doc ensures doc in missing <==> doc in required && !Found(names, doc) {
      FilterIn(IsMissing(names), required, doc);
    }
    missing
  }

  /** The completeness of a list of required documents against the document names. */
  function Assess(names: seq<string>, required: seq<string>): (c: Completeness)
    ensures c.required == |required|
    ensures c.findings == Map(MissingFinding, Filter(IsMissing(names), required))
    ensures c.present + c.missing == c.required && c.present >= 0
    ensures c.missing == |c.findings|
    ensures forall i :: 0 <= i < |c.findings| ==>
      c.findings[i].kind == "MISSING_DOCUMENT" && c.findings[i].severity == HIGH
    ensures forall doc :: doc in required ==> (MissingFinding(doc) in c.findings <==> !Found(names, doc))
  {
    var missing := MissingDocs(names, required);
    var findings := Map(MissingFinding, missing);
    forall doc | doc in required ensures MissingFinding(doc) in findings <==> !Found(names, doc) {
      if MissingFinding(doc) in findings {
        var i :| 0 <= i < |findings| && findings[i] == MissingFinding(doc);
        assert missing[i] == doc;
      }
      if !Found(names, doc) {
        var i :| 0 <= i < |missing| && missing[i] == doc;
        assert findings[i] == MissingFinding(doc);
      }
    }
    Completeness(|required|, |required| - |findings|, |findings|, findings)
  }

  /**
   * `checkCompleteness`: every required document (the common list plus the
   * program's own, none for an unknown program) is present or reported
   * missing with severity HIGH.
   */
  function CheckCompleteness(names: seq<string>, programType: string): (c: Completeness)
    ensures c.required == |ALL_DOCS| + |ProgramDocs(programType)|
    ensures c.present + c.missing == c.required && c.present >= 0
    ensures c.missing == |c.findings|
    ensures forall i :: 0 <= i < |c.findings| ==>
      c.findings[i].kind == "MISSING_DOCUMENT" && c.findings[i].severity == HIGH
    ensures forall doc :: doc in Required(programType) ==>
      (MissingFinding(doc) in c.findings <==> !Found(names, doc))
  {
    Assess(names, Required(programType))
  }

  /** A program type that is not a key of the table requires the five common documents only. */
  lemma UnknownProgramRequiresCommon(names: seq<string>, programType: string)
    requires !KnownProgram(programType) && programType != "ALL"
    ensures CheckCompleteness(names, programType).required == 5
    ensures CheckCompleteness(names, programType).findings == Map(MissingFinding, MissingDocs(names, ALL_DOCS))
  {
    assert Required(programType) == ALL_DOCS;
  }

  /**
   * The program type `ALL` requires the common list twice: ten documents,
   * and each missing common document is reported twice, once per copy.
   */
  lemma AllProgramDoublesCommon(names: seq<string>)
    ensures CheckCompleteness(names, "ALL").required == 10
    ensures var common := Map(MissingFinding, MissingDocs(names, ALL_DOCS));
      CheckCompleteness(names, "ALL").findings == common + common
  {
    assert Required("ALL") == ALL_DOCS + ALL_DOCS;
    FilterAppend(IsMissing(names), ALL_DOCS, ALL_DOCS);
    MapAppend(MissingFinding, MissingDocs(names, ALL_DOCS), MissingDocs(names, ALL_DOCS));
  }

  /** A document named exactly as each required document leaves nothing missing. */
  lemma EveryDocumentPresent(programType: string)
    ensures CheckCompleteness(Required(programType), programType).missing == 0
  {
    var required := Required(programType);
    forall doc | doc in required ensures Found(required, doc) {
      var i :| 0 <= i < |required| && required[i] == doc;
      ContainsSelf(LowerStr(doc));
      assert NamesMatch(required[i], doc);
    }
    FilterNone(IsMissing(required), required);
  }

  // ---------------------------------------------------------------------
  // Numerical consistency

  /** One cross-reference check: a field compared across several sources. */
  datatype CrossRef = CrossRef(name: string, sources: seq<string>, field: string, severity: Severity)

  const CROSS_REFERENCES: seq<CrossRef> := [
    CrossRef("Revenue Consistency", ["Pitch Deck", "Financial Model", "Historical Financials"], "revenue", CRITICAL),
    CrossRef("Valuation Math", ["Cap Table", "PPM", "Financial Model"], "valuation", CRITICAL),
    CrossRef("Timeline Consistency", ["Project Schedule", "Financial Model", "Contracts"], "dates", HIGH),
    CrossRef("Entity Name", ["All Documents"], "entity_name", HIGH),
    CrossRef("Ownership Percentages", ["Cap Table", "Legal Docs", "PPM"], "ownership", CRITICAL)
  ]

  /** Extracted figures per source and field, each kept as its `String(v)` rendering. */
  type Extracted = map<string, map<string, string>>

  /** `extractedData[source]?.[field]` for each source, dropping the undefined ones. */
  function ValuesOf(data: Extracted, sources: seq<string>, field: string): (vs: seq<string>)
    ensures |vs| <= |sources|
  {
    if sources == [] then []
    else
      var s := sources[0];
      (if s in data && field in data[s] then [data[s][field]] else []) + ValuesOf(data, sources[1..], field)
  }

  /** `[...new Set(values)]`: the distinct values, in order of first occurrence. */
  function Distinct(vs: seq<string>): (u: seq<string>)
    ensures forall v :: v in u <==> v in vs
    ensures forall i, j :: 0 <= i < j < |u| ==> u[i] != u[j]
  {
    if vs == [] then []
    else
      var d := Distinct(vs[..|vs| - 1]);
      assert forall v :: v in vs <==> v in vs[..|vs| - 1] || v == vs[|vs| - 1];
      if vs[|vs| - 1] in d then d else d + [vs[|vs| - 1]]
  }

  /** There are two distinct values exactly when two of the values differ. */
  lemma DistinctMany(vs: seq<string>)
    ensures |Distinct(vs)| > 1 <==> exists i, j :: 0 <= i < |vs| && 0 <= j < |vs| && vs[i] != vs[j]
  {
    var u := Distinct(vs);
    if |u| > 1 {
      assert u[0] in vs && u[1] in vs && u[0] != u[1];
      var i :| 0 <= i < |vs| && vs[i] == u[0];
      var j :| 0 <= j < |vs| && vs[j] == u[1];
    }
    if exists i, j :: 0 <= i < |vs| && 0 <= j < |vs| && vs[i] != vs[j] {
      var i, j :| 0 <= i < |vs| && 0 <= j < |vs| && vs[i] != vs[j];
      assert vs[i] in u && vs[j] in u;
      AtMostOneValue(u, vs[i], vs[j]);
    }
  }

  /** A sequence of at most one element holds at most one value. */
  lemma AtMostOneValue(u: seq<string>, x: string, y: string)
    ensures |u| <= 1 && x in u && y in u ==> x == y
  {
    if |u| <= 1 && x in u && y in u {
      assert u == [u[0]];
    }
  }

  /** The finding of one cross-reference, if its values disagree. */
  /** More than one value was found, and two of them differ. */
  predicate Disagree(vs: seq<string>)
  {
    |vs| > 1 && exists i, j :: 0 <= i < |vs| && 0 <= j < |vs| && vs[i] != vs[j]
  }

  function CheckRef(data: Extracted, ref: CrossRef): (f: Option<Finding>)
    ensures f.Some? <==> Disagree(ValuesOf(data, ref.sources, ref.field))
    ensures f.Some? ==>
      f.value.kind == "NUMERICAL_MISMATCH" && f.value.severity == ref.severity && f.value.subject == ref.name
  {
    var vs := ValuesOf(data, ref.sources, ref.field);
    DistinctMany(vs);
    if |vs| > 1 && |Distinct(vs)| > 1 then
      Some(Finding("NUMERICAL_MISMATCH", ref.severity, ref.name,
                   ref.name + " mismatch: found values " + Join(Distinct(vs), ", ")))
    else None
  }

  /** The cross-references whose values disagree. */
  function Mismatched(data: Extracted): CrossRef -> bool
  {
    Yields(CheckRefOf(data))
  }

  /** `CheckRef` over the extracted values `data`. */
  function CheckRefOf(data: Extracted): CrossRef -> Option<Finding>
  {
    (r: CrossRef) => CheckRef(data, r)
  }

  /**
   * The findings of a list of cross-references: one per disagreeing
   * reference, that reference's own finding, in reference order.
   */
  function CheckRefs(data: Extracted, refs: seq<CrossRef>): (fs: seq<Finding>)
    ensures |fs| <= |refs|
    ensures forall f :: f in fs ==> exists r :: r in refs && CheckRef(data, r) == Some(f)
    ensures |fs| == |Filter(Mismatched(data), refs)|
    ensures forall i :: 0 <= i < |fs| ==> CheckRef(data, Filter(Mismatched(data), refs)[i]) == Some(fs[i])
  {
    CollectPicks(refs, CheckRefOf(data));
    Collect(refs, CheckRefOf(data))
  }

  /**
   * `checkNumericalConsistency`: one finding per cross-reference whose
   * values disagree, carrying that reference's name and severity, in
   * table order.
   */
  function CheckNumericalConsistency(data: Extracted): (fs: seq<Finding>)
    ensures |fs| <= |CROSS_REFERENCES|
    ensures forall f :: f in fs ==>
      f.kind == "NUMERICAL_MISMATCH" && exists r :: r in CROSS_REFERENCES && f.subject == r.name && f.severity == r.severity
    ensures |fs| == |Filter(Mismatched(data), CROSS_REFERENCES)|
    ensures forall i :: 0 <= i < |fs| ==> CheckRef(data, Filter(Mismatched(data), CROSS_REFERENCES)[i]) == Some(fs[i])
  {
    CheckRefs(data, CROSS_REFERENCES)
  }

  /** A field defined by a single source can never be inconsistent. */
  lemma SingleSourceConsistent(data: Extracted, ref: CrossRef)
    requires |ref.sources| == 1
    ensures CheckRef(data, ref).None?
  {
    assert ref.sources[1..] == [];
  }

  // ---------------------------------------------------------------------
  // Claims

  datatype Claim = Claim(text: string, location: Option<string>, evidence: Option<seq<string>>,
                         evidenceStrength: Option<string>)

  function Excerpt(text: string): string
  {
    if |text| <= 50 then text else text[..50]
  }

  /** The finding of one claim: none or empty evidence is unsupported, weak evidence is weak. */
  function ClaimFinding(c: Claim): (f: Option<Finding>)
    ensures (c.evidence.None? || c.evidence.value == []) <==> f.Some? && f.value.kind == "UNSUPPORTED_CLAIM"
    ensures f.Some? && f.value.kind == "UNSUPPORTED_CLAIM" ==> f.value.severity == HIGH
    ensures f.Some? && f.value.kind == "WEAK_EVIDENCE" <==>
      c.evidence.Some? && c.evidence.value != [] && c.evidenceStrength == Some("weak")
    ensures f.Some? && f.value.kind == "WEAK_EVIDENCE" ==> f.value.severity == MEDIUM
    ensures f.Some? ==> f.value.subject == c.text
  {
    if c.evidence.None? || c.evidence.value == [] then
      Some(Finding("UNSUPPORTED_CLAIM", HIGH, c.text, "Claim without evidence: \"" + Excerpt(c.text) + "...\""))
    else if c.evidenceStrength == Some("weak") then
      Some(Finding("WEAK_EVIDENCE", MEDIUM, c.text, "Weak evidence for claim: \"" + Excerpt(c.text) + "...\""))
    else None
  }

  /** The claims without evidence or with weak evidence. */
  predicate Flagged(c: Claim)
  {
    ClaimFinding(c).Some?
  }

  /**
   * `checkClaimEvidence`: one finding per unsupported or weakly supported
   * claim, that claim's own finding, in claim order.
   */
  function CheckClaimEvidence(claims: seq<Claim>): (fs: seq<Finding>)
    ensures |fs| <= |claims|
    ensures forall f :: f in fs ==> exists c :: c in claims && ClaimFinding(c) == Some(f)
    ensures |fs| == |Filter(Flagged, claims)|
    ensures forall i :: 0 <= i < |fs| ==> ClaimFinding(Filter(Flagged, claims)[i]) == Some(fs[i])
  {
    if claims == [] then []
    else
      var f := ClaimFinding(claims[0]);
      (if f.Some? then [f.value] else []) + CheckClaimEvidence(claims[1..])
  }

  // ---------------------------------------------------------------------
  // Report

  datatype Recommendation = HOLD | PROCEED_WITH_CONDITIONS | PROCEED

  /** HOLD on any critical finding or more than three high ones; conditions on one to three high ones. */
  function RecommendationFor(critical: nat, high: nat): (r: Recommendation)
    ensures r == HOLD <==> critical > 0 || high > 3
    ensures r == PROCEED_WITH_CONDITIONS <==> critical == 0 && 1 <= high <= 3
    ensures r == PROCEED <==> critical == 0 && high == 0
  {
    if critical > 0 then HOLD
    else if high > 3 then HOLD
    else if high > 0 then PROCEED_WITH_CONDITIONS
    else PROCEED
  }

  function OfSeverity(s: Severity): Finding -> bool
  {
    (f: Finding) => f.severity == s
  }

  datatype Summary = Summary(totalFindings: nat, critical: nat, high: nat, medium: nat, advisory: nat,
                             recommendation: Recommendation)

  datatype Header = Header(project: string, programType: string, screeningDate: string,
                           screeningLead: string, version: string)

  datatype Report = Report(header: Header, summary: Summary, critical: seq<Finding>, high: seq<Finding>,
                           medium: seq<Finding>, advisory: seq<Finding>)

  /**
   * `generateReport`: the findings grouped by severity, the counts, and the
   * recommendation drawn from the critical and high counts.
   */
  function GenerateReport(project: string, programType: string, findings: seq<Finding>,
                          screeningLead: Option<string>, now: string): (r: Report)
    ensures r.summary.totalFindings == |findings|
    ensures r.critical == Filter(OfSeverity(CRITICAL), findings) && r.summary.critical == |r.critical|
    ensures r.high == Filter(OfSeverity(HIGH), findings) && r.summary.high == |r.high|
    ensures r.medium == Filter(OfSeverity(MEDIUM), findings) && r.summary.medium == |r.medium|
    ensures r.advisory == Filter(OfSeverity(ADVISORY), findings) && r.summary.advisory == |r.advisory|
    ensures r.summary.recommendation == RecommendationFor(r.summary.critical, r.summary.high)
    ensures r.header == Header(project, programType, now, StrOr(screeningLead, "COHERENCE_ANALYST"), "1.0")
  {
    var critical := Filter(OfSeverity(CRITICAL), findings);
    var high := Filter(OfSeverity(HIGH), findings);
    var medium := Filter(OfSeverity(MEDIUM), findings);
    var advisory := Filter(OfSeverity(ADVISORY), findings);
    Report(Header(project, programType, now, StrOr(screeningLead, "COHERENCE_ANALYST"), "1.0"),
           Summary(|findings|, |critical|, |high|, |medium|, |advisory|,
                   RecommendationFor(|critical|, |high|)),
           critical, high, medium, advisory)
  }

  /** The four severity groups partition the findings: their counts add up to the total. */
  lemma {:induction false} SeverityCountsSum(findings: seq<Finding>)
    ensures |Filter(OfSeverity(CRITICAL), findings)| + |Filter(OfSeverity(HIGH), findings)|
      + |Filter(OfSeverity(MEDIUM), findings)| + |Filter(OfSeverity(ADVISORY), findings)| == |findings|
  {
    if findings != [] {
      SeverityCountsSum(findings[1..]);
    }
  }

  /** `runScreening`: all findings of the three checks, in check order, and their report. */
  function RunScreening(project: string, programType: string, names: seq<string>, data: Extracted,
                        claims: seq<Claim>, now: string): (r: Report)
    ensures r.summary.totalFindings
      == CheckCompleteness(names, programType).missing + |CheckNumericalConsistency(data)| + |CheckClaimEvidence(claims)|
  {
    var all := CheckCompleteness(names, programType).findings + CheckNumericalConsistency(data) + CheckClaimEvidence(claims);
    GenerateReport(project, programType, all, None, now)
  }

  /** Findings that are all HIGH each count among the high findings of a longer list. */
  lemma HighPrefix(a: seq<Finding>, b: seq<Finding>)
    requires forall i :: 0 <= i < |a| ==> a[i].severity == HIGH
    ensures |Filter(OfSeverity(HIGH), a + b)| >= |a|
  {
    FilterAppend(OfSeverity(HIGH), a, b);
    FilterAll(OfSeverity(HIGH), a);
  }

  /** More than three missing documents put the data room on HOLD whatever else is found. */
  lemma ManyMissingHolds(project: string, programType: string, names: seq<string>, data: Extracted,
                         claims: seq<Claim>, now: string)
    requires CheckCompleteness(names, programType).missing > 3
    ensures RunScreening(project, programType, names, data, claims, now).summary.recommendation == HOLD
  {
    var missing := CheckCompleteness(names, programType).findings;
    var numbers, evidence := CheckNumericalConsistency(data), CheckClaimEvidence(claims);
    HighPrefix(missing, numbers + evidence);
    assert missing + numbers + evidence == missing + (numbers + evidence);
  }
}
