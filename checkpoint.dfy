/**
 * The checkpoint validator: a semicolon-separated success-criteria language,
 * its parser, the per-rule validators with three-valued results (true,
 * false, or null for manual review), and the checkpoint log.
 */
module CheckpointValidator {
  import opened Wrappers
  import opened Strings
  import Seqs

  /** A task output as JavaScript sees it. */
  datatype Output =
    | Null
    | Undefined
    | Bool(b: bool)
    | Num(n: int)
    | Str(s: string)
    | Arr(items: seq<string>)
    | Obj(keys: seq<string>)

  /** A JavaScript number as the criteria parser can produce it. */
  datatype JsNum = Finite(n: int) | NaN | Undef

  datatype Rule =
    | Exists
    | NonEmptyString
    | FileExists(path: string)
    | Contains(expected: string)
    | MatchesPattern(pattern: string)
    | ValidJson
    | LengthBetween(min: JsNum, max: JsNum)
    | NumberBetween(min: JsNum, max: JsNum)
    | HasProperties(props: seq<string>)
    | Manual(description: string)
    | Unknown(typeName: string)

  /** `passed` is None where the source reports null (manual review). */
  datatype RuleResult = RuleResult(passed: Option<bool>, rule: string, requiresReview: bool, error: Option<string>)

  datatype Checkpoint = Checkpoint(
    taskId: string,
    timestamp: int,
    passed: bool,
    results: seq<RuleResult>,
    failedRules: seq<string>,
    requiresManualReview: bool,
    manualReviewItems: seq<string>)

  /**
   * Library behaviour the model does not interpret: `JSON.parse` of a string,
   * `fs.existsSync`, and `new RegExp(p).test(s)` (None when the pattern is
   * not a valid regular expression and the constructor throws).
   */
  datatype Oracles = Oracles(
    parsesAsJson: string -> bool,
    fileExists: string -> bool,
    regexTest: (string, string) -> Option<bool>)

  // ------------------------------------------------------------ conversions

  /** `String(output)`, as template literals render it. */
  function Render(o: Output): string
  {
    match o
    case Null => "null"
    case Undefined => "undefined"
    case Bool(b) => if b then "true" else "false"
    case Num(n) => IntToString(n)
    case Str(s) => s
    case Arr(items) => Join(items, ",")
    case Obj(_) => "[object Object]"
  }

  function RenderNum(x: JsNum): string
  {
    match x
    case Finite(n) => IntToString(n)
    case NaN => "NaN"
    case Undef => "undefined"
  }

  predicate AllDigits(s: string)
  {
    forall i :: 0 <= i < |s| ==> IsDigit(s[i])
  }

  /** `Number(s)` for strings: blanks around, an optional sign, decimal digits; "" is 0. */
  function StringToNumber(s: string): (r: JsNum)
    ensures r.Finite? || r.NaN?
  {
    var t := Trim(s);
    if t == "" then Finite(0)
    else if t[0] == '-' && |t| > 1 && AllDigits(t[1..]) then Finite(-(DigitsValue(t[1..]) as int))
    else if t[0] == '+' && |t| > 1 && AllDigits(t[1..]) then Finite(DigitsValue(t[1..]))
    else if AllDigits(t) then Finite(DigitsValue(t))
    else NaN
  }

  /** `Number(output)`. */
  function OutputToNumber(o: Output): JsNum
  {
    match o
    case Null => Finite(0)
    case Undefined => NaN
    case Bool(b) => Finite(if b then 1 else 0)
    case Num(n) => Finite(n)
    case Str(s) => StringToNumber(s)
    case Arr(items) => if items == [] then Finite(0) else if |items| == 1 then StringToNumber(items[0]) else NaN
    case Obj(_) => NaN
  }

  /** `x >= lo && x <= hi` where NaN and undefined compare false. */
  predicate InRange(x: int, lo: JsNum, hi: JsNum)
  {
    lo.Finite? && hi.Finite? && lo.n <= x <= hi.n
  }

  // -------------------------------------------------------------- validators

  /** `validators.exists`. */
  predicate IsPresent(o: Output)
  {
    o != Null && o != Undefined && o != Str("")
  }

  /** `validators.nonEmptyString`. */
  predicate IsNonEmptyString(o: Output)
  {
    o.Str? && Trim(o.s) != ""
  }

  /** `validators.contains`: only strings can contain anything. */
  predicate OutputContains(o: Output, expected: string)
  {
    o.Str? && Strings.Contains(o.s, expected)
  }

  /** `validators.validJson`: strings are parsed; anything else is stringified first. */
  predicate IsValidJson(o: Output, or: Oracles)
  {
    match o
    case Str(s) => or.parsesAsJson(s)
    case Undefined => false
    case _ => true
  }

  /** The length `validators.lengthBetween` uses: strings and arrays, else 0. */
  function LengthOf(o: Output): nat
  {
    match o
    case Str(s) => |s|
    case Arr(items) => |items|
    case _ => 0
  }

  /** `p in output` for arrays: "length" and the indices. */
  predicate HasProperty(o: Output, p: string)
  {
    match o
    case Obj(keys) => p in keys
    case Arr(items) => p == "length" || exists i :: 0 <= i < |items| && p == NatToString(i)
    case _ => false
  }

  /** `validateRule`; Err when the rule's regular expression does not compile. */
  function ValidateRule(o: Output, rule: Rule, or: Oracles): (r: Result<RuleResult>)
    ensures r.Err? ==> rule.MatchesPattern?
    ensures r.Ok? ==> (r.value.passed.None? <==> rule.Manual?)
    ensures r.Ok? ==> (r.value.requiresReview <==> rule.Manual?)
    ensures rule.Unknown? ==> r == Ok(RuleResult(Some(false), "unknown", false, Some("Unknown rule type: " + rule.typeName)))
  {
    match rule
    case Exists => Ok(RuleResult(Some(IsPresent(o)), "exists", false, None))
    case NonEmptyString => Ok(RuleResult(Some(IsNonEmptyString(o)), "nonEmptyString", false, None))
    case FileExists(path) =>
      var target := if path != "" then Str(path) else o;
      Ok(RuleResult(Some(target.Str? && or.fileExists(target.s)), "file:" + Render(target), false, None))
    case Contains(expected) => Ok(RuleResult(Some(OutputContains(o, expected)), "contains:" + expected, false, None))
    case MatchesPattern(pattern) =>
      var m := or.regexTest(pattern, Render(o));
      if m.None? then Err("Invalid regular expression: " + pattern)
      else Ok(RuleResult(Some(m.value), "pattern:" + pattern, false, None))
    case ValidJson => Ok(RuleResult(Some(IsValidJson(o, or)), "json", false, None))
    case LengthBetween(lo, hi) =>
      Ok(RuleResult(Some(InRange(LengthOf(o), lo, hi)), "length:" + RenderNum(lo) + "-" + RenderNum(hi), false, None))
    case NumberBetween(lo, hi) =>
      var x := OutputToNumber(o);
      Ok(RuleResult(Some(x.Finite? && InRange(x.n, lo, hi)), "number:" + RenderNum(lo) + "-" + RenderNum(hi), false, None))
    case HasProperties(props) =>
      Ok(RuleResult(Some((o.Obj? || o.Arr?) && forall i :: 0 <= i < |props| ==> HasProperty(o, props[i])),
                    "hasProps:" + Join(props, ","), false, None))
    case Manual(d) => Ok(RuleResult(None, "manual:" + d, true, None))
    case Unknown(t) => Ok(RuleResult(Some(false), "unknown", false, Some("Unknown rule type: " + t)))
  }

  /** exists is false exactly for null, undefined and the empty string. */
  lemma ExistsVectors()
    ensures IsPresent(Str("hello")) && !IsPresent(Str("")) && !IsPresent(Null) && !IsPresent(Undefined)
    ensures IsPresent(Num(0)) && IsPresent(Bool(false))
  {
  }

  /** contains is false for every non-string output and true for the documented example. */
  lemma ContainsVectors(o: Output, expected: string)
    ensures !o.Str? ==> !OutputContains(o, expected)
    ensures OutputContains(Str("hello world"), "world")
  {
    ContainsAt("hello world", "world", 6);
  }

  /** lengthBetween measures neither-string-nor-array outputs as 0. */
  lemma LengthOfOthers(o: Output, or: Oracles, lo: JsNum, hi: JsNum)
    requires !o.Str? && !o.Arr?
    ensures ValidateRule(o, LengthBetween(lo, hi), or).value.passed == Some(InRange(0, lo, hi))
  {
  }

  // ----------------------------------------------------------------- parser

  /** The rule for one trimmed, non-empty criteria token. */
  function TokenRule(part: string): Rule
  {
    if part == "exists" then Exists
    else if part == "json" then ValidJson
    else if StartsWith(part, "file:") then FileExists(part[5..])
    else if StartsWith(part, "contains:") then Contains(part[9..])
    else if StartsWith(part, "pattern:") then MatchesPattern(part[8..])
    else if StartsWith(part, "length:") then
      var bounds := Split(part[7..], '-');
      LengthBetween(StringToNumber(bounds[0]), if |bounds| > 1 then StringToNumber(bounds[1]) else Undef)
    else if StartsWith(part, "number:") then
      var bounds := Split(part[7..], '-');
      NumberBetween(StringToNumber(bounds[0]), if |bounds| > 1 then StringToNumber(bounds[1]) else Undef)
    else Manual(part)
  }

  /** A criteria token as the parser keeps it: non-empty, no blank at either end. */
  predicate IsSegment(t: string)
  {
    t != "" && !IsBlank(t[0]) && !IsBlank(t[|t| - 1])
  }

  /** `split(';').map(trim).filter(s => s)`. */
  function Segments(parts: seq<string>): (r: seq<string>)
    ensures |r| <= |parts|
  {
    if parts == [] then []
    else
      var t := Trim(parts[0]);
      var rest := Segments(parts[1..]);
      if t == "" then rest else [t] + rest
  }

  /** The recursion is the source's chain: trim every part, then keep the non-empty ones. */
  lemma {:induction false} SegmentsIsMapFilter(parts: seq<string>)
    ensures Segments(parts) == Seqs.Filter((t: string) => t != "", Seqs.Map(Trim, parts))
  {
    if parts != [] {
      var trimmed := Seqs.Map(Trim, parts);
      assert trimmed[0] == Trim(parts[0]);
      assert trimmed[1..] == Seqs.Map(Trim, parts[1..]);
      SegmentsIsMapFilter(parts[1..]);
    }
  }

  /** Every kept segment is non-empty and has no blank at either end. */
  lemma {:induction false} SegmentsTrimmed(parts: seq<string>, i: nat)
    requires i < |Segments(parts)|
    ensures IsSegment(Segments(parts)[i])
  {
    var t := Trim(parts[0]);
    if t != "" && i > 0 {
      SegmentsTrimmed(parts[1..], i - 1);
    } else if t == "" {
      SegmentsTrimmed(parts[1..], i);
    }
  }

  /** The trimmed, non-empty segments of a criteria string; none for null or "". */
  function CriteriaSegments(criteria: Option<string>): seq<string>
  {
    if !Truthy(criteria) then [] else Segments(Split(criteria.value, ';'))
  }

  function RulesOf(parts: seq<string>): (r: seq<Rule>)
    ensures |r| == |parts|
  {
    if parts == [] then [] else [TokenRule(parts[0])] + RulesOf(parts[1..])
  }

  lemma {:induction false} RulesOfAppend(parts: seq<string>, part: string)
    ensures RulesOf(parts + [part]) == RulesOf(parts) + [TokenRule(part)]
  {
    if parts == [] {
      assert parts + [part] == [part];
    } else {
      RulesOfAppend(parts[1..], part);
      assert (parts + [part])[1..] == parts[1..] + [part];
    }
  }

  /** The parser keeps one rule per segment, in segment order. */
  lemma {:induction false} RulesOfAt(parts: seq<string>, i: nat)
    requires i < |parts|
    ensures RulesOf(parts)[i] == TokenRule(parts[i])
  {
    if i > 0 {
      RulesOfAt(parts[1..], i - 1);
    }
  }

  /** `parseSuccessCriteria` as a value. */
  function ParseCriteria(criteria: Option<string>): seq<Rule>
  {
    RulesOf(CriteriaSegments(criteria))
  }

  /** `parseSuccessCriteria`: one rule per segment, in order, pushed in a loop. */
  method ParseSuccessCriteria(criteria: Option<string>) returns (rules: seq<Rule>)
    ensures rules == ParseCriteria(criteria)
    ensures !Truthy(criteria) ==> rules == []
  {
    rules := [];
    if !Truthy(criteria) {
      return;
    }
    var parts := Segments(Split(criteria.value, ';'));
    var i := 0;
    while i < |parts|
      invariant 0 <= i <= |parts|
      invariant rules == RulesOf(parts[..i])
    {
      RulesOfAppend(parts[..i], parts[i]);
      assert parts[..i + 1] == parts[..i] + [parts[i]];
      rules := rules + [TokenRule(parts[i])];
      i := i + 1;
    }
    assert parts[..i] == parts;
  }

  /** The parser's rules render back to their token, except the numeric ranges. */
  lemma LabelRoundTrip(part: string, o: Output, or: Oracles)
    requires part != "" && !StartsWith(part, "length:") && !StartsWith(part, "number:")
    requires !StartsWith(part, "file:") || |part| > 5
    requires ValidateRule(o, TokenRule(part), or).Ok?
    ensures var r := ValidateRule(o, TokenRule(part), or).value;
      r.rule == part || r.rule == "manual:" + part
  {
    if StartsWith(part, "file:") {
      assert part == "file:" + part[5..];
    } else if StartsWith(part, "contains:") {
      assert part == "contains:" + part[9..];
    } else if StartsWith(part, "pattern:") {
      assert part == "pattern:" + part[8..];
    }
  }

  lemma SplitExample()
    ensures Split("exists;contains:hello;json", ';') == ["exists", "contains:hello", "json"]
  {
    assert "exists;contains:hello;json" == "exists" + [';'] + "contains:hello" + [';'] + "json";
    SplitThree("exists", "contains:hello", "json", ';');
  }

  /** A token that is already a segment is kept as it is. */
  lemma SegmentsKeep(t: string, rest: seq<string>)
    requires IsSegment(t)
    ensures Segments([t] + rest) == [t] + Segments(rest)
  {
    TrimUnchanged(t);
    assert ([t] + rest)[1..] == rest;
  }

  lemma SegmentsExample()
    ensures Segments(["exists", "contains:hello", "json"]) == ["exists", "contains:hello", "json"]
  {
    SegmentsKeep("json", []);
    SegmentsKeep("contains:hello", ["json"]);
    SegmentsKeep("exists", ["contains:hello", "json"]);
  }

  lemma CriteriaExample()
    ensures CriteriaSegments(Some("exists;contains:hello;json")) == ["exists", "contains:hello", "json"]
  {
    SplitExample();
    SegmentsExample();
  }

  lemma TokenExample()
    ensures TokenRule("exists") == Exists
    ensures TokenRule("contains:hello") == Contains("hello")
    ensures TokenRule("json") == ValidJson
  {
    assert "contains:hello"[..9] == "contains:";
    assert !StartsWith("contains:hello", "file:") by {
      assert "contains:hello"[..5][0] == 'c';
    }
    assert !StartsWith("contains:hello", "pattern:") by {
      assert "contains:hello"[..8][0] == 'c';
    }
    assert "contains:hello"[9..] == "hello";
  }

  lemma RulesExample()
    ensures RulesOf(["exists", "contains:hello", "json"]) == [Exists, Contains("hello"), ValidJson]
  {
    TokenExample();
    assert RulesOf(["json"]) == [ValidJson];
    assert ["contains:hello", "json"][1..] == ["json"];
    assert RulesOf(["contains:hello", "json"]) == [Contains("hello"), ValidJson];
    assert ["exists", "contains:hello", "json"][1..] == ["contains:hello", "json"];
  }

  /** The documented example: "exists;contains:hello;json". */
  lemma ParseExample()
    ensures ParseCriteria(Some("exists;contains:hello;json")) == [Exists, Contains("hello"), ValidJson]
  {
    CriteriaExample();
    RulesExample();
  }

  // ------------------------------------------------------------- checkpoint

  /** `rules.map(validateRule)`; the first rule that throws aborts the whole map. */
  function ValidateAll(o: Output, rules: seq<Rule>, or: Oracles): (r: Result<seq<RuleResult>>)
    ensures r.Ok? ==> |r.value| == |rules|
    ensures r.Ok? ==> forall i :: 0 <= i < |rules| ==> ValidateRule(o, rules[i], or) == Ok(r.value[i])
    ensures r.Err? <==> exists i :: 0 <= i < |rules| && ValidateRule(o, rules[i], or).Err?
  {
    if rules == [] then Ok([])
    else
      var head := ValidateRule(o, rules[0], or);
      var tail := ValidateAll(o, rules[1..], or);
      assert forall i :: 1 <= i < |rules| ==> rules[i] == rules[1..][i - 1];
      if head.Err? then Err(head.error)
      else if tail.Err? then Err(tail.error)
      else Ok([head.value] + tail.value)
  }

  /** `results.every(r => r.passed === true || r.passed === null)`. */
  predicate NoneFalse(results: seq<RuleResult>)
  {
    forall i :: 0 <= i < |results| ==> results[i].passed != Some(false)
  }

  /** `results.filter(r => r.passed === false).map(r => r.rule)`. */
  function FailedLabels(results: seq<RuleResult>): (r: seq<string>)
    ensures |r| <= |results|
    ensures r == [] <==> NoneFalse(results)
  {
    if results == [] then []
    else
      assert forall i :: 1 <= i < |results| ==> results[i] == results[1..][i - 1];
      (if results[0].passed == Some(false) then [results[0].rule] else []) + FailedLabels(results[1..])
  }

  /** A label is listed as failed exactly when some result with that label has passed=false. */
  lemma {:induction false} FailedLabelsExact(results: seq<RuleResult>, name: string)
    ensures name in FailedLabels(results) <==>
      exists i :: 0 <= i < |results| && results[i].passed == Some(false) && results[i].rule == name
  {
    if results != [] {
      FailedLabelsExact(results[1..], name);
      if name in FailedLabels(results[1..]) {
        var i :| 0 <= i < |results[1..]| && results[1..][i].passed == Some(false) && results[1..][i].rule == name;
        assert results[i + 1] == results[1..][i];
      }
      if exists i :: 0 <= i < |results| && results[i].passed == Some(false) && results[i].rule == name {
        var i :| 0 <= i < |results| && results[i].passed == Some(false) && results[i].rule == name;
        if i > 0 {
          assert results[1..][i - 1] == results[i];
        }
      }
    }
  }

  /** `results.filter(r => r.requiresReview).map(r => r.rule)`. */
  function ReviewLabels(results: seq<RuleResult>): (r: seq<string>)
    ensures |r| <= |results|
    ensures r == [] <==> forall i :: 0 <= i < |results| ==> !results[i].requiresReview
  {
    if results == [] then []
    else
      assert forall i :: 1 <= i < |results| ==> results[i] == results[1..][i - 1];
      (if results[0].requiresReview then [results[0].rule] else []) + ReviewLabels(results[1..])
  }

  /** The rules a checkpoint evaluates: the parsed ones, or a single exists rule. */
  function EffectiveRules(criteria: Option<string>): (r: seq<Rule>)
    ensures |r| >= 1
    ensures ParseCriteria(criteria) == [] ==> r == [Exists]
  {
    var parsed := ParseCriteria(criteria);
    if parsed == [] then [Exists] else parsed
  }

  /** The checkpoint record `validateCheckpoint` builds. */
  function MakeCheckpoint(taskId: string, o: Output, criteria: Option<string>, or: Oracles, now: int): (r: Result<Checkpoint>)
    ensures r.Ok? ==> r.value.passed == NoneFalse(r.value.results)
    ensures r.Ok? ==> (r.value.passed <==> r.value.failedRules == [])
    ensures r.Ok? ==> (r.value.requiresManualReview <==>
                       exists i :: 0 <= i < |EffectiveRules(criteria)| && EffectiveRules(criteria)[i].Manual?)
    ensures r.Ok? ==> |r.value.results| == |EffectiveRules(criteria)|
  {
    var rules := EffectiveRules(criteria);
    var results := ValidateAll(o, rules, or);
    if results.Err? then Err(results.error)
    else
      var rs := results.value;
      Ok(Checkpoint(taskId, now, NoneFalse(rs), rs, FailedLabels(rs), ReviewLabels(rs) != [], ReviewLabels(rs)))
  }

  /** `rules.every(...)`: stops at the first rule that fails, so later rules are not evaluated. */
  function EveryPasses(o: Output, rules: seq<Rule>, or: Oracles): (r: Result<bool>)
    ensures ValidateAll(o, rules, or).Ok? ==> r == Ok(NoneFalse(ValidateAll(o, rules, or).value))
    ensures r.Err? ==> ValidateAll(o, rules, or).Err?
  {
    if rules == [] then Ok(true)
    else
      var head := ValidateRule(o, rules[0], or);
      if head.Err? then Err(head.error)
      else if head.value.passed == Some(false) then
        assert ValidateAll(o, rules, or).Ok? ==> ValidateAll(o, rules, or).value[0] == head.value;
        Ok(false)
      else
        var rest := EveryPasses(o, rules[1..], or);
        var all := ValidateAll(o, rules, or);
        assert all.Ok? ==> all.value == [head.value] + ValidateAll(o, rules[1..], or).value;
        rest
  }

  /** `quickValidate`: the same verdict, without a record. */
  function QuickValidate(o: Output, criteria: Option<string>, or: Oracles): Result<bool>
  {
    var rules := ParseCriteria(criteria);
    if rules == [] then Ok(IsPresent(o)) else EveryPasses(o, rules, or)
  }

  /**
   * quickValidate agrees with validateCheckpoint's verdict whenever the
   * checkpoint can be built; it throws only when validateCheckpoint does.
   */
  lemma QuickMatchesCheckpoint(taskId: string, o: Output, criteria: Option<string>, or: Oracles, now: int)
    ensures MakeCheckpoint(taskId, o, criteria, or, now).Ok? ==>
      QuickValidate(o, criteria, or) == Ok(MakeCheckpoint(taskId, o, criteria, or, now).value.passed)
    ensures QuickValidate(o, criteria, or).Err? ==> MakeCheckpoint(taskId, o, criteria, or, now).Err?
  {
    if ParseCriteria(criteria) == [] {
      var rs := ValidateAll(o, [Exists], or);
      assert rs.Ok? && rs.value[0].passed == Some(IsPresent(o));
    }
  }

  /** The checkpoint log file: appended to, never truncated. */
  class CheckpointLog {
    var checkpoints: seq<Checkpoint>

    constructor ()
      ensures checkpoints == []
    {
      checkpoints := [];
    }

    /** `validateCheckpoint`: evaluates, records exactly one checkpoint, returns it. */
    method ValidateCheckpoint(taskId: string, o: Output, criteria: Option<string>, or: Oracles, now: int)
      returns (r: Result<Checkpoint>)
      modifies this
      ensures r == MakeCheckpoint(taskId, o, criteria, or, now)
      ensures r.Ok? ==> checkpoints == old(checkpoints) + [r.value]
      ensures r.Err? ==> checkpoints == old(checkpoints)
    {
      r := MakeCheckpoint(taskId, o, criteria, or, now);
      if r.Ok? {
        checkpoints := checkpoints + [r.value];
      }
    }
  }
}
