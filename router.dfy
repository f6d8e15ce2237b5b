/**
 * The business-development intake router. A submission (a dictionary of
 * values) is tried against routing rules in descending priority; the
 * first rule whose condition holds decides the routing, a condition that
 * raises is recorded as a `rule_error` signal and skipped, and a catch-all
 * rule escalates whatever nothing else claimed. The lead scorer and
 * Python's parsing of numeric text are inputs.
 */
module BDRouter {
  import opened Wrappers
  import opened Strings
  import opened Seqs
  import opened Sorting

  datatype FunnelStage = Contact | Qualification | Diligence | Closing | Won | Lost

  /** The stage names of the funnel tracker. */
  function StageName(st: FunnelStage): string
  {
    match st
    case Contact => "A–Contact"
    case Qualification => "B–Qualification"
    case Diligence => "C–Diligence"
    case Closing => "D–Closing"
    case Won => "Won"
    case Lost => "Lost"
  }

  datatype IntakeStatus = New | Triaged | Processed | Rejected

  datatype Decision = AutoQualify | StandardTriage | Nurture | Reject | Escalate

  /** The bot assignments by role, each with the team name it stands for. */
  datatype Bot = OutreachBot | ResearchBot | QualificationBot | ClosingBot
  {
    function Name(): string
    {
      match this
      case OutreachBot => "Liaison Team"
      case ResearchBot => "Research Team"
      case QualificationBot => "Sales Growth Engine"
      case ClosingBot => "IC Committee"
    }
  }

  /** A value of a submission dictionary. */
  datatype Value = Null | Bool(b: bool) | Num(x: real) | Str(s: string)

  type Submission = map<string, Value>

  /** `submission.get(key)`. */
  function Get(sub: Submission, key: string): Value
  {
    if key in sub then sub[key] else Null
  }

  /** `submission.get(key, d)`. */
  function GetDefault(sub: Submission, key: string, d: Value): Value
  {
    if key in sub then sub[key] else d
  }

  /** Python truthiness of a value. */
  predicate IsTruthy(v: Value)
  {
    match v
    case Null => false
    case Bool(b) => b
    case Num(x) => x != 0.0
    case Str(t) => t != ""
  }

  /** `float(v)`; `floatOf` is Python's parsing of numeric text. */
  function Float(v: Value, floatOf: string -> Option<real>): Result<real>
  {
    match v
    case Null => Err("TypeError")
    case Bool(b) => Ok(if b then 1.0 else 0.0)
    case Num(x) => Ok(x)
    case Str(t) => if floatOf(t).Some? then Ok(floatOf(t).value) else Err("ValueError")
  }

  /** A value Python can compare with a number. */
  predicate IsNumeric(v: Value)
  {
    v.Bool? || v.Num?
  }

  function NumberOf(v: Value): real
    requires IsNumeric(v)
  {
    if v.Bool? then (if v.b then 1.0 else 0.0) else v.x
  }

  /** The deal size inferred from the number of employees. */
  function InferredSize(employees: real): (size: real)
    ensures 10000.0 <= size <= 500000.0
  {
    if employees > 1000.0 then 500000.0
    else if employees > 100.0 then 100000.0
    else if employees > 10.0 then 25000.0
    else 10000.0
  }

  /** A larger organisation is never estimated a smaller deal. */
  lemma InferredSizeMonotone(n1: real, n2: real)
    requires n1 <= n2
    ensures InferredSize(n1) <= InferredSize(n2)
  {
  }

  /** The employee count, 0 when the key is missing. */
  function Employees(sub: Submission): Value
  {
    GetDefault(sub, "org_employee_count", Num(0.0))
  }

  /**
   * `_estimate_deal_size`: an explicit size wins (and raises when it is
   * not a number); otherwise the size is inferred from the employee count,
   * which raises when it is None or text.
   */
  function EstimateDealSize(sub: Submission, floatOf: string -> Option<real>): (r: Result<real>)
    ensures "estimated_deal_size" in sub ==> r == Float(sub["estimated_deal_size"], floatOf)
    ensures "estimated_deal_size" !in sub ==> (r.Ok? <==> IsNumeric(Employees(sub)))
    ensures "estimated_deal_size" !in sub && r.Ok? ==> 10000.0 <= r.value <= 500000.0
    ensures "estimated_deal_size" !in sub && "org_employee_count" !in sub ==> r == Ok(10000.0)
  {
    if "estimated_deal_size" in sub then Float(sub["estimated_deal_size"], floatOf)
    else if IsNumeric(Employees(sub)) then Ok(InferredSize(NumberOf(Employees(sub))))
    else Err("TypeError")
  }

  const DISPOSABLE_MARKERS := ["mailinator", "tempmail", "throwaway", "test.com"]
  const SPAM_WORDS := ["viagra", "crypto airdrop", "nigerian prince", "mlm opportunity"]

  predicate ContainsAny(text: string, subs: seq<string>)
  {
    exists i :: 0 <= i < |subs| && Contains(text, subs[i])
  }

  /** The e-mail address, "" when the key is missing. */
  function Email(sub: Submission): Value
  {
    GetDefault(sub, "email", Str(""))
  }

  /** The message, "" when the key is missing. */
  function Message(sub: Submission): Value
  {
    GetDefault(sub, "message", Str(""))
  }

  function Indicator(b: bool): nat
  {
    if b then 1 else 0
  }

  /**
   * `_is_spam`: at least two of a missing organisation name, a disposable
   * e-mail marker and a spam phrase in the lower-cased message. The
   * indicators are built in that order, so an e-mail that is not text
   * raises TypeError first and a message that is not text AttributeError.
   */
  function IsSpam(sub: Submission): (r: Result<bool>)
    ensures r.Ok? <==> Email(sub).Str? && Message(sub).Str?
    ensures !Email(sub).Str? ==> r == Err("TypeError")
    ensures Email(sub).Str? && !Message(sub).Str? ==> r == Err("AttributeError")
    ensures r.Ok? ==>
      var noOrg := !IsTruthy(Get(sub, "org_name"));
      var disposable := ContainsAny(Email(sub).s, DISPOSABLE_MARKERS);
      var wording := ContainsAny(LowerStr(Message(sub).s), SPAM_WORDS);
      (r.value <==> (noOrg && disposable) || (noOrg && wording) || (disposable && wording))
  {
    var email := Email(sub);
    var message := Message(sub);
    if !email.Str? then Err("TypeError")
    else if !message.Str? then Err("AttributeError")
    else
      var noOrg := !IsTruthy(Get(sub, "org_name"));
      var disposable := ContainsAny(email.s, DISPOSABLE_MARKERS);
      var wording := ContainsAny(LowerStr(message.s), SPAM_WORDS);
      Ok(Indicator(noOrg) + Indicator(disposable) + Indicator(wording) >= 2)
  }

  /** The conditions of the default rules. */
  datatype Condition =
    | HighValueInbound
    | FromReferral
    | ExistingContact
    | InboundClearIntent
    | ResearchTarget
    | LowSignalInbound
    | Spam
    | Always

  const CLEAR_INTENTS := [Str("demo_request"), Str("pricing_inquiry"), Str("partnership")]

  /** Evaluates a rule condition; `Err` is the exception it raises. */
  function Holds(c: Condition, sub: Submission, floatOf: string -> Option<real>): (r: Result<bool>)
    ensures r.Err? ==> c == HighValueInbound || c == Spam
    ensures c == Always ==> r == Ok(true)
  {
    var source := Get(sub, "source");
    match c
    case HighValueInbound =>
      if source != Str("inbound") then Ok(false)
      else
        var size := EstimateDealSize(sub, floatOf);
        if size.Ok? then Ok(size.value >= 1000000.0) else Err(size.error)
    case FromReferral => Ok(source == Str("referral"))
    case ExistingContact => Ok(IsTruthy(GetDefault(sub, "existing_contact", Bool(false))))
    case InboundClearIntent => Ok(source == Str("inbound") && Get(sub, "intent_signal") in CLEAR_INTENTS)
    case ResearchTarget => Ok(source == Str("research_identified"))
    case LowSignalInbound => Ok(source == Str("inbound") && !IsTruthy(Get(sub, "intent_signal")))
    case Spam => IsSpam(sub)
    case Always => Ok(true)
  }

  /** An inferred deal size never reaches a million: only an explicit size makes a high-value inbound. */
  lemma HighValueNeedsExplicitSize(sub: Submission, floatOf: string -> Option<real>)
    requires Holds(HighValueInbound, sub, floatOf) == Ok(true)
    ensures Get(sub, "source") == Str("inbound")
    ensures "estimated_deal_size" in sub
    ensures var f := Float(sub["estimated_deal_size"], floatOf); f.Ok? && f.value >= 1000000.0
  {
  }

  /** The conditions of the rules applied to one submission. */
  function Conditions(sub: Submission, floatOf: string -> Option<real>): Condition -> Result<bool>
  {
    (c: Condition) => Holds(c, sub, floatOf)
  }

  datatype Rule = Rule(condition: Condition, decision: Decision,
                       targetStage: Option<FunnelStage>, assignedBot: Option<Bot>, priority: int)
  {
    /** Each default rule is named after its condition. */
    function Name(): string
    {
      match condition
      case HighValueInbound => "inbound_high_value"
      case FromReferral => "referral"
      case ExistingContact => "existing_relationship"
      case InboundClearIntent => "inbound_clear_intent"
      case ResearchTarget => "research_target"
      case LowSignalInbound => "low_signal_inbound"
      case Spam => "spam_filter"
      case Always => "escalate_unclear"
    }
  }

  const INBOUND_HIGH_VALUE := Rule(HighValueInbound, AutoQualify, Some(Qualification), Some(QualificationBot), 100)
  const REFERRAL := Rule(FromReferral, AutoQualify, Some(Qualification), Some(QualificationBot), 90)
  const EXISTING_RELATIONSHIP := Rule(ExistingContact, StandardTriage, Some(Qualification), Some(QualificationBot), 80)
  const INBOUND_CLEAR_INTENT := Rule(InboundClearIntent, StandardTriage, Some(Contact), Some(OutreachBot), 70)
  const RESEARCH_TARGET := Rule(ResearchTarget, StandardTriage, Some(Contact), Some(ResearchBot), 60)
  const LOW_SIGNAL_INBOUND := Rule(LowSignalInbound, Nurture, Some(Contact), Some(OutreachBot), 30)
  const SPAM_FILTER := Rule(Spam, Reject, None, None, 200)
  const ESCALATE_UNCLEAR := Rule(Always, Escalate, Some(Contact), Some(QualificationBot), 0)

  /** The rules in the order they are declared. */
  const DECLARED_RULES := [INBOUND_HIGH_VALUE, REFERRAL, EXISTING_RELATIONSHIP, INBOUND_CLEAR_INTENT,
                           RESEARCH_TARGET, LOW_SIGNAL_INBOUND, SPAM_FILTER, ESCALATE_UNCLEAR]

  /** Sorting by `-priority`. */
  function PriorityOrder(r: Rule): Key
  {
    Key(-r.priority, 0)
  }

  /** `_build_default_rules`: the rules in descending priority. */
  const DEFAULT_RULES := [SPAM_FILTER, INBOUND_HIGH_VALUE, REFERRAL, EXISTING_RELATIONSHIP,
                          INBOUND_CLEAR_INTENT, RESEARCH_TARGET, LOW_SIGNAL_INBOUND, ESCALATE_UNCLEAR]

  lemma SortByDrop<T>(s: seq<T>, i: nat, key: T -> Key)
    requires i < |s|
    ensures SortBy(s[i..], key) == Insert(s[i], SortBy(s[i + 1..], key), key)
  {
    assert s[i..][1..] == s[i + 1..];
  }

  /** The last three declared rules, sorted. */
  lemma SortedFrom5()
    ensures SortBy(DECLARED_RULES[5..], PriorityOrder) == [SPAM_FILTER, LOW_SIGNAL_INBOUND, ESCALATE_UNCLEAR]
  {
    var d, k := DECLARED_RULES, PriorityOrder;
    assert d[8..] == [];
    SortByDrop(d, 7, k);
    assert SortBy(d[7..], k) == [ESCALATE_UNCLEAR];
    SortByDrop(d, 6, k);
    var t6 := [SPAM_FILTER, ESCALATE_UNCLEAR];
    assert SortBy(d[6..], k) == t6;
    SortByDrop(d, 5, k);
    InsertSecond(LOW_SIGNAL_INBOUND, t6, k);
  }

  /** The last six declared rules, sorted. */
  lemma SortedFrom2()
    ensures SortBy(DECLARED_RULES[2..], PriorityOrder)
         == [SPAM_FILTER, EXISTING_RELATIONSHIP, INBOUND_CLEAR_INTENT, RESEARCH_TARGET, LOW_SIGNAL_INBOUND,
             ESCALATE_UNCLEAR]
  {
    var d, k := DECLARED_RULES, PriorityOrder;
    SortedFrom5();
    var t5 := [SPAM_FILTER, LOW_SIGNAL_INBOUND, ESCALATE_UNCLEAR];
    SortByDrop(d, 4, k);
    var t4 := [SPAM_FILTER, RESEARCH_TARGET, LOW_SIGNAL_INBOUND, ESCALATE_UNCLEAR];
    InsertSecond(RESEARCH_TARGET, t5, k);
    assert [t5[0], RESEARCH_TARGET] + t5[1..] == t4;
    SortByDrop(d, 3, k);
    var t3 := [SPAM_FILTER, INBOUND_CLEAR_INTENT, RESEARCH_TARGET, LOW_SIGNAL_INBOUND, ESCALATE_UNCLEAR];
    InsertSecond(INBOUND_CLEAR_INTENT, t4, k);
    assert [t4[0], INBOUND_CLEAR_INTENT] + t4[1..] == t3;
    SortByDrop(d, 2, k);
    InsertSecond(EXISTING_RELATIONSHIP, t3, k);
  }

  /**
   * The default rules are the declared ones stably sorted by descending
   * priority: the spam filter is tried first and the catch-all last.
   */
  lemma DefaultRulesSorted()
    ensures SortBy(DECLARED_RULES, PriorityOrder) == DEFAULT_RULES
    ensures Sorted(DEFAULT_RULES, PriorityOrder)
  {
    var d, k := DECLARED_RULES, PriorityOrder;
    SortedFrom2();
    var t2 := [SPAM_FILTER, EXISTING_RELATIONSHIP, INBOUND_CLEAR_INTENT, RESEARCH_TARGET, LOW_SIGNAL_INBOUND,
               ESCALATE_UNCLEAR];
    SortByDrop(d, 1, k);
    var t1 := [SPAM_FILTER, REFERRAL, EXISTING_RELATIONSHIP, INBOUND_CLEAR_INTENT, RESEARCH_TARGET,
               LOW_SIGNAL_INBOUND, ESCALATE_UNCLEAR];
    InsertSecond(REFERRAL, t2, k);
    assert [t2[0], REFERRAL] + t2[1..] == t1;
    SortByDrop(d, 0, k);
    InsertSecond(INBOUND_HIGH_VALUE, t1, k);
    assert d[0..] == d;
    SortBySorted(d, k);
  }

  /** The index of the first rule whose condition holds, or `|rules|`. */
  function MatchIndex(rules: seq<Rule>, eval: Condition -> Result<bool>): (k: nat)
    ensures k <= |rules|
    ensures k < |rules| ==> eval(rules[k].condition) == Ok(true)
    ensures forall j :: 0 <= j < k ==> eval(rules[j].condition) != Ok(true)
    decreases |rules|
  {
    if rules == [] then 0
    else if eval(rules[0].condition) == Ok(true) then 0
    else 1 + MatchIndex(rules[1..], eval)
  }

  datatype LeadScore = LeadScore(totalScore: real, tier: string)

  datatype Signal = LeadScoreSignal(value: real, tier: Option<string>) | RuleError(rule: string, error: string)

  /** The `rule_error` signal of a rule whose condition raises. */
  function ErrorOf(eval: Condition -> Result<bool>): Rule -> Option<Signal>
  {
    (r: Rule) =>
      var h := eval(r.condition);
      if h.Err? then Some(RuleError(r.Name(), h.error)) else None
  }

  /** The lead score consulted: only for a submission with a contact id. */
  function LeadUsed(sub: Submission, scoreOf: Value -> Option<LeadScore>): Option<LeadScore>
  {
    var contact := Get(sub, "contact_id");
    if IsTruthy(contact) then scoreOf(contact) else None
  }

  /** The lead-score signal, recording the tier as its text. */
  function LeadSignals(used: Option<LeadScore>): (r: seq<Signal>)
    ensures |r| <= 1
  {
    if used.None? then []
    else [LeadScoreSignal(used.value.totalScore, if used.value.tier != "" then Some(used.value.tier) else None)]
  }

  function PriorityBoost(priority: int): real
  {
    if priority >= 80 then 0.2 else if priority >= 50 then 0.1 else 0.0
  }

  function LeadBoost(used: Option<LeadScore>, d: Decision): real
  {
    if used.None? then 0.0
    else if used.value.tier == "hot" && d == AutoQualify then 0.2
    else if used.value.tier == "cold" && d == Nurture then 0.15
    else 0.0
  }

  /** The number of the five contact fields that are filled in. */
  function Completeness(sub: Submission): (n: nat)
    ensures n <= 5
  {
    Indicator(IsTruthy(Get(sub, "org_name"))) + Indicator(IsTruthy(Get(sub, "email")))
    + Indicator(IsTruthy(Get(sub, "contact_name"))) + Indicator(IsTruthy(Get(sub, "intent_signal")))
    + Indicator(IsTruthy(Get(sub, "source")))
  }

  /**
   * `_calculate_confidence` over exact reals: 0.5, raised for specific
   * rules, for a lead tier that agrees with the decision and for complete
   * data, capped at 1.0.
   */
  function Confidence(sub: Submission, rule: Rule, used: Option<LeadScore>): (c: real)
    ensures 0.5 <= c <= 1.0
    ensures used.None? ==> c <= 0.8
    ensures rule.priority < 50 && used.None? ==> c <= 0.6
  {
    var base := 0.5 + PriorityBoost(rule.priority) + LeadBoost(used, rule.decision)
                + (Completeness(sub) as real / 5.0) * 0.1;
    if base <= 1.0 then base else 1.0
  }

  /** More complete data never lowers the confidence. */
  lemma ConfidenceMonotone(sub1: Submission, sub2: Submission, rule: Rule, used: Option<LeadScore>)
    requires Completeness(sub1) <= Completeness(sub2)
    ensures Confidence(sub1, rule, used) <= Confidence(sub2, rule, used)
  {
  }

  /** A hot lead, a specific auto-qualifying rule and complete data give full confidence. */
  lemma ConfidenceFull(sub: Submission, rule: Rule, score: LeadScore)
    requires rule.priority >= 80 && rule.decision == AutoQualify && score.tier == "hot"
    requires Completeness(sub) == 5
    ensures Confidence(sub, rule, Some(score)) == 1.0
  {
  }

  /** The sentence for each decision. */
  function DecisionNote(d: Decision): seq<string>
  {
    match d
    case AutoQualify => ["High-value signals detected, fast-tracking to qualification."]
    case Nurture => ["Low intent signals, adding to nurture sequence."]
    case Reject => ["Spam indicators detected, rejecting submission."]
    case Escalate => ["Unclear routing criteria, escalating for human review."]
    case StandardTriage => []
  }

  /** Signals reported in the reasoning: everything but rule errors. */
  predicate Reported(sig: Signal)
  {
    !sig.RuleError?
  }

  /** `type=value` of a signal; `show` is Python's text of a float. */
  function SignalText(show: real -> string): Signal -> string
  {
    (sig: Signal) =>
      match sig
      case LeadScoreSignal(v, _) => "lead_score=" + show(v)
      case RuleError(_, _) => "rule_error=?"
  }

  function Summary(signals: seq<Signal>, show: real -> string): string
  {
    Join(Map(SignalText(show), Filter(Reported, signals)), ", ")
  }

  /** `_generate_reasoning`: the matched rule, the decision's sentence and the reported signals. */
  function Reasoning(rule: Rule, signals: seq<Signal>, show: real -> string): (r: string)
    ensures StartsWith(r, "Matched rule: " + rule.Name())
  {
    var summary := Summary(signals, show);
    var parts := ["Matched rule: " + rule.Name()] + DecisionNote(rule.decision)
                 + (if summary != "" then ["Signals: " + summary] else []);
    JoinStartsWith(parts, " ");
    Join(parts, " ")
  }

  /** Rule errors never reach the reasoning. */
  lemma ReasoningOmitsRuleErrors(rule: Rule, signals: seq<Signal>, show: real -> string)
    ensures Reasoning(rule, signals, show) == Reasoning(rule, Filter(Reported, signals), show)
  {
    FilterIdempotent(Reported, signals);
  }

  datatype RoutingResult = RoutingResult(
    submissionId: Value,
    decision: Decision,
    targetStage: Option<FunnelStage>,
    assignedBot: Option<Bot>,
    confidence: real,
    matchedRule: string,
    reasoning: string,
    signals: seq<Signal>)

  function SubmissionId(sub: Submission): Value
  {
    GetDefault(sub, "id", Str("unknown"))
  }

  /** The result for a matched rule. */
  function Outcome(rule: Rule, sub: Submission, used: Option<LeadScore>, signals: seq<Signal>,
                   show: real -> string): RoutingResult
  {
    RoutingResult(SubmissionId(sub), rule.decision, rule.targetStage, rule.assignedBot,
                  Confidence(sub, rule, used), rule.Name(), Reasoning(rule, signals, show), signals)
  }

  /** The result when no rule matched. */
  function Fallback(sub: Submission, signals: seq<Signal>): RoutingResult
  {
    RoutingResult(SubmissionId(sub), Escalate, Some(Contact), Some(QualificationBot), 0.0,
                  "fallback", "No rules matched; escalating for human review", signals)
  }

  /**
   * The routing of a submission: the lead signal, then the errors of the
   * rules tried before the first match, and the first match's result.
   */
  function Routed(rules: seq<Rule>, sub: Submission, scoreOf: Value -> Option<LeadScore>,
                  eval: Condition -> Result<bool>, show: real -> string): RoutingResult
  {
    var used := LeadUsed(sub, scoreOf);
    var k := MatchIndex(rules, eval);
    var signals := LeadSignals(used) + Collect(rules[..k], ErrorOf(eval));
    if k < |rules| then Outcome(rules[k], sub, used, signals, show) else Fallback(sub, signals)
  }

  /**
   * The rule loop of `route`: the index of the first rule whose condition
   * holds (or `|rules|`), and a `rule_error` signal for every rule before
   * it whose condition raised.
   */
  method TryRules(rules: seq<Rule>, eval: Condition -> Result<bool>) returns (k: nat, errors: seq<Signal>)
    ensures k == MatchIndex(rules, eval)
    ensures errors == Collect(rules[..k], ErrorOf(eval))
  {
    errors := [];
    k := 0;
    while k < |rules|
      invariant k <= |rules|
      invariant forall j :: 0 <= j < k ==> eval(rules[j].condition) != Ok(true)
      invariant errors == Collect(rules[..k], ErrorOf(eval))
    {
      var rule := rules[k];
      var holds := eval(rule.condition);
      if holds == Ok(true) {
        return;
      }
      TakeSnoc(rules, k);
      CollectSnoc(rules[..k], rule, ErrorOf(eval));
      if holds.Err? {
        errors := errors + [RuleError(rule.Name(), holds.error)];
      }
      k := k + 1;
    }
  }

  /** `route`: the lead signal, then the rules tried in order. */
  method Route(rules: seq<Rule>, sub: Submission, scoreOf: Value -> Option<LeadScore>,
               eval: Condition -> Result<bool>, show: real -> string) returns (result: RoutingResult)
    ensures result == Routed(rules, sub, scoreOf, eval, show)
  {
    var used := LeadUsed(sub, scoreOf);
    var signals := LeadSignals(used);
    var k, errors := TryRules(rules, eval);
    signals := signals + errors;
    if k < |rules| {
      result := Outcome(rules[k], sub, used, signals, show);
    } else {
      result := Fallback(sub, signals);
    }
  }

  /**
   * The first rule whose condition holds decides: its decision, target,
   * bot and name are the result's, and the reasoning names it.
   */
  lemma RouteFirstMatch(rules: seq<Rule>, sub: Submission, scoreOf: Value -> Option<LeadScore>,
                        eval: Condition -> Result<bool>, show: real -> string, i: nat)
    requires i < |rules| && eval(rules[i].condition) == Ok(true)
    requires forall j :: 0 <= j < i ==> eval(rules[j].condition) != Ok(true)
    ensures var r := Routed(rules, sub, scoreOf, eval, show);
      && r.decision == rules[i].decision && r.targetStage == rules[i].targetStage
      && r.assignedBot == rules[i].assignedBot && r.matchedRule == rules[i].Name()
      && StartsWith(r.reasoning, "Matched rule: " + rules[i].Name())
  {
    var k := MatchIndex(rules, eval);
    assert k == i;
  }

  /** The signals of a routing: the lead signal, then the errors of the rules tried before the match. */
  lemma RoutedSignals(rules: seq<Rule>, sub: Submission, scoreOf: Value -> Option<LeadScore>,
                      eval: Condition -> Result<bool>, show: real -> string)
    ensures Routed(rules, sub, scoreOf, eval, show).signals
         == LeadSignals(LeadUsed(sub, scoreOf)) + Collect(rules[..MatchIndex(rules, eval)], ErrorOf(eval))
  {
  }

  /**
   * The rule errors of a routing are exactly those of the rules tried
   * before the match.
   */
  lemma RouteRecordsRuleErrors(rules: seq<Rule>, sub: Submission, scoreOf: Value -> Option<LeadScore>,
                               eval: Condition -> Result<bool>, show: real -> string, name: string, e: string)
    ensures var r := Routed(rules, sub, scoreOf, eval, show);
      RuleError(name, e) in r.signals <==>
        exists j :: 0 <= j < MatchIndex(rules, eval)
          && rules[j].Name() == name && eval(rules[j].condition) == Err(e)
  {
    var k := MatchIndex(rules, eval);
    var f := ErrorOf(eval);
    var lead := LeadSignals(LeadUsed(sub, scoreOf));
    RoutedSignals(rules, sub, scoreOf, eval, show);
    CollectIn(rules[..k], f, RuleError(name, e));
    assert RuleError(name, e) !in lead;
    if exists j :: 0 <= j < k && rules[j].Name() == name && eval(rules[j].condition) == Err(e) {
      var j :| 0 <= j < k && rules[j].Name() == name && eval(rules[j].condition) == Err(e);
      assert f(rules[..k][j]) == Some(RuleError(name, e));
    }
  }

  /** A matched routing's reasoning reports the lead signal only. */
  lemma RouteReasoningIgnoresErrors(rules: seq<Rule>, sub: Submission, scoreOf: Value -> Option<LeadScore>,
                                    eval: Condition -> Result<bool>, show: real -> string)
    requires MatchIndex(rules, eval) < |rules|
    ensures var r := Routed(rules, sub, scoreOf, eval, show);
      r.reasoning == Reasoning(rules[MatchIndex(rules, eval)], LeadSignals(LeadUsed(sub, scoreOf)), show)
  {
    var k := MatchIndex(rules, eval);
    var lead := LeadSignals(LeadUsed(sub, scoreOf));
    var errors := Collect(rules[..k], ErrorOf(eval));
    CollectAllErrors(rules[..k], eval);
    LeadReportedOnly(lead, errors);
    ReasoningOmitsRuleErrors(rules[k], lead + errors, show);
    ReasoningOmitsRuleErrors(rules[k], lead, show);
  }

  /** Adding rule errors to the lead signal adds nothing that is reported. */
  lemma LeadReportedOnly(lead: seq<Signal>, errors: seq<Signal>)
    requires forall sig :: sig in lead ==> !sig.RuleError?
    requires forall sig :: sig in errors ==> sig.RuleError?
    ensures Filter(Reported, lead + errors) == Filter(Reported, lead)
  {
    FilterAppend(Reported, lead, errors);
    FilterNone(Reported, errors);
  }

  /** The signals collected from the rules are all rule errors. */
  lemma {:induction false} CollectAllErrors(rules: seq<Rule>, eval: Condition -> Result<bool>)
    ensures forall sig :: sig in Collect(rules, ErrorOf(eval)) ==> sig.RuleError?
  {
    if rules != [] {
      CollectAllErrors(rules[..|rules| - 1], eval);
    }
  }

  /** With the default rules the catch-all guarantees a match: the fallback is never used. */
  lemma DefaultAlwaysMatches(sub: Submission, scoreOf: Value -> Option<LeadScore>,
                             floatOf: string -> Option<real>, show: real -> string)
    ensures MatchIndex(DEFAULT_RULES, Conditions(sub, floatOf)) < |DEFAULT_RULES|
    ensures Routed(DEFAULT_RULES, sub, scoreOf, Conditions(sub, floatOf), show).matchedRule != "fallback"
  {
    var eval := Conditions(sub, floatOf);
    assert eval(DEFAULT_RULES[7].condition) == Ok(true);
  }

  /** A submission the spam filter accepts is rejected, with no target and no bot. */
  lemma SpamIsRejected(sub: Submission, scoreOf: Value -> Option<LeadScore>,
                       floatOf: string -> Option<real>, show: real -> string)
    requires IsSpam(sub) == Ok(true)
    ensures var r := Routed(DEFAULT_RULES, sub, scoreOf, Conditions(sub, floatOf), show);
      r.decision == Reject && r.targetStage.None? && r.assignedBot.None? && r.matchedRule == "spam_filter"
  {
    RouteFirstMatch(DEFAULT_RULES, sub, scoreOf, Conditions(sub, floatOf), show, 0);
  }

  /** A submission no other default rule claims is escalated to the qualification bot at the contact stage. */
  lemma UnclaimedIsEscalated(sub: Submission, scoreOf: Value -> Option<LeadScore>,
                             floatOf: string -> Option<real>, show: real -> string)
    requires forall c :: c != Always ==> Holds(c, sub, floatOf) != Ok(true)
    ensures var r := Routed(DEFAULT_RULES, sub, scoreOf, Conditions(sub, floatOf), show);
      r.decision == Escalate && r.targetStage == Some(Contact) && r.assignedBot == Some(QualificationBot)
      && r.matchedRule == "escalate_unclear"
  {
    var rules := DEFAULT_RULES;
    var eval := Conditions(sub, floatOf);
    forall j | 0 <= j < 7 ensures eval(rules[j].condition) != Ok(true) {
      assert rules[j].condition != Always;
    }
    RouteFirstMatch(rules, sub, scoreOf, eval, show, 7);
  }

  /** A page of the intake database: its id and the submission read from it. */
  datatype Page = Page(id: string, data: Submission)

  datatype FunnelEntry = FunnelEntry(name: Value, stage: FunnelStage, confidence: real, sourceSubmission: string)

  /** What `process_new_submissions` writes back for one routed page. */
  datatype IntakeUpdate = IntakeUpdate(pageId: string, status: IntakeStatus, note: string, entry: Option<FunnelEntry>)

  /**
   * The intake page's new status and routing note (the first 200
   * characters of the reasoning), and the funnel entry created for a
   * routing that is not a rejection and has a target stage.
   */
  function UpdateFor(page: Page, result: RoutingResult): (u: IntakeUpdate)
    ensures u.pageId == page.id
    ensures u.status == Rejected <==> result.decision == Reject
    ensures u.status == Triaged <==> result.decision != Reject
    ensures u.entry.Some? <==> result.decision != Reject && result.targetStage.Some?
    ensures u.entry.Some? ==>
      u.entry.value.stage == result.targetStage.value && u.entry.value.confidence == result.confidence && u.entry.value.sourceSubmission == page.id
    ensures |u.note| == if |result.reasoning| <= 200 then |result.reasoning| else 200
    ensures u.note == result.reasoning[..|u.note|]
  {
    var status := if result.decision == Reject then Rejected else Triaged;
    var note := if |result.reasoning| <= 200 then result.reasoning else result.reasoning[..200];
    var entry :=
      if result.decision != Reject && result.targetStage.Some?
      then Some(FunnelEntry(GetDefault(page.data, "org_name", Str("Unknown")), result.targetStage.value,
                            result.confidence, page.id))
      else None;
    IntakeUpdate(page.id, status, note, entry)
  }

  /** Every default rule but the spam filter has a target stage. */
  lemma DefaultRulesTargeted()
    ensures forall i :: 0 <= i < |DEFAULT_RULES| && DEFAULT_RULES[i].decision != Reject ==>
      DEFAULT_RULES[i].targetStage.Some?
  {
  }

  /** When every non-rejecting rule has a target stage, so does every routing that is not a rejection. */
  lemma RoutedTargeted(rules: seq<Rule>, sub: Submission, scoreOf: Value -> Option<LeadScore>,
                       eval: Condition -> Result<bool>, show: real -> string)
    requires forall i :: 0 <= i < |rules| && rules[i].decision != Reject ==> rules[i].targetStage.Some?
    ensures var r := Routed(rules, sub, scoreOf, eval, show);
      r.decision != Reject ==> r.targetStage.Some?
  {
  }

  /** With the default rules a funnel entry is created exactly for the triaged pages. */
  lemma DefaultEntryIffTriaged(page: Page, scoreOf: Value -> Option<LeadScore>,
                               floatOf: string -> Option<real>, show: real -> string)
    ensures var u := UpdateFor(page, Routed(DEFAULT_RULES, page.data, scoreOf, Conditions(page.data, floatOf), show));
      u.entry.Some? <==> u.status == Triaged
  {
    DefaultRulesTargeted();
    RoutedTargeted(DEFAULT_RULES, page.data, scoreOf, Conditions(page.data, floatOf), show);
  }

  /** The routing of one page. */
  function RoutePage(rules: seq<Rule>, scoreOf: Value -> Option<LeadScore>, floatOf: string -> Option<real>,
                     show: real -> string): Page -> RoutingResult
  {
    (p: Page) => Routed(rules, p.data, scoreOf, Conditions(p.data, floatOf), show)
  }

  /** The update written for one page. */
  function UpdatePage(rules: seq<Rule>, scoreOf: Value -> Option<LeadScore>, floatOf: string -> Option<real>,
                      show: real -> string): Page -> IntakeUpdate
  {
    (p: Page) => UpdateFor(p, RoutePage(rules, scoreOf, floatOf, show)(p))
  }

  /**
   * `process_new_submissions` over the pages read: page by page, the
   * routing and the update it calls for, in order.
   */
  method ProcessNewSubmissions(rules: seq<Rule>, pages: seq<Page>, scoreOf: Value -> Option<LeadScore>,
                               floatOf: string -> Option<real>, show: real -> string)
    returns (results: seq<RoutingResult>, updates: seq<IntakeUpdate>)
    ensures results == Map(RoutePage(rules, scoreOf, floatOf, show), pages)
    ensures updates == Map(UpdatePage(rules, scoreOf, floatOf, show), pages)
  {
    results := [];
    updates := [];
    for i := 0 to |pages|
      invariant results == Map(RoutePage(rules, scoreOf, floatOf, show), pages[..i])
      invariant updates == Map(UpdatePage(rules, scoreOf, floatOf, show), pages[..i])
    {
      var result := Route(rules, pages[i].data, scoreOf, Conditions(pages[i].data, floatOf), show);
      MapPrefix(RoutePage(rules, scoreOf, floatOf, show), pages, i);
      MapPrefix(UpdatePage(rules, scoreOf, floatOf, show), pages, i);
      results := results + [result];
      updates := updates + [UpdateFor(pages[i], result)];
    }
    assert pages[..|pages|] == pages;
  }

  /** The lead scorer a router holds: the default one, or one given to it. */
  datatype Scorer = DefaultScorer | Given(scoreOf: Value -> Option<LeadScore>)

  /**
   * The lead-score step of `route` as written: the default scorer has no
   * `get_score`, and a score has no `total_score` (nor a tier with a
   * `.value`); either raises AttributeError before any rule is tried, so
   * the step never records a signal.
   */
  function LeadStepAsWritten(sub: Submission, scorer: Scorer): (r: Result<seq<Signal>>)
    ensures r.Ok? <==> !IsTruthy(Get(sub, "contact_id"))
                       || (scorer.Given? && scorer.scoreOf(Get(sub, "contact_id")).None?)
    ensures r.Ok? ==> r.value == []
  {
    var contact := Get(sub, "contact_id");
    if !IsTruthy(contact) then Ok([])
    else if scorer.DefaultScorer? then Err("AttributeError")
    else
      var score := scorer.scoreOf(contact);
      if score.None? then Ok([])
      else Err("AttributeError")
  }

  /** `route` as written: it raises whenever the lead-score step does. */
  function RoutedAsWritten(rules: seq<Rule>, sub: Submission, scorer: Scorer,
                           eval: Condition -> Result<bool>, show: real -> string): Result<RoutingResult>
  {
    var step := LeadStepAsWritten(sub, scorer);
    if step.Err? then Err(step.error)
    else
      // a step that does not raise found no score, so no score is used
      var k := MatchIndex(rules, eval);
      var signals := step.value + Collect(rules[..k], ErrorOf(eval));
      Ok(if k < |rules| then Outcome(rules[k], sub, None, signals, show) else Fallback(sub, signals))
  }

  /** As written, the default router raises for every submission that has a contact id. */
  lemma DefaultScorerRaisesAsWritten(rules: seq<Rule>, sub: Submission, eval: Condition -> Result<bool>,
                                     show: real -> string)
    requires IsTruthy(Get(sub, "contact_id"))
    ensures RoutedAsWritten(rules, sub, DefaultScorer, eval, show) == Err("AttributeError")
  {
  }

  /**
   * As written, a scored contact makes `route` raise, so the hot-lead and
   * cold-lead confidence boosts are never applied.
   */
  lemma ScoredLeadRaisesAsWritten(rules: seq<Rule>, sub: Submission, scoreOf: Value -> Option<LeadScore>,
                                  eval: Condition -> Result<bool>, show: real -> string)
    ensures var r := RoutedAsWritten(rules, sub, Given(scoreOf), eval, show);
      r.Ok? ==> r.value.confidence <= 0.8
    ensures var contact := Get(sub, "contact_id");
      IsTruthy(contact) && scoreOf(contact).Some? ==>
        RoutedAsWritten(rules, sub, Given(scoreOf), eval, show) == Err("AttributeError")
  {
  }

  /**
   * Corrected: `route` always returns a result, and a scored contact's
   * signal carries the score and the tier's text; a hot lead lifts an
   * auto-qualifying match's confidence by the boost.
   */
  lemma RouteRecordsLeadScore(rules: seq<Rule>, sub: Submission, scoreOf: Value -> Option<LeadScore>,
                              eval: Condition -> Result<bool>, show: real -> string, score: LeadScore)
    requires IsTruthy(Get(sub, "contact_id")) && scoreOf(Get(sub, "contact_id")) == Some(score)
    requires score.tier != ""
    ensures var r := Routed(rules, sub, scoreOf, eval, show);
      |r.signals| >= 1 && r.signals[0] == LeadScoreSignal(score.totalScore, Some(score.tier))
    ensures var k := MatchIndex(rules, eval);
      k < |rules| && score.tier == "hot" && rules[k].decision == AutoQualify && rules[k].priority >= 80 ==>
        Routed(rules, sub, scoreOf, eval, show).confidence >= 0.9
  {
  }
}
