/**
 * The failure handler: first-match-wins classification of an error text
 * over a fixed severity table, the fixed response policy of each severity,
 * the failure log that records one entry per handled failure, and the
 * statistics computed over that log.
 */
module FailureHandler {
  import opened Wrappers
  import opened Strings
  import Tally

  datatype Severity = LOW | MEDIUM | HIGH | CRITICAL

  /** `SEVERITY_MATRIX`, in declaration order. */
  const SeverityMatrix: seq<(string, Severity)> := [
    ("task_timeout", MEDIUM),
    ("task_error", MEDIUM),
    ("task_validation_failed", MEDIUM),
    ("task_constraint_violation", HIGH),
    ("api_error", MEDIUM),
    ("api_rate_limit", LOW),
    ("network_error", MEDIUM),
    ("disk_full", CRITICAL),
    ("out_of_memory", CRITICAL),
    ("data_corruption", CRITICAL),
    ("data_missing", MEDIUM),
    ("schema_mismatch", MEDIUM),
    ("unauthorized", HIGH),
    ("forbidden_action", CRITICAL),
    ("credential_expired", HIGH),
    ("unknown", MEDIUM)
  ]

  datatype Classification = Classification(failureType: string, severity: Severity)

  /** The fields of the caller's context object that the handler reads. */
  datatype Context = Context(
    isSecurityRelated: bool,
    isDataCritical: bool,
    taskId: Option<string>,
    runId: Option<string>)

  /** A table key matches when the text contains it with its first '_' made a space, or removed. */
  predicate KeyMatches(text: string, key: string)
  {
    Contains(text, ReplaceFirst(key, '_', " ")) || Contains(text, ReplaceFirst(key, '_', ""))
  }

  /** For each row of `table`, whether its key matches the text. */
  function KeyHits(text: string, table: seq<(string, Severity)>): (r: seq<bool>)
    ensures |r| == |table|
    ensures forall j :: 0 <= j < |table| ==> r[j] == KeyMatches(text, table[j].0)
  {
    seq(|table|, j requires 0 <= j < |table| => KeyMatches(text, table[j].0))
  }

  /** The first index at or after `i` whose flag is set: the scan that returns at the first match. */
  function FirstHit(flags: seq<bool>, i: nat): (r: Option<nat>)
    requires i <= |flags|
    ensures r.Some? ==> i <= r.value < |flags| && flags[r.value]
    ensures r.Some? ==> forall j :: i <= j < r.value ==> !flags[j]
    ensures r.None? ==> forall j :: i <= j < |flags| ==> !flags[j]
    decreases |flags| - i
  {
    if i == |flags| then None
    else if flags[i] then Some(i)
    else FirstHit(flags, i + 1)
  }

  /** The first row of the severity table whose key matches. */
  function MatrixMatch(text: string): Option<nat>
  {
    FirstHit(KeyHits(text, SeverityMatrix), 0)
  }

  /** The keyword checks and the context flags, tried when no table key matches. */
  function Fallback(text: string, ctx: Context): Classification
  {
    if Contains(text, "timeout") then Classification("task_timeout", MEDIUM)
    else if Contains(text, "rate limit") then Classification("api_rate_limit", LOW)
    else if Contains(text, "unauthorized") || Contains(text, "401") then Classification("unauthorized", HIGH)
    else if Contains(text, "forbidden") || Contains(text, "403") then Classification("forbidden_action", CRITICAL)
    else if Contains(text, "not found") || Contains(text, "404") then Classification("data_missing", MEDIUM)
    else if Contains(text, "disk") || Contains(text, "space") then Classification("disk_full", CRITICAL)
    else if Contains(text, "memory") then Classification("out_of_memory", CRITICAL)
    else if ctx.isSecurityRelated then Classification("security_failure", HIGH)
    else if ctx.isDataCritical then Classification("data_corruption", CRITICAL)
    else Classification("unknown", MEDIUM)
  }

  /** `classifyFailure` as a value: it depends only on the lower-cased text and the flags. */
  function Classify(error: string, ctx: Context): Classification
  {
    var text := LowerStr(error);
    match MatrixMatch(text)
    case Some(i) => Classification(SeverityMatrix[i].0, SeverityMatrix[i].1)
    case None => Fallback(text, ctx)
  }

  /** `classifyFailure`: scans the table in order and returns at the first match. */
  method ClassifyFailure(error: string, ctx: Context) returns (c: Classification)
    ensures c == Classify(error, ctx)
  {
    var text := LowerStr(error);
    var i := 0;
    while i < |SeverityMatrix|
      invariant 0 <= i <= |SeverityMatrix|
      invariant MatrixMatch(text) == FirstHit(KeyHits(text, SeverityMatrix), i)
    {
      var (key, severity) := SeverityMatrix[i];
      if Contains(text, ReplaceFirst(key, '_', " ")) || Contains(text, ReplaceFirst(key, '_', "")) {
        return Classification(key, severity);
      }
      i := i + 1;
    }
    c := Fallback(text, ctx);
  }

  /** The first matching key decides, whatever later keys and the fallback would say. */
  lemma ClassifyFirstMatch(error: string, ctx: Context, i: nat)
    requires i < |SeverityMatrix| && KeyMatches(LowerStr(error), SeverityMatrix[i].0)
    requires forall j :: 0 <= j < i ==> !KeyMatches(LowerStr(error), SeverityMatrix[j].0)
    ensures Classify(error, ctx) == Classification(SeverityMatrix[i].0, SeverityMatrix[i].1)
  {
    ScanFirst(LowerStr(error), i);
  }

  /** With no matching key, the keyword checks and the flags decide. */
  lemma ClassifyNoMatch(error: string, ctx: Context)
    requires forall j :: 0 <= j < |SeverityMatrix| ==> !KeyMatches(LowerStr(error), SeverityMatrix[j].0)
    ensures Classify(error, ctx) == Fallback(LowerStr(error), ctx)
  {
    ScanNone(LowerStr(error));
  }

  /** Whenever the type reported is a table key, the severity is that key's table entry. */
  lemma SeverityAgreesWithMatrix(error: string, ctx: Context, i: nat)
    requires i < |SeverityMatrix| && Classify(error, ctx).failureType == SeverityMatrix[i].0
    ensures Classify(error, ctx).severity == SeverityMatrix[i].1
  {
    var m := MatrixMatch(LowerStr(error));
    if m.Some? {
      KeysDistinct(m.value, i);
    } else {
      FallbackAgrees(LowerStr(error), ctx, i);
    }
  }

  /** The fallback's types that are table keys carry the table's severities. */
  lemma FallbackAgrees(text: string, ctx: Context, i: nat)
    requires i < |SeverityMatrix| && Fallback(text, ctx).failureType == SeverityMatrix[i].0
    ensures Fallback(text, ctx).severity == SeverityMatrix[i].1
  {
    if Contains(text, "timeout") { KeysDistinct(0, i); }
    else if Contains(text, "rate limit") { KeysDistinct(5, i); }
    else if Contains(text, "unauthorized") || Contains(text, "401") { KeysDistinct(12, i); }
    else if Contains(text, "forbidden") || Contains(text, "403") { KeysDistinct(13, i); }
    else if Contains(text, "not found") || Contains(text, "404") { KeysDistinct(10, i); }
    else if Contains(text, "disk") || Contains(text, "space") { KeysDistinct(7, i); }
    else if Contains(text, "memory") { KeysDistinct(8, i); }
    else if ctx.isSecurityRelated { KeyNotSecurityFailure(i); }
    else if ctx.isDataCritical { KeysDistinct(9, i); }
    else { KeysDistinct(15, i); }
  }

  /** The table keys are pairwise distinct. */
  lemma KeysDistinct(a: nat, b: nat)
    requires a < |SeverityMatrix| && b < |SeverityMatrix|
    requires SeverityMatrix[a].0 == SeverityMatrix[b].0
    ensures a == b
  {
    var keys := SeverityMatrix[a].0;
    assert |keys| == |SeverityMatrix[b].0|;
    // keys of equal length are told apart by one character
    assert keys[0] == SeverityMatrix[b].0[0];
    assert keys[|keys| - 1] == SeverityMatrix[b].0[|keys| - 1];
    if |keys| > 5 {
      assert keys[5] == SeverityMatrix[b].0[5];
    }
  }

  /** The flag-based type "security_failure" is not a table key. */
  lemma KeyNotSecurityFailure(i: nat)
    requires i < |SeverityMatrix|
    ensures SeverityMatrix[i].0 != "security_failure"
  {
    var key := SeverityMatrix[i].0;
    if |key| == |"security_failure"| {
      assert key[0] != 's';
    }
  }

  /** A row whose key has a character (other than '_') the text lacks cannot match. */
  lemma KeyMisses(text: string, i: nat, cs: string, j: nat, p: nat)
    requires i < |SeverityMatrix| && Avoids(text, cs) && j < |cs| && cs[j] != '_'
    requires p < |SeverityMatrix[i].0| && SeverityMatrix[i].0[p] == cs[j]
    ensures !KeyMatches(text, SeverityMatrix[i].0)
  {
    var key := SeverityMatrix[i].0;
    var c := cs[j];
    assert key[p] in key;
    assert c !in text;
    ReplaceFirstKeeps(key, '_', " ", c);
    ReplaceFirstKeeps(key, '_', "", c);
    LacksChar(text, ReplaceFirst(key, '_', " "), c);
    LacksChar(text, ReplaceFirst(key, '_', ""), c);
  }

  lemma RateLimitKeyMisses(text: string)
    requires '_' !in text
    ensures !KeyMatches(text, SeverityMatrix[5].0)
  {
    var key := SeverityMatrix[5].0;
    assert key[3] == '_' && key[8] == '_';
    ReplaceFirstKeepsSecond(key, '_', " ", 3, 8);
    ReplaceFirstKeepsSecond(key, '_', "", 3, 8);
    LacksChar(text, ReplaceFirst(key, '_', " "), '_');
    LacksChar(text, ReplaceFirst(key, '_', ""), '_');
  }

  /** The scan stops at row `i` when it matches and no earlier row does. */
  lemma ScanFirst(text: string, i: nat)
    requires i < |SeverityMatrix| && KeyMatches(text, SeverityMatrix[i].0)
    requires forall j :: 0 <= j < i ==> !KeyMatches(text, SeverityMatrix[j].0)
    ensures MatrixMatch(text) == Some(i)
  {
    HitsFirst(text, SeverityMatrix, i);
  }

  /** The scan over any table stops at its first matching row. */
  lemma HitsFirst(text: string, table: seq<(string, Severity)>, i: nat)
    requires i < |table| && KeyMatches(text, table[i].0)
    requires forall j :: 0 <= j < i ==> !KeyMatches(text, table[j].0)
    ensures FirstHit(KeyHits(text, table), 0) == Some(i)
  {
    var hits := KeyHits(text, table);
    var r := FirstHit(hits, 0);
    assert hits[i];
    if r.Some? && r.value < i {
      assert false;
    }
  }

  /** The scan finds nothing when no row matches. */
  lemma ScanNone(text: string)
    requires forall j :: 0 <= j < |SeverityMatrix| ==> !KeyMatches(text, SeverityMatrix[j].0)
    ensures MatrixMatch(text) == None
  {
  }

  lemma LowerConnectionTimeout()
    ensures LowerStr("Connection timeout") == "connection timeout"
  {
    LowerStrIs("Connection timeout", "connection timeout");
  }

  lemma MissesConnectionTimeout(text: string)
    requires Avoids(text, "adfkrsw")
    ensures forall j :: 0 <= j < 16 ==> !KeyMatches(text, SeverityMatrix[j].0)
  {
    forall j | 0 <= j < 16 ensures !KeyMatches(text, SeverityMatrix[j].0) {
      if j == 0 { KeyMisses(text, j, "adfkrsw", 0, 1); }
      else if j == 1 { KeyMisses(text, j, "adfkrsw", 0, 1); }
      else if j == 2 { KeyMisses(text, j, "adfkrsw", 0, 1); }
      else if j == 3 { KeyMisses(text, j, "adfkrsw", 0, 1); }
      else if j == 4 { KeyMisses(text, j, "adfkrsw", 0, 0); }
      else if j == 5 { KeyMisses(text, j, "adfkrsw", 0, 0); }
      else if j == 6 { KeyMisses(text, j, "adfkrsw", 6, 3); }
      else if j == 7 { KeyMisses(text, j, "adfkrsw", 1, 0); }
      else if j == 8 { KeyMisses(text, j, "adfkrsw", 2, 5); }
      else if j == 9 { KeyMisses(text, j, "adfkrsw", 1, 0); }
      else if j == 10 { KeyMisses(text, j, "adfkrsw", 1, 0); }
      else if j == 11 { KeyMisses(text, j, "adfkrsw", 5, 0); }
      else if j == 12 { KeyMisses(text, j, "adfkrsw", 0, 2); }
      else if j == 13 { KeyMisses(text, j, "adfkrsw", 2, 0); }
      else if j == 14 { KeyMisses(text, j, "adfkrsw", 4, 1); }
      else { KeyMisses(text, j, "adfkrsw", 3, 2); }
    }
  }

  lemma ScanConnectionTimeout(text: string)
    requires text == "connection timeout"
    ensures MatrixMatch(text) == None
  {
    MissesConnectionTimeout(text);
    ScanNone(text);
  }

  lemma FallbackConnectionTimeout(text: string, ctx: Context)
    requires text == "connection timeout"
    ensures Fallback(text, ctx) == Classification("task_timeout", MEDIUM)
  {
    assert Avoids(text, "adfkrsw");
    assert text[11..18] == "timeout";
    ContainsAt(text, "timeout", 11);
  }

  /** "Connection timeout" is classified task_timeout, MEDIUM. */
  lemma VectorConnectionTimeout(ctx: Context)
    ensures Classify("Connection timeout", ctx) == Classification("task_timeout", MEDIUM)
  {
    LowerConnectionTimeout();
    ScanConnectionTimeout("connection timeout");
    FallbackConnectionTimeout("connection timeout", ctx);
  }

  lemma LowerRateLimit()
    ensures LowerStr("API rate limit exceeded") == "api rate limit exceeded"
  {
    LowerStrIs("API rate limit exceeded", "api rate limit exceeded");
  }

  lemma MissesRateLimit(text: string)
    requires Avoids(text, "fnosu") && '_' !in text
    ensures forall j :: 0 <= j < 16 ==> !KeyMatches(text, SeverityMatrix[j].0)
  {
    forall j | 0 <= j < 16 ensures !KeyMatches(text, SeverityMatrix[j].0) {
      if j == 0 { KeyMisses(text, j, "fnosu", 3, 2); }
      else if j == 1 { KeyMisses(text, j, "fnosu", 3, 2); }
      else if j == 2 { KeyMisses(text, j, "fnosu", 3, 2); }
      else if j == 3 { KeyMisses(text, j, "fnosu", 3, 2); }
      else if j == 4 { KeyMisses(text, j, "fnosu", 2, 7); }
      else if j == 5 { RateLimitKeyMisses(text); }
      else if j == 6 { KeyMisses(text, j, "fnosu", 1, 0); }
      else if j == 7 { KeyMisses(text, j, "fnosu", 3, 2); }
      else if j == 8 { KeyMisses(text, j, "fnosu", 2, 0); }
      else if j == 9 { KeyMisses(text, j, "fnosu", 2, 6); }
      else if j == 10 { KeyMisses(text, j, "fnosu", 3, 7); }
      else if j == 11 { KeyMisses(text, j, "fnosu", 3, 0); }
      else if j == 12 { KeyMisses(text, j, "fnosu", 4, 0); }
      else if j == 13 { KeyMisses(text, j, "fnosu", 0, 0); }
      else if j == 14 { KeyMisses(text, j, "fnosu", 1, 5); }
      else { KeyMisses(text, j, "fnosu", 4, 0); }
    }
  }

  lemma ScanRateLimit(text: string)
    requires text == "api rate limit exceeded"
    ensures MatrixMatch(text) == None
  {
    MissesRateLimit(text);
    ScanNone(text);
  }

  lemma FallbackRateLimit(text: string, ctx: Context)
    requires text == "api rate limit exceeded"
    ensures Fallback(text, ctx) == Classification("api_rate_limit", LOW)
  {
    assert Avoids(text, "fnosu");
    AvoidsNotContains(text, "fnosu", 2, "timeout", 4);
    assert text[4..14] == "rate limit";
    ContainsAt(text, "rate limit", 4);
  }

  /** "API rate limit exceeded" is classified api_rate_limit, LOW. */
  lemma VectorRateLimit(ctx: Context)
    ensures Classify("API rate limit exceeded", ctx) == Classification("api_rate_limit", LOW)
  {
    LowerRateLimit();
    ScanRateLimit("api rate limit exceeded");
    FallbackRateLimit("api rate limit exceeded", ctx);
  }

  lemma LowerUnauthorized()
    ensures LowerStr("Unauthorized access") == "unauthorized access"
  {
    LowerStrIs("Unauthorized access", "unauthorized access");
  }

  lemma MissesUnauthorized(text: string)
    requires Avoids(text, "fkmpw")
    ensures forall j :: 0 <= j < 12 ==> !KeyMatches(text, SeverityMatrix[j].0)
  {
    forall j | 0 <= j < 12 ensures !KeyMatches(text, SeverityMatrix[j].0) {
      if j == 0 { KeyMisses(text, j, "fkmpw", 1, 3); }
      else if j == 1 { KeyMisses(text, j, "fkmpw", 1, 3); }
      else if j == 2 { KeyMisses(text, j, "fkmpw", 1, 3); }
      else if j == 3 { KeyMisses(text, j, "fkmpw", 1, 3); }
      else if j == 4 { KeyMisses(text, j, "fkmpw", 3, 1); }
      else if j == 5 { KeyMisses(text, j, "fkmpw", 3, 1); }
      else if j == 6 { KeyMisses(text, j, "fkmpw", 4, 3); }
      else if j == 7 { KeyMisses(text, j, "fkmpw", 1, 3); }
      else if j == 8 { KeyMisses(text, j, "fkmpw", 0, 5); }
      else if j == 9 { KeyMisses(text, j, "fkmpw", 3, 10); }
      else if j == 10 { KeyMisses(text, j, "fkmpw", 2, 5); }
      else { KeyMisses(text, j, "fkmpw", 2, 4); }
    }
  }

  lemma HitUnauthorized(text: string)
    requires text == "unauthorized access"
    ensures KeyMatches(text, SeverityMatrix[12].0)
  {
    ReplaceFirstAbsent("unauthorized", '_', " ");
    assert text[0..12] == "unauthorized";
    ContainsAt(text, "unauthorized", 0);
  }

  lemma ScanUnauthorized(text: string)
    requires text == "unauthorized access"
    ensures MatrixMatch(text) == Some(12)
  {
    MissesUnauthorized(text);
    HitUnauthorized(text);
    ScanFirst(text, 12);
  }

  /** "Unauthorized access" is classified unauthorized, HIGH. */
  lemma VectorUnauthorized(ctx: Context)
    ensures Classify("Unauthorized access", ctx) == Classification("unauthorized", HIGH)
  {
    LowerUnauthorized();
    ScanUnauthorized("unauthorized access");
  }

  lemma LowerForbidden()
    ensures LowerStr("Forbidden action blocked") == "forbidden action blocked"
  {
    LowerStrIs("Forbidden action blocked", "forbidden action blocked");
  }

  lemma MissesForbidden(text: string)
    requires Avoids(text, "mpsuw")
    ensures forall j :: 0 <= j < 13 ==> !KeyMatches(text, SeverityMatrix[j].0)
  {
    forall j | 0 <= j < 13 ensures !KeyMatches(text, SeverityMatrix[j].0) {
      if j == 0 { KeyMisses(text, j, "mpsuw", 2, 2); }
      else if j == 1 { KeyMisses(text, j, "mpsuw", 2, 2); }
      else if j == 2 { KeyMisses(text, j, "mpsuw", 2, 2); }
      else if j == 3 { KeyMisses(text, j, "mpsuw", 2, 2); }
      else if j == 4 { KeyMisses(text, j, "mpsuw", 1, 1); }
      else if j == 5 { KeyMisses(text, j, "mpsuw", 1, 1); }
      else if j == 6 { KeyMisses(text, j, "mpsuw", 4, 3); }
      else if j == 7 { KeyMisses(text, j, "mpsuw", 2, 2); }
      else if j == 8 { KeyMisses(text, j, "mpsuw", 3, 1); }
      else if j == 9 { KeyMisses(text, j, "mpsuw", 3, 9); }
      else if j == 10 { KeyMisses(text, j, "mpsuw", 0, 5); }
      else if j == 11 { KeyMisses(text, j, "mpsuw", 2, 0); }
      else { KeyMisses(text, j, "mpsuw", 3, 0); }
    }
  }

  lemma HitForbidden(text: string)
    requires text == "forbidden action blocked"
    ensures KeyMatches(text, SeverityMatrix[13].0)
  {
    IndexOfFromAt("forbidden_action", '_', 0, 9);
    assert ReplaceFirst("forbidden_action", '_', " ") == "forbidden action";
    assert text[0..16] == "forbidden action";
    ContainsAt(text, "forbidden action", 0);
  }

  lemma ScanForbidden(text: string)
    requires text == "forbidden action blocked"
    ensures MatrixMatch(text) == Some(13)
  {
    MissesForbidden(text);
    HitForbidden(text);
    ScanFirst(text, 13);
  }

  /** "Forbidden action blocked" is classified forbidden_action, CRITICAL. */
  lemma VectorForbidden(ctx: Context)
    ensures Classify("Forbidden action blocked", ctx) == Classification("forbidden_action", CRITICAL)
  {
    LowerForbidden();
    ScanForbidden("forbidden action blocked");
  }

  lemma LowerDiskSpace()
    ensures LowerStr("Out of disk space") == "out of disk space"
  {
    LowerStrIs("Out of disk space", "out of disk space");
  }

  lemma MissesDiskSpace(text: string)
    requires Avoids(text, "4hlmnrv")
    ensures forall j :: 0 <= j < 16 ==> !KeyMatches(text, SeverityMatrix[j].0)
  {
    forall j | 0 <= j < 16 ensures !KeyMatches(text, SeverityMatrix[j].0) {
      if j == 0 { KeyMisses(text, j, "4hlmnrv", 3, 7); }
      else if j == 1 { KeyMisses(text, j, "4hlmnrv", 5, 6); }
      else if j == 2 { KeyMisses(text, j, "4hlmnrv", 6, 5); }
      else if j == 3 { KeyMisses(text, j, "4hlmnrv", 4, 7); }
      else if j == 4 { KeyMisses(text, j, "4hlmnrv", 5, 5); }
      else if j == 5 { KeyMisses(text, j, "4hlmnrv", 5, 4); }
      else if j == 6 { KeyMisses(text, j, "4hlmnrv", 4, 0); }
      else if j == 7 { KeyMisses(text, j, "4hlmnrv", 2, 7); }
      else if j == 8 { KeyMisses(text, j, "4hlmnrv", 3, 7); }
      else if j == 9 { KeyMisses(text, j, "4hlmnrv", 5, 7); }
      else if j == 10 { KeyMisses(text, j, "4hlmnrv", 3, 5); }
      else if j == 11 { KeyMisses(text, j, "4hlmnrv", 1, 2); }
      else if j == 12 { KeyMisses(text, j, "4hlmnrv", 4, 1); }
      else if j == 13 { KeyMisses(text, j, "4hlmnrv", 5, 2); }
      else if j == 14 { KeyMisses(text, j, "4hlmnrv", 5, 1); }
      else { KeyMisses(text, j, "4hlmnrv", 4, 1); }
    }
  }

  lemma ScanDiskSpace(text: string)
    requires text == "out of disk space"
    ensures MatrixMatch(text) == None
  {
    MissesDiskSpace(text);
    ScanNone(text);
  }

  lemma FallbackDiskSpace(text: string, ctx: Context)
    requires text == "out of disk space"
    ensures Fallback(text, ctx) == Classification("disk_full", CRITICAL)
  {
    assert Avoids(text, "4hlmnrv");
    AvoidsNotContains(text, "4hlmnrv", 3, "timeout", 2);
    AvoidsNotContains(text, "4hlmnrv", 5, "rate limit", 0);
    AvoidsNotContains(text, "4hlmnrv", 4, "unauthorized", 1);
    AvoidsNotContains(text, "4hlmnrv", 0, "401", 0);
    AvoidsNotContains(text, "4hlmnrv", 5, "forbidden", 2);
    AvoidsNotContains(text, "4hlmnrv", 0, "403", 0);
    AvoidsNotContains(text, "4hlmnrv", 4, "not found", 0);
    AvoidsNotContains(text, "4hlmnrv", 0, "404", 0);
    assert text[7..11] == "disk";
    ContainsAt(text, "disk", 7);
  }

  /** "Out of disk space" is classified disk_full, CRITICAL. */
  lemma VectorDiskSpace(ctx: Context)
    ensures Classify("Out of disk space", ctx) == Classification("disk_full", CRITICAL)
  {
    LowerDiskSpace();
    ScanDiskSpace("out of disk space");
    FallbackDiskSpace("out of disk space", ctx);
  }

  lemma LowerRandomError()
    ensures LowerStr("Random unknown error") == "random unknown error"
  {
    LowerStrIs("Random unknown error", "random unknown error");
  }

  lemma MissesRandomError(text: string)
    requires Avoids(text, "cfipst")
    ensures forall j :: 0 <= j < 15 ==> !KeyMatches(text, SeverityMatrix[j].0)
  {
    forall j | 0 <= j < 15 ensures !KeyMatches(text, SeverityMatrix[j].0) {
      if j == 0 { KeyMisses(text, j, "cfipst", 5, 0); }
      else if j == 1 { KeyMisses(text, j, "cfipst", 5, 0); }
      else if j == 2 { KeyMisses(text, j, "cfipst", 5, 0); }
      else if j == 3 { KeyMisses(text, j, "cfipst", 5, 0); }
      else if j == 4 { KeyMisses(text, j, "cfipst", 3, 1); }
      else if j == 5 { KeyMisses(text, j, "cfipst", 3, 1); }
      else if j == 6 { KeyMisses(text, j, "cfipst", 5, 2); }
      else if j == 7 { KeyMisses(text, j, "cfipst", 2, 1); }
      else if j == 8 { KeyMisses(text, j, "cfipst", 5, 2); }
      else if j == 9 { KeyMisses(text, j, "cfipst", 5, 2); }
      else if j == 10 { KeyMisses(text, j, "cfipst", 5, 2); }
      else if j == 11 { KeyMisses(text, j, "cfipst", 4, 0); }
      else if j == 12 { KeyMisses(text, j, "cfipst", 5, 4); }
      else if j == 13 { KeyMisses(text, j, "cfipst", 1, 0); }
      else { KeyMisses(text, j, "cfipst", 0, 0); }
    }
  }

  lemma HitRandomError(text: string)
    requires text == "random unknown error"
    ensures KeyMatches(text, SeverityMatrix[15].0)
  {
    ReplaceFirstAbsent("unknown", '_', " ");
    assert text[7..14] == "unknown";
    ContainsAt(text, "unknown", 7);
  }

  lemma ScanRandomError(text: string)
    requires text == "random unknown error"
    ensures MatrixMatch(text) == Some(15)
  {
    MissesRandomError(text);
    HitRandomError(text);
    ScanFirst(text, 15);
  }

  /** "Random unknown error" is classified unknown, MEDIUM. */
  lemma VectorRandomError(ctx: Context)
    ensures Classify("Random unknown error", ctx) == Classification("unknown", MEDIUM)
  {
    LowerRandomError();
    ScanRandomError("random unknown error");
  }

  // ----------------------------------------------------------- responses

  /** One row of `SEVERITY_RESPONSES`. */
  datatype Response = Response(
    log: bool,
    alert: bool,
    pauseExecution: bool,
    stopExecution: bool,
    preserveState: bool,
    escalate: bool)

  function ResponseFor(s: Severity): Response
  {
    match s
    case LOW => Response(true, false, false, false, false, false)
    case MEDIUM => Response(true, true, false, false, true, false)
    case HIGH => Response(true, true, true, false, true, true)
    case CRITICAL => Response(true, true, false, true, true, true)
  }

  datatype Action = STOP | PAUSE | CONTINUE

  /** The recommended action: stop wins over pause, pause over continue. */
  function ActionFor(s: Severity): (a: Action)
    ensures a == STOP <==> s == CRITICAL
    ensures a == PAUSE <==> s == HIGH
    ensures a == CONTINUE <==> (s == LOW || s == MEDIUM)
  {
    var r := ResponseFor(s);
    if r.stopExecution then STOP else if r.pauseExecution then PAUSE else CONTINUE
  }

  /** Every severity is logged; all but LOW alert and preserve state; HIGH and CRITICAL escalate. */
  lemma ResponsePolicy(s: Severity)
    ensures ResponseFor(s).log
    ensures ResponseFor(s).alert <==> s != LOW
    ensures ResponseFor(s).preserveState <==> s != LOW
    ensures ResponseFor(s).escalate <==> (s == HIGH || s == CRITICAL)
    ensures !(ResponseFor(s).pauseExecution && ResponseFor(s).stopExecution)
  {
  }

  // ------------------------------------------------------------------ log

  datatype FailureRecord = FailureRecord(
    id: string,
    timestamp: int,
    failureType: string,
    severity: Severity,
    error: string,
    taskId: Option<string>,
    runId: Option<string>,
    response: Response,
    snapshotId: Option<string>)

  /** The record `handleFailure` logs; the snapshot id carries the same clock reading. */
  function MakeFailure(error: string, ctx: Context, now: int): (f: FailureRecord)
    ensures f.failureType == Classify(error, ctx).failureType
    ensures f.severity == Classify(error, ctx).severity
    ensures f.response == ResponseFor(f.severity)
    ensures f.snapshotId.Some? <==> f.severity != LOW
    ensures f.error == error && f.taskId == ctx.taskId && f.runId == ctx.runId
  {
    var c := Classify(error, ctx);
    var response := ResponseFor(c.severity);
    FailureRecord(
      "failure-" + IntToString(now), now, c.failureType, c.severity, error, ctx.taskId, ctx.runId,
      response, if response.preserveState then Some("snapshot-" + IntToString(now)) else None)
  }

  datatype FailureStats = FailureStats(
    total: nat,
    bySeverity: map<Severity, nat>,
    byType: map<string, nat>,
    last24h: nat)

  function CountSeverity(fs: seq<FailureRecord>, s: Severity): (r: nat)
    ensures r <= |fs|
  {
    if fs == [] then 0 else CountSeverity(fs[..|fs| - 1], s) + (if fs[|fs| - 1].severity == s then 1 else 0)
  }

  function CountType(fs: seq<FailureRecord>, t: string): (r: nat)
    ensures r <= |fs|
  {
    if fs == [] then 0 else CountType(fs[..|fs| - 1], t) + (if fs[|fs| - 1].failureType == t then 1 else 0)
  }

  function CountSince(fs: seq<FailureRecord>, since: int): (r: nat)
    ensures r <= |fs|
  {
    if fs == [] then 0 else CountSince(fs[..|fs| - 1], since) + (if fs[|fs| - 1].timestamp > since then 1 else 0)
  }

  const DayMs := 24 * 60 * 60 * 1000

  /** Counting one more record by severity bumps exactly that record's severity. */
  lemma SeverityStep(fs: seq<FailureRecord>, i: nat, m: map<Severity, nat>)
    requires i < |fs| && forall s :: Tally.CountOf(m, s) == CountSeverity(fs[..i], s)
    ensures forall s :: Tally.CountOf(Tally.Bump(m, fs[i].severity), s) == CountSeverity(fs[..i + 1], s)
  {
    assert fs[..i + 1][..i] == fs[..i];
  }

  /** Counting one more record by type bumps exactly that record's type. */
  lemma TypeStep(fs: seq<FailureRecord>, i: nat, m: map<string, nat>)
    requires i < |fs| && forall t :: Tally.CountOf(m, t) == CountType(fs[..i], t)
    ensures forall t :: Tally.CountOf(Tally.Bump(m, fs[i].failureType), t) == CountType(fs[..i + 1], t)
  {
    assert fs[..i + 1][..i] == fs[..i];
  }

  /** The failure log file: one record per handled failure, appended in order. */
  class FailureLog {
    var failures: seq<FailureRecord>

    constructor ()
      ensures failures == []
    {
      failures := [];
    }

    /** `handleFailure`: classifies, logs exactly one record, and recommends an action. */
    method HandleFailure(error: string, ctx: Context, now: int) returns (failure: FailureRecord, action: Action)
      modifies this
      ensures failure == MakeFailure(error, ctx, now)
      ensures failures == old(failures) + [failure]
      ensures action == ActionFor(failure.severity)
    {
      var c := ClassifyFailure(error, ctx);
      var response := ResponseFor(c.severity);
      var snapshotId := None;
      if response.preserveState {
        snapshotId := Some("snapshot-" + IntToString(now));
      }
      failure := FailureRecord("failure-" + IntToString(now), now, c.failureType, c.severity, error,
                               ctx.taskId, ctx.runId, response, snapshotId);
      failures := failures + [failure];
      action := if response.stopExecution then STOP else if response.pauseExecution then PAUSE else CONTINUE;
    }

    /** `getFailureStats`: one pass over the log; both tallies account for every record. */
    method GetFailureStats(now: int) returns (stats: FailureStats)
      ensures stats.total == |failures|
      ensures forall s :: Tally.CountOf(stats.bySeverity, s) == CountSeverity(failures, s)
      ensures forall t :: Tally.CountOf(stats.byType, t) == CountType(failures, t)
      ensures Tally.Sum(stats.bySeverity) == stats.total
      ensures Tally.Sum(stats.byType) == stats.total
      ensures stats.last24h == CountSince(failures, now - DayMs)
    {
      var bySeverity: map<Severity, nat> := map[];
      var byType: map<string, nat> := map[];
      var last24h := 0;
      var oneDayAgo := now - DayMs;
      var i := 0;
      while i < |failures|
        invariant 0 <= i <= |failures|
        invariant forall s :: Tally.CountOf(bySeverity, s) == CountSeverity(failures[..i], s)
        invariant forall t :: Tally.CountOf(byType, t) == CountType(failures[..i], t)
        invariant Tally.Sum(bySeverity) == i && Tally.Sum(byType) == i
        invariant last24h == CountSince(failures[..i], oneDayAgo)
      {
        var f := failures[i];
        SeverityStep(failures, i, bySeverity);
        TypeStep(failures, i, byType);
        assert failures[..i + 1][..i] == failures[..i];
        Tally.BumpSum(bySeverity, f.severity);
        Tally.BumpSum(byType, f.failureType);
        bySeverity := Tally.Bump(bySeverity, f.severity);
        byType := Tally.Bump(byType, f.failureType);
        if f.timestamp > oneDayAgo {
          last24h := last24h + 1;
        }
        i := i + 1;
      }
      assert failures[..i] == failures;
      stats := FailureStats(|failures|, bySeverity, byType, last24h);
    }
  }
}
