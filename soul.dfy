/**
 * Controlled self-update of the SOUL and IDENTITY files: the version marker
 * `*vX.Y.Z` read from a file and bumped on every update, a section appended
 * to the markdown, backups taken before each write, an audit trail, and
 * rollback from a backup. Files and backups are maps from names to text;
 * the backup names (which embed a timestamp and a content hash) are inputs.
 */
module SoulUpdater {
  import opened Wrappers
  import opened Strings
  import opened Seqs

  // ---------------------------------------------------------------- versions

  datatype Version = Version(major: nat, minor: nat, patch: nat)

  /** `a` comes after `b` in (major, minor, patch) order. */
  predicate Newer(a: Version, b: Version)
  {
    a.major > b.major || (a.major == b.major && (a.minor > b.minor || (a.minor == b.minor && a.patch > b.patch)))
  }

  /** `bumpVersion`: major and minor reset what follows them; any other type is a patch bump. */
  function BumpVersion(v: Version, bumpType: string): (r: Version)
    ensures Newer(r, v)
    ensures bumpType == "major" ==> r == Version(v.major + 1, 0, 0)
    ensures bumpType == "minor" ==> r == Version(v.major, v.minor + 1, 0)
    ensures bumpType != "major" && bumpType != "minor" ==> r == Version(v.major, v.minor, v.patch + 1)
  {
    match bumpType
    case "major" => Version(v.major + 1, 0, 0)
    case "minor" => Version(v.major, v.minor + 1, 0)
    case _ => Version(v.major, v.minor, v.patch + 1)
  }

  /** A non-empty run of decimal digits. */
  predicate AllDigits(s: string)
  {
    s != [] && forall i :: 0 <= i < |s| ==> IsDigit(s[i])
  }

  /** The version text `major.minor.patch`. */
  function Render(v: Version): string
  {
    NatToString(v.major) + "." + NatToString(v.minor) + "." + NatToString(v.patch)
  }

  /** `version.split('.').map(Number)` for a text whose first three pieces are digit runs. */
  function ParseVersion(text: string): (r: Option<Version>)
  {
    var parts := Split(text, '.');
    if |parts| >= 3 && AllDigits(parts[0]) && AllDigits(parts[1]) && AllDigits(parts[2])
    then Some(Version(DigitsValue(parts[0]), DigitsValue(parts[1]), DigitsValue(parts[2])))
    else None
  }

  /** Three digit runs joined by dots parse as those three numbers. */
  lemma ParseDotted(a: string, b: string, c: string)
    requires AllDigits(a) && AllDigits(b) && AllDigits(c)
    ensures ParseVersion(a + "." + b + "." + c) == Some(Version(DigitsValue(a), DigitsValue(b), DigitsValue(c)))
  {
    assert '.' !in a && '.' !in b && '.' !in c;
    SplitThree(a, b, c, '.');
  }

  /** Rendering a version and parsing it back gives the version. */
  lemma ParseRender(v: Version)
    ensures ParseVersion(Render(v)) == Some(v)
  {
    NatToStringDigits(v.major);
    NatToStringDigits(v.minor);
    NatToStringDigits(v.patch);
    ParseDotted(NatToString(v.major), NatToString(v.minor), NatToString(v.patch));
  }

  // ---------------------------------------------------------- version marker

  /** The number of decimal digits starting at `k`. */
  function DigitRun(s: string, k: nat): (n: nat)
    requires k <= |s|
    ensures k + n <= |s|
    decreases |s| - k
  {
    if k < |s| && IsDigit(s[k]) then 1 + DigitRun(s, k + 1) else 0
  }

  /** The digit run is all digits and is ended by a non-digit or by the end of the text. */
  lemma {:induction false} DigitRunSpec(s: string, k: nat)
    requires k <= |s|
    ensures forall i :: k <= i < k + DigitRun(s, k) ==> IsDigit(s[i])
    ensures k + DigitRun(s, k) < |s| ==> !IsDigit(s[k + DigitRun(s, k)])
    decreases |s| - k
  {
    if k < |s| && IsDigit(s[k]) {
      DigitRunSpec(s, k + 1);
    }
  }

  /** A run of digits ended by a non-digit or by the end of the text is the digit run there. */
  lemma {:induction false} DigitRunIs(s: string, k: nat, n: nat)
    requires k + n <= |s|
    requires forall i :: k <= i < k + n ==> IsDigit(s[i])
    requires k + n < |s| ==> !IsDigit(s[k + n])
    ensures DigitRun(s, k) == n
    decreases n
  {
    if n > 0 {
      assert IsDigit(s[k]);
      DigitRunIs(s, k + 1, n - 1);
    }
  }

  /** A digit run followed by a dot at `k`: the position after the dot. */
  function DottedRun(s: string, k: nat): (e: Option<nat>)
    requires k <= |s|
    ensures e.Some? ==> k + 2 <= e.value <= |s|
  {
    var n := DigitRun(s, k);
    if n > 0 && k + n < |s| && s[k + n] == '.' then Some(k + n + 1) else None
  }

  /** A final digit run at `k` (taken whole, as the greedy match does): its end. */
  function FinalRun(s: string, k: nat): (e: Option<nat>)
    requires k <= |s|
    ensures e.Some? ==> k + 1 <= e.value <= |s|
  {
    var n := DigitRun(s, k);
    if n > 0 then Some(k + n) else None
  }

  /** The end of the marker `*v` digits `.` digits `.` digits starting at `j`, if one starts there. */
  function MarkerEnd(s: string, j: nat): (e: Option<nat>)
    requires j <= |s|
    ensures e.Some? ==> j + 7 <= e.value <= |s|
  {
    if j + 2 <= |s| && s[j] == '*' && s[j + 1] == 'v' then
      match DottedRun(s, j + 2)
      case None => None
      case Some(b) =>
        match DottedRun(s, b)
        case None => None
        case Some(c) => FinalRun(s, c)
    else None
  }

  /** The position of the first marker at or after `from` (the regular-expression match), if any. */
  function FirstMarker(s: string, from: nat): (r: Option<nat>)
    requires from <= |s|
    ensures r.Some? ==> from <= r.value < |s| && MarkerEnd(s, r.value).Some?
    ensures r.Some? ==> forall j :: from <= j < r.value ==> MarkerEnd(s, j).None?
    ensures r.None? ==> forall j :: from <= j <= |s| ==> MarkerEnd(s, j).None?
    decreases |s| - from
  {
    if MarkerEnd(s, from).Some? then Some(from)
    else if from == |s| then None
    else FirstMarker(s, from + 1)
  }

  /** The version text of the marker at `j`. */
  function MarkerText(s: string, j: nat): string
    requires j <= |s| && MarkerEnd(s, j).Some?
  {
    s[j + 2..MarkerEnd(s, j).value]
  }

  /** What a dotted run consists of. */
  lemma DottedRunParts(s: string, k: nat)
    requires k <= |s| && DottedRun(s, k).Some?
    ensures var e := DottedRun(s, k).value;
      AllDigits(s[k..e - 1]) && s[e - 1] == '.'
  {
    var e := DottedRun(s, k).value;
    DigitRunSpec(s, k);
    assert forall i :: k <= i < e - 1 ==> s[k..e - 1][i - k] == s[i];
  }

  lemma FinalRunParts(s: string, k: nat)
    requires k <= |s| && FinalRun(s, k).Some?
    ensures var e := FinalRun(s, k).value;
      AllDigits(s[k..e]) && (e < |s| ==> !IsDigit(s[e]))
  {
    var e := FinalRun(s, k).value;
    DigitRunSpec(s, k);
    assert forall i :: 0 <= i < e - k ==> s[k..e][i] == s[k + i];
  }

  /** A slice cut at two single separators. */
  lemma SliceAtTwo<T>(s: seq<T>, a: nat, b: nat, c: nat, e: nat)
    requires a < b < c <= e <= |s|
    ensures s[a..e] == s[a..b - 1] + [s[b - 1]] + s[b..c - 1] + [s[c - 1]] + s[c..e]
  {
  }

  /** A marker's text is three digit runs joined by dots, so it parses. */
  lemma MarkerTextParses(s: string, j: nat)
    requires j <= |s| && MarkerEnd(s, j).Some?
    ensures ParseVersion(MarkerText(s, j)).Some?
  {
    var a := j + 2;
    var b := DottedRun(s, a).value;
    var c := DottedRun(s, b).value;
    var e := MarkerEnd(s, j).value;
    DottedRunParts(s, a);
    DottedRunParts(s, b);
    FinalRunParts(s, c);
    SliceAtTwo(s, a, b, c, e);
    ParseDotted(s[a..b - 1], s[b..c - 1], s[c..e]);
  }

  /** No character after the marker's star is another star. */
  lemma MarkerHasOneStar(s: string, j: nat, i: nat)
    requires j <= |s| && MarkerEnd(s, j).Some? && j < i < MarkerEnd(s, j).value
    ensures s[i] != '*'
  {
    var b := DottedRun(s, j + 2).value;
    var c := DottedRun(s, b).value;
    DigitRunSpec(s, j + 2);
    DigitRunSpec(s, b);
    DigitRunSpec(s, c);
  }

  lemma DigitRunLocal(s: string, t: string, k: nat, m: nat)
    requires m <= |s| && m <= |t| && forall i :: 0 <= i < m ==> s[i] == t[i]
    requires k <= |s| && k <= |t| && k + DigitRun(s, k) < m
    ensures DigitRun(t, k) == DigitRun(s, k)
  {
    DigitRunSpec(s, k);
    DigitRunIs(t, k, DigitRun(s, k));
  }

  /** The marker assembled from its pieces. */
  lemma MarkerEndIs(s: string, j: nat, b: nat, c: nat, e: nat)
    requires j + 2 <= |s| && s[j] == '*' && s[j + 1] == 'v'
    requires DottedRun(s, j + 2) == Some(b) && b <= |s| && DottedRun(s, b) == Some(c) && c <= |s|
    requires FinalRun(s, c) == Some(e)
    ensures MarkerEnd(s, j) == Some(e)
  {
  }

  lemma DottedRunLocal(s: string, t: string, k: nat, m: nat)
    requires m <= |s| && m <= |t| && forall i :: 0 <= i < m ==> s[i] == t[i]
    requires k <= |s| && k <= |t| && DottedRun(s, k).Some? && DottedRun(s, k).value <= m
    ensures DottedRun(t, k) == DottedRun(s, k)
  {
    DigitRunLocal(s, t, k, m);
  }

  lemma FinalRunLocal(s: string, t: string, k: nat, m: nat)
    requires m <= |s| && m <= |t| && forall i :: 0 <= i < m ==> s[i] == t[i]
    requires k <= |s| && k <= |t| && FinalRun(s, k).Some? && FinalRun(s, k).value < m
    ensures FinalRun(t, k) == FinalRun(s, k)
  {
    DigitRunLocal(s, t, k, m);
  }

  /** Two texts that agree up to past a marker's end have the same marker there. */
  lemma MarkerLocal(s: string, t: string, j: nat, m: nat)
    requires m <= |s| && m <= |t| && forall i :: 0 <= i < m ==> s[i] == t[i]
    requires j <= |s| && j <= |t| && MarkerEnd(s, j).Some? && MarkerEnd(s, j).value < m
    ensures MarkerEnd(t, j) == MarkerEnd(s, j)
  {
    var b := DottedRun(s, j + 2).value;
    var c := DottedRun(s, b).value;
    DottedRunLocal(s, t, j + 2, m);
    DottedRunLocal(s, t, b, m);
    FinalRunLocal(s, t, c, m);
    MarkerEndIs(t, j, b, c, MarkerEnd(s, j).value);
  }

  /** The version text of a file without a marker, "0.0.0". */
  const NO_MARKER_VERSION := Version(0, 0, 0)

  /** The version text of a missing file in `updateFile`, "1.0.0". */
  const MISSING_FILE_VERSION := Version(1, 0, 0)

  lemma DefaultVersionTexts()
    ensures Render(NO_MARKER_VERSION) == "0.0.0" && Render(MISSING_FILE_VERSION) == "1.0.0"
  {
  }

  /** `getCurrentVersion`: none for a missing file, the first marker's version, else "0.0.0". */
  function GetCurrentVersion(file: Option<string>): (r: Option<string>)
    ensures r.None? <==> file.None?
    ensures file.Some? && FirstMarker(file.value, 0).None? ==> r == Some(Render(NO_MARKER_VERSION))
    ensures file.Some? && FirstMarker(file.value, 0).Some? ==> r == Some(MarkerText(file.value, FirstMarker(file.value, 0).value))
    ensures r.Some? ==> ParseVersion(r.value).Some?
  {
    match file
    case None => None
    case Some(c) =>
      match FirstMarker(c, 0)
      case None =>
        ParseRender(NO_MARKER_VERSION);
        Some(Render(NO_MARKER_VERSION))
      case Some(j) =>
        MarkerTextParses(c, j);
        Some(MarkerText(c, j))
  }

  /** `content.replace(marker, "*v" + version)`: only the first marker is rewritten. */
  function ReplaceFirstMarker(s: string, version: string): (r: string)
    ensures FirstMarker(s, 0).None? ==> r == s
  {
    match FirstMarker(s, 0)
    case None => s
    case Some(j) => Spliced(s, j, MarkerEnd(s, j).value, version)
  }

  /** The text with `[j, e)` replaced by the marker of `version`. */
  function Spliced(s: string, j: nat, e: nat, version: string): (r: string)
    requires j <= e <= |s|
    ensures |r| == |s| - (e - j) + 2 + |version|
  {
    s[..j] + ("*v" + version) + s[e..]
  }

  /** Replacing `[j, e)` by text starting with the same element keeps every position up to `j`. */
  lemma ReplaceKeepsPrefix<T>(s: seq<T>, j: nat, e: nat, mid: seq<T>)
    requires j < e <= |s| && mid != [] && mid[0] == s[j]
    ensures forall i :: 0 <= i <= j ==> (s[..j] + mid + s[e..])[i] == s[i]
  {
  }

  /** Where the pieces of `p + ([h0, h1] + (x + [d] + y + [d] + z)) + q` sit. */
  lemma Layout<T>(p: seq<T>, h0: T, h1: T, x: seq<T>, d: T, y: seq<T>, z: seq<T>, q: seq<T>)
    ensures var t := p + ([h0, h1] + (x + [d] + y + [d] + z)) + q;
      var a := |p| + 2;
      var b := a + |x| + 1;
      var c := b + |y| + 1;
      && |t| == c + |z| + |q|
      && t[|p|] == h0 && t[|p| + 1] == h1
      && (forall i :: a <= i < a + |x| ==> t[i] == x[i - a])
      && t[a + |x|] == d
      && (forall i :: b <= i < b + |y| ==> t[i] == y[i - b])
      && t[b + |y|] == d
      && (forall i :: c <= i < c + |z| ==> t[i] == z[i - c])
      && (q != [] ==> t[c + |z|] == q[0])
  {
  }

  /** A dotted run of `n` digits at `k`. */
  lemma DottedRunIs(s: string, k: nat, n: nat)
    requires 0 < n && k + n < |s| && s[k + n] == '.'
    requires forall i :: k <= i < k + n ==> IsDigit(s[i])
    ensures DottedRun(s, k) == Some(k + n + 1)
  {
    DigitRunIs(s, k, n);
  }

  /** Digits copied into a text are digits there. */
  lemma PlacedDigits(t: string, a: nat, x: string)
    requires AllDigits(x) && a + |x| <= |t| && forall i :: a <= i < a + |x| ==> t[i] == x[i - a]
    ensures forall i :: a <= i < a + |x| ==> IsDigit(t[i])
  {
  }

  /** A marker laid out as `*v`, `nx` digits, a dot, `ny` digits, a dot and `nz` digits not followed by a digit. */
  lemma MarkerFromLayout(t: string, p: nat, nx: nat, ny: nat, nz: nat)
    requires 0 < nx && 0 < ny && 0 < nz && p + 2 + nx + ny + nz + 2 <= |t|
    requires t[p] == '*' && t[p + 1] == 'v'
    requires forall i :: p + 2 <= i < p + 2 + nx ==> IsDigit(t[i])
    requires t[p + 2 + nx] == '.'
    requires forall i :: p + 3 + nx <= i < p + 3 + nx + ny ==> IsDigit(t[i])
    requires t[p + 3 + nx + ny] == '.'
    requires forall i :: p + 4 + nx + ny <= i < p + 4 + nx + ny + nz ==> IsDigit(t[i])
    requires p + 4 + nx + ny + nz < |t| ==> !IsDigit(t[p + 4 + nx + ny + nz])
    ensures MarkerEnd(t, p) == Some(p + 4 + nx + ny + nz)
  {
    DottedRunIs(t, p + 2, nx);
    DottedRunIs(t, p + 3 + nx, ny);
    DigitRunIs(t, p + 4 + nx + ny, nz);
    MarkerEndIs(t, p, p + 3 + nx, p + 4 + nx + ny, p + 4 + nx + ny + nz);
  }

  /** A marker built from three digit runs, followed by text not starting with a digit. */
  lemma MarkerInPieces(pre: string, x: string, y: string, z: string, post: string)
    requires AllDigits(x) && AllDigits(y) && AllDigits(z)
    requires post == [] || !IsDigit(post[0])
    ensures MarkerEnd(pre + (['*', 'v'] + (x + ['.'] + y + ['.'] + z)) + post, |pre|)
         == Some(|pre| + 4 + |x| + |y| + |z|)
  {
    var t := pre + (['*', 'v'] + (x + ['.'] + y + ['.'] + z)) + post;
    Layout(pre, '*', 'v', x, '.', y, z, post);
    PlacedDigits(t, |pre| + 2, x);
    PlacedDigits(t, |pre| + 3 + |x|, y);
    PlacedDigits(t, |pre| + 4 + |x| + |y|, z);
    MarkerFromLayout(t, |pre|, |x|, |y|, |z|);
  }

  /** The marker `*v` + a rendered version, followed by text not starting with a digit. */
  lemma MarkerAtRendered(pre: string, v: Version, post: string)
    requires post == [] || !IsDigit(post[0])
    ensures MarkerEnd(pre + ("*v" + Render(v)) + post, |pre|) == Some(|pre| + 2 + |Render(v)|)
  {
    var x, y, z := NatToString(v.major), NatToString(v.minor), NatToString(v.patch);
    NatToStringDigits(v.major);
    NatToStringDigits(v.minor);
    NatToStringDigits(v.patch);
    assert "*v" + Render(v) == ['*', 'v'] + (x + ['.'] + y + ['.'] + z);
    MarkerInPieces(pre, x, y, z, post);
  }

  /** A marker at `j` with none before it is the first marker. */
  lemma {:induction false} FirstMarkerIs(s: string, from: nat, j: nat)
    requires from <= j <= |s| && MarkerEnd(s, j).Some?
    requires forall j' :: from <= j' < j ==> MarkerEnd(s, j').None?
    ensures FirstMarker(s, from) == Some(j)
    decreases j - from
  {
    if from < j {
      FirstMarkerIs(s, from + 1, j);
    }
  }

  /**
   * A text that agrees with `s` up to and including a star at `j` has no
   * marker before `j` when `s` has none: such a marker would have to end at
   * or before the star.
   */
  lemma NoEarlierMarker(s: string, t: string, j: nat)
    requires j < |s| && j < |t| && t[j] == '*'
    requires forall i :: 0 <= i <= j ==> t[i] == s[i]
    requires forall j' :: 0 <= j' < j ==> MarkerEnd(s, j').None?
    ensures forall j' :: 0 <= j' < j ==> MarkerEnd(t, j').None?
  {
    forall j' | 0 <= j' < j ensures MarkerEnd(t, j').None? {
      if MarkerEnd(t, j').Some? {
        if j < MarkerEnd(t, j').value {
          MarkerHasOneStar(t, j', j);
        }
        MarkerLocal(t, s, j', j + 1);
      }
    }
  }

  /** The middle of three pieces. */
  lemma MiddleSlice<T>(p: seq<T>, a: seq<T>, m: seq<T>, q: seq<T>)
    ensures (p + (a + m) + q)[|p| + |a|..|p| + |a| + |m|] == m
  {
  }

  /** A text agreeing with `s` up to the star of its first marker, with a marker there, has it first too. */
  lemma StaysFirst(s: string, t: string, j: nat)
    requires FirstMarker(s, 0) == Some(j) && j < |t| && MarkerEnd(t, j).Some?
    requires forall i :: 0 <= i <= j ==> t[i] == s[i]
    ensures FirstMarker(t, 0) == Some(j)
  {
    NoEarlierMarker(s, t, j);
    FirstMarkerIs(t, 0, j);
  }

  lemma ReplaceIsSpliced(s: string, version: string)
    requires FirstMarker(s, 0).Some?
    ensures var j := FirstMarker(s, 0).value;
      ReplaceFirstMarker(s, version) == Spliced(s, j, MarkerEnd(s, j).value, version)
  {
  }

  /** A rendered version spliced in before a non-digit forms a marker. */
  lemma SplicedMarker(s: string, j: nat, e: nat, v: Version)
    requires j <= e <= |s| && (e < |s| ==> !IsDigit(s[e]))
    ensures MarkerEnd(Spliced(s, j, e, Render(v)), j) == Some(j + 2 + |Render(v)|)
  {
    assert s[e..] == [] || s[e..][0] == s[e];
    MarkerAtRendered(s[..j], v, s[e..]);
  }

  /** A marker spliced in place of the first one is the first one. */
  lemma SplicedStaysFirst(s: string, j: nat, e: nat, w: string)
    requires FirstMarker(s, 0) == Some(j) && e == MarkerEnd(s, j).value
    requires MarkerEnd(Spliced(s, j, e, w), j).Some?
    ensures FirstMarker(Spliced(s, j, e, w), 0) == Some(j)
  {
    ReplaceKeepsPrefix(s, j, e, "*v" + w);
    StaysFirst(s, Spliced(s, j, e, w), j);
  }

  /** Rewriting the first marker with a rendered version leaves a marker at the same place, still the first. */
  lemma ReplacedMarkerStaysFirst(s: string, v: Version, j: nat, e: nat)
    requires FirstMarker(s, 0) == Some(j) && MarkerEnd(s, j) == Some(e)
    ensures FirstMarker(Spliced(s, j, e, Render(v)), 0) == Some(j)
    ensures MarkerEnd(Spliced(s, j, e, Render(v)), j) == Some(j + 2 + |Render(v)|)
  {
    FinalRunParts(s, DottedRun(s, DottedRun(s, j + 2).value).value);
    SplicedMarker(s, j, e, v);
    SplicedStaysFirst(s, j, e, Render(v));
  }

  lemma SplicedVersion(s: string, v: Version, j: nat, e: nat)
    requires FirstMarker(s, 0) == Some(j) && MarkerEnd(s, j) == Some(e)
    ensures GetCurrentVersion(Some(Spliced(s, j, e, Render(v)))) == Some(Render(v))
  {
    ReplacedMarkerStaysFirst(s, v, j, e);
    MiddleSlice(s[..j], "*v", Render(v), s[e..]);
  }

  /** Rewriting the first marker with a rendered version makes that version the file's version. */
  lemma VersionAfterReplace(s: string, v: Version)
    requires FirstMarker(s, 0).Some?
    ensures GetCurrentVersion(Some(ReplaceFirstMarker(s, Render(v)))) == Some(Render(v))
  {
    var j := FirstMarker(s, 0).value;
    ReplaceIsSpliced(s, Render(v));
    SplicedVersion(s, v, j, MarkerEnd(s, j).value);
  }

  // ---------------------------------------------------------------- sections

  /** The first line at or after `from` that starts with `p`, or -1 (`findIndex`). */
  function FindLine(lines: seq<string>, p: string, from: nat): (k: int)
    ensures k == -1 || (from <= k < |lines| && StartsWith(lines[k], p))
    ensures forall i :: from <= i < |lines| && (k == -1 || i < k) ==> !StartsWith(lines[i], p)
    decreases |lines| - from
  {
    if from >= |lines| then -1
    else if StartsWith(lines[from], p) then from
    else FindLine(lines, p, from + 1)
  }

  function Header(section: string): string
  {
    "## " + section
  }

  /** `lines.splice(k, 0, '', content)`. */
  function InsertAt(lines: seq<string>, k: nat, content: string): seq<string>
    requires k <= |lines|
  {
    lines[..k] + ["", content] + lines[k..]
  }

  /**
   * Where the content goes when the section line is at `s` (-1 when no line
   * starts with the header): before the next `## ` line after it, else at the
   * end; a `## ` line found at index 0 also means the end.
   */
  function InsertPoint(lines: seq<string>, s: int): (k: nat)
    requires -1 <= s < |lines|
    ensures k <= |lines|
    ensures 0 <= s ==> s < k && forall i :: s < i < k ==> !StartsWith(lines[i], "## ")
    ensures k < |lines| ==> 0 < k && StartsWith(lines[k], "## ") && forall i :: s < i < k ==> !StartsWith(lines[i], "## ")
  {
    var next := FindLine(lines, "## ", s + 1);
    if next > 0 then next else |lines|
  }

  /** The text with the content inserted after the line at `s`, lines joined back by newlines. */
  function InsertInto(lines: seq<string>, s: int, content: string): string
    requires -1 <= s < |lines|
  {
    Join(InsertAt(lines, InsertPoint(lines, s), content), "\n")
  }

  /** A new section at the end of the text. */
  function NewSection(current: string, section: string, content: string): string
  {
    TrimEnd(current) + "\n\n" + Header(section) + "\n\n" + content + "\n"
  }

  /**
   * The `appendSection` transform as written: the section counts as present
   * when its header occurs anywhere in the text, even inside a line.
   */
  function InsertSectionAsWritten(current: string, section: string, content: string): string
  {
    if Contains(current, Header(section)) then
      var lines := Split(current, '\n');
      InsertInto(lines, FindLine(lines, Header(section), 0), content)
    else NewSection(current, section, content)
  }

  /** Some line of the text starts with the section header. */
  predicate HasSectionLine(current: string, section: string)
  {
    FindLine(Split(current, '\n'), Header(section), 0) != -1
  }

  /**
   * The `appendSection` transform with the presence test made the line test
   * its insertion relies on: content goes into the section when a line
   * starts with its header, and a new section is written otherwise.
   */
  function InsertSection(current: string, section: string, content: string): string
  {
    if HasSectionLine(current, section) then
      var lines := Split(current, '\n');
      InsertInto(lines, FindLine(lines, Header(section), 0), content)
    else NewSection(current, section, content)
  }

  /** Inserting a separator-free line and an empty one keeps every line separator-free. */
  lemma InsertKeepsSeparatorFree(lines: seq<string>, k: nat, content: string, sep: char)
    requires k <= |lines| && sep !in content && forall i :: 0 <= i < |lines| ==> sep !in lines[i]
    ensures forall i :: 0 <= i < |InsertAt(lines, k, content)| ==> sep !in InsertAt(lines, k, content)[i]
  {
    var out := InsertAt(lines, k, content);
    forall i | 0 <= i < |out| ensures sep !in out[i] {
      if i < k {
        assert out[i] == lines[i];
      } else if i >= k + 2 {
        assert out[i] == lines[i - 2];
      }
    }
  }

  /** The lines of the text after an insertion into an existing section. */
  lemma InsertIntoSection(current: string, section: string, content: string)
    requires HasSectionLine(current, section) && '\n' !in content
    ensures var lines := Split(current, '\n');
      var s := FindLine(lines, Header(section), 0);
      && 0 <= s
      && Split(InsertSection(current, section, content), '\n') == InsertAt(lines, InsertPoint(lines, s), content)
  {
    var lines := Split(current, '\n');
    var s := FindLine(lines, Header(section), 0);
    var out := InsertAt(lines, InsertPoint(lines, s), content);
    InsertKeepsSeparatorFree(lines, InsertPoint(lines, s), content, '\n');
    assert "\n" == ['\n'];
    SplitOfJoin(out, '\n');
  }

  /**
   * Without a section line the new section is written after the text with
   * its trailing blanks removed; a text whose header occurs nowhere is
   * treated the same way as written.
   */
  lemma NewSectionAtEnd(current: string, section: string, content: string)
    requires !HasSectionLine(current, section)
    ensures InsertSection(current, section, content) == NewSection(current, section, content)
    ensures !Contains(current, Header(section)) ==>
      InsertSectionAsWritten(current, section, content) == NewSection(current, section, content)
  {
  }

  /** Once written, a section (whose name has no newline) has its header line, so the next append goes into it. */
  lemma NewSectionIsFound(current: string, section: string, content: string)
    requires '\n' !in section
    ensures HasSectionLine(NewSection(current, section, content), section)
  {
    var h := Header(section);
    var a := TrimEnd(current) + "\n";
    var rest := "\n" + content + "\n";
    assert '\n' !in h;
    assert NewSection(current, section, content) == a + ['\n'] + (h + ['\n'] + rest);
    SplitConcat(a, h + ['\n'] + rest, '\n');
    SplitCons(h, rest, '\n');
    var lines := Split(NewSection(current, section, content), '\n');
    assert lines[|Split(a, '\n')|] == h;
    assert StartsWith(h, h);
  }

  /**
   * After `appendSection` the section is present: an existing section line
   * survives the insertion, and a new section brings its own.
   */
  lemma AppendedSectionIsFound(current: string, section: string, content: string)
    requires '\n' !in section && '\n' !in content
    ensures HasSectionLine(InsertSection(current, section, content), section)
  {
    if HasSectionLine(current, section) {
      InsertIntoSection(current, section, content);
      var lines := Split(current, '\n');
      var s := FindLine(lines, Header(section), 0);
      var out := InsertAt(lines, InsertPoint(lines, s), content);
      assert out[s] == lines[s];
    } else {
      NewSectionIsFound(current, section, content);
    }
  }

  /** A line shorter than `p`, or differing from it at some position before its end, does not start with it. */
  lemma NotStartsWith(line: string, p: string, i: nat)
    requires i < |p| && (|line| < |p| || (i < |line| && line[i] != p[i]))
    ensures !StartsWith(line, p)
  {
    if |p| <= |line| {
      assert line[..|p|][i] == line[i];
    }
  }

  lemma SpliceAfterFirst<T>(a: T, b: T, c: T, x: T, y: T)
    ensures [a, b, c][..1] + [x, y] + [a, b, c][1..] == [a, x, y, b, c]
  {
  }

  /** The three lines of the example text. */
  lemma ExampleLines()
    ensures Split("#\n## C\n### E", '\n') == ["#", "## C", "### E"]
  {
    assert "#\n## C\n### E" == "#" + ['\n'] + "## C" + ['\n'] + "### E";
    SplitThree("#", "## C", "### E", '\n');
  }

  /** No line of the example starts with `## E`. */
  lemma ExampleHasNoSectionLine()
    ensures FindLine(["#", "## C", "### E"], Header("E"), 0) == -1
  {
    var lines := ["#", "## C", "### E"];
    NotStartsWith(lines[0], Header("E"), 1);
    NotStartsWith(lines[1], Header("E"), 3);
    NotStartsWith(lines[2], Header("E"), 2);
  }

  /** The first `## ` line of the example is its second line. */
  lemma ExampleFirstHeading()
    ensures FindLine(["#", "## C", "### E"], "## ", 0) == 1
  {
    var lines := ["#", "## C", "### E"];
    NotStartsWith(lines[0], "## ", 1);
    assert lines[1][..3] == "## ";
  }

  /**
   * A header occurring only inside a line (`### E` contains `## E`): the
   * content lands before the first `## ` line, in the preamble, and no
   * `## E` line is written.
   */
  lemma InsertSectionAsWrittenMisplaces()
    ensures InsertSectionAsWritten("#\n## C\n### E", "E", "x") == Join(["#", "", "x", "## C", "### E"], "\n")
  {
    var cur := "#\n## C\n### E";
    assert cur == "#\n## C\n#" + Header("E");
    ContainsEnd("#\n## C\n#", Header("E"));
    ExampleLines();
    ExampleHasNoSectionLine();
    ExampleFirstHeading();
    SpliceAfterFirst("#", "## C", "### E", "", "x");
  }

  /** The same text under the line test: a new `## E` section is written at the end. */
  lemma InsertSectionWritesSection()
    ensures InsertSection("#\n## C\n### E", "E", "x") == NewSection("#\n## C\n### E", "E", "x")
    ensures HasSectionLine(InsertSection("#\n## C\n### E", "E", "x"), "E")
  {
    ExampleLines();
    ExampleHasNoSectionLine();
    NewSectionIsFound("#\n## C\n### E", "E", "x");
  }

  // --------------------------------------------------------------- workspace

  const SOUL_STEM := "SOUL"
  const IDENTITY_STEM := "IDENTITY"
  const SOUL_FILE := SOUL_STEM + ".md"
  const IDENTITY_FILE := IDENTITY_STEM + ".md"
  const BACKUP_DIR := ".soul-backups"

  /** `path.basename`: the text after the last slash. */
  function Basename(path: string): (b: string)
    ensures '/' !in b
  {
    var parts := Split(path, '/');
    parts[|parts| - 1]
  }

  /** A name without slashes under a directory has that name as its basename. */
  lemma BasenameOfJoin(dir: string, name: string)
    requires '/' !in name
    ensures Basename(dir + "/" + name) == name
  {
    assert "/" == ['/'];
    SplitConcat(dir, name, '/');
    SplitNone(name, '/');
  }

  /** `path.basename(p, '.md')`: the basename without a `.md` ending. */
  function Stem(path: string): string
  {
    var b := Basename(path);
    if EndsWith(b, ".md") && |b| > 3 then b[..|b| - 3] else b
  }

  /** The name `backup` gives a copy: the stem, the time stamp and the content hash. */
  function BackupName(file: string, stamp: string, hash: string): string
  {
    Stem(file) + "-" + stamp + "-" + hash + ".md"
  }

  /** Where `backup` writes a copy. */
  function BackupPath(file: string, stamp: string, hash: string): string
  {
    BACKUP_DIR + "/" + BackupName(file, stamp, hash)
  }

  /** `rollback` restores into SOUL.md a backup whose name starts with SOUL, and into IDENTITY.md any other. */
  function RollbackTarget(backupPath: string): (f: string)
    ensures f == SOUL_FILE <==> StartsWith(Basename(backupPath), "SOUL")
    ensures f == SOUL_FILE || f == IDENTITY_FILE
  {
    if StartsWith(Basename(backupPath), "SOUL") then SOUL_FILE else IDENTITY_FILE
  }

  /** A slash-free name ending in `.md` has the name without it as its stem. */
  lemma StemOfMd(name: string)
    requires '/' !in name && name != []
    ensures Stem(name + ".md") == name
  {
    var f := name + ".md";
    assert '/' !in f;
    SplitNone(f, '/');
    assert f[|f| - 3..] == ".md";
    assert f[..|f| - 3] == name;
  }

  lemma PrefixOfAppend(a: string, b: string)
    ensures StartsWith(a + b, a)
  {
    assert (a + b)[..|a|] == a;
  }

  /** The backup name of a file with a slash-free stem and parts is slash-free and starts with the stem. */
  lemma BackupNameParts(file: string, stamp: string, hash: string)
    requires '/' !in Stem(file) && '/' !in stamp && '/' !in hash
    ensures '/' !in BackupName(file, stamp, hash)
    ensures StartsWith(BackupName(file, stamp, hash), Stem(file))
    ensures BackupName(file, stamp, hash) == Stem(file) + ("-" + stamp + "-" + hash + ".md")
  {
    PrefixOfAppend(Stem(file), "-" + stamp + "-" + hash + ".md");
  }

  /** Rolling back a backup of SOUL.md or IDENTITY.md restores into the file it was taken from. */
  lemma RollbackTargetOfBackup(file: string, stamp: string, hash: string)
    requires file == SOUL_FILE || file == IDENTITY_FILE
    requires '/' !in stamp && '/' !in hash
    ensures RollbackTarget(BackupPath(file, stamp, hash)) == file
  {
    var stem := if file == SOUL_FILE then SOUL_STEM else IDENTITY_STEM;
    assert '/' !in stem;
    StemOfMd(stem);
    BackupNameParts(file, stamp, hash);
    var name := BackupName(file, stamp, hash);
    BasenameOfJoin(BACKUP_DIR, name);
    if file == SOUL_FILE {
      assert StartsWith(name, "SOUL");
    } else {
      assert SOUL_FILE != IDENTITY_FILE by { assert SOUL_FILE[0] != IDENTITY_FILE[0]; }
      assert name[0] == 'I';
      NotStartsWith(name, "SOUL", 0);
    }
  }

  /** An audit-log entry. */
  datatype AuditEntry =
    | UpdateEntry(file: string, reason: string, oldVersion: string, newVersion: string, backup: Option<string>,
             linesChanged: int)
    | RollbackEntry(file: string, from: string, currentBackup: Option<string>)
    | CommitEntry(file: string, reason: string)

  /** What `updateFile` reports. */
  datatype UpdateInfo = UpdateInfo(file: string, oldVersion: string, newVersion: string, oldHash: string,
                                   newHash: string, backup: Option<string>, reason: string)

  /** What a successful `rollback` reports. */
  datatype RollbackInfo = RollbackInfo(restored: string, from: string, currentBackedUpTo: Option<string>)

  /** The file's text, or "" when it does not exist. */
  function ContentOf(files: map<string, string>, path: string): string
  {
    if path in files then files[path] else ""
  }

  /** The version `updateFile` starts from: the file's version, or 1.0.0 for a missing file. */
  function VersionBefore(files: map<string, string>, path: string): (r: string)
    ensures ParseVersion(r).Some?
    ensures path !in files ==> r == Render(MISSING_FILE_VERSION)
  {
    var v := GetCurrentVersion(if path in files then Some(files[path]) else None);
    if v.Some? then v.value
    else
      ParseRender(MISSING_FILE_VERSION);
      Render(MISSING_FILE_VERSION)
  }

  /** The version `updateFile` writes. */
  function NextVersion(files: map<string, string>, path: string, bump: string): string
  {
    Render(BumpVersion(ParseVersion(VersionBefore(files, path)).value, bump))
  }

  /** The text `updateFile` writes: the transform's output with its first marker rewritten. */
  function Updated(files: map<string, string>, path: string, transform: string -> string, bump: string): string
  {
    ReplaceFirstMarker(transform(ContentOf(files, path)), NextVersion(files, path, bump))
  }

  /** The change in line count an update reports. */
  function LinesChanged(before: string, after: string): int
  {
    |Split(after, '\n')| - |Split(before, '\n')|
  }

  /** The backups after `backup(path)`: a copy of an existing file, nothing for a missing one. */
  function BackedUp(files: map<string, string>, backups: map<string, string>, path: string, stamp: string,
                    hash: string -> string): map<string, string>
  {
    if path in files then backups[BackupPath(path, stamp, hash(files[path])) := files[path]] else backups
  }

  /** The path `backup(path)` reports, if it wrote one. */
  function BackupOf(files: map<string, string>, path: string, stamp: string, hash: string -> string): Option<string>
  {
    if path in files then Some(BackupPath(path, stamp, hash(files[path]))) else None
  }

  /**
   * An update whose output carries a marker leaves the file at the bumped
   * version, which is newer than the version it had.
   */
  lemma UpdateBumpsVersion(files: map<string, string>, path: string, transform: string -> string, bump: string)
    requires FirstMarker(transform(ContentOf(files, path)), 0).Some?
    ensures GetCurrentVersion(Some(Updated(files, path, transform, bump))) == Some(NextVersion(files, path, bump))
    ensures ParseVersion(NextVersion(files, path, bump)).Some?
    ensures Newer(ParseVersion(NextVersion(files, path, bump)).value, ParseVersion(VersionBefore(files, path)).value)
  {
    var v := BumpVersion(ParseVersion(VersionBefore(files, path)).value, bump);
    VersionAfterReplace(transform(ContentOf(files, path)), v);
    ParseRender(v);
  }

  /** An update whose output has no marker writes that output unchanged. */
  lemma UpdateWithoutMarker(files: map<string, string>, path: string, transform: string -> string, bump: string)
    requires FirstMarker(transform(ContentOf(files, path)), 0).None?
    ensures Updated(files, path, transform, bump) == transform(ContentOf(files, path))
  {
  }

  /** The files after rolling back to a stored backup. */
  function Restored(files: map<string, string>, backups: map<string, string>, backupPath: string, stamp: string,
                    hash: string -> string): map<string, string>
    requires backupPath in backups
  {
    var target := RollbackTarget(backupPath);
    files[target := BackedUp(files, backups, target, stamp, hash)[backupPath]]
  }

  /**
   * Rolling back to the backup an update of SOUL.md or IDENTITY.md took
   * gives the file its text from before the update, as long as the copy the
   * rollback takes first is stored under another name.
   */
  lemma RollbackUndoesUpdate(files: map<string, string>, backups: map<string, string>, file: string,
                             transform: string -> string, bump: string, stamp: string, stamp2: string,
                             hash: string -> string)
    requires file == SOUL_FILE || file == IDENTITY_FILE
    requires file in files && '/' !in stamp && '/' !in hash(files[file])
    requires var files2 := files[file := Updated(files, file, transform, bump)];
      BackupPath(file, stamp2, hash(files2[file])) != BackupPath(file, stamp, hash(files[file]))
    ensures var files2 := files[file := Updated(files, file, transform, bump)];
      var backups2 := BackedUp(files, backups, file, stamp, hash);
      var p := BackupPath(file, stamp, hash(files[file]));
      && p in backups2
      && Restored(files2, backups2, p, stamp2, hash)[file] == files[file]
  {
    RollbackTargetOfBackup(file, stamp, hash(files[file]));
  }

  /**
   * `getAuditHistory(limit)`, that is `slice(-limit)`: the last `limit`
   * entries; `slice(-0)` keeps them all, and a negative limit drops the
   * first `-limit` entries.
   */
  function AuditHistory(audit: seq<AuditEntry>, limit: int): (r: seq<AuditEntry>)
    ensures |r| <= |audit| && r == audit[|audit| - |r|..]
    ensures limit == 0 ==> r == audit
    ensures limit > 0 ==> |r| == if |audit| <= limit then |audit| else limit
    ensures limit < 0 ==> |r| == if -limit < |audit| then |audit| + limit else 0
  {
    if limit == 0 then audit
    else if limit > 0 then Last(audit, limit)
    else if -limit < |audit| then audit[-limit..] else []
  }

  /** The workspace files, the backup directory and the audit log. */
  class Workspace {
    var files: map<string, string>
    var backups: map<string, string>
    var audit: seq<AuditEntry>

    constructor(files0: map<string, string>)
      ensures files == files0 && backups == map[] && audit == []
    {
      files := files0;
      backups := map[];
      audit := [];
    }

    /**
     * `updateFile`: back the file up, bump its version, write the
     * transform's output with the first marker rewritten, and audit the
     * change. The time stamp of the backup name and the content hash are
     * inputs, and so is whether the `git add`/`git commit` succeeded
     * (`committed`): a successful commit is audited as well, a failed one
     * is ignored.
     */
    method UpdateFile(path: string, transform: string -> string, reason: string, bump: string, stamp: string,
                      hash: string -> string, committed: bool)
      returns (info: UpdateInfo)
      modifies this
      ensures backups == BackedUp(old(files), old(backups), path, stamp, hash)
      ensures files == old(files)[path := Updated(old(files), path, transform, bump)]
      ensures info == UpdateInfo(Basename(path), VersionBefore(old(files), path), NextVersion(old(files), path, bump),
                                 hash(ContentOf(old(files), path)), hash(Updated(old(files), path, transform, bump)),
                                 BackupOf(old(files), path, stamp, hash), reason)
      ensures audit == old(audit) + [UpdateEntry(Basename(path), reason, info.oldVersion, info.newVersion, info.backup,
                                                 LinesChanged(ContentOf(old(files), path), Updated(old(files), path, transform, bump)))]
                     + (if committed then [CommitEntry(Basename(path), reason)] else [])
    {
      var before := files;
      var backup := BackupOf(before, path, stamp, hash);
      backups := BackedUp(before, backups, path, stamp, hash);
      var current := ContentOf(before, path);
      var oldVersion := VersionBefore(before, path);
      var newVersion := Render(BumpVersion(ParseVersion(oldVersion).value, bump));
      var newContent := ReplaceFirstMarker(transform(current), newVersion);
      files := before[path := newContent];
      audit := audit + [UpdateEntry(Basename(path), reason, oldVersion, newVersion, backup, LinesChanged(current, newContent))];
      if committed {
        audit := audit + [CommitEntry(Basename(path), reason)];
      }
      info := UpdateInfo(Basename(path), oldVersion, newVersion, hash(current), hash(newContent), backup, reason);
    }

    /** `appendSection`: a patch-level update whose transform inserts the content into the section. */
    method AppendSection(path: string, section: string, content: string, reason: string, stamp: string,
                         hash: string -> string, committed: bool)
      returns (info: UpdateInfo)
      modifies this
      ensures backups == BackedUp(old(files), old(backups), path, stamp, hash)
      ensures files == old(files)[path := ReplaceFirstMarker(InsertSection(ContentOf(old(files), path), section, content),
                                                              NextVersion(old(files), path, "patch"))]
      ensures info.oldVersion == VersionBefore(old(files), path) && info.newVersion == NextVersion(old(files), path, "patch")
      ensures |audit| == |old(audit)| + (if committed then 2 else 1) && audit[..|old(audit)|] == old(audit)
    {
      info := UpdateFile(path, (c: string) => InsertSection(c, section, content), reason, "patch", stamp, hash, committed);
    }

    /**
     * `rollback`: an unknown backup is an error and changes nothing;
     * otherwise the target file is backed up, then overwritten with the
     * backup's text, and the rollback is audited.
     */
    method Rollback(backupPath: string, stamp: string, hash: string -> string) returns (r: Result<RollbackInfo>)
      modifies this
      ensures backupPath !in old(backups) ==>
        r == Err("Backup not found") && files == old(files) && backups == old(backups) && audit == old(audit)
      ensures backupPath in old(backups) ==>
        var target := RollbackTarget(backupPath);
        var current := BackupOf(old(files), target, stamp, hash);
        && backups == BackedUp(old(files), old(backups), target, stamp, hash)
        && files == Restored(old(files), old(backups), backupPath, stamp, hash)
        && audit == old(audit) + [RollbackEntry(Basename(target), backupPath, current)]
        && r == Ok(RollbackInfo(Basename(target), Basename(backupPath), current))
    {
      if backupPath !in backups {
        return Err("Backup not found");
      }
      var target := RollbackTarget(backupPath);
      var current: Option<string> := None;
      if target in files {
        current := Some(BackupPath(target, stamp, hash(files[target])));
        backups := backups[current.value := files[target]];
      }
      files := files[target := backups[backupPath]];
      audit := audit + [RollbackEntry(Basename(target), backupPath, current)];
      r := Ok(RollbackInfo(Basename(target), Basename(backupPath), current));
    }

    /** `getAuditHistory` on this workspace's log. */
    function History(limit: int): (r: seq<AuditEntry>)
      reads this
      ensures r == AuditHistory(audit, limit)
    {
      AuditHistory(audit, limit)
    }
  }
}
