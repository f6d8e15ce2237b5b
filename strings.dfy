/**
 * String helpers used across the model: ASCII lower-casing, substring
 * search, prefix and suffix tests, splitting on a separator, trimming of
 * blanks, decimal rendering of integers and `parseInt`.
 */
module Strings {
  import opened Wrappers

  /** `String.prototype.toLowerCase` restricted to ASCII letters. */
  function Lower(c: char): char
  {
    if 'A' <= c <= 'Z' then (c as int + 32) as char else c
  }

  function LowerStr(s: string): (r: string)
    ensures |r| == |s|
    ensures forall i :: 0 <= i < |s| ==> r[i] == Lower(s[i])
  {
    seq(|s|, i requires 0 <= i < |s| => Lower(s[i]))
  }

  predicate IsUpper(c: char)
  {
    'A' <= c <= 'Z'
  }

  lemma LowerIdentity(s: string)
    requires forall c :: c in s ==> !IsUpper(c)
    ensures LowerStr(s) == s
  {
    forall i | 0 <= i < |s| ensures LowerStr(s)[i] == s[i] {
      assert s[i] in s;
    }
  }

  /** Lower-casing is decided character by character. */
  lemma LowerStrIs(s: string, t: string)
    requires |s| == |t| && forall i :: 0 <= i < |s| ==> Lower(s[i]) == t[i]
    ensures LowerStr(s) == t
  {
  }

  lemma LowerAppend(a: string, b: string)
    ensures LowerStr(a + b) == LowerStr(a) + LowerStr(b)
  {
  }

  lemma LowerIdempotent(s: string)
    ensures LowerStr(LowerStr(s)) == LowerStr(s)
  {
  }

  predicate StartsWith(s: string, p: string)
  {
    |p| <= |s| && s[..|p|] == p
  }

  predicate EndsWith(s: string, p: string)
  {
    |p| <= |s| && s[|s| - |p|..] == p
  }

  /** `sub` occurs in `s` starting at position `i`. */
  predicate OccursAt(s: string, sub: string, i: int)
  {
    0 <= i <= |s| - |sub| && s[i..i + |sub|] == sub
  }

  /** `s.includes(sub)`. */
  predicate Contains(s: string, sub: string)
  {
    exists i :: 0 <= i <= |s| && OccursAt(s, sub, i)
  }

  /** A substring occurrence is witnessed by its start position. */
  lemma ContainsAt(s: string, sub: string, i: nat)
    requires i + |sub| <= |s| && s[i..i + |sub|] == sub
    ensures Contains(s, sub)
  {
    assert OccursAt(s, sub, i);
  }

  /** A text contains its own ending. */
  lemma ContainsEnd(a: string, b: string)
    ensures Contains(a + b, b)
  {
    ContainsAt(a + b, b, |a|);
  }

  /** A character of `sub` that never occurs in `s` rules out every occurrence. */
  lemma LacksChar(s: string, sub: string, c: char)
    requires c in sub && c !in s
    ensures !Contains(s, sub)
  {
    var j :| 0 <= j < |sub| && sub[j] == c;
    forall i | 0 <= i <= |s| ensures !OccursAt(s, sub, i) {
      if 0 <= i <= |s| - |sub| {
        assert s[i..i + |sub|][j] == s[i + j];
      }
    }
  }

  /** No character of `cs` occurs in `s`. */
  predicate Avoids(s: string, cs: string)
  {
    forall i, j :: 0 <= i < |s| && 0 <= j < |cs| ==> s[i] != cs[j]
  }

  /** A string avoiding a character of `sub` cannot contain `sub`. */
  lemma AvoidsNotContains(s: string, cs: string, j: nat, sub: string, k: nat)
    requires Avoids(s, cs) && j < |cs| && k < |sub| && sub[k] == cs[j]
    ensures cs[j] !in s && !Contains(s, sub)
  {
    assert sub[k] in sub;
    LacksChar(s, sub, cs[j]);
  }

  /**
   * None of `words`, lower-cased, occurs in `s`: each word has a lower-case
   * character, listed in `cs` at the word's index and found at position
   * `ws[i]` of the word, that `s` never uses.
   */
  lemma NoneContains(s: string, words: seq<string>, ws: seq<nat>, cs: string)
    requires |ws| == |words| && |cs| == |words|
    requires forall i :: 0 <= i < |words| ==> ws[i] < |words[i]| && words[i][ws[i]] == cs[i]
    requires forall i :: 0 <= i < |cs| ==> !IsUpper(cs[i])
    requires Avoids(s, cs)
    ensures forall i :: 0 <= i < |words| ==> !Contains(s, LowerStr(words[i]))
  {
    forall i | 0 <= i < |words| ensures !Contains(s, LowerStr(words[i])) {
      AvoidsNotContains(s, cs, i, LowerStr(words[i]), ws[i]);
    }
  }

  lemma ContainsEmpty(s: string)
    ensures Contains(s, "")
  {
    assert OccursAt(s, "", 0);
  }

  lemma ContainsSelf(s: string)
    ensures Contains(s, s)
  {
    assert OccursAt(s, s, 0);
  }

  /** Contained in a piece means contained in the whole. */
  lemma ContainsInAppend(a: string, b: string, sub: string)
    ensures Contains(a, sub) ==> Contains(a + b, sub)
    ensures Contains(b, sub) ==> Contains(a + b, sub)
  {
    if Contains(a, sub) {
      var i :| 0 <= i <= |a| && OccursAt(a, sub, i);
      assert (a + b)[i..i + |sub|] == a[i..i + |sub|];
      assert OccursAt(a + b, sub, i);
    }
    if Contains(b, sub) {
      var i :| 0 <= i <= |b| && OccursAt(b, sub, i);
      assert (a + b)[|a| + i..|a| + i + |sub|] == b[i..i + |sub|];
      assert OccursAt(a + b, sub, |a| + i);
    }
  }

  /**
   * The index of the first keyword, from `from` on, that `text` contains, or
   * -1: a scan of a keyword table in table order.
   */
  function FirstKeyword(text: string, keys: seq<string>, from: nat := 0): (k: int)
    requires from <= |keys|
    decreases |keys| - from
    ensures k == -1 <==> forall i :: from <= i < |keys| ==> !Contains(text, keys[i])
    ensures k != -1 ==> from <= k < |keys| && Contains(text, keys[k])
    ensures k != -1 ==> forall i :: from <= i < k ==> !Contains(text, keys[i])
  {
    if from == |keys| then -1
    else if Contains(text, keys[from]) then from
    else FirstKeyword(text, keys, from + 1)
  }

  /** Index of the first occurrence of `sep` at or after `from`, if any. */
  function IndexOfFrom(s: string, sep: char, from: nat): (r: int)
    requires from <= |s|
    ensures r == -1 || (from <= r < |s| && s[r] == sep)
    decreases |s| - from
  {
    if from == |s| then -1
    else if s[from] == sep then from
    else IndexOfFrom(s, sep, from + 1)
  }

  /** The index found is the first occurrence at or after `from`; -1 means there is none. */
  lemma {:induction false} IndexOfFromFirst(s: string, sep: char, from: nat)
    requires from <= |s|
    ensures IndexOfFrom(s, sep, from) == -1 ==> forall j :: from <= j < |s| ==> s[j] != sep
    ensures forall j :: from <= j < IndexOfFrom(s, sep, from) ==> s[j] != sep
    decreases |s| - from
  {
    if from < |s| && s[from] != sep {
      IndexOfFromFirst(s, sep, from + 1);
    }
  }

  /** `s.replace(c, r)` with a one-character pattern: only the first occurrence is replaced. */
  function ReplaceFirst(s: string, c: char, r: string): string
  {
    var i := IndexOfFrom(s, c, 0);
    if i == -1 then s else s[..i] + r + s[i + 1..]
  }

  /** Nothing to replace: the string is unchanged. */
  lemma ReplaceFirstAbsent(s: string, c: char, r: string)
    requires c !in s
    ensures ReplaceFirst(s, c, r) == s
  {
  }

  /** Every other character of `s` survives the replacement. */
  lemma ReplaceFirstKeeps(s: string, c: char, r: string, x: char)
    requires x in s && x != c
    ensures x in ReplaceFirst(s, c, r)
  {
    var i := IndexOfFrom(s, c, 0);
    if i != -1 {
      var j :| 0 <= j < |s| && s[j] == x;
      if j < i {
        assert (s[..i] + r + s[i + 1..])[j] == x;
      } else {
        assert j > i && (s[..i] + r + s[i + 1..])[|r| + j - 1] == x;
      }
    }
  }

  /** A second occurrence of `c` survives the replacement of the first. */
  lemma ReplaceFirstKeepsSecond(s: string, c: char, r: string, i: nat, j: nat)
    requires i < j < |s| && s[i] == c && s[j] == c
    ensures c in ReplaceFirst(s, c, r)
  {
    var k := IndexOfFrom(s, c, 0);
    IndexOfFromFirst(s, c, 0);
    assert k != -1 && k <= i;
    assert (s[..k] + r + s[k + 1..])[|r| + j - 1] == c;
  }

  /** `s.split(sep)` for a one-character separator: always at least one piece. */
  function Split(s: string, sep: char): (r: seq<string>)
    ensures |r| >= 1
    ensures forall k :: 0 <= k < |r| ==> sep !in r[k]
    decreases |s|
  {
    var i := IndexOfFrom(s, sep, 0);
    IndexOfFromFirst(s, sep, 0);
    if i == -1 then [s]
    else [s[..i]] + Split(s[i + 1..], sep)
  }

  /** Joining the pieces of a split with the separator gives the string back. */
  lemma {:induction false} SplitJoin(s: string, sep: char)
    ensures Join(Split(s, sep), [sep]) == s
    decreases |s|
  {
    var i := IndexOfFrom(s, sep, 0);
    if i != -1 {
      var rest := Split(s[i + 1..], sep);
      assert Split(s, sep) == [s[..i]] + rest;
      assert ([s[..i]] + rest)[1..] == rest;
      assert Join([s[..i]] + rest, [sep]) == s[..i] + [sep] + Join(rest, [sep]);
      SplitJoin(s[i + 1..], sep);
      assert s == s[..i] + [sep] + s[i + 1..];
    }
  }

  /** The first separator at or after `from` is at `i` when none occurs between them. */
  lemma IndexOfFromAt(s: string, sep: char, from: nat, i: nat)
    requires from <= i < |s| && s[i] == sep && sep !in s[from..i]
    ensures IndexOfFrom(s, sep, from) == i
  {
    forall j | from <= j < i ensures s[j] != sep {
      assert s[j] == s[from..i][j - from];
    }
    IndexOfFromFirst(s, sep, from);
  }

  /** One step of a split: the piece before the first separator, then the rest. */
  lemma SplitStep(s: string, sep: char, i: nat)
    requires i < |s| && s[i] == sep && sep !in s[..i]
    ensures Split(s, sep) == [s[..i]] + Split(s[i + 1..], sep)
  {
    assert s[0..i] == s[..i];
    IndexOfFromAt(s, sep, 0, i);
  }

  /** A string without the separator splits into itself. */
  lemma SplitNone(s: string, sep: char)
    requires sep !in s
    ensures Split(s, sep) == [s]
  {
  }

  /** A separator-free piece, the separator, then the rest: the piece comes first. */
  lemma SplitCons(a: string, rest: string, sep: char)
    requires sep !in a
    ensures Split(a + [sep] + rest, sep) == [a] + Split(rest, sep)
  {
    var s := a + [sep] + rest;
    assert s[..|a|] == a;
    assert s[|a| + 1..] == rest;
    SplitStep(s, sep, |a|);
  }

  /** Three separator-free pieces joined by the separator split back into those pieces. */
  lemma SplitThree(a: string, b: string, c: string, sep: char)
    requires sep !in a && sep !in b && sep !in c
    ensures Split(a + [sep] + b + [sep] + c, sep) == [a, b, c]
  {
    assert a + [sep] + b + [sep] + c == a + [sep] + (b + [sep] + c);
    SplitCons(a, b + [sep] + c, sep);
    SplitCons(b, c, sep);
    SplitNone(c, sep);
  }

  /** The first piece of `x` is also the first piece of `x`, a separator and `y`. */
  lemma SplitFirstOfConcat(x: string, y: string, sep: char, i: nat)
    requires i < |x| && x[i] == sep && sep !in x[..i]
    ensures Split(x, sep) == [x[..i]] + Split(x[i + 1..], sep)
    ensures Split(x + [sep] + y, sep) == [x[..i]] + Split(x[i + 1..] + [sep] + y, sep)
  {
    var s := x + [sep] + y;
    assert s[..i] == x[..i];
    assert s[i + 1..] == x[i + 1..] + [sep] + y;
    SplitStep(x, sep, i);
    SplitStep(s, sep, i);
  }

  /** Splitting at a separator placed between two texts splits each of them. */
  lemma {:induction false} SplitConcat(x: string, y: string, sep: char)
    ensures Split(x + [sep] + y, sep) == Split(x, sep) + Split(y, sep)
    decreases |x|
  {
    var i := IndexOfFrom(x, sep, 0);
    IndexOfFromFirst(x, sep, 0);
    if i == -1 {
      SplitCons(x, y, sep);
    } else {
      SplitFirstOfConcat(x, y, sep, i);
      SplitConcat(x[i + 1..], y, sep);
      assert [x[..i]] + (Split(x[i + 1..], sep) + Split(y, sep))
          == [x[..i]] + Split(x[i + 1..], sep) + Split(y, sep);
    }
  }

  function Join(parts: seq<string>, sep: string): string
  {
    if |parts| == 0 then ""
    else if |parts| == 1 then parts[0]
    else parts[0] + sep + Join(parts[1..], sep)
  }

  /** A joined text begins with its first part. */
  lemma JoinStartsWith(parts: seq<string>, sep: string)
    requires |parts| >= 1
    ensures StartsWith(Join(parts, sep), parts[0])
  {
    if |parts| > 1 {
      assert (parts[0] + sep + Join(parts[1..], sep))[..|parts[0]|] == parts[0];
    }
  }

  /** Lines without the separator, joined by it, split back into those lines. */
  lemma {:induction false} SplitOfJoin(lines: seq<string>, sep: char)
    requires |lines| >= 1 && forall k :: 0 <= k < |lines| ==> sep !in lines[k]
    ensures Split(Join(lines, [sep]), sep) == lines
  {
    if |lines| == 1 {
      SplitNone(lines[0], sep);
    } else {
      SplitOfJoin(lines[1..], sep);
      SplitCons(lines[0], Join(lines[1..], [sep]), sep);
      assert lines == [lines[0]] + lines[1..];
    }
  }

  /** The characters `String.prototype.trim` removes, restricted to ASCII. */
  predicate IsBlank(c: char)
  {
    c == ' ' || c == '\t' || c == '\n' || c == '\r' || c as int == 11 || c as int == 12
  }

  function TrimStart(s: string): (r: string)
    ensures |r| <= |s| && r == s[|s| - |r|..]
    ensures r == [] || !IsBlank(r[0])
    decreases |s|
  {
    if |s| > 0 && IsBlank(s[0]) then TrimStart(s[1..]) else s
  }

  function TrimEnd(s: string): (r: string)
    ensures |r| <= |s| && r == s[..|r|]
    ensures r == [] || !IsBlank(r[|r| - 1])
    decreases |s|
  {
    if |s| > 0 && IsBlank(s[|s| - 1]) then TrimEnd(s[..|s| - 1]) else s
  }

  function Trim(s: string): (r: string)
    ensures |r| <= |s|
    ensures r == [] || (!IsBlank(r[0]) && !IsBlank(r[|r| - 1]))
  {
    TrimEnd(TrimStart(s))
  }

  /** A string without blanks at either end is its own trim. */
  lemma TrimUnchanged(s: string)
    requires s == [] || (!IsBlank(s[0]) && !IsBlank(s[|s| - 1]))
    ensures Trim(s) == s
  {
    assert TrimStart(s) == s;
  }

  function DigitChar(d: nat): char
    requires d < 10
  {
    "0123456789"[d]
  }

  /** Decimal rendering of a natural number, as `String(n)` gives it. */
  function NatToString(n: nat): (r: string)
    ensures |r| >= 1
    decreases n
  {
    if n < 10 then [DigitChar(n)] else NatToString(n / 10) + [DigitChar(n % 10)]
  }

  function IntToString(n: int): (r: string)
    ensures |r| >= 1
  {
    if n < 0 then "-" + NatToString(-n) else NatToString(n)
  }

  predicate IsDigit(c: char)
  {
    '0' <= c <= '9'
  }

  function DigitsValue(s: string): (r: nat)
    requires forall i :: 0 <= i < |s| ==> IsDigit(s[i])
    decreases |s|
  {
    if s == [] then 0
    else
      assert IsDigit(s[|s| - 1]);
      DigitsValue(s[..|s| - 1]) * 10 + (s[|s| - 1] as int - '0' as int)
  }

  /** The number of leading decimal digits. */
  function DigitPrefix(s: string): (n: nat)
    ensures n <= |s|
    ensures forall i :: 0 <= i < n ==> IsDigit(s[i])
    ensures n < |s| ==> !IsDigit(s[n])
  {
    if s != [] && IsDigit(s[0]) then 1 + DigitPrefix(s[1..]) else 0
  }

  predicate IsHexDigit(c: char)
  {
    IsDigit(c) || 'a' <= c <= 'f' || 'A' <= c <= 'F'
  }

  function HexDigitValue(c: char): (v: nat)
    requires IsHexDigit(c)
    ensures v < 16
  {
    if IsDigit(c) then c as int - '0' as int
    else if 'a' <= c <= 'f' then c as int - 'a' as int + 10
    else c as int - 'A' as int + 10
  }

  function HexValue(s: string): nat
    requires forall i :: 0 <= i < |s| ==> IsHexDigit(s[i])
    decreases |s|
  {
    if s == [] then 0
    else
      assert IsHexDigit(s[|s| - 1]);
      HexValue(s[..|s| - 1]) * 16 + HexDigitValue(s[|s| - 1])
  }

  /** The number of leading hexadecimal digits. */
  function HexPrefix(s: string): (n: nat)
    ensures n <= |s|
    ensures forall i :: 0 <= i < n ==> IsHexDigit(s[i])
    ensures n < |s| ==> !IsHexDigit(s[n])
  {
    if s != [] && IsHexDigit(s[0]) then 1 + HexPrefix(s[1..]) else 0
  }

  /** The text after an optional sign starts with `0x` or `0X`. */
  predicate HasHexPrefix(body: string)
  {
    |body| >= 2 && body[0] == '0' && (body[1] == 'x' || body[1] == 'X')
  }

  /** `s` with its leading blanks and an optional sign removed. */
  function Unsigned(s: string): string
  {
    var t := TrimStart(s);
    if t != [] && (t[0] == '+' || t[0] == '-') then t[1..] else t
  }

  /**
   * `parseInt(s)` with no radix: leading blanks skipped, an optional sign,
   * then the longest run of hexadecimal digits after a `0x`/`0X` prefix, or
   * else of decimal digits; no digit at all is NaN (`None`).
   */
  function ParseInt(s: string): (r: Option<int>)
    ensures r.None? <==>
      (if HasHexPrefix(Unsigned(s)) then HexPrefix(Unsigned(s)[2..]) else DigitPrefix(Unsigned(s))) == 0
  {
    var body := Unsigned(s);
    var n := if HasHexPrefix(body) then HexPrefix(body[2..]) else DigitPrefix(body);
    if n == 0 then None
    else
      var v: int := if HasHexPrefix(body) then HexValue(body[2..][..n]) else DigitsValue(body[..n]);
      var t := TrimStart(s);
      Some(if t[0] == '-' then -v else v)
  }

  /** Without a radix a `0x` prefix switches to hexadecimal: `parseInt("0x10")` is 16, not 0. */
  lemma ParseIntHex()
    ensures ParseInt("0x10") == Some(16)
  {
    var s := "0x10";
    assert !IsBlank(s[0]);
    assert TrimStart(s) == s;
    assert Unsigned(s) == s && HasHexPrefix(s);
    var digits := s[2..];
    assert digits == "10";
    assert IsHexDigit(digits[0]) && IsHexDigit(digits[1]);
    assert HexPrefix(digits[1..]) == 1 by {
      assert digits[1..][1..] == [];
    }
    assert HexPrefix(digits) == 2;
    assert digits[..2] == digits && digits[..1] == "1";
    assert HexValue("1") == 1 by {
      assert "1"[..0] == [];
    }
  }

  lemma DigitCharValue(d: nat)
    requires d < 10
    ensures IsDigit(DigitChar(d)) && DigitChar(d) as int - '0' as int == d
  {
    if d == 0 {} else if d == 1 {} else if d == 2 {} else if d == 3 {} else if d == 4 {}
    else if d == 5 {} else if d == 6 {} else if d == 7 {} else if d == 8 {} else {}
  }

  /** The decimal text of a number is all digits and reads back as the number. */
  lemma {:induction false} NatToStringDigits(n: nat)
    ensures forall i :: 0 <= i < |NatToString(n)| ==> IsDigit(NatToString(n)[i])
    ensures DigitsValue(NatToString(n)) == n
    decreases n
  {
    DigitCharValue(n % 10);
    if n >= 10 {
      NatToStringDigits(n / 10);
      var s := NatToString(n);
      assert s == NatToString(n / 10) + [DigitChar(n % 10)];
      assert s[..|s| - 1] == NatToString(n / 10);
    }
  }

  /** `parseInt(String(n))` is `n`. */
  lemma ParseIntOfNatToString(n: nat)
    ensures ParseInt(NatToString(n)) == Some(n)
  {
    var s := NatToString(n);
    NatToStringDigits(n);
    assert !IsBlank(s[0]);
    assert TrimStart(s) == s;
    assert Unsigned(s) == s;
    assert |s| >= 2 ==> IsDigit(s[1]);
    assert DigitPrefix(s) == |s|;
    assert s[..|s|] == s;
  }
}
