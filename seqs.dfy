/**
 * `Array.prototype.filter` and `Array.prototype.map` on sequences, with the
 * facts the modules use about them: membership, appending and counting.
 */
module Seqs {
  import opened Wrappers

  function Filter<T>(f: T -> bool, s: seq<T>): (r: seq<T>)
    ensures |r| <= |s|
    ensures forall i :: 0 <= i < |r| ==> f(r[i]) && r[i] in s
  {
    if s == [] then []
    else (if f(s[0]) then [s[0]] else []) + Filter(f, s[1..])
  }

  function Map<T, U>(f: T -> U, s: seq<T>): (r: seq<U>)
    ensures |r| == |s|
    ensures forall i :: 0 <= i < |s| ==> r[i] == f(s[i])
  {
    seq(|s|, i requires 0 <= i < |s| => f(s[i]))
  }

  /** An element is kept iff it is in the input and passes the test. */
  lemma {:induction false} FilterIn<T>(f: T -> bool, s: seq<T>, x: T)
    ensures x in Filter(f, s) <==> x in s && f(x)
  {
    if s != [] {
      FilterIn(f, s[1..], x);
      assert x in s <==> x == s[0] || x in s[1..];
    }
  }

  lemma {:induction false} FilterAppend<T>(f: T -> bool, a: seq<T>, b: seq<T>)
    ensures Filter(f, a + b) == Filter(f, a) + Filter(f, b)
  {
    if a == [] {
      assert a + b == b;
    } else {
      var head := if f(a[0]) then [a[0]] else [];
      assert (a + b)[0] == a[0];
      assert (a + b)[1..] == a[1..] + b;
      FilterAppend(f, a[1..], b);
      calc {
        Filter(f, a + b);
        head + Filter(f, a[1..] + b);
        head + (Filter(f, a[1..]) + Filter(f, b));
        (head + Filter(f, a[1..])) + Filter(f, b);
      }
    }
  }

  /** Filtering one more element appends it exactly when it passes. */
  lemma FilterSnoc<T>(f: T -> bool, s: seq<T>, x: T)
    ensures Filter(f, s + [x]) == Filter(f, s) + (if f(x) then [x] else [])
  {
    FilterAppend(f, s, [x]);
    assert [x][1..] == [];
  }

  /** Every element passes: nothing is dropped. */
  lemma {:induction false} FilterAll<T>(f: T -> bool, s: seq<T>)
    requires forall i :: 0 <= i < |s| ==> f(s[i])
    ensures Filter(f, s) == s
  {
    if s != [] {
      FilterAll(f, s[1..]);
      assert s == [s[0]] + s[1..];
    }
  }

  /** No element passes: everything is dropped. */
  lemma {:induction false} FilterNone<T>(f: T -> bool, s: seq<T>)
    requires forall i :: 0 <= i < |s| ==> !f(s[i])
    ensures Filter(f, s) == []
  {
    if s != [] {
      FilterNone(f, s[1..]);
    }
  }

  /** No two elements share a key. */
  predicate Unique<T, K(==)>(key: T -> K, s: seq<T>)
  {
    forall i, j :: 0 <= i < j < |s| ==> key(s[i]) != key(s[j])
  }

  /** Filtering keeps keys unique. */
  lemma {:induction false} FilterUnique<T, K>(key: T -> K, f: T -> bool, s: seq<T>)
    requires Unique(key, s)
    ensures Unique(key, Filter(f, s))
  {
    if s != [] {
      FilterUnique(key, f, s[1..]);
      var rest := Filter(f, s[1..]);
      forall y | y in rest ensures key(y) != key(s[0]) {
        var j :| 0 <= j < |s[1..]| && s[1..][j] == y;
        assert s[j + 1] == y;
      }
    }
  }

  /** Filtering twice with the same test is filtering once. */
  lemma FilterIdempotent<T>(f: T -> bool, s: seq<T>)
    ensures Filter(f, Filter(f, s)) == Filter(f, s)
  {
    FilterAll(f, Filter(f, s));
  }

  /** Mapping one more element of a prefix. */
  lemma MapPrefix<T, U>(f: T -> U, s: seq<T>, i: nat)
    requires i < |s|
    ensures Map(f, s[..i + 1]) == Map(f, s[..i]) + [f(s[i])]
  {
  }

  lemma MapAppend<T, U>(f: T -> U, a: seq<T>, b: seq<T>)
    ensures Map(f, a + b) == Map(f, a) + Map(f, b)
  {
  }

  /** A loop that pushes `f(x)` for every `x` that passes `keep`, in order. */
  method FilterMapLoop<T, U>(xs: seq<T>, keep: T -> bool, f: T -> U) returns (ys: seq<U>)
    ensures ys == Map(f, Filter(keep, xs))
  {
    ys := [];
    var i := 0;
    while i < |xs|
      invariant i <= |xs|
      invariant ys == Map(f, Filter(keep, xs[..i]))
    {
      assert xs[..i + 1] == xs[..i] + [xs[i]];
      FilterSnoc(keep, xs[..i], xs[i]);
      MapAppend(f, Filter(keep, xs[..i]), if keep(xs[i]) then [xs[i]] else []);
      if keep(xs[i]) {
        ys := ys + [f(xs[i])];
      }
      i := i + 1;
    }
    assert xs[..|xs|] == xs;
  }

  /** The values `f` yields, in order, skipping the elements it yields nothing for. */
  function Collect<T, A>(xs: seq<T>, f: T -> Option<A>): (r: seq<A>)
    ensures |r| <= |xs|
  {
    if xs == [] then []
    else
      var x := xs[|xs| - 1];
      Collect(xs[..|xs| - 1], f) + (if f(x).Some? then [f(x).value] else [])
  }

  /** A value is collected iff some element yields it. */
  lemma {:induction false} CollectIn<T, A>(xs: seq<T>, f: T -> Option<A>, a: A)
    ensures a in Collect(xs, f) <==> exists i :: 0 <= i < |xs| && f(xs[i]) == Some(a)
  {
    if xs != [] {
      var init := xs[..|xs| - 1];
      CollectIn(init, f, a);
      if a in Collect(xs, f) && a !in Collect(init, f) {
        assert f(xs[|xs| - 1]) == Some(a);
      }
      if exists i :: 0 <= i < |xs| && f(xs[i]) == Some(a) {
        var i :| 0 <= i < |xs| && f(xs[i]) == Some(a);
        if i < |xs| - 1 {
          assert f(init[i]) == Some(a);
        }
      }
    }
  }

  /** Collecting over one more element. */
  lemma CollectSnoc<T, A>(xs: seq<T>, x: T, f: T -> Option<A>)
    ensures Collect(xs + [x], f) == Collect(xs, f) + (if f(x).Some? then [f(x).value] else [])
  {
    assert (xs + [x])[..|xs|] == xs;
  }

  /** Whether `f` yields a value for an element. */
  function Yields<T, A>(f: T -> Option<A>): T -> bool
  {
    x => f(x).Some?
  }

  /** The collected values are those of the elements `f` yields for, one each, in order. */
  lemma {:induction false} CollectPicks<T, A>(xs: seq<T>, f: T -> Option<A>)
    ensures |Collect(xs, f)| == |Filter(Yields(f), xs)|
    ensures forall i :: 0 <= i < |Collect(xs, f)| ==> f(Filter(Yields(f), xs)[i]) == Some(Collect(xs, f)[i])
  {
    if xs != [] {
      var init, x := xs[..|xs| - 1], xs[|xs| - 1];
      CollectPicks(init, f);
      assert xs == init + [x];
      FilterSnoc(Yields(f), init, x);
    }
  }

  /** The number of elements that pass the test. */
  function Count<T>(f: T -> bool, s: seq<T>): (n: nat)
    ensures n <= |s|
  {
    if s == [] then 0 else (if f(s[0]) then 1 else 0) + Count(f, s[1..])
  }

  lemma {:induction false} CountIsFilterLength<T>(f: T -> bool, s: seq<T>)
    ensures Count(f, s) == |Filter(f, s)|
  {
    if s != [] {
      CountIsFilterLength(f, s[1..]);
    }
  }

  lemma {:induction false} CountAppend<T>(f: T -> bool, a: seq<T>, b: seq<T>)
    ensures Count(f, a + b) == Count(f, a) + Count(f, b)
  {
    if a == [] {
      assert a + b == b;
    } else {
      assert (a + b)[0] == a[0];
      assert (a + b)[1..] == a[1..] + b;
      CountAppend(f, a[1..], b);
    }
  }

  lemma CountSnoc<T>(f: T -> bool, s: seq<T>, x: T)
    ensures Count(f, s + [x]) == Count(f, s) + (if f(x) then 1 else 0)
  {
    CountAppend(f, s, [x]);
    assert [x][1..] == [];
  }

  /** `log.push(x)`, then keep only the last `cap` entries (`slice(-cap)`). */
  function Capped<T>(s: seq<T>, x: T, cap: nat): (r: seq<T>)
    requires cap > 0
    ensures 1 <= |r| <= cap && |r| <= |s| + 1
    ensures r[|r| - 1] == x
    ensures |s| < cap ==> r == s + [x]
    ensures r == (s + [x])[|s| + 1 - |r|..]
  {
    var t := s + [x];
    if |t| > cap then t[|t| - cap..] else t
  }

  /** The last `n` elements, or all of them when there are fewer. */
  function Last<T>(s: seq<T>, n: nat): (r: seq<T>)
    ensures |r| == if |s| <= n then |s| else n
    ensures r == s[|s| - |r|..]
  {
    if |s| <= n then s else s[|s| - n..]
  }

  /** Pushing each of `xs` in turn onto a log capped at `cap` entries. */
  function CappedAll<T>(s: seq<T>, xs: seq<T>, cap: nat): seq<T>
    requires cap > 0
  {
    if xs == [] then s else Capped(CappedAll(s, xs[..|xs| - 1], cap), xs[|xs| - 1], cap)
  }

  /** Pushing one more entry after a batch. */
  lemma CappedAllSnoc<T>(s: seq<T>, xs: seq<T>, x: T, cap: nat)
    requires cap > 0
    ensures CappedAll(s, xs + [x], cap) == Capped(CappedAll(s, xs, cap), x, cap)
  {
    assert (xs + [x])[..|xs|] == xs;
  }

  lemma CappedIsLast<T>(s: seq<T>, x: T, cap: nat)
    requires cap > 0
    ensures Capped(s, x, cap) == Last(s + [x], cap)
  {
  }

  lemma LastOfLast<T>(t: seq<T>, x: T, n: nat)
    requires n > 0
    ensures Last(Last(t, n) + [x], n) == Last(t + [x], n)
  {
  }

  /**
   * After at least one push the capped log is the last `cap` entries of
   * the old log followed by everything pushed.
   */
  lemma {:induction false} CappedAllIsLast<T>(s: seq<T>, xs: seq<T>, cap: nat)
    requires cap > 0 && xs != []
    ensures CappedAll(s, xs, cap) == Last(s + xs, cap)
  {
    var init, x := xs[..|xs| - 1], xs[|xs| - 1];
    assert xs == init + [x];
    assert s + xs == (s + init) + [x];
    if init == [] {
      assert s + xs == s + [x];
      CappedIsLast(s, x, cap);
    } else {
      CappedAllIsLast(s, init, cap);
      CappedIsLast(CappedAll(s, init, cap), x, cap);
      LastOfLast(s + init, x, cap);
    }
  }

  /** No element occurs twice. */
  predicate NoDup<T(==)>(s: seq<T>)
  {
    forall i, j :: 0 <= i < j < |s| ==> s[i] != s[j]
  }

  /** A suffix of a sequence without repeats has none. */
  lemma LastNoDup<T>(s: seq<T>, n: nat)
    requires NoDup(s)
    ensures NoDup(Last(s, n))
  {
    var r := Last(s, n);
    forall i, j | 0 <= i < j < |r| ensures r[i] != r[j] {
      assert r[i] == s[|s| - |r| + i] && r[j] == s[|s| - |r| + j];
    }
  }

  /** `seen` after pushing each of `xs` that is not in it yet (`if (!seen.includes(x)) seen.push(x)`). */
  function AddNew<T(==)>(seen: seq<T>, xs: seq<T>): seq<T>
  {
    if xs == [] then seen
    else
      var s := AddNew(seen, xs[..|xs| - 1]);
      var x := xs[|xs| - 1];
      if x in s then s else s + [x]
  }

  /** Pushing one more element. */
  lemma AddNewSnoc<T>(seen: seq<T>, xs: seq<T>, x: T)
    ensures AddNew(seen, xs + [x]) == if x in AddNew(seen, xs) then AddNew(seen, xs) else AddNew(seen, xs) + [x]
  {
    assert (xs + [x])[..|xs|] == xs;
  }

  /** Pushing only elements not yet present keeps `seen` first, adds exactly the new ones and repeats none. */
  lemma {:induction false} AddNewSpec<T>(seen: seq<T>, xs: seq<T>)
    ensures |seen| <= |AddNew(seen, xs)| && AddNew(seen, xs)[..|seen|] == seen
    ensures forall x :: x in AddNew(seen, xs) <==> x in seen || x in xs
    ensures NoDup(seen) ==> NoDup(AddNew(seen, xs))
  {
    if xs != [] {
      var init := xs[..|xs| - 1];
      AddNewSpec(seen, init);
      assert xs == init + [xs[|xs| - 1]];
      var s := AddNew(seen, init);
      assert (s + [xs[|xs| - 1]])[..|seen|] == s[..|seen|];
    }
  }

  /** The sum of `g` over the elements that pass `f`. */
  function SumIf<T>(f: T -> bool, g: T -> int, s: seq<T>): int
  {
    if s == [] then 0 else (if f(s[0]) then g(s[0]) else 0) + SumIf(f, g, s[1..])
  }

  lemma {:induction false} SumIfAppend<T>(f: T -> bool, g: T -> int, a: seq<T>, b: seq<T>)
    ensures SumIf(f, g, a + b) == SumIf(f, g, a) + SumIf(f, g, b)
  {
    if a == [] {
      assert a + b == b;
    } else {
      assert (a + b)[0] == a[0];
      assert (a + b)[1..] == a[1..] + b;
      SumIfAppend(f, g, a[1..], b);
    }
  }

  lemma SumIfSnoc<T>(f: T -> bool, g: T -> int, s: seq<T>, x: T)
    ensures SumIf(f, g, s + [x]) == SumIf(f, g, s) + (if f(x) then g(x) else 0)
  {
    SumIfAppend(f, g, s, [x]);
    assert [x][1..] == [];
  }

  /** Sums of values in `[lo, hi]` lie between `lo` and `hi` times the count. */
  lemma {:induction false} SumIfBounds<T>(f: T -> bool, g: T -> int, s: seq<T>, lo: int, hi: int)
    requires forall x :: x in s && f(x) ==> lo <= g(x) <= hi
    ensures lo * Count(f, s) <= SumIf(f, g, s) <= hi * Count(f, s)
  {
    if s != [] {
      assert forall x :: x in s[1..] ==> x in s;
      SumIfBounds(f, g, s[1..], lo, hi);
      var b := if f(s[0]) then 1 else 0;
      var c := Count(f, s[1..]);
      assert Count(f, s) == b + c;
      assert lo * (b + c) == lo * b + lo * c;
      assert hi * (b + c) == hi * b + hi * c;
      assert s[0] in s;
    }
  }

  /** A prefix one element longer. */
  lemma TakeSnoc<T>(s: seq<T>, i: nat)
    requires i < |s|
    ensures s[..i + 1] == s[..i] + [s[i]]
  {
  }
}
