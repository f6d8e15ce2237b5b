/**
 * Named boolean checks, as the loaders report them: an object literal of
 * `name: bool` entries, whose failures are `Object.entries(checks)
 * .filter(([k, v]) => !v).map(([k]) => k)` — the names of the false
 * entries, in declaration order.
 */
module Checks {
  datatype Check = Check(name: string, ok: bool)

  /** The names of the false checks, in order. */
  function Failures(cs: seq<Check>): (r: seq<string>)
    ensures |r| <= |cs|
  {
    if cs == [] then []
    else (if cs[0].ok then [] else [cs[0].name]) + Failures(cs[1..])
  }

  predicate AllOk(cs: seq<Check>)
  {
    forall i :: 0 <= i < |cs| ==> cs[i].ok
  }

  /** There is no failure exactly when every check holds. */
  lemma {:induction false} FailuresEmpty(cs: seq<Check>)
    ensures Failures(cs) == [] <==> AllOk(cs)
  {
    if cs != [] {
      FailuresEmpty(cs[1..]);
      assert AllOk(cs) <==> cs[0].ok && AllOk(cs[1..]) by {
        assert forall i :: 1 <= i < |cs| ==> cs[i] == cs[1..][i - 1];
      }
    }
  }

  /** A name is listed exactly when some check of that name is false. */
  lemma {:induction false} FailuresListed(cs: seq<Check>, n: string)
    ensures n in Failures(cs) <==> exists i :: 0 <= i < |cs| && cs[i].name == n && !cs[i].ok
  {
    if cs != [] {
      FailuresListed(cs[1..], n);
      if n in Failures(cs[1..]) {
        var i :| 0 <= i < |cs[1..]| && cs[1..][i].name == n && !cs[1..][i].ok;
        assert cs[i + 1] == cs[1..][i];
      }
      if exists i :: 0 <= i < |cs| && cs[i].name == n && !cs[i].ok {
        var i :| 0 <= i < |cs| && cs[i].name == n && !cs[i].ok;
        if i > 0 {
          assert cs[1..][i - 1] == cs[i];
        }
      }
    }
  }

  /** Failures keep the declaration order of the checks they come from. */
  lemma {:induction false} FailuresAppend(a: seq<Check>, b: seq<Check>)
    ensures Failures(a + b) == Failures(a) + Failures(b)
  {
    if a == [] {
      assert a + b == b;
    } else {
      assert (a + b)[1..] == a[1..] + b;
      FailuresAppend(a[1..], b);
    }
  }
}
