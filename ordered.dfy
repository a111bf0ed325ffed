/**
 * Python's ordering of strings (code point by code point, a proper prefix
 * first) and the `sorted(set(...))` idiom: strictly ascending lists, which a
 * set of strings determines uniquely.
 */
module Ordered {
  /** a < b for Python strings. */
  predicate Less(a: string, b: string)
    decreases |a|
  {
    (|a| == 0 && |b| > 0)
    || (|a| > 0 && |b| > 0 && (a[0] < b[0] || (a[0] == b[0] && Less(a[1..], b[1..]))))
  }

  lemma {:induction false} LessIrreflexive(a: string)
    ensures !Less(a, a)
  {
    if |a| > 0 {
      LessIrreflexive(a[1..]);
    }
  }

  lemma {:induction false} LessTransitive(a: string, b: string, c: string)
    requires Less(a, b) && Less(b, c)
    ensures Less(a, c)
  {
    if |a| > 0 && a[0] == b[0] && b[0] == c[0] {
      LessTransitive(a[1..], b[1..], c[1..]);
    }
  }

  lemma {:induction false} LessTotal(a: string, b: string)
    ensures a == b || Less(a, b) || Less(b, a)
  {
    if |a| > 0 && |b| > 0 && a[0] == b[0] {
      LessTotal(a[1..], b[1..]);
      if a[1..] == b[1..] {
        assert a == [a[0]] + a[1..] && b == [b[0]] + b[1..];
      }
    }
  }

  lemma {:induction false} LessAsymmetric(a: string, b: string)
    requires Less(a, b)
    ensures !Less(b, a)
  {
    if |a| > 0 && a[0] == b[0] {
      LessAsymmetric(a[1..], b[1..]);
    }
  }

  predicate StrictlySorted(s: seq<string>)
  {
    forall i, j :: 0 <= i < j < |s| ==> Less(s[i], s[j])
  }

  /** Insert x into a strictly ascending list, leaving it alone when x is already there. */
  function Insert(x: string, s: seq<string>): (r: seq<string>)
    requires StrictlySorted(s)
    ensures StrictlySorted(r)
    ensures forall y :: y in r <==> y == x || y in s
  {
    if |s| == 0 then [x]
    else if x == s[0] then s
    else if Less(x, s[0]) then
      assert forall j :: 0 < j < |s| ==> Less(x, s[j]) by {
        forall j | 0 < j < |s| ensures Less(x, s[j]) {
          LessTransitive(x, s[0], s[j]);
        }
      }
      [x] + s
    else
      LessTotal(x, s[0]);
      var t := Insert(x, s[1..]);
      assert forall y :: y in t ==> Less(s[0], y);
      [s[0]] + t
  }

  /** sorted(set(xs)): the distinct elements of xs in ascending order. */
  function SortedDistinct(xs: seq<string>): (r: seq<string>)
    ensures StrictlySorted(r)
    ensures forall y :: y in r <==> y in xs
  {
    if |xs| == 0 then [] else Insert(xs[|xs| - 1], SortedDistinct(xs[..|xs| - 1]))
  }

  /** Two strictly ascending lists with the same elements are equal. */
  lemma {:induction false} SortedUnique(a: seq<string>, b: seq<string>)
    requires StrictlySorted(a) && StrictlySorted(b)
    requires forall y :: y in a <==> y in b
    ensures a == b
  {
    BothEmptyOrNeither(a, b);
    if |a| > 0 && |b| > 0 {
      // the heads are the minima of the same set
      if a[0] != b[0] {
        assert b[0] in a;
        assert a[0] in b;
        var i :| 0 <= i < |a| && a[i] == b[0];
        var j :| 0 <= j < |b| && b[j] == a[0];
        assert Less(a[0], b[0]) by { if i == 0 { assert false; } }
        assert Less(b[0], a[0]) by { if j == 0 { assert false; } }
        LessAsymmetric(a[0], b[0]);
        assert false;
      }
      forall y ensures y in a[1..] <==> y in b[1..] {
        if y in a[1..] {
          var i :| 1 <= i < |a| && a[i] == y;
          assert Less(a[0], y);
          LessIrreflexive(y);
          assert y in b && y != b[0];
          var j :| 0 <= j < |b| && b[j] == y;
          assert j >= 1;
          assert b[1..][j - 1] == y;
        }
        if y in b[1..] {
          var j :| 1 <= j < |b| && b[j] == y;
          assert Less(b[0], y);
          LessIrreflexive(y);
          assert y in a && y != a[0];
          var i :| 0 <= i < |a| && a[i] == y;
          assert i >= 1;
          assert a[1..][i - 1] == y;
        }
      }
      SortedUnique(a[1..], b[1..]);
      assert a == [a[0]] + a[1..] && b == [b[0]] + b[1..];
    }
  }

  lemma BothEmptyOrNeither(a: seq<string>, b: seq<string>)
    requires forall y :: y in a <==> y in b
    ensures |a| == 0 <==> |b| == 0
  {
    if |a| > 0 {
      assert a[0] in b;
    }
    if |b| > 0 {
      assert b[0] in a;
    }
  }

  /** A strictly ascending list holds no element twice. */
  lemma SortedIsDistinct(s: seq<string>, i: int, j: int)
    requires StrictlySorted(s) && 0 <= i < j < |s|
    ensures s[i] != s[j]
  {
    LessIrreflexive(s[i]);
  }

  /** sorted(s) for a set of strings, built by repeated insertion. */
  method SortSet(s: set<string>) returns (r: seq<string>)
    ensures StrictlySorted(r)
    ensures forall y :: y in r <==> y in s
  {
    r := [];
    var rest := s;
    while rest != {}
      invariant StrictlySorted(r)
      invariant forall y :: y in s <==> y in r || y in rest
      decreases |rest|
    {
      var x :| x in rest;
      r := Insert(x, r);
      rest := rest - {x};
    }
  }
}
