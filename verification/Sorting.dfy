/**
 The default `Array.prototype.sort()` on a list of string keys, modelled as an
 insertion sort under `JsString.Less`. The uniqueness lemma at the end shows that
 any correct sort of distinct keys yields the same sequence, so the choice of
 algorithm does not matter.
 */
module Sorting {
  import opened JsString
  import opened Seqs

  predicate Sorted(s: seq<string>) {
    forall i, j | 0 <= i < j < |s| :: LessEq(s[i], s[j])
  }

  predicate StrictlySorted(s: seq<string>) {
    forall i, j | 0 <= i < j < |s| :: Less(s[i], s[j])
  }

  /** `x` is at or below every element of `s`. */
  predicate LowerBound(x: string, s: seq<string>) {
    forall i | 0 <= i < |s| :: LessEq(x, s[i])
  }

  /** Puts `x` in front of the first element that is not below it. */
  function Insert(x: string, s: seq<string>): (r: seq<string>)
    ensures |r| == |s| + 1
    ensures multiset(r) == multiset(s) + multiset{x}
  {
    if |s| == 0 || LessEq(x, s[0]) then [x] + s
    else
      assert s == [s[0]] + s[1..];
      [s[0]] + Insert(x, s[1..])
  }

  lemma SortedCons(x: string, s: seq<string>)
    requires LowerBound(x, s) && Sorted(s)
    ensures Sorted([x] + s)
  {
  }

  lemma {:induction false} InsertLowerBound(y: string, x: string, s: seq<string>)
    requires LowerBound(y, s) && LessEq(y, x)
    ensures LowerBound(y, Insert(x, s))
    decreases |s|
  {
    if |s| == 0 || LessEq(x, s[0]) {
    } else {
      InsertLowerBound(y, x, s[1..]);
      var r := Insert(x, s);
      assert r == [s[0]] + Insert(x, s[1..]);
      forall i | 0 <= i < |r|
        ensures LessEq(y, r[i])
      {
        if i > 0 {
          assert r[i] == Insert(x, s[1..])[i - 1];
        }
      }
    }
  }

  lemma {:induction false} InsertSorted(x: string, s: seq<string>)
    requires Sorted(s)
    ensures Sorted(Insert(x, s))
    decreases |s|
  {
    if |s| == 0 {
    } else if LessEq(x, s[0]) {
      forall i | 0 <= i < |s|
        ensures LessEq(x, s[i])
      {
        LessEqTransitive(x, s[0], s[i]);
      }
      SortedCons(x, s);
    } else {
      LessTotal(x, s[0]);
      var t := s[1..];
      assert Sorted(t);
      InsertSorted(x, t);
      assert LowerBound(s[0], t);
      InsertLowerBound(s[0], x, t);
      SortedCons(s[0], Insert(x, t));
    }
  }

  /** Sorts `s` into non-decreasing order without adding or losing an element. */
  function Sort(s: seq<string>): (r: seq<string>)
    ensures |r| == |s|
    ensures multiset(r) == multiset(s)
    ensures Sorted(r)
  {
    if |s| == 0 then []
    else
      assert s == [s[0]] + s[1..];
      var t := Sort(s[1..]);
      InsertSorted(s[0], t);
      Insert(s[0], t)
  }

  lemma {:induction false} InsertDistinct(x: string, s: seq<string>)
    requires Distinct(s) && x !in s
    ensures Distinct(Insert(x, s))
    decreases |s|
  {
    if |s| == 0 || LessEq(x, s[0]) {
    } else {
      var t := s[1..];
      assert s == [s[0]] + t;
      InsertDistinct(x, t);
      var u := Insert(x, t);
      assert s[0] !in multiset(u);
      var r := [s[0]] + u;
      forall i, j | 0 <= i < j < |r|
        ensures r[i] != r[j]
      {
        if i > 0 {
          assert r[i] == u[i - 1] && r[j] == u[j - 1];
        } else {
          assert r[j] == u[j - 1] && r[j] in multiset(u);
        }
      }
    }
  }

  lemma {:induction false} SortDistinct(s: seq<string>)
    requires Distinct(s)
    ensures Distinct(Sort(s))
    decreases |s|
  {
    if |s| > 0 {
      var t := s[1..];
      assert s == [s[0]] + t;
      SortDistinct(t);
      assert s[0] !in multiset(Sort(t));
      InsertDistinct(s[0], Sort(t));
    }
  }

  /** Sorting keys that are pairwise different puts them in strictly
      increasing order. */
  lemma SortStrict(s: seq<string>)
    requires Distinct(s)
    ensures StrictlySorted(Sort(s))
  {
    SortDistinct(s);
  }

  lemma HeadIsMember(b: seq<string>)
    requires |b| > 0
    ensures b[0] in b
  {
  }

  /** Two strictly increasing sequences holding the same elements are equal. */
  lemma {:induction false} StrictlySortedUnique(a: seq<string>, b: seq<string>)
    requires StrictlySorted(a) && StrictlySorted(b)
    requires forall x :: x in a <==> x in b
    ensures a == b
    decreases |a|
  {
    if |a| == 0 {
      if |b| > 0 {
        HeadIsMember(b);
      }
    } else {
      assert a[0] in b;
      assert |b| > 0;
      assert b[0] in a;
      if a[0] != b[0] {
        var i :| 0 <= i < |a| && a[i] == b[0];
        var j :| 0 <= j < |b| && b[j] == a[0];
        assert Less(a[0], b[0]);
        assert Less(b[0], a[0]);
        LessAsymmetric(a[0], b[0]);
      }
      forall x
        ensures x in a[1..] <==> x in b[1..]
      {
        if x in a[1..] {
          var i :| 1 <= i < |a| && a[i] == x;
          assert Less(a[0], x);
          LessIrreflexive(x);
          assert x in a && x in b;
          var j :| 0 <= j < |b| && b[j] == x;
          assert j != 0;
          assert b[1..][j - 1] == x;
        }
        if x in b[1..] {
          var j :| 1 <= j < |b| && b[j] == x;
          assert Less(b[0], x);
          LessIrreflexive(x);
          assert x in b && x in a;
          var i :| 0 <= i < |a| && a[i] == x;
          assert i != 0;
          assert a[1..][i - 1] == x;
        }
      }
      assert StrictlySorted(a[1..]) && StrictlySorted(b[1..]);
      StrictlySortedUnique(a[1..], b[1..]);
      assert a == [a[0]] + a[1..] && b == [b[0]] + b[1..];
    }
  }
}
