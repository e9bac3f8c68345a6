/**
 * The array operations the client code uses to replace React state: `filter`,
 * `map` that rewrites the elements a predicate selects, and the index-based
 * forms `filter((_, i) => i !== k)` and `map((x, i) => i === k ? f(x) : x)`.
 */
module Lists {

  /** `s.filter(keep)`. */
  function Filter<T>(s: seq<T>, keep: T -> bool): (r: seq<T>)
    ensures |r| <= |s|
    ensures forall x :: x in r ==> x in s && keep(x)
  {
    if s == [] then []
    else (if keep(s[0]) then [s[0]] else []) + Filter(s[1..], keep)
  }

  /** `r` can be obtained from `s` by deleting elements, keeping the order of the rest. */
  predicate IsSubsequence<T(==)>(r: seq<T>, s: seq<T>)
  {
    if r == [] then true
    else if s == [] then false
    else if r[0] == s[0] then IsSubsequence(r[1..], s[1..])
    else IsSubsequence(r, s[1..])
  }

  lemma {:induction false} SubsequenceDropFirst<T>(r: seq<T>, s: seq<T>)
    requires r != [] && IsSubsequence(r, s)
    ensures IsSubsequence(r[1..], s)
    decreases |s|, 0
  {
    if r[0] == s[0] {
      SubsequenceSkip(r[1..], s[1..], s[0]);
      assert [s[0]] + s[1..] == s;
    } else {
      SubsequenceDropFirst(r, s[1..]);
      SubsequenceSkip(r[1..], s[1..], s[0]);
      assert [s[0]] + s[1..] == s;
    }
  }

  lemma {:induction false} SubsequenceSkip<T>(r: seq<T>, s: seq<T>, x: T)
    requires IsSubsequence(r, s)
    ensures IsSubsequence(r, [x] + s)
    decreases |s|, 1
  {
    if r != [] && r[0] == x {
      SubsequenceDropFirst(r, s);
      assert ([x] + s)[1..] == s;
    } else {
      assert ([x] + s)[1..] == s;
    }
  }

  /** The result of a filter is an order-preserving subsequence of its input. */
  lemma {:induction false} FilterIsSubsequence<T>(s: seq<T>, keep: T -> bool)
    ensures IsSubsequence(Filter(s, keep), s)
  {
    if s != [] {
      FilterIsSubsequence(s[1..], keep);
      var rest := Filter(s[1..], keep);
      if keep(s[0]) {
        assert Filter(s, keep) == [s[0]] + rest;
        assert ([s[0]] + rest)[1..] == rest;
      } else {
        assert Filter(s, keep) == rest;
        SubsequenceSkip(rest, s[1..], s[0]);
        assert [s[0]] + s[1..] == s;
      }
    }
  }

  /** An element survives the filter exactly when it was in the input and passes the test. */
  lemma {:induction false} FilterMembership<T>(s: seq<T>, keep: T -> bool, x: T)
    ensures x in Filter(s, keep) <==> x in s && keep(x)
  {
    if s != [] {
      FilterMembership(s[1..], keep, x);
      assert s == [s[0]] + s[1..];
    }
  }

  /** A filter that every element passes returns its input. */
  lemma {:induction false} FilterKeepsAll<T>(s: seq<T>, keep: T -> bool)
    requires forall i :: 0 <= i < |s| ==> keep(s[i])
    ensures Filter(s, keep) == s
  {
    if s != [] {
      FilterKeepsAll(s[1..], keep);
      assert [s[0]] + s[1..] == s;
    }
  }

  /** Filtering twice with the same test is filtering once. */
  lemma FilterIdempotent<T>(s: seq<T>, keep: T -> bool)
    ensures Filter(Filter(s, keep), keep) == Filter(s, keep)
  {
    var r := Filter(s, keep);
    forall i | 0 <= i < |r| ensures keep(r[i]) {
      assert r[i] in r;
    }
    FilterKeepsAll(r, keep);
  }

  /** Two tests that agree on every element filter the same way. */
  lemma {:induction false} FilterAgreeingTests<T>(s: seq<T>, keep1: T -> bool, keep2: T -> bool)
    requires forall i :: 0 <= i < |s| ==> keep1(s[i]) == keep2(s[i])
    ensures Filter(s, keep1) == Filter(s, keep2)
  {
    if s != [] {
      FilterAgreeingTests(s[1..], keep1, keep2);
    }
  }

  /** `s.map(x => hit(x) ? f(x) : x)`. */
  function MapWhere<T>(s: seq<T>, hit: T -> bool, f: T -> T): (r: seq<T>)
    ensures |r| == |s|
    ensures forall i :: 0 <= i < |s| ==> r[i] == if hit(s[i]) then f(s[i]) else s[i]
  {
    if s == [] then []
    else [if hit(s[0]) then f(s[0]) else s[0]] + MapWhere(s[1..], hit, f)
  }

  /** When no element is selected, the rewrite leaves the sequence as it was. */
  lemma MapWhereNoHit<T>(s: seq<T>, hit: T -> bool, f: T -> T)
    requires forall i :: 0 <= i < |s| ==> !hit(s[i])
    ensures MapWhere(s, hit, f) == s
  {
  }

  /** `s.filter((_, i) => i !== k)`. */
  function WithoutIndex<T>(s: seq<T>, k: int): (r: seq<T>)
    ensures 0 <= k < |s| ==> r == s[..k] + s[k + 1..]
    ensures !(0 <= k < |s|) ==> r == s
  {
    if s == [] then []
    else if k == 0 then s[1..]
    else
      var rest := WithoutIndex(s[1..], k - 1);
      assert 0 <= k - 1 < |s| - 1 ==> [s[0]] + s[1..][..k - 1] == s[..k];
      [s[0]] + rest
  }

  /** `s.map((x, i) => i === k ? f(x) : x)`. */
  function UpdateAt<T>(s: seq<T>, k: int, f: T -> T): (r: seq<T>)
    ensures |r| == |s|
    ensures forall i :: 0 <= i < |s| ==> r[i] == if i == k then f(s[i]) else s[i]
  {
    if s == [] then []
    else [if k == 0 then f(s[0]) else s[0]] + UpdateAt(s[1..], k - 1, f)
  }
}
