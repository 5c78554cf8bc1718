/** Order-preserving filtering of finite sequences, the shape every
    `Array.prototype.filter` call of the marketplace takes. */
module Seqs {

  /** `r` can be obtained from `s` by deleting elements: order is kept and
      nothing is added or duplicated. */
  ghost predicate SubsequenceOf<T>(r: seq<T>, s: seq<T>)
    decreases |s|
  {
    r == [] ||
    (s != [] && ((r[0] == s[0] && SubsequenceOf(r[1..], s[1..])) || SubsequenceOf(r, s[1..])))
  }

  /** The elements of `s` that satisfy `p`, in their original order. */
  function Filter<T>(s: seq<T>, p: T -> bool): (r: seq<T>)
    ensures |r| <= |s|
    ensures forall i :: 0 <= i < |r| ==> r[i] in s && p(r[i])
    ensures forall i :: 0 <= i < |s| && p(s[i]) ==> s[i] in r
    decreases |s|
  {
    if s == [] then []
    else if p(s[0]) then [s[0]] + Filter(s[1..], p)
    else Filter(s[1..], p)
  }

  /** The filter result is a subsequence of its input. */
  lemma {:induction false} FilterIsSubsequence<T>(s: seq<T>, p: T -> bool)
    ensures SubsequenceOf(Filter(s, p), s)
    decreases |s|
  {
    if s != [] {
      FilterIsSubsequence(s[1..], p);
      var r := Filter(s, p);
      if p(s[0]) {
        assert r[0] == s[0] && r[1..] == Filter(s[1..], p);
      }
    }
  }

  /** Every element kept by the filter is kept as often as it occurs in the
      input; every other element is dropped entirely. */
  lemma {:induction false} FilterMultiplicity<T>(s: seq<T>, p: T -> bool, x: T)
    ensures multiset(Filter(s, p))[x] == if p(x) then multiset(s)[x] else 0
    decreases |s|
  {
    if s != [] {
      FilterMultiplicity(s[1..], p, x);
      assert s == [s[0]] + s[1..];
      assert multiset(s) == multiset{s[0]} + multiset(s[1..]);
      if p(s[0]) {
        assert multiset(Filter(s, p)) == multiset{s[0]} + multiset(Filter(s[1..], p));
      }
    }
  }

  /** Filtering distributes over concatenation. */
  lemma {:induction false} FilterConcat<T>(a: seq<T>, b: seq<T>, p: T -> bool)
    ensures Filter(a + b, p) == Filter(a, p) + Filter(b, p)
    decreases |a|
  {
    if a == [] {
      assert a + b == b;
    } else {
      assert (a + b)[0] == a[0];
      assert (a + b)[1..] == a[1..] + b;
      FilterConcat(a[1..], b, p);
    }
  }

  /** A sequence is the part before position `k`, the element there and the
      part after it. */
  lemma SplitAt<T>(s: seq<T>, k: int)
    requires 0 <= k < |s|
    ensures s[..k] + [s[k]] + s[k + 1..] == s
  {
  }

  /** Filtering a sequence split around one element filters the two sides and
      keeps or drops that element. */
  lemma FilterSplice<T>(before: seq<T>, x: T, after: seq<T>, p: T -> bool)
    ensures Filter(before + [x] + after, p) ==
      Filter(before, p) + (if p(x) then [x] else []) + Filter(after, p)
  {
    FilterConcat(before + [x], after, p);
    FilterConcat(before, [x], p);
    assert Filter([x], p) == if p(x) then [x] else [];
  }

  /** When `p` holds on both sides and fails on `x` alone, filtering drops
      exactly `x`. */
  lemma FilterDropsOne<T>(before: seq<T>, x: T, after: seq<T>, p: T -> bool)
    requires forall i :: 0 <= i < |before| ==> p(before[i])
    requires forall i :: 0 <= i < |after| ==> p(after[i])
    requires !p(x)
    ensures Filter(before + [x] + after, p) == before + after
  {
    FilterSplice(before, x, after, p);
    FilterAll(before, p);
    FilterAll(after, p);
    assert (if p(x) then [x] else []) == [];
    assert before + [] == before;
  }

  /** Two predicates that agree on every element of `s` filter it alike. */
  lemma {:induction false} FilterAgree<T>(s: seq<T>, p: T -> bool, q: T -> bool)
    requires forall i :: 0 <= i < |s| ==> p(s[i]) == q(s[i])
    ensures Filter(s, p) == Filter(s, q)
    decreases |s|
  {
    if s != [] {
      assert forall i :: 0 <= i < |s[1..]| ==> s[1..][i] == s[i + 1];
      FilterAgree(s[1..], p, q);
    }
  }

  /** A predicate that holds of every element keeps the whole sequence. */
  lemma {:induction false} FilterAll<T>(s: seq<T>, p: T -> bool)
    requires forall i :: 0 <= i < |s| ==> p(s[i])
    ensures Filter(s, p) == s
    decreases |s|
  {
    if s != [] {
      assert forall i :: 0 <= i < |s[1..]| ==> s[1..][i] == s[i + 1];
      FilterAll(s[1..], p);
      assert s == [s[0]] + s[1..];
    }
  }

  /** A predicate that holds of no element keeps nothing. */
  lemma {:induction false} FilterNone<T>(s: seq<T>, p: T -> bool)
    requires forall i :: 0 <= i < |s| ==> !p(s[i])
    ensures Filter(s, p) == []
    decreases |s|
  {
    if s != [] {
      assert forall i :: 0 <= i < |s[1..]| ==> s[1..][i] == s[i + 1];
      FilterNone(s[1..], p);
    }
  }

  /** Every element of a subsequence occurs in the sequence. */
  lemma {:induction false} SubsequenceMember<T>(r: seq<T>, s: seq<T>, i: int)
    requires SubsequenceOf(r, s)
    requires 0 <= i < |r|
    ensures r[i] in s
    decreases |s|
  {
    if r[0] == s[0] && SubsequenceOf(r[1..], s[1..]) {
      if i > 0 {
        SubsequenceMember(r[1..], s[1..], i - 1);
      }
    } else {
      SubsequenceMember(r, s[1..], i);
    }
  }
}
