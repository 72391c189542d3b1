/** Order-preserving selection over sequences: the shape shared by the
    migration filter and by the ran-set difference of the forward run. */
module Selection {

  /** The elements of `s` that satisfy `keep`, in their original order,
      every occurrence kept separately (no deduplication). */
  function Where<T>(s: seq<T>, keep: T -> bool): (r: seq<T>)
    ensures |r| <= |s|
    ensures forall x :: x in r ==> x in s && keep(x)
  {
    if s == [] then []
    else
      var init, x := s[..|s| - 1], s[|s| - 1];
      assert s == init + [x];
      Where(init, keep) + (if keep(x) then [x] else [])
  }

  /** `a` can be obtained from `b` by deleting elements (order kept). */
  predicate IsSubsequence<T(==)>(a: seq<T>, b: seq<T>)
    decreases |b|
  {
    if a == [] then true
    else if b == [] then false
    else
      (a[|a| - 1] == b[|b| - 1] && IsSubsequence(a[..|a| - 1], b[..|b| - 1]))
      || IsSubsequence(a, b[..|b| - 1])
  }

  /** An element is selected exactly when it occurs in the input and is kept. */
  lemma {:induction false} WhereMembers<T>(s: seq<T>, keep: T -> bool, x: T)
    ensures x in Where(s, keep) <==> x in s && keep(x)
  {
    if s != [] {
      var init, y := s[..|s| - 1], s[|s| - 1];
      assert s == init + [y];
      WhereMembers(init, keep, x);
    }
  }

  /** Selection keeps every occurrence of a kept element and none of a dropped one. */
  lemma {:induction false} WhereCounts<T>(s: seq<T>, keep: T -> bool, x: T)
    ensures multiset(Where(s, keep))[x] == if keep(x) then multiset(s)[x] else 0
  {
    if s != [] {
      var init, y := s[..|s| - 1], s[|s| - 1];
      assert s == init + [y];
      WhereCounts(init, keep, x);
    }
  }

  /** Selection never reorders: its result is a subsequence of its input. */
  lemma {:induction false} WhereIsSubsequence<T>(s: seq<T>, keep: T -> bool)
    ensures IsSubsequence(Where(s, keep), s)
  {
    if s != [] {
      var init, y := s[..|s| - 1], s[|s| - 1];
      assert s == init + [y];
      var r := Where(s, keep);
      WhereIsSubsequence(init, keep);
      if keep(y) {
        assert r[|r| - 1] == y && r[..|r| - 1] == Where(init, keep);
      } else {
        assert r == Where(init, keep);
      }
    }
  }

  /** Two selection rules that agree on every element select the same thing. */
  lemma {:induction false} WhereCongruent<T>(s: seq<T>, k1: T -> bool, k2: T -> bool)
    requires forall x :: x in s ==> k1(x) == k2(x)
    ensures Where(s, k1) == Where(s, k2)
  {
    if s != [] {
      var init, y := s[..|s| - 1], s[|s| - 1];
      assert s == init + [y];
      WhereCongruent(init, k1, k2);
    }
  }

  /** A rule and its negation split the input: together they keep every
      occurrence exactly once. */
  lemma {:induction false} WhereSplits<T>(s: seq<T>, keep: T -> bool, drop: T -> bool)
    requires forall x :: drop(x) == !keep(x)
    ensures multiset(Where(s, keep)) + multiset(Where(s, drop)) == multiset(s)
    ensures |Where(s, keep)| + |Where(s, drop)| == |s|
  {
    if s != [] {
      var init, y := s[..|s| - 1], s[|s| - 1];
      assert s == init + [y];
      WhereSplits(init, keep, drop);
    }
  }

  /** Nothing kept gives the empty selection. */
  lemma {:induction false} WhereNone<T>(s: seq<T>, keep: T -> bool)
    requires forall x :: x in s ==> !keep(x)
    ensures Where(s, keep) == []
  {
    if s != [] {
      var init, y := s[..|s| - 1], s[|s| - 1];
      assert s == init + [y];
      assert forall x :: x in init ==> x in s;
      WhereNone(init, keep);
    }
  }

  /** Everything kept gives the input back. */
  lemma {:induction false} WhereAll<T>(s: seq<T>, keep: T -> bool)
    requires forall x :: x in s ==> keep(x)
    ensures Where(s, keep) == s
  {
    if s != [] {
      var init, y := s[..|s| - 1], s[|s| - 1];
      assert s == init + [y];
      assert forall x :: x in init ==> x in s;
      WhereAll(init, keep);
    }
  }
}
