/** Order-preserving sequence utilities the pipeline is built from: list
    comprehensions with a condition, pandas `unique`, `head`, `next(...)`
    over a generator and numpy `argmax`. */
module Seqs {
  import opened Wrappers

  /** `r` occurs in `s` in order, possibly with gaps. */
  predicate IsSubseq<T(==)>(r: seq<T>, s: seq<T>)
    decreases |s|
  {
    if r == [] then true
    else if s == [] then false
    else if r[0] == s[0] then IsSubseq(r[1..], s[1..])
    else IsSubseq(r, s[1..])
  }

  /** The elements of `s` that satisfy `p`, in their original order. */
  function Filter<T(==)>(s: seq<T>, p: T -> bool): (r: seq<T>)
    ensures |r| <= |s|
    ensures forall i :: 0 <= i < |r| ==> r[i] in s && p(r[i])
    ensures forall i :: 0 <= i < |s| && p(s[i]) ==> s[i] in r
    ensures multiset(r) <= multiset(s)
  {
    if s == [] then []
    else
      assert s == [s[0]] + s[1..];
      if p(s[0]) then [s[0]] + Filter(s[1..], p) else Filter(s[1..], p)
  }

  lemma {:induction false} FilterIsSubseq<T>(s: seq<T>, p: T -> bool)
    ensures IsSubseq(Filter(s, p), s)
  {
    if s != [] {
      FilterIsSubseq(s[1..], p);
      if !p(s[0]) {
        SubseqOfTail(Filter(s[1..], p), s);
      }
    }
  }

  /** A subsequence of the tail is a subsequence of the whole. */
  lemma {:induction false} SubseqOfTail<T>(r: seq<T>, s: seq<T>)
    requires s != [] && IsSubseq(r, s[1..])
    ensures IsSubseq(r, s)
    decreases |s| - 1, 1
  {
    if r != [] && r[0] == s[0] {
      SubseqDropHead(r, s[1..]);
    }
  }

  /** Dropping the first element keeps a subsequence a subsequence. */
  lemma {:induction false} SubseqDropHead<T>(r: seq<T>, t: seq<T>)
    requires r != [] && IsSubseq(r, t)
    ensures IsSubseq(r[1..], t)
    decreases |t|, 0
  {
    if r[0] == t[0] {
      if r[1..] != [] {
        SubseqOfTail(r[1..], t);
      }
    } else {
      SubseqDropHead(r, t[1..]);
      SubseqOfTail(r[1..], t);
    }
  }

  /** Filtering twice is filtering once by the conjunction: successive
      `results = results[cond]` stages AND-combine. */
  lemma {:induction false} FilterNarrow<T>(s: seq<T>, p: T -> bool, stage: T -> bool, q: T -> bool)
    requires forall x :: q(x) == (p(x) && stage(x))
    ensures Filter(Filter(s, p), stage) == Filter(s, q)
  {
    if s != [] {
      FilterNarrow(s[1..], p, stage, q);
    }
  }

  /** Filters whose conditions agree on the elements of `s` select the same elements. */
  lemma {:induction false} FilterSame<T>(s: seq<T>, p: T -> bool, q: T -> bool)
    requires forall x :: x in s ==> p(x) == q(x)
    ensures Filter(s, p) == Filter(s, q)
  {
    if s != [] {
      FilterSame(s[1..], p, q);
    }
  }

  /** A condition every element meets removes nothing. */
  lemma {:induction false} FilterKeepsAll<T>(s: seq<T>, p: T -> bool)
    requires forall x :: x in s ==> p(x)
    ensures Filter(s, p) == s
  {
    if s != [] {
      FilterKeepsAll(s[1..], p);
    }
  }

  predicate NoDuplicates<T(==)>(s: seq<T>) {
    forall i, j :: 0 <= i < j < |s| ==> s[i] != s[j]
  }

  /** Position of the first occurrence of `x` in `s`. */
  function FirstIndex<T(==)>(s: seq<T>, x: T): (k: nat)
    requires x in s
    ensures k < |s| && s[k] == x && x !in s[..k]
  {
    if s[0] == x then 0 else FirstIndex(s[1..], x) + 1
  }

  /** The distinct elements of `s`, each at its first appearance (pandas `unique`). */
  function Distinct<T(==)>(s: seq<T>): (r: seq<T>)
    ensures forall i :: 0 <= i < |r| ==> r[i] in s
    ensures forall i :: 0 <= i < |s| ==> s[i] in r
    ensures NoDuplicates(r)
  {
    if s == [] then []
    else
      var r := Distinct(s[..|s| - 1]);
      var x := s[|s| - 1];
      assert s == s[..|s| - 1] + [x];
      if x in r then r else r + [x]
  }

  lemma {:induction false} FirstIndexOfPrefix<T>(s: seq<T>, y: T, x: T)
    requires x in s
    ensures FirstIndex(s + [y], x) == FirstIndex(s, x)
  {
    if s[0] != x {
      assert (s + [y])[1..] == s[1..] + [y];
      FirstIndexOfPrefix(s[1..], y, x);
    }
  }

  /** `unique` keeps first-seen order: earlier elements of the result
      first appear earlier in the input. */
  lemma {:induction false} DistinctFirstSeen<T>(s: seq<T>, i: nat, j: nat)
    requires i < j < |Distinct(s)|
    ensures FirstIndex(s, Distinct(s)[i]) < FirstIndex(s, Distinct(s)[j])
  {
    var init := s[..|s| - 1];
    var x := s[|s| - 1];
    assert s == init + [x];
    var r := Distinct(init);
    if x in r {
      DistinctFirstSeen(init, i, j);
      FirstIndexOfPrefix(init, x, r[i]);
      FirstIndexOfPrefix(init, x, r[j]);
    } else if j < |r| {
      DistinctFirstSeen(init, i, j);
      FirstIndexOfPrefix(init, x, r[i]);
      FirstIndexOfPrefix(init, x, r[j]);
    } else {
      FirstIndexOfPrefix(init, x, r[i]);
      assert x !in init;
      assert s[..|s| - 1] == init;
      assert FirstIndex(s, x) == |s| - 1;
    }
  }

  /** The first index in [lo, hi) satisfying `p` (`next(...)`, `re.search`). */
  function Leftmost(p: nat -> bool, lo: nat, hi: nat): (r: Option<nat>)
    ensures r.Some? ==> lo <= r.value < hi && p(r.value)
    ensures r.Some? ==> forall j :: lo <= j < r.value ==> !p(j)
    ensures r.None? ==> forall j :: lo <= j < hi ==> !p(j)
    decreases hi - lo
  {
    if hi <= lo then None
    else if p(lo) then Some(lo)
    else Leftmost(p, lo + 1, hi)
  }

  /** `Leftmost` finds the first index satisfying `p`, wherever it lies. */
  lemma {:induction false} LeftmostAt(p: nat -> bool, lo: nat, hi: nat, i: nat)
    requires lo <= i < hi && p(i)
    requires forall j :: lo <= j < i ==> !p(j)
    ensures Leftmost(p, lo, hi) == Some(i)
    decreases i - lo
  {
    if lo < i {
      assert !p(lo);
      LeftmostAt(p, lo + 1, hi, i);
    }
  }

  /** numpy `argmax`: the first index holding the maximum. Built from the
      front, one element at a time, as a loop with `if s > best` does. */
  function FirstArgMax(s: seq<real>): (k: nat)
    requires |s| > 0
    ensures k < |s|
    ensures forall j :: 0 <= j < |s| ==> s[j] <= s[k]
    ensures forall j :: 0 <= j < k ==> s[j] < s[k]
  {
    if |s| == 1 then 0
    else
      var k := FirstArgMax(s[..|s| - 1]);
      if s[|s| - 1] > s[k] then |s| - 1 else k
  }

  /** Extending a sequence by one element moves the arg-max only to a
      strictly greater new element. */
  lemma FirstArgMaxSnoc(s: seq<real>, i: nat)
    requires 0 < i < |s|
    ensures FirstArgMax(s[..i + 1]) ==
      if s[i] > s[FirstArgMax(s[..i])] then i else FirstArgMax(s[..i])
  {
    assert s[..i + 1][..i] == s[..i];
  }

  /** pandas `head(n)`: the first `n` elements; a negative `n` drops the last `-n`. */
  function Head<T>(s: seq<T>, n: int): (r: seq<T>)
    ensures |r| <= |s| && r == s[..|r|]
    ensures n >= 0 ==> |r| == if n < |s| then n else |s|
    ensures n < 0 ==> |r| == if |s| + n > 0 then |s| + n else 0
    ensures multiset(r) <= multiset(s)
  {
    var k := if n >= 0 then (if n < |s| then n else |s|) else if |s| + n > 0 then |s| + n else 0;
    assert s == s[..k] + s[k..];
    if n >= 0 then (if n < |s| then s[..n] else s)
    else if |s| + n > 0 then s[..|s| + n]
    else []
  }
}
