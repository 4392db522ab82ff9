/**
 * Sequence operations shared by the model: JavaScript's `Array.prototype.filter`,
 * a store's "first document that matches", and removal of one document.
 */
module Seqs {
  import opened Wrappers

  /** `b` contains the elements of `a` in the same order, possibly with others in between. */
  ghost predicate SubsequenceOf<T>(a: seq<T>, b: seq<T>)
    decreases |b|
  {
    if a == [] then true
    else if b == [] then false
    else (a[0] == b[0] && SubsequenceOf(a[1..], b[1..])) || SubsequenceOf(a, b[1..])
  }

  lemma {:induction false} SubsequenceOfItself<T>(s: seq<T>)
    ensures SubsequenceOf(s, s)
  {
    if s != [] {
      SubsequenceOfItself(s[1..]);
    }
  }

  /** The elements of `s` that satisfy `p`, in their original order. */
  function Filter<T>(s: seq<T>, p: T -> bool): (r: seq<T>)
    ensures |r| <= |s|
    ensures forall i :: 0 <= i < |r| ==> p(r[i])
    ensures forall x :: x in r ==> x in s
  {
    if s == [] then []
    else if p(s[0]) then [s[0]] + Filter(s[1..], p)
    else Filter(s[1..], p)
  }

  /** Filtering keeps each wanted element as often as it occurs, and drops every other one. */
  lemma {:induction false} FilterCount<T>(s: seq<T>, p: T -> bool)
    ensures forall x :: multiset(Filter(s, p))[x] == if p(x) then multiset(s)[x] else 0
  {
    if s != [] {
      FilterCount(s[1..], p);
      assert s == [s[0]] + s[1..];
      assert multiset(s) == multiset{s[0]} + multiset(s[1..]);
    }
  }

  /** A filter's result is a subsequence of its input. */
  lemma {:induction false} FilterIsSubsequence<T>(s: seq<T>, p: T -> bool)
    ensures SubsequenceOf(Filter(s, p), s)
  {
    if s != [] {
      FilterIsSubsequence(s[1..], p);
      if p(s[0]) {
        assert Filter(s, p)[1..] == Filter(s[1..], p);
      }
    }
  }

  /**
   * Two complementary filters split a sequence: their lengths add up, their
   * multisets add up, and no element lands in both.
   */
  lemma {:induction false} FilterPartition<T>(s: seq<T>, p: T -> bool, q: T -> bool)
    requires forall x :: q(x) == !p(x)
    ensures |Filter(s, p)| + |Filter(s, q)| == |s|
    ensures multiset(Filter(s, p)) + multiset(Filter(s, q)) == multiset(s)
    ensures forall x :: !(x in Filter(s, p) && x in Filter(s, q))
  {
    if s != [] {
      FilterPartition(s[1..], p, q);
      assert s == [s[0]] + s[1..];
      assert multiset(s) == multiset{s[0]} + multiset(s[1..]);
    }
  }

  /** The index of the first element satisfying `p` (a store's `findOne` in natural order). */
  function FirstIndex<T>(s: seq<T>, p: T -> bool): (r: Option<nat>)
    ensures r.Some? ==> r.value < |s| && p(s[r.value])
    ensures r.Some? ==> forall j :: 0 <= j < r.value ==> !p(s[j])
    ensures r.None? <==> forall j :: 0 <= j < |s| ==> !p(s[j])
  {
    if s == [] then None
    else if p(s[0]) then Some(0)
    else match FirstIndex(s[1..], p)
      case None => None
      case Some(i) => Some(i + 1)
  }

  /** The first match is at `i` when `s[i]` matches and nothing before it does. */
  lemma FirstIndexAt<T>(s: seq<T>, p: T -> bool, i: nat)
    requires i < |s| && p(s[i])
    requires forall j :: 0 <= j < i ==> !p(s[j])
    ensures FirstIndex(s, p) == Some(i)
  {
  }

  /** When only the appended element satisfies `p`, it is the first match. */
  lemma {:induction false} FirstIndexOfAppended<T>(s: seq<T>, x: T, p: T -> bool)
    requires forall k :: 0 <= k < |s| ==> !p(s[k])
    requires p(x)
    ensures FirstIndex(s + [x], p) == Some(|s|)
  {
    if s != [] {
      assert (s + [x])[1..] == s[1..] + [x];
      FirstIndexOfAppended(s[1..], x, p);
    }
  }

  /** `s` without its element at index `i`, the others kept in order. */
  function RemoveAt<T>(s: seq<T>, i: nat): (r: seq<T>)
    requires i < |s|
    ensures |r| == |s| - 1
    ensures forall j :: 0 <= j < i ==> r[j] == s[j]
    ensures forall j :: i < j < |s| ==> r[j - 1] == s[j]
    ensures multiset(r) + multiset{s[i]} == multiset(s)
  {
    assert s == s[..i] + [s[i]] + s[i + 1..];
    s[..i] + s[i + 1..]
  }
}
