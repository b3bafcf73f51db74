/**
 * Small helpers shared by the storefront model: an Option type and the
 * order-preserving `filter` that the components apply to their lists.
 */
module Sequences {

  datatype Option<T> = None | Some(value: T)

  /** `s.filter(keep)`: the elements of `s` that satisfy `keep`, in their original order. */
  function Filter<T(==)>(keep: T -> bool, s: seq<T>): (r: seq<T>)
    ensures |r| <= |s|
    ensures forall k :: 0 <= k < |r| ==> r[k] in s && keep(r[k])
    ensures forall k :: 0 <= k < |s| && keep(s[k]) ==> s[k] in r
  {
    if s == [] then []
    else (if keep(s[0]) then [s[0]] else []) + Filter(keep, s[1..])
  }

  /** The filter keeps every occurrence of a passing element and no occurrence of a failing one. */
  lemma {:induction false} FilterMultiset<T>(keep: T -> bool, s: seq<T>)
    ensures forall x :: multiset(Filter(keep, s))[x] == if keep(x) then multiset(s)[x] else 0
  {
    if s != [] {
      FilterMultiset(keep, s[1..]);
      assert s == [s[0]] + s[1..];
      assert multiset(s) == multiset([s[0]]) + multiset(s[1..]);
    }
  }

  /** `a` can be obtained from `b` by deleting elements (the order of what remains is kept). */
  predicate IsSubsequence<T(==)>(a: seq<T>, b: seq<T>)
    decreases |b|
  {
    a == [] ||
    (b != [] && ((a[0] == b[0] && IsSubsequence(a[1..], b[1..])) || IsSubsequence(a, b[1..])))
  }

  lemma {:induction false} FilterIsSubsequence<T>(keep: T -> bool, s: seq<T>)
    ensures IsSubsequence(Filter(keep, s), s)
  {
    if s != [] {
      FilterIsSubsequence(keep, s[1..]);
      var rest := Filter(keep, s[1..]);
      if keep(s[0]) {
        assert Filter(keep, s) == [s[0]] + rest;
        assert ([s[0]] + rest)[1..] == rest;
      } else {
        assert Filter(keep, s) == rest;
      }
    }
  }

  /** A filter that keeps every element returns its input unchanged. */
  lemma {:induction false} FilterKeepsAll<T>(keep: T -> bool, s: seq<T>)
    requires forall k :: 0 <= k < |s| ==> keep(s[k])
    ensures Filter(keep, s) == s
  {
    if s != [] {
      FilterKeepsAll(keep, s[1..]);
      assert [s[0]] + s[1..] == s;
    }
  }

  /** Filtering distributes over concatenation. */
  lemma {:induction false} FilterConcat<T>(keep: T -> bool, a: seq<T>, b: seq<T>)
    ensures Filter(keep, a + b) == Filter(keep, a) + Filter(keep, b)
  {
    if a != [] {
      assert (a + b)[0] == a[0];
      assert (a + b)[1..] == a[1..] + b;
      FilterConcat(keep, a[1..], b);
    } else {
      assert a + b == b;
    }
  }

  /** A filter that keeps everything but one rejected element drops exactly that element. */
  lemma FilterDropsOne<T>(keep: T -> bool, before: seq<T>, x: T, after: seq<T>)
    requires forall k :: 0 <= k < |before| ==> keep(before[k])
    requires forall k :: 0 <= k < |after| ==> keep(after[k])
    requires !keep(x)
    ensures Filter(keep, before + [x] + after) == before + after
  {
    FilterConcat(keep, before + [x], after);
    FilterConcat(keep, before, [x]);
    FilterKeepsAll(keep, before);
    FilterKeepsAll(keep, after);
    FilterRejectsOne(keep, x);
    assert before + [] == before;
  }

  lemma FilterRejectsOne<T>(keep: T -> bool, x: T)
    requires !keep(x)
    ensures Filter(keep, [x]) == []
  {
    assert [x][1..] == [];
  }
}
