/**
 * `Array.prototype.filter` and `Array.prototype.some` over sequences, with
 * the facts the showcase filter relies on: filtering keeps the original
 * order, adds and duplicates nothing, and successive filters commute.
 */
module ArrayOps {

  /** `xs.filter(keep)`: the elements that satisfy `keep`, in their original order. */
  function Filter<T>(xs: seq<T>, keep: T -> bool): (r: seq<T>)
    ensures |r| <= |xs|
    ensures forall i | 0 <= i < |r| :: r[i] in xs && keep(r[i])
    ensures forall i | 0 <= i < |xs| :: keep(xs[i]) ==> xs[i] in r
  {
    if xs == [] then []
    else if keep(xs[0]) then [xs[0]] + Filter(xs[1..], keep)
    else Filter(xs[1..], keep)
  }

  /** Whatever the filter returns was in the list and passes the predicate. */
  lemma FilterKeeps<T>(xs: seq<T>, keep: T -> bool, x: T)
    requires x in Filter(xs, keep)
    ensures x in xs && keep(x)
  {
    var r := Filter(xs, keep);
    var i :| 0 <= i < |r| && r[i] == x;
  }

  /** The same for every returned element at once. */
  lemma FilterSound<T>(xs: seq<T>, keep: T -> bool)
    ensures forall x | x in Filter(xs, keep) :: x in xs && keep(x)
  {
    forall x | x in Filter(xs, keep) ensures x in xs && keep(x) {
      FilterKeeps(xs, keep, x);
    }
  }

  /** `xs.some(p)`: some element satisfies `p`. */
  function Any<T>(xs: seq<T>, p: T -> bool): (r: bool)
    ensures r <==> exists i | 0 <= i < |xs| :: p(xs[i])
  {
    if xs == [] then false
    else if p(xs[0]) then true
    else
      var r := Any(xs[1..], p);
      assert forall i | 1 <= i < |xs| :: xs[1..][i - 1] == xs[i];
      r
  }

  /** `some` stated over the elements rather than their positions. */
  lemma AnyMember<T>(xs: seq<T>, p: T -> bool)
    ensures Any(xs, p) <==> exists x | x in xs :: p(x)
  {
    if exists x | x in xs :: p(x) {
      var x :| x in xs && p(x);
      var i :| 0 <= i < |xs| && xs[i] == x;
    }
  }

  /** `s` is obtained from `t` by deleting elements: same order, no element used twice. */
  predicate IsSubsequence<T(==)>(s: seq<T>, t: seq<T>)
    decreases |t|
  {
    if s == [] then true
    else if t == [] then false
    else (s[0] == t[0] && IsSubsequence(s[1..], t[1..])) || IsSubsequence(s, t[1..])
  }

  /** The filtered list is a subsequence of the original list. */
  lemma {:induction false} FilterIsSubsequence<T>(xs: seq<T>, keep: T -> bool)
    ensures IsSubsequence(Filter(xs, keep), xs)
  {
    if xs != [] {
      FilterIsSubsequence(xs[1..], keep);
      if keep(xs[0]) {
        assert ([xs[0]] + Filter(xs[1..], keep))[1..] == Filter(xs[1..], keep);
      } else if Filter(xs, keep) != [] {
        assert IsSubsequence(Filter(xs, keep), xs[1..]);
      }
    }
  }

  /** Filtering adds nothing and duplicates nothing: every element keeps at most its original multiplicity. */
  lemma {:induction false} FilterMultiset<T>(xs: seq<T>, keep: T -> bool)
    ensures multiset(Filter(xs, keep)) <= multiset(xs)
  {
    if xs != [] {
      FilterMultiset(xs[1..], keep);
      assert xs == [xs[0]] + xs[1..];
    }
  }

  /** Elements the predicate accepts keep their multiplicity exactly; the others disappear. */
  lemma {:induction false} FilterCount<T>(xs: seq<T>, keep: T -> bool, x: T)
    ensures multiset(Filter(xs, keep))[x] == if keep(x) then multiset(xs)[x] else 0
  {
    if xs != [] {
      FilterCount(xs[1..], keep, x);
      assert xs == [xs[0]] + xs[1..];
    }
  }

  /** When every element passes, the filter returns the list unchanged. */
  lemma {:induction false} FilterAllKept<T>(xs: seq<T>, keep: T -> bool)
    requires forall i | 0 <= i < |xs| :: keep(xs[i])
    ensures Filter(xs, keep) == xs
  {
    if xs != [] {
      FilterAllKept(xs[1..], keep);
    }
  }

  /** When no element passes, the filter returns the empty list. */
  lemma {:induction false} FilterNoneKept<T>(xs: seq<T>, keep: T -> bool)
    requires forall i | 0 <= i < |xs| :: !keep(xs[i])
    ensures Filter(xs, keep) == []
  {
    if xs != [] {
      FilterNoneKept(xs[1..], keep);
    }
  }

  /** Two predicates that agree on the list's elements filter it alike. */
  lemma {:induction false} FilterCongruent<T>(xs: seq<T>, a: T -> bool, b: T -> bool)
    requires forall i | 0 <= i < |xs| :: a(xs[i]) == b(xs[i])
    ensures Filter(xs, a) == Filter(xs, b)
  {
    if xs != [] {
      FilterCongruent(xs[1..], a, b);
    }
  }

  /** Filtering twice by the same predicate is filtering once. */
  lemma {:induction false} FilterIdempotent<T>(xs: seq<T>, keep: T -> bool)
    ensures Filter(Filter(xs, keep), keep) == Filter(xs, keep)
  {
    if xs != [] {
      FilterIdempotent(xs[1..], keep);
    }
  }

  /** Filtering is distributive over concatenation. */
  lemma {:induction false} FilterAppend<T>(xs: seq<T>, ys: seq<T>, keep: T -> bool)
    ensures Filter(xs + ys, keep) == Filter(xs, keep) + Filter(ys, keep)
  {
    if xs != [] {
      FilterAppend(xs[1..], ys, keep);
      assert (xs + ys)[1..] == xs[1..] + ys;
    } else {
      assert xs + ys == ys;
    }
  }

  /** Two successive filters may be applied in either order. */
  lemma {:induction false} FilterCommute<T>(xs: seq<T>, a: T -> bool, b: T -> bool)
    ensures Filter(Filter(xs, a), b) == Filter(Filter(xs, b), a)
  {
    if xs != [] {
      FilterCommute(xs[1..], a, b);
    }
  }

  /** The conjunction of two predicates as one predicate. */
  function Both<T>(a: T -> bool, b: T -> bool): T -> bool {
    x => a(x) && b(x)
  }

  /** Two successive filters are one filter by the conjunction. */
  lemma {:induction false} FilterFuse<T>(xs: seq<T>, a: T -> bool, b: T -> bool)
    ensures Filter(Filter(xs, a), b) == Filter(xs, Both(a, b))
  {
    if xs != [] {
      FilterFuse(xs[1..], a, b);
    }
  }
}
