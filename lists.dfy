/**
 * List operations the components build on: `Array.prototype.filter`,
 * `new Set(...)` (first occurrences, in order) and `Array.prototype.sort`
 * on strings (modelled in code-point order), with the facts the components
 * rely on.
 */
module Lists {

  /** r is obtained from s by deleting elements; the rest keep their order. */
  predicate IsSubsequence<T(==)>(r: seq<T>, s: seq<T>)
    decreases |s|
  {
    r == [] || (s != [] && ((r[0] == s[0] && IsSubsequence(r[1..], s[1..])) || IsSubsequence(r, s[1..])))
  }

  /** `xs.filter(keep)`: every passing copy of an element is kept, every failing one dropped. */
  function Filter<T(!new)>(xs: seq<T>, keep: T -> bool): (r: seq<T>)
    ensures |r| <= |xs|
    ensures forall x :: multiset(r)[x] == if keep(x) then multiset(xs)[x] else 0
  {
    if xs == [] then []
    else
      assert xs == [xs[0]] + xs[1..];
      (if keep(xs[0]) then [xs[0]] else []) + Filter(xs[1..], keep)
  }

  /** Filtering depends only on the values of the test. */
  lemma {:induction false} FilterExtensional<T(!new)>(xs: seq<T>, p: T -> bool, q: T -> bool)
    requires forall x :: p(x) == q(x)
    ensures Filter(xs, p) == Filter(xs, q)
  {
    if xs != [] {
      FilterExtensional(xs[1..], p, q);
    }
  }

  /** An element is in the filtered list iff it is in the list and passes the test. */
  lemma {:induction false} FilterMembers<T(!new)>(xs: seq<T>, keep: T -> bool)
    ensures forall x :: x in Filter(xs, keep) <==> x in xs && keep(x)
  {
    if xs != [] {
      FilterMembers(xs[1..], keep);
      assert xs == [xs[0]] + xs[1..];
    }
  }

  /** Filtering only deletes elements; what is kept keeps its order. */
  lemma {:induction false} FilterIsSubsequence<T(!new)>(xs: seq<T>, keep: T -> bool)
    ensures IsSubsequence(Filter(xs, keep), xs)
  {
    if xs != [] {
      FilterIsSubsequence(xs[1..], keep);
      var r := Filter(xs, keep);
      if keep(xs[0]) {
        assert r[0] == xs[0] && r[1..] == Filter(xs[1..], keep);
      } else {
        assert r == Filter(xs[1..], keep);
      }
    }
  }

  /** A filter that every element passes returns the list itself. */
  lemma {:induction false} FilterKeepsAll<T(!new)>(xs: seq<T>, keep: T -> bool)
    ensures (forall x :: x in xs ==> keep(x)) ==> Filter(xs, keep) == xs
  {
    if xs != [] {
      FilterKeepsAll(xs[1..], keep);
      assert xs == [xs[0]] + xs[1..];
    }
  }

  /** A test and its negation split a list: the two counts add up to its length. */
  lemma {:induction false} FilterPartition<T(!new)>(xs: seq<T>, keep: T -> bool, drop: T -> bool)
    requires forall x :: drop(x) == !keep(x)
    ensures |Filter(xs, keep)| + |Filter(xs, drop)| == |xs|
  {
    if xs != [] {
      FilterPartition(xs[1..], keep, drop);
    }
  }

  /** Filtering commutes with applying an element-wise map f that the test cannot see. */
  lemma {:induction false} FilterMapCommute<T(!new)>(xs: seq<T>, keep: T -> bool, f: T -> T)
    requires forall x :: keep(f(x)) == keep(x)
    ensures Filter(Map(xs, f), keep) == Map(Filter(xs, keep), f)
  {
    if xs != [] {
      FilterMapCommute(xs[1..], keep, f);
      var m := Map(xs, f);
      assert m[1..] == Map(xs[1..], f);
      var head := if keep(xs[0]) then [xs[0]] else [];
      assert Filter(m, keep) == Map(head, f) + Filter(m[1..], keep);
      MapConcat(head, Filter(xs[1..], keep), f);
    }
  }

  /** `xs.map(f)`. */
  function Map<T, U>(xs: seq<T>, f: T -> U): (r: seq<U>)
    ensures |r| == |xs|
    ensures forall i :: 0 <= i < |xs| ==> r[i] == f(xs[i])
  {
    seq(|xs|, i requires 0 <= i < |xs| => f(xs[i]))
  }

  lemma MapConcat<T, U>(a: seq<T>, b: seq<T>, f: T -> U)
    ensures Map(a + b, f) == Map(a, f) + Map(b, f)
  {
  }

  predicate Distinct<T(==)>(xs: seq<T>)
  {
    forall i, j :: 0 <= i < j < |xs| ==> xs[i] != xs[j]
  }

  /** `[...new Set(xs)]`: the first occurrence of each element, in order. */
  function Dedup<T(==, !new)>(xs: seq<T>): (r: seq<T>)
    ensures Distinct(r)
    ensures forall x :: x in r <==> x in xs
  {
    if xs == [] then []
    else
      var rest := Dedup(xs[..|xs| - 1]);
      var last := xs[|xs| - 1];
      assert xs == xs[..|xs| - 1] + [last];
      if last in rest then rest else rest + [last]
  }

  /** Code-point order on strings, standing for the order of JavaScript's default `sort`. */
  predicate LexLess(a: string, b: string)
  {
    if a == [] then b != []
    else if b == [] then false
    else a[0] < b[0] || (a[0] == b[0] && LexLess(a[1..], b[1..]))
  }

  lemma {:induction false} LexLessIrreflexive(a: string)
    ensures !LexLess(a, a)
  {
    if a != [] {
      LexLessIrreflexive(a[1..]);
    }
  }

  lemma {:induction false} LexLessTransitive(a: string, b: string, c: string)
    requires LexLess(a, b) && LexLess(b, c)
    ensures LexLess(a, c)
  {
    if a != [] && b != [] && c != [] && a[0] == b[0] == c[0] {
      LexLessTransitive(a[1..], b[1..], c[1..]);
    }
  }

  lemma {:induction false} LexLessTotal(a: string, b: string)
    ensures a == b || LexLess(a, b) || LexLess(b, a)
  {
    if a != [] && b != [] && a[0] == b[0] {
      LexLessTotal(a[1..], b[1..]);
      if a[1..] == b[1..] {
        assert a == [a[0]] + a[1..] && b == [b[0]] + b[1..];
      }
    }
  }

  /** Non-decreasing in code-point order. */
  predicate Sorted(xs: seq<string>)
  {
    forall i, j :: 0 <= i < j < |xs| ==> !LexLess(xs[j], xs[i])
  }

  /** Increasing in code-point order, so also free of duplicates. */
  predicate StrictlySorted(xs: seq<string>)
  {
    forall i, j :: 0 <= i < j < |xs| ==> LexLess(xs[i], xs[j])
  }

  /** Insert x into a sorted list before the first element not below it. */
  function Insert(x: string, xs: seq<string>): (r: seq<string>)
    requires Sorted(xs)
    ensures Sorted(r)
    ensures multiset(r) == multiset(xs) + multiset{x}
  {
    if xs == [] then [x]
    else if LexLess(xs[0], x) then
      var tail := Insert(x, xs[1..]);
      assert xs == [xs[0]] + xs[1..];
      forall y | y in tail
        ensures !LexLess(y, xs[0])
      {
        assert y in multiset(tail);
        if y == x {
          if LexLess(y, xs[0]) { LexLessTransitive(y, xs[0], y); LexLessIrreflexive(y); }
        } else {
          assert y in xs[1..];
        }
      }
      [xs[0]] + tail
    else
      forall j | 0 <= j < |xs|
        ensures !LexLess(xs[j], x)
      {
        if LexLess(xs[j], x) {
          if j > 0 {
            LexLessTotal(xs[0], xs[j]);
            if xs[0] != xs[j] { LexLessTransitive(xs[0], xs[j], x); }
          }
        }
      }
      [x] + xs
  }

  /** Insertion sort; a permutation of xs in code-point order. */
  function Sort(xs: seq<string>): (r: seq<string>)
    ensures Sorted(r)
    ensures multiset(r) == multiset(xs)
  {
    if xs == [] then []
    else
      assert xs == [xs[0]] + xs[1..];
      Insert(xs[0], Sort(xs[1..]))
  }

  /** Sorting a list without duplicates gives a list without duplicates. */
  lemma SortKeepsDistinct(xs: seq<string>)
    requires Distinct(xs)
    ensures Distinct(Sort(xs))
  {
    forall x
      ensures multiset(Sort(xs))[x] <= 1
    {
      MultiplicityInDistinct(xs, x);
    }
    DistinctIfSingleMultiplicity(Sort(xs));
  }

  lemma {:induction false} DistinctIfSingleMultiplicity<T>(xs: seq<T>)
    requires forall x :: multiset(xs)[x] <= 1
    ensures Distinct(xs)
  {
    if xs != [] {
      var tail := xs[1..];
      assert xs == [xs[0]] + tail;
      forall x
        ensures multiset(tail)[x] <= 1
      {
        assert multiset(xs)[x] == multiset([xs[0]])[x] + multiset(tail)[x];
      }
      DistinctIfSingleMultiplicity(tail);
      assert multiset(xs)[xs[0]] == 1 + multiset(tail)[xs[0]];
      assert xs[0] !in tail;
      forall i, j | 0 <= i < j < |xs|
        ensures xs[i] != xs[j]
      {
        if i == 0 {
          assert xs[j] == tail[j - 1];
        } else {
          assert xs[i] == tail[i - 1] && xs[j] == tail[j - 1];
        }
      }
    }
  }

  lemma {:induction false} MultiplicityInDistinct<T>(xs: seq<T>, x: T)
    requires Distinct(xs)
    ensures multiset(xs)[x] <= 1
  {
    if xs != [] {
      assert xs == [xs[0]] + xs[1..];
      MultiplicityInDistinct(xs[1..], x);
      if xs[0] == x {
        assert x !in xs[1..];
      }
    }
  }

  /** `[...new Set(xs)].sort()`: the distinct elements of xs, in increasing order. */
  function SortedDistinct(xs: seq<string>): (r: seq<string>)
    ensures StrictlySorted(r)
    ensures forall x :: x in r <==> x in xs
  {
    var d := Dedup(xs);
    var r := Sort(d);
    SortKeepsDistinct(d);
    forall x
      ensures x in r <==> x in d
    {
      assert x in r <==> x in multiset(r);
    }
    forall i, j | 0 <= i < j < |r|
      ensures LexLess(r[i], r[j])
    {
      LexLessTotal(r[i], r[j]);
    }
    r
  }

  /**
   * Two increasing lists with the same elements are equal: the sorted list
   * of distinct elements is determined by the set of elements alone.
   */
  lemma {:induction false} StrictlySortedUnique(a: seq<string>, b: seq<string>)
    requires StrictlySorted(a) && StrictlySorted(b)
    requires forall x :: x in a <==> x in b
    ensures a == b
  {
    if a == [] {
      HeadIsMember(b);
    } else {
      assert a[0] in b && b[0] in a;
      if a[0] != b[0] {
        var i :| 0 <= i < |a| && a[i] == b[0];
        var j :| 0 <= j < |b| && b[j] == a[0];
        assert LexLess(a[0], b[0]) && LexLess(b[0], a[0]);
        LexLessTransitive(a[0], b[0], a[0]);
        LexLessIrreflexive(a[0]);
      }
      forall x
        ensures x in a[1..] <==> x in b[1..]
      {
        if x in a[1..] {
          var i :| 1 <= i < |a| && a[i] == x;
          assert LexLess(a[0], x);
          LexLessIrreflexive(x);
          assert x != b[0];
          assert x in b;
        }
        if x in b[1..] {
          var j :| 1 <= j < |b| && b[j] == x;
          assert LexLess(b[0], x);
          LexLessIrreflexive(x);
          assert x != a[0];
          assert x in a;
        }
      }
      StrictlySortedUnique(a[1..], b[1..]);
      assert a == [a[0]] + a[1..] && b == [b[0]] + b[1..];
    }
  }

  lemma HeadIsMember<T>(s: seq<T>)
    ensures s != [] ==> s[0] in s
  {
  }
}
