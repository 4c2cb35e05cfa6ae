/** Sorting a sequence by a total preorder: what Python's `sorted(..., key=)`
    and an SQL ORDER BY produce, up to the order of ties. */
module Sorting {
  import opened Common

  ghost predicate Total<T(!new)>(le: (T, T) -> bool) {
    forall a, b :: le(a, b) || le(b, a)
  }

  ghost predicate Transitive<T(!new)>(le: (T, T) -> bool) {
    forall a, b, c :: le(a, b) && le(b, c) ==> le(a, c)
  }

  /** Every element is `le` every later one. */
  predicate SortedBy<T>(xs: seq<T>, le: (T, T) -> bool) {
    forall i, j :: 0 <= i < j < |xs| ==> le(xs[i], xs[j])
  }

  /** Every element is `le` the next one. */
  predicate Chained<T>(xs: seq<T>, le: (T, T) -> bool) {
    forall i :: 0 < i < |xs| ==> le(xs[i - 1], xs[i])
  }

  /** `x` placed before the first element it does not follow. */
  function Insert<T>(x: T, xs: seq<T>, le: (T, T) -> bool): (r: seq<T>)
    ensures multiset(r) == multiset(xs) + multiset{x}
    ensures |r| == |xs| + 1
    ensures r[0] == x || (xs != [] && r[0] == xs[0])
  {
    if xs == [] then [x]
    else if le(x, xs[0]) then [x] + xs
    else
      assert xs == [xs[0]] + xs[1..];
      [xs[0]] + Insert(x, xs[1..], le)
  }

  lemma {:induction false} InsertChained<T(!new)>(x: T, xs: seq<T>, le: (T, T) -> bool)
    requires Total(le) && Chained(xs, le)
    ensures Chained(Insert(x, xs, le), le)
  {
    if xs != [] && !le(x, xs[0]) {
      InsertChained(x, xs[1..], le);
      var tail := Insert(x, xs[1..], le);
      assert Insert(x, xs, le) == [xs[0]] + tail;
      assert le(xs[0], x);
      assert tail[0] == x || le(xs[0], tail[0]);
    }
  }

  /** Under transitivity, a chained sequence is sorted. */
  lemma {:induction false} ChainedSorted<T(!new)>(xs: seq<T>, le: (T, T) -> bool)
    requires Transitive(le) && Chained(xs, le)
    ensures SortedBy(xs, le)
  {
    if |xs| > 1 {
      ChainedSorted(xs[1..], le);
      forall j | 1 < j < |xs| ensures le(xs[0], xs[j]) {
        assert le(xs[0], xs[1]) && le(xs[1], xs[j]) by { assert xs[1..][0] == xs[1] && xs[1..][j - 1] == xs[j]; }
      }
      forall i, j | 0 <= i < j < |xs| ensures le(xs[i], xs[j]) {
        if i > 0 {
          assert xs[1..][i - 1] == xs[i] && xs[1..][j - 1] == xs[j];
        }
      }
    }
  }

  /** Insertion sort. */
  function SortBy<T>(xs: seq<T>, le: (T, T) -> bool): (r: seq<T>)
    ensures multiset(r) == multiset(xs)
    ensures |r| == |xs|
  {
    if xs == [] then []
    else
      assert xs == [xs[0]] + xs[1..];
      Insert(xs[0], SortBy(xs[1..], le), le)
  }

  lemma {:induction false} SortByChained<T(!new)>(xs: seq<T>, le: (T, T) -> bool)
    requires Total(le)
    ensures Chained(SortBy(xs, le), le)
  {
    if xs != [] {
      SortByChained(xs[1..], le);
      InsertChained(xs[0], SortBy(xs[1..], le), le);
    }
  }

  /** The sort orders the sequence, and keeps its elements with their
      multiplicities. */
  lemma SortBySorted<T(!new)>(xs: seq<T>, le: (T, T) -> bool)
    requires Total(le) && Transitive(le)
    ensures SortedBy(SortBy(xs, le), le)
    ensures multiset(SortBy(xs, le)) == multiset(xs)
    ensures forall x :: x in SortBy(xs, le) <==> x in xs
  {
    SortByChained(xs, le);
    ChainedSorted(SortBy(xs, le), le);
    forall x ensures x in SortBy(xs, le) <==> x in xs {
      assert x in multiset(SortBy(xs, le)) <==> x in multiset(xs);
    }
  }

  // ------------------------------------------------------ rearrangements

  lemma {:induction false} DistinctMultiplicity<T>(xs: seq<T>, x: T)
    requires Distinct(xs)
    ensures multiset(xs)[x] <= 1
  {
    if xs != [] {
      var init := xs[..|xs| - 1];
      assert xs == init + [xs[|xs| - 1]];
      assert Distinct(init);
      DistinctMultiplicity(init, x);
      if x == xs[|xs| - 1] {
        assert x !in init;
      }
    }
  }

  /** A rearrangement of a duplicate-free sequence is duplicate-free. */
  lemma PermutationDistinct<T>(xs: seq<T>, ys: seq<T>)
    requires multiset(xs) == multiset(ys) && Distinct(xs)
    ensures Distinct(ys)
  {
    forall i, j | 0 <= i < j < |ys| ensures ys[i] != ys[j] {
      if ys[i] == ys[j] {
        var v := ys[i];
        assert ys == ys[..j] + ys[j..];
        assert v in ys[..j] && v in ys[j..];
        assert multiset(ys)[v] == multiset(ys[..j])[v] + multiset(ys[j..])[v];
        DistinctMultiplicity(xs, v);
        assert false;
      }
    }
  }

  lemma {:induction false} DistinctCount<T>(xs: seq<T>)
    requires Distinct(xs)
    ensures |set x | x in xs| == |xs|
  {
    if xs != [] {
      var init := xs[..|xs| - 1];
      var last := xs[|xs| - 1];
      assert Distinct(init);
      DistinctCount(init);
      assert (set x | x in xs) == (set x | x in init) + {last} by {
        assert xs == init + [last];
      }
      assert last !in (set x | x in init);
    }
  }

  // --------------------------------------------------- string ordering

  /** Lexicographic order on strings by character code: how the store
      orders the canonical (lower-case hex) text of UUID keys, which is
      the order of their bytes. */
  predicate LexLe(a: string, b: string) {
    a == [] || (b != [] && (a[0] < b[0] || (a[0] == b[0] && LexLe(a[1..], b[1..]))))
  }

  lemma {:induction false} LexTotal(a: string, b: string)
    ensures LexLe(a, b) || LexLe(b, a)
  {
    if a != [] && b != [] && a[0] == b[0] {
      LexTotal(a[1..], b[1..]);
    }
  }

  lemma {:induction false} LexAntisymmetric(a: string, b: string)
    requires LexLe(a, b) && LexLe(b, a)
    ensures a == b
  {
    if a != [] && b != [] {
      LexAntisymmetric(a[1..], b[1..]);
      assert a == [a[0]] + a[1..] && b == [b[0]] + b[1..];
    }
  }

  lemma {:induction false} LexTransitive(a: string, b: string, c: string)
    requires LexLe(a, b) && LexLe(b, c)
    ensures LexLe(a, c)
  {
    if a != [] && b != [] && c != [] && a[0] == b[0] && b[0] == c[0] {
      LexTransitive(a[1..], b[1..], c[1..]);
    }
  }
}
