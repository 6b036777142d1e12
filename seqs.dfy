/** `Array.prototype.filter` and `reduce((sum, x) => sum + f(x), 0)` on
    sequences, with the facts about them the screens rely on. */
module Seqs {

  /** `s.reduce((sum, x) => sum + f(x), 0)`: a left fold from 0. */
  function SumBy<T>(s: seq<T>, f: T -> real): real
  {
    if s == [] then 0.0 else SumBy(s[..|s| - 1], f) + f(s[|s| - 1])
  }

  lemma {:induction false} SumByConcat<T>(a: seq<T>, b: seq<T>, f: T -> real)
    ensures SumBy(a + b, f) == SumBy(a, f) + SumBy(b, f)
    decreases |b|
  {
    if b == [] {
      assert a + b == a;
    } else {
      assert (a + b)[..|a + b| - 1] == a + b[..|b| - 1];
      SumByConcat(a, b[..|b| - 1], f);
    }
  }

  lemma SumBySingle<T>(x: T, f: T -> real)
    ensures SumBy([x], f) == f(x)
  {
    assert [x][..0] == [];
  }

  /** Taking out the element at `i` takes its term out of the sum. */
  lemma {:induction false} SumByRemove<T>(s: seq<T>, i: nat, f: T -> real)
    requires i < |s|
    ensures SumBy(s, f) == SumBy(s[..i] + s[i + 1..], f) + f(s[i])
  {
    var p, x, q := s[..i], s[i], s[i + 1..];
    assert s == p + [x] + q;
    SumByConcat(p + [x], q, f);
    SumByConcat(p, [x], f);
    SumByConcat(p, q, f);
    SumBySingle(x, f);
  }

  /** The sum does not depend on the order of the elements. */
  lemma {:induction false} SumByPermutation<T>(a: seq<T>, b: seq<T>, f: T -> real)
    requires multiset(a) == multiset(b)
    ensures SumBy(a, f) == SumBy(b, f)
    decreases |a|
  {
    if a != [] {
      var x := a[|a| - 1];
      var a' := a[..|a| - 1];
      assert a == a' + [x];
      assert x in multiset(b);
      var j :| 0 <= j < |b| && b[j] == x;
      var b' := b[..j] + b[j + 1..];
      assert b == b[..j] + [x] + b[j + 1..];
      assert multiset(b) == multiset(b[..j]) + multiset{x} + multiset(b[j + 1..]);
      assert multiset(a) == multiset(a') + multiset{x};
      assert multiset(b') == multiset(b[..j]) + multiset(b[j + 1..]);
      calc {
        multiset(a');
        multiset(a) - multiset{x};
        multiset(b) - multiset{x};
        multiset(b');
      }
      SumByPermutation(a', b', f);
      SumByRemove(b, j, f);
    } else {
      assert |b| == |multiset(b)| == 0;
    }
  }

  /** Summing terms that are all zero gives zero. */
  lemma {:induction false} SumByZero<T>(s: seq<T>, f: T -> real)
    requires forall i :: 0 <= i < |s| ==> f(s[i]) == 0.0
    ensures SumBy(s, f) == 0.0
    decreases |s|
  {
    if s != [] {
      SumByZero(s[..|s| - 1], f);
    }
  }

  /** Terms that are all non-negative give a non-negative sum. */
  lemma {:induction false} SumByNonNegative<T>(s: seq<T>, f: T -> real)
    requires forall i :: 0 <= i < |s| ==> f(s[i]) >= 0.0
    ensures SumBy(s, f) >= 0.0
    decreases |s|
  {
    if s != [] {
      SumByNonNegative(s[..|s| - 1], f);
    }
  }

  // ---------------------------------------------------------------- filter

  /** `s.filter(p)`. */
  function Filter<T>(s: seq<T>, p: T -> bool): (r: seq<T>)
    ensures |r| <= |s|
    ensures forall i :: 0 <= i < |r| ==> r[i] in s && p(r[i])
    ensures forall i :: 0 <= i < |s| && p(s[i]) ==> s[i] in r
  {
    if s == [] then [] else (if p(s[0]) then [s[0]] else []) + Filter(s[1..], p)
  }

  /** `a` is `b` with some elements left out, the rest in their order. */
  predicate IsSubsequence<T(==)>(a: seq<T>, b: seq<T>)
    decreases |b|
  {
    if a == [] then true
    else if b == [] then false
    else if a[0] == b[0] then IsSubsequence(a[1..], b[1..])
    else IsSubsequence(a, b[1..])
  }

  lemma {:induction false} FilterIsSubsequence<T>(s: seq<T>, p: T -> bool)
    ensures IsSubsequence(Filter(s, p), s)
    decreases |s|
  {
    if s != [] {
      var r := Filter(s[1..], p);
      FilterIsSubsequence(s[1..], p);
      if p(s[0]) {
        assert Filter(s, p) == [s[0]] + r;
        assert ([s[0]] + r)[1..] == r;
      } else {
        assert Filter(s, p) == r;
        SubsequenceOfTail(r, s);
      }
    }
  }

  /** A subsequence of the tail is a subsequence of the whole. */
  lemma {:induction false} SubsequenceOfTail<T>(a: seq<T>, s: seq<T>)
    requires s != [] && IsSubsequence(a, s[1..])
    ensures IsSubsequence(a, s)
    decreases |s|, 0
  {
    if a != [] && a[0] == s[0] {
      SubsequenceDropFirst(a, s[1..]);
    }
  }

  /** Leaving out the first element of a subsequence keeps it one. */
  lemma {:induction false} SubsequenceDropFirst<T>(a: seq<T>, t: seq<T>)
    requires a != [] && IsSubsequence(a, t)
    ensures IsSubsequence(a[1..], t)
    decreases |t|, 1
  {
    if a[0] == t[0] {
      SubsequenceOfTail(a[1..], t);
    } else {
      SubsequenceDropFirst(a, t[1..]);
      SubsequenceOfTail(a[1..], t);
    }
  }

  lemma {:induction false} SubsequenceRefl<T>(c: seq<T>)
    ensures IsSubsequence(c, c)
    decreases |c|
  {
    if c != [] {
      SubsequenceRefl(c[1..]);
    }
  }

  /** `c` is a subsequence of `b + c`. */
  lemma {:induction false} SubsequenceOfSuffix<T>(c: seq<T>, b: seq<T>)
    ensures IsSubsequence(c, b + c)
    decreases |b|
  {
    if b == [] {
      SubsequenceRefl(c);
      assert b + c == c;
    } else {
      SubsequenceOfSuffix(c, b[1..]);
      assert (b + c)[1..] == b[1..] + c;
      SubsequenceOfTail(c, b + c);
    }
  }

  /** A subsequence of `b` is one of `b + c`. */
  lemma {:induction false} SubsequenceOfLonger<T>(a: seq<T>, b: seq<T>, c: seq<T>)
    requires IsSubsequence(a, b)
    ensures IsSubsequence(a, b + c)
    decreases |b|
  {
    if a != [] {
      assert (b + c)[1..] == b[1..] + c;
      if a[0] == b[0] {
        SubsequenceOfLonger(a[1..], b[1..], c);
      } else {
        SubsequenceOfLonger(a, b[1..], c);
      }
    }
  }

  /** Appending the same elements to both sides keeps a subsequence one. */
  lemma {:induction false} SubsequenceExtend<T>(a: seq<T>, b: seq<T>, c: seq<T>)
    requires IsSubsequence(a, b)
    ensures IsSubsequence(a + c, b + c)
    decreases |b|
  {
    if a == [] {
      SubsequenceOfSuffix(c, b);
      assert a + c == c;
    } else if a[0] == b[0] {
      assert (a + c)[0] == (b + c)[0];
      assert (a + c)[1..] == a[1..] + c && (b + c)[1..] == b[1..] + c;
      SubsequenceExtend(a[1..], b[1..], c);
    } else {
      assert (a + c)[0] == a[0] && (b + c)[0] == b[0];
      assert (b + c)[1..] == b[1..] + c;
      SubsequenceExtend(a, b[1..], c);
      SubsequenceOfTail(a + c, b + c);
    }
  }

  /** A subsequence is never longer. */
  lemma {:induction false} SubsequenceLength<T>(a: seq<T>, b: seq<T>)
    requires IsSubsequence(a, b)
    ensures |a| <= |b|
    decreases |b|
  {
    if a != [] {
      if a[0] == b[0] {
        SubsequenceLength(a[1..], b[1..]);
      } else {
        SubsequenceLength(a, b[1..]);
      }
    }
  }

  /** A filter whose predicate holds everywhere keeps everything. */
  lemma {:induction false} FilterKeepsAll<T>(s: seq<T>, p: T -> bool)
    requires forall i :: 0 <= i < |s| ==> p(s[i])
    ensures Filter(s, p) == s
    decreases |s|
  {
    if s != [] {
      FilterKeepsAll(s[1..], p);
    }
  }

  /** A filter whose predicate fails everywhere keeps nothing. */
  lemma {:induction false} FilterDropsAll<T>(s: seq<T>, p: T -> bool)
    requires forall i :: 0 <= i < |s| ==> !p(s[i])
    ensures Filter(s, p) == []
    decreases |s|
  {
    if s != [] {
      FilterDropsAll(s[1..], p);
    }
  }

  /** Filtering twice is filtering once by the conjunction. */
  lemma {:induction false} FilterTwice<T>(s: seq<T>, p: T -> bool, q: T -> bool, pq: T -> bool)
    requires forall x :: pq(x) == (p(x) && q(x))
    ensures Filter(Filter(s, p), q) == Filter(s, pq)
    decreases |s|
  {
    if s != [] {
      FilterTwice(s[1..], p, q, pq);
      var t := Filter(s[1..], p);
      if p(s[0]) {
        assert Filter(s, p) == [s[0]] + t;
        assert ([s[0]] + t)[0] == s[0] && ([s[0]] + t)[1..] == t;
        assert Filter([s[0]] + t, q) == (if q(s[0]) then [s[0]] else []) + Filter(t, q);
      } else {
        assert Filter(s, p) == t;
      }
    }
  }

  /** Two predicates that agree everywhere filter alike. */
  lemma {:induction false} FilterCongruent<T>(s: seq<T>, p: T -> bool, q: T -> bool)
    requires forall x :: p(x) == q(x)
    ensures Filter(s, p) == Filter(s, q)
    decreases |s|
  {
    if s != [] {
      FilterCongruent(s[1..], p, q);
    }
  }

  lemma {:induction false} FilterConcat<T>(a: seq<T>, b: seq<T>, p: T -> bool)
    ensures Filter(a + b, p) == Filter(a, p) + Filter(b, p)
    decreases |a|
  {
    if a == [] {
      assert a + b == b;
    } else {
      assert (a + b)[0] == a[0] && (a + b)[1..] == a[1..] + b;
      FilterConcat(a[1..], b, p);
    }
  }

  /** Summing over a filter is summing the terms that pass the filter. */
  lemma {:induction false} SumByFilter<T>(s: seq<T>, p: T -> bool, f: T -> real, g: T -> real)
    requires forall x :: g(x) == (if p(x) then f(x) else 0.0)
    ensures SumBy(Filter(s, p), f) == SumBy(s, g)
    decreases |s|
  {
    if s != [] {
      var last := s[|s| - 1];
      var init := s[..|s| - 1];
      assert s == init + [last];
      FilterConcat(init, [last], p);
      assert [last][1..] == [];
      assert Filter([last], p) == if p(last) then [last] else [];
      SumByConcat(Filter(init, p), Filter([last], p), f);
      SumByFilter(init, p, f, g);
      if p(last) {
        SumBySingle(last, f);
      } else {
        assert SumBy([], f) == 0.0;
      }
    }
  }
}
