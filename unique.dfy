/** First-write-wins de-duplication: the values, in insertion order, of a
    `Map` filled by `items.forEach(a => { if (!m.has(key(a))) m.set(key(a), a) })`. */
module Unique {
  import Seqs

  predicate KeyPresent<T, K(==)>(s: seq<T>, key: T -> K, k: K) {
    exists i :: 0 <= i < |s| && key(s[i]) == k
  }

  predicate DistinctKeys<T, K(==)>(s: seq<T>, key: T -> K) {
    forall i, j :: 0 <= i < j < |s| ==> key(s[i]) != key(s[j])
  }

  /** `a` is the first element of `s` with its key. */
  predicate FirstOfItsKey<T(==), K(==)>(s: seq<T>, key: T -> K, a: T) {
    exists j :: 0 <= j < |s| && s[j] == a && forall m :: 0 <= m < j ==> key(s[m]) != key(a)
  }

  function DedupBy<T, K(==)>(s: seq<T>, key: T -> K): (r: seq<T>)
    ensures |r| <= |s|
    decreases |s|
  {
    if s == [] then []
    else
      var prev := DedupBy(s[..|s| - 1], key);
      if KeyPresent(prev, key, key(s[|s| - 1])) then prev else prev + [s[|s| - 1]]
  }

  lemma KeyPresentAppend<T, K>(r: seq<T>, x: T, key: T -> K, k: K)
    ensures KeyPresent(r + [x], key, k) <==> KeyPresent(r, key, k) || key(x) == k
  {
    if KeyPresent(r + [x], key, k) {
      var i :| 0 <= i < |r + [x]| && key((r + [x])[i]) == k;
      if i < |r| {
        assert (r + [x])[i] == r[i];
      }
    }
    if KeyPresent(r, key, k) {
      var i :| 0 <= i < |r| && key(r[i]) == k;
      assert (r + [x])[i] == r[i];
    }
    if key(x) == k {
      assert (r + [x])[|r|] == x;
    }
  }

  /** De-duplication keeps every key and adds none. */
  lemma {:induction false} DedupSameKeys<T, K>(s: seq<T>, key: T -> K, k: K)
    ensures KeyPresent(DedupBy(s, key), key, k) <==> KeyPresent(s, key, k)
    decreases |s|
  {
    if s != [] {
      var init, x := s[..|s| - 1], s[|s| - 1];
      var prev := DedupBy(init, key);
      DedupSameKeys(init, key, k);
      DedupSameKeys(init, key, key(x));
      assert s == init + [x];
      KeyPresentAppend(init, x, key, k);
      KeyPresentAppend(prev, x, key, k);
    }
  }

  /** No two survivors share a key. */
  lemma {:induction false} DedupDistinct<T, K>(s: seq<T>, key: T -> K)
    ensures DistinctKeys(DedupBy(s, key), key)
    decreases |s|
  {
    if s != [] {
      var init, x := s[..|s| - 1], s[|s| - 1];
      var prev := DedupBy(init, key);
      DedupDistinct(init, key);
      if !KeyPresent(prev, key, key(x)) {
        var r := prev + [x];
        forall i, j | 0 <= i < j < |r| ensures key(r[i]) != key(r[j]) {
          if j < |prev| {
            assert r[i] == prev[i] && r[j] == prev[j];
          } else {
            assert r[i] == prev[i] && r[j] == x;
          }
        }
      }
    }
  }

  /** Every survivor is the first element of the input with its key. */
  lemma {:induction false} DedupFirstWins<T, K>(s: seq<T>, key: T -> K)
    ensures forall i :: 0 <= i < |DedupBy(s, key)| ==> FirstOfItsKey(s, key, DedupBy(s, key)[i])
    decreases |s|
  {
    if s != [] {
      var init, x := s[..|s| - 1], s[|s| - 1];
      var prev := DedupBy(init, key);
      var r := DedupBy(s, key);
      DedupFirstWins(init, key);
      forall i | 0 <= i < |r| ensures FirstOfItsKey(s, key, r[i]) {
        if i < |prev| {
          assert r[i] == prev[i];
          var j :| 0 <= j < |init| && init[j] == prev[i] && forall m :: 0 <= m < j ==> key(init[m]) != key(prev[i]);
          assert s[j] == init[j];
          forall m | 0 <= m < j ensures key(s[m]) != key(prev[i]) {
            assert s[m] == init[m];
          }
        } else {
          assert r[i] == x && !KeyPresent(prev, key, key(x));
          DedupSameKeys(init, key, key(x));
          forall m | 0 <= m < |s| - 1 ensures key(s[m]) != key(x) {
            assert s[m] == init[m];
          }
        }
      }
    }
  }

  /** The survivors are the input with some elements left out, in order. */
  lemma {:induction false} DedupIsSubsequence<T, K>(s: seq<T>, key: T -> K)
    ensures Seqs.IsSubsequence(DedupBy(s, key), s)
    decreases |s|
  {
    if s != [] {
      var init, x := s[..|s| - 1], s[|s| - 1];
      var prev := DedupBy(init, key);
      DedupIsSubsequence(init, key);
      assert s == init + [x];
      if KeyPresent(prev, key, key(x)) {
        Seqs.SubsequenceOfLonger(prev, init, [x]);
      } else {
        Seqs.SubsequenceExtend(prev, init, [x]);
      }
    }
  }

  /** A list whose keys are already distinct passes through unchanged, so
      de-duplicating twice is de-duplicating once. */
  lemma {:induction false} DedupOfDistinct<T, K>(s: seq<T>, key: T -> K)
    requires DistinctKeys(s, key)
    ensures DedupBy(s, key) == s
    decreases |s|
  {
    if s != [] {
      var init, x := s[..|s| - 1], s[|s| - 1];
      assert DistinctKeys(init, key) by {
        forall i, j | 0 <= i < j < |init| ensures key(init[i]) != key(init[j]) {
          assert init[i] == s[i] && init[j] == s[j];
        }
      }
      DedupOfDistinct(init, key);
      forall i | 0 <= i < |init| ensures key(init[i]) != key(x) {
        assert init[i] == s[i];
      }
      assert s == init + [x];
    }
  }

  lemma DedupIdempotent<T, K>(s: seq<T>, key: T -> K)
    ensures DedupBy(DedupBy(s, key), key) == DedupBy(s, key)
  {
    DedupDistinct(s, key);
    DedupOfDistinct(DedupBy(s, key), key);
  }

  /** Filtering a list whose keys are distinct leaves them distinct. */
  lemma {:induction false} FilterDistinct<T, K>(s: seq<T>, p: T -> bool, key: T -> K)
    requires DistinctKeys(s, key)
    ensures DistinctKeys(Seqs.Filter(s, p), key)
    decreases |s|
  {
    if s != [] {
      var rest := Seqs.Filter(s[1..], p);
      assert DistinctKeys(s[1..], key) by {
        forall i, j | 0 <= i < j < |s[1..]| ensures key(s[1..][i]) != key(s[1..][j]) {
          assert s[1..][i] == s[i + 1] && s[1..][j] == s[j + 1];
        }
      }
      FilterDistinct(s[1..], p, key);
      if p(s[0]) {
        var r := [s[0]] + rest;
        forall j | 0 <= j < |rest| ensures key(s[0]) != key(rest[j]) {
          var m :| 0 <= m < |s[1..]| && s[1..][m] == rest[j];
          assert s[m + 1] == rest[j];
        }
        forall i, j | 0 <= i < j < |r| ensures key(r[i]) != key(r[j]) {
          assert r[j] == rest[j - 1];
          if i > 0 {
            assert r[i] == rest[i - 1];
          }
        }
      }
    }
  }
}
