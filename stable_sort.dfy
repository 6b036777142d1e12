/** `Array.prototype.sort((a, b) => ts(b) - ts(a))`: a stable sort into
    non-increasing order of an integer time stamp. */
module StableSort {
  import Unique

  predicate Descending<T>(s: seq<T>, ts: T -> int) {
    forall i, j :: 0 <= i < j < |s| ==> ts(s[i]) >= ts(s[j])
  }

  /** Puts `x` after every element at least as late as it, and before the rest. */
  function Insert<T>(x: T, s: seq<T>, ts: T -> int): seq<T>
    decreases |s|
  {
    if s == [] then [x]
    else if ts(s[0]) >= ts(x) then [s[0]] + Insert(x, s[1..], ts)
    else [x] + s
  }

  /** Insertion sort, taking the input from left to right. */
  function SortDesc<T>(s: seq<T>, ts: T -> int): seq<T>
    decreases |s|
  {
    if s == [] then [] else Insert(s[|s| - 1], SortDesc(s[..|s| - 1], ts), ts)
  }

  lemma {:induction false} InsertPermutes<T>(x: T, s: seq<T>, ts: T -> int)
    ensures multiset(Insert(x, s, ts)) == multiset(s) + multiset{x}
    decreases |s|
  {
    if s != [] {
      assert s == [s[0]] + s[1..];
      if ts(s[0]) >= ts(x) {
        InsertPermutes(x, s[1..], ts);
      }
    }
  }

  lemma {:induction false} InsertSorted<T>(x: T, s: seq<T>, ts: T -> int)
    requires Descending(s, ts)
    ensures Descending(Insert(x, s, ts), ts)
    decreases |s|
  {
    if s != [] && ts(s[0]) >= ts(x) {
      var rest := Insert(x, s[1..], ts);
      InsertSorted(x, s[1..], ts);
      InsertBounded(x, s[1..], ts, ts(s[0]));
      ConsDescending(s[0], rest, ts);
    }
  }

  /** Inserting keeps every stamp at or below a common bound. */
  lemma {:induction false} InsertBounded<T>(x: T, s: seq<T>, ts: T -> int, b: int)
    requires ts(x) <= b && forall i :: 0 <= i < |s| ==> ts(s[i]) <= b
    ensures forall i :: 0 <= i < |Insert(x, s, ts)| ==> ts(Insert(x, s, ts)[i]) <= b
    decreases |s|
  {
    if s != [] && ts(s[0]) >= ts(x) {
      InsertBounded(x, s[1..], ts, b);
      var rest := Insert(x, s[1..], ts);
      assert forall i :: 1 <= i < |rest| + 1 ==> ([s[0]] + rest)[i] == rest[i - 1];
    }
  }

  /** A head at least as late as everything after it extends a descending sequence. */
  lemma ConsDescending<T>(h: T, rest: seq<T>, ts: T -> int)
    requires Descending(rest, ts) && forall i :: 0 <= i < |rest| ==> ts(rest[i]) <= ts(h)
    ensures Descending([h] + rest, ts)
  {
    var r := [h] + rest;
    forall i, j | 0 <= i < j < |r| ensures ts(r[i]) >= ts(r[j]) {
      assert r[j] == rest[j - 1];
      if i > 0 {
        assert r[i] == rest[i - 1];
      }
    }
  }

  /** The result holds the same elements as the input. */
  lemma {:induction false} SortPermutes<T>(s: seq<T>, ts: T -> int)
    ensures multiset(SortDesc(s, ts)) == multiset(s)
    decreases |s|
  {
    if s != [] {
      var init := s[..|s| - 1];
      SortPermutes(init, ts);
      InsertPermutes(s[|s| - 1], SortDesc(init, ts), ts);
      assert s == init + [s[|s| - 1]];
    }
  }

  /** The result is in non-increasing order. */
  lemma {:induction false} SortSorted<T>(s: seq<T>, ts: T -> int)
    ensures Descending(SortDesc(s, ts), ts)
    decreases |s|
  {
    if s != [] {
      SortSorted(s[..|s| - 1], ts);
      InsertSorted(s[|s| - 1], SortDesc(s[..|s| - 1], ts), ts);
    }
  }

  lemma {:induction false} InsertAllEqual<T>(x: T, s: seq<T>, ts: T -> int)
    requires forall i :: 0 <= i < |s| ==> ts(s[i]) == ts(x)
    ensures Insert(x, s, ts) == s + [x]
    decreases |s|
  {
    if s != [] {
      InsertAllEqual(x, s[1..], ts);
    }
  }

  /** A sequence whose stamps all agree is left as it is. */
  lemma {:induction false} SortAllEqual<T>(s: seq<T>, ts: T -> int)
    requires forall i, j :: 0 <= i < |s| && 0 <= j < |s| ==> ts(s[i]) == ts(s[j])
    ensures SortDesc(s, ts) == s
    decreases |s|
  {
    if s != [] {
      var init := s[..|s| - 1];
      SortAllEqual(init, ts);
      InsertAllEqual(s[|s| - 1], init, ts);
    }
  }

  /** `x` alone when it carries the stamp `t`, nothing otherwise. */
  function Own<T>(x: T, ts: T -> int, t: int): seq<T> {
    if ts(x) == t then [x] else []
  }

  /** The elements stamped `t`, in their order. */
  function WithStamp<T>(s: seq<T>, ts: T -> int, t: int): seq<T>
    decreases |s|
  {
    if s == [] then [] else Own(s[0], ts, t) + WithStamp(s[1..], ts, t)
  }

  lemma WithStampCons<T>(x: T, s: seq<T>, ts: T -> int, t: int)
    ensures WithStamp([x] + s, ts, t) == Own(x, ts, t) + WithStamp(s, ts, t)
  {
    assert ([x] + s)[0] == x;
    assert ([x] + s)[1..] == s;
  }

  lemma {:induction false} WithStampAppend<T>(a: seq<T>, b: seq<T>, ts: T -> int, t: int)
    ensures WithStamp(a + b, ts, t) == WithStamp(a, ts, t) + WithStamp(b, ts, t)
    decreases |a|
  {
    if a == [] {
      assert a + b == b;
    } else {
      assert a + b == [a[0]] + (a[1..] + b);
      WithStampCons(a[0], a[1..] + b, ts, t);
      WithStampAppend(a[1..], b, ts, t);
    }
  }

  lemma {:induction false} NoneStamped<T>(s: seq<T>, ts: T -> int, t: int)
    requires forall i :: 0 <= i < |s| ==> ts(s[i]) != t
    ensures WithStamp(s, ts, t) == []
    decreases |s|
  {
    if s != [] {
      assert forall i :: 0 <= i < |s[1..]| ==> s[1..][i] == s[i + 1];
      NoneStamped(s[1..], ts, t);
    }
  }

  /** Inserting into a descending sequence puts `x` after every element
      that carries its stamp. */
  lemma {:induction false} InsertStable<T>(x: T, s: seq<T>, ts: T -> int, t: int)
    requires Descending(s, ts)
    ensures WithStamp(Insert(x, s, ts), ts, t) == WithStamp(s, ts, t) + Own(x, ts, t)
    decreases |s|
  {
    if s == [] {
      WithStampCons(x, [], ts, t);
      assert [x] + [] == [x];
    } else if ts(s[0]) >= ts(x) {
      DescendingTail(s, ts);
      InsertStable(x, s[1..], ts, t);
      StableStep(x, s, ts, t);
    } else {
      assert Insert(x, s, ts) == [x] + s;
      WithStampCons(x, s, ts, t);
      AllEarlier(x, s, ts, t);
    }
  }

  /** The step of InsertStable past a head at least as late as `x`. */
  lemma StableStep<T>(x: T, s: seq<T>, ts: T -> int, t: int)
    requires s != [] && ts(s[0]) >= ts(x)
    requires WithStamp(Insert(x, s[1..], ts), ts, t) == WithStamp(s[1..], ts, t) + Own(x, ts, t)
    ensures WithStamp(Insert(x, s, ts), ts, t) == WithStamp(s, ts, t) + Own(x, ts, t)
  {
    var rest := Insert(x, s[1..], ts);
    assert Insert(x, s, ts) == [s[0]] + rest;
    WithStampCons(s[0], rest, ts, t);
  }

  /** When `x` is later than the head of a descending sequence, nothing in
      the sequence shares its stamp. */
  lemma AllEarlier<T>(x: T, s: seq<T>, ts: T -> int, t: int)
    requires Descending(s, ts) && s != [] && ts(s[0]) < ts(x)
    ensures ts(x) == t ==> WithStamp(s, ts, t) == []
  {
    if ts(x) == t {
      forall i | 0 <= i < |s| ensures ts(s[i]) != t {
        assert ts(s[i]) <= ts(s[0]);
      }
      NoneStamped(s, ts, t);
    }
  }

  /** Stability: for every stamp, the elements carrying it come out in the
      order they went in. */
  lemma {:induction false} SortStable<T>(s: seq<T>, ts: T -> int, t: int)
    ensures WithStamp(SortDesc(s, ts), ts, t) == WithStamp(s, ts, t)
    decreases |s|
  {
    if s != [] {
      var init, x := s[..|s| - 1], s[|s| - 1];
      SortStable(init, ts, t);
      SortSorted(init, ts);
      InsertStable(x, SortDesc(init, ts), ts, t);
      assert s == init + [x];
      WithStampAppend(init, [x], ts, t);
      WithStampCons(x, [], ts, t);
      assert [x] + [] == [x];
    }
  }

  lemma DescendingTail<T>(s: seq<T>, ts: T -> int)
    requires s != [] && Descending(s, ts)
    ensures Descending(s[1..], ts)
  {
    forall i, j | 0 <= i < j < |s[1..]| ensures ts(s[1..][i]) >= ts(s[1..][j]) {
      assert s[1..][i] == s[i + 1] && s[1..][j] == s[j + 1];
    }
  }

  /** Sorting never makes two elements share a key. */
  lemma {:induction false} InsertDistinct<T, K>(x: T, s: seq<T>, ts: T -> int, key: T -> K)
    requires Unique.DistinctKeys(s, key)
    requires forall e :: e in s ==> key(e) != key(x)
    ensures Unique.DistinctKeys(Insert(x, s, ts), key)
    decreases |s|
  {
    if s != [] {
      var r := Insert(x, s, ts);
      if ts(s[0]) >= ts(x) {
        var rest := Insert(x, s[1..], ts);
        assert Unique.DistinctKeys(s[1..], key) by {
          forall i, j | 0 <= i < j < |s[1..]| ensures key(s[1..][i]) != key(s[1..][j]) {
            assert s[1..][i] == s[i + 1] && s[1..][j] == s[j + 1];
          }
        }
        InsertDistinct(x, s[1..], ts, key);
        InsertPermutes(x, s[1..], ts);
        forall j | 0 <= j < |rest| ensures key(s[0]) != key(rest[j]) {
          assert rest[j] in multiset(rest);
          if rest[j] != x {
            var m :| 0 <= m < |s[1..]| && s[1..][m] == rest[j];
            assert s[m + 1] == rest[j];
          }
        }
        forall i, j | 0 <= i < j < |r| ensures key(r[i]) != key(r[j]) {
          assert r[j] == rest[j - 1];
          if i > 0 {
            assert r[i] == rest[i - 1];
          }
        }
      } else {
        forall i, j | 0 <= i < j < |r| ensures key(r[i]) != key(r[j]) {
          assert r[j] == s[j - 1];
          if i > 0 {
            assert r[i] == s[i - 1];
          }
        }
      }
    }
  }

  lemma {:induction false} SortDistinct<T, K>(s: seq<T>, ts: T -> int, key: T -> K)
    requires Unique.DistinctKeys(s, key)
    ensures Unique.DistinctKeys(SortDesc(s, ts), key)
    decreases |s|
  {
    if s != [] {
      var init, x := s[..|s| - 1], s[|s| - 1];
      assert Unique.DistinctKeys(init, key) by {
        forall i, j | 0 <= i < j < |init| ensures key(init[i]) != key(init[j]) {
          assert init[i] == s[i] && init[j] == s[j];
        }
      }
      SortDistinct(init, ts, key);
      SortPermutes(init, ts);
      forall e | e in SortDesc(init, ts) ensures key(e) != key(x) {
        assert e in multiset(SortDesc(init, ts));
        var m :| 0 <= m < |init| && init[m] == e;
        assert s[m] == e;
      }
      InsertDistinct(x, SortDesc(init, ts), ts, key);
    }
  }
}
