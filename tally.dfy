/** A JavaScript `Map<K, number>` used as a running tally: entries kept in
    insertion order (the order `Map.prototype.values()` yields them), a
    lookup `m.get(k) || 0`, and the accumulate step
    `m.set(k, (m.get(k) || 0) + v)`, which updates an existing key where it
    stands and appends a new key at the end. */
module Tally {
  import Seqs

  datatype Entry<K> = Entry(key: K, value: real)

  type Table<K> = seq<Entry<K>>

  function KeyOf<K>(e: Entry<K>): K { e.key }

  function ValueOf<K>(e: Entry<K>): real { e.value }

  /** The keys in insertion order. */
  function Keys<K>(t: Table<K>): (r: seq<K>)
    ensures |r| == |t| && forall i :: 0 <= i < |t| ==> r[i] == t[i].key
  {
    if t == [] then [] else [t[0].key] + Keys(t[1..])
  }

  predicate HasKey<K(==)>(t: Table<K>, k: K) {
    exists i :: 0 <= i < |t| && t[i].key == k
  }

  /** A map never holds a key twice. */
  predicate DistinctKeys<K(==)>(t: Table<K>) {
    forall i, j :: 0 <= i < j < |t| ==> t[i].key != t[j].key
  }

  /** `m.get(k) || 0`: the stored value, or 0 for an absent key. */
  function Get<K(==)>(t: Table<K>, k: K): (r: real)
    ensures !HasKey(t, k) ==> r == 0.0
  {
    if t == [] then 0.0 else if t[0].key == k then t[0].value else Get(t[1..], k)
  }

  /** The lookup finds the first entry with the key. */
  lemma {:induction false} GetFirst<K>(t: Table<K>, k: K, i: nat)
    requires i < |t| && t[i].key == k && forall j :: 0 <= j < i ==> t[j].key != k
    ensures Get(t, k) == t[i].value
    decreases i
  {
    if i > 0 {
      GetFirst(t[1..], k, i - 1);
    }
  }

  /** `m.set(k, (m.get(k) || 0) + v)`. */
  function Add<K(==)>(t: Table<K>, k: K, v: real): (r: Table<K>)
    ensures HasKey(t, k) ==> Keys(r) == Keys(t)
    ensures !HasKey(t, k) ==> Keys(r) == Keys(t) + [k]
  {
    if t == [] then [Entry(k, v)]
    else if t[0].key == k then [Entry(k, t[0].value + v)] + t[1..]
    else [t[0]] + Add(t[1..], k, v)
  }

  /** `Array.from(m.values()).reduce((sum, val) => sum + val, 0)`. */
  function SumValues<K>(t: Table<K>): real {
    Seqs.SumBy(t, ValueOf)
  }

  /** `items.forEach(x => m.set(key(x), (m.get(key(x)) || 0) + amount(x)))`
      starting from an empty map. */
  function TallyOf<T, K(==)>(items: seq<T>, key: T -> K, amount: T -> real): Table<K>
    decreases |items|
  {
    if items == [] then []
    else Add(TallyOf(items[..|items| - 1], key, amount), key(items[|items| - 1]), amount(items[|items| - 1]))
  }

  /** The amount of `x` if it belongs to key `k`, else 0. */
  function Masked<T, K(==)>(key: T -> K, amount: T -> real, k: K): T -> real {
    x => if key(x) == k then amount(x) else 0.0
  }

  // ---------------------------------------------------------------- lemmas

  /** Tallying one more item adds it to the tally of the ones before. */
  lemma TallySnoc<T, K>(items: seq<T>, x: T, key: T -> K, amount: T -> real)
    ensures TallyOf(items + [x], key, amount) == Add(TallyOf(items, key, amount), key(x), amount(x))
  {
    assert (items + [x])[..|items|] == items;
  }

  lemma {:induction false} GetAdd<K>(t: Table<K>, k: K, v: real, j: K)
    ensures Get(Add(t, k, v), j) == Get(t, j) + (if j == k then v else 0.0)
    decreases |t|
  {
    if t != [] && t[0].key != k {
      GetAdd(t[1..], k, v, j);
      assert Add(t, k, v)[1..] == Add(t[1..], k, v);
    }
  }

  lemma {:induction false} SumValuesAdd<K>(t: Table<K>, k: K, v: real)
    ensures SumValues(Add(t, k, v)) == SumValues(t) + v
    decreases |t|
  {
    if t == [] {
      Seqs.SumBySingle(Entry(k, v), ValueOf);
    } else {
      var rest := t[1..];
      assert t == [t[0]] + rest;
      Seqs.SumByConcat([t[0]], rest, ValueOf);
      Seqs.SumBySingle(t[0], ValueOf);
      if t[0].key == k {
        Seqs.SumByConcat([Entry(k, t[0].value + v)], rest, ValueOf);
        Seqs.SumBySingle(Entry(k, t[0].value + v), ValueOf);
      } else {
        SumValuesAdd(rest, k, v);
        Seqs.SumByConcat([t[0]], Add(rest, k, v), ValueOf);
      }
    }
  }

  lemma AddKeepsDistinct<K>(t: Table<K>, k: K, v: real)
    requires DistinctKeys(t)
    ensures DistinctKeys(Add(t, k, v))
  {
    var r := Add(t, k, v);
    forall i, j | 0 <= i < j < |r| ensures r[i].key != r[j].key {
      assert Keys(r)[i] == r[i].key && Keys(r)[j] == r[j].key;
      assert Keys(t) == Keys(r)[..|t|];
    }
  }

  /** The tally for `k` is the sum of the amounts of the items filed under `k`. */
  lemma {:induction false} GetTallyOf<T, K>(items: seq<T>, key: T -> K, amount: T -> real, k: K)
    ensures Get(TallyOf(items, key, amount), k) == Seqs.SumBy(items, Masked(key, amount, k))
    decreases |items|
  {
    if items != [] {
      var init, last := items[..|items| - 1], items[|items| - 1];
      GetTallyOf(init, key, amount, k);
      GetAdd(TallyOf(init, key, amount), key(last), amount(last), k);
    }
  }

  /** The values of the tally add up to the sum of all amounts. */
  lemma {:induction false} SumValuesTallyOf<T, K>(items: seq<T>, key: T -> K, amount: T -> real)
    ensures SumValues(TallyOf(items, key, amount)) == Seqs.SumBy(items, amount)
    decreases |items|
  {
    if items != [] {
      var init, last := items[..|items| - 1], items[|items| - 1];
      SumValuesTallyOf(init, key, amount);
      SumValuesAdd(TallyOf(init, key, amount), key(last), amount(last));
    }
  }

  lemma HasKeyAdd<K>(t: Table<K>, k: K, v: real, j: K)
    ensures HasKey(Add(t, k, v), j) <==> HasKey(t, j) || j == k
  {
    var r := Add(t, k, v);
    if HasKey(r, j) {
      var i :| 0 <= i < |r| && r[i].key == j;
      assert Keys(r)[i] == j;
      if i < |t| {
        assert Keys(t)[i] == j;
      }
    }
    if HasKey(t, j) {
      var i :| 0 <= i < |t| && t[i].key == j;
      assert Keys(r)[i] == j;
    }
    if j == k {
      if HasKey(t, k) {
        var i :| 0 <= i < |t| && t[i].key == k;
        assert Keys(r)[i] == k;
      } else {
        assert Keys(r)[|t|] == k;
      }
    }
  }

  /** Some item is filed under `k`. */
  predicate FiledUnder<T, K(==)>(items: seq<T>, key: T -> K, k: K) {
    exists i :: 0 <= i < |items| && key(items[i]) == k
  }

  /** A key is in the tally exactly when some item is filed under it. */
  lemma {:induction false} TallyOfKeys<T, K>(items: seq<T>, key: T -> K, amount: T -> real, k: K)
    ensures HasKey(TallyOf(items, key, amount), k) <==> FiledUnder(items, key, k)
    decreases |items|
  {
    if items != [] {
      var init, last := items[..|items| - 1], items[|items| - 1];
      TallyOfKeys(init, key, amount, k);
      HasKeyAdd(TallyOf(init, key, amount), key(last), amount(last), k);
      if FiledUnder(init, key, k) {
        var i :| 0 <= i < |init| && key(init[i]) == k;
        assert items[i] == init[i];
      }
      if FiledUnder(items, key, k) && key(last) != k {
        var i :| 0 <= i < |items| && key(items[i]) == k;
        assert init[i] == items[i];
      }
    }
  }

  /** The tally never holds a key twice. */
  lemma {:induction false} TallyOfDistinct<T, K>(items: seq<T>, key: T -> K, amount: T -> real)
    ensures DistinctKeys(TallyOf(items, key, amount))
    decreases |items|
  {
    if items != [] {
      var init, last := items[..|items| - 1], items[|items| - 1];
      TallyOfDistinct(init, key, amount);
      AddKeepsDistinct(TallyOf(init, key, amount), key(last), amount(last));
    }
  }

  /** Reordering the items changes neither any key's tally nor the grand total. */
  lemma TallyOrderIndependent<T, K>(a: seq<T>, b: seq<T>, key: T -> K, amount: T -> real, k: K)
    requires multiset(a) == multiset(b)
    ensures Get(TallyOf(a, key, amount), k) == Get(TallyOf(b, key, amount), k)
    ensures SumValues(TallyOf(a, key, amount)) == SumValues(TallyOf(b, key, amount))
  {
    GetTallyOf(a, key, amount, k);
    GetTallyOf(b, key, amount, k);
    Seqs.SumByPermutation(a, b, Masked(key, amount, k));
    SumValuesTallyOf(a, key, amount);
    SumValuesTallyOf(b, key, amount);
    Seqs.SumByPermutation(a, b, amount);
  }
}
