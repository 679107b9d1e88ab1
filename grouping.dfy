/** The `$group` stage of the summary pipelines: one bucket per distinct key,
    holding the `$sum` of an amount and the `$sum: 1` count of its records. */
module Grouping {
  import opened Ordering

  datatype Bucket<K> = Bucket(id: K, total: int, count: nat)

  function BucketId<K>(b: Bucket<K>): K { b.id }
  function BucketTotal<K>(b: Bucket<K>): int { b.total }
  function BucketCount<K>(b: Bucket<K>): int { b.count }

  /** The bucket ids, in bucket order. */
  function Ids<K>(bs: seq<Bucket<K>>): (r: seq<K>)
    ensures |r| == |bs| && forall i :: 0 <= i < |bs| ==> r[i] == bs[i].id
  {
    seq(|bs|, i requires 0 <= i < |bs| => bs[i].id)
  }

  /** The key of every record, in record order. */
  function Keys<T, K>(s: seq<T>, key: T -> K): (r: seq<K>)
    ensures |r| == |s| && forall i :: 0 <= i < |s| ==> r[i] == key(s[i])
  {
    seq(|s|, i requires 0 <= i < |s| => key(s[i]))
  }

  /** Sum of `amount` over the records whose key is `k`. */
  function TotalFor<T, K(==)>(s: seq<T>, key: T -> K, amount: T -> int, k: K): int
  {
    if s == [] then 0
    else TotalFor(s[..|s| - 1], key, amount, k) + (if key(s[|s| - 1]) == k then amount(s[|s| - 1]) else 0)
  }

  /** Number of records whose key is `k`. */
  function CountFor<T, K(==)>(s: seq<T>, key: T -> K, k: K): nat
  {
    if s == [] then 0
    else CountFor(s[..|s| - 1], key, k) + (if key(s[|s| - 1]) == k then 1 else 0)
  }

  /** The buckets with id `k` after one more record of amount `x`. */
  function Bump<K(==)>(bs: seq<Bucket<K>>, k: K, x: int): (r: seq<Bucket<K>>)
    ensures |r| == |bs| && Ids(r) == Ids(bs)
    ensures forall i :: 0 <= i < |bs| ==>
      r[i] == if bs[i].id == k then Bucket(k, bs[i].total + x, bs[i].count + 1) else bs[i]
  {
    seq(|bs|, i requires 0 <= i < |bs| =>
      if bs[i].id == k then Bucket(k, bs[i].total + x, bs[i].count + 1) else bs[i])
  }

  /** One record of key `k` and amount `x` folded into the buckets: its bucket
      grows, or a new bucket is opened at the end. */
  function Accumulate<K(==)>(bs: seq<Bucket<K>>, k: K, x: int): seq<Bucket<K>>
  {
    if k in Ids(bs) then Bump(bs, k, x) else bs + [Bucket(k, x, 1)]
  }

  /** `{ $group: { _id: key, total: { $sum: amount }, count: { $sum: 1 } } }`,
      buckets in order of each key's first record. */
  function Group<T, K(==)>(s: seq<T>, key: T -> K, amount: T -> int): seq<Bucket<K>>
  {
    if s == [] then []
    else Accumulate(Group(s[..|s| - 1], key, amount), key(s[|s| - 1]), amount(s[|s| - 1]))
  }

  /** `bs` is the grouping of `s`: one bucket per key present, no key twice, and
      each bucket's total and count are those of the records with its key. */
  ghost predicate Summarises<T, K(!new)>(bs: seq<Bucket<K>>, s: seq<T>, key: T -> K, amount: T -> int)
  {
    && (forall k :: k in Ids(bs) <==> k in Keys(s, key))
    && DistinctBy(bs, BucketId)
    && (forall b :: b in bs ==> b.total == TotalFor(s, key, amount, b.id) && b.count == CountFor(s, key, b.id))
  }

  lemma KeysSnoc<T, K>(s: seq<T>, t: T, key: T -> K)
    ensures Keys(s + [t], key) == Keys(s, key) + [key(t)]
  {
  }

  lemma ForSnoc<T, K(!new)>(s: seq<T>, t: T, key: T -> K, amount: T -> int, k: K)
    ensures TotalFor(s + [t], key, amount, k) == TotalFor(s, key, amount, k) + (if key(t) == k then amount(t) else 0)
    ensures CountFor(s + [t], key, k) == CountFor(s, key, k) + (if key(t) == k then 1 else 0)
  {
    assert (s + [t])[..|s + [t]| - 1] == s;
  }

  /** A key no record carries has nothing to its name. */
  lemma {:induction false} AbsentKey<T, K(!new)>(s: seq<T>, key: T -> K, amount: T -> int, k: K)
    requires k !in Keys(s, key)
    ensures TotalFor(s, key, amount, k) == 0 && CountFor(s, key, k) == 0
    decreases |s|
  {
    if s != [] {
      var init := s[..|s| - 1];
      assert s == init + [s[|s| - 1]];
      KeysSnoc(init, s[|s| - 1], key);
      AbsentKey(init, key, amount, k);
    }
  }

  lemma AccumulateSummarises<T, K(!new)>(bs: seq<Bucket<K>>, s: seq<T>, t: T, key: T -> K, amount: T -> int)
    requires Summarises(bs, s, key, amount)
    ensures Summarises(Accumulate(bs, key(t), amount(t)), s + [t], key, amount)
  {
    var k, x := key(t), amount(t);
    var r := Accumulate(bs, k, x);
    KeysSnoc(s, t, key);
    forall b | b in r
      ensures b.total == TotalFor(s + [t], key, amount, b.id) && b.count == CountFor(s + [t], key, b.id)
    {
      ForSnoc(s, t, key, amount, b.id);
      if k in Ids(bs) {
        var i :| 0 <= i < |r| && r[i] == b;
        assert bs[i] in bs;
      } else if b !in bs {
        assert b == Bucket(k, x, 1);
        AbsentKey(s, key, amount, k);
      }
    }
    if k !in Ids(bs) {
      assert Ids(r) == Ids(bs) + [k];
      forall i, j | 0 <= i < j < |r| ensures BucketId(r[i]) != BucketId(r[j]) {
        if j == |bs| {
          assert r[i].id == Ids(bs)[i];
        }
      }
    }
  }

  /** Grouping summarises its input. */
  lemma {:induction false} GroupSummarises<T, K(!new)>(s: seq<T>, key: T -> K, amount: T -> int)
    ensures Summarises(Group(s, key, amount), s, key, amount)
    decreases |s|
  {
    if s != [] {
      var init := s[..|s| - 1];
      assert s == init + [s[|s| - 1]];
      GroupSummarises(init, key, amount);
      AccumulateSummarises(Group(init, key, amount), init, s[|s| - 1], key, amount);
    }
  }

  lemma SumOfBump<K(!new)>(bs: seq<Bucket<K>>, k: K, x: int)
    requires DistinctBy(bs, BucketId) && k in Ids(bs)
    ensures SumOf(Bump(bs, k, x), BucketTotal) == SumOf(bs, BucketTotal) + x
    ensures SumOf(Bump(bs, k, x), BucketCount) == SumOf(bs, BucketCount) + 1
  {
    var i :| 0 <= i < |bs| && Ids(bs)[i] == k;
    var r := Bump(bs, k, x);
    assert r == bs[i := Bucket(k, bs[i].total + x, bs[i].count + 1)] by {
      forall j | 0 <= j < |bs| ensures r[j] == bs[i := Bucket(k, bs[i].total + x, bs[i].count + 1)][j] {
        if j != i {
          assert BucketId(bs[j]) != BucketId(bs[i]) by {
            if j < i { } else { }
          }
        }
      }
    }
    SumOfUpdate(bs, i, Bucket(k, bs[i].total + x, bs[i].count + 1), BucketTotal);
    SumOfUpdate(bs, i, Bucket(k, bs[i].total + x, bs[i].count + 1), BucketCount);
  }

  /** The bucket totals add up to the sum of all amounts, and the counts to the
      number of records. */
  lemma {:induction false} GroupSums<T, K(!new)>(s: seq<T>, key: T -> K, amount: T -> int)
    ensures SumOf(Group(s, key, amount), BucketTotal) == SumOf(s, amount)
    ensures SumOf(Group(s, key, amount), BucketCount) == |s|
    decreases |s|
  {
    if s != [] {
      var init := s[..|s| - 1];
      var t := s[|s| - 1];
      var g := Group(init, key, amount);
      GroupSums(init, key, amount);
      if key(t) in Ids(g) {
        GroupSummarises(init, key, amount);
        SumOfBump(g, key(t), amount(t));
      } else {
        var b := Bucket(key(t), amount(t), 1);
        assert (g + [b])[..|g + [b]| - 1] == g;
      }
    }
  }

  /** Reordering buckets keeps the set of ids. */
  lemma IdsPermuted<K(!new)>(a: seq<Bucket<K>>, b: seq<Bucket<K>>)
    requires multiset(a) == multiset(b)
    ensures forall k :: k in Ids(a) <==> k in Ids(b)
  {
    forall k | k in Ids(a) ensures k in Ids(b) {
      var i :| 0 <= i < |a| && Ids(a)[i] == k;
      assert a[i] in multiset(b);
      var j :| 0 <= j < |b| && b[j] == a[i];
      assert Ids(b)[j] == k;
    }
    forall k | k in Ids(b) ensures k in Ids(a) {
      var i :| 0 <= i < |b| && Ids(b)[i] == k;
      assert b[i] in multiset(a);
      var j :| 0 <= j < |a| && a[j] == b[i];
      assert Ids(a)[j] == k;
    }
  }

  /** Sorting a grouping (the `$sort` stage) leaves a grouping of the same records. */
  lemma SortedSummarises<T, K(!new)>(bs: seq<Bucket<K>>, s: seq<T>, key: T -> K, amount: T -> int,
                                    order: Bucket<K> -> seq<int>)
    requires Summarises(bs, s, key, amount)
    ensures Summarises(SortBy(bs, order), s, key, amount)
    ensures SumOf(SortBy(bs, order), BucketTotal) == SumOf(bs, BucketTotal)
    ensures SumOf(SortBy(bs, order), BucketCount) == SumOf(bs, BucketCount)
  {
    var r := SortBy(bs, order);
    IdsPermuted(bs, r);
    SortByDistinct(bs, order, BucketId);
    forall b | b in r ensures b in bs {
      assert b in multiset(r);
    }
    SumOfSortBy(bs, order, BucketTotal);
    SumOfSortBy(bs, order, BucketCount);
  }
}
