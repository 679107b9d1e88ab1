/** Lexicographic order on integer sort keys, the stable insertion sort used for
    every `$sort`, `.sort()` and `Array.prototype.sort` of the system, and the
    sequence helpers (filter, sum, reverse) the aggregation layer is built from. */
module Ordering {

  /** `a` sorts no later than `b`: element by element, a proper prefix first. */
  predicate LexLe(a: seq<int>, b: seq<int>)
    decreases |a|
  {
    a == [] || (b != [] && (a[0] < b[0] || (a[0] == b[0] && LexLe(a[1..], b[1..]))))
  }

  lemma {:induction false} LexLeReflexive(a: seq<int>)
    ensures LexLe(a, a)
    decreases |a|
  {
    if a != [] { LexLeReflexive(a[1..]); }
  }

  lemma {:induction false} LexLeTotal(a: seq<int>, b: seq<int>)
    ensures LexLe(a, b) || LexLe(b, a)
    decreases |a|
  {
    if a != [] && b != [] && a[0] == b[0] { LexLeTotal(a[1..], b[1..]); }
  }

  lemma {:induction false} LexLeTransitive(a: seq<int>, b: seq<int>, c: seq<int>)
    requires LexLe(a, b) && LexLe(b, c)
    ensures LexLe(a, c)
    decreases |a|
  {
    if a != [] && b != [] && c != [] && a[0] == b[0] && b[0] == c[0] {
      LexLeTransitive(a[1..], b[1..], c[1..]);
    }
  }

  /** Comparing the first `k` keys of two equally long keys keeps their order. */
  lemma {:induction false} LexLePrefix(a: seq<int>, b: seq<int>, k: nat)
    requires |a| == |b| && k <= |a| && LexLe(a, b)
    ensures LexLe(a[..k], b[..k])
    decreases k
  {
    if k > 0 && a[0] == b[0] {
      LexLePrefix(a[1..], b[1..], k - 1);
      assert a[..k][1..] == a[1..][..k - 1];
      assert b[..k][1..] == b[1..][..k - 1];
    }
  }

  /** Every component of a key negated: the key of the opposite direction. */
  function Negated(a: seq<int>): (r: seq<int>)
    ensures |r| == |a| && forall i :: 0 <= i < |a| ==> r[i] == -a[i]
  {
    seq(|a|, i requires 0 <= i < |a| => -a[i])
  }

  /** Negating two equally long keys reverses their order. */
  lemma {:induction false} NegatedFlips(a: seq<int>, b: seq<int>)
    requires |a| == |b|
    ensures LexLe(Negated(a), Negated(b)) <==> LexLe(b, a)
    decreases |a|
  {
    if a != [] {
      NegatedFlips(a[1..], b[1..]);
      assert Negated(a)[1..] == Negated(a[1..]);
      assert Negated(b)[1..] == Negated(b[1..]);
    }
  }

  /** Neighbours are in key order. */
  ghost predicate SortedBy<T>(s: seq<T>, key: T -> seq<int>)
  {
    forall i :: 0 < i < |s| ==> LexLe(key(s[i - 1]), key(s[i]))
  }

  /** Any two positions are in key order once neighbours are. */
  lemma {:induction false} SortedByPairs<T>(s: seq<T>, key: T -> seq<int>, i: int, j: int)
    requires SortedBy(s, key) && 0 <= i <= j < |s|
    ensures LexLe(key(s[i]), key(s[j]))
    decreases j - i
  {
    if i == j {
      LexLeReflexive(key(s[i]));
    } else {
      SortedByPairs(s, key, i, j - 1);
      LexLeTransitive(key(s[i]), key(s[j - 1]), key(s[j]));
    }
  }

  /** `x` placed before the first element whose key is not smaller than its own. */
  function Insert<T>(x: T, s: seq<T>, key: T -> seq<int>): (r: seq<T>)
    ensures |r| == |s| + 1 && multiset(r) == multiset(s) + multiset{x}
    ensures r[0] == x || (s != [] && r[0] == s[0])
    ensures SortedBy(s, key) ==> SortedBy(r, key)
  {
    if s == [] || LexLe(key(x), key(s[0])) then
      [x] + s
    else
      LexLeTotal(key(x), key(s[0]));
      assert s == [s[0]] + s[1..];
      [s[0]] + Insert(x, s[1..], key)
  }

  /** Stable insertion sort, ascending by `key`. */
  function SortBy<T>(s: seq<T>, key: T -> seq<int>): (r: seq<T>)
    ensures |r| == |s| && multiset(r) == multiset(s)
    ensures SortedBy(r, key)
  {
    if s == [] then []
    else
      assert s == [s[0]] + s[1..];
      Insert(s[0], SortBy(s[1..], key), key)
  }

  /** No two elements share an identity. */
  ghost predicate DistinctBy<T, K>(s: seq<T>, id: T -> K)
  {
    forall i, j :: 0 <= i < j < |s| ==> id(s[i]) != id(s[j])
  }

  lemma {:induction false} InsertDistinct<T, K>(x: T, s: seq<T>, key: T -> seq<int>, id: T -> K)
    requires DistinctBy(s, id)
    requires forall y :: y in s ==> id(y) != id(x)
    ensures DistinctBy(Insert(x, s, key), id)
    decreases |s|
  {
    if s != [] && !LexLe(key(x), key(s[0])) {
      InsertDistinct(x, s[1..], key, id);
      var t := Insert(x, s[1..], key);
      forall y | y in t ensures id(y) != id(s[0]) {
        assert y in multiset(t);
      }
    }
  }

  /** Sorting never makes two elements share an identity. */
  lemma {:induction false} SortByDistinct<T, K>(s: seq<T>, key: T -> seq<int>, id: T -> K)
    requires DistinctBy(s, id)
    ensures DistinctBy(SortBy(s, key), id)
    decreases |s|
  {
    if s != [] {
      SortByDistinct(s[1..], key, id);
      var t := SortBy(s[1..], key);
      forall y | y in t ensures id(y) != id(s[0]) {
        assert y in multiset(s[1..]);
      }
      InsertDistinct(s[0], t, key, id);
    }
  }

  /** The elements that satisfy `p`, in their original order. */
  function Filter<T(!new)>(s: seq<T>, p: T -> bool): (r: seq<T>)
    ensures |r| <= |s|
    ensures forall x :: multiset(r)[x] == if p(x) then multiset(s)[x] else 0
  {
    if s == [] then []
    else
      var init := s[..|s| - 1];
      assert s == init + [s[|s| - 1]];
      Filter(init, p) + if p(s[|s| - 1]) then [s[|s| - 1]] else []
  }

  /** Sum of `f` over the elements. */
  function SumOf<T>(s: seq<T>, f: T -> int): int
  {
    if s == [] then 0 else SumOf(s[..|s| - 1], f) + f(s[|s| - 1])
  }

  lemma {:induction false} SumOfConcat<T>(a: seq<T>, b: seq<T>, f: T -> int)
    ensures SumOf(a + b, f) == SumOf(a, f) + SumOf(b, f)
    decreases |b|
  {
    if b == [] {
      assert a + b == a;
    } else {
      SumOfConcat(a, b[..|b| - 1], f);
      assert (a + b)[..|a + b| - 1] == a + b[..|b| - 1];
      assert (a + b)[|a + b| - 1] == b[|b| - 1];
      assert SumOf(a + b, f) == SumOf(a + b[..|b| - 1], f) + f(b[|b| - 1]);
    }
  }

  lemma {:induction false} SumOfInsert<T>(x: T, s: seq<T>, key: T -> seq<int>, f: T -> int)
    ensures SumOf(Insert(x, s, key), f) == f(x) + SumOf(s, f)
    decreases |s|
  {
    if s == [] || LexLe(key(x), key(s[0])) {
      SumOfConcat([x], s, f);
      assert SumOf([x], f) == f(x) by { assert [x][..0] == []; }
    } else {
      SumOfInsert(x, s[1..], key, f);
      SumOfConcat([s[0]], Insert(x, s[1..], key), f);
      SumOfConcat([s[0]], s[1..], f);
      assert s == [s[0]] + s[1..];
    }
  }

  /** Sorting does not change a sum. */
  lemma {:induction false} SumOfSortBy<T>(s: seq<T>, key: T -> seq<int>, f: T -> int)
    ensures SumOf(SortBy(s, key), f) == SumOf(s, f)
    decreases |s|
  {
    if s != [] {
      SumOfSortBy(s[1..], key, f);
      SumOfInsert(s[0], SortBy(s[1..], key), key, f);
      SumOfConcat([s[0]], s[1..], f);
      assert s == [s[0]] + s[1..];
      assert SumOf([s[0]], f) == f(s[0]) by { assert [s[0]][..0] == []; }
    }
  }

  /** Replacing one element changes a sum by the difference. */
  lemma {:induction false} SumOfUpdate<T>(s: seq<T>, i: int, v: T, f: T -> int)
    requires 0 <= i < |s|
    ensures SumOf(s[i := v], f) == SumOf(s, f) - f(s[i]) + f(v)
    decreases |s|
  {
    var n := |s|;
    if i == n - 1 {
      assert s[i := v][..n - 1] == s[..n - 1];
    } else {
      assert s[i := v][..n - 1] == s[..n - 1][i := v];
      SumOfUpdate(s[..n - 1], i, v, f);
    }
  }

  /** The elements in the opposite order. */
  function Reversed<T>(s: seq<T>): (r: seq<T>)
    ensures |r| == |s| && forall i :: 0 <= i < |s| ==> r[i] == s[|s| - 1 - i]
  {
    if s == [] then [] else [s[|s| - 1]] + Reversed(s[..|s| - 1])
  }

  lemma {:induction false} ReversedPermutes<T>(s: seq<T>)
    ensures multiset(Reversed(s)) == multiset(s)
    decreases |s|
  {
    if s != [] {
      ReversedPermutes(s[..|s| - 1]);
      assert s == s[..|s| - 1] + [s[|s| - 1]];
    }
  }
}
