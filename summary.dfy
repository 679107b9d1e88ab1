/** The `GET /api/expenses/summary` route: five independent pipelines over the
    stored documents, assembled into one summary bundle. */
module SummaryPipelines {
  import opened Wrappers
  import opened Ordering
  import opened Calendar
  import opened Grouping
  import opened ExpenseSchema
  import opened ExpenseQuery

  function Amount(e: Expense): int { e.amount }
  function CategoryOf(e: Expense): string { e.category }
  function MonthOfExpense(e: Expense): MonthKey { MonthOf(e.date) }
  function DayOfExpense(e: Expense): DayKey { DayOf(e.date) }

  /** A `{ _id, total }` result document. */
  datatype Total<K> = Total(id: K, total: int)

  function TotalId<K>(t: Total<K>): K { t.id }
  function TotalAmount<K>(t: Total<K>): int { t.total }

  /** The `{ _id, total }` projection of buckets, in order. */
  function ToTotals<K>(bs: seq<Bucket<K>>): (r: seq<Total<K>>)
    ensures |r| == |bs| && forall i :: 0 <= i < |bs| ==> r[i] == Total(bs[i].id, bs[i].total)
  {
    seq(|bs|, i requires 0 <= i < |bs| => Total(bs[i].id, bs[i].total))
  }

  /** Projecting buckets to totals keeps their ids. */
  lemma IdsOfTotals<K>(bs: seq<Bucket<K>>)
    ensures Keys(ToTotals(bs), TotalId) == Ids(bs)
  {
  }

  lemma {:induction false} SumOfToTotals<K>(bs: seq<Bucket<K>>)
    ensures SumOf(ToTotals(bs), TotalAmount) == SumOf(bs, BucketTotal)
    decreases |bs|
  {
    if bs != [] {
      var n := |bs|;
      assert ToTotals(bs)[..n - 1] == ToTotals(bs[..n - 1]);
      SumOfToTotals(bs[..n - 1]);
    }
  }

  // Total

  /** `{ $group: { _id: null, total: { $sum: '$amount' } } }`: no document when
      nothing matched, one otherwise. */
  function TotalPipeline(matched: seq<Expense>): seq<int>
  {
    if matched == [] then [] else [SumOf(matched, Amount)]
  }

  /** `totalExpenses[0]?.total || 0`. */
  function TotalExpenses(matched: seq<Expense>): (t: int)
    ensures t == SumOf(matched, Amount)
    ensures matched == [] ==> t == 0
  {
    var p := TotalPipeline(matched);
    if p == [] || p[0] == 0 then 0 else p[0]
  }

  // Category breakdown

  function TotalDescending(b: Bucket<string>): seq<int> { [-b.total] }

  /** Group by category with `$sum` of amounts and a count, then
      `{ $sort: { total: -1 } }`. */
  function CategoryBreakdown(matched: seq<Expense>): seq<Bucket<string>>
  {
    SortBy(Group(matched, CategoryOf, Amount), TotalDescending)
  }

  /** One entry per category present, no category twice, each with the sum and
      the number of its records; totals never increase down the list, they add
      up to the total and the counts add up to the number of matched records. */
  lemma CategoryBreakdownSpec(matched: seq<Expense>)
    ensures var r := CategoryBreakdown(matched);
      && (forall c :: c in Ids(r) <==> c in Keys(matched, CategoryOf))
      && DistinctBy(r, BucketId)
      && (forall b :: b in r ==>
            b.total == TotalFor(matched, CategoryOf, Amount, b.id) && b.count == CountFor(matched, CategoryOf, b.id))
      && (forall i, j :: 0 <= i < j < |r| ==> r[i].total >= r[j].total)
      && SumOf(r, BucketTotal) == TotalExpenses(matched)
      && SumOf(r, BucketCount) == |matched|
  {
    var g := Group(matched, CategoryOf, Amount);
    var r := CategoryBreakdown(matched);
    GroupSummarises(matched, CategoryOf, Amount);
    GroupSums(matched, CategoryOf, Amount);
    SortedSummarises(g, matched, CategoryOf, Amount, TotalDescending);
    forall i, j | 0 <= i < j < |r| ensures r[i].total >= r[j].total {
      SortedByPairs(r, TotalDescending, i, j);
      assert LexLe([-r[i].total], [-r[j].total]);
    }
  }

  // Monthly breakdown

  function MonthDescending(b: Bucket<MonthKey>): seq<int> { Negated(MonthOrder(b.id)) }

  /** Group by `{ year, month }` with `$sum` of amounts, then
      `{ $sort: { '_id.year': -1, '_id.month': -1 } }`. */
  function MonthlyBreakdown(matched: seq<Expense>): seq<Total<MonthKey>>
  {
    ToTotals(SortBy(Group(matched, MonthOfExpense, Amount), MonthDescending))
  }

  /** `a` is a strictly earlier month than `b`. */
  predicate MonthBefore(a: MonthKey, b: MonthKey)
  {
    LexLe(MonthOrder(a), MonthOrder(b)) && a != b
  }

  /** One entry per month that has matched records, with their sum; the months
      strictly decrease down the list, and the totals add up to the total. */
  lemma MonthlyBreakdownSpec(matched: seq<Expense>)
    ensures var r := MonthlyBreakdown(matched);
      && (forall m :: m in Keys(r, TotalId) <==> m in Keys(matched, MonthOfExpense))
      && (forall i :: 0 <= i < |r| ==> r[i].total == TotalFor(matched, MonthOfExpense, Amount, r[i].id))
      && (forall i, j :: 0 <= i < j < |r| ==> MonthBefore(r[j].id, r[i].id))
      && SumOf(r, TotalAmount) == TotalExpenses(matched)
  {
    MonthlyEntries(matched);
    MonthlyOrder(matched);
    MonthlySum(matched);
  }

  lemma MonthlyEntries(matched: seq<Expense>)
    ensures var r := MonthlyBreakdown(matched);
      && (forall m :: m in Keys(r, TotalId) <==> m in Keys(matched, MonthOfExpense))
      && (forall i :: 0 <= i < |r| ==> r[i].total == TotalFor(matched, MonthOfExpense, Amount, r[i].id))
  {
    var g := Group(matched, MonthOfExpense, Amount);
    var s := SortBy(g, MonthDescending);
    var r := ToTotals(s);
    GroupSummarises(matched, MonthOfExpense, Amount);
    SortedSummarises(g, matched, MonthOfExpense, Amount, MonthDescending);
    IdsOfTotals(s);
    forall i | 0 <= i < |r| ensures r[i].total == TotalFor(matched, MonthOfExpense, Amount, r[i].id) {
      assert s[i] in s;
    }
  }

  lemma MonthlyOrder(matched: seq<Expense>)
    ensures var r := MonthlyBreakdown(matched);
      forall i, j :: 0 <= i < j < |r| ==> MonthBefore(r[j].id, r[i].id)
  {
    var g := Group(matched, MonthOfExpense, Amount);
    var s := SortBy(g, MonthDescending);
    var r := ToTotals(s);
    GroupSummarises(matched, MonthOfExpense, Amount);
    SortedSummarises(g, matched, MonthOfExpense, Amount, MonthDescending);
    forall i, j | 0 <= i < j < |r| ensures MonthBefore(r[j].id, r[i].id) {
      SortedByPairs(s, MonthDescending, i, j);
      NegatedFlips(MonthOrder(s[i].id), MonthOrder(s[j].id));
      assert BucketId(s[i]) != BucketId(s[j]);
    }
  }

  lemma MonthlySum(matched: seq<Expense>)
    ensures SumOf(MonthlyBreakdown(matched), TotalAmount) == TotalExpenses(matched)
  {
    var g := Group(matched, MonthOfExpense, Amount);
    var s := SortBy(g, MonthDescending);
    GroupSummarises(matched, MonthOfExpense, Amount);
    GroupSums(matched, MonthOfExpense, Amount);
    SortedSummarises(g, matched, MonthOfExpense, Amount, MonthDescending);
    SumOfToTotals(s);
  }



  // Daily breakdown

  /** The daily pipeline's `$match`: the owner's records dated on or after
      `since`, whatever range the request gave. */
  predicate OwnedSince(owner: UserId, since: Date, e: Expense)
  {
    e.user == owner && NotAfter(since, e.date)
  }

  function OwnedSinceSelector(owner: UserId, since: Date): Expense -> bool
  {
    e => OwnedSince(owner, since, e)
  }

  function DayAscending(b: Bucket<DayKey>): seq<int> { DayOrder(b.id) }

  /** Group by `%Y-%m-%d` with `$sum` of amounts, then `{ $sort: { _id: 1 } }`. */
  function DailyBreakdown(docs: seq<Expense>, owner: UserId, since: Date): seq<Total<DayKey>>
  {
    ToTotals(SortBy(Group(Filter(docs, OwnedSinceSelector(owner, since)), DayOfExpense, Amount), DayAscending))
  }

  /** `a` is a strictly earlier day than `b`. */
  predicate DayBefore(a: DayKey, b: DayKey)
  {
    LexLe(DayOrder(a), DayOrder(b)) && a != b
  }

  /** One entry per day that has an owner's record since `since`, with their
      sum; the days strictly increase and none is before the day of `since`. */
  lemma DailyBreakdownSpec(docs: seq<Expense>, owner: UserId, since: Date)
    ensures var sel := Filter(docs, OwnedSinceSelector(owner, since));
      var r := DailyBreakdown(docs, owner, since);
      && (forall d :: d in Keys(r, TotalId) <==> d in Keys(sel, DayOfExpense))
      && (forall i :: 0 <= i < |r| ==> r[i].total == TotalFor(sel, DayOfExpense, Amount, r[i].id))
      && (forall i, j :: 0 <= i < j < |r| ==> DayBefore(r[i].id, r[j].id))
      && (forall i :: 0 <= i < |r| ==> LexLe(DayOrder(DayOf(since)), DayOrder(r[i].id)))
  {
    DailyEntries(docs, owner, since);
    DailyOrder(docs, owner, since);
    DailyFloor(docs, owner, since);
  }

  lemma DailyEntries(docs: seq<Expense>, owner: UserId, since: Date)
    ensures var sel := Filter(docs, OwnedSinceSelector(owner, since));
      var r := DailyBreakdown(docs, owner, since);
      && (forall d :: d in Keys(r, TotalId) <==> d in Keys(sel, DayOfExpense))
      && (forall i :: 0 <= i < |r| ==> r[i].total == TotalFor(sel, DayOfExpense, Amount, r[i].id))
  {
    var sel := Filter(docs, OwnedSinceSelector(owner, since));
    var g := Group(sel, DayOfExpense, Amount);
    var s := SortBy(g, DayAscending);
    var r := ToTotals(s);
    GroupSummarises(sel, DayOfExpense, Amount);
    SortedSummarises(g, sel, DayOfExpense, Amount, DayAscending);
    IdsOfTotals(s);
    forall i | 0 <= i < |r| ensures r[i].total == TotalFor(sel, DayOfExpense, Amount, r[i].id) {
      assert s[i] in s;
    }
  }

  lemma DailyOrder(docs: seq<Expense>, owner: UserId, since: Date)
    ensures var r := DailyBreakdown(docs, owner, since);
      forall i, j :: 0 <= i < j < |r| ==> DayBefore(r[i].id, r[j].id)
  {
    var sel := Filter(docs, OwnedSinceSelector(owner, since));
    var g := Group(sel, DayOfExpense, Amount);
    var s := SortBy(g, DayAscending);
    var r := ToTotals(s);
    GroupSummarises(sel, DayOfExpense, Amount);
    SortedSummarises(g, sel, DayOfExpense, Amount, DayAscending);
    forall i, j | 0 <= i < j < |r| ensures DayBefore(r[i].id, r[j].id) {
      SortedByPairs(s, DayAscending, i, j);
      assert BucketId(s[i]) != BucketId(s[j]);
    }
  }

  lemma DailyFloor(docs: seq<Expense>, owner: UserId, since: Date)
    ensures var r := DailyBreakdown(docs, owner, since);
      forall i :: 0 <= i < |r| ==> LexLe(DayOrder(DayOf(since)), DayOrder(r[i].id))
  {
    var sel := Filter(docs, OwnedSinceSelector(owner, since));
    var g := Group(sel, DayOfExpense, Amount);
    var s := SortBy(g, DayAscending);
    var r := ToTotals(s);
    GroupSummarises(sel, DayOfExpense, Amount);
    SortedSummarises(g, sel, DayOfExpense, Amount, DayAscending);
    forall i | 0 <= i < |r| ensures LexLe(DayOrder(DayOf(since)), DayOrder(r[i].id)) {
      assert r[i].id in Ids(s) by { assert Ids(s)[i] == r[i].id; }
      var k :| 0 <= k < |sel| && Keys(sel, DayOfExpense)[k] == r[i].id;
      assert sel[k] in multiset(sel);
      DayOfMonotone(since, sel[k].date);
    }
  }



  // Recent expenses

  const RecentLimit := 5

  function OwnedSelector(owner: UserId): Expense -> bool
  {
    (e: Expense) => e.user == owner
  }

  /** `Expense.find({ user }).sort({ date: -1 }).limit(5)`. */
  function Recent(docs: seq<Expense>, owner: UserId): seq<Expense>
  {
    var s := SortBy(Filter(docs, OwnedSelector(owner)), DateDescending);
    if |s| <= RecentLimit then s else s[..RecentLimit]
  }

  /** In a newest-first list, whatever lies beyond the first `n` is no newer
      than anything among them. */
  lemma NewestFirstPrefix(s: seq<Expense>, n: int, e: Expense, i: int)
    requires SortedBy(s, DateDescending) && 0 <= i < n <= |s|
    requires e in s && e !in s[..n]
    ensures NotAfter(e.date, s[i].date)
  {
    var k :| 0 <= k < |s| && s[k] == e;
    SortedByPairs(s, DateDescending, i, k);
    NegatedFlips(DateKey(s[i].date), DateKey(s[k].date));
  }

  /** The owner's records, newest first, as many as the owner has up to five,
      each kept no more often than the owner's records hold it; every owner's
      record left out is no newer than any that is kept. */
  lemma RecentSpec(docs: seq<Expense>, owner: UserId)
    ensures var r := Recent(docs, owner);
      var n := |Filter(docs, OwnedSelector(owner))|;
      && |r| == (if n < RecentLimit then n else RecentLimit)
      && (forall e :: e in r ==> e in docs && e.user == owner)
      && multiset(r) <= multiset(Filter(docs, OwnedSelector(owner)))
      && (forall i, j :: 0 <= i < j < |r| ==> NotAfter(r[j].date, r[i].date))
      && (forall e, i :: e in docs && e.user == owner && e !in r && 0 <= i < |r| ==> NotAfter(e.date, r[i].date))
  {
    RecentOwned(docs, owner);
    RecentOrder(docs, owner);
    RecentNewest(docs, owner);
  }

  lemma RecentOwned(docs: seq<Expense>, owner: UserId)
    ensures var r := Recent(docs, owner);
      var n := |Filter(docs, OwnedSelector(owner))|;
      && |r| == (if n < RecentLimit then n else RecentLimit)
      && (forall e :: e in r ==> e in docs && e.user == owner)
      && multiset(r) <= multiset(Filter(docs, OwnedSelector(owner)))
  {
    var owned := Filter(docs, OwnedSelector(owner));
    var s := SortBy(owned, DateDescending);
    var r := Recent(docs, owner);
    assert r == s[..|r|];
    assert s == r + s[|r|..];
    assert multiset(s) == multiset(r) + multiset(s[|r|..]);
    forall e | e in r ensures e in docs && e.user == owner {
      assert e in multiset(s);
      assert multiset(owned)[e] > 0;
    }
  }

  lemma RecentOrder(docs: seq<Expense>, owner: UserId)
    ensures var r := Recent(docs, owner);
      forall i, j :: 0 <= i < j < |r| ==> NotAfter(r[j].date, r[i].date)
  {
    var s := SortBy(Filter(docs, OwnedSelector(owner)), DateDescending);
    var r := Recent(docs, owner);
    assert r == s[..|r|];
    forall i, j | 0 <= i < j < |r| ensures NotAfter(r[j].date, r[i].date) {
      SortedByPairs(s, DateDescending, i, j);
      NegatedFlips(DateKey(s[i].date), DateKey(s[j].date));
    }
  }

  lemma RecentNewest(docs: seq<Expense>, owner: UserId)
    ensures var r := Recent(docs, owner);
      forall e, i :: e in docs && e.user == owner && e !in r && 0 <= i < |r| ==> NotAfter(e.date, r[i].date)
  {
    var owned := Filter(docs, OwnedSelector(owner));
    var s := SortBy(owned, DateDescending);
    var r := Recent(docs, owner);
    assert r == s[..|r|];
    forall e, i | e in docs && e.user == owner && e !in r && 0 <= i < |r| ensures NotAfter(e.date, r[i].date) {
      assert multiset(docs)[e] > 0;
      assert e in multiset(s);
      NewestFirstPrefix(s, |r|, e, i);
    }
  }


  // The bundle

  datatype SummaryBundle = SummaryBundle(
    totalExpenses: int,
    categoryBreakdown: seq<Bucket<string>>,
    monthlyBreakdown: seq<Total<MonthKey>>,
    dailyBreakdown: seq<Total<DayKey>>,
    recentExpenses: seq<Expense>)

  function WindowSelector(owner: UserId, startDate: Option<string>, endDate: Option<string>,
                          parse: string -> Date): Expense -> bool
  {
    e => InWindow(owner, startDate, endDate, parse, e)
  }

  /** The records the first three pipelines see. */
  function Matched(docs: seq<Expense>, owner: UserId, startDate: Option<string>,
                   endDate: Option<string>, parse: string -> Date): seq<Expense>
  {
    Filter(docs, WindowSelector(owner, startDate, endDate, parse))
  }

  /** The summary of the stored documents. `since` stands for thirty days
      before the request. */
  function Bundle(docs: seq<Expense>, owner: UserId, startDate: Option<string>,
                  endDate: Option<string>, since: Date, parse: string -> Date): SummaryBundle
  {
    var matched := Matched(docs, owner, startDate, endDate, parse);
    SummaryBundle(TotalExpenses(matched), CategoryBreakdown(matched), MonthlyBreakdown(matched),
                  DailyBreakdown(docs, owner, since), Recent(docs, owner))
  }

  /** Filtering depends only on which elements the predicate keeps. */
  lemma {:induction false} FilterSamePredicate<T(!new)>(s: seq<T>, p: T -> bool, q: T -> bool)
    requires forall x :: p(x) == q(x)
    ensures Filter(s, p) == Filter(s, q)
    decreases |s|
  {
    if s != [] {
      FilterSamePredicate(s[..|s| - 1], p, q);
    }
  }

  /** `GET /api/expenses/summary`: the match query built from the query string,
      then the five pipelines. */
  method Summary(docs: seq<Expense>, owner: UserId, startDate: Option<string>,
                 endDate: Option<string>, since: Date, parse: string -> Date) returns (s: SummaryBundle)
    ensures s == Bundle(docs, owner, startDate, endDate, since, parse)
  {
    var q := BuildMatchQuery(owner, startDate, endDate, parse);
    var matched := Filter(docs, Matcher(q));
    FilterSamePredicate(docs, Matcher(q), WindowSelector(owner, startDate, endDate, parse));
    s := SummaryBundle(TotalExpenses(matched), CategoryBreakdown(matched), MonthlyBreakdown(matched),
                       DailyBreakdown(docs, owner, since), Recent(docs, owner));
  }

  /** The daily breakdown and the recent records ignore the requested range. */
  lemma RangeIgnored(docs: seq<Expense>, owner: UserId, s1: Option<string>, e1: Option<string>,
                     s2: Option<string>, e2: Option<string>, since: Date, parse: string -> Date)
    ensures Bundle(docs, owner, s1, e1, since, parse).dailyBreakdown
         == Bundle(docs, owner, s2, e2, since, parse).dailyBreakdown
    ensures Bundle(docs, owner, s1, e1, since, parse).recentExpenses
         == Bundle(docs, owner, s2, e2, since, parse).recentExpenses
  {
  }
}
