/** The summary cards above the dashboard: the total, the top category, the
    latest month, the recent transactions and the per-category table, read off
    the summary bundle. */
module SummaryCards {
  import opened Wrappers
  import opened Ordering
  import opened Calendar
  import opened JsText
  import opened Grouping
  import opened ExpenseSchema
  import opened ExpenseQuery
  import opened SummaryPipelines

  const MonthNames: seq<string> := [
    "January", "February", "March", "April", "May", "June",
    "July", "August", "September", "October", "November", "December"
  ]

  /** `months[month - 1]`: a name for months 1 to 12, `undefined` otherwise. */
  function MonthName(month: int): (r: string)
    ensures 1 <= month <= 12 ==> r == MonthNames[month - 1]
    ensures !(1 <= month <= 12) ==> r == "undefined"
  {
    if 1 <= month <= 12 then MonthNames[month - 1] else "undefined"
  }

  /** `${months[month - 1]} ${year}`. */
  function FormatMonth(k: MonthKey): string
  {
    MonthName(k.month) + " " + IntToString(k.year)
  }

  predicate NoSpace(s: string)
  {
    forall i :: 0 <= i < |s| ==> s[i] != ' '
  }

  lemma MonthNamesNoSpace(m: int)
    requires 1 <= m <= 12
    ensures NoSpace(MonthNames[m - 1])
  {
  }

  lemma MonthNamesDistinct(m: int, n: int)
    requires 1 <= m <= 12 && 1 <= n <= 12 && m != n
    ensures MonthNames[m - 1] != MonthNames[n - 1]
  {
  }

  /** Where the first space is, or the length when there is none (the split
      point of `${name} ${rest}`). */
  function IndexOfSpace(s: string): (r: nat)
    ensures r <= |s| && NoSpace(s[..r])
  {
    if s == [] || s[0] == ' ' then 0 else 1 + IndexOfSpace(s[1..])
  }

  lemma {:induction false} IndexOfSpaceAfterName(n: string, rest: string)
    requires NoSpace(n)
    ensures IndexOfSpace(n + " " + rest) == |n|
    decreases |n|
  {
    if n != [] {
      assert (n + " " + rest)[1..] == n[1..] + " " + rest;
      IndexOfSpaceAfterName(n[1..], rest);
    }
  }

  /** Two texts of the form `name + " " + rest` with space-free names agree only
      when names and rests agree. */
  lemma SplitAtSpace(n1: string, r1: string, n2: string, r2: string)
    requires NoSpace(n1) && NoSpace(n2)
    requires n1 + " " + r1 == n2 + " " + r2
    ensures n1 == n2 && r1 == r2
  {
    var s := n1 + " " + r1;
    IndexOfSpaceAfterName(n1, r1);
    IndexOfSpaceAfterName(n2, r2);
    assert n1 == s[..|n1|] == n2;
    assert r1 == s[|n1| + 1..] == r2;
  }

  /** Different months get different labels. */
  lemma FormatMonthInjective(a: MonthKey, b: MonthKey)
    requires 1 <= a.month <= 12 && 1 <= b.month <= 12
    requires FormatMonth(a) == FormatMonth(b)
    ensures a == b
  {
    MonthNamesNoSpace(a.month);
    MonthNamesNoSpace(b.month);
    SplitAtSpace(MonthName(a.month), IntToString(a.year), MonthName(b.month), IntToString(b.year));
    if a.month != b.month {
      MonthNamesDistinct(a.month, b.month);
    }
    IntToStringInjective(a.year, b.year);
  }

  /** The top-category card: `-` when there is no category, else the first one. */
  datatype TopCard = NoTopCategory | TopCategory(category: string, total: int)

  /** The this-month card: `-` when there is no month, else the first one. */
  datatype MonthCard = NoMonth | LatestMonth(heading: string, total: int)

  /** The recent card: `No recent transactions`, or the count and the start of
      the latest description. */
  datatype RecentCard = NoRecentTransactions | RecentTransactions(count: nat, latest: string)

  /** One line of the per-category table; the percentage is not modelled. */
  datatype CategoryRow = CategoryRow(category: string, count: nat, total: int)

  datatype SummaryView =
    | Nothing
    | Cards(total: int, top: TopCard, month: MonthCard, recent: RecentCard,
            table: Option<seq<CategoryRow>>)

  function TopCardOf(cb: seq<Bucket<string>>): (r: TopCard)
    ensures r.NoTopCategory? <==> cb == []
    ensures r.TopCategory? ==> r.category == cb[0].id && r.total == cb[0].total
  {
    if |cb| > 0 then TopCategory(cb[0].id, cb[0].total) else NoTopCategory
  }

  function MonthCardOf(mb: seq<Total<MonthKey>>): (r: MonthCard)
    ensures r.NoMonth? <==> mb == []
    ensures r.LatestMonth? ==> r.heading == FormatMonth(mb[0].id) && r.total == mb[0].total
  {
    if |mb| > 0 then LatestMonth(FormatMonth(mb[0].id), mb[0].total) else NoMonth
  }

  const LatestPreviewLength := 20

  /** `description.substring(0, 20)` followed by `...`, whatever the length. */
  function LatestPreview(description: string): (r: string)
    ensures |description| <= LatestPreviewLength ==> r == description + "..."
    ensures |description| > LatestPreviewLength ==> r == description[..LatestPreviewLength] + "..."
    ensures |r| <= LatestPreviewLength + 3 && r[|r| - 3..] == "..."
  {
    var n := if |description| < LatestPreviewLength then |description| else LatestPreviewLength;
    description[..n] + "..."
  }

  function RecentCardOf(recent: seq<Expense>): (r: RecentCard)
    ensures r.NoRecentTransactions? <==> recent == []
    ensures r.RecentTransactions? ==> r.count == |recent| && r.latest == LatestPreview(recent[0].description)
  {
    if |recent| > 0 then RecentTransactions(|recent|, LatestPreview(recent[0].description))
    else NoRecentTransactions
  }

  /** The per-category table: present only for a non-empty breakdown, one row
      per entry in breakdown order. */
  function CategoryTable(cb: seq<Bucket<string>>): (r: Option<seq<CategoryRow>>)
    ensures r.Some? <==> cb != []
    ensures r.Some? ==> |r.value| == |cb| && forall i :: 0 <= i < |cb| ==>
      r.value[i] == CategoryRow(cb[i].id, cb[i].count, cb[i].total)
  {
    if |cb| > 0 then Some(seq(|cb|, i requires 0 <= i < |cb| => CategoryRow(cb[i].id, cb[i].count, cb[i].total)))
    else None
  }

  /** `if (!summary) return null`, then the four cards and the table. */
  function RenderSummary(summary: Option<SummaryBundle>): (r: SummaryView)
    ensures r.Nothing? <==> summary.None?
    ensures r.Cards? ==> var s := summary.value;
      && r.total == s.totalExpenses
      && r.top == TopCardOf(s.categoryBreakdown) && r.month == MonthCardOf(s.monthlyBreakdown)
      && r.recent == RecentCardOf(s.recentExpenses) && r.table == CategoryTable(s.categoryBreakdown)
  {
    match summary
    case None => Nothing
    case Some(s) =>
      Cards(s.totalExpenses, TopCardOf(s.categoryBreakdown), MonthCardOf(s.monthlyBreakdown),
            RecentCardOf(s.recentExpenses), CategoryTable(s.categoryBreakdown))
  }

  /** On the route's own bundle, the top card names the category with the
      largest total (and `-` only when nothing matched). */
  lemma TopCardShowsLargest(matched: seq<Expense>)
    ensures var cb := CategoryBreakdown(matched);
      var top := TopCardOf(cb);
      && (top.NoTopCategory? <==> matched == [])
      && (top.TopCategory? ==>
            && top.total == TotalFor(matched, CategoryOf, Amount, top.category)
            && forall b :: b in cb ==> b.total <= top.total)
  {
    var cb := CategoryBreakdown(matched);
    CategoryBreakdownSpec(matched);
    if matched != [] {
      assert Keys(matched, CategoryOf)[0] in Keys(matched, CategoryOf);
      assert cb != [];
      assert cb[0] in cb;
      forall b | b in cb ensures b.total <= cb[0].total {
        var j :| 0 <= j < |cb| && cb[j] == b;
        if j > 0 {
          assert cb[0].total >= cb[j].total;
        }
      }
    } else {
      assert Ids(cb) == [];
    }
  }

  /** On the route's own bundle, the this-month card labels the latest month in
      which anything matched, and shows that month's total. */
  lemma MonthCardShowsLatest(matched: seq<Expense>)
    ensures var mb := MonthlyBreakdown(matched);
      var card := MonthCardOf(mb);
      && (card.NoMonth? <==> matched == [])
      && (card.LatestMonth? ==>
            && card.heading == FormatMonth(mb[0].id)
            && card.total == TotalFor(matched, MonthOfExpense, Amount, mb[0].id)
            && mb[0].id in Keys(matched, MonthOfExpense)
            && forall e :: e in matched ==> LexLe(MonthOrder(MonthOf(e.date)), MonthOrder(mb[0].id)))
  {
    var mb := MonthlyBreakdown(matched);
    var keys := Keys(matched, MonthOfExpense);
    MonthlyBreakdownSpec(matched);
    if matched != [] {
      assert keys[0] in keys;
      assert mb != [];
      FirstIsLatest(mb, keys);
      forall e | e in matched ensures LexLe(MonthOrder(MonthOf(e.date)), MonthOrder(mb[0].id)) {
        var k :| 0 <= k < |matched| && matched[k] == e;
        assert keys[k] == MonthOf(e.date);
      }
    } else {
      assert forall m :: m !in keys;
    }
  }

  /** In a list of months that strictly decrease, the first is no earlier than
      any listed month. */
  lemma FirstIsLatest(mb: seq<Total<MonthKey>>, keys: seq<MonthKey>)
    requires mb != []
    requires forall m :: m in Keys(mb, TotalId) <==> m in keys
    requires forall i, j :: 0 <= i < j < |mb| ==> MonthBefore(mb[j].id, mb[i].id)
    ensures forall m :: m in keys ==> LexLe(MonthOrder(m), MonthOrder(mb[0].id))
  {
    forall m | m in keys ensures LexLe(MonthOrder(m), MonthOrder(mb[0].id)) {
      var j :| 0 <= j < |mb| && Keys(mb, TotalId)[j] == m;
      if j == 0 {
        LexLeReflexive(MonthOrder(m));
      } else {
        assert MonthBefore(mb[j].id, mb[0].id);
      }
    }
  }

  /** On the route's own bundle, the recent card counts the owner's records up
      to five, and says there are none only when the owner has none. */
  lemma RecentCardCounts(docs: seq<Expense>, owner: UserId)
    ensures var card := RecentCardOf(Recent(docs, owner));
      var n := |Filter(docs, OwnedSelector(owner))|;
      && (card.NoRecentTransactions? <==> n == 0)
      && (card.RecentTransactions? ==> card.count == if n < RecentLimit then n else RecentLimit)
  {
    RecentSpec(docs, owner);
  }
}
