/** The two dashboard charts: the category pie, read straight off the category
    breakdown, and the monthly bar chart, whose months are put in chronological
    order on a copy of the monthly breakdown. */
module ExpenseChartData {
  import opened Ordering
  import opened Calendar
  import opened JsText
  import opened Grouping
  import opened ExpenseSchema
  import opened SummaryPipelines
  import opened SummaryCards

  const ShortMonthNames: seq<string> := [
    "Jan", "Feb", "Mar", "Apr", "May", "Jun",
    "Jul", "Aug", "Sep", "Oct", "Nov", "Dec"
  ]

  /** `monthNames[month - 1]`: a name for months 1 to 12, `undefined` otherwise. */
  function ShortMonthName(month: int): (r: string)
    ensures 1 <= month <= 12 ==> r == ShortMonthNames[month - 1]
    ensures !(1 <= month <= 12) ==> r == "undefined"
  {
    if 1 <= month <= 12 then ShortMonthNames[month - 1] else "undefined"
  }

  /** `${monthNames[month - 1]} ${year}`. */
  function BarLabel(k: MonthKey): string
  {
    ShortMonthName(k.month) + " " + IntToString(k.year)
  }

  lemma ShortMonthNamesNoSpace(m: int)
    requires 1 <= m <= 12
    ensures NoSpace(ShortMonthNames[m - 1])
  {
  }

  lemma ShortMonthNamesDistinct(m: int, n: int)
    requires 1 <= m <= 12 && 1 <= n <= 12 && m != n
    ensures ShortMonthNames[m - 1] != ShortMonthNames[n - 1]
  {
  }

  /** Different months get different bar labels. */
  lemma BarLabelInjective(a: MonthKey, b: MonthKey)
    requires 1 <= a.month <= 12 && 1 <= b.month <= 12
    requires BarLabel(a) == BarLabel(b)
    ensures a == b
  {
    ShortMonthNamesNoSpace(a.month);
    ShortMonthNamesNoSpace(b.month);
    SplitAtSpace(ShortMonthName(a.month), IntToString(a.year), ShortMonthName(b.month), IntToString(b.year));
    if a.month != b.month {
      ShortMonthNamesDistinct(a.month, b.month);
    }
    IntToStringInjective(a.year, b.year);
  }

  /** The comparator `b.year - a.year`, then `b.month - a.month`: latest first. */
  function LatestFirst(t: Total<MonthKey>): seq<int> { Negated(MonthOrder(t.id)) }

  /** `[...monthlyBreakdown].sort(latest first).reverse()`: the same entries,
      earliest month first. */
  function ChronologicalMonths(mb: seq<Total<MonthKey>>): (r: seq<Total<MonthKey>>)
    ensures |r| == |mb| && multiset(r) == multiset(mb)
    ensures forall i, j :: 0 <= i < j < |r| ==> LexLe(MonthOrder(r[i].id), MonthOrder(r[j].id))
  {
    var latest := SortBy(mb, LatestFirst);
    ReversedPermutes(latest);
    ReversedAscending(latest);
    Reversed(latest)
  }

  /** Reversing a latest-first list gives an earliest-first one. */
  lemma ReversedAscending(latest: seq<Total<MonthKey>>)
    requires SortedBy(latest, LatestFirst)
    ensures var r := Reversed(latest);
      forall i, j :: 0 <= i < j < |r| ==> LexLe(MonthOrder(r[i].id), MonthOrder(r[j].id))
  {
    var r := Reversed(latest);
    var n := |latest|;
    forall i, j | 0 <= i < j < |r| ensures LexLe(MonthOrder(r[i].id), MonthOrder(r[j].id)) {
      SortedByPairs(latest, LatestFirst, n - 1 - j, n - 1 - i);
      NegatedFlips(MonthOrder(latest[n - 1 - j].id), MonthOrder(latest[n - 1 - i].id));
    }
  }

  /** What the component renders: nothing, or both charts' labels and data. */
  datatype ChartView =
    | NoCharts
    | Charts(pieLabels: seq<string>, pieData: seq<int>, barLabels: seq<string>, barData: seq<int>)

  /** Nothing for an empty category breakdown; otherwise the pie's slices in
      breakdown order and one bar per month, earliest first. */
  function RenderCharts(cb: seq<Bucket<string>>, mb: seq<Total<MonthKey>>): (r: ChartView)
    ensures r.NoCharts? <==> cb == []
    ensures r.Charts? ==>
      && |r.pieLabels| == |r.pieData| == |cb|
      && (forall i :: 0 <= i < |cb| ==> r.pieLabels[i] == cb[i].id && r.pieData[i] == cb[i].total)
    ensures r.Charts? ==> var months := ChronologicalMonths(mb);
      && |r.barLabels| == |r.barData| == |mb|
      && (forall i :: 0 <= i < |mb| ==>
            r.barLabels[i] == BarLabel(months[i].id) && r.barData[i] == months[i].total)
  {
    if |cb| == 0 then NoCharts
    else
      var months := ChronologicalMonths(mb);
      Charts(seq(|cb|, i requires 0 <= i < |cb| => cb[i].id),
             seq(|cb|, i requires 0 <= i < |cb| => cb[i].total),
             seq(|months|, i requires 0 <= i < |months| => BarLabel(months[i].id)),
             seq(|months|, i requires 0 <= i < |months| => months[i].total))
  }

  /** Chronological order lists distinct months in strictly increasing order. */
  lemma ChronologicalStrict(mb: seq<Total<MonthKey>>)
    requires DistinctBy(mb, TotalId)
    ensures var r := ChronologicalMonths(mb);
      forall i, j :: 0 <= i < j < |r| ==> MonthBefore(r[i].id, r[j].id)
  {
    var latest := SortBy(mb, LatestFirst);
    SortByDistinct(mb, LatestFirst, TotalId);
    var r := ChronologicalMonths(mb);
    var n := |r|;
    forall i, j | 0 <= i < j < |r| ensures MonthBefore(r[i].id, r[j].id) {
      assert r[i] == latest[n - 1 - i] && r[j] == latest[n - 1 - j];
      assert TotalId(latest[n - 1 - j]) != TotalId(latest[n - 1 - i]);
    }
  }

  /** Reordering keeps the set of ids. */
  lemma PermutedIds<K>(a: seq<Total<K>>, b: seq<Total<K>>)
    requires multiset(a) == multiset(b)
    ensures forall k :: k in Keys(a, TotalId) ==> k in Keys(b, TotalId)
  {
    forall k | k in Keys(a, TotalId) ensures k in Keys(b, TotalId) {
      var i :| 0 <= i < |a| && Keys(a, TotalId)[i] == k;
      assert a[i] in multiset(b);
      var j :| 0 <= j < |b| && b[j] == a[i];
      assert Keys(b, TotalId)[j] == k;
    }
  }

  /** Strictly decreasing months are distinct. */
  lemma DecreasingDistinct(mb: seq<Total<MonthKey>>)
    requires forall i, j :: 0 <= i < j < |mb| ==> MonthBefore(mb[j].id, mb[i].id)
    ensures DistinctBy(mb, TotalId)
  {
    forall i, j | 0 <= i < j < |mb| ensures TotalId(mb[i]) != TotalId(mb[j]) {
      assert MonthBefore(mb[j].id, mb[i].id);
    }
  }

  /** On the route's own breakdown, the bars run through distinct months,
      earliest first. */
  lemma BarsIncreaseOnRouteData(matched: seq<Expense>)
    ensures var months := ChronologicalMonths(MonthlyBreakdown(matched));
      forall i, j :: 0 <= i < j < |months| ==> MonthBefore(months[i].id, months[j].id)
  {
    var mb := MonthlyBreakdown(matched);
    MonthlyBreakdownSpec(matched);
    DecreasingDistinct(mb);
    ChronologicalStrict(mb);
  }

  /** On the route's own breakdown, there is a bar for exactly the months that
      have matched expenses. */
  lemma BarsCoverRouteMonths(matched: seq<Expense>)
    ensures forall m :: m in Keys(ChronologicalMonths(MonthlyBreakdown(matched)), TotalId)
                    <==> m in Keys(matched, MonthOfExpense)
  {
    var mb := MonthlyBreakdown(matched);
    var months := ChronologicalMonths(mb);
    MonthlyBreakdownSpec(matched);
    PermutedIds(months, mb);
    PermutedIds(mb, months);
  }
}
