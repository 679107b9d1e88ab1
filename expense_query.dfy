/** The `GET /api/expenses` route and the filter shared with the summary route:
    the filter document built field by field from the query string, the sort
    document picked from the `sort` token, and the records they select. */
module ExpenseQuery {
  import opened Wrappers
  import opened Ordering
  import opened Calendar
  import opened ExpenseSchema

  /** A query-string value takes effect only when present and non-empty, as a
      JavaScript truthiness test reads it. */
  predicate Given(p: Option<string>)
  {
    p.Some? && p.value != ""
  }

  /** The `date: { $gte, $lte }` part of a filter document. */
  datatype DateBounds = DateBounds(gte: Option<Date>, lte: Option<Date>)

  /** A filter document: the owner, optional date bounds, an optional category. */
  datatype Query = Query(user: UserId, date: Option<DateBounds>, category: Option<string>)

  predicate WithinBounds(b: DateBounds, d: Date)
  {
    && (b.gte.Some? ==> NotAfter(b.gte.value, d))
    && (b.lte.Some? ==> NotAfter(d, b.lte.value))
  }

  /** How the store reads a filter document: every field present must hold. */
  predicate Matches(q: Query, e: Expense)
  {
    && e.user == q.user
    && (q.date.Some? ==> WithinBounds(q.date.value, e.date))
    && (q.category.Some? ==> e.category == q.category.value)
  }

  function Matcher(q: Query): Expense -> bool
  {
    e => Matches(q, e)
  }

  /** The records a request may see, stated on the request itself: the
      requester's own, on or after `startDate` and on or before `endDate`, each
      bound only when supplied. `parse` stands for `new Date(...)`. */
  predicate InWindow(owner: UserId, startDate: Option<string>, endDate: Option<string>,
                     parse: string -> Date, e: Expense)
  {
    && e.user == owner
    && (Given(startDate) ==> NotAfter(parse(startDate.value), e.date))
    && (Given(endDate) ==> NotAfter(e.date, parse(endDate.value)))
  }

  /** What the list route selects: the window, and the category when given. */
  predicate ListSelects(owner: UserId, startDate: Option<string>, endDate: Option<string>,
                        category: Option<string>, parse: string -> Date, e: Expense)
  {
    InWindow(owner, startDate, endDate, parse, e) && (Given(category) ==> e.category == category.value)
  }

  /** The owner filter with optional inclusive date bounds, built as the summary
      route (and the list route before its category) builds it. */
  method BuildMatchQuery(owner: UserId, startDate: Option<string>, endDate: Option<string>,
                         parse: string -> Date) returns (q: Query)
    ensures q.user == owner && q.category.None?
    ensures q.date.Some? <==> Given(startDate) || Given(endDate)
    ensures forall e :: Matches(q, e) <==> InWindow(owner, startDate, endDate, parse, e)
  {
    q := Query(owner, None, None);
    if Given(startDate) || Given(endDate) {
      var bounds := DateBounds(None, None);
      if Given(startDate) {
        bounds := bounds.(gte := Some(parse(startDate.value)));
      }
      if Given(endDate) {
        bounds := bounds.(lte := Some(parse(endDate.value)));
      }
      q := q.(date := Some(bounds));
    }
  }

  /** The list route's filter: the match query, then the category when given. */
  method BuildListQuery(owner: UserId, startDate: Option<string>, endDate: Option<string>,
                        category: Option<string>, parse: string -> Date) returns (q: Query)
    ensures q.user == owner
    ensures q.category.Some? <==> Given(category)
    ensures forall e :: Matches(q, e) <==> ListSelects(owner, startDate, endDate, category, parse, e)
  {
    q := BuildMatchQuery(owner, startDate, endDate, parse);
    if Given(category) {
      q := q.(category := Some(category.value));
    }
  }

  datatype SortField = ByDate | ByAmount

  /** A sort document: one field, ascending (`1`) or descending (`-1`). */
  datatype SortOption = SortOption(field: SortField, ascending: bool)

  /** The `sort` token's sort document: newest first unless the token is one of
      the three the route recognises. */
  method SortOptionFor(sort: Option<string>) returns (o: SortOption)
    ensures sort == Some("oldest") ==> o == SortOption(ByDate, true)
    ensures sort == Some("amount-high") ==> o == SortOption(ByAmount, false)
    ensures sort == Some("amount-low") ==> o == SortOption(ByAmount, true)
    ensures sort != Some("oldest") && sort != Some("amount-high") && sort != Some("amount-low")
      ==> o == SortOption(ByDate, false)
  {
    o := SortOption(ByDate, false);
    if sort == Some("oldest") {
      o := SortOption(ByDate, true);
    }
    if sort == Some("amount-high") {
      o := SortOption(ByAmount, false);
    }
    if sort == Some("amount-low") {
      o := SortOption(ByAmount, true);
    }
  }

  function DateAscending(e: Expense): seq<int> { DateKey(e.date) }
  function DateDescending(e: Expense): seq<int> { Negated(DateKey(e.date)) }
  function AmountAscending(e: Expense): seq<int> { [e.amount] }
  function AmountDescending(e: Expense): seq<int> { [-e.amount] }

  /** The sort key that realises a sort document. */
  function SortKey(o: SortOption): Expense -> seq<int>
  {
    match o
    case SortOption(ByDate, true) => DateAscending
    case SortOption(ByDate, false) => DateDescending
    case SortOption(ByAmount, true) => AmountAscending
    case SortOption(ByAmount, false) => AmountDescending
  }

  /** `a` may come before `b` under the sort document. */
  predicate InOrder(o: SortOption, a: Expense, b: Expense)
  {
    match o
    case SortOption(ByDate, true) => NotAfter(a.date, b.date)
    case SortOption(ByDate, false) => NotAfter(b.date, a.date)
    case SortOption(ByAmount, true) => a.amount <= b.amount
    case SortOption(ByAmount, false) => a.amount >= b.amount
  }

  /** The key order is the order the sort document asks for. */
  lemma SortKeyOrders(o: SortOption, a: Expense, b: Expense)
    requires LexLe(SortKey(o)(a), SortKey(o)(b))
    ensures InOrder(o, a, b)
  {
    match o
    case SortOption(ByDate, true) =>
    case SortOption(ByDate, false) =>
      NegatedFlips(DateKey(a.date), DateKey(b.date));
    case SortOption(ByAmount, true) =>
      assert LexLe([a.amount], [b.amount]);
    case SortOption(ByAmount, false) =>
      assert LexLe([-a.amount], [-b.amount]);
  }

  /** `Expense.find(q).sort(o)` over the stored documents in natural order. */
  function Find(docs: seq<Expense>, q: Query, o: SortOption): seq<Expense>
  {
    SortBy(Filter(docs, Matcher(q)), SortKey(o))
  }

  /** The result holds exactly the matching documents, each as often as it is
      stored, in the order the sort document asks for. */
  lemma FindSpec(docs: seq<Expense>, q: Query, o: SortOption)
    ensures var r := Find(docs, q, o);
      && (forall e :: multiset(r)[e] == if Matches(q, e) then multiset(docs)[e] else 0)
      && (forall i, j :: 0 <= i < j < |r| ==> InOrder(o, r[i], r[j]))
  {
    var r := Find(docs, q, o);
    forall i, j | 0 <= i < j < |r| ensures InOrder(o, r[i], r[j]) {
      SortedByPairs(r, SortKey(o), i, j);
      SortKeyOrders(o, r[i], r[j]);
    }
  }

  /** `GET /api/expenses`: the filter and sort documents built from the query
      string, then the matching documents in that order. */
  method ListExpenses(docs: seq<Expense>, owner: UserId, startDate: Option<string>,
                      endDate: Option<string>, category: Option<string>, sort: Option<string>,
                      parse: string -> Date) returns (r: seq<Expense>)
    ensures forall e :: multiset(r)[e] == if ListSelects(owner, startDate, endDate, category, parse, e)
                                          then multiset(docs)[e] else 0
    ensures sort == Some("oldest") ==> forall i, j :: 0 <= i < j < |r| ==> NotAfter(r[i].date, r[j].date)
    ensures sort == Some("amount-high") ==> forall i, j :: 0 <= i < j < |r| ==> r[i].amount >= r[j].amount
    ensures sort == Some("amount-low") ==> forall i, j :: 0 <= i < j < |r| ==> r[i].amount <= r[j].amount
    ensures sort != Some("oldest") && sort != Some("amount-high") && sort != Some("amount-low")
      ==> forall i, j :: 0 <= i < j < |r| ==> NotAfter(r[j].date, r[i].date)
  {
    var q := BuildListQuery(owner, startDate, endDate, category, parse);
    var o := SortOptionFor(sort);
    r := Find(docs, q, o);
    FindSpec(docs, q, o);
  }

  /** The labels `GET /api/expenses/categories/list` serves: the schema's enum,
      label for label and in the same order. */
  function CategoryList(): (r: seq<string>)
    ensures r == CategoryEnum
    ensures |r| == 13 && forall c :: c in r <==> IsCategory(c)
  {
    [
      "Food", "Transportation", "Utilities", "Entertainment", "Shopping",
      "Healthcare", "Education", "Travel", "Groceries", "Dining Out",
      "Subscriptions", "Insurance", "Other"
    ]
  }
}
