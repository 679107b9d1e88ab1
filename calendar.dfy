/** Dates as the store reports them: UTC calendar fields plus the time of day.
    The `$year`, `$month` and `%Y-%m-%d` projections of the summary pipelines are
    fields of the date, and chronological order is the lexicographic order of
    those fields. */
module Calendar {
  import opened Ordering

  /** An instant: year, month (1-12), day of the month and milliseconds into the day. */
  datatype Date = Date(year: int, month: int, day: int, millis: int)

  /** The key that orders dates chronologically. */
  function DateKey(d: Date): seq<int>
  {
    [d.year, d.month, d.day, d.millis]
  }

  /** `a` is not later than `b` (the `$lte`/`$gte` comparison on dates). */
  predicate NotAfter(a: Date, b: Date)
  {
    LexLe(DateKey(a), DateKey(b))
  }

  /** The `{ year: $year, month: $month }` group key of the monthly breakdown. */
  datatype MonthKey = MonthKey(year: int, month: int)

  /** The `%Y-%m-%d` group key of the daily breakdown; its order is that of the
      zero-padded text for four-digit years. */
  datatype DayKey = DayKey(year: int, month: int, day: int)

  function MonthOf(d: Date): MonthKey
  {
    MonthKey(d.year, d.month)
  }

  function DayOf(d: Date): DayKey
  {
    DayKey(d.year, d.month, d.day)
  }

  function MonthOrder(k: MonthKey): seq<int>
  {
    [k.year, k.month]
  }

  function DayOrder(k: DayKey): seq<int>
  {
    [k.year, k.month, k.day]
  }

  /** A later date never falls on an earlier day. */
  lemma DayOfMonotone(a: Date, b: Date)
    requires NotAfter(a, b)
    ensures LexLe(DayOrder(DayOf(a)), DayOrder(DayOf(b)))
  {
    LexLePrefix(DateKey(a), DateKey(b), 3);
    assert DateKey(a)[..3] == DayOrder(DayOf(a));
    assert DateKey(b)[..3] == DayOrder(DayOf(b));
  }

  /** The calendar day of `d` at midnight: what `toISOString().split('T')[0]`
      keeps of an instant, read back as a date. */
  function StartOfDay(d: Date): (r: Date)
    ensures DayOf(r) == DayOf(d) && r.millis == 0
  {
    d.(millis := 0)
  }
}
