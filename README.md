# Expense tracker: the expense routes, the expense schema and the dashboard, in Dafny

This project models the expense-tracking application's expense layer and
proves properties of that model:

- **Server side**, in `backend/routes/expenses.js` and `backend/models/Expense.js`:
  - the filter and sort documents of the list route;
  - the five aggregation pipelines of the summary route (total, category
    breakdown, monthly breakdown, daily breakdown, recent expenses);
  - the ownership-checked single-expense routes (read, create, update, delete);
  - the category list;
  - the expense schema: its `trim` setters, its defaults and its validators.
- **Client side**:
  - the add/edit form;
  - the expense table;
  - the summary cards;
  - the two charts;
  - the dashboard's filter, query-string and modal state.

## How the model is organised

Modules follow the program's files:

| module | file | what it models |
|---|---|---|
| `Ordering` | `ordering.dfy` | lexicographic keys; the stable sort that every `$sort`, `.sort()` and `Array.prototype.sort` becomes; filtering, sums and reversal |
| `Calendar` | `calendar.dfy` | dates as UTC calendar fields; the month and day keys of the `$group` stages |
| `JsText` | `js_text.dfy` | `trim()`, `/\s+/g` replacement, `toLowerCase()`, and number-to-text in template literals |
| `ExpenseSchema` | `expense_schema.dfy` | `Expense.js`, plus Mongoose's cast-then-validate order for `create` and for a validating `findByIdAndUpdate` |
| `ExpenseQuery` | `expense_query.dfy` | the list route and the category list |
| `Grouping` | `grouping.dfy` | the `$group` stage, with sums and counts |
| `SummaryPipelines` | `summary.dfy` | the summary route |
| `ExpenseStore` | `expense_store.dfy` | the single-document routes |
| `ExpenseFormModel` | `expense_form.dfy` | `ExpenseForm.js` |
| `ExpenseListView` | `expense_list_view.dfy` | `ExpenseList.js` |
| `SummaryCards` | `summary_cards.dfy` | `ExpenseSummary.js` |
| `ExpenseChartData` | `expense_chart.dfy` | `ExpenseChart.js` |
| `DashboardModel` | `dashboard.dfy` | `Dashboard.js` |

How the source's state becomes Dafny:

- **Stored documents.** The collection is a class `Store`:
  - a `map` from id to document;
  - a `seq` of ids in natural order;
  - the next id.

  `Documents()` is the sequence that `find` and `aggregate` scan.
- **Form and dashboard state.** Both are classes whose handlers are methods.
- **Query-string building.** The methods append conditionally, as the source does.
- **Aggregations and rendering.** Pure functions.

Two pieces of the environment become parameters:

- `new Date(text)` is the function `parse`.
- "thirty days ago" is the date `since`.

Amounts are integers (cents).

Four behaviours of the code that a reader might not expect:

- **Upper bound on the daily breakdown.** The code filters only on
  `date >= thirtyDaysAgo`, with no upper bound. Future-dated records are
  therefore included.
- **Owner on update.** The update route passes the request body to
  `findByIdAndUpdate` unchanged. A body that names a `user` therefore replaces
  the owner.
- **Partial updates.** Updates are partial: validators run only on the paths
  the body names.
- **Bundle field name.** The summary bundle's field is `totalExpenses`.

## Model

| member | source | states |
|---|---|---|
| Ordering.SortBy | backend/routes/expenses.js:33-35 | The result is a permutation of the input (same length and multiset), sorted ascending by the key. |
| Ordering.Filter | backend/routes/expenses.js:33 | Keeps exactly the elements that satisfy the predicate, each as many times as it occurs. |
| Ordering.SumOfSortBy | backend/routes/expenses.js:81 | Sorting does not change a sum. |
| Ordering.SortByDistinct | backend/routes/expenses.js:81 | Sorting keeps distinct identities distinct. |
| Ordering.NegatedFlips | backend/routes/expenses.js:28 | A descending sort (`-1`) is the ascending order of negated keys. |
| Calendar.DayOfMonotone | backend/routes/expenses.js:107-112 | A date no earlier than another never falls on an earlier `%Y-%m-%d` day. |
| Calendar.StartOfDay | client/src/components/ExpenseForm.js:20-22 | The date part of `toISOString()` keeps the calendar day and drops the time of day. |
| JsText.TrimSpec | backend/models/Expense.js:17 | `trim` keeps a contiguous part of the text. It removes only whitespace around that part and leaves no whitespace at either end. |
| JsText.TrimIdempotent | backend/models/Expense.js:46 | Trimming twice is trimming once. |
| JsText.TrimEmptyIffBlank | client/src/components/ExpenseForm.js:46 | `!description.trim()` holds exactly when the text is all whitespace. |
| JsText.TrimmedIffFixed | backend/models/Expense.js:17 | A text is trimmed exactly when `trim` leaves it unchanged, and `trim`'s result is always trimmed. |
| JsText.HyphenateWhitespace | client/src/components/ExpenseList.js:21 | `replace(/\s+/g, '-')` leaves no whitespace. |
| JsText.HyphenateRun | client/src/components/ExpenseList.js:21 | A whitespace run of any length between non-whitespace becomes exactly one `-`. |
| JsText.HyphenateNoWhitespace | client/src/components/ExpenseList.js:21 | Text without whitespace passes through the replacement unchanged. |
| JsText.NatToStringRoundTrip | client/src/components/ExpenseSummary.js:16 | The decimal text of a year reads back as that year. |
| JsText.IntToStringInjective | client/src/components/ExpenseSummary.js:16 | Different numbers print differently. |
| ExpenseSchema.ViolationsEmptyIff | backend/models/Expense.js:3-53 | Validating a new document reports nothing exactly when every path passes: owner set; amount present and at least 0; description present, non-empty and at most 200 characters; category one of the 13 labels; date present; notes at most 500 characters. |
| ExpenseSchema.EmptyIsNotACategory | backend/models/Expense.js:20-37 | The empty string is not an enum label, so `required` and `enum` never disagree about it. |
| ExpenseSchema.JoinViolations | backend/routes/expenses.js:189-193 | The error text is empty exactly when nothing failed. One violation gives exactly its `path: message`. The text begins with the first violation's entry. |
| ExpenseSchema.JoinViolationsConcat | backend/routes/expenses.js:189-193 | Joining two non-empty runs of violations gives the two texts with `, ` between them. With the one-violation case, this means every failing path's `path: message` appears, in order, separated by `, `. |
| ExpenseSchema.ValidationMessage | backend/routes/expenses.js:228-233 | The 500 message is `Expense validation failed: ` on create and `Validation failed: ` on update, followed by the joined violations. |
| ExpenseSchema.Create | backend/models/Expense.js:3-53 | `create` succeeds exactly when the raw body is acceptable (stated on the untrimmed input). The document is schema-valid. Its description and notes are trimmed. Its `date` and `createdAt` are the body's when given and now otherwise. Each other field is the body's. On failure it returns the non-empty list of failing paths. |
| ExpenseSchema.UpdateViolationsEmptyIff | backend/routes/expenses.js:219-222 | A validating update reports nothing exactly when every path the body names passes. |
| ExpenseSchema.Update | backend/routes/expenses.js:219-222 | The update succeeds exactly when the named paths pass. Given fields replace the stored ones (strings trimmed), `createdAt` included. The id and every field the body leaves out are kept. Updating a valid document yields a valid document. On failure it returns the failing paths. |
| ExpenseQuery.BuildMatchQuery | backend/routes/expenses.js:55-63 | The filter holds the owner. It holds a date clause exactly when either bound is non-empty. It matches exactly the owner's records inside the inclusive bounds that were supplied. |
| ExpenseQuery.BuildListQuery | backend/routes/expenses.js:11-25 | As above, plus category equality exactly when a non-empty category is given. |
| ExpenseQuery.SortOptionFor | backend/routes/expenses.js:27-31 | `oldest` gives date ascending, `amount-high` amount descending, `amount-low` amount ascending. Any other token, or none, gives date descending. |
| ExpenseQuery.SortKeyOrders | backend/routes/expenses.js:28-34 | The key order realises the sort document's field and direction. |
| ExpenseQuery.FindSpec | backend/routes/expenses.js:33-35 | `find(q).sort(o)` returns every matching document, as often as it is stored, with neighbours in the requested order. |
| ExpenseQuery.ListExpenses | backend/routes/expenses.js:9-41 | The list route returns exactly the owner's records in the window and category. They come in date or amount order according to the token, with newest first as the default. |
| ExpenseQuery.CategoryList | backend/routes/expenses.js:275-296 | The category list is the schema's enum, label for label: 13 labels, and a label is listed exactly when it is a category. |
| Grouping.GroupSummarises | backend/routes/expenses.js:74-80 | `$group` yields one bucket per key present and no key twice. Each bucket's total and count are those of the records with its key. |
| Grouping.GroupSums | backend/routes/expenses.js:74-80 | The bucket totals add up to the sum of the amounts, and the counts to the number of records. |
| Grouping.SortedSummarises | backend/routes/expenses.js:81 | Sorting the buckets keeps them a grouping of the same records, with the same sums. |
| SummaryPipelines.TotalExpenses | backend/routes/expenses.js:66-69 | `totalExpenses[0]?.total \|\| 0` is the sum of the matched amounts, and 0 when nothing matched. |
| SummaryPipelines.CategoryBreakdownSpec | backend/routes/expenses.js:72-82 | One entry per category present, each with its sum and count. Totals never increase down the list. They add up to the total, and the counts add up to the number of matched records. |
| SummaryPipelines.MonthlyBreakdownSpec | backend/routes/expenses.js:85-97 | One entry per month that has records, with its sum. Months strictly decrease, and the totals add up to the total. |
| SummaryPipelines.DailyBreakdownSpec | backend/routes/expenses.js:100-117 | One entry per day that has an owner's record since `since`, with its sum. Days strictly increase, and none is before the day of `since`. |
| SummaryPipelines.RecentSpec | backend/routes/expenses.js:120-122 | Returns min(5, n) of the owner's records, newest first. No record is kept more often than the owner's records hold it, so kept records are distinct stored records. Every owner's record left out is no newer than any that is kept. |
| SummaryPipelines.Summary | backend/routes/expenses.js:53-133 | The route's bundle is the five pipelines over the records the built match query selects. |
| SummaryPipelines.RangeIgnored | backend/routes/expenses.js:103-122 | The daily breakdown and the recent records do not depend on the requested range. |
| ExpenseStore.Without | backend/routes/expenses.js:258 | Removing an id from the natural order removes exactly its occurrences. |
| ExpenseStore.Store.Documents | backend/routes/expenses.js:33 | The scanned documents are the stored ones in natural order, and each satisfies the schema. |
| ExpenseStore.CreateOwned | backend/routes/expenses.js:181-183 | Forcing the owner to the requester and then creating succeeds exactly when the forced body is acceptable. The document keeps the given id and belongs to the requester. Its description and notes are the body's trimmed, `date` and `createdAt` are the body's or now, and amount and category are the body's. It is schema-valid. A failure returns every failing path of the forced body, and at least one. |
| ExpenseStore.Store.CreateExpense | backend/routes/expenses.js:179-195 | The owner is set to the requester whatever the body says. Success holds exactly when that body is acceptable. The new document returned and stored under a fresh id is exactly the one `CreateOwned` builds, and no other document is added. A failure returns `CreateOwned`'s violations and changes nothing. |
| ExpenseStore.Store.GetExpense | backend/routes/expenses.js:145-167 | A missing id gives 404 before ownership is compared, then a foreign owner gives 401, else the document. |
| ExpenseStore.Store.UpdateExpense | backend/routes/expenses.js:200-227 | 404, then 401, then the validating update. The store changes only on success, and then only at that id. |
| ExpenseStore.Store.DeleteExpense | backend/routes/expenses.js:239-263 | 404, then 401. An authorised delete removes exactly that document and leaves every other id in place. |
| ExpenseFormModel.ErrorText | client/src/components/ExpenseForm.js:59 | Shows the server's message when there is a non-empty one, else `An error occurred`. |
| ExpenseFormModel.ExpenseForm.constructor | client/src/components/ExpenseForm.js:4-12 | Empty amount, description and notes; category `Food`; today's date; not loading; no error. |
| ExpenseFormModel.ExpenseForm.Prefill | client/src/components/ExpenseForm.js:14-26 | With an expense being edited, each field takes its value. An amount of 0 becomes empty, an empty category becomes `Food`, and missing notes become empty. Without one, nothing changes. |
| ExpenseFormModel.ExpenseForm.OnChange | client/src/components/ExpenseForm.js:30-35 | Only the named field changes. |
| ExpenseFormModel.ExpenseForm.HandleSubmit | client/src/components/ExpenseForm.js:37-63 | The error is cleared. The amount check comes before the description check. `onSubmit` receives the fields only when both pass, with `loading` set while it runs and cleared afterwards. A throw shows the server's message or the fallback. |
| ExpenseFormModel.CategoryOptions | client/src/components/ExpenseForm.js:65-79 | The select offers exactly the schema's enum. |
| ExpenseFormModel.FormAmountMeetsSchema | client/src/components/ExpenseForm.js:41 | Every amount the form lets through meets the schema's `min: 0`. |
| ExpenseFormModel.FormAcceptedPassesSchema | client/src/components/ExpenseForm.js:41-57 | The server accepts a submission that the form lets through, typed within the inputs' `maxLength` and with a category from the select, once the server has set the owner. |
| ExpenseFormModel.RejectionShownVerbatim | client/src/components/ExpenseForm.js:59 | A validation failure reaches the form as its own message, never the fallback. |
| ExpenseListView.CategoryClass | client/src/components/ExpenseList.js:20-22 | The class is `category ` followed by a slug with no whitespace and no capitals. |
| ExpenseListView.DiningOutClass | client/src/components/ExpenseList.js:20-22 | `Dining Out` gets the class `category dining-out`. |
| ExpenseListView.OneWordClass | client/src/components/ExpenseList.js:20-22 | A label without whitespace is only lower-cased. |
| ExpenseListView.NotesPreview | client/src/components/ExpenseList.js:53-55 | Notes over 50 characters show their first 50 followed by `...`. Shorter notes show unchanged. |
| ExpenseListView.NotesLine | client/src/components/ExpenseList.js:51-57 | There is no notes line exactly when notes are absent or empty. |
| ExpenseListView.RowOf | client/src/components/ExpenseList.js:46-83 | A row is keyed by the expense id and shows its fields and category class. The edit button hands back the expense and the delete button its id. |
| ExpenseListView.RenderList | client/src/components/ExpenseList.js:24-47 | A missing or empty list gives `No expenses found`. Otherwise there is one row per expense, in the given order: each row is that expense's `RowOf`, keyed by its id and editing that expense. |
| SummaryCards.FormatMonthInjective | client/src/components/ExpenseSummary.js:11-17 | Different valid months get different labels. |
| SummaryCards.SplitAtSpace | client/src/components/ExpenseSummary.js:16 | A `name year` label splits back into its name and year. |
| SummaryCards.TopCardOf | client/src/components/ExpenseSummary.js:33-43 | Shows `-` exactly when the breakdown is empty, else the first category and its total. |
| SummaryCards.MonthCardOf | client/src/components/ExpenseSummary.js:51-61 | Shows `-` exactly when the breakdown is empty, else the first month's label and total. |
| SummaryCards.LatestPreview | client/src/components/ExpenseSummary.js:75 | Shows at most the first 20 characters of the description, always followed by `...`. |
| SummaryCards.RecentCardOf | client/src/components/ExpenseSummary.js:69-79 | Shows `No recent transactions` exactly when the list is empty, else the count and the latest description's preview. |
| SummaryCards.CategoryTable | client/src/components/ExpenseSummary.js:84-117 | The table appears exactly when the breakdown is non-empty, with one row per entry in breakdown order. |
| SummaryCards.RenderSummary | client/src/components/ExpenseSummary.js:19-26 | A missing summary renders nothing. Otherwise the total and the four cards are read off the bundle. |
| SummaryCards.TopCardShowsLargest | client/src/components/ExpenseSummary.js:33-43 | On the route's bundle, the top card shows the category with the largest total, and `-` only when nothing matched. |
| SummaryCards.MonthCardShowsLatest | client/src/components/ExpenseSummary.js:51-61 | On the route's bundle, the month card shows the latest month that has matched records, and that month's total. |
| SummaryCards.RecentCardCounts | client/src/components/ExpenseSummary.js:69-79 | On the route's bundle, the recent card counts min(5, n) of the owner's records and is empty only for an owner without records. |
| ExpenseChartData.ChronologicalMonths | client/src/components/ExpenseChart.js:106-109 | Sorting latest first and then reversing gives a permutation of the breakdown, earliest month first. |
| ExpenseChartData.ChronologicalStrict | client/src/components/ExpenseChart.js:106-109 | Distinct months come out strictly increasing. |
| ExpenseChartData.RenderCharts | client/src/components/ExpenseChart.js:33-37 | There are no charts exactly when the category breakdown is empty. Pie labels and data are the ids and totals. Bar labels and data have one entry per month, in chronological order. |
| ExpenseChartData.BarLabelInjective | client/src/components/ExpenseChart.js:101-114 | `monthNames[m-1] + ' ' + year` differs for different valid months. |
| ExpenseChartData.BarsIncreaseOnRouteData | client/src/components/ExpenseChart.js:106-118 | On the route's breakdown, the bars run through distinct months, strictly increasing. |
| ExpenseChartData.BarsCoverRouteMonths | client/src/components/ExpenseChart.js:106-118 | On the route's breakdown, there is a bar for exactly the months that have matched records. |
| DashboardModel.WithFilter | client/src/components/Dashboard.js:102-107 | `{ ...filters, [name]: value }` replaces exactly the named control's value. |
| DashboardModel.Lookup | client/src/components/Dashboard.js:29 | `params.get(name)` is absent exactly when no pair has that name. Otherwise it is the value of the first pair with that name. |
| DashboardModel.ListParams | client/src/components/Dashboard.js:23-27 | Appends `startDate`, `endDate`, `category` and `sort`, in that order, each only when non-empty. Each reads back as the control's value. |
| DashboardModel.SummaryParams | client/src/components/Dashboard.js:38-40 | Appends only the two dates, each only when non-empty. Category and sort are never sent. |
| DashboardModel.FetchExpenses | client/src/components/Dashboard.js:21-34 | The list shows exactly the records the controls select, in the order the sort control asks for. On the default filters (`''`, `''`, `''`, `newest`) that is all the owner's records, newest first. |
| DashboardModel.FetchSummary | client/src/components/Dashboard.js:36-47 | The summary is the route's bundle for the two date controls alone. |
| DashboardModel.Dashboard.constructor | client/src/components/Dashboard.js:12-19 | Default filters, the modal closed, and nothing being edited. |
| DashboardModel.Dashboard.HandleFilterChange | client/src/components/Dashboard.js:102-107 | Exactly one filter changes. The modal state is kept. |
| DashboardModel.Dashboard.OpenAddModal | client/src/components/Dashboard.js:138-143 | Opens the modal and changes nothing else. |
| DashboardModel.Dashboard.HandleEdit | client/src/components/Dashboard.js:92-95 | The expense becomes the one being edited, and the modal opens. |
| DashboardModel.Dashboard.HandleCloseModal | client/src/components/Dashboard.js:97-100 | The modal closes and nothing is being edited. |
| DashboardModel.Dashboard.Submit | client/src/components/Dashboard.js:58-79 | Submits a PUT to the edited expense's id, or a POST when nothing is being edited. Success closes the modal and clears the edit. Failure leaves the state alone. The invariant (an edit only inside the open modal) holds throughout. |
| DashboardModel.DeleteRequest | client/src/components/Dashboard.js:81-85 | The delete request is sent exactly when the user confirms, and names the given id. |

## Left out

- **HTTP plumbing.**
  - Express routing, the `protect` middleware and the JSON envelopes are not
    modelled; the `count` of the list response is one of them.
  - The requester is a `UserId` parameter.
  - The summary's aggregate `$match` stages (backend/routes/expenses.js:57,
    105-106) compare the stored `ObjectId` in `user` with the string
    `req.user.id`. Mongoose does not cast aggregation pipelines, so as written
    these stages match no document and every aggregated summary is empty. The
    model instead takes them to select the requester's documents, as the
    casting `find` queries do.
- **Store internals.** `ObjectId` generation and casting are out:
  - ids are natural numbers handed out by `nextId`;
  - a malformed id, which the server answers with a `CastError` 500, is not
    modelled;
  - the `collation` of the list query is not modelled.
- **Dates.**
  - `new Date(text)` is the total function `parse`.
  - "thirty days ago" (`setDate(getDate() - 30)`) is the date `since`.
  - Dates are UTC calendar fields whose order is lexicographic. Calendar
    validity, time zones and `toISOString` are not modelled.
- **Numbers.**
  - Amounts are integers (cents), not floating-point numbers. The form's
    `parseFloat` becomes the amount field holding a number.
  - Currency and date formatting (`Intl.NumberFormat`, `toLocaleDateString`) are
    not modelled.
  - The category table's percentage (`toFixed(1)` of a float division) is not
    modelled.
- **Text.**
  - `toLowerCase` is modelled for ASCII letters only.
  - Lengths count code points, where JavaScript counts UTF-16 units.
- **Tie order.** Ties in a sort are kept in input order (a stable sort). The
  store's order among equal keys is not claimed.
- **Unset and null values.**
  - A body field is present or absent; explicit `null` values and unknown
    fields are not modelled.
  - Mongoose's error order across paths is taken to be schema order.
- **Effects and rendering.**
  - Network requests, `await`, concurrency between the summary pipelines and
    React re-rendering are out. Each handler is modelled as its state change.
  - The outcome of `onSubmit` and the user's `window.confirm` answer are
    parameters.
  - Loading screens, chart colours and options, and the page refresh after a
    write are not modelled.
- **Not in this model.** `AuthContext.js` and `Navbar.js`.
- **ExpenseSchema.Create**: a body that names `_id` is not modelled. The new
  document's id always comes from the store.
- **ExpenseSchema.Update**: a body that names `_id` is not modelled. The library
  refuses any change to that immutable path.
- **ExpenseChartData.RenderCharts**: takes the breakdowns as lists.
  - An undefined `categoryBreakdown` would fail at `categoryBreakdown.map`
    before the guard on line 154.
  - The dashboard passes the summary's breakdowns only when a summary exists.
- **ExpenseFormModel.ExpenseForm.Prefill**: a stored expense always has a
  date, so the branch that falls back to today is not modelled.
