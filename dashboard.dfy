/** The dashboard page: the filter state and the query strings it sends to the
    list and summary routes, and the modal state shared by the add and edit
    flows. */
module DashboardModel {
  import opened Wrappers
  import opened Calendar
  import opened ExpenseSchema
  import opened ExpenseQuery
  import opened SummaryPipelines

  /** The filter controls' values; `''` means not set. */
  datatype Filters = Filters(startDate: string, endDate: string, category: string, sort: string)

  const DefaultFilters := Filters("", "", "", "newest")

  /** The `name` of the control an `onChange` event comes from. */
  datatype FilterName = StartDateControl | EndDateControl | CategoryControl | SortControl

  /** `{ ...filters, [name]: value }`. */
  function WithFilter(f: Filters, name: FilterName, value: string): (r: Filters)
    ensures name == StartDateControl ==> r == Filters(value, f.endDate, f.category, f.sort)
    ensures name == EndDateControl ==> r == Filters(f.startDate, value, f.category, f.sort)
    ensures name == CategoryControl ==> r == Filters(f.startDate, f.endDate, value, f.sort)
    ensures name == SortControl ==> r == Filters(f.startDate, f.endDate, f.category, value)
  {
    match name
    case StartDateControl => f.(startDate := value)
    case EndDateControl => f.(endDate := value)
    case CategoryControl => f.(category := value)
    case SortControl => f.(sort := value)
  }

  /** A query string as `URLSearchParams` holds it: name/value pairs in order. */
  type Params = seq<(string, string)>

  /** `i` is the first position whose parameter is called `name`. */
  predicate FirstNamed(params: Params, name: string, i: int)
  {
    0 <= i < |params| && params[i].0 == name && forall j :: 0 <= j < i ==> params[j].0 != name
  }

  /** `params.get(name)`: the value of the first pair with that name. */
  function Lookup(params: Params, name: string): (r: Option<string>)
    ensures r.None? <==> forall i :: 0 <= i < |params| ==> params[i].0 != name
    ensures r.Some? ==> exists i :: FirstNamed(params, name, i) && params[i].1 == r.value
  {
    if params == [] then None
    else if params[0].0 == name then Some(params[0].1)
    else
      var r := Lookup(params[1..], name);
      assert forall i :: 1 <= i < |params| ==> params[i] == params[1..][i - 1];
      r
  }

  /** Appending a pair changes a lookup only when the name was absent. */
  lemma {:induction false} LookupSnoc(params: Params, pair: (string, string), name: string)
    ensures Lookup(params + [pair], name) ==
      if Lookup(params, name).Some? then Lookup(params, name)
      else if pair.0 == name then Some(pair.1) else None
    decreases |params|
  {
    if params != [] {
      assert (params + [pair])[1..] == params[1..] + [pair];
      LookupSnoc(params[1..], pair, name);
    }
  }

  /** The value a non-empty control sends; an empty one sends nothing. */
  function Sent(value: string): (r: Option<string>)
    ensures r.None? <==> value == ""
    ensures r.Some? ==> r.value == value
  {
    if value == "" then None else Some(value)
  }

  /** The position of a parameter name in the order the page appends them. */
  function ParamRank(name: string): int
  {
    if name == "startDate" then 0
    else if name == "endDate" then 1
    else if name == "category" then 2
    else if name == "sort" then 3
    else 4
  }

  /** Non-empty values, names in append order, every name ranked below `bound`. */
  predicate RankedBelow(params: Params, bound: int)
  {
    && (forall i :: 0 <= i < |params| ==> params[i].1 != "" && ParamRank(params[i].0) < bound)
    && (forall i, j :: 0 <= i < j < |params| ==> ParamRank(params[i].0) < ParamRank(params[j].0))
  }

  /** A name ranked at or above the bound is not among the parameters. */
  lemma AbsentAbove(params: Params, bound: int, name: string)
    requires RankedBelow(params, bound) && ParamRank(name) >= bound
    ensures Lookup(params, name).None?
  {
  }

  /** Appending the next-ranked parameter keeps the order and changes only its
      own lookup. */
  lemma AppendRanked(params: Params, bound: int, name: string, value: string)
    requires RankedBelow(params, bound) && ParamRank(name) == bound && value != ""
    ensures RankedBelow(params + [(name, value)], bound + 1)
    ensures Lookup(params + [(name, value)], name) == Some(value)
    ensures forall n :: n != name ==> Lookup(params + [(name, value)], n) == Lookup(params, n)
  {
    AbsentAbove(params, bound, name);
    LookupSnoc(params, (name, value), name);
    forall n | n != name ensures Lookup(params + [(name, value)], n) == Lookup(params, n) {
      LookupSnoc(params, (name, value), n);
    }
  }

  /** One conditional append: `if (value) params.append(name, value)`. */
  method AppendIfSet(params: Params, bound: int, name: string, value: string) returns (r: Params)
    requires RankedBelow(params, bound) && ParamRank(name) == bound
    ensures RankedBelow(r, bound + 1)
    ensures Lookup(r, name) == Sent(value)
    ensures forall n :: n != name ==> Lookup(r, n) == Lookup(params, n)
  {
    r := params;
    if value != "" {
      AppendRanked(params, bound, name, value);
      r := params + [(name, value)];
    } else {
      AbsentAbove(params, bound, name);
    }
  }

  /** The list request's parameters: `startDate`, `endDate`, `category` and
      `sort`, in that order, each only when its control is not empty. */
  method ListParams(f: Filters) returns (params: Params)
    ensures RankedBelow(params, 4)
    ensures Lookup(params, "startDate") == Sent(f.startDate)
    ensures Lookup(params, "endDate") == Sent(f.endDate)
    ensures Lookup(params, "category") == Sent(f.category)
    ensures Lookup(params, "sort") == Sent(f.sort)
  {
    params := [];
    params := AppendIfSet(params, 0, "startDate", f.startDate);
    params := AppendIfSet(params, 1, "endDate", f.endDate);
    params := AppendIfSet(params, 2, "category", f.category);
    params := AppendIfSet(params, 3, "sort", f.sort);
  }

  /** The summary request's parameters: only the two dates, each only when set. */
  method SummaryParams(f: Filters) returns (params: Params)
    ensures RankedBelow(params, 2)
    ensures Lookup(params, "startDate") == Sent(f.startDate)
    ensures Lookup(params, "endDate") == Sent(f.endDate)
    ensures Lookup(params, "category").None? && Lookup(params, "sort").None?
  {
    params := [];
    params := AppendIfSet(params, 0, "startDate", f.startDate);
    params := AppendIfSet(params, 1, "endDate", f.endDate);
    AbsentAbove(params, 2, "category");
    AbsentAbove(params, 2, "sort");
  }

  /** `fetchExpenses` against the list route: the records the controls select,
      in the order the sort control asks for; on the default filters, all of the
      owner's records, newest first. */
  method FetchExpenses(docs: seq<Expense>, owner: UserId, f: Filters, parse: string -> Date)
    returns (r: seq<Expense>)
    ensures forall e :: multiset(r)[e] ==
                        if ListSelects(owner, Sent(f.startDate), Sent(f.endDate), Sent(f.category), parse, e)
                        then multiset(docs)[e] else 0
    ensures f.sort == "oldest" ==> forall i, j :: 0 <= i < j < |r| ==> NotAfter(r[i].date, r[j].date)
    ensures f.sort == "amount-high" ==> forall i, j :: 0 <= i < j < |r| ==> r[i].amount >= r[j].amount
    ensures f.sort == "amount-low" ==> forall i, j :: 0 <= i < j < |r| ==> r[i].amount <= r[j].amount
    ensures f.sort != "oldest" && f.sort != "amount-high" && f.sort != "amount-low" ==>
      forall i, j :: 0 <= i < j < |r| ==> NotAfter(r[j].date, r[i].date)
    ensures f == DefaultFilters ==>
      (forall e :: multiset(r)[e] == if e.user == owner then multiset(docs)[e] else 0)
      && forall i, j :: 0 <= i < j < |r| ==> NotAfter(r[j].date, r[i].date)
  {
    var params := ListParams(f);
    r := ListExpenses(docs, owner, Lookup(params, "startDate"), Lookup(params, "endDate"),
                      Lookup(params, "category"), Lookup(params, "sort"), parse);
  }

  /** `fetchSummary` against the summary route: the category and sort controls
      play no part. */
  method FetchSummary(docs: seq<Expense>, owner: UserId, f: Filters, since: Date, parse: string -> Date)
    returns (s: SummaryBundle)
    ensures s == Bundle(docs, owner, Sent(f.startDate), Sent(f.endDate), since, parse)
  {
    var params := SummaryParams(f);
    s := Summary(docs, owner, Lookup(params, "startDate"), Lookup(params, "endDate"), since, parse);
  }

  /** Where the form's submission goes: a new expense, or the one being edited. */
  datatype Request = Post | Put(id: ExpenseId)

  class Dashboard {
    var filters: Filters
    var showModal: bool
    var editingExpense: Option<Expense>

    /** An expense is only ever being edited inside the open modal. */
    predicate Valid()
      reads this
    {
      editingExpense.Some? ==> showModal
    }

    constructor ()
      ensures Valid()
      ensures filters == DefaultFilters && !showModal && editingExpense.None?
    {
      filters := DefaultFilters;
      showModal := false;
      editingExpense := None;
    }

    /** `handleFilterChange`: exactly the named control's value changes. */
    method HandleFilterChange(name: FilterName, value: string)
      requires Valid()
      modifies this
      ensures Valid()
      ensures filters == WithFilter(old(filters), name, value)
      ensures showModal == old(showModal) && editingExpense == old(editingExpense)
    {
      filters := WithFilter(filters, name, value);
    }

    /** The add button: the modal opens on an empty form. */
    method OpenAddModal()
      requires Valid()
      modifies this
      ensures Valid()
      ensures showModal && editingExpense == old(editingExpense) && filters == old(filters)
    {
      showModal := true;
    }

    /** `handleEdit`: the modal opens on the expense. */
    method HandleEdit(expense: Expense)
      requires Valid()
      modifies this
      ensures Valid()
      ensures editingExpense == Some(expense) && showModal && filters == old(filters)
    {
      editingExpense := Some(expense);
      showModal := true;
    }

    /** `handleCloseModal`: the modal closes and nothing is being edited. */
    method HandleCloseModal()
      requires Valid()
      modifies this
      ensures Valid()
      ensures !showModal && editingExpense.None? && filters == old(filters)
    {
      showModal := false;
      editingExpense := None;
    }

    /** The form's `onSubmit`: an update of the expense being edited, else an
        add. `succeeded` says whether the request went through; a failure
        leaves the state alone (the error goes back to the form). */
    method Submit(succeeded: bool) returns (request: Request)
      requires Valid()
      modifies this
      ensures Valid()
      ensures request == (if old(editingExpense).Some? then Put(old(editingExpense).value.id) else Post)
      ensures succeeded ==> !showModal && editingExpense.None?
      ensures !succeeded ==> showModal == old(showModal) && editingExpense == old(editingExpense)
      ensures filters == old(filters)
    {
      if editingExpense.Some? {
        request := Put(editingExpense.value.id);
        if succeeded {
          showModal := false;
          editingExpense := None;
        }
      } else {
        request := Post;
        if succeeded {
          showModal := false;
        }
      }
    }
  }

  /** `handleDeleteExpense`: the id is sent only when the user confirms. */
  function DeleteRequest(id: ExpenseId, confirmed: bool): (r: Option<ExpenseId>)
    ensures r.Some? <==> confirmed
    ensures r.Some? ==> r.value == id
  {
    if confirmed then Some(id) else None
  }
}
