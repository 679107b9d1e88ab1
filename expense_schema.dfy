/** The expense document and its schema: the fields, the `trim` setters, the
    `date` and `createdAt` defaults, and the validators (`required`, `min`,
    `maxlength`, `enum`) that `Expense.create` and a validating
    `findByIdAndUpdate` run. */
module ExpenseSchema {
  import opened Wrappers
  import opened Calendar
  import opened JsText

  type UserId = nat
  type ExpenseId = nat

  /** A stored expense document. Amounts are in cents; absent notes are `None`. */
  datatype Expense = Expense(
    id: ExpenseId,
    user: UserId,
    amount: int,
    description: string,
    category: string,
    date: Date,
    notes: Option<string>,
    createdAt: Date)

  /** A request body as it reaches the model: any field may be missing. */
  datatype ExpenseBody = ExpenseBody(
    user: Option<UserId>,
    amount: Option<int>,
    description: Option<string>,
    category: Option<string>,
    date: Option<Date>,
    notes: Option<string>,
    createdAt: Option<Date>)

  /** The closed set of category labels, in declaration order. */
  const CategoryEnum: seq<string> := [
    "Food", "Transportation", "Utilities", "Entertainment", "Shopping",
    "Healthcare", "Education", "Travel", "Groceries", "Dining Out",
    "Subscriptions", "Insurance", "Other"
  ]

  /** The `enum` validator of `category`. */
  predicate IsCategory(c: string)
  {
    c in CategoryEnum
  }

  const MaxDescriptionLength := 200
  const MaxNotesLength := 500

  /** A document after casting (setters applied, defaults filled), before validation. */
  datatype Draft = Draft(
    user: Option<UserId>,
    amount: Option<int>,
    description: Option<string>,
    category: Option<string>,
    date: Option<Date>,
    notes: Option<string>,
    createdAt: Date)

  /** The first failing validator of one path. */
  datatype Violation =
    | UserRequired
    | AmountRequired
    | AmountBelowMinimum
    | DescriptionRequired
    | DescriptionTooLong
    | CategoryRequired
    | CategoryNotInEnum(value: string)
    | DateRequired
    | NotesTooLong

  function PathOf(v: Violation): string
  {
    match v
    case UserRequired => "user"
    case AmountRequired | AmountBelowMinimum => "amount"
    case DescriptionRequired | DescriptionTooLong => "description"
    case CategoryRequired | CategoryNotInEnum(_) => "category"
    case DateRequired => "date"
    case NotesTooLong => "notes"
  }

  /** The schema's own messages, and the library's default ones where the
      schema gives none (`user` required, `category` enum). */
  function MessageOf(v: Violation): string
  {
    match v
    case UserRequired => "Path `user` is required."
    case AmountRequired => "Please add an amount"
    case AmountBelowMinimum => "Amount must be positive"
    case DescriptionRequired => "Please add a description"
    case DescriptionTooLong => "Description cannot be more than 200 characters"
    case CategoryRequired => "Please add a category"
    case CategoryNotInEnum(c) => "`" + c + "` is not a valid enum value for path `category`."
    case DateRequired => "Please add a date"
    case NotesTooLong => "Notes cannot be more than 500 characters"
  }

  /** One entry of a validation message: `path: message`. */
  function Entry(v: Violation): string
  {
    PathOf(v) + ": " + MessageOf(v)
  }

  /** `path: message` for each violation, joined by `, `. */
  function JoinViolations(vs: seq<Violation>): (r: string)
    ensures vs == [] <==> r == ""
    ensures |vs| == 1 ==> r == Entry(vs[0])
    ensures vs != [] ==> |r| >= |Entry(vs[0])| && r[..|Entry(vs[0])|] == Entry(vs[0])
  {
    if vs == [] then ""
    else
      var first := Entry(vs[0]);
      var r := if |vs| == 1 then first else first + ", " + JoinViolations(vs[1..]);
      assert r[..|first|] == first;
      r
  }

  /** Joining two runs of violations is joining each and putting `, ` between:
      with the one-entry case, this says that every entry appears, in order,
      with `, ` between neighbours and nothing else. */
  lemma {:induction false} JoinViolationsConcat(a: seq<Violation>, b: seq<Violation>)
    requires a != [] && b != []
    ensures JoinViolations(a + b) == JoinViolations(a) + ", " + JoinViolations(b)
  {
    assert (a + b)[0] == a[0];
    if |a| == 1 {
      assert (a + b)[1..] == b;
    } else {
      assert (a + b)[1..] == a[1..] + b;
      JoinViolationsConcat(a[1..], b);
      var x, y, z := Entry(a[0]), JoinViolations(a[1..]), JoinViolations(b);
      assert x + ", " + (y + ", " + z) == (x + ", " + y) + ", " + z;
    }
  }

  const CreateFailurePrefix := "Expense validation failed: "
  const UpdateFailurePrefix := "Validation failed: "

  /** The text of a validation error, as the 500 response carries it:
      `Expense validation failed: ...` on create, `Validation failed: ...` on a
      validating update. */
  function ValidationMessage(onCreate: bool, vs: seq<Violation>): (r: string)
    ensures var prefix := if onCreate then CreateFailurePrefix else UpdateFailurePrefix;
      |r| >= |prefix| && r[..|prefix|] == prefix && r[|prefix|..] == JoinViolations(vs)
  {
    var prefix := if onCreate then CreateFailurePrefix else UpdateFailurePrefix;
    var r := prefix + JoinViolations(vs);
    assert r[..|prefix|] == prefix;
    r
  }

  function TrimmedField(s: Option<string>): Option<string>
  {
    match s
    case Some(t) => Some(Trim(t))
    case None => None
  }

  /** Casting a new document: strings trimmed, `date` and `createdAt` default to `now`. */
  function CastNew(body: ExpenseBody, now: Date): Draft
  {
    Draft(body.user, body.amount, TrimmedField(body.description), body.category,
          Some(body.date.GetOr(now)), TrimmedField(body.notes), body.createdAt.GetOr(now))
  }

  /** The `required` validator of `user`. */
  function UserCheck(u: Option<UserId>): seq<Violation>
  {
    if u.None? then [UserRequired] else []
  }

  /** `required`, then `min: 0`. */
  function AmountCheck(a: Option<int>): seq<Violation>
  {
    match a
    case None => [AmountRequired]
    case Some(x) => if x < 0 then [AmountBelowMinimum] else []
  }

  /** `required` (which refuses the empty string), then `maxlength: 200`. */
  function DescriptionCheck(s: Option<string>): seq<Violation>
  {
    match s
    case None => [DescriptionRequired]
    case Some(t) =>
      if t == "" then [DescriptionRequired]
      else if |t| > MaxDescriptionLength then [DescriptionTooLong]
      else []
  }

  /** `required`, then `enum`. */
  function CategoryCheck(c: Option<string>): seq<Violation>
  {
    match c
    case None => [CategoryRequired]
    case Some(t) =>
      if t == "" then [CategoryRequired]
      else if !IsCategory(t) then [CategoryNotInEnum(t)]
      else []
  }

  /** The `required` validator of `date`. */
  function DateCheck(d: Option<Date>): seq<Violation>
  {
    if d.None? then [DateRequired] else []
  }

  /** `maxlength: 500`; notes are optional. */
  function NotesCheck(n: Option<string>): seq<Violation>
  {
    match n
    case Some(t) => if |t| > MaxNotesLength then [NotesTooLong] else []
    case None => []
  }

  /** Every path's first failing validator, in the order the schema declares the
      paths: what `save` reports for a new document. */
  function Violations(d: Draft): seq<Violation>
  {
    UserCheck(d.user) + AmountCheck(d.amount) + DescriptionCheck(d.description)
    + CategoryCheck(d.category) + DateCheck(d.date) + NotesCheck(d.notes)
  }

  /** Update validators run only on the paths the body sets, after the same
      `trim` setters. */
  function UpdateViolations(body: ExpenseBody): seq<Violation>
  {
    (if body.amount.Some? then AmountCheck(body.amount) else [])
    + (if body.description.Some? then DescriptionCheck(TrimmedField(body.description)) else [])
    + (if body.category.Some? then CategoryCheck(body.category) else [])
    + NotesCheck(TrimmedField(body.notes))
  }

  /** A draft every validator accepts, stated path by path. */
  predicate DraftAccepted(d: Draft)
  {
    && d.user.Some?
    && d.amount.Some? && d.amount.value >= 0
    && d.description.Some? && 0 < |d.description.value| <= MaxDescriptionLength
    && d.category.Some? && IsCategory(d.category.value)
    && d.date.Some?
    && (d.notes.Some? ==> |d.notes.value| <= MaxNotesLength)
  }

  /** The empty string is not a category label, so `required` and `enum` never
      disagree. */
  lemma EmptyIsNotACategory()
    ensures !IsCategory("")
  {
  }

  /** Validation of a new document reports nothing exactly when every path is
      acceptable. */
  lemma ViolationsEmptyIff(d: Draft)
    ensures Violations(d) == [] <==> DraftAccepted(d)
  {
    EmptyIsNotACategory();
  }

  /** What every stored document satisfies. */
  predicate Valid(e: Expense)
  {
    && e.amount >= 0
    && IsTrimmed(e.description)
    && 0 < |e.description| <= MaxDescriptionLength
    && IsCategory(e.category)
    && (e.notes.Some? ==> IsTrimmed(e.notes.value) && |e.notes.value| <= MaxNotesLength)
  }

  /** A body the create path accepts, stated field by field on the raw input. */
  predicate AcceptableNew(body: ExpenseBody)
  {
    && body.user.Some?
    && body.amount.Some? && body.amount.value >= 0
    && body.description.Some? && 0 < |Trim(body.description.value)| <= MaxDescriptionLength
    && body.category.Some? && IsCategory(body.category.value)
    && (body.notes.Some? ==> |Trim(body.notes.value)| <= MaxNotesLength)
  }

  function Materialise(id: ExpenseId, d: Draft): Expense
    requires DraftAccepted(d)
  {
    Expense(id, d.user.value, d.amount.value, d.description.value, d.category.value,
            d.date.value, d.notes, d.createdAt)
  }

  /** Trimmed fields of a draft stay trimmed in the document. */
  lemma TrimmedFields(a: Option<string>, b: Option<string>)
    ensures a.Some? ==> IsTrimmed(Trim(a.value))
    ensures b.Some? ==> IsTrimmed(Trim(b.value))
  {
    if a.Some? { TrimmedIffFixed(a.value); }
    if b.Some? { TrimmedIffFixed(b.value); }
  }

  /** `Expense.create(body)`: the new document, or every path that failed. */
  function Create(body: ExpenseBody, id: ExpenseId, now: Date): (r: Result<Expense, seq<Violation>>)
    ensures r.Ok? <==> AcceptableNew(body)
    ensures r.Ok? ==> Valid(r.value)
    ensures r.Ok? ==> var e := r.value;
      && e.id == id && e.user == body.user.value && e.amount == body.amount.value
      && e.description == Trim(body.description.value) && e.category == body.category.value
      && e.date == body.date.GetOr(now) && e.notes == TrimmedField(body.notes)
      && e.createdAt == body.createdAt.GetOr(now)
    ensures r.Err? ==> r.error == Violations(CastNew(body, now)) && r.error != []
  {
    var d := CastNew(body, now);
    ViolationsEmptyIff(d);
    TrimmedFields(body.description, body.notes);
    if Violations(d) == [] then Ok(Materialise(id, d)) else Err(Violations(d))
  }

  /** A body a validating update accepts, stated for the paths it names. */
  predicate AcceptableUpdate(body: ExpenseBody)
  {
    && (body.amount.Some? ==> body.amount.value >= 0)
    && (body.description.Some? ==> 0 < |Trim(body.description.value)| <= MaxDescriptionLength)
    && (body.category.Some? ==> IsCategory(body.category.value))
    && (body.notes.Some? ==> |Trim(body.notes.value)| <= MaxNotesLength)
  }

  lemma UpdateViolationsEmptyIff(body: ExpenseBody)
    ensures UpdateViolations(body) == [] <==> AcceptableUpdate(body)
  {
    EmptyIsNotACategory();
  }

  /** `findByIdAndUpdate(id, body, { new: true, runValidators: true })` on one
      document: the body's fields replace the stored ones (strings trimmed), the
      rest is kept; or every named path that failed. */
  function Update(e: Expense, body: ExpenseBody): (r: Result<Expense, seq<Violation>>)
    ensures r.Ok? <==> AcceptableUpdate(body)
    ensures r.Ok? && Valid(e) ==> Valid(r.value)
    ensures r.Ok? ==> var u := r.value;
      && u.id == e.id && u.createdAt == body.createdAt.GetOr(e.createdAt)
      && u.user == body.user.GetOr(e.user)
      && u.amount == body.amount.GetOr(e.amount)
      && u.description == (if body.description.Some? then Trim(body.description.value) else e.description)
      && u.category == body.category.GetOr(e.category)
      && u.date == body.date.GetOr(e.date)
      && u.notes == (if body.notes.Some? then Some(Trim(body.notes.value)) else e.notes)
    ensures r.Err? ==> r.error == UpdateViolations(body) && r.error != []
  {
    UpdateViolationsEmptyIff(body);
    TrimmedFields(body.description, body.notes);
    if UpdateViolations(body) == [] then
      Ok(Expense(e.id, body.user.GetOr(e.user), body.amount.GetOr(e.amount),
                 if body.description.Some? then Trim(body.description.value) else e.description,
                 body.category.GetOr(e.category), body.date.GetOr(e.date),
                 if body.notes.Some? then Some(Trim(body.notes.value)) else e.notes,
                 body.createdAt.GetOr(e.createdAt)))
    else
      Err(UpdateViolations(body))
  }
}
