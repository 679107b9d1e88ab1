/** The add/edit expense form: its field state, the prefill from the expense
    being edited, field edits, and the submit handler's checks and state
    changes around the caller's `onSubmit`. */
module ExpenseFormModel {
  import opened Wrappers
  import opened Calendar
  import opened JsText
  import opened ExpenseSchema

  /** The amount input: empty, or a number of cents. */
  datatype AmountField = Blank | Entered(cents: int)

  /** One `onChange` event: the input's name and its new value. */
  datatype FieldUpdate =
    | SetAmount(amount: AmountField)
    | SetDescription(description: string)
    | SetCategory(category: string)
    | SetDate(date: Date)
    | SetNotes(notes: string)

  /** How the caller's `onSubmit` ended: it returned, or it threw with the
      server's `message`, when the response carried one. */
  datatype SubmitOutcome = Returned | Threw(message: Option<string>)

  /** What `onSubmit` receives: the form fields with the amount as a number. */
  datatype Submission = Submission(amount: int, description: string, category: string, date: Date, notes: string)

  /** `!amount || amount <= 0` fails. */
  predicate AmountAccepted(a: AmountField)
  {
    a.Entered? && a.cents > 0
  }

  /** `!description.trim()` fails. */
  predicate DescriptionAccepted(s: string)
  {
    Trim(s) != ""
  }

  const InvalidAmountMessage := "Please enter a valid amount"
  const BlankDescriptionMessage := "Please enter a description"
  const FallbackErrorMessage := "An error occurred"

  /** `err.response?.data?.message || 'An error occurred'`. */
  function ErrorText(message: Option<string>): (r: string)
    ensures r != ""
    ensures message.Some? && message.value != "" ==> r == message.value
    ensures message.None? || message.value == "" ==> r == FallbackErrorMessage
  {
    if message.Some? && message.value != "" then message.value else FallbackErrorMessage
  }

  class ExpenseForm {
    var amount: AmountField
    var description: string
    var category: string
    var date: Date
    var notes: string
    var loading: bool
    var error: string

    /** A fresh form: empty amount, description and notes, category `Food`, today's date. */
    constructor (now: Date)
      ensures amount == Blank && description == "" && category == "Food"
      ensures date == StartOfDay(now) && notes == ""
      ensures !loading && error == ""
    {
      amount := Blank;
      description := "";
      category := "Food";
      date := StartOfDay(now);
      notes := "";
      loading := false;
      error := "";
    }

    /** The effect on `initialData`: when an expense is being edited, each field
        takes its value, falsy ones falling back to the defaults. */
    method Prefill(initialData: Option<Expense>)
      modifies this
      ensures initialData.None? ==>
        amount == old(amount) && description == old(description) && category == old(category)
        && date == old(date) && notes == old(notes)
      ensures initialData.Some? ==> var e := initialData.value;
        && amount == (if e.amount == 0 then Blank else Entered(e.amount))
        && description == e.description
        && category == (if e.category == "" then "Food" else e.category)
        && date == StartOfDay(e.date)
        && notes == e.notes.GetOr("")
      ensures loading == old(loading) && error == old(error)
    {
      if initialData.Some? {
        var e := initialData.value;
        amount := if e.amount == 0 then Blank else Entered(e.amount);
        description := e.description;
        category := if e.category == "" then "Food" else e.category;
        date := StartOfDay(e.date);
        notes := e.notes.GetOr("");
      }
    }

    /** `onChange`: the named field takes the new value; nothing else changes. */
    method OnChange(u: FieldUpdate)
      modifies this
      ensures amount == (if u.SetAmount? then u.amount else old(amount))
      ensures description == (if u.SetDescription? then u.description else old(description))
      ensures category == (if u.SetCategory? then u.category else old(category))
      ensures date == (if u.SetDate? then u.date else old(date))
      ensures notes == (if u.SetNotes? then u.notes else old(notes))
      ensures loading == old(loading) && error == old(error)
    {
      match u
      case SetAmount(a) => amount := a;
      case SetDescription(s) => description := s;
      case SetCategory(c) => category := c;
      case SetDate(d) => date := d;
      case SetNotes(n) => notes := n;
    }

    /** `handleSubmit`: the error is cleared; the amount is checked, then the
        description; only then is `onSubmit` called, with `loading` set for its
        duration and cleared however it ends. `sent` is what `onSubmit` received,
        `busy` the value of `loading` while it ran. */
    method HandleSubmit(outcome: SubmitOutcome) returns (sent: Option<Submission>, busy: bool)
      modifies this
      ensures amount == old(amount) && description == old(description) && category == old(category)
      ensures date == old(date) && notes == old(notes)
      ensures !AmountAccepted(old(amount)) ==>
        sent.None? && error == InvalidAmountMessage && loading == old(loading)
      ensures AmountAccepted(old(amount)) && !DescriptionAccepted(old(description)) ==>
        sent.None? && error == BlankDescriptionMessage && loading == old(loading)
      ensures AmountAccepted(old(amount)) && DescriptionAccepted(old(description)) ==>
        && sent == Some(Submission(old(amount).cents, old(description), old(category), old(date), old(notes)))
        && busy && !loading
        && error == (match outcome case Returned => "" case Threw(m) => ErrorText(m))
    {
      sent, busy := None, loading;
      error := "";
      if !AmountAccepted(amount) {
        error := InvalidAmountMessage;
        return;
      }
      if !DescriptionAccepted(description) {
        error := BlankDescriptionMessage;
        return;
      }
      loading := true;
      sent, busy := Some(Submission(amount.cents, description, category, date, notes)), loading;
      match outcome {
        case Returned =>
        case Threw(m) => error := ErrorText(m);
      }
      loading := false;
    }
  }

  /** The options of the category select: the schema's enum, in order. */
  function CategoryOptions(): (r: seq<string>)
    ensures r == CategoryEnum
  {
    [
      "Food", "Transportation", "Utilities", "Entertainment", "Shopping",
      "Healthcare", "Education", "Travel", "Groceries", "Dining Out",
      "Subscriptions", "Insurance", "Other"
    ]
  }

  /** The create body the server receives from a submission. */
  function BodyOf(p: Submission): ExpenseBody
  {
    ExpenseBody(None, Some(p.amount), Some(p.description), Some(p.category), Some(p.date), Some(p.notes), None)
  }

  /** Every amount the form lets through is one the schema accepts. */
  lemma FormAmountMeetsSchema(a: AmountField)
    requires AmountAccepted(a)
    ensures AmountCheck(Some(a.cents)) == []
  {
  }

  /** A submission the form lets through, typed within the inputs' `maxLength`
      and with a category picked from the select, is a body the server accepts once it
      has set the owner. */
  lemma FormAcceptedPassesSchema(p: Submission, requester: UserId)
    requires AmountAccepted(Entered(p.amount)) && DescriptionAccepted(p.description)
    requires |p.description| <= MaxDescriptionLength && |p.notes| <= MaxNotesLength
    requires p.category in CategoryOptions()
    ensures AcceptableNew(BodyOf(p).(user := Some(requester)))
  {
    TrimShortens(p.description);
    TrimShortens(p.notes);
  }

  /** A rejected create or update reaches the form with a non-empty message, so
      the form shows the server's text and not the fallback. */
  lemma RejectionShownVerbatim(onCreate: bool, vs: seq<Violation>)
    ensures ErrorText(Some(ValidationMessage(onCreate, vs))) == ValidationMessage(onCreate, vs)
    ensures ErrorText(Some(ValidationMessage(onCreate, vs))) != FallbackErrorMessage
  {
    var m := ValidationMessage(onCreate, vs);
    assert m[0] == (if onCreate then CreateFailurePrefix else UpdateFailurePrefix)[0];
  }
}
