/** The expense table: one row per expense in the order given, the category
    badge's CSS class, the shortened notes line, and the empty-state panel. */
module ExpenseListView {
  import opened Wrappers
  import opened JsText
  import opened Calendar
  import opened ExpenseSchema

  const CategoryClassPrefix := "category "
  const NotesPreviewLength := 50
  const Ellipsis := "..."

  predicate IsCapital(c: char)
  {
    'A' <= c <= 'Z'
  }

  predicate NoCapitals(s: string)
  {
    forall i :: 0 <= i < |s| ==> !IsCapital(s[i])
  }

  /** `category ${category.toLowerCase().replace(/\s+/g, '-')}`: the prefix, then
      the lower-cased label with each whitespace run turned into one hyphen. */
  function CategoryClass(category: string): (r: string)
    ensures |r| >= |CategoryClassPrefix| && r[..|CategoryClassPrefix|] == CategoryClassPrefix
    ensures var slug := r[|CategoryClassPrefix|..];
      NoCapitals(slug) && forall i :: 0 <= i < |slug| ==> !IsWhitespace(slug[i])
  {
    var lower := ToLower(category);
    LowerHasNoCapitals(category);
    LowerStaysLower(lower);
    var slug := HyphenateWhitespace(lower);
    assert (CategoryClassPrefix + slug)[|CategoryClassPrefix|..] == slug;
    CategoryClassPrefix + slug
  }

  lemma LowerHasNoCapitals(s: string)
    ensures NoCapitals(ToLower(s))
  {
    var r := ToLower(s);
    forall i | 0 <= i < |s| ensures !IsCapital(r[i]) {
      if IsCapital(s[i]) {
        assert 'a' as int <= LowerChar(s[i]) as int <= 'z' as int;
      }
    }
  }

  /** Hyphenating text with no upper-case letters introduces none. */
  lemma {:induction false} LowerStaysLower(s: string)
    requires NoCapitals(s)
    ensures NoCapitals(HyphenateWhitespace(s))
    decreases |s|
  {
    if s != [] {
      if IsWhitespace(s[0]) {
        var t := TrimStart(s);
        assert NoCapitals(t) by {
          forall i | 0 <= i < |t| ensures !IsCapital(t[i]) {
            assert t[i] == s[|s| - |t| + i];
          }
        }
        LowerStaysLower(t);
        var h := HyphenateWhitespace(t);
        assert HyphenateWhitespace(s) == "-" + h;
        NoCapitalsConcat("-", h);
      } else {
        LowerStaysLower(s[1..]);
        var h := HyphenateWhitespace(s[1..]);
        assert HyphenateWhitespace(s) == [s[0]] + h;
        NoCapitalsConcat([s[0]], h);
      }
    }
  }

  lemma NoCapitalsConcat(a: string, b: string)
    requires NoCapitals(a) && NoCapitals(b)
    ensures NoCapitals(a + b)
  {
    forall i | 0 <= i < |a + b| ensures !IsCapital((a + b)[i]) {
      if i >= |a| {
        assert (a + b)[i] == b[i - |a|];
      }
    }
  }

  /** A one-word label only loses its capitals. */
  lemma OneWordClass(category: string)
    requires forall i :: 0 <= i < |category| ==> !IsWhitespace(category[i])
    ensures CategoryClass(category) == CategoryClassPrefix + ToLower(category)
  {
    HyphenateNoWhitespace(ToLower(category));
  }

  /** Two words of lower-case letters joined by one space are joined by a
      hyphen instead. */
  lemma TwoWordSlug(a: string, b: string)
    requires a != [] && b != []
    requires forall i :: 0 <= i < |a| ==> 'a' <= a[i] <= 'z'
    requires forall i :: 0 <= i < |b| ==> 'a' <= b[i] <= 'z'
    ensures HyphenateWhitespace(a + " " + b) == a + "-" + b
  {
    var w := " ";
    assert IsBlank(w);
    Lowercase(a);
    Lowercase(b);
    HyphenateRun(a, w, b);
  }

  lemma Lowercase(a: string)
    requires forall i :: 0 <= i < |a| ==> 'a' <= a[i] <= 'z'
    ensures forall i :: 0 <= i < |a| ==> !IsWhitespace(a[i])
    ensures HyphenateWhitespace(a) == a
  {
    HyphenateNoWhitespace(a);
  }

  /** The two-word label of the enum becomes a hyphenated class. */
  lemma DiningOutClass()
    ensures CategoryClass("Dining Out") == "category dining-out"
  {
    var lower := ToLower("Dining Out");
    forall i | 0 <= i < 10 ensures lower[i] == ("dining" + " " + "out")[i] {
      assert lower[i] == LowerChar("Dining Out"[i]);
    }
    assert lower == "dining" + " " + "out";
    TwoWordSlug("dining", "out");
  }

  /** The notes under a description: longer than fifty characters, the first
      fifty followed by `...`; otherwise the notes as they are. */
  function NotesPreview(notes: string): (r: string)
    ensures |notes| <= NotesPreviewLength ==> r == notes
    ensures |notes| > NotesPreviewLength ==>
      |r| == NotesPreviewLength + |Ellipsis| && r[..NotesPreviewLength] == notes[..NotesPreviewLength]
      && r[NotesPreviewLength..] == Ellipsis
    ensures |r| <= NotesPreviewLength + |Ellipsis|
  {
    if |notes| > NotesPreviewLength then notes[..NotesPreviewLength] + Ellipsis else notes
  }

  /** `expense.notes && ...`: no notes line for absent or empty notes. */
  function NotesLine(notes: Option<string>): (r: Option<string>)
    ensures r.None? <==> notes.None? || notes.value == ""
    ensures r.Some? ==> r.value == NotesPreview(notes.value)
  {
    if notes.Some? && notes.value != "" then Some(NotesPreview(notes.value)) else None
  }

  /** One table row: keyed by the expense id, its date, description, notes line,
      category badge and amount; the edit button hands back the expense and the
      delete button its id. */
  datatype Row = Row(key: ExpenseId, date: Date, description: string, notes: Option<string>,
                     categoryClass: string, category: string, amount: int,
                     editTarget: Expense, deleteId: ExpenseId)

  function RowOf(e: Expense): (r: Row)
    ensures r.key == e.id && r.deleteId == e.id && r.editTarget == e
    ensures r.description == e.description && r.category == e.category && r.amount == e.amount
    ensures r.date == e.date
    ensures r.notes == NotesLine(e.notes) && r.categoryClass == CategoryClass(e.category)
  {
    Row(e.id, e.date, e.description, NotesLine(e.notes), CategoryClass(e.category), e.category,
        e.amount, e, e.id)
  }

  /** What the list renders: the empty-state panel, or the table. */
  datatype ListView = NoExpenses | Table(rows: seq<Row>)

  const NoExpensesTitle := "No expenses found"

  /** The empty-state panel for a missing or empty list; otherwise one row per
      expense, in the order given. */
  function RenderList(expenses: Option<seq<Expense>>): (r: ListView)
    ensures r.NoExpenses? <==> expenses.None? || expenses.value == []
    ensures r.Table? ==> |r.rows| == |expenses.value| && r.rows != []
    ensures r.Table? ==> forall i :: 0 <= i < |r.rows| ==>
      r.rows[i].key == expenses.value[i].id && r.rows[i].editTarget == expenses.value[i]
    ensures r.Table? ==> forall i :: 0 <= i < |r.rows| ==> r.rows[i] == RowOf(expenses.value[i])
  {
    if expenses.None? || expenses.value == [] then NoExpenses
    else
      var es := expenses.value;
      Table(seq(|es|, i requires 0 <= i < |es| => RowOf(es[i])))
  }
}
