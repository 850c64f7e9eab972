/** The dashboard page's list state (frontend/src/pages/Dashboard.jsx): the
    add-expense form and its validation, the optimistic add (prepend a
    temporary item, then confirm or roll it back), delete after the server
    agreed, and the two display helpers for a row's title and a short note.
    Each state setter is one step of a sequential run; requests in flight at
    the same time are not modelled. */
module Dashboard {
  import opened Js

  /** The form's five text inputs. */
  datatype Form = Form(title: string, amount: string, category: string, date: string, note: string)

  const EmptyForm := Form("", "", "", "", "")

  /** The `name` attribute of the input that changed. */
  datatype FieldName = TitleField | AmountField | CategoryField | DateField | NoteField

  /** A list item: a record the server sent, or the optimistic copy of one
      being added. `mongoId` is its `_id` field, `altId` its `id` field;
      `None` stands for a field that is absent or null. */
  datatype Item = Item(
    mongoId: Option<string>,
    altId: Option<string>,
    title: Option<string>,
    amount: Num,
    category: string,
    date: string,
    note: Option<string>)

  /** The body posted to the server. */
  datatype Payload = Payload(title: string, amount: Num, category: string, date: string, note: string)

  /** An add whose answer has not come back yet. */
  datatype Pending = Pending(tempId: string, payload: Payload)

  /** The server's answer to the post: the response data (None when empty),
      or a failure with the message the server sent, if any. */
  datatype Reply = Saved(data: Option<Item>) | Failed(message: Option<string>)

  const TitleRequired := "Title is required"
  const AmountRequired := "Amount is required and must be a number"
  const CategoryRequired := "Category is required"
  const DateRequired := "Date is required"
  const AddFailed := "Failed to add expense"
  const DeleteFailed := "Failed to delete expense"

  /** A short note shows at most this many characters before "...". */
  const ShortNoteLimit: nat := 80

  // ---------------------------------------------------------- validation

  /** The amount is filled in and converts to a number other than NaN. */
  predicate AmountOk(rt: Runtime, amount: string)
  {
    amount != "" && StringToNumber(rt, amount) != NaN
  }

  /** `validateForm`: the first failing check, in the order title, amount,
      category, date; None when all pass. */
  function ValidateForm(rt: Runtime, form: Form): (r: Option<string>)
    ensures r.None? <==> form.title != "" && AmountOk(rt, form.amount) && form.category != "" && form.date != ""
    ensures form.title == "" ==> r == Some(TitleRequired)
    ensures form.title != "" && !AmountOk(rt, form.amount) ==> r == Some(AmountRequired)
    ensures form.title != "" && AmountOk(rt, form.amount) && form.category == "" ==> r == Some(CategoryRequired)
    ensures (form.title != "" && AmountOk(rt, form.amount) && form.category != "" && form.date == "")
              ==> r == Some(DateRequired)
  {
    if form.title == "" then Some(TitleRequired)
    else if form.amount == "" || StringToNumber(rt, form.amount) == NaN then Some(AmountRequired)
    else if form.category == "" then Some(CategoryRequired)
    else if form.date == "" then Some(DateRequired)
    else None
  }

  /** An amount of only spaces passes the check, since `Number` reads it as 0,
      and is posted as 0. */
  lemma BlankAmountPasses(rt: Runtime, form: Form)
    requires form.title != "" && form.category != "" && form.date != ""
    requires form.amount != "" && Blank(form.amount)
    ensures ValidateForm(rt, form).None?
    ensures StringToNumber(rt, form.amount) == Finite(0.0)
  {
  }

  // ------------------------------------------------------------ optimistic

  /** The temporary id: "tmp-" and the clock in milliseconds. */
  function TempId(now: nat): (r: string)
    ensures |r| > 4 && r[..4] == "tmp-" && r[4..] == DecimalText(now)
  {
    "tmp-" + DecimalText(now)
  }

  /** Submits at different instants get different temporary ids. */
  lemma {:induction false} TempIdInjective(a: nat, b: nat)
    requires TempId(a) == TempId(b)
    ensures a == b
  {
    DecimalRoundTrip(a);
    DecimalRoundTrip(b);
  }

  /** The payload built from a valid form whose date parsed to `iso`. */
  function MakePayload(rt: Runtime, form: Form, iso: string): (p: Payload)
    ensures p.title == form.title && p.category == form.category && p.note == form.note && p.date == iso
    ensures p.amount == StringToNumber(rt, form.amount)
    ensures Blank(form.amount) ==> p.amount == Finite(0.0)
    ensures AmountOk(rt, form.amount) ==> p.amount != NaN
  {
    Payload(form.title, StringToNumber(rt, form.amount), form.category, iso, form.note)
  }

  /** The item shown while the add is in flight: the payload under the
      temporary id. */
  function Optimistic(p: Payload, tempId: string): (it: Item)
    ensures it.mongoId == Some(tempId) && it.altId.None?
    ensures it.title == Some(p.title) && it.amount == p.amount && it.category == p.category
    ensures it.date == p.date && it.note == Some(p.note)
  {
    Item(Some(tempId), None, Some(p.title), p.amount, p.category, p.date, Some(p.note))
  }

  predicate HasId(it: Item, id: string)
  {
    it.mongoId == Some(id)
  }

  /** Confirmation: each item under the temporary id becomes the server's
      record, or stays as it is when the answer carried none. */
  function ReplaceTemp(items: seq<Item>, tempId: string, data: Option<Item>): (r: seq<Item>)
    ensures |r| == |items|
    ensures forall i :: 0 <= i < |items| && !HasId(items[i], tempId) ==> r[i] == items[i]
    ensures forall i :: 0 <= i < |items| && HasId(items[i], tempId) ==> r[i] == if data.Some? then data.value else items[i]
  {
    seq(|items|, i requires 0 <= i < |items| =>
      if HasId(items[i], tempId) && data.Some? then data.value else items[i])
  }

  /** The items not dropped, in their order. */
  function Filter(items: seq<Item>, drop: Item -> bool): (r: seq<Item>)
    ensures |r| <= |items|
    ensures forall x :: x in r <==> x in items && !drop(x)
  {
    if items == [] then []
    else
      var rest := Filter(items[1..], drop);
      assert items == [items[0]] + items[1..];
      if drop(items[0]) then rest else [items[0]] + rest
  }

  /** Filtering a concatenation filters each part: the kept items stay in
      their order. */
  lemma {:induction false} FilterConcat(a: seq<Item>, b: seq<Item>, drop: Item -> bool)
    ensures Filter(a + b, drop) == Filter(a, drop) + Filter(b, drop)
  {
    if a == [] {
      assert a + b == b;
    } else {
      FilterConcat(a[1..], b, drop);
      assert (a + b)[1..] == a[1..] + b;
    }
  }

  /** A filter that drops nothing gives the list back. */
  lemma {:induction false} FilterKeepsAll(items: seq<Item>, drop: Item -> bool)
    requires forall i :: 0 <= i < |items| ==> !drop(items[i])
    ensures Filter(items, drop) == items
  {
    if items != [] {
      FilterKeepsAll(items[1..], drop);
      assert items == [items[0]] + items[1..];
    }
  }

  /** Rollback: the list without the items under the temporary id. */
  function RemoveTemp(items: seq<Item>, tempId: string): (r: seq<Item>)
    ensures forall x :: x in r <==> x in items && !HasId(x, tempId)
  {
    Filter(items, x => HasId(x, tempId))
  }

  /** The items a delete of `id` removes: those whose `_id` or `id` is it. */
  predicate Matches(it: Item, id: string)
  {
    it.mongoId == Some(id) || it.altId == Some(id)
  }

  /** The list after a delete of `id`. */
  function RemoveMatching(items: seq<Item>, id: string): (r: seq<Item>)
    ensures forall x :: x in r <==> x in items && !Matches(x, id)
  {
    Filter(items, x => Matches(x, id))
  }

  /** Confirming an add right after it was made replaces the optimistic item
      by the server's record (or keeps it if the answer was empty) and leaves
      the earlier list as it was. */
  lemma ConfirmAfterSubmit(prev: seq<Item>, p: Payload, tempId: string, data: Option<Item>)
    requires forall i :: 0 <= i < |prev| ==> !HasId(prev[i], tempId)
    ensures ReplaceTemp([Optimistic(p, tempId)] + prev, tempId, data)
         == [if data.Some? then data.value else Optimistic(p, tempId)] + prev
  {
    var items := [Optimistic(p, tempId)] + prev;
    var r := ReplaceTemp(items, tempId, data);
    assert forall i :: 1 <= i < |items| ==> items[i] == prev[i - 1] && r[i] == items[i];
  }

  /** Rolling back an add right after it was made restores the list. */
  lemma {:induction false} RollbackAfterSubmit(prev: seq<Item>, p: Payload, tempId: string)
    requires forall i :: 0 <= i < |prev| ==> !HasId(prev[i], tempId)
    ensures RemoveTemp([Optimistic(p, tempId)] + prev, tempId) == prev
  {
    var drop := x => HasId(x, tempId);
    FilterConcat([Optimistic(p, tempId)], prev, drop);
    FilterKeepsAll(prev, drop);
    assert Filter([Optimistic(p, tempId)], drop) == [];
  }

  /** Deleting keeps the order of what remains: removing from a
      concatenation removes from each part. */
  lemma DeleteKeepsOrder(a: seq<Item>, b: seq<Item>, id: string)
    ensures RemoveMatching(a + b, id) == RemoveMatching(a, id) + RemoveMatching(b, id)
  {
    FilterConcat(a, b, x => Matches(x, id));
  }

  // -------------------------------------------------------------- display

  /** The title cell of a row: the title, else the note, else "-". */
  function RowTitle(it: Item): (r: string)
    ensures r != ""
    ensures it.title.Some? && it.title.value != "" ==> r == it.title.value
    ensures !(it.title.Some? && it.title.value != "") && it.note.Some? && it.note.value != "" ==> r == it.note.value
    ensures (it.title.None? || it.title.value == "") && (it.note.None? || it.note.value == "") ==> r == "-"
  {
    if it.title.Some? && it.title.value != "" then it.title.value
    else if it.note.Some? && it.note.value != "" then it.note.value
    else "-"
  }

  /** The note line of the view: the note whole when it has at most 80
      characters, else its first 80 and "...", and "-" when there is none. */
  function ShortNote(note: Option<string>): (r: string)
    ensures note.None? || note.value == "" ==> r == "-"
    ensures note.Some? && 0 < |note.value| <= ShortNoteLimit ==> r == note.value
    ensures note.Some? && |note.value| > ShortNoteLimit ==>
              |r| == ShortNoteLimit + 3 && r[..ShortNoteLimit] == note.value[..ShortNoteLimit]
              && r[ShortNoteLimit..] == "..."
    ensures |r| <= ShortNoteLimit + 3
  {
    if note.Some? && note.value != "" && |note.value| <= ShortNoteLimit then note.value
    else if note.Some? && note.value != "" then Slice(note.value, ShortNoteLimit) + "..."
    else "-"
  }

  // ----------------------------------------------------------------- page

  /** The page's state. */
  class Page {
    const rt: Runtime
    var expenses: seq<Item>
    var form: Form
    var error: string
    var showAddModal: bool
    var viewExpense: Option<Item>

    constructor (rt: Runtime)
      ensures this.rt == rt && expenses == [] && form == EmptyForm && error == ""
      ensures !showAddModal && viewExpense.None?
    {
      this.rt := rt;
      expenses := [];
      form := EmptyForm;
      error := "";
      showAddModal := false;
      viewExpense := None;
    }

    /** `handleChange`: one input of the form takes the typed value. */
    method Change(name: FieldName, value: string)
      modifies this
      ensures expenses == old(expenses) && error == old(error)
      ensures showAddModal == old(showAddModal) && viewExpense == old(viewExpense)
      ensures form == match name
        case TitleField => old(form).(title := value)
        case AmountField => old(form).(amount := value)
        case CategoryField => old(form).(category := value)
        case DateField => old(form).(date := value)
        case NoteField => old(form).(note := value)
    {
      match name
      case TitleField => form := form.(title := value);
      case AmountField => form := form.(amount := value);
      case CategoryField => form := form.(category := value);
      case DateField => form := form.(date := value);
      case NoteField => form := form.(note := value);
    }

    /** The synchronous part of `handleSubmit`, up to the post. A failed
        check shows its message and changes nothing else. A date that
        `toISOString` cannot render throws after the error was cleared.
        Otherwise the optimistic item goes in front, the form is emptied and
        the add dialog closes; the returned add waits for the server. */
    method Submit(now: nat) returns (pending: Option<Pending>)
      modifies this
      ensures viewExpense == old(viewExpense)
      ensures ValidateForm(rt, old(form)).Some? ==>
                && error == ValidateForm(rt, old(form)).value
                && expenses == old(expenses) && form == old(form) && showAddModal == old(showAddModal)
                && pending.None?
      ensures ValidateForm(rt, old(form)).None? && rt.isoDate(old(form).date).None? ==>
                && error == ""
                && expenses == old(expenses) && form == old(form) && showAddModal == old(showAddModal)
                && pending.None?
      ensures ValidateForm(rt, old(form)).None? && rt.isoDate(old(form).date).Some? ==>
                var p := MakePayload(rt, old(form), rt.isoDate(old(form).date).value);
                && error == ""
                && expenses == [Optimistic(p, TempId(now))] + old(expenses)
                && form == EmptyForm && !showAddModal
                && pending == Some(Pending(TempId(now), p))
    {
      error := "";
      var validation := ValidateForm(rt, form);
      if validation.Some? {
        error := validation.value;
        return None;
      }
      var iso := rt.isoDate(form.date);
      if iso.None? {
        return None;
      }
      var payload := MakePayload(rt, form, iso.value);
      var tempId := TempId(now);
      expenses := [Optimistic(payload, tempId)] + expenses;
      form := EmptyForm;
      showAddModal := false;
      pending := Some(Pending(tempId, payload));
    }

    /** The rest of `handleSubmit`, once the server answered. */
    method Settle(p: Pending, reply: Reply)
      modifies this
      ensures form == old(form) && showAddModal == old(showAddModal) && viewExpense == old(viewExpense)
      ensures reply.Saved? ==>
                expenses == ReplaceTemp(old(expenses), p.tempId, reply.data) && error == old(error)
      ensures reply.Failed? ==>
                && expenses == RemoveTemp(old(expenses), p.tempId)
                && error == if reply.message.Some? && reply.message.value != "" then reply.message.value else AddFailed
    {
      match reply
      case Saved(data) =>
        expenses := ReplaceTemp(expenses, p.tempId, data);
      case Failed(message) =>
        expenses := RemoveTemp(expenses, p.tempId);
        error := if message.Some? && message.value != "" then message.value else AddFailed;
    }

    /** `handleDelete`: nothing happens unless the user confirms; after the
        server deleted, every item matching `id` goes and the view closes; if
        the server refused, only the error is set. */
    method Delete(id: string, confirmed: bool, serverOk: bool)
      modifies this
      ensures form == old(form) && showAddModal == old(showAddModal)
      ensures !confirmed ==>
                expenses == old(expenses) && error == old(error) && viewExpense == old(viewExpense)
      ensures confirmed && serverOk ==>
                expenses == RemoveMatching(old(expenses), id) && viewExpense.None? && error == old(error)
      ensures confirmed && !serverOk ==>
                expenses == old(expenses) && error == DeleteFailed && viewExpense == old(viewExpense)
    {
      if !confirmed {
        return;
      }
      if serverOk {
        expenses := RemoveMatching(expenses, id);
        viewExpense := None;
      } else {
        error := DeleteFailed;
      }
    }
  }

  /** A whole sequential run of a successful add: submit, then the server
      saves. The list ends as the saved record in front of the earlier list. */
  method SubmitThenSave(page: Page, now: nat, saved: Item)
    requires ValidateForm(page.rt, page.form).None? && page.rt.isoDate(page.form.date).Some?
    requires forall i :: 0 <= i < |page.expenses| ==> !HasId(page.expenses[i], TempId(now))
    modifies page
    ensures page.expenses == [saved] + old(page.expenses)
    ensures page.form == EmptyForm && page.error == ""
  {
    var pending := page.Submit(now);
    ConfirmAfterSubmit(old(page.expenses), pending.value.payload, TempId(now), Some(saved));
    page.Settle(pending.value, Saved(Some(saved)));
  }

  /** A whole sequential run of a failed add: submit, then the server refuses.
      The list is as it was before the submit; the form stays emptied. */
  method SubmitThenFail(page: Page, now: nat, message: Option<string>)
    requires ValidateForm(page.rt, page.form).None? && page.rt.isoDate(page.form.date).Some?
    requires forall i :: 0 <= i < |page.expenses| ==> !HasId(page.expenses[i], TempId(now))
    modifies page
    ensures page.expenses == old(page.expenses)
    ensures page.form == EmptyForm && page.error != ""
  {
    var pending := page.Submit(now);
    RollbackAfterSubmit(old(page.expenses), pending.value.payload, TempId(now));
    page.Settle(pending.value, Failed(message));
  }
}
