/** The expense document schema (backend/models/Expense.js): the stored record,
    which of its paths are required, the default for `date`, and the schema
    options. A document is validated when it is created; `Validate` is that
    check. */
module ExpenseSchema {
  import opened Js
  import opened AuthGate

  type ExpenseId = nat

  /** A stored expense. `title`, `category` and `note` keep the request-body
      value they were given. There is no createdAt/updatedAt: see
      `NoTimestamps`. */
  datatype Expense = Expense(
    id: ExpenseId,
    user: UserId,
    title: JsValue,
    amount: Num,
    category: JsValue,
    date: int,
    note: JsValue)

  /** The fields handed to the model before validation; `None` is a path left
      undefined, which for `date` the schema default then fills. A `date` or
      `amount` set to null is not modelled: create never hands one over. */
  datatype Draft = Draft(
    user: Option<UserId>,
    title: JsValue,
    amount: Option<Num>,
    category: JsValue,
    date: Option<int>,
    note: JsValue)

  /** A compiled schema. The default date is the clock as it was when the
      schema object was built, not when a document is made. */
  datatype Schema = Schema(defaultDate: int, options: map<string, bool>)

  /** The options object exactly as written: the key is misspelt. */
  const ExpenseSchemaOptions: map<string, bool> := map["timpstamps" := true]

  /** The schema built once, when the module is loaded at `loadTime`. */
  function ExpenseSchemaAt(loadTime: int): Schema
  {
    Schema(loadTime, ExpenseSchemaOptions)
  }

  /** Whether a schema's options ask for createdAt/updatedAt fields. */
  predicate AddsTimestamps(options: map<string, bool>)
  {
    "timestamps" in options && options["timestamps"]
  }

  /** The misspelt option key is ignored: expense records get no timestamps. */
  lemma NoTimestamps(loadTime: int)
    ensures !AddsTimestamps(ExpenseSchemaAt(loadTime).options)
    ensures "timpstamps" in ExpenseSchemaAt(loadTime).options
  {
  }

  /** The `required` check of a String path: undefined, null and the empty
      string fail it. */
  predicate RequiredString(v: JsValue)
  {
    v != Undefined && v != Null && v != Str("")
  }

  /** The `required` check of a Number path; NaN cannot be cast to a Number
      and is reported against the path too. */
  predicate RequiredNumber(n: Option<Num>)
  {
    n.Some? && n.value != NaN
  }

  /** The required paths that fail, in schema order. */
  function FailingPaths(d: Draft): seq<string>
  {
    (if d.user.None? then ["user"] else [])
    + (if !RequiredNumber(d.amount) then ["amount"] else [])
    + (if !RequiredString(d.category) then ["category"] else [])
  }

  /** Document validation: fails, naming every failing required path, when
      `user`, `amount` or `category` is missing; otherwise gives the stored
      record with `date` defaulted and the optional `title` and `note` as
      given. */
  function Validate(schema: Schema, d: Draft, id: ExpenseId): (r: Result<Expense, seq<string>>)
    ensures r.Ok? <==> d.user.Some? && RequiredNumber(d.amount) && RequiredString(d.category)
    ensures r.Err? ==>
              && r.error != []
              && ("user" in r.error <==> d.user.None?)
              && ("amount" in r.error <==> !RequiredNumber(d.amount))
              && ("category" in r.error <==> !RequiredString(d.category))
    ensures r.Ok? ==>
              && r.value.id == id && Some(r.value.user) == d.user && Some(r.value.amount) == d.amount
              && r.value.title == d.title && r.value.category == d.category && r.value.note == d.note
    ensures r.Ok? && d.date.Some? ==> r.value.date == d.date.value
    ensures r.Ok? && d.date.None? ==> r.value.date == schema.defaultDate
  {
    var failing := FailingPaths(d);
    if failing != [] then
      Err(failing)
    else
      var date := if d.date.Some? then d.date.value else schema.defaultDate;
      Ok(Expense(id, d.user.value, d.title, d.amount.value, d.category, date, d.note))
  }

  /** `title` and `note` are optional: they never decide validity. */
  lemma OptionalPaths(schema: Schema, d: Draft, id: ExpenseId, title: JsValue, note: JsValue)
    ensures Validate(schema, d.(title := title, note := note), id).Ok? == Validate(schema, d, id).Ok?
  {
  }

  /** Every record whose date was left out gets the same instant, the one at
      which the schema was built. */
  lemma DefaultDateShared(loadTime: int, d1: Draft, d2: Draft, id1: ExpenseId, id2: ExpenseId)
    requires d1.date.None? && d2.date.None?
    requires Validate(ExpenseSchemaAt(loadTime), d1, id1).Ok?
    requires Validate(ExpenseSchemaAt(loadTime), d2, id2).Ok?
    ensures Validate(ExpenseSchemaAt(loadTime), d1, id1).value.date
         == Validate(ExpenseSchemaAt(loadTime), d2, id2).value.date
         == loadTime
  {
  }
}
