/** The expense routes (backend/routes/expenseRoutes.js): create, list, update
    and delete over the expense collection, each scoped to the caller that the
    bearer-token gate admitted. The collection is a table from expense id to
    record; each handler's query is one atomic step on it. */
module ExpenseRoutes {
  import opened Js
  import opened AuthGate
  import opened ExpenseSchema

  const RequiredMessage := "Amount, category and date are required."
  const AmountMessage := "Amount must be a number."
  const DateMessage := "Date is invalid."
  const CreateInvalidMessage := "Validation failed"
  const DeletedMessage := "Expense Deleted."
  const DeleteNotFoundMessage := "Expense Not Found !"
  const UpdateNotFoundMessage := "Expense Not Found OR Not Owned By You."
  const UpdateInvalidMessage := "Verification Failed"
  const ServerErrorMessage := "Server Error."

  /** A title taken from the note keeps at most this many characters. */
  const NoteTitleLimit: nat := 60

  datatype ResponseBody =
    | Message(text: string)
    | Invalid(text: string, paths: seq<string>)
    | Record(expense: Expense)
    | Records(expenses: seq<Expense>)

  datatype Response = Response(status: int, body: ResponseBody)

  type Table = map<ExpenseId, Expense>

  // ---------------------------------------------------------------- create

  /** The value is truthy and its text is not blank once trimmed. */
  predicate HasText(rt: Runtime, v: JsValue)
  {
    Truthy(v) && Trim(ToText(rt, v)) != ""
  }

  /** The stored title: the trimmed title if it has text; else the trimmed
      note cut to its first 60 characters if it has text; else
      the category's text followed by " expense". Never empty. */
  function FinalTitle(rt: Runtime, title: JsValue, note: JsValue, category: JsValue): (r: string)
    ensures r != ""
    ensures HasText(rt, title) ==> r == Trim(ToText(rt, title))
    ensures !HasText(rt, title) && HasText(rt, note) ==>
              var n := Trim(ToText(rt, note));
              && r <= n
              && |r| == if |n| <= NoteTitleLimit then |n| else NoteTitleLimit
    ensures !HasText(rt, title) && !HasText(rt, note) ==> r == ToText(rt, category) + " expense"
  {
    var t, n := Trim(ToText(rt, title)), Trim(ToText(rt, note));
    if Truthy(title) && t != "" then t
    else if Truthy(note) && n != "" then Slice(n, NoteTitleLimit)
    else ToText(rt, category) + " expense"
  }

  /** What create stores, once the body has passed its checks. */
  datatype NewFields = NewFields(title: string, amount: real, category: JsValue, date: int, note: JsValue)

  /** The first check: amount undefined, or category or date falsy. Only
      undefined fails for the amount; null and "" go on. */
  predicate MissingRequired(body: Body)
  {
    Get(body, "amount") == Undefined || !Truthy(Get(body, "category")) || !Truthy(Get(body, "date"))
  }

  /** The checks of POST / in their order, and the converted fields. */
  function PrepareCreate(rt: Runtime, body: Body): (r: Result<NewFields, string>)
    ensures MissingRequired(body) ==> r == Err(RequiredMessage)
    ensures !MissingRequired(body) && !ToNumber(rt, Get(body, "amount")).Finite? ==> r == Err(AmountMessage)
    ensures (!MissingRequired(body) && ToNumber(rt, Get(body, "amount")).Finite?
              && rt.parseDate(Get(body, "date")).None?) ==> r == Err(DateMessage)
    ensures (!MissingRequired(body) && ToNumber(rt, Get(body, "amount")).Finite?
              && rt.parseDate(Get(body, "date")).Some?) ==> r.Ok?
    ensures r.Ok? ==>
              && Finite(r.value.amount) == ToNumber(rt, Get(body, "amount"))
              && Some(r.value.date) == rt.parseDate(Get(body, "date"))
              && r.value.category == Get(body, "category")
              && r.value.note == Get(body, "note")
              && r.value.title == FinalTitle(rt, Get(body, "title"), Get(body, "note"), Get(body, "category"))
  {
    var title, amount, category, date, note :=
      Get(body, "title"), Get(body, "amount"), Get(body, "category"), Get(body, "date"), Get(body, "note");
    if amount == Undefined || !Truthy(category) || !Truthy(date) then
      Err(RequiredMessage)
    else
      match ToNumber(rt, amount)
      case Finite(amt) =>
        (match rt.parseDate(date)
         case None => Err(DateMessage)
         case Some(expenseDate) =>
           Ok(NewFields(FinalTitle(rt, title, note, category), amt, category, expenseDate, note)))
      case _ => Err(AmountMessage)
  }

  /** The document handed to Expense.create: owned by the caller, with the
      finite amount and the parsed date set, and the other fields as prepared. */
  function CreateDraft(caller: UserId, f: NewFields): (d: Draft)
    ensures d.user == Some(caller)
    ensures RequiredNumber(d.amount) && d.amount.value.Finite? && d.amount.value.r == f.amount
    ensures d.date == Some(f.date)
    ensures d.title == Str(f.title) && d.category == f.category && d.note == f.note
  {
    Draft(Some(caller), Str(f.title), Some(Finite(f.amount)), f.category, Some(f.date), f.note)
  }

  /** In the model, where the schema's cast of a value to String is left out,
      a body that passed the route's own checks always passes the schema's
      required checks, so the "Validation failed" answer of POST / does not
      arise. */
  lemma CreateDraftValid(rt: Runtime, body: Body, caller: UserId, schema: Schema, id: ExpenseId)
    requires PrepareCreate(rt, body).Ok?
    ensures Validate(schema, CreateDraft(caller, PrepareCreate(rt, body).value), id).Ok?
  {
  }

  /** An amount of null or "" is accepted and stored as 0. */
  lemma EmptyAmountIsZero(rt: Runtime, body: Body)
    requires Get(body, "amount") == Null || Get(body, "amount") == Str("")
    requires Truthy(Get(body, "category")) && Truthy(Get(body, "date"))
    requires rt.parseDate(Get(body, "date")).Some?
    ensures PrepareCreate(rt, body).Ok? && PrepareCreate(rt, body).value.amount == 0.0
  {
  }

  /** A body with amount 42.5, category "Food" and date "2024-01-01", and
      with no title and no note, is stored with the title "Food expense". */
  lemma FoodExpenseTitle(rt: Runtime)
    requires rt.parseDate(Str("2024-01-01")).Some?
    ensures var body := map["amount" := Num(42.5), "category" := Str("Food"), "date" := Str("2024-01-01")];
      PrepareCreate(rt, body).Ok? && PrepareCreate(rt, body).value.title == "Food expense"
  {
    var body := map["amount" := Num(42.5), "category" := Str("Food"), "date" := Str("2024-01-01")];
    assert Get(body, "title") == Undefined && Get(body, "note") == Undefined;
  }

  // ----------------------------------------------------------- ownership

  /** The record `id` exists and belongs to `caller`. */
  predicate OwnedBy(table: Table, id: ExpenseId, caller: UserId)
  {
    id in table && table[id].user == caller
  }

  /** The query by id and owner together: one lookup that checks existence
      and ownership together. */
  function FindOwned(table: Table, id: ExpenseId, caller: UserId): (r: Option<Expense>)
    ensures r.Some? <==> OwnedBy(table, id, caller)
    ensures r.Some? ==> r.value == table[id]
  {
    if id in table && table[id].user == caller then Some(table[id]) else None
  }

  /** A record of another user answers the owner-scoped query exactly as no
      record at all does. */
  lemma ForeignLooksMissing(table: Table, id: ExpenseId, caller: UserId, e: Expense)
    requires id !in table && e.user != caller
    ensures FindOwned(table[id := e], id, caller) == FindOwned(table, id, caller) == None
  {
  }

  /** `e` is a record of `caller`'s, filed under its own id. */
  predicate OwnedRecord(table: Table, caller: UserId, e: Expense)
  {
    e.id in table && table[e.id] == e && e.user == caller
  }

  /** Adding a record under a fresh id makes it visible to its owner and to
      nobody else, and changes nothing else anyone sees. */
  lemma CreateVisibility(table: Table, e: Expense, u: UserId, x: Expense)
    requires e.id !in table
    ensures OwnedRecord(table[e.id := e], u, x) <==> OwnedRecord(table, u, x) || (x == e && u == e.user)
  {
  }

  /** Removing a record hides it from everyone and changes nothing else. */
  lemma DeleteVisibility(table: Table, id: ExpenseId, u: UserId, x: Expense)
    ensures OwnedRecord(table - {id}, u, x) <==> OwnedRecord(table, u, x) && x.id != id
  {
  }

  // ----------------------------------------------------------------- list

  predicate SortedByDateDesc(s: seq<Expense>)
  {
    forall i, j :: 0 <= i < j < |s| ==> s[i].date >= s[j].date
  }

  /** A listing for `caller`: every record of theirs exactly once, no other
      record, newest first. Records with equal dates may come in any order. */
  ghost predicate IsListing(table: Table, caller: UserId, r: seq<Expense>)
  {
    && SortedByDateDesc(r)
    && forall e :: multiset(r)[e] == if OwnedRecord(table, caller, e) then 1 else 0
  }

  /** A record no older than the head of a sorted list may go in front of it. */
  lemma PrependSorted(x: Expense, s: seq<Expense>)
    requires SortedByDateDesc(s)
    requires s != [] ==> s[0].date <= x.date
    ensures SortedByDateDesc([x] + s)
  {
    var r := [x] + s;
    forall i, j | 0 <= i < j < |r| ensures r[i].date >= r[j].date {
      if i == 0 {
        assert r[j] == s[j - 1] && s[0].date >= s[j - 1].date;
      } else {
        assert r[i] == s[i - 1] && r[j] == s[j - 1];
      }
    }
  }

  /** The recursive step of `InsertByDate`: a head older than `e` stays in
      front of the list into which `e` went. */
  lemma KeepHead(s: seq<Expense>, e: Expense, rest: seq<Expense>)
    requires SortedByDateDesc(s) && s != [] && e.date < s[0].date
    requires SortedByDateDesc(rest) && multiset(rest) == multiset(s[1..]) + multiset{e}
    requires rest != [] && (rest[0] == e || (|s| > 1 && rest[0] == s[1]))
    ensures SortedByDateDesc([s[0]] + rest)
    ensures multiset([s[0]] + rest) == multiset(s) + multiset{e}
  {
    PrependSorted(s[0], rest);
    assert s == [s[0]] + s[1..];
  }

  /** One step of the store's sort: put `e` before the first record that is
      older than it. */
  function InsertByDate(s: seq<Expense>, e: Expense): (r: seq<Expense>)
    requires SortedByDateDesc(s)
    ensures SortedByDateDesc(r)
    ensures multiset(r) == multiset(s) + multiset{e}
    ensures |r| == |s| + 1 && (r[0] == e || (s != [] && r[0] == s[0]))
    ensures s == [] || s[0].date <= e.date ==> r[0] == e
  {
    if s == [] || s[0].date <= e.date then
      PrependSorted(e, s);
      [e] + s
    else
      var rest := InsertByDate(s[1..], e);
      KeepHead(s, e, rest);
      [s[0]] + rest
  }

  // --------------------------------------------------------------- update

  /** The keys PUT /:id may change, in the order it copies them. */
  const AllowedKeys: seq<string> := ["title", "amount", "category", "date", "note"]

  /** The `payload` object: the allowed keys of the body that are not
      undefined (null is copied), with their values as given. The owner, the
      id and any other key of the body never get into it. */
  function Payload(update: Body): (payload: Body)
    ensures forall k :: k in payload <==> k in AllowedKeys && Get(update, k) != Undefined
    ensures forall k :: k in payload ==> k in update && payload[k] == update[k]
    ensures "user" !in payload && "_id" !in payload
  {
    map k | k in AllowedKeys && Get(update, k) != Undefined :: update[k]
  }

  /** Two bodies that agree on the allowed keys give the same payload,
      whatever else they hold. */
  lemma PayloadIgnoresOtherKeys(b1: Body, b2: Body)
    requires forall k :: k in AllowedKeys ==> Get(b1, k) == Get(b2, k)
    ensures Payload(b1) == Payload(b2)
  {
    forall k | k in AllowedKeys && Get(b1, k) != Undefined
      ensures k in b2 && b1[k] == b2[k]
    {
      assert Get(b1, k) == Get(b2, k);
    }
  }

  /** The loop that builds `payload` from the body. */
  method BuildPayload(update: Body) returns (payload: Body)
    ensures payload == Payload(update)
  {
    payload := map[];
    for i := 0 to |AllowedKeys|
      invariant payload == map k | k in AllowedKeys[..i] && Get(update, k) != Undefined :: update[k]
    {
      var key := AllowedKeys[i];
      if Get(update, key) != Undefined {
        payload := payload[key := update[key]];
      }
      assert AllowedKeys[..i + 1] == AllowedKeys[..i] + [key];
    }
    assert AllowedKeys[..|AllowedKeys|] == AllowedKeys;
  }

  /** The set of field updates an update applies, after the store has cast it: one entry
      per payload key. */
  datatype Patch = Patch(
    title: Option<JsValue>,
    amount: Option<Num>,
    category: Option<JsValue>,
    date: Option<int>,
    note: Option<JsValue>)

  /** Why the store refuses an update before looking for the record: a value
      that cannot be cast (NaN amount, invalid date), or a failing update
      validator (the required `category` set to null or ""). */
  datatype Rejection = CastFailed(path: string) | ValidatorsFailed(paths: seq<string>)

  function Field(payload: Body, key: string): Option<JsValue>
  {
    if key in payload then Some(payload[key]) else None
  }

  /** The amount and the date converted, for the keys that
      are present, then the store's casting and its update validators. */
  function CastPayload(rt: Runtime, payload: Body): (r: Result<Patch, Rejection>)
    ensures r.Err? <==>
              || ("amount" in payload && ToNumber(rt, payload["amount"]) == NaN)
              || ("date" in payload && rt.parseDate(payload["date"]).None?)
              || ("category" in payload && !RequiredString(payload["category"]))
    ensures "amount" in payload && ToNumber(rt, payload["amount"]) == NaN ==>
              r == Err(CastFailed("amount"))
    ensures ("amount" !in payload || ToNumber(rt, payload["amount"]) != NaN)
            && "date" in payload && rt.parseDate(payload["date"]).None? ==>
              r == Err(CastFailed("date"))
    ensures ("amount" !in payload || ToNumber(rt, payload["amount"]) != NaN)
            && ("date" !in payload || rt.parseDate(payload["date"]).Some?)
            && "category" in payload && !RequiredString(payload["category"]) ==>
              r == Err(ValidatorsFailed(["category"]))
    ensures r.Ok? ==>
              && r.value.title == Field(payload, "title")
              && r.value.category == Field(payload, "category")
              && r.value.note == Field(payload, "note")
              && ("amount" in payload <==> r.value.amount.Some?)
              && ("amount" in payload ==> r.value.amount.value == ToNumber(rt, payload["amount"]))
              && ("date" in payload <==> r.value.date.Some?)
              && ("date" in payload ==> Some(r.value.date.value) == rt.parseDate(payload["date"]))
  {
    var amount := if "amount" in payload then Some(ToNumber(rt, payload["amount"])) else None;
    var date := if "date" in payload then Some(rt.parseDate(payload["date"])) else None;
    if amount == Some(NaN) then
      Err(CastFailed("amount"))
    else if date == Some(None) then
      Err(CastFailed("date"))
    else if "category" in payload && !RequiredString(payload["category"]) then
      Err(ValidatorsFailed(["category"]))
    else
      var when := if date.Some? then Some(date.value.value) else None;
      Ok(Patch(Field(payload, "title"), amount, Field(payload, "category"), when, Field(payload, "note")))
  }

  /** Applying a patch: the fields it names take its values; the id, the owner
      and every other field keep theirs. */
  function ApplyPatch(e: Expense, p: Patch): (r: Expense)
    ensures r.id == e.id && r.user == e.user
    ensures r.title == (if p.title.Some? then p.title.value else e.title)
    ensures r.amount == (if p.amount.Some? then p.amount.value else e.amount)
    ensures r.category == (if p.category.Some? then p.category.value else e.category)
    ensures r.date == (if p.date.Some? then p.date.value else e.date)
    ensures r.note == (if p.note.Some? then p.note.value else e.note)
  {
    e.(title := if p.title.Some? then p.title.value else e.title,
       amount := if p.amount.Some? then p.amount.value else e.amount,
       category := if p.category.Some? then p.category.value else e.category,
       date := if p.date.Some? then p.date.value else e.date,
       note := if p.note.Some? then p.note.value else e.note)
  }

  /** An update whose body leaves a field undefined keeps that field, never
      changes the id or the owner, and copies a null title or note as null. */
  lemma UpdateKeepsUnmentioned(rt: Runtime, body: Body, e: Expense)
    requires CastPayload(rt, Payload(body)).Ok?
    ensures var r := ApplyPatch(e, CastPayload(rt, Payload(body)).value);
      && r.id == e.id && r.user == e.user
      && (Get(body, "title") == Undefined ==> r.title == e.title)
      && (Get(body, "amount") == Undefined ==> r.amount == e.amount)
      && (Get(body, "category") == Undefined ==> r.category == e.category)
      && (Get(body, "date") == Undefined ==> r.date == e.date)
      && (Get(body, "note") == Undefined ==> r.note == e.note)
      && (Get(body, "title") == Null ==> r.title == Null)
      && (Get(body, "note") == Null ==> r.note == Null)
  {
  }

  /** The answer to a refused update. */
  function RejectionResponse(why: Rejection): (resp: Response)
    ensures why.CastFailed? ==> resp.status == 500
    ensures why.ValidatorsFailed? ==> resp.status == 400
  {
    match why
    case CastFailed(_) => Response(500, Message(ServerErrorMessage))
    case ValidatorsFailed(paths) => Response(400, Invalid(UpdateInvalidMessage, paths))
  }

  // ---------------------------------------------------------------- store

  /** The expense collection as the four routes see it. */
  class ExpenseStore {
    var table: Table
    var nextId: ExpenseId
    const rt: Runtime
    const schema: Schema

    /** Every record is filed under its own id, and ids below `nextId` are
        taken. */
    ghost predicate Valid()
      reads this
    {
      forall id :: id in table ==> table[id].id == id && id < nextId
    }

    /** An empty collection; the schema is built at `loadTime`. */
    constructor (rt: Runtime, loadTime: int)
      ensures Valid() && table == map[] && nextId == 0
      ensures this.rt == rt && schema == ExpenseSchemaAt(loadTime)
    {
      table := map[];
      nextId := 0;
      this.rt := rt;
      schema := ExpenseSchemaAt(loadTime);
    }

    /** POST /: on a failed check, 400 and no change; otherwise one new
        record of the caller's under a fresh id, answered with 201. */
    method Create(caller: UserId, body: Body) returns (resp: Response)
      requires Valid()
      modifies this
      ensures Valid()
      ensures PrepareCreate(rt, body).Err? ==>
                && resp == Response(400, Message(PrepareCreate(rt, body).error))
                && table == old(table) && nextId == old(nextId)
      ensures PrepareCreate(rt, body).Ok? ==>
                var f := PrepareCreate(rt, body).value;
                var e := Expense(old(nextId), caller, Str(f.title), Finite(f.amount), f.category, f.date, f.note);
                && old(nextId) !in old(table)
                && table == old(table)[old(nextId) := e]
                && nextId == old(nextId) + 1
                && resp == Response(201, Record(e))
    {
      var prepared := PrepareCreate(rt, body);
      if prepared.Err? {
        return Response(400, Message(prepared.error));
      }
      var f := prepared.value;
      CreateDraftValid(rt, body, caller, schema, nextId);
      var validated := Validate(schema, CreateDraft(caller, f), nextId);
      match validated {
        case Err(paths) =>
          resp := Response(400, Invalid(CreateInvalidMessage, paths));
        case Ok(e) =>
          assert e == Expense(nextId, caller, Str(f.title), Finite(f.amount), f.category, f.date, f.note);
          assert nextId !in table;
          table := table[nextId := e];
          nextId := nextId + 1;
          resp := Response(201, Record(e));
      }
    }

    /** GET /: the caller's records, newest first. */
    method List(caller: UserId) returns (resp: Response)
      requires Valid()
      ensures resp.status == 200 && resp.body.Records?
      ensures IsListing(table, caller, resp.body.expenses)
    {
      var pending := table.Keys;
      var found: seq<Expense> := [];
      while pending != {}
        invariant pending <= table.Keys
        invariant SortedByDateDesc(found)
        invariant forall e :: multiset(found)[e] == if OwnedRecord(table, caller, e) && e.id !in pending then 1 else 0
        decreases |pending|
      {
        var id :| id in pending;
        var e := table[id];
        if e.user == caller {
          found := InsertByDate(found, e);
        }
        pending := pending - {id};
      }
      resp := Response(200, Records(found));
    }

    /** DELETE /:id: removes the record only when it is the caller's; a
        missing record and another user's record both give the same 404. */
    method Delete(caller: UserId, id: ExpenseId) returns (resp: Response)
      requires Valid()
      modifies this
      ensures Valid() && nextId == old(nextId)
      ensures OwnedBy(old(table), id, caller) ==>
                table == old(table) - {id} && resp == Response(200, Message(DeletedMessage))
      ensures !OwnedBy(old(table), id, caller) ==>
                table == old(table) && resp == Response(404, Message(DeleteNotFoundMessage))
    {
      match FindOwned(table, id, caller) {
        case None =>
          resp := Response(404, Message(DeleteNotFoundMessage));
        case Some(_) =>
          table := table - {id};
          resp := Response(200, Message(DeletedMessage));
      }
    }

    /** PUT /:id: a refused payload changes nothing; otherwise the caller's
        record takes the patch, and a missing or foreign record gives the same
        404. No other record changes. */
    method Update(caller: UserId, id: ExpenseId, body: Body) returns (resp: Response)
      requires Valid()
      modifies this
      ensures Valid() && nextId == old(nextId)
      ensures CastPayload(rt, Payload(body)).Err? ==>
                resp == RejectionResponse(CastPayload(rt, Payload(body)).error) && table == old(table)
      ensures CastPayload(rt, Payload(body)).Ok? && !OwnedBy(old(table), id, caller) ==>
                resp == Response(404, Message(UpdateNotFoundMessage)) && table == old(table)
      ensures CastPayload(rt, Payload(body)).Ok? && OwnedBy(old(table), id, caller) ==>
                var updated := ApplyPatch(old(table)[id], CastPayload(rt, Payload(body)).value);
                table == old(table)[id := updated] && resp == Response(200, Record(updated))
    {
      var payload := BuildPayload(body);
      match CastPayload(rt, payload) {
        case Err(why) =>
          resp := RejectionResponse(why);
        case Ok(patch) =>
          match FindOwned(table, id, caller) {
            case None =>
              resp := Response(404, Message(UpdateNotFoundMessage));
            case Some(e) =>
              var updated := ApplyPatch(e, patch);
              table := table[id := updated];
              resp := Response(200, Record(updated));
          }
      }
    }
  }
}
