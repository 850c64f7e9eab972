# Smart Expense Tracker: request rules and dashboard list state, in Dafny

This project models the core of the Smart Expense Tracker, an Express and
MongoDB backend with a React dashboard.

On the server side it models:

- the bearer-token gate in front of the expense routes, with the header the
  client builds;
- registration and login over the user collection;
- the expense schema;
- the four expense routes: create, list, update and delete. Every expense route
  is scoped to the caller the gate admitted.

On the client side it models the dashboard page's list state:

- form validation;
- the optimistic add, which is later confirmed or rolled back;
- delete after the server agreed;
- the row-title and short-note display helpers.

Each collection is an in-memory table, and each route's query is one atomic step
on it. The MongoDB collections become the fields of the `UserStore` and
`ExpenseStore` classes, and the page state becomes the fields of `Dashboard.Page`.
The methods change those fields. Each method states the whole new state, in
terms of pure functions whose properties are proved as lemmas.

Some parts of the system are parameters rather than models:

- the JavaScript engine's number parsing, number printing and date parsing and
  rendering (`Js.Runtime`);
- bcrypt (`AuthRoutes.Crypto`);
- JWT signing and decoding (`AuthGate.Keys`).

Every property holds whatever these parameters do, except where a member asks
for a fact about them:

- `AuthRoutes.IssuedTokenAdmits` and `AuthRoutes.ExpiredAfterEightDays` ask for
  `AuthGate.SoundKeys`: decoding a signed payload gives it back, and a signed
  token is not empty and holds no space. `AuthRoutes.IssueToken` promises its
  decoding only under the same condition.
- `ExpenseRoutes.EmptyAmountIsZero` and `ExpenseRoutes.FoodExpenseTitle` ask
  that `rt.parseDate` accepts the body's date.
- `Dashboard.SubmitThenSave` and `Dashboard.SubmitThenFail` ask that
  `rt.isoDate` renders the form's date.

Files:

- `js.dfy`: the JavaScript values and built-ins the handlers rely on. These are
  truthiness, `Number(...)`, `String(...)`, `trim`, `slice`, `split(" ")` and
  the decimal rendering of an integer.
- `auth_gate.dfy`: backend/middleware/auth.js, and the header from
  frontend/src/api.js.
- `auth_routes.dfy`: backend/routes/authRoutes.js.
- `expense_schema.dfy`: backend/models/Expense.js.
- `expense_routes.dfy`: backend/routes/expenseRoutes.js.
- `dashboard.dfy`: frontend/src/pages/Dashboard.jsx.

The code behaves in these ways, which a reader might not expect; the model
follows the code:

- The two login failures do not give identical messages. An unknown e-mail
  gets "Invalid Email or password." and a wrong password gets "Invalid email or
  Password". They differ in the case of two letters and in a trailing full stop
  (`AuthRoutes.LoginFailureMessages`).
- Expense records carry no creation timestamp. The schema option is spelt
  `timpstamps`, which the schema ignores (`ExpenseSchema.NoTimestamps`).
- Create does not reject every missing amount. Only an absent amount is refused;
  `null` and `""` are stored as 0 (`ExpenseRoutes.EmptyAmountIsZero`).
- An update whose amount is not a number, or whose date is invalid, does not
  fail validation with a 400. The store cannot cast the value, and the route
  answers 500 "Server Error." Only the required `category` set to null or `""`
  gives the 400 "Verification Failed".
- The title is required only by the dashboard form. The server derives a title
  when there is none.

## Model

| member | source | states |
|---|---|---|
| Js.Trim | backend/routes/expenseRoutes.js:47-50 | trim: the result is a slice of the input with no white space at either end, and only white space is cut off before and after it; it is empty exactly when the input is blank |
| Js.Slice | backend/routes/expenseRoutes.js:50 | slice(0, n) is the prefix of length min(n, length) |
| Js.ToNumber | backend/routes/expenseRoutes.js:35 | Number(v): undefined gives NaN; null, false and blank strings give 0; true gives 1; a number is itself; any other string is trimmed and given to the engine's parser; an array or object converts through its text |
| Js.StringToNumber | frontend/src/pages/Dashboard.jsx:69 | Number(s) of a string: blank gives 0, anything else is the parse of the trimmed text |
| Js.SplitJoin | backend/middleware/auth.js:13 | split(" ") loses nothing: joining the fields with spaces gives the header back, and no field holds a space |
| Js.DecimalRoundTrip | frontend/src/pages/Dashboard.jsx:75 | the decimal text of the clock reads back as the clock, so distinct clocks give distinct texts |
| AuthGate.Verify | backend/middleware/auth.js:16 | a token verifies exactly when it decodes and the clock in seconds is before its expiry, and gives the decoded payload |
| AuthGate.BearerFields | backend/middleware/auth.js:8-13 | a header starting with "Bearer " splits into at least two fields, the first being "Bearer" |
| AuthGate.BearerToken | backend/middleware/auth.js:13 | the extracted token is the second space-separated field and holds no space |
| AuthGate.Gate | backend/middleware/auth.js:3-27 | a missing header or a header without the exact "Bearer " prefix gives 401 "No Token, Authorization Denied"; a token that fails to verify gives 401 "Token is not Valid"; otherwise the request goes on as the token's user; every refusal is a 401 |
| AuthGate.AuthHeader | frontend/src/api.js:11-12 | the client sends a header exactly when a non-empty token is stored, and then it is the "Bearer " prefix followed by that token |
| AuthGate.HeaderRoundTrip | backend/middleware/auth.js:8-13 | for a non-empty token with no space, the gate extracts from the client's header exactly that token |
| AuthGate.GateOnClientHeader | backend/middleware/auth.js:8-22 | with no stored token, or an empty one, the client's request is refused with "No Token, Authorization Denied"; for a stored token without spaces it is admitted exactly when its token verifies, as the token's user, and is refused with "Token is not Valid" when it does not |
| AuthGate.LowercaseSchemeRefused | backend/middleware/auth.js:8-10 | "bearer " in lower case is refused as having no token |
| AuthRoutes.PublicHidesPassword | backend/routes/authRoutes.js:44-48 | the stored hash never reaches a response: two users look the same in a response exactly when they differ at most in their hash |
| AuthRoutes.IssueToken | backend/routes/authRoutes.js:35-39 | with sound keys, the issued token is non-empty, holds no space and decodes to the user's id, the issue time in seconds and an expiry seven days later |
| AuthRoutes.IssuedTokenAdmits | backend/routes/authRoutes.js:35-39 | a token issued at T admits its user exactly while the clock in seconds is below T's seconds plus seven days, and is refused with 401 afterwards |
| AuthRoutes.ExpiredAfterEightDays | backend/routes/authRoutes.js:35-39 | eight days after issue the token is refused |
| AuthRoutes.LoginFailureMessages | backend/routes/authRoutes.js:68-76 | the unknown-e-mail and wrong-password messages differ; lower-cased, the first is the second plus a full stop |
| AuthRoutes.UserStore.Register | backend/routes/authRoutes.js:9-54 | a falsy field gives 400 with the table unchanged; a registered e-mail gives 400 with the table unchanged; otherwise exactly one user is added under that e-mail, with a fresh id and the hash rather than the password, and the 201 reply carries a token for the new id and only id, name and e-mail |
| AuthRoutes.UserStore.Login | backend/routes/authRoutes.js:57-98 | a missing field, an unknown e-mail and a wrong password each give their 400 message; a matching password gives a token for that user and only id, name and e-mail; a session token comes exactly with status 200 |
| ExpenseSchema.Validate | backend/models/Expense.js:3-31 | a record is valid exactly when user, amount and category pass their required checks; a failure names each failing path; a valid record keeps the given fields and defaults the date |
| ExpenseSchema.NoTimestamps | backend/models/Expense.js:30 | the misspelt option key adds no timestamps |
| ExpenseSchema.OptionalPaths | backend/models/Expense.js:10-28 | title and note never decide validity |
| ExpenseSchema.DefaultDateShared | backend/models/Expense.js:22-25 | every record without a date gets the same instant, the one at which the schema was built |
| ExpenseRoutes.FinalTitle | backend/routes/expenseRoutes.js:46-51 | the title is the trimmed title if it has text; else the trimmed note's first 60 characters, a prefix of at most 60; else the category's text and " expense"; never empty |
| ExpenseRoutes.PrepareCreate | backend/routes/expenseRoutes.js:27-51 | the checks of create in their order, each with its message; a body that passes all three checks is accepted; on success the converted amount and date, the category and note as given, and the derived title |
| ExpenseRoutes.CreateDraft | backend/routes/expenseRoutes.js:53-60 | the document handed to the store is owned by the caller, carries a finite amount that passes the required check, the parsed date, and the prepared title, category and note |
| ExpenseRoutes.CreateDraftValid | backend/routes/expenseRoutes.js:53-71 | in the model, where casting a value to String is left out, a body that passed the route's checks always passes the schema's required checks, so the "Validation failed" answer does not arise |
| ExpenseRoutes.EmptyAmountIsZero | backend/routes/expenseRoutes.js:30-35 | an amount of null or "" passes and is stored as 0 |
| ExpenseRoutes.FoodExpenseTitle | backend/routes/expenseRoutes.js:46-51 | the body with amount 42.5, category "Food" and a valid date, with no title or note, gets the title "Food expense" |
| ExpenseRoutes.FindOwned | backend/routes/expenseRoutes.js:94-97 | the query by id and owner finds a record exactly when that id exists and belongs to the caller |
| ExpenseRoutes.ForeignLooksMissing | backend/routes/expenseRoutes.js:127-135 | a record of another user answers the owner-scoped query exactly as a missing one |
| ExpenseRoutes.CreateVisibility | backend/routes/expenseRoutes.js:53-60 | a new record is visible to its owner only, and nothing else anyone sees changes |
| ExpenseRoutes.DeleteVisibility | backend/routes/expenseRoutes.js:94-103 | a deleted record is hidden from everyone, and nothing else anyone sees changes |
| ExpenseRoutes.InsertByDate | backend/routes/expenseRoutes.js:83 | inserting keeps the list sorted newest first, adds exactly that one record, and puts it first when it is no older than the head |
| ExpenseRoutes.Payload | backend/routes/expenseRoutes.js:116-121 | the payload holds exactly the allowed keys the body defines, with their values; never the owner or the id |
| ExpenseRoutes.PayloadIgnoresOtherKeys | backend/routes/expenseRoutes.js:117-121 | keys outside the allowed five do not affect the payload |
| ExpenseRoutes.BuildPayload | backend/routes/expenseRoutes.js:117-121 | the copying loop builds exactly the payload of the allowed keys that are not undefined |
| ExpenseRoutes.CastPayload | backend/routes/expenseRoutes.js:123-131 | an update is refused exactly when a present amount is NaN, a present date is invalid, or a present category fails its required check; a NaN amount is a cast failure of "amount", else an invalid date one of "date", else the category is a validator failure; otherwise the patch holds exactly the present keys, converted |
| ExpenseRoutes.ApplyPatch | backend/routes/expenseRoutes.js:129 | the fields the patch names take its values; the id, the owner and every other field keep theirs |
| ExpenseRoutes.UpdateKeepsUnmentioned | backend/routes/expenseRoutes.js:117-131 | a field the body leaves undefined keeps its value, the id and owner never change, and a null title or note is stored as null |
| ExpenseRoutes.RejectionResponse | backend/routes/expenseRoutes.js:139-147 | a value the store cannot cast gives 500; a failing validator gives 400 |
| ExpenseRoutes.ExpenseStore.Create | backend/routes/expenseRoutes.js:21-76 | a failed check gives 400 with its message and no change; otherwise exactly one record of the caller's is added under a fresh id, with the derived title, converted amount and date, and the note as given, and returned with 201 |
| ExpenseRoutes.ExpenseStore.List | backend/routes/expenseRoutes.js:81-89 | the answer holds each of the caller's records exactly once and no other, newest first |
| ExpenseRoutes.ExpenseStore.Delete | backend/routes/expenseRoutes.js:92-107 | only the record matching both id and caller is removed; otherwise 404 with the table unchanged |
| ExpenseRoutes.ExpenseStore.Update | backend/routes/expenseRoutes.js:111-149 | a refused payload changes nothing; a missing or foreign record gives the same 404 with no change; otherwise only the caller's record changes, by the patch, and is returned |
| Dashboard.ValidateForm | frontend/src/pages/Dashboard.jsx:49-56 | the first failing check in the order title, amount, category, date, with its message; none exactly when all pass |
| Dashboard.BlankAmountPasses | frontend/src/pages/Dashboard.jsx:51 | an amount of only spaces passes the check and converts to 0 |
| Dashboard.TempId | frontend/src/pages/Dashboard.jsx:75 | the temporary id is "tmp-" followed by the clock's decimal text |
| Dashboard.TempIdInjective | frontend/src/pages/Dashboard.jsx:75 | submits at different instants get different temporary ids |
| Dashboard.MakePayload | frontend/src/pages/Dashboard.jsx:67-73 | the posted body keeps title, category and note, carries the rendered date and Number of the amount text; a blank amount is 0 and a validated amount is never NaN |
| Dashboard.Optimistic | frontend/src/pages/Dashboard.jsx:76 | the optimistic item carries the temporary id and the payload's title, amount, category, date and note |
| Dashboard.ReplaceTemp | frontend/src/pages/Dashboard.jsx:83-85 | confirmation keeps the length; items not under the temporary id are unchanged; the temporary item becomes the response, or stays when the response is empty |
| Dashboard.Filter | frontend/src/pages/Dashboard.jsx:87-96 | the kept items are exactly those not dropped |
| Dashboard.FilterConcat | frontend/src/pages/Dashboard.jsx:96 | filtering keeps the order of what remains |
| Dashboard.RemoveTemp | frontend/src/pages/Dashboard.jsx:87 | rollback keeps exactly the items not under the temporary id |
| Dashboard.RemoveMatching | frontend/src/pages/Dashboard.jsx:96 | delete keeps exactly the items whose `_id` and `id` both differ from the target |
| Dashboard.ConfirmAfterSubmit | frontend/src/pages/Dashboard.jsx:77-85 | confirming right after the prepend gives the server's record in front of the earlier list |
| Dashboard.RollbackAfterSubmit | frontend/src/pages/Dashboard.jsx:77-87 | rolling back right after the prepend restores the earlier list |
| Dashboard.DeleteKeepsOrder | frontend/src/pages/Dashboard.jsx:96 | delete keeps the remaining items in their order |
| Dashboard.RowTitle | frontend/src/pages/Dashboard.jsx:177 | the row shows the title, else the note, else "-"; never blank |
| Dashboard.ShortNote | frontend/src/pages/Dashboard.jsx:350 | a note of at most 80 characters shows whole, a longer one as its first 80 and "...", none as "-" |
| Dashboard.Page.Change | frontend/src/pages/Dashboard.jsx:44-47 | only the named form input changes |
| Dashboard.Page.Submit | frontend/src/pages/Dashboard.jsx:58-79 | a failed check sets its message and changes nothing else; if the checks pass but the date cannot be rendered, only the error is cleared; otherwise exactly one optimistic item is put in front of the list, the form is emptied and the dialog closes |
| Dashboard.Page.Settle | frontend/src/pages/Dashboard.jsx:81-89 | on success only the temporary item is replaced; on failure it is removed and the error is the server's message or "Failed to add expense" |
| Dashboard.Page.Delete | frontend/src/pages/Dashboard.jsx:92-101 | nothing happens unless confirmed; after the server's success every matching item is removed and the view closes; on failure only the error is set |
| Dashboard.SubmitThenSave | frontend/src/pages/Dashboard.jsx:58-85 | a submit followed by a save leaves the saved record in front of the earlier list |
| Dashboard.SubmitThenFail | frontend/src/pages/Dashboard.jsx:58-89 | a submit followed by a failure leaves the list as it was before the submit |

## Left out

- Number parsing, number printing, date parsing and ISO rendering are floating-point and calendar algorithms. They are parameters of `Js.Runtime`, not models. This covers a JSON number that overflows to Infinity.
- Storing a value into a Mongoose String path is not modelled: a title, category or note is stored as the request gave it. A value the store cannot cast to a string, such as an object, is not refused. A malformed expense id in a path is not refused with 500 either, because ids are numbers here.
- Store and driver failures are left out, and so are the 500 answers they lead to (backend/routes/expenseRoutes.js:74, 87, 105, 147 in that role; backend/routes/authRoutes.js:50-53, 94-97). The 500 that an uncastable update value causes is modelled.
- AuthRoutes.UserStore.Register: the fields are strings or absent. backend/models/User.js is not part of this model, so schema rules of the user collection beyond the route's own checks are not modelled.
- AuthGate.Gate: a payload without a user id is admitted as that payload's user; the ids here are numbers and are always present.
- bcrypt and JWT internals are left out: hash, compare, sign and decode are parameters. No cryptographic property is claimed. The cost of hashing is not modelled.
- Concurrency is left out. This covers:
  - the check-then-create race between two registrations of one e-mail;
  - interleaved optimistic adds and deletes on the dashboard;
  - the clock producing one temporary id twice.
- The dashboard's running total (frontend/src/pages/Dashboard.jsx:103) sums floats and is left out.
- The initial load of the list (frontend/src/pages/Dashboard.jsx:23-42), the rendering, `window.confirm` (modelled as a boolean) and logging are left out.
- The `/test` route (backend/routes/expenseRoutes.js:10-17), the Express wiring and the JSON error handler in backend/server.js are left out, as routing glue.
- The list's order among records with equal dates is not fixed. `ExpenseRoutes.IsListing` allows any order among them, as the store does.
- Js.Slice: lengths count Unicode characters, whereas JavaScript's slice counts UTF-16 code units. For text outside the Basic Multilingual Plane the cut falls elsewhere, and JavaScript can split a surrogate pair.
- ExpenseRoutes.FinalTitle: the 60-character cut of the note counts Unicode characters, not UTF-16 code units, for the reason given under Js.Slice.
- Dashboard.ShortNote: the 80-character limit counts Unicode characters, not UTF-16 code units, for the reason given under Js.Slice.
- AuthRoutes.UserStore.Login: the e-mail and password are taken to be strings or absent. A JSON object sent as the e-mail, such as `{"$ne": null}`, would reach the user query as a query selector and match another user. That query and backend/models/User.js are not part of this model.
- ExpenseSchema.Validate: a `date` or `amount` set to null is not modelled; create never hands one to the store, and an update converts a null date to a date first.
- Js.IsSpace: the white-space set is the fixed list that trim uses; no Unicode database is consulted.
- Js.ToLower lowers the ASCII letters only. It is used only on the ASCII login messages.
