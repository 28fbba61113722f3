# Taka ni Mali waste-collection dashboard — a Dafny model

Taka ni Mali records waste collections made by field collectors and shows them on
a municipal dashboard. Collectors submit collections: a site, a waste type, a
date, volumes, whether the waste was separated, and a location. Anyone can
browse them with filters, see summaries, trend charts and markers on a map.
Accounts register and log in with email and password and carry a bearer token
(a JWT). Every request resolves that token into an optional session user.

This project models the core of that system and proves its properties:

- `Schema` (`schema.dfy`): the `users` and `collections` tables.
  - The row types.
  - The role and waste-type enumerations.
  - The fixed-point scales: a volume is an integer number of hundredths; a
    coordinate is an integer number of 1e-8 degrees.
  - The column defaults.
  - A `Database` class holding both tables and their auto-increment counters.
    Its `Valid()` covers unique keys, column widths and the foreign key;
    `DeleteAccount` states the cascade delete.
- `Tokens` (`tokens.dfy`): `extractTokenFromHeader`, which parses a bearer
  header exactly as `split(" ")` does, and the contract of
  `generateToken` / `verifyToken` over an abstract signer.
- `Context` (`context.dfy`): `createContext`. It goes from the header to a
  token, from the token to claims, and from the claims to an account. Any
  failure gives an anonymous request.
- `AuthRouter` (`auth_router.dfy`): `register` (a method that inserts into
  the `users` table), `login`, `verify`, `me` and `logout`.
- `CollectionsRouter` (`collections_router.dfy`): `submit`, `myRecords`,
  `filtered` (the WHERE clause built condition by condition), `summary` and
  `dashboardData` (the per-site and per-day maps built by loops).
- `Dashboard` (`dashboard.dfy`): the dashboard page.
  - The summary and trend data it recomputes from the filtered list.
  - Its copy of the map markers.
  - The three filter handlers and the inline handler of the "Waste
    Separated" select, as functions from page state to page state.
- `Folds`, `Wrappers`, `Trpc`: helper definitions.
  - Sums and grouped sums written so that a front-to-back loop keeps
    `acc == F(xs[..i])`.
  - Option and Result.
  - The error shapes of a tRPC procedure.

Some conventions hold throughout the model:

- A procedure's result is `Result<_, ApiError>`.
- A plain `throw new Error(msg)` inside a procedure reaches the caller as
  INTERNAL_SERVER_ERROR with that message.
- A zod failure is `InputInvalid` (BAD_REQUEST) and carries the schema's
  messages in field order.
- `getDb()` returning null is `db == null`.
- Foreign code not modelled here is passed in as function values:
  - `Signer` for jsonwebtoken;
  - `Passwords` for bcrypt;
  - `isEmail` for zod's email check;
  - `Parsers` for `Date` parsing, `Number()` (None for NaN), and MySQL's
    comparison of a DECIMAL column with a text bound. That comparison uses
    the bound's full precision, so it is given by two readings of the text
    in hundredths: the ceiling (for `>=`) and the floor (for `<=`).

## How the code behaves at three points

The model follows the code at each point below.

- **Role gates.** `submit` and `myRecords` refuse a caller whose role is
  plain `user` by throwing a plain Error. So does `submit` when the
  separated volumes exceed the total. tRPC reports all three as
  INTERNAL_SERVER_ERROR, not as FORBIDDEN or BAD_REQUEST.
- **The JWT secret.** `generateToken` and `verifyToken` read `JWT_SECRET`
  on every call. A missing secret therefore shows up only when one of them
  is called, not when the server starts.
- **Register is not atomic.** In `register`, a missing secret is detected
  after the insert, so the account stays in the table (see
  `AuthRouter.Register` and the finding below).

## Model

| member | source | states |
|---|---|---|
| Schema.AccountRow | drizzle/schema.ts:9-19 | the stored `users` row keeps every inserted value; `role` defaults to `user` |
| Schema.CollectionRow | drizzle/schema.ts:32-45 | the stored `collections` row keeps every inserted value; `wasteSeparated` defaults to false and `collectionCount` to 1 |
| Schema.WithoutAccount | drizzle/schema.ts:9-10 | after deleting account `id`, the rows left are exactly the rows with other ids |
| Schema.CascadeDelete | drizzle/schema.ts:34 | the collections that survive deleting account `id` are exactly those it did not collect |
| Schema.Database.constructor | drizzle/schema.ts:9-48 | both tables start empty, auto-increment starts at 1, and the database is valid |
| Schema.Database.InsertAccount | drizzle/schema.ts:10-19 | a row MySQL accepts gets the next id and is appended; the other table is unchanged; validity is kept (unique id, openId and email) |
| Schema.Database.InsertCollection | drizzle/schema.ts:33-45 | a row MySQL accepts (fits its columns, references an existing account) gets the next id and is appended; validity is kept |
| Schema.Database.DeleteAccount | drizzle/schema.ts:34 | deleting an account removes it and exactly the collections it owns; every remaining collection still references an existing account |
| Folds.GroupSumTotal | server/routers/collections.ts:217-221 | the buckets of the `acc[k] = (acc[k] \|\| 0) + v` idiom add up to the total of all values |
| Folds.GroupSumAt | server/routers/collections.ts:193-195 | there is a bucket for a key exactly when some element has that key, and it holds the sum of those elements' values |
| Tokens.GenerateToken | server/_core/auth.ts:34-44 | fails exactly when `JWT_SECRET` is unset or empty, with "JWT_SECRET environment variable is not set"; otherwise signs the payload with the secret and lifetime |
| Tokens.VerifyToken | server/_core/auth.ts:49-63 | a missing secret fails with the secret message; otherwise the result is the verified claims or "Invalid or expired token" |
| Tokens.TokenRoundTrip | server/_core/auth.ts:34-63 | with a configured secret, a token issued by `generateToken` verifies back to its payload |
| Tokens.VerifyFailureCollapses | server/_core/auth.ts:55-62 | with a configured secret, every verification failure is the single "Invalid or expired token" |
| Tokens.AsciiLower | server/_core/auth.ts:72 | lower-casing keeps the length and maps each character on its own |
| Tokens.IndexOfSpace | server/_core/auth.ts:71 | finds the first space |
| Tokens.SplitOnSpace | server/_core/auth.ts:71 | `split(" ")` yields at least one piece, and no piece contains a space |
| Tokens.SplitJoin | server/_core/auth.ts:71 | joining the pieces of `split(" ")` with spaces gives back the header |
| Tokens.SplitTwo | server/_core/auth.ts:71-76 | a space-free scheme, one space and a space-free token split into exactly those two pieces |
| Tokens.ExtractTokenFromHeader | server/_core/auth.ts:68-77 | a token exists only for a non-empty header, and it never contains a space; `Tokens.ExtractTokenExactly` states which headers yield which token |
| Tokens.ExtractTokenExactly | server/_core/auth.ts:68-77 | a header yields token `t` iff it is a case-insensitive "bearer", one space, then `t` containing no space |
| Tokens.ExtractTokenRejects | server/_core/auth.ts:69-74 | an absent header, "", "Bearer" and "Bearer  x" (two spaces) all give null |
| Tokens.ExtractTokenAccepts | server/_core/auth.ts:72-76 | "BEARER t" gives "t"; "Bearer " gives the empty token, not null |
| Context.FindById | server/_core/context.ts:31-39 | the lookup returns a row with the id, or none when no row has it |
| Context.SessionClaims | server/_core/context.ts:21-29 | there are claims iff the header carries a non-empty token and it verifies; they are the verified payload, which requires a configured secret |
| Context.CreateContext | server/_core/context.ts:14-52 | `req`/`res` pass through; the user is present iff a non-empty token verifies, a database exists and an account has the claimed id, and it is then that account |
| Context.NoTokenIsAnonymous | server/_core/context.ts:21-24 | no header, or a header without a non-empty token, gives an anonymous context |
| Context.RejectedTokenIsAnonymous | server/_core/context.ts:26-45 | a token that fails verification for any reason gives an anonymous context, not an error |
| Context.VerifiedSessionFindsAccount | server/_core/context.ts:29-39 | in a valid database, claims naming an account resolve to exactly that account |
| AuthRouter.RegisterIssues | server/routers/auth.ts:17-23 | registration input is rejected iff the email is invalid, the password is shorter than 8 UTF-16 code units or the name is empty |
| AuthRouter.JsLength | server/routers/auth.ts:20 | a string's JavaScript `length` in UTF-16 code units: at least its number of characters, at most twice it, and equal to it when no character lies beyond the Basic Multilingual Plane |
| AuthRouter.EmojiPasswordLongEnough | server/routers/auth.ts:20 | four emoji are eight code units, so such a password passes `.min(8)` |
| AuthRouter.LoginIssues | server/routers/auth.ts:106-111 | login input is rejected iff the email is invalid or the password is empty |
| AuthRouter.FindByEmail | server/routers/auth.ts:34-38 | the lookup returns a row with the email, or none when no row has it |
| AuthRouter.FindByEmailUnique | server/routers/auth.ts:122-135 | with unique emails, the lookup finds the one account holding the email |
| AuthRouter.FindByEmailAppend | server/routers/auth.ts:61-74 | after inserting a row with an unused email, re-selecting by that email finds the new row |
| AuthRouter.Public | server/routers/auth.ts:85-90 | the returned user: id, email, name and role, never the password hash; stated through `AuthRouter.Register`, `AuthRouter.Login` and `AuthRouter.Me` |
| AuthRouter.ClaimsOf | server/routers/auth.ts:76-80 | the token payload: the id, the email or "" when it is null, and the role; stated through `AuthRouter.Register`, `AuthRouter.Login` and `AuthRouter.LoginIssuesVerifiableToken` |
| AuthRouter.NatToString | server/routers/auth.ts:57 | renders `Date.now()` as decimal digits, without a leading zero, denoting exactly that number |
| AuthRouter.LocalOpenId | server/routers/auth.ts:57 | `local_` followed by the digits of the clock reading; distinct readings give distinct ids by `AuthRouter.LocalOpenIdInjective` |
| AuthRouter.LocalOpenIdInjective | server/routers/auth.ts:57 | different clock readings give different `local_…` openIds |
| AuthRouter.RegistrationRow | server/routers/auth.ts:52-58 | the insert values: email, name, hashed password, role `collector`, the local openId; `AuthRouter.Register` states the stored row built from them |
| AuthRouter.Register | server/routers/auth.ts:24-99 | each error case: bad input; no database; email taken (table unchanged); insert refused (table unchanged). On success, exactly one `collector` row is added, with the email, name and hashed password; the response carries a signed token and the public fields. A missing secret reports "Failed to register user" after the insert |
| AuthRouter.RegisterFailureKeepsAccount | server/routers/auth.ts:51-99 | as written: with no secret, registering a new email fails with "Failed to register user", yet the account is stored, and a second attempt gets "Email already registered" |
| AuthRouter.RegisterAtomic | server/routers/auth.ts:24-99 | corrected: any failure leaves both tables untouched; a missing secret always fails; success appends exactly one `collector` row with the email, name and hash, advances only the user counter, leaves `collections` unchanged and returns its signed token; valid input with a free email, a row MySQL accepts and a configured secret always succeeds |
| AuthRouter.Login | server/routers/auth.ts:112-169 | UNAUTHORIZED "Invalid email or password" exactly when the email is unknown, the stored password is null or empty, or the compare fails. Success returns the found account's public fields and a token for its id, email (or "") and role |
| AuthRouter.LoginIssuesVerifiableToken | server/routers/auth.ts:145-169 | an account holding the hash of the given password logs in; its token verifies to that account's claims |
| AuthRouter.Verify | server/routers/auth.ts:175-190 | any failure is UNAUTHORIZED "Invalid or expired token"; success is `valid: true` with the verified payload |
| AuthRouter.Me | server/routers/auth.ts:195-202 | without a session it is refused; otherwise it returns the session account's id, email, name and role |
| AuthRouter.Logout | server/routers/auth.ts:207-209 | always reports success and touches no state |
| CollectionsRouter.ParseWasteType | server/routers/collections.ts:12 | exactly "Organic", "Inorganic" and "Mixed" are waste types |
| CollectionsRouter.SubmissionIssues | server/routers/collections.ts:10-23 | input passes iff: the site name is non-empty; the waste type is valid; the date parses; the total volume is > 0; the count is >= 1; latitude is in [-90, 90] and longitude in [-180, 180] |
| CollectionsRouter.SubmittedValues | server/routers/collections.ts:66-79 | the insert values: the caller's id and each input field, the waste type and date parsed; `CollectionsRouter.Submit` states the stored row field by field and `CollectionsRouter.SeparationRule` its invariant |
| CollectionsRouter.CanWrite | server/routers/collections.ts:45-47 | only a caller whose role is plain `user` is refused |
| CollectionsRouter.SeparationRule | server/routers/collections.ts:55-61 | for input the schema accepts, the stored row meets the record invariant iff the separated-volume check passes (missing parts taken as 0, unseparated waste never checked) |
| CollectionsRouter.Submit | server/routers/collections.ts:42-86 | in order: no session, bad input, wrong role, no database, volumes over the total, insert refused. Each leaves the table unchanged. Otherwise exactly one record is appended: stamped with the caller's id, fields copied from the input, the record invariant holding |
| CollectionsRouter.MyRecords | server/routers/collections.ts:91-112 | behind the same gate, returns exactly the records whose collector is the caller |
| CollectionsRouter.FilterIssues | server/routers/collections.ts:26-36 | the only filter input refused is an unknown waste type |
| CollectionsRouter.Keep | server/routers/collections.ts:158-162 | the result holds only matching records from the table, and every matching record |
| CollectionsRouter.ConditionForMeaning | server/routers/collections.ts:129-156 | when the count bound is a number, the condition pushed for a criterion holds of a row iff the row meets that criterion; an invalid Date bound compares with NULL and holds of no row |
| CollectionsRouter.ConditionsMeanCriteria | server/routers/collections.ts:127-160 | when the count bound is a number, the AND of the pushed conditions holds of a row iff the row meets every given criterion |
| CollectionsRouter.PushTextConditions | server/routers/collections.ts:127-141 | the site, type and date pushes build their conditions in order, an invalid Date included |
| CollectionsRouter.PushNumericConditions | server/routers/collections.ts:142-156 | the volume, separation, count and organic pushes add their conditions in order; a count bound that is NaN is flagged |
| CollectionsRouter.Filtered | server/routers/collections.ts:117-167 | bad input, no database and a NaN count bound each give their error; otherwise the query returns exactly the matching records, in table order |
| CollectionsRouter.BadDateFindsNothing | server/routers/collections.ts:136-141 | a date bound that is not a valid Date makes the query return no rows |
| CollectionsRouter.BlankKeepsAll | server/routers/collections.ts:158-160 | with no criterion given, empty strings included, every record is returned |
| CollectionsRouter.NarrowingShrinks | server/routers/collections.ts:127-160 | adding criteria never adds results: the narrower result is contained in the wider one and is no longer |
| CollectionsRouter.ExactVolumeFinds | server/routers/collections.ts:142-147 | the range min = max = v keeps exactly the records whose volume lies between v's ceiling and floor in hundredths: for a whole number of hundredths, every record of that volume and nothing else |
| CollectionsRouter.FinerBoundFindsNothing | server/routers/collections.ts:142-147 | a bound finer than a hundredth used as both ends, such as "12.501", keeps no record, since its ceiling exceeds its floor |
| CollectionsRouter.SeparatedFalseExcludesSeparated | server/routers/collections.ts:148-150 | `wasteSeparated: false` is a real criterion: no separated record is returned |
| CollectionsRouter.TypeCountsPartition | server/routers/collections.ts:184-188 | the Organic, Inorganic and Mixed counts add up to the number of records |
| CollectionsRouter.SiteCounts | server/routers/collections.ts:193-195 | the `bySite` map has one entry per site that occurs, holding that site's record count; the entries add up to the number of records |
| CollectionsRouter.SiteCountAt | server/routers/collections.ts:193-195 | one site's entry exists iff a record is at that site, and it holds that site's record count |
| CollectionsRouter.Summary | server/routers/collections.ts:172-202 | `totalRecords` is the record count and `totalVolume` the volume sum; the type counts add up to `totalRecords`; `bySite` counts each site's records and adds up to `totalRecords` |
| CollectionsRouter.Markers | server/routers/collections.ts:224-234 | one marker per located record, in table order, each the marker of its record; every located record has its marker; there are no more markers than records |
| CollectionsRouter.Located | server/routers/collections.ts:225 | a record is placed on the map when both coordinates are set; the shape of the result is stated by `CollectionsRouter.Markers` |
| CollectionsRouter.ToMarker | server/routers/collections.ts:226-234 | a record's marker carries its id, coordinates, site name, waste type, volume and date; stated through `CollectionsRouter.Markers` |
| CollectionsRouter.DashboardData | server/routers/collections.ts:207-248 | one trend bucket per collection day, holding that day's volume sum; the buckets add up to `summary.totalVolume`; the markers are those of the located records; their number is at most `totalRecords` |
| Dashboard.TypeBucketAt | client/src/pages/Dashboard.tsx:69-72 | a waste type has an entry iff a record has that type, and the entry is that type's count |
| Dashboard.FilteredSummary | client/src/pages/Dashboard.tsx:62-74 | before data arrives it is zero totals and `{}`; after, it holds the list length and the volume sum, and each shown type count equals the number of records of that type. The three shown counts, and the map's entries, add up to the length |
| Dashboard.FilteredTrendData | client/src/pages/Dashboard.tsx:76-85 | `{}` before data arrives; after, one bucket per day, holding that day's volume sum; the buckets add up to the list's volume sum |
| Dashboard.ClientMarkers | client/src/pages/Dashboard.tsx:52-60 | without data there are no markers; with data the copy keeps length, order and each marker |
| Dashboard.ResetFilters | client/src/pages/Dashboard.tsx:102-115 | every text filter becomes empty; waste type and separation become undefined; the selection is cleared |
| Dashboard.ResetShowsAll | client/src/pages/Dashboard.tsx:102-115 | after a reset the query passes validation, is sent as built, and returns every record |
| Dashboard.MarkerClick | client/src/pages/Dashboard.tsx:87-100 | the marker is selected; the site filter is its site name; the waste type and separation become undefined and every other text filter ""; the query passes validation |
| Dashboard.MarkerClickShowsSite | client/src/pages/Dashboard.tsx:87-100 | after a click the query passes validation and is sent as built; it keeps only records whose site contains the marker's site name, and every record at that exact site |
| Dashboard.ClickedSiteRecords | client/src/pages/Dashboard.tsx:46-48 | the `filtered` query sent after a click answers the table's records whose site contains the marker's site name, every record at that site among them |
| Dashboard.FilterChange | client/src/pages/Dashboard.tsx:117-127 | clears the selection and sets the site name to ""; sets the named field to the value, or undefined when empty; leaves every other field as it was |
| Dashboard.SeparatedChange | client/src/pages/Dashboard.tsx:244-260 | "any" means undefined, otherwise the value is whether the choice is "true"; only the site name and this field change, and the selection is cleared |
| Dashboard.SelectsRoundTrip | client/src/pages/Dashboard.tsx:204-260 | choosing an option makes the select display that same option, and the filters still pass validation |
| Dashboard.FilterChangeKeepsQueryValid | client/src/pages/Dashboard.tsx:117-127 | changing a text field other than the waste type never makes the query invalid |

## Left out

- How `protectedProcedure` fails without a session. It is defined in
  `server/_core/trpc.ts`, which is not part of this model. The model reports
  UNAUTHORIZED with the placeholder message "UNAUTHORIZED", before input
  validation.
- `getDb()` and `server/db.ts` are not part of this model. The database is
  either present or absent for a whole call. A query failing part-way is
  covered only by the errors that MySQL's own checks produce.
  `summary`'s and `dashboardData`'s "Failed to fetch ..." errors and
  `myRecords`' "Failed to fetch records" need such a failure, so the model
  never reports them.
- MySQL is assumed to run in strict mode. An insert is refused when:
  - a value does not fit its DECIMAL or VARCHAR column;
  - a unique key clashes;
  - the foreign key names no account.
- Schema.Database: `comments`, `name` and `password` are TEXT columns, and
  their 64 KiB limit is not modelled.
- Schema.Database: ids beyond the INT range are not modelled.
- Timestamps (`createdAt`, `updatedAt`, `lastSignedIn`) are not modelled.
  They are never read by the core.
- The following are parameters, not models:
  - bcrypt: the hash, its salt and the compare;
  - jsonwebtoken: signing, the HS256 algorithm, the expiry clock;
  - zod's email regular expression;
  - `Date.parse` / `new Date`;
  - `Number()`;
  - how MySQL reads a text bound it compares with a DECIMAL column (only its
    ceiling and floor in hundredths enter the model);
  - `Date.now()`.
- Floating point is not modelled. `parseFloat` sums are exact sums of
  hundredths, and zod's number checks are read on the scaled integers. So a
  submitted volume finer than 0.01 or a coordinate finer than 1e-8 degree
  cannot be stated. (A text filter bound such as "12.501" can be: see
  `CollectionsRouter.FinerBoundFindsNothing`.)
- CollectionsRouter.Submit: the submitted numbers are whole hundredths (and
  whole 1e-8 degrees). In the source a totalVolume of 0.001 passes
  `.positive()`, and MySQL then rounds it to 0.00 when storing it into
  DECIMAL(10, 2), which it does with a note even in strict mode. The stored
  row would then break the `totalVolume > 0` of `RecordInvariant`. The
  model cannot express that input, so it does not show that outcome.
- CollectionsRouter.Submit: the separated-volume check compares exact
  hundredths. The source adds two JavaScript doubles, so organic 0.1 plus
  inorganic 0.2 (0.30000000000000004) exceeds a total of 0.3 there and is
  refused with "Separated volumes cannot exceed total volume", while the
  model accepts it. The model states the exact comparison the check is
  meant to make.
- Dates are day numbers. `toISOString().split("T")[0]` and time zones are
  not modelled, so a trend bucket key is the day number itself.
- CollectionsRouter.Contains: `LIKE '%…%'` is read as plain substring
  containment. The source does not escape `%` or `_` in the user's text, so
  such characters act as wildcards there. The case-insensitive collation of
  the comparison is not modelled either.
- CollectionsRouter.Summary: `bySite` is a map. The source uses a plain
  JavaScript object, where a site named like an `Object.prototype` member
  (such as "constructor") reads an inherited value. That is not modelled.
- CollectionsRouter.Filtered: two bounds depend on the MySQL driver's
  escaping of parameters, which is assumed, not modelled. An invalid Date
  bound is taken to be sent as NULL, so the query returns no rows
  (`BadDateFindsNothing`). A count bound for which `Number()` gives NaN is
  taken to reach the SQL text as the bare word `NaN`, which MySQL refuses,
  so the call fails with "Failed to fetch filtered collections".
- AuthRouter.FindByEmail: emails are compared exactly. The `users` table
  gets MySQL's default case-insensitive collation, under which "A@x.com"
  matches a stored "a@x.com". So in the source `register` reports "Email
  already registered" for it and `login` finds that account, while the
  model treats the two emails as different (also in `AuthRouter.Register`
  and `AuthRouter.Login`).
- Schema.Database: the unique key on `email` is modelled with exact
  equality, not with the case-insensitive collation MySQL applies.
- AuthRouter.Register: the "Failed to create user" branch is left out. The
  re-select by email can never miss the row just inserted
  (`FindByEmailAppend`), so that branch cannot occur.
- The superjson transport of results, the React query cache, rendering,
  the map and the charts are not modelled.

## Findings

| source | as written | input that shows it | evidently intended | confidence | as-written member | corrected member |
|---|---|---|---|---|---|---|
| server/routers/auth.ts:51-81 | the insert happens before `generateToken`, inside the same try block | `JWT_SECRET` unset, `register` with a new valid email: the call fails with "Failed to register user", yet the account is stored, and retrying gives "Email already registered" | a failed registration leaves the table unchanged | medium, not executed | AuthRouter.RegisterFailureKeepsAccount | AuthRouter.RegisterAtomic |
