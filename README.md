# myHEROsg REST API core, modelled in Dafny

This project models the core of a REST API that books GP (general practitioner) check-ups. Three kinds of account use it: users, partners (GP practices) and admins. The model covers four parts.

- **Accounts and sessions for the three roles.**
  - The account models: e-mail lower-casing, the password setter, `authenticate`, `generateToken`, `findByToken` and `toPublicJSON`.
  - The session (token) model, which stores only the MD5 of a token.
  - The three `requireAuthentication` middleware.
  - The login and logout handlers.
- **The appointment-request lifecycle.**
  - The request schema: statuses, defaults and length bounds.
  - Creation, reading one request, and the user and partner patches. Each role has its own whitelist of target statuses and its own `lastUpdater` stamp.
- **The listing query builders.**
  - The user history, the partner listing, the admin listings of requests, users and partners, and the GP search.
  - Each one turns a query string into a `where` object plus offset and limit.
- **The update e-mail formatter**, which shows the previous and the updated request and puts each changed value in bold.

## How it is modelled

- **Foreign libraries.** bcrypt, AES, JWT, MD5, JSON, `Date.parse`, `toDateString` and the `isEmail` validator are function-valued fields. They live in `Primitives.Library` and `Primitives.Host`.
  - `Primitives.Lawful` states the laws the code relies on: a password compares true against its own hash, decrypt undoes encrypt, verify undoes sign, the empty token fails verification, and parse undoes stringify on token payloads.
  - `Primitives.Ideal` is a concrete library, and `Primitives.IdealIsLawful` proves it meets the laws, so the laws are consistent.
- **The database.** Both databases are one object, `Store.Db`. Each table is a sequence in rowid order.
  - findOne returns the first matching row.
  - The ids of new rows are the last id + 1.
  - Sessions are deleted, so their ids come from a counter.
- **Queries.** The meaning of a `where` under the SQLite dialect is in `Query`:
  - equality, with integer columns matching their decimal text;
  - `$in`, date ranges with finite bounds, and `LIKE`;
  - the LIMIT/OFFSET window of findAndCountAll;
  - a condition on a column the table lacks makes the query fail.
- **The three roles share one definition** of authentication, token handling, login, logout and the middleware, parameterised by `Roles.Role`. The roles differ in two places:
  - the payload key, `Roles.PayloadKey`: `id`, `partnerId` or `adminId`;
  - the login's `catch`. The user handler sends `e.errors`, which throws when `authenticate` rejects with no value; the partner and admin handlers send an empty 401. That is `Auth.FailureReplyAsWritten` (see Findings).
- **Handlers are methods.** Each one reads or updates `Store.Db`, builds its `where` or `attributes` step by step as the source does, and is proved equal to a specification function. The lemmas are stated about those functions.
- **Crashes are error outcomes**, in the form of a 500 response.
  - In the user history, a `partnerId` without a `userId` reaches `query.userId.length` on an undefined value.
  - Otherwise a non-empty `userId` turns `partnerId` into a filter on a column `partner` that does not exist.
  - In the admin listing, a non-empty `partnerId` names an undeclared variable.
- **The user's `lastUpdater` stamp** reads `firstName` and `lastName`. The user model has neither, so the stamp is `"undefined undefined"`. That is `UserController.UserStamp`.
- **The handlers identify the caller by `get('uid')` and look requests up by a column `uid`.** Neither model defines `uid` (see Findings).
  - The handler methods use the corrected owner, the caller's `id`, and the corrected column `id`.
  - The members named `...AsWritten...` show what the code as written does.

## Model

| member | source | states |
|---|---|---|
| Accounts.ToPublicJson | models/user.js:94-97 | the public JSON never holds `salt`, `password_hash` or `password`; every attribute it holds has the row's value |
| Accounts.PublicJsonKeys | models/partner.js:123-126 | for a row of its role, the public JSON holds exactly the role's attributes: id, email and timestamps; a partner adds partnerName, address, phone and verified |
| Accounts.FirstMatching | models/user.js:54-58 | findOne returns a stored row that meets the condition, or no stored row meets it |
| Accounts.FirstWithEmail | models/user.js:54-58 | the lookup by e-mail returns a row of the table with that exact e-mail, or none exists |
| Accounts.FirstWithEmailFindsRow | models/user.js:54-58 | with unique e-mails, looking up a stored row's e-mail returns that row |
| Accounts.FindById | models/user.js:76 | the lookup by id returns a row with that id, or none exists |
| Accounts.FindByIdFindsRow | models/user.js:76-80 | with increasing ids, looking up a stored row's id returns that row |
| Accounts.Authenticate | models/user.js:48-68 | a missing (non-string) e-mail or password rejects; an accepted account is in the table, has exactly the given e-mail, and its hash matches the password |
| Accounts.AuthenticateAccepts | models/user.js:54-63 | the right e-mail and a password matching the hash always authenticate that account |
| Accounts.AuthenticateIsCaseSensitive | models/user.js:54-58 | the login e-mail is not lower-cased: one with an upper-case letter never matches, since stored e-mails are lower case |
| Accounts.GenerateToken | models/user.js:98-117 | a token is produced exactly when the type is a string |
| Accounts.FindByToken | models/user.js:69-91 | a resolved account is in the table; a token that fails to verify, decrypt or parse resolves nothing |
| Accounts.TokenRoundTrip | models/user.js:69-117 | under the library laws, findByToken of a generated token gives exactly the lookup of the id it was made for |
| Accounts.OtherRoleTokenRejected | models/partner.js:98-140 | a token minted for one role resolves no account for any other role, because the payload key differs |
| Accounts.EmptyTokenRejected | models/user.js:69-75 | the empty token resolves no account |
| Accounts.AccountInstance.constructor | models/user.js:9-38 | a new instance holds the body's attributes, no password, salt or hash, and `verified` false |
| Accounts.AccountInstance.SetPassword | models/user.js:30-37 | the setter stores the password, a fresh salt and the bcrypt hash of the password with that salt |
| Accounts.AccountInstance.BeforeValidate | models/user.js:40-45 | the hook lower-cases a present e-mail and leaves an absent one absent |
| Accounts.AccountInstance.Row | models/partner.js:42-46 | the row an instance saves fits its role: partner details exactly when it is a partner |
| Accounts.CreatedRow | models/partner.js:9-75 | a created account has a lower-case e-mail that passes isEmail, came from a password of 7 to 100 characters whose hash matches it, fits its role, starts unverified if a partner, and clashes with no stored row |
| Accounts.CaseInsensitiveDuplicateRejected | models/user.js:10-45 | an e-mail that lower-cases to a stored one is refused as a duplicate |
| Sessions.TokenInstance.constructor | models/token.js:4-21 | a new session instance holds no token and no hash |
| Sessions.TokenInstance.SetToken | models/token.js:11-16 | the setter stores the token and the MD5 of it (of the empty text when absent) |
| Sessions.NewSession | models/token.js:5-20 | a session record is created exactly when the token is present and non-empty, and it stores only the MD5 of the token |
| Sessions.FirstWithHash | middleware/middleware_user.js:9-16 | the session lookup returns a record with that hash, or none exists |
| Sessions.RemoveId | controllers/user.js:340-343 | destroying a record removes exactly the records with its id and keeps every other record |
| Sessions.RemoveIdKeepsOrder | controllers/user.js:340-343 | after a record is destroyed, the remaining ids are still increasing |
| Sessions.CreatedSessionIsFound | models/token.js:11-16 | once a token's record is stored, looking up the MD5 of the same token finds a record |
| Sessions.DestroyedSessionIsGone | controllers/user.js:340-343 | after the record is destroyed, its hash finds nothing, when no other record has that hash |
| Primitives.SignedTokenNonEmpty | models/user.js:109-113 | a signed token is never the empty string |
| Primitives.IdealIsLawful | models/user.js:1-6 | model infrastructure, not a behaviour of the source: a concrete library meets every law assumed of the libraries these lines import, so the laws are consistent |
| Auth.LoginSpec | controllers/user.js:53-70 | a login issues a non-empty 'authentication' token for the account that authenticated; it fails as refused credentials exactly when `authenticate` rejects, and as a refused session record only for an empty token |
| Auth.Authorize | middleware/middleware_user.js:6-26 | access is granted only with a stored session whose hash is the MD5 of the header, and with the account the token resolves to; no session found means no record matched |
| Auth.LoginAccepts | controllers/user.js:57-65 | the right credentials always log in, as that account |
| Auth.LoginThenAuthorized | middleware/middleware_user.js:9-22 | once its session is recorded, a login's token passes the same role's middleware, resolving to the account that logged in |
| Auth.OtherRolesDenied | middleware/middleware_partner.js:19-25 | a token issued by one role's login is refused by every other role's middleware, although its session record exists |
| Auth.MissingHeaderDenied | middleware/middleware_user.js:7 | a request without an `Auth` header is refused |
| Auth.LogoutRevokes | controllers/partner.js:217-219 | when no other record shares its hash, once logout destroys the matched record the same header finds no session at all |
| Auth.SessionLifecycle | controllers/admin.js:42-59 | the whole cycle: login records one session, the middleware grants exactly that session and account, and after logout the token is refused |
| Auth.Login | controllers/user.js:53-70 | on success: `Auth` header holding the issued token, the public JSON, and exactly one new session record storing the token's MD5; on a failure: the session table unchanged, and no answer for a user whose credentials `authenticate` refused, 401 otherwise |
| Auth.FailureReplyAsWritten | controllers/user.js:66-69 | the login catch as written: no answer exactly for a user refused by `authenticate` (reading `errors` of an undefined rejection value throws), otherwise 401 without a token |
| Auth.FailureReply | controllers/partner.js:45-48 | the catch as intended, as the partner and admin handlers write it: every failed login is answered 401 without a token |
| Auth.FailureReplyDiffersOnlyForUser | controllers/admin.js:55-58 | the written and the intended catch differ exactly for a user refused by `authenticate` |
| Auth.UserLoginFailureUnanswered | models/user.js:50-53 | a user login without credentials is rejected by `authenticate` and, as written, gets no answer, where the intended catch answers 401 |
| Auth.RequireAuthentication | middleware/middleware_user.js:6-26 | `req.token` is set as soon as a record matches; the role's principal only when the account resolves, and then `next`; any failure gives 401 with the other principals unchanged |
| Auth.Logout | controllers/user.js:340-346 | the matched record is destroyed and the answer is 204; the 500 of a failed `destroy` is left out |
| Store.Db.constructor | profiles_db.js:9-28 | model infrastructure, not a behaviour of the source: the model's assumed start state, empty tables of the profile and request databases that meet every table invariant |
| Store.Db.CreateSession | models/token.js:5-16 | inserts the validated record with the next id, or nothing; the table invariants hold |
| Store.Db.DestroySession | controllers/user.js:340-343 | deletes the record's id and keeps the invariants |
| Accounts.Build | models/user.js:9-46 | the build, setter, hook and validation steps on a fresh instance give None exactly where creation fails before the uniqueness check; otherwise the row creation inserts unless it clashes, fitting its role, with a lower-case e-mail and the given id |
| Store.Db.InsertAccount | models/user.js:9 | appends the row to its role's table only |
| Store.Db.CreateAccount | models/user.js:9-46 | inserts exactly the outcome of build, hook, validation and the uniqueness check into the role's table; the other tables are unchanged |
| Store.Db.CreateRequest | models/request.js:4-59 | appends exactly the created request, or nothing |
| Store.Db.UpdateRequest | models/request.js:5-59 | replaces the row with its update when no attribute is null and the update validates, otherwise changes nothing |
| Store.Replace | models/request.js:36-51 | the update replaces the rows with the target id and keeps every other row |
| Store.AppendKeepsAccountsValid | models/user.js:10-17 | appending a fresh, non-clashing, lower-case row keeps ids increasing and e-mails unique |
| Requests.ToJson | models/request.js:4-59 | a request's JSON holds exactly the table's columns |
| Requests.ToPublicJson | models/request.js:62-67 | the public JSON holds exactly id, userId, partnerId, description, GPResponse, status, appointmentTime, lastUpdater and the timestamps, with the row's values |
| Requests.PublicJsonIsWholeRow | models/request.js:62-67 | the public JSON of a request is its whole row |
| Requests.CreateDefaults | models/request.js:5-59 | creation succeeds exactly when the owner is an integer and the description is not null and has at most 300 characters (a missing one defaults to ""); the row starts 'processing' with empty GPResponse and 'creator' as stamp, and is valid |
| Requests.Apply | models/request.js:5-59 | update replaces exactly the attributes given a value, stamps the updater, and keeps id, owner and creation time |
| Requests.ApplyUnchanged | models/request.js:52-59 | an update with no attributes and the same stamp leaves the row as it was |
| Gps.ToJson | models/gp.js:2-22 | a GP's JSON holds exactly the table's columns |
| Gps.BuildRules | models/gp.js:3-21 | a GP is created exactly when its name has 1 to 250 characters and its phone is non-empty; `available` is true only if the body says so |
| Js.ParseIntOfDecimal | controllers/user.js:133-139 | parseInt reads back every integer from its decimal text |
| Js.ParseIntUnsigned | controllers/user.js:133-135 | without a sign, parseInt reads the magnitude the leading digits give, or NaN |
| Js.ParseIntNegative | controllers/user.js:137-139 | after a '-', parseInt reads the negated magnitude, or NaN |
| Js.ToDecimalInjective | controllers/gp.js:64 | distinct ids have distinct decimal texts |
| Js.ToLowerNormalises | models/user.js:41-44 | lower-casing keeps the length, gives lower-case text, is idempotent and leaves lower-case text alone |
| Js.Pick | models/user.js:94-97 | `_.pick` keeps exactly the listed keys that are present, with their values |
| Query.Select | controllers/gp.js:41-43 | a row is selected exactly when it is in the table and meets every condition |
| Query.NoneSelected | controllers/user.js:159-163 | when no row meets the condition, the selection is empty |
| Query.AllSelected | controllers/admin.js:175-178 | an empty `where` selects every row |
| Query.Run | controllers/gp.js:41-47 | a query fails exactly when it names a column the table lacks |
| Query.FindOne | controllers/user.js:240-256 | the first match, which meets the condition; no match means no row meets it |
| Query.Skip | controllers/user.js:159-163 | the offset skips at most the whole selection |
| Query.Window | controllers/user.js:159-163 | the page is the run of rows after the offset, as long as the limit when the limit is positive, otherwise every remaining row |
| Query.FindAndCountAll | controllers/user.js:159-177 | the count is the number of matching rows, and the rows are the page of them |
| Query.TrailingPercentMatchesAll | controllers/gp.js:29-33 | '%' matches every text |
| Query.PrefixMatch | controllers/gp.js:29-33 | 'q%' matches exactly the texts that start with q, ignoring case |
| Query.LeadingPercent | controllers/gp.js:29-33 | '%r' matches exactly when r matches some suffix |
| Query.SubstringSearch | controllers/gp.js:29-39 | for q without wildcards, '%q%' matches exactly the texts containing q, ignoring case |
| Listing.ReadPage | controllers/user.js:126-139 | the page is read as the specification function says |
| Listing.PageRules | controllers/user.js:133-139 | the limit is 5 or a number below 30 read from a non-empty `limit`; without an `offset` the offset is 0; a positive limit bounds the page by it |
| Listing.NonPositiveLimitListsEverything | controllers/user.js:137-139 | a limit that parses to 0 or below passes the check and the page is every row |
| Listing.AddOptionalFilters | controllers/user.js:145-157 | adds the status filter and the time filter as the specification function says |
| Listing.OptionalFiltersHold | controllers/user.js:145-157 | every row let through has the requested status and an appointment time within each bound set |
| Listing.RunRequestsMatches | controllers/user.js:159-163 | every listed request is stored and meets the `where` |
| Listing.RequestsJson | controllers/user.js:170-172 | one JSON per row, in order |
| Listing.PushRequests | controllers/user.js:170-172 | the `forEach` pushes each row's JSON in order |
| Listing.RespondWithRequests | controllers/user.js:159-177 | 500 when the query fails, otherwise 200 with the page, the count and the rows |
| Editing.OwnedLookup | controllers/user.js:240-246 | the lookup filters exactly on id and the owner column |
| Editing.Read | controllers/user.js:238-257 | 200 with the found row, or 404 "Resquest not found" |
| Editing.OwnedLookupFinds | controllers/user.js:240-246 | a stored request is found exactly when the caller owns it and the route id is its id in decimal |
| Editing.ReadAsWrittenFails | controllers/user.js:242-245 | keyed on `uid`, the lookup fails for every table and caller |
| Editing.EditableLookup | controllers/user.js:280-287 | the patch lookup filters on id, owner and status |
| Editing.PatchAsWrittenFails | controllers/user.js:280-287 | keyed on `uid`, the patch lookup fails for every table and caller |
| Editing.NullAttributeRefused | controllers/user.js:264-274 | a patch that sets partnerId, description or GPResponse to null changes nothing and answers 404 or 400 "Bad data provided", since every column refuses null |
| Editing.Patch | controllers/user.js:280-327 | the response and the new table are exactly PatchSpec: 404 when no open request of the caller has the id, 400 "Bad data provided" when the update sets a null or is invalid, otherwise the row is replaced and the e-mail outcome decides 200 or 400 |
| Editing.ReplaceAt | controllers/user.js:303 | with increasing ids, the update replaces one position only |
| Editing.LookupMeaning | controllers/user.js:280-287 | a request the patch lookup lets through is open, owned by the caller, and has the route id |
| Editing.PatchChangesOneOpenRow | controllers/partner.js:158-181 | a patch that changes the table replaced exactly one row, open and owned by the caller, with its valid update |
| Editing.ClosedRequestsAreFinal | controllers/user.js:280-287 | a completed or cancelled request is never changed by any patch |
| UserController.GetHistory | controllers/user.js:121-178 | the response is the listing of HistoryQuery for the caller, with the page read from the query |
| UserController.HistoryScopedToCaller | controllers/user.js:122-157 | the history lists only the caller's own requests, with the requested status and within the time bounds |
| UserController.HistoryAsWrittenIsEmpty | controllers/user.js:124 | with the owner read through `uid`, the history is always empty or fails |
| UserController.HistoryPartnerFilterFails | controllers/user.js:141-143 | sending `partnerId` gives 500 unless `userId` is sent empty |
| UserController.IntendedHistoryFilters | controllers/user.js:141-143 | with the `partnerId` guard and column corrected, the history never fails and lists only the caller's requests to the partner and with the status asked for |
| UserController.PostRequests | controllers/user.js:215-236 | 404 unless the partner exists; otherwise exactly the created request is appended and answered with its public JSON, or 400 and nothing stored |
| UserController.CreateTakesCaller | controllers/user.js:216-231 | a created request belongs to the caller and starts 'processing'; creation succeeds exactly when the description is not null and fits |
| UserController.CreateAsWrittenRejected | controllers/user.js:225 | with the owner read through `uid`, every creation is refused |
| UserController.GetRequestsId | controllers/user.js:238-257 | 200 with the caller's request with that id, or 404 |
| UserController.GetRequestsIdScoped | controllers/user.js:240-246 | a user reads a request exactly when it is theirs and has the route id |
| UserController.PatchRequestsId | controllers/user.js:259-328 | the response and the new table are PatchSpec with the user's lookup and attributes |
| UserController.UserPatchRules | controllers/user.js:276-301 | a user's patch edits one of the caller's open requests; the status stays or becomes cancelled or completed; GPResponse is untouched; the stamp is the user's; a body setting partnerId or description to null changes nothing |
| PartnerController.GetPartnersRequests | controllers/partner.js:73-122 | the response is the listing of ListingQuery for the caller with the default page |
| PartnerController.ListingScopedToPartner | controllers/partner.js:75-106 | the listing never fails, lists at most five requests, all addressed to the caller, from the requested user if one is given, with the requested status |
| PartnerController.ListedRow | controllers/partner.js:75-101 | each listed row meets the owner, user and status conditions |
| PartnerController.ListingAsWrittenIsEmpty | controllers/partner.js:76 | with the owner read through `uid`, the listing is always empty |
| PartnerController.GetPartnersRequestsId | controllers/partner.js:124-143 | 200 with the request with that id addressed to the caller, or 404 |
| PartnerController.GetPartnersRequestsIdScoped | controllers/partner.js:127-132 | a partner reads a request exactly when it is addressed to them and has the route id |
| PartnerController.ListingIgnoresPage | controllers/partner.js:73-106 | the listing is the same with or without `offset` and `limit` in the query |
| PartnerController.IntendedListingPages | controllers/partner.js:62-63 | paged as documented, the listing never fails, counts what the written one counts, keeps its scoping, and holds at most the query's positive limit of rows |
| PartnerController.PatchPartnersRequestsId | controllers/partner.js:145-205 | the response and the new table are PatchSpec with the partner's lookup and attributes |
| PartnerController.PartnerPatchRules | controllers/partner.js:147-179 | a partner's patch edits one open request addressed to the caller; the status stays or becomes cancelled, completed or accepted; description, owners and appointment time are untouched; the stamp is the partner's name; a body setting GPResponse to null changes nothing |
| PartnerController.LongPartnerNameBlocksPatches | controllers/partner.js:179 | a partner whose name exceeds the 100-character stamp bound can change no request |
| AdminController.PostAdmins | controllers/admin.js:18-26 | 200 with the public JSON of exactly the created admin, appended to the admin table, or 400 and nothing stored; the other tables are unchanged |
| AdminController.AdminCreated | controllers/admin.js:18-26 | a created admin has the lower-cased e-mail and a matching hash, and its public JSON is exactly id, email and the timestamps |
| AdminController.GetAdminsRequests | controllers/admin.js:84-144 | the response is the listing of AdminQuery with the page read from the query |
| AdminController.AdminListingRules | controllers/admin.js:102-112 | the listing fails exactly when a non-empty `partnerId` is sent; listed requests meet the `userId` and status filters |
| AdminController.IntendedAdminFilters | controllers/admin.js:102-112 | with `query.partnerId` read, the listing never fails and listed requests meet the `partnerId`, `userId` and status filters |
| AdminController.AdminListingUnscoped | controllers/admin.js:86-100 | without filters the listing counts every request and pages through all of them |
| AdminController.PublicJsons | controllers/admin.js:185-187 | one public JSON per account, in order |
| AdminController.PushPublic | controllers/admin.js:185-187 | the `forEach` pushes each account's public JSON in order |
| AdminController.ListAccounts | controllers/admin.js:158-193 | the response is the account listing of the table |
| AdminController.GetAdminsUsers | controllers/admin.js:158-193 | the users listing of the user table |
| AdminController.GetAdminsPartners | controllers/admin.js:207-242 | the partners listing of the partner table |
| AdminController.AccountListingHidesSecrets | controllers/admin.js:184-187 | the listing counts the whole table, shows a page of it, and each item holds exactly the role's public attributes, never a salt, hash or password |
| GpController.GpsJson | controllers/gp.js:44 | one JSON per GP, in order |
| GpController.GetGps | controllers/gp.js:19-48 | 200 with the JSON of every GP the search selects |
| GpController.EmptySearchListsAll | controllers/gp.js:21 | without `available`, `q` and `phone` every GP is listed |
| GpController.GpWhereMeaning | controllers/gp.js:21-39 | one GP meets the search `where` exactly when it has the availability asked for, and its name and phone contain `q` and `phone`, ignoring case |
| GpController.GpSearchMeaning | controllers/gp.js:23-39 | a GP is listed exactly when it meets the availability asked for ('true' or 'false' only) and its name and phone contain `q` and `phone`, ignoring case |
| GpController.GetGpsId | controllers/gp.js:61-74 | 200 with the GP with that id, or 404 with the message under the key "error" (the other handlers use "errors") |
| GpController.GetGpsIdFinds | controllers/gp.js:64-71 | a stored GP is found exactly when the route id is its id in decimal |
| UpdateEmail.IsDifferentMarksChanges | emails/formats/email_inform_update_format.js:4-10 | isDifferent returns the text unchanged exactly when nothing changed, and in bold exactly when it changed |
| UpdateEmail.Values | emails/formats/email_inform_update_format.js:21-27 | each block has one value per label |
| UpdateEmail.Marked | emails/formats/email_inform_update_format.js:30-36 | each updated value passes through isDifferent against the previous one |
| UpdateEmail.HeadingCarriesId | emails/formats/email_inform_update_format.js:18 | the request's id can be read back from the heading |
| UpdateEmail.Format | emails/formats/email_inform_update_format.js:12-38 | the subject is the fixed do-not-reply text, and the body opens with the heading for the updated request |
| UpdateEmail.UpdatedBlockEmphasisesChanges | emails/formats/email_inform_update_format.js:30-36 | each updated line shows the new value, in bold exactly when it differs from the previous one |
| UpdateEmail.UnchangedRequestRepeatsBlock | emails/formats/email_inform_update_format.js:21-36 | when no value changed, the updated block repeats the previous block |
| UpdateEmail.StatusChangeMarksStatusOnly | emails/formats/email_inform_update_format.js:30-36 | a lone status change puts only the status line in bold |

## Left out

- E-mail delivery. Sending the update e-mails (emails/inform_update.js) and the verification e-mail (emails/verify_email.js) is I/O. The outcome of each update e-mail is a boolean parameter of the patch methods.
- The SMTP account in the update e-mail format file is configuration, not behaviour.
- The un-awaited lookups of the other party's e-mail address in both patch handlers race with the update. They are not modelled.
- getVerify and getMe. `getVerify` calls a `verifyEmail` the user model does not define. `getMe` is not part of this model.
- postUsers, postPartners and postAdminsGps. They are thin `create` wrappers (`Store.Db.CreateAccount` covers the first two). postAdminsGps sends fields the GP model lacks.
- server.js, db.js, profiles_db.js and requests_db.js. They set up routes and connections and are not part of this model.
- The libraries. bcrypt, AES, JWT, MD5 and JSON are laws, not algorithms. Salts, initialisation vectors, issue times and clocks are parameters.
- Dates. `Date.parse` and `toDateString` are host functions. A date is an integer or NaN.
- Query.AtLeast, Query.AtMost: a NaN date is compared as JavaScript compares it, so a NaN bound or a NaN stored appointment time matches no range. In the source the comparison happens in SQL after Sequelize escapes the value for the DATE column, and that handling is not modelled. It can differ: the query can fail, or a NaN bound can let every row through. This applies to the bounds built by `Listing.OptionalFiltersHold`'s filters in the user history, the partner listing and the admin listing (for example `?after=2017-01-01&before=`), and to the NaN appointment time `Requests.Create` stores when none is sent.
- Case conversion. `toLowerCase` is modelled on ASCII letters only.
- `parseInt` whitespace. parseInt skips ASCII whitespace and the common Unicode spaces, not every Unicode space.
- Column affinity. SQLite converts text compared with an integer column by column affinity. The model approximates that as "the text equals the integer's decimal form", so text such as "07" or " 7" does not match 7.
- Body types. A request body's properties are missing, JSON null or a value (`Js.Field`), and null is followed through: a null description fails creation, and a null partnerId, description or GPResponse fails a patch with 400. Values of other JSON types are not modelled: a creation body's `partnerId` is an integer, or absent when it is null or no integer (findById then finds no partner); a patch's `partnerId` is an integer; texts are strings; and non-string e-mails or passwords are folded into "absent".
- The start state. No file given here syncs or empties profiles.sqlite or requests.sqlite: server.js syncs only the database of db.js and mounts none of the handlers modelled here. The model starts from empty tables that meet every invariant.
- Validation errors. The 400 bodies of creation (`e` or `e.errors`) are empty in the model.
- The 404 "Requests not found" branches. findAndCountAll always returns a result, so these cannot happen.
- Accounts.GenerateToken: the `catch` around encryption and signing cannot be reached under the library laws. The function therefore fails only for a missing type.
- Query strings. `Http.QueryString` gives each parameter one text value. Express's default query parser gives an array for a repeated key and an object for a bracketed key, and the listings pass those straight into `where` (controllers/user.js:122-157, controllers/partner.js:74-95, controllers/admin.js:85-112, controllers/gp.js:20-39). So `?status=accepted&status=completed` becomes an IN filter and `?status[$ne]=cancelled` an operator filter; neither is modelled.
- Database faults. The model's database never fails. The source answers 500 when a database call is rejected, and the model has no such branch: `Auth.Logout` always answers 204, while controllers/user.js:343-345 answers 500 when `destroy` fails; `GpController.GetGps` never takes the `findAll` rejection handler of controllers/gp.js:45-46; `UserController.PostRequests` never takes the partner lookup's 500 of controllers/user.js:233-235. The same holds for every other rejection handler on a query.
- Number precision. `Js.ParseInt` is exact over unbounded integers. JavaScript numbers are doubles, so offsets, limits and ids above 2^53 lose precision in the source and not in the model.
- Secrets. All roles share one `Primitives.Secrets`. The user and admin models load their encryption and signing passwords from files next to the models (models/user.js:5-6, models/admin.js:5-6), the partner model from `encrypt_and_hash_code/` (models/partner.js:5-6). The files are not part of this model, so whether the keys agree is not known; the roles are kept apart by the payload key alone.
- Auth.Logout: never answers 500, because the model's database never fails (see Database faults).
- Auth.Login: after a refused session record the user handler's 401 carries the validator's error list (`e.errors`); the model sends an empty body, as for the other validation errors.
- Promise rejections without a handler leave a request unanswered. For example, the patch lookups as written have no rejection handler. The model shows that the lookup fails and does not model the hanging request.
- The Postgres dialect. The model follows SQLite, the development dialect.

## Findings

| source | as written | input that shows it | evidently intended | confidence | as-written member | corrected member |
|---|---|---|---|---|---|---|
| controllers/user.js:124 | the history filters on `userId = req.user.get('uid')`, but the user model has no `uid`, so the filter compares with NULL | any user with stored requests asks for the history | filter on the caller's `id` | high, not executed | UserController.HistoryAsWrittenIsEmpty | UserController.HistoryScopedToCaller |
| controllers/user.js:225 | a new request takes `userId` from `uid`, which is undefined, and `userId` may not be null | any user posts a request for an existing partner | the new request belongs to the caller's `id` | high, not executed | UserController.CreateAsWrittenRejected | UserController.CreateTakesCaller |
| controllers/user.js:243 | the single-request lookup filters on a column `uid` the request table lacks, so the query fails | GET of any request id by any user | look up by `id` | high, not executed | Editing.ReadAsWrittenFails | UserController.GetRequestsIdScoped |
| controllers/user.js:282 | the patch lookup filters on a column `uid` the request table lacks, so no patch reaches update() | PATCH of any request id by any user | look up by `id` | high, not executed | Editing.PatchAsWrittenFails | UserController.UserPatchRules |
| controllers/partner.js:76 | the partner listing filters on `partnerId = req.partner.get('uid')`, which is undefined | any partner with requests addressed to them asks for the listing | filter on the caller's `id` | high, not executed | PartnerController.ListingAsWrittenIsEmpty | PartnerController.ListingScopedToPartner |
| controllers/partner.js:129 | the partner's single-request lookup filters on a column `uid` the request table lacks | GET of any request id by any partner | look up by `id` | high, not executed | Editing.ReadAsWrittenFails | PartnerController.GetPartnersRequestsIdScoped |
| controllers/user.js:66-69 | the user login's catch sends `e.errors`, but `authenticate` rejects with no value, so the catch throws and the failed login is never answered | any user login with a wrong password or an unknown e-mail | answer 401, as the partner and admin logins do | high, not executed | Auth.FailureReplyAsWritten | Auth.FailureReply |
| controllers/partner.js:62-63 | the listing documents `offset` and `limit`, but the handler never reads them, so every page is the first five | a partner asks for `?offset=5` | page by the query's `offset` and `limit`, as the other listings do | high, not executed | PartnerController.ListingIgnoresPage | PartnerController.IntendedListingPages |
| controllers/user.js:141-143 | the history's `partnerId` branch tests `query.userId.length` and filters on a column `partner` the table lacks, so sending `partnerId` fails with 500 | `?partnerId=3` alone (TypeError), or with `userId=1` (no such column) | test `query.partnerId` and filter on `partnerId` | high, not executed | UserController.HistoryPartnerFilterFails | UserController.IntendedHistoryFilters |
| controllers/admin.js:102-104 | the admin listing assigns an undeclared `partnerId`, which throws, so a non-empty `partnerId` fails with 500 | `?partnerId=3` | filter on `query.partnerId` | high, not executed | AdminController.AdminListingRules | AdminController.IntendedAdminFilters |
| controllers/partner.js:160 | the partner's patch lookup filters on a column `uid` the request table lacks | PATCH of any request id by any partner | look up by `id` | high, not executed | Editing.PatchAsWrittenFails | PartnerController.PartnerPatchRules |
