# A model of the coupon-hunt backend

This project models the Express/Mongoose backend in `server.js`, together with proofs about it. It covers:

- the coupon ("treasure") registry: creating coupons, listing the available ones, and settling claims box by box, with a coupon deleted once it is used up;
- the counter middlewares, which fill the global stats document and the per-visitor documents;
- the per-user activity reports;
- the account routes: register, login, token verification, forgot password and reset password;
- referrer classification;
- the admin pages: visitor pagination and the data reset.

The store is modelled as a value `Routes.Db`:

- a map for each collection;
- the singleton stats document as an `Option`;
- two id generators that stand in for ObjectIds.

Every route is a function from a store and a request to a new store and a reply (`Routes.*`). `Routes.Step` dispatches one request, and `Routes.Run` applies a sequence of them.

The running server is the class `Server.Backend`. It has one field per collection. Each handler updates those fields in place, in the order the source writes them: decrement, then credit the report, then count the completion, then delete. Each handler is proved to end in exactly the state, and give exactly the reply, that its route function describes. Each handler also keeps the store invariant `Routes.Valid`, which says:

- every coupon satisfies `remaining <= total`, and sits at zero or below only if it was created that way;
- ids are below their generator;
- usernames, emails and live reset tokens are unique.

The library calls become parameters (oracles):

| oracle | stands for |
|---|---|
| `verify` | `jwt.verify` |
| `sign` | `jwt.sign` |
| `matches` | `bcrypt.compare` |
| `digest` | what `bcrypt.hash` produces |
| the fresh `token` | `crypto.randomBytes` |
| `mailSent` | whether nodemailer delivered |
| `parsedHost` | `new URL(referrer).hostname`, or None when the constructor throws |
| `device` | UAParser's reading of the user agent |
| an integer `now` | the clock |
| `adminPassword` | `ADMIN_RESET_PASSWORD` |

Two assumptions sit on these oracles:

- `Routes.Issued`: a verifying token names only a user id the store has already handed out, because tokens are signed with the server's secret.
- `Routes.FreshToken`: a new reset token is held by no account.

Modules, one per file:

- `common`: `Option`, and JavaScript truthiness.
- `text`: `includes`, `startsWith`, `replace` of the first occurrence, `toLowerCase`, `trim`.
- `auth`: the two token middlewares.
- `referrer`: referrer classification.
- `pagination`: the admin page arithmetic.
- `documents`: the schemas and single-document updates.
- `routes`: the route functions and the invariant.
- `properties`: invariant preservation and counter monotonicity over whole runs.
- `treasure_rules`: create, claim and exhaustion.
- `account_rules`: registration, login and password reset.
- `server`: the `Backend` class.

## Behaviour of the source worth noting

- **Listing coupons, `GET /api/treasures`.** It increments only the global `appOpenCount`. The visitor's document gets `visitCount` and `lastVisit`, but not `appOpenCount`, and no report is touched (server.js:311). `Routes.ListTreasures` does exactly that.
- **Creating a coupon.** There is no check that a box count was supplied. A missing count makes both counts default to 1. A count of 0 or below is stored as given (server.js:32, server.js:320). A coupon therefore sits at `remainingBoxes <= 0` only if it was created that way. `Routes.BoxesOk` keeps `remainingBoxes <= totalBoxes`, and allows `remainingBoxes <= 0` only while `remainingBoxes == totalBoxes`, that is, for a coupon created with at most 0 boxes and never claimed since.
- **The visitor's creation counter.** It rises only when the original URL is exactly `/api/treasures` (server.js:106). A query string suppresses it.
- **An invalid or expired token on an optional-auth route.** It is refused with 401 before `trackVisitor` and `countApiCall` run (server.js:318, server.js:336). Such a request therefore counts nothing. Every claim request that passes the token check raises the global opened counter, whether the id is malformed, unknown or a live coupon (`TreasureRules.ClaimOfMalformed`, `TreasureRules.ClaimOfAbsent`, `TreasureRules.ClaimOfExisting`). When the request also carries an address and its original URL starts with `/api/treasures/`, the caller's visitor document counts it too (`TreasureRules.ClaimCountsVisitor`).
- **A malformed id.** It is 400 on the claim route (server.js:383-385) but 500 on the admin lookup (server.js:531).
- **Account lookups.** The user schema trims and lowercases `username` and `email` (server.js:46-47). Mongoose (version 5 on) applies those setters to the values of a query filter too, inside `$or` as well. So the registration pre-check, the login lookup and the reset request (server.js:251, server.js:270, server.js:172) compare the input as the store would hold it, `Text.Normalize`. Lowering the input first changes nothing (`Text.NormalizeLower`). A stored name padded with white space is therefore "user already exists" at registration (`AccountRules.PaddedDuplicateRefused`), and it logs in. Past the pre-check, no unique index can clash, because the pre-check compares the very values they index; a 500 from registration comes only from the schema's validators.

## Model

| member | source | states |
|---|---|---|
| Text.IndexOf | server.js:470-475 | the result is the first position where the keyword occurs, and it is None exactly when the keyword occurs nowhere (`includes`) |
| Text.ContainsAt | server.js:470-475 | an occurrence at any position makes `includes` true |
| Text.ReplaceFirst | server.js:117 | with no occurrence the string is unchanged; otherwise the text before the first occurrence and everything after it are kept, and only that one occurrence is replaced (`String.prototype.replace` with a string pattern) |
| Text.LowerChar | server.js:251 | no ASCII capital remains, and every other character is left as it is |
| Text.Lower | server.js:251 | same length, and each character is lowered (`toLowerCase` on ASCII) |
| Text.TrimStartDropsLeadingSpace | server.js:46-47 | dropping leading white space (`TrimStart`) leaves a suffix of the input, everything dropped is white space, and the result does not start with white space |
| Text.TrimEndDropsTrailingSpace | server.js:46-47 | dropping trailing white space (`TrimEnd`) leaves a prefix of the input, everything dropped is white space, and the result does not end with white space |
| Text.LowerIdempotent | server.js:46-47 | lowercasing a lowercased value changes nothing |
| Text.TrimStartLower | server.js:46-47 | lowering commutes with dropping leading white space, since it neither makes nor removes any |
| Text.TrimEndLower | server.js:46-47 | lowering commutes with dropping trailing white space |
| Text.NormalizeLower | server.js:251 | lowercasing the input before the schema's trim and lowercase setters run on it changes nothing, so the lookups compare the input as the store would hold it |
| Auth.OptionalAuth | server.js:128-156 | the optional middleware's only refusal is 401 "invalid or expired token" |
| Auth.StrictAuth | server.js:114-125 | the strict middleware never lets a guest through |
| Auth.ExtractTokenEmptyIff | server.js:115-118 | for a non-empty header, the token left after removing "Bearer " is empty exactly when the header is exactly "Bearer " |
| Auth.BearerPrefixStripped | server.js:117 | "Bearer " followed by anything yields that rest; only the first occurrence is removed ("Bearer Bearer x" gives "Bearer x") |
| Auth.RawTokenAccepted | server.js:137 | a header that never mentions the scheme is taken whole as the token |
| Auth.GuestIffNoCredentials | server.js:128-143 | the optional middleware yields a guest exactly when the header is absent or empty, or is the bare scheme; a bad token is never downgraded to a guest |
| Auth.StrictVersusOptional | server.js:114-156 | the two middlewares side by side: optional guest iff strict 401 (no or malformed token); optional 401 iff strict 400; the same claims are accepted by both |
| Referrer.StripWww | server.js:467 | one leading "www." is removed; a hostname without it is unchanged |
| Referrer.FirstMatch | server.js:470-476 | the reference reading: the result is a table entry whose domain the hostname contains, or "Other" with the hostname when no entry matches |
| Referrer.ChainIsFirstMatch | server.js:470-476 | the if/else chain equals the first match in the fixed platform table, for every hostname |
| Referrer.MessengerBeforeFacebook | server.js:470-471 | a hostname containing both messenger.com and facebook.com is Messenger |
| Referrer.OtherIffUnknown | server.js:470-476 | the platform is "Other" exactly when the hostname contains no known keyword, and then the domain is the hostname itself |
| Referrer.ClassifyOutcomes | server.js:461-483 | a falsy referrer, "direct" or an unparsable URL gives (Direct/Unknown, direct); otherwise the result is a known platform whose keyword the stripped hostname contains, or (Other, stripped hostname) |
| Referrer.Record | server.js:486-490 | the chosen domain's count rises by one; its platform is written only when the domain is inserted; every other domain is unchanged |
| Pagination.CeilDiv | server.js:541 | `Math.ceil(a / b)` characterised by its bounds, for a divisor of either sign |
| Pagination.Window | server.js:539 | skip/limit: a negative skip is refused; otherwise the window holds exactly min(abs(limit), documents past the skip) documents (all of them for a zero limit), each the one at its position after the skip |
| Pagination.Paginate | server.js:536-541 | the limit is never 0; refused exactly when the skip (page - 1) * limit is negative; otherwise currentPage is the parsed page (default 1), totalPages is ceil(total / limit), the total is the collection size, and the data are exactly the min(abs(limit), documents past the skip) documents from position skip on |
| Pagination.TotalPagesAreTheNonEmptyPages | server.js:538-541 | with a positive limit, pages 1 to totalPages start inside the collection, the next page starts past its end, and totalPages is 0 exactly for an empty collection |
| Pagination.DefaultsApply | server.js:536-537 | an absent page and a zero limit give page 1 and the first 20 documents |
| Documents.NewTreasure | server.js:320 | a new coupon has remainingBoxes equal to totalBoxes, both 1 when no count is given (schema default, server.js:32), and the placement fields as sent |
| Documents.TimestampFor | server.js:86-89 | a timestamp is set for exactly the three fixed counter names, each for its own counter, and never for the completed counter |
| Documents.Bump | server.js:86-90 | `$inc` raises the chosen counter by one and sets its timestamp when one is given; every other counter and timestamp is unchanged |
| Documents.VisitorCounterFor | server.js:104-107 | the visitor's created counter is chosen iff POST with URL exactly `/api/treasures`, the opened counter iff PATCH under `/api/treasures/`, and otherwise none |
| Documents.Visit | server.js:103-108 | visitCount rises by one, lastVisit is now, firstVisit is kept, user agent and device are overwritten, and only the chosen extra counter rises |
| Routes.CountApiCall | server.js:83-94 | countApiCall touches only the stats document (upserting it): the named counter rises by one and no other counter changes |
| Routes.TrackVisitor | server.js:96-111 | trackVisitor touches only the visitor collection and nothing without an address; with one, every other address's document is unchanged and the caller's (a fresh one stamped now if missing) has one more visit, lastVisit now, the first visit kept, this request's user agent and device, and exactly the creation or opening counter that the method and original URL select raised by one |
| Routes.Available | server.js:313 | exactly the coupons with remainingBoxes > 0, unchanged |
| Routes.ListTreasures | server.js:311-316 | the listing is 200 with exactly the available coupons, so it never returns one with remainingBoxes <= 0, and no coupon changes |
| Routes.CreateTreasure | server.js:318-334 | the reference for coupon creation: 401 for a token that does not verify, before anything is counted; otherwise trackVisitor, countApiCall('treasuresCreatedCount'), then `Routes.CreateHandler` (properties in `TreasureRules.CreateOfValidBody`, `TreasureRules.CreateOfUncastableBody`) |
| Routes.CreateHandler | server.js:319-332 | the handler: 400 for a body the store cannot cast; otherwise the coupon is saved under the next id with all its boxes, a logged-in creator's report (upserted) counts it, and the reply is 201 with the document |
| Routes.ClaimTreasure | server.js:336-390 | the reference for a claim: 401 for a token that does not verify, before anything is counted; otherwise trackVisitor, countApiCall('treasuresOpenedCount'), then `Routes.ClaimHandler` (properties in `TreasureRules`) |
| Routes.ClaimHandler | server.js:337-385 | the handler: 400 for an uncastable id, 404 for an unknown one; otherwise one box less, the claimer's report (upserted) counts it, and at no box left the completion is counted and the coupon deleted; the reply is 200 with the post-decrement document |
| Routes.OpenedApp | server.js:393-421 | the reference for the opened-app route: 401 for a token that does not verify; otherwise the visitor's count (upserted) and then a logged-in caller's existing report, and 200 |
| Routes.CountVisitorAppOpen | server.js:396-403 | the visitor with this address (a fresh one if missing) opens the app once more; no address, no change |
| Routes.CountReportAppOpen | server.js:405-414 | a logged-in caller's existing report opens the app once more, last opened now; no report is created |
| Routes.LogVisitorTime | server.js:423-434 | 400 without an address or a positive duration; otherwise the duration is added to an existing visitor only, and 204 |
| Routes.LogUserTime | server.js:438-456 | strict auth first; 400 without a positive duration; otherwise the duration is added to the caller's existing report only, and 204 |
| Routes.TrackReferrer | server.js:458-499 | the referrer's classification is recorded (`Referrer.Record`), and 200 |
| Routes.GetStats | server.js:505-510 | the singleton stats document, or an empty one when none exists, with 200; nothing changes |
| Routes.AdminTreasures | server.js:519-524 | the coupons with boxes left, with 200; nothing changes |
| Routes.AdminTreasure | server.js:526-532 | 500 for an uncastable id, 404 for an unknown one, otherwise the document with 200; nothing changes |
| Routes.AdminVisitors | server.js:534-543 | the visitors in their sort order, paginated by `Pagination.Paginate`, with 200, or 500 when the store refuses the skip; nothing changes |
| Routes.ResetData | server.js:545-558 | 401 without the configured password; with it every collection is emptied and the reply counts what was deleted |
| Routes.Register | server.js:247-262 | the reference for registration: 400 for a missing field, 400 "user exists" when the normalised name or email is stored, 500 for a document the schema refuses, otherwise 201 with the account and a zeroed report saved under the next user id |
| Routes.FindByName | server.js:270 | the lookup by name: an account storing exactly that name, and None exactly when no account does |
| Routes.FindByEmail | server.js:172 | the lookup by email: an account storing exactly that email, and None exactly when no account does |
| Routes.Login | server.js:265-291 | the reference for login: 400 for a missing field, 401 when no account stores the normalised name or the password does not match; otherwise the report's last login is set and 200 carries a token for the account's id and stored name |
| Routes.VerifyToken | server.js:294-303 | strict auth, then 200 with the name of the account the token names, or 404 when there is none |
| Routes.ForgotPassword | server.js:167-217 | the reference for the reset request: 500 without an email; 200 with no change when no account stores the normalised email; otherwise that account gets the token, expiring in an hour, and the reply is 200 or 500 by the mail result |
| Routes.ResetPassword | server.js:220-244 | 400 when no account holds the token unexpired; 500 without a password; otherwise that account's password becomes the digest and its token is cleared, and 200 |
| Routes.Step | server.js:166-558 | one request, dispatched to its route as the routers mount them |
| Routes.Run | server.js:166-558 | a sequence of requests applied one after another |
| Properties.MiddlewaresKeepValid | server.js:83-111 | both middlewares keep the store invariant |
| Properties.ListKeepsValid | server.js:311-316 | the listing keeps the invariant and moves neither id generator |
| Properties.CreateKeepsValid | server.js:318-334 | create keeps the invariant (the new id is fresh, and its boxes satisfy the box invariant) |
| Properties.CreateHandlerKeepsValid | server.js:319-332 | the create handler keeps the invariant for a caller whose id was handed out, and the coupon id generator does not go back |
| Properties.ClaimKeepsValid | server.js:336-390 | claim keeps the invariant: a coupon that survives a claim still has at least one box and never more than its total |
| Properties.ClaimHandlerKeepsValid | server.js:337-376 | the claim handler keeps the invariant and moves neither id generator: a coupon it keeps has at least one box left |
| Properties.OpenedAppKeepsValid | server.js:393-421 | the opened-app route keeps the invariant |
| Properties.UserTimeKeepsValid | server.js:438-456 | the user log-time route keeps the invariant |
| Properties.RegisterKeepsValid | server.js:247-262 | registration keeps ids below the generator and usernames, emails and reset tokens unique |
| Properties.RegisterShape | server.js:247-262 | registration either leaves the store as it was or adds one account and one zeroed report under the next user id |
| Properties.Enrolled | server.js:253-257 | when every guard lets the body through, the account is saved under the next user id with the normalised name and email, the digest and no reset token, a zeroed report is saved beside it, and the reply is 201 |
| Properties.RefusedRegisterChangesNothing | server.js:250-260 | when some guard refuses the body, the store is unchanged and the reply is not 201 |
| Properties.AddKeepsUnique | server.js:46-47 | an account whose name and email no stored account has, and which holds no reset token, keeps names, emails and reset tokens unique |
| Properties.ForgotKeepsValid | server.js:167-217 | forgot-password with a fresh token keeps reset tokens unique |
| Properties.ForgotTouchesOnlyUsers | server.js:167-217 | the reset request writes to the accounts and nowhere else, and adds or removes no account |
| Properties.ResetPasswordKeepsValid | server.js:220-244 | the reset route keeps the invariant |
| Properties.LoginKeepsValid | server.js:265-291 | login keeps the invariant |
| Properties.LoginTouchesOnlyReports | server.js:265-291 | login writes to the reports and nowhere else, adds no report, and changes no field of a report but its last-login time |
| Properties.TreasureStepKeepsValid | server.js:311-421 | every coupon and app-open request keeps the invariant |
| Properties.AccountStepKeepsValid | server.js:247-303 | every register, login and verify request keeps the invariant |
| Properties.RecoveryStepKeepsValid | server.js:167-244 | every forgot-password request with a fresh token, and every reset request, keeps the invariant |
| Properties.OtherStepKeepsValid | server.js:423-558 | every time-logging, referrer, stats and admin request keeps the invariant |
| Properties.StepKeepsValid | server.js:166-558 | every request keeps the invariant, and the user id generator never goes back |
| Properties.RunKeepsValid | server.js:166-558 | every sequence of requests with fresh reset tokens keeps the invariant |
| Properties.TrackVisitorGrows | server.js:96-111 | trackVisitor lowers no counter |
| Properties.CountApiCallGrows | server.js:83-94 | countApiCall lowers no counter |
| Properties.MiddlewaresGrow | server.js:83-111 | neither middleware lowers any counter |
| Properties.BothMiddlewaresGrow | server.js:83-111 | the two middlewares in sequence lower no counter |
| Properties.ClaimHandlerGrows | server.js:337-376 | the claim handler lowers no stats, visitor, report or referrer counter |
| Properties.CreateHandlerGrows | server.js:319-332 | the create handler lowers no counter |
| Properties.ClaimGrows | server.js:336-390 | a claim request lowers no counter |
| Properties.CreateGrows | server.js:318-334 | a create request lowers no counter |
| Properties.VisitorAppOpenGrows | server.js:396-403 | the opened-app visitor upsert lowers no counter |
| Properties.ReportAppOpenGrows | server.js:405-414 | the opened-app report update lowers no counter |
| Properties.OpenedAppGrows | server.js:393-421 | the opened-app route lowers no counter |
| Properties.VisitorTimeGrows | server.js:423-434 | the visitor log-time route lowers no counter |
| Properties.UserTimeGrows | server.js:438-456 | the user log-time route lowers no counter |
| Properties.ReferrerGrows | server.js:458-499 | the referrer route lowers no count and changes no recorded platform |
| Properties.RegisterGrows | server.js:247-262 | registration lowers no counter (the new report goes under a fresh id) |
| Properties.LoginGrows | server.js:265-291 | login lowers no counter |
| Properties.ForgotGrows | server.js:167-217 | forgot-password lowers no counter |
| Properties.ResetPasswordGrows | server.js:220-244 | reset-password lowers no counter |
| Properties.TreasureStepGrows | server.js:311-421 | no coupon or app-open request lowers a counter |
| Properties.AccountStepGrows | server.js:247-303 | no register, login or verify request lowers a counter |
| Properties.RecoveryStepGrows | server.js:167-244 | no forgot-password or reset request lowers a counter |
| Properties.OtherStepGrows | server.js:423-543 | no time-logging, referrer, stats or admin read lowers a counter |
| Properties.StepGrows | server.js:166-543 | no request other than the admin reset lowers a stats, visitor, report or referrer counter |
| Properties.RunGrows | server.js:166-543 | over any run without an admin reset, no counter is lower at the end than at the start |
| Properties.ResetDataClears | server.js:545-558 | the right password empties every collection (the id generators are kept) |
| Properties.ResetDataRefused | server.js:546-547 | a missing or wrong password is 401 and nothing is deleted |
| TreasureRules.MiddlewaresKeepTreasures | server.js:83-111 | the middlewares change no coupon and no report; the named counter rises by one and no other does |
| TreasureRules.ClaimOfExisting | server.js:336-376 | on an existing id: exactly one box is taken and the post-decrement document is returned with 200; the coupon is deleted, and the completed counter rises by one, exactly when no box is left; otherwise it stays with one box fewer; other coupons are unchanged; the opened counter rises by one |
| TreasureRules.HandlerClaimOfExisting | server.js:337-376 | the claim handler alone, on an existing coupon: the post-decrement document with 200, the coupon kept or deleted by its remaining boxes, one completion on deletion, and the claimer's report credited (upserted) |
| TreasureRules.ClaimOfAbsent | server.js:338-346 | on an absent id: 404, no coupon or report changes, the completed counter is unchanged, and the opened counter still rises by one |
| TreasureRules.ClaimOfMalformed | server.js:378-385 | on an uncastable id: 400 (not 404), no coupon changes, and the opened counter still rises by one |
| TreasureRules.ClaimRefused | server.js:128-156 | a token that fails verification is 401 and nothing is counted or changed |
| TreasureRules.ClaimCountsVisitor | server.js:104-108 | an admitted claim, found or not, that carries an address and whose original URL starts with `/api/treasures/` raises the caller's visitor counters (visits and opened) by one each, creating the document if needed |
| TreasureRules.ClaimUpdatesReport | server.js:348-355 | a logged-in claimer's treasuresClaimed rises by one, with the report upserted; a guest's claim touches no report |
| TreasureRules.CreateOfValidBody | server.js:318-332 | a new coupon under a fresh id has remaining = total = the given count, or 1; others are unchanged; the created counter rises by one; a logged-in creator's treasuresPlaced rises by one, upserted; a guest touches no report |
| TreasureRules.CreateOfUncastableBody | server.js:319-333 | a body the store cannot cast is 400, stores nothing, and is still counted |
| TreasureRules.ClaimsBeforeExhaustion | server.js:338-376 | after any k admitted claims, from any callers at any times, on a coupon with more than k boxes, it is still there with k boxes fewer, and nothing was completed |
| TreasureRules.ClaimOfLastBox | server.js:357-370 | a claim on a coupon's last box deletes it and counts exactly one completion |
| TreasureRules.LastClaimDeletes | server.js:336-376 | on a coupon with b >= 1 boxes, the b-th admitted claim, whoever sends the claims and when, deletes it and counts exactly one completion |
| TreasureRules.ExhaustionAfterAllBoxes | server.js:336-376 | any b admitted claims on a coupon with b >= 1 boxes delete it and raise the completed counter by exactly one; any further admitted claim is 404, and it is no longer listed |
| TreasureRules.TwoBoxScenario | server.js:311-376 | a coupon created with two boxes is listed; two claims, from any admitted callers, use it up; a third is 404; it is no longer listed; exactly one completion is counted |
| AccountRules.PaddingIgnored | server.js:46-47 | a leading space does not reach the stored (trimmed, lowercased) value |
| AccountRules.RegisterOfMissingField | server.js:250 | a missing username, email or password is 400 and changes nothing |
| AccountRules.RegisterOfTaken | server.js:251-252 | a name or email whose stored form (trimmed, lowercased) is already stored is 400 "user exists", and nothing is saved |
| AccountRules.RegisterCreatesOneAccount | server.js:253-257 | a successful registration adds exactly one account under a fresh id, with the normalised name and email, the digest and no reset token, plus exactly one zeroed report; nothing else changes |
| AccountRules.RegisterTwiceRefused | server.js:251-252 | after a registration, a second one whose name or email normalises to the stored one is 400 "user exists" and changes nothing |
| AccountRules.PaddedDuplicateRefused | server.js:251-252 | a stored name padded with a leading space is 400 "user exists" like the name itself, whatever the email, and nothing is saved |
| AccountRules.RegisterRefusedByStore | server.js:253-260 | past the duplicate check, a document the schema refuses (a name or email that trims to nothing, a gender or age range outside its enum) is 500, and nothing is saved |
| AccountRules.LoginOfAccount | server.js:268-285 | the account is found by the name as the store would hold it (trimmed and lowercased); the right password yields 200 with a token signed for its id and stored name; a wrong one is 401 and changes nothing |
| AccountRules.LoginOfUnknown | server.js:270-271 | a name whose normalised form no account stores is the same 401 as a wrong password |
| AccountRules.VerifyOfBearer | server.js:294-298 | a bearer token that verifies to the id and name of a stored account is answered 200 with that account's name |
| AccountRules.RegisterLoginVerify | server.js:247-303 | register, then log in with the name in any letter case and padding, then present the token as a bearer token: verification names the registered account |
| AccountRules.ForgotSetsToken | server.js:170-215 | for an email whose normalised form is stored, only that account changes: its token is set and it expires at now + 3600000; the reply is 200 if the mail went out, else 500 |
| AccountRules.EmailFindsOwner | server.js:172 | emails are unique, so the lookup finds the one account that stores the email |
| AccountRules.ForgotOfFound | server.js:172-215 | once the lookup has found an account, the token and its expiry go on that account only, and the reply follows the mail result |
| AccountRules.ForgotIsUninformative | server.js:172-175 | an email whose normalised form no account stores gets the same 200 as a known one and changes nothing |
| AccountRules.ResetSucceedsIff | server.js:223-238 | the reset succeeds exactly when some account holds the token unexpired (expires > now) and a password is given; the holder's password becomes the digest and both token fields are cleared; otherwise nothing changes |
| AccountRules.ResetIsSingleUse | server.js:223-236 | after a successful reset, the same token is 400 |
| AccountRules.ResetTokenExpires | server.js:181-229 | a token issued at t0 is accepted exactly at times before t0 + 3600000 |
| AccountRules.ResetOfIssuedToken | server.js:223-238 | once one account alone holds a fresh token issued at t0, a reset with it succeeds exactly before t0 + 3600000 |
| Server.Backend.constructor | server.js:32-75 | a fresh backend holds empty collections and satisfies the invariant |
| Server.Backend.CountApiCall | server.js:83-94 | the in-place upsert ends in the route function's state |
| Server.Backend.TrackVisitor | server.js:96-111 | the in-place visitor upsert ends in the route function's state |
| Server.Backend.ListTreasures | server.js:311-316 | the state and reply are those of `Routes.ListTreasures`, and the invariant is kept |
| Server.Backend.CreateTreasure | server.js:318-334 | the middlewares then the handler end in `Routes.CreateTreasure`'s state and reply; the invariant is kept |
| Server.Backend.CreateHandler | server.js:319-332 | save then report upsert, in that order, end in `Routes.CreateHandler`'s state and reply |
| Server.Backend.ClaimTreasure | server.js:336-390 | the middlewares then the handler end in `Routes.ClaimTreasure`'s state and reply; the invariant is kept |
| Server.Backend.ClaimHandler | server.js:337-385 | decrement, report, completion and deletion, in that order, end in `Routes.ClaimHandler`'s state and reply |
| Server.Backend.OpenedApp | server.js:393-421 | the state and reply are those of `Routes.OpenedApp`, and the invariant is kept |
| Server.Backend.CountVisitorAppOpen | server.js:396-403 | the in-place visitor upsert ends in `Routes.CountVisitorAppOpen`'s state |
| Server.Backend.CountReportAppOpen | server.js:405-414 | the in-place report update ends in `Routes.CountReportAppOpen`'s state |
| Server.Backend.LogVisitorTime | server.js:423-434 | the state and reply are those of `Routes.LogVisitorTime`, and the invariant is kept |
| Server.Backend.LogUserTime | server.js:438-456 | the state and reply are those of `Routes.LogUserTime`, and the invariant is kept |
| Server.Backend.TrackReferrer | server.js:458-499 | the state and reply are those of `Routes.TrackReferrer`, and the invariant is kept |
| Server.Backend.ResetData | server.js:545-558 | the state and reply are those of `Routes.ResetData`: the counts deleted, then empty collections |
| Server.Backend.Register | server.js:247-262 | the state and reply are those of `Routes.Register`, and the invariant is kept |
| Server.Backend.SaveAccount | server.js:253-256 | the account goes in under the next user id and a zeroed report beside it; nothing else changes |
| Server.Backend.Login | server.js:265-291 | the lookup by the normalised name finds the one account with that name (names are unique), and the state and reply are those of `Routes.Login` |
| Server.Backend.ForgotPassword | server.js:167-217 | assigning the token fields on the found account ends in `Routes.ForgotPassword`'s state and reply; with a fresh token the invariant is kept |
| Server.Backend.ResetPassword | server.js:220-244 | the state and reply are those of `Routes.ResetPassword`, and the invariant is kept |
| Server.Backend.HandleTreasureRequest | server.js:311-421 | a coupon or app-open request ends in `Routes.Step`'s state and reply |
| Server.Backend.HandleAccountRequest | server.js:166-303 | an account request ends in `Routes.Step`'s state and reply |
| Server.Backend.HandleOtherRequest | server.js:423-558 | a time-logging, referrer, stats or admin request ends in `Routes.Step`'s state and reply |
| Server.Backend.Handle | server.js:166-558 | any request ends in `Routes.Step`'s state and reply, keeps the invariant and the token assumption, and lowers no counter unless it is the admin reset |

## Left out

- Express routing, body parsing, CORS, dotenv, `app.listen` and console logging. They are framework plumbing.
- Store failures. Connection errors and timeouts lead to the generic 500 replies, and the middlewares print and swallow their own errors. The model assumes every store call succeeds, except the failures it names: cast errors and validators.
- Concurrency. Requests are applied one at a time. The source relies on the store's per-document atomicity for the decrement, so interleaved claims are not modelled. Nor are two registrations of one name at once: only such a race reaches the unique indexes of the user schema, whose clash would be a 500.
- The Mongoose version. The account lookups follow Mongoose 5 and later, which run a field's setters on query filter values.
- bcrypt, JWT, nodemailer and `crypto.randomBytes` are oracle parameters. The token's three-second expiry lives inside `verify`.
- `UAParser` and `new URL` are given as their results.
- Auth.OptionalAuth: JWT expiry is not modelled on its own; an expired token is one `verify` rejects.
- The clock is an integer parameter. Date formatting is not modelled.
- Routes.LogVisitorTime and Routes.LogUserTime: durations are integers, so `Math.round` of a fractional duration and non-number durations other than "absent" are not modelled.
- Documents.NewTreasure: box counts are integers; fractional counts and coordinates that fail to cast are only distinguished as "uncastable".
- Text.Lower: it lowercases ASCII only; `toLowerCase` on non-ASCII letters is not modelled.
- Request fields that are JSON `null`, or values of the wrong JSON type (for instance a non-string email, which makes `toLowerCase` throw), are not modelled. Absent and empty fields are.
- A client-supplied `_id` or `remainingBoxes` in the create body is not modelled. Ids come from a generator that never reuses a value, even after the admin reset.
- Routes.AdminTreasures does not model the sort by placement date, or the field projection.
- Routes.AdminVisitors takes the collection's sorted order as an input (`Routes.VisitorOrder`) rather than sorting.
- `GET /api/admin/referrers` (server.js:512-517) is a plain sorted read of the referrer collection, and it is not modelled.
- Routes.LogUserTime and the other report updates treat a token without an `id` as matching no report. The store's handling of an `undefined` filter value is not modelled.
- Routes.VerifyToken strips the password field through its reply type, which carries only the username. Other projected fields are not modelled.
