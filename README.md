# SunshineTravel recruitment site — a verified model

SunshineTravel is a Next.js site for a recruitment consultancy: visitors browse
and filter overseas job openings, and administrators log in to manage jobs,
success stories and help tickets, and to review an audit trail of their
activity. This project models the site's logic in Dafny and proves properties
of the model:

- the job catalogue helpers (`filterJobs`, `getLatestJobs`, `getFeaturedJobs`,
  `getJobById`) and the jobs API's query building, authorisation gate and
  default date;
- the authentication middleware and the JWT session (signing, verification,
  the `token` cookie), with tokens and bcrypt hashes as idealised values;
- the authentication routes (login, logout, me, change-password, profile,
  register, admin-signup, admin creation) as decision chains over a store of
  users;
- the administration routes (activity log, help tickets, success stories) and
  the seeding of jobs and the first administrator;
- the Mongoose schemas of jobs, activity logs, help tickets and success
  stories: required fields, trimming, defaults, enumerations and bounds;
- the client-side logic of the administrators' dashboard, help page and
  activity page, and the home page's testimonial carousel, each as a class
  whose methods change the component's state as its handlers do.

The database is a `Store` class whose collections are sequences; each route
is a method that changes the store and returns the HTTP response. What the
code gets from the outside world is a parameter:

- `connectOk` — the database connection succeeds;
- `connectExported` — the jobs route's named import of `connectToDatabase`
  exists (it does not: `lib/mongodb.ts` exports only a default);
- `logWriteOk` (and `writeOk` in the activity route) — the write of an
  audit-log entry succeeds;
- `emailOk` — the help route's notification e-mail is sent;
- `fileWriteOk` — the success-stories route's write of the uploaded image
  (its directory creation and `writeFile`) succeeds;
- `today`, `now` and `timestamp` — the clock, as a date string or as
  milliseconds;
- `Env` — the environment variables (`JWT_SECRET`, `NODE_ENV`,
  `ADMIN_SIGNUP_CODE`);
- on the client, the outcome of each `fetch` (`Some(answer)` or `None`).

Several behaviours are modelled exactly as the code has them, because the
code is what runs:

- the logout and help routes read a `userId` claim that login tokens do not
  carry (they carry `id`): no logout of a login session is logged, a ticket
  submitted with a login session is refused with 404, and the ticket listing
  drops the missing claim from its filter and shows every user's tickets;
- the JWT secret's fallback differs between signing ('fallback_secret') and
  most verifiers ('your-secret-key'); the success-stories route has none;
- the jobs route's database import is undefined, so both its handlers end in
  500; even with it, the job-creation audit log could not be written;
- the activity-log schema accepts the statuses 'success', 'error' and
  'warning' only, so the login failure logs ('failed') and the success-story
  log ('SUCCESS') are refused and never stored;
- the change-password route's `matchedCount` check is dead code;
- the help page never sends the `problemType` the help route requires, so
  every ticket from the page is refused with 400.

## Model

| member | source | states |
|---|---|---|
| Common.Filter | lib/jobs.ts:295-312 | `Array.prototype.filter`: the result keeps exactly the elements of the input that satisfy the test, in their order (a subsequence), each as often as it occurs in the input (duplicates kept), and is no longer than the input |
| Common.FilterKeepsAll | lib/jobs.ts:295-312 | a test every element passes keeps the whole list |
| Common.FilterTwice | app/admin/page.tsx:153-164 | filtering by one test and then another equals filtering once by their conjunction |
| Common.FilterCongruent | lib/jobs.ts:295-312 | two tests that agree on every element of the list filter it the same way |
| Common.SubsequenceTransitive | lib/jobs.ts:284-288 | a subsequence of a subsequence is a subsequence of the original list |
| Common.SortDesc | lib/jobs.ts:278-282 | the sort by a descending key: a permutation of the input (same multiset, same length) that is sorted newest first |
| Common.InsertBySorted | lib/jobs.ts:278-282 | inserting after every element that ranks at least as high keeps a list sorted by a total, transitive order |
| Common.SortBy | lib/jobs.ts:278-282 | a stable sort by a total, transitive order: a permutation of the input (same multiset, same length), sorted by that order |
| Common.SortedPrefixFirst | lib/jobs.ts:278-288 | in a list sorted by a descending key, each of the first `n` elements ranks at least as high as every element left out |
| Common.FirstMatchingPrefix | lib/jobs.ts:284-288 | that walk returns the first `n` elements (all, when fewer) of the filtered list |
| Common.CeilDiv | app/api/admin/activity/route.ts:87 | `Math.ceil(a / b)`: the least number of pages of `b` items that holds `a` items |
| Common.SliceIndex | components/home/testimonials.tsx:75-78 | the index `Array.prototype.slice` clamps an argument to, never past the end |
| Common.Decimal | lib/seed.ts:26 | the textual form of a generated document id: non-empty and all digits |
| Common.DecimalInjective | lib/seed.ts:26 | distinct counters give distinct ids |
| Text.Lower | lib/jobs.ts:297 | `toLowerCase` on ASCII letters: same length, each character lowered |
| Text.LowerIdempotent | lib/jobs.ts:297 | lowering twice is lowering once |
| Text.ContainsTransitive | app/admin/page.tsx:153-164 | `includes` is transitive: a string inside a substring of `a` is inside `a` |
| Text.ContainsCITransitive | app/admin/page.tsx:153-164 | the same for the case-insensitive test |
| Text.TrimStart | models/Job.ts:26-30 | the leading whitespace removed: a suffix of the input, all whitespace dropped, starting with a non-space |
| Text.TrimEnd | models/Job.ts:26-30 | the trailing whitespace removed: a prefix of the input, all whitespace dropped, ending with a non-space |
| Text.Trim | models/Job.ts:26-30 | Mongoose's `trim: true`: no longer than the input, and no whitespace at either end |
| Text.TrimContained | models/Job.ts:26-30 | the trimmed string occurs in the original |
| Text.TrimEmptyIff | models/Job.ts:26-30 | trimming leaves the empty string exactly when the input is all whitespace, both directions |
| Text.TrimNoop | models/Job.ts:26-30 | a string without whitespace at its ends is its own trim |
| Text.TrimIdempotent | models/Job.ts:26-30 | trimming twice is trimming once |
| Text.TextLeqTotal | app/api/jobs/route.ts:44 | MongoDB's string order (code point by code point, a proper prefix first) is total: of any two strings one comes first |
| Text.TextLeqTransitive | app/api/jobs/route.ts:44 | that order is transitive |
| Text.SortDescText | app/api/jobs/route.ts:44 | a sort descending by a string key: a permutation of the input (same multiset, same length) whose keys never rise in string order |
| Tokens.Sign | app/api/auth/login/route.ts:76-84 | `jwt.sign`: a signed token that has not expired |
| Tokens.Verify | app/api/admin/activity/route.ts:9-15 | `jwt.verify`: claims come back only from an unexpired token signed with the same non-empty secret, and they are the signed claims |
| Tokens.Claim | app/api/admin/help/route.ts:9-14 | reading a claim: present exactly when the claim is in the payload, with its value |
| Tokens.SecretOr | app/api/auth/login/route.ts:82 | `process.env.JWT_SECRET \|\| fallback`: the variable when set and non-empty, never empty when the fallback is not |
| Tokens.VerifySign | app/api/auth/login/route.ts:76-84 | round trip: verifying a token with the secret it was signed with yields its claims |
| Tokens.VerifyOtherSecret | app/api/admin/activity/route.ts:6 | a token signed with one secret is refused under any other |
| Tokens.LoginTokenRefusedWithoutSecret | app/api/auth/login/route.ts:82 | without `JWT_SECRET`, login signs with 'fallback_secret' and the routes verify with 'your-secret-key' (or, for success stories, with no secret), so every session token is refused |
| Tokens.LoginTokenAcceptedWithSecret | app/api/admin/activity/route.ts:6 | with `JWT_SECRET` set, every route accepts the session token and reads back its claims |
| Tokens.Hash | app/api/auth/register/route.ts:31 | `bcrypt.hash` keeps the cost factor it was given |
| Tokens.HashMatchesOnly | app/api/auth/login/route.ts:50 | `compare(q, hash(p))` holds exactly when `q == p`, both directions |
| Http.ClientIp | app/api/admin/activity/route.ts:136 | `x-forwarded-for \|\| x-real-ip \|\| 'unknown'`: the first non-empty header, never empty |
| Http.ClientAgent | app/api/admin/activity/route.ts:137 | `user-agent \|\| 'unknown'`, never empty |
| Http.Respond | app/api/auth/register/route.ts:44-50 | `NextResponse.json(body, { status })`: that status and body, no cookie, no extra header |
| Http.SessionSecret | app/api/auth/login/route.ts:82 | `JWT_SECRET \|\| 'fallback_secret'`, the secret login signs with and the middleware (middleware/auth.ts) verifies with: the variable when set and non-empty, 'fallback_secret' otherwise |
| Http.RouteVerifySecret | app/api/admin/activity/route.ts:6 | the routes' secret `JWT_SECRET \|\| 'your-secret-key'` is never empty |
| Http.DecodeSession | app/api/auth/change-password/route.ts:22-37 | the shared token gate: a session only for a present token that verifies with the route secret, its claims then; 401 'Authentication required' without a token, 401 'Invalid token' otherwise |
| Http.ErrorOfBodies | app/api/auth/login/route.ts:14-17 | the two error-body shapes carry their message under `error` |
| JobSchema.Cast | models/Job.ts:24-95 | saving a job: accepted exactly when every required string is present and not blank after trimming and no array entry is empty; the document gets the given id and both timestamps |
| JobSchema.CastResult | models/Job.ts:24-95 | an accepted input makes a valid document: every required string trimmed, each array as given (an absent one empty), `featured` false unless given and `date` today unless given |
| JobSchema.CastRoundTrip | models/Job.ts:24-95 | round trip: saving a valid document's own fields gives the document back, with new timestamps |
| JobSchema.CleanNotBlank | models/Job.ts:26-30 | a stored required string is not blank |
| JobSchema.BlankTitleRejected | models/Job.ts:26-30 | a title of only spaces fails `required` once trimmed |
| JobSchema.EmptyArraysAccepted | models/Job.ts:56-67 | the array fields are optional: absent or empty arrays are accepted |
| ActivityLogSchema.Cast | models/ActivityLog.ts:15-52 | saving a log: accepted exactly when userId, action, resource and details are non-empty and the status is one of success/error/warning; the timestamp defaults to now and the status to 'success' |
| ActivityLogSchema.CastRoundTrip | models/ActivityLog.ts:15-52 | round trip: saving a valid log's own fields gives it back |
| ActivityLogSchema.RejectedInputs | models/ActivityLog.ts:43-47 | the statuses 'failed' and 'SUCCESS' and a null userId are refused |
| ActivityLogSchema.Defaults | models/ActivityLog.ts:39-47 | without status and timestamp, a stored log says 'success' at the current time |
| HelpTicketSchema.Cast | models/HelpTicket.ts:17-57 | saving a ticket: accepted exactly when the six required strings are non-empty and priority and status are in their enums; priority defaults to 'medium', status to 'open' |
| HelpTicketSchema.CastRoundTrip | models/HelpTicket.ts:17-57 | round trip: saving a valid ticket's own fields gives it back, with new timestamps |
| HelpTicketSchema.UnknownPriorityRejected | models/HelpTicket.ts:43-47 | a priority outside low/medium/high/urgent is refused |
| SuccessStorySchema.Cast | models/SuccessStory.ts:16-64 | saving a story: accepted exactly when the trimmed strings are non-empty and within their maximum lengths (100, and 1000 for the testimonial), the image and creator are given and the rating is 1 to 5 |
| SuccessStorySchema.CastResult | models/SuccessStory.ts:16-64 | an accepted input makes a valid story: the names, job title, company, location and testimonial trimmed, the image, rating and creator as given |
| SuccessStorySchema.CastRoundTrip | models/SuccessStory.ts:16-64 | round trip: saving a valid story's own fields gives it back, with new timestamps |
| SuccessStorySchema.LimitAfterTrim | models/SuccessStory.ts:17-22 | the length limit applies after trimming: a long name whose trimmed form fits is accepted |
| SuccessStorySchema.RatingOutOfRange | models/SuccessStory.ts:51-56 | a rating below 1 or above 5 is refused |
| Database.FindByEmail | app/api/auth/login/route.ts:24 | `User.findOne({ email })`: the first user holding exactly that email, or none when no user holds it |
| Database.FindById | app/api/auth/me/route.ts:21 | `User.findById(id)`: the first user with that id; an undefined id or an unknown one finds nothing |
| Database.NewIdFresh | lib/seed.ts:54-59 | a newly issued document id differs from every id already stored |
| Database.IdsIssuedMonotone | lib/seed.ts:54-59 | ids issued before a counter value stay issued as the counter grows |
| Database.IssuedIdNonEmpty | app/api/auth/profile/route.ts:103-106 | every stored user id is non-empty |
| Database.FindByEmailUnique | app/api/auth/login/route.ts:24 | with unique emails, the lookup finds the one user holding the email |
| Database.FindByEmailAppend | app/api/auth/register/route.ts:22-39 | a user added under an unused email is the one the lookup then finds |
| Database.FindByIdUnique | app/api/auth/me/route.ts:21 | with unique ids, the lookup by a user's id finds that user |
| Database.CastEach | lib/seed.ts:26 | `insertMany` validates every document: the batch succeeds exactly when each one is accepted, and holds them in order |
| Database.CastAll | lib/seed.ts:26 | the jobs batch: accepted exactly when every input passes the Job schema; then one document per input, in order, with consecutive fresh ids |
| Database.RequestLog | app/api/admin/activity/route.ts:131-140 | the log every handler builds: the given user, action, resource, details and status, with the client address and agent from the headers |
| Database.Window | app/api/admin/activity/route.ts:76-80 | `.skip(skip).limit(limit)`: the items from position `skip` on, in order, at most `limit` of them (0 means no limit; a negative limit counts as its absolute value) |
| Database.TotalPages | app/api/admin/activity/route.ts:87 | `Math.ceil(total / limit)` as JSON: null for a zero limit (NaN), the page count for a positive one |
| Database.PageWindow | app/api/admin/activity/route.ts:76-80 | page `page` of `limit` items; MongoDB refuses a negative skip, so a page below 1 is an error |
| Database.EveryItemOnItsPage | app/api/admin/activity/route.ts:76-80 | every item is served on page `j / limit + 1`, at position `j % limit` |
| Database.PageWithinTotal | app/api/admin/activity/route.ts:87 | the page holding item `j` is within the announced page count |
| Database.Store.constructor | lib/seed.ts:7-71 | an empty database |
| Database.Store.AddUser | app/api/auth/register/route.ts:34-39 | `User.create` under an unused email: the user is appended with a fresh id, the uniqueness invariants are kept, nothing else changes |
| Database.Store.SetUser | app/api/auth/change-password/route.ts:91-98 | `findByIdAndUpdate`: exactly one user is replaced, keeping its id and not taking another user's email; nothing else changes |
| Database.Store.SaveLog | app/api/admin/activity/route.ts:131-142 | `activityLog.save()`: the log is appended exactly when the write reaches the database and the schema accepts it |
| Database.Store.CreateJob | models/Job.ts:24-95 | `Job.create`: the job is appended exactly when the schema accepts it |
| Database.Store.InsertJobs | lib/seed.ts:26 | `insertMany`: all the documents are appended, in order, when every one is accepted, and none otherwise |
| Database.Store.AppendJobs | lib/seed.ts:26 | the loop appending a validated batch: the collection grows by exactly that batch, in order |
| Database.Store.SaveTicket | models/HelpTicket.ts:17-57 | `ticket.save()`: the ticket is appended exactly when the schema accepts it |
| Database.Store.SaveStory | models/SuccessStory.ts:16-64 | `story.save()`: the story is appended exactly when the schema accepts it |
| Database.UserJson | app/api/auth/register/route.ts:41-48 | a user without its password: id, name, email and role always; phone, address, bio and updatedAt exactly when set, with their stored values; no other field, and never the password |
| AuthMiddleware.AuthRequest.constructor | middleware/auth.ts:4-10 | a request with its cookie and no user attached yet |
| AuthMiddleware.Authenticate | middleware/auth.ts:12-32 | no claims without a token; otherwise exactly the claims the token verifies to under the middleware's secret |
| AuthMiddleware.AuthenticateUser | middleware/auth.ts:12-32 | `authenticateUser`: null (request untouched) when verification fails, else the same request with the claims attached as its user |
| AuthMiddleware.IsAdmin | middleware/auth.ts:34-36 | true exactly when a user is attached and its role is 'admin' |
| AuthMiddleware.Unauthorized | middleware/auth.ts:38-43 | 401 with error 'Unauthorized' |
| AuthMiddleware.Forbidden | middleware/auth.ts:45-50 | 403 with error 'Forbidden' |
| AuthMiddleware.LoginTokenPassesGate | middleware/auth.ts:22 | a signed token passes the middleware exactly when it was signed with the middleware's secret, both directions |
| AuthMiddleware.ClearedCookieRefused | app/api/auth/logout/route.ts:39-47 | the emptied cookie logout leaves behind, like no cookie, authenticates nobody |
| JobCatalogue.GetJobById | lib/jobs.ts:274-276 | `jobs.find`: none exactly when no job has the id; otherwise the first job with it |
| JobCatalogue.GetLatestJobs | lib/jobs.ts:278-282 | the `limit` newest jobs: as many as the limit allows, sorted by date newest first, drawn from the catalogue without repetition (a sub-multiset), and no job left out is newer than a job kept |
| JobCatalogue.GetFeaturedJobs | lib/jobs.ts:284-288 | the first `limit` featured jobs in catalogue order (all of them when there are fewer): a prefix of the featured jobs, exactly `limit` long when there are enough |
| JobCatalogue.FeaturedIsFirstFeatured | lib/jobs.ts:284-288 | filtering then slicing equals walking the catalogue and stopping after `limit` featured jobs |
| JobCatalogue.FilterJobs | lib/jobs.ts:290-313 | the jobs kept are exactly the catalogue's jobs whose title contains the search ignoring case, whose trade and country match, with unset, empty or 'All …' filters matching everything; order is kept, and each kept job occurs as often as in the catalogue |
| JobCatalogue.NoFiltersKeepAll | lib/jobs.ts:290-313 | no filter, or every filter at its sentinel, keeps the whole catalogue |
| JobCatalogue.SentinelsSwitchOff | lib/jobs.ts:302-308 | 'All Trades' filters like no trade and 'All Countries' like no country |
| JobCatalogue.TitleOnlySearch | lib/jobs.ts:297 | the search looks at titles only: a job whose title lacks the term is dropped |
| LoginRoute.SessionCookie | app/api/auth/login/route.ts:102-110 | the cookie named 'token' holding the token: HTTP only, secure exactly in production, same-site 'strict', one day (86400 seconds), path '/' |
| LoginRoute.LoginBody | app/api/auth/login/route.ts:87-99 | success, 'Login successful', and a user with exactly id, name, email and role as stored, so no password hash |
| LoginRoute.SessionClaims | app/api/auth/login/route.ts:76-81 | the session token carries the user's id, email and role, and no `userId` claim |
| LoginRoute.LoginUser | app/api/auth/login/route.ts:24-73 | an attempt logs in exactly when a user holds the email and the password matches that user's hash, and then as that user |
| LoginRoute.LoginResponse | app/api/auth/login/route.ts:13-110 | 400 exactly when email or password is missing, 200 exactly when the credentials are right, 401 'Invalid email or password' otherwise; a session cookie is set exactly on 200, and then the body is `LoginBody` and the cookie `SessionCookie` of a token signed over the user's claims with the session secret |
| LoginRoute.SessionTokenIdentifiesUser | app/api/auth/login/route.ts:76-110 | the cookie of a successful login verifies under login's secret and its `id` claim leads back to the user who logged in |
| LoginRoute.FailuresIndistinguishable | app/api/auth/login/route.ts:43-46 | an unknown email and a wrong password give the same response |
| LoginRoute.Post | app/api/auth/login/route.ts:8-138 | the handler answers `LoginResponse`; only the success log can be stored (the 'failed' logs are refused by the schema), and nothing but the logs changes |
| LogoutRoute.Subject | app/api/auth/logout/route.ts:20-30 | the `userId` logged is set only when a token verifies with the route secret, and is that token's `userId` claim; otherwise null and 'unknown' |
| LogoutRoute.ClearingCookie | app/api/auth/logout/route.ts:39-47 | the token cookie emptied, expiring at once, with the session cookie's flags |
| LogoutRoute.LogoutResponse | app/api/auth/logout/route.ts:33-47 | always 200 'Logged out successfully' with the clearing cookie |
| LogoutRoute.Post | app/api/auth/logout/route.ts:17-78 | the handler: that response whatever the token; a log is stored only for a subject with a `userId` and a write that succeeds |
| LogoutRoute.LoginSessionNeverLogged | app/api/auth/logout/route.ts:27 | the cookie issued at login never yields a subject here (other secret, or no `userId` claim), so real logouts are never logged |
| LogoutRoute.UserIdTokenLogged | app/api/auth/logout/route.ts:24-30 | a token signed with the route secret that carries a `userId` is logged under it |
| LogoutRoute.Options | app/api/auth/logout/route.ts:81-90 | the CORS preflight: 200, empty body, exactly the four Access-Control headers |
| MeRoute.Get | app/api/auth/me/route.ts:6-38 | 401 exactly when the middleware refuses the token, 200 with the stored user's public fields exactly when its `id` claim finds a user, 404 otherwise; `authenticated` false on every failure |
| MeRoute.LoginThenMe | app/api/auth/me/route.ts:9-38 | right after a successful login its cookie makes this route report the very user that logged in |
| MeRoute.AfterLogout | app/api/auth/me/route.ts:9-15 | after logout the route answers 401 |
| ChangePasswordRoute.Target | app/api/auth/change-password/route.ts:22-84 | the password changes exactly when a verifying token, both passwords, a new one of at least 6 characters differing from the current one, a user found by the `id` claim and a matching current password are all present; and it is that user's |
| ChangePasswordRoute.Rejection | app/api/auth/change-password/route.ts:22-84 | the failure response in the handler's order: 401 without or with a bad token, 400 for missing, short, unchanged or wrong passwords, 404 for an unknown user; none exactly when the change goes ahead; past the token, each of the first three 400s carries its own message ('…are required', '…at least 6 characters long', '…different from current password'); past those, an unknown `id` gets 404 'User not found' and a wrong current password 400 'Current password is incorrect' |
| ChangePasswordRoute.Updated | app/api/auth/change-password/route.ts:86-98 | the user with a fresh hash of the new password (cost 12) and the update time, every other field as before |
| ChangePasswordRoute.Put | app/api/auth/change-password/route.ts:20-128 | the handler: a rejection changes nothing; otherwise only that user is updated, the log is stored when the write succeeds, and the answer is 200 |
| ChangePasswordRoute.NewPasswordLogsIn | app/api/auth/change-password/route.ts:86-98 | after a change, login succeeds with the new password and fails with the old one |
| ChangePasswordRoute.ShortPasswordRefused | app/api/auth/change-password/route.ts:49-55 | a new password shorter than 6 characters is refused with 400 before the database is consulted |
| RegisterRoute.Rejection | app/api/auth/register/route.ts:11-28 | 400 exactly when a field is missing, 409 when the email is taken, none exactly when the user is created |
| RegisterRoute.Created | app/api/auth/register/route.ts:44-50 | 201 with the created user, without its password |
| RegisterRoute.Post | app/api/auth/register/route.ts:6-51 | the handler: a rejection changes nothing; otherwise exactly one admin user is appended with a cost-10 hash of the password |
| RegisterRoute.RegisteredUserLogsIn | app/api/auth/register/route.ts:30-39 | a freshly registered user logs in with their password and with no other |
| Seed.WithoutId | lib/seed.ts:19-23 | a sample job without its numeric id: every other field carried over |
| Seed.SampleInputs | lib/seed.ts:19-23 | one input per sample job, in order |
| Seed.JobsAfter | lib/seed.ts:12-30 | a non-empty collection is left alone; an empty one receives the validated sample jobs, one per catalogue entry, or stays empty when one is refused |
| Seed.JobsAfterIdempotent | lib/seed.ts:12-30 | seeding jobs twice is seeding them once |
| Seed.SeededFromCatalogue | lib/seed.ts:19-26 | each seeded job is its sample job: fresh id, trimmed title, trade and country, same featured flag and date |
| Seed.SeedJobs | lib/seed.ts:7-37 | `seedJobs()`: connection failure reported and nothing changed; otherwise the jobs are `JobsAfter`, the result is `JobsStep` (success exactly when the collection was non-empty or the batch was accepted, else a validation failure) and the id counter `IdAfterJobs` (one id per inserted job) |
| Seed.AdminUser | lib/seed.ts:50-59 | the account 'Admin' / admin@sunshine.com, role admin, whose hash matches 'password123' |
| Seed.UsersAfter | lib/seed.ts:44-64 | the users unchanged when the admin email is taken, else with the admin account appended; afterwards the email is always held |
| Seed.UsersAfterIdempotent | lib/seed.ts:44-64 | seeding the administrator twice is seeding it once |
| Seed.SeededAdminLogsIn | lib/seed.ts:44-64 | after seeding into a database without that email, the seeded admin logs in with 'password123' |
| Seed.SeedAdminUser | lib/seed.ts:39-71 | `seedAdminUser()`: connection failure reported and nothing changed; otherwise success with the users `UsersAfter` |
| SeedRoute.StepError | app/api/seed/route.ts:30-31 | null exactly when the step succeeded |
| SeedRoute.Outcome | app/api/seed/route.ts:21-35 | 200 exactly when both steps succeeded; otherwise 500 naming each failed step and only those |
| SeedRoute.Get | app/api/seed/route.ts:5-43 | 403 in production with nothing changed; otherwise both steps run in turn, jobs become `JobsAfter`, the admin email is held, and 200 exactly when the jobs step succeeded; the response is `Outcome` of the jobs step's result and the admin step's success (the 500 body names the failed step, null for the other), and the users become `UsersAfter` with the id after the jobs step |
| ProfileRoute.Get | app/api/auth/profile/route.ts:19-59 | 401 exactly when the session gate refuses, 200 with the user (no password) exactly when the `id` claim finds one, 404 otherwise |
| ProfileRoute.EmailFormatCharacterised | app/api/auth/profile/route.ts:92-98 | the email pattern `^[^\s@]+@[^\s@]+\.[^\s@]+$` accepts exactly the strings without whitespace that hold one '@', not first, followed later by a '.' that is neither next to it nor last; both directions |
| ProfileRoute.MatchHasShape | app/api/auth/profile/route.ts:92 | a string the pattern matches has that shape |
| ProfileRoute.ShapeMatches | app/api/auth/profile/route.ts:92 | a string of that shape matches the pattern |
| ProfileRoute.OrEmpty | app/api/auth/profile/route.ts:129-131 | `value \|\| ''`: the value when given and non-empty, '' otherwise |
| ProfileRoute.Apply | app/api/auth/profile/route.ts:126-142 | the updated user: new name and email, phone, address and bio defaulting to '', the update time; id, password and role kept |
| ProfileRoute.ChangedFields | app/api/auth/profile/route.ts:154-159 | the changed-field list, in the order name, email, phone, address, bio: each field is listed exactly when its stored value differs from the new one |
| ProfileRoute.NoChangeIffSameUser | app/api/auth/profile/route.ts:154-161 | no field is reported changed exactly when the update leaves the user as it was, but for the update time; both directions |
| ProfileRoute.Join | app/api/auth/profile/route.ts:166 | `join(', ')`: empty for no fields, the field itself for one |
| ProfileRoute.JoinSnoc | app/api/auth/profile/route.ts:166 | joining one more field appends the separator and that field, so two or more fields are listed in order, separated by ', ' |
| ProfileRoute.Rejection | app/api/auth/profile/route.ts:64-123 | the failure response in the handler's order: the token gate's 401s, 400 for missing name or email, a bad email shape or an email another user holds, 404 for an unknown user; none exactly when the update goes ahead; past the token, a missing field gets 'Name and email are required', a bad shape 'Invalid email format', a taken email 'Email is already taken', and an unknown `id` 404 'User not found' |
| ProfileRoute.Put | app/api/auth/profile/route.ts:62-191 | the handler: a rejection changes nothing; otherwise `Updated` holds for the token's user |
| ProfileRoute.Updated | app/api/auth/profile/route.ts:125-183 | the update's effect: only that user replaced by `Apply`, 200 with the updated profile, and a log 'Updated fields: …' stored exactly when some field changed and the write succeeds |
| ProfileRoute.Update | app/api/auth/profile/route.ts:125-183 | updating a user whose new email no other user holds establishes `Updated` and keeps the database invariants |
| ProfileRoute.LogUpdate | app/api/auth/profile/route.ts:151-177 | the profile log: appended with the changed fields when some changed and the write succeeds, and nothing else changes |
| ProfileRoute.UpdateKeepsEmailsUnique | app/api/auth/profile/route.ts:103-113 | an accepted update keeps every email unique and leaves the password untouched |
| AdminSignupRoute.SignupCode | app/api/auth/admin-signup/route.ts:34 | `ADMIN_SIGNUP_CODE \|\| 'sunshine_admin_signup'`, never empty |
| AdminSignupRoute.Rejection | app/api/auth/admin-signup/route.ts:9-52 | the failure in the handler's order: 403 in production once an admin exists, 400 for a missing field, 401 for a wrong code, 409 for a taken email, each with its own message and each guarded by the earlier checks passing; none exactly when the admin is created |
| AdminSignupRoute.Post | app/api/auth/admin-signup/route.ts:6-76 | the handler: a rejection changes nothing; otherwise exactly one admin is appended with a cost-10 hash, and 201 returns it without its password |
| AdminSignupRoute.ClosedAfterFirstAdmin | app/api/auth/admin-signup/route.ts:9-19 | in production, once an administrator exists, every signup is refused |
| AdminSignupRoute.WrongCodeRefused | app/api/auth/admin-signup/route.ts:33-40 | a signup without the right code never creates anyone |
| AdminRoute.Rejection | app/api/auth/admin/route.ts:10-41 | 401 without a session the middleware accepts, 403 for a non-admin session, then the registration checks; none exactly when an admin session creates a new email |
| AdminRoute.Post | app/api/auth/admin/route.ts:7-65 | the handler: a rejection changes nothing; otherwise exactly one admin is appended and returned with 201 |
| AdminRoute.NonAdminCannotCreate | app/api/auth/admin/route.ts:15-18 | a session whose role is not 'admin' can add no one |
| JobsRoute.BuildQuery | app/api/jobs/route.ts:21-41 | the query: a search constraint exactly when a non-empty search is given; a trade or country constraint exactly when one is given other than its 'All …' sentinel; featured exactly for the string 'true' |
| JobsRoute.FindJobs | app/api/jobs/route.ts:44 | `Job.find(query).sort({ date: -1 })`: a permutation of the stored jobs that satisfy the query (each as often as stored), sorted descending by the stored date string in MongoDB's string order |
| JobsRoute.JobsJson | app/api/jobs/route.ts:46 | one JSON object per listed job |
| JobsRoute.Get | app/api/jobs/route.ts:8-54 | the GET handler: 500 'Failed to fetch jobs' when the named import of `connectToDatabase` does not resolve, otherwise 200 with the matching jobs newest first |
| JobsRoute.GetAlwaysFailsAsWritten | app/api/jobs/route.ts:2-11 | as written (the module has only a default export), listing jobs always answers 500 |
| JobsRoute.SentinelsIgnored | app/api/jobs/route.ts:31-37 | 'All Trades' and 'All Countries' build the same query as no trade and no country |
| JobsRoute.FeaturedOnlyForTrue | app/api/jobs/route.ts:39-41 | any featured value other than 'true' adds no constraint |
| JobsRoute.CatalogueFilterNarrower | app/api/jobs/route.ts:23-37 | every job the catalogue filter of lib/jobs.ts keeps is matched by the query built from the same parameters; a job matching only on company is matched by the query and dropped by the catalogue |
| JobsRoute.WithDate | app/api/jobs/route.ts:77-80 | `{ ...jobData, date: jobData.date \|\| today }`: the submitted date when non-empty, today's otherwise |
| JobsRoute.CreatedDate | app/api/jobs/route.ts:77-80 | a created job carries the submitted date when there is one and today's otherwise |
| JobsRoute.Post | app/api/jobs/route.ts:57-111 | 401 without a session, 403 for a non-admin, 500 when the connection import fails or the schema refuses the job; otherwise exactly that job is appended and returned with 201; the audit log never reaches the database |
| HelpRoute.Gate | app/api/admin/help/route.ts:34-57 | the checks both handlers share: the session gate's 401s, then 403 'Admin access required' for a non-admin role; the claims exactly when both pass |
| HelpRoute.Submitter | app/api/admin/help/route.ts:34-79 | the POST's failures in order (401, 403, 400 for a missing problem type, subject or message, 404 'User not found' whenever the earlier checks pass and the `userId` claim finds no user); otherwise the submitting user |
| HelpRoute.NewTicket | app/api/admin/help/route.ts:82-91 | the ticket: the user's id, email and name, the request's fields, priority defaulting to 'medium', status 'open' |
| HelpRoute.Submitted | app/api/admin/help/route.ts:135-149 | 200 with the ticket id; a warning exactly when the notification did not go through |
| HelpRoute.TicketLog | app/api/admin/help/route.ts:123-132 | the ticket's log under the `userId` claim, status 'success', with non-empty action, resource and details |
| HelpRoute.Filed | app/api/admin/help/route.ts:82-157 | filing a valid request: a refused ticket is 500 and changes nothing; an accepted one is appended and answered with its id, and its log is stored exactly when the mail and the log write both succeed |
| HelpRoute.Post | app/api/admin/help/route.ts:32-158 | the POST handler: a failure from `Submitter` changes nothing; otherwise `Filed` holds for the submitting user |
| HelpRoute.File | app/api/admin/help/route.ts:82-150 | saving, mailing and logging the ticket of one user establishes `Filed` |
| HelpRoute.Notify | app/api/admin/help/route.ts:96-150 | the mail-and-log step: it reports success exactly when the mail and the log write both succeed, and stores the log exactly then |
| HelpRoute.LoginSessionCannotFile | app/api/admin/help/route.ts:72-79 | a login session (no `userId` claim) never files a ticket: 404 whenever it passes the token checks |
| HelpRoute.Matching | app/api/admin/help/route.ts:196-210 | the tickets the filter selects, newest first: a permutation (same multiset, same length) of the caller's tickets (or, without a `userId` claim, everyone's) with the requested status unless 'all' |
| HelpRoute.TicketsJson | app/api/admin/help/route.ts:215-221 | one JSON object per listed ticket |
| HelpRoute.Get | app/api/admin/help/route.ts:161-229 | the GET handler: the gate's failures; 200 exactly when the page's skip is non-negative, with that page of the matching tickets, their total, the page and `Math.ceil(total / limit)`; 500 for a negative skip |
| HelpRoute.GetScope | app/api/admin/help/route.ts:196-198 | a token with a `userId` sees only that user's tickets; a token without one sees every ticket of the requested status |
| ActivityRoute.Matching | app/api/admin/activity/route.ts:55-77 | the logs the filter selects, newest first: a permutation (same multiset) of the stored logs with the requested status unless 'all', whose action contains the action filter ignoring case unless 'all', and whose resource or details contain the search |
| ActivityRoute.LogsJson | app/api/admin/activity/route.ts:82-88 | one JSON object per listed log |
| ActivityRoute.Get | app/api/admin/activity/route.ts:18-96 | 401 exactly when the session gate refuses, 403 exactly for a non-admin, 200 exactly when the page's skip is non-negative, with that page of the matches, their total, the page and `Math.ceil(total / limit)`; 500 otherwise |
| ActivityRoute.EveryLogOnItsPage | app/api/admin/activity/route.ts:76-87 | with a positive limit, the match at position `j` is served on page `j / limit + 1` at position `j % limit`, and that page is within the announced page count |
| ActivityRoute.AllMeansNoFilter | app/api/admin/activity/route.ts:57-63 | 'all' as status or action selects the same logs as no such filter |
| ActivityRoute.NewLog | app/api/admin/activity/route.ts:118-140 | the log: the token's `id` claim as user, the body's action, resource and details, the status defaulting to 'success', the current time |
| ActivityRoute.Rejection | app/api/admin/activity/route.ts:101-126 | the session gate's 401s, then 400 'Action, resource, and details are required' when one is missing; none exactly when the log is written |
| ActivityRoute.Post | app/api/admin/activity/route.ts:99-156 | the POST handler: a rejection changes nothing; otherwise the log is appended and its id returned exactly when the write succeeds and the schema accepts it, else 500 with nothing stored |
| ActivityRoute.PostedStatus | app/api/admin/activity/route.ts:118 | a log posted without status is stored as a success; one with a status outside success/error/warning is never stored |
| SuccessStoriesRoute.Gate | app/api/admin/success-stories/route.ts:9-38 | 401 exactly when no cookie is sent; the claims exactly when the token verifies under `JWT_SECRET` (no fallback) with the admin role; 403 'Admin access required' for every other token |
| SuccessStoriesRoute.NoSecretLocksOut | app/api/admin/success-stories/route.ts:9 | without `JWT_SECRET` every request that carries a cookie is refused with 403 |
| SuccessStoriesRoute.StoriesJson | app/api/admin/success-stories/route.ts:46-49 | one JSON object per story, in order |
| SuccessStoriesRoute.Listing | app/api/admin/success-stories/route.ts:42-44 | `find({}).sort({ createdAt: -1 })`: every story exactly once (a permutation), newest first |
| SuccessStoriesRoute.Get | app/api/admin/success-stories/route.ts:21-57 | the gate's failures; otherwise 200 with every story, newest first |
| SuccessStoriesRoute.FileName | app/api/admin/success-stories/route.ts:99-102 | `success-story-<ms><ext>`: the prefix, the upload time in decimal, then the extension |
| SuccessStoriesRoute.ImagePath | app/api/admin/success-stories/route.ts:112 | the stored path: '/uploads/success-stories/' followed by the file name |
| SuccessStoriesRoute.FileNamesDistinct | app/api/admin/success-stories/route.ts:99-102 | uploads with the same extension at different milliseconds get different file names |
| SuccessStoriesRoute.StoryFor | app/api/admin/success-stories/route.ts:116-125 | the story: the form's fields, the image path and the token's `id` claim as creator |
| SuccessStoriesRoute.StoryLog | app/api/admin/success-stories/route.ts:131-139 | the story's log carries status 'SUCCESS' and the token's `id` |
| SuccessStoriesRoute.Post | app/api/admin/success-stories/route.ts:60-156 | the gate's failures; 400 when a field, a non-zero rating or the file is missing; 500 when writing the image file fails (the store unchanged) or the schema refuses the story; otherwise exactly that story is appended and returned; the log is never stored |
| SuccessStoriesRoute.RatingOutOfRangeIsServerError | app/api/admin/success-stories/route.ts:85-93 | a non-zero rating outside 1..5 passes the route's check and is refused by the schema, so the answer is 500 |
| SuccessStoriesRoute.StoredStory | app/api/admin/success-stories/route.ts:116-127 | a stored story is valid, keeps the submitted rating, names the token's `id` as creator and points at the uploaded file |
| AdminDashboard.EmptyForm | app/admin/page.tsx:92-107 | the mount-time form: every text empty, every list empty, not featured, dated today |
| AdminDashboard.FormOf | app/admin/page.tsx:283-298 | the form loaded for editing carries the stored job's values |
| AdminDashboard.Payload | app/admin/page.tsx:173-179 | the body posted is the form's values, every field present |
| AdminDashboard.FormAndSchemaDisagree | app/admin/page.tsx:55-70 | the form's schema and the job schema disagree both ways: a blank two-space title passes the form and is refused by the server; an empty responsibilities list is refused by the form and accepted by the server |
| AdminDashboard.AddEntry | app/admin/page.tsx:309-315 | a non-blank input is appended trimmed and the box cleared; a blank one changes nothing; the earlier entries are kept and a clean list stays clean |
| AdminDashboard.AppendClean | app/admin/page.tsx:312 | appending a trimmed non-blank entry keeps every entry clean |
| AdminDashboard.RemoveEntry | app/admin/page.tsx:318-324 | `filter((_, i) => i !== index)`: one entry fewer when the index is in range, the rest in order; an out-of-range index changes nothing |
| AdminDashboard.RemoveKeepsClean | app/admin/page.tsx:318-324 | removing an entry keeps the list clean |
| AdminDashboard.RemoveUndoesAdd | app/admin/page.tsx:309-324 | removing the entry just added gives the original list back |
| AdminDashboard.CleanEntriesPresent | app/admin/page.tsx:309-315 | lists built by the add helpers always pass the job schema's check on array entries |
| AdminDashboard.Narrow | app/admin/page.tsx:153-160 | the narrowed list is a subsequence of the list and holds exactly the jobs whose title, company or location contains the term, ignoring case |
| AdminDashboard.HitWeakens | app/admin/page.tsx:155-159 | a job matching a term matches every term contained in it |
| AdminDashboard.TypingNarrowsCumulatively | app/admin/page.tsx:153-164 | narrowing the already narrowed list by a longer term equals narrowing the original list by it |
| AdminDashboard.BackspaceKeepsNarrowList | app/admin/page.tsx:153-164 | deleting characters does not bring jobs back: the list stays as the longer term left it |
| AdminDashboard.WithItems | app/admin/page.tsx:311-312 | setting one list of the form changes that list and no other |
| AdminDashboard.Dashboard.constructor | app/admin/page.tsx:77-108 | the mount-time state: dialogs closed, nothing selected, empty boxes, default form, and the first fetch's jobs |
| AdminDashboard.Dashboard.Fetch | app/admin/page.tsx:118-143 | the list is replaced exactly when the server answered with `success`; loading ends; nothing else changes |
| AdminDashboard.Dashboard.AddItem | app/admin/page.tsx:309-351 | the chosen list and its box change as `AddEntry` says; everything else is kept |
| AdminDashboard.Dashboard.RemoveItem | app/admin/page.tsx:318-360 | the chosen list loses the entry as `RemoveEntry` says; everything else is kept |
| AdminDashboard.Dashboard.Search | app/admin/page.tsx:153-164 | a non-empty term narrows the displayed list, an empty one refetches it, and nothing happens to the list while a fetch is in flight; the loading flag is never touched |
| AdminDashboard.Dashboard.EditJob | app/admin/page.tsx:281-300 | the job is selected, loaded into the form as its new defaults, and the edit dialog opens |
| AdminDashboard.Dashboard.Submit | app/admin/page.tsx:167-238 | after an answer the form is reset, both dialogs close and the selection clears whatever the server said, and the list is refetched only on success; the loading flag is cleared only by that refetch; a thrown request changes nothing |
| AdminDashboard.Dashboard.DeleteJobClick | app/admin/page.tsx:303-306 | the job is selected and the delete dialog opens |
| AdminDashboard.Dashboard.DeleteJob | app/admin/page.tsx:241-278 | nothing without a selection or after a thrown request; otherwise the dialog closes and the selection clears whatever the server said, the list is refetched on success and unchanged otherwise, and the loading flag is cleared only by that refetch |
| HelpPage.FilteredFaqs | app/admin/help/page.tsx:113-118 | the shown FAQs are a subsequence of the list and hold exactly those whose question or answer contains the search, ignoring case, and whose category is the chosen one or 'all' is chosen |
| HelpPage.NoFilterShowsAll | app/admin/help/page.tsx:44-45 | with the initial empty search and 'all', every FAQ is shown, in order |
| HelpPage.CategoryNarrows | app/admin/help/page.tsx:116 | a FAQ shown under a category is shown under 'all' too, and belongs to that category |
| HelpPage.Payload | app/admin/help/page.tsx:130-134 | the posted body carries subject, message and priority, and no problem type |
| HelpPage.PagePayloadRefused | app/admin/help/page.tsx:130-144 | every ticket the page sends is refused, with 400 once the caller passes the gate, because the help endpoint requires a problem type, so the page always reports a failure |
| HelpPage.HelpPageState.constructor | app/admin/help/page.tsx:46-52 | the form starts empty with priority 'medium', closed and not submitting |
| HelpPage.HelpPageState.Edit | app/admin/help/page.tsx:379-402 | typing replaces the ticket and changes nothing else |
| HelpPage.HelpPageState.Submit | app/admin/help/page.tsx:120-152 | only an answer with `success` clears and closes the form; any other answer or a failed request keeps it; submitting ends either way |
| ActivityPage.QueryParams | app/admin/activity/page.tsx:48-54 | page and limit 10 always; status and action exactly when not 'all'; search exactly when not empty; each sent value is the filter's own |
| ActivityPage.OmittedParamsIgnored | app/admin/activity/page.tsx:48-54 | leaving out an 'all' or empty parameter selects the same logs as sending it, because the endpoint ignores those values too |
| ActivityPage.PageRequestsAreServed | app/admin/activity/page.tsx:48-56 | every page number the buttons can produce (at least 1) gets a page from the endpoint |
| ActivityPage.PageCount | app/admin/activity/page.tsx:61 | `Math.ceil(total / 10)`: enough pages for every log, and no page more |
| ActivityPage.TotalPagesAgree | app/admin/activity/page.tsx:61 | the page's count of pages equals the `totalPages` the endpoint reports |
| ActivityPage.Previous | app/admin/activity/page.tsx:318 | `Math.max(prev - 1, 1)`: one page back, never below 1 |
| ActivityPage.Next | app/admin/activity/page.tsx:328 | `Math.min(prev + 1, totalPages)`: one page on, never past the last page |
| ActivityPage.ButtonsStayInRange | app/admin/activity/page.tsx:314-329 | from a page in range both buttons stay in range, and each undoes the other away from the ends |
| ActivityPage.StatusColor | app/admin/activity/page.tsx:70-81 | green exactly for 'success', red exactly for 'failed', yellow exactly for 'warning', grey for anything else |
| ActivityPage.StoredLogsNeverRed | app/admin/activity/page.tsx:70-81 | a log the schema accepts is never red, and its 'error' status is shown grey |
| ActivityPage.DeviceLabel | app/admin/activity/page.tsx:295 | 'Mobile' exactly when the user agent contains 'Mobile', 'Desktop' otherwise |
| ActivityPage.Displayed | app/admin/activity/page.tsx:177 | the fetched logs when there are any, the demonstration list otherwise |
| ActivityPage.ActivityPageState.constructor | app/admin/activity/page.tsx:28-35 | no logs, page 1, every filter 'all' or empty, one page, loading |
| ActivityPage.ActivityPageState.Fetch | app/admin/activity/page.tsx:45-68 | an answer with `success` replaces the logs and the page count; otherwise both are kept; loading ends; the filters are kept |
| ActivityPage.ActivityPageState.SetFilters | app/admin/activity/page.tsx:218-233 | the filters change and the current page is kept as it is |
| ActivityPage.ActivityPageState.PreviousPage | app/admin/activity/page.tsx:314-318 | the page moves as `Previous` says and stays at least 1 |
| ActivityPage.ActivityPageState.NextPage | app/admin/activity/page.tsx:314-329 | the page moves as `Next` says and stays at least 1 |
| Testimonials.PageCount | components/home/testimonials.tsx:49-50 | `Math.ceil(n / 2)`: enough pages for every testimonial, no page more, and none exactly when there are none |
| Testimonials.AllMakeTwoPages | components/home/testimonials.tsx:11-50 | the four testimonials make two pages |
| Testimonials.JsRem | components/home/testimonials.tsx:53-57 | JavaScript's `%`: the remainder takes the dividend's sign and is below the divisor in size |
| Testimonials.NextPage | components/home/testimonials.tsx:52-54 | one page on, from the last page back to the first |
| Testimonials.PrevPage | components/home/testimonials.tsx:56-58 | one page back, from the first page round to the last |
| Testimonials.PrevUndoesNext | components/home/testimonials.tsx:52-58 | each button undoes the other |
| Testimonials.AdvanceWraps | components/home/testimonials.tsx:67-70 | within one round, k ticks of the rotation move k pages on, wrapping past the last page |
| Testimonials.RotationVisitsEveryPage | components/home/testimonials.tsx:67-70 | from the first page the rotation visits every page in turn, and is back where it started after one tick per page |
| Testimonials.Visible | components/home/testimonials.tsx:75-78 | the active page's slice: at most two testimonials, the ones at its positions |
| Testimonials.ItemOnItsPage | components/home/testimonials.tsx:75-78 | testimonial i is shown on page i / 2, which is one of the pages |
| Testimonials.PagesArePrefix | components/home/testimonials.tsx:75-78 | the first k pages together hold the first 2k testimonials, in order |
| Testimonials.PagesCoverAll | components/home/testimonials.tsx:49-78 | paging through every page shows every testimonial exactly once, in order |
| Testimonials.Carousel.constructor | components/home/testimonials.tsx:47-50 | the carousel starts on the first page of the four testimonials |
| Testimonials.Carousel.Shown | components/home/testimonials.tsx:75-78 | the active page's testimonials, one or two of them |
| Testimonials.Carousel.Next | components/home/testimonials.tsx:147-154 | the right arrow and the rotation tick move on as `NextPage` says, and the page stays in range |
| Testimonials.Carousel.Prev | components/home/testimonials.tsx:124-132 | the left arrow moves back as `PrevPage` says, and the page stays in range |
| Testimonials.Carousel.GoTo | components/home/testimonials.tsx:134-145 | a dot selects its own page |

## Left out

- Request bodies that are not JSON, and body values of the wrong JSON type: a body is a record of optional strings (and booleans where the code reads one), and a parse failure is not modelled.
- `parseInt` of a non-numeric query parameter (NaN) is modelled as an absent parameter with its default; NaN arithmetic is not modelled.
- The search terms handed to MongoDB's `$regex` are matched as literal, case-insensitive substrings; regular-expression metacharacters are not interpreted.
- Case-insensitive matching and `toLowerCase` cover ASCII letters only; Unicode case folding is not modelled.
- The User model (`models/User.ts`) is not part of this model: users are records with the fields the routes read and write, without the schema's own validation.
- File-system effects of the success-story upload (`mkdir`, `writeFile`) are reduced to the `fileWriteOk` outcome; the file name, path and bytes written are not modelled.
- ChangePasswordRoute.MinLength: the length `|s|` counts code points, while JavaScript's `.length` counts UTF-16 code units, so a password with characters outside the Basic Multilingual Plane counts each of them once here and twice in the source; the bound is exact for every other password.
- SuccessStorySchema.LimitAfterTrim: the `maxlength` bounds (100 and 1000) are compared with `|s|`, code points, where Mongoose compares JavaScript's `.length`, UTF-16 code units; strings with characters outside the Basic Multilingual Plane can pass here and be refused by the source.
- AdminDashboard.FormValid: zod's `min(2)` and `min(10)` on strings count UTF-16 code units; the model counts code points, so the two differ only on characters outside the Basic Multilingual Plane.
- HelpRoute.Matching: the listing takes an undefined `userId` to be dropped from the filter when Mongoose casts it (the BSON serialiser's default leaves out `undefined`); had it been sent as `null`, a login session would list no tickets instead of every user's.
- The help route's e-mail (its text, the transporter and SMTP) is reduced to the `emailOk` outcome.
- Timers: the testimonial carousel's five-second interval is modelled as repeated calls of `Next`, not as time.
- React rendering, toasts, AOS animations and router redirects are not modelled; the classes keep only the state the handlers change.
- The help page's FAQ texts and the activity page's demonstration logs are parameters, not the literal lists.
- Seed.SeedJobs and SeedRoute.Get take the job catalogue as a parameter, where the source imports the `jobs` list of `lib/jobs.ts`.
- Seed errors are reduced to their kind; the message of a thrown error is not kept.
- Concurrency: two requests never interleave, so races between the duplicate-email check and the insert are not modelled.
- Exceptions thrown by the driver are modelled only where an outcome parameter names them; other catch-all 500 branches are not reachable in the model.
- Malformed document ids (Mongoose `CastError`) are not modelled: an unknown id is simply absent.
- JWT expiry is a flag on the token, not a time; `expiresIn` is not compared with a clock.
- bcrypt is idealised: a hash matches exactly the password it was made from, and salts are not modelled (the cost factor is kept in the hash).
