# CARS-G access control, report lifecycle, points and chat — a Dafny model

CARS-G is a community incident-reporting application. Citizens file reports.
Patrols handle the reports assigned to them. Admins triage reports, manage
users and answer chat messages. This project models the rules of its Express
API and of the client's route guard:

- the `authenticateToken` middleware and the role gates `requireRole`,
  `requireAdmin` and `requirePatrol`;
- the report routes: listing, reading, creating (with its case number),
  changing status (with the ten-point resolution reward), assigning a patrol
  and setting the priority;
- the user routes: listing, leaderboard, reading a profile, changing a role,
  banning, adjusting points (with the points log) and per-user statistics;
- the chat routes: listing, sending, one user's conversation, the list of
  conversations, deleting and marking read;
- the caller's own profile routes (`server/routes/auth.js`);
- the client's `ProtectedRoute` guard.

Design of the model:

- **The document store.** The store is the class `Documents.Database`. Its
  collections are fields: three maps keyed by document id, and the
  append-only points log as a sequence. Each handler that writes is a method
  with `modifies db`. Its contract states the whole new state for every
  outcome: error codes, messages, and which documents and fields change.
- **Read-only handlers.** These are functions of the tables.
- **Queries.** A query (`where`, `orderBy`, `offset`, `limit`) is answered by
  the store, so its answer is a parameter. `DocumentStore.Answers` states what
  the store guarantees about it: the answer is a window of a complete,
  duplicate-free listing of the matching documents, ordered by the key. The
  lemmas about the listing routes take exactly that as their premise.
- **Clock, randomness and new ids.** `new Date()`, `Date.now()`,
  `Math.random()` and the ids the store generates for new documents are
  parameters. A handler that reads the clock more than once gets one
  parameter per read: creating a report reads it three times (case number,
  createdAt, updatedAt), and adding points reads it twice (the profile's
  stamp and the log entry's timestamp).
- **Store failures.** A store `update` on a missing document fails. The
  model maps that to the route's 500 answer.
- **Request bodies.** An absent text field is `""`; both are falsy.
  Fields the handlers type-check are JSON values (`Common.Json`): the role,
  `isBanned`, the points of an adjustment, and the chat text.

Behaviour of the code worth knowing (where a comment in the code says otherwise, the model follows the code):

- **Priority.** The route `PUT /:id/priority` is reached through the API
  client (`src/services/api.ts:114-118`); the report details dialog does not
  use it but writes `priorityLevel` to the store directly
  (`src/components/ReportDetailsModal.tsx:112-121`). The route's check in
  `cars-g-app/server/routes/reports.js:225` only tests the range, so any
  number from 1 to 5 is accepted, and `ReportRoutes.PriorityAccepted` admits
  2.5.
- **Demoting a superAdmin.** The comment at
  `cars-g-app/server/routes/users.js:95` speaks of preventing the demotion of
  a superAdmin. The guard only stops non-superAdmins from assigning
  superAdmin, and it never reads the target's role. Any admin may therefore
  demote a superAdmin (`UserRoutes.AdminMayDemoteSuperAdmin`).
- **Admin replies in the chat list.** The comment at
  `cars-g-app/server/routes/chat.js:15` says regular users also see admin
  replies. The filter keeps only the caller's own messages
  (`ChatRoutes.ListShowsOwnMessages`).
- **Resolving a report whose owner has no profile.** The new status is
  written first. The points increment then fails, and the answer is 500
  (`ReportRoutes.UpdateStatus`).
- **Repeated resolution.** Nothing stops a report from being resolved twice,
  and each resolution awards ten points (`ReportRoutes.ResolveTwice`).
- **Statistics tallies.** The per-user statistics count statuses and
  categories on a plain `{}`, which inherits the members of
  `Object.prototype`. A category such as "constructor" is then counted as
  text, and "__proto__" is not counted at all. `UserRoutes.TallyAsWritten`
  models that; `UserRoutes.StatsOf` and `UserRoutes.UserStats` use the
  intended count (`UserRoutes.TallyOf`), and the two agree whenever no key is
  inherited (see Findings).

## Model

| member | source | states |
|---|---|---|
| JsStrings.Split | cars-g-app/server/middleware/auth.js:6 | `split(' ')` gives the separator-free runs, at least one, and joining them with the separator gives back the header |
| JsStrings.SplitWithoutSeparator | cars-g-app/server/middleware/auth.js:6 | a string without the separator splits into itself alone |
| JsStrings.SplitAtFirstSeparator | cars-g-app/server/middleware/auth.js:6 | the first separator ends the first component and the rest splits independently |
| JsStrings.Trim | cars-g-app/server/routes/chat.js:39 | `trim()` removes only white space, all of it at both ends: what is left is an infix of the input, everything before and after it is white space, and it neither starts nor ends with white space; it is empty exactly when the input is all white space |
| JsStrings.TrimIdempotent | cars-g-app/server/routes/chat.js:48 | trimming the stored text again changes nothing |
| JsStrings.DecimalString | cars-g-app/server/routes/reports.js:115 | `toString()` of a non-negative integer is a digit string that reads back as the number, with no leading zero except for 0 itself, which is "0" |
| JsStrings.DecimalStringLength | cars-g-app/server/routes/reports.js:115 | a number of at least 10^k has more than k digits |
| JsStrings.ParseDecimalAppend | cars-g-app/server/routes/reports.js:115 | the value of a concatenation of digit strings is the first value shifted by the second's length plus the second value |
| JsStrings.PadZerosValue | cars-g-app/server/routes/reports.js:115 | `padStart(n, '0')` keeps a digit string's value and pads it to length n |
| DocumentStore.Window | cars-g-app/server/routes/reports.js:19 | `.limit(l).offset(o)`, whose meaning does not depend on the order of the two calls, is the elements from position o on, in order, and exactly min(l, what remains) of them (none when o is past the end) |
| DocumentStore.Answers | cars-g-app/server/routes/reports.js:13-19 | what the store may answer to a query: the window, at the query's offset and limit, of a duplicate-free listing of exactly the stored documents that pass the filter, ordered by the key |
| DocumentStore.AnswerSound | cars-g-app/server/routes/reports.js:13-19 | a query answer holds only stored documents that pass the filter, each once, in key order, and no more than the limit |
| DocumentStore.AnswerComplete | cars-g-app/server/routes/reports.js:36-39 | without offset or limit, the answer holds exactly the matching documents |
| DocumentStore.AnswerPosition | cars-g-app/server/routes/chat.js:100-102 | without offset or limit, every matching document has a position in the answer |
| DocumentStore.AnswerTop | cars-g-app/server/routes/users.js:38-41 | a descending query from the start returns the top of the ranking: any matching document left out ranks no higher than every document returned |
| DocumentStore.AnswerWithinLimit | cars-g-app/server/routes/chat.js:76-80 | a query from the start leaves out a matching document only when the answer has reached the limit |
| AuthMiddleware.HeaderToken | cars-g-app/server/middleware/auth.js:6 | `authHeader && authHeader.split(' ')[1]`: there is a token exactly when the header holds a space, and it holds no space itself |
| AuthMiddleware.BearerHeaderToken | cars-g-app/server/middleware/auth.js:6 | the token is the second space-separated word, whatever the first word is |
| AuthMiddleware.OneWordHeaderHasNoToken | cars-g-app/server/middleware/auth.js:6-10 | a header of one word yields no token |
| AuthMiddleware.Authenticate | cars-g-app/server/middleware/auth.js:3-29 | 401 exactly when there is no token; 403 exactly when the identity provider rejects it; 404 exactly when the verified uid has no profile; otherwise it goes on with the claims and the stored profile |
| AuthMiddleware.Request.AuthenticateToken | cars-g-app/server/middleware/auth.js:3-29 | proceeds exactly when `Authenticate` does; attaches claims and profile on success; a caller without a profile is left with claims and no profile |
| AuthMiddleware.RequireRole | cars-g-app/server/middleware/auth.js:31-48 | 401 exactly when no profile is attached; passes exactly when the role is in the list; otherwise 403 |
| AuthMiddleware.RequireAdmin | cars-g-app/server/middleware/auth.js:50 | admits exactly admin and superAdmin |
| AuthMiddleware.RequirePatrol | cars-g-app/server/middleware/auth.js:51 | admits exactly patrol, admin and superAdmin |
| ProtectedRoute.RoleLevel | src/components/ProtectedRoute.tsx:23-31 | the four roles have levels 1 to 4 and every other role has none |
| ProtectedRoute.RoleLevelsChain | src/components/ProtectedRoute.tsx:23-28 | user < patrol < admin < superAdmin, and no two roles share a level |
| ProtectedRoute.Guard | src/components/ProtectedRoute.tsx:14-38 | a spinner while loading; /login without a session or profile; the children when no role is required; for a known role, the children exactly when its level reaches the required one, otherwise a redirect to / |
| ProtectedRoute.GuardMonotone | src/components/ProtectedRoute.tsx:30-35 | among the four roles, a role at least as high as an admitted one is admitted |
| ProtectedRoute.UnknownRoleAdmitted | src/components/ProtectedRoute.tsx:30-35 | as written, a role outside the hierarchy is admitted to every route (see Findings) |
| ProtectedRoute.GuardKnownRoles | src/components/ProtectedRoute.tsx:30-35 | corrected guard: with a required role, the children exactly when the user's role is known and its level reaches the required one |
| ProtectedRoute.GuardKnownRolesAgrees | src/components/ProtectedRoute.tsx:14-38 | the corrected guard agrees with the written one whenever the user's role is one of the four |
| ReportRoutes.CanAccess | cars-g-app/server/routes/reports.js:87-91 | the owner, the assigned patrol, admin and superAdmin may access a report (the same test guards reading at 87-91 and the status change at 163-167) |
| ReportRoutes.AccessCases | cars-g-app/server/routes/reports.js:87-91 | the owner, the assigned patrol and every admin may access a report; a user or patrol with no relation to it may not |
| ReportRoutes.ListAll | cars-g-app/server/routes/reports.js:8-25 | admins only (403 otherwise); the page is the store's answer and `total` is its length |
| ReportRoutes.ListAllPage | cars-g-app/server/routes/reports.js:11-25 | an admin's page holds stored reports with the requested status, newest first, at most the limit (default 50); from offset 0 a matching report is left out only when the page is full; well-formed stored reports are listed well formed |
| ReportRoutes.MyReportsExactly | cars-g-app/server/routes/reports.js:33-46 | the caller receives exactly the reports they own, newest first |
| ReportRoutes.Assigned | cars-g-app/server/routes/reports.js:54 | the assigned list is open exactly to patrol, admin and superAdmin |
| ReportRoutes.AssignedExactly | cars-g-app/server/routes/reports.js:54-67 | the caller receives exactly the reports assigned to them, newest first |
| ReportRoutes.GetReport | cars-g-app/server/routes/reports.js:75-98 | 404 exactly when the report is missing, checked first; then 403 exactly when the caller may not access it; otherwise the report |
| ReportRoutes.RandomSuffix | cars-g-app/server/routes/reports.js:115 | `Math.floor(Math.random() * 1000)` lies in [0, 999] |
| ReportRoutes.LastSixDigits | cars-g-app/server/routes/reports.js:115 | `String(now).slice(-6)` is six digits whose value is now mod 10^6 |
| ReportRoutes.PaddedSuffix | cars-g-app/server/routes/reports.js:115 | the random suffix padded to three digits reads back as the suffix |
| ReportRoutes.CaseNumber | cars-g-app/server/routes/reports.js:115 | the case number: CARS-, the last six digits of the clock, -, the random suffix padded to three digits |
| ReportRoutes.CaseNumberFormat | cars-g-app/server/routes/reports.js:115 | a case number is CARS-dddddd-ddd: the timestamp mod 10^6 and the random suffix |
| Documents.Increment | cars-g-app/server/routes/reports.js:180 | `FieldValue.increment(d)`: a missing points field counts as 0, and the field becomes that plus d (also users.js:154) |
| ReportRoutes.NewReport | cars-g-app/server/routes/reports.js:115-130 | a new report has the case number of the clock and random draw, status verifying, priority 1, the caller as owner, no patrol, isAnonymous only when sent true, imageUrls defaulting to empty, and the two later clock reads as createdAt and updatedAt |
| ReportRoutes.Create | cars-g-app/server/routes/reports.js:106-138 | 400 and no write when title, description, category or location is falsy; otherwise exactly the new report is added, with 201 |
| ReportRoutes.UpdateStatus | cars-g-app/server/routes/reports.js:146-189 | 400 for a falsy status, 404 for a missing report, 403 without access, in that order; otherwise only status and updatedAt change; on resolved the owner gains 10 points, or the answer is 500 after the status is written when the owner has no profile; stored reports stay well formed |
| ReportRoutes.ResolveTwice | cars-g-app/server/routes/reports.js:177-182 | two resolutions of one report both succeed and award the owner 20 points: there is no duplicate guard |
| ReportRoutes.Assign | cars-g-app/server/routes/reports.js:192-217 | admins only; 400 without patrolUserId or when it names no user whose role is exactly patrol; 500 for a missing report; otherwise only patrolUserId and updatedAt change |
| ReportRoutes.PriorityAccepted | cars-g-app/server/routes/reports.js:225 | a priority passes exactly when it is present and between 1 and 5 |
| ReportRoutes.SetPriority | cars-g-app/server/routes/reports.js:220-239 | admins only; 400 unless the priority passes; 500 for a missing report; otherwise only priorityLevel and updatedAt change |
| UserRoutes.ListUsers | cars-g-app/server/routes/users.js:8-25 | admins only (403 otherwise); the page is the store's answer and `total` is its length |
| UserRoutes.ListUsersPage | cars-g-app/server/routes/users.js:11-25 | an admin's page holds stored profiles with the requested role, newest first, at most the limit (default 50); from offset 0 a matching profile is left out only when the page is full |
| UserRoutes.Leaderboard | cars-g-app/server/routes/users.js:43-49 | each row keeps only id, displayName, points (0 when absent), role and photoURL |
| UserRoutes.LeaderboardRanked | cars-g-app/server/routes/users.js:36-49 | at most the limit (default 10) distinct users with their stored points, in descending order; a user with points is left off only when the board is full, and then has no more points than anyone on it |
| UserRoutes.GetUser | cars-g-app/server/routes/users.js:59-83 | 404 exactly when the profile is missing, checked first; then 403 unless the caller asks for themselves or is an admin |
| UserRoutes.RoleChange | cars-g-app/server/routes/users.js:88-98 | 400 exactly when the role is not one of the four names; 403 exactly when a non-superAdmin assigns superAdmin |
| UserRoutes.UpdateRole | cars-g-app/server/routes/users.js:86-110 | admins only; then the checks of `RoleChange`; 500 for a missing target; otherwise only role and updatedAt change |
| UserRoutes.AdminMayDemoteSuperAdmin | cars-g-app/server/routes/users.js:95-98 | every admin may assign any role below superAdmin, whatever the target's role |
| UserRoutes.Ban | cars-g-app/server/routes/users.js:113-140 | admins only; 400 for a non-boolean; 403 when the target is a superAdmin, for ban and unban alike; 500 for a missing target; otherwise only isBanned and updatedAt change |
| UserRoutes.AdjustmentEntry | cars-g-app/server/routes/users.js:159-165 | the log entry records target, amount, time and adder, and a falsy reason becomes 'Manual points adjustment' |
| UserRoutes.AdjustPoints | cars-g-app/server/routes/users.js:143-172 | admins only; 400 for a non-number; 500 for a missing target, with nothing logged; otherwise the points change by the signed amount, updatedAt takes the first clock read, and exactly one log entry stamped with the second is appended |
| UserRoutes.Bump | cars-g-app/server/routes/users.js:195 | one increment adds 1 to the count of that key only, keeps keys distinct and adds the key |
| UserRoutes.TallyOf | cars-g-app/server/routes/users.js:194-201 | one entry per distinct key, whose count is the key's multiplicity; the counts add up to the number of keys |
| UserRoutes.BumpAsWritten | cars-g-app/server/routes/users.js:195-196 | as written on `{}`: the entry of the key becomes one more (a number gains 1, text gets "1" appended, a new ordinary key starts at 1, a new inherited function member starts as its source text followed by "1"), every other entry stays, and `__proto__` never gets an entry; the numeric counts grow by 1 exactly for an ordinary key |
| UserRoutes.TallyAsWritten | cars-g-app/server/routes/users.js:194-201 | as written, the numeric counts add up to the number of ordinary keys, no entry is `__proto__`, and an entry is text exactly when its key is an inherited function member |
| UserRoutes.BumpLift | cars-g-app/server/routes/users.js:195-196 | on an ordinary key the increment as written is the intended one |
| UserRoutes.TallyAsWrittenAgrees | cars-g-app/server/routes/users.js:194-201 | without inherited keys the tally as written is the intended tally |
| UserRoutes.OrdinaryCountFull | cars-g-app/server/routes/users.js:194-201 | every key is counted exactly when no key is inherited |
| UserRoutes.InheritedKeyMiscounted | cars-g-app/server/routes/users.js:194-201 | as written, a report under category "constructor" is tallied as the text "function Object() { [native code] }1" and one under "__proto__" not at all, where the intended tally counts each once (see Findings) |
| UserRoutes.StatsAsWritten | cars-g-app/server/routes/users.js:192-203 | as written, the category counts and the status counts each add up to totalReports exactly when no category, respectively status, is inherited, and then they are the intended tallies |
| UserRoutes.ResolvedCountIsMultiplicity | cars-g-app/server/routes/users.js:202 | the number of resolved reports is the multiplicity of resolved among the statuses |
| UserRoutes.ResolvedCount | cars-g-app/server/routes/users.js:202 | `filter(r => r.status === 'resolved').length`: the number of reports whose status is resolved |
| UserRoutes.StatsOf | cars-g-app/server/routes/users.js:192-203 | the statistics body: the number of reports, the intended status and category tallies, and ten points per resolved report |
| UserRoutes.StatsConsistent | cars-g-app/server/routes/users.js:192-203 | with the intended tally, status counts and category counts each add up to totalReports, and totalPoints is 10 times the resolved count |
| UserRoutes.UserStats | cars-g-app/server/routes/users.js:175-205 | 403 exactly when the caller asks about someone else without being an admin, checked before any query; otherwise the statistics of the answer with the intended tallies |
| UserRoutes.StatsCountOwnReports | cars-g-app/server/routes/users.js:186-193 | totalReports is the number of reports the user owns |
| ChatRoutes.ListQuery | cars-g-app/server/routes/chat.js:13-18 | the chat list's query: everything for an admin, only the caller's own messages otherwise, oldest first, limit 50 by default |
| ChatRoutes.ListShowsOwnMessages | cars-g-app/server/routes/chat.js:8-26 | a non-admin receives only their own messages, so never another user's reply, and an admin may receive anyone's; at most the limit (default 50), oldest first; from offset 0 a visible message is left out only when the page is full; well-formed stored messages are listed well formed |
| ChatRoutes.CheckText | cars-g-app/server/routes/chat.js:39-45 | 400 for a falsy or blank text; 500 for a truthy non-string; 400 when the untrimmed text exceeds 1000 characters; otherwise it passes |
| ChatRoutes.PaddedTextRefused | cars-g-app/server/routes/chat.js:43-48 | a short text padded with spaces past 1000 characters is refused, although its trimmed form would fit |
| ChatRoutes.NewMessage | cars-g-app/server/routes/chat.js:47-54 | the stored message holds the trimmed text and the sender's uid, name and role, with isAdminReply exactly for admin and superAdmin |
| ChatRoutes.SendMessage | cars-g-app/server/routes/chat.js:34-62 | rejected text writes nothing; otherwise exactly the new message is added, with 201; stored messages stay well formed |
| ChatRoutes.Conversation | cars-g-app/server/routes/chat.js:70 | one user's conversation is open exactly to admins |
| ChatRoutes.ConversationOfUser | cars-g-app/server/routes/chat.js:70-87 | an admin gets only that user's messages, oldest first, at most the limit (default 100), and all of them unless the limit is reached |
| ChatRoutes.FirstIndex | cars-g-app/server/routes/chat.js:104 | the first position of an element: it holds the element and no earlier one does |
| ChatRoutes.FirstIndexUnique | cars-g-app/server/routes/chat.js:104 | a position holding the element with none before it is the first position |
| ChatRoutes.Distinct | cars-g-app/server/routes/chat.js:104 | `[...new Set(xs)]` holds the same elements as xs, each once, in order of first occurrence |
| ChatRoutes.LatestFrom | cars-g-app/server/routes/chat.js:109-116 | the last message of a sender is their first message in the newest-first snapshot, and there is one exactly when they sent any |
| ChatRoutes.Summary | cars-g-app/server/routes/chat.js:115-127 | the profile's name and role, each falling back ('Unknown User', user) when the profile is missing or the field falsy; nobody shows online; the last message is the sender's latest |
| ChatRoutes.Conversations | cars-g-app/server/routes/chat.js:95-131 | admins only; the rows are the summaries of the distinct senders of the newest-first snapshot, in order of their first appearance there |
| ChatRoutes.SnapshotSenders | cars-g-app/server/routes/chat.js:100-104 | the senders in the snapshot are exactly the users who have sent a message |
| ChatRoutes.ConversationsCoverSenders | cars-g-app/server/routes/chat.js:99-131 | exactly one row for each user who has sent a message, and none shown online |
| ChatRoutes.FirstIsNewest | cars-g-app/server/routes/chat.js:109-113 | a sender's first position in the newest-first snapshot holds their newest message |
| ChatRoutes.LastMessageIsNewest | cars-g-app/server/routes/chat.js:109-125 | no message from a sender is more recent than the last message shown for them |
| ChatRoutes.LatestAtFirstIndex | cars-g-app/server/routes/chat.js:104-113 | a sender's latest message sits at their first position among the snapshot's senders |
| ChatRoutes.EarlierSenderIsNewer | cars-g-app/server/routes/chat.js:104-125 | of two senders, the one who appears first in the newest-first snapshot has the more recent last message |
| ChatRoutes.ConversationsNewestFirst | cars-g-app/server/routes/chat.js:99-131 | every row has a last message, and the rows come in order of it, newest first |
| ChatRoutes.DeleteMessage | cars-g-app/server/routes/chat.js:139-151 | admins only; removes at most the message with that id and leaves every other one as it was; succeeds for an unknown id |
| ChatRoutes.MarkRead | cars-g-app/server/routes/chat.js:154-166 | changes nothing and succeeds exactly for admins |
| ProfileRoutes.GetProfile | server/routes/auth.js:8-27 | 404 exactly when the caller has no profile; otherwise the token's uid with the stored profile, and the stored e-mail wins over the token's |
| ProfileRoutes.PutProfile | server/routes/auth.js:30-47 | a truthy displayName or photoURL replaces the stored one, lastActive is set and nothing else changes; 500 for a caller without a profile |
| ProfileRoutes.GetPoints | server/routes/auth.js:50-69 | 404 exactly when the profile is missing; otherwise its points (0 when absent), name and role |
| ProfileRoutes.PostPoints | server/routes/auth.js:72-100 | as written: 400 for an absent or non-positive amount, and 500 for every other amount (see Findings) |
| ProfileRoutes.PostPointsNeverSucceeds | server/routes/auth.js:81-84 | as written, no request ever adds points |
| ProfileRoutes.PostPointsIntended | server/routes/auth.js:72-100 | corrected: a positive amount is added to the caller's points, lastActive takes the first clock read, and one log entry stamped with the second is appended with reason defaulting to 'Manual points addition'; 500 and no log for a caller without a profile |

## Left out

- HTTP transport, Express routing, JSON serialisation and console logging are not modelled. Each handler is a function or method called with the parsed request.
- The store's own failures (network, permissions, quotas) and the routes' generic 500 answers for them are not modelled. The one store failure modelled is an update of a missing document.
- AuthMiddleware.Authenticate: a failure of the profile lookup itself, which the source also answers with 403, is not modelled.
- AuthMiddleware.RequireRole: the `required` and `current` fields of the 403 body are not modelled; only the status and the error string are.
- Concurrency is not modelled: each handler runs atomically.
- Body fields the handlers do not type-check are modelled as strings: `title`, `description`, `category`, `status`, `patrolUserId`, `reason` and `displayName`. A truthy non-string (a number, say) is stored as sent in the source, and a non-string `patrolUserId` makes `.doc()` throw, giving 500; neither is modelled.
- Body fields of other types are modelled by the type the client sends: `photoURL` (server/routes/auth.js:37) as a string, `isAnonymous` (cars-g-app/server/routes/reports.js:122) as an optional boolean, `imageUrls` (cars-g-app/server/routes/reports.js:124) as an optional list of strings and `location` (cars-g-app/server/routes/reports.js:110) as an optional location. The source stores any truthy `photoURL`, `isAnonymous` or `imageUrls` as sent, whatever its type, and any truthy `location`; a value of another type is not modelled.
- UserRoutes.UserStats: the handler answers with the intended tallies (`UserRoutes.TallyOf`). The tallies the source computes are `UserRoutes.TallyAsWritten`; they differ for a status or category named after a member of `Object.prototype` or "__proto__", and `UserRoutes.StatsAsWritten` relates the two.
- ChatRoutes.Summary: the per-sender "last message" query is read from the same newest-first snapshot as the sender list. Concurrent writes between the queries are not modelled.
- Numbers are exact reals. NaN, infinities and floating-point rounding are not modelled.
- ReportRoutes.SetPriority: a non-number priorityLevel (a numeric string, say) is not modelled; JavaScript would coerce it in the comparison. The priority is a present-or-absent number.
- ProfileRoutes.PostPoints: non-number amounts are not modelled, for the same reason.
- ChatRoutes.CheckText: length is counted in characters, not in UTF-16 code units as JavaScript counts it. A text with characters outside the Basic Multilingual Plane can be refused by the source while the model accepts it.
- `parseInt` of the limit and offset query parameters is not modelled; they are optional natural numbers. A non-numeric value makes the store query fail in the source.
- UserRoutes.TallyOf: keys are kept in order of first occurrence. A JavaScript object lists integer-like keys first, in ascending order; that order is not modelled.
- ReportRoutes.CaseNumberFormat: stated for timestamps of at least 100000 ms, that is, at least six digits. Every real clock value qualifies.
- Documents are returned as (id, document) pairs rather than one object with the id spread in. The extra `message` field of the 201 bodies is not modelled.
- The rest of the repository is not part of this model: the server entry point, the client pages, the API client, the authentication context and the Leaderboard component.

## Findings

| source | as written | input that shows it | evidently intended | confidence | as-written member | corrected member |
|---|---|---|---|---|---|---|
| server/routes/auth.js:81-83 | the update's argument calls `admin.firestore.FieldValue.increment(points)`, but `admin` is never bound in this file, so evaluating it throws and the handler answers 500 | POST /points with `{"points": 5}` from a caller who has a profile | add 5 to the caller's points, set lastActive, log the entry and answer 200 | not executed; high (no binding of `admin` appears in the file) | ProfileRoutes.PostPointsNeverSucceeds | ProfileRoutes.PostPointsIntended |
| cars-g-app/server/routes/users.js:194-201 | the reduce adds 1 to `acc[k]`, defaulting to 0, on a plain `{}`; for a key such as "constructor" or "__proto__" it reads the member `{}` inherits from `Object.prototype` instead | a user whose one report has category "constructor" (or "__proto__") asks for their statistics | `reportsByCategory` is `{constructor: 1}` (or `{__proto__: 1}`), and the category counts add up to totalReports | not executed; medium (the create route accepts any truthy category; the client offers a fixed list) | UserRoutes.InheritedKeyMiscounted | UserRoutes.TallyOf |
| src/components/ProtectedRoute.tsx:30-35 | a role missing from `roleHierarchy` gets level `undefined`, and `undefined < n` is false, so the guard admits the user | a signed-in profile with role "guest" on a route whose requiredRole is superAdmin | redirect to / like any role below the required level | not executed; medium (profiles normally hold one of the four roles) | ProtectedRoute.UnknownRoleAdmitted | ProtectedRoute.GuardKnownRoles |
