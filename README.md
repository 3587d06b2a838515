# Provote backend core, modelled in Dafny

Provote is a polling service built on Django and Django REST framework.
This project models the logic of its backend, file by file:

- vote idempotency and voter identity (`backend/core/utils/idempotency.py`);
- the fingerprint and audit-log middlewares (`backend/core/middleware/`);
- the REST exception handler (`backend/core/exceptions/handlers.py`);
- casting and retracting votes, with their permissions (`backend/apps/votes/`);
- the background fingerprint and pattern analysis tasks (`backend/apps/votes/tasks.py`);
- poll result visibility, cloning, templates and permissions (`backend/apps/polls/`);
- notification preferences, deliveries and the notification services (`backend/apps/notifications/`);
- token login and the follow graph (`backend/apps/users/views.py`);
- the analytics views and the fingerprint-block admin action (`backend/apps/analytics/`).

Each file becomes one module:

- Pure helpers become functions, datatypes and lemmas.
- Django model instances and caches that the source updates in place become
  classes. Their methods are proved against specification functions on the
  old state.
- Loops in the source (summarising a vote window, the periodic analysis,
  copying options, checking template options, delivering over channels,
  notifying followers) become methods with `while` or `for` loops.

Outside effects become parameters of the model:

- SHA-256 and `json.dumps` are function parameters (`Hasher`, `Dumps`).
  Only the key order of `json.dumps(..., sort_keys=True)` is modelled, by
  `Json.SortedItems`.
- The result of each database query, cache read and outside service call is
  an input. A success is `Ok(value)`; a raised exception is
  `Raised(message)`, or `None` where the source only catches it.
- The clock is an integer number of microseconds.

`validate_idempotency_key` checks the length and `int(key, 16)`. That
accepts more than SHA-256 digests. `Idempotency.AcceptsPrefixedKey` and
`Idempotency.AcceptsSignedKey` show two accepted keys that are not digests:
`0x` followed by 62 hex digits, and `-` followed by 63. The source promises
only that a valid key is 64 characters long, and the model keeps that
behaviour.

`analyze_fingerprint_patterns` reads the earliest vote as
`historical_votes[-1]`, a negative QuerySet index that Django refuses. The
error is swallowed, so as written the task never updates the activity
cache. The model keeps both: `VoteTasks.AfterFingerprintAnalysisAsWritten`
is the code as written, and `VoteTasks.AfterFingerprintAnalysis` is the
evidently intended analysis that the rest of the model uses (see
Findings).

## Model

| member | source | states |
|---|---|---|
| Idempotency.GenerateIdempotencyKey | backend/core/utils/idempotency.py:13-28 | the key of a vote is the SHA-256 digest of `user:poll:choice` and always passes validation |
| Idempotency.KeyMaterialInjective | backend/core/utils/idempotency.py:26-27 | the text `user:poll:choice` determines user, poll and choice, so distinct votes hash distinct texts |
| Idempotency.IdTextInjective | backend/core/utils/idempotency.py:27 | the formatted user id (`None` or a number) determines the id |
| Idempotency.PollChoiceInjective | backend/core/utils/idempotency.py:27 | `poll:choice` determines both numbers |
| Idempotency.ValidateIdempotencyKey | backend/core/utils/idempotency.py:31-53 | a valid key has 64 characters; every 64-character hex string is valid |
| Idempotency.DigestIsValidKey | backend/core/utils/idempotency.py:44-51 | every SHA-256 hex digest is a valid key |
| Idempotency.AcceptsPrefixedKey | backend/core/utils/idempotency.py:49-51 | `0x` plus 62 hex digits is accepted although it is no digest |
| Idempotency.AcceptsSignedKey | backend/core/utils/idempotency.py:49-51 | `-` plus 63 hex digits is accepted although it is no digest |
| Idempotency.CacheKeyInjective | backend/core/utils/idempotency.py:69 | distinct keys use distinct cache entries |
| Idempotency.Lookup | backend/core/utils/idempotency.py:56-75 | duplicate exactly when the key is valid and its cache entry exists and is truthy; the cached value is returned only then, and an invalid key is `(False, None)` |
| Idempotency.StoreThenCheck | backend/core/utils/idempotency.py:104-117 | storing a truthy result under a valid key makes the next check report it as a duplicate with that result |
| Idempotency.StoreFalsyThenCheck | backend/core/utils/idempotency.py:72-75 | a stored falsy result is not reported as a duplicate |
| Idempotency.StoreIsolated | backend/core/utils/idempotency.py:113-117 | storing under one key leaves every other key's check unchanged, and storing under an invalid key changes nothing |
| Idempotency.Stored | backend/core/utils/idempotency.py:104-117 | a valid key's cache entry becomes the result and an invalid key changes nothing; the round trips with `Lookup` are `StoreThenCheck`, `StoreFalsyThenCheck` and `StoreIsolated` |
| Idempotency.IdempotencyCache.constructor | backend/core/utils/idempotency.py:10 | the cache starts empty |
| Idempotency.IdempotencyCache.Check | backend/core/utils/idempotency.py:56-75 | answers exactly `Lookup` on the current cache |
| Idempotency.IdempotencyCache.Store | backend/core/utils/idempotency.py:104-117 | the new cache is the old one with the entry stored when the key is valid |
| Idempotency.CheckDuplicateVote | backend/core/utils/idempotency.py:78-101 | duplicate exactly when the key is valid, the query succeeds and a vote has that key; the vote id is returned only then, and a failed query counts as no duplicate |
| Idempotency.GenerateVoterToken | backend/core/utils/idempotency.py:120-149 | the SHA-256 of `user:<id>` for a truthy user id, else of the key-sorted JSON of the anonymous identity; stated by `TokenOfAuthenticatedUser` and `TokenOfAnonymousVoter` |
| Idempotency.TokenOfAuthenticatedUser | backend/core/utils/idempotency.py:136-138 | a truthy user id gives the hash of `user:<id>`, whatever the IP, user agent and fingerprint are |
| Idempotency.TokenOfAnonymousVoter | backend/core/utils/idempotency.py:139-147 | user id 0 and no user id give the same token, and a missing IP, user agent or fingerprint counts as the empty string |
| Idempotency.AnonymousIdentityOrder | backend/core/utils/idempotency.py:141-147 | the anonymous identity is serialised in the key order fp, ip, ua |
| Idempotency.IdentityKeysSorted | backend/core/utils/idempotency.py:147 | the sorted keys of the identity dict are fp, ip, ua |
| Idempotency.ExtractIpAddress | backend/core/utils/idempotency.py:152-188 | never yields an empty address; a non-empty first X-Forwarded-For hop wins; no address exactly when no header offers one |
| Idempotency.ExtractIpFallbacks | backend/core/utils/idempotency.py:176-186 | without a usable forwarded hop, the stripped X-Real-IP applies, and then REMOTE_ADDR |
| Json.SortedItems | backend/core/utils/idempotency.py:147 | `sort_keys=True` lists every entry of the dict once, in strictly increasing key order |
| Json.SortedItemsInjective | backend/core/middleware/fingerprint.py:52-55 | two dicts with the same sorted items are equal, so the serialiser input determines the dict |
| Fingerprint.FingerprintData | backend/core/middleware/fingerprint.py:42-49 | the fingerprint dict has exactly the six keys, each read from its header with `""` as default |
| Fingerprint.ExtractFingerprint | backend/core/middleware/fingerprint.py:30-57 | the SHA-256 of the key-sorted JSON of the six-header dict; stated by `FingerprintDependsOnHeaders` and `ValidateOwnFingerprint` |
| Fingerprint.ValidateFingerprint | backend/core/middleware/fingerprint.py:59-71 | a stored fingerprint validates exactly when it equals the one computed from the request |
| Fingerprint.FingerprintDataExact | backend/core/middleware/fingerprint.py:42-49 | two requests have the same fingerprint dict exactly when they agree on the six headers |
| Fingerprint.FingerprintDependsOnHeaders | backend/core/middleware/fingerprint.py:30-57 | requests that agree on the six headers get the same fingerprint, and requests that differ give different serialiser input |
| Fingerprint.AbsentHeaderIsEmpty | backend/core/middleware/fingerprint.py:42-49 | a missing header and an empty one give the same fingerprint |
| Fingerprint.ValidateOwnFingerprint | backend/core/middleware/fingerprint.py:59-71 | a request's own fingerprint always validates |
| Fingerprint.Request.constructor | backend/core/middleware/fingerprint.py:20-28 | a new request has its META and no fingerprint yet |
| Fingerprint.FingerprintMiddleware.constructor | backend/core/middleware/fingerprint.py:15-17 | the middleware keeps the next handler |
| Fingerprint.FingerprintMiddleware.Call | backend/core/middleware/fingerprint.py:20-28 | sets `request.fingerprint` to the computed fingerprint before the next handler answers |
| AuditLog.SkippedPaths | backend/core/middleware/audit_log.py:24-25 | admin, static and media paths are not logged |
| AuditLog.GetClientIp | backend/core/middleware/audit_log.py:130-138 | the first X-Forwarded-For hop when the header is set, otherwise REMOTE_ADDR or `unknown` |
| AuditLog.ClientIpAgreesWithVotePath | backend/core/middleware/audit_log.py:130-138 | with a non-empty first hop, the audit log and the vote path record the same address |
| AuditLog.BlankFirstHopKept | backend/core/middleware/audit_log.py:133-135 | a blank first hop is logged as the empty string, where the vote path falls back instead |
| AuditLog.BlankFirstHopExample | backend/core/middleware/audit_log.py:134 | the header ` ,10.0.0.1` has a blank first hop |
| AuditLog.RealIpIgnored | backend/core/middleware/audit_log.py:136-138 | the audit log ignores X-Real-IP, which the vote path uses |
| AuditLog.AuditUserId | backend/core/middleware/audit_log.py:30-31 | a user id is recorded exactly for an authenticated user |
| AuditLog.AuditEntry | backend/core/middleware/audit_log.py:103-118 | the row records the user, method, path, the query parameters only when there are any, no body, the status, the client IP, the user agent cut to 500 characters, the request id or `""`, and the elapsed time |
| AuditLog.AfterRequest | backend/core/middleware/audit_log.py:22-77 | the table gains the request's row exactly when the path is not skipped and the write succeeds; stated by `AfterRequestAppendsOnly` |
| AuditLog.AfterRequestAppendsOnly | backend/core/middleware/audit_log.py:22-77 | a request appends at most one row and changes no old row; it appends exactly when its path is not skipped and the write succeeds |
| AuditLog.AuditTable.constructor | backend/core/middleware/audit_log.py:103-104 | the audit table starts empty |
| AuditLog.AuditLogMiddleware.constructor | backend/core/middleware/audit_log.py:19-20 | the middleware keeps the next handler |
| AuditLog.AuditLogMiddleware.Call | backend/core/middleware/audit_log.py:22-77 | returns the next handler's response and leaves the table as `AfterRequest` of the old one |
| ExceptionHandlers.FieldErrors | backend/core/exceptions/handlers.py:125-128 | the field errors are the detail entries other than `detail`, unchanged |
| ExceptionHandlers.DetailBody | backend/core/exceptions/handlers.py:109-132 | the body of a default-handled exception, shaped by the kind of its detail; stated by `DetailShaping` |
| ExceptionHandlers.Handle | backend/core/exceptions/handlers.py:16-132 | authentication errors give 401, a voting error its own status, an unknown exception the generic 500, and any other the default status with a shaped body; stated by the rule lemmas below |
| ExceptionHandlers.AuthenticationFailedIs401 | backend/core/exceptions/handlers.py:33-41 | an authentication failure always gives the fixed 401 response |
| ExceptionHandlers.WrappedAttributeErrorRule | backend/core/exceptions/handlers.py:46-60 | a wrapped error gives 401 exactly when its cause, else its context, is an AttributeError mentioning split, authorization or nonetype; otherwise it is handled like any other exception |
| ExceptionHandlers.AttributeErrorRule | backend/core/exceptions/handlers.py:63-74 | a bare AttributeError gives 401 when it mentions split and authorization or nonetype; otherwise it is handled like any other exception |
| ExceptionHandlers.BareRuleStricter | backend/core/exceptions/handlers.py:46-74 | every message the bare rule accepts, the wrapped rule accepts too |
| ExceptionHandlers.NonetypeAloneDiffers | backend/core/exceptions/handlers.py:54-70 | `nonetype` alone passes the wrapped rule and fails the bare one |
| ExceptionHandlers.VotingErrorRule | backend/core/exceptions/handlers.py:80-88 | a voting error answers with its own status code, message and class name |
| ExceptionHandlers.UnhandledIsGeneric500 | backend/core/exceptions/handlers.py:91-106 | an exception the default handler does not know gives the same generic 500 response, whatever its message |
| ExceptionHandlers.DetailShaping | backend/core/exceptions/handlers.py:109-132 | the body carries the default status and class name; a dict detail becomes `errors`, with field errors exactly when it has an entry other than `detail`; a list goes under `errors.detail`; any other detail becomes the message |
| VoteViews.ErrorStatus | backend/apps/votes/views.py:357-410 | only an unexpected exception maps to 500 |
| VoteViews.ExceptionReply | backend/apps/votes/views.py:357-410 | a known voting exception answers with its message and class name; any other exception gets the generic internal-error body |
| VoteViews.ExceptionStatusTable | backend/apps/votes/views.py:357-401 | 404 for a missing poll; 400 for an invalid poll, a closed poll, an invalid vote, a failed CAPTCHA and a failed fingerprint check; 409 for a duplicate; 403 for fraud and a blocked IP |
| VoteViews.InternalErrorHidesMessage | backend/apps/votes/views.py:402-410 | the 500 reply does not depend on the exception's message |
| VoteViews.CastReply | backend/apps/votes/views.py:275-410 | an anonymous voter on an existing poll gets 401; otherwise a cast vote answers 201 when new and 200 when replayed, and a raised exception answers through the exception table |
| VoteViews.AnonymousRefusedBeforeCast | backend/apps/votes/views.py:314-333 | an anonymous voter is refused before the cast is attempted, so the cast outcome does not matter |
| VoteViews.ReplayCarriesSameVote | backend/apps/votes/views.py:335-355 | a replay returns the same vote body as the first cast, with 200 in place of 201 |
| VoteViews.Throttles | backend/apps/votes/views.py:87-91 | only the cast action is throttled |
| VoteViews.VisibleVotes | backend/apps/votes/views.py:93-97 | a user sees exactly their own votes, unchanged, and an anonymous requester sees none |
| VoteViews.RetractReply | backend/apps/votes/views.py:467-529 | 404 for an unknown vote, 403 for someone else's vote, and 204 exactly when the owner retracts on an open poll that allows retraction |
| VoteViews.Decrement | backend/apps/votes/views.py:519-525 | one counter drops by one and every other counter is unchanged |
| VoteViews.Retracted | backend/apps/votes/views.py:467-529 | the store after `destroy`; stated by `RetractionEffect` and `RetractionNeedsOwnerAndOpenPoll` |
| VoteViews.RetractionEffect | backend/apps/votes/views.py:467-529 | a refused retraction changes nothing; a 204 deletes exactly that vote and drops its option's and its poll's counters by one |
| VoteViews.RetractionNeedsOwnerAndOpenPoll | backend/apps/votes/views.py:491-510 | any change to the store means the requester owned the vote and the poll was open |
| VoteViews.VoteStore.constructor | backend/apps/votes/views.py:467 | the store starts from the given state |
| VoteViews.VoteStore.Destroy | backend/apps/votes/views.py:467-529 | answers `RetractReply` and leaves the store as `Retracted` of the old one |
| VotePermissions.CanVoteTable | backend/apps/votes/permissions.py:16-37 | safe methods and POST are always allowed, DELETE needs a signed-in user, every other method is refused |
| VotePermissions.CanVote | backend/apps/votes/permissions.py:16-37 | the request-level decision; its table is `CanVoteTable` |
| VotePermissions.CanActOnVoteTable | backend/apps/votes/permissions.py:39-45 | DELETE on a vote is allowed exactly for its owner, never on an ownerless vote; other methods are allowed |
| VotePermissions.CanActOnVote | backend/apps/votes/permissions.py:39-45 | the object-level decision on a vote; its table is `CanActOnVoteTable` |
| VoteTasks.InWindow | backend/apps/votes/tasks.py:51-59 | the window holds exactly the votes with this fingerprint in this poll cast at or after the cutoff |
| VoteTasks.DistinctUsers | backend/apps/votes/tasks.py:65 | the set of truthy user ids in the window |
| VoteTasks.DistinctIps | backend/apps/votes/tasks.py:66 | the set of non-empty IP addresses in the window |
| VoteTasks.Earliest | backend/apps/votes/tasks.py:70 | the time of the window's earliest vote, as the line evidently intends (see Findings): no later than any vote in the window, and the time of one of them |
| VoteTasks.Latest | backend/apps/votes/tasks.py:71 | the last vote's time: no earlier than any vote in the window, and the time of one of them |
| VoteTasks.Summarize | backend/apps/votes/tasks.py:64-72 | the loop computes the vote count, users and IPs of the window and the intended non-negative span from its earliest to its latest vote (see Findings) |
| VoteTasks.Measure | backend/apps/votes/tasks.py:64-72 | the reference measurement: vote count, distinct users, distinct IPs and the earliest-to-latest span; `Summarize` is proved to compute it |
| VoteTasks.Assess | backend/apps/votes/tasks.py:74-94 | each risk factor is listed exactly when its threshold is met |
| VoteTasks.AssessScore | backend/apps/votes/tasks.py:74-94 | the factor list is exactly multiple_users, multiple_ips, high_frequency in that order, each present when its threshold is met and nothing else; the score is 40, 30 and 20 for the three factors, stays between 0 and 90, and is untouched by the cap of 100 |
| VoteTasks.SingleVoterNotMultiple | backend/apps/votes/tasks.py:65-88 | votes from one user and one IP never trigger the multiple-users or multiple-IPs factors under the default thresholds |
| VoteTasks.AnalysisRecordFields | backend/apps/votes/tasks.py:100-111 | the record keeps the old cached fields and sets the seven analysis fields to the window's figures |
| VoteTasks.Analysis | backend/apps/votes/tasks.py:38-62 | analysis happens exactly for a non-empty fingerprint, a successful query and a non-empty window |
| VoteTasks.RecordUpdateEffect | backend/apps/votes/tasks.py:96-113 | the update touches only this fingerprint's and poll's cache entry |
| VoteTasks.Recorded | backend/apps/votes/tasks.py:96-113 | no measurement leaves the cache as it was; a measurement replaces the activity key's record by the merged one; its effect is stated by `RecordUpdateEffect` |
| VoteTasks.FingerprintAnalysisEffect | backend/apps/votes/tasks.py:26-123 | the corrected analysis (see Findings): no analysis leaves the cache unchanged; otherwise only the activity key changes, as the merged record |
| VoteTasks.AfterFingerprintAnalysis | backend/apps/votes/tasks.py:26-123 | the corrected analysis followed by the cache update; its effect is stated by `FingerprintAnalysisEffect` and `FingerprintAnalysisRecords` |
| VoteTasks.FingerprintAnalysisRecords | backend/apps/votes/tasks.py:96-111 | in the corrected analysis, the stored counts are the window's vote count, distinct users and distinct IPs |
| VoteTasks.ActivityCache.constructor | backend/apps/votes/tasks.py:100 | the activity cache starts empty |
| VoteTasks.ActivityCache.AnalyzeFingerprintPatterns | backend/apps/votes/tasks.py:26-123 | leaves the cache as `AfterFingerprintAnalysis`, the corrected analysis, of the old one (see Findings) |
| VoteTasks.QuerySetAt | backend/apps/votes/tasks.py:70 | indexing the window succeeds exactly for an index within it, giving that vote; a negative index raises |
| VoteTasks.AnalysisAsWritten | backend/apps/votes/tasks.py:38-72 | as written: nothing for an empty fingerprint, the query's exception for a failing query, nothing for an empty window, and otherwise the exception `historical_votes[-1]` raises |
| VoteTasks.AfterFingerprintAnalysisAsWritten | backend/apps/votes/tasks.py:26-123 | as written: a raised exception is swallowed and the cache kept; an outcome without a measurement keeps the cache too |
| VoteTasks.AsWrittenNeverRecords | backend/apps/votes/tasks.py:61-123 | as written, every run with a fingerprint and a non-empty window or a failing query raises, no run measures anything, and the cache is never changed |
| VoteTasks.AsWrittenDiffersFromIntended | backend/apps/votes/tasks.py:70-113 | for a non-empty window of a new fingerprint, the corrected analysis stores the activity record and the code as written does not |
| VoteTasks.AsWrittenLosesOneVote | backend/apps/votes/tasks.py:70 | a window of a single vote already shows the discrepancy |
| VoteTasks.AnalyzeVotePatternsTask | backend/apps/votes/tasks.py:126-182 | succeeds exactly when the analyser succeeds and, for a given poll, so do alert generation and flagging; reports the analyser's counts |
| VoteTasks.TaskWithoutPollIgnoresAlerts | backend/apps/votes/tasks.py:151-161 | without a poll, alert generation and flagging do not affect the result |
| VoteTasks.PeriodicPatternAnalysis | backend/apps/votes/tasks.py:185-256 | the loop reports the failure of the poll query, or the poll count, the pattern and alert totals and the highest risk |
| VoteTasks.FailedRunContributesNothing | backend/apps/votes/tasks.py:211-236 | a poll whose analysis failed adds nothing to the totals or to the highest risk |
| VoteTasks.HighestRiskIsMaximum | backend/apps/votes/tasks.py:223-225 | the highest risk is at least every completed run's score and is 0 or one of those scores |
| PollServices.CanViewResults | backend/apps/polls/services.py:22-57 | results are visible exactly when the poll is not private or the viewer created it, and voting has ended or the poll shows results during voting |
| PollServices.ResultVisibility | backend/apps/polls/services.py:22-57 | private results are hidden from everyone but the creator and from anonymous viewers; public results of a closed poll are visible to all |
| PollServices.ResultsCacheKey | backend/apps/polls/services.py:60-62 | the cache key starts with `poll_results:`; with `KeysCarryPollId` the printed id follows it |
| PollServices.PollGroupName | backend/apps/polls/services.py:218-220 | the group name starts with `poll_` and ends with `_results`; with `KeysCarryPollId` the id is printed between them, and with `KeyFormatsDistinct` distinct polls get distinct names |
| PollServices.KeysCarryPollId | backend/apps/polls/services.py:60-62 | the results key is `poll_results:` followed by the printed id, and the group name has the printed id between `poll_` and `_results` |
| PollServices.KeyFormatsDistinct | backend/apps/polls/services.py:60-62 | each format determines the poll id, and the two formats never coincide |
| PollServices.CloneTitle | backend/apps/polls/services.py:95-99 | a new title is used as given; otherwise `Copy of` plus the title, cut to 197 characters plus `...` when it exceeds 200 |
| PollServices.CloneTitleBounded | backend/apps/polls/services.py:95-99 | a derived title never exceeds 200 characters and starts with the first 197 of `Copy of` plus the title |
| PollServices.ClonedPoll | backend/apps/polls/services.py:102-124 | the clone copies description and dates, belongs to the cloning user, is inactive with zero counters and the given draft flag, and takes settings and security rules only when asked |
| PollServices.OptionsOf | backend/apps/polls/services.py:88 | the poll's options, each from the table and all of them |
| PollServices.SortByOrder | backend/apps/polls/services.py:130-136 | the options in order of their `order` field, as a permutation |
| PollServices.CopiedOptions | backend/apps/polls/services.py:130-136 | each copy keeps text and order, belongs to the clone and has no votes |
| PollServices.PollStore.constructor | backend/apps/polls/services.py:65 | the store starts empty |
| PollServices.PollStore.ClonePoll | backend/apps/polls/services.py:65-140 | a poll without options raises and changes nothing; otherwise the clone gets the next id and copies of the options in order |
| PollServices.PollStore.CopyOptions | backend/apps/polls/services.py:130-136 | the loop appends exactly the copies of the ordered options |
| PollServices.ClonedOptions | backend/apps/polls/services.py:130-136 | read back, the clone's options are exactly the copies of the source poll's options in order |
| PollServices.CopiesReadBack | backend/apps/polls/services.py:130-136 | appended copies are exactly the options of the new poll |
| PollServices.OptionsOfAppend | backend/apps/polls/services.py:88 | the options of a poll in two tables together are those of the first followed by those of the second |
| PollServices.InsertKeepsOrder | backend/apps/polls/services.py:130 | inserting an option keeps the options sorted by order |
| PollPermissions.OwnerOrReadOnlyTable | backend/apps/polls/permissions.py:15-31 | reads are open to all; writes need a signed-in user, and on a poll they need its creator |
| PollPermissions.OwnerOrReadOnlyAllows | backend/apps/polls/permissions.py:15-22 | reads pass and writes need a signed-in user; stated by `OwnerOrReadOnlyTable` |
| PollPermissions.OwnerOrReadOnlyAllowsOn | backend/apps/polls/permissions.py:24-31 | reads pass and writes need the poll's creator; stated by `OwnerOrReadOnlyTable` |
| PollPermissions.PermissiveChecks | backend/apps/polls/permissions.py:40-52 | CanModifyPoll and the view-level admin-or-owner check allow every request |
| PollPermissions.CanModifyPollOn | backend/apps/polls/permissions.py:40-52 | every branch allows; stated by `PermissiveChecks` |
| PollPermissions.AdminOrOwnerAllows | backend/apps/polls/permissions.py:65-70 | every request reaches the object check; stated by `PermissiveChecks` |
| PollPermissions.AdminOrOwnerTable | backend/apps/polls/permissions.py:74-83 | a poll may be changed exactly by a signed-in staff member or its creator |
| PollPermissions.AdminOrOwnerAllowsOn | backend/apps/polls/permissions.py:72-83 | staff and the signed-in creator pass, everyone else is refused; stated by `AdminOrOwnerTable` |
| PollTemplates.CatalogueShape | backend/apps/polls/templates.py:9-84 | there are five templates, each with its name, description, options and settings |
| PollTemplates.TemplateKeys | backend/apps/polls/templates.py:9-84 | the catalogue holds exactly the five template ids |
| PollTemplates.EachTemplateWellShaped | backend/apps/polls/templates.py:9-84 | every template has between 2 and 100 options, each with text |
| PollTemplates.GetTemplate | backend/apps/polls/templates.py:87-97 | an unknown id gives nothing; a known one gives its template |
| PollTemplates.ListTemplates | backend/apps/polls/templates.py:100-115 | lists every template with its id, name, description and option count |
| PollTemplates.CreatePollFromTemplate | backend/apps/polls/templates.py:118-172 | an unknown id raises `Invalid template ID`; otherwise the poll data uses the given title, activity and dates, the custom options or the template's, and the template description when none is given |
| PollTemplates.SettingsMerge | backend/apps/polls/templates.py:155-157 | the custom settings override the template's, key by key, and the template's other settings remain |
| PollTemplates.NoCustomSettings | backend/apps/polls/templates.py:155-157 | without custom settings the template's settings are used as they are |
| PollTemplates.FirstMissingText | backend/apps/polls/templates.py:197-199 | the position of the first option without text, or none when all have text |
| PollTemplates.TemplateOptionsCheckCases | backend/apps/polls/templates.py:175-201 | valid exactly with 2 to 100 options that all have text; too few, too many and the first textless option each raise their own message |
| PollTemplates.ValidateTemplateOptions | backend/apps/polls/templates.py:175-201 | the loop raises or passes exactly as `TemplateOptionsCheck` |
| PollTemplates.DefaultOptionsValid | backend/apps/polls/templates.py:175-201 | every template's default options pass validation |
| PollTemplates.WellShapedOptionsPass | backend/apps/polls/templates.py:175-201 | well-shaped options always pass validation |
| NotificationModels.ChannelEnabled | backend/apps/notifications/models.py:147-171 | an unsubscribed user and a globally disabled channel get nothing; enabled means the type's flag for that channel is set |
| NotificationModels.ChannelEnabledOtherwise | backend/apps/notifications/models.py:169-171 | past the global checks, the answer is the type's flag |
| NotificationModels.KnownPairsReadTheirField | backend/apps/notifications/models.py:170-171 | a known type and channel read their own boolean field |
| NotificationModels.DefaultChannels | backend/apps/notifications/models.py:111-133 | by default push is off for every type, and email and in-app are on for every known type |
| NotificationModels.DefaultTypeFlags | backend/apps/notifications/models.py:111-125 | by default every known type's email and in-app flags are set |
| NotificationModels.Unsubscribed | backend/apps/notifications/models.py:173-177 | sets the unsubscribed flag and its time and changes no other flag |
| NotificationModels.Resubscribed | backend/apps/notifications/models.py:179-183 | clears the unsubscribed flag and its time and changes no other flag |
| NotificationModels.UnsubscribedGetsNothing | backend/apps/notifications/models.py:158-177 | after unsubscribing, no channel is enabled for any type |
| NotificationModels.UnsubscribeRoundTrip | backend/apps/notifications/models.py:173-183 | unsubscribing then resubscribing restores the flags, and the whole record when it had no unsubscribe time |
| NotificationModels.NotificationPreference.constructor | backend/apps/notifications/models.py:111-134 | a new preference record has the field defaults |
| NotificationModels.NotificationPreference.Unsubscribe | backend/apps/notifications/models.py:173-177 | the record becomes `Unsubscribed` of the old one |
| NotificationModels.NotificationPreference.Resubscribe | backend/apps/notifications/models.py:179-183 | the record becomes `Resubscribed` of the old one |
| NotificationModels.MarkedRead | backend/apps/notifications/models.py:93-98 | afterwards the notification is read; an unread one gets the read time and a read one is unchanged |
| NotificationModels.MarkAsReadIdempotent | backend/apps/notifications/models.py:93-98 | marking twice is marking once, and the first read time stays |
| NotificationModels.Notification.constructor | backend/apps/notifications/models.py:76-77 | a new notification is unread, with no read time |
| NotificationModels.Notification.MarkAsRead | backend/apps/notifications/models.py:93-98 | the state becomes `MarkedRead` of the old one |
| NotificationModels.MarkedSent | backend/apps/notifications/models.py:232-238 | the delivery is sent at the given time, keeps its error, and takes the external id only when one is given |
| NotificationModels.MarkedFailed | backend/apps/notifications/models.py:240-245 | the delivery fails, keeps its send time and external id, and takes the error message only when one is given |
| NotificationModels.NotificationDelivery.constructor | backend/apps/notifications/models.py:200-215 | a new delivery is pending, unsent, with empty error and external id |
| NotificationModels.NotificationDelivery.MarkAsSent | backend/apps/notifications/models.py:232-238 | the delivery becomes `MarkedSent` of the old one |
| NotificationModels.NotificationDelivery.MarkAsFailed | backend/apps/notifications/models.py:240-245 | the delivery becomes `MarkedFailed` of the old one |
| NotificationServices.EmailAttempt | backend/apps/notifications/services.py:126-173 | no email address fails with its own message; a delivered mail is sent at that time; a failed send fails |
| NotificationServices.ChannelAttempt | backend/apps/notifications/services.py:176-206 | in-app and push are marked sent at once; email goes through the email attempt |
| NotificationServices.DeliverStep | backend/apps/notifications/services.py:94-123 | one channel of the delivery loop; stated by `StepTouchesOwnKey` and `StepOutcome` |
| NotificationServices.DeliverAll | backend/apps/notifications/services.py:80-123 | the delivery loop over the channels in order; stated by `DeliverAllPerChannel` and `ChannelEndStates` |
| NotificationServices.StepTouchesOwnKey | backend/apps/notifications/services.py:97-116 | delivering over one channel touches only that channel's delivery for that notification |
| NotificationServices.StepOutcome | backend/apps/notifications/services.py:97-116 | a disabled channel and an already sent delivery change nothing; otherwise the delivery is created if needed and attempted |
| NotificationServices.DeliverAllPerChannel | backend/apps/notifications/services.py:80-123 | delivering over all channels treats each channel's delivery as a single step over that channel, and leaves other rows alone |
| NotificationServices.ChannelEndStates | backend/apps/notifications/services.py:100-116 | on an enabled channel the delivery exists afterwards; in-app and push end sent, and email ends sent or failed |
| NotificationServices.PreferencesOf | backend/apps/notifications/services.py:26-29 | a user's stored preferences, or the defaults when none exist |
| NotificationServices.Created | backend/apps/notifications/services.py:32-77 | appends the new notification and stores the user's preferences, creating defaults |
| NotificationServices.CreatedDeliveries | backend/apps/notifications/services.py:32-77 | an unsubscribed user's notification has no deliveries; otherwise a delivery row exists exactly for each enabled channel, with the outcome of its attempt, and old rows are kept |
| NotificationServices.ResultsAvailable | backend/apps/notifications/services.py:212-232 | nothing happens without a user and a poll creator; otherwise exactly one notification is added |
| NotificationServices.ResultsAvailableRecipient | backend/apps/notifications/services.py:212-232 | the results notification goes to the given user, else the poll's creator, with its type |
| NotificationServices.NewPollNotified | backend/apps/notifications/services.py:235-250 | raises exactly when there are followers and the poll has no creator, creating nothing; otherwise one notification per follower, in order, with the new-poll type, title and message naming the creator and the poll |
| NotificationServices.FollowersNotified | backend/apps/notifications/services.py:240-250 | the loop over the followers adds exactly one notification per follower |
| NotificationServices.NewPollRecipients | backend/apps/notifications/services.py:240-250 | the i-th new notification goes to the i-th follower, with the new-poll type, the creator's name in title and message, the poll's title and its id |
| NotificationServices.EveryFollowerNotified | backend/apps/notifications/services.py:240-250 | every follower's notification, at its position, is the new-poll notice for that follower |
| NotificationServices.ExpiryNotified | backend/apps/notifications/services.py:253-276 | nothing happens unless the poll ends within the given hours; a due poll without a creator raises the not-null error of `create_notification` |
| NotificationServices.ExpiryThreshold | backend/apps/notifications/services.py:261-276 | a poll without an end is ignored; one already past its end is due; a due poll gets one notification to its creator, with the hours in its metadata |
| NotificationServices.VoteFlaggedNotified | backend/apps/notifications/services.py:279-296 | an anonymous vote raises the not-null error, creating nothing; otherwise one notification to the voter, carrying the reasons in its metadata and the flagged message |
| NotificationServices.FlaggedMessageNamesReasons | backend/apps/notifications/services.py:287-291 | the flagged message names every reason |
| NotificationServices.NotificationService.constructor | backend/apps/notifications/services.py:26-77 | the service starts with no notifications, preferences or deliveries |
| NotificationServices.NotificationService.DeliverNotification | backend/apps/notifications/services.py:80-123 | the loop over channels leaves the deliveries as `DeliverAll` and changes nothing else |
| NotificationServices.NotificationService.CreateNotification | backend/apps/notifications/services.py:32-77 | returns the new notification's position and leaves the state as `Created` |
| NotificationServices.NotificationService.NotifyPollResultsAvailable | backend/apps/notifications/services.py:212-232 | leaves the state as `ResultsAvailable` |
| NotificationServices.NotificationService.NotifyNewPollFromFollowed | backend/apps/notifications/services.py:235-250 | raises exactly as `NewPollNotified` does, changing nothing then; otherwise the loop over the followers leaves the state as `NewPollNotified` |
| NotificationServices.NotificationService.NotifyPollAboutToExpire | backend/apps/notifications/services.py:253-276 | raises exactly as `ExpiryNotified` does, changing nothing then; otherwise leaves the state as `ExpiryNotified` |
| NotificationServices.NotificationService.NotifyVoteFlagged | backend/apps/notifications/services.py:279-296 | raises exactly as `VoteFlaggedNotified` does, changing nothing then; otherwise leaves the state as `VoteFlaggedNotified` |
| UserViews.TokensAfter | backend/apps/users/views.py:103-113 | a login adds a token only for a user without one and never changes an existing token |
| UserViews.TokenReplyFor | backend/apps/users/views.py:79-113 | the login reply in the order of its checks; stated by `TokenCheckOrder` and `SameTokenTwice` |
| UserViews.TokenCheckOrder | backend/apps/users/views.py:79-113 | blank fields give 400 first, then a failed login and a disabled account give 401; a token is issued exactly for an active authenticated user, with their id, name and staff flag; a refusal adds no token |
| UserViews.SameTokenTwice | backend/apps/users/views.py:103-113 | a second login returns the same token and adds nothing |
| UserViews.TokenStore.constructor | backend/apps/users/views.py:103 | the token table starts empty |
| UserViews.TokenStore.ObtainAuthToken | backend/apps/users/views.py:79-113 | answers `TokenReplyFor` and leaves the table as `TokensAfter` |
| UserViews.PairsAfterFollow | backend/apps/users/views.py:139-165 | following never removes a follow row |
| UserViews.FollowReplyFor | backend/apps/users/views.py:139-165 | 404 for an unknown user, 400 for oneself, 200 for a repeat, and a new row otherwise; stated by `FollowCases` |
| UserViews.PairsAfterUnfollow | backend/apps/users/views.py:168-185 | unfollowing never adds a follow row |
| UserViews.UnfollowReplyFor | backend/apps/users/views.py:168-185 | 404 for an unknown user or a missing row, 200 for a removed row; stated by `UnfollowCases` |
| UserViews.FollowCases | backend/apps/users/views.py:139-165 | following yourself gives 400 and no change; a first follow adds exactly that row; a repeat gives 200 and no change |
| UserViews.UnfollowCases | backend/apps/users/views.py:168-185 | unfollowing removes an existing row with 200, and gives 404 and no change when there is none |
| UserViews.FollowUnfollowRoundTrip | backend/apps/users/views.py:139-185 | following then unfollowing restores the relation, also after a repeated follow |
| UserViews.FollowingOf | backend/apps/users/views.py:130-136 | the rows whose follower is the user |
| UserViews.FollowersOf | backend/apps/users/views.py:122-128 | the rows whose followed user is the user |
| UserViews.FollowListed | backend/apps/users/views.py:139-165 | a new follow appears in the follower's following list and the followed user's followers list, and in no other |
| UserViews.FollowGraph.constructor | backend/apps/users/views.py:116-120 | the graph starts with the users and no follow rows |
| UserViews.FollowGraph.Follow | backend/apps/users/views.py:139-165 | answers `FollowReplyFor` and leaves the rows as `PairsAfterFollow` |
| UserViews.FollowGraph.Unfollow | backend/apps/users/views.py:168-185 | answers `UnfollowReplyFor` and leaves the rows as `PairsAfterUnfollow` |
| AnalyticsAdmin.FingerprintShort | backend/apps/analytics/admin.py:43-45 | a fingerprint of up to 16 characters is shown as is; a longer one as its first 16 plus `...` |
| AnalyticsAdmin.ReasonShort | backend/apps/analytics/admin.py:49-51 | a reason of up to 50 characters is shown as is; a longer one as its first 50 plus `...` |
| AnalyticsAdmin.ShortColumnsBounded | backend/apps/analytics/admin.py:43-51 | the columns are at most 19 and 53 characters and start with the original's prefix |
| AnalyticsAdmin.Unblocked | backend/apps/analytics/admin.py:55-61 | the selected blocks become inactive, keep their fingerprints, and the others are unchanged |
| AnalyticsAdmin.UnblockClearsFingerprint | backend/apps/analytics/admin.py:55-61 | selecting every block of a fingerprint unblocks it, and selecting none of them leaves its status as it was |
| AnalyticsAdmin.UnblockAgainIsNoOp | backend/apps/analytics/admin.py:55-61 | repeating the action changes nothing and counts zero |
| AnalyticsAdmin.UnblockOneMore | backend/apps/analytics/admin.py:59 | adding one active block to the selection deactivates exactly that block in addition |
| AnalyticsAdmin.UnblockActiveOnly | backend/apps/analytics/admin.py:57-59 | only the selected active blocks are updated |
| AnalyticsAdmin.BlockRegistry.constructor | backend/apps/analytics/admin.py:55 | the registry holds the given blocks |
| AnalyticsAdmin.BlockRegistry.UnblockSelected | backend/apps/analytics/admin.py:55-61 | counts the selected active blocks, deactivates the selection and reports `<n> fingerprint(s) unblocked.` |
| AnalyticsViews.PyInt | backend/apps/analytics/views.py:46-51 | `int()` succeeds exactly on digits in underscore-separated groups, with an optional sign and surrounding whitespace; a blank string fails |
| AnalyticsViews.PyIntOfIntToString | backend/apps/analytics/views.py:46-51 | `int()` reads back every printed integer |
| AnalyticsViews.DictReplyCases | backend/apps/analytics/views.py:33-81 | an unparsable poll id gives 400; otherwise the result comes back, with 404 exactly when it has an `error` entry |
| AnalyticsViews.DictReply | backend/apps/analytics/views.py:33-81 | the comprehensive and summary replies; stated by `DictReplyCases` |
| AnalyticsViews.IntervalNormalised | backend/apps/analytics/views.py:100-102 | the interval is `day` exactly when asked for, and `hour` otherwise |
| AnalyticsViews.TimeSeriesAsksNormalInterval | backend/apps/analytics/views.py:84-106 | the time series is queried and echoed with the normalised interval |
| AnalyticsViews.TimeSeriesReply | backend/apps/analytics/views.py:84-106 | the time-series reply; stated by `TimeSeriesAsksNormalInterval` |
| AnalyticsViews.ReplaceZ | backend/apps/analytics/views.py:127 | the date text has no `Z` left, and text without one is unchanged |
| AnalyticsViews.HourlyDateCases | backend/apps/analytics/views.py:109-136 | no date or an empty one queries today; a date that does not parse gives 400; a parsed date is queried and echoed |
| AnalyticsViews.HourlyReply | backend/apps/analytics/views.py:109-136 | the hourly reply; stated by `HourlyDateCases` |
| AnalyticsViews.DaysNormalised | backend/apps/analytics/views.py:152-154 | days defaults to 30, and a parsed value outside 1 to 365 becomes 30 |
| AnalyticsViews.DailyCases | backend/apps/analytics/views.py:139-158 | an unparsable days value raises out of the view; otherwise the reply has 200 and days between 1 and 365 |
| AnalyticsViews.DailyReply | backend/apps/analytics/views.py:139-158 | the daily reply; stated by `DailyCases` |
| AnalyticsViews.Tagged | backend/apps/analytics/views.py:176 | every demographics entry is kept under its key |
| AnalyticsViews.DemographicsMerge | backend/apps/analytics/views.py:161-176 | the reply has every demographics key plus `poll_id`, keeps their data, and carries the poll id unless the data has its own |
| AnalyticsViews.DemographicsReply | backend/apps/analytics/views.py:161-176 | the demographics reply; stated by `DemographicsMerge` |
| AnalyticsViews.PollIdCheckedFirst | backend/apps/analytics/views.py:33-194 | every endpoint refuses an unparsable poll id with 400 before any query |
| AnalyticsViews.DistributionReply | backend/apps/analytics/views.py:179-194 | the distribution reply: 400 for an unparsable poll id, else 200 with the query's distribution; stated by `PollIdCheckedFirst` |

## Left out

- Only SHA-256 and `json.dumps` stand behind the `Hasher` and `Dumps` parameters. Their bytes, the UTF-8 encoding and hash collisions are not modelled.
- `Lower` folds ASCII letters only. `int()` accepts ASCII digits only, not other Unicode digits.
- The database, the Redis cache and Celery become inputs: query results, `Ok` or `Raised` outcomes, and the cache as a map. The cache entry time-to-live (3600 seconds) and task scheduling, retries and concurrency are left out.
- Database integrity races are left out, such as the IntegrityError retry of the follow `get_or_create`.
- Logging is left out throughout.
- Floating-point times become integer microseconds. `votes_per_hour > 10` is stated as `count * 3600000000 > 10 * span`. That is exact for the integers and equals the source's comparison only where the float division is exact.
- `send_mail`'s outcome and the push service are inputs (`Mailer`, `SendResult`). Template rendering and the mail text are left out.
- The outer `except` of `deliver_notification` is left out. In the model a channel attempt cannot raise apart from the mail outcome.
- Serializers are left out. Votes, polls and notifications are reduced to the fields the core logic reads.
- The DRF default handler is an input, given as the status of its response or none. `ExceptionHandlers.Handle` takes each exception to be of exactly one of the classes it tests for.
- Stable ordering among options with equal `order` is not asserted. `PollServices.SortByOrder` states sortedness and permutation only.
- `poll.is_open` and the poll's `created_by` are inputs, not computed from dates.
- The request body is never read by the audit log (it is stored as `None`), so body handling is not modelled.
- The calls `cast_vote`, `analyze_vote_patterns`, `generate_pattern_alerts`, `flag_suspicious_votes` and `authenticate` are outside calls whose outcomes are inputs.
- `get_object`'s 404 and the `IsAuthenticated` gate on users, follows and notifications are inputs: the model takes the requester's id as given.
- Template option dicts are modelled by their text and order only.
- NotificationModels.Attribute: `getattr(self, f"{type}_{channel}", False)` reads the sixteen boolean fields of the preferences (the twelve type and channel flags, the three channel switches and `unsubscribed`); any other name is taken as false, where Python would return the value of a real attribute of that name (such as `user_id` for type `user` and channel `id`).
- NotificationServices.VoteFlaggedNotified, NotificationServices.ExpiryNotified: the not-null IntegrityError is given the SQLite wording of its message; the wording depends on the database backend, which the source does not fix.
- Template start and end dates are copied when given and are not otherwise checked.
- New token keys are inputs, and `datetime.fromisoformat` is a parameter.
- The analytics queries in `core/services/poll_analytics` are not part of this model. They are passed in as functions.
- Notification ids are positions in the notification list.
- VoteViews.ErrorStatus: takes the voting exceptions to be distinct leaf classes tested in the order of `backend/apps/votes/views.py:357-401`; `voting_errors.py` is not part of this model, so a subclass relation among them, which would let an earlier `except` catch a later class, is not captured.
- VoteViews.ExceptionReply: rests on the same reading of the voting exceptions as distinct leaf classes.
- ExceptionHandlers.Handle: takes each exception to be of exactly one of the classes it tests for.
- AnalyticsAdmin.Unblocked: takes `FingerprintBlock.unblock(user=...)` to clear `is_active` and change nothing else; the `FingerprintBlock` model class is not part of this model, so whatever else `unblock` records (who unblocked it, when) is not captured.
- AnalyticsAdmin.BlockRegistry.UnblockSelected: rests on the same reading of `unblock()`.
- NotificationServices.ResultsAvailable: states the count and, in `ResultsAvailableRecipient`, the recipient and type; the title and message text are not stated.

## Findings

| source | as written | input that shows it | evidently intended | confidence | as-written member | corrected member |
|---|---|---|---|---|---|---|
| backend/apps/votes/tasks.py:70 | `historical_votes[-1]` indexes a QuerySet with a negative index, which Django refuses by raising; the `except Exception` at lines 122-123 swallows the error, so the activity cache is never updated | a non-empty fingerprint with one vote in the window (`VoteTasks.AsWrittenLosesOneVote`) | the earliest vote of the newest-first window, as `.last()` or `list(historical_votes)[-1]` would give, then the cache update of lines 97-113 | not executed | VoteTasks.AfterFingerprintAnalysisAsWritten | VoteTasks.AfterFingerprintAnalysis |
