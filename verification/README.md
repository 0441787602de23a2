# A verified model of the notification relay

The relay is a Go service over PostgreSQL. Apps hold capabilities and send
messages; recipients are Telegram users with a personal supergroup; every stage
of every request goes into a hash-chained audit log; an admin UI logs in with a
password, reads the log and draws charts. This project models the parts whose
correctness depends on whole histories rather than on one call, and proves what
they are for:

- **Audit log** (`AuditPayload`, `AuditChain`, `AuditWriter`, `AuditPages`): the
  canonical payload can be decoded, so it is injective; the checker finds the
  longest valid prefix; two valid logs with one head hash agree or exhibit a hash
  collision; concurrent writers, stepping and rolling back in any order, always
  leave one unforked chain with ids becoming visible in rising order; following
  the UI's links shows each matching row exactly once while writers keep going.
- **Limiters and sessions** (`TokenBucket`, `RequestLimiter`, `DispatchLimiter`,
  `LoginLimiter`, `LoginBackoff`, `Sessions`): grant bounds with clock readings
  out of order and lock sections interleaved, a sharp retry time, eviction that no
  caller can notice, a tight bound on failed logins for any number of overlapping
  attempts, and revocation that holds exactly when whole-second expiry lets it.
- **Apps** (`Apps`): over every history the capability version determines the
  capability set, and the admin form's patch lands exactly.
- **Dispatch** (`Registry`, `Grades`, `Recipients`, `Pipeline`): the four resolvers
  compared with each other, and the handler's audit trail and counters for every
  pattern of failures.
- **Users** (`Lifecycle`): the life of a user as a state machine, down to the
  statements of its handlers; anonymized is absorbing and nobody anonymized ever
  receives anything again. The server polls with one loop beside its admin API: its
  runs come down to whole handlers, and a promotion lands on the chat looked up. For
  runs that a second process, or a caller of operations that nothing calls yet,
  would add, it is told exactly when a promotion written late leaves a flag that
  agrees with what Telegram last reported.
- **Charts** (`LineChart`): the line selection does not depend on map order and
  loses no request.

Code that updates state in place is modelled by classes and loops
(`PgWriter`, `BucketLimiter`, `Limiter`, `GlobalBackoff`, `SessionManager`,
`AdminApps`, `Store`, `VerifyChain`, `Backfill`, `RunStrategyDispatch`,
`SelectLineSeries`, ...), each proved equal to a function of the old state; the
theorems are about those functions. Hashes and MACs are parameters. Times are
integers (nanoseconds, microseconds in the audit log), tokens are exact reals.

Where code and documentation differ the code is followed. Three properties fail on
some inputs, and the condition under which they hold is proved exact: pages of 500
rows or more (`AuditPages.LargePagesTruncate`), a logout so soon after the login
that the revocation entry is swept before the last verification of the cookie has
looked it up (`Sessions.RefusedForGoodIff`), and a promotion between whose look-up
and write the user's link or the bot's standing changes
(`Lifecycle.LatePromotionIff`; not in the server as it runs,
`Lifecycle.ServerPromotionLands`).

`dafny verify dfyconfig.toml` checks the project.

## Model

| member | source | states |
|---|---|---|
| `Decimal.ParseIntInverts` | migrations/0007_audit_hash_chain.up.sql:73-78 | reading back the decimal text of any integer gives the integer |
| `Decimal.ParseEpochInverts` | migrations/0007_audit_hash_chain.up.sql:67 | reading back the six-decimal epoch text of any timestamp gives the timestamp, negative ones included |
| `Utf8.DecodeInverts` | migrations/0007_audit_hash_chain.up.sql:65-81 | UTF-8 encoding of any text decodes to that text |
| `AuditChain.SeedsAgree` | internal/audit/chain.go:12-24 | the UTF-8 form of the genesis seed, which the migration hashes, is the byte string that the service hashes |
| `AuditPayload.TwoReplacesAreOnePass` | migrations/0007_audit_hash_chain.up.sql:36-42 | the two successive replaces equal one left-to-right escaping pass |
| `AuditPayload.NullIsNoString` | migrations/0007_audit_hash_chain.up.sql:33-42 | the NULL marker is the encoding of no string, neither of the empty one nor of a literal `\N` |
| `AuditPayload.FieldEnds` | migrations/0007_audit_hash_chain.up.sql:36-42 | a field read from the joined text ends exactly where it was written to end, whatever follows the separator |
| `AuditPayload.SplitInverts` | migrations/0007_audit_hash_chain.up.sql:65-81 | splitting joined fields gives back every field, NULLs included |
| `AuditPayload.DecodeInvertsPayload` | migrations/0007_audit_hash_chain.up.sql:48-82 | a decoder recovers all 14 columns of every row from its payload |
| `AuditPayload.PayloadInjective` | migrations/0007_audit_hash_chain.up.sql:44-82 | rows with equal payloads agree on every column |
| `AuditChain.VerifyChain` | internal/audit/chain.go:69-104 | for every row stream and fetch error: the row count is the longest valid prefix, OK exactly when the whole stream is valid and readable, the first bad row is named with the right column (prev_hash before row_hash), expected and stored hash |
| `AuditChain.ValidSnoc` | internal/audit/chain.go:84-101 | a valid chain stays valid by a row if and only if the row links to the head and carries its own digest |
| `AuditChain.BadRowStops` | internal/audit/chain.go:84-101 | past a badly linked row no longer prefix is valid |
| `AuditChain.ValidPrefix` | migrations/0007_audit_hash_chain.up.sql:25-29 | cutting off newest rows leaves a valid chain: truncation is not detected |
| `AuditChain.GenesisInputIsNoRow` | internal/audit/chain.go:12-36 | with 32-byte digests no row hashes the 32-byte genesis seed |
| `AuditChain.TamperEvidence` | internal/audit/chain.go:12-104 | two valid logs of any lengths with the same head hash agree on every audit column of every row, or the walk back from their heads yields two different inputs with one digest |
| `AuditChain.TamperedLogIsRefused` | internal/audit/chain.go:69-104 | an edit, insertion, deletion or reordering that keeps the newest hash makes the chain invalid or yields a collision |
| `AuditWriter.NewestIsLast` | internal/audit/writer.go:24-59 | when ids rise in commit order, the row with the largest id is the last committed one |
| `AuditWriter.StepKeepsInv` | internal/audit/writer.go:61-103 | every step of every writer keeps the invariant (valid chain, rising ids, one lock holder, pending row linkable) and only appends to the table |
| `AuditWriter.RunKeepsInv` | internal/audit/writer.go:61-103 | so does every interleaving of any number of writers |
| `AuditWriter.EveryInterleavingChains` | internal/audit/writer.go:24-103 | at any two moments of any run: both snapshots are unforked chains from genesis, the earlier is a prefix of the later, and what becomes visible later has larger ids |
| `AuditWriter.ListingIsCommitOrder` | internal/adminui/store.go:509-526 | reading by id gives exactly the commit order |
| `AuditWriter.VerifyAuditChain` | internal/adminui/store.go:509-526 | the checker on an id-ordered read of any committed snapshot of any run says OK with the table size |
| `AuditWriter.WriteIsAllOrNothing` | internal/audit/writer.go:61-103 | a Write amid any steps of other writers waits exactly while the lock is held; then without a fault it appends exactly its event's row, linked right after what the others committed while it waited; with a fault at any statement it appends nothing, unless only the answer to its commit is lost; it returns without lock and transaction |
| `AuditWriter.ColumnsRecordEvent` | internal/audit/writer.go:24-46 | every column, read with "" and 0 for NULL, gives back the event's own field of that name; the time is the event's, or that of the insert if it has none |
| `AuditWriter.CommittedIsRecorded` | internal/audit/writer.go:61-103 | after a committed Write the newest row, and no other new one of its own, reads back as the event |
| `AuditWriter.InsertsDrawIds` | internal/audit/writer.go:24-59 | every insert under the lock draws one id for good, failed or not; nothing else moves the sequence |
| `AuditWriter.OthersWait` | internal/audit/writer.go:77-103 | while a writer holds the lock, no steps of others change the table, the id sequence or its transaction |
| `AuditWriter.WaitingIsInvisible` | internal/audit/writer.go:71-80 | a transaction that only waits changes nothing for the others |
| `AuditWriter.PgWriter.constructor` | internal/audit/writer.go:10-16 | a writer over a given table starts without lock and transactions |
| `AuditWriter.PgWriter.BeginTx` | internal/audit/writer.go:71-75 | is the Begin step |
| `AuditWriter.PgWriter.LockChain` | internal/audit/writer.go:77-80 | is the TakeLock step and succeeds exactly when the lock is free |
| `AuditWriter.PgWriter.InsertChained` | internal/audit/writer.go:24-59 | is the Insert step: the row links to the committed row with the largest id and draws the next id |
| `AuditWriter.PgWriter.CommitTx` | internal/audit/writer.go:99-103 | is the Commit step |
| `AuditWriter.PgWriter.RollbackTx` | internal/audit/writer.go:71-75 | is the Rollback step; the drawn id stays drawn |
| `AuditWriter.PgWriter.FailInsert` | internal/audit/writer.go:80-98 | is the InsertFails step: rolled back, the id stays drawn |
| `AuditWriter.PgWriter.Write` | internal/audit/writer.go:61-103 | begin, wait for the lock, insert and commit amid the steps of others, as specified by `WriteAmid`: still waiting while the lock is held, failed after a fault, committed otherwise |
| `AuditWriter.Backfill` | migrations/0007_audit_hash_chain.up.sql:88-106 | fills both hash columns in place so that the table is a valid chain, changing no id and no audit column; with rising ids the result is an initial state of the writers, to which all run theorems apply |
| `AuditPages.Search` | internal/api/handlers/admin_audit.go:56-156 | rows are the newest matches below the cursor up to the limit, or the first applicable error code |
| `AuditPages.SearchAnswers` | internal/api/handlers/admin_audit.go:56-156 | every search: refused exactly for a limit outside 1..500, a cursor that is no positive number or an unknown stage; otherwise the newest matches below the cursor, all or as many as the limit, 50 by default |
| `AuditPages.SearchFindsWritten` | internal/api/handlers/admin_audit.go:119-156 | right after a committed Write amid others, a search by any filter lists its row, on top, if and only if the event's own trace, app, stage and time meet the filter |
| `AuditPages.CollectRows` | internal/api/handlers/admin_audit.go:124-156 | the first rows of the matches, newest first |
| `AuditPages.AuditPageData` | internal/adminui/audit.go:179-284 | the rendered page: rows, "next" query and error, from the probing search, the probe limit computed on 64-bit integers |
| `AuditPages.PageIsNumPage` | internal/adminui/audit.go:200-284 | for every limit text of a size 1..499 a page is the next `size` matches, has a link exactly when more match, and the link's text reads back as the cursor |
| `AuditPages.SizeOfText` | internal/adminui/audit.go:206-214 | a size is read from its decimal text also with a plus sign or a leading zero |
| `AuditPages.LargePagesTruncate` | internal/adminui/audit.go:206-262 | for sizes from 500, below any cursor, a page shows at most 500 rows and no link: complete exactly when at most 500 rows match; at the largest int64 the probe limit wraps around and the page is the error invalid_limit |
| `AuditPages.CursorResumes` | internal/api/handlers/admin_audit.go:92-135 | resuming below the id of the i-th match gives exactly the matches after it |
| `AuditPages.NewRowsStayHidden` | internal/api/handlers/admin_audit.go:92-135 | rows appended later change nothing below a cursor of the older snapshot |
| `AuditPages.WalkShows` | internal/adminui/audit.go:200-284 | at each point of a walk: the newest matches of the first snapshot so far, in full pages, with a link exactly while some remain |
| `AuditPages.WalkIsComplete` | internal/adminui/audit.go:200-284 | a finished walk over cursors shows every match of the first snapshot once, in decreasing id order, in max(1, ceil(N/size)) pages |
| `AuditPages.LinksShowEverything` | internal/adminui/audit.go:200-284 | the same for the printed links, for every filter and every limit text of a size 1..499, whatever is appended between requests |
| `AuditPages.LinksEnd` | internal/adminui/audit.go:237-260 | every such walk ends: there is a link on exactly while the pages so far hold fewer rows than matched at the first request |
| `AuditPages.WritersGrowSnapshots` | internal/audit/writer.go:71-103 | snapshots taken during any run of the writers satisfy what the walk needs |
| `TokenBucket.TakeToken` | internal/ratelimit/limiter.go:55-75 | refill, cap, take or deny with the wait, as specified by `Take` |
| `TokenBucket.RunPays` | internal/ratelimit/limiter.go:49-76 | over any run: tokens left plus grants are at most the tokens at the start plus what the clock's advance earned |
| `TokenBucket.RunBalances` | internal/ratelimit/limiter.go:55-72 | over any run whose refills are not cut by the cap, tokens left plus grants equal the tokens at the start plus what the clock's advance earned: a grant costs one token, a denial none |
| `TokenBucket.MomentGrants` | internal/ratelimit/limiter.go:55-72 | n calls at one moment are granted exactly min(n, whole tokens) times |
| `TokenBucket.RunKeepsBucket` | internal/ratelimit/limiter.go:49-76 | after any run the tokens are in 0..Burst and the refill time is the running maximum of the readings |
| `TokenBucket.WindowBound` | internal/ratelimit/limiter.go:49-76 | grants over a window are at most Burst + Rate times the advance of the running-max clock from its first call to its last |
| `TokenBucket.WaitIsSharp` | internal/ratelimit/limiter.go:70-75 | before the announced wait there is less than a token, after it more than one; exactly then, one if and only if no rounding happened |
| `TokenBucket.DeniedCallsAddUp` | internal/ratelimit/limiter.go:55-69 | denied calls that split the refill add up to one refill |
| `TokenBucket.RetryAfterIsSharp` | internal/ratelimit/limiter.go:62-75 | with a non-decreasing clock and no grant in between: denied before now+RetryAfter, granted from one nanosecond after it, and at it exactly if the wait is a whole number of nanoseconds; with Burst below 1 never granted |
| `TokenBucket.NothingBeforeRetryAfter` | internal/dispatch/telegram/dispatch_limiter.go:79-100 | whatever calls come before the announced time, none is granted |
| `TokenBucket.SmallBurstNeverGrants` | internal/ratelimit/limiter.go:55-69 | with Burst below one token no run grants anything |
| `RequestLimiter.BucketLimiter.Allow` | internal/ratelimit/limiter.go:49-76 | one call on the map of buckets; a policy without limits always allows and leaves no bucket |
| `RequestLimiter.KeysAreIndependent` | internal/ratelimit/limiter.go:49-76 | in any run each key sees one plain run of its own calls |
| `RequestLimiter.HistoryKeepsBuckets` | internal/ratelimit/limiter.go:38-76 | from a new limiter on, every bucket is within its burst and carries the largest reading of its key |
| `RequestLimiter.GrantsAreBounded` | internal/ratelimit/limiter.go:49-76 | the window bound for every key of every run, readings out of order included |
| `RequestLimiter.MomentIsGranted` | internal/ratelimit/limiter.go:49-76 | a key's n calls at one moment, whatever other keys do, are granted min(n, whole tokens) times; a new key has its whole burst |
| `RequestLimiter.KeyBalances` | internal/ratelimit/limiter.go:49-76 | the exact account for every key whose refills are not cut |
| `RequestLimiter.UnlimitedIsGranted` | internal/ratelimit/limiter.go:49-53 | a policy without limits grants every call and keeps no bucket |
| `DispatchLimiter.Limiter.constructor` | internal/dispatch/telegram/dispatch_limiter.go:38-50 | starts with a full global bucket and the default limits |
| `DispatchLimiter.Limiter.GlobalSection` | internal/dispatch/telegram/dispatch_limiter.go:60-77 | is the global lock section |
| `DispatchLimiter.Limiter.ChatSection` | internal/dispatch/telegram/dispatch_limiter.go:79-101 | is the chat's lock section |
| `DispatchLimiter.Limiter.Allow` | internal/dispatch/telegram/dispatch_limiter.go:52-58 | global first; the chat section only after a global grant; granted only if both grant |
| `DispatchLimiter.BucketsAreIndependent` | internal/dispatch/telegram/dispatch_limiter.go:52-101 | in every interleaving of lock sections each bucket sees one plain run of its own calls |
| `DispatchLimiter.HistoryKeepsBuckets` | internal/dispatch/telegram/dispatch_limiter.go:38-101 | from a new limiter on every bucket stays within its burst |
| `DispatchLimiter.GrantsAreBounded` | internal/dispatch/telegram/dispatch_limiter.go:52-101 | the window bound for the global and every chat bucket under every interleaving |
| `DispatchLimiter.MomentIsGranted` | internal/dispatch/telegram/dispatch_limiter.go:60-101 | n calls that reach a bucket at one moment, however sections interleave, are granted min(n, whole tokens) times; a new chat has its whole burst |
| `DispatchLimiter.TargetBalances` | internal/dispatch/telegram/dispatch_limiter.go:60-101 | the exact account for the global and every chat bucket whose refills are not cut |
| `DispatchLimiter.ChatSectionsArePaidFor` | internal/dispatch/telegram/dispatch_limiter.go:52-58 | chat sections taken plus calls still between the sections equal the global grants |
| `LoginLimiter.Limiter.Allow` | internal/adminui/session.go:202-234 | sweeps full buckets of the others, then decides, as specified by `AllowSpec` |
| `LoginLimiter.EvictionIsInvisible` | internal/adminui/session.go:193-234 | every decision of every run equals that of a limiter that never evicts |
| `LoginLimiter.AttemptsAreBounded` | internal/adminui/session.go:193-234 | in any window of length T of any run, eviction and all, an address is allowed at most 5 + 5*T/60s attempts |
| `LoginLimiter.FiveAreAllowed` | internal/adminui/session.go:193-234 | of n attempts at one moment from an address unseen for a minute, whatever others do, exactly min(n, 5) are allowed |
| `LoginLimiter.OldEntriesAreSwept` | internal/adminui/session.go:208-218 | an entry of another key untouched for 60 seconds is gone after the call |
| `LoginLimiter.RetainedEntriesAreRecent` | internal/adminui/session.go:208-218 | after each call of any run every other retained entry was touched less than 60 seconds ago |
| `LoginBackoff.GlobalBackoff.Allow` | internal/adminui/session.go:261-265 | is the Gate section: true exactly when no block is running |
| `LoginBackoff.GlobalBackoff.RecordFailure` | internal/adminui/session.go:267-279 | is the Fail section: decay, count, and block from the threshold on |
| `LoginBackoff.GlobalBackoff.RecordSuccess` | internal/adminui/session.go:281-286 | is the Succeed section: clears streak and block, keeps the time of the last failure |
| `LoginBackoff.GlobalBackoff.LoginSubmit` | internal/adminui/handlers.go:176-204 | limiter, then gate, then password, with a clock reading each at the gate and at the recording; only an admitted wrong password counts as a failure |
| `LoginBackoff.FailurePays` | internal/adminui/session.go:251-286 | a recorded failure is covered by what is free below the threshold, by the block that delayed its attempt, or by the ten-minute decay |
| `LoginBackoff.FailuresAreBounded` | internal/adminui/session.go:251-286 | after any history, a success-free window of length T with at most c attempts between gate and recording at a time records at most 19 + c + c*T/30s failures: 20 + T/30s when attempts do not overlap |
| `LoginBackoff.BoundIsAttained` | internal/adminui/session.go:251-286 | for every c and k, 19 guesses one by one and then c at once every 30 seconds, never more than c between gate and recording, record exactly 19 + c + c*k failures: the bound is met |
| `LoginBackoff.GuessesKeepTime` | internal/adminui/session.go:251-286 | and those guesses fall within k times 30 seconds of a clock that does not go back |
| `LoginBackoff.ReopensAfterDelay` | internal/adminui/session.go:261-279 | 30 seconds after the last failure attempts are admitted again |
| `LoginBackoff.GateIsOpenIff` | internal/adminui/session.go:236-286 | after every history the gate is open if and only if fewer than 20 failures have come in a row since the last success and the last ten quiet minutes, or the last failure is 30 seconds old |
| `Sessions.SessionManager.RevokeSession` | internal/adminui/session.go:51-64 | sweeps expired entries and adds the nonce for a lifetime; an empty nonce changes nothing |
| `Sessions.SessionManager.Issue` | internal/adminui/session.go:75-91 | at any later time and under any revocations the issued cookie is accepted, and yields its nonce, exactly if the nonce is not revoked and the second twelve hours after the second of the issue is not over |
| `Sessions.HexIsInjective` | internal/adminui/session.go:173-179 | different random bytes make different nonces |
| `Sessions.VerifyInvertsSign` | internal/adminui/session.go:141-171 | verify gives back what sign was given if and only if unexpired, not revoked and the nonce has no bar |
| `Sessions.AcceptedIsSigned` | internal/adminui/session.go:148-171 | whatever is accepted carries the MAC of exactly its own expiry and nonce |
| `Sessions.EntryOutlivesLifetime` | internal/adminui/session.go:51-64 | through any further logouts a revoked nonce stays listed until its lifetime after the logout has passed |
| `Sessions.SessionManager.CheckCookie` | internal/adminui/session.go:148-171 | the clock is read first and the nonce looked up later, logouts by others may come in between, and the result is `Verify` of that reading and that set |
| `Sessions.RefusedForGoodIff` | internal/adminui/session.go:51-171 | when at most g passes between a verification's clock reading and its look-up, a cookie logged out at r is refused by every later look-up, through all sweeps, if and only if r + 1ns is at least g after the end of the second of the issue, or no verification reads the clock before the cookie's end |
| `Sessions.EarlyLogoutComesBack` | internal/adminui/session.go:51-171 | otherwise the logout of any other session right before the look-up of a verification that read the clock in the cookie's last nanosecond lets the cookie in again |
| `Sessions.MarginIsOneSecond` | internal/adminui/session.go:51-171 | a margin between issue and logout is enough for every issue time exactly from one second plus g, less a nanosecond, on |
| `Apps.GrantCode` | internal/api/handlers/admin_apps.go:36-46 | no refusal exactly when every capability is grantable |
| `Apps.GrantCodeNamesFirst` | internal/api/handlers/admin_apps.go:36-46 | the refusal is that of the first capability that may not be granted: forbidden for management ones, unknown for others |
| `Apps.CapabilitiesAreSorted` | internal/api/handlers/admin_apps.go:16-34 | every named capability is either grantable or for management |
| `Apps.ValidateCapabilityGrant` | internal/api/handlers/admin_apps.go:36-46 | the loop returns the code of the first capability that may not be granted |
| `Apps.AdminApps.CreateApp` | internal/api/handlers/admin_apps.go:71-141 | the Create transaction with all its refusals, the requester recorded as creator |
| `Apps.AdminApps.PatchAppById` | internal/api/handlers/admin_apps.go:143-243 | the Patch transaction: add, then remove, and a new version if either list is non-empty |
| `Apps.AdminApps.DeleteApp` | internal/api/handlers/admin_apps.go:246-287 | the Delete transaction: inactive, new version, capabilities kept |
| `Apps.AdminApps.PurgeApp` | internal/api/handlers/admin_apps.go:290-325 | the Purge transaction: app and capabilities gone |
| `Apps.GoesThroughIff` | internal/api/handlers/admin_apps.go:71-325 | without a fault a request goes through if and only if it is in order, the app id spelled out by characters and length |
| `Apps.RefusedChangesNothing` | internal/api/handlers/admin_apps.go:71-325 | a refused request changes nothing |
| `Apps.OthersUntouched` | internal/api/handlers/admin_apps.go:71-325 | a transaction on one app leaves all other apps and their capabilities alone |
| `Apps.CreatedAsAsked` | internal/api/handlers/admin_apps.go:98-137 | a created app holds the name, description, grade, capabilities and creator asked for, active and at version 1 |
| `Apps.PatchChangesWhatItGives` | internal/api/handlers/admin_apps.go:183-234 | a patch changes exactly the given ones of description, grade and active; removed capabilities are gone, added ones there, all others as before |
| `Apps.VersionRises` | internal/api/handlers/admin_apps.go:206-267 | Delete, and a patch that names capabilities, raise the version by one, other patches do not |
| `Apps.PurgedIsGone` | internal/api/handlers/admin_apps.go:290-325 | after Purge the app and its capabilities are gone |
| `Apps.AdmittedIff` | internal/auth/store.go:53-80 | after every history a key is let in if and only if it is live and matches, and the last transaction that decided on its app created it or set it active |
| `Apps.DeletedStaysOut` | internal/api/handlers/admin_apps.go:246-287 | after Delete no key of the app is let in over any later history until the app is patched active, or purged and created again |
| `Apps.VersionDeterminesCapabilities` | internal/api/handlers/admin_apps.go:98-284 | over every history within one lifetime the version never falls and equal versions have equal capability sets |
| `Apps.ManagementOnlyShrinks` | internal/api/handlers/admin_apps.go:24-46 | management capabilities only shrink over every history; an app created through the API never has one |
| `Apps.ParseBearerForm` | internal/auth/store.go:28-38 | a bearer parses exactly with a non-empty prefix and secret, and yields the prefix |
| `Apps.Resolve` | internal/auth/store.go:40-127 | identity, version and capabilities of a live matching key of an active app from one snapshot; not found exactly when there is none; an error exactly when the database fails before the answer is complete |
| `Apps.ResolvedVersionsAgree` | internal/auth/store.go:40-127 | two resolutions within a lifetime: versions do not fall, equal versions mean equal capabilities |
| `Apps.FilterGrantable` | internal/adminui/apps.go:30-38 | keeps the grantable values in order |
| `Apps.FilterMembers` | internal/adminui/apps.go:30-38 | what is kept is exactly what is grantable |
| `Apps.BuildPatch` | internal/adminui/apps.go:191-237 | the request a form turns into, an error page if a full form's look-up fails |
| `Apps.DiffMembers` | internal/adminui/apps.go:212-237 | for a full form add is ticked but not held and remove is held but not ticked, both within the grantable; for any other form both are empty |
| `Apps.FormPatchLandsExactly` | internal/adminui/apps.go:191-244 | for every form, the server's Patch on its request is refused only for the grade; a full form leaves exactly the held capabilities outside the grantable plus the ticked grantable ones, any other form leaves the set alone; description, grade and active are those of the form where it gives them; and the version is bumped exactly when the set changes |
| `Grades.NormalizeKeepsRank` | internal/dispatch/strategy/topic.go:117-140 | normalizing keeps the rank, an empty grade becoming "user" |
| `Grades.CanonIsIdempotent` | internal/dispatch/strategy/topic.go:117-140 | trimming and lower-casing twice is the same as once |
| `Grades.StoredGradesAreOrdered` | internal/dispatch/strategy/topic.go:111-128 | user below developer, also written dev, below admin; any other word ranks below all, so it passes no check |
| `Recipients.ResolveDirect` | internal/dispatch/strategy/direct.go:47-128 | the row loop with its seen set computes `Direct`, or app not found |
| `Recipients.ResolveTopic` | internal/dispatch/strategy/topic.go:38-115 | the row loop computes `TopicTo` at the required rank, or app not found |
| `Recipients.ResolveBroadcast` | internal/dispatch/strategy/broadcast_all.go:32-77 | the row loop computes `BroadcastTo` at the normalized grade's rank |
| `Recipients.ResolveDirectDm` | internal/dispatch/strategy/direct_dm.go:35-80 | the row loop with its seen set computes `DmTo` |
| `Recipients.DirectPartitions` | internal/dispatch/strategy/direct.go:80-128 | every distinct known requested id is in exactly one of recipients and skipped, once; no other known id is in either |
| `Recipients.TopicPartitions` | internal/dispatch/strategy/topic.go:53-115 | every subscribed active user is in exactly one list, once; nobody else is |
| `Recipients.BroadcastPartitions` | internal/dispatch/strategy/broadcast_all.go:32-77 | every active user is in exactly one list, once; nobody else is |
| `Recipients.DmPartitions` | internal/dispatch/strategy/direct_dm.go:35-80 | a known user who is requested, however often, gets one handle if active and one inactive skip otherwise; one who is not gets neither |
| `Recipients.DmUnknown` | internal/dispatch/strategy/direct_dm.go:52-60 | a telegram id that nobody has is listed as unknown as often as requested, any other never |
| `Recipients.DirectUnknown` | internal/dispatch/strategy/direct.go:87-92 | an id that nobody has is listed as unknown as often as requested, any other never |
| `Recipients.DirectGoesToTopics` | internal/dispatch/strategy/direct.go:97-123 | every direct handle is the app's topic in the linked chat of an active subscriber with the bot as administrator |
| `Recipients.TopicGoesToTopics` | internal/dispatch/strategy/topic.go:85-108 | the same for topic handles, and their users have the required rank |
| `Recipients.BroadcastGoesToChats` | internal/dispatch/strategy/broadcast_all.go:44-77 | every broadcast handle is the general topic of the linked chat of an active user of the required rank with the bot as administrator |
| `Recipients.DmGoesToTheRequested` | internal/dispatch/strategy/direct_dm.go:55-76 | every direct-message handle has as its chat a requested telegram id, belongs to the active user who has it, and has no topic |
| `Recipients.DmChatsInOrder` | internal/dispatch/strategy/direct_dm.go:35-80 | the chats in order are the first occurrences of the requested ids that active users have |
| `Recipients.DirectUsersInOrder` | internal/dispatch/strategy/direct.go:47-128 | the users in order are the first occurrences of the requested ids of reachable subscribers |
| `Recipients.DirectTellsFirstDefect` | internal/dispatch/strategy/direct.go:97-116 | the verdict is delivery without a defect, otherwise the first defect in the order inactive, not subscribed, not linked, bot not admin, topic missing |
| `Recipients.TopicTellsFirstDefect` | internal/dispatch/strategy/topic.go:85-101 | the same in the order grade, not linked, bot not admin, topic missing |
| `Recipients.BroadcastTellsFirstDefect` | internal/dispatch/strategy/broadcast_all.go:44-70 | the same in the order grade, not linked, bot not admin |
| `Recipients.VerdictsAgree` | internal/dispatch/strategy/topic.go:76-112 | a subscribed active user of sufficient grade gets the same handle or skip code from direct and topic |
| `Recipients.BroadcastIgnoresTopics` | internal/dispatch/strategy/broadcast_all.go:44-77 | broadcast and topic give a user the same chat or the same code, a missing topic excepted |
| `Recipients.TopicIsFilteredDirect` | internal/dispatch/strategy/topic.go:38-115 | topic recipients are the direct recipients for the list of all users filtered by rank, in the same order |
| `Recipients.RequiredRankIsMax` | internal/dispatch/strategy/topic.go:38-52 | the required rank is the larger of the app's and the request's |
| `Recipients.DirectOnlyActive` | internal/dispatch/strategy/direct.go:97-100 | direct recipients are active users |
| `Recipients.TopicOnlyActive` | internal/dispatch/strategy/topic.go:60-64 | topic recipients are active users |
| `Recipients.BroadcastOnlyActive` | internal/dispatch/strategy/broadcast_all.go:33-37 | broadcast recipients are active users |
| `Recipients.DmOnlyActive` | internal/dispatch/strategy/direct_dm.go:65-68 | direct-message recipients are active users |
| `Lifecycle.StepKeepsInv` | internal/registry/user.go:43-142 | every handler and every single statement of the two-statement handlers keeps: anonymized means no chat, telegram ids are unique, ids are below the sequence; and all but a promotion written apart from its look-up keep that the bot is administrator only of a linked chat |
| `Lifecycle.RunKeepsInv` | internal/registry/personal_supergroup.go:35-134 | so does every run of them |
| `Lifecycle.AnonymizedIsAbsorbing` | internal/registry/user.go:105-142 | after every run, late promotions included, an anonymized user is still there, anonymized and without chat; and without bot if no promotion came late |
| `Lifecycle.AnonymizedNeverReceives` | internal/dispatch/strategy/direct.go:97-100 | whatever steps follow, late promotions included, none of the four strategies resolves to an anonymized user |
| `Lifecycle.LinkAfterRun` | internal/registry/personal_supergroup.go:72-118 | after any run a user's chat is what the last step that set the link set it to, unchanged if none did |
| `Lifecycle.LastReportDecides` | internal/bot/handlers/promote.go:43-68 | whether the bot was last reported with all rights in a chat is what the last report on that chat says, unchanged if there was none |
| `Lifecycle.LatePromotionIff` | internal/bot/handlers/promote.go:38-50 | whatever steps come between the look-up of a promotion and its write: the flag agrees with the last report on the chat that the row is then linked to if and only if the last step to set the link, if any, set it to a chat, and the last report on that chat gives all rights; and it breaks the invariant if and only if that step was a leaving or a reset |
| `Lifecycle.LinkedThroughoutIff` | internal/bot/handlers/promote.go:38-50 | the row stays linked to the chat from look-up to write if and only if no step on the way leaves, resets, or links another chat |
| `Lifecycle.LeavingBeforePromotion` | internal/bot/handlers/promote.go:38-50 | if the user leaves at any point in between, the flag stands without a chat, and from then on, whatever steps follow, none of the four strategies resolves to the user |
| `Lifecycle.WrongFlagDelivers` | internal/dispatch/strategy/direct.go:97-118 | after any such steps that leave an active subscriber linked to a chat without rights, by relinking or by a demotion, the direct strategy delivers to that chat |
| `Lifecycle.LateCasesAreReachable` | internal/bot/handlers/promote.go:38-50 | from the empty database a run leads to an active subscriber with a topic whose look-up succeeds and whose flag is wrong after the late write if meanwhile the user leaves, links another chat, or the bot is demoted; the server itself handles these one after another |
| `Lifecycle.StartGroupIsItsStatements` | internal/bot/handlers/startgroup.go:42-60 | the handler taken as one step is consuming the token and then linking |
| `Lifecycle.MyChatMemberIsItsStatements` | internal/bot/handlers/promote.go:38-75 | the handler taken as one step is the look-up and then the write of the flag |
| `Lifecycle.HandlersAreAtomic` | internal/bot/poller.go:67-69 | a handler during which only the admin API works equals the handler in one step followed by what the API did |
| `Lifecycle.ServerRunsAreSerial` | internal/bot/poller.go:67-69 | every run of one poller beside the admin API equals a run of whole handlers, and keeps the invariant |
| `Lifecycle.ServerPromotionLands` | internal/bot/handlers/promote.go:38-50 | in such a run a promotion lands on the chat that was looked up and agrees with the report, whatever the API did in between |
| `Lifecycle.RunKeepsFlags` | internal/bot/handlers/promote.go:30-88 | in every run of whole handlers whose reports find the only owner of their chat, whoever has the flag is linked to a chat in which the bot was last reported with all rights |
| `Lifecycle.TokenIsOneShot` | internal/registry/personal_supergroup.go:49-67 | a used token changes nothing when used again after any steps, until it is issued again |
| `Lifecycle.TokenLinksItsUser` | internal/registry/personal_supergroup.go:35-85 | whatever happens in between, the first use of a token in time links the user it was issued for, unless anonymized, to the chat it is used in, and nobody else; a late use links nobody |
| `Lifecycle.StepTouchesOneRow` | internal/registry/user.go:43-142 | a step changes at most its own row and removes none |
| `Lifecycle.NewUserStartsPlain` | internal/registry/user.go:43-66 | who starts for the first time is an active user of the lowest grade with nothing agreed or linked, under the names given |
| `Lifecycle.KnownUserStartsAgain` | internal/registry/user.go:43-66 | who starts again keeps everything but a username given anew |
| `Lifecycle.LeavingErases` | internal/registry/user.go:105-125 | leaving erases names and link, and the names stay erased through any steps until the person starts again |
| `Lifecycle.PausedNeverReceives` | internal/registry/user.go:127-142 | through any steps until set active again, none of the four strategies resolves to a paused user |
| `Lifecycle.ActiveAgain` | internal/registry/user.go:127-142 | setting active lifts a pause and changes nothing else |
| `Lifecycle.AgreementLasts` | internal/registry/user.go:93-104 | the time of the first agreement is never lost or overwritten |
| `Lifecycle.StepKeepsGrade` | internal/api/handlers/admin_users.go:49-57 | a grade changes only by a valid grade set for that telegram id, and to that grade |
| `Lifecycle.Store.UpsertOnStart` | internal/registry/user.go:43-66 | is the Start step and keeps the invariant |
| `Lifecycle.Store.MarkAgreed` | internal/registry/user.go:95-104 | is the Agree step; reports a transition exactly on the first agreement |
| `Lifecycle.Store.Anonymize` | internal/registry/user.go:109-125 | is the LeaveAll step |
| `Lifecycle.Store.ChangeStatus` | internal/registry/user.go:130-142 | is the SetStatus step; refuses other statuses and never revives an anonymized user |
| `Lifecycle.Store.AddToken` | internal/registry/personal_supergroup.go:35-45 | is the IssueToken step |
| `Lifecycle.Store.Unlink` | internal/registry/personal_supergroup.go:105-118 | is the ResetLink step |
| `Lifecycle.Store.TakeToken` | internal/registry/personal_supergroup.go:49-67 | deletes the token, expired or not, and gives its user exactly if it was there and not expired |
| `Lifecycle.Store.Link` | internal/registry/personal_supergroup.go:72-85 | is the WriteLink step |
| `Lifecycle.Store.SetAdmin` | internal/registry/personal_supergroup.go:90-100 | is the WriteAdmin step |
| `Lifecycle.Store.FindUserByChatId` | internal/registry/personal_supergroup.go:123-134 | finds some user linked to the chat, none exactly if there is none |
| `Lifecycle.Store.HandleStartGroup` | internal/bot/handlers/startgroup.go:42-60 | consumes the token, expired or not, then links unless anonymized: the StartGroup step |
| `Lifecycle.Store.HandleMyChatMember` | internal/bot/handlers/promote.go:30-88 | sets the admin flag of an owner of that chat from the bot's new standing, changes nothing else, and writes the audit event exactly when the bot lacks rights or was demoted in a tracked chat |
| `Pipeline.RunStrategyDispatch` | internal/api/handlers/common.go:143-260 | the handler's trace and reply are those of `Dispatch`, for every failure pattern |
| `Pipeline.SendAll` | internal/api/handlers/common.go:228-247 | the recipient loop: announce, send, record; counters and report |
| `Pipeline.RecordSkips` | internal/api/handlers/common.go:248-257 | the skip loop |
| `Pipeline.PlayFollowsPlan` | internal/api/handlers/common.go:36-49 | failing audit writes lose no send, and a reliable writer records every planned stage |
| `Pipeline.EachHandleSentOnce` | internal/api/handlers/common.go:143-260 | a success means that the resolved handles were sent, each once and in order; any other reply that nothing was sent |
| `Pipeline.NothingSentUnlogged` | internal/api/handlers/common.go:155-217 | with a writer, nothing is sent unless received and then validated (with its counts) were written |
| `Pipeline.ReliableTrace` | internal/api/handlers/common.go:143-260 | with a reliable writer the stages are received, denied; or received, validated, dispatched with delivered or deferred per recipient, then denied per skip |
| `Pipeline.CountersAddUp` | internal/api/handlers/common.go:227-260 | delivered + failed + skipped equals the report length, and each report line tells how its send ended or why it was skipped |
| `Pipeline.TraceMatchesCounters` | internal/api/handlers/common.go:227-260 | with a reliable writer the delivered, deferred and denied events are as many as the reply's counters say, and every send was announced |
| `Pipeline.SucceedsIff` | internal/api/handlers/common.go:155-223 | a request succeeds if and only if it is readable and in order, both writes before the first send succeed where there is a writer, and the resolver resolves the body without its grade unless the endpoint takes one; what else it answers when |
| `Pipeline.RefusalTellsWhy` | internal/api/handlers/common.go:160-188 | the refusal of a recorded request tells the first thing wrong with it |
| `Pipeline.GradeOnlyWhereTaken` | internal/api/handlers/common.go:189-191 | where an endpoint takes no grade, the one in the request makes no difference |
| `Pipeline.TrailIsRight` | internal/api/handlers/common.go:143-260 | with a reliable writer the trail of a success is complete and right: counts in validated, then per recipient in order announcement, send and end about that user in that chat, then per skip its user and reason |
| `Pipeline.CodeTellsFailure` | internal/api/handlers/common.go:262-275 | the failure can be read back from its code |
| `Pipeline.CodeTellsSkip` | internal/dispatch/strategy/direct.go:10-17 | the reason of a skip can be read back from its code |
| `LineChart.SelectLineSeries` | internal/adminui/dashboard.go:739-784 | the lines are those drawn from the apps ranked by total and id, whatever order the map is walked in; only the counts of folded apps have to fit the buckets |
| `LineChart.DrawnIsUnique` | internal/adminui/dashboard.go:752-758 | there is only one such answer |
| `LineChart.BucketsAreKept` | internal/adminui/dashboard.go:760-784 | in every bucket the lines add up to what all apps add up to |
| `LineChart.AloneIffFewAhead` | internal/adminui/dashboard.go:734-770 | an app has its own line, at the place equal to the number of apps ahead of it, if and only if there are at most five apps or fewer than four ahead |
| `LineChart.FoldedAreSmaller` | internal/adminui/dashboard.go:752-784 | no folded app has a larger total than an app drawn alone |
| `LineChart.LinesAreRanked` | internal/adminui/dashboard.go:752-758 | lines of single apps come by falling total, and by rising id where totals are equal |
| `LineChart.FirstDifferenceDecides` | internal/adminui/dashboard.go:752-758 | ids are compared as in a dictionary |
| `LineChart.TotalsAreSums` | internal/adminui/dashboard.go:744-751 | a total is the sum of all counts |
| `LineChart.LastLineCountsTheRest` | internal/adminui/dashboard.go:760-783 | up to five apps are all drawn alone; of more, four are, and the last line is labelled with the number of the others |

## Left out

- HTTP routing, JSON, templates, CSRF, configuration, Telegram and database drivers: input and output.
- SHA-256, HMAC and Argon2id: parameters; only their result length is used, and only where the row says so.
- Timestamps `infinity` and the canonical form of jsonb: a timestamp is a number of microseconds and details are their stored text.
- Date parsing and URL encoding of the audit filters: times arrive parsed, a "next" link is the query that it carries.
- Floating-point rounding: tokens are exact reals, so RetryAfter is exact up to its own truncation; the whole-second `Retry-After` header is not modelled.
- A rate bound on sends: the dispatcher waits and then sends without asking the limiter again, so bounds are on Allow decisions.
- Grades.NormalizeKeepsRank: lower-casing from one non-ASCII letter to another is not modelled; it never yields the name of a grade.
- Grades.CanonIsIdempotent: the same.
- Row order of the direct resolver's query: rows are taken in request order, as the code indexes them.
- Lifecycle.Store.HandleMyChatMember: topics created on promotion are not modelled; topics change only by the Catalogue step.
- Lifecycle.Store.HandleStartGroup: starts from the token; recognising the command text and the chat type is not modelled.
- LineChart.SelectLineSeries: the library sort is replaced by an insertion sort; by `LineChart.DrawnIsUnique` any sort gives the same lines.
- Ownership of a chat id or of a stored topic: no constraint in the schema promises it.
- The hook chain, the poller, the key store's labels and the other dashboard builders are not modelled.
