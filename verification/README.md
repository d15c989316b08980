# Verified model of the service's caches, sessions, counters and review flows

This project models the stateful core of the backend and proves what its code and comments promise. Every
concurrent part is a state machine: one event for each stretch of code between two awaits, so every
interleaving of requests, workers and processes is a run. A database statement outside a transaction, a whole
transaction, one Redis command and one Lua script are each one step. What a step cannot know (the outcome of a
bcrypt comparison, which row an unordered query returns, whether a network call got through) is a parameter of
its event, so the results hold for every choice. Beside each state machine stands a class with the same fields;
its methods are the pieces of the handlers, and each is proved to change the fields exactly as the state machine
does.

| module | what it models |
|---|---|
| `Options`, `Strings`, `Sets` | optional values and outcomes; white space and letter case; sizes |
| `CacheTtl` | lifetimes and jitter |
| `RetryQueue` | the queue of failed invalidations and its flush |
| `EntityCache`, `EntityValues` | `wrapEntity`, `invalidateEntity`, their Lua scripts, single flight, any number of processes; where their values come from |
| `WrapCache`, `ListCache` | `wrap`, `refresh` and the versioned list entries of `wrapScoped` and `bumpScope` |
| `SessionAuth` | the cached session check behind every request |
| `Sessions` | refresh-token rotation, reuse detection, logout everywhere |
| `HashChain` | the audit log's hash chain and its batched repair |
| `Throttler`, `CronLock` | rate limiting and job locks in Redis |
| `Base32`, `Totp`, `TwoFactor` | the codec, the one-time codes, and the second step of a login |
| `Otp` | one-time passwords: issuing, checking and spending them |
| `MediaScan` | the lease on rows of the malware-scan table |
| `RoleRequests`, `TemporaryGrants` | two-person role approval, and roles held for a time |
| `FilterParser`, `FilterWhere` | the filter language and its translation to a query condition |
| `Redaction` | secrets removed from audit values |

Hashes, HMAC and percent-coding are function parameters. Cache values are tagged with the number of writes
committed when they were read, so "at least as new as write w" is a comparison of numbers. Ids, tokens and UUIDs
are numbers that are never reused. `bound` is the longest time a call may take from its start to the end of its
factory run.

Seven promises turn out to hold only under a condition. Each is stated as an equivalence, with a run or an input that
shows the exception, and the code is modelled as it is:

- The OTP cooldown fails exactly when an older row carries the creation time of the newest one, because the query
  for the latest row then may return either (`Otp.CooldownHoldsUnlessTied`, `Otp.TieBreaksCooldown`). The window
  is narrow: the two rows and the claim between them must fall into one millisecond.
- A final scan status can be overwritten exactly when a claim falls between the two updates of `recordFailure`,
  because the first clears the lock (`MediaScan.OverwriteIffOverlap`, `MediaScan.OverlapHappens`).
- A decided role request can still turn EXPIRED exactly when a reviewer who read it as pending and past its date
  has its update outstanding, because that update has no condition (`RoleRequests.FinalUnlessExpiring`,
  `RoleRequests.DecidedStays`, `RoleRequests.ApprovedThenExpired`).
- The expiry job takes the role of a newer grant exactly when the row it ends is no longer the active one
  (`TemporaryGrants.ExpiryKeepsIffSoleGrant`, `TemporaryGrants.NewGrantLosesItsRole`). A user can end up without a
  role exactly when every role the user holds is about to be taken by a removal past its check or an expiry job in
  progress (`TemporaryGrants.StrippedIffAllThreatened`): by two removals that interleave
  (`TemporaryGrants.TwoRemovalsLeaveNone`), but also without any interleaving, when a permanent role is removed and
  the temporary one that was left expires (`TemporaryGrants.ExpiryTakesLastRole`).
- A failed invalidation is kept track of exactly as long as no purge succeeds after an id overflowed while that purge
  was awaited, because its success also clears the mark of the later overflow
  (`RetryQueue.RunKeepsTrackOfFailures`, `RetryQueue.LateOverflowIsForgotten`).
- After the check for a pending role request has passed, two of them for one role and target can come about exactly
  if another handler for them is between its own check and its create (`RoleRequests.CheckHoldsUnlessOverlap`,
  `RoleRequests.TwoPendingRequests`).
- A filter condition means what it asks exactly when it has a value and its column is a column of the schema whose
  type takes the test: text that the type can be read from, an order where the type has one, `like` on strings only,
  and null only where there can be a null (`FilterWhere.ConditionMeansWhatItAsks`). The parser yields only text, so
  `isProtected:eq:true` is refused (`FilterWhere.RoleFlagTakesNoText`) and so are `name:isnull` and `name:notnull`
  (`FilterWhere.RequiredColumnTakesNoNull`); one such condition refuses the whole filter
  (`FilterWhere.FilterIsReadByConditions`). `name:eq` matches every row (`FilterWhere.NoValueMatchesEveryRow`), and
  `status.not:eq:ACTIVE` selects what is not active (`FilterWhere.NotBelowAColumnNegates`).

The limit on scan attempts is soft in a similar way. Past its expiry a row is claimed at most as often as failures are
left before the limit, plus once for each claim made while an earlier pass was active, plus once for each lost update
of `recordFailure`, whatever else fails (`MediaScan.PassesAfterExpiry`). Each of these surcharges occurs
(`MediaScan.SplitRecordCostsAPass`, `MediaScan.LostRecordCostsAPass`, `MediaScan.LostFailedCostsAPass`).
So are the limits on wrong codes: once the limit of a one-time password is reached, exactly as many more failures can
be counted as there are requests that had looked the row up before (`Otp.FailuresPastLimit`); the same bound holds for
a login challenge (`TwoFactor.FailuresAtMost`), and the plain limit holds where no two requests try at once.

Where the comments and the code differ, the code is followed: `operatorMap` finds the inherited names
`constructor` and `__proto__` as well as its own, and such a condition falls to the default branch.

Safety is not all that is stated. Each protocol also has lemmas on causes (in every run a status, a refusal, a lock or
a value is there only because of the step that accounts for it) and lemmas named `…Alone`, `…Iff` or `…IsServed` that
say what a request that nothing interrupts achieves, so that a handler which refused everything would not satisfy them.

Run `dafny verify dfyconfig.toml` to verify everything.

## Model

| member | source | states |
|---|---|---|
| `CacheTtl.JitterAtMost` | src/infrastructure/redis/cache.service.ts:217-219 | a jittered lifetime is at most the ttl times 1.1, rounded; 330 s for entities, 63 s with grace for session checks |
| `CacheTtl.JitterAtLeast` | src/infrastructure/redis/cache.service.ts:217-219 | and at least nine tenths of it: 270 s for entities, 27 s for session checks |
| `RetryQueue.RunKeepsTrackOfFailures` | src/infrastructure/redis/cache.service.ts:488-551 | in every run each id still owed an invalidation is queued or a purge is due, if and only if no purge succeeds after an id overflowed while it was awaited |
| `RetryQueue.QueueStaysInOrder` | src/infrastructure/redis/cache.service.ts:503-515 | in every run the queue is within its bound and sorted by age, the timer is armed while work remains, and only ids still owed an invalidation are queued |
| `RetryQueue.LateOverflowIsForgotten` | src/infrastructure/redis/cache.service.ts:541-543 | a run in which an id overflows during the purge and is then forgotten |
| `RetryQueue.FirstFailureTimeIsKept` | src/infrastructure/redis/cache.service.ts:503-515 | a queued id keeps its first failure time |
| `RetryQueue.LeavesOnlyOnSuccessOrAge` | src/infrastructure/redis/cache.service.ts:488-551 | an id leaves the queue only after a success on it or because its own entry was too old |
| `RetryQueue.AdvanceSnapshot` | src/infrastructure/redis/cache.service.ts:517-528 | the flush drops exactly the entries that are too old, all before its first await |
| `RetryQueue.FlushEmptiesQueue` | src/infrastructure/redis/cache.service.ts:517-551 | a flush whose operations all succeed tries every entry, leaves the queue empty and settles what was owed, and disarms the timer unless a purge is due |
| `RetryQueue.FailureGoesOn` | src/infrastructure/redis/cache.service.ts:529-540 | a failure leaves its entry queued, and the flush goes on with the next one if Redis is connected |
| `RetryQueue.PurgeSettles` | src/infrastructure/redis/cache.service.ts:541-550 | a due purge that succeeds clears the mark, one that fails keeps mark and timer |
| `RetryQueue.Retries.EnqueueFailed` | src/infrastructure/redis/cache.service.ts:503-515 | an id already queued keeps its time, a full queue turns into a due purge, the timer is armed |
| `RetryQueue.Retries.Settle` | src/infrastructure/redis/cache.service.ts:488-501 | a success removes the id, a failure queues it |
| `RetryQueue.Retries.DropAged` | src/infrastructure/redis/cache.service.ts:522-527 | the loop to the next suspension equals its specification |
| `RetryQueue.Retries.BeginFlush` | src/infrastructure/redis/cache.service.ts:517-528 | a second flush does nothing; a first one snapshots the queue |
| `RetryQueue.Retries.ResumeFlush` | src/infrastructure/redis/cache.service.ts:529-540 | what one settled retry changes, and when the loop stops |
| `RetryQueue.Retries.EndFlush` | src/infrastructure/redis/cache.service.ts:541-550 | a purge that is due is awaited if Redis is connected, otherwise the flush ends |
| `RetryQueue.Retries.PurgeSettled` | src/infrastructure/redis/cache.service.ts:541-550 | a purge that succeeded clears the mark, and the timer is disarmed if nothing is left |
| `EntityCache.FreshAfterInvalidation` | src/infrastructure/redis/cache.service.ts:409-482 | any number of processes, every interleaving: a wrapEntity call begun after an invalidation reached Redis returns a value at least as new as the writes before it |
| `EntityCache.FreshThroughRedisFailure` | src/infrastructure/redis/cache.service.ts:409-551 | one process: the same once invalidateEntity has resolved, even if every Redis call fails, unless the queue overflowed; also after the entry is dropped for its age |
| `EntityCache.CleanStep` | src/infrastructure/redis/cache.service.ts:23-42 | once nothing older than a write can be served, no step of any process changes that |
| `EntityCache.CleanStore` | src/infrastructure/redis/cache.service.ts:36-42 | a flight begun before an invalidation cannot write its value back |
| `EntityCache.InvalidateCleans` | src/infrastructure/redis/cache.service.ts:23-32 | the invalidation script makes its entity clean for every write so far |
| `EntityCache.CallFreshStep` | src/infrastructure/redis/cache.service.ts:409-448 | hit, own flight, joined flight and bypass each give a value that is new enough |
| `EntityCache.AgedIsClean` | src/infrastructure/redis/cache.service.ts:17-21 | when a queued id is given up for its age, everything it protected against has expired |
| `EntityCache.DequeuedIsClean` | src/infrastructure/redis/cache.service.ts:488-551 | an id that leaves the queue is clean by then |
| `EntityValues.ValuesWereRead` | src/infrastructure/redis/cache.service.ts:409-448 | in every run a value that wrapEntity returns was read from the database for that id, by the call itself or by the factory of a flight for it |
| `EntityValues.EntryOrigin` | src/infrastructure/redis/cache.service.ts:432-445 | so was every value in Redis |
| `EntityValues.StoredIsServed` | src/infrastructure/redis/cache.service.ts:420-445 | a value stored under the current generation is given to every call that reaches Redis in its lifetime, until it is invalidated, evicted or stored again |
| `EntityValues.StoreWritesIff` | src/infrastructure/redis/cache.service.ts:36-42 | the guarded script writes the value the factory read if and only if the generation is the current one |
| `EntityValues.OneFlightPerSlot` | src/infrastructure/redis/cache.service.ts:303-314 | in every run at most one factory runs per entity, generation and process |
| `EntityValues.MissReadsDatabase` | src/infrastructure/redis/cache.service.ts:420-447 | a miss that nothing interrupts gives what the database holds and leaves it in Redis |
| `EntityValues.CheckThenRead` | src/infrastructure/redis/cache.service.ts:416-421 | a queued id, or an unusable cache, reads the database; otherwise a live entry is returned |
| `EntityValues.MissJoins` | src/infrastructure/redis/cache.service.ts:303-314 | a miss while a flight runs waits for it and starts none |
| `EntityValues.UnreadableGenerationBypasses` | src/infrastructure/redis/cache.service.ts:423-430 | without the generation the call reads the database and nothing is cached |
| `EntityCache.Cluster.EvalInvalidate` | src/infrastructure/redis/cache.service.ts:23-32 | new generation with its own lifetime, entry deleted |
| `EntityCache.Cluster.EvalSetIfVersion` | src/infrastructure/redis/cache.service.ts:36-42 | written if and only if the generation is the one that was read |
| `EntityCache.Cluster.CheckQueue` | src/infrastructure/redis/cache.service.ts:416-418 | a queued id is bypassed |
| `EntityCache.Cluster.ReadCached` | src/infrastructure/redis/cache.service.ts:420-421 | a live entry is returned, anything else is a miss |
| `EntityCache.Cluster.ReadGeneration` | src/infrastructure/redis/cache.service.ts:423-432 | an unreadable generation bypasses; otherwise join or start a flight in the same turn |
| `EntityCache.Cluster.FinishFlight` | src/infrastructure/redis/cache.service.ts:432-447 | the guarded write and the end of the flight |
| `EntityCache.Cluster.InvalidateGuarded` | src/infrastructure/redis/cache.service.ts:468-501 | the script's effect if it reached Redis, and the queue's change |
| `EntityCache.Cluster.ReplayQueued` | src/infrastructure/redis/cache.service.ts:529-540 | a replayed invalidation does what the original would |
| `WrapCache.ValuesAreRecent` | src/infrastructure/redis/cache.service.ts:316-345 | in every run a value returned by wrap was computed by a factory run for its key that began, gave its result, and only then fixed the value, less than the bound plus the longest entry life after it began |
| `WrapCache.InvStep` | src/infrastructure/redis/cache.service.ts:305-345 | every entry, flight and answer stays traceable to a factory run of its key |
| `WrapCache.OneFactoryPerKey` | src/infrastructure/redis/cache.service.ts:303-314 | at most one factory runs per key and process; concurrent callers share it |
| `WrapCache.StaleIsRefreshed` | src/infrastructure/redis/cache.service.ts:324-330 | whoever is served a soft-expired value leaves a factory running for its key |
| `WrapCache.StoredIsServed` | src/infrastructure/redis/cache.service.ts:316-345 | in every run what was stored is served until its hard expiry unless evicted or stored again; while it is fresh no factory is started |
| `WrapCache.ResultIsWritten` | src/infrastructure/redis/cache.service.ts:336-345 | the envelope is fresh for the jittered ttl and stale for at most half a minute more |
| `WrapCache.PrivateIsNotWritten` | src/infrastructure/redis/cache.service.ts:316-345 | a bypassing call writes nothing |
| `WrapCache.MissRunsFactory` | src/infrastructure/redis/cache.service.ts:305-345 | a miss that nothing interrupts is given the result of its own factory run, which is then cached |
| `WrapCache.FailedRunFailsCalls` | src/infrastructure/redis/cache.service.ts:305-314 | a factory that throws fails the calls that wait for it and stores nothing |
| `WrapCache.Envelopes.SingleFlight` | src/infrastructure/redis/cache.service.ts:305-314 | join the running factory or start one, and nothing else changes |
| `WrapCache.Envelopes.GotEntry` | src/infrastructure/redis/cache.service.ts:319-333 | fresh, soft-expired (served, refreshed behind) or missing |
| `WrapCache.Envelopes.FactoryResolved` | src/infrastructure/redis/cache.service.ts:336-345 | soft and hard expiry of the envelope written |
| `WrapCache.Envelopes.EnvelopeWritten` | src/infrastructure/redis/cache.service.ts:336-345 | the envelope in Redis and the end of the flight |
| `ListCache.ListIsFreshAfterBump` | src/infrastructure/redis/cache.service.ts:316-368 | a wrapScoped call begun after a successful bump returns only a factory run begun after it; expiry of the version key revives nothing |
| `ListCache.OldRunsAreGone` | src/infrastructure/redis/cache.service.ts:398-407 | no entry and no running factory under a key reachable after the bump stems from an older run |
| `ListCache.ListIsItsOwn` | src/infrastructure/redis/cache.service.ts:347-368 | in every run a call is given only a list computed for its own scope and query |
| `ListCache.SameListSameKey` | src/infrastructure/redis/cache.service.ts:347-368 | for a day after a bump all calls for one scope and query ask under the same key, until the next bump |
| `ListCache.StoredListIsServed` | src/infrastructure/redis/cache.service.ts:316-368 | a stored list is served to every call under its key in its lifetime, whatever is bumped elsewhere |
| `ListCache.Scopes.EvalBump` | src/infrastructure/redis/cache.service.ts:398-407 | a bump that reaches Redis gives the scope a token above every one drawn before |
| `ListCache.Scopes.GetVersion` | src/infrastructure/redis/cache.service.ts:347-353 | an absent or expired version reads as 0 |
| `SessionAuth.AcceptsOnRecentEvidence` | src/common/guards/jwt.strategy.ts:36-100 | validate accepts only on a loadSessionAuth run younger than the bound plus 63 s that found the session unrevoked and unexpired and its user active |
| `SessionAuth.RevocationTakesEffect` | src/common/guards/jwt.strategy.ts:62-69 | a revoked or deleted session is refused after that delay, even if every purge failed |
| `SessionAuth.ExpiryTakesEffect` | src/common/guards/jwt.strategy.ts:62-69 | so is an expired one |
| `SessionAuth.ValidateAlone` | src/common/guards/jwt.strategy.ts:36-100 | a request that is not cached and not interrupted is accepted if and only if its session is its user's, unrevoked and unexpired, and the user is active |
| `Sessions.OneSuccessorPerToken` | src/modules/auth/service/auth.service.ts:1303-1332 | a refresh token is exchanged for at most one session |
| `Sessions.OneLiveSessionPerLogin` | src/modules/auth/service/auth.service.ts:1303-1332 | each login has at most one un-revoked session descending from it |
| `Sessions.EarlierLoginsStayEnded` | src/modules/auth/service/auth.service.ts:1225-1332 | after a reuse wipe, logout everywhere or password reset no session of an earlier login is ever un-revoked again, refreshes in flight included |
| `Sessions.ReuseNeverIssues` | src/modules/auth/service/auth.service.ts:1236-1263 | presenting an exchanged token never yields a session |
| `Sessions.RotationsAreChecked` | src/modules/auth/service/auth.service.ts:1225-1298 | a rotation is only attempted for a session found un-revoked and unexpired, whose user was then found active |
| `Sessions.IssuedSessionStaysUsable` | src/modules/auth/service/auth.service.ts:1303-1332 | in every run the session that a refresh issues has the exchanged one's user and its own expiry, and stays un-revoked until its token is exchanged or it is ended |
| `Sessions.LoginSessionStaysUsable` | src/common/utils/token.util.ts:80-92 | so does the session of a login |
| `Sessions.ReuseIsReal` | src/modules/auth/service/auth.service.ts:1236-1268 | in every run a refresh wipes a user's sessions only if its token was exchanged before or its session was ended with all of that user's |
| `Sessions.RotatedWasExchanged` | src/modules/auth/service/auth.service.ts:1303-1332 | a token counts as exchanged only if a rotation issued another session for it |
| `Sessions.RefreshIssues` | src/modules/auth/service/auth.service.ts:1225-1332 | a refresh that nothing interrupts of an un-revoked, unexpired session of an active user issues a new session of that user |
| `Sessions.RefreshWipes` | src/modules/auth/service/auth.service.ts:1236-1268 | one with a revoked session revokes all sessions of its user and no others |
| `Sessions.RefreshRefusesIff` | src/modules/auth/service/auth.service.ts:1225-1273 | it is refused at once if and only if the session is gone or expired |
| `Sessions.EndingDeletes` | src/modules/auth/service/auth.service.ts:1639-1656 | ending one session or all of a user's deletes those rows and no others |
| `Sessions.SessionTable.CreateAtLogin` | src/common/utils/token.util.ts:80-92 | the row a login creates |
| `Sessions.SessionTable.RefreshLookup` | src/modules/auth/service/auth.service.ts:1225-1267 | the four outcomes of the lookup |
| `Sessions.SessionTable.RefreshWipe` | src/modules/auth/service/auth.service.ts:1236-1241 | every session of the user is revoked and nothing else changes |
| `Sessions.SessionTable.RefreshRotate` | src/modules/auth/service/auth.service.ts:1303-1332 | the old row is revoked and its successor created, or nothing is |
| `Sessions.SessionTable.DeleteAllOf` | src/modules/auth/service/auth.service.ts:1162-1164 | exactly the user's rows are deleted |
| `HashChain.RelinkRepairs` | scripts/backfill-login-failed-audit.ts:31-127 | given a valid chain below the first row, every row of the result is linked; only hash columns change, lower rows not at all |
| `HashChain.ValidChainIsUnique` | scripts/backfill-login-failed-audit.ts:31-49 | a valid chain is determined by its records, so the repair is the only one |
| `HashChain.NoWritesIffLinked` | scripts/backfill-login-failed-audit.ts:115-126 | re-linking changes nothing if and only if the rows are linked already |
| `HashChain.HeadHashDeterminesLog` | scripts/backfill-login-failed-audit.ts:31-49 | with a collision-free digest the newest hash determines the whole log |
| `HashChain.BackfillIsSound` | scripts/backfill-login-failed-audit.ts:52-127 | whatever was appended or removed after the targets were read, exactly those still there are corrected, rows below the first stay, a valid log stays valid, and only targets that were not read remain |
| `HashChain.BackfillIsDoneOnce` | scripts/backfill-login-failed-audit.ts:52-127 | on an unchanged table a second run finds no target and changes nothing |
| `HashChain.CorrectedRecord` | scripts/backfill-login-failed-audit.ts:74-77 | a corrected row is a FAILURE with a WARNING and otherwise unchanged |
| `HashChain.AuditLog.RelinkRow` | scripts/backfill-login-failed-audit.ts:115-126 | a row is written if and only if one of its hash columns differs |
| `HashChain.AuditLog.RelinkLoop` | scripts/backfill-login-failed-audit.ts:88-127 | for every batch size of at least one the cursor loop ends with the one-pass result and counts the rows it changed |
| `HashChain.AuditLog.Relink` | scripts/backfill-login-failed-audit.ts:81-127 | the same from the predecessor's hash on |
| `HashChain.AuditLog.FindTargets` | scripts/backfill-login-failed-audit.ts:52-68 | the ids of the targets and the smallest of their sequence numbers |
| `HashChain.AuditLog.Backfill` | scripts/backfill-login-failed-audit.ts:70-127 | the rows found by the transaction are corrected by the ids read before it and re-linked |
| `Throttler.WindowAdmitsItsFirst` | src/infrastructure/redis/redis-throttler.storage.ts:10-18 | a request is admitted if and only if it is among the first `limit` of its window |
| `Throttler.OnlyIncrementsAdmit` | src/infrastructure/redis/redis-throttler.storage.ts:41-71 | the block key never admits a request |
| `Throttler.AtMostTwiceLimit` | src/infrastructure/redis/redis-throttler.storage.ts:10-71 | at most twice the limit is admitted in any closed interval of length ttl |
| `Throttler.BelowTwiceLimit` | src/infrastructure/redis/redis-throttler.storage.ts:10-71 | in a half-open one, one fewer |
| `Throttler.BlockHolds` | src/infrastructure/redis/redis-throttler.storage.ts:41-64 | once the block key is set every request is refused for the block duration at least |
| `Throttler.RefusalHasCause` | src/infrastructure/redis/redis-throttler.storage.ts:41-71 | in every run a request is refused only because a block was in force when it came or its own increment was over the limit |
| `Throttler.BlockHasCause` | src/infrastructure/redis/redis-throttler.storage.ts:54-64 | a block in force was set by a request, for its block duration |
| `Throttler.BlockerWasOver` | src/infrastructure/redis/redis-throttler.storage.ts:54-64 | and that request was over the limit |
| `Throttler.RequestAlone` | src/infrastructure/redis/redis-throttler.storage.ts:41-71 | an unblocked request is admitted if and only if it is within the limit, and otherwise blocks for the block duration if there is one |
| `Throttler.WindowKeepsItsEnd` | src/infrastructure/redis/redis-throttler.storage.ts:10-18 | counting up a living counter does not prolong it |
| `Throttler.Storage.EvalIncr` | src/infrastructure/redis/redis-throttler.storage.ts:10-18 | the script's effect on the counter and its lifetime |
| `Throttler.Storage.CountRequest` | src/infrastructure/redis/redis-throttler.storage.ts:54-71 | the counter, and the stage the count leads to |
| `Throttler.Storage.CheckBlockKey` | src/infrastructure/redis/redis-throttler.storage.ts:41-52 | a live block key refuses |
| `Base32.RoundTrip` | src/common/utils/two-factor.util.ts:10-49 | decoding undoes encoding for every byte string; the length is ceil(8n/5) |
| `Base32.EncodingIsUnique` | src/common/utils/two-factor.util.ts:10-29 | the encoding is the unpadded one of section 6 of RFC 4648: the only symbols that spell the input bits and fewer than five zeros |
| `Base32.TextRoundTrip` | src/common/utils/two-factor.util.ts:10-49 | the round trip on text, through the clean-up of the input |
| `Base32.PaddingIsIgnored` | src/common/utils/two-factor.util.ts:28-49 | padding at the end is ignored |
| `Base32.SpacingIsIgnored` | src/common/utils/two-factor.util.ts:28-49 | white space before the end is ignored |
| `Base32.CaseIsIgnored` | src/common/utils/two-factor.util.ts:28-49 | letter case is ignored |
| `Base32.RefusedIffForeign` | src/common/utils/two-factor.util.ts:28-49 | a text is refused if and only if a foreign character is left of it |
| `Base32.ShiftInBits` | src/common/utils/two-factor.util.ts:15-17 | what overflows the 32-bit register is never needed |
| `Base32.Encode` | src/common/utils/two-factor.util.ts:10-29 | the shifting loop computes that encoding |
| `Base32.Decode` | src/common/utils/two-factor.util.ts:31-49 | the shifting loop computes its inverse, or fails on a foreign character |
| `Totp.HotpIsSixDigits` | src/common/utils/two-factor.util.ts:55-68 | a code is the six low decimal digits of the truncated digest (section 5.3 of RFC 4226), padding included |
| `Totp.TruncateIsLow31` | src/common/utils/two-factor.util.ts:60-65 | the truncation is the low 31 bits of the big-endian number at the place the last digest byte names (section 5.3 of RFC 4226) |
| `Totp.BigEndianSpells` | src/common/utils/two-factor.util.ts:56-57 | the eight counter bytes spell the counter |
| `Totp.DigitsAreExact` | src/common/utils/two-factor.util.ts:67 | two numbers below 10^n show the same n digits if and only if they are equal |
| `Totp.TimingSafeEqual` | src/common/utils/two-factor.util.ts:93-98 | the accumulated difference is zero if and only if the strings are equal |
| `Totp.VerifyTotp` | src/common/utils/two-factor.util.ts:72-91 | the least step of the window above the last used one whose code was entered, or the refusal or error that applies |
| `Totp.VerdictIsUnique` | src/common/utils/two-factor.util.ts:72-91 | this promise leaves exactly one verdict, errors included |
| `Totp.MatchIsACodeInTheWindow` | src/common/utils/two-factor.util.ts:72-91 | only a code of the secret for an unused step within the window is matched |
| `Totp.StepIsHalfAMinute` | src/common/utils/two-factor.util.ts:72-91 | a step is half a minute of the clock |
| `Totp.AcceptsAClockInTheWindow` | src/common/utils/two-factor.util.ts:82-88 | the code shown by a clock within the window is accepted unless its step is used up (section 5.2 of RFC 6238) |
| `Totp.MatchedStepsIncrease` | src/common/utils/two-factor.util.ts:70-91 | when each match is stored, the steps of successive matches strictly increase |
| `TwoFactor.EveryPairHasItsOwnEvidence` | src/modules/auth/service/auth.service.ts:2653-2746 | two requests that were issued tokens answered different challenges with different steps and different recovery codes |
| `TwoFactor.IssuedOnEvidence` | src/modules/auth/service/auth.service.ts:2690-2746 | tokens are issued only on evidence of the challenge's own user: a recovery code now used, a TOTP step that was the least unused match when it was checked, or a code that matched the hash of the one sent by SMS |
| `TwoFactor.SmsIsCompared` | src/modules/auth/service/auth.service.ts:2690-2696 | a request that goes on with the SMS factor had compared its code with the challenge's SMS hash, and they matched |
| `TwoFactor.EveryRequestLoadedUsable` | src/modules/auth/service/auth.service.ts:2588-2602 | whatever a request does with a challenge, it had read it unconsumed, unexpired and with fewer than five failures |
| `TwoFactor.WinningStepsIncrease` | src/modules/auth/service/auth.service.ts:2705-2716 | the steps that win the update of a user's last used step strictly increase |
| `TwoFactor.RecoveryCodeIsSingleUse` | src/modules/auth/service/auth.service.ts:2736-2743 | a recovery code is claimed at most once |
| `TwoFactor.ConsumedNeverIssues` | src/modules/auth/service/auth.service.ts:2588-2666 | a consumed challenge issues nothing, even to a request past every check |
| `TwoFactor.FailuresAtMost` | src/modules/auth/service/auth.service.ts:2588-2633 | in every run the failures counted against a challenge are at most five plus the requests that had read it when the fifth was counted |
| `TwoFactor.LimitHoldsOneAtATime` | src/modules/auth/service/auth.service.ts:2588-2633 | at most five if no two requests try the challenge at the same time |
| `TwoFactor.LoginSucceedsIff` | src/modules/auth/service/auth.service.ts:2588-2746 | a request that nothing interrupts can be issued tokens if and only if it finds the challenge unconsumed, unexpired, for a login and below the limit, and its user holds a factor that answers |
| `TwoFactor.SmsLogsIn` | src/modules/auth/service/auth.service.ts:2690-2696 | the code sent by SMS issues tokens and consumes the challenge only |
| `TwoFactor.TotpLogsIn` | src/modules/auth/service/auth.service.ts:2698-2720 | a matching TOTP code does, and its step becomes the last used one |
| `TwoFactor.RecoveryLogsIn` | src/modules/auth/service/auth.service.ts:2722-2746 | an unused recovery code does, and is used up |
| `TwoFactor.ConsumedOrigin` | src/modules/auth/service/auth.service.ts:2570-2666 | in every run a challenge that was consumed was consumed by the step that issued tokens for it, burnt, or dropped for a newer one of its user |
| `TwoFactor.BurntPastLimit` | src/modules/auth/service/auth.service.ts:2615-2633 | a challenge is burnt only after five failures |
| `TwoFactor.EveryRequestCheckedUser` | src/modules/auth/service/auth.service.ts:2604-2612 | in every run nothing is compared, spent or issued by a request before the check of its user succeeded |
| `TwoFactor.WrongCodeCosts` | src/modules/auth/service/auth.service.ts:2615-2703 | a wrong TOTP code costs one attempt and nothing else; the fifth burns the challenge |
| `TwoFactor.WrongRecoveryCosts` | src/modules/auth/service/auth.service.ts:2615-2734 | a wrong recovery code costs one attempt |
| `TwoFactor.ResendStoresHash` | src/modules/auth/service/auth.service.ts:2763-2777 | a resend changes the hash of the challenge and nothing else |
| `TwoFactor.NewChallengeIsUsable` | src/modules/auth/service/auth.service.ts:2570-2586 | a new challenge is usable, and exactly the user's older ones are consumed |
| `TwoFactor.LoginTables.LoadChallenge` | src/modules/auth/service/auth.service.ts:2588-2602 | which challenges are refused |
| `TwoFactor.LoginTables.CheckTotp` | src/modules/auth/service/auth.service.ts:2698-2703 | the verdict of verifyTotp on the stored secret, and where it leads |
| `TwoFactor.LoginTables.AdvanceLastUsedStep` | src/modules/auth/service/auth.service.ts:2705-2716 | the conditional update of the last used step |
| `TwoFactor.LoginTables.ClaimRecoveryCode` | src/modules/auth/service/auth.service.ts:2736-2743 | the conditional claim of a recovery code |
| `TwoFactor.LoginTables.FinishChallenge` | src/modules/auth/service/auth.service.ts:2653-2666 | tokens go to whoever consumes the challenge |
| `TwoFactor.LoginTables.CountFailure` | src/modules/auth/service/auth.service.ts:2615-2633 | the failure is counted, and the fifth leads to burning |
| `TwoFactor.LoginTables.BurnChallenge` | src/modules/auth/service/auth.service.ts:2627-2633 | the challenge is consumed |
| `TwoFactor.LoginTables.DropOlderChallenges` | src/modules/auth/service/auth.service.ts:2570-2574 | exactly the user's open challenges are consumed |
| `TwoFactor.LoginTables.StoreSmsHash` | src/modules/auth/service/auth.service.ts:2763-2777 | only the challenge's SMS hash changes |
| `Otp.OnlyNewestIsUsable` | src/common/utils/otp.util.ts:67-90 | every row of a user, purpose and channel but the last created one is used |
| `Otp.CooldownHoldsUnlessTied` | src/common/utils/otp.util.ts:171-189 | a row can be created while the newest is unused and young if and only if an older row carries the same time |
| `Otp.SpacedByCooldown` | src/common/utils/otp.util.ts:67-90 | otherwise a row appears only when the newest is used or at least the cooldown old |
| `Otp.TieBreaksCooldown` | src/common/utils/otp.util.ts:171-189 | a run in which the tie happens |
| `Otp.ClaimedAtMostOnce` | src/modules/auth/service/auth.service.ts:1133-1155 | a row is claimed at most once |
| `Otp.AttemptsCountFailures` | src/modules/auth/service/auth.service.ts:1098-1103 | `attempts` equals the number of wrong codes counted, under every interleaving |
| `Otp.FailuresPastLimit` | src/modules/auth/service/auth.service.ts:1088-1103 | at the limit, exactly as many more wrong codes can be counted as there are requests that looked the row up and have not counted yet |
| `Otp.FailuresAtMost` | src/modules/auth/service/auth.service.ts:1088-1103 | in every run the wrong codes are at most the maximum plus the requests that had looked the row up when it was reached |
| `Otp.LimitHoldsOneAtATime` | src/modules/auth/service/auth.service.ts:1088-1103 | at most the maximum if no two requests try the row at the same time |
| `Otp.TwoAtOncePassTheLimit` | src/modules/auth/service/auth.service.ts:1088-1103 | a run in which two requests pass a limit of one |
| `Otp.RightCodeIsAcceptedIff` | src/modules/auth/service/auth.service.ts:1014-1166 | a request alone that presents the right code changes the password of the row's user if and only if the row is unused, unexpired and below the limit; nothing else changes but that the row is used |
| `Otp.WrongCodeOnlyCounts` | src/modules/auth/service/auth.service.ts:1088-1103 | a wrong code changes nothing but the row's count |
| `Otp.IssuedCodeWorks` | src/common/utils/otp.util.ts:67-90 | outside a cooldown a new row is issued, exactly the older ones of its key are used, and the new code is accepted |
| `Otp.CooldownAnswersOld` | src/common/utils/otp.util.ts:171-189 | within a cooldown the row that is cooling is the answer and nothing changes |
| `Otp.PasswordChangesOnlyByClaim` | src/modules/auth/service/auth.service.ts:1133-1166 | a password changes only with the claim of an unused, unexpired row of that user with fewer than the maximum of wrong codes |
| `Otp.ClaimsAreChecked` | src/modules/auth/service/auth.service.ts:1014-1131 | a claim is only attempted after a lookup that found the row in order and a comparison in which the code was right |
| `Otp.OneChangePerRow` | src/modules/auth/service/auth.service.ts:1581-1607 | each password change spends a row of its own |
| `Otp.OtpTable.FindCooldownOtp` | src/common/utils/otp.util.ts:171-189 | the row if it is unused and younger than the cooldown |
| `Otp.OtpTable.IssueInTransaction` | src/common/utils/otp.util.ts:67-90 | the row reused, or the older ones used and a new one created |
| `Otp.OtpTable.LookupRow` | src/modules/auth/service/auth.service.ts:1014-1094 | which rows are refused before the code is compared |
| `Otp.OtpTable.CountWrongCode` | src/modules/auth/service/auth.service.ts:1098-1103 | one more attempt on that row only |
| `Otp.OtpTable.ClaimInTransaction` | src/modules/auth/service/auth.service.ts:1133-1160 | the claim and the new password, or neither |
| `MediaScan.LeaseSpacesClaims` | src/infrastructure/clamav/media-scan.service.ts:61-71 | two claims succeed within five minutes only if the lock was cleared in between |
| `MediaScan.ClaimsExclude` | src/infrastructure/clamav/media-scan.service.ts:61-99 | if passes end within their leases, a claim succeeds only after every earlier claimant released, ended or began recordFailure |
| `MediaScan.FinalStatusStays` | src/infrastructure/clamav/media-scan.service.ts:77-99 | if no claim succeeds while an earlier pass is active, a final status is never replaced |
| `MediaScan.OverwriteIffOverlap` | src/infrastructure/clamav/media-scan.service.ts:91-99 | a claim makes a final status replaceable if and only if it splits a recordFailure |
| `MediaScan.OverlapHappens` | src/infrastructure/clamav/media-scan.service.ts:91-99 | a run in which it does |
| `MediaScan.PassesAfterExpiry` | src/modules/media/service/media-scan.worker.ts:48-74 | for every run, whatever calls fail: past its expiry a row is claimed at most as often as failures are left before the limit, plus once for each claim made while an earlier pass was active and each lost update of recordFailure |
| `MediaScan.AtMostTheLimitRemain` | src/modules/media/service/media-scan.worker.ts:48-74 | so at most maxAttempts passes remain if no claim is shared and recordFailure's own updates succeed |
| `MediaScan.SharedIffOverlap` | src/infrastructure/clamav/media-scan.service.ts:61-99 | among passes that end within their leases a claim is shared if and only if it splits a recordFailure |
| `MediaScan.SplitRecordCostsAPass` | src/infrastructure/clamav/media-scan.service.ts:91-99 | a run in which a split recordFailure costs a pass |
| `MediaScan.LostRecordCostsAPass` | src/modules/media/service/media-scan.worker.ts:69-73 | a run in which a lost first update does |
| `MediaScan.LostFailedCostsAPass` | src/modules/media/service/media-scan.worker.ts:69-73 | a run in which a lost second update does |
| `MediaScan.PassesActOnEvidence` | src/modules/media/service/media-scan.worker.ts:48-95 | clean only after a clean scan, blocked only as infected or too large, removed only if missing past its date, released only if missing before |
| `MediaScan.StatusChangesByCall` | src/infrastructure/clamav/media-scan.service.ts:77-103 | nothing else changes the status or removes the row |
| `MediaScan.StatusIsTrue` | src/modules/media/service/media-scan.worker.ts:48-95 | in every run a row is CLEAN only after a clean scan, INFECTED only after an infected one, REJECTED only after an object too large |
| `MediaScan.StatusHasCause` | src/modules/media/service/media-scan.worker.ts:48-95 | every status but PENDING was set by a step of a pass that says so |
| `MediaScan.BlockedAfterDeletion` | src/modules/media/service/media-scan.worker.ts:85-91 | the object is deleted before its row is marked |
| `MediaScan.AttemptsAreRecorded` | src/modules/media/service/media-scan.worker.ts:69-73 | `attempts` counts exactly the failures that were recorded |
| `MediaScan.FailedAtLimit` | src/modules/media/service/media-scan.worker.ts:69-73 | a row is FAILED only when at least the maximum of failures was recorded |
| `MediaScan.PassAlone` | src/modules/media/service/media-scan.worker.ts:48-91 | a pass that nothing interrupts claims a pending row that is unlocked or locked for more than five minutes and leaves exactly what it found out |
| `MediaScan.TroubleIsRecorded` | src/modules/media/service/media-scan.worker.ts:69-73 | a failed call leaves the row alone and costs one attempt |
| `MediaScan.FailingWrites` | src/modules/media/service/media-scan.worker.ts:69-73 | the second update of a failure past the limit writes FAILED only |
| `MediaScan.NoClaimNoPass` | src/modules/media/service/media-scan.worker.ts:36-38 | a row that is locked or not pending is left alone |
| `MediaScan.ScanRow.ClaimRow` | src/infrastructure/clamav/media-scan.service.ts:61-71 | the conditional update of the lock |
| `MediaScan.ScanRow.ObjectStatted` | src/modules/media/service/media-scan.worker.ts:50-62 | missing and expired, missing, too large, present or failed |
| `MediaScan.ScanRow.CountFailure` | src/infrastructure/clamav/media-scan.service.ts:91-95 | the first update of recordFailure, lock cleared |
| `MediaScan.ScanRow.SetFailed` | src/infrastructure/clamav/media-scan.service.ts:96-98 | the second update |
| `MediaScan.ScanRow.MarkClean` | src/infrastructure/clamav/media-scan.service.ts:77-82 | the unconditional update to CLEAN |
| `MediaScan.ScanRow.MarkBlocked` | src/infrastructure/clamav/media-scan.service.ts:84-89 | the unconditional update to INFECTED or REJECTED |
| `MediaScan.ScanRow.Release` | src/infrastructure/clamav/media-scan.service.ts:73-75 | the lock is cleared and nothing else changes |
| `MediaScan.ScanRow.Remove` | src/infrastructure/clamav/media-scan.service.ts:101-103 | the row is gone |
| `RoleRequests.NeverPendingAgain` | src/modules/auth/service/role.service.ts:937-1358 | a request leaves PENDING at most once and never changes whom it is about |
| `RoleRequests.GrantIsTheRequest` | src/modules/auth/service/role.service.ts:1300-1318 | a grant is the pending request's own, decided by someone other than the requester |
| `RoleRequests.GrantsAtMostOnce` | src/modules/auth/service/role.service.ts:1300-1318 | a request grants its role at most once |
| `RoleRequests.DecidedByAnother` | src/modules/auth/service/role.service.ts:1229-1318 | an approved or rejected request names a reviewer other than its requester |
| `RoleRequests.GrantsAreReviewed` | src/modules/auth/service/role.service.ts:1212-1298 | an approval that reaches its transaction was asked for by its actor on a pending request before its date |
| `RoleRequests.ExpiredOnlyPastItsDate` | src/modules/auth/service/role.service.ts:1250-1346 | a request is EXPIRED only past its date |
| `RoleRequests.FinalUnlessExpiring` | src/modules/auth/service/role.service.ts:1250-1256 | a decided request can change if and only if it is not EXPIRED and a reviewer's unconditional expiry is outstanding |
| `RoleRequests.DecidedStays` | src/modules/auth/service/role.service.ts:1246-1346 | once a request is decided and no such expiry of it is outstanding, its status never changes again in any run |
| `RoleRequests.StatusHasCause` | src/modules/auth/service/role.service.ts:937-1346 | in every run APPROVED came with the grant, REJECTED with the rejection by the reviewer named, CANCELLED with the archiving of the role, EXPIRED with one of the two expiry updates |
| `RoleRequests.ApprovedByReview` | src/modules/auth/service/role.service.ts:1212-1318 | an APPROVED request was read as pending before its date and approved by the reviewer it names, and granted |
| `RoleRequests.RejectedByReview` | src/modules/auth/service/role.service.ts:1212-1276 | a REJECTED request was read as pending before its date and rejected with a note by the reviewer it names |
| `RoleRequests.RequestAlone` | src/modules/auth/service/role.service.ts:1153-1189 | a request that nothing interrupts expires what is stale and creates one pending request unless one is left |
| `RoleRequests.ApprovalAlone` | src/modules/auth/service/role.service.ts:1212-1318 | an approval that nothing interrupts gives the target the role and marks the request |
| `RoleRequests.RejectionAlone` | src/modules/auth/service/role.service.ts:1264-1276 | a rejection marks the request and gives no role |
| `RoleRequests.ReviewRefusedIff` | src/modules/auth/service/role.service.ts:1212-1268 | exactly which reviews end at once, and which only expire the request |
| `RoleRequests.ArchiveCancels` | src/modules/auth/service/role.service.ts:937-946 | archiving cancels exactly the pending requests of the role |
| `RoleRequests.ApprovedThenExpired` | src/modules/auth/service/role.service.ts:1250-1256 | a run in which an approved and granted request turns EXPIRED |
| `RoleRequests.CheckHoldsUnlessOverlap` | src/modules/auth/service/role.service.ts:1172-1189 | after the check has passed, two pending requests for the role and target can come about without a further check if and only if another handler for them is between its check and its create |
| `RoleRequests.OnePendingUnlessOverlap` | src/modules/auth/service/role.service.ts:1172-1189 | in every run without such an overlap at most one request for a role and target is pending |
| `RoleRequests.TwoPendingRequests` | src/modules/auth/service/role.service.ts:1172-1189 | a run in which two are |
| `RoleRequests.RequestTable.CancelPending` | src/modules/auth/service/role.service.ts:943-946 | exactly the role's pending requests are cancelled |
| `RoleRequests.RequestTable.ExpireStale` | src/modules/auth/service/role.service.ts:1343-1346 | exactly those of the snapshot that are still pending expire |
| `RoleRequests.RequestTable.BeginReview` | src/modules/auth/service/role.service.ts:1212-1262 | the checks of a review and where each leads |
| `RoleRequests.RequestTable.ExpireReviewed` | src/modules/auth/service/role.service.ts:1250-1256 | the unconditional update to EXPIRED |
| `RoleRequests.RequestTable.RejectRequest` | src/modules/auth/service/role.service.ts:1264-1276 | the conditional rejection |
| `RoleRequests.RequestTable.ApproveInTransaction` | src/modules/auth/service/role.service.ts:1300-1318 | claim and grant together, or neither |
| `RoleRequests.RequestTable.CreateRequest` | src/modules/auth/service/role.service.ts:1181-1189 | a new pending request with its date |
| `TemporaryGrants.GrantsMatchRoles` | src/modules/auth/service/role.service.ts:1363-1438 | an active row means its user holds its role and is the only such row, for as long as and exactly until the expiry job ends a grant twice or another service takes a granted role |
| `TemporaryGrants.ExpiredOnlyPastTheirDate` | src/modules/auth/service/role.service.ts:1421-1438 | the expiry job ends a grant only past its date |
| `TemporaryGrants.ExpiryKeepsIffSoleGrant` | src/modules/auth/service/role.service.ts:1431-1438 | one expiry keeps this if and only if no other row of its user and role is active |
| `TemporaryGrants.NewGrantLosesItsRole` | src/modules/auth/service/role.service.ts:1421-1438 | a run in which it does not |
| `TemporaryGrants.StrippedIffAllThreatened` | src/modules/auth/service/role.service.ts:1067-1098 | in every reachable state the handlers in progress can leave a user without a role if and only if each held role is about to be taken by one of them |
| `TemporaryGrants.RemovalCanStripIff` | src/modules/auth/service/role.service.ts:1067-1098 | for a removal past its check: if and only if another handler is about to take each other role |
| `TemporaryGrants.UndisturbedRemovalKeepsARole` | src/modules/auth/service/role.service.ts:1041-1098 | a removal leaves a role in every run in which nothing else takes a role of the user between its check and its transaction |
| `TemporaryGrants.ExpiryTakesLastRole` | src/modules/auth/service/role.service.ts:1041-1438 | a run without interleaving in which the expiry job takes the last role |
| `TemporaryGrants.WholeRemovalKeepsARole` | src/modules/auth/service/role.service.ts:1067-1098 | run as a whole, removeFromUser never takes the last role |
| `TemporaryGrants.TwoRemovalsLeaveNone` | src/modules/auth/service/role.service.ts:1067-1098 | two interleaved removals do |
| `TemporaryGrants.SweepEndsTheDue` | src/modules/auth/service/role.service.ts:1421-1459 | a whole expiry job ends exactly the due rows whose transactions succeed, takes exactly their roles, and keeps rows and roles matched |
| `TemporaryGrants.RolesChangeByCause` | src/modules/auth/service/role.service.ts:1067-1438 | a role comes to a user only by an assignment or another service, and goes only by a removal, an expiry or another service |
| `TemporaryGrants.EndedGrantHasCause` | src/modules/auth/service/role.service.ts:1092-1438 | in every run a REVOKED grant was ended by a removal of its role, an EXPIRED one by the expiry job |
| `TemporaryGrants.AssignmentAlone` | src/modules/auth/service/role.service.ts:1394-1402 | an assignment that nothing interrupts gives the role and records its end if and only if the user lacks the role and the end lies ahead |
| `TemporaryGrants.RemovalAlone` | src/modules/auth/service/role.service.ts:1067-1098 | a removal that nothing interrupts takes the role and ends exactly its active grants if and only if the user holds the role and another one |
| `TemporaryGrants.ExpiryAlone` | src/modules/auth/service/role.service.ts:1421-1438 | the expiry of a due grant takes its role and marks it |
| `TemporaryGrants.GrantTable.AssignInTransaction` | src/modules/auth/service/role.service.ts:1394-1402 | role and row together, or neither |
| `TemporaryGrants.GrantTable.ChangeRole` | src/modules/auth/service/admin-auth.service.ts:465-470 | another service writes the role and leaves the grants alone |
| `TemporaryGrants.GrantTable.RemoveInTransaction` | src/modules/auth/service/role.service.ts:1092-1098 | the role goes and its active rows are revoked, or neither |
| `TemporaryGrants.GrantTable.ExpireTemporary` | src/modules/auth/service/role.service.ts:1421-1459 | the loop does what the whole job is specified to do and counts its successes |
| `CronLock.RunsAreSpaced` | src/infrastructure/redis/cron-lock.service.ts:21-42 | two runs that take the lock start at least its time to live apart unless the earlier one failed |
| `CronLock.OnlyOwnReleaseUnlocks` | src/infrastructure/redis/cron-lock.service.ts:5-8 | a release never removes another run's lock |
| `CronLock.SecondComerSkips` | src/infrastructure/redis/cron-lock.service.ts:27-33 | an attempt during the time to live does not run the job |
| `CronLock.AtMostOneRuns` | src/infrastructure/redis/cron-lock.service.ts:21-42 | if no job outlives its lock, at most one run is executing it |
| `CronLock.StartsIff` | src/infrastructure/redis/cron-lock.service.ts:25-33 | an attempt runs the job unless a lock is in force, and also without Redis |
| `CronLock.LockHasCause` | src/infrastructure/redis/cron-lock.service.ts:25-33 | in every run a lock was taken by the run it names, for its time to live |
| `CronLock.FailureFreesLock` | src/infrastructure/redis/cron-lock.service.ts:35-41 | a failed job gives its lock up, a successful one keeps it |
| `CronLock.JobLock.TryStart` | src/infrastructure/redis/cron-lock.service.ts:25-33 | lock taken, skipped, or run without Redis |
| `CronLock.JobLock.ReleaseLock` | src/infrastructure/redis/cron-lock.service.ts:38-41 | deletes the key only if it holds the run's token |
| `FilterParser.GroupsAreTyped` | src/common/fetch-query/fetch-query.parser.ts:11-57 | whatever the text, every parsed condition has a value that suits its operator |
| `FilterParser.FilterRoundTrip` | src/common/fetch-query/fetch-query.parser.ts:5-58 | every filter can be written down and is read back unchanged, except one empty group alone |
| `FilterParser.RefusedIff` | src/common/fetch-query/fetch-query.parser.ts:15-45 | exactly which conditions are refused |
| `FilterWhere.ConditionMeansWhatItAsks` | src/common/fetch-query/fetch-query.helper.ts:48-104 | the engine answers one condition as it asks, for every row, if and only if it has a value and its column is a column of the schema whose type takes the test |
| `FilterWhere.WhereMeansTheFilter` | src/common/fetch-query/fetch-query.helper.ts:26-46 | if that holds of every condition, the engine answers the compiled filter and selects a row exactly when every non-empty group has a condition that holds |
| `FilterWhere.FilterIsReadByConditions` | src/common/fetch-query/fetch-query.helper.ts:26-46 | for every filter: it is refused if and only if one of its conditions by itself is, and otherwise selects by its conditions |
| `FilterWhere.RefusedIffNotTaken` | src/common/fetch-query/fetch-query.parser.ts:31-52 | every condition that can be written down on a column of the schema is parsed and compiled, and if it has a value is refused if and only if the column does not take the test |
| `FilterWhere.UnreadableIsRefused` | src/common/fetch-query/fetch-query.parser.ts:31 | text that the column's type cannot be read from is parsed, compiled and refused |
| `FilterWhere.RoleFlagTakesNoText` | src/modules/auth/service/role.service.ts:128-136 | `isProtected:eq:true` on roles is parsed, compiled and refused |
| `FilterWhere.RequiredColumnTakesNoNull` | src/common/fetch-query/fetch-query.parser.ts:47-50 | so are `isnull` and `notnull` on a column that is never null |
| `FilterWhere.NoValueMatchesEveryRow` | src/common/fetch-query/fetch-query.parser.ts:31 | a condition without a value is parsed and compiled and then matches every row |
| `FilterWhere.NotBelowAColumnNegates` | src/common/fetch-query/fetch-query.helper.ts:50-60 | a column part `not` below a column turns the answer round, an unknown one excepted |
| `FilterWhere.OperatorsKeepTheirMeaning` | src/common/fetch-query/fetch-query.helper.ts:61-103 | every operator name the parser takes compiles to a test that passes when what the name says holds, with the names reduced to equal, less and greater; an inherited name means equality |
| `FilterWhere.NestedReaches` | src/common/fetch-query/fetch-query.helper.ts:50-60 | following the column's parts reaches the test if and only if no part is `__proto__` |
| `FilterWhere.ParsedFiltersCompile` | src/common/fetch-query/fetch-query.helper.ts:61-104 | compiling never throws on what the parser returns |
| `FilterWhere.EmptyFilterSelectsAll` | src/common/fetch-query/fetch-query.helper.ts:37-39 | a filter without conditions is the empty object and selects every row |
| `FilterWhere.BuildNested` | src/common/fetch-query/fetch-query.helper.ts:50-60 | the loop over a moving object builds that nesting out of new objects |
| `Redaction.RedactedIsSafe` | src/common/utils/audit-redaction.ts:20-40 | no secret key keeps its value, no secret text and no buffer is left, nothing lies too deep |
| `Redaction.AuditValuesAreSafe` | src/common/utils/audit-redaction.ts:5-40 | with the keys and signatures of the audit log: for every value, dates included |
| `Redaction.RedactionIsIdempotent` | src/common/utils/audit-redaction.ts:20-40 | redacting twice is redacting once, and a value is unchanged if and only if it was safe |
| `Redaction.ScalarSurvivesIff` | src/common/utils/audit-redaction.ts:20-40 | exactly which scalars survive |
| `Redaction.LeafBecomes` | src/common/utils/audit-redaction.ts:20-40 | what is kept is kept as it was: dates as their text, secret texts and buffers as the placeholder, everything else unchanged |
| `Redaction.TooDeepIsMarked` | src/common/utils/audit-redaction.ts:20-40 | below the depth limit there is the placeholder, except for what was missing |
| `Redaction.RedactObject` | src/common/utils/audit-redaction.ts:33-37 | the loop over the entries computes the redacted object |

## Left out

- Transactions are atomic here. Phantom rows between the statements of a transaction under READ COMMITTED isolation are not modelled.
- One process is one FIFO connection to Redis: the effect of a command and its acknowledgement are one step, in which the command may also have been applied although it failed.
- A purge deletes cached entries one by one at any time, like evictions; `EntityCache` does not use that a purge which succeeded has deleted all of them.
- Eviction of generation and version keys by Redis before their time is not modelled; eviction of entries is.
- The legacy `get` and `set` writers guarded by tombstones, taxonomy entries and `wrapStats` are time-limited only and are not mixed with the `wrap` path.
- A factory that returns null or undefined is a flight that stores nothing; a mutation of the shared result by a caller is not modelled.
- `ListCache` lets a call bypass the cache at will, which covers the queue check and an unreadable version; all lists of one run share one ttl.
- The jitter is computed in real numbers, without the rounding of binary floating point; so is the time step of a code.
- Calls that the code makes to the in-memory fallback of the rate limiter are not modelled.
- The audit log holds chained rows only; rows without a sequence number are corrected but take no part in the chain. The dry run writes nothing and is not modelled.
- White space and letter case are those of ASCII in `Base32`, `FilterParser` and `Redaction`; normalisation of other scripts is not modelled.
- `twoFactorStepUp`, enrolment, disabling and the regeneration of recovery codes write the last used step or the codes without conditions and are not events of `TwoFactor`; nor is the account lockout.
- The reads of `issueTwoFactorChallenge` before its two writes only decide whether and with which methods a challenge is offered; they are not steps of `TwoFactor`.
- The Redis fast path of the OTP cooldown returns an id and writes no row; resend limits, e-mail and SMS are not modelled. Promotion and e-mail change tokens are issued elsewhere.
- `registerClean` sets CLEAN unconditionally and is not an event of `MediaScan`; the batch of ten and the `running` flag of the worker only choose which rows are tried.
- Permission checks, staff checks and duty conflicts before a role request are one nondeterministic answer; other services that write `userRole` rows are the event Change.
- The engine's reading of a condition object follows its documented operators for where-conditions. Columns that hold JSON or lists of scalars are not columns of a schema here; the reading of a negated empty object, which differs between versions, and that of a negation inside a related record are left to the row. Which texts are a date and time or a decimal number are parameters.
- `buildFindManyArgs` beyond its condition (paging, selection, ordering), `parseSort` and `parseFields` are plain mappings.
- Own keys named `__proto__` of a redacted object, and the reordering of integer-like keys, are not modelled.
- Cryptography, token signing, SMTP, SMS, object storage, the virus scanner, push messages and payments are not part of this model.
