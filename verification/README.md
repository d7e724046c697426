# PDFly protocols, modelled and proved in Dafny

PDFly renders HTML to PDF as a web service. Its hard logic is a set of small stateful protocols over
Redis, Postgres, object storage and a pool of browsers. This project models those protocols as
explicit states with atomic steps, lets any number of actors interleave, and proves what every run
keeps. `dafny verify dfyconfig.toml` checks everything.

Each protocol has a state datatype, a `Step` function with one event per atomic command (a Lua script,
a MULTI, an SQL statement, a storage call, or the JavaScript between two awaits), invariants over all
runs of `Step`, and a class whose methods are the source's operations. A method of one command is
proved against `Step`; a method of several is proved against a specification of its whole effect, and
a lemma shows that effect to be a run of `Step`. The retention sweep has its own specification, one
sweep over a fixed set of failing objects; each of its batches is a run of the deletion protocol.

| file | what it models |
|---|---|
| `BrowserPool.dfy` | the renderer's fixed pool of browser processes: slots, FIFO waiters, timers, recycling |
| `UsageMetering.dfy` | usage counters on their way from Redis hash to database row, and the daily figure |
| `RefreshTokens.dfy` | refresh-token families: rotation, grace window, reuse detection, the user index |
| `BrowserSession.dfy` | one browser tab that shares a single refresh exchange, against those families |
| `SlidingWindow.dfy` | the rate limiter's trimmed and expiring sorted set, against the full history |
| `DocumentPages.dfy` | keyset pagination as a walk over a table that changes between requests |
| `Retention.dfy` | one retention sweep: bounded batches with partial failure |
| `Deletion.dfy` | any number of sweeps, deletes and renders interleaved over rows and objects |
| `RenderJobs.dfy` | asynchronous renders with one-shot secrets, and the render pipeline |
| `Idempotency.dfy` | idempotency keys: claim in two commands, fulfil, release |
| `PageSelection.dfy` | the page-selection parser |
| `Watermarking.dfy` | which pages a watermark is stamped on, and the file a request is entitled to |
| `CurlSnippet.dfy` | the curl printer, against a POSIX shell reader and a JSON tokenizer |
| `Doubles.dfy` | reading a numeral as a double, rounding to the nearest |
| `Common.dfy` | optional values, order-keeping filters over sequences, ceiling division |

## Assumptions

- A Redis, SQL or storage command that fails has no effect, with one exception: an enqueue may report
  failure although the job landed (`Enqueue` with `landed`).
- Time is one clock that never goes back. Expiry is exact and the remaining time to live of a live key
  is read exactly, so line 76 of the rotation script never needs its fallback.
- Secrets, family ids, secret handles and document ids are fresh when drawn; sha256 and storage keys
  are injective; the members of the rate limiter's sorted set are unique.
- The browser pool has been started before the first acquire and is not being stopped.
- A PDF is its page count, the pages that were stamped, whether it was encrypted, and whether it was
  spoiled by stamping after encryption.
- A document whose render is in flight is not targeted by a sweep or a delete. One whose render failed,
  or died with its process, is.
- A page count fits an array, so it is below 2^32.
- Failures, expiries, answers of `ps`, SPOP's choice and tie orders are arbitrary. They are events or
  parameters of the model.

## Where the code does less than its comments say

The model follows the code. The lemma named in each line states what the code does: on a concrete
run, or exactly when it meets the property.

- `usage.service.ts:116-122`: the comment says a failed flush is retried at the next tick. After a
  failed *upsert* only the dirty mark comes back; the drained hash was already deleted, so its amount
  is lost (`FailedUpsertLosesTheSlice`), as is the slice in hand of a flusher that dies; nothing else
  is (`LostExactly`, `CatchUpIsCompleteIff`). If re-marking fails after a failed drain
  (`FailedRestoreHidesTheHash`), or the flusher dies with entries on its list (`DeathHidesOrLoses`),
  the hash stays but no flush finds it until the next record of that day, or a failed upsert of a
  slice drained before (`HidesExactly`).
- `usage.service.ts:157-159`: the series is one entry per day of the range exactly when no database
  row is dated after today (`SeriesIsDense`); one row of tomorrow makes it one entry longer
  (`RowOfTomorrowLengthensTheSeries`).
- `refresh-token.service.ts:214-226`: ending every session is two commands. A family is missing from
  its user's index exactly when such a revocation read the index before that family was issued and
  deleted it afterwards (`IndexCoversLiveFamilies`); a login in between survives this revocation and
  the next (`LoginDuringRevokeAllSurvives`). Everything said about rotation holds in such runs too.
- `idempotency.service.ts:66-68`: the comment explains the missing value by expiry. A release between
  the two commands leads there as well (`GetFindsNothingIff`), and then two renders of one key overlap
  without any expiry (`ReleaseOpensTheWindow`).
- `render.pipeline.ts:119-120, 134-135, 152-158` with `watermark.service.ts:39-44`: the row's two flags
  ask whether a field is present. The file steps ask whether it is truthy, validation lets both fields
  be null, and a watermark whose page list names no page of the file leaves it untouched. A null
  protection makes `isEncrypted` wrong on the synchronous path (`NullFieldsMisreport`). A null watermark
  makes `hasWatermark` wrong, and so does a list that names no page (`UnnamedPagesMisreport`). Nothing
  else makes either flag of a completed row wrong (`ProtectionIsNeverDowngraded`, both directions).
- `render.pipeline.ts:160-207` with `documents.service.ts:121-126` and `retention.service.ts:91-114`:
  when the object is stored and the row is not completed, because the update fails or the process
  dies, the row has no storage key, and deleting the document leaves the object with nothing pointing
  at it (`UnfinishedRenderOrphans`). Objects lose their rows in no other way (`OrphansExactly`,
  `RemoveOrphansIff`).
- `page-selection.ts:30-40`: numbers are read as doubles, so a reversed range is accepted when its two
  ends round to the same number, which takes numbers beyond 2^53 (`ReversedRangeIsAccepted`).
- `browser-pool.ts:171-177`: a relaunch that throws leaves its slot busy for ever (`StrandedForEver`).
- `curl-snippet.tsx:25`: `$PDFLY_TOKEN` stands inside single quotes, so the shell passes the name of
  the variable on and not its value (`CommandReads`).

## Model

| member | source | states |
|---|---|---|
| `BrowserPools.PoolIsSafe` | apps/renderer/src/browser-pool.ts:102-181 | After any events in any order from the start: a slot is busy exactly when some call holds it, never two; every acquire promise that no longer waits was settled exactly once; no process was given more than POOL_MAX_JOBS_PER_BROWSER jobs |
| `BrowserPools.GrantsAreFifo` | apps/renderer/src/browser-pool.ts:113-161 | Over every run: a queued call implies every slot is busy, and the calls that did not time out are granted, or still queued, in exactly the order they were made |
| `BrowserPools.WaitIsBounded` | apps/renderer/src/browser-pool.ts:142-161 | A call at queue position k that does not time out has been granted a slot once k + 1 releases have completed, whatever else happens |
| `BrowserPools.StrandedForEver` | apps/renderer/src/browser-pool.ts:171-177 | A slot whose relaunch threw stays held by that call in every later state, serving nobody |
| `BrowserPools.KeptProcessesAreFit` | apps/renderer/src/browser-pool.ts:142-169 | Over every run: a release that completes without a relaunch left a process that was connected, below its memory limit if there was a reading, and had run fewer than maxJobs jobs |
| `BrowserPools.FitProcessesAreKept` | apps/renderer/src/browser-pool.ts:142-169 | Conversely such a process is never replaced in that release, whose next step completes it |
| `BrowserPools.StepKeepsInv` | apps/renderer/src/browser-pool.ts:102-181 | Ownership, queue discipline, single settlement, grant order and process wear are kept by every single event |
| `BrowserPools.WaiterAdvances` | apps/renderer/src/browser-pool.ts:121-161 | A queued call only moves forward, by at least one position for each completed release, until it is granted |
| `BrowserPools.FirstFree` | apps/renderer/src/browser-pool.ts:114 | The first idle slot, or none exactly when all are busy |
| `BrowserPools.BrowserPool.constructor` | apps/renderer/src/browser-pool.ts:78-84 | The started pool: one idle process per slot, nobody waiting |
| `BrowserPools.BrowserPool.Acquire` | apps/renderer/src/browser-pool.ts:113-140 | Grants the first idle slot at once, or joins the end of the queue with a timer; the whole new pool is the protocol's step |
| `BrowserPools.BrowserPool.OnTimer` | apps/renderer/src/browser-pool.ts:122-131 | Takes just that waiter out of the queue and rejects it, and nothing else |
| `BrowserPools.BrowserPool.Give` | apps/renderer/src/browser-pool.ts:133-136 | Settles one promise with the slot, which stays busy, and clears its timer |
| `BrowserPools.BrowserPool.EndJob` | apps/renderer/src/browser-pool.ts:107-109 | Counts the job on its slot and fixes the verdict, which keeps exactly the processes that are fit (`KeptProcessesAreFit`, `FitProcessesAreKept`) |
| `BrowserPools.BrowserPool.OnVerdict` | apps/renderer/src/browser-pool.ts:142-145 | Starts a relaunch or completes the release in the same stretch |
| `BrowserPools.BrowserPool.OnLaunch` | apps/renderer/src/browser-pool.ts:171-177 | A new process takes the slot over with no jobs on its count, or the slot is stranded |
| `BrowserPools.BrowserPool.OnClosed` | apps/renderer/src/browser-pool.ts:179-181 | The release goes on once the old process is closed |
| `BrowserPools.BrowserPool.FinishRelease` | apps/renderer/src/browser-pool.ts:152-161 | The slot goes straight to the oldest waiter without ever being idle, or becomes idle when nobody waits |
| `UsageMetering.MeteringConserves` | apps/api/src/usage/usage.service.ts:30-34 | Over every run of any number of recorders and flushers, dying at any point: for each day and counter, the number of renders, the sum of their pages, the sum of their bytes, or the number that failed = database row + live hash + slices in flight + slices lost; and a live hash is neither dirty nor in a flusher's list exactly when a failed re-marking or a death hid it and no event since brought it back |
| `UsageMetering.RecordedIsRendered` | apps/api/src/usage/usage.service.ts:70-93 | The record of a run is, counter by counter, what its renders report |
| `UsageMetering.Conserved` | apps/api/src/usage/usage.service.ts:70-151 | The same balance, kept from any state that has it over any run |
| `UsageMetering.HiddenOnlyByFailedRestoreOrDeath` | apps/api/src/usage/usage.service.ts:118-122 | Without a failed re-marking and without a dying flusher no run ever hides a hash |
| `UsageMetering.HidesExactly` | apps/api/src/usage/usage.service.ts:105-122 | Exactly when one step makes a hash invisible: the re-marking of its day fails, or a flusher dies that still had the day on its list, while the hash is live, not dirty and in no other list; it stays so until a record of that day, or a failed upsert of a slice of it drained before |
| `UsageMetering.HiddenExactly` | apps/api/src/usage/usage.service.ts:105-122 | The same over runs, in both directions, from any state |
| `UsageMetering.HiddenUntilFound` | apps/api/src/usage/usage.service.ts:116-122 | Until such an event a hidden hash stays hidden and unchanged in every later state |
| `UsageMetering.FailedRestoreHidesTheHash` | apps/api/src/usage/usage.service.ts:116-122 | A concrete run: one record, then a flush whose drain and whose re-marking fail; the hash is live, nothing is dirty and no flush is under way |
| `UsageMetering.LostExactly` | apps/api/src/usage/usage.service.ts:116-148 | Over every run, what is lost is exactly the sum of the slices whose upsert failed or whose flusher died with them in hand |
| `UsageMetering.LostOnlyByFailedUpsertOrDeath` | apps/api/src/usage/usage.service.ts:116-148 | Without a failed upsert and without a dying flusher nothing is lost |
| `UsageMetering.DeathHidesOrLoses` | apps/api/src/usage/usage.service.ts:105-148 | Two concrete runs: a flusher that dies after SPOP leaves the hash live and unseen, one that dies between drain and upsert loses the slice |
| `UsageMetering.FlushesDrain` | apps/api/src/usage/usage.service.ts:100-124 | n uninterrupted fault-free flushes leave max(0, dirty - 100 n) entries dirty, recorded and lost amounts untouched |
| `UsageMetering.FlushesCatchUp` | apps/api/src/usage/usage.service.ts:100-151 | ceil(dirty / 100) such flushes empty Redis and bring the database up to the recorded amount, short of exactly what was lost before |
| `UsageMetering.CatchUpIsCompleteIff` | apps/api/src/usage/usage.service.ts:100-151 | After any run that leaves the service quiet with no hash hidden, enough flushes make the database equal to the sums over that run's renders if and only if no failed upsert and no death of the run lost any of it |
| `UsageMetering.FailedUpsertLosesTheSlice` | apps/api/src/usage/usage.service.ts:116-132 | A concrete run: one record, a flush whose upsert fails and whose re-marking works, a clean flush; nothing is left anywhere and the record is lost |
| `UsageMetering.RowsOnlyGrow` | apps/api/src/usage/usage.service.ts:142-147 | No run ever lowers a counter of a database row |
| `UsageMetering.DailyNeverOvercounts` | apps/api/src/usage/usage.service.ts:162-219 | Row read first and live hash later, with any events between: the figure never exceeds the recorded amount, and equals it exactly when nothing was lost, nothing is in flight and nothing reached the row in between |
| `UsageMetering.DailyNeverExceedsTheRenders` | apps/api/src/usage/usage.service.ts:162-219 | From the empty stores, rows read at one moment and hashes at a later one: the figure of a day never exceeds what its renders add up to |
| `UsageMetering.DailyFailuresFit` | apps/api/src/pdf/render.pipeline.ts:176-212 | From the empty stores, with rows read after any run and hashes after any more events: the row, the hash and the figure made of both never show more failures than renders |
| `UsageMetering.SeriesIsDense` | apps/api/src/usage/usage.service.ts:157-190 | The series has exactly `days` consecutive dates ending today if and only if no row is dated after today |
| `UsageMetering.RowOfTomorrowLengthensTheSeries` | apps/api/src/usage/usage.service.ts:163-190 | A concrete table with one row dated tomorrow: the series has `days` + 1 entries and the last is tomorrow's |
| `UsageMetering.UsageService.RecordRender` | apps/api/src/usage/usage.service.ts:70-93 | All four counters and the dirty mark move together, for that day only |
| `UsageMetering.UsageService.PopDirty` | apps/api/src/usage/usage.service.ts:105 | Removes min(100, dirty) different entries from the dirty set and returns them, whichever they are |
| `UsageMetering.UsageService.FlushOne` | apps/api/src/usage/usage.service.ts:126-151 | Drains the hash whole and adds it to the row; on a failure the entry waits to be marked again, and a drained slice is lost |
| `UsageMetering.UsageService.Restore` | apps/api/src/usage/usage.service.ts:118-122 | Marks the entry dirty again, or leaves it unmarked when that fails, and goes on with the next |
| `UsageMetering.UsageService.Flush` | apps/api/src/usage/usage.service.ts:100-124 | A whole tick, with any faults at its entries, is the protocol's pop followed by its loop |
| `UsageMetering.UsageService.DatesFrom` | apps/api/src/usage/usage.service.ts:223-234 | The consecutive dates from `from` to today, each once and ascending, and at least `from` itself |
| `UsageMetering.UsageService.RowsByDate` | apps/api/src/usage/usage.service.ts:171-186 | A zero for every date of the range and the row's totals for every row at or after `from` |
| `UsageMetering.UsageService.MergeUnflushed` | apps/api/src/usage/usage.service.ts:193-219 | Adds to each date of the range its live hash once, removes nothing and changes no other date |
| `UsageMetering.UsageService.Series` | apps/api/src/usage/usage.service.ts:188-219 | From rows read at any earlier moment and the hashes as they are now: strictly ascending dates, each total the row read plus the live hash |
| `UsageMetering.UsageService.Daily` | apps/api/src/usage/usage.service.ts:162-191 | Both halves together: strictly ascending dates, the range and any later row; each total is its row plus its live hash |
| `RefreshTokens.VerdictByHistory` | apps/api/src/auth/refresh-token.service.ts:61-89 | The script's verdict in terms of the tokens handed out: unknown iff the family is dead, rotated iff the newest token, concurrent iff the one it replaced and inside the grace, reused iff anything else |
| `RefreshTokens.GenerationCountsTokens` | apps/api/src/auth/refresh-token.service.ts:68-72 | Over every run the generation of a live family is the number of tokens issued for it, all different |
| `RefreshTokens.EachTokenRotatesOnce` | apps/api/src/auth/refresh-token.service.ts:111-114 | Over every run any one token is answered 'rotated' at most once |
| `RefreshTokens.OneRotatesOthersConcurrent` | apps/api/src/auth/refresh-token.service.ts:45-52 | However often the current token is presented inside the grace, with nothing else happening to its family, the first presentation rotates and every other is concurrent |
| `RefreshTokens.ReuseEndsTheFamily` | apps/api/src/auth/refresh-token.service.ts:86-88 | Any token but the newest, and its predecessor inside the grace, is answered 'reused', and from then on every token of the family is unknown |
| `RefreshTokens.LogoutEndsTheFamily` | apps/api/src/auth/refresh-token.service.ts:198-208 | After a logout with any token of a family, in every later run: the family is gone, each of its tokens is unknown, and no index holds it, unless an index did although the family was already gone |
| `RefreshTokens.RevokeRemovesExactly` | apps/api/src/auth/refresh-token.service.ts:198-208 | The logout's MULTI, whatever its GET found before: that family and no other is deleted, and exactly that member leaves exactly the index of the user found |
| `RefreshTokens.UnindexRemovesExactly` | apps/api/src/auth/refresh-token.service.ts:179-183 | The removal after a reuse takes that member out of that index and touches no family and no other member |
| `RefreshTokens.DiesExactly` | apps/api/src/auth/refresh-token.service.ts:61-89 | Exactly when a step ends a live family: its expiry is reached, a token that is neither current nor in the grace is presented, it is logged out, or a revocation read it in the index and deletes it |
| `RefreshTokens.LoginLastsItsTime` | apps/api/src/auth/refresh-token.service.ts:139-153 | A login gives the family and its user's index the full time to live from now, changes no other family and no other member, and in no later run is the family live beyond that time |
| `RefreshTokens.DeadFamilyAnswersUnknown` | apps/api/src/auth/refresh-token.service.ts:63 | Once a family is gone for any reason, no run brings it back and each of its tokens is answered 'unknown' |
| `RefreshTokens.ExpiryNeverMoves` | apps/api/src/auth/refresh-token.service.ts:74-77 | No step moves a live family's expiry or changes its user |
| `RefreshTokens.IndexCoversLiveFamilies` | apps/api/src/auth/refresh-token.service.ts:134-226 | Over every run, two-command revocations and logins interleaved: a live family is in its user's index, which outlives it, if and only if no revocation read that index before the family was issued and deleted it afterwards |
| `RefreshTokens.ListingExactly` | apps/api/src/auth/refresh-token.service.ts:139-226 | The same for one step: exactly when a family that stays alive drops out of the index; none ever gets back in |
| `RefreshTokens.NoLoginNoMiss` | apps/api/src/auth/refresh-token.service.ts:210-226 | In runs where no login of a user falls between the two commands of a revocation of that user's sessions, the index misses no live family |
| `RefreshTokens.StepKeepsInv` | apps/api/src/auth/refresh-token.service.ts:61-226 | Every step keeps the records faithful to the issued tokens and the indexes and reads tidy, whatever logins and revocations interleave |
| `RefreshTokens.RevokeAllEndsEverySession` | apps/api/src/auth/refresh-token.service.ts:210-226 | Every token issued before the read, of a family the index held then, is unknown for ever once the delete is done, whatever falls between the two commands |
| `RefreshTokens.RevokeAllSparesOthers` | apps/api/src/auth/refresh-token.service.ts:214-223 | The delete changes no other user's family or index |
| `RefreshTokens.TwoStepRevokeAll` | apps/api/src/auth/refresh-token.service.ts:214-223 | The delete leaves every live family indexed if and only if every live family of the user was issued before the read |
| `RefreshTokens.LoginDuringRevokeAllSurvives` | apps/api/src/auth/refresh-token.service.ts:214-223 | A login between the two commands leaves a live family that is in no index and that a further revocation does not touch |
| `RefreshTokens.RefreshTokenService.Issue` | apps/api/src/auth/refresh-token.service.ts:139-153 | A family with its first token, and the index entry extended to outlive it, in one step |
| `RefreshTokens.RefreshTokenService.RotateScript` | apps/api/src/auth/refresh-token.service.ts:61-89 | The Lua script on one key: rewrite with the old hash kept, leave as is, or delete, and the matching answer |
| `RefreshTokens.RefreshTokenService.Rotate` | apps/api/src/auth/refresh-token.service.ts:155-196 | The verdict of the history, the protocol's step, and after a reuse the removal from the index |
| `RefreshTokens.RefreshTokenService.Revoke` | apps/api/src/auth/refresh-token.service.ts:198-208 | Logout deletes the family and takes it out of the index of the user the GET found (`LogoutEndsTheFamily`) |
| `RefreshTokens.RefreshTokenService.ReadAll` | apps/api/src/auth/refresh-token.service.ts:215 | The ids in the user's index, and nothing changes |
| `RefreshTokens.RefreshTokenService.EndAll` | apps/api/src/auth/refresh-token.service.ts:217-225 | The families read earlier and the user's index are deleted, or nothing when none were read |
| `RefreshTokens.RefreshTokenService.RevokeAllForUser` | apps/api/src/auth/refresh-token.service.ts:214-226 | Both commands with nothing in between; returns how many families were indexed |
| `BrowserSession.SingleFlightIsSafe` | apps/web/src/lib/api.ts:87-148 | A tab that refreshes only through the shared exchange is answered 'rotated' or 'unknown', never 'reused' or 'concurrent', over any callers, retries, sign-ins and events elsewhere; and nobody waits for an exchange that is not under way |
| `BrowserSession.TabIsNeverCaughtReusing` | apps/web/src/lib/api.ts:87-112 | The same from any state in which the tab's tokens are the newest of their families, which is kept |
| `BrowserSession.GoodKept` | apps/api/src/auth/auth.service.ts:163-186 | The script, the index removal after a reuse, the user lookup with its revoke, a failure of any of them, a refresh turned away, and whatever happens elsewhere in between: each keeps every token the tab holds the newest of its family, and nobody waiting in vain |
| `BrowserSession.TurnedAwayCanComeBack` | apps/api/src/auth/auth.controller.ts:53-73 | A refresh turned away before the handler neither rotates nor clears: the access token is gone, the cookie stays, and the next exchange presents it and is answered 'rotated' |
| `BrowserSession.ExchangeEndsExactly` | apps/api/src/auth/auth.service.ts:163-193 | An exchange that comes through: for a live family of an existing user the tab is signed in with the newest token of the server and all who waited send again; otherwise no cookie, no access token, no family, and nobody sends again |
| `BrowserSession.LateTabKeepsTheCookie` | apps/api/src/auth/auth.controller.ts:95-107 | A tab whose token another tab rotated within ten seconds is signed in, keeps the cookie in the jar and changes nothing on the server; if its user is gone the session ends |
| `BrowserSession.SignInStartsTheSession` | apps/api/src/auth/auth.controller.ts:46-51 | After a sign-in the tab holds the only token of a new family that lives its full time, and no other family is touched |
| `BrowserSession.SignOutEndsTheSession` | apps/api/src/auth/auth.controller.ts:75-83 | After a sign-out the tab has neither cookie nor access token, every token of its family is unknown at the end of every story, and no other family is touched |
| `BrowserSession.CallersOnlyAdvance` | apps/web/src/lib/api.ts:139-148 | A caller's progress never goes back, and every response moves it forward |
| `BrowserSession.OneRefreshOneRetry` | apps/web/src/lib/api.ts:139-148 | Over every story each caller joins at most one refresh and sends its request again at most once |
| `BrowserSession.ServedRotatedOrUnknown` | apps/api/src/auth/auth.controller.ts:57-71 | The script's verdict on what an up-to-date tab presents is 'rotated' or 'unknown' |
| `BrowserSession.ApiClient.RefreshSession` | apps/web/src/lib/api.ts:90-96 | Joins the exchange in flight unchanged, or starts one with the cookie of the moment |
| `BrowserSession.ApiClient.OnResponse` | apps/web/src/lib/api.ts:139-148 | Only a first 401 with an access token in hand joins a refresh; any other response is final |
| `BrowserSession.ApiClient.OnExchanged` | apps/web/src/lib/api.ts:98-112 | The answer sets or clears cookie and access token, and every waiting caller is released |
| `SlidingWindow.AdmittedIffRoom` | apps/api/src/ratelimit/rate-limit.service.ts:28-49 | In every run a call is admitted if and only if fewer than `limit` admissions of the whole history lie in (now - window, now], and `used` is that count |
| `SlidingWindow.NoWindowOverflows` | apps/api/src/ratelimit/rate-limit.service.ts:15-20 | In every run every half-open interval as long as the window, wherever it ends, holds at most `limit` admissions |
| `SlidingWindow.ScriptSeesTheWindow` | apps/api/src/ratelimit/rate-limit.service.ts:33-36 | The trimmed set, expired or not, is exactly the newest stretch of the history that the window counts |
| `SlidingWindow.StepKeepsInv` | apps/api/src/ratelimit/rate-limit.service.ts:28-49 | Every call keeps the set a refinement of the history, and admissions `limit` apart at least a window apart |
| `SlidingWindow.ResetIsExact` | apps/api/src/ratelimit/rate-limit.service.ts:36-42 | After a refusal with reset instant r every call before r is refused with the same r, and the first at or after r is admitted |
| `SlidingWindow.HeadersAreTight` | apps/api/src/ratelimit/rate-limit.service.ts:81-89 | For a refusal, `retryAfter` seconds reach the reset instant and one fewer does not; `resetAt` is the least whole second not before it; `remaining` is 0 |
| `SlidingWindow.VerdictByHistory` | apps/api/src/ratelimit/rate-limit.service.ts:69-90 | Every verdict, admitted or refused, in terms of the full history: `remaining` is the limit less the admissions in the window after the call; `resetAt` and `retryAfter` are tight to one second for the instant the oldest of them leaves |
| `SlidingWindow.RateLimitService.Expire` | apps/api/src/ratelimit/rate-limit.service.ts:45-46 | A key dropped when its expiry is due keeps the subject a refinement of its history, and no other subject changes |
| `SlidingWindow.SweptIsDropped` | apps/api/src/ratelimit/rate-limit.service.ts:45-46 | A call whose key was dropped at any instant since its expiry answers, and leaves, what a call does that finds no key |
| `SlidingWindow.DroppingKeepsInv` | apps/api/src/ratelimit/rate-limit.service.ts:45-46 | Once its expiry is due the set holds nothing that any later window counts |
| `SlidingWindow.RateLimitService.RunScript` | apps/api/src/ratelimit/rate-limit.service.ts:28-49 | The script on one subject's key with the limit and window of the call; every other subject keeps its set, its history and its invariant |
| `SlidingWindow.RateLimitService.Consume` | apps/api/src/ratelimit/rate-limit.service.ts:69-90 | One call, with its own limit and window: the step on its subject, admitted iff the history leaves room, the verdict with its headers, and every other subject keeps its invariant |
| `SlidingWindow.RateLimitService.ConsumeSwept` | apps/api/src/ratelimit/rate-limit.service.ts:45-89 | Redis dropping a due key and a later call of that subject are together one step of the run, and admit iff the full history leaves room |
| `DocumentPages.PageIsThePrefix` | apps/api/src/documents/documents.service.ts:56-75 | A page is the descending start of the selected rows, full unless nothing is left; it has a cursor exactly when rows are left out, and every selected row is on it or past its cursor |
| `DocumentPages.WalkDescends` | apps/api/src/documents/documents.service.ts:156-190 | Whatever happens to the table between requests, the rows of a walk come in strictly descending order, so none twice |
| `DocumentPages.WalkMissesNothing` | apps/api/src/documents/documents.service.ts:176-187 | Every row present and matching at every request of a finished walk is returned |
| `DocumentPages.WalkInventsNothing` | apps/api/src/documents/documents.service.ts:156-172 | Every row returned was present and matching at the request that returned it |
| `DocumentPages.WalkShowsOnlyTheAsked` | apps/api/src/documents/documents.service.ts:56-75 | Every row on every page of a walk was, at its request, a row of the organization that asks, with the status, source and creation times asked for and the searched text standing somewhere in its title, up to ASCII case |
| `DocumentPages.WalkShowsAllTheAsked` | apps/api/src/documents/documents.service.ts:56-75 | Conversely a row with all of that at every request of a finished walk is on one of its pages |
| `DocumentPages.OrganizationsShareNothing` | apps/api/src/documents/documents.service.ts:42-46 | Walks of two organizations, over tables in which no row changes its organization, have no row in common |
| `DocumentPages.ContainsIsSomewhere` | apps/api/src/documents/documents.service.ts:162-165 | The search finds a text exactly when it stands at some offset, letter for letter up to ASCII case |
| `DocumentPages.WalkOfAnUnchangingTable` | apps/api/src/documents/documents.service.ts:56-75 | On an unchanging table the pages together are exactly the sorted, filtered list, in max(1, ceil(n / limit)) pages |
| `DocumentPages.OrderedIsSorted` | apps/api/src/documents/documents.service.ts:64 | The query's order lists the selected rows once each, newest first, ties by greater id |
| `DocumentPages.CursorRoundTrip` | apps/api/src/documents/documents.service.ts:193-206 | A cursor decodes to the time and id it was made of if and only if the id is not empty and holds no bar |
| `Retention.RetentionService.FindExpired` | apps/api/src/retention/retention.service.ts:80-85 | Up to 200 documents whose expiry is set and not after now; a due document that is not fetched leaves a full batch in which none expired later |
| `Retention.RetentionService.DeletePdf` | apps/api/src/retention/retention.service.ts:98-99 | Removes that object and no other, or fails and removes nothing |
| `Retention.RetentionService.DeleteMany` | apps/api/src/retention/retention.service.ts:110-114 | Removes exactly the given rows and returns how many there were |
| `Retention.RetentionService.ClearObjects` | apps/api/src/retention/retention.service.ts:89-108 | What may lose its row is exactly what has no object or whose object delete worked; only those objects are gone; every document of the batch is either removable or a counted failure |
| `Retention.RetentionService.SweepBatch` | apps/api/src/retention/retention.service.ts:79-119 | One batch removes all that can be removed or at least 200 - F documents, rows and objects together, and goes on exactly when it removed something |
| `Retention.RetentionService.SweepBatches` | apps/api/src/retention/retention.service.ts:79-120 | The loop of at most 50 batches: what it removed, that it is everything removable when there are enough batches, and how often deletes failed |
| `Retention.RetentionService.Sweep` | apps/api/src/retention/retention.service.ts:76-123 | Removes only expired documents whose object is gone; with F < 200 stuck documents and at most 50 (200 - F) others it removes exactly those others, whatever the tie order, and every stuck one fails at least once; `deleted` is objects removed plus removed rows without object; `objectFailures` is at most 50 F; read off the rows: whatever it removed had an expiry not after now and its object is gone, and whatever has none or a later one is still there unchanged |
| `Retention.RetentionService.SweepTwice` | apps/api/src/retention/retention.service.ts:76-123 | A later second sweep never changes a row, removes only what is due by then, and after a first sweep that had room nothing that was due at the first |
| `Retention.BatchProgress` | apps/api/src/retention/retention.service.ts:80-119 | A batch that does not finish the removable documents still removes 200 - F of them |
| `Retention.SweepTurn` | apps/api/src/retention/retention.service.ts:79-119 | Each turn keeps the account of rows, objects and counts, and enough batches for what is left |
| `Retention.SweepEnds` | apps/api/src/retention/retention.service.ts:87-119 | Either exit of the loop leaves no removable document when there were enough batches |
| `Deletion.ObjectsKeepTheirRows` | apps/api/src/documents/documents.service.ts:113-128 | After every step of any interleaving of sweeps, deletes and renders, with any step failing or process dying: a stored object has its row if and only if no step deleted that row while it had no storage key and the object was stored; and the row points at it unless a render is in flight or ended unfinished |
| `Deletion.OrphansExactly` | apps/api/src/retention/retention.service.ts:91-115 | Exactly when one step leaves an object without its row: it deletes a row that has no storage key while the object is stored; nothing ever repairs it |
| `Deletion.OrphanedExactly` | apps/api/src/documents/documents.service.ts:113-128 | The same over runs, in both directions, from any state of the protocol |
| `Deletion.OrphansOnlyFromUnfinishedRenders` | apps/api/src/pdf/render.pipeline.ts:160-207 | If every render in flight completes its row, no object ever loses its row |
| `Deletion.UnfinishedRenderOrphans` | apps/api/src/pdf/render.pipeline.ts:160-207 | A concrete run, for a failed completion as for a process that dies: object stored, row left without key, document deleted; the object is left without a row |
| `Deletion.SoundStays` | apps/api/src/retention/retention.service.ts:89-115 | What a sweep or a delete has read stays true, whatever the others do meanwhile |
| `Deletion.RemoveIsARun` | apps/api/src/documents/documents.service.ts:113-128 | A delete request, with either command failing, is a run of the protocol's steps and leaves the rows and objects the service leaves |
| `Deletion.RemoveOrphansIff` | apps/api/src/documents/documents.service.ts:121-128 | A delete request orphans its document's object if and only if it gets to delete a row that had no storage key when it began, while the object was stored |
| `Deletion.SweepIsARun` | apps/api/src/retention/retention.service.ts:79-115 | One uninterrupted batch of the sweep, with any object deletes failing, is a run of the protocol and leaves the rows and objects that `RetentionService.SweepBatch` leaves |
| `Deletion.RenderCompletes` | apps/api/src/pdf/render.pipeline.ts:160-174 | A render that comes through, a first or a later one, leaves the object, a row that points at it and no render in flight |
| `Deletion.RenderedThenRemoved` | apps/api/src/documents/documents.service.ts:113-128 | A delete request after such a render takes row and object away and nothing else |
| `Deletion.DocumentsService.Remove` | apps/api/src/documents/documents.service.ts:113-140 | Only the organization's own row is found; object first, row second, audit entry last; a failure before the row goes leaves the row, a failure after it leaves no entry; nothing changes unless the row is that organization's, and no other row ever does |
| `RenderJobs.ProtectionIsNeverDowngraded` | apps/api/src/pdf/render.pipeline.ts:112-174 | Over every run of submissions, failed enqueues, retries, replays, expiries and crashes: each stored object is encrypted iff protection was given, stamped on exactly the pages its watermark's list resolves to in a file of that many pages, and never stamped after encryption; of a completed row, `hasWatermark` is true of its object iff no watermark was sent or one was given whose list names a page of it, and `isEncrypted` iff the request was queued or its protection was not null |
| `RenderJobs.NullFieldsMisreport` | apps/api/src/pdf/render.pipeline.ts:124-158 | A concrete run: a synchronous request with both fields null completes with both flags set over a plain object |
| `RenderJobs.UnnamedPagesMisreport` | apps/api/src/pdf/render.pipeline.ts:134-154 | A concrete run: a watermark for page 9 of a document of three pages completes with `hasWatermark` set over an object without a stamp |
| `RenderJobs.SecretsAreOneShot` | apps/api/src/queue/secrets.vault.ts:40-72 | Over every run each secret is taken at most once and a request that gave protection enters the pipeline at most once |
| `RenderJobs.StepKeepsInv` | apps/api/src/queue/render.worker.ts:70-91 | Jobs, runners, objects, rows and secrets stay faithful to the requests under every single event, whatever page count the renderer returns |
| `RenderJobs.PipelineIsARun` | apps/api/src/pdf/render.pipeline.ts:112-215 | The pipeline, wherever it fails, at its first update or at a row that is gone too, is a run of the protocol's steps, with the row, object and runner it leaves |
| `RenderJobs.ProcessIsARun` | apps/api/src/queue/render.worker.ts:70-91 | One attempt of the worker is a run of the protocol's steps: the take, then the pipeline unless the secret is gone |
| `RenderJobs.SubmissionIsARun` | apps/api/src/queue/async-render.controller.ts:50-70 | A submission is a run of the protocol's steps, with the discard at the end exactly when the enqueue failed |
| `RenderJobs.AcceptedRequestCompletes` | apps/api/src/queue/render.worker.ts:70-91 | Any accepted request that a worker takes while its secret is there, and that meets no fault, completes over exactly the file it is entitled to; the vault and the workers are as before |
| `RenderJobs.UnaskedStepsCannotFail` | apps/api/src/pdf/render.pipeline.ts:152-158 | Without a watermark stamping cannot fail a render, without protection encryption cannot |
| `RenderJobs.RenderService.StoreSecret` | apps/api/src/queue/secrets.vault.ts:40-53 | A fresh handle exactly when protection was given; absent and null protection hide nothing |
| `RenderJobs.RenderService.TakeSecret` | apps/api/src/queue/secrets.vault.ts:60-67 | The secret is found only if it is still there, and then destroyed in the same step |
| `RenderJobs.RenderService.RenderAsync` | apps/api/src/queue/async-render.controller.ts:43-80 | The row is queued, the job carries the handle and lands or not, the secret stays only if the request was accepted, and no object changes |
| `RenderJobs.RenderService.Take` | apps/api/src/queue/render.worker.ts:70-79 | A job whose secret is gone gets no request to run, and otherwise exactly the one that was made, its secret consumed |
| `RenderJobs.RenderService.MakeFile` | apps/api/src/pdf/render.pipeline.ts:142-158 | For every page count and fault: the file the request is entitled to, or none exactly when a step on the way fails, a page list without sense and nothing to draw included |
| `RenderJobs.RenderService.TryRender` | apps/api/src/pdf/render.pipeline.ts:141-194 | The entitled object is put before the row is completed, and the success is metered only then |
| `RenderJobs.RenderService.RecordFailure` | apps/api/src/pdf/render.pipeline.ts:195-212 | The row is marked failed and the failure metered, or neither when the update fails |
| `RenderJobs.RenderService.RunPipeline` | apps/api/src/pdf/render.pipeline.ts:112-215 | For every page count and fault, and the catch's own update failing too: the final row, the entitled object iff it was put, and one metering record of the right kind; nothing at all when the row is gone or its first update fails, and no record when the failure could not be recorded |
| `RenderJobs.RenderService.Process` | apps/api/src/queue/render.worker.ts:70-91 | A lost secret ends the attempt before anything is touched or metered; otherwise the secret is consumed and what the pipeline leaves is left; when it succeeds, exactly |
| `Watermarking.Apply` | apps/api/src/protection/watermark.service.ts:36-53 | Stamps exactly the pages the list resolves to and returns the file untouched when there are none; fails exactly when the list makes no sense, when there is nothing to draw on a page it names, or when the PDF library does |
| `Watermarking.StampedIff` | apps/api/src/protection/watermark.service.ts:39-50 | A file gets a stamp if and only if a watermark was given and its list names one of the file's pages |
| `Watermarking.MarksOnce` | apps/api/src/protection/watermark.service.ts:39 | For a request and a page count there is only one set of pages to stamp |
| `Watermarking.OrderMatters` | apps/api/src/pdf/render.pipeline.ts:150-158 | For every protected request whose watermark shows: stamping and then encrypting gives the file it is entitled to, encrypting and then stamping never does |
| `Watermarking.BeyondTheEnd` | apps/api/src/protection/watermark.service.ts:41-44 | For every number beyond the last page: the list is accepted, names no page, and asks for no stamp |
| `Idempotency.OverlapIsTraceable` | apps/api/src/usage/idempotency.service.ts:53-72 | In every run two live claims of one key imply that it expired under a live claim or that a claim was granted because the GET found nothing |
| `Idempotency.FulfilledKeyReplays` | apps/api/src/usage/idempotency.service.ts:74-77 | On a key without those two events, from a fulfil until its time to live ends every claim replays that document |
| `Idempotency.ReleaseOpensTheWindow` | apps/api/src/usage/idempotency.service.ts:64-68 | A concrete run without expiry in which a release between the two commands leads to two live claims |
| `Idempotency.GetFindsNothingIff` | apps/api/src/usage/idempotency.service.ts:53-72 | A request that lost its SET NX is granted the claim by its GET if and only if, in between, the entry expired or was released and nothing was set under the key again |
| `Idempotency.RenderIsARun` | apps/api/src/pdf/pdf.controller.ts:48-69 | A whole synchronous request, won or lost, is a run of the protocol's steps and leaves the keys the controller leaves |
| `Idempotency.RetryFinds` | apps/api/src/usage/idempotency.service.ts:54-90 | What a retry finds that long after a render under a free key: the document until its time to live ends, a free key after a failure, or the claim for 120 seconds when the last command failed; no other key is affected |
| `Idempotency.ExclusionKept` | apps/api/src/usage/idempotency.service.ts:53-90 | Every event keeps a clean key under at most one claim, which the store marks as in progress |
| `Idempotency.IdempotencyService.SetNx` | apps/api/src/usage/idempotency.service.ts:54-62 | Wins exactly when the key is free, and then marks it in progress for 120 seconds |
| `Idempotency.IdempotencyService.AnswerOf` | apps/api/src/usage/idempotency.service.ts:64-71 | Claimed, in progress or replay, exactly as the stored value says |
| `Idempotency.IdempotencyService.Fulfil` | apps/api/src/usage/idempotency.service.ts:75-77 | The document under the key for its full time to live, or no change when the command fails |
| `Idempotency.IdempotencyService.Release` | apps/api/src/usage/idempotency.service.ts:83-90 | The key is free again, or no change when the command fails, which the caller does not see |
| `Idempotency.IdempotencyService.Render` | apps/api/src/pdf/pdf.controller.ts:48-69 | Runs exactly when there is no key or the key is free; a success leaves a replayable key, a failure a free one, a conflict or replay an untouched store; with the last command failing, the claim stays until it expires |
| `PageSelection.ResolvePages` | apps/api/src/protection/page-selection.ts:15-54 | Keywords as documented; a list is rejected exactly when some non-empty token is neither a number from 1 up nor a range with 1 <= from <= to, nor a reversed range whose ends read as the same double; otherwise it gives the ascending list of exactly the in-range pages its tokens denote |
| `PageSelection.ResolveList` | apps/api/src/protection/page-selection.ts:22-53 | The same for the parts of a list, naming an offending token |
| `PageSelection.AddPages` | apps/api/src/protection/page-selection.ts:34-40 | Adds exactly the pages of the range that exist |
| `PageSelection.ScanFindsTheRange` | apps/api/src/protection/page-selection.ts:28 | The scanner accepts exactly the texts digits, dash with any white space around it, digits, and reads off those digits |
| `PageSelection.MeaningDecides` | apps/api/src/protection/page-selection.ts:28-50 | A token is accepted exactly when it denotes a sensible range, or a reversed one whose ends read as the same double; its pages are exactly those it denotes |
| `PageSelection.MeaningIs` | apps/api/src/protection/page-selection.ts:30-49 | What the parser makes of a token is the range it denotes, read as doubles, and nothing for a range from 0 or a reversed one |
| `PageSelection.ReversedRangeIsAccepted` | apps/api/src/protection/page-selection.ts:30-40 | A concrete token: the range from 2^53 + 1 to 2^53 is accepted |
| `PageSelection.SmallNumbersAreNeverBlurred` | apps/api/src/protection/page-selection.ts:30-40 | With numbers up to 2^53 there is no such token |
| `Doubles.NearestIsNear` | apps/api/src/protection/page-selection.ts:31-32 | Beyond 2^53 a numeral reads as a multiple of the spacing of doubles there, and no other multiple is nearer |
| `Doubles.TiesToEven` | apps/api/src/protection/page-selection.ts:31-32 | Halfway between two doubles a numeral reads as the one with the even significand |
| `Doubles.DoubleMonotone` | apps/api/src/protection/page-selection.ts:31-32 | Reading numerals as doubles keeps their order |
| `Doubles.DoubleIsExact` | apps/api/src/protection/page-selection.ts:31-32 | Reading is exact up to 2^53, and nothing above reads as less |
| `PageSelection.DenotesOnce` | apps/api/src/protection/page-selection.ts:28-49 | A token denotes at most one range |
| `PageSelection.PrintThenResolve` | apps/api/src/protection/page-selection.ts:24-53 | For every non-empty ascending list of existing pages, printing it as decimals with commas and resolving gives the list back |
| `PageSelection.WrittenListResolves` | apps/api/src/protection/page-selection.ts:15-54 | For any list of pages, ranges and empty items, written with any white space around items and dashes: rejected exactly when an item is page 0, a range from 0, or a reversed range whose ends differ as doubles; otherwise exactly the existing pages its items cover |
| `CurlSnippet.ShellQuoteRoundTrip` | apps/web/src/components/playground/curl-snippet.tsx:13-15 | The shell reads the quoted text as exactly one word equal to it if and only if it contains no NUL |
| `CurlSnippet.CommandReads` | apps/web/src/components/playground/curl-snippet.tsx:17-29 | The shell reads the whole command as curl with the URL, two headers and the body as its only arguments, the token's variable left as a name |
| `CurlSnippet.IndentKeepsTokens` | apps/web/src/components/playground/curl-snippet.tsx:18-21 | Two blanks after every line break change no JSON token, in any tokenizer state |
| `CurlSnippet.LinesIndent` | apps/web/src/components/playground/curl-snippet.tsx:18-21 | Splitting into lines, indenting all but the first and joining is the same as two blanks after every line break |
| `CurlSnippet.BodyKeepsTokens` | apps/web/src/components/playground/curl-snippet.tsx:18-21 | The body handed to curl has exactly the JSON tokens of the request as printed |
| `CurlSnippet.PrintedTokensRead` | apps/web/src/components/playground/curl-snippet.tsx:18-21 | The tokenizer by which bodies are compared reads any printed list of marks, strings and scalars, with any white space between, as exactly that list |
| `CurlSnippet.BrokenStringsHaveNone` | apps/web/src/components/playground/curl-snippet.tsx:18-21 | It reads nothing out of a string that is left open or holds a control character |

## Left out

- UsageMetering.UsageService.Daily: reads rows and hashes in one state; two moments are `Series`, and any events between them `DailyNeverOvercounts`, one day and counter at a time.
- UsageMetering.UsageService.Flush: one flusher without interruption; interleaved flushers are `MeteringConserves`.
- RefreshTokens.RefreshTokenService.RevokeAllForUser: its two commands without interruption; interrupted ones are `RevokeAllEndsEverySession` and `IndexCoversLiveFamilies`.
- RefreshTokens.RefreshTokenService.Revoke: its GET and its MULTI without interruption; the protocol's event takes what the GET found as given, so that other commands may fall between.
- Retention.RetentionService.Sweep: bounds `objectFailures` between F and 50 F and does not fix it, because how many batches fetch a stuck document depends on the order of ties.
- RenderJobs.RenderService.RenderAsync: the submission when nothing interrupts it; interruptions are events of `Step`.
- Idempotency.IdempotencyService.Render: one request with nobody else around; interleavings are `OverlapIsTraceable` and `FulfilledKeyReplays`.
- `BrowserPool.stop` and shutdown draining: waiters are not settled there and slots are detached, so the invariants are not meant to survive it.
- A browser slot is an index and a call of `withBrowser` an entry of a map; promises and timers of the JavaScript runtime are not objects of the model.
- The seven-day expiry of a usage hash, the field names in `toTotals`, and the `org:date` text of a dirty entry.
- A Redis or SQL command that took effect although its reply was lost, except for the enqueue.
- The fallback time to live of the rotation script, and Redis rounding times to live to seconds.
- The tab's sign-in and sign-out are one step each with the server's, and so are a refresh's user lookup and the revoke when that user is gone; lost responses and two tabs sharing a cookie are outside the single-flight promise.
- A title search is an ASCII case-insensitive substring; the wildcards `%` and `_` and Unicode case folding are not modelled, and row ids are compared as numbers.
- base64url, ISO dates, sha256, AES-GCM and JSON printing are injective functions or given texts.
- The three-attempt limit of the queue: a job may be picked up any number of times, which allows more runs than the source has.
- The `jobs` row, webhooks, the failure mail, previews, the size limit on the markup and the response bodies.
- The retention lock and the cron schedule.
- The watermark's text, image and geometry, which come down to whether there is anything to draw, and what Chromium, qpdf, pdf-lib, S3 and Prisma do inside.
- `packages/net-guard`, webhook addresses, slugs, token minting, argon2 and SMTP: branches or input and output that a reading of one body settles.
- NestJS wiring, guards, validation, health checks, configuration and the React pages.
