# Verified model of the SKR payout service

The service pays out USDT over TRON on behalf of callers that may repeat, race or outlive a process. Its
promises rest on several state machines that work together. This project models those machines in Dafny and
proves what the code guarantees about them, over all inputs and all runs.

| file | what it covers |
|---|---|
| `Idempotency.dfy` | the durable and the in-memory idempotency store as classes, and when callers can tell them apart |
| `SendPipeline.dfy`, `SendGuarantees.dfy`, `SendWakeups.dfy` | the `/send` protocol as a transition system: threads, faults, crashes, closes, restarts; its invariant, its guarantees, and when a wake-up is lost |
| `SendInMemory.dfy` | the same guarantees over the in-memory store, on runs it can have |
| `SendRoute.dfy` | the request handler as a class whose every call follows that transition system |
| `SmoothRuns.dfy`, `Reporting.dfy` | chain, store and audit log agree on undisturbed runs, and the period report adds up to what was sent |
| `Fees.dfy` | fee limits, energy price cache, conversion of amounts |
| `RateLimit.dfy`, `SweepRaces.dfy` | the token bucket: closed form, safety, optimality, invisibility of the sweeper; the durable limiter statement by statement, with sweeps inside a check |
| `OldestFirst.dfy`, `ReceiptPoller.dfy`, `PollerRecords.dfy`, `PollerFairness.dfy` | the receipt poller: absorbing outcomes, deadlines, repeated records, fairness |
| `Delivery.dfy`, `DeliveryRuns.dfy`, `DeliveryRetries.dfy` | the retrying queue that webhooks and alerts share: accounting and spacing of attempts, and what a forced retry buys |
| `AuditFanout.dfy`, `AuditInterleavings.dfy` | audit records and the work they derive, one call at a time and in every interleaving of calls |
| `Quiescence.dfy`, `QuiescenceBound.dfy`, `FeedbackRuns.dfy` | the feedback of failed webhooks: an exact measure over both queues, and the worker on the clock |
| `Keystore.dfy`, `KeystoreAlgebra.dfy` | the encrypted keystore file under crashes |
| `EnvFile.dfy`, `EnvLines.dfy`, `EnvReading.dfy`, `EnvDocuments.dfy`, `EnvRoundTrip.dfy` | the .env reader on any text, and both printers |
| `Options.dfy` | `Option` |

`dafny verify dfyconfig.toml` checks everything.

## How the model reads the code

- A state machine is a state datatype, a `Step` datatype and a total `Exec`; a step that is not possible leaves
  the state alone. `Run` performs a list of steps, so a statement about every list is a statement about every
  interleaving.
- A class of the program is a class here. Its methods are proved equal to functions on values, and the theorems
  are about those functions.
- What the surroundings do (the clock, an RPC answer, a failing database or audit write, a wake-up, a crash
  point, random bytes) is a parameter that the theorems quantify over.
- One SQL statement with its commit is one atomic step; what the program does in several statements, or around an
  RPC, is several steps. A statement that raises has taken effect or has not. Floats and Decimals are exact reals
  or integers. scrypt and AES-GCM are ideal: a ciphertext opens only under its own key, nonce and associated data. JSON and base64
  are taken to round-trip.

## Where a property fails, and exactly when

- At most one accepted broadcast per key holds except for commits that fail while the following release works:
  each such fault allows one more, and `SendGuarantees.LostCommitsAllowRepeats` reaches n + 1 broadcasts with n of
  them.
- A parked thread loses its wake-up exactly when the holder of its key has a commit raise after the UPDATE took
  effect, or a release raise, or when it comes to wait for a row that a reserve which raised after its INSERT, or a
  release which raised before its DELETE, has left in nobody's hands (`SendWakeups.WakeupLostIff`);
  `SendWakeups.LateCommitErrorLosesWakeup`, `SendWakeups.ReleaseErrorLosesWakeup` and
  `SendWakeups.ReserveErrorLosesWakeup` are such runs. It gets one back exactly when a new request claims its key,
  which takes a release that raised after its DELETE (`SendWakeups.StrandedUntilClaimed`, `SendWakeups.ClaimRescues`).
  Under the send lock such an abandoned row is the only way to make a caller wait
  (`SendWakeups.SendLockMeansNoWaiting`), and both errors do (`SendWakeups.AbandonedMeansWaiting`).
- The audit log is in the order of its record numbers exactly when no record is both numbered and written between
  another's number and its write (`AuditInterleavings.OrderedIffNotOvertaken`); two threads suffice for a log that
  is not (`AuditInterleavings.OutOfOrderRun`).
- The two stores are indistinguishable exactly on histories without a commit of an unreserved key and without a
  close (`Idempotency.StoresIndistinguishable`).
- With timestamps in order and sweeps between checks, as the lock of the in-memory limiter has them, sweeping is
  invisible exactly when idle threshold times refill rate is at least the capacity (`RateLimit.SweepTransparentIff`);
  with a clock that steps back it shows whatever the parameters (`RateLimit.SweepShowsUnderClockSkew`).
- The durable limiter's sweep may fall between the SELECT and the UPDATE of a check. It then stays invisible exactly
  when no such check finds its row gone while the bucket it should have left is not full again
  (`SweepRaces.DurableTransparentIff`). Each such loss costs at most one check above the rate bound
  (`SweepRaces.DurableRateBound`), and for all parameters there is one that lets a key have capacity + 1 checks at
  one instant (`SweepRaces.CutCheckOvershoots`).
- RECEIPT_RESOLVED is written at most once per txid when keys have different txids or ticks poll one txid at a time,
  and no `stop` cuts off a poll with a terminal answer between its RPC and its upsert. The first condition is needed
  (`ReceiptPoller.SharedTxidReportedTwice`); given it, the second is exact (`PollerRecords.ReportedOnceIff`), and n
  cut polls of any txid allow n + 1 records (`PollerRecords.CutsAllowRepeats`).
- Every candidate is polled in turn as long as polls return. A poll that always raises ends its ticks: what was
  checked before its row is still served (`PollerFairness.EveryCandidateIsPolled`), what was checked after it never
  is (`PollerFairness.RaisingPollBlocks`).
- A period report exists for every valid range but those that end on 9999-12-31, where stepping past the last date
  overflows (`Reporting.AggregatePeriod`); of all months exactly December 9999 is such a range
  (`Reporting.OnlyTheLastMonthOverflows`).
- WEBHOOK_GIVEUP is recorded exactly when the last scheduled attempt has failed and the row says so, or the store was
  closed during that POST, in which case the row stays pending (`Delivery.DeliveryWorker.DeliverOne`).
- Delivery dies out after the last external event exactly when WEBHOOK_GIVEUP is not delivered by webhook
  (`FeedbackRuns.QuiescentIff`).
- A saved keystore loads exactly when no wallet name is empty; saving does not check that, loading does
  (`KeystoreAlgebra.LoadAfterSave`). A wrong passphrase is accepted exactly when there are no wallets.
- A .env file reads back as what was written exactly when every non-empty value is free of line breaks, trimmed,
  free of " #" and not wrapped in matching quotes, a lone quote character included (`EnvRoundTrip.FlatRoundTrip`,
  `EnvRoundTrip.GroupedRoundTrip`).
- A key can be given a value by some .env file exactly when the value is one line without " #"; the printers write fewer
  values than that, since they do not quote (`EnvReading.ReadableIff`).

## Where the code and its documentation disagree

The model follows the code.

- `skr_crypto/server/idempotency.py:96-98`: a timed-out waiter raises without looking at the row again, although
  the module text says that it re-checks.
- `skr_crypto/server/audit.py:8-11`: the module text says that the ordering inside one run is preserved. The number is
  drawn under one lock (lines 50-52) and the line is written under another (lines 106-109), so a thread can be overtaken in
  between; `AuditInterleavings.OutOfOrderRun` leaves records 2, 1 in the file.
- `skr_crypto/server/receipt_poller.py:405-407`: the next tick does not try a failed RECEIPT_RESOLVED again,
  because `resolved_at` is already stored (line 384); such a record is lost for good
  (`PollerRecords.LostRecordStaysLost`, `PollerRecords.ResolvedUnreported`).
- `skr_crypto/server/receipt_poller.py:93-97`: an explicit upstream result that is in neither status set is
  passed through; it counts as not terminal and is polled on. An upstream result that reads "giveup" gives a
  GIVEUP without any deadline, and one that reads "not_found" is given up like a transaction the node does not know.
- `skr_crypto/server/receipt_poller.py:21-22`: `stop` does not always stop cleanly. It waits five seconds (line 217),
  an RPC may take longer, and the poll then returns to a closed connection (lines 229-235, 342-343) and still writes
  its record.
- `skr_crypto/server/rate_limit_bucket.py:16-20`: the transaction of a check does not keep the sweeper out, whose
  DELETE runs on the same connection (lines 184-187).
- `skr_crypto/server/rate_limit_bucket.py:261-278`: the idle threshold is one hour, not about ten capacity windows; by
  `RateLimit.SweepTransparentIff` the sweeper stays invisible exactly for buckets that refill within the hour.
- `skr_crypto/server/webhooks.py:15`: the worker gives up when attempts reach the schedule's length (line 423),
  not when they exceed it; the first entry of the schedule is never used.
- `skr_crypto/server/encrypted_keystore.py:287-290`: a wallet with an empty name can be saved but never loaded.

## Model

| member | source | states |
|---|---|---|
| Idempotency.SqliteIdempotencyStore.constructor | skr_crypto/server/idempotency.py:160-223 | opening the database turns every leftover pending row into unknown and changes no other row |
| Idempotency.RecoveryMeaning | skr_crypto/server/idempotency.py:194-223 | after recovery no row is pending; pending rows are unknown with key, txid and time kept, and every other row is unchanged |
| Idempotency.SqliteIdempotencyStore.Reserve | skr_crypto/server/idempotency.py:233-265 | the waiting loop ends with the reply and the table of the one pass that decides, over whatever the store looked like at each wake-up, a database error before or after the INSERT included |
| Idempotency.SqliteIdempotencyStore.Commit | skr_crypto/server/idempotency.py:267-281 | commit overwrites the row of the key, does nothing without one, refuses an empty or sentinel txid, and fails once closed |
| Idempotency.SqliteIdempotencyStore.Release | skr_crypto/server/idempotency.py:283-292 | release deletes a pending row only |
| Idempotency.SqliteIdempotencyStore.Peek | skr_crypto/server/idempotency.py:294-302 | peek shows committed txids only |
| Idempotency.IdempotencyStore.Reserve | skr_crypto/server/idempotency.py:85-98 | one pass of the in-memory reserve |
| Idempotency.IdempotencyStore.Commit | skr_crypto/server/idempotency.py:100-106 | the in-memory commit inserts even without a reservation |
| Idempotency.IdempotencyStore.Release | skr_crypto/server/idempotency.py:108-112 | the in-memory release deletes the sentinel only |
| Idempotency.StepSimulation | skr_crypto/server/idempotency.py:85-302 | from related stores an operation gives equal replies and related stores if and only if it is neither a commit on an unreserved key nor a close |
| Idempotency.HoldersNeverPart | skr_crypto/server/routes.py:173-357 | a history in which only holders commit or release, and nobody closes, never commits an unreserved key |
| Idempotency.StoresIndistinguishable | skr_crypto/server/idempotency.py:85-302 | no caller can tell fresh stores apart along a history, by replies or by a peek at any point, if and only if the history commits no unreserved key and closes nothing |
| Idempotency.DisciplinedHistoriesAgree | skr_crypto/server/idempotency.py:85-302 | the handler's discipline makes both stores give equal replies along any history |
| SendPipeline.InvAlways | skr_crypto/server/routes.py:173-374 | the inductive invariant of the protocol holds in every reachable state: a pending row has one live holder unless a database error abandoned it, an abandoned row stays and is never held, counts and txids are accounted for |
| SendPipeline.CommittedStays | skr_crypto/server/idempotency.py:267-292 | no step of any thread or of the process changes a committed row |
| SendPipeline.UnknownStays | skr_crypto/server/idempotency.py:194-292 | no step changes an unknown row, so it never becomes free |
| SendPipeline.HolderMoves | skr_crypto/server/routes.py:173-357 | every commit or release that is called, failing or not, is by the only holder of its key, for that key, and finds the row pending, or, for a release, committed by a commit of the key that raised too late |
| SendPipeline.ThreadMoves | skr_crypto/server/idempotency.py:85-292 | a step moves its own thread; every thread that is parked when `notify_all` runs is woken, a crash kills every live one, and no other thread moves |
| SendPipeline.ThreadCan | skr_crypto/server/routes.py:173-374 | in every state each thread has exactly the moves of the place it is at, each exception included, so no schedule is left out; a finished thread has none |
| SendPipeline.ProcessCan | skr_crypto/server/idempotency.py:160-223 | a running process takes requests and can die at any point, keeping its rows and killing every unfinished thread; a dead one can start |
| SendPipeline.PendingLeaves | skr_crypto/server/idempotency.py:267-292 | a pending row goes away only when its waiters are woken, or by a commit or release that raises after it took effect |
| SendGuarantees.AtMostOneBroadcast | skr_crypto/server/routes.py:173-357 | in every interleaving with crashes, closes and restarts, a key has at most one accepted broadcast plus one per commit that failed on it before taking effect |
| SendGuarantees.LostCommitsAllowRepeats | skr_crypto/server/routes.py:353-357 | for every n there is a run with n lost commits and n + 1 accepted broadcasts on one key, so the bound is reached |
| SendGuarantees.SettledForever | skr_crypto/server/idempotency.py:194-292 | a committed or unknown key keeps its row and is never broadcast again, in any further run |
| SendGuarantees.ReserveAfterSettled | skr_crypto/server/idempotency.py:255-259 | once committed, every later reserve on an open store returns that same txid |
| SendGuarantees.DuplicatesAgree | skr_crypto/server/routes.py:174-198 | all duplicate replies of a key name the one txid in its row |
| SendGuarantees.AuditedThenCommittedThenBroadcast | skr_crypto/server/routes.py:323-374 | keys audited as sent are committed, committed keys were broadcast, with equal txids and amounts |
| SendWakeups.NoLostWakeup | skr_crypto/server/idempotency.py:233-292 | a parked thread waits for a pending key of an open store with exactly one live holder, unless a database error has abandoned the row or a commit or release of the key raised after its effect |
| SendWakeups.WakeupLostIff | skr_crypto/server/idempotency.py:233-292 | in every reachable state a thread loses its wake-up at a step if and only if the holder's applied commit raises, the holder's release raises, or the thread parks on a row that a failed reserve or release abandoned |
| SendWakeups.StrandedUntilClaimed | skr_crypto/server/idempotency.py:233-292 | a thread that lost its wake-up and stays parked gets it back if and only if a new request claims its key, which takes a release that raised after its DELETE |
| SendWakeups.LateCommitErrorLosesWakeup | skr_crypto/server/idempotency.py:273-280 | for every key a run in which the commit raises after its UPDATE and the waiter is left on a committed key without a holder |
| SendWakeups.ReleaseErrorLosesWakeup | skr_crypto/server/idempotency.py:286-292 | for every key a run in which the release raises, before or after its DELETE, and the waiter is left without a holder, on a pending or on a free key |
| SendWakeups.ReserveErrorLosesWakeup | skr_crypto/server/idempotency.py:243-253 | for every key a run in which a reserve raises after its INSERT and the next request parks on a row nobody holds |
| SendWakeups.ClaimRescues | skr_crypto/server/idempotency.py:233-292 | after a release that raised too late, a third request claims the key and its own release wakes the stranded thread |
| SendWakeups.HolderWakesWaiters | skr_crypto/server/idempotency.py:267-292 | the holder can always move, and each of its moves that is no database error brings the wake-up closer or is the wake-up |
| SendWakeups.WokenThreadSees | skr_crypto/server/idempotency.py:233-265 | a woken thread finds the committed txid, a free slot, or another live holder |
| SendWakeups.SendLockMeansNoWaiting | skr_crypto/server/routes.py:97-107 | under the send lock no thread ever parks on a key and no caller gets its in-flight conflict, unless a failed reserve or release abandoned its row |
| SendWakeups.AbandonedMeansWaiting | skr_crypto/server/routes.py:97-107 | both exceptions are real: under the lock, after one reserve or release that abandons the row, the next request for the key parks and gets the conflict |
| SendInMemory.SameReplies | skr_crypto/server/idempotency.py:78-127 | on runs without crash, close or database error the in-memory store gives every reply the SQLite store gives |
| SendInMemory.NoLostWakeupInMemory | skr_crypto/server/idempotency.py:85-112 | on such runs no wake-up is ever lost over the in-memory store: whoever is parked waits for the sentinel of exactly one live holder |
| SendRoute.SendService.ReserveSlot | skr_crypto/server/routes.py:173-174 | the reservation follows the transition system, with a wait ended by the timeout or by a close, and a database error passed to the caller |
| SendRoute.SendService.Transfer | skr_crypto/server/routes.py:200-351 | preflight and broadcast follow the transition system on every exception path; a txid comes only when the balances cover the request, and any other outcome leaves exactly the audit records that the audit log lets through |
| SendRoute.SendService.CommitSlot | skr_crypto/server/routes.py:353-353 | the commit inside the guarded block follows the transition system |
| SendRoute.SendService.ReleaseSlot | skr_crypto/server/routes.py:355-357 | the exception path releases the reservation, or the release raises before or after its DELETE |
| SendRoute.SendService.Duplicate | skr_crypto/server/routes.py:175-198 | the answer to a committed key and its audit record follow the transition system |
| SendRoute.SendService.Settle | skr_crypto/server/routes.py:353-392 | from an accepted broadcast on: response, store and records, over failing commits, releases and audit writes |
| SendRoute.SendService.Payout | skr_crypto/server/routes.py:200-374 | the guarded block and the success record are a run of the transition system, with response, store and records determined |
| SendRoute.SendService.Serve | skr_crypto/server/routes.py:173-392 | the handler from reserve on is such a run, with response, store and records determined by what it meets |
| SendRoute.SendService.Send | skr_crypto/server/routes.py:97-392 | a whole request is a run of the transition system; its response is true of the store, success means that the balances covered the amount and the reserve, and with a working audit every failed preflight or broadcast leaves exactly its one record |
| SendRoute.PaidExactlyWhen | skr_crypto/server/routes.py:200-374 | a request is answered with success if and only if its key is free, preflight can pay for it, the chain takes it under a usable txid and the commit works; then its row is committed and its records are the claim, the broadcast and the success |
| SendRoute.FailureIsRecorded | skr_crypto/server/routes.py:203-351 | a claimed request that preflight refuses, or whose preflight or broadcast raises, fails with SEND_REJECTED or SEND_FAILED exactly as the audit log lets it, and frees its key unless release raises too early |
| SendRoute.CommitFaultLeaves | skr_crypto/server/routes.py:353-357 | a broadcast whose commit fails is answered as failed; the key is free for another broadcast exactly when the commit had no effect and the release worked |
| SendRoute.CommittedIsRepeated | skr_crypto/server/routes.py:174-198 | a repeat is answered if and only if the key is committed on an open store and the audit works, with the stored txid and without touching the store |
| SendRoute.ResponsesAreTrue | skr_crypto/server/routes.py:173-392 | success only on a free key whose row was then committed, duplicate only with the stored txid, every other response with the rows it leaves |
| SmoothRuns.ThreeLedgersAgree | skr_crypto/server/routes.py:323-374 | on runs without a close or crash whose commits work and whose audit lines land, once they have come to rest, a txid was accepted for a key exactly when the key is committed with it and exactly when it is audited |
| SmoothRuns.BalanceKept | skr_crypto/server/routes.py:323-374 | every step keeps sent equal to audited plus in flight, in number and in volume |
| SmoothRuns.ReportTotalsSent | skr_crypto/server/reporting.py:188-254 | the period report over a range that covers such a run totals exactly the payouts and the volume the chain accepted |
| SmoothRuns.ReportCountsRecords | skr_crypto/server/reporting.py:201-226 | on any run the columns for successes, rejections, failures and duplicates count exactly the audit records of that kind |
| Reporting.AggregatePeriod | skr_crypto/server/reporting.py:116-254 | the one-pass aggregator returns the per-day and total counts, sums and sets of their declarative definition, the range error exactly on a bad range, and an overflow exactly on a valid range that ends on the last date |
| Reporting.Accumulate | skr_crypto/server/reporting.py:197-226 | the single pass leaves in each day's bucket that day's counts, volume, recipients and wallets |
| Reporting.Footer | skr_crypto/server/reporting.py:228-254 | the total row sums the columns and unites the sets of the buckets |
| Reporting.ColumnCounts | skr_crypto/server/reporting.py:208-226 | every column but the volume is the number of log lines in the range of the one kind of event it stands for |
| Reporting.PaidIn | skr_crypto/server/reporting.py:208-214 | recipients and wallets are exactly those that a successful payout of the range names |
| Reporting.FooterMeaning | skr_crypto/server/reporting.py:228-254 | a total row computed from the buckets is the total of the log over the whole range |
| Reporting.ReportAdditiveInLog | skr_crypto/server/reporting.py:188-254 | reports of concatenated logs add up, column by column and day by day, with united sets |
| Reporting.ReportAdditiveInRange | skr_crypto/server/reporting.py:188-254 | cutting the range cuts the bucket list and splits every total |
| Reporting.ReportPermutationInvariant | skr_crypto/server/reporting.py:201-226 | any permutation of the log gives the same report |
| Reporting.OneBucketPerDay | skr_crypto/server/reporting.py:61-67 | exactly one bucket for each day of the range, ascending |
| Reporting.MonthsTileTheCalendar | skr_crypto/server/reporting.py:99-113 | every day of years 1 to 9999 lies in exactly one month period |
| Reporting.MonthsAdjoin | skr_crypto/server/reporting.py:99-113 | a month period has 28 to 31 days, passes the range check, and the next begins the day after it ends |
| Reporting.OnlyTheLastMonthOverflows | skr_crypto/server/reporting.py:99-131 | of all month periods exactly the last one, December 9999, is valid and overflows |
| Fees.PreflightMeaning | skr_crypto/server/routes.py:203-289 | preflight admits a request if and only if the USDT balance covers the amount, the TRX balance the reserve, and the estimated burn is not above a cap that is on; each refusal names its own shortage, the first of these |
| Fees.FeeLimitIsTight | skr_crypto/server/tron_client.py:342-346 | with a usable estimate the fee limit is the padded cost of the estimate to the sun, as far as floor and ceiling let it be; without one it is as high as they let it be |
| Fees.SecondClampIsIdentity | skr_crypto/server/wallet.py:78-80 | the wallet's second clamp changes no computed fee limit, whatever the estimate and price, if and only if the ceiling is at least the floor |
| Fees.FeeLimitCovered | skr_crypto/server/routes.py:221-292 | every admitted transfer's fee limit is covered by the TRX balance just read, under a validated configuration, if and only if the ceiling is at least the floor or the TRX reserve covers the floor |
| Fees.FeeLimitPaysEstimate | skr_crypto/server/routes.py:250-292 | with one price for both reads, the fee limit of an admitted estimated transfer is never below its estimate, if and only if the burn cap is positive and at most the highest fee limit |
| Fees.EnergyPriceCache.FindPrice | skr_crypto/server/tron_client.py:264-270 | the loop returns the first positive price of the chain parameters, else the fallback |
| Fees.ChainPriceIsFirst | skr_crypto/server/tron_client.py:264-270 | the price is the first positive one that a chain parameter of one of the two names states, and the fallback if and only if there is none |
| Fees.EnergyPriceCache.Read | skr_crypto/server/tron_client.py:243-289 | a fresh cache answers without a call; a failed refresh keeps the last price, or the fallback when there is none, and restarts the clock |
| Fees.EnergyPriceCache.ReadTwice | skr_crypto/server/routes.py:254-292 | the two reads of one request agree unless the cache expired in between |
| Fees.RawAmountExact | skr_crypto/server/wallet.py:73-73 | the raw units are the amount to the last digit if and only if the digits beyond the sixth are zero |
| Fees.RawAmountInjective | skr_crypto/server/models.py:30-35 | accepted amounts are paid alike only when they are equal |
| RateLimit.TokenBucketLimiter.Check | skr_crypto/server/rate_limit_bucket.py:87-98 | both storage paths compute the same answer and touch no other key; the durable one writes it over whatever sweeps have left since its SELECT |
| RateLimit.TokenBucketLimiter.CheckSqlite | skr_crypto/server/rate_limit_bucket.py:102-144 | the SQL path decides on the row its SELECT found, and its write is an INSERT, or an UPDATE that does nothing when a sweep has deleted the row |
| RateLimit.TokenBucketLimiter.CheckMemory | skr_crypto/server/rate_limit_bucket.py:154-172 | the in-memory path is the bucket decision |
| RateLimit.TokenBucketLimiter.SweepIdle | skr_crypto/server/rate_limit_bucket.py:176-193 | exactly the buckets older than the threshold are deleted, and their number is returned |
| RateLimit.LevelIsLeastRoom | skr_crypto/server/rate_limit_bucket.py:125-144 | min-plus closed form: the tokens at a check are the least, over all windows ending there, of capacity plus refill minus admissions |
| RateLimit.RefusedIffSomeWindowBreaks | skr_crypto/server/rate_limit_bucket.py:125-144 | a check is refused if and only if admitting it would break the bound of some window ending now |
| RateLimit.RateBound | skr_crypto/server/rate_limit_bucket.py:125-144 | over any contiguous checks, timestamps in any order, admissions are at most capacity plus refill over the positive time increments |
| RateLimit.RateBoundInTime | skr_crypto/server/rate_limit_bucket.py:162-172 | with timestamps in order that is capacity plus rate times the window's length |
| RateLimit.NoSafeLimiterAdmitsMore | skr_crypto/server/rate_limit_bucket.py:125-144 | no pattern of answers that keeps every window within its bound admits more, up to any point |
| RateLimit.SweepTransparent | skr_crypto/server/rate_limit_bucket.py:115-193 | with timestamps in order and an idle threshold long enough for every key's refill, sweeps between checks change no answer |
| RateLimit.SweepTransparentIff | skr_crypto/server/rate_limit_bucket.py:176-193 | with sweeps between checks, sweeping is invisible in every ordered run if and only if threshold times rate is at least the capacity |
| RateLimit.SweepShowsUnderClockSkew | skr_crypto/server/rate_limit_bucket.py:94-94 | for all parameters and thresholds, a sweep under a clock that runs ahead and then steps back changes an answer |
| SweepRaces.CheckIsRun | skr_crypto/server/rate_limit_bucket.py:102-187 | the durable check is a run of its SELECT, the sweeps that fall in between, and its write |
| SweepRaces.DurableTransparentIff | skr_crypto/server/rate_limit_bucket.py:102-187 | with timestamps in order and a threshold long enough, a run of statements loses no charge to a sweep inside a check if and only if, from every point of it on, sweeping is invisible however it goes on without such a loss |
| SweepRaces.DurableRateBound | skr_crypto/server/rate_limit_bucket.py:102-187 | from any point between two checks on, a key gets at most its capacity, the refill since then, and one check per lost charge |
| SweepRaces.CutCheckOvershoots | skr_crypto/server/rate_limit_bucket.py:102-187 | for all parameters and thresholds that refill a bucket, a sweep inside a check lets a key have capacity + 1 checks at one instant, with timestamps in order |
| OldestFirst.Select | skr_crypto/server/receipt_poller.py:290-291 | repeated selection answers an ascending, limited query: right number, ordered, and nothing left out is older |
| ReceiptPoller.CandidatesExact | skr_crypto/server/receipt_poller.py:278-291 | a payout is a candidate if and only if it was committed since the cutoff and no poll has resolved its txid, ordered by its last check |
| ReceiptPoller.OutcomeExact | skr_crypto/server/receipt_poller.py:93-371 | in every reachable state, for every answer: the poll stores SUCCESS if and only if the node says so, GIVEUP if and only if the transaction is not found past the threshold or the result reads so, the node's own result otherwise when it is final, and leaves the row unresolved if and only if the RPC failed, there is no block yet, it is not found in time, or the result is not final; no other row changes |
| ReceiptPoller.KeysBelong | skr_crypto/server/receipt_poller.py:295-420 | in every run each row and each record carries the idempotency key of a commit with its txid |
| ReceiptPoller.Poller.NextCandidates | skr_crypto/server/receipt_poller.py:278-306 | the batch is a legal answer of the candidate query |
| ReceiptPoller.Poller.PollOne | skr_crypto/server/receipt_poller.py:347-420 | one poll updates one row as specified, or, when a stop has taken the connection, the memory only, and reports a terminal outcome either way |
| ReceiptPoller.Poller.PollAll | skr_crypto/server/receipt_poller.py:258-261 | the loop polls the snapshots in order until a stop, which may cut off the last poll |
| ReceiptPoller.Poller.Tick | skr_crypto/server/receipt_poller.py:252-261 | a tick polls a legal batch of snapshots taken at its start |
| ReceiptPoller.TickIsRun | skr_crypto/server/receipt_poller.py:252-261 | the loop of a tick is a run of the poller's state machine |
| ReceiptPoller.CutTickIsRun | skr_crypto/server/receipt_poller.py:217-261 | so is a loop that a stop ends during an RPC: the table misses that poll, the log does not |
| ReceiptPoller.ResolvedOnce | skr_crypto/server/receipt_poller.py:217-387 | in every run with stops and restarts: status is set exactly when resolved_at is, it is terminal, and each txid is reported at most once plus once for every terminal poll that a stop cut off; every other record has the stored status |
| ReceiptPoller.ResolvedForEver | skr_crypto/server/receipt_poller.py:318-343 | through any further run a resolved row never changes, and no row loses its key or first_seen |
| ReceiptPoller.FirstSeenFixed | skr_crypto/server/receipt_poller.py:320-333 | first_seen never changes after the insert, whatever txids the keys share |
| ReceiptPoller.SharedTxidReportedTwice | skr_crypto/server/receipt_poller.py:278-306 | two keys with one txid and a batch of at least two allow a run without any stop that reports it twice, so that condition of ResolvedOnce is needed |
| PollerRecords.AccountedStep | skr_crypto/server/receipt_poller.py:217-387 | while every record of a txid, written or on its way, is the one its resolved row allows, a step ends that if and only if it is a stop that cuts off a terminal poll of the txid |
| PollerRecords.ReportedOnceIff | skr_crypto/server/receipt_poller.py:217-387 | no stop of a run cuts off a terminal poll of a txid if and only if, from every point of the run on, the txid is reported at most once however it goes on without such a cut |
| PollerRecords.CutsAllowRepeats | skr_crypto/server/receipt_poller.py:217-387 | for every commit and every n there is a run with n cut polls and n + 1 records of its txid, so the bound of ResolvedOnce is reached |
| PollerRecords.LostRecordStaysLost | skr_crypto/server/receipt_poller.py:384-410 | in every reachable state without a cut, a record whose audit write fails is never written, however the run goes on |
| PollerRecords.ResolvedUnreported | skr_crypto/server/receipt_poller.py:384-410 | for every payout, from its commit on, there is a run that resolves it and after which no run ever reports it |
| ReceiptPoller.GiveupDeadline | skr_crypto/server/receipt_poller.py:361-381 | in every run, with other rows, batches, stops and restarts in between, a txid that no poll finds and that is asked for at most P after its last stored poll is unresolved only below the threshold, and is resolved as GIVEUP between first_seen plus threshold and P after that |
| ReceiptPoller.PastTheDeadline | skr_crypto/server/receipt_poller.py:361-381 | once first_seen plus threshold plus P has passed, such a row is given up |
| PollerFairness.EveryCandidateIsPolled | skr_crypto/server/receipt_poller.py:252-306 | with N candidates last checked by some moment, batch B and an advancing clock, any ticks with room for N polls poll each of them or see it leave, provided their own polls return; polls of rows checked later may raise |
| PollerFairness.RaisingPollBlocks | skr_crypto/server/receipt_poller.py:240-261 | while a candidate's poll raises whenever it is tried, nothing that was checked after it is ever polled |
| PollerFairness.TickServes | skr_crypto/server/receipt_poller.py:278-306 | one tick shrinks the rows not polled since a moment by a whole batch, or clears them |
| PollerFairness.FewerTicksLeaveSomeone | skr_crypto/server/receipt_poller.py:290-291 | the number of ticks is needed: with distinct txids, fewer leave a candidate unpolled |
| PollerFairness.OverdueIsGivenUp | skr_crypto/server/receipt_poller.py:252-381 | ticks with room for every candidate checked no later, begun when a txid is overdue and never finding it, end with it given up or its commit past the lookback window |
| Delivery.DeliveryStore.Enqueue | skr_crypto/server/webhooks.py:177-207 | a new pending row under the next id |
| Delivery.DeliveryStore.TakeDue | skr_crypto/server/webhooks.py:209-229 | at most the limit of due pending rows, earliest first |
| Delivery.DeliveryStore.UpdateOutcome | skr_crypto/server/alerts.py:327-352 | the outcome fields of one row change, an unknown id changes nothing |
| Delivery.DeliveryStore.ForceRetry | skr_crypto/server/webhooks.py:291-308 | returns true if and only if the row is given up or failed; then it is pending and due now with everything else kept, and otherwise nothing changes |
| Delivery.ForcedMeaning | skr_crypto/server/webhooks.py:291-308 | a forced row is among the due ones at once, a pending or delivered one is left alone, and no other row is touched |
| Delivery.DeliveryWorker.HandleFailure | skr_crypto/server/webhooks.py:419-453 | give up when the attempts reach the schedule's length, else wait the schedule's entry of that number, always in range; on a closed store nothing is stored |
| Delivery.DeliveryWorker.DeliverOne | skr_crypto/server/webhooks.py:382-453 | one POST and its outcome, failing updates and a store closed meanwhile included |
| Delivery.PostMeaning | skr_crypto/server/webhooks.py:382-453 | a recorded 2xx answer delivers the row, any other recorded outcome uses up an attempt and gives up at the schedule's length, and an unrecorded one changes nothing |
| Delivery.GiveUpMeaning | skr_crypto/server/webhooks.py:419-444 | the worker says that it gives up if and only if the row of the pending delivery does, or the store was closed during the last scheduled attempt and the answer was not 2xx |
| Delivery.DeliveryWorker.Tick | skr_crypto/server/webhooks.py:370-380 | a turn of the worker posts a legal batch in order, and ends early when an update fails |
| DeliveryRuns.AttemptsAccounted | skr_crypto/server/webhooks.py:382-453 | in every run with crashes and forced retries: attempts are the POSTs less the forgotten ones, never beyond max(1, schedule length), and each forced retry buys exactly one more |
| DeliveryRuns.PostsBounded | skr_crypto/server/alerts.py:510-563 | POSTs of one delivery are at most max(1, schedule length) plus forced retries plus forgotten POSTs |
| DeliveryRuns.DeliveredForEver | skr_crypto/server/webhooks.py:209-256 | a delivered row never changes and is never posted again |
| DeliveryRuns.AttemptsSpaced | skr_crypto/server/webhooks.py:446-453 | scheduled attempt n + 1 starts no earlier than the recorded failure of attempt n plus schedule[n] |
| DeliveryRuns.LoopIsRun | skr_crypto/server/webhooks.py:370-380 | the worker's loop is a run of the delivery state machine |
| DeliveryRetries.GivenUpUntilForced | skr_crypto/server/webhooks.py:209-229 | a given-up row is never posted again and never changes before somebody forces it |
| DeliveryRetries.ForceRetryHappens | skr_crypto/server/webhooks.py:291-308 | in every reachable state a forced retry of a given-up row is counted and makes it due at once with its attempts kept |
| DeliveryRetries.RetryBuysOnePost | skr_crypto/server/webhooks.py:291-453 | from every reachable state with a given-up row there is a run with one forced retry and exactly one further POST of it, which delivers it or gives it up again as the answer says |
| DeliveryRetries.BoundReached | skr_crypto/server/webhooks.py:382-453 | for every schedule and all numbers of forced retries and forgotten POSTs there is a run that makes every POST that PostsBounded allows, so that bound is exact |
| AuditFanout.AuditTrail.Record | skr_crypto/server/audit.py:118-183 | number, durable write first, then both queues; a durable write that raises, its line written or not, uses up the number and derives nothing |
| AuditFanout.AuditTrail.EnqueueEvent | skr_crypto/server/webhooks.py:537-566 | one row per URL whose insert works, for events of the filter only |
| AuditFanout.AuditTrail.NotifyEvent | skr_crypto/server/alerts.py:678-712 | at most one alert, for entries that match a rule and are not silenced by quiet hours |
| AuditFanout.AuditTrail.DeliverWebhook | skr_crypto/server/webhooks.py:423-444 | a give-up writes its audit record, which may enqueue more work |
| AuditFanout.FanoutExact | skr_crypto/server/webhooks.py:559-566 | an event's inserts leave exactly one pending row for each URL whose insert works, in order, and change no other row |
| AuditFanout.FanoutComplete | skr_crypto/server/webhooks.py:559-566 | every insert that works has its row, with the URL of its place |
| AuditFanout.AlertedExactly | skr_crypto/server/alerts.py:664-712 | an entry is alerted if and only if its write is durable, alerts are on, the filter, the threshold or the sanctions rule asks for it, it is critical or the hour is not quiet, and the insert works |
| AuditFanout.GiveupIsLogged | skr_crypto/server/webhooks.py:423-444 | a webhook POST writes WEBHOOK_GIVEUP if and only if the worker gives the delivery up |
| AuditInterleavings.NumbersDistinct | skr_crypto/server/audit.py:48-52 | in every interleaving of calls the numbers in the log are distinct, each with its own call's entry |
| AuditInterleavings.DeliveriesAreLogged | skr_crypto/server/audit.py:162-183 | in every interleaving each webhook and each alert goes back to an entry that was durably written before and that its queue asks for, and no entry gets two alerts |
| AuditInterleavings.OrderedIffNotOvertaken | skr_crypto/server/audit.py:92-183 | in every interleaving, writes that raise after their line landed included, the log is in the order of its numbers if and only if no record is both numbered and written between another's number and its write |
| AuditInterleavings.OutOfOrderRun | skr_crypto/server/audit.py:48-109 | two calls can leave the log out of order |
| AuditInterleavings.AloneIsRecorded | skr_crypto/server/audit.py:118-183 | from every state a call that nobody disturbs has the effect of the record method, ends as it does, and leaves every other call where it was |
| AuditInterleavings.OneMove | skr_crypto/server/audit.py:118-183 | a call has one kind of step at each place, and none once it has returned or raised |
| AuditInterleavings.PostsAgree | skr_crypto/server/webhooks.py:382-457 | a POST of either queue is one try of its row as it stands, and a give-up leads to the WEBHOOK_GIVEUP record |
| Quiescence.WebhookBurns | skr_crypto/server/webhooks.py:382-457 | without feedback, each webhook POST, its give-up record and that record's alert included, lowers the joint measure of both queues |
| Quiescence.AlertBurns | skr_crypto/server/alerts.py:510-567 | each alert POST lowers it too |
| Quiescence.PostsArePaidFor | skr_crypto/server/webhooks.py:382-566 | without feedback, POSTs plus the measure never exceed what the external records grant; webhook POSTs are at most URLs times max(1, schedule length) per matching record |
| Quiescence.QuiescesWithoutFeedback | skr_crypto/server/webhooks.py:382-566 | after the last external record at most as many POSTs follow as the measure says |
| QuiescenceBound.MeasureIsUsedUp | skr_crypto/server/webhooks.py:382-566 | from every state there is a run without external records that makes exactly as many POSTs as the measure says and ends at rest |
| QuiescenceBound.EveryGrantIsUsed | skr_crypto/server/webhooks.py:382-566 | for any external records whose inserts work there is a run that makes every POST they and the pending rows pay for, over both queues and over the webhook queue alone, so the bounds of PostsArePaidFor are exact |
| Quiescence.OneAlertPerRecord | skr_crypto/server/alerts.py:678-712 | the alert queue grows by at most one row per audit record |
| FeedbackRuns.WorkerRunsAreRuns | skr_crypto/server/webhooks.py:370-457 | every run of the worker, ticks and clock included, makes the POSTs of a run the measure bounds |
| FeedbackRuns.EndlessWithFeedback | skr_crypto/server/webhooks.py:370-457 | with WEBHOOK_GIVEUP in the filter and a URL, from one pending webhook the worker can make any number of POSTs, each of a row due when taken, without an external record |
| FeedbackRuns.QuiescentIff | skr_crypto/server/webhooks.py:370-566 | with a webhook pending, the worker's POSTs are bounded if and only if give-ups are not fed back |
| Keystore.KeystoreFile.LoadKeystore | skr_crypto/server/encrypted_keystore.py:207-318 | loading returns the entries in stored order or the first error, in the order the code checks |
| Keystore.KeystoreFile.SaveKeystore | skr_crypto/server/encrypted_keystore.py:378-425 | saving refuses duplicates and invalid keys before it writes anything, and draws a nonce for each wallet |
| Keystore.KeystoreFile.InitKeystore | skr_crypto/server/encrypted_keystore.py:342-375 | an empty keystore, never over an existing one unless asked, never under an empty passphrase |
| Keystore.KeystoreFile.AddWallet | skr_crypto/server/encrypted_keystore.py:444-463 | appends one entry under the old salt, or changes nothing |
| Keystore.KeystoreFile.RemoveWallet | skr_crypto/server/encrypted_keystore.py:466-482 | drops the named entry and returns it |
| Keystore.KeystoreFile.RenameWallet | skr_crypto/server/encrypted_keystore.py:485-502 | renames in place; the new name must be free |
| Keystore.KeystoreFile.AtomicWrite | skr_crypto/server/encrypted_keystore.py:510-538 | the file steps with a crash after any of them |
| KeystoreAlgebra.SaveMeaning | skr_crypto/server/encrypted_keystore.py:400-416 | serialising works if and only if names are distinct and keys valid, and then seals every entry under its own name |
| KeystoreAlgebra.SaveNoncesDiffer | skr_crypto/server/encrypted_keystore.py:400-416 | in a saved file wallet i is sealed under the i-th nonce drawn, so pairwise different draws give pairwise different nonces |
| KeystoreAlgebra.NoncesNeverReused | skr_crypto/server/encrypted_keystore.py:444-502 | over any run of calls and crashes with draws that never repeat, no two wallets that are ever sealed share a nonce |
| KeystoreAlgebra.FileNoncesDiffer | skr_crypto/server/encrypted_keystore.py:444-502 | after any such run the wallets of the file have pairwise different nonces |
| KeystoreAlgebra.LoadRefuses | skr_crypto/server/encrypted_keystore.py:207-275 | a missing file, a file others may read, another version and a malformed file are refused with their own errors, each exactly when it is so, before anything is decrypted |
| KeystoreAlgebra.LoadAfterSave | skr_crypto/server/encrypted_keystore.py:207-425 | a save that works loads as the same entries in order if and only if no name is empty; another passphrase is accepted if and only if there are no wallets |
| KeystoreAlgebra.LoadedWasSealed | skr_crypto/server/encrypted_keystore.py:271-318 | every loaded entry was sealed under this key for this very name; names are distinct and not empty, keys valid |
| KeystoreAlgebra.SwapRejected | skr_crypto/server/encrypted_keystore.py:33-34 | ciphertexts moved between wallets of a file do not load |
| KeystoreAlgebra.EditsKeepDistinct | skr_crypto/server/encrypted_keystore.py:444-502 | add, remove and rename keep names distinct and keys valid |
| KeystoreAlgebra.EditMeaning | skr_crypto/server/encrypted_keystore.py:444-502 | when each edit applies, with which error it does not, and that it leaves every other entry as and where it was |
| KeystoreAlgebra.WithoutMembers | skr_crypto/server/encrypted_keystore.py:477-477 | removing keeps exactly the entries of other names |
| KeystoreAlgebra.AddThenRemove | skr_crypto/server/encrypted_keystore.py:444-482 | removing what was just added restores the list |
| KeystoreAlgebra.RenameBack | skr_crypto/server/encrypted_keystore.py:485-502 | renaming back restores the list, order included |
| KeystoreAlgebra.WriteIsAtomic | skr_crypto/server/encrypted_keystore.py:510-538 | wherever a write dies the path holds the old file or the whole new one, the new one if and only if the rename is reached and allowed, and nothing it leaves is readable by others |
| KeystoreAlgebra.RunLoads | skr_crypto/server/encrypted_keystore.py:342-538 | any run of calls, each dying after any of its file steps or not at all, loads under any passphrase as the list operations of the calls whose rename was reached |
| KeystoreAlgebra.NamedRunsLoad | skr_crypto/server/encrypted_keystore.py:287-290 | while nobody adds or renames to the empty name, every keystore that exists loads under its passphrase |
| EnvFile.ReadEnv | scripts/setup.py:104-126 | the reader computes the environment line by line, later lines overriding earlier ones |
| EnvFile.ReadLine | skr_crypto/cli/config.py:76-89 | one line: comment, key, value trimmed, cut at an inline comment, unquoted |
| EnvFile.WriteEnv | scripts/setup.py:129-179 | the grouped printer prints header, non-empty groups and extras |
| EnvFile.WriteEnvFile | skr_crypto/cli/config.py:93-97 | the flat printer prints the non-empty entries |
| EnvLines.ReadBackExact | scripts/setup.py:113-125 | a one-line value comes back unchanged if and only if it is trimmed, has no " #" and is not quoted |
| EnvLines.ReadsOneLine | scripts/setup.py:113-125 | no text at all reads as a value with a line break in it |
| EnvLines.SettingParses | scripts/setup.py:101-119 | a printed setting is read as its key and its value's read-back |
| EnvLines.SplitJoined | scripts/setup.py:178-178 | splitting undoes joining, but for an empty last line |
| EnvReading.SplitAtBreak | scripts/setup.py:113-113 | a line ends at its first break of any kind, CR LF being one |
| EnvReading.ParsedSets | scripts/setup.py:101-119 | a line sets something only if it is a key, white space, an equals sign and a value |
| EnvReading.SetsParsed | scripts/setup.py:101-125 | and every such line sets that key to the value trimmed, cut and unquoted |
| EnvReading.CommentIsCut | scripts/setup.py:120-122 | from the first " #" on nothing belongs to the value, nor does the white space before it |
| EnvReading.ReadableIff | skr_crypto/cli/config.py:66-90 | some file sets a key to a value if and only if the value is one line without " #"; quoting writes every such value |
| EnvRoundTrip.FlatRoundTrip | skr_crypto/cli/config.py:66-96 | the flat printer's file reads as exactly the non-empty entries, each printed once, if and only if their values are clean |
| EnvRoundTrip.PrintedOnce | scripts/setup.py:158-177 | grouping loses no non-empty entry and repeats none |
| EnvRoundTrip.GroupedRoundTrip | scripts/setup.py:96-179 | through header, groups and extras, the file reads as exactly the non-empty entries if and only if their values are clean |
| EnvRoundTrip.SetupGroups | scripts/setup.py:131-153 | the installed groups name no key twice and have one-line titles |

## Left out

- SendPipeline: a broadcast that raises although it landed on chain is not an accepted broadcast; several processes on one database are not modelled.
- Idempotency: `process_id`, `updated_at` and the retry after a lost INSERT race, which one shared condition excludes. A failing statement or commit either takes effect or is rolled back, as SQLite does on disk errors; a transaction left open by a failing commit is not modelled, since the statement before it already holds the write lock.
- ReceiptPoller: ticks of a poller without a database, whose candidates only tests supply, `last_error`, the lag gauge and `get_status`.
- RateLimit: the rollback path of `_check_sqlite`, where the exception reaches the caller and the row stays as it was; several threads inside `check` at once, since its only caller is the middleware on the event loop (`skr_crypto/server/server.py:221-237`).
- Delivery: signing and verifying payloads, `list_recent`, HTTP headers; two workers alive after a re-initialisation.
- AuditFanout: AuditTrail.Record is one thread's call; what other threads do in between is AuditInterleavings. Not modelled: opening and closing the audit file, the process prefix of record numbers, message formatting, the hour arithmetic of quiet hours, parsing an amount against the threshold.
- Quiescence: one record is one step there; forced retries and POSTs whose outcome is never recorded, which DeliveryRuns counts.
- Keystore: passphrase sources, `list_wallet_names`, partial writes of the temporary file beyond "garbled", names that are not valid UTF-8.
- EnvFile: file modes, backups, the missing-file cases, and keys outside the key pattern, which the readers skip.
- Reporting: reading JSON lines, CSV and XLSX rendering, the sparkline, `list_sanctions_hits`, and splitting "YYYY-MM" into two numbers.
- Fees: Decimal context precision, retries of RPC calls, the contract cache, building and signing a transaction.
- Wallet auto-pick, risk screening, token scopes, validators, metrics, the CLI, the install wizard, the web interface and the shutdown timer: finite or one-branch logic, or input and output.
