# Verification of the central auth service's state machines

This project models the parts of the auth service whose correctness depends on many calls
together: the communication job queue and its worker, refresh token families, the rate limits
and one-time codes, two once-only protocols, and the loops and listings that have a simple
specification. Check it with `dafny verify dfyconfig.toml`.

## How it is built

Where the service changes stored state in place, a class holds that state in fields and its
methods make the same changes in the same order; each method is proved equal to a function on
the whole state (`View() == Spec(old(View()))`). The properties are then proved about those
functions, over every run. A run is a sequence of steps; for the once-only protocols a step is
one database call of one request, and requests interleave freely.

| file | what it models |
|---|---|
| `CommunicationQueue.dfy`, `JobCounts.dfy` | the queue functions over the Redis lists, the delayed set, dedupe locks and state records |
| `SingleWorker.dfy`, `CommunicationWorker.dfy` | all runs with one worker, crashes included; the worker loop is one of them |
| `RetrySchedule.dfy`, `JobContents.dfy`, `DedupeLocks.dfy` | when a failed job comes back, that a worker is handed what was pushed, and how long a lock swallows its payload |
| `ManyWorkers.dfy`, `Overtaking.dfy` | all runs with any number of workers, slow ones included, each queue call being one step, and exactly when they conserve jobs |
| `InterleavedCommands.dfy` | the same with each Redis command as one step: overlapping calls, and crashes inside a call |
| `UninterruptedCalls.dfy` | a call whose commands nobody interrupts is the call as one step |
| `RefreshTokens.dfy`, `TokenFamilies.dfy` | token and session tables; every sequential run of login, refresh, logout, revocation, reset and pruning |
| `FamilyReach.dfy` | how far each of these calls reaches: which rows change into what, which families stay, how long a token works, why one is refused |
| `FixedWindow.dfy`, `RateLimit.dfy`, `WindowLoop.dfy`, `AbuseLimits.dfy`, `AbuseWindows.dfy`, `EventLimits.dfy` | fixed windows, the route limiter, the loop over several windows, blocks, and what they mean counter by counter |
| `LoginOtp.dfy` | one-time login codes: attempts, expiry and resend cooldown |
| `MobileAuthCode.dfy` | exchanges of mobile codes under any interleaving |
| `CommunicationEvents.dfy` | submissions of external events under any interleaving |
| `CredentialEncryption.dfy`, `KeyRotation.dfy` | the key ring and the re-encryption loop; the cipher is a parameter |
| `RetentionPruning.dfy` | batch deletion, and its link to the pruning step of the token families |
| `KeysetPages.dfy` | keyset pages over a table that changes between requests |
| `HtmlEscape.dfy` | the three HTML escapers |

Time is integer milliseconds. A Redis key set for T at `now` is alive while the clock is below
`now + T`. Hashes, ciphers, JSON and number formatting are function parameters; a lemma names the
property of them it needs (`Faithful`, `Sound`, `Authentic`).

## What the proofs found

* With one worker the queue conserves jobs exactly, but a job whose worker crashed stays in the
  processing list for good once its state record has expired (a day), because recovery skips
  entries without a record (`SingleWorker.ForgottenForever`, `ForgottenReachable`).
* With one worker a job is recovered at most as often as a crash struck while it was in hand, so
  without crashes it is run at most `max(1, maxAttempts - attempts)` times
  (`SingleWorker.RecoveriesArePaid`, `HandlerRuns`).
* With several workers, and with each queue call as one indivisible step, nothing is lost
  (`ManyWorkers.NoJobIsLost`), but a merely slow job can be requeued and delivered twice
  (`Overtaking.SlowWorkerDeliversTwice`). Exact conservation with one holder per job then lasts
  through a run if and only if no recovery pass finds a job in a worker's hand stale
  (`Overtaking.ExclusiveExactly`).
* The calls of several workers are not indivisible. Two promotions that overlap put a job on the
  queue twice, without any recovery (`InterleavedCommands.PromotedTwice`), and a crash between the
  two commands of a retry or a burial loses the job (`InterleavedCommands.CrashLosesJob`). Command by
  command, jobs are conserved exactly, each in one hand at most, if and only if no worker promotes an
  entry that is no longer delayed, requeues one that is gone or in some worker's hand, or crashes with
  a job between two lists (`InterleavedCommands.ExclusiveExactly`). A job is then delivered at most
  once unless a worker dies between delivering and acknowledging it
  (`InterleavedCommands.DeliveredOnce`, `ForgottenDelivery`).
* "One open job per payload" holds in every state of a run if and only if no push comes after the
  dedupe lock lapsed while its job was still open (`SingleWorker.OnePerKeyExactly`); two pushes are
  enough to break it (`SingleWorker.LapseReachable`). A dead letter keeps its lock, so its payload
  is swallowed exactly while that lock is alive (`SingleWorker.DeadLetterSwallows`). The job id in
  the reply to a duplicate names no job (`SingleWorker.DuplicateReplyNamesNoJob`).
* A lock swallows its payload until its deadline or until a job of the payload is acknowledged
  (`DedupeLocks.SwallowsUntil`). After a lapse that can be the older job, which takes the newer one's
  lock with it (`DedupeLocks.FreedByAnother`); without a lapse it is the job itself (`SwallowsItsJob`).
* A dead job was run within its attempts if and only if it had one left when it was pushed;
  otherwise it was run once all the same (`SingleWorker.RunsOfDeadJob`, `NoAttemptsStillRuns`).
* `docs/security.md:18` promises that presenting any revoked token ends the whole family. The code
  reacts only to rotated tokens, yet the promise holds for the tokens: a revoked token that was not
  rotated is the last of its family. The session row, however, is ended only by a rotated one
  (`TokenFamilies.RevokedTokenPresented`; `TokenFamilies.SessionSurvives` is a run where it lives on).
* Pruning old sessions locks out a usable token if and only if the session row was created before
  the cutoff and is past its own deadline (`TokenFamilies.PruningLocksOutExactly`). That happens to
  families in daily use, because rotation renews tokens and not the session row
  (`TokenFamilies.PruningCanLockOut`).
* A password reset revokes tokens and leaves sessions, the administrator's revocation does the
  opposite; either way no token of the user works again (`TokenFamilies.EndedForGood`).
* The in-memory limiter lets the hit that opens a window through whatever the limit, and still
  counts at its reset time (`RateLimit.ZeroLimit`, `RateLimit.Limiter.Check`).
* The bound `2 * limit - 1` is reached (`FixedWindow.SlidingBoundReached`).
* A mobile code's deadline is compared only when its row is read (`MobileAuthCode.ConsumesAfterExpiry`).
  A winner gets nothing, the code being consumed, exactly when its key ring no longer finds the key
  of the code (`MobileAuthCode.DeliveredExactly`, `KeyCanBeLost`).
* An event whose submission stopped after creating the record stays PROCESSING; its key is answered
  as already accepted from then on although nothing more is sent (`CommunicationEvents.StalledForGood`).
* A chain of five replacement passes is the one-pass escaper exactly when `&` comes first
  (`HtmlEscape.ChainIsEscape`).

## Model

| member | source | states |
|---|---|---|
| `CommunicationQueue.RedisQueue.EnqueueCommunicationJob` | src/lib/communicationQueue.ts:104-139 | A live lock of the same payload leaves the store as it was; otherwise the lock is taken and the new job is pushed at the left of the queue; a duplicate is told so. |
| `CommunicationQueue.RedisQueue.ReserveNextCommunicationJob` | src/lib/communicationQueue.ts:141-149 | The oldest queue entry moves to the processing list and its record says so; with an empty queue nothing changes. |
| `CommunicationQueue.RedisQueue.AcknowledgeCommunicationJob` | src/lib/communicationQueue.ts:151-157 | One processing entry goes, the lock is freed, the record says sent; nothing else changes. |
| `CommunicationQueue.RedisQueue.MoveCommunicationJobToDlq` | src/lib/communicationQueue.ts:159-166 | The processing entry becomes a dead letter; the lock stays. |
| `CommunicationQueue.RedisQueue.ScheduleCommunicationRetry` | src/lib/communicationQueue.ts:168-185 | The processing entry becomes a delayed one with one more attempt, due after the delay. |
| `CommunicationQueue.RedisQueue.ZRangeByScore` | src/lib/communicationQueue.ts:202 | The answer is a due batch: in score order, at most 50, none left out while there was room. |
| `CommunicationQueue.RedisQueue.PromoteDueCommunicationJobs` | src/lib/communicationQueue.ts:198-211 | Exactly the due batch moves from the delayed set to the queue, in order, and its size is returned. |
| `CommunicationQueue.RedisQueue.RecoverStalledCommunicationJobs` | src/lib/communicationQueue.ts:213-239 | The loop equals one simultaneous pass: each processing entry is kept, discarded or requeued by its own record, and the requeued ones are counted. |
| `CommunicationQueue.RecoverTurn` | src/lib/communicationQueue.ts:218-233 | Removing the first equal entry removes the one the loop is at, also with equal entries in the list. |
| `CommunicationQueue.SelectFate` | src/lib/communicationQueue.ts:221-233 | The entries of one fate are exactly those whose record gives them that fate. |
| `JobCounts.EnqueueEntries` | src/lib/communicationQueue.ts:124-131 | A push adds one entry of the new id, or none if the payload is locked. |
| `JobCounts.ReserveEntries` | src/lib/communicationQueue.ts:144-147 | Reserving changes no id's number of entries. |
| `JobCounts.AcknowledgeEntries` | src/lib/communicationQueue.ts:154 | Acknowledging takes away one entry of the job's id, if it was being processed. |
| `JobCounts.MoveToDlqEntries` | src/lib/communicationQueue.ts:163-164 | Dead-lettering adds one entry of the job's id and takes away the processing one, if there is one; other ids keep theirs. |
| `JobCounts.ScheduleRetryEntries` | src/lib/communicationQueue.ts:177-178 | Scheduling a retry takes away the processing entry, if there is one, and adds a delayed one, unless the very same delayed job is there already. |
| `JobCounts.PromoteEntries` | src/lib/communicationQueue.ts:204-209 | Promotion keeps the number of entries of every id. |
| `JobCounts.RecoverEntries` | src/lib/communicationQueue.ts:216-233 | Recovery keeps every entry but the discarded ones. |
| `SingleWorker.InvRun` | src/workers/communication.worker.ts:114-125 | The invariant of the single-worker system holds in every state of every run that starts with it. |
| `SingleWorker.ExactlyOnePlace` | src/lib/communicationQueue.ts:104-239 | Over every run with one worker and crashes between calls, a pushed id is in exactly one of queue, processing, delayed, dead letters or acknowledged, once; other ids are nowhere. |
| `SingleWorker.AttemptLedger` | src/workers/communication.worker.ts:84-97 | Reservations equal attempts made plus recoveries plus one while working, buried or done; the work is unchanged, attempts stay below the maximum, a dead letter is on its last attempt. |
| `SingleWorker.RecordTellsPlace` | src/lib/communicationQueue.ts:147-184 | Wherever a job is, other than waiting, its state record has its attempt and says processing, retrying, dlq or sent if and only if it is in that place. |
| `SingleWorker.RecoveriesArePaid` | src/lib/communicationQueue.ts:213-233 | Over every run a job is recovered at most as often as the worker crashed with it in hand. |
| `SingleWorker.HandlerRuns` | src/workers/communication.worker.ts:84-97 | So a job is run at most max(1, maxAttempts - attempts) times plus once per such crash. |
| `SingleWorker.NoEarlyRetry` | src/workers/communication.worker.ts:90-92 | A retry is handed out only after min(60 s doubled per attempt, 24 h) since the failure. |
| `RetrySchedule.DelayDoubles` | src/workers/communication.worker.ts:90-92 | A failed job is parked with one more attempt, its error and its due time; a first failure waits 60 s, and one more attempt doubles the wait up to 24 h. |
| `RetrySchedule.RetriedOrBuried` | src/workers/communication.worker.ts:90-96 | A failure parks the job while an attempt is left and otherwise makes it a dead letter with the time and the error. |
| `RetrySchedule.DueOnceOver` | src/lib/communicationQueue.ts:176-202 | Over every run a parked job is due if and only if its whole backoff has passed since the failure. |
| `RetrySchedule.FiftyAtATime` | src/lib/communicationQueue.ts:202 | A promotion moves as many jobs as are due, at most fifty, and none that is left was due earlier than one that went. |
| `SingleWorker.RecoveryExact` | src/lib/communicationQueue.ts:213-239 | A processing entry is requeued if and only if its record is alive and stale, and otherwise stays. |
| `RetrySchedule.RecoveryFates` | src/lib/communicationQueue.ts:216-233 | On any store: an entry is dropped if and only if its live record says sent or dlq, goes back if and only if it says anything else and is stale, and stays otherwise; nothing else changes. |
| `RetrySchedule.RecoveryWindow` | src/lib/communicationQueue.ts:147-233 | A job whose worker died is put back if and only if the pass comes at least the threshold and less than a day after it was reserved. |
| `SingleWorker.NothingDiscarded` | src/lib/communicationQueue.ts:224-227 | With one worker recovery never takes the branch that discards. |
| `SingleWorker.ForgottenForever` | src/lib/communicationQueue.ts:222 | A crashed job whose record has expired stays in the processing list through every later run. |
| `SingleWorker.ForgottenReachable` | src/lib/communicationQueue.ts:147-222 | Such a job is reachable: reserve, crash, and no recovery for a day. |
| `SingleWorker.OnePerKeyExact` | src/lib/communicationQueue.ts:124-131 | A step keeps at most one open job per payload if and only if it is not a push after the lock lapsed before its job was done. |
| `SingleWorker.OnePerKeyExactly` | src/lib/communicationQueue.ts:124-131 | Every state of a run has at most one open job per payload if and only if no step of the run lapses. |
| `SingleWorker.LapseReachable` | src/lib/communicationQueue.ts:124-131 | Two pushes of one payload, the second when the first lock is over, reach a state with two open jobs. |
| `SingleWorker.DuplicateIsBacked` | src/lib/communicationQueue.ts:124-128 | Whenever a push is answered as a duplicate, the lock names a job of that payload with exactly one entry. |
| `SingleWorker.OneJobPerPayload` | src/lib/communicationQueue.ts:115-166 | In a run without a lapse, two unacknowledged entries of one payload are the same entry, and the lock stores its id. |
| `SingleWorker.NeverExpiresNoLapse` | src/lib/communicationQueue.ts:124 | A run in which no lock expires has no lapse. |
| `SingleWorker.DeadLetterSwallows` | src/lib/communicationQueue.ts:124-166 | In a run without a lapse a dead letter still holds its lock, and a push of its payload changes nothing if and only if that lock is alive. |
| `SingleWorker.DuplicateReplyNamesNoJob` | src/lib/communicationQueue.ts:125-128 | The id returned for a duplicate was not pushed, has no entry anywhere, and is not the one the lock names. |
| `DedupeLocks.SwallowsUntil` | src/lib/communicationQueue.ts:124-155 | From an accepted push until its deadline the lock stands if and only if no job of the payload was acknowledged, and while it stands a push of the payload changes nothing. |
| `DedupeLocks.SwallowsItsJob` | src/lib/communicationQueue.ts:124-155 | In a run without a lapse every push of the payload before the deadline is swallowed until the job itself is acknowledged. |
| `DedupeLocks.FreedByAnother` | src/lib/communicationQueue.ts:124-155 | After a lapse it is not: the older job of the payload is acknowledged, and a third push is accepted before the deadline of the second, still open one. |
| `DedupeLocks.AcceptedAfterwards` | src/lib/communicationQueue.ts:124-131 | A lock that still stands lets a push through if and only if its deadline has come. |
| `JobContents.AsPushed` | src/lib/communicationQueue.ts:115-122 | Over every run each job anywhere was pushed with its type, payload, key and limits, defaults included, and is on the attempt that its failures make it. |
| `JobContents.DeadLettersStay` | src/lib/communicationQueue.ts:159-164 | No dead letter is ever taken out or changed. |
| `SingleWorker.RunsOfDeadJob` | src/workers/communication.worker.ts:90-96 | A dead job was run max(1, maxAttempts - attempts) times plus once per recovery, which is within its attempts if and only if it had one left when pushed. |
| `JobContents.DefaultRuns` | src/lib/communicationQueue.ts:88-121 | Pushed without settings, a mail or text message that dies was run five times and any other job three times, recoveries aside. |
| `SingleWorker.NoAttemptsStillRuns` | src/workers/communication.worker.ts:90-96 | A job with no attempts is run once, becomes a dead letter, and the next push of its payload is swallowed. |
| `CommunicationWorker.Worker.HandleJob` | src/workers/communication.worker.ts:84-97 | Success acknowledges; failure schedules a retry while attempts remain and dead-letters otherwise; `RetrySchedule.DelayDoubles` says after what delay. |
| `CommunicationWorker.Worker.Pass` | src/workers/communication.worker.ts:117-123 | One pass promotes a due batch, recovers, reserves and handles, in that order. |
| `CommunicationWorker.Worker.Loop` | src/workers/communication.worker.ts:114-125 | The loop makes every pass once and in order, each promoting what was due at its time, and the store is what those passes leave. |
| `CommunicationWorker.PassIsRun` | src/workers/communication.worker.ts:116-124 | One pass from an idle state is a legal run of the single-worker system and ends idle. |
| `CommunicationWorker.PassBringsBack` | src/workers/communication.worker.ts:117-123 | A pass puts a crashed job back on the queue, or hands it out at once, if and only if it comes at least five minutes after the record was written and before that expires. |
| `CommunicationWorker.LoopIsRun` | src/workers/communication.worker.ts:114-125 | Any number of passes is a legal run of the single-worker system that ends with no job in hand. |
| `ManyWorkers.NoJobIsLost` | src/lib/communicationQueue.ts:141-239 | With each queue call as one indivisible step: with any number of workers, slow workers and crashes between calls, every pushed job is in some list or was acknowledged. |
| `ManyWorkers.TruthfulNext` | src/lib/communicationQueue.ts:155-165 | Every step keeps that a record saying sent or dead tells the truth, which recovery relies on when it discards. |
| `ManyWorkers.NothingInvented` | src/lib/communicationQueue.ts:104-239 | Every entry, duplicates included, is a pushed job with its work unchanged and its attempts in bounds; only pushed jobs are acknowledged. |
| `ManyWorkers.FirstComeFirstServed` | src/lib/communicationQueue.ts:131-231 | Over any run the jobs handed out followed by those still waiting are exactly the jobs that waited at the start followed by those that came, in the same order: pushes, promotions and recoveries all join at the end. |
| `Overtaking.OvertakenWaits` | src/lib/communicationQueue.ts:213-233 | Recovery puts a job in a worker's hand back on the queue, the worker still having it, if and only if its record is alive and stale; otherwise it stays in processing. |
| `Overtaking.ExclusiveStep` | src/lib/communicationQueue.ts:228-232 | A step keeps exact conservation, one holder per job and agreeing records if and only if it is not a recovery pass that finds a held job stale. |
| `Overtaking.ExclusiveExactly` | src/lib/communicationQueue.ts:141-239 | With each queue call as one indivisible step: for any number of workers and crashes, every state of a run is so if and only if no step of it overtakes a worker. Two promotions that overlap also copy a job; see `InterleavedCommands`. |
| `Overtaking.ExactlyOnePlace` | src/lib/communicationQueue.ts:104-239 | With each queue call as one indivisible step: in a run without overtaking every pushed id is in exactly one of queue, processing, delayed, dead letters or acknowledged, once. |
| `Overtaking.DeliveredOnce` | src/lib/communicationQueue.ts:151-157 | With each queue call as one indivisible step: in a run without overtaking a job is delivered and acknowledged at most once. |
| `Overtaking.SlowWorkerDeliversTwice` | src/lib/communicationQueue.ts:213-239 | A run in which a slow worker is overtaken and two workers deliver the same job. |
| `InterleavedCommands.KeptStep` | src/lib/communicationQueue.ts:151-233 | With every Redis command as one step: from a state whose records and readings are true, a command or crash leaves a job acknowledged, in some list or on its way between two, if and only if it is not a crash that drops the last of it. |
| `InterleavedCommands.NoJobIsLost` | src/lib/communicationQueue.ts:104-239 | Over every run of interleaved commands without such a crash every deposited job is acknowledged, in some list, or on its way between two of them. |
| `InterleavedCommands.CrashLosesJob` | src/lib/communicationQueue.ts:159-185 | For every request a run in which a worker crashes between the first two commands of ending a failed job, and the job is nowhere. |
| `InterleavedCommands.ExclusiveStep` | src/lib/communicationQueue.ts:198-233 | A command keeps exact conservation, one holder per job, true records and readings of known jobs, if and only if it neither promotes a job no longer delayed, nor requeues one that is gone or in a hand, nor crashes with a job on its way. |
| `InterleavedCommands.ExclusiveExactly` | src/lib/communicationQueue.ts:104-239 | Over any interleaving of commands of any number of workers and producers, every state is so if and only if no command of the run breaks it. |
| `InterleavedCommands.ExactlyOnePlace` | src/lib/communicationQueue.ts:104-239 | In such a run a deposited id is in exactly one list, on its way between two, or acknowledged, once; other ids are nowhere. |
| `InterleavedCommands.DeliveredOnce` | src/workers/communication.worker.ts:84-97 | In such a run a job whose workers do not die between delivering and acknowledging is delivered at most once; it was delivered if and only if it is acknowledged or about to be. |
| `InterleavedCommands.PromotedTwice` | src/lib/communicationQueue.ts:198-211 | A run without any recovery in which two workers read the same due batch and the job is on the queue twice. |
| `InterleavedCommands.ForgottenDelivery` | src/lib/communicationQueue.ts:151-157 | For every request a run that breaks nothing, in which a worker dies before acknowledging and the job is delivered twice. |
| `UninterruptedCalls.PushAlone` | src/lib/communicationQueue.ts:124-131 | SET NX and LPUSH with nothing in between are the push as one step. |
| `UninterruptedCalls.ReserveAlone` | src/lib/communicationQueue.ts:144-147 | BRPOPLPUSH and SET are the reservation. |
| `UninterruptedCalls.FinishAlone` | src/workers/communication.worker.ts:84-97 | The commands after the handler are the worker's decision: acknowledge, retry or bury. |
| `UninterruptedCalls.PromoteAlone` | src/lib/communicationQueue.ts:198-211 | The read and the MULTI are the promotion. |
| `UninterruptedCalls.RecoverAlone` | src/lib/communicationQueue.ts:213-239 | LRANGE and then GET, LREM and LPUSH entry by entry are the recovery pass. |
| `RefreshTokens.AuthService.LoginUser` | src/modules/auth/auth.service.ts:472-525 | Login adds one session and one token of its family, bound to the given or the internal client, and nothing else. |
| `RefreshTokens.AuthService.RevokeFamily` | src/modules/auth/auth.service.ts:632-654 | Every unrevoked token of the family and its session are revoked with the reason, for that user only; `FamilyReach.RevokesExactly` says which rows these are. |
| `RefreshTokens.AuthService.RefreshTokens` | src/modules/auth/auth.service.ts:656-894 | The whole decision: reply and both tables equal the specification, branch by branch. |
| `RefreshTokens.AuthService.LogoutUser` | src/modules/auth/auth.service.ts:898-934 | A token with a family ends the family; otherwise that token, and the user's sessions at the address. |
| `RefreshTokens.AuthService.RevokeByIds` | src/modules/auth/auth.service.ts:981-1006 | Exactly the user's listed live sessions and the live tokens of those families are revoked, and both are counted. |
| `RefreshTokens.NothingPicked` | src/modules/auth/auth.service.ts:986-988 | The early return on an empty list leaves out no change. |
| `RefreshTokens.AuthService.RevokeAll` | src/modules/auth/auth.service.ts:1008-1027 | The same for all live sessions of the user but the excluded one; the counts are of those. |
| `RefreshTokens.AuthService.ResetPasswordTokens` | src/modules/auth/auth.service.ts:1653-1657 | All live tokens of the user are revoked without a reason; sessions are untouched. |
| `RefreshTokens.AuthService.AdminRevokeUserSessions` | src/modules/admin/admin.service.ts:490-513 | All live sessions of the user are revoked and counted; tokens are untouched. |
| `TokenFamilies.InvRun` | src/modules/auth/auth.service.ts:632-1027 | The family invariant holds in every state of every run that starts with it. |
| `TokenFamilies.ChainShape` | src/modules/auth/auth.service.ts:830-859 | After any run, pruning included, the rows of a family are exactly the last tokens issued to it, all of one user, each linked to the next; a row has a successor if and only if it was rotated, and only the last can be unrevoked. |
| `TokenFamilies.ReplayKillsFamily` | src/modules/auth/auth.service.ts:684-748 | Replaying a rotated token leaves every row of its family revoked and its session revoked or gone, in every later state. |
| `TokenFamilies.RevokedTokenPresented` | src/modules/auth/auth.service.ts:683-763 | Presenting any revoked token leaves no unrevoked token in its family; the session ends if and only if the token had been rotated or it had ended before. |
| `TokenFamilies.SessionSurvives` | src/modules/auth/auth.service.ts:683-763 | A run where a token revoked by a password reset is presented again and the session row stays alive. |
| `TokenFamilies.EndedForGood` | src/modules/auth/auth.service.ts:774-791 | After logout, revocation by id or of all, administrator revocation, password reset or a replay, no token ever issued to the family is accepted again, after any further run. |
| `TokenFamilies.IssuedExactly` | src/modules/auth/auth.service.ts:656-894 | In every reachable state a refresh yields a token if and only if it presents the newest token of a family, unrevoked, before its deadline, for the family's user, who is active, with the session row live, and from an origin that the named client allows. |
| `TokenFamilies.ExchangedAtMostOnce` | src/modules/auth/auth.service.ts:830-859 | Over any run one refresh token yields a new token at most once. |
| `TokenFamilies.ClientChangesAtMostOnce` | src/modules/auth/auth.service.ts:793-849 | Along the whole chain the bound client changes at most once, from the internal client without an audience to a client with one. |
| `TokenFamilies.OthersUntouched` | src/modules/auth/auth.service.ts:898-1027 | A logout, revocation or reset in one user's name changes no row or session of another user's family. |
| `FamilyReach.RevokesExactly` | src/modules/auth/auth.service.ts:898-1027 | After any run, a logout, revocation or reset revokes exactly the live rows and the session it is for, by family, owner, excluded session and address, at its time and with its reason; every other row of every family is as it was. |
| `FamilyReach.ReplayExactly` | src/modules/auth/auth.service.ts:684-748 | An outdated token presented the first time is marked, and every live row of its family and its session are revoked for reuse; presented again it changes nothing; other families are untouched. |
| `FamilyReach.OtherFamiliesUntouched` | src/modules/auth/auth.service.ts:632-1027 | After any run no login, refresh, replay, logout, revocation or reset changes a family it is not about, not even of the same user. |
| `FamilyReach.StillUsable` | src/modules/auth/auth.service.ts:656-894 | So a token that worked in such a family still does. |
| `FamilyReach.LoginTokenLife` | src/modules/auth/auth.service.ts:472-525 | A token given out at a login is accepted from its owner if and only if at most its lifetime has passed, and is refused as revoked afterwards. |
| `FamilyReach.RefreshedTokenLife` | src/modules/auth/auth.service.ts:838-849 | The same for a token given out by a refresh, from that refresh on. |
| `FamilyReach.SessionLife` | src/modules/auth/auth.service.ts:472-525 | The session row keeps client and address, and is pruned if and only if it is old and past the lifetime given at login. |
| `FamilyReach.RebindsExactly` | src/modules/auth/auth.service.ts:793-849 | The next token is bound to the named client if and only if that has an audience, and the bound one is the internal client and has none; otherwise the binding stays. |
| `FamilyReach.RefusalExactly` | src/modules/auth/auth.service.ts:683-812 | Why a token with a row is refused, in terms of its place in the family: reuse if and only if it is outdated, revoked if it is the newest and revoked or expired, then owner, account, session and origin in this order. |
| `FamilyReach.RefusalLeaves` | src/modules/auth/auth.service.ts:683-812 | A refusal other than for reuse changes nothing, save that a live token whose session is over is revoked for that. |
| `FamilyReach.UnknownRefused` | src/modules/auth/auth.service.ts:672-682 | A token without a row is refused as revoked and changes nothing. |
| `TokenFamilies.PruneRemovesInitialStretch` | src/services/retentionPruning.service.ts:105-113 | A pruned token was old and revoked or expired, and every token issued before it in its family goes or has gone with it. |
| `FamilyReach.PrunedExactly` | src/services/retentionPruning.service.ts:84-113 | Pruning takes exactly the rows created before the cutoff that are revoked or expired. |
| `TokenFamilies.PruningLocksOutExactly` | src/services/retentionPruning.service.ts:84-91 | After any run and a pruning of sessions, a token that was usable before is still accepted if and only if its session was created at or after the cutoff or is not past its deadline; otherwise the session is reported as ended. |
| `TokenFamilies.PruningCanLockOut` | src/services/retentionPruning.service.ts:84-91 | A run in which that locks out the newest token of a family in use. |
| `FixedWindow.WindowBound` | src/lib/antiAbuse.ts:161-167 | From the hit that opens a window, at most `limit` hits pass within its length. |
| `FixedWindow.SlidingBound` | src/lib/antiAbuse.ts:161-167 | For every trace, at most 2 * limit - 1 hits pass in any half-open interval of the window's length. |
| `FixedWindow.SlidingBoundReached` | src/lib/antiAbuse.ts:161-167 | For every limit and every length of at least 2 some trace reaches that bound. |
| `FixedWindow.RefusalJustified` | src/lib/antiAbuse.ts:161-167 | A refused hit follows `limit` admitted ones less than one window length earlier. |
| `RateLimit.Limiter.Check` | src/middleware/rateLimit.ts:20-75 | Redis or memory window: the key's window takes the hit, the answer is whether it passes, no other key changes; in production without Redis every request is unavailable. |
| `RateLimit.LimiterBound` | src/middleware/rateLimit.ts:25-74 | In both stores at most 2 * max - 1 requests pass in any interval of the configured length. |
| `RateLimit.LimiterWindowBound` | src/middleware/rateLimit.ts:25-74 | In both stores at most max requests pass from the one that opens a window until it ends. |
| `RateLimit.PassedIsAdmitted` | src/middleware/rateLimit.ts:59-74 | For a limit of at least one the memory window's free first hit makes no difference. |
| `RateLimit.LengthCovers` | src/middleware/rateLimit.ts:25-66 | A Redis window lasts the configured length rounded up to whole seconds, a memory window one millisecond longer than configured. |
| `WindowLoop.CounterStore.BumpWindow` | src/lib/antiAbuse.ts:161-167 | One increment, with a deadline when the counter is new, and whether it is within the limit. |
| `WindowLoop.CounterStore.BumpAll` | src/lib/antiAbuse.ts:449-474 | The loop bumps the applicable windows up to and including the first one over its limit, and names that one. |
| `WindowLoop.BumpsOnce` | src/lib/antiAbuse.ts:449-474 | With distinct keys each applicable window is bumped exactly once from its value before the loop, and no other counter moves. |
| `WindowLoop.LoopPassed` | src/lib/antiAbuse.ts:449-474 | A call that gets through has bumped every applicable window and each is within its limit. |
| `WindowLoop.LoopRefused` | src/lib/antiAbuse.ts:452-467 | A call refused at window n has bumped the applicable windows up to n once, the n-th is over, and the later ones are untouched. |
| `WindowLoop.PassedBound` | src/lib/antiAbuse.ts:449-474 | However a counter is bumped over a run, at most 2 * limit - 1 calls that count on it get through in an interval of its window's length. |
| `WindowLoop.BumpIsHit` | src/lib/antiAbuse.ts:161-167 | The Redis counter behaves as the abstract fixed window. |
| `AbuseLimits.PhoneNormalForm` | src/lib/antiAbuse.ts:146-159 | Normalising a number is idempotent, gives a leading plus, and ignores every character but digits and plus signs. |
| `AbuseLimits.OthersIgnored` | src/lib/antiAbuse.ts:152 | A character that is neither a digit nor a plus sign makes no difference. |
| `AbuseLimits.NationalNumber` | src/lib/antiAbuse.ts:153-157 | A number with a plus sign is kept; eleven digits from 01 on mean the same as with +88 before them, any other number the same as with a plus sign. |
| `AbuseLimits.WindowsDistinct` | src/lib/antiAbuse.ts:304-447 | No check has two windows on the same counter, whatever its context. |
| `AbuseLimits.AbuseGuard.RecordCommunicationBlock` | src/lib/antiAbuse.ts:169-192 | With Redis up, exactly the block keys of the input, without the one of the address under the relaxed rules, are set for the given time or an hour; without Redis nothing changes. |
| `AbuseLimits.AbuseGuard.CheckCommunicationAbuseLimits` | src/lib/antiAbuse.ts:231-475 | Length, switches, blocks, windows and the block on refusal: decision and store equal the specification, which `AbuseWindows` spells out counter by counter and block by block. |
| `AbuseLimits.AllowedAccounts` | src/lib/antiAbuse.ts:449-474 | An allowed check bumps every applicable window once, leaves each within its limit, and changes no block. |
| `AbuseLimits.RefusedAccounts` | src/lib/antiAbuse.ts:452-467 | A refused check bumps exactly the applicable windows up to the refusing one, which is over. |
| `AbuseLimits.RefusalHoldsForItsWindow` | src/lib/antiAbuse.ts:266-303 | After a refusal by a window of length T, through any further checks, no check for the recipient passes during the next T milliseconds, and none changes anything. |
| `AbuseLimits.AllowedBound` | src/lib/antiAbuse.ts:231-475 | Over any run of checks at most 2 * limit - 1 that count against a key pass in an interval of its window's length. |
| `AbuseWindows.DecidedExactly` | src/lib/antiAbuse.ts:231-475 | Each of the four outcomes exactly: too long; blocked by a standing block; refused if some counter that counts the check would go over its limit; allowed otherwise. Counters and blocks are told by what their keys name, the limits stand in a table. |
| `AbuseWindows.PassedCounts` | src/lib/antiAbuse.ts:304-475 | A check that passes is counted once on each counter with a positive limit that names its recipient, address, user, channel, test or retry, and nowhere else. |
| `AbuseWindows.RefusedLeaves` | src/lib/antiAbuse.ts:304-475 | A refusal names the first counter over its limit in the order of kinds, the counters up to it have counted the check, and every block against it stands for the length of that window. |
| `AbuseWindows.LeftAlone` | src/lib/antiAbuse.ts:231-303 | A check that is not watched, too long or blocked changes nothing. |
| `AbuseWindows.BlockedByFirst` | src/lib/antiAbuse.ts:266-300 | A blocked check is told the first standing block: recipient, address, provider, administrator. |
| `AbuseWindows.RecordedExactly` | src/lib/antiAbuse.ts:169-192 | Recording sets exactly the blocks against the input, for the given time or an hour, the one by address only outside the relaxed rules; without Redis none. |
| `AbuseWindows.PassingBound` | src/lib/antiAbuse.ts:304-475 | Over runs of checks at most twice the limit less one that a counter counts pass in any interval of its length. |
| `AbuseWindows.RecipientQuarterHour` | src/lib/antiAbuse.ts:315-322 | One recipient gets at most 5 checks of a purpose and channel through in any quarter of an hour; login and security alerts and checks under the relaxed rules do not count. |
| `EventLimits.EventLimiter.EnforceClientEventRateLimit` | src/modules/communication/events.service.ts:181-216 | The three windows of a client and event are bumped up to the first one over its limit; the call goes through if there is none. |
| `EventLimits.EventBound` | src/modules/communication/events.service.ts:181-216 | At most 39 submissions of a client and event pass in any 15 minutes, 199 in any hour, 999 in any day. |
| `EventLimits.EventDecided` | src/modules/communication/events.service.ts:181-216 | A submission goes through if and only if each of the windows of 15 minutes, an hour and a day has counted fewer than 20, 100 and 500, and then each has counted it. |
| `EventLimits.EventRefused` | src/modules/communication/events.service.ts:181-216 | A refused one has been counted by the windows up to the first without room, and by no later one. |
| `LoginOtp.OtpService.RequestLoginOtp` | src/modules/auth/otp.service.ts:73-137 | Cooldown, abuse decision, code record and new cooldown; other recipients are untouched. |
| `LoginOtp.OtpService.VerifyLoginOtp` | src/modules/auth/otp.service.ts:155-173 | Missing, exhausted, wrong and right codes, with the attempt counter and the deadline kept. |
| `LoginOtp.IssuesSpaced` | src/modules/auth/otp.service.ts:73-84 | No interval holds more issued codes than fit into it the cooldown apart. |
| `LoginOtp.OneCode` | src/modules/auth/otp.service.ts:157-173 | Until the next code is issued, wrong comparisons stay within the attempts left, and there is at most one success. |
| `LoginOtp.GuessingBound` | src/modules/auth/otp.service.ts:73-173 | In any interval of length T there are at most MAX * (floor(T / cooldown) + 2) wrong comparisons. |
| `LoginOtp.RightCodeWorks` | src/modules/auth/otp.service.ts:155-173 | The code sent last is accepted until it expires, is used, is replaced, or runs out of attempts. |
| `LoginOtp.AnsweredAlike` | src/modules/auth/otp.service.ts:73-137 | A request within the cooldown, or stopped by the abuse limits, changes nothing; any other is answered alike, account or not, and starts a cooldown of exactly the configured length. |
| `LoginOtp.SentCodeOpens` | src/modules/auth/otp.service.ts:110-173 | After a code was sent a code opens the account if and only if it has the same hash and comes before the expiry. |
| `LoginOtp.SentCodeWorks` | src/modules/auth/otp.service.ts:110-173 | Also after other events, while no other code was sent, it was not used and attempts are left. |
| `LoginOtp.CodeEnds` | src/modules/auth/otp.service.ts:155-173 | After a success or too many attempts the record is gone. |
| `LoginOtp.TooManyExactly` | src/modules/auth/otp.service.ts:157-170 | Too many is the answer if and only if the live code has been missed as often as allowed; a miss counts one attempt and keeps everything else. |
| `MobileAuthCode.Codes.IssueMobileAuthCode` | src/modules/auth/mobileAuthCode.service.ts:38-57 | One row under the hash of the code with the sealed session and a deadline 60 s on, unless the hash is taken. |
| `MobileAuthCode.Codes.ExchangeMobileAuthCode` | src/modules/auth/mobileAuthCode.service.ts:59-109 | An exchange without interference equals look-up, check and take, with the same error for each failure; `ExchangeAlone` and `RefusedAlone` spell them out. |
| `MobileAuthCode.OneWinner` | src/modules/auth/mobileAuthCode.service.ts:94-102 | Over every interleaving at most one exchange of a code returns. |
| `MobileAuthCode.WinnerIsEntitled` | src/modules/auth/mobileAuthCode.service.ts:65-108 | The one that returns read the code within 60 s of its issue, named the active client it was issued to, the same redirect URI and a verifier of 43 to 128 characters whose S256 hash is the challenge, and gets exactly the session stored at issue if the key ring still has that key, else nothing. |
| `MobileAuthCode.ConsumedOnce` | src/modules/auth/mobileAuthCode.service.ts:96-99 | Once consumed, a row never changes again. |
| `MobileAuthCode.ConsumedIffWon` | src/modules/auth/mobileAuthCode.service.ts:96-102 | A row is consumed if and only if one exchange of its code returned. |
| `MobileAuthCode.ReuseRefused` | src/modules/auth/mobileAuthCode.service.ts:71-76 | After that every later exchange of the code is refused as a reuse. |
| `MobileAuthCode.ExchangeAlone` | src/modules/auth/mobileAuthCode.service.ts:65-102 | A lone exchange returns if and only if code, deadline, client, redirect URI and verifier all match; a refusal changes nothing; after success the next one is refused. |
| `MobileAuthCode.RefusedAlone` | src/modules/auth/mobileAuthCode.service.ts:65-92 | Each error exactly: reused, expired, invalid for an unknown code, another client or URI, and PKCE failed if and only if all that holds and length or hash of the verifier does not fit. |
| `MobileAuthCode.IssueThenExchange` | src/modules/auth/mobileAuthCode.service.ts:38-108 | A fresh code, exchanged alone, gives its session if and only if it comes within 60 s from the active client with the URI and a fitting verifier. |
| `MobileAuthCode.DeliveredExactly` | src/modules/auth/mobileAuthCode.service.ts:96-108 | A successful exchange consumes the code and yields its session if and only if the key ring still finds the key it was sealed with; otherwise nothing. |
| `MobileAuthCode.KeyCanBeLost` | src/lib/credentialEncryption.ts:20-40 | Under an unchanged active version that no usable list entry names, before or after, the ring keeps the key if and only if the old and new active keys normalise to the same one. |
| `MobileAuthCode.ConsumesAfterExpiry` | src/modules/auth/mobileAuthCode.service.ts:77-99 | An exchange that read its row in time may consume it any time after the deadline. |
| `CommunicationEvents.EventService.GetOrCreateExternalCommunicationEvent` | src/modules/communication/events.service.ts:468-557 | A submission without interference: known key, bad phone, or record, dispatch and stored result, with the reply for each. |
| `CommunicationEvents.EventService.SendApprovedChannels` | src/modules/communication/events.service.ts:336-466 | Each wanted channel is dispatched once and status, result and reply follow from the answers. |
| `CommunicationEvents.EventService.SendOn` | src/modules/communication/events.service.ts:347-414 | A channel is dispatched if and only if it was asked for and the recipient has an address for it. |
| `CommunicationEvents.EventService.SaveEventResult` | src/modules/communication/events.service.ts:325-334 | Only the record with the id gets the status and results; the reply is an error when every channel failed. |
| `CommunicationEvents.InvRun` | src/modules/communication/events.service.ts:535-557 | The invariant tying every submission in flight to the table holds in every state of every run that starts with it. |
| `CommunicationEvents.DispatchedAtMostOnce` | src/modules/communication/events.service.ts:336-414 | Under any interleaving each channel is dispatched at most once per client, event and idempotency key. |
| `CommunicationEvents.CreateDecides` | src/modules/communication/events.service.ts:474-553 | A submission that did not find its key is refused if and only if its phone number is bad, also if the key was taken meanwhile; else it owns the key if and only if that is still free. |
| `CommunicationEvents.OnlyApproved` | src/modules/communication/events.service.ts:347-380 | Under any interleaving nothing is sent on a channel that the stored record of the key does not list. |
| `CommunicationEvents.AnswersAreGiven` | src/modules/communication/events.service.ts:347-414 | An answer on record was given by an adapter to a dispatch of that submission on that channel. |
| `CommunicationEvents.OneOwner` | src/modules/communication/events.service.ts:474-498 | At most one submission owns a key. |
| `CommunicationEvents.LosersGetTheWinner` | src/modules/communication/events.service.ts:541-556 | Every other submission gets the record of the owner; after losing the create race the second look never misses. |
| `CommunicationEvents.FinalForGood` | src/modules/communication/events.service.ts:325-334 | A record leaves PROCESSING at most once and never changes after that. |
| `CommunicationEvents.FinishedRecord` | src/modules/communication/events.service.ts:416-458 | Once the owner is done, a channel was dispatched exactly once if and only if it was approved and the recipient has an address on it, the status is QUEUED_OR_SENT if and only if one accepted, BLOCKED if and only if none did and one was blocked, and an error is returned if and only if channels were tried and none accepted, rate limited if and only if BLOCKED. |
| `CommunicationEvents.ProcessingIffOwned` | src/modules/communication/events.service.ts:325-498 | In every reachable state a record is PROCESSING if and only if the submission that owns it has not stored its result. |
| `CommunicationEvents.OwnerReachable` | src/modules/communication/events.service.ts:468-535 | Two steps of one submission reach such a state, for every key and every payload with a good or no phone number. |
| `CommunicationEvents.StalledForGood` | src/modules/communication/events.service.ts:468-557 | If the owner stops, the record stays PROCESSING through every later run, nothing more is sent for the key, and everyone else is told it was accepted. |
| `CommunicationEvents.SubmitTwice` | src/modules/communication/events.service.ts:511-557 | Submitting a key again sends nothing and names the first record, also after a failed first answer; only a bad phone number leaves the key free. |
| `CommunicationEvents.SubmitReply` | src/modules/communication/events.service.ts:416-557 | The reply and the record of a lone submission, written out from the channels, addresses and answers. |
| `CredentialEncryption.ParseKeyRing` | src/lib/credentialEncryption.ts:20-40 | The loop builds the ring, which has the active version, those of the usable entries, and no other. |
| `CredentialEncryption.RingHasOnly` | src/lib/credentialEncryption.ts:20-40 | A version is in the ring if and only if it is the active one or some usable entry names it. |
| `CredentialEncryption.LastEntryWins` | src/lib/credentialEncryption.ts:28-33 | For each version the last usable entry decides, also for the active one. |
| `CredentialEncryption.KeyForExactly` | src/lib/credentialEncryption.ts:20-44 | The key of a version is that of its last usable entry, else the active key for the active version, else the key of the active version. |
| `CredentialEncryption.OpensWith` | src/lib/credentialEncryption.ts:61-79 | A payload opens if and only if it was sealed with the key of the version it names, or of the active one if it names none. |
| `CredentialEncryption.RoundTrip` | src/lib/credentialEncryption.ts:46-79 | Under one configuration decrypting gives back what was encrypted. |
| `CredentialEncryption.SurvivesRotation` | src/lib/credentialEncryption.ts:61-79 | After a change of configuration the payload opens if and only if the new ring finds the old key for its version; it never opens to anything else. |
| `KeyRotation.CredentialTable.VisitRow` | src/services/keyRotation.service.ts:46-67 | One row: current, failed, spared by a dry run, or re-encrypted, and counted accordingly. |
| `KeyRotation.CredentialTable.ReencryptProviderCredentials` | src/services/keyRotation.service.ts:17-80 | For every batch size the loop ends, visits each row exactly once in id order, and its summary counts the fates of the rows. |
| `KeyRotation.FindsNext` | src/services/keyRotation.service.ts:32-47 | The cursor points behind the visited rows although they have been rewritten, so the next batch starts with the first one not visited. |
| `KeyRotation.SecretKept` | src/services/keyRotation.service.ts:51-62 | An updated row has the active version and decrypts to the same secret; other rows are unchanged. |
| `KeyRotation.RunLeaves` | src/services/keyRotation.service.ts:17-67 | A row whose column differs from the active version, and that opens and can be written, ends a real run with the active version in column and payload, sealed with the active key to the same secret; every other row is as it was. |
| `KeyRotation.RunReports` | src/services/keyRotation.service.ts:73-80 | The counts reported are the numbers of outdated, moved and stuck rows. |
| `KeyRotation.NothingSpared` | src/services/keyRotation.service.ts:49-66 | In a real run candidates equal updated plus failed. |
| `KeyRotation.SecondRunIdle` | src/services/keyRotation.service.ts:17-80 | A second run changes nothing, updates nothing and fails on as many rows as the first. |
| `RetentionPruning.Table.PruneByIdBatches` | src/services/retentionPruning.service.ts:26-46 | For every batch size of at least one the loop ends with exactly the matching rows gone and deleted equal to candidates; a dry run or a batch size of zero deletes nothing. |
| `RetentionPruning.Table.DeleteMany` | src/services/retentionPruning.service.ts:41 | The listed ids go and the count is how many rows went. |
| `RetentionPruning.DeleteFound` | src/services/retentionPruning.service.ts:33-41 | Deleting a page by its ids removes the first matching rows and no other. |
| `RetentionPruning.PruneTurn` | src/services/retentionPruning.service.ts:33-43 | One turn of the loop takes the next matching rows out, as many as the batch or as are left. |
| `RetentionPruning.PruningIsTheStep` | src/services/retentionPruning.service.ts:105-113 | What pruning leaves of the token table is the table after the pruning step of the token families. |
| `RetentionPruning.SessionPruningIsTheStep` | src/services/retentionPruning.service.ts:84-91 | The same for the session table and its filter. |
| `KeysetPages.ParseCursorLimit` | src/lib/pagination.ts:61-63 | A limit between 1 and 100 is kept, zero or none gives the default within that range, below zero gives 1, above gives 100. |
| `KeysetPages.Ordered` | src/modules/admin/admin.service.ts:515-541 | Rows are ordered by time and, at one time, by id, totally. |
| `KeysetPages.CursorRefused` | src/modules/admin/admin.service.ts:515-541 | A request is refused if and only if its cursor does not decode; without one the listing starts at its top. |
| `KeysetPages.PageIsPrefix` | src/modules/admin/admin.service.ts:541-565 | A page is the start of the matching rows below the cursor; there is a next cursor if and only if more rows follow, and it is the last row's. |
| `KeysetPages.WalkDescends` | src/modules/admin/admin.service.ts:1064-1102 | Following the cursors through tables that change arbitrarily, the rows returned strictly descend and no cursor is ever refused. |
| `KeysetPages.WalkComplete` | src/modules/admin/admin.service.ts:1104-1152 | A walk that ended has returned every row that was there and matched at each request. |
| `KeysetPages.ReturnedOnce` | src/modules/admin/admin.service.ts:515-566 | And each of those exactly once. |
| `KeysetPages.NothingInvented` | src/modules/admin/admin.service.ts:515-566 | Every row returned matched and was in the table at the time of some request. |
| `KeysetPages.FixedTable` | src/modules/admin/admin.service.ts:515-566 | On a table that does not change the walk ends after exactly the pages needed and is the whole listing in order. |
| `KeysetPages.PagesNeededIsCeiling` | src/modules/admin/admin.service.ts:532-538 | Those pages are just enough to hold the rows. |
| `HtmlEscape.EscapersAgree` | src/lib/htmlSanitizer.ts:67-97 | The one-pass escaper and the two five-pass chains, the one of the event mails included, are the same function on every text. |
| `HtmlEscape.ChainIsEscape` | src/modules/communication/events.service.ts:79-86 | Five passes in any order are that function on every text if and only if `&` comes first. |
| `HtmlEscape.UnescapeEscape` | src/lib/htmlSanitizer.ts:72-80 | Reading the entities back gives the text. |
| `HtmlEscape.EscapeInjective` | src/lib/htmlSanitizer.ts:72-80 | Texts with the same escaped form are the same. |
| `HtmlEscape.EscapeSafe` | src/lib/htmlSanitizer.ts:72-97 | The output has no raw angle bracket or quote, and every `&` in it starts an entity. |
| `HtmlEscape.EscapeFixesPlain` | src/lib/htmlSanitizer.ts:72-80 | A text is unchanged if and only if it has nothing to escape. |

## Left out

- Redis or database failures: the queue's answers without Redis, failing open in the abuse check; `AbuseLimits` says what the switches and a missing connection do, the rest is not modelled.
- Crashes and interleavings inside one refresh, one abuse check or one code verification: these calls are steps. For the queue functions they are in `InterleavedCommands`, while `SingleWorker`, `ManyWorkers` and `Overtaking` take a call as one step.
- `InterleavedCommands.NoJobIsLost`: a command that fails without its process dying is not modelled, save a push that fails or never comes after its dedupe lock was set.
- One call reads the clock once, where the code may read it several times a few milliseconds apart; only `MobileAuthCode` and the worker pass keep the readings apart.
- Malformed entries in the Redis lists and scores below zero.
- `CommunicationWorker.Worker.Loop`: producers that push between two calls of the loop are in the runs of `SingleWorker` and not in this method; the heartbeat, the retry scan and what a job does are not modelled beyond success or failure.
- `JobCounts.AcknowledgeEntries`: counts entries only; the effect on locks and records is in the queue method.
- `RefreshTokens.AuthService.LoginUser`: starts where credentials, lockout and verification have been accepted; notifications, audit rows and abuse signals are not modelled.
- `RefreshTokens.AuthService.AdminRevokeUserSessions`: the guard against revoking one's own sessions and the audit writes are not modelled.
- `AbuseLimits.PhoneNormalForm`: is about phone numbers; trimming and lower-casing of e-mail addresses is a parameter.
- String keys of Redis are constructors here, so two different keys never share a text; the texts themselves are not modelled.
- `EventLimits.EventBound`: bounds what the limiter lets through with Redis up; the time between that and the dispatch is not bounded.
- `CommunicationEvents.EventService.SendOn`: the adapters' answers are inputs; what `communication.service` does with a message is not part of this model.
- `KeysetPages.PageIsPrefix`: cursors are encoded and decoded by parameters that undo each other, and ids are numbers in collation order; base64url, JSON and dates are not modelled.
- `MobileAuthCode.WinnerIsEntitled`: relates codes by their hash; that different codes have different hashes is not needed and not assumed.
- The list of pruning targets in `runRetentionPruning`, apart from the filters of tokens and sessions.
- `sanitizeHtml`, `substituteVariables`, branding and templates: rewriting passes without a stated guarantee for arbitrary text.
- OAuth and enterprise sign-in, `oauth.service`, `communication.service`, `deletion.service`, roles and permissions, routing and validation: foreign calls or single-branch checks.
