# TalentFlow gateway: verified models

A Dafny model of the parts of the TalentFlow backend that are protocols, state
machines or recursive transformations, with proofs of what they keep:

- the RabbitMQ connection manager, with overlapping attempts, stale connection
  events, closers, the reconnect timer and shutdown (`Backoff`, `QueueMachine`,
  `QueueSafety`, `QueueProgress`, `QueueLeaks`, `QueueChannels`, `QueueRecovery`,
  `QueueServices`);
- the CV upload over application table, object storage and event queue, for any
  number of interleaved calls (`UploadMachine`, `UploadSafety`,
  `UploadTheorems`, `UploadFaults`, `ApplicationsServices`), and the access rules of one
  application (`ApplicationRecords`);
- login lockout and refresh tokens over Redis keys with a time to live
  (`Redis`, `LoginLog`, `LoginRaces`, `RefreshTokens`, `AuthServices`);
- redaction of values before logging, on trees and on cyclic graphs
  (`Strings`, `Redaction`, `RedactionTheorems`, `RedactionGraph`);
- the day histogram, paging and storage keys (`Trends`, `Paging`, `FileKeys`).

`dafny verify dfyconfig.toml` checks everything.

## How it is built

**Concurrency.** JavaScript runs one stretch of code between two awaits at a
time.  Each protocol is a labelled transition system: `Event` names the stretches, `Enabled`
says when one can run, `Apply` what it does, and `Run` replays a list of them.
A theorem about every interleaving is a lemma about every list that `CanRun`.
Recovery of the connection manager is proved in three strengths: some run leads
back (`CanAlwaysReconnect`), every run does within fourteen events when one task
or timer is all there is (`AloneAlwaysRecovers`), and every run in which
microtasks come first does, within a bound, however many there are
(`EveryOrderRecovers`).
The classes `QueueService` and `ApplicationsService` hold the same state in
fields; each of their methods is one stretch of the original code and is proved
to do to the fields exactly what its event does in the transition system.
`Valid()` of `QueueService` is the invariant of the transition system, which
every event handler keeps.

**Stores.** PostgreSQL, S3, RabbitMQ and Redis are maps, sets and sequences.  A
request may fail, and a failed write or delete may have taken effect all the
same (`effect` in `UploadMachine`); what a failure left behind is recorded in
`Faults`, and the theorems name the fault they allow for.  The unique key on (job, candidate) is
the one of `api-gateway/prisma/schema.prisma:87`.  UUIDs and signed tokens are
fresh by assumption, and a publish that the client library refuses is taken to
leave nothing in the queue, as the gateway itself reads it.

**Where the code does less than one might expect**, the exact condition is
proved, mostly beside a run or an input that misses it:

- A finished shutdown leaves `connection` and `channel` null for good exactly
  when no attempt was still connecting or creating its channel
  (`DisconnectedForGoodIff`, `ShutdownOvertakesAttempt`).
- A run keeps the stored channel on the stored connection at every point exactly
  when no connection arrives over a stored channel and no channel beside the
  connection of another attempt (`PairedThroughoutIff`), and it forgets no
  connection or channel unclosed exactly when none arrives over another
  (`NothingLeakedIff`).  Two attempts at once can leave a connected service
  whose channel is on a connection that nobody listens to (`OverlapUnpairs`).
- When a shutdown is over, every connection handed out has been closed exactly
  when none still open was overwritten or nulled and none is stored
  (`AllClosedIff`); an attempt that the shutdown overtakes leaves one open
  (`ShutdownLeavesOpen`).
- A channel that the broker closes by itself goes unnoticed, and nothing is
  published, until an event of a connection (`DeadChannelGoesUnnoticed`,
  `ChannelCanDieAlone`).
- The deletion in `logout` keeps a user without tokens exactly when no login
  or refresh of that user had passed its check and not yet stored
  (`LogoutHoldsIff`, `LogoutOvertaken`).
- A withdrawn application is no duplicate to the check and still takes its pair:
  who applies again is let through and then refused by the table, as an
  internal error (`WithdrawnStaysTaken`, `ReapplyingFails`, `TakenPairIsRefused`).
- The last expected entry of the trends is today's UTC day exactly when no more
  time has passed since local midnight than since UTC midnight
  (`LastDayIsTodayIff`).
- A refresh token buys at most n new ones exactly when it cannot be found
  stored and unexpired any more and no more than n refreshes with it had matched
  (`BuysAtMostIff`); rotation does not stop those already past the comparison
  (`RotatedBuysAtMostIff`), and every n can be reached (`OneTokenBuysMany`).
- A login-attempts key without a time to live is owed its EXPIRE by one call
  (`NoPermanentLock`).  With five failures counted on it the lock never ends
  exactly when no call is left that is past its check or has its EXPIRE still
  to come (`LockedForGoodIff`); a call that dies between INCR and EXPIRE, and
  four failures more, lead there (`LockForGoodExists`).
- A key that is to expire is gone by then exactly when no call has its EXPIRE
  still to come (`GoneInTimeIff`): EXPIRE prolongs whatever key it finds, one
  that another call created included (`StaleExpireExists`,
  `StaleExpireProlongs`).
- Overlapping logins can push the counter to 4 + K when K of them are past the
  check at once, never further, and every K is attained (`OverrunIsBounded`,
  `OverrunIsAttained`).
- A file named `docx`, without a dot, is accepted as DOCX and stored with a
  key ending in `.pdf`; that is the only disagreement
  (`KeyCarriesCheckedExtensionIff`, `DotlessDocxIsMislabelled`).
- An own property called `__proto__` is lost in redaction; all other keys
  survive (`KeysAreKeptIff`).
- A comment in `update` says that applicants can only change the cover letter.
  They change the notes exactly by sending null where there are notes or the
  empty note where there is another: both pass the check for a present note and
  are written (`ApplicationTable.Update`, `WipeNotes`).

## Model

| member | source | states |
|---|---|---|
| Backoff.DelayIsBracketed | api-gateway/src/queue/queue.service.ts:205-210 | for every draw base n <= delay n <= base n+1 <= max, and in numbers: the initial delay doubled n times and at most a fifth more, cut off at the cap |
| Backoff.JitterRangeIff | api-gateway/src/queue/queue.service.ts:209-209 | the jitter can be exactly zero and every whole number below a fifth of the base delay |
| Backoff.DelayRangeIff | api-gateway/src/queue/queue.service.ts:205-210 | the delays there can be after n failures, exactly, in initialDelayMs and maxDelayMs |
| Backoff.BaseDelayGrows | api-gateway/src/queue/queue.service.ts:205-208 | base delays never shrink as attempts add up |
| Backoff.DelaysBackOff | api-gateway/src/queue/queue.service.ts:191-220 | delays between two resets are nondecreasing, capped, and at the cap once doubling reaches it |
| Backoff.UncappedDelaysAddUp | api-gateway/src/queue/queue.service.ts:205-211 | k uncapped failures wait at least initial * (2^k - 1) in total |
| QueueSafety.NotStrandedStep | api-gateway/src/queue/queue.service.ts:81-220 | every event keeps: connected, or a timer pending, or a task in flight that leads to one of the two; attempts declaring topology do not count |
| QueueSafety.TimersOkStep | api-gateway/src/queue/queue.service.ts:191-220 | the pending timers are exactly the stored handle, and none exists once shutting down |
| QueueSafety.HandOverKeeps | api-gateway/src/queue/queue.service.ts:138-149 | handing the current resource to a closer keeps every resource handed over at most once |
| QueueSafety.OwnershipOkStep | api-gateway/src/queue/queue.service.ts:138-189 | no connection or channel is handed to two closers and the one in use was handed to none |
| QueueSafety.BackoffOkStep | api-gateway/src/queue/queue.service.ts:85-86 | the counter is the number of delays since the last reset, each within its bracket |
| QueueSafety.ListeningStep | api-gateway/src/queue/queue.service.ts:124-135 | every event keeps: the stored connection is listened to, or an attempt is about to listen to it or to give it up |
| QueueSafety.OwnersKnownStep | api-gateway/src/queue/queue.service.ts:119-125 | channels are created on connections that the broker has handed out |
| QueueSafety.SafeRun | api-gateway/src/queue/queue.service.ts:66-323 | all six invariants survive every run |
| QueueSafety.ReachableIsSafe | api-gateway/src/queue/queue.service.ts:66-323 | every state that any interleaving reaches is not stranded, has at most one timer, single ownership, a listener for its connection and correct backoff |
| QueueSafety.QuietMeansConnected | api-gateway/src/queue/queue.service.ts:81-220 | in every reachable state before shutdown with no timer and nothing in flight, the service is connected |
| QueueSafety.LossIsNoticed | api-gateway/src/queue/queue.service.ts:127-161 | in every such state the loss of the stored connection is an event that hands channel and connection to a closer |
| QueueSafety.FailureCleansUp | api-gateway/src/queue/queue.service.ts:87-92 | a failed attempt nulls both fields and hands exactly what they held to its own closing stages |
| QueueSafety.ReachableBacksOff | api-gateway/src/queue/queue.service.ts:191-220 | in every reachable state each delay since the last reset is the initial one doubled once per failure and at most a fifth more, below the cap; at the cap once doubling reaches it; they never shrink, and below the cap add up to at least initial * (2^k - 1) |
| QueueSafety.SetupRestartsBackoff | api-gateway/src/queue/queue.service.ts:85-85 | after a completed setup the next delay is the initial one and at most a fifth more, cut off at the cap |
| QueueProgress.FromTopology | api-gateway/src/queue/queue.service.ts:222-248 | from declaration n on, the remaining declarations and the reset can run to a connected state |
| QueueProgress.FromChannel | api-gateway/src/queue/queue.service.ts:106-136 | an attempt creating its channel with the connection in place can finish its setup in seven events |
| QueueProgress.FromConnecting | api-gateway/src/queue/queue.service.ts:106-125 | a connecting attempt can finish its setup in eight events |
| QueueProgress.FromTimer | api-gateway/src/queue/queue.service.ts:215-218 | a pending timer leads to a finished setup in nine events |
| QueueProgress.FromRescuer | api-gateway/src/queue/queue.service.ts:81-92 | each task that counts as a rescue can bring the service back |
| QueueProgress.CanAlwaysReconnect | api-gateway/src/queue/queue.service.ts:81-220 | from every reachable disconnected state before shutdown at most fourteen events reconnect, declare all four entities and reset the backoff |
| QueueProgress.ShutdownStep | api-gateway/src/queue/queue.service.ts:151-154 | after shutdown the loss of a connection or channel changes no field and any other event uses up bounded work |
| QueueProgress.ShutdownGoesQuiet | api-gateway/src/queue/queue.service.ts:303-322 | after shutdown: no timer, nothing new started, and at most 12 events per task plus two still do anything |
| QueueProgress.RefusedUrlNeverConnects | api-gateway/src/queue/queue.service.ts:106-115 | with a refused URL no run ever connects, and the retries go on until shutdown |
| QueueProgress.StaysDisconnected | api-gateway/src/queue/queue.service.ts:303-322 | without attempts that may still connect, a finished shutdown stays disconnected in every run |
| QueueProgress.DisconnectedForGoodIff | api-gateway/src/queue/queue.service.ts:119-125 | it stays disconnected in every run if and only if no attempt is connecting or creating its channel |
| QueueProgress.ShutdownOvertakesAttempt | api-gateway/src/queue/queue.service.ts:303-322 | a shutdown that finishes while the first attempt is connecting, after which that attempt stores a connection |
| QueueChannels.PairedAfterIff | api-gateway/src/queue/queue.service.ts:119-149 | after an event the stored channel is on the stored connection if and only if neither half was overwritten alone and they belonged together before, or the event stored a channel or gave both up |
| QueueChannels.PairedThroughoutIff | api-gateway/src/queue/queue.service.ts:119-149 | a run keeps them together at every point if and only if no connection arrives over a stored channel and no channel beside the connection of another attempt |
| QueueChannels.ChannelLossIsNoticed | api-gateway/src/queue/queue.service.ts:127-135 | while they belong together, a quiet service notices when the connection under its channel is lost |
| QueueLeaks.LeakStep | api-gateway/src/queue/queue.service.ts:119-189 | an event leaves every id in use or handed over if and only if it overwrites none and they all were before |
| QueueLeaks.NothingLeakedIff | api-gateway/src/queue/queue.service.ts:119-189 | until a shutdown closes the rest, every connection and channel handed out is in use or was handed to one closer if and only if none arrived over another |
| QueueLeaks.ForgettingStep | api-gateway/src/queue/queue.service.ts:119-189 | an event leaves every connection stored or closed if and only if it forgets no open one and they all were before |
| QueueLeaks.AllClosedIff | api-gateway/src/queue/queue.service.ts:303-322 | at the end of a run, a finished shutdown included, every connection handed out has been closed if and only if none still open was overwritten or nulled and none is stored |
| QueueLeaks.ShutdownCloses | api-gateway/src/queue/queue.service.ts:311-313 | a shutdown closes the channel it finds stored, and after that the connection stored by then |
| QueueLeaks.ShutdownStopsAtFailure | api-gateway/src/queue/queue.service.ts:311-321 | a failed close ends the shutdown at once and leaves what is stored |
| QueueLeaks.CleanShutdownClosesAll | api-gateway/src/queue/queue.service.ts:303-316 | from every reachable quiet state that has forgotten nothing, a shutdown whose closes work leaves every connection and channel closed, both fields null and no timer |
| QueueLeaks.OverIsFinal | api-gateway/src/queue/queue.service.ts:303-322 | with the shutdown over and no task left, no event changes anything in the service |
| QueueLeaks.ShutdownLeavesOpen | api-gateway/src/queue/queue.service.ts:119-125 | an attempt overtaken by the shutdown stores a connection that stays open for good |
| QueueChannels.TwoAttempts | api-gateway/src/queue/queue.service.ts:127-160 | the error and the close event of one lost connection lead to two attempts at once, when the first close() outlasts the first delay, with microtasks run first |
| QueueChannels.OverlapUnpairs | api-gateway/src/queue/queue.service.ts:119-135 | two attempts at once can leave a quiet, connected service whose channel is on a connection nobody listens to or will close |
| QueueRecovery.AloneTaskStep | api-gateway/src/queue/queue.service.ts:81-136 | without new failures, each event of a task that is alone brings it exactly one nearer to a completed setup |
| QueueRecovery.AloneAlwaysRecovers | api-gateway/src/queue/queue.service.ts:81-220 | from every reachable state with one task or timer alone, every run without new failures can go on or has reconnected, within fourteen events |
| QueueRecovery.NearerStep | api-gateway/src/queue/queue.service.ts:81-220 | without new failures and with microtasks first, every event of any number of tasks and timers brings calm nearer, or leaves less to throw, or fewer steps |
| QueueRecovery.InOrderRun | api-gateway/src/queue/queue.service.ts:81-220 | so every such run is bounded, by a number read off the state it starts in |
| QueueRecovery.EveryOrderRecovers | api-gateway/src/queue/queue.service.ts:81-220 | from every reachable state before shutdown, with any number of attempts and closers in each other's way, every such run can go on or the service has gone quiet and is connected |
| QueueRecovery.DeadChannelGoesUnnoticed | api-gateway/src/queue/queue.service.ts:127-135 | when the stored channel of a quiet service is closed by the broker, nothing changes in any run without connection events or shutdown: connected, and nothing published |
| QueueRecovery.ChannelCanDieAlone | api-gateway/src/queue/queue.service.ts:127-135 | such a state is reachable |
| QueueServices.QueueService.constructor | api-gateway/src/queue/queue.service.ts:67-75 | a new service is in the initial state and valid, under the bounds of the configuration schema |
| QueueServices.QueueService.OnModuleInit | api-gateway/src/queue/queue.service.ts:77-79 | starts the first attempt |
| QueueServices.QueueService.ConnectWithSetup | api-gateway/src/queue/queue.service.ts:81-115 | adds one attempt, which fails at once when the URL is rejected |
| QueueServices.QueueService.ReconnectTimerFired | api-gateway/src/queue/queue.service.ts:215-218 | clears the handle and starts one attempt |
| QueueServices.QueueService.ConnectSettled | api-gateway/src/queue/queue.service.ts:119-125 | stores the new connection over whatever was there, or fails |
| QueueServices.QueueService.CreateChannelSettled | api-gateway/src/queue/queue.service.ts:125-135 | stores the channel; fails after that when the connection was lost meanwhile, else listens to the stored connection |
| QueueServices.QueueService.SetupTopology | api-gateway/src/queue/queue.service.ts:222-229 | refuses a null channel, else issues the first declaration |
| QueueServices.QueueService.DeclarationSettled | api-gateway/src/queue/queue.service.ts:227-247 | issues the next declaration on the channel stored now, or fails |
| QueueServices.QueueService.SetupTopologyReturned | api-gateway/src/queue/queue.service.ts:84-86 | resets the attempt counter |
| QueueServices.QueueService.CleanupConnectionState | api-gateway/src/queue/queue.service.ts:138-149 | returns both references and nulls both fields, nothing else |
| QueueServices.QueueService.SafeCloseResources | api-gateway/src/queue/queue.service.ts:168-189 | records exactly the non-null references as closed |
| QueueServices.QueueService.ConnectWithSetupFailed | api-gateway/src/queue/queue.service.ts:87-92 | hands the current resources to the failed attempt's own closing stages |
| QueueServices.QueueService.HandleConnectionLost | api-gateway/src/queue/queue.service.ts:151-161 | ignored when shutting down, else hands the current resources, never handed over before, to a new closer |
| QueueServices.QueueService.ScheduleReconnect | api-gateway/src/queue/queue.service.ts:191-220 | schedules nothing when shutting down or when a timer is pending, else one timer with the computed delay |
| QueueServices.QueueService.CloserFinished | api-gateway/src/queue/queue.service.ts:158-160 | a closer ends with exactly one timer pending, unless shutting down; a timer it sets has a delay that fits the failures so far |
| QueueServices.QueueService.PublishCvUploaded | api-gateway/src/queue/queue.service.ts:250-279 | accepts a message exactly when the stored channel is open and its buffer has room, on that channel, which was handed to no closer |
| QueueServices.QueueService.OnModuleDestroy | api-gateway/src/queue/queue.service.ts:303-312 | sets the flag and cancels the pending timer, so that none is pending |
| QueueServices.QueueService.DestroyChannelClosed | api-gateway/src/queue/queue.service.ts:311-321 | a failed close ends the shutdown without cleanup |
| QueueServices.QueueService.DestroyConnectionClosed | api-gateway/src/queue/queue.service.ts:313-321 | only a clean close nulls the fields |
| UploadMachine.OthersStay | api-gateway/src/applications/applications.service.ts:148-195 | settling a request of one call changes no other call and removes no event |
| UploadSafety.EarlyMoveKeeps | api-gateway/src/applications/applications.service.ts:155-157 | the steps before the upload keep the invariant |
| UploadSafety.UploadStartKeeps | api-gateway/src/applications/applications.service.ts:255-258 | a fresh key starts an upload that owns it |
| UploadSafety.UploadKeeps | api-gateway/src/applications/applications.service.ts:260-277 | a settled upload keeps the invariant, a failed one that left its file on record |
| UploadSafety.InsertKeepsRows | api-gateway/prisma/schema.prisma:87 | the unique key keeps every pair to one row, and the new row is known to its call or its fault is on record |
| UploadSafety.InsertKeeps | api-gateway/src/applications/applications.service.ts:164-174 | an insert that takes effect keeps pairs unique and its row owned |
| UploadSafety.PublishKeeps | api-gateway/src/applications/applications.service.ts:176-184 | a published event agrees with its row, call and file and is the only one of its row |
| UploadSafety.RespondKeeps | api-gateway/src/applications/applications.service.ts:280-305 | the presigned URL cannot undo a published call |
| UploadSafety.RowDeleteKeeps | api-gateway/src/applications/applications.service.ts:307-322 | a row compensation removes only the call's own row, or its failure is on record |
| UploadSafety.FileDeleteKeeps | api-gateway/src/applications/applications.service.ts:324-331 | a file compensation removes only the call's own file, or its failure is on record |
| UploadSafety.RowChangeKeeps | api-gateway/src/applications/applications.service.ts:543-591 | updates and withdrawals keep the invariant, since they leave pair and key alone |
| UploadSafety.InvStep | api-gateway/src/applications/applications.service.ts:66-332 | every event of every call keeps the invariant |
| UploadSafety.InvRun | api-gateway/src/applications/applications.service.ts:66-332 | every run keeps it |
| UploadSafety.ReachableInv | api-gateway/src/applications/applications.service.ts:66-332 | it holds in every state reached from any start |
| UploadTheorems.NoOrphanFiles | api-gateway/src/applications/applications.service.ts:148-195 | a generated file in storage is referenced, or its call still runs, or that call's upload or file delete lied or failed |
| UploadTheorems.NoDanglingRows | api-gateway/src/applications/applications.service.ts:307-332 | an uploaded row whose file is gone was left by a failed row delete or an insert that reported failure |
| UploadTheorems.LosersLeaveNothing | api-gateway/src/applications/applications.service.ts:187-194 | a call that failed without such faults leaves neither row nor file |
| UploadTheorems.EventsAreSound | api-gateway/src/applications/applications.service.ts:176-184 | at every point of every run each event names an existing row with the same job, candidate and file, and an existing file |
| UploadTheorems.AtRestAllOrNothing | api-gateway/src/applications/applications.service.ts:148-195 | in every interleaving a finished upload call without faults has row, file and event if it succeeded and none of the three otherwise |
| UploadTheorems.WinStep | api-gateway/src/applications/applications.service.ts:176-194 | no event of any call takes a win back |
| UploadTheorems.WinsAreFinal | api-gateway/src/applications/applications.service.ts:176-194 | once published or created, a call stays won and published events stay, in every continuation |
| UploadTheorems.OneWinner | api-gateway/src/applications/applications.service.ts:109-195 | over a whole run at most one create or upload call wins a pair |
| UploadTheorems.OneEventPerPair | api-gateway/src/applications/applications.service.ts:155-184 | over a whole run no pair gets two events, withdrawals included |
| UploadFaults.FaultsAreExact | api-gateway/src/applications/applications.service.ts:148-195 | in every run a fault of a call is on record if and only if the run holds that call's request that failed and took effect, or its failed delete |
| UploadFaults.WinsAreGranted | api-gateway/src/applications/applications.service.ts:122-186 | in every run create() has succeeded if and only if its INSERT was granted, and createWithCv() if and only if its event went out |
| UploadFaults.HonestUploadsAreAllOrNothing | api-gateway/src/applications/applications.service.ts:148-195 | in every interleaving a finished upload that was served honestly has file, row and event if and only if its event was published |
| UploadFaults.HonestCreatesAreAllOrNothing | api-gateway/src/applications/applications.service.ts:122-145 | in every interleaving a finished create() that was served honestly has its row if and only if its INSERT was granted |
| UploadFaults.WithdrawnStaysTaken | api-gateway/src/applications/applications.service.ts:566-592 | a withdrawn application is no duplicate to the check and keeps its pair taken in the table |
| UploadFaults.ReapplyingFails | api-gateway/src/applications/applications.service.ts:108-122 | who applies again after a withdrawal passes the check, with the pair still taken |
| UploadFaults.TakenPairIsRefused | api-gateway/prisma/schema.prisma:87 | a taken pair refuses the INSERT of either kind, an internal error to the client |
| ApplicationsServices.ApplicationsService.CallStarted | api-gateway/src/applications/applications.service.ts:148-155 | a new call waits for its job |
| ApplicationsServices.ApplicationsService.ReadFailed | api-gateway/src/applications/applications.service.ts:197-200 | a failing read ends the call |
| ApplicationsServices.ApplicationsService.FindOpenJobSettled | api-gateway/src/applications/applications.service.ts:202-210 | missing, closed and open jobs are told apart |
| ApplicationsServices.ApplicationsService.FindUserSettled | api-gateway/src/applications/applications.service.ts:214-224 | an unknown user ends the call |
| ApplicationsServices.ApplicationsService.FindCandidateSettled | api-gateway/src/applications/applications.service.ts:226-235 | a known candidate is used, an unknown one is to be created |
| ApplicationsServices.ApplicationsService.CreateCandidateSettled | api-gateway/src/applications/applications.service.ts:230-235 | the new candidate is stored under the email |
| ApplicationsServices.ApplicationsService.DuplicateCheckSettled | api-gateway/src/applications/applications.service.ts:238-258 | a live duplicate ends the call, otherwise the upload of a fresh key starts |
| ApplicationsServices.ApplicationsService.UploadSettled | api-gateway/src/applications/applications.service.ts:260-277 | the file is stored and the insert issued, or the call fails |
| ApplicationsServices.ApplicationsService.PlainInsertSettled | api-gateway/src/applications/applications.service.ts:122-145 | the row with the client's key is stored and the call succeeds, or it fails |
| ApplicationsServices.ApplicationsService.InsertSettled | api-gateway/src/applications/applications.service.ts:164-174 | the row is stored, or the file is to be removed again |
| ApplicationsServices.ApplicationsService.Publish | api-gateway/src/applications/applications.service.ts:176-184 | one event is appended, or the row is to be removed again |
| ApplicationsServices.ApplicationsService.ResponseBuilt | api-gateway/src/applications/applications.service.ts:280-305 | the call succeeds whatever happens to the presigned URL |
| ApplicationsServices.ApplicationsService.RowDeleteSettled | api-gateway/src/applications/applications.service.ts:311-322 | the row is gone or the failure recorded, and the file delete follows either way |
| ApplicationsServices.ApplicationsService.FileDeleteSettled | api-gateway/src/applications/applications.service.ts:324-331 | the file is gone or the failure recorded, and the call fails |
| ApplicationsServices.ApplicationsService.FindOpenJobOrThrow | api-gateway/src/applications/applications.service.ts:197-211 | the exact error for a failed read, a missing job and a closed one |
| ApplicationsServices.ApplicationsService.FindUserOrThrow | api-gateway/src/applications/applications.service.ts:213-220 | the email of a known user, the exact error otherwise |
| ApplicationsServices.ApplicationsService.FindOrCreateCandidateOrThrow | api-gateway/src/applications/applications.service.ts:222-236 | the stored candidate, or exactly one new one |
| ApplicationsServices.ApplicationsService.EnsureNoDuplicateApplication | api-gateway/src/applications/applications.service.ts:238-253 | a conflict exactly for a duplicate that is not withdrawn |
| ApplicationsServices.ApplicationsService.UploadCvOrThrow | api-gateway/src/applications/applications.service.ts:255-278 | exactly the fresh file is added, or nothing |
| ApplicationsServices.ApplicationsService.InsertApplication | api-gateway/src/applications/applications.service.ts:164-174 | a row is added exactly when granted and the pair is free, withdrawn rows counting |
| ApplicationsServices.ApplicationsService.PublishCvUploaded | api-gateway/src/applications/applications.service.ts:176-186 | exactly the matching event is added and the call succeeds, or rollback begins |
| ApplicationsServices.ApplicationsService.RollbackCreateWithCv | api-gateway/src/applications/applications.service.ts:307-332 | removes the call's row, if any, and its file |
| ApplicationsServices.ApplicationsService.PublishOrRollBack | api-gateway/src/applications/applications.service.ts:176-194 | with the row stored: the event and success, or neither row nor file |
| ApplicationsServices.ApplicationsService.ProcessUpload | api-gateway/src/applications/applications.service.ts:161-195 | the try block adds row and event, or restores the tables and removes the file |
| ApplicationsServices.ApplicationsService.FindApplicant | api-gateway/src/applications/applications.service.ts:155-156 | job and user, with the exact error otherwise |
| ApplicationsServices.ApplicationsService.PrepareUpload | api-gateway/src/applications/applications.service.ts:156-159 | candidate and duplicate check, with the exact error otherwise |
| ApplicationsServices.ApplicationsService.UploadAndProcess | api-gateway/src/applications/applications.service.ts:159-195 | row, file and event are all added, or none |
| ApplicationsServices.ApplicationsService.UploadForApplicant | api-gateway/src/applications/applications.service.ts:156-195 | the same from the candidate lookup on, with the exact condition |
| ApplicationsServices.ApplicationsService.InsertPlain | api-gateway/src/applications/applications.service.ts:122-145 | exactly one row with the client's key, when granted and the pair is free |
| ApplicationsServices.ApplicationsService.CreateForApplicant | api-gateway/src/applications/applications.service.ts:91-145 | create() from the candidate lookup on, with the exact condition |
| ApplicationsServices.ApplicationsService.Create | api-gateway/src/applications/applications.service.ts:66-146 | alone: exactly one row of literal fields or none, exactly when, every client error, and that it is a run of the interleaved model |
| ApplicationsServices.ApplicationsService.CreateWithCv | api-gateway/src/applications/applications.service.ts:148-195 | alone and with working compensations: exactly one matching row, file and event, or all three stores as before; when each happens, every client error, that it is a run of the interleaved model, and that the next call finds fresh ids again |
| ApplicationRecords.ApplicationTable.FindOne | api-gateway/src/applications/applications.service.ts:441-491 | readable exactly for applicant, job owner and administrator while not withdrawn |
| ApplicationRecords.ApplicationTable.Update | api-gateway/src/applications/applications.service.ts:493-564 | when it succeeds and every error, what recruiters change, and that an applicant changes the notes if and only if null is sent where there are notes or the empty note where there is another |
| ApplicationRecords.WipeNotes | api-gateway/src/applications/applications.service.ts:512-536 | an applicant who is neither recruiter nor administrator sets the notes of any application of theirs to null or to the empty note |
| ApplicationRecords.ApplicationTable.Remove | api-gateway/src/applications/applications.service.ts:566-592 | only applicant and administrator withdraw, every error, and a withdrawn application is not found again |
| LoginLog.CounterIsLog | api-gateway/src/auth/auth.service.ts:176-250 | at any time the Redis counter is the number of failures since the window opened or the last success |
| LoginLog.AgreesAfter | api-gateway/src/auth/auth.service.ts:210-250 | one more admitted attempt keeps key and log in agreement |
| LoginLog.WindowIsBounded | api-gateway/src/auth/auth.service.ts:188-208 | a window holds at most m admitted failures, for every limit m |
| LoginLog.OpenerOpened | api-gateway/src/auth/auth.service.ts:215-220 | a window opens only after the one before has run out |
| LoginLog.WindowBefore | api-gateway/src/auth/auth.service.ts:215-220 | two windows that follow each other start at least 900 seconds apart |
| LoginLog.SlidingWindowBound | api-gateway/src/auth/auth.service.ts:84-99 | for every limit m, any 900 seconds without a success hold at most 2m - 1 counted failures |
| LoginLog.AtMostNine | api-gateway/src/auth/constants/security.constants.ts:1-2 | with the limit of five, at most nine |
| LoginLog.SlidingWindowBoundIsAttained | api-gateway/src/auth/auth.service.ts:210-220 | for every m from one, 2m - 1 are possible, even within two seconds |
| LoginRaces.BoundedStep | api-gateway/src/auth/auth.service.ts:85-99 | counter plus calls past the check stays within 4 plus their peak |
| LoginRaces.OverrunIsBounded | api-gateway/src/auth/auth.service.ts:188-216 | in every interleaving the counter never exceeds 4 plus the most logins ever past the check at once |
| LoginRaces.OverrunIsAttained | api-gateway/src/auth/auth.service.ts:188-216 | for every K a run reaches exactly 4 + K |
| LoginRaces.ExpiryOwedStep | api-gateway/src/auth/auth.service.ts:215-220 | every event keeps: a key without expiry has a creator that owes it |
| LoginRaces.NoPermanentLock | api-gateway/src/auth/auth.service.ts:215-250 | in every interleaving a key without expiry is owed one by the call that created it, or that call crashed; any other key has a present expiry at most 900 seconds away |
| LoginRaces.StaleExpireProlongs | api-gateway/src/auth/auth.service.ts:215-220 | any call that still owes an EXPIRE can renew a live key in its last second |
| LoginRaces.GoneInTimeIff | api-gateway/src/auth/auth.service.ts:215-220 | a key that is to expire is gone by then in every continuation, unless created anew, if and only if no call has its EXPIRE still to come |
| LoginRaces.StaleExpireExists | api-gateway/src/auth/auth.service.ts:215-250 | a run in which the creator of a deleted key still owes EXPIRE while another call's key is live |
| LoginRaces.CrashLocksForGood | api-gateway/src/auth/auth.service.ts:188-207 | five failures on a key nobody will arm or clear lock the email in every continuation |
| LoginRaces.LockedForGoodIff | api-gateway/src/auth/auth.service.ts:188-220 | with five failures on a key without expiry, the email is locked in every continuation if and only if no call is past its check or owes its EXPIRE |
| LoginRaces.LockForGoodExists | api-gateway/src/auth/auth.service.ts:215-220 | a call that dies between INCR and EXPIRE, and four failures, reach such a lock from the empty key |
| RefreshTokens.SlotStep | api-gateway/src/auth/auth.service.ts:292-299 | a stored token belongs to its user and no call will store it again |
| RefreshTokens.InvStep | api-gateway/src/auth/auth.service.ts:103-105 | every event keeps that |
| RefreshTokens.SettledStep | api-gateway/src/auth/auth.service.ts:141-143 | a token no call will store can only leave Redis |
| RefreshTokens.SettledRun | api-gateway/src/auth/auth.service.ts:141-143 | in every run |
| RefreshTokens.NeverAcceptedAgain | api-gateway/src/auth/strategies/jwt-refresh.strategy.ts:46-67 | in every interleaving a token once held and later replaced, deleted or expired is never held or acceptable again |
| RefreshTokens.OneAcceptableToken | api-gateway/src/auth/strategies/jwt-refresh.strategy.ts:53-59 | in any state at most one token of a user is acceptable, by construction of the one slot |
| RefreshTokens.HeldExactly | api-gateway/src/auth/auth.service.ts:292-299 | a SET replaces the one token of its user, a DEL ends it, time runs out on it, and no event touches anybody else's |
| RefreshTokens.HeldForAWeek | api-gateway/src/auth/auth.service.ts:292-299 | a stored token left alone is held for exactly seven days |
| RefreshTokens.AcceptableForAWeek | api-gateway/src/auth/auth.service.ts:252-299 | what is signed and stored is acceptable for exactly seven days, unless blacklisted |
| RefreshTokens.LoggedOutStep | api-gateway/src/auth/auth.service.ts:158-166 | without a new login nobody becomes entitled to a token of a user who has none |
| RefreshTokens.StaysLoggedOut | api-gateway/src/auth/auth.service.ts:158-166 | in every run |
| RefreshTokens.LogoutHoldsIff | api-gateway/src/auth/auth.service.ts:158-166 | a user without token stays so in every run without new login if and only if no call past its check is in flight |
| RefreshTokens.LogoutOvertaken | api-gateway/src/auth/auth.service.ts:103-105 | a logout that ends one session while a login of the same user is past its check: the new token is acceptable afterwards |
| RefreshTokens.SequentialLogoutHolds | api-gateway/src/auth/auth.service.ts:158-174 | with none in flight, logout rejects every token of the user until the next login, by the deletion alone |
| RefreshTokens.PurchaseStep | api-gateway/src/auth/auth.service.ts:128-156 | once a token can no longer be found stored, no event raises the number of new tokens bought with it plus refreshes about to buy |
| RefreshTokens.BuysAtMostIff | api-gateway/src/auth/auth.service.ts:128-156 | for every n, a token buys at most n new ones in every continuation if and only if it cannot be found stored and unexpired any more and those bought and about to be bought are at most n |
| RefreshTokens.RotatedBuysAtMostIff | api-gateway/src/auth/auth.service.ts:141-143 | once another token is stored over a held one, that buys at most n in all if and only if at most n refreshes with it had matched |
| RefreshTokens.OneTokenBuysMany | api-gateway/src/auth/strategies/jwt-refresh.strategy.ts:53-59 | for every n a run in which one token buys n |
| RefreshTokens.LogoutLists | api-gateway/src/auth/auth.service.ts:158-166 | the second half of a logout is always to come and lists its token for seven days |
| RefreshTokens.RevocationHoldsIff | api-gateway/src/auth/strategies/jwt-refresh.strategy.ts:61-67 | for seven days the blacklisted token buys nothing in any run if and only if no refresh with it was past the blacklist and still to sign |
| AuthServices.AuthService.GetLoginAttempts | api-gateway/src/auth/auth.service.ts:176-180 | returns the failures in the window of the log |
| AuthServices.AuthService.GetRemainingLockoutTime | api-gateway/src/auth/auth.service.ts:182-186 | returns what is left of that window |
| AuthServices.AuthService.CheckAccountLockout | api-gateway/src/auth/auth.service.ts:188-208 | locked exactly at five failures in the window, with the minutes left rounded up |
| AuthServices.AuthService.HandleFailedLogin | api-gateway/src/auth/auth.service.ts:210-245 | one failure goes on the log and the keys keep agreeing with all logs |
| AuthServices.AuthService.ClearLoginAttempts | api-gateway/src/auth/auth.service.ts:247-250 | a success goes on the log and empties the key |
| AuthServices.AuthService.GenerateAndStoreToken | api-gateway/src/auth/auth.service.ts:252-299 | a fresh token replaces the user's stored one |
| AuthServices.AuthService.Login | api-gateway/src/auth/auth.service.ts:84-126 | refused before the password exactly when the log shows five failures in the window, with the minutes left of 900 seconds; the attempt is logged as what it was; a success leaves the new token, ends the user's old one and nobody else's |
| AuthServices.AuthService.Validate | api-gateway/src/auth/strategies/jwt-refresh.strategy.ts:46-74 | accepts exactly the tokens that are younger than a week, the live stored one of their user and not on the live blacklist |
| AuthServices.AuthService.Refresh | api-gateway/src/auth/auth.service.ts:128-156 | succeeds exactly for an acceptable token of an existing user, replaces it, and leaves every other user's token |
| AuthServices.AuthService.Logout | api-gateway/src/auth/auth.service.ts:158-174 | no token of the user is held afterwards, every other one still is |
| Redaction.SanitizePropsConcat | api-gateway/src/common/utils/sanitize.util.ts:81-94 | properties are redacted one by one, in order |
| Redaction.SanitizeValue | api-gateway/src/common/utils/sanitize.util.ts:57-76 | the mapping and the loop compute the recursive definition |
| Redaction.SanitizeObject | api-gateway/src/common/utils/sanitize.util.ts:78-97 | the loop that fills an object computes the recursive definition |
| RedactionTheorems.SecretsDoNotInterfere | api-gateway/src/common/utils/sanitize.util.ts:57-97 | values that agree except under sensitive keys and below the depth limit have equal results at every depth |
| RedactionTheorems.NothingElseIsLost | api-gateway/src/common/utils/sanitize.util.ts:57-97 | conversely, equal results mean the values agree in everything else |
| RedactionTheorems.LogShowsExactly | api-gateway/src/common/utils/sanitize.util.ts:57-97 | for values without marker texts the two are equivalent |
| RedactionTheorems.PublicPathsAreKept | api-gateway/src/common/utils/sanitize.util.ts:57-94 | along any path without sensitive keys: within the limit the redacted value stands where the value stood, one step further only what is no container and sits under a key survives, and nothing beyond |
| RedactionTheorems.SecretsAreMarked | api-gateway/src/common/utils/sanitize.util.ts:84-88 | at the end of such a path every sensitive key shows the marker and nothing else |
| RedactionTheorems.KeysAreKeptIff | api-gateway/src/common/utils/sanitize.util.ts:81-94 | keys survive in order exactly when none is `__proto__` |
| RedactionTheorems.SensitiveIff | api-gateway/src/common/utils/sanitize.util.ts:13-85 | a key is sensitive if and only if one of the 24 terms stands in it, letter by letter, each letter small or capital |
| RedactionTheorems.TermsCountAnywhere | api-gateway/src/common/utils/sanitize.util.ts:82-85 | a term put into a key anywhere, in whatever capitals, makes it sensitive |
| RedactionTheorems.TwiceIsOnce | api-gateway/src/common/utils/sanitize.util.ts:57-97 | redaction is idempotent at every depth |
| RedactionTheorems.ResultIsShallow | api-gateway/src/common/utils/sanitize.util.ts:43-61 | at most six containers remain nested |
| RedactionGraph.GraphIsUnfolding | api-gateway/src/common/utils/sanitize.util.ts:57-97 | on any graph, cyclic or not, redaction terminates with the result of any deep enough unfolding |
| RedactionGraph.GraphsComeOutShallow | api-gateway/src/common/utils/sanitize.util.ts:40-61 | the result for a graph has at most six levels and is left alone by a second redaction |
| Trends.HistogramAfterUpdate | api-gateway/src/analytics/analytics.service.ts:100-103 | counting on a known day keeps the histogram exact |
| Trends.NewDayIsLast | api-gateway/src/analytics/analytics.service.ts:85-103 | a day not yet in the map comes after all that are |
| Trends.HistogramAfterAppend | api-gateway/src/analytics/analytics.service.ts:100-103 | counting on a new day keeps the histogram exact |
| Trends.CountOne | api-gateway/src/analytics/analytics.service.ts:101-102 | one application is counted on its day and nowhere else |
| Trends.GetTrends | api-gateway/src/analytics/analytics.service.ts:74-109 | days + 1 consecutive days first, every count exact, no day missing, and the counts add up to what was fetched |
| Trends.DaysAreConsecutive | api-gateway/src/analytics/analytics.service.ts:91-97 | up to the next local midnight the days have no gap; there are days + 2 of them exactly when one application falls on the extra UTC day |
| Trends.StartIsMidnight | api-gateway/src/analytics/analytics.service.ts:75-77 | the start is the last local midnight at least `days` days back |
| Trends.LastDayIsTodayIff | api-gateway/src/analytics/analytics.service.ts:91-97 | the last expected entry is the UTC day of the last local midnight, and it is today's if and only if no more time has passed since local than since UTC midnight |
| Paging.TotalPages | api-gateway/src/applications/applications.service.ts:436-436 | the least number of pages that holds all rows |
| Paging.PagesAreAPrefix | api-gateway/src/applications/applications.service.ts:345-403 | the first n pages are the first n * limit rows |
| Paging.PagesPartitionTheRows | api-gateway/src/applications/applications.service.ts:400-437 | pages 1 to totalPages concatenate to exactly the filtered rows and later ones are empty |
| FileKeys.Transform | api-gateway/src/common/pipes/file-validation.pipe.ts:19-74 | accepts exactly allowed type, extension, matching signature and size |
| FileKeys.TransformExactly | api-gateway/src/common/pipes/file-validation.pipe.ts:19-74 | which rejection is given when, in literal types, letters, bytes and sizes |
| FileKeys.KeyIsExactly | api-gateway/src/common/utils/file-key.util.ts:5-12 | the key ends in docx if and only if the name has a dot and ends in that in whatever capitals, else in pdf |
| FileKeys.KeyCarriesCheckedExtensionIff | api-gateway/src/common/utils/file-key.util.ts:5-12 | for accepted files the key has the checked extension if and only if the name has a dot or is not `docx` |
| FileKeys.DotlessDocxIsMislabelled | api-gateway/src/common/pipes/file-validation.pipe.ts:30-37 | an accepted file for which it has not |
| FileKeys.KeysAreInjective | api-gateway/src/common/utils/file-key.util.ts:11-11 | different UUIDs give different keys, whatever the file names |
| FileKeys.NoTraversal | cv-parser/src/main/java/com/talentflow/cvparser/shared/util/FileValidator.java:27-30 | no generated key contains a traversal sequence |
| FileKeys.GeneratedKeysAreValid | cv-parser/src/main/java/com/talentflow/cvparser/shared/util/FileValidator.java:89-113 | the parser accepts every key the gateway generates |
| FileKeys.FileKeyErrors | cv-parser/src/main/java/com/talentflow/cvparser/shared/util/FileValidator.java:89-113 | which error a key gets when, in literal terms and characters |
| FileKeys.AcceptedKeysIff | cv-parser/src/main/java/com/talentflow/cvparser/shared/util/FileValidator.java:89-113 | a key is accepted if and only if it is not empty, of plain characters, without leading or double slash and without `../` |

## Left out

- Backoff.DelayIsBracketed: products are exact real numbers, so rounding of the floating-point jitter and the overflow of 2^n are not modelled.
- QueueSafety.OwnershipOkStep: counts closers only; the closes that `onModuleDestroy` issues itself are not counted, so during a shutdown a resource may be closed by it and by a failing attempt.
- QueueServices.QueueService.SafeCloseResources: whether a close throws is not modelled, since both outcomes are swallowed and continue the same way.
- QueueServices.QueueService.CloserFinished: a closer with nothing to close is through before any timer fires; the model lets it wait like any other, which adds runs that the theorems about all runs cover as well; the example runs do not use it and resume every settled await first (`RunsInOrder`), while the run of `CanAlwaysReconnect` may leave other tasks waiting.
- QueueRecovery.EveryOrderRecovers: of the order of the event loop it assumes only that a settled await is resumed before anything else settles or fires.
- QueueServices.QueueService.PublishCvUploaded: that the client library refuses to publish on a closed channel is assumed.
- ApplicationRecords.ApplicationTable.Update: that the database client refuses null for the required columns of stage and status is assumed.
- ApplicationsServices.ApplicationsService.PublishCvUploaded: whether a full outbound buffer really drops the message is assumed, not proved.
- AuthServices.AuthService.Login: the class runs one call at a time; overlapping logins, refreshes and logouts are transition systems over values only (`LoginRaces`, `RefreshTokens`).
- UploadTheorems.NoDanglingRows: file keys that a client sends to `create` are not promised to exist in storage.
- Redaction.SanitizeValue: getters, prototypes set through `__proto__`, array holes and lower-casing beyond A to Z and the Kelvin sign, none of which can complete a sensitive term.
- Paging.PagesPartitionTheRows: ties in the sort column are ordered by the database, so a fixed order of the rows is assumed.
- Trends.GetTrends: the clock is a fixed offset from UTC; daylight-saving changes can repeat or skip a key.
- A failed upload or insert that takes effect only after its error was delivered.
- `sanitizeUrl`, `sanitizeError` and `sanitizeString`: regular expressions and URL parsing.
- Content detection by magic bytes, bucket names and the setters of `FileValidator`.
- `signup`, user management, jobs, interviews and the other analytics queries: plain reads and writes.
- The hard delete of a candidate, which cascades to applications by design and breaks the event and file invariants.
- Role filters of `findAll`, which only narrow the query before paging.
- Overlapping `update` and `remove` calls on one application: `ApplicationRecords` runs them one at a time.
- `getQueueStats`, `isHealthy`, logging, audit events, metrics and configuration loading.
- Equality of the queue declarations of gateway and parser, which differ in a time to live.
