# A model of the browser session control plane

The system hands out remote Playwright browsers. Workers register with a control plane
that keeps two PostgreSQL tables, `workers` and `sessions`. Any number of server replicas
claim slots for clients, relay WebSocket traffic between client and worker, reconcile
heartbeats and sweep dead rows, without a leader. This project models that allocator as a
concurrent step system, and the components that must agree with it as classes or as step
systems of their own, and proves what they promise together.

`dafny verify dfyconfig.toml` checks the whole project.

## How the model is built

**The database** (`Tables`, `ControlPlane`). The state is the two tables, the open
transactions, a clock, the committed notifications and a record of every claim. Snapshots,
row locks, recounts, inserts, commits, aborts and lost commit replies are steps of their
own; transactions of unboundedly many replicas interleave in any order. It keeps what
makes the source subtle:

- A statement selects on its own snapshot. When it gets the lock of a row that has changed
  meanwhile, it tests the row's columns again, but neither the joined session count of the
  claim query nor the `NOT EXISTS` part of `DeleteDeadWorkers`. This is PostgreSQL's
  READ COMMITTED rule and an assumption of the model.
- A row that fails that second test stays locked until its transaction ends.
- `SKIP LOCKED` passes over locked rows; all other statements wait for them.
- `now()` is the start of the transaction.
- A commit whose reply is lost may or may not have happened.
- `beatLimit` is the age beyond which no heartbeat commits; every other transaction may be
  arbitrarily old. Only the results about deleted worker rows depend on it.

**Everything above the database.** `Wakeups` adds the replicas' listeners and wakers.
`Admission` is the queue and retry loop of one request, with everything it observes from
outside as input. `Attaching` is the step system of all attachments and shutdowns on all
replicas, and `Relay` has the manager's critical sections as functions and as a class.
`ClaimFacts`, `RowFacts` and `AttachOutcomes` state what the steps do on the columns of the
rows alone, and `AttachProgress` that attachments and shutdowns neither stick nor go on for
ever. `Statements`, `Rescuers` and `Reconciliation` run the bulk statements row by row, with
their error paths; `StatementRuns` shows that a run of the step system ends in the same
tables, and `ClaimRuns` does so for claims. `Sweeps` lets the transactions of any number of
sweeps overlap in the step system. `Gateway` and `BrowserWorkers` are the worker process:
every handler, callback and continuation after an await is one method, which the runtime
may call in any order.

Integers are unbounded, times are integers, and identifiers never repeat (`uuid.New()`).

## Results that differ from what one might expect

- *Worker rows of live sessions.* That every pending or running session still has its
  worker row is not guaranteed by the statements alone. A worker can be stalled, revived by
  a heartbeat that started long ago, claimed, and told to shut down (or to drain, if the
  stalled-worker timeout is the shorter one) while a delete sweep waits for its row: the
  delete's second test sees the old `last_heartbeat`, and its `NOT EXISTS` is not repeated.
  `WorkerRowsOutliveSessionsIff` gives the exact condition: no heartbeat may commit later
  after its start than the shorter of the worker timeout and the stalled-worker timeout.
  Claims, sweeps, status calls and session updates may be arbitrarily slow.
- *Deadlocks.* Claims, heartbeats, session expiry and single-row updates are never part of
  a wait cycle of any length. `StallSilentWorkers` and `DeleteDeadWorkers` fix no row
  order, so two of those sweeps may wait for each other; the theorem says that only they
  can.
- *The capacity report* is exact if and only if no serving worker has more free slots than
  its lifetime limit leaves; otherwise it promises too much, never too little.
- *Version checks.* Registration accepts versions that `VersionPrefix` does not, such as
  1.62.1.4. For those the claim query may match a client that the explicit endpoint then
  turns away. For all others the two checks agree.
- *The reconciliation grace.* The comment at `server/internal/scheduler/scheduler.go:24-26`
  asks that the grace exceed the dial timeout. The exact condition is that it is no less
  than the time to reach the gateway plus the time from a heartbeat's snapshot to its
  processing.
- The comment at `server/internal/db/queries/sessions.sql:6` calls `StartSession` unused;
  the relay handler calls it, and the model follows the code.

## Model

| member | source | states |
|---|---|---|
| Safety.NeverOverCapacity | server/internal/scheduler/scheduler.go:304-364 | in every state of every run no worker has more committed pending and running sessions than slots, although selection uses a stale count |
| Safety.LifetimeIsExact | server/internal/db/queries/workers.sql:85-89 | the lifetime counter equals the number of session rows ever committed for the worker, and never passes a positive limit |
| Safety.ReportsAreHonest | server/internal/scheduler/scheduler.go:318-363 | a granted session is the one committed and suits the request; no capacity and ordinary errors mean that nothing was committed; no two claims commit one session |
| ClaimFacts.ClaimsTakeLiveWorkers | server/internal/db/queries/workers.sql:54-77 | in every run a claim commits only on a worker that is available, was heard from within the timeout before the claim's start, is below a positive lifetime limit, fits the request and has a slot free at the commit; the new row is pending with the pending expiry |
| ClaimFacts.LoneClaimAnswers | server/internal/scheduler/scheduler.go:318-363 | an undisturbed claim is refused exactly when no worker is live, fits and has a free slot; otherwise it is granted a session on the eligible worker that comes first by lifetime, load and id |
| ClaimFacts.ReportsAnswer | server/internal/scheduler/scheduler.go:325-363 | whatever step changes the report of a claim: a refusal names the worker that the recount found full, or none after all candidates were tried; a grant names what was committed; an error is an abort before the commit was sent; and uncertainty is a lost reply to it |
| ClaimFacts.SentClaimsAreNeverErrors | server/internal/scheduler/scheduler.go:356-361 | once its commit is sent a claim ends by the commit or a server rollback, and its caller learns of the session or that it cannot tell |
| ClaimFacts.RecountDecides | server/internal/scheduler/scheduler.go:331-338 | the recount refuses with the held worker exactly when its committed sessions fill its slots, and otherwise goes on with it |
| ClaimFacts.ReportCountsFreeSlots | server/internal/db/queries/workers.sql:122-146 | the report counts the unused slots of exactly the workers that are available, fresh, below the limit and of that browser |
| ClaimFacts.RoomIsBounded | server/internal/db/queries/workers.sql:63-72 | the room of a worker is the smaller of its free slots and what its lifetime limit leaves, and nothing if it is not live or does not fit |
| RowFacts.UpdateWritesItsRow | server/internal/db/queries/sessions.sql:7-67 | column by column what each committed session update writes; StartSession applies to pending rows only and clears the expiry; a notification exactly when a session ends |
| RowFacts.StatusWritesItsRow | server/internal/db/queries/workers.sql:32-43 | draining only from available, shutting down from any status, and no other column changes |
| RowFacts.RegistrationWritesItsRow | server/internal/db/queries/workers.sql:1-13 | a registered worker is available, heard from now and unused, and is announced |
| RowFacts.HeartbeatWritesItsRows | server/internal/scheduler/scheduler.go:240-285 | the heartbeat time, the revival, the drain at the lifetime limit, the intent that stays, and the failed sessions, column by column |
| RowFacts.SweepExpiresTheOverdue | server/internal/db/queries/sessions.sql:103-118 | once any of the overlapping sweeps has expired sessions, exactly those with an old heartbeat or a passed expiry have expired, in particular every pending session not started in time |
| RowFacts.SweepRemovesTheLongGone | server/internal/db/queries/workers.sql:91-119 | once any of the overlapping sweeps has finished, exactly the long gone workers without a session still using them are gone, and silent available ones are stalled |
| RowFacts.LocksAreHeldToTheEnd | server/internal/scheduler/scheduler.go:309-310 | no transaction gives a row lock back before it ends, not even that of a worker whose columns no longer fit |
| Safety.StepKeepsInv | server/internal/scheduler/scheduler.go:309-310 | every step of every transaction keeps exclusive row locks, the capacity and lifetime bounds, and below-capacity between recount and commit |
| Tables.First | server/internal/db/queries/workers.sql:73-77 | the order by lifetime, load and id has exactly one least row among any candidates, ahead of all others |
| Tables.InClaimOrder | server/internal/db/queries/workers.sql:73-77 | the scan visits exactly the candidates, once each, the preferred one first |
| Transitions.StepMoves | server/internal/db/queries/sessions.sql:7-67 | every step moves rows only along the two state machines, deletes no session row, and notifies in the same commit whenever a session stops using a slot |
| Transitions.SessionsOnlyMoveForward | server/internal/db/queries/sessions.sql:7-67 | over any stretch of any run an ended session keeps its row unchanged, and a started one never becomes pending again |
| Transitions.DrainIntentIsForever | server/internal/db/queries/workers.sql:20-43 | a draining or shutting-down worker is never available or stalled again, in spite of heartbeats and stall sweeps, and a deleted worker never returns |
| Deadlock.OnlyWorkerSweepsCanDeadlock | server/internal/db/queries/sessions.sql:103-134 | every wait cycle of any length in any reachable lock table consists of worker sweeps alone |
| Deadlock.RunKeepsLockOrder | server/internal/db/queries/sessions.sql:107-116 | in every reachable state each bulk transaction has locked only sessions below all those it still wants |
| Deadlock.LocksUnlessWaiting | server/internal/db/queries/sessions.sql:103-134 | a transaction can take its next row lock exactly when it waits for nobody in the lock table |
| Deadlock.ClaimsNeverWait | server/internal/db/queries/workers.sql:76-76 | whatever is locked, a claim that scans has a next step |
| Orphans.PromptRunHasNoOrphans | server/internal/db/queries/workers.sql:99-119 | if every heartbeat commits within the shorter worker timeout, no run loses the worker row of a live session, however old its claims, sweeps and other transactions are |
| OrphanWitness.SlowRunOrphans | server/internal/db/queries/workers.sql:20-30 | for every configuration that lets a heartbeat take longer there is a run that deletes the worker row under a live session |
| OrphanWitness.WorkerRowsOutliveSessionsIff | server/internal/db/queries/workers.sql:99-119 | live sessions keep their worker rows in all reachable states if and only if the heartbeat age limit is at most the shorter of the two timeouts, with no limit on any other transaction |
| Wakers.Waker.Subscribe | server/internal/scheduler/waker.go:15-28 | a new waiter gets an unused id and an own empty slot; all others stay |
| Wakers.Waker.Unsubscribe | server/internal/scheduler/waker.go:23-27 | only that waiter leaves |
| Wakers.Waker.Wake | server/internal/scheduler/waker.go:30-40 | afterwards every subscribed waiter has a token, however many wake-ups coalesced |
| Wakeups.NoLostWakeup | server/internal/scheduler/scheduler.go:158-208 | after any step that frees a slot on any worker, a waiter that stays subscribed and connected and has not consumed a token since has one, or that commit's notification is still in flight to its replica |
| Wakeups.CaughtUpMeansWoken | server/internal/scheduler/scheduler.go:200-208 | once the listener has caught up with that commit, the parked request has a token |
| Wakeups.TokensComeFromNotifications | server/internal/scheduler/waker.go:15-40 | a waiter has a token only if a notification was delivered to its replica since it subscribed and since it last consumed one |
| Admission.ReachableClaimsAreHonest | server/internal/scheduler/scheduler.go:304-364 | what the retry loops assume about claimOnce holds in every reachable state of the database |
| Admission.Scheduler.EnterQueue | server/internal/scheduler/scheduler.go:385-393 | a call enters exactly when fewer than maxQueueSize calls are inside, and the counter equals the calls inside |
| Admission.Scheduler.LeaveQueue | server/internal/scheduler/scheduler.go:395-399 | exactly this call leaves, and the counter stays exact |
| Admission.Scheduler.Claim | server/internal/scheduler/scheduler.go:114-137 | the answer is that of the first decisive attempt of eight, each told to exclude all workers found full before; the sessions of all attempts together are at most one, and the answer accounts for it |
| Admission.Scheduler.TakeTurn | server/internal/scheduler/scheduler.go:167-209 | one turn asks for a worker exactly if nothing stops it before; it ends the call with the failure that the state of the contexts calls for, in the source's order, or leaves it queued with the exclusions of the next turn |
| Admission.TurnTable | server/internal/scheduler/scheduler.go:167-209 | the outcome of a turn, case by case on the contexts, the claim's answer and what ended the wait |
| Admission.QueueEnds | server/internal/scheduler/scheduler.go:167-209 | a queued call ends with its first turn that is not inconclusive, and asks for a worker in no later turn |
| Admission.StoppedBeforeAsking | server/internal/scheduler/scheduler.go:366-379 | a turn that begins stopped asks for nothing: the request's own end comes first, then draining, then the wait's deadline |
| Admission.StoppedAfterAsking | server/internal/scheduler/scheduler.go:189-194 | the same order after a claim that found nothing or failed, so a draining server is reported and not its canceled claim |
| Admission.Scheduler.QueueLoop | server/internal/scheduler/scheduler.go:164-209 | over any number of turns the first one that is not inconclusive ends the call, and the sessions of all its claims together are at most one and accounted for by the result |
| Admission.QueueAsksExclude | server/internal/scheduler/scheduler.go:181-188 | claim number i of the queue loop excludes exactly the workers found full since the call last parked |
| Admission.Scheduler.Admit | server/internal/scheduler/scheduler.go:139-210 | over the direct claim and the queue together success returns exactly the one committed session, any failure but an uncertain commit means none, every exit leaves the queue, and the counter stays within its bounds while others come and go |
| Admission.AdmitAccounts | server/internal/scheduler/scheduler.go:139-210 | the sessions committed by all claims of one call are at most one, and its result says which |
| Admission.OneSessionPerAdmit | server/internal/scheduler/scheduler.go:139-210 | when the claims of one call are transactions of a run of the database, each with the exclusions the call had gathered, the database committed at most one session for all of them, the result accounts for it, and no exclusion list repeats a worker |
| Admission.RetriesNameNewWorkers | server/internal/scheduler/scheduler.go:181-184 | a block of immediate retries names a different full worker each time, so it cannot spin |
| StatementRuns.SweepAloneIsTheStatement | server/internal/db/queries/workers.sql:91-119 | from any state without open transactions the steps begin, lock each row, commit lead to exactly the tables of the one-shot stall or delete, and change nothing else |
| StatementRuns.ExpiryAloneIsTheStatement | server/internal/db/queries/sessions.sql:103-118 | likewise for session expiry, with one notification exactly if a session expired |
| StatementRuns.HeartbeatAloneIsTheStatement | server/internal/db/queries/sessions.sql:120-134 | likewise for a heartbeat: its worker row, the failed sessions and the notification |
| StatementRuns.UpdateAloneIsTheStatement | server/internal/db/queries/sessions.sql:7-67 | an update of one session, alone, runs to its commit |
| StatementRuns.StatusAloneIsTheStatement | server/internal/db/queries/workers.sql:32-43 | a status request, alone, runs to its commit |
| Statements.Database.StallSilentWorkers | server/internal/db/queries/workers.sql:91-97 | row by row, exactly the available workers with an old heartbeat become stalled, and their number is returned |
| Statements.Database.EndSessions | server/internal/db/queries/sessions.sql:103-134 | row by row, exactly the selected sessions end, all other rows stay, and the ended ids are returned |
| Statements.Database.DeleteDeadWorkers | server/internal/db/queries/workers.sql:99-119 | row by row, exactly the dead workers without live sessions are removed, and their ids are returned |
| Rescuers.Rescuer.ExpireDeadSessions | server/internal/rescuer/rescuer.go:121-142 | sessions expire and capacity is announced together or not at all, also when the reply to the commit is lost |
| Rescuers.Rescuer.Sweep | server/internal/rescuer/rescuer.go:82-101 | a sweep is stall, expire, delete in that order; the first failing transaction ends it with the summary so far, and the tables are those of the transactions that took effect |
| Sweeps.FurthestSweepDecides | server/internal/rescuer/rescuer.go:45-46 | in every state of every interleaving of the steps of any number of sweeps, with transactions that overlap, wait, abort or lose replies, the tables are those of one undisturbed sweep that is as far as the furthest, and capacity was announced once if sessions expired |
| Sweeps.ConcurrentSweepsAreHarmless | server/internal/rescuer/rescuer.go:45-46 | once one of any number of overlapping sweeps has finished, and ever after, the tables are those a single sweep leaves, whatever the others still have open |
| Sweeps.FirstCommit | server/internal/db/queries/workers.sql:91-119 | the first sweep to commit its transaction number k does all the work of that statement, with the rows its stale snapshot listed |
| Sweeps.LaterCommit | server/internal/db/queries/workers.sql:91-119 | every later commit of transaction number k finds nothing left to change and notifies nobody |
| Rescuers.SweepIsIdempotent | server/internal/rescuer/rescuer.go:82-101 | sweeping again at the same clock reading changes nothing |
| Rescuers.RepeatingChangesNothing | server/internal/rescuer/rescuer.go:82-101 | after the first m transactions of a sweep, repeating any of them is the identity on the tables |
| Reconciliation.Reconciler.Heartbeat | server/internal/scheduler/scheduler.go:228-292 | the new tables, the notification and the reply; any failing call rolls everything back, a failing commit may have been applied, and an unknown worker changes nothing |
| Reconciliation.Reconciler.HeartbeatTwice | worker/src/worker.ts:241-251 | two heartbeats with the gateway's closes in between: the second fails nothing, returns nothing and leaves the tables of the first |
| Reconciliation.FailsExactlyTheUnreported | server/internal/db/queries/sessions.sql:120-134 | a session fails exactly when it is running on this worker, past the grace period and not reported; every other row is unchanged |
| Reconciliation.StaleIdsBeforeAndAfter | server/internal/db/queries/sessions.sql:136-144 | failing the unreported sessions makes no reported one stale |
| Reconciliation.OneRoundReconciles | server/internal/scheduler/scheduler.go:245-268 | once the gateway has closed what the reply called stale, a second heartbeat at the same clock reading fails, returns and changes nothing, and both sides hold the same sessions past the grace period |
| Grace.LateRunFailsHeld | server/internal/db/queries/sessions.sql:126-130 | for all delays that together exceed the grace period there is a run that fails a session the gateway holds |
| Grace.GraceBoundIff | server/internal/scheduler/scheduler.go:24-27 | no run fails a held session if and only if arrival delay plus processing delay is at most the grace period |
| Capacity.ClaimsUseExactlyTheRoom | server/internal/db/queries/workers.sql:54-89 | with a frozen clock, consecutive claims succeed exactly as often as the total of min(free slots, limit minus lifetime) over the workers the request accepts |
| Capacity.ReportAgreesIff | server/internal/db/queries/workers.sql:121-165 | available_slots is never below what claims get, and equal to it if and only if no serving worker of the browser has more free slots than its lifetime limit leaves |
| Capacity.ReportIsExactWithoutLimit | server/internal/db/queries/workers.sql:121-165 | without a lifetime limit exactly available_slots consecutive claims succeed |
| ClaimRuns.LoneClaimIsGranted | server/internal/scheduler/scheduler.go:318-363 | a claim that runs alone in the step system commits the row, counter and report that the capacity results compute with |
| ClaimRuns.LoneClaimIsDecided | server/internal/scheduler/scheduler.go:318-363 | whatever steps a claim takes alone while its connection holds, its answer and the tables are those of the computed choice |
| ClaimRuns.ClaimsFillTheRoom | server/internal/scheduler/scheduler.go:304-364 | from any state without open transactions the database goes through exactly as many consecutive granted claims as the workers have room, and turns the next one away |
| ClaimRuns.LoneClaimIsRefused | server/internal/scheduler/scheduler.go:325-327 | a lone claim without candidates reports no capacity and leaves both tables alone |
| ClaimRuns.UncertainCommitGoesEitherWay | server/internal/scheduler/scheduler.go:356-361 | after a lost commit reply the claim reports that it cannot tell, and there is a run in which its session was committed and one in which it was not |
| Recycling.NewWorkerOnlyWhenOthersAreFull | server/internal/db/queries/workers.sql:73-77 | under any load an unused worker is started only if every eligible used one is full |
| Recycling.WorkersRecycleOneAtATime | server/internal/db/queries/workers.sql:73-77 | a uniform fleet that starts unused and serves one session after another has at all times at most one worker part of the way to the limit |
| Relay.Manager.BeginAttach | server/internal/relay/manager.go:99-107 | refuses exactly when draining, and otherwise adds one to the wait group with a fresh unconsumed reservation |
| Relay.Manager.Release | server/internal/relay/manager.go:109-112 | gives the reservation back once, and never one that a relay adopted |
| Relay.Manager.Register | server/internal/relay/manager.go:209-222 | draining, duplicate or accepted; only an accepted relay enters the map and consumes its reservation |
| Relay.Manager.Unregister | server/internal/relay/manager.go:224-229 | the relay leaves the map and the wait group |
| Relay.Manager.LiveStops | server/internal/relay/manager.go:191-196 | the snapshot holds the relays that are live at that moment, each once |
| Relay.Manager.StopAll | server/internal/relay/manager.go:197-199 | each of those relays is offered the stop event exactly once and has an event afterwards, whether or not it still is in the map |
| AttachSafety.StepKeepsInv | server/internal/relay/manager.go:99-229 | every step of any attachment, session or shutdown keeps the counting, the live maps, the channels and one winner for each session |
| AttachSafety.WaitGroupIsExact | server/internal/relay/manager.go:99-135 | the wait count equals unconsumed reservations plus accepted relays not fully unregistered, and Shutdown returns nil only when none of them and no live relay remains |
| AttachSafety.BroadcastReachesEveryone | server/internal/relay/manager.go:186-199 | after the broadcast every relay that still runs has an event waiting |
| AttachSafety.FirstEventWins | server/internal/relay/manager.go:150-159 | the first event ever offered to a relay is the one that tears it down |
| AttachOutcomes.FirstEventDecidesOutcome | server/internal/relay/manager.go:155-163 | the recorded outcome of a running session is completed if the first event offered was a normal end and failed otherwise; an ended session and every other session stay |
| AttachOutcomes.FailedAttachFailsSession | server/internal/httpapi/relay.go:178-211 | a failed start, dial or upgrade fails the live session and nothing else |
| AttachOutcomes.RefusedRelayCompletesSession | server/internal/relay/manager.go:124-127 | a relay refused by a draining manager completes its running session |
| AttachOutcomes.StartRunsPendingOnly | server/internal/httpapi/relay.go:178-187 | a start wins exactly on a pending session, loses on any other, and an error may hide that it won |
| AttachOutcomes.BroadcastEndsNormally | server/internal/relay/manager.go:186-199 | the broadcast offers a normal end with code 1001 and changes nothing else |
| AttachOutcomes.FailuresAreRecorded | server/internal/httpapi/relay.go:178-211 | a failed start, dial or upgrade leads to FailSession, and the attachment goes no further before it |
| AttachOutcomes.OnlyStartersEndSessions | server/internal/httpapi/relay.go:164-217 | an attachment ends a session only if it started it or its start failed without an answer; one that lost the start never does |
| AttachOutcomes.CallsInOrder | server/internal/httpapi/relay.go:164-217 | the order of the calls from reservation to release, with the branch of each result |
| AttachProgress.AttachmentsReturn | server/internal/relay/manager.go:114-164 | in every state of every run an attachment that has not returned can take a step, and every step leaves fewer, so Shutdown does not wait for ever |
| AttachProgress.ShutdownGoesOn | server/internal/relay/manager.go:166-207 | a replica that shuts down can always go on, and returns nil once nothing is open after the broadcast |
| Relay.NormalEndsAreCloses | server/internal/relay/manager.go:338-388 | a relay ends normally exactly when a peer closed with 1000, 1001 or no status, and only receivable codes are passed on |
| AttachSafety.NothingJoinsWhileDraining | server/internal/relay/manager.go:209-214 | once a replica drains, its open reservations and relays and its live map only shrink |
| AttachSafety.OneAttachPerSession | server/internal/httpapi/relay.go:164-217 | over any number of attachments on any number of replicas at most one starts a given session, and a registration never finds its session in the map |
| AttachSafety.NoDuplicate | server/internal/relay/manager.go:128-134 | the duplicate branch cannot be reached from attach |
| AttachSafety.StartedSessionsEndFirst | server/internal/httpapi/relay.go:164-217 | if its database calls succeed, an attachment that started its session has ended it before it stops counting for Shutdown |
| CopyMessages.Destination.NextWriter | server/internal/relay/manager.go:300-303 | opening a message while another is open completes the open one first, as the library does |
| CopyMessages.Destination.Write | server/internal/relay/manager.go:304-311 | the open message keeps its type and grows by the chunk, or by a prefix of the chunk when the write fails |
| CopyMessages.Destination.Close | server/internal/relay/manager.go:312-316 | the open message is completed, also when only the report of the close fails |
| CopyMessages.Copy | server/internal/relay/manager.go:287-318 | for every chunking and every failure point, the messages completed at the destination are a prefix, byte for byte and with the same types, of those completed at the source, and all of them without a failure (section 5.4 of RFC 6455); the first call that fails ends the loop |
| CopyMessages.CompletedStops | server/internal/relay/manager.go:309-311 | nothing after an unfinished source message counts as completed |
| Gateway.SessionGateway.HandleUpgrade | worker/src/gateway.ts:136-174 | the refusals with their status codes in order; an upgrade is dialed only under an id that is neither pending nor accepted, so no entry is overwritten |
| Gateway.IsUuidIsThePattern | worker/src/gateway.ts:21-21 | the ids accepted are exactly the strings of the pattern, group by group |
| Gateway.LegalCloseCodes | worker/src/gateway.ts:365-368 | the codes that may be sent, one by one |
| Gateway.SessionGateway.AbortDial | worker/src/gateway.ts:186-190 | a dial whose client is gone is cut and forgotten, if it is still the pending one |
| Gateway.SessionGateway.RejectClient | worker/src/gateway.ts:191-199 | a rejected dial is cut and its client, if still there, gets the status |
| Gateway.SessionGateway.ClearPending | worker/src/gateway.ts:176-185 | a dial clears only its own entry, in both collections, and detaches its listeners |
| Gateway.SessionGateway.AcceptClient | worker/src/gateway.ts:210-222 | the session object joins the map under a free id and its dial stops being pending, in one handler |
| Gateway.SessionGateway.UpstreamOpens | worker/src/gateway.ts:200-229 | a session is accepted exactly when the listener is attached, the gateway is not shutting down, the client is there and the upgrade works; otherwise the attempt is cut, except that a refused upgrade stays pending |
| Gateway.SessionGateway.UpstreamFails | worker/src/gateway.ts:167-173 | a failing browser connection rejects its own pending client with 502, or else closes with 1011, removes and announces its own session if that is still current, and touches nothing else |
| Gateway.SessionGateway.ClientSocketCloses | worker/src/gateway.ts:186-190 | a closing client socket cuts and clears its own pending dial and nothing else |
| Gateway.SessionGateway.SessionFails | worker/src/gateway.ts:213-235 | an error of one session object closes both its sides with 1011 and never touches a newer session with the same id |
| Gateway.SessionGateway.ClosePeer | worker/src/gateway.ts:241-255 | the other side gets the received close code where it may be sent and 1011 otherwise; a late close of an old session object does nothing |
| Gateway.SessionSockets.CloseClient | worker/src/gateway.ts:304-312 | an open socket gets one close, and only ever with a legal code |
| Gateway.SessionGateway.RemoveSession | worker/src/gateway.ts:257-263 | only this very session object is removed, and its removal is announced once |
| Gateway.SessionGateway.CloseSession | worker/src/gateway.ts:86-98 | both sides of the session of that id, if any, are closed with 1001, and it is removed and announced |
| Gateway.SessionGateway.CloseStale | worker/src/worker.ts:248-250 | after a heartbeat reply exactly the sessions it called stale are closed with 1001 on both sides, announced and gone; the others keep their connections |
| Gateway.SessionGateway.Shutdown | worker/src/gateway.ts:107-120 | every session is closed with 1001 and announced, every pending dial is cut and its client turned away with 503, and both maps are empty and stay so under every handler |
| Gateway.SessionGateway.AcceptedAreActiveOrAnnounced | worker/src/gateway.ts:52-58 | the accepted sessions are as many as the active ones plus the announced ones |
| BrowserWorkers.BrowserWorker.StartContinues | worker/src/worker.ts:117-161 | startup goes through its phases to running with one armed heartbeat; a failure shuts down with code 1; after a shutdown began it only closes, or kills, a browser that finished launching late |
| BrowserWorkers.BrowserWorker.RequestDrain | worker/src/worker.ts:163-189 | the first request from running starts the drain, any other forces shutdown; a signalled drain first tells the server |
| BrowserWorkers.BrowserWorker.DrainCallReturns | worker/src/worker.ts:178-189 | with sessions left the drain timer is set, without them shutdown starts |
| BrowserWorkers.BrowserWorker.DrainTimerFires | worker/src/worker.ts:186-189 | the expired drain timer forces shutdown with code 0 |
| BrowserWorkers.BrowserWorker.SessionClosed | worker/src/worker.ts:135-139 | only the last session of a draining worker starts shutdown |
| BrowserWorkers.BrowserWorker.Fatal | worker/src/worker.ts:192-195 | a fatal error shuts down with code 1 unless a shutdown is under way |
| BrowserWorkers.BrowserWorker.Shutdown | worker/src/worker.ts:197-204 | the first call settles the exit code and waits for the server if registered, else for the gateway if there is one, else for the browser if there is one, else exits; later ones change nothing |
| BrowserWorkers.BrowserWorker.ShutdownContinues | worker/src/worker.ts:288-366 | status, gateway, browser, kill, exit in that order, each wait within its share of the budget; only a failed browser close leads to the kill |
| BrowserWorkers.BrowserWorker.HeartbeatFires | worker/src/worker.ts:220-236 | a firing timer becomes the one tick in flight, or is armed again |
| BrowserWorkers.BrowserWorker.HeartbeatReplies | worker/src/worker.ts:237-276 | how each reported status moves each state, and where the tick then waits |
| BrowserWorkers.BrowserWorker.ObeyStatus | worker/src/worker.ts:251-259 | a remote shutdown ends the worker with code 0, a remote drain starts the drain, and any other status leaves the state |
| BrowserWorkers.BrowserWorker.RegistrationReturns | worker/src/worker.ts:262-276 | re-registration after an unknown-worker reply, which a shutdown makes void |
| BrowserWorkers.BrowserWorker.TickEnds | worker/src/worker.ts:275-277 | a tick that ends arms exactly one next heartbeat, and none during shutdown |
| BrowserWorkers.BrowserWorker.Deliver | worker/src/worker.ts:163-366 | over any run the state only moves forward, exit is called at most once and only after the server was told and the gateway and the browser were closed where there are any, at most one heartbeat is armed or in flight, and after a drain request the clock passes drainTimeout + 4 cleanupTimeout + browserCloseTimeout only after exit |
| BrowserWorkers.BrowserWorker.TimersLeadToExit | worker/src/worker.ts:178-366 | from every draining state the timers alone bring about exit within that budget, whatever hangs |
| BrowserWorkers.BrowserWorker.EveryWaitCanEnd | worker/src/worker.ts:163-366 | in every valid state each thing that the worker waits for may answer in every way, and time may pass up to the next due time |
| BrowserWorkers.BrowserWorker.HangEverywhere | worker/src/worker.ts:163-366 | the budget is tight: there is a run that exits exactly when it is used up |
| Versions.VersionPrefixIsTheRegex | server/internal/relay/version.go:18-24 | the parser accepts exactly the strings of the regular expression and returns its first two groups with trailing dots |
| Versions.UserAgentVersionIsLeftmost | server/internal/relay/version.go:10-16 | an answer is the leftmost match of the user-agent expression |
| Versions.UserAgentVersionMissesNothing | server/internal/relay/version.go:10-16 | there is no answer only when nothing matches anywhere |
| Versions.PrefixOfThreeParts | server/internal/db/queries/workers.sql:65-65 | starts-with compares whole numbers: 1.62. matches 1.62.x and never 1.620.x |
| Versions.VersionChecksAgree | server/internal/httpapi/relay.go:129-143 | for a registrable version the explicit check passes exactly when the claim query's test passes and VersionPrefix accepts the version |
| Versions.ChecksDifferOnFourParts | server/internal/httpapi/server.go:356-356 | on every four-part version, which registration accepts, the two checks differ |
| Versions.AgentVersionHasItsPrefix | server/internal/relay/version.go:10-16 | the version that a user agent yields has the user agent's own prefix |
| Versions.CharacterClasses | server/internal/relay/version.go:6-7 | the character classes of the two expressions, by code point |
| Versions.PlainAgentIsRead | server/internal/relay/version.go:6-16 | a user agent that names Playwright and two numbers yields exactly those |
| Versions.WordsEnd | server/internal/relay/version.go:6-6 | what must follow the numbers: nothing or white space |

## Left out

- Deadlock.OnlyWorkerSweepsCanDeadlock: leaves open whether worker sweeps deadlock among themselves, because their SQL fixes no lock order.
- Wakeups.NoLostWakeup: covers slots that a session gives up. A claim that loses a row to `SKIP LOCKED`, the release of that lock, and the revival of a stalled worker notify nobody in the source; those wait for the poll.
- Wakeups.CaughtUpMeansWoken: a listener that reconnects misses the notifications sent meanwhile, as in the source; delivery itself is assumed.
- Grace.GraceBoundIff: sessions of one worker; expiry by the rescuer appears as an update that ends the session.
- AttachSafety.StartedSessionsEndFirst: the sessions table around the attachments may create and end sessions at will, which allows more than the database does.
- Gateway.SessionGateway.ClosePeer: close reasons, and the forwarding of messages with its pausing, are not modelled.
- Gateway.SessionGateway.Shutdown: up to its first wait; closing the servers with a deadline is covered by the cleanup timeout of `BrowserWorkers`.
- Sweeps.ConcurrentSweepsAreHarmless: the clock stands still and only sweeps run; what sweeps do beside other transactions is covered by the results over all runs.
- BrowserWorkers.BrowserWorker.Deliver: timers that drain and shutdown wait for fire on time.
- BrowserWorkers.BrowserWorker.DrainCallReturns: a drain request that is overtaken by a shutdown may leave a drain timer armed, as in the source; when it fires it finds the shutdown under way.
- CopyMessages.Copy: one direction; the library's frames, masks and compression are below the model.
- PostgreSQL, pgx, the WebSocket libraries and Playwright themselves: rows, locks, snapshots, sockets and calls are abstract steps or inputs.
- Ping and heartbeat renewal of a relay: they appear only as senders of teardown events.
- Random jitter, listener backoff and retry delays: any delay is possible.
- HTTP routing, authentication, configuration parsing, logging, migrations, the generated client and the API-key tool: plumbing.
- Session columns that no decision reads, such as the worker address and the connect metadata.
