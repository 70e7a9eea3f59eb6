# Verified model of the Groundwork server's state machines

This project models the protocols and algorithms of the server that are hard to get right, and
proves what they promise. Each transaction or algorithm is carried out by a class or method that
changes its state in place, and is proved equal to a specification function; the promises are
lemmas about those functions, most of them about every run: any interleaving of the operations,
with a clock that may advance by any amount between two of them.

Verify everything with `dafny verify dfyconfig.toml` (Dafny 4.11).

| files | component |
|---|---|
| `NativeJob*.dfy` | the durable job queue: expiring leases, a fresh fencing token per claim, two attempts, cancellation, recovery; what every transaction answers and leaves behind |
| `Worker{Staging,Invariants,Outcomes,Runs,Safety,Provenance,Authority,Upload,UploadRuns,Traffic,Client,Input}.dfy` | the remote worker authority: grants, staged chunks, reassembly; the worker's download and upload loops among everything other parties do |
| `Transactions.dfy`, `DatabaseMutex.dfy` | nested transactions over savepoints with after-commit effects; the queue in front of the database |
| `Circuit*.dfy`, `Outbound*.dfy` | the shared circuit breaker with eviction and probes; the outbound request around it |
| `MapSums.dfy`, `Capacity*.dfy`, `Render*.dfy` | capacity shared by artifacts and reservations, daily budgets, render jobs |
| `Workspace*.dfy` | versioned workspaces: compare-and-set revisions, pruning, references |
| `WorkerLoop*.dfy` | the worker's lifecycle loop as an interleaved step machine |
| `Sql*.dfy` | the SQL tokenizer and rewriter: parameters, protected text, and what becomes of every token |
| `ForeignKeys.dfy`, `Base32.dfy`, `RequestScan.dfy`, `Latency.dfy`, `DesignComplexity.dfy`, `FrameDecoder.dfy` | sequential algorithms |

## Where the code does not keep a promise

- Circuit breaker. "One probe at a time" holds in every run exactly when the cooldown is longer than a
  permit may be out (`CircuitSafety.OneProbeIffCooldownOutlastsRequests`). The settings allow a shorter
  cooldown, and requests may carry their own deadline of up to 300 s. The failing run needs
  `CircuitBreaker.reset`, which no server code calls yet: docs/ENGINEERING-IMPLEMENTATION.md line 85
  keeps it for a future operator endpoint. A reset while a probe is out, followed by as many failures
  as the threshold, admits a second probe. The defaults, 30 s and 15 s, are on the safe side; without a
  reset there is never more than one.
- SQL rewriter. The rules use the word `LOWER_PARAMETER` as a mark of their own. The reported number of
  parameters is that of the unprotected question marks and the stray markers together, a stray marker
  being that word anywhere but in the column of a comparison `= ? COLLATE NOCASE`, which is folded before
  parameters are counted. So the number is right exactly when there is no stray marker
  (`SqlSafety.CountIsRightIff`), and a question mark gets its own number exactly when none stands before
  it (`SqlSafety.NumberIsRightIff`). `SqlSafety.MarkerIsMiscounted` is an instance.

## Assumptions

Transactions are serialised (`BEGIN IMMEDIATE`, the advisory lock), and one transaction reads one
instant, except that a circuit update reads the clock twice. Random ids and tokens never repeat,
grants cannot be forged, and a digest determines the bytes it was taken of. Session, membership
and registration lookups are arbitrary booleans per step. The clock never goes back. The result of an
outbound request is recorded, or lost with its process, within less than the 310 s a probe is leased for:
its deadline of at most 300 s and the time the recording takes.

## Model

| member | source | states |
|---|---|---|
| `NativeJobSafety.Reachable` | server/src/nativeJobs.ts:211-395 | every table reached by submit, cancel, delete, claim, resolve, renew, finish and fail in any order, with any clock advances, satisfies: running iff a token is held, queued implies at most one attempt and no cancel request, attempts at most 2, at most 4 running and 64 active jobs, at most 2 active and 32 jobs per project |
| `NativeJobSafety.HolderIsLatest` | server/src/nativeJobs.ts:262-311 | a row with a token carries the token of the job's latest claim |
| `NativeJobSafety.PublicationIsFenced` | server/src/nativeJobs.ts:362-388 | outputs are published only by the holder of the latest claim, while the lease and the job's deadline are in the future and no cancellation is requested, and exactly the delivered outputs are stored |
| `NativeJobSafety.PublishesOnce` | server/src/nativeJobs.ts:362-388 | in a run no job publishes twice |
| `NativeJobSafety.OutputsHaveOnePublication` | server/src/nativeJobs.ts:362-388 | whatever outputs a job shows were delivered whole by one publication of that job: a failed one leaves nothing |
| `NativeJobSafety.LostForever` | server/src/nativeJobs.ts:314-395 | once a token's lease is lost it stays lost, and no call with that token changes the tables |
| `NativeJobSafety.SupersededIsLost` | server/src/nativeJobs.ts:283-309 | a newer claim of a job makes every older token of it lost |
| `NativeJobSafety.EndIsFinal` | server/src/nativeJobs.ts:257-260 | succeeded, failed and cancelled rows never change again |
| `NativeJobSafety.CancellationWins` | server/src/nativeJobs.ts:227-237 | after a cancellation request a job is running or cancelled, nothing else |
| `NativeJobSafety.AtMostTwoClaims` | server/src/nativeJobs.ts:283-309 | `attempts` counts the claims of a run, and no job is claimed a third time |
| `NativeJobOutcomes.SubmitOutcome` | server/src/nativeJobs.ts:176-226 | a retry key in use answers with its job, or is refused for another request; a new one is refused for its first fault or for want of capacity, else becomes a queued row with 600 s to live; nothing else changes |
| `NativeJobOutcomes.CancelOutcome` | server/src/nativeJobs.ts:227-237 | an authorised cancellation ends a queued row and marks a running one, whose lease stays; ended rows and all others stay |
| `NativeJobOutcomes.DeleteOutcome` | server/src/nativeJobs.ts:238-246 | an ended row goes, with what it shows; a queued or running one is refused; others stay |
| `NativeJobOutcomes.ClaimTakesOldest` | server/src/nativeJobs.ts:262-311 | a claim is granted iff fewer than four leases last and some waiting row in scope can be had, and then it is the oldest such row, held under the fresh token for exactly 20 s, its attempts one more |
| `NativeJobOutcomes.ClaimLeavesOthers` | server/src/nativeJobs.ts:262-311 | every other row: an expired lease goes back to the queue after a first attempt that is neither cancelled nor past its deadline, and otherwise ends; a waiting row passed over ends with the reason; the rest stay |
| `NativeJobOutcomes.ResolveOutcome` | server/src/nativeJobs.ts:314-332 | confirms exactly an open claim that is what its ticket says, with access; a lease that is not open, or has lost access, ends its row for the first reason that applies |
| `NativeJobOutcomes.RenewOutcome` | server/src/nativeJobs.ts:341-360 | true iff the claim is open and has access; then the token is held until the smaller of now + 20 and the deadline, with every other column unchanged |
| `NativeJobOutcomes.FinishOutcome` | server/src/nativeJobs.ts:362-388 | an open claim publishes exactly what it is given if all of it can be delivered, and else is refused for the first fault with nothing changed; one that is not open ends instead |
| `NativeJobOutcomes.FailOutcome` | server/src/nativeJobs.ts:389-395 | the row held ends: cancelled if that was asked for, else failed with the deadline or the reported code; without the lease nothing changes |
| `NativeJobFates.CancelledForGood` | server/src/nativeJobs.ts:227-237 | after an authorised cancellation of an active job, at every later step of the run the job is gone, cancelled, or running with the request on it; it shows nothing and never publishes |
| `NativeJobFates.LeaseHolds` | server/src/nativeJobs.ts:262-395 | in a run only its holder or its time ends a lease: until then the row keeps token, state and every column but a request to cancel |
| `NativeJobFates.RenewalHolds` | server/src/nativeJobs.ts:341-360 | a worker told that its renewal went through holds the job at every step before the smaller of now + 20 and the deadline, unless it gives it up |
| `NativeJobFates.ClaimHolds` | server/src/nativeJobs.ts:285-309 | so does a worker that was given the job, for 20 s |
| `NativeJobFates.RetryFindsJob` | server/src/nativeJobs.ts:179-184 | a submission repeated in a run finds the job it made while that exists, another request under its key is refused, and neither changes anything |
| `NativeJobInvariants.StaleFitsBatch` | server/src/nativeJobs.ts:268-277 | the batch of 64 never truncates the recovery of expired leases |
| `NativeJobInvariants.QueueFitsBatch` | server/src/nativeJobs.ts:283-284 | the batch of 64 never truncates the scan of the queue |
| `NativeJobRuns.ScanOutcome` | server/src/nativeJobs.ts:283-309 | a claim refuses a prefix of the queue, leases the row after it with the fresh token, and leaves all others as they are |
| `NativeJobs.OrderedListing` | server/src/nativeJobs.ts:268-284 | listing rows by time and id gives each of them once, in order |
| `NativeJobStore.JobStore.Submit` | server/src/nativeJobs.ts:176-226 | the transaction changes the rows as its specification says: capacity, idempotency key and state of a new row |
| `NativeJobStore.JobStore.Cancel` | server/src/nativeJobs.ts:227-237 | the transaction changes the rows as its specification says: a queued row is cancelled, a running one marked |
| `NativeJobStore.JobStore.Delete` | server/src/nativeJobs.ts:238-246 | the transaction changes the rows as its specification says: only ended rows go |
| `NativeJobStore.JobStore.RecoverStale` | server/src/nativeJobs.ts:268-277 | the transaction changes the rows as its specification says: each expired lease is requeued, failed or cancelled |
| `NativeJobStore.JobStore.Claim` | server/src/nativeJobs.ts:262-311 | the transaction changes the rows as its specification says: recovery, running cap and the scan of the queue, in place |
| `NativeJobStore.JobStore.Resolve` | server/src/nativeJobs.ts:314-332 | the transaction changes the rows as its specification says: the row of a live claim, or the end its access change demands |
| `NativeJobStore.JobStore.Renew` | server/src/nativeJobs.ts:341-360 | the transaction changes the rows as its specification says: the lease is extended only for its holder |
| `NativeJobStore.JobStore.Fail` | server/src/nativeJobs.ts:389-395 | the transaction changes the rows as its specification says: the holder ends its row |
| `NativeJobStore.JobStore.Finish` | server/src/nativeJobs.ts:362-388 | the transaction changes the rows as its specification says: all outputs stored and the row succeeded, or everything rolled back |
| `WorkerRuns.WorldReachable` | server/src/nativeWorkerAuthority.ts:99-241 | in every run of the authority's endpoints the staged chunks of each output tile its received bytes at 256 KiB steps with only the last short, totals stay within 8 files and 32 MiB, and every row expires no earlier than its job |
| `WorkerInvariants.ReassembleTiles` | server/src/nativeWorkerAuthority.ts:206-229 | chunks that tile an output reassemble to its bytes, each chunk at its own offset |
| `WorkerInvariants.ActiveChangesNothing` | server/src/nativeWorkerAuthority.ts:99-110 | opening a live claim changes no row |
| `WorkerProvenance.ResendChangesNothing` | server/src/nativeWorkerAuthority.ts:167-199 | resending an accepted chunk is accepted and changes nothing |
| `WorkerProvenance.AcceptedIsStored` | server/src/nativeWorkerAuthority.ts:167-199 | an accepted chunk is in the row it was sent to |
| `WorkerProvenance.ChunksWereSent` | server/src/nativeWorkerAuthority.ts:167-199 | every staged chunk was accepted in a call under the row's own token and index |
| `WorkerProvenance.PublishedUnderOwnToken` | server/src/nativeWorkerAuthority.ts:206-229 | published outputs consist only of chunks staged under the completing token |
| `WorkerSafety.Refines` | server/src/nativeWorkerAuthority.ts:99-241 | each endpoint is a sequence of job transactions: runs of the authority are runs of the queue |
| `WorkerSafety.CompletesOnce` | server/src/nativeWorkerAuthority.ts:206-229 | no job is completed twice through the authority |
| `WorkerSafety.CompletionPublishes` | server/src/nativeWorkerAuthority.ts:206-229 | a successful completion is one resolved claim followed by one publication of the reassembled outputs |
| `WorkerSafety.CleanupSparesLive` | server/src/nativeWorkerAuthority.ts:111-116 | cleanup deletes no staged row of a live, uncancelled claim |
| `WorkerSafety.OthersKeepAttempt` | server/src/nativeWorkerAuthority.ts:99-241 | no call of anybody else touches the staged rows of a live claim |
| `WorkerOutcomes.EnterAnswers` | server/src/nativeWorkerAuthority.ts:82-110 | a call is let through exactly with a grant handed out to its worker and not run out, in scope, for a claim that still stands as granted; a refusal touches at most the row of a claim that is held and no longer stands |
| `WorkerOutcomes.ClaimAnswers` | server/src/nativeWorkerAuthority.ts:111-133 | unregistered kinds are refused; else exactly the staged rows without a live, uncancelled lease behind them go, and the queue gives a job with a grant of 600 s, or none; a job whose input cannot be served ends |
| `WorkerOutcomes.RenewAnswers` | server/src/nativeWorkerAuthority.ts:134-136 | a call that is let through extends the lease to the smaller of now + 20 and the deadline |
| `WorkerOutcomes.FirstPartAnswers` | server/src/nativeWorkerAuthority.ts:167-199 | the first part of an output opens its row, if the attempt has room for the whole of it and no output of that name, and else changes nothing |
| `WorkerOutcomes.NextPartAnswers` | server/src/nativeWorkerAuthority.ts:183-199 | a further part must describe the same output; it repeats a chunk that is there, and then changes nothing, or follows the last one and is appended |
| `WorkerOutcomes.CompleteAnswers` | server/src/nativeWorkerAuthority.ts:206-229 | a completion fails for the first output that is not finished, or a refused delivery, with nothing changed; else the finished outputs are published in the order of their indices and exactly the rows of the attempt go |
| `WorkerOutcomes.FailAnswers` | server/src/nativeWorkerAuthority.ts:234-241 | the job ends with the reported code, and exactly the rows of the attempt go |
| `WorkerUpload.PartAccepted` | server/src/nativeWorkerClient.ts:191-201 | a part cut by the client at its next offset is accepted with the offset behind it |
| `WorkerUpload.CompletionReturns` | server/src/nativeWorkerClient.ts:203-206 | completing after the whole upload publishes exactly the client's artifacts |
| `WorkerUploadRuns.UploadPublishes` | server/src/nativeWorkerClient.ts:191-206 | in every run of the authority in which a worker takes up a claim, sends the parts of its artifacts in order and completes, with any steps of any party in between that do not stage under its token: if the claim is live and uncancelled at the completion, the job's outputs are exactly the artifacts, in order and byte for byte |
| `WorkerUploadRuns.LiveSince` | server/src/nativeWorkerAuthority.ts:99-241 | a granted claim that is live at some step of a run was live at every earlier step since its grant |
| `WorkerTraffic.HarmlessKeeps` | server/src/nativeWorkerAuthority.ts:99-241 | through any steps of others after which the claim is live it stayed live and granted, and kept its staged rows |
| `WorkerTraffic.Serve` | server/src/nativeWorkerAuthority.ts:99-241 | any step of any party, carried out on the stored rows, is the step of the run |
| `WorkerClient.Publish` | server/src/nativeWorkerClient.ts:190-206 | the upload loop and the completion, with steps of others carried out before every call, end with the job's outputs being the artifacts, byte for byte, whenever the budget and name checks pass and the claim is live at each call |
| `WorkerClient.ParseResult` | server/src/nativeWorkerClient.ts:62-87 | accepts exactly 1 to 8 artifacts with distinct names, intact digests and at most 32 MiB in all |
| `WorkerInput.Download` | server/src/nativeWorkerClient.ts:178-187 | from an authority that serves the claimed artifact the download gives its bytes; whatever answers, a download that ends has the claimed digest |
| `WorkerAuthority.Authority.WithClaim` | server/src/nativeWorkerAuthority.ts:99-110 | the endpoint changes the rows as its specification says: grant check and claim resolution |
| `WorkerAuthority.Authority.StageOutput` | server/src/nativeWorkerAuthority.ts:167-199 | the endpoint changes the rows as its specification says: the rows of a new, repeated, conflicting or misplaced chunk |
| `WorkerAuthority.Authority.CompleteJob` | server/src/nativeWorkerAuthority.ts:206-229 | the endpoint changes the rows as its specification says: reassembly and publication in one transaction |
| `WorkerAuthority.Authority.FailClaim` | server/src/nativeWorkerAuthority.ts:234-241 | the endpoint changes the rows as its specification says: the job ends and its staged rows go |
| `WorkerAuthority.Authority.RenewClaim` | server/src/nativeWorkerAuthority.ts:134-136 | the endpoint changes the rows as its specification says: the lease of an open claim |
| `WorkerAuthority.Authority.CreateClaim` | server/src/nativeWorkerAuthority.ts:117-133 | the endpoint changes the rows as its specification says: cleanup, claim and grant |
| `Transactions.OnlyCommittedChainsSurvive` | server/src/db.ts:57-86 | for every tree of nested transactions exactly the writes and effects whose whole chain of transactions commits survive, in order |
| `Transactions.FailuresAreThoseThatThrow` | server/src/databaseEffects.ts:4-9 | the failures logged are those of the effects that throw, in order |
| `Transactions.Adapter.WithTransaction` | server/src/db.ts:57-80 | the savepoint machine ends with the store and the outcome of the recursive meaning; at the top level it has run exactly the surviving effects once, in order, failing ones logged; nested, it has handed them to its parent |
| `Transactions.Adapter.Perform` | server/src/db.ts:64-75 | a body run in its context has the recursive meaning, and leaves the stack of savepoints as it was |
| `Transactions.Adapter.RunCommitEffects` | server/src/databaseEffects.ts:4-9 | every effect runs in order even if an earlier one throws |
| `Transactions.Adapter.Register` | server/src/postgresDatabase.ts:160-165 | an effect is queued in an open transaction, refused in an ended one, and run at once outside |
| `Transactions.Connection.RollbackTo` | server/src/db.ts:74 | the store of the most recent savepoint of the name comes back, and those above it are dropped |
| `DatabaseMutex.FirstInFirstServed` | server/src/db.ts:20-28 | at most one caller works, callers work in the order they came, and the queue never blocks itself |
| `DatabaseMutex.EveryCallIsServed` | server/src/db.ts:20-28 | in every run each call that came has a turn: it waits until it has entered, works until it has left, and is done from then on |
| `DatabaseMutex.Mutex.Line` | server/src/db.ts:22-25 | a caller waits behind the previous tail and becomes the tail |
| `CircuitRuns.Reachable` | server/src/runtimeResilience.ts:11-62 | in every run of acquire, complete, lost requests, reset and eviction: closed iff the failures are below the threshold, the circuit of an outstanding permit is present and not of an older generation, a permit of the current generation is a probe iff openUntil > 0, and at most one such probe is out |
| `CircuitRuns.SweepSparesFlights` | server/src/outboundCircuitStore.ts:7-12 | eviction never takes the circuit of an outstanding permit, since permits are out for less than 310 s and entries live an hour |
| `CircuitSafety.MatchesIffNotSuperseded` | server/src/runtimeResilience.ts:43-62 | while a permit is out generations only grow, by one for each probe, opening, probe success or reset, and the permit matches iff none of these happened since |
| `CircuitSafety.StaleResultIgnored` | server/src/runtimeResilience.ts:44-45 | a result of an earlier generation changes no circuit |
| `CircuitSafety.ResultIsRecorded` | server/src/runtimeResilience.ts:13-15 | a result is never refused for want of room |
| `CircuitSafety.FailuresAreCounted` | server/src/runtimeResilience.ts:46-56 | `failures` is the number of current-generation failures since the last success, reset or eviction |
| `CircuitSafety.OneProbeIffCooldownOutlastsRequests` | server/src/outbound.ts:16-18 | at most one probe per provider is in flight in every run iff the cooldown is longer than a permit may be out |
| `CircuitSafety.ShortCooldownAdmitsTwo` | server/src/runtimeResilience.ts:60-62 | otherwise a reset during a probe, then as many failures as the threshold, admits a second probe: the run is constructed |
| `CircuitSafety.CooldownSeparatesProbes` | server/src/runtimeResilience.ts:32-58 | with a longer cooldown every run keeps at most one probe per provider |
| `CircuitSafety.OneProbeWithoutReset` | server/src/runtimeResilience.ts:36-39 | without resets at most one probe is out, whatever the cooldown |
| `CircuitSafety.AdmittedAfterLease` | server/src/runtimeResilience.ts:36 | no circuit blocks for longer than the probe lease of 310 s after the last step |
| `CircuitOutcomes.ResultOutcome` | server/src/runtimeResilience.ts:43-58 | the numbers of the circuit after a result of its generation: success clears, failure counts and opens at the threshold or for a probe, cancellation only ends the lease of a probe |
| `CircuitOutcomes.AcquireOutcome` | server/src/runtimeResilience.ts:32-42 | a circuit lets a request through iff neither its cooldown nor a probe lease lasts, and otherwise says how long the longer of them does |
| `CircuitOutcomes.AfterProbe` | server/src/runtimeResilience.ts:32-58 | after a probe the next acquisition gets a normal permit if it succeeded, is blocked for exactly the cooldown if it failed, and probes at once if it was cancelled |
| `CircuitOutcomes.AfterLastFailure` | server/src/runtimeResilience.ts:52-56 | the failure that reaches the threshold shuts the circuit for exactly the cooldown |
| `CircuitOutcomes.AfterReset` | server/src/runtimeResilience.ts:60-62 | after a reset the next acquisition gets a normal permit, of a new generation |
| `CircuitOutcomes.OtherKeysStay` | server/src/runtimeResilience.ts:12-19 | a step on one key leaves the circuits of all others as they were, but for eviction |
| `CircuitOutcomes.SweptExactly` | server/src/runtimeResilience.ts:13 | exactly the entries idle for an hour go, unless a cooldown or a probe lease lasts |
| `CircuitOutcomes.RefusalChangesNothing` | server/src/runtimeResilience.ts:12-17 | a refused acquisition leaves every circuit as it was, but that the store in memory has evicted |
| `CircuitBreaker.Breaker.AcquirePermit` | server/src/runtimeResilience.ts:32-42 | refuses for room or while open or probing, else gives a permit of the current generation, a probe in a new one if half open |
| `CircuitBreaker.Breaker.CompletePermit` | server/src/runtimeResilience.ts:43-58 | changes the circuit only for a matching generation, by the verdict |
| `CircuitBreaker.Breaker.ResetCircuit` | server/src/runtimeResilience.ts:60-62 | closes the circuit in a new generation |
| `CircuitBreaker.Breaker.Sweep` | server/src/runtimeResilience.ts:13 | exactly the idle, closed entries past their lifetime go |
| `Outbound.Attempts` | server/src/outbound.ts:133-158 | calls stay within the bound; each but the last asked for another, and the last ended it |
| `Outbound.Request` | server/src/outbound.ts:119-167 | a refused permit makes no call; otherwise, whatever other requests and resets do to the shared circuits meanwhile, the permit is completed exactly once with the verdict of how the attempts ended, and a store without room for the result fails the request |
| `Outbound.ResultStands` | server/src/outbound.ts:159-166 | in every run the store has room for the result, so a request let through returns or throws as its attempts ended |
| `Outbound.PlayedOneWay` | server/src/outbound.ts:133-158 | the number of attempts and the ending are determined by the answers |
| `OutboundOutcomes.VerdictMeans` | server/src/outbound.ts:131-163 | judged by the last attempt alone: a complete answer without a transient status is a success, a caller who gives up is a cancellation, and no connection, a redirect, an unreadable body, a transient status or the deadline is a failure |
| `OutboundOutcomes.AttemptsMean` | server/src/outbound.ts:133-158 | every attempt but the last failed to connect or brought a transient status whose wait fits, and the last one did not or was the last allowed |
| `OutboundOutcomes.RequestCounts` | server/src/outbound.ts:159-166 | a request of the current generation adds one to the failures of its provider, clears them, or leaves them, by what happened in its last attempt |
| `OutboundOutcomes.FailuresAddUp` | server/src/outbound.ts:119-167 | requests that fail one after another on a closed circuit are all let through, up to the threshold, and all counted |
| `OutboundOutcomes.DeadProviderIsShutOff` | server/src/outbound.ts:119-167 | as many requests as the threshold that fail in a row make every acquisition refused for the cooldown after the last |
| `Capacity.ReservationIsRoom` | server/src/workspaces.ts:242-245 | giving up a live reservation always makes room for an artifact of up to the reserved size |
| `Capacity.AdmitFits` | server/src/providerBudget.ts:100-111 | an admission keeps stored artifacts and live reservations within 128 and 256 MiB for every project |
| `Capacity.PermitOutlivesDeadline` | server/src/providerBudget.ts:118-119 | a permit outlives the provider's deadline by 30 to 31 seconds |
| `Capacity.ReleaseGivesBack` | server/src/providerBudget.ts:122-124 | a release gives back exactly what a live permit reserved |
| `Capacity.AdmitBalanced` | server/src/providerBudget.ts:112-115 | per-user usage sums to the installation's row for every kind and day, pruning included |
| `Capacity.AdmitWithinBudget` | server/src/providerBudget.ts:79-99 | no admission passes a daily budget or a concurrency limit |
| `CapacityRuns.UsageCounts` | server/src/providerBudget.ts:76-115 | in every run the row of a user, kind and day within the last 32 days equals the number of that user's admissions of that kind on that day and the sum of their tokens; the row of the installation those of all users |
| `CapacityRuns.NeverOverBudget` | server/src/providerBudget.ts:87-99 | no run admits more requests or tokens of a user, or of all users, in one day and kind than the limit |
| `CapacityRuns.PermitsAreOut` | server/src/providerBudget.ts:116-124 | in every run the unexpired permits are exactly those given and not given back |
| `CapacityRuns.AdmitAnswers` | server/src/providerBudget.ts:62-120 | in every run an admission is answered by what runs, what the run has admitted that day and what the project holds, the first obstacle first; refused, it leaves the tables as they were |
| `CapacityRuns.CreateAnswers` | server/src/workspaces.ts:233-258 | an artifact is stored exactly when its size, access and the project's room allow it, and else is refused for the first reason |
| `CapacityRuns.RemoveAnswers` | server/src/workspaces.ts:296-312 | an artifact goes exactly when it is the project's, with access, and nothing refers to it |
| `CapacityRuns.ArtifactTakesRoom` | server/src/workspaces.ts:242-245 | a stored artifact takes one place and its size in its own project only |
| `CapacityRuns.PermitTakesRoom` | server/src/providerBudget.ts:53-62 | a permit takes what it reserves in its own project while it has not run out |
| `CapacityLedger.Ledger.AdmitRequest` | server/src/providerBudget.ts:74-120 | the admission's checks and charges, or the tables untouched |
| `CapacityLedger.Ledger.CreateArtifact` | server/src/workspaces.ts:233-258 | stores an artifact iff size, access and shared capacity allow it |
| `CapacityLedger.Ledger.ReservedCapacity` | server/src/providerBudget.ts:53-62 | sums the unexpired reservations of a project |
| `CapacityLedger.Ledger.DeleteArtifact` | server/src/workspaces.ts:296-312 | removes an artifact that nothing refers to |
| `RenderSafety.Reachable` | server/src/renderJobs.ts:202-531 | in every run of renders, other requests, uploads, deletions, crashes and recovery: capacity, budgets and balances hold, a job has an output iff it succeeded, and its images are stored |
| `RenderSafety.LiveRenderStores` | server/src/renderJobs.ts:229-241 | a render that ends while its permit is live always stores its image and gives the permit up, whatever else the project saw |
| `RenderSafety.FinalForever` | server/src/renderJobs.ts:202-261 | succeeded, failed, cancelled and unconfigured jobs never change again |
| `RenderSafety.FinalStep` | server/src/renderJobs.ts:231-240 | a job succeeds only by the commit of its own uncancelled worker, which stores its image in the same step |
| `RenderSafety.CancelWins` | server/src/renderJobs.ts:461-483 | a cancelled job never gets an output |
| `RenderSafety.ReconcileSparesLive` | server/src/renderJobs.ts:516-531 | crash recovery never fails a job whose worker holds a live permit |
| `RenderOutcomes.SparedRenderSucceeds` | server/src/renderJobs.ts:202-261 | in every run a render that was accepted, and that nobody cancels, aborts or crashes, whose submitter keeps access and whose provider answers, is on its way with its next step enabled until its image is stored and shown, whatever everybody else does, for as long as its permit lasts |
| `RenderOutcomes.SubmitAnswers` | server/src/renderJobs.ts:317-381 | the first fault refuses a submission and undoes its admission; without one there is a new job on its source, queued or unconfigured |
| `RenderOutcomes.RetryAnswers` | server/src/renderJobs.ts:405-457 | a retry needs a finished job of the project whose source is still there, and becomes a new job on it |
| `RenderOutcomes.CommitAnswers` | server/src/renderJobs.ts:229-241 | the image of a running job that is still wanted is stored in place of its reservation, or nothing changes |
| `RenderOutcomes.CancelAnswers` | server/src/renderJobs.ts:461-483 | exactly a queued or running job of the project is cancelled, and nothing else changes |
| `RenderOutcomes.FailAnswers` | server/src/renderJobs.ts:243-256 | a queued or running job ends failed, or cancelled if aborted; another stays |
| `RenderOutcomes.ReconcileAnswers` | server/src/renderJobs.ts:516-527 | recovery fails exactly the jobs pending for longer than a request may take and 120 s, in projects without a live render reservation |
| `RenderDesk.Desk.SubmitJob` | server/src/renderJobs.ts:317-381 | changes the tables as its specification says: admission, source image and job in one transaction |
| `RenderDesk.Desk.RetryJob` | server/src/renderJobs.ts:405-457 | changes the tables as its specification says: a new job on the source of a finished one |
| `RenderDesk.Desk.CommitRender` | server/src/renderJobs.ts:229-241 | changes the tables as its specification says: permit released and artifact stored together, or neither |
| `RenderDesk.Desk.CancelRender` | server/src/renderJobs.ts:461-483 | changes the tables as its specification says: only active jobs are cancelled |
| `RenderDesk.Desk.FailRender` | server/src/renderJobs.ts:243-256 | changes the tables as its specification says: only active jobs fail |
| `RenderDesk.Desk.ReconcileInterrupted` | server/src/renderJobs.ts:516-527 | changes the tables as its specification says: exactly the idle jobs of projects without a live reservation fail |
| `WorkspaceRuns.Reachable` | server/src/workspaces.ts:140-209 | in every run a workspace can be read, its current revision is its newest snapshot, at most 32 snapshots are kept and all are listed, and payload and references are artifacts of its project and kind |
| `WorkspaceRuns.StateIsConsistent` | server/src/workspaces.ts:140-151 | the error "history is inconsistent" is unreachable |
| `WorkspaceRuns.RevisionsAreNeverReused` | server/src/workspaces.ts:162-198 | of two saves the later gets the larger revision and had the larger base, whatever was pruned between: of two saves with one base at most one succeeds |
| `WorkspaceRuns.SavedIsNewest` | server/src/workspaces.ts:187-196 | after a save the workspace reads as one revision newer, the new snapshot first in an otherwise unchanged history, and no other workspace reads differently |
| `WorkspaceRuns.SaveSucceedsIff` | server/src/workspaces.ts:165-186 | a save succeeds exactly when none of its checks fails |
| `WorkspaceRuns.SnapshotsAreImmutable` | server/src/workspaces.ts:199-209 | a snapshot is never rewritten, and pruning spares the current one and those native jobs were submitted from |
| `WorkspaceRuns.OnlyUnusedArtifactsGo` | server/src/workspaces.ts:296-312 | an artifact disappears only by a deletion while no snapshot, native job or render job uses it |
| `WorkspaceOutcomes.SaveAnswers` | server/src/workspaces.ts:162-198 | in every run a save is refused for the first reason against it and changes nothing, or adds exactly the next revision with its references and makes it current |
| `WorkspaceOutcomes.PruneAnswers` | server/src/workspaces.ts:199-209 | in every run pruning takes exactly the snapshots that are old, not current and not submitted from, with their references, and leaves a workspace that can be read |
| `WorkspaceOutcomes.DeleteAnswers` | server/src/workspaces.ts:296-312 | in every run a deletion succeeds exactly for an artifact of the project that no snapshot, native job or render job wants |
| `WorkspaceOutcomes.PinAnswers` | server/src/nativeJobs.ts:190-210 | in every run a native job is taken exactly if its input is in place and the revision it names, if any, declares that input |
| `Workspaces.DescendingLists` | server/src/workspaces.ts:141 | the history lists every revision once, newest first |
| `WorkspaceStore.Store.ReadState` | server/src/workspaces.ts:140-151 | changes the tables as its specification says: current revision and newest 32 snapshots, or the inconsistency |
| `WorkspaceStore.Store.SaveSnapshot` | server/src/workspaces.ts:162-198 | changes the tables as its specification says: compare-and-set, history and artifact checks, then snapshot, references and current revision, or nothing |
| `WorkspaceStore.Store.Prune` | server/src/workspaces.ts:199-209 | changes the tables as its specification says: exactly the older snapshots that are neither current nor pinned, with their references |
| `WorkspaceStore.Store.AddArtifact` | server/src/workspaces.ts:233-258 | changes the tables as its specification says: a new artifact if there is access and room |
| `WorkspaceStore.Store.RemoveArtifact` | server/src/workspaces.ts:296-312 | changes the tables as its specification says: refused while anything refers to the artifact |
| `WorkerLoopSafety.OneOfEach` | server/src/nativeWorkerLoop.ts:27-86 | in every interleaving at most one renewal is in flight, one heartbeat armed, one tick running and one poll armed, never a poll beside a tick |
| `WorkerLoopSafety.ClaimsWaitForRenewals` | server/src/nativeWorkerLoop.ts:61-71 | no tick begins or claims while a renewal of an earlier claim is pending or its heartbeat armed |
| `WorkerLoopSafety.StopIsFinal` | server/src/nativeWorkerLoop.ts:76-85 | once stop's promise has resolved no dependency call is running and none ever starts |
| `WorkerLoopSafety.NothingBeginsAfterStop` | server/src/nativeWorkerLoop.ts:76-82 | after stop is asked for no claim is taken up, no renewal begun and no timer armed |
| `WorkerLoopSafety.RunsUntilStopped` | server/src/nativeWorkerLoop.ts:49-56 | until stop a tick runs or is scheduled, and while a claim runs under an unbroken lease its heartbeat chain is alive |
| `WorkerLoopRefusals.RefusedForGood` | server/src/nativeWorkerLoop.ts:40-58 | in every run, once a renewal of a claim is refused or fails the claim is aborted for good: no renewal of it is begun and no heartbeat armed any more, so that only a timer already armed may still fire; if it was the first renewal the claim is never executed |
| `WorkerLoopRefusals.SessionsAreClaims` | server/src/nativeWorkerLoop.ts:31-37 | a claim found while the worker runs opens exactly one session, and nothing else does |
| `WorkerLoopOutcomes.ExecutedIsGranted` | server/src/nativeWorkerLoop.ts:40-60 | in every run a claim that is executed had a renewal of its own go through since it was found |
| `WorkerLoopOutcomes.RenewalsInOrder` | server/src/nativeWorkerLoop.ts:43-45 | in every run a renewal settles only after its dependency was called, and is over only when it has settled |
| `WorkerLoopOutcomes.NeverStuck` | server/src/nativeWorkerLoop.ts:27-86 | in every reachable state whatever is pending can go on: each tick, renewal, timer, continuation and stop, at once or when a renewal that can go on is over |
| `WorkerLoopOutcomes.StopComesToItsEnd` | server/src/nativeWorkerLoop.ts:76-85 | after stop is asked for only a bounded number of steps can follow, and where none can stop has resolved |
| `WorkerLoopOutcomes.StopOutcome` | server/src/nativeWorkerLoop.ts:76-82 | the first request to stop disarms both timers and aborts the claim being served; later ones change nothing |
| `WorkerLoopOutcomes.TickOutcome` | server/src/nativeWorkerLoop.ts:27-35 | a tick goes from stage to stage and initialises the worker once, or ends, with the next poll armed unless stopping |
| `WorkerLoopOutcomes.ClaimOutcome` | server/src/nativeWorkerLoop.ts:34-48 | a claim that is found opens a session whose first renewal its tick waits for |
| `WorkerLoopOutcomes.FirstOutcome` | server/src/nativeWorkerLoop.ts:57-60 | after the first renewal the claim is executed with a heartbeat armed, or closed if stopping or aborted |
| `WorkerLoopOutcomes.BeatOutcome` | server/src/nativeWorkerLoop.ts:51-55 | a heartbeat begins a renewal, shares the pending one, or begins none when stopping or aborted, and re-arms only when that is over |
| `WorkerLoopOutcomes.RenewalOutcome` | server/src/nativeWorkerLoop.ts:43-47 | only a refusal or failure aborts the session, and the end of a renewal lets the next begin |
| `WorkerLoopMachine.Worker.RenewClaim` | server/src/nativeWorkerLoop.ts:40-48 | changes the shared variables as the step machine says: a pending renewal is shared, none is begun when stopping or aborted |
| `WorkerLoopMachine.Worker.ArmHeartbeat` | server/src/nativeWorkerLoop.ts:49-56 | changes the shared variables as the step machine says: armed only for a live claim |
| `WorkerLoopMachine.Worker.Complete` | server/src/nativeWorkerLoop.ts:61-67 | changes the shared variables as the step machine says: no heartbeat stays armed, and a late renewal is awaited |
| `WorkerLoopMachine.Worker.OnClaimed` | server/src/nativeWorkerLoop.ts:34-48 | changes the shared variables as the step machine says: a new session with its first renewal, or the end of the tick |
| `WorkerLoopMachine.Worker.OnHeartbeat` | server/src/nativeWorkerLoop.ts:51-55 | changes the shared variables as the step machine says: renews, and re-arms only when that is over |
| `WorkerLoopMachine.Worker.AskToStop` | server/src/nativeWorkerLoop.ts:76-85 | changes the shared variables as the step machine says: timers cleared, the claim aborted, the running tick awaited |
| `SqlTokens.Tokenize` | server/src/postgresSql.ts:3-50 | the tokenizer ends on every input with the specified tokens, or the error of an unterminated comment, string or dollar quote; its tokens put together are the input |
| `SqlTokens.LexIsLossless` | server/src/postgresSql.ts:3-50 | token texts concatenate to the input, each of the shape of its kind |
| `SqlLiterals.LiteralIsOneToken` | server/src/postgresSql.ts:25-37 | quotes around characters and doubled quotes, and around escaped characters in a string behind a lone E, are one token up to the closing quote |
| `SqlLiterals.QuotesOpenLiterals` | server/src/postgresSql.ts:25-37 | where a quote opens the token is such a literal, and the error of an unterminated string comes exactly where none is written |
| `SqlLiterals.CommentIsOneToken` | server/src/postgresSql.ts:14-23 | a block comment with comments nested in it to any depth is one token up to the mark that closes it |
| `SqlLiterals.CommentsAreClosed` | server/src/postgresSql.ts:14-23 | the error of an unterminated comment comes exactly where nothing closes it |
| `SqlLiterals.DollarTextEnds` | server/src/postgresSql.ts:38-43 | dollar-quoted text reaches to the first repetition of its tag, and without one there is an error |
| `SqlLiterals.TagMeans` | server/src/postgresSql.ts:38 | a tag is a dollar, a name or nothing, and a dollar |
| `SqlLiterals.LineCommentEnds` | server/src/postgresSql.ts:9-13 | a line comment reaches to the end of its line |
| `SqlLiterals.RunsAreLongest` | server/src/postgresSql.ts:8-47 | words and white space are as long as they can be, and everything else is one character |
| `SqlSafety.ParametersInOrder` | server/src/postgresSql.ts:57-98 | in every accepted statement the count is the number of unprotected ? and stray markers, each unprotected ? becomes the number of those up to it, and white space and protected text are untouched |
| `SqlSafety.CountIsRightIff` | server/src/postgresSql.ts:62-87 | the count is the number of unprotected ? exactly when the word LOWER_PARAMETER stands nowhere but in columns of folded comparisons |
| `SqlSafety.NumberIsRightIff` | server/src/postgresSql.ts:62-87 | the k-th unprotected ? becomes $k exactly when no stray marker stands before it |
| `SqlSafety.DecimalDenotes` | server/src/postgresSql.ts:86 | parameters are numbered in decimal digits without leading zeros |
| `SqlSafety.MarkerIsMiscounted` | server/src/postgresSql.ts:84-87 | an instance: a statement that consists of the marker has no ? and is reported to have a parameter |
| `SqlMarkers.ReadyKept` | server/src/postgresSql.ts:62-80 | after the first loops the tokens that count as parameters are exactly the unprotected ? and the stray markers, judged on the tokens of the input |
| `SqlStatement.StatementKeepsProtectedText` | server/src/postgresSql.ts:99-103 | in the final statement every string, quoted identifier and dollar-quoted text stands verbatim and in order, and each ? as its number, and the reported count is that of the question marks and stray markers |
| `SqlStatement.ReturningOnlyAppends` | server/src/postgresDatabase.ts:106-111 | asking for an identity keeps the parameters and appends at most a RETURNING clause |
| `SqlOutcomes.StatementIs` | server/src/postgresSql.ts:57-104 | an accepted statement is what becomes of each of its tokens, put together and less the white space around it and one semicolon; then ON CONFLICT DO NOTHING exactly when INSERT, OR, IGNORE stand together among its significant tokens, none of them the column of a folded comparison; then, when asked for, RETURNING the identity of the table inserted into, unless one is written |
| `SqlOutcomes.FinalTexts` | server/src/postgresSql.ts:57-98 | white space and comments stand as they are, and the loops leave each significant token with the text told of it from the tokens of the statement |
| `SqlOutcomes.ConflictMeans` | server/src/postgresSql.ts:79-100 | the conflict clause is there exactly when INSERT OR IGNORE is, outside folded comparisons |
| `SqlRules.OrIgnoreOutcome` | server/src/postgresSql.ts:79-80 | OR and IGNORE of the first INSERT OR IGNORE leave no text |
| `SqlRules.SignificantTokens` | server/src/postgresSql.ts:60 | the rules look, in order, at everything but white space and comments |
| `SqlRules.TokenOutcome` | server/src/postgresSql.ts:81-98 | of the other tokens that are no parameters: LIMIT -1 in front of OFFSET leaves no text, a mixed-case alias is quoted, a word behind FROM, JOIN, INTO, UPDATE or REFERENCES, not before a dot and not behind DO UPDATE, becomes groundwork. and itself, and every other token stands verbatim |
| `SqlRules.QuestionOutcome` | server/src/postgresSql.ts:84-87 | a question mark outside folded comparisons becomes the next number |
| `SqlRules.ComparedOutcome` | server/src/postgresSql.ts:62-87 | the question mark of a folded comparison becomes lower() of the next number |
| `SqlRules.ComparisonOutcome` | server/src/postgresSql.ts:62-77 | the column of a folded comparison becomes lower() of it with its qualifiers inside, and COLLATE NOCASE leaves no text |
| `SqlRules.InsertOutcome` | server/src/postgresSql.ts:89-94 | the table rows are inserted into is the one named behind INTO |
| `SqlStatement.BodyCuts` | server/src/postgresSql.ts:99 | exactly the white space around the joined text goes, and then exactly one semicolon at its end |
| `SqlRewriter.Translate` | server/src/postgresSql.ts:57-104 | the loops over the shared token texts compute the specified statement |
| `SqlRewriter.Rewriter.FoldCase` | server/src/postgresSql.ts:62-77 | `name = ? COLLATE NOCASE` is folded with its qualifiers |
| `SqlRewriter.Rewriter.RewriteToken` | server/src/postgresSql.ts:81-98 | one round of the main loop: number, quote, name, limit |
| `ForeignKeys.SortTables` | server/src/databaseImport.ts:29-39 | succeeds iff the foreign keys, self-references aside, have no cycle and no missing parent, and then its result is a permutation of the tables, parents first |
| `ForeignKeys.Sorter.Visit` | server/src/databaseImport.ts:32-38 | a visit keeps the order sorted and adds the table, or a fault exists |
| `ForeignKeys.OrderExcludesFaults` | server/src/databaseImport.ts:31-39 | a full order with parents first leaves no cycle and no missing parent |
| `Base32.EncodeDecode` | server/src/totp.ts:5-37 | decoding the encoding gives the bytes back, and the encoding has ceil(8n/5) letters |
| `Base32.RoundTrip` | server/src/totp.ts:21-37 | also with padding, blanks, lower case and foreign characters scattered through the text |
| `Base32.Encode` | server/src/totp.ts:5-19 | the letters are the number of the bytes, filled up with zero bits, although the accumulator wraps at 32 bits |
| `Base32.Decode` | server/src/totp.ts:21-37 | the bytes are the number of the letters less the bits left over |
| `Base32.BitsIn` | server/src/totp.ts:10 | shifting in wraps none of at most twelve live bits away |
| `Base32.ValueInjective` | server/src/totp.ts:3-19 | a number has one spelling of a given length |
| `RequestScan.ScanAcceptsExactly` | scripts/native-executor-broker.py:93-119 | of any JSON text, however spaced and whatever its strings contain, the scan accepts exactly those without arrays, with objects nested at most twice and at most twelve members |
| `RequestScan.ScanRequest` | scripts/native-executor-broker.py:96-119 | the loop is the byte-by-byte scan, refusing at the first offence |
| `RequestScan.RunChars` | scripts/native-executor-broker.py:99-105 | inside a string nothing counts: brackets, colons and escaped quotes |
| `RequestScan.BracketsAreRefused` | scripts/native-executor-broker.py:108-109 | on any bytes, JSON or not, a bracket outside a string refuses the request |
| `Latency.Histogram.Record` | server/src/operationalRuntime.ts:44-48 | the row stays the bucket counts and maximum of all recorded durations |
| `Latency.Histogram.Add` | server/src/operationalRuntime.ts:69-75 | merging rows gives the counts and maximum of all their durations |
| `Latency.Histogram.Percentile` | server/src/operationalRuntime.ts:22-32 | for any rank the result is no smaller than the duration of that rank, no larger than the maximum, and that duration passes the bound before the bucket |
| `Latency.PercentileRoundsUp` | server/src/operationalRuntime.ts:28-29 | a percentile is the duration of its rank rounded up to the next bound, or the maximum if that is smaller or the rank lies in the last bucket |
| `Latency.RankInBucket` | server/src/operationalRuntime.ts:26-30 | the duration of a rank lies in the bucket where the running count reaches it |
| `Latency.RankExists` | server/src/operationalRuntime.ts:25 | every rank from 1 to the count is taken by some duration |
| `DesignComplexity.Validate` | server/src/designValidation.ts:11-26 | accepts exactly values of at most 100000 nodes and depth at most 64; seen and waiting nodes stay within the bound, and seen nodes and waiting subtrees make up the whole |
| `DesignComplexity.ShallowStep` | server/src/designValidation.ts:15-24 | replacing a node by its children keeps whether everything waiting is shallow enough |
| `FrameDecoder.AnyCutDelivers` | server/src/nativeWorkerExecutorClient.ts:83-100 | however an exact frame is cut into pieces its payload is delivered |
| `FrameDecoder.EarlyEndFails` | server/src/nativeWorkerExecutorClient.ts:81-82 | a stream that ends before its frame fails |
| `FrameDecoder.DeliversExactly` | server/src/nativeWorkerExecutorClient.ts:83-100 | a payload is delivered iff some piece ends where the declared frame ends, and is then the declared bytes: trailing bytes fail in the same piece and are ignored later |
| `FrameDecoder.BadLengthFails` | server/src/nativeWorkerExecutorClient.ts:90-91 | a declared length of nothing, or of more than 48 MiB, fails the exchange as soon as its four bytes are there |
| `FrameDecoder.PrefixIsRead` | server/src/nativeWorkerExecutorClient.ts:62-90 | the prefix reads back the length that was written big-endian |
| `FrameDecoder.Decoder.OnData` | server/src/nativeWorkerExecutorClient.ts:83-100 | after each piece the outcome is the verdict on what has arrived; a settled exchange never changes |
| `FrameDecoder.Decoder.Finish` | server/src/nativeWorkerExecutorClient.ts:66-70 | the first outcome settles the exchange |
| `FrameDecoder.Decoder.Receive` | server/src/nativeWorkerExecutorClient.ts:58-105 | a whole stream and its end give the specified outcome |

## Left out

- Cryptography and encodings: encryption of artifacts and chunks, HMAC grants, base64 and hexadecimal text, regular-expression checks of names; they are booleans, digests or plain bytes here.
- Row columns that no decision reads (summary texts, audit entries, `updated_at` of native jobs and workspaces, creators).
- Deletion of whole projects and users, and the cascades it starts.
- The SQL engines, connection pools, migrations, and the rows a database import copies.
- Failures of COMMIT, RELEASE or ROLLBACK themselves: to the body they are failures like any other; a PostgreSQL connection that is discarded after a failed rollback is not modelled.
- Statements and sibling transactions started concurrently inside one transaction body: bodies are sequential.
- Storage capacity as the native job queue sees it is the number of outputs that still fit; the shared quota itself is in `Capacity`.
- A key of the circuit store is any key: the syntax check of keys is left out, and so is the direct removal of an entry, which nothing calls.
- Outbound requests: destination checks, header and body handling are answers of one attempt; the jitter of waits is any number. A caller who aborts in the very moment another error arrives is not told apart from one who does not.
- CapacityLedger.Ledger.DeleteArtifact: whether anything refers to the artifact is a parameter there; `WorkspaceStore.Store.RemoveArtifact` decides it from the tables.
- WorkspaceStore.Store.AddArtifact: whether the size limits and the shared capacity leave room is a parameter there; `CapacityLedger.Ledger.CreateArtifact` decides it.
- Render jobs: prompts, presets and payload sealing; a provider's answer is an image size or a failure.
- Workspaces: the contents of artifacts; reading them back is left out.
- Worker loop: the range checks of its two intervals, and the `onError` callback, which cannot affect it. What `execute` does is any number of renewals before it returns.
- SQL rewriter: characters outside ASCII never spell a keyword, so upper-casing is that of ASCII; tables named like properties of every JavaScript object (`constructor`, `__proto__`) would find an identity column in the source and do not here. Which comments survive at the very end of a statement (trailing blanks and one semicolon of a final comment are trimmed with the statement) is stated by `SqlStatement.BodyCuts` only.
- Base32: upper-casing is that of ASCII; a few other letters whose upper case is an ASCII letter or two are ignored here.
- Latency: the rank is any from 1 to the count; computing it from a quantile is floating point. Durations are real numbers; sums and error counts are left out.
- Frame decoder: decoding UTF-8 and JSON is a predicate on the payload; writing the request, socket checks and timers are left out, a timeout or a cancellation is an end of the stream.
- The broker's other checks (exact keys, types, digests), process isolation, mail, Redis, routes, cookies and pages.
