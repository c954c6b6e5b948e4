# Verified model of the inference coordinator

This project models the single-writer inference coordinator of `agmina_runtime` in Dafny and proves what
its parts promise, over all inputs and over whole runs.

- **Coordinator and ledger.** `Contracts`, `Ledger` and `Coordinator` give jobs, sessions, receipts,
  attempts, the budget and every await-free stretch of the runtime as a transition on one `World`: the
  durable tables, the process memory while it is up, and four histories that no program variable holds
  (calls possibly still executing per pool, calls made per job, results served by a backend, and the
  *exposed* pools, whose unconfirmed call recovery may not see).
  `Invariant` states what always holds; `Steps`, `TaskSteps`, `TaskEnds`, `WorldSteps`, `RecoverSteps`
  and `SubmitSteps` prove that each transition keeps it; `Growth` and `GrowthSteps` prove what no
  transition takes back. `Runs` lets any interleaving happen, including a crash after any committed write
  (those of the failure handler too), a recovery cut short and an import of charges at any time between
  two processes, and `Guarantees` states the results for every reachable world; of them only the bound on
  executing calls speaks of pools not exposed, and `Guarantees.ExposureIs` says which steps expose one.
  `Gaps` gives the exact condition under which recovery, itself possibly cut short, still quarantines a
  pool, `Witnesses` gives runs in which it does not, and `DeadStates` says when a dead job is relabelled.
  `Ticks` and `Readiness` are `tick` as a whole.
- **What is answered.** `Answers`, `Placing`, `Service` and `Admission` say, on the fields of jobs, sessions,
  endpoints and caps alone, what each call and each stretch answers: when a submission is refused, queued or
  replaces another, when work is dispatched, sent, cached and reused, how the end of a call is written down,
  and when a consumer is given a result. `Evidence` adds what a source id stands for.
- **The objects.** `Journal.Store` and `Server.Runtime` are the store and the runtime as classes that
  update their fields in place, loops included; every method is proved to be the transition of the same
  name, so all results about runs are results about them.
- **Replay.** `Replay` is one iteration of the discrete-event loop as a function, `ReplayLoop` the nested
  loops as written, proved equal to it. `ReplayCore`, `ReplayStep`, `ReplayHistory`, `ReplayRun` and
  `ReplayCausal` lead to the scheduling theorems. `Order` and `Scheduling` hold ranking and placement.
- **Cache.** `Cache` is the bounded cache with its histories and the class `HistoricalCache`.
- **Freshness.** `Freshness` composes two uncertain clock mappings into one age guarantee.
- **Streams and images.** `Utf8`, `Stream` and `StreamAnswer` are the incremental chat reader;
  `Base64` and `Images` the native packet normaliser.

`Sums` adds up finite maps, `Basics` holds the result types.

Things the proofs brought out:

- The dead states are closed as a set, not one by one: the check before sending relabels a cancelled job
  expired or stale (`src/agmina_runtime/runtime.py:221-228`). `DeadStates.DeadStateChangesIff` says
  exactly which step does so, `Witnesses.CancelledEndsExpired` is a run in which it happens.
- The failure handler commits attempt, receipt and quarantine separately. After a crash between the first
  and the last of them the pool is safe only if it is quarantined already or holds another attempt still
  reserved (`Gaps.HandlerWindow`); otherwise a second call can be sent to a full pool
  (`Witnesses.HandlerCrashOverruns`).
- Settling, offline, an attempt that was in flight when the process died can have the same effect:
  `Gaps.ReconcileWindow` is the exact condition, `Witnesses.ImportOverruns` a run. An attempt whose outcome
  was already given up on exposes nothing (`Guarantees.ExposureIs`).
- A receipt that still says running is not enough: recovery rewrites it before it quarantines the pool, and
  may die between (`src/agmina_runtime/store.py:207-216`, `Gaps.SafeIsHeld`).
- The replacement scan does not count the new job's own dependencies: a job may supersede the very job it
  depends on and is then rejected by the next scan. `Admission.AdmittedDoomed` is the exact condition,
  `SelfReplacement.NewcomerIsDoomed` a run.
- A restart forgets a charge already settled exactly if the job's receipt still said running
  (`src/agmina_runtime/store.py:207-216`, `Answers.RestartAnswers`); it is then held at its quote again.
- A stream may carry more than one `[DONE]` or more than one stop and still be answered
  (`StreamAnswer.TwiceIsAnswered`); what is never accepted is content after a stop or any event other than
  `[DONE]` after `[DONE]` (`StreamAnswer.AnsweredIffGood`).

Assumptions: the configuration is valid (each endpoint names a pool and a model, ids are distinct, each
model has an endpoint) and, including whether network use is allowed, is the same after a restart;
fingerprints are injective, so a receipt holds the job itself and a cache key the fields it is made of;
one coordinator's clock does not run backwards; releasing a pool means that all unconfirmed work on it has
ended.

## Model

| member | source | states |
|---|---|---|
| Order.LessIsStrictTotal | src/agmina_runtime/scheduling.py:20-28 | rank tuples, strings included, are strictly and totally ordered |
| Order.SortSorts | src/agmina_runtime/replay.py:59 | sorting by key gives a nondecreasing permutation |
| Order.SortDistinct | src/agmina_runtime/replay.py:81-82 | sorting keeps ids distinct and loses and invents nothing |
| Scheduling.RankIsStatic | src/agmina_runtime/scheduling.py:20-28 | rank tuples sort by submission, or by deadline then submission, or by slack then priority then submission, ids last: the clock cancels out, and each is a strict total order on distinct ids |
| Scheduling.ChooseIsChoice | src/agmina_runtime/scheduling.py:31-49 | the choice is a feasible endpoint to which none feasible is preferred, by estimate then reserve or by reserve then estimate, ids last; there is none only if none is feasible |
| Scheduling.ChooseEndpoint | src/agmina_runtime/scheduling.py:31-49 | the loop and minimum as written return that choice |
| Placing.PlaceMeans | src/agmina_runtime/runtime.py:195-201 | a job goes to the preferred of the configured endpoints for its model, at an allowed site, on an open pool with a free slot, with capacity, and with the job still in time after the estimate; nowhere exactly if there is none |
| Placing.AllowedMeans | src/agmina_runtime/runtime.py:127 | the allowed endpoints are those configured for the model at a site the job allows |
| ReplayCore.CompleteKeeps | src/agmina_runtime/replay.py:63-67 | popping due finishes keeps queue, heap, rows and cursor consistent |
| ReplayCore.ReleaseKeeps | src/agmina_runtime/replay.py:68-74 | so does taking due arrivals |
| ReplayCore.ExpireKeeps | src/agmina_runtime/replay.py:75-78 | so does dropping expired requests |
| ReplayStep.DispatchKeeps | src/agmina_runtime/replay.py:83-88 | so does starting eligible requests, and starts happen at the present instant only |
| ReplayStep.DispatchFills | src/agmina_runtime/replay.py:83-88 | dispatch stops only for want of slots or of requests that fit their profile |
| ReplayStep.SettleSettles | src/agmina_runtime/replay.py:63-88 | after an iteration nothing due is left undone |
| ReplayStep.SettleWork | src/agmina_runtime/replay.py:62-96 | an iteration never adds work and removes some whenever an event is due |
| ReplayHistory.NobodyOvertaken | src/agmina_runtime/replay.py:81-88 | no request that is released, fits and ranks ahead is left waiting by a start |
| ReplayHistory.PrecedesIsAhead | src/agmina_runtime/replay.py:81-82 | the policies on the fields of requests: by release, by the end of the useful time, by slack then priority |
| ReplayRun.BreakAbandonsNothing | src/agmina_runtime/replay.py:94-95 | the loop breaks only when no arrival, queued or running request is left |
| ReplayRun.ReplayTerminates | src/agmina_runtime/replay.py:62-96 | the functional form of the loop takes at most 3n+1 iterations for n requests |
| ReplayRun.ArrivalsSorted | src/agmina_runtime/replay.py:59 | the arrival list is the trace's requests in strict order of release and id |
| ReplayRun.EveryRequestEnds | src/agmina_runtime/replay.py:38-97 | every request ends expired undispatched past its deadline or its frame's age bound, or dispatched between release and a start that fits its profile before both, completed exactly its service time later, and in time exactly if before both |
| ReplayRun.WorkConserving | src/agmina_runtime/replay.py:75-96 | at every instant at most `slots` requests run, and exactly `slots` run while a released request that would end before its deadline and age bound by profile waits |
| ReplayRun.ExpiredOnlyWhenFull | src/agmina_runtime/replay.py:75-96 | a request that expired undispatched met full slots at every instant from its release at which it would by profile have ended before its deadline and age bound |
| ReplayRun.RankOrderKept | src/agmina_runtime/replay.py:79-88 | of two dispatched requests the one that precedes by the policy on their own fields does not start later if it was released by the other's start |
| ReplayRun.FifoFollowsArrivals | src/agmina_runtime/replay.py:79-88 | FIFO starts follow arrival order with no proviso |
| ReplayRun.WithinProfileInTime | src/agmina_runtime/replay.py:63-88 | a request whose service time is within its profile never completes late |
| ReplayCausal.NonAnticipating | src/agmina_runtime/replay.py:58-96 | two traces that agree on all requests released by T, and differ in service time only for calls finishing after T in both replays, start the same requests at the same instants up to T |
| ReplayLoop.RunLoop | src/agmina_runtime/replay.py:60-96 | the nested loops over clock, cursor, queue, heap and rows end in the state the theorems speak of, after at most 3n+1 rounds for n requests |
| ReplayLoop.PopFinished | src/agmina_runtime/replay.py:63-67 | the heap-popping loop completes exactly the due runs |
| ReplayLoop.TakeArrivals | src/agmina_runtime/replay.py:68-74 | the arrival loop releases exactly the due requests |
| ReplayLoop.DropExpired | src/agmina_runtime/replay.py:75-78 | the expiry loop over a snapshot of the queue drops exactly the expired |
| ReplayLoop.StartEligible | src/agmina_runtime/replay.py:80-88 | the dispatch loop starts eligible requests in rank order while slots last |
| ReplayLoop.ThreeOutcomes | src/agmina_runtime/replay.py:97-103 | the rows of a workload are its three outcomes added up |
| ReplayLoop.Summarize | src/agmina_runtime/replay.py:98-103 | each group counts its workload's rows by state, and groups add up to all rows |
| ReplayLoop.ReplayTrace | src/agmina_runtime/replay.py:58-111 | the records are the final rows, one per request and each ended properly, and every group's outcomes sum to what it offered |
| Contracts.LeastFreshIsLeast | src/agmina_runtime/contracts.py:188-192 | the age bound is passed exactly when some current frame at its worst uncertainty is too old |
| Contracts.UsableMeans | src/agmina_runtime/contracts.py:188-208 | a job has no invalid reason exactly when clock, generation, snapshot, deadline, frame ages and policy buffer all allow it, and lapses as expired exactly if nothing but time has passed it by |
| Contracts.LatestMeans | src/agmina_runtime/contracts.py:188-196 | the latest instant is the first at which deadline, the age of some current frame at worst uncertainty, or the policy buffer is reached |
| Cache.EvictIsShortest | src/agmina_runtime/cache.py:44-46 | eviction drops the shortest prefix that makes room |
| Cache.HitIff | src/agmina_runtime/cache.py:25-34 | a lookup hits exactly if an item with the key is resident and younger than the time to live, and returns that item |
| Cache.PutStores | src/agmina_runtime/cache.py:36-48 | a result that fits is resident afterwards, most recently used |
| Cache.HistoryFits | src/agmina_runtime/cache.py:25-48 | after any operations keys are distinct and both limits hold |
| Cache.ResidentIsLastPut | src/agmina_runtime/cache.py:36-48 | whatever is resident is the last accepted put for its key |
| Cache.HitIsLastPut | src/agmina_runtime/cache.py:25-48 | a hit is the last accepted put for that key, younger than the time to live |
| Cache.ListIsByUse | src/agmina_runtime/cache.py:33-47 | the list is in order of last use, so the evicted prefix is the least recently used |
| Cache.HistoricalCache.constructor | src/agmina_runtime/cache.py:12-15 | the cache starts empty with a byte counter of zero |
| Cache.HistoricalCache.Lookup | src/agmina_runtime/cache.py:25-34 | `get` in place: result, recency and byte counter |
| Cache.HistoricalCache.Store | src/agmina_runtime/cache.py:36-48 | `put` in place: the eviction loop, and the byte counter equal to the sum of resident sizes |
| Ledger.SpendBounded | src/agmina_runtime/store.py:120-149 | known plus held spend is at most the cap plus the overruns of settled attempts above their quotes |
| Ledger.SolventKept | src/agmina_runtime/store.py:145-240 | the bound survives any change that makes no attempt dearer |
| Ledger.ReserveSolvent | src/agmina_runtime/store.py:131-143 | a granted reservation keeps the bound |
| Steps.ExpireKeeps | src/agmina_runtime/runtime.py:150-157 | lapsing a job keeps the invariant |
| Steps.PruneKeeps | src/agmina_runtime/runtime.py:164-170 | so does rejecting a job with a dead dependency |
| Steps.CancelKeeps | src/agmina_runtime/runtime.py:279-283 | so does cancelling |
| Steps.ShutOneKeeps | src/agmina_runtime/runtime.py:344-345 | so does cancelling the queue at shutdown |
| Steps.ConsumeKeeps | src/agmina_runtime/runtime.py:288-308 | so does consuming |
| TaskSteps.PlaceFits | src/agmina_runtime/runtime.py:196-201 | a chosen endpoint is configured for the model, on a free slot of a pool not quarantined |
| TaskSteps.DispatchKeeps | src/agmina_runtime/runtime.py:202-216 | reserving, marking running and counting the slot keep the invariant |
| TaskSteps.NoPrimaryKeyClash | src/agmina_runtime/runtime.py:202-204 | a queued job owns no attempt row, so its reservation cannot clash |
| TaskSteps.ServeKeeps | src/agmina_runtime/runtime.py:178-216 | one pass over a ready job keeps the invariant in every branch |
| TaskEnds.BeginKeeps | src/agmina_runtime/runtime.py:221-230 | the check before sending keeps the invariant, whether it sends or withdraws |
| TaskEnds.AbortKeeps | src/agmina_runtime/runtime.py:258-277 | a failed call keeps it, with its pool quarantined if its end is unknown |
| TaskEnds.CompleteKeeps | src/agmina_runtime/runtime.py:231-257 | a returned call keeps it, whatever became of the job meanwhile |
| TaskEnds.FinishKeeps | src/agmina_runtime/runtime.py:230-277 | any backend outcome keeps it |
| WorldSteps.OpenKeeps | src/agmina_runtime/runtime.py:44-56 | opening a session keeps the invariant |
| WorldSteps.AdvanceKeeps | src/agmina_runtime/runtime.py:58-68 | so does advancing one |
| WorldSteps.HeartbeatKeeps | src/agmina_runtime/runtime.py:70-81 | so does a heartbeat |
| WorldSteps.ExtendKeeps | src/agmina_runtime/store.py:231-240 | so does extending the budget |
| WorldSteps.CrashKeeps | src/agmina_runtime/store.py:206-229 | a crash leaves every unconfirmed call where recovery will find it |
| WorldSteps.ReleaseKeeps | src/agmina_runtime/store.py:199-204 | an operator release keeps the invariant |
| WorldSteps.ReconcileKeeps | src/agmina_runtime/store.py:154-190 | settling a batch keeps it if each named call's pool is covered, that is quarantined or exposed |
| WorldSteps.ImportKeeps | src/agmina_runtime/store.py:154-190 | so any accepted batch does, reserved attempts included, with their pools exposed |
| RecoverSteps.BootKeeps | src/agmina_runtime/runtime.py:23-42 | recovery and a fresh process re-establish the invariant |
| RecoverSteps.RecoverJobKeeps | src/agmina_runtime/store.py:207-216 | recovery of one job may stop after any of its writes |
| RecoverSteps.RecoverReservedKeeps | src/agmina_runtime/store.py:219-226 | so may recovery of one reserved attempt |
| RecoverSteps.CloseOneKeeps | src/agmina_runtime/store.py:227-229 | and the closing of sessions |
| RecoverSteps.ServeCrashKeeps | src/agmina_runtime/runtime.py:202-210 | a crash between reservation and running receipt is covered |
| RecoverSteps.HandlerCrashKeeps | src/agmina_runtime/runtime.py:264-274 | a crash after any write of the failure handler keeps the invariant, with the pool exposed |
| RecoverSteps.SettledOnlyKeeps | src/agmina_runtime/runtime.py:225-248 | so is one between settling an attempt and writing its receipt |
| SubmitSteps.QueuedListed | src/agmina_runtime/store.py:92-99 | the queued list names each queued job once |
| SubmitSteps.ScanSelects | src/agmina_runtime/runtime.py:112-122 | the scan selects exactly the older jobs of the slot on which no pending job depends, and finds a newer one exactly if some job of the slot is as recent |
| SubmitSteps.SupersedeKeeps | src/agmina_runtime/runtime.py:135-137 | each replacement keeps the invariant and shortens the queue by one |
| SubmitSteps.JudgedFits | src/agmina_runtime/runtime.py:99-131 | a job is queued only within capacity, in a live epoch, with an allowed endpoint and a free slot |
| SubmitSteps.SubmitCrashKeeps | src/agmina_runtime/runtime.py:134-137 | a crash part way through the replacements is covered |
| SubmitSteps.SubmitKeeps | src/agmina_runtime/runtime.py:83-142 | any submission keeps the invariant |
| Growth.GrowsOn | src/agmina_runtime/contracts.py:84-95 | moving forward composes: states, results, epochs, attempts, calls and caps |
| GrowthSteps.SubmitGrows | src/agmina_runtime/runtime.py:83-142 | a submission takes nothing on record back |
| GrowthSteps.ServeGrows | src/agmina_runtime/runtime.py:178-216 | nor does a service; a new hit repeats a served result and has no attempt |
| GrowthSteps.FinishGrows | src/agmina_runtime/runtime.py:230-277 | nor does the end of a call |
| GrowthSteps.ConsumeGrows | src/agmina_runtime/runtime.py:288-308 | nor does a claim, which freezes the receipt |
| GrowthSteps.HandlerCrashGrows | src/agmina_runtime/runtime.py:264-274 | nor does a crash inside the failure handler |
| GrowthSteps.ImportGrows | src/agmina_runtime/store.py:154-190 | nor does an import of charges |
| Growth.BootGrows | src/agmina_runtime/store.py:206-229 | nor does recovery |
| Runs.StepKeeps | src/agmina_runtime/runtime.py:44-347 | every step, fatal and offline ones included, keeps the invariant and takes nothing back |
| Runs.RunKeeps | src/agmina_runtime/runtime.py:44-347 | so does every run |
| Runs.ReachableInv | src/agmina_runtime/store.py:27-53 | every run of a fresh database satisfies the invariant |
| Guarantees.SlotsAreSafe | src/agmina_runtime/runtime.py:159-277 | on every run, calls possibly executing on a pool that is not exposed never exceed its slots, and an unconfirmed call keeps such a pool quarantined until released |
| Guarantees.CountersAreExact | src/agmina_runtime/runtime.py:209-277 | on every run and every pool the counter equals what is in flight, within the slots |
| Guarantees.ExposureIs | src/agmina_runtime/runtime.py:258-274 | a pool becomes exposed exactly by a crash between the first and the last write of the failure handler, or by importing a charge for an attempt still reserved, while not quarantined; it stays so until released |
| Guarantees.CarefulRunsAreSafe | src/agmina_runtime/runtime.py:159-277 | on every run of a fresh database in which none of those steps happens for a pool, calls possibly executing on it never exceed its slots |
| Guarantees.OneCallPerJob | src/agmina_runtime/runtime.py:88-94 | each job is sent at most once over its whole history, and a queued job has no attempt and no call |
| Guarantees.JobsMoveForward | src/agmina_runtime/store.py:206-229 | no job re-enters the queue, no dead job revives, a stored result never changes |
| Guarantees.SpendIsBounded | src/agmina_runtime/store.py:120-190 | on every run, whatever is reconciled when, attempts and spend stay within the caps, up to overruns of settled quotes |
| Guarantees.LostForever | src/agmina_runtime/runtime.py:288-294 | once a session has left a job's epoch, or the job is dead, no later consume succeeds |
| Guarantees.RestartLoses | src/agmina_runtime/store.py:227-229 | a restart loses every job on record |
| Guarantees.AdvanceLoses | src/agmina_runtime/runtime.py:58-68 | advancing a session loses the jobs of its earlier epochs |
| Guarantees.EpochsAreFresh | src/agmina_runtime/runtime.py:44-56 | epochs never fall and an opened session never reuses one |
| Guarantees.OpenAnswers | src/agmina_runtime/runtime.py:44-56 | a session is opened exactly if it is not active, one epoch on, and jobs made for it are abreast of it |
| Guarantees.AdvanceAnswers | src/agmina_runtime/runtime.py:58-68 | a session is advanced exactly by naming its present epoch under its own clock while it is open; it goes one epoch on, without a buffer |
| Guarantees.HeartbeatAnswers | src/agmina_runtime/runtime.py:70-81 | a heartbeat is heard exactly on those terms with a buffer within sixty seconds, which from then on bounds policy jobs and nothing else |
| Guarantees.EpochIsSwappedOnce | src/agmina_runtime/runtime.py:58-75 | whoever still names an epoch once advanced from is refused for ever, advance and heartbeat alike |
| Guarantees.FirstConsumerKeeps | src/agmina_runtime/runtime.py:297-308 | a result is claimed once, and every later success is the same receipt for the same consumer |
| Guarantees.HitsAreSourced | src/agmina_runtime/runtime.py:185-194 | a hit repeats the result and compute time of a job a backend served under the same contract for the same session, epoch, task, operation, payload, evidence and snapshot, by exactly one call, and has no attempt |
| Guarantees.HitsRepeatThePast | src/agmina_runtime/runtime.py:185-194 | the step that makes a hit finds its source already served by that one call |
| Guarantees.HitIsFree | src/agmina_runtime/runtime.py:185-194 | a hit changes no attempt, spend, call or slot |
| Guarantees.AncestorsAreSound | src/agmina_runtime/runtime.py:102-111 | along any dependency chain the ancestor was submitted earlier, shares the generation, has its evidence contained, and had produced its prediction before the descendant was dispatched or hit |
| Guarantees.AncestryIsSound | src/agmina_runtime/runtime.py:102-111 | so on every run the graph is acyclic and every transitive ancestor is sound |
| Guarantees.QueueIsInOrder | src/agmina_runtime/runtime.py:112-125 | at most `max_queue` jobs are queued, and snapshots strictly increase within a replacement slot |
| Guarantees.ReplacementIsSafe | src/agmina_runtime/runtime.py:112-137 | a submission changes only queued jobs of its slot that are older and on which nothing already pending depends |
| Ticks.TickIsRun | src/agmina_runtime/runtime.py:159-216 | a tick is the run of its expiries, prunings and services, with a reading of the clock before the ranking and before each service |
| Ticks.TickKeeps | src/agmina_runtime/runtime.py:159-216 | so a tick keeps the invariant and takes nothing back |
| Ticks.ServedInRankOrder | src/agmina_runtime/runtime.py:171-178 | ready jobs are served strictly by submission, by the end of their useful time, or by slack over the least estimate then priority, on their own fields |
| Ticks.QueuedAllowed | src/agmina_runtime/runtime.py:174-175 | a queued job has an allowed endpoint, so the minimum estimate exists |
| Ticks.MinEstimateIsLeast | src/agmina_runtime/runtime.py:175 | the estimate is the least of the allowed endpoints' |
| Ticks.EstimateIsLeast | src/agmina_runtime/runtime.py:174-176 | the estimate a queued job is ranked by is the least of the endpoints that may serve it, of which there is one |
| Ticks.TickLeavesNoneLapsed | src/agmina_runtime/runtime.py:150-184 | after a tick every queued or running job was valid at the reading of the clock the tick began with |
| Ticks.TickChecksEach | src/agmina_runtime/runtime.py:178-184 | a job that had its turn is left queued or running only if it was valid at the reading made for that turn |
| Readiness.TickIsGreedy | src/agmina_runtime/runtime.py:178-201 | a queued job whose dependencies had succeeded stays queued only if no endpoint can take it even at the end of the tick |
| Readiness.TurnsAreTheReady | src/agmina_runtime/runtime.py:163-177 | a tick gives a turn to exactly the queued jobs whose dependencies have all succeeded |
| Readiness.ScanPrunes | src/agmina_runtime/runtime.py:165-170 | a queued job stays queued through the scan exactly if no dependency of it is dead afterwards, chains of failures included, and is rejected otherwise |
| Answers.ExpireAnswers | src/agmina_runtime/runtime.py:150-157 | the expiry scan writes exactly the pending jobs no longer usable: expired if only time passed them by, stale otherwise |
| Answers.BeginAnswers | src/agmina_runtime/runtime.py:221-230 | a call is sent exactly if the job is usable at that instant, and withdrawn at no charge otherwise |
| Answers.FinishDecides | src/agmina_runtime/runtime.py:230-271 | at the end of a call a running job succeeds exactly if the answer is soundly stamped and the job usable, lapses exactly if sound but late, is unknown exactly if the call may still run, and fails otherwise; any other job keeps its state |
| Answers.FinishFiles | src/agmina_runtime/runtime.py:238-264 | a sound answer is filed in full with the cost it reported, whatever the state; otherwise no prediction, and a zero charge exactly if nothing was sent |
| Answers.FinishFrees | src/agmina_runtime/runtime.py:258-277 | the slot is given back in any case, the pool quarantined exactly if the end is unconfirmed |
| Answers.SuccessIsDelivered | src/agmina_runtime/runtime.py:230-308 | a sound answer to a running, usable job is given to whoever asks first |
| Answers.ConsumeAnswers | src/agmina_runtime/runtime.py:288-308 | a consumer is given a result exactly if job and session are known, the job is usable on its fields now, it has succeeded and no other consumer has claimed it |
| Answers.CancelAnswers | src/agmina_runtime/runtime.py:279-283 | cancelling ends exactly what was not yet claimed or dead |
| Answers.RestartAnswers | src/agmina_runtime/store.py:206-229 | what ran is unknown, what waited is cancelled, the rest is untouched, and a settled charge is forgotten exactly if the job still said running |
| Answers.ImportAnswers | src/agmina_runtime/store.py:154-190 | an accepted import records each entry's own charge on the attempt it names and nothing else; a refused one nothing |
| Answers.ExtendAnswers | src/agmina_runtime/store.py:231-240 | an extension is granted exactly on approval and if no cap shrinks |
| Answers.ReleaseAnswers | src/agmina_runtime/store.py:199-204 | a release opens that pool and no other, and counts as ended the calls on it that no task awaits |
| Service.TurnLapses | src/agmina_runtime/runtime.py:179-184 | a job no longer usable lapses at its turn |
| Service.TurnHits | src/agmina_runtime/runtime.py:185-194 | a usable job with a cached result for its work, young enough, is given it at no charge |
| Service.TurnWaits | src/agmina_runtime/runtime.py:195-201 | without one it waits if no endpoint can take it |
| Service.TurnIsPlaced | src/agmina_runtime/runtime.py:195-217 | otherwise it runs at the preferred endpoint with slot and reserve held exactly if both caps allow, and is rejected if one does not |
| Service.KeyMeans | src/agmina_runtime/cache.py:17-23 | two jobs share a cache key exactly if both may be cached and contract and work agree, whatever their ids, deadlines, priorities, sites and dependencies |
| Service.SuccessIsCached | src/agmina_runtime/runtime.py:250-251 | a success that may be cached and fits is resident under its own key |
| Service.SuccessIsReused | src/agmina_runtime/runtime.py:185-251 | the next job asking for the same work within the time to live is given the same result without a call |
| Admission.SubmitAccepts | src/agmina_runtime/runtime.py:83-111 | a submission is answered exactly if it repeats a job on record or is valid, ours, registered, within capacity, of a known session, with its dependencies in line and its evidence in agreement; otherwise nothing changes |
| Admission.SubmitDecides | src/agmina_runtime/runtime.py:99-142 | a new job is queued exactly if usable now, newest of its slot, with room once the replaced are gone and an authorised endpoint; then exactly the older jobs of its slot on which nothing pending depends are superseded, and no other is touched |
| Admission.EvidenceMeans | src/agmina_runtime/store.py:101-113 | evidence is recorded exactly if it agrees with what is known under its source ids, and changes nothing known |
| Admission.AdmittedDoomed | src/agmina_runtime/runtime.py:112-137 | an admitted job has a dead dependency exactly if it had one before or its own submission replaced one |
| SelfReplacement.NewcomerIsDoomed | src/agmina_runtime/runtime.py:112-137 | a reachable world in which a submission superseded the job it depends on, and the next scan rejects it |
| Evidence.OneSourceOneBody | src/agmina_runtime/store.py:101-113 | on every run two jobs of a session that name a source id rest on the same evidence |
| Gaps.SafeIsHeld | src/agmina_runtime/store.py:206-229 | however many recoveries die on the way, the one that ends quarantines a pool exactly when it was quarantined or held a reserved attempt before them |
| Gaps.HandlerWindow | src/agmina_runtime/runtime.py:264-274 | after a crash inside the failure handler the pool is quarantined by the next recovery that ends, however many died before it, exactly when none or all of the handler's writes were made, or the pool was quarantined, or another attempt on it is reserved |
| Gaps.HandlerWindowUninterrupted | src/agmina_runtime/runtime.py:264-274 | the same for a next recovery that runs to its end, where a receipt that says running counts too |
| Gaps.ReconcileWindow | src/agmina_runtime/store.py:154-190 | after a reconciliation the pool is quarantined by the next recovery that ends, however many died before it, exactly when it was quarantined already or a reserved attempt on it was not named |
| Gaps.ReconcileWindowUninterrupted | src/agmina_runtime/store.py:154-190 | the same for a next recovery that runs to its end |
| Witnesses.HandlerCrashOverruns | src/agmina_runtime/runtime.py:264-274 | a reachable world with two calls executing on a pool of one slot, after a crash inside the failure handler |
| Witnesses.ImportOverruns | src/agmina_runtime/store.py:154-190 | another, after an import before the restart |
| Witnesses.CancelledEndsExpired | src/agmina_runtime/runtime.py:221-228 | a reachable world in which the check before sending turns a cancelled job into an expired one |
| DeadStates.DeadStateChangesIff | src/agmina_runtime/runtime.py:218-283 | on every run a step changes a dead job's state exactly when it is the check before sending that job's call and finds a reason for another state; dead it stays |
| Journal.PassesAreRecover | src/agmina_runtime/store.py:206-229 | the three passes of recovery are one transformation of the tables |
| Journal.Store.constructor | src/agmina_runtime/store.py:17-53 | a new database is empty under its caps |
| Journal.Store.PutSession | src/agmina_runtime/store.py:81-84 | a session is inserted or replaced |
| Journal.Store.ListJobs | src/agmina_runtime/store.py:92-99 | jobs in the given states, in submission order |
| Journal.Store.AddJob | src/agmina_runtime/store.py:101-113 | all observations and the row, or nothing if a source id is reused for other content |
| Journal.Store.SaveReceipt | src/agmina_runtime/store.py:115-118 | one receipt is replaced |
| Journal.Store.ReadBudget | src/agmina_runtime/store.py:120-129 | the totals are the sums over the attempts table |
| Journal.Store.Reserve | src/agmina_runtime/store.py:131-143 | granted within both caps, refused at either, clashing only on an existing row |
| Journal.Store.Settle | src/agmina_runtime/store.py:145-149 | one attempt gets its charge, or is given up on |
| Journal.Store.ReconcileMany | src/agmina_runtime/store.py:154-190 | all entries are applied or none, and all exactly when every one is valid |
| Journal.Store.Quarantine | src/agmina_runtime/store.py:192-194 | one pool is added |
| Journal.Store.ReleasePool | src/agmina_runtime/store.py:199-204 | one pool is removed, on evidence only |
| Journal.Store.ExtendBudget | src/agmina_runtime/store.py:231-240 | caps only grow, on approval only |
| Journal.Store.Recover | src/agmina_runtime/store.py:206-229 | the loops of recovery perform that transformation |
| Server.Runtime.constructor | src/agmina_runtime/runtime.py:17-42 | a new process recovers the journal and starts with empty memory |
| Server.Runtime.AdvanceClock | src/agmina_runtime/clocks.py:9-13 | the clock moves on between stretches and nothing else does |
| Server.Runtime.OpenSession | src/agmina_runtime/runtime.py:44-56 | result and new state of opening |
| Server.Runtime.AdvanceSession | src/agmina_runtime/runtime.py:58-68 | compare-and-swap, then the expiry scan |
| Server.Runtime.Heartbeat | src/agmina_runtime/runtime.py:70-81 | result and new state of a heartbeat |
| Server.Runtime.Submit | src/agmina_runtime/runtime.py:83-142 | every refusal in order, the idempotent replay, the decision and the writes |
| Server.Runtime.FindReplaced | src/agmina_runtime/runtime.py:112-122 | the replacement scan over the queue |
| Server.Runtime.DependedUpon | src/agmina_runtime/runtime.py:120-121 | whether a queued or running job depends on one |
| Server.Runtime.Expire | src/agmina_runtime/runtime.py:150-157 | the expiry scan over a snapshot of pending jobs |
| Server.Runtime.Tick | src/agmina_runtime/runtime.py:159-216 | lapse, scan, sort and serve in place, the clock read again before the ranking and before each service |
| Server.Runtime.ScanReady | src/agmina_runtime/runtime.py:163-177 | the dependency scan and the ready list |
| Server.Runtime.Serve | src/agmina_runtime/runtime.py:178-216 | one ready job: lapse, hit, nowhere to go, no money, or dispatch |
| Server.Runtime.Deploy | src/agmina_runtime/runtime.py:195-217 | placement, reservation, receipt and counters |
| Server.Runtime.Begin | src/agmina_runtime/runtime.py:218-230 | `_run` up to its first await |
| Server.Runtime.Finish | src/agmina_runtime/runtime.py:230-277 | `_run` from the backend's answer to its end |
| Server.Runtime.Succeed | src/agmina_runtime/runtime.py:234-257 | a returned prediction |
| Server.Runtime.Fail | src/agmina_runtime/runtime.py:258-274 | the failure handler |
| Server.Runtime.GiveBack | src/agmina_runtime/runtime.py:275-277 | the slot is given back and no counter goes below zero |
| Server.Runtime.Cancel | src/agmina_runtime/runtime.py:279-283 | result and new state of a cancellation |
| Server.Runtime.Consume | src/agmina_runtime/runtime.py:288-308 | result and new state of a claim |
| Server.Runtime.Close | src/agmina_runtime/runtime.py:340-345 | admission ends and the queue is cancelled |
| Server.CloseAnswers | src/agmina_runtime/runtime.py:340-345 | closing cancels exactly the queue; what is in flight keeps its task and slot, and nothing is admitted or served afterwards |
| Freshness.ManualClock.AdvanceTo | src/agmina_runtime/clocks.py:21-24 | the clock moves only forward |
| Freshness.MapBrackets | src/agmina_runtime/clocks.py:40-48 | a mapped time is within its returned error of the true one |
| Freshness.PhysicalStands | src/agmina_runtime/adapters/hosts.py:82-91 | an observation carries the mapped capture and the mapping's error as its uncertainty |
| Freshness.StreamObservations | src/agmina_runtime/adapters/hosts.py:38-48 | the evidence loop succeeds exactly when every image is known to the host and mappable, and maps each |
| Freshness.LatestLocalIsLeast | src/agmina_runtime/client.py:42-48 | the running minimum is the least of the local deadlines |
| Freshness.ValidateDelivery | src/agmina_runtime/client.py:24-56 | the fence accepts exactly a claimed, mappable, timely reply, and says which kind of refusal it is |
| Freshness.PassingIsTimely | src/agmina_runtime/client.py:40-56 | if the true offsets are within the declared errors, passing means the coordinator's deadline is ahead and every current frame is truly younger than the bound |
| Freshness.FailingMayBeLate | src/agmina_runtime/client.py:40-56 | what is turned away as too old is late under some offsets the mappings allow |
| Freshness.FenceIsExact | src/agmina_runtime/client.py:40-56 | the time test is exactly timeliness under all offsets the mappings allow |
| Utf8.DecodeAppend | src/agmina_runtime/backends.py:316-323 | decoding in two calls is decoding at once |
| Utf8.DecodeEncode | src/agmina_runtime/backends.py:316-323 | decoding a text's encoding gives the text (section 3 of RFC 3629) |
| Utf8.ValidIsEncoded | src/agmina_runtime/backends.py:316-327 | the bodies that decode with nothing held back are exactly the encodings of texts |
| Stream.DrainAppend | src/agmina_runtime/backends.py:323-326 | cutting lines before or after more text arrives comes to the same |
| Stream.BlankIsNoEvent | src/agmina_runtime/backends.py:327-329 | a blank remainder would be no event |
| Stream.LinesMean | src/agmina_runtime/backends.py:323-329 | a text is its raw lines joined by newlines, none holding one, and each line parsed is one of them without trailing carriage returns |
| Stream.StripMeans | src/agmina_runtime/backends.py:273-278 | a value is stripped of white space at both ends and of nothing else |
| Stream.DrainIsFold | src/agmina_runtime/backends.py:323-329 | the buffered form over a whole text is the fold over its lines |
| Stream.StreamChat | src/agmina_runtime/backends.py:314-332 | the loops over chunks and buffer compute the reader's reply |
| Stream.TakeLines | src/agmina_runtime/backends.py:324-326 | the inner loop parses every complete line in the buffer |
| Stream.ChunkingIsIrrelevant | src/agmina_runtime/backends.py:268-332 | for a valid UTF-8 body within the byte bound the answer or failure is that of the fold over the whole body's lines; any other body is never answered |
| Stream.SameBodySameReply | src/agmina_runtime/backends.py:268-332 | two ways of cutting one body give one reply |
| StreamAnswer.TwiceIsAnswered | src/agmina_runtime/backends.py:273-311 | a text with two stops and two [DONE] is answered |
| StreamAnswer.AnsweredIffGood | src/agmina_runtime/backends.py:273-332 | a text is answered exactly when its events are sound, stop, speak only before the stop and end in [DONE]; then with the deltas in order, the last usage and the first request id |
| Base64.DecodeEncode | src/agmina_runtime/adapters/native_policy.py:63-76 | decoding undoes encoding (section 4 of RFC 4648) |
| Images.FlattenIsLossless | src/agmina_runtime/adapters/native_policy.py:43-55 | the bytes are as many as the product of the shape, and the list is rebuilt from shape and bytes |
| Images.RebuildIsFlattened | src/agmina_runtime/adapters/native_policy.py:43-55 | every proper shape over as many bytes is the flattening of its rebuilt list |
| Images.AcceptsRectangles | src/agmina_runtime/adapters/native_policy.py:43-55 | the accepted lists are exactly the rectangular nestings of bytes |
| Images.NormaliseAccepts | src/agmina_runtime/adapters/native_policy.py:58-64 | a nested list is accepted exactly if it is a rectangle of bytes, three deep with three channels, within the byte bound |
| Images.NormaliseIsIdempotent | src/agmina_runtime/adapters/native_policy.py:58-79 | normalising keeps the pixels, gives an envelope, and leaves envelopes alone |
| Images.PacketIsIdempotent | src/agmina_runtime/adapters/native_policy.py:82-99 | an accepted packet is accepted again unchanged, with only its images rewritten and none of their pixels |

## Left out

- HTTP, asyncio, SQLite, file locks and the command line; each committed transaction is one atomic
  update, and the event log and `record_outcome` are not part of this model.
- The clock is read once in each call and task stretch other than `tick`, where it is read as often as the
  code does; it may advance between any two stretches.
- Waiting for calls at shutdown, `wait` and `serve_loop`: any order of steps is allowed instead, and a
  cancelled call ends with an unconfirmed outcome.
- KeyboardInterrupt and SystemExit inside a call: a crash instead.
- Guarantees.SlotsAreSafe: the bound is for pools not exposed; `Witnesses` shows that it fails for others.
- Journal.Store.Reserve: a clash on an existing row is a result here and an exception there; on a
  reachable world it does not occur.
- Journal.Store.constructor: opening an existing database and comparing its caps is left out; a new process
  over an existing journal is `Server.Runtime.constructor`.
- Server.Runtime.constructor: binding the ledger to one tenant and comparing stored caps are left out;
  the model keeps one tenant and the caps of the tables.
- The reason text of a quarantine, token counts, the provider request id of a receipt and bounds on
  integers and names.
- ReplayLoop.ReplayTrace: percentiles, provenance and the fixed descriptive fields are left out; the heap
  is its ascending list of finish times; the three modes are a datatype, so no unknown mode.
- Stream.StreamChat: JSON decoding is a function of the reader, the time of first content and the price
  computed from the usage object are left out; which failure an invalid or oversized body gets may depend
  on chunking and is not stated.
- Freshness.StreamObservations: seconds are integers of nanoseconds already; rounding of source times and
  the prompt body are left out.
- Images.PacketIsIdempotent: printing and reparsing JSON is the identity on the values it accepts; the
  result check and the transport are left out.
- Reconciliation files, configuration checks, telemetry, Triton and worker adapters, experiments.
