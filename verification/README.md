# Verified model of the WAF inspector

This project models the parts of the ModSecurity inspector where many goroutines, fallible steps
or rounding make the behaviour hard to see, and proves what they guarantee. `dafny verify
dfyconfig.toml` checks it.

- **Worker pool** (`queue_*.dfy`). The critical sections are functions; a class over a real array
  is proved to compute them, including the in-place filter; a step system with any number of
  submitters, workers, timers, a sweeper and a closer is built from the same functions, and the
  theorems hold in every state of every run. Close is shown to return, and a pool in drop mode to
  turn tasks away without waiting.
- **Kept transactions** (`sticky_*.dfy`, `lifecycle_*.dfy`, `engine_*.dfy`, `kept_transactions.dfy`,
  `handler_*.dfy`). The registry as a class, a reference map with eager expiry, the ownership
  protocol over every interleaving of handlers, the engine calls of each entry point on a
  deterministic but otherwise arbitrary engine, and the request and response phases of the handler
  as code on top of them. Each call of a phase names the path it took; every path is shown to be a
  run of the protocol with the same effect on the registry and the transaction.
- **Rollout** (`pack_*.dfy`, `rollout_*.dfy`). What a pack installs, what is fetched for it,
  staging, parking, promoting and restoring directories when any of these may fail, and the
  watcher with its retry timer.
- **Bodies, audit, policies, scores** (`body_loader.dfy`, `audit_sink.dfy`, `prior_ledger.dfy`,
  `policy_*.dfy`, `rule_filter.dfy`, `score_arithmetic.dfy`, `binary64.dfy`, `verdict_reply.dfy`).
  Score arithmetic assumes a few properties of the floating rounding; that rounding to nearest with
  a 53-bit significand has them is proved.

Clock readings, message contents, configuration, store contents and the failure of each fallible
operation are parameters or choices of events, so every theorem covers all of them.

## What the proofs brought to light

- A rejected tree whose removal fails part-way stays live. If that part builds, the next rejected
  rollout restores and serves it, although both rollouts reported an error
  (`RolloutSpec.LeftoverTakesOver`); a failed rollout is harmless exactly when the live tree is in
  sync with the served set (`RolloutSpec.SafeIffInSync`).
- The generated file names of a profile sort in list order exactly up to 100 files
  (`PackSpec.NamesSortInListOrder`).
- `Park` reads the clock before it takes the lock. Over any run in lock order, with any such older
  readings, all answers are those of a map with eager expiry iff no Park is a stale refusal: one
  whose unexpired entries fill the registry at the reading but no longer under the lock
  (`StickySpec.TimedRunIsEagerIff`; `StickySpec.StaleReadingDiffers` is a run with one). With
  readings under the lock the two never differ (`StickySpec.LazyRunIsEager`).
- The check that a deny leaves asks nowhere to go covers `on: deny` rows only. The asks sent with a
  denied request only write records iff neither an `on: rule` row that hits nor an `on: overload`
  row at the queue's fill asks for more (`PolicyFire.RequestDenyOnlyRecords`, with
  `RuleRowAsksOnDeny` and `OverloadRowAsksOnDeny`); a response or frame sends no overload asks, so
  there only the rule rows matter (`PolicyFire.DenyOnlyRecords`).
- A connection-wide control ask names the frame phase iff it names a phase at all
  (`PolicyRows.ConnAsksAndPhase`), and `ConnAskWithoutPhase` is an accepted row that names none.
- Rebuilding for a response replays the request without its body, so a rebuilt transaction sees
  what the kept one saw exactly when there was none (`HandlerPhases.RebuildSeesTheRequest`).
- Calibration in floats is exactly half-up rounding for anomaly scores below 2^53/300. Scaling is
  half-up except at exact ties, where it is that or one lower: 50 raised by 15 percent gives 57
  (`ScoreArithmetic.CalibrateIsExact`, `ScaleIsExact`, `ScaleAtTies`, `Binary64.BinaryTieRoundsDown`). A percentage that is a multiple of 25 is exact at
  ties as well (`Binary64.QuartersScaleExactly`).
- A required resume whose state is gone is answered with a deny (`cmd/modsec/response.go:47-67`),
  where `README.md:45-48` of the repository says `error`. The model follows the code.

## Model

| member | source | states |
|---|---|---|
| QueueSections.SweepPartitions | internal/queue/queue.go:197-222 | sweeping the queue splits it into kept and swept tasks with nothing lost or duplicated |
| QueueSections.SweepOrder | internal/queue/queue.go:197-222 | both parts of a swept queue are in queue order |
| QueueSections.SweepMembers | internal/queue/queue.go:185-217 | a task is swept iff what is left of its deadline is below the minimum budget |
| QueueSections.GateDecides | internal/queue/queue.go:96-165 | how the locked part of Submit decides, from the task's own numbers: closed, room, turned away iff full in drop mode, no time, a sweep, or a wait; and what each leaves of the queue |
| QueueSections.WaitDecides | internal/queue/queue.go:130-165 | how a pass of the waiting loop and the code behind it decide, and what each leaves of the queue |
| QueueSections.PopDecides | internal/queue/queue.go:282-306 | pop takes the first task in time, past the late ones, iff there is one; it stops only on a closed pool and sleeps only on an empty queue; nothing is lost |
| QueuePool.Pool.Filter | internal/queue/queue.go:204-217 | the in-place filter leaves the kept tasks in the array and returns the swept ones, in order |
| QueuePool.Pool.TakeExpiredLocked | internal/queue/queue.go:197-222 | the queue becomes the kept tasks; it broadcasts iff something was swept |
| QueuePool.Pool.EnqueueLocked | internal/queue/queue.go:167-171 | a task is appended at the end, whether or not the slice has to be reallocated, counted and signalled |
| QueuePool.Pool.FillLocked | internal/queue/queue.go:173-179 | the fill is 0..100, 100 iff the queue is full, and reaches a threshold iff the queue holds that share of its depth |
| QueuePool.Pool.WaitPass | internal/queue/queue.go:130-165 | one pass of the waiting loop and the code behind it is the wait section of the step system: closed iff the pool is, entered iff there is room, given up iff the timer has fired on a full queue |
| QueuePool.Pool.SubmitLocked | internal/queue/queue.go:88-120 | the locked part of Submit is the gate section of the step system: turned away iff the pool is open, in drop mode and full; entered iff it is open with room; out of time iff it waits with less than the minimum budget left; and the task records the fill of the queue it found |
| QueuePool.Pool.CloseLocked | internal/queue/queue.go:235-242 | the locked part of Close is the close section of the step system: it marks the pool closed, leaves the queue and broadcasts |
| QueuePool.Pool.PopPass | internal/queue/queue.go:282-306 | one pass of pop takes the oldest kept task, exits only closed and empty, or sleeps only with nothing swept |
| QueueSteps.InvStep | internal/queue/queue.go:88-336 | every step of every goroutine keeps the invariants of the pool |
| QueueSteps.InvRun | internal/queue/queue.go:56-336 | the invariants hold in every state of every run |
| QueueTheorems.NoLostWakeup | internal/queue/queue.go:122-171 | a sleeping submitter means a full, open queue and a pending timer; a non-empty queue has a worker awake, and while one sleeps at least as many are on their way as there are tasks; a closed pool has nobody asleep |
| QueueTheorems.SignalReachesAWorker | internal/queue/queue.go:167-171 | the Signal of an enqueue, if anyone sleeps, wakes a worker and never a submitter |
| QueueTheorems.NeverStuck | internal/queue/queue.go:122-306 | every unfinished goroutine but a worker asleep in an open pool has an enabled step |
| QueueTheorems.ExactlyOnce | internal/queue/queue.go:88-165 | every submitted task is in exactly one place, and was given to the handler once iff it is done |
| QueueTheorems.HandledOnce | internal/queue/queue.go:260-336 | once handled, a task is never handled again, and the record of handled tasks only grows |
| QueueTheorems.Accounting | internal/queue/queue.go:308-336 | submitted = evaluated + expired + shed + in flight, and accepted = queued + held by a sweep or worker + finished after acceptance |
| QueueTheorems.NoEntryAfterClose | internal/queue/queue.go:122-171 | nothing enters the queue once Close has locked the pool |
| QueueTheorems.CloseDrains | internal/queue/queue.go:235-242 | when Close has returned the queue is empty and every accepted task is handled, unless a Submit still running holds it as dead |
| QueueClosing.WorkGoesDown | internal/queue/queue.go:235-306 | in a closed pool a measure of the queue, the dead lists and where workers and sweeper stand goes down with every step of progress of theirs, and no step of anyone raises it |
| QueueClosing.CloseReturns | internal/queue/queue.go:235-242 | from the closing on, a worker or the sweeper can make progress until all are gone, which takes at most that many steps of progress whatever else happens, and then Close can return |
| QueueTheorems.TakenInOrder | internal/queue/queue.go:282-306 | the tasks taken by workers followed by the queue are a subsequence of acceptance order |
| QueueTheorems.DeadlinesHonoured | internal/queue/queue.go:308-336 | a swept task could not meet the minimum budget at any later time; unshed calls have at least the minimum budget; the other answers are given only for their reasons |
| QueueModes.DropNeverWaits | internal/queue/queue.go:113-119 | in drop mode no submitter sleeps, goes round the waiting loop or has a timer, in any state of any run |
| QueueModes.TurnedAwayAtOnce | internal/queue/queue.go:106-119 | in every run a task that finds a full open pool in drop mode changes nothing, and until it is answered the only step left to its submitter is the answer that the queue is at its limit |
| QueueModes.ArriveDecides | internal/queue/queue.go:88-94 | a task that arrives without the minimum budget is answered as expired, with what it has left |
| QueueModes.EnterDecides | internal/queue/queue.go:98-134 | where a submitter stands after the lock, from the task's deadline and the queue; one that waits has a timer for the end of its time |
| QueueModes.PassDecides | internal/queue/queue.go:136-165 | where a submitter stands after a pass of the waiting loop |
| QueueModes.HandleDecides | internal/queue/queue.go:260-316 | a worker calls the handler with the budget left, as expired iff that is below the minimum |
| StickyRegistry.Registry.Park | internal/sticky/sticky.go:45-73 | parks iff unexpired entries are fewer than max, and discards exactly the expired entries and the one replaced |
| StickyRegistry.Registry.Take | internal/sticky/sticky.go:75-104 | hands an entry over iff its time has not passed, at most once, and counts it as taken; an expired one is discarded and counted as expired |
| StickyRegistry.Registry.Drop | internal/sticky/sticky.go:106-119 | removes and discards the entry, expired or not |
| StickyRegistry.Registry.Sweep | internal/sticky/sticky.go:121-129 | removes and discards exactly the expired entries and counts them |
| StickyRegistry.Registry.Close | internal/sticky/sticky.go:156-165 | empties the registry and discards every entry once |
| StickySpec.LazyRunIsEager | internal/sticky/sticky.go:45-129 | with clock readings in lock order, every answer of a run equals that of a map from which entries vanish the instant they expire |
| StickySpec.StaleParkDiffersIff | internal/sticky/sticky.go:45-73 | for any registry and any reading before the lock, Park answers as eager expiry at the lock does iff it is not refused only for entries expired in between |
| StickySpec.TimedRunIsEagerIff | internal/sticky/sticky.go:45-129 | for any run in lock order whose Parks use any older readings, all answers equal those of eager expiry iff no Park is such a stale refusal |
| StickySpec.StaleReadingDiffers | internal/sticky/sticky.go:45-52 | a run with one stale refusal, on which the answers differ |
| StickySpec.ConservedRun | internal/sticky/sticky.go:45-197 | over any run the registry stays within max and Parked = live + taken + expired + replaced + dropped + closed |
| StickySpec.ParkRefuses | internal/sticky/sticky.go:45-73 | Park refuses iff unexpired entries number at least max, even for a token already present, and a refusal loses only expired entries |
| StickyLaws.ParkThenTake | internal/sticky/sticky.go:45-104 | whatever happens to other tokens in between, the first Take finds what was parked iff it comes within the time to live, its last instant included |
| StickyLaws.TakenOnce | internal/sticky/sticky.go:75-119 | after a Take or Drop no later Take finds the token, over any run that does not park it again |
| StickyLaws.CountersCountAnswers | internal/sticky/sticky.go:45-104 | over any run the counters count the transactions handed back, the Parks that answered yes and those that answered no |
| StickyLaws.ExpiredCounts | internal/sticky/sticky.go:75-190 | the expired counter counts the entries a Park or Sweep finds expired and the one a Take does |
| LifecycleTheorems.InvStep | cmd/modsec/handler.go:228-290 | every step of every handler keeps the ownership invariant |
| LifecycleTheorems.SoleOwner | cmd/modsec/resume.go:18-80 | each opened transaction is at every moment with exactly one handler or registry entry, or closed |
| LifecycleTheorems.OrderlyLife | internal/engine/apply.go:49-143 | a transaction is opened, run through the request phases, through the response phases at most once, closed at most once, and nothing follows the closing |
| LifecycleTheorems.OnlyOwnerActs | cmd/modsec/response.go:19-140 | only the handler that holds a transaction does anything to it |
| LifecycleTheorems.OneReply | cmd/modsec/handler.go:104-146 | a request or response, shed or not, is answered once, when its handler finishes; a release never |
| LifecycleTheorems.OfferMeansParked | cmd/modsec/resume.go:18-43 | parking stores the transaction with its TTL and leads to an offer, or is refused by a full registry and leaves it with the handler |
| LifecycleTheorems.NothingLeaks | cmd/modsec/handler.go:228-290 | once all handlers are done and the registry is empty every transaction is closed |
| LifecycleTheorems.AlwaysAStep | cmd/modsec/handler.go:164-311 | no handler path leads to a state without a next step |
| EngineSpec.ResumeIsReplay | internal/engine/apply.go:64-99 | keeping and resuming makes the calls of one replay of both phases, in the same order, with the same outcome and failures |
| EngineSpec.ReplayIsOrderly | internal/engine/apply.go:88-176 | calls come in phase order and the transaction is closed exactly once, at the end, also on failure |
| EngineSpec.MatchesAreSplit | internal/engine/apply.go:178-206 | the matches reported for the request and for the response share no rule match, and each list is complete for its phases |
| EngineLaws.KeepTells | internal/engine/apply.go:101-143 | a request phase that finishes has told the engine the connection, the target, the server, every header in order, and the body if there is one |
| EngineLaws.OnceTells | internal/engine/apply.go:49-62 | so has one whose transaction is not kept |
| EngineLaws.ResumedTells | internal/engine/apply.go:145-176 | a resumed response phase has told the engine, after all the kept transaction saw, every header in order, the status, and the body if there is one, and then logged and closed it |
| EngineLaws.ReplayedTells | internal/engine/apply.go:88-176 | a replay has told the whole request and then the whole response |
| EngineLaws.KeepReports | internal/engine/apply.go:64-74 | the outcome of a kept request has the request's anomaly score over all its calls, and the intervention of the headers if there is one and else that of the body |
| EngineLaws.OnceReports | internal/engine/apply.go:49-62 | so has that of a request not kept, read before its transaction is closed |
| EngineLaws.ResumedReports | internal/engine/apply.go:145-188 | the outcome of a response has the response's anomaly score, read before the closing, and the first intervention of its own two evaluations |
| EngineLaws.ReplayReports | internal/engine/apply.go:88-188 | so has that of a replay |
| EngineLaws.MatchesInOrder | internal/engine/apply.go:190-206 | the matches reported are those of the phases, as often as they occur and in the engine's order |
| EngineLaws.VersionIsNamed | internal/engine/apply.go:216-222 | the protocol version is what follows HTTP/, or as it is written, or 1.1 if none is |
| EngineLaws.HostnameDropsPort | internal/engine/apply.go:224-230 | a port is dropped from a host, whatever stands before the last colon |
| EngineLaws.HostnameKeepsName | internal/engine/apply.go:224-230 | a host without a port is kept, also if it is bracketed |
| EngineApply.Begin | internal/engine/apply.go:101-143 | opens a transaction and makes the request calls; closed on failure, open on success |
| EngineApply.Apply | internal/engine/apply.go:49-62 | whatever fails, the transaction is closed and the outcome is that of the request phases, with the request's anomaly score |
| EngineApply.ApplyKeep | internal/engine/apply.go:64-74 | the transaction is left open exactly when there is an outcome, which has the request's anomaly score |
| EngineApply.Finish | internal/engine/apply.go:145-188 | makes the response calls up to the first failure and reports phases 3 and 4 with the response's anomaly score |
| EngineApply.MatchedPhases | internal/engine/apply.go:190-206 | keeps the matches of the given phases, in order |
| EngineApply.Resume | internal/engine/apply.go:76-82 | runs the response phases on the kept transaction, reports the response's anomaly score and closes it |
| EngineApply.ApplyResponse | internal/engine/apply.go:88-99 | runs both phases on a transaction of its own, reports the response's anomaly score and closes it |
| EngineApply.KeepThenResume | internal/engine/apply.go:64-82 | the kept path does to one transaction what ApplyResponse does to its own |
| KeptTransactions.DiscardEach | internal/sticky/sticky.go:192-196 | every discarded transaction is closed, once |
| HandlerPhases.Handler.ParkLive | internal/sticky/sticky.go:45-73 | parks as the registry does; whatever leaves the registry is closed; the parked transaction stays open and is stored once |
| HandlerPhases.Handler.ResumeState | cmd/modsec/resume.go:69-80 | hands over the unexpired transaction of the token, no longer stored; an expired one is closed |
| HandlerPhases.Handler.ReleaseState | cmd/modsec/resume.go:45-59 | the token's transaction is removed and closed |
| HandlerPhases.Handler.OfferContinue | cmd/modsec/resume.go:18-43 | offers to continue iff the verdict is neither deny nor redirect and the registry has room, and otherwise closes the transaction; the path taken and its effect on the registry |
| HandlerPhases.Handler.Inspect | cmd/modsec/handler.go:164-311 | each reply with its verdict, reason, asks and list writes on every path of the request phase; unless it is one of the replies given without judging, the engine has been told the whole message, body included; the path taken, with its effect on the registry; the transaction opened is closed, unless it is stored because the reply offers to continue |
| HandlerPhases.Handler.Conclude | cmd/modsec/handler.go:241-290 | from the outcome on: the whole reply, asks and list writes in row order, the error when they cannot be published, and the hand-over |
| HandlerPhases.Handler.InspectResponse | cmd/modsec/response.go:16-198 | each reply with its verdict, reason, asks and list writes on every path of the response phase; unless it is one of the replies given without judging, the engine has been told the whole response, after what the kept transaction saw or after the request without its body; the path taken, with its effect on the registry; the transaction resumed or rebuilt is closed on all of them |
| HandlerPaths.RequestPathRuns | cmd/modsec/handler.go:164-290 | every path of the request phase is a run of the ownership protocol that ends with one reply, the registry and transaction life the code's contract states, the displaced closed, and nothing else touched |
| HandlerPaths.ResponsePathRuns | cmd/modsec/response.go:16-198 | the same for every path of the response phase |
| HandlerPaths.ReleaseRuns | cmd/modsec/resume.go:45-59 | a release is a run that drops the entry, closes its transaction and answers nothing |
| HandlerPhases.RebuildSeesTheRequest | cmd/modsec/response.go:118-131 | a rebuild makes the request calls of the kept transaction iff the request had no body |
| HandlerPhases.ResumeOrRebuild | cmd/modsec/response.go:118-131 | without a request body, resuming and rebuilding come to the same |
| HandlerReplies.AnswersAreSound | cmd/modsec/handler.go:257-286 | with a loaded policy every ask and every list write of an answer, to a request or a response, is sound |
| HandlerReplies.DenyAnswers | cmd/modsec/handler.go:257-286 | when the asks of a denied request, and those of a denied response, only write records |
| HandlerReplies.Shed | cmd/modsec/handler.go:104-142 | a shed message is answered without engine or registry; only a request turned away by a full queue fires the overload rows |
| HandlerReplies.Judge | cmd/modsec/handler.go:241-265 | the reply an outcome deserves, with the asks and list writes of the rows that fire, and a record that agrees with it |
| HandlerLaws.RequestAnswers | cmd/modsec/handler.go:164-290 | the answers to a request with their codes, in the order the cases are tried, and the error without asks when the list writes cannot be published |
| HandlerLaws.ResponseAnswers | cmd/modsec/response.go:16-179 | the answers to a response with their codes, in the order the cases are tried: a skip before a lost resume |
| HandlerLaws.RowsTriggered | cmd/modsec/handler.go:257-262 | which rows a reply triggers, by its verdict, score and matched rules, and which the fill of the queue does |
| HandlerLaws.RowsFired | cmd/modsec/handler.go:257-286 | the asks and list writes of an answer are those of its triggered rows in order, with the overload rows behind and for a request only |
| RolloutSite.Site.WriteTree | internal/desired/apply.go:70-111 | writes the manifest's tree, or refuses iff a name is unsafe or a write fails |
| RolloutSite.Site.ReloadFrom | internal/rules/rules.go:102-112 | the served set is swapped only after a successful build |
| RolloutSite.Site.Apply | internal/desired/apply.go:15-68 | refines the rollout function for every combination of failures, and live is only ever absent, the old tree or the complete new one until removal of a rejected tree begins |
| RolloutSpec.SuccessServesNew | internal/desired/apply.go:15-68 | success serves the build of the new tree, which is live |
| RolloutSpec.ErrorKeepsOld | internal/desired/apply.go:36-62 | an error serves the old set, and the old tree is live again unless a rename back failed or a rejected tree stuck |
| RolloutSpec.NoFaultsApplies | internal/desired/apply.go:15-68 | with nothing failing a rollout succeeds iff its tree can be written, is not empty and builds, and it leaves nothing parked |
| RolloutSpec.AppliesIff | internal/desired/apply.go:15-68 | exactly which faults, on which directories, make a rollout fail |
| RolloutSpec.SafeIffInSync | internal/desired/apply.go:50-62 | no failed rollout can change what is served iff the live tree, if it builds, builds to what is served |
| RolloutSpec.LeftoverTakesOver | internal/desired/apply.go:50-62 | how a rejected tree that could not be removed comes to be served |
| RolloutSpec.RunServesLastApplied | internal/desired/apply.go:15-68 | over any sequence of rollouts with no stuck tree, the last tree applied is the one served |
| RolloutWatch.Watcher.Handle | internal/desired/watch.go:74-121 | a pack in effect is skipped, a retry is asked for iff something the pack refers to is not available, and a pack takes effect exactly when it expands and rolls out |
| RolloutWatch.Watcher.Attempt | internal/desired/watch.go:131-141 | unless the newest pack is in effect, the retry timer is armed iff something it refers to is not available, the pack takes effect iff it expands and its rollout ends with the tree applied, and the status is Ok iff it does |
| RolloutWatch.Watcher.OnUpdate | internal/desired/watch.go:142-168 | a pack that parses replaces the pending one and is attempted, with the same result |
| RolloutWatch.Watcher.OnRetry | internal/desired/watch.go:131-141 | a tick of an armed timer attempts the newest pack, with the same result |
| RolloutWatch.Watcher.GoodPackTakesEffect | internal/desired/watch.go:74-121 | with nothing failing the pack attempted takes effect iff it expands, its manifest can be written and the tree builds |
| RolloutWatch.Watcher.Step | internal/desired/watch.go:131-173 | a pack that arrives is attempted and so is the newest one on a tick while the timer is armed, with the result Attempt states; other turns change nothing; every turn keeps: retry armed iff a pack is pending, the pending pack is the newest that parsed, packs take effect in arrival order, hash and revision name the last that did, and it is served |
| RolloutWatch.Watcher.Watch | internal/desired/watch.go:42-174 | over any run of updates, deletions, parse failures and ticks the invariants of Step hold, and a status Ok says that the newest pack is in effect with no retry left |
| PackSpec.DestInjective | internal/desired/pack.go:81-101 | surviving profile names map to distinct destinations |
| PackSpec.RuntimeUnique | internal/desired/pack.go:81-101 | the runtime profiles do not depend on map order |
| PackSpec.NamesSortInListOrder | internal/desired/pack.go:163-173 | generated names sort in list order iff there are at most 100 |
| PackLaws.RuntimeNames | internal/desired/pack.go:81-101 | which profiles are installed under which names, and with which content |
| PackLaws.BlobKeys | internal/desired/pack.go:77-79 | a blob's key is the prefix and the digest without its algorithm |
| PackLaws.FileNamesDiffer | internal/desired/pack.go:163-173 | generated file names are equal only for the same position and id, and are never the policy's |
| PackLaws.SafeNames | internal/desired/apply.go:124-132 | a safe name is not empty or a dot, and has no separator and no two dots in a row |
| PackLaws.TreeHoldsPack | internal/desired/apply.go:70-111 | the written tree holds every listed file and policy of each profile, none overwritten, and the data files they leave alone |
| PackLoad.RuntimeProfiles | internal/desired/pack.go:81-101 | computes the runtime profiles of the pack |
| PackLoad.ParseUUIDList | internal/desired/pack.go:180-193 | the trimmed non-empty lines in order |
| PackLoad.Unique | internal/desired/blobs.go:120-134 | the same strings without repetition |
| PackLoad.MgetHashes | internal/desired/blobs.go:71-110 | returns exactly the blobs asked for, each matching its hash, or fails |
| PackLoad.FetchBlobs | internal/desired/blobs.go:26-69 | succeeds iff every list, policy, file and data blob the pack refers to is stored with its hash and every listed id is known; then holds, verified, everything the expansion asks for |
| PackLoad.Expand | internal/desired/pack.go:103-178 | succeeds iff the default profile is there, data names are safe and all blobs are present; every text then has the hash it was named by |
| PackLoad.FetchThenExpand | internal/desired/blobs.go:26-69 | a manifest comes out iff everything is available, the default profile is there and data names are safe |
| BodyLoader.LoadMany | internal/body/body.go:83-158 | equals loading each locator alone, for any mixture of drivers, nil, unavailable and truncated locators |
| BodyLoader.LoadDecides | internal/body/body.go:55-185 | what loading gives for each answer of the store: the decrypted data with its digest and the locator's truncation iff the digest is the one the locator names for it, and otherwise the reason |
| BodyLoader.LoadWithoutStore | internal/body/body.go:55-81 | what loading gives without reading a store |
| AuditSink.Sink.Add | internal/audit/sink.go:65-99 | appends, and beyond the bound drops only the oldest |
| AuditSink.Sink.GroupBySubject | internal/audit/sink.go:170-183 | a stable partition by subject, subjects in order of first appearance |
| AuditSink.Sink.Publish | internal/audit/sink.go:156-168 | sends each subject exactly its items of the batch, in order |
| AuditSink.Sink.Flush | internal/audit/sink.go:130-154 | publishes everything pending, in batches of at most 256 |
| AuditSink.Sink.Run | internal/audit/sink.go:65-154 | over any interleaving of adds and flush rounds: added = published + pending + dropped, size is that of pending, pending at most 50000 |
| AuditSink.Sink.SubjectOrder | internal/audit/sink.go:130-183 | what a subject is sent is a subsequence of what was added for it |
| AuditSink.SizeCoversItems | internal/audit/sink.go:195-216 | the size the bound is checked against is no less than the JSON array of the items, and exceeds it by less than a byte an item |
| PriorLedger.Ledger.Take | internal/prior/prior.go:239-254 | a skip sets the flag, a threshold adds its delta, anything else changes nothing |
| PriorLedger.Ledger.Deliver | internal/prior/prior.go:213-237 | every accepting rule takes the action and one outcome is recorded |
| PriorLedger.Evaluate | internal/prior/prior.go:193-211 | one outcome for each action; the percentage is the clamped sum of what outcomes took; skip iff an applied skip outcome |
| PriorLedger.AcceptsMeans | internal/prior/prior.go:32-66 | sender, verb, axis and code each restrict what a rule takes, none listed is any, and no axis is the request |
| PriorLedger.TakersAreCounted | internal/prior/prior.go:226-236 | a threshold is taken once for each rule that accepts it |
| PriorLedger.PercentIsClamped | internal/prior/prior.go:200-210 | the percentage is the sum within -100 and 900, and the nearer bound outside |
| PriorLedger.OrderDoesNotMatter | internal/prior/prior.go:193-249 | percentage and skip depend only on the multiset of actions with senders and of rules |
| PriorLedger.VerdictOrderDoesNotMatter | internal/prior/prior.go:193-211 | reordering the verdicts changes neither |
| PriorLedger.LoadedRulesApply | internal/prior/prior.go:123-163 | with validated rules an outcome is applied iff a rule accepts it, and only thresholds and skips from named senders are |
| PriorLedger.StrangersDoNotCount | internal/prior/prior.go:226-235 | senders no rule names change nothing |
| RuleFilter.ParseRanges | internal/engine/ranges.go:11-24 | parses all items or refuses |
| RuleFilter.RangesCover | internal/engine/ranges.go:11-54 | a list is accepted iff each item is, and item and range correspond one to one |
| RuleFilter.RangeRoundTrip | internal/engine/ranges.go:36-54 | a written range reads back as its two ends |
| RuleFilter.NumberRoundTrip | internal/engine/ranges.go:36-54 | a written number reads back as the range of itself alone |
| PolicyRows.TTLRoundTrip | internal/prior/outcome.go:400-425 | a written time to live reads back, in any unit and either case |
| PolicyRows.Units | internal/prior/outcome.go:400-425 | a unit is seconds, minutes, hours or days, in either case; any other character is none |
| PolicyRows.CheckArchiveWhen | internal/protocol/protocol.go:155-185 | accepts allow and deny at most once each and answers them in a fixed order |
| PolicyRows.WhenIsCanonical | internal/protocol/protocol.go:155-185 | the canonical form names the same words and is its own canonical form |
| PolicyRows.Load | internal/prior/prior.go:112-120 | loads iff every row is accepted, and changes nothing but the compiled ranges |
| PolicyRows.AcceptedVerb | internal/prior/outcome.go:250-267 | an accepted ask has a known verb and an axis it takes; on deny only record verbs |
| PolicyRows.AcceptedAsk | internal/prior/outcome.go:269-388 | what an accepted ask carries: delta, value, target, phase, counter, group, marker, set and objects, each as its verb needs and only where its verb may have it |
| PolicyRows.ConnAsksAndPhase | internal/prior/outcome.go:59-79 | a connection-wide ask has phase frame iff it has a phase |
| PolicyRows.ConnAskWithoutPhase | internal/prior/outcome.go:59-79 | an accepted connection-wide row without a phase |
| PolicyRows.AcceptedList | internal/prior/outcome.go:219-247 | an accepted list row has a legal write kind, a name and a positive TTL |
| PolicyFire.HitIsFirst | internal/prior/outcome.go:471-489 | a rule row hits with the first finding its filter lets through, or not at all |
| PolicyFire.HitMeansListed | internal/prior/outcome.go:471-489 | a hit has a written range covering its id and one of the row's tags |
| PolicyFire.Run | internal/prior/outcome.go:529-561 | actions, bans and names of exactly the rows that fire, in row order, names as many as actions and bans together |
| PolicyFire.Fire | internal/prior/outcome.go:509-521 | fires exactly the rows that the verdict triggers: allow those on allow, deny and redirect those on deny, a score the score rows it reaches, and any verdict the rule rows that a matched rule passes |
| PolicyFire.FireOverload | internal/prior/outcome.go:523-527 | the rows the queue's fill or a shed triggers |
| PolicyFire.FireRequest | cmd/modsec/handler.go:257-265 | verdict rows then overload rows, never more effects than rows |
| PolicyFire.OnceOverall | internal/prior/outcome.go:509-527 | triggers that share no row fire each row at most once between them |
| PolicyFire.ActionsAreSound | internal/prior/outcome.go:563-600 | with loaded rows every action has a known verb, an allowed axis, everything its verb needs and nothing only another verb may have |
| PolicyFire.BansAreSound | internal/prior/outcome.go:546-555 | with loaded rows every ban has a positive TTL, a legal write kind and an address |
| PolicyFire.DenyOnlyRecords | cmd/modsec/response.go:158-179 | on a deny the asks of a response only write records iff no rule row that hits asks for more |
| PolicyFire.RequestDenyOnlyRecords | cmd/modsec/handler.go:257-286 | on a deny the asks of a request only write records iff neither a rule row that hits nor an overload row at the queue's fill asks for more |
| PolicyFire.RuleRowAsksOnDeny | internal/prior/outcome.go:250-253 | an accepted row that shows the exception |
| PolicyFire.OverloadRowAsksOnDeny | cmd/modsec/handler.go:260-265 | an accepted overload row that shows the other exception |
| PolicyFire.ScoreRowsSplit | internal/prior/outcome.go:141-166 | a score row and its `below` twin split the scores |
| PolicyFire.OverloadIsMonotone | internal/overload/overload.go:33-39 | more fill or a shed never silences a row; without a shed only thresholds below 100 fire |
| PolicyFire.OverloadFiresIff | internal/overload/overload.go:13-39 | an accepted row fires unshed at some fill iff its threshold is below 100, and always on a shed |
| PolicyLaws.ScoreRowAtThreshold | internal/prior/outcome.go:149-163 | a score row fires at its threshold iff it is not a below row |
| PolicyLaws.ScoreRowIsMonotone | internal/prior/outcome.go:149-163 | a row that is not below fires at every higher score, a below row at every lower one, an eq row at its threshold alone |
| PolicyLaws.RulePasses | internal/prior/outcome.go:471-489 | a rule row lets through exactly the findings its written ranges cover and its tags name |
| PolicyLaws.RuleRowFires | internal/prior/outcome.go:491-521 | a rule row fires on any verdict with the code of the first rule it lets through |
| PolicyLaws.OverloadRowFires | internal/overload/overload.go:13-39 | an overload row fires from its threshold on, and at a full queue only on a shed |
| PolicyLaws.OnlyOverloadRows | internal/prior/outcome.go:141-166 | overload rows answer to no verdict, and no other row to an overload |
| PolicyLaws.TriggerAccepted | internal/prior/outcome.go:171-205 | a trigger is accepted iff it is known and has a threshold and a side where they mean something |
| PolicyLaws.FilterAccepted | internal/prior/outcome.go:427-465 | a filter is accepted iff a rule row has one, no other row does, and its ranges and tags are well formed |
| PolicyLaws.AcceptedShape | internal/prior/outcome.go:207-225 | an accepted row either asks or writes a list, and its code is well formed |
| PolicyLaws.AnySoundAsk | internal/prior/outcome.go:563-600 | every sound ask is sent, as it is, by some accepted row: the converse of ActionsAreSound |
| PolicyLaws.AnySoundBan | internal/prior/outcome.go:546-555 | every sound list write is made by some accepted row: the converse of BansAreSound |
| PolicyLaws.Defaults | internal/prior/outcome.go:116-134 | what an accepted row leaves out: the address, the trigger's code, the request or, for reauth, the session |
| ScoreArithmetic.CalibrateRange | internal/verdict/verdict.go:141-153 | 0..100 for every anomaly score up to 2^53 and any threshold |
| ScoreArithmetic.CalibrateMonotone | internal/verdict/verdict.go:141-153 | monotone in the anomaly score, antitone in a positive threshold |
| ScoreArithmetic.CalibrateIsExact | internal/verdict/verdict.go:141-153 | the float formula is half-up rounding of 50 * anomaly / threshold in whole numbers |
| ScoreArithmetic.CalibrateLandmarks | internal/verdict/verdict.go:141-153 | 50 at the threshold; exactly when the score is 0 and when it is 100 |
| ScoreArithmetic.CalibrateDefaults | internal/verdict/verdict.go:141-153 | a threshold that is not positive is 5, and no anomalies score nothing |
| ScoreArithmetic.ScaleMonotone | internal/verdict/verdict.go:127-139 | monotone in score and in percentage, also across the zero-percent branch |
| ScoreArithmetic.ScaleDirection | internal/verdict/verdict.go:127-139 | a raise never lowers, a cut never raises, -100 gives 0 |
| ScoreArithmetic.ScaleIsExact | internal/verdict/verdict.go:127-139 | half-up rounding in whole numbers except at exact ties |
| ScoreArithmetic.ScaleAtTies | internal/verdict/verdict.go:127-139 | at every exact tie the result is the half-up one or one lower |
| Binary64.QuartersScaleExactly | internal/verdict/verdict.go:127-139 | in binary64 a percentage that is a multiple of 25 scales exactly as half-up does, at ties as well |
| ScoreArithmetic.TieRoundsDown | internal/verdict/verdict.go:127-139 | from three roundings, the tie at which the answer is one lower |
| Binary64.NearestRounds | internal/verdict/verdict.go:127-153 | rounding to nearest, ties to even, with a 53-bit significand is monotone, keeps short numbers and errs by one part in 2^53, as the results on scores require |
| Binary64.BinaryTieRoundsDown | internal/verdict/verdict.go:127-139 | binary64 answers 57 for 50 raised by 15 percent, where half-up is 58 |
| VerdictReply.From | internal/verdict/verdict.go:50-82 | the exact condition of each verdict with its score, reason, response and redirection; the score is in range whatever the floats do, so MODSEC_SCORE_RANGE cannot occur |
| VerdictReply.ReplyDecides | internal/verdict/verdict.go:50-116 | the reply from the outcome's own fields and with its codes: a disruptive intervention alone decides, then a decisive rule, then the score |
| VerdictReply.DeservedIsUnique | internal/verdict/verdict.go:50-82 | an outcome deserves one reply |
| VerdictReply.DecisiveByIdOrTag | internal/verdict/verdict.go:28-40 | a rule is decisive by its id or by one of its tags |
| VerdictReply.StatusNames | internal/verdict/verdict.go:118-125 | the configured name or fallback; with nothing configured 400 is malformed and all else blocked |
| VerdictReply.FromIntervention | internal/verdict/verdict.go:92-116 | which interventions redirect, deny or let pass |
| VerdictReply.FindDecisive | internal/verdict/verdict.go:155-167 | whether a matched rule is decisive by id or tag |
| VerdictReply.Judge | cmd/modsec/handler.go:241-247 | the audited scaled score is the reply's score, in range and on the right side of the raw score |
| VerdictReply.ReplyScoreMonotone | internal/verdict/verdict.go:64-66 | a reply's score is monotone in anomaly score and percentage together |
| VerdictReply.WithScore | internal/protocol/protocol.go:463-472 | accepts exactly 0..100 |
| VerdictReply.Clip | internal/verdict/verdict.go:255-267 | the longest prefix within the limit that ends where a rune starts |
| VerdictReply.ClipText | internal/verdict/verdict.go:255-267 | clipping well-formed UTF-8 leaves it well-formed and gives up at most three bytes |

## Left out

- NATS, JetStream, Redis, signals, heartbeats, logging, environment and file reading: only their results appear, as parameters.
- The engine and its rules: a transaction is any deterministic function of the calls made on it, and building a rule set any function of the tree.
- SHA-256 and AES-GCM: arbitrary functions. JSON and YAML decoding, and ParsePack's validation: a pack that does not parse is an input.
- Panics: the ownership and one-reply properties are those of runs without one.
- Frame messages: their handler opens and closes a transaction as a request that does not want to resume does, and adds parsing of frames.
- RolloutWatch: the names in `Applied`, and the settings around the watcher.
- LifecycleMachine: the outcomes that depend on messages, rules and the network are chosen freely; HandlerPhases has them, one call at a time, and HandlerPaths ties the two.
- PackLoad.FetchBlobs: the store answers the same throughout one fetch, or the hash has no collisions.
- QueueMachine: timers are clock readings, and each critical section is one step. Fairness of the scheduler is not modelled: `CloseReturns` bounds the steps of progress and shows that one is enabled, and a fair scheduler takes it.
- PolicyRows.Load: `strings.TrimSpace` and `ToLower` beyond ASCII, and overflow of a TTL multiplied by its unit, are not modelled.
- PriorLedger.Evaluate: deltas add up without 64-bit overflow.
- HandlerReplies.Shed: the reason class `overload` of the reply is a constant and is left out, and so is the audit record.
- ScoreArithmetic: infinities and subnormal numbers do not occur for the inputs considered, so Binary64 leaves the exponent unbounded; a float beyond int64 converts to an arbitrary number.
- VerdictReply: findings, severities, targets and tag lists of the audit details are copied field by field in the source and add nothing but easy members.
- Reading of the status map, configuration, header and target mappings: straight copying and string library calls.
