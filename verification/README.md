# Environment agent: a verified model

A Dafny model of the parts of the environment agent that keep state under
concurrency and failure, and proofs of what they guarantee. `dafny verify
dfyconfig.toml` checks everything.

| file | models |
|---|---|
| `ResourceSet.dfy` | the bounded LRU set behind the deny list and the claimed-resources ledger |
| `KeyLock.dfy` | the in-flight forward lock |
| `Routing.dfy` | the routing protocol of one resource id: live handler, restart drains, transition processing, cancel handler |
| `RoutingHistory.dfy` | ties what the model remembers of a run to the steps that caused it |
| `RoutingProofs.dfy` | mutual exclusion, the meaning of the ledger, the cancel/create race and the runs that show its windows are real |
| `RoutingSettlement.dfy` | when a message may be acked or terminated |
| `RoutingProgress.dfy` | where each step of the protocol leads, and that messages and cancels can always get through |
| `Agent.dfy` | all ids at once on the real LRU sets and lock; every id's history is a run of the protocol |
| `Dedup.dfy` | create/delete deduplication of retry messages |
| `Restart.dfy` | the three-phase restart pass and the fetch loop |
| `Debouncer.dfy`, `DebouncerRuns.dfy`, `DebouncerProgress.dfy` | the versioned status debouncer (storage and network monitors share the code): its sections, what every run keeps, and that it gets somewhere |
| `Registration.dfy` | slot registry, file store and provider service |
| `Registrar.dfy` | the DCM registration loop with its coalescing notification channel |
| `MessagingSetup.dfy` | setup, consumption and shutdown of the messaging client |
| `Health.dfy` | the failure-counting state machine and the health monitor |
| `Forwarding.dfy`, `Backoff.dfy` | the bounded retry loop, error classification and the delay |

How it is built. A component that updates fields in place is a class whose
methods are proved against functions on values; the laws are proved about
those functions. A component whose point is concurrency is a state machine:
one step is one mutex-protected section, one access to an atomic flag, one
remote call, or one ack, nak or publish, and `Exec` runs an arbitrary sequence
of steps, so a lemma about `Exec` is about every interleaving. Network replies,
store faults, clocks and timers are arguments of the steps, so they may go
either way every time. Safety alone would allow a protocol that never moves, so
each state machine also has progress theorems: from every reachable state of a
stated kind, steps of the component itself lead to the promised end.

## What the code does that a reader may not expect

Each of these is a proved statement, with the exact condition where there is one.

- A cancel that is acknowledged and a create that is forwarded can both happen
  for one id. With one live create the only way is: the cancel reads the ledger
  before the create claims, and writes the deny list after the create re-checks
  (`SingleCreateWindow`). Every state on that way can go through it
  (`WindowIsOpen`).
- With a second delivery there is another way: the first delivery consumes the
  deny-list entry, and from then on every delivery that finds the lock free can
  be forwarded although the cancel was acknowledged (`ConsumedWindowIsOpen`,
  `SecondDeliveryIsForwarded`).
- The debouncer's `Stop` says it waits for all flushes. It does so, whatever other
  Stop calls there are, if and only if, when it takes the lock, no publisher owes
  or is in a stop-flush and no earlier Stop call has a flush unfinished
  (`StopReturns`, `StopCanReturnEarly`): the wait group is released before a
  stop-flush runs, and it does not count the other call's flushes. The model
  follows the code.
- On restart, a drained cancel is in force for the later phases if and only if
  fewer than capacity distinct ids were drained after it
  (`DrainedCancelHoldsExactly`). A fetch that is cancelled or meets an empty
  batch ends short without an error (`FetchAllFromConsumer`). A create is sent
  for a denied id if and only if a cancel of it sits on the main or retry topic
  and reaches a ready provider (`StrayCancelsAreSentAsCreates`).
- The registrar can idle with stale data: after a refused re-registration
  (`RefusedUpdateStaysStale`), and after one failed lister read
  (`SilentListerRegistersNothing`). After a refused first registration it
  ignores every later notification (`RefusalBlocks`, `BlockedForGood`).
- A `StartConsuming` call outside the ready callback that fails to consume after
  setup's last look at the request latch leaves the client idle for good
  (`FailedCallStrandsTheClient`, `StrandedForGood`). That look comes before setup
  is recorded as done. Nothing else strands the client, failures before it
  included (`ConsumingWhenAsked`).

## Model

| member | source | states |
|---|---|---|
| ResourceSets.RunWellFormed | internal/routing/resourceset.go:12-61 | every operation sequence keeps a duplicate-free recency order within capacity |
| ResourceSets.Inclusion | internal/routing/resourceset.go:33-103 | under one operation sequence a smaller set is always a subsequence of a larger one, though the two evict different entries |
| ResourceSets.EvictedOnlyAfterCapacityOthers | internal/routing/resourceset.go:49-75 | an id that is gone without a removal had at least capacity distinct other ids used since its own last use |
| ResourceSets.RetainedExactly | internal/routing/resourceset.go:49-75 | without removals an id survives if and only if fewer than capacity distinct others were used since |
| ResourceSets.ResourceSet.constructor | internal/routing/resourceset.go:21-30 | a non-positive capacity becomes one |
| ResourceSets.ResourceSet.Insert | internal/routing/resourceset.go:33-61 | map and list stay in agreement, the recency order becomes the specified one, a full set drops its least recent id, and the result says whether the id was new |
| ResourceSets.ResourceSet.Contains | internal/routing/resourceset.go:65-75 | answers membership and refreshes a found id |
| ResourceSets.ResourceSet.Consume | internal/routing/resourceset.go:79-90 | answers membership and removes exactly that id |
| ResourceSets.ResourceSet.Remove | internal/routing/resourceset.go:93-103 | removes exactly that id |
| ResourceSets.ResourceSet.Len | internal/routing/resourceset.go:106-110 | the map's size is the length of the recency order, within capacity |
| KeyLocks.KeyLock.AddIfAbsent | internal/routing/keylock.go:25-33 | succeeds exactly when the key was free; nothing is ever evicted |
| KeyLocks.KeyLock.Remove | internal/routing/keylock.go:36-40 | frees exactly that key |
| RoutingLedger.OneAttemptAtATime | internal/routing/router.go:248-316 | in every run of main- and retry-topic attempts at most one per id is between lock and unlock |
| RoutingLedger.LockedExactlyInSection | internal/routing/retry/processor.go:486-496 | the id is locked exactly while an attempt is in that section |
| RoutingLedger.LedgerMeansForwarded | internal/routing/router.go:263-303 | with no attempt in progress and no eviction, the id is in the ledger exactly when an earlier forward succeeded; failed and denied attempts leave no trace |
| RoutingHistory.ForwardedExactly | internal/routing/router.go:276-303 | an attempt counts as forwarded exactly when some step of the run was its provider call and the provider accepted |
| RoutingLedger.ClaimedDuringForward | internal/routing/retry/processor.go:498-545 | if its entry was never evicted, the id is in the ledger whenever its provider is being called |
| RoutingRace.BothHappenOnlyThroughAWindow | internal/routing/router.go:248-371 | for any number of attempts and cancels, both happen only if the step that checks the ledger precedes the step that claims, and either the deny insertion follows the re-check or another live create consumed the entry at a step in between |
| RoutingRace.SingleCreateWindow | internal/routing/router.go:248-371 | with a single live create only the first of those windows remains |
| RoutingRace.ForwardedPastACancel | internal/routing/retry/processor.go:225-290 | with no deny-list eviction, a create forwarded on any path whose re-check follows the insertion of a cancel, drained ones included, means another live create consumed the entry in between |
| RoutingWindows.WindowIsOpen | internal/routing/router.go:263-371 | from every reachable state with no eviction, a create about to call its provider and a cancel between its check and its insertion, both can happen |
| RoutingWindows.SingleCreateWindowIsOpen | internal/routing/router.go:263-274 | such a state is reachable with a single create |
| RoutingWindows.ConsumedWindowIsOpen | internal/routing/router.go:152-274 | from every reachable state with no eviction, an acknowledged cancel whose entry is off the deny list and a newly delivered live create that finds the lock free, both can happen |
| RoutingWindows.SecondDeliveryIsForwarded | internal/routing/router.go:152-170 | such a state is reachable: a cancel acknowledged before any delivery, a first delivery denied, and the second delivery of the same message forwarded |
| RoutingHistory.SettledExactly | internal/messaging/handlers.go:54-111 | the settled messages are exactly those some step of the run acked or terminated |
| RoutingHistory.DeniedCause | internal/routing/router.go:347-371 | an id is on the deny list only because an earlier step of a cancel put it there |
| RoutingHistory.PurgeCause | internal/routing/router.go:347-400 | a message is purged only after that cancel deny-listed the id and then fetched the message from the retry stream |
| RoutingSettlement.MovesAreSound | internal/routing/router.go:152-316 | a step concludes an outcome only in the listed circumstances (provider accepted or refused, delivery limit, lookup without a usable provider, deny-listed create), concludes it whenever they hold, and counts as failed exactly on a metadata or store error, lock conflict, ended context or failed publish |
| RoutingSettlement.SettledOnlyWhenDecided | internal/routing/router.go:152-213 | in every run a step that acks or terminates a message comes after a step that decided its outcome in one of those circumstances, or that published its copy to the retry stream |
| RoutingSettlement.FailedAttemptsDoNotSettle | internal/routing/retry/processor.go:553-595 | in every run, a goroutine that met a metadata error, store error, in-flight conflict, ended context or failed publish at some step never acks or terminates its message later, unless it published a copy itself |
| RoutingSettlement.NoMessageIsLost | internal/messaging/handlers.go:54-111 | every create or delete is unsettled, decided by a step of the run, or has a retry copy that is unsettled or decided |
| RoutingProgress.AfterLookup | internal/routing/retry/processor.go:168-207 | for every path and lookup result where the attempt goes next: a ready provider always leads to the lock, a store error back, an unavailable one to an acked error, an unhealthy or missing one to the retry topic, back or to an error as that path does |
| RoutingProgress.BeforeForward | internal/routing/router.go:248-274 | where each step before the provider call leads, the conflict and both deny checks included |
| RoutingProgress.AfterForward | internal/routing/router.go:276-316 | where each reply leads, that the claim is undone exactly when it was this attempt's own, and that the lock is released before the message is settled |
| RoutingProgress.EveryStepCounts | internal/routing/router.go:152-316 | whatever is answered, every step of an attempt brings it nearer its end |
| RoutingProgress.GoroutinesEnd | internal/messaging/handlers.go:54-111 | in every run no attempt takes more than eleven steps |
| RoutingProgress.TaskCanSucceed | internal/routing/retry/processor.go:477-546 | from every reachable state an attempt of any path and kind that is not denied and finds the lock free can be run until its provider accepted it, its message is acked and the lock is free |
| RoutingProgress.MessageCanSucceed | internal/routing/retry/processor.go:553-581 | the same from the delivery of any message of either stream along any path of its stream |
| RoutingProgress.CancelPlaces | internal/routing/router.go:319-400 | where each step of a cancel leads: rejected exactly when the ledger holds the id, acknowledged only without a retry consumer or after a purge without an error |
| RoutingProgress.AckedCancelPurgedAll | internal/routing/router.go:361-400 | in every run an acknowledged cancel has purged, without an error, every message of its id that it fetched |
| RoutingProgress.CancelCanSucceed | internal/routing/router.go:319-400 | from every reachable state whose ledger does not hold the id, a cancel can be run until it is acknowledged, the id deny-listed and all it fetched purged |
| Agents.Agent.constructor | cmd/environment-agent/main.go:204-205 | one ledger, one deny list and one lock, shared by all code paths |
| Agents.Agent.RunTask | internal/routing/router.go:248-316 | one atomic call of a goroutine on the shared structures has exactly the effect its protocol step names, touches no other id, and its answer is the branch the goroutine takes; where the branches lead is stated by AfterLookup, BeforeForward and AfterForward |
| Agents.Agent.RunClaim | internal/routing/router.go:263-266 | the ledger insertion is the protocol's claim, preceded by an eviction step of the least recent id when the ledger is full |
| Agents.Agent.RunCancel | internal/routing/router.go:319-373 | a cancel handler's other steps leave every shared membership as it was, and it is rejected exactly when the ledger answered that it holds the id |
| Agents.Agent.RunDeny | internal/routing/router.go:347-371 | the deny-list insertion is the protocol's, preceded by an eviction step when the list is full |
| Agents.Agent.LockIsExact | internal/routing/keylock.go:25-40 | the lock's contents are exactly the ids with an attempt in the section |
| Agents.Agent.LedgerIsExact | internal/routing/retry/processor.go:498-545 | the ledger's contents are exactly the ids with a successful forward, outside sections and evictions |
| Agents.Agent.BothOnlyThroughAWindow | internal/routing/router.go:248-371 | the race result for every id of the agent, whatever happens to the others |
| Agents.Agent.CancelsHold | internal/routing/retry/processor.go:225-290 | the same for cancels of any kind, with the restart drains interleaved with live handlers |
| Agents.Agent.NothingIsLost | internal/routing/retry/processor.go:553-595 | no message of any id is lost |
| Dedup.BuildIndex | internal/routing/retry/processor.go:380-398 | the index holds, per id, the ascending positions of its creates and of its deletes |
| Dedup.AckPairs | internal/routing/retry/processor.go:399-414 | exactly the creates and deletes of paired ids are acked, once each, with one acknowledgement per paired id |
| Dedup.DedupCreateDeletePairs | internal/routing/retry/processor.go:379-426 | the survivors are, in order, exactly the items not deduplicated |
| Dedup.NothingLeftToDedup | internal/routing/retry/processor.go:379-426 | the output contains no pair, so deduplicating again changes nothing |
| Restart.FetchAllFromConsumer | internal/routing/retry/processor.go:604-651 | an error exactly when a pull failed; otherwise all that was pulled, short of the backlog only after a cancellation or an empty batch |
| Restart.PulledInOrder | internal/routing/retry/processor.go:604-651 | the fetched messages are those of the pulls, one pull after the other, nothing left out and nothing in between |
| Restart.ParsedExactly | internal/routing/retry/processor.go:358-369 | the parsed messages are exactly the messages that parse, in their order |
| Restart.DrainedCancelHoldsExactly | internal/routing/retry/processor.go:225-241 | a drained cancel is still listed after the drain if and only if fewer than capacity distinct ids were drained after it |
| Restart.AllDrainedCancelsHold | internal/routing/retry/processor.go:225-241 | when all listed and drained ids fit, every drained cancel is listed |
| Restart.CallsExactly | internal/routing/retry/processor.go:477-581 | a call is made exactly for the messages that meet a ready provider, a forwarder and a free lock and are no denied create; creates and cancels go out as creates, deletes as deletes |
| Restart.CallsInOrder | internal/routing/retry/processor.go:477-581 | the calls of a batch come in the order of its messages, one for each message that leads to one |
| Restart.NoCreateForDenied | internal/routing/retry/processor.go:507-514 | no create message is forwarded for a denied id |
| Restart.StrayCancelsAreSentAsCreates | internal/routing/retry/processor.go:428-437 | a create operation is sent for a denied id if and only if the batch holds a cancel of that id whose provider is ready and whose lock is free |
| Restart.DrainedCancelIsSentAsCreate | internal/routing/retry/processor.go:215-223 | whatever the deny list held, a pass that drains a cancel and finds it on the main topic too deny-lists the id and sends a create for it |
| Restart.RestartRespectsCancels | internal/routing/retry/processor.go:215-290 | when the ids fit, no create message is forwarded in the pass for an id whose cancel it drained |
| Restart.PairsAreNotForwarded | internal/routing/retry/processor.go:268-290 | an id with a create and a delete waiting for retry is neither created nor deleted |
| Restart.UnpairedIsForwarded | internal/routing/retry/processor.go:268-290 | any other retry message that is ready, unlocked and not denied is forwarded |
| Restart.LedgerMembers | internal/routing/retry/processor.go:498-545 | after a forward the id is in the ledger exactly when it was or the call succeeded, and others stay unless the claim evicted them |
| Restart.Processor.DrainCancels | internal/routing/retry/processor.go:225-241 | the deny list after phase 1; a cancel message is acked if it parses and terminated otherwise |
| Restart.Processor.ForwardRequest | internal/routing/retry/processor.go:477-546 | the lock is released on every path, the deny list keeps its members, and the call, the ledger and the verdict are the specified ones |
| Restart.Processor.RouteMessage | internal/routing/retry/processor.go:553-581 | acked if and only if the provider is unavailable, there is no forwarder, the attempt turned out to be a denied create or the call was not interrupted; a store error is nacked, and everything else is nacked on the retry topic, and on the main topic moved to it if the publish works and left unacked if not |
| Restart.Processor.DrainMain | internal/routing/retry/processor.go:243-265 | phase 2's calls, and every fetched message is terminated if it does not parse, acked if it is a denied create, and otherwise settled as RouteMessage says |
| Restart.Processor.DrainRetry | internal/routing/retry/processor.go:268-290 | phase 3 calls exactly for what deduplication leaves, and every fetched message is terminated, acked by deduplication or as a denied create, or settled as RouteMessage says |
| Restart.Processor.ProcessOnRestart | internal/routing/retry/processor.go:215-223 | the provider calls of the whole pass over the messages that parse, judged against the deny list phase 1 left; when the ids fit, none is a create for a drained cancel |
| Debouncing.Debouncer.Submit | internal/openshift/storage/monitoring/debouncer.go:42-71 | the event is pending under a new version; a timer is armed, replacing the old one, unless a publish is draining |
| Debouncing.Debouncer.BeginPublish | internal/openshift/storage/monitoring/debouncer.go:83-99 | succeeds exactly for a matching version with nobody draining and not stopped |
| Debouncing.Debouncer.EndPublish | internal/openshift/storage/monitoring/debouncer.go:101-136 | drops the instance, schedules a follow-up or hands over a stop-flush, as versions and the stop flag say |
| Debouncing.Debouncer.StopAll | internal/openshift/storage/monitoring/debouncer.go:138-162 | collects the pending event of every instance nobody is publishing, once each, and keeps the others |
| DebouncerRuns.PublishedInOrderAtMostOnce | internal/openshift/storage/monitoring/debouncer.go:73-136 | in every interleaving an instance's publishes follow acceptance order without repetition |
| DebouncerRuns.NeverOverlapping | internal/openshift/storage/monitoring/debouncer.go:73-136 | at most one publish call per instance is in progress, stop flushes included |
| DebouncerRuns.NeverLost | internal/openshift/storage/monitoring/debouncer.go:42-162 | an unpublished last event is pending with a matching callback or active publisher, and after Stop is in somebody's hands |
| DebouncerRuns.QuietMeansUpToDate | internal/openshift/storage/monitoring/debouncer.go:42-162 | once all activity has ended the last published event is the last accepted one |
| DebouncerRuns.StaleTimerPublishesEarly | internal/openshift/storage/monitoring/debouncer.go:83-99 | a run in which an old timer matches a recreated instance and publishes early |
| DebouncerRuns.StopReturns | internal/openshift/storage/monitoring/debouncer.go:138-162 | with any number of Stop calls, when one returns every instance has its last event published and no publish call in progress, except those with a flush of somebody else's unfinished when it took the lock |
| DebouncerRuns.StopCanReturnEarly | internal/openshift/storage/monitoring/debouncer.go:101-162 | from every reachable state with a flush unfinished, begun or not, by a publisher or an earlier Stop call, a new Stop call can return before it is over |
| DebouncerProgress.CanCatchUp | internal/openshift/storage/monitoring/debouncer.go:73-136 | from every reachable running state an instance's own callbacks and goroutines can be run until its newest event is published |
| DebouncerProgress.BurstStaysTidy | internal/openshift/storage/monitoring/debouncer.go:42-71 | any number of submissions, each stopping the timer of the one before, leave one timer armed, the last event pending and nothing published |
| DebouncerProgress.BurstPublishesOnce | internal/openshift/storage/monitoring/debouncer.go:42-99 | then exactly one event of the burst is published, the last one, and nothing stays armed |
| DebouncerProgress.RoutinesEnd | internal/openshift/storage/monitoring/debouncer.go:73-136 | in every reachable state a goroutine a timer started has at most eight of its own steps left, follow-up publish and flush at Stop included |
| DebouncerProgress.StopCanReturn | internal/openshift/storage/monitoring/debouncer.go:138-162 | from every reachable state a new Stop call can return |
| Registration.MoveBackRestores | internal/provider/provider.go:124-137 | moving a slot and back restores the registry if and only if the old slot was held and the new one free |
| Registration.ReleaseRestores | internal/provider/provider.go:107-144 | claim then release restores the registry if and only if the slot was free |
| Registration.Registry.Claim | internal/provider/provider.go:107-116 | refused exactly when another provider holds the slot |
| Registration.Registry.Move | internal/provider/provider.go:124-137 | refused exactly when another provider holds either slot; nothing changes then |
| Registration.Registry.Release | internal/provider/provider.go:140-144 | frees exactly that slot |
| Registration.Replace | internal/provider/store/file.go:45-58 | replaces the first record of the name in place, or appends |
| Registration.SavedInPlace | internal/provider/store/file.go:45-58 | a save puts the record where the one of its name stood, or at the end, and leaves every other record |
| Registration.DeletedExactly | internal/provider/store/file.go:63-79 | a delete leaves exactly the records of other names, in their order |
| Registration.FileStore.ReadFile | internal/provider/store/file.go:110-155 | fails exactly on a fault or an invalid record |
| Registration.FileStore.WriteFile | internal/provider/store/file.go:166-205 | the new contents go through a temporary file; failure is reported exactly when the rename did not happen, and then the file is as before whatever the temporary file holds |
| Registration.FileStore.Save | internal/provider/store/file.go:35-61 | the exact conditions of success; a failed save changes nothing |
| Registration.FileStore.Delete | internal/provider/store/file.go:63-79 | the exact conditions of success; a failed delete changes nothing |
| Registration.FileStore.FindBy | internal/provider/store/file.go:95-108 | a stored match, or none exists |
| Registration.HeldMeansServed | internal/provider/provider.go:107-137 | in agreement the registry refuses a type exactly when another stored record has it |
| Registration.AgreementIsUnique | internal/provider/provider.go:88-93 | the stored records determine the registry |
| Registration.ProviderService.UpdateRegistration | internal/provider/service/service.go:128-156 | the stored record has every field of the request and the old id, kind and creation time, in the old place; agreement kept, conflict and success conditions exact, failure leaves registry and store unchanged |
| Registration.ProviderService.AssignProviderId | internal/provider/service/service.go:160-179 | when an id can be assigned, and exactly which error otherwise |
| Registration.ProviderService.CreateRegistration | internal/provider/service/service.go:182-210 | the same for a new provider: all fields of the request, the requested or a new id, external, at the end |
| Registration.ProviderService.Register | internal/provider/service/service.go:80-124 | registry and store together act as one table of records; a success stores all the request's fields under the kept or new identity and touches no other record; success, conflict, invalid request and store error each if and only if the records and the faults say so; a failed call changes neither |
| Registration.NewRecordIsStored | internal/provider/service/service.go:128-210 | the record a registration stores, field by field, with the identity kept if the name was known |
| Registration.OutcomesSpelledOut | internal/provider/service/service.go:80-210 | conflict and success as conditions on the stored records and the request: type taken by another name, wrong or used id, missing fields, faults |
| Registration.RunKeeps | internal/provider/service/service.go:80-210 | after any sequence of calls with any failures names, ids and types identify records, and every provider keeps its id and creation time |
| Registration.ServeAll | internal/provider/service/service.go:70-103 | agreement holds after every sequence of serialised calls |
| Registrars.NoSignalLost | internal/dcm/registrar.go:168-236 | before shutdown a notification is queued, or a build is ahead, or the last payload was built after it, across backoff and panic restarts |
| Registrars.IdleMeansCurrent | internal/dcm/registrar.go:186-314 | idling after a success with no queued signal, the control plane holds a payload built after the last notification; if the types did not change silently since that notification, the payload lists them if and only if the lister answered (or there are none) |
| Registrars.IdleVerdict | internal/dcm/registrar.go:254-301 | before shutdown the registrar blocks only if the last reply of the run was a non-retryable refusal, and idles only if it was that or a success; it never gives up on a retryable failure |
| Registrars.RetryableFailuresAreRetried | internal/dcm/registrar.go:254-301 | from every reachable state with a request in flight a retryable failure leads, by the timer or a queued signal, to another build, and a success then leaves the current types registered |
| Registrars.CanCatchUp | internal/dcm/registrar.go:186-314 | from every reachable unblocked state with something to advertise, a notification can be followed by steps that leave exactly the current types registered |
| Registrars.NothingBeforeTheGate | internal/dcm/registrar.go:196-213 | nothing is built or sent before some step of the run read a non-empty list |
| Registrars.SignalWakesGate | internal/dcm/registrar.go:203-213 | a notification makes the waiting gate look again |
| Registrars.CanFinish | internal/dcm/registrar.go:123-236 | after cancellation the registrar can be run to its end from every state |
| Registrars.RefusalBlocks | internal/dcm/registrar.go:215-219 | whenever the first registration is refused for good the registrar blocks |
| Registrars.BlockedForGood | internal/dcm/registrar.go:215-219 | from there no notification, tick or change sends anything |
| Registrars.RefusedUpdateStaysStale | internal/dcm/registrar.go:360-362 | from every reachable state that idles with a signal queued, a refused re-registration leads back to idling with none and the old payload held |
| Registrars.IdleWithNews | internal/dcm/registrar.go:168-236 | such a state is reachable |
| Registrars.SilentListerRegistersNothing | internal/dcm/registrar.go:364-384 | from every reachable state about to build, one failed lister read and a success leave an empty list registered and no new signal |
| MessagingSetup.AtMostOnePair | internal/messaging/client.go:345-384 | in every interleaving at most one cancel loop and one main loop have not been told to stop or drain |
| MessagingSetup.ReadyAtMostOnce | internal/messaging/client.go:314-332 | the ready callback fires at most once |
| MessagingSetup.EveryLoopIsAccountedFor | internal/messaging/client.go:345-384 | every loop not yet told to stop or drain belongs to the beginConsuming that started it, the client's list or Stop; once Stop has returned there is none |
| MessagingSetup.StopWaitsForHandlers | internal/messaging/client.go:523-560 | a drained loop still has a handler running after Stop returned only if Stop gave up waiting |
| MessagingSetup.NoLoopAfterCollect | internal/messaging/client.go:523-560 | once Stop has collected the loops nobody starts another |
| MessagingSetup.FailuresAreRetriedOnce | internal/messaging/client.go:221-271 | one retry loop at most, and a failed setup always has one running or coming; that the loop then sets up is SetupCanComplete |
| MessagingSetup.HandoffLeadsToRetry | internal/messaging/client.go:221-232 | in every run a failed connect attempt can hand over, and then a retry loop runs |
| MessagingSetup.SetupCanComplete | internal/messaging/client.go:237-271 | after any run, however many attempts failed, the retry loop or a new connect can complete setup, with the pair live if consumption is wanted |
| MessagingSetup.RetryLoopEnds | internal/messaging/client.go:253-271 | the retry loop ends once setup is done or the client stopped, and another may be started then |
| MessagingSetup.CallbackFires | internal/messaging/client.go:314-332 | setup that finds consumption not asked for fires the ready callback and is recorded after it; if the callback asks, the pair is live by then |
| MessagingSetup.StartConsumingWorks | internal/messaging/client.go:345-394 | once the consumers exist, a StartConsuming call can make the client consume in every run |
| MessagingSetup.StopCanComplete | internal/messaging/client.go:523-560 | in every run Stop can return with every loop told to stop and closed |
| MessagingSetup.ConsumingWhenAsked | internal/messaging/client.go:237-394 | set up, asked for and no call under way, the pair is live, unless some step was the failed consume of an outside StartConsuming made after setup's last look at the latch |
| MessagingSetup.FailedCallStrandsTheClient | internal/messaging/client.go:391-394 | from every reachable state past that last look that is idle, not consuming and not stopped, a StartConsuming whose cancel or main consume fails strands the client |
| MessagingSetup.SetUpUnasked | internal/messaging/client.go:314-332 | such states are reachable, both before and after setup is recorded as done |
| MessagingSetup.StrandedForGood | internal/messaging/client.go:237-248 | only another StartConsuming call ends it |
| Health.HistoryDecidesHealth | internal/health/monitor/statemachine.go:45-64 | for every threshold, start and history: Unavailable exactly when the trailing failures reach the threshold, otherwise the last answer; the counter is the smaller of run and threshold |
| Health.ChangesChain | internal/health/monitor/statemachine.go:45-64 | reported transitions lead without a gap from the initial to the current state |
| Health.StateMachine.RecordResult | internal/health/monitor/statemachine.go:45-64 | one result moves state and counter as the fold of the history does, and the states before and after are returned |
| Health.StateMachine.Advance | internal/health/monitor/statemachine.go:45-64 | the machine stays the fold of its whole history, and its report the list of its changes |
| Health.Monitor.Install | internal/health/monitor/monitor.go:81-95 | a fresh machine replaces any other, unless the monitor is stopped |
| Health.Monitor.RecordCheck | internal/health/monitor/monitor.go:202-233 | a result counts only against the registration it was taken for; otherwise nothing changes |
| Health.Monitor.RecordInitialCheck | internal/health/monitor/monitor.go:97-132 | the same, and tracker, state and report are unchanged once stopped or superseded |
| Health.Monitor.DeregisterProvider | internal/health/monitor/monitor.go:153-157 | exactly that registration ends |
| Health.Monitor.Observed | internal/health/monitor/monitor.go:81-233 | for every registered provider at all times: the tracker shows its state, Unavailable means what the history says, and its transitions chain |
| Forwarding.RefusedByDecidingLeaf | internal/routing/types.go:89-110 | over every tree of wrapped and joined errors a failure is final if and only if the deciding leaf (the first provider response, or else the first agent status) is below 500 and not 429 |
| Forwarding.NoStatusMeansPlain | internal/routing/types.go:89-99 | there is no status exactly when every leaf is plain |
| Forwarding.ForwardWithRetry | internal/routing/forwarder.go:230-267 | at least one call and at most max(1, MaxAttempts), all but the last failing retryably, and the outcome they lead to |
| Forwarding.StopsUniquely | internal/routing/forwarder.go:230-267 | that description determines call count and outcome |
| Forwarding.ReportedCode | internal/routing/types.go:177-202 | exhausted exactly when every allowed call was made and failed retryably; non-retryable exactly when the last call was the first to fail for good |
| Forwarding.ReportedResponse | internal/routing/types.go:177-183 | the reported provider error is the status of the first provider response in the error tree, if it has one |
| Backoff.CalculateBackoff | internal/backoff/backoff.go:10-25 | the capped power of two over the unbounded integers, with every intermediate value an int64 |
| Backoff.BackoffMonotone | internal/backoff/backoff.go:10-25 | a later attempt never waits less, and the cap holds |
| Backoff.BackoffSaturates | internal/backoff/backoff.go:10-25 | for all 64-bit delays the cap is reached by the 63rd doubling |
| Backoff.BackoffNeedsAllDoublings | internal/backoff/backoff.go:10-25 | and not before, for some |

## Left out

- JetStream, HTTP and Kubernetes calls are steps that succeed or fail; redelivery timing, AckWait, heartbeats and delivery exhaustion on the server are not modelled.
- Delivery of response events: a failed publish is only logged, so the proofs speak of decided outcomes, not of delivered events.
- In `Routing.dfy` messages are creates and deletes. Cancels that arrive on the main or retry topic are covered in `Restart.dfy`.
- Panics are modelled only for the registrar, whose supervisor restarts it. Optional dependencies (ledger, lock, forwarder, callback) are present as wired in `cmd/environment-agent/main.go`, except the forwarder, whose absence is a branch of the model.
- `Restart.dfy` runs the pass alone; its interleaving with live handlers is covered by `RoutingRace.ForwardedPastACancel` and `Agents.Agent.CancelsHold`.
- `Registrar.dfy` and `MessagingSetup.dfy` are state machines over values, not classes: fields and memory order of atomics are not captured. A request is taken not to land after its reply, and waits are arbitrary.
- MessagingSetup.EveryLoopIsAccountedFor: a loop counts as live until it is told to stop or drain. How long `Stop` waits for drained loops is not modelled, only that it may give up.
- Restart.Processor.RouteMessage: the two streams themselves are not part of the restart model; a requeued message is one whose copy was published and whose original was acked.
- The debouncer's version is an unbounded number; wrap-around of the 64-bit counter is not modelled.
- `RegisterEmbedded` and `LoadPersisted`, which run once at start-up: the registry model starts from agreement. Generated ids are taken to be fresh.
- Health.Monitor.RecordCheck: the tracker is what the monitor itself wrote; the service also writes it before registering, which the model does not order.
- JSON and CloudEvent encoding, logging, metrics, auth, validation and configuration, the Kubernetes converters, and the simpler container and ACM debouncers would add only easy members.
- `ApplyJitter` is floating point and random; delays after it are arbitrary.
