# Spotlight verification

A Dafny model of the protocol cores of the Spotlight backend and of the Minecraft mod that feeds it,
with proofs about every run of them. `dafny verify dfyconfig.toml` checks the whole project.

| file | what it models |
|---|---|
| `GenerationWork.dfy`, `Numbers.dfy` | shared entities and arithmetic |
| `GenerationQueue.dfy` | the generation queue: a value with its operations and invariant, and the object that changes in place |
| `GenerationScheduler.dfy` | the dispatcher's wake-up and drain flags as a step relation, and the scheduler object |
| `GenerationPolicy.dfy` | what warrants a provider call, claim keys, and when work is still current |
| `Pipeline.dfy` | claim, attempt, call, store, send, mark, and restart recovery, interleaved at every await and cut by crashes |
| `PipelineRuns.dfy`, `PipelineHistory.dfy` | runs of `Pipeline`: the moves of one piece of work in a row, the process actions they are, and what later moments owe to earlier ones |
| `DurableStores.dfy` | the durable tables and the coordinator and recovery procedures over them, each proved to make exactly the moves of a run |
| `BehaviourPublisher.dfy` | the retry loop of one delivery against a clock, for any cadence, and when it ends |
| `SnapshotSender.dfy`, `CommandTracker.dfy`, `EndToEnd.dfy` | the mod's lock-free sender, its bounded acceptance tracker, and both ends together |
| `EventStore.dfy` | event revision chains under interleaved writers |
| `RouterTypes.dfy`, `RouterScoring.dfy`, `RouterAssignment.dfy`, `RouterState.dfy`, `Router.dfy` | the Attention Router, stage by stage |
| `RouterHandoff.dfy` | the handoff around it |
| `Conversation.dfy` | the conversation machine, its rows, and restart |
| `ContextFit.dfy`, `Dialogue.dfy`, `UsageProjection.dfy` | prompt budget, dialogue bound, all-strong projection |

## How it is built

Code between two awaits is one step. Where pieces interleave (scheduler, pipeline, event writers,
snapshot sender) the model is a state, a step relation and an invariant, and the theorems quantify
over every run. Where the source changes an object in place, a class with the same fields is proved
equal to a specification function, and the theorems are about that function. Tables are maps with
their key and uniqueness constraints; one committed statement is one atomic step.

Main results: `Pipeline.Guarantees`, `PipelineHistory.NothingIsForgotten`,
`PipelineHistory.RestartReachesIntake`, `DurableStores.Recovery.Run`, `EndToEnd.AppliedAtMostOnce`,
`QueueSpec.NothingIsLost`, `QueueSpec.ClaimsLeast`, `SchedulerSpec.BlockedMeansDrained`,
`SnapshotSender.NothingIsStranded`, `EventStore.ChainsCoherent`, `Routers.OrderDoesNotMatter`,
`Routers.LeadersAreNotLower`, `Routers.HoldsAreHonoured`, `RouterHandoffs.RouterHandoff.RouteNow`,
`Conversations.ConversationManager.Restore`, `BehaviourPublishers.DeliveryEndsIff`,
`GenerationPolicy.TurnIdentifiedIff`, `ContextFit.BudgetHeldIff`.

Where something does not hold on every input, the exact condition is proved:

- a claim key identifies its work if and only if no identifier before a number or digest contains `|`
  (`GenerationPolicy.TurnIdentifiedIff`, `ReactionIdentifiedIff`, `PromotionIdentifiedIff` and
  `ExpiryIdentifiedIff`, over all decided work; a collision of two turns in `BarsCollide`);
- the mod keeps an NPC's sequence apart from every other's if and only if neither of its identifiers
  contains a NUL character (`CommandTracker.OwnSequenceIff`);
- releasing keeps the queue's books if and only if the slot holds that work (`QueueSpec.ReleaseValid`);
- the prompt estimate stays in budget if and only if the required sections, or the contract with a
  bare clip marker, fit (`ContextFit.BudgetHeldIff`);
- a delivery ends in every world if and only if its delays have a positive sum
  (`BehaviourPublishers.DeliveryEndsIff`); with none at all it ends if and only if its only attempt
  lands or comes too late, and otherwise spins without waiting (`EmptyCadenceEndsIff`); with zeros
  only it ends wherever sends take time (`SlowSendsEndIff`). The default is 100, 250, 500, 1000 ms.

Where code and its own words differ, the model follows the code: the comments in
`backend/orchestration/router_handoff.py` say that today's Router reports neither counts nor
diagnostics, while `backend/router/router.py` reports both, so both are checked here.

Assumptions: a sleep advances the clock by at least its length and a send never moves it back; the
Router is called through one handoff only; snapshots and messages are already validated (unique NPC
ids, `candidate_count` equal to the number of candidates, bounds on the signals); the Router's
configuration is one its constructor accepts.

## Model

| member | source | states |
|---|---|---|
| QueueSpec.EnqueueValid | backend/orchestration/generation_queue.py:78-90 | taking work in keeps the books: claimed keys are exactly those waiting or in flight, tier counters are true counts within limits, a waiting restatable item is its NPC's newest arrival |
| QueueSpec.EvictValid | backend/orchestration/generation_queue.py:141-146 | eviction keeps the same books, whatever the predicate |
| QueueSpec.AtMostOneSuperseded | backend/orchestration/generation_queue.py:84-90 | one delivery evicts at most one item, never a player turn and always of the same NPC, so reporting only the first loses nothing |
| QueueSpec.TakesIn | backend/orchestration/generation_queue.py:78-90 | new work is taken in exactly when its key is unclaimed; then it waits last, and of what waited only the non-turn work of the same NPC of the same session is gone |
| QueueSpec.ClaimsLeast | backend/orchestration/generation_queue.py:92-111 | what is handed out is not blocked by its NPC or by its tier's limit; no unblocked item is Focused unless it is too, and none of its tier arrived earlier; nothing is handed out only when the total binds or everything is blocked |
| QueueSpec.ClaimNextValid | backend/orchestration/generation_queue.py:92-111 | handing work out keeps the books and every limit |
| QueueSpec.ReleaseValid | backend/orchestration/generation_queue.py:113-117 | releasing keeps the books if and only if the NPC's slot holds that key in that tier |
| QueueSpec.WorkConserving | backend/orchestration/generation_queue.py:92-111 | when the total covers both tier limits it never binds: nothing is handed out exactly when each waiting item has work of its NPC running or its tier's limit reached |
| QueueSpec.NothingRunningStarts | backend/orchestration/generation_queue.py:148-151 | with nothing in flight and positive limits, some queued work starts exactly when any waits |
| QueueSpec.NothingIsLost | backend/orchestration/generation_queue.py:78-146 | over every run of operations, accepted work is exactly what waits, is in flight, was released or was reported as evicted |
| QueueSpec.EmptyBalanced | backend/orchestration/generation_queue.py:54-65 | the empty queue starts those books balanced |
| GenerationQueues.GenerationQueue.constructor | backend/orchestration/generation_queue.py:54-65 | a new queue is empty and valid |
| GenerationQueues.GenerationQueue.Offer | backend/orchestration/generation_queue.py:78-90 | the in-place update equals the specified one, and the queue stays valid |
| GenerationQueues.GenerationQueue.ClaimNext | backend/orchestration/generation_queue.py:92-111 | the in-place update equals the specified one, and the queue stays valid |
| GenerationQueues.GenerationQueue.Release | backend/orchestration/generation_queue.py:113-117 | the in-place update equals the specified one; valid afterwards exactly when the work was held |
| GenerationQueues.GenerationQueue.Cancel | backend/orchestration/generation_queue.py:119-121 | drops and returns exactly the matching waiting work, in order |
| GenerationQueues.GenerationQueue.EvictMatching | backend/orchestration/generation_queue.py:141-146 | the loop over removals leaves and returns exactly what a filter would |
| SchedulerSpec.StartAllOk | backend/orchestration/generation_scheduler.py:153-161 | a wake-up starts work until the queue hands out nothing more, and moves it from waiting to in flight one for one |
| SchedulerSpec.StartedMoves | backend/orchestration/generation_scheduler.py:153-161 | what one wake-up starts is, as a multiset, exactly what left the waiting line, and each of it holds its NPC's slot afterwards |
| SchedulerSpec.StepOk | backend/orchestration/generation_scheduler.py:112-231 | every segment between two awaits keeps the wake-up and drain flags honest |
| SchedulerSpec.SubmitTakesIn | backend/orchestration/generation_scheduler.py:112-138 | submitted work whose key is unclaimed waits last, with the wake-up set and the drain flag not; work already claimed changes nothing |
| SchedulerSpec.CancelDropsMatching | backend/orchestration/generation_scheduler.py:140-146 | cancelling drops exactly the matching waiting work, frees its keys, and stops nothing that runs |
| SchedulerSpec.BlockedMeansDrained | backend/orchestration/generation_scheduler.py:153-166 | no lost wake-up: in every reachable state with the dispatcher blocked, no task and no cancellation under way, the queue is empty and the drain flag set |
| SchedulerSpec.DrainIsNeverEarly | backend/orchestration/generation_scheduler.py:108-110 | the drain flag is set only with nothing waiting, in flight or running |
| SchedulerSpec.InternalProgress | backend/orchestration/generation_scheduler.py:153-231 | each step the scheduler takes by itself lowers a measure |
| SchedulerSpec.InternalRunsEnd | backend/orchestration/generation_scheduler.py:153-231 | left to itself it takes only so many steps |
| SchedulerSpec.StuckMeansDrained | backend/orchestration/generation_scheduler.py:108-110 | where it can take none, it is drained and `drain` returns |
| GenerationSchedulers.StartReady | backend/orchestration/generation_scheduler.py:157-160 | the dispatch loop returns exactly the works that repeated claims hand out, in order, and leaves the queue they leave |
| GenerationSchedulers.GenerationScheduler.Submit | backend/orchestration/generation_scheduler.py:112-138 | one submission does to queue and flags what its step says |
| GenerationSchedulers.GenerationScheduler.BeginCancel | backend/orchestration/generation_scheduler.py:140-146 | drops exactly the matching work and leaves the settling to the end |
| GenerationSchedulers.GenerationScheduler.EndCancel | backend/orchestration/generation_scheduler.py:147-151 | settles the drain flag once the dropped work is abandoned |
| GenerationSchedulers.GenerationScheduler.DispatchReadyWork | backend/orchestration/generation_scheduler.py:153-161 | one wake-up clears the flag, starts exactly the works that can start, in order, and settles |
| GenerationSchedulers.GenerationScheduler.ReleaseWork | backend/orchestration/generation_scheduler.py:184-185 | a task's last action frees its slot |
| GenerationSchedulers.GenerationScheduler.FinishTask | backend/orchestration/generation_scheduler.py:163-166 | only the completion callback takes a task off the running set, and it wakes the dispatcher |
| GenerationSchedulers.GenerationScheduler.SettleFlag | backend/orchestration/generation_scheduler.py:229-231 | sets the drain flag exactly when nothing is left |
| GenerationPolicy.KeyIdentifiesIff | backend/orchestration/generation_policy.py:104-116 | among all keys with as many identifiers, of any text, a claim key identifies its identifiers exactly when none contains the separator |
| GenerationPolicy.BarsCollide | backend/orchestration/generation_policy.py:104-116 | two different turns share a key when an identifier contains the separator |
| GenerationPolicy.KeyText | backend/orchestration/generation_policy.py:104-116 | the text of a key: trigger, session, NPC and its own identifiers in that order, then the prompt version |
| GenerationPolicy.TurnKeysDiffer | backend/orchestration/generation_policy.py:139-142 | two answered turns of one session, NPC and conversation share a key exactly when they are the same turn |
| GenerationPolicy.TurnIdentifiedIff | backend/orchestration/generation_policy.py:139-142 | among all answered turns, a key identifies its turn exactly when none of its four identifiers contains the separator |
| GenerationPolicy.ReactionIdentifiedIff | backend/orchestration/generation_policy.py:182-195 | among all event reactions, a key identifies NPC, event and revision exactly when its session, NPC and event identifiers have no separator |
| GenerationPolicy.PromotionIdentifiedIff | backend/orchestration/generation_policy.py:276-290 | among all answered promotions, a key identifies NPC and snapshot exactly when its session and NPC identifiers have no separator |
| GenerationPolicy.ExpiryIdentifiedIff | backend/orchestration/generation_policy.py:310-327 | among all answered expiries of digest-named commands, a key identifies NPC and command under the same condition |
| GenerationPolicy.KeyNamesTrigger | backend/orchestration/generation_policy.py:104-116 | whatever the identifiers, equal keys come from the same trigger |
| GenerationPolicy.LastIdentifierDecides | backend/orchestration/generation_policy.py:104-116 | with everything before it equal, keys agree exactly when the last identifier does |
| GenerationPolicy.EventKeysDiffer | backend/orchestration/generation_policy.py:182-188 | for one NPC and event, keys agree exactly on the same revision |
| GenerationPolicy.RepeatsShareAKey | backend/orchestration/generation_policy.py:280-317 | for one NPC, two promotions share a key exactly when one snapshot noticed both, two expiries exactly when the same command expired |
| GenerationPolicy.DecidedWorkGenerates | backend/orchestration/generation_policy.py:33-37 | every decided piece of work has a generating tier and something to speak about, which the queue and scheduler rely on |
| GenerationPolicy.DecideForEvent | backend/orchestration/generation_policy.py:148-203 | every NPC with a part in an event is answered exactly once, by work for it or by the reason there is none; work in the order of the parts, refusals in that order or sorted by name when one reason covers the event |
| GenerationPolicy.EveryoneAnswered | backend/orchestration/generation_policy.py:148-203 | work and refusals together answer each part once, and no NPC has both |
| GenerationPolicy.SortedIsSorted | backend/orchestration/generation_policy.py:158-170 | sorting refusals by name keeps every one of them |
| GenerationPolicy.AnsweredInOrder | backend/orchestration/generation_policy.py:177-203 | work and refusals come in the order of the parts they answer |
| GenerationPolicy.TurnDecidedIff | backend/orchestration/generation_policy.py:119-145 | a turn is answered exactly when its target is routed to a generating tier; the work is its target's, of its session, about that turn |
| GenerationPolicy.PartDecidedIff | backend/orchestration/generation_policy.py:148-203 | a part in an event is answered exactly when the event has not ended or been cancelled and its NPC is routed to a generating tier; the work is about that event and those roles |
| GenerationPolicy.PromotionDecidedIff | backend/orchestration/generation_policy.py:248-293 | for an honest assignment: nothing exactly without a strict rise from a known tier, held back exactly while unexpired behaviour runs, answered exactly when none does and there is something to speak about |
| GenerationPolicy.ExpiryDecidedIff | backend/orchestration/generation_policy.py:296-329 | answered exactly when the NPC is in a generating tier, its latest behaviour has run out, and there is something to speak about |
| GenerationPolicy.StillCurrentIff | backend/orchestration/generation_policy.py:216-245 | work of any trigger is current exactly when its NPC is routed to a generating tier, its event is stored and not over, an event reaction's revision is the stored one, and an expiry's command is still the latest |
| GenerationPolicy.ExpiryStillCurrentIff | backend/orchestration/generation_policy.py:216-245 | an expiry's work is current exactly when the same focus would be decided on again under the same key |
| GenerationPolicy.TurnStillCurrentIff | backend/orchestration/generation_policy.py:216-245 | a turn's work is still current exactly when the latest outcome would decide it again, under the same key |
| GenerationPolicy.EventStillCurrentIff | backend/orchestration/generation_policy.py:216-245 | event work is still current exactly when the stored revision and latest outcome would decide the same key again |
| GenerationPolicy.PromotionIffUpward | backend/orchestration/generation_policy.py:248-275 | for assignments whose change flag is honest, the promotion guards come down to a strictly upward move from a known tier |
| GenerationPolicy.RoutedPromotions | backend/router/assignment.py:102-112 | every assignment the Router returns is honest, so on its results promotions are exactly the rises from the tier it remembered |
| Pipeline.MovesOk | backend/orchestration/generation_scheduler.py:187-212 | each atomic move of one running work keeps the durable invariant and touches no other NPC or key |
| Pipeline.InsertNumbers | backend/orchestration/command_store.py:44-73 | storing under the next number keeps each NPC's numbers exactly 1..n |
| Pipeline.ActionOk | backend/orchestration/recovery.py:94-147 | every action of the process, a crash included, keeps the invariant |
| Pipeline.Always | backend/main.py:117-121 | the invariant holds at every moment of every execution over any number of processes |
| Pipeline.Guarantees | backend/orchestration/generation_coordinator.py:252-316 | per NPC one unfinished row and numbers exactly 1..n; no uniqueness clash; at most one provider call and one store per claim key; publication never goes back in sequence and always carries the stored bytes |
| Pipeline.RecoveryCompletes | backend/orchestration/recovery.py:94-147 | a completed recovery leaves no open attempt and no pending command |
| Pipeline.RecoveryCallsNobody | backend/orchestration/recovery.py:104-130 | no step before intake opens calls a provider |
| Pipeline.IntakeOpensClean | backend/main.py:117-124 | intake opens only on tables with nothing unfinished |
| PipelineHistory.NothingIsForgotten | backend/orchestration/deduplication.py:31-45 | between any two moments of an execution, crashes included: calls, stores and sends only extend; claims and attempts stay, closed ones with their outcome; commands keep NPC, number and bytes, settled ones their status |
| PipelineHistory.OnceIsForEver | backend/orchestration/command_store.py:52-73 | what was called or stored for a key by one moment is not called or stored again by any later one, and its claim stays |
| PipelineHistory.NoStoreClashes | backend/orchestration/command_store.py:44-73 | whenever work is about to store its command, no row has its identity and every row of its NPC a smaller number |
| PipelineHistory.AlwaysTruthful | backend/orchestration/behaviour_publisher.py:104-118 | at every moment a published command has had a send that landed, and a succeeded attempt a provider call |
| PipelineHistory.RestartReachesIntake | backend/main.py:117-124 | from every reachable state, a crash can be followed by recovery steps alone that open intake with nothing unfinished and everything durable kept |
| PipelineHistory.SubmittedIsTakenUp | backend/orchestration/generation_scheduler.py:112-161 | while serving with nothing else to do, submitted work starts at its first check |
| PipelineRuns.WalkKeeps | backend/orchestration/generation_scheduler.py:187-212 | however many moves one piece of work makes, the durable invariant holds, every other NPC and key is as it was, and no call, store or send is taken back |
| PipelineRuns.WalkIsChain | backend/orchestration/generation_scheduler.py:187-212 | the moves of running work are actions the interleaved process allows, one after another |
| PipelineRuns.ServedIsChain | backend/orchestration/generation_scheduler.py:187-212 | work served from its first check to its end, slot released, is a fragment of an execution of the process |
| PipelineRuns.AnswersAreChain | backend/orchestration/recovery.py:104-130 | answering open attempts one after another is a chain of recovery's own actions: no intake, no dispatch, no crash |
| PipelineRuns.DeliveriesAreChain | backend/orchestration/recovery.py:132-147 | so is delivering stored commands one after another |
| PipelineRuns.RecoveryIsChain | backend/orchestration/recovery.py:94-147 | a whole recovery is an execution of the process from its start to open intake |
| DurableStores.GenerationClaims.Claim | backend/orchestration/deduplication.py:31-45 | insert or ignore: won exactly by the first to ask |
| DurableStores.ProviderAttempts.Open | backend/orchestration/deduplication.py:65-88 | an existing attempt is left alone |
| DurableStores.ProviderAttempts.Close | backend/orchestration/deduplication.py:90-97 | sets the outcome of an existing attempt and adds none |
| DurableStores.ProviderAttempts.Unresolved | backend/orchestration/deduplication.py:99-118 | returns each open attempt exactly once and nothing else |
| DurableStores.CommandStore.NextSequence | backend/orchestration/command_store.py:44-50 | one more than the greatest number among the NPC's rows, 1 when it has none |
| DurableStores.CommandStore.Store | backend/orchestration/command_store.py:52-73 | inserts a pending row, or on a clash of identity or number refuses and stores nothing |
| DurableStores.CommandStore.SetStatus | backend/orchestration/command_store.py:110-117 | changes one existing row's status and nothing else |
| DurableStores.CommandStore.Unpublished | backend/orchestration/command_store.py:94-99 | returns each pending command exactly once and nothing else |
| DurableStores.NeverClashes | backend/orchestration/command_store.py:44-73 | work that has just numbered its command meets neither uniqueness constraint |
| DurableStores.Publisher.Deliver | backend/orchestration/behaviour_publisher.py:81-129 | exactly the protocol's moves for its course: one failed send per failure, then a send that lands and the published mark, or the expired mark; of the rows only this one's status changes, to PUBLISHED exactly when it landed |
| DurableStores.LoopIsDelivery | backend/orchestration/behaviour_publisher.py:81-101 | however the retry loop of `BehaviourPublishers` ends, its sends and its verdict are one of these deliveries |
| DurableStores.Publisher.Publish | backend/orchestration/behaviour_publisher.py:61-79 | exactly the protocol's moves: one row stored under its number, delivered and settled, or nothing stored or sent when the payload is too large; one more store attempted, nobody called |
| DurableStores.GenerationCoordinator.Command | backend/orchestration/generation_coordinator.py:464-486 | the built command carries its NPC's next number, as the protocol's move says |
| DurableStores.GenerationCoordinator.Execute | backend/orchestration/generation_scheduler.py:187-212 | exactly the walk of the protocol its circumstances dictate, and the exact rows it leaves: none if stale or claimed before, the claim alone if the world is unknown, a failed attempt if not routed here, otherwise the attempt by its outcome and one settled command with the answer's bytes under the next number unless late or too large; the provider called exactly in that last case |
| DurableStores.GenerationCoordinator.AfterCall | backend/orchestration/generation_coordinator.py:252-316 | after the call: the attempt closed by its outcome, and one settled command with the answer's bytes under the next number unless it is too late or too large |
| DurableStores.Recovery.Run | backend/orchestration/recovery.py:94-102 | a recovery the protocol allows: nothing unfinished afterwards, nobody called; each attempt open at the start is failed and its own fallback stored with its bytes and settled, unless too large; each command pending at the start is settled as its delivery went; no other command changes; no send taken back |
| DurableStores.Recovery.AnswerUnresolvedAttempts | backend/orchestration/recovery.py:104-130 | answers each open attempt exactly once with its own fallback, along the protocol's moves; afterwards none is open, none was added, earlier commands are as they were, and nobody was called |
| DurableStores.Recovery.Answer | backend/orchestration/recovery.py:104-130 | closes exactly one attempt as failed, then stores and settles its fallback under the NPC's next number unless it is too large, and changes no other row |
| DurableStores.Recovery.RepublishStoredCommands | backend/orchestration/recovery.py:132-147 | delivers each pending command exactly once; afterwards it is published exactly when its delivery landed and expired otherwise, and no other row has changed |
| BehaviourPublishers.ElapsedNext | backend/orchestration/behaviour_publisher.py:88-101 | each attempt comes its own delay after the one before, across round boundaries |
| BehaviourPublishers.LifeRunsOut | backend/orchestration/behaviour_publisher.py:88-101 | by attempt k * ceil(R / D) the delays alone have used R milliseconds |
| BehaviourPublishers.DeliveryKeepsItsPromises | backend/orchestration/behaviour_publisher.py:81-101 | after any number of passes in any world: every send carries the stored bytes, starts before expiry and no earlier than the cadence allows; only the last can have landed, exactly when the verdict is delivered; expired means the time is over; at most k * ceil(R / D) sends when D > 0 |
| BehaviourPublishers.DeliveryEnds | backend/orchestration/behaviour_publisher.py:88-101 | with a positive sum of delays every delivery has ended after k * ceil(R / D) + 1 passes, whatever the world does |
| BehaviourPublishers.DeliveryEndsIff | backend/orchestration/behaviour_publisher.py:88-101 | a current command's delivery ends in every world if and only if the sum of the delays is positive |
| BehaviourPublishers.EmptyCadenceSpins | backend/orchestration/behaviour_publisher.py:88-101 | with no delays, clock, sends and verdict never change after the first pass |
| BehaviourPublishers.EmptyCadenceEndsIff | backend/orchestration/behaviour_publisher.py:88-101 | with no delays, a delivery ends exactly when its one attempt finds the command expired or gets through |
| BehaviourPublishers.SlowSendsEndIff | backend/orchestration/behaviour_publisher.py:88-101 | where every send takes time, a current command's delivery ends in every world if and only if there is any delay, zero or not |
| BehaviourPublishers.KeepsToTheCadence | backend/orchestration/behaviour_publisher.py:88-101 | where sleeps end on time and sends fail at once, attempt n starts exactly when the cadence says, until one starts too late |
| BehaviourPublishers.BehaviourPublisher.Attempt | backend/orchestration/behaviour_publisher.py:92-100 | for any cadence: sleeps, marks an expired command EXPIRED without a send, or sends once and marks it PUBLISHED exactly if that landed; clock and wire as the specified step |
| BehaviourPublishers.BehaviourPublisher.PassOver | backend/orchestration/behaviour_publisher.py:91-100 | one pass over the delays does exactly what the specified pass does; the status becomes PUBLISHED on delivery, EXPIRED on expiry, and stays while still trying |
| BehaviourPublishers.BehaviourPublisher.Deliver | backend/orchestration/behaviour_publisher.py:81-129 | for any cadence and any number of passes, clock and sends are where the specified passes leave them, and the status is PUBLISHED exactly on delivery, EXPIRED on expiry, unchanged while still trying |
| SnapshotSender.StepOk | minecraft-fabric-mod/src/main/java/com/example/spotlight/transport/HttpPublisher.java:62-97 | each atomic operation of any thread keeps one owner, order, and a thread responsible for what waits |
| SnapshotSender.SendsAreOrdered | minecraft-fabric-mod/src/main/java/com/example/spotlight/transport/HttpPublisher.java:62-97 | one snapshot request in flight, none sent twice, publication order kept, sequence numbers strictly rising |
| SnapshotSender.NumbersUsedOnce | minecraft-fabric-mod/src/main/java/com/example/spotlight/transport/HttpPublisher.java:94-97 | snapshots, events and turns share one count: no number is taken twice and none is skipped |
| SnapshotSender.NothingIsStranded | minecraft-fabric-mod/src/main/java/com/example/spotlight/transport/HttpPublisher.java:80-92 | once every thread is done the newest published snapshot has been sent, last of all |
| SnapshotSender.MoveProgress | minecraft-fabric-mod/src/main/java/com/example/spotlight/transport/HttpPublisher.java:73-92 | every move of a thread lowers a measure |
| SnapshotSender.MovesEnd | minecraft-fabric-mod/src/main/java/com/example/spotlight/transport/HttpPublisher.java:73-92 | with no new producer only so many moves are left |
| CommandTracker.Tracker.Evaluate | minecraft-fabric-mod/src/main/java/com/example/spotlight/command/CommandAcceptanceTracker.java:19-30 | against the whole applied history: a duplicate exactly when the identity is among the newest remembered ones, accepted exactly when it is not and the sequence is above everything applied for its NPC |
| CommandTracker.Tracker.MarkApplied | minecraft-fabric-mod/src/main/java/com/example/spotlight/command/CommandAcceptanceTracker.java:32-39 | extends the applied history and never holds more identities than the cap |
| CommandTracker.Tracker.EvictOldest | minecraft-fabric-mod/src/main/java/com/example/spotlight/command/CommandAcceptanceTracker.java:35-38 | keeps exactly the newest identities |
| CommandTracker.Tracker.Deliver | minecraft-fabric-mod/src/main/java/com/example/spotlight/command/CommandAcceptanceTracker.java:19-39 | a delivery changes the history exactly as the specification says |
| CommandTracker.AppliedGrows | minecraft-fabric-mod/src/main/java/com/example/spotlight/command/CommandAcceptanceTracker.java:24-34 | applying an accepted command keeps each NPC's sequences rising and moves only that NPC's last |
| CommandTracker.HistoryIncreasing | minecraft-fabric-mod/src/main/java/com/example/spotlight/command/CommandAcceptanceTracker.java:19-39 | every applied history rises in sequence per NPC and contains only delivered commands |
| CommandTracker.AppliedAtMostOnce | minecraft-fabric-mod/src/main/java/com/example/spotlight/command/CommandAcceptanceTracker.java:19-39 | for any loss, repetition or order, and after eviction, no identity is applied twice and each NPC's sequences strictly rise |
| CommandTracker.OwnSequenceIff | minecraft-fabric-mod/src/main/java/com/example/spotlight/command/CommandAcceptanceTracker.java:19-39 | an NPC has its sequence to itself exactly when neither of its identifiers contains the separator of the key |
| CommandTracker.AppliedIff | minecraft-fabric-mod/src/main/java/com/example/spotlight/command/CommandAcceptanceTracker.java:19-39 | after any deliveries, an executable command of such an NPC is applied exactly when none of the last 4096 applied has its identity and its sequence is positive and above all applied for that NPC |
| EndToEnd.AppliedAtMostOnce | backend/orchestration/command_store.py:52-73 | what the crash-prone backend sends, delivered anyhow, is applied at most once per command and in rising sequence per NPC, and each applied command was sent for that NPC under that number |
| EventStore.InsertIsRecord | backend/ingestion/event_store.py:80-87 | a suspended call that still inserts commits exactly what an undisturbed call would |
| EventStore.UndisturbedIsRecord | backend/ingestion/event_store.py:55-87 | a call nobody interrupts ends with the table and the answer of one call alone |
| EventStore.LateInsertClashes | backend/ingestion/event_store.py:80-87 | an insert clashes exactly when its revision or its message has been stored since the writer looked |
| EventStore.AppliedIff | backend/ingestion/event_store.py:55-87 | in a coherent table a message is taken in exactly when it is new, its revision not stored, and it starts an event or follows a stored revision that is not over and not later; a duplicate exactly when the very same event is stored; witnesses as its predecessor's, or its own at revision 1 |
| EventStore.AdvanceOk | backend/ingestion/event_store.py:55-87 | each step of each writer keeps every chain and only adds rows |
| EventStore.SameAsOneAtATime | backend/ingestion/event_store.py:55-87 | interleaved writers leave what the committed calls would have left one after another |
| EventStore.Precedes | backend/ingestion/event_store.py:156-181 | an earlier revision is stored, not later in time, has the same witnesses, and is not terminal |
| EventStore.ChainsCoherent | backend/ingestion/event_store.py:55-87 | every chain has revisions exactly 1..n, time not running back, one witness set, a terminal status only at n, and message ids are unique |
| EventStore.RedeliveryChangesNothing | backend/ingestion/event_store.py:60-71 | a redelivered stored message never writes, under any interleaving, and is a duplicate exactly when its content is the stored one |
| EventStores.Events.Delivered | backend/ingestion/event_store.py:118-124 | finds the row a message was delivered as exactly when there is one |
| EventStores.Events.LatestOf | backend/ingestion/event_store.py:89-96 | returns the row of the greatest stored revision |
| EventStores.Events.Record | backend/ingestion/event_store.py:55-87 | one call alone does exactly the specified update, only adds rows, and keeps the chains |
| EventStores.RecordKeeps | backend/ingestion/event_store.py:55-87 | recording keeps chains coherent and changes the table exactly when it applies |
| RouterTypes.TextLessIff | backend/router/graph.py:66-77 | text compares by the first difference, and a proper prefix comes first |
| RouterScoring.AttentionIsMonotone | backend/router/scoring.py:47-64 | more of any signal never lowers a direct score |
| RouterScoring.ScoreIsBounded | backend/router/scoring.py:35-64 | a score lies between nothing and the sum of the weights, plus exactly the bonus for the conversation target; an unnoticed NPC scores zero |
| RouterScoring.EachSignalPaysItsWeight | backend/router/scoring.py:53-64 | a signal at full strength with the others at zero is worth exactly its own weight; proximity is zero exactly out of range |
| RouterScoring.SignalsInBetween | backend/router/scoring.py:35-46 | between its ends a signal is a straight line in distance |
| RouterScoring.EachSignalCountsForItself | backend/router/scoring.py:47-64 | changing event relevance or recency alone moves the score by that signal's weight for each unit |
| RouterScoring.ViewCountsForItself | backend/router/scoring.py:47-64 | so does nearness to the centre of the view; being the conversation target is worth the bonus |
| RouterScoring.DistanceCountsForItself | backend/router/scoring.py:47-64 | so does distance, measured against the greatest relevant one |
| RouterScoring.SignalIsBounded | backend/router/graph.py:59-65 | a signal is positive and exactly the source's direct score, capped at one, times the edge's weight after decay |
| RouterScoring.CarriesIff | backend/router/graph.py:45-65 | an edge carries a signal exactly when it is active, joins two different candidates, its kind has a weight, decay lets something through and its source draws attention |
| RouterScoring.NamedIffRaised | backend/router/graph.py:82-93 | the final score is the larger part, and a source is named exactly when its signal raised the score |
| RouterScoring.StrongestSignals | backend/router/graph.py:40-77 | the edge loop finds for every target the maximum contribution, ties broken by the smallest source |
| RouterScoring.StrongestUnique | backend/router/graph.py:66-77 | that maximum is unique, so edge order cannot matter |
| RouterScoring.StrongestIsGreatest | backend/router/graph.py:66-77 | no edge into the target carries a stronger signal, nor as strong a one from a source whose name comes first |
| RouterScoring.OneMoreEdge | backend/router/graph.py:45-77 | the comparison in the loop extends the maximum by one edge |
| RouterScoring.StrongestTo | backend/router/graph.py:40-77 | the maximum exists as a function of the set of edges |
| RouterScoring.OneHopOnly | backend/router/graph.py:32-36 | only edges into a target, and direct scores at their sources, reach it: exactly one hop |
| RouterAssignment.OutranksStrict | backend/router/assignment.py:120-134 | the rank key orders any two distinct candidates one way only |
| RouterAssignment.OutranksTransitive | backend/router/assignment.py:120-134 | and is transitive, so it is a strict total order |
| RouterAssignment.RankedIsRanking | backend/router/assignment.py:41-49 | sorting returns the same candidates in strict rank order |
| RouterAssignment.PositionCountsAhead | backend/router/assignment.py:50-60 | a position in the ranked eligible list is the number of eligible candidates that outrank it |
| RouterAssignment.FillFocused | backend/router/assignment.py:62-69 | with the target already in place, the loop takes exactly the first min(capacity, eligible) of the ranking |
| RouterAssignment.FillReactive | backend/router/assignment.py:71-78 | the second loop takes exactly the next block |
| RouterAssignment.AssignTiers | backend/router/assignment.py:22-117 | every candidate, in source order, gets the tier its number of better eligible candidates earns; each assignment names its candidate, the tier it had, a change exactly when that was another one, and scores that are the larger of direct and propagated |
| RouterAssignment.TiersAreFull | backend/router/assignment.py:62-78 | Focused holds min(capacity, eligible) and Reactive min(capacity, the rest) |
| RouterAssignment.NoInversion | backend/router/assignment.py:50-91 | no candidate is placed below one it outranks |
| RouterAssignment.BetterIsNotLower | backend/router/assignment.py:120-134 | target first, then score, then the tier before (Focused, Reactive, Ambient, none), then distance, then name: whoever comes first is not placed lower |
| RouterAssignment.TargetIsFocused | backend/router/assignment.py:62-64 | a candidate conversation target is Focused whenever Focused has room |
| RouterAssignment.RaisingNeverLowers | backend/router/assignment.py:50-91 | raising one candidate's ranking score alone never lowers its tier |
| RouterStates.NextRemembers | backend/router/state.py:66-87 | one more route extends the run of an NPC that kept its tier and starts one otherwise |
| RouterStates.RunBeganOnce | backend/router/state.py:66-72 | a history fixes the timestamp that began the current unbroken run |
| RouterStates.TiersByIs | backend/router/state.py:58-64 | with one assignment for each NPC, what is recorded of it is its own tier |
| RouterStates.CurrentStates | backend/router/state.py:65-88 | the loop builds exactly one new state per observed NPC |
| RouterStates.RouterState.Record | backend/router/state.py:52-91 | appends the decision to the history and keeps every remembered time true to it |
| RouterStates.RouterState.ResetSession | backend/router/state.py:93-98 | forgets every world of one session and nothing else |
| Routers.HoldLastsExactly | backend/router/hysteresis.py:40-64 | a hold lasts exactly its length from entry, even if the clock steps back, and adds exactly its tier's bonus |
| Routers.ScoreSnapshot | backend/router/scoring.py:91-97 | scores every candidate once, in source order |
| Routers.DirectScores | backend/router/graph.py:38-40 | the dictionary holds each candidate's direct score under its identity |
| Routers.RankingScores | backend/router/router.py:66-83 | the dictionary holds each candidate's final score plus what its hold adds |
| Routers.AssignmentsFor | backend/router/router.py:54-100 | the stages compose to a decision that depends only on the sets of candidates and edges and the remembered states |
| Routers.Router.Route | backend/router/router.py:42-137 | refuses exactly the stale snapshots and changes nothing then; otherwise decides, counts and records; every hold begun in the history is honoured; the result answers this snapshot, reports a change exactly where the remembered tier was another one, and the history records every NPC in its assigned tier |
| Routers.Router.ResetSession | backend/router/router.py:139-141 | forgets one session |
| Routers.OrderDoesNotMatter | backend/router/router.py:54-100 | permuting candidates and edges changes no NPC's tier, scores or propagation source |
| Routers.HoldKeepsFocus | backend/router/hysteresis.py:42-64 | for the history of one session and world: an eligible NPC whose unbroken Focused run began less than a hold ago loses Focused in a result only to a full tier of other candidates, each the target, ranked above its final score plus the bonus, or equal to that and Focused before |
| Routers.HoldsAreHonoured | backend/router/router.py:54-100 | every decision on remembered states honours every hold so |
| Routers.RankedAs | backend/router/router.py:66-100 | what a result says of a candidate is what it was ranked by, and its tier follows from that |
| Routers.ResultsReport | backend/router/assignment.py:102-117 | each assignment of a result reports its candidate's remembered tier, an honest change flag, its direct score, and the larger of direct and propagated |
| Routers.LeadersAreNotLower | backend/router/assignment.py:120-134 | in every result, whoever leads by target, held score, tier before, distance or name is not placed lower |
| Routers.StillHeld | backend/router/state.py:66-87 | a run the history shows is the one the remembered state dates, so its hold still lasts |
| Routers.CountsAreTrue | backend/router/router.py:102-120 | Focused holds as many of the candidates ranked above the minimum, or targeted, as it has room for, Reactive as many of the rest; nobody else has a tier; the three counts sum to the candidates |
| Routers.TallyIsSize | backend/router/router.py:102-115 | counting assignments of a tier gives the number of candidates in it |
| RouterHandoffs.RejectAssignments | backend/orchestration/router_handoff.py:303-318 | accepts exactly one assignment per candidate and nobody else; names a real fault otherwise |
| RouterHandoffs.RejectReportedTotals | backend/orchestration/router_handoff.py:321-367 | accepts exactly totals that agree with the assignments and capacities that hold; names a real fault otherwise |
| RouterHandoffs.RejectReason | backend/orchestration/router_handoff.py:273-318 | accepts exactly the results that answer the snapshot and agree with themselves; every refusal is true |
| RouterHandoffs.RouterIsAcceptable | backend/orchestration/router_handoff.py:273-367 | whatever the real Router decides is acceptable |
| RouterHandoffs.RouterHandoff.constructor | backend/orchestration/router_handoff.py:60-71 | starts idle with nothing routed |
| RouterHandoffs.RouterHandoff.Submit | backend/orchestration/router_handoff.py:103-110 | the newer of two snapshots waits under the key, everything else waits as before, and the wake-up is set |
| RouterHandoffs.RouterHandoff.RouteSnapshot | backend/orchestration/router_handoff.py:214-243 | with the real Router every snapshot that is not behind is ROUTED; no failure status is reachable; the outcome carries the true counts and capacities |
| RouterHandoffs.RouterHandoff.RouteOne | backend/orchestration/router_handoff.py:173-191 | routes unless a newer sequence already won; afterwards only newer snapshots wait under the key, all others still wait, and outcomes and routed sequences agree |
| RouterHandoffs.RouterHandoff.RouteNow | backend/orchestration/router_handoff.py:112-140 | always answers with a ROUTED outcome at least as new as the request, decided from this snapshot unless a newer one had won; only newer snapshots wait under its key afterwards; no routed sequence goes back |
| RouterHandoffs.RouterHandoff.RunWorker | backend/orchestration/router_handoff.py:164-171 | each worker segment takes one waiting snapshot and routes it or finds it overtaken, or goes idle; no other key moves |
| RouterHandoffs.RouterHandoff.ResetSession | backend/orchestration/router_handoff.py:145-159 | forgets one session's waiting, answered and routed state and the Router's, and nothing else |
| RouterHandoffs.StillRemembered | backend/orchestration/router_handoff.py:164-197 | routing the popped snapshot, or finding it overtaken, covers whatever its key had asked for |
| RouterHandoffs.RouterHandoff.IdleMeansRouted | backend/orchestration/router_handoff.py:161-171 | when idle, or blocked at its wait, every submitted sequence since the last reset has been routed or overtaken |
| Conversations.ResolveUnconfirmed | backend/orchestration/conversation_manager.py:236-245 | the waiting turn is armed exactly when it addresses what is now active, and dropped otherwise |
| Conversations.ChargeKeeps | backend/orchestration/conversation_manager.py:104-154 | every admitted player turn stays exactly one of triggered, discarded or waiting |
| Conversations.TouchKeeps | backend/orchestration/conversation_store.py:88-108 | the upsert of a thread row agrees with memory's first start and latest turn |
| Conversations.PutKeeps | backend/orchestration/conversation_store.py:56-86 | the upsert of a session row agrees with memory |
| Conversations.RestoreReproduces | backend/orchestration/conversation_manager.py:72-95 | memory rebuilt from the rows gives every observable answer as before |
| Conversations.ForgetKeeps | backend/orchestration/conversation_manager.py:97-102 | forgetting after the rows are gone leaves memory and rows in agreement |
| Conversations.ConversationStore.Save | backend/orchestration/conversation_store.py:56-86 | writes one session's row |
| Conversations.ConversationStore.SaveStart | backend/orchestration/conversation_store.py:88-108 | never moves the start of a thread it already holds |
| Conversations.ConversationManager.ObserveSnapshot | backend/orchestration/conversation_manager.py:104-129 | the snapshot sets what is active; nothing waits afterwards; idle exactly when nothing is active; start times kept |
| Conversations.ConversationManager.SetActive | backend/orchestration/conversation_manager.py:106-125 | another conversation means ENGAGED, none means IDLE, the same one keeps its state |
| Conversations.ConversationManager.TouchThread | backend/orchestration/conversation_manager.py:114-125 | a thread's first start is kept in memory and in its row |
| Conversations.ConversationManager.Settle | backend/orchestration/conversation_manager.py:223-234 | one session changes in memory and row with its turns accounted for |
| Conversations.ConversationManager.AdmitTurn | backend/orchestration/conversation_manager.py:131-154 | a player turn is armed or takes the one waiting slot, displacing what waited; other turns change no session |
| Conversations.ConversationManager.NotePublished | backend/orchestration/conversation_manager.py:203-208 | READY with something active, IDLE without |
| Conversations.ConversationManager.NoteNotGenerated | backend/orchestration/conversation_manager.py:210-218 | leaves AWAITING_RESPONSE for ENGAGED and touches no other state |
| Conversations.ConversationManager.NoteCommandOutcome | backend/orchestration/conversation_manager.py:183-201 | only the answer to a turn moves the conversation: to READY or IDLE if it was delivered, out of AWAITING_RESPONSE if not |
| Conversations.ConversationManager.ProjectionNow | backend/orchestration/conversation_manager.py:167-181 | absent exactly when the session is idle, and never without its start time |
| Conversations.ConversationManager.Restore | backend/orchestration/conversation_manager.py:72-95 | the two loops rebuild exactly what the rows hold, and a valid manager answers as before |
| Conversations.ConversationManager.Forget | backend/orchestration/conversation_manager.py:97-102 | drops every entry of one session and changes no other |
| Conversations.SessionCleanup.Clean | backend/orchestration/session_cleanup.py:58-71 | rows deleted first, then memory forgotten: the manager is valid again, the session is fresh, and no other session changed |
| ContextFit.EstimateIsCeiling | backend/models/token_estimate.py:15-16 | the estimate is the least whole number of tokens that covers the text |
| ContextFit.FitsIffShort | backend/models/token_estimate.py:15-20 | a text fits a number of tokens exactly when it is no longer than their characters |
| ContextFit.ShedHistory | backend/context/context_builder.py:170-174 | keeps the longest suffix of history that fits, or none |
| ContextFit.HistoryLines | backend/context/context_builder.py:268-271 | one line a turn, speaker, colon, space, text, joined by line breaks |
| ContextFit.ShedSections | backend/context/context_builder.py:176-177 | drops whole sections from the far end and stops at the first fit or at the required pair |
| ContextFit.Fit | backend/context/context_builder.py:160-182 | returns the highest context on the priority ladder that fits, and the clipped pair only when none does |
| ContextFit.LadderClimbs | backend/context/context_builder.py:160-182 | each step up the ladder costs at least as much |
| ContextFit.LowerFits | backend/context/context_builder.py:160-182 | so what fits is exactly what lies at or below the highest fit |
| ContextFit.ClipFits | backend/context/context_builder.py:184-194 | the clipped trigger is the trigger up to the last character that leaves room for the marker, less trailing spaces, and the marker; the pair fits exactly when the contract fits beside a bare marker |
| ContextFit.BudgetHeldIff | backend/context/context_builder.py:160-202 | the estimate stays within the budget exactly when the required pair fits as it is, or the contract fits beside a bare marker |
| Dialogue.DecodeFirst | backend/orchestration/behaviour_command.py:50-57 | UTF-16 decoding (section 2.2 of RFC 2781) inverts encoding (section 2.1) one character at a time |
| Dialogue.RoundTrip | backend/orchestration/behaviour_command.py:50-57 | encoded text is read back unchanged |
| Dialogue.PrefixUnits | backend/orchestration/behaviour_command.py:50-57 | a longer prefix has strictly more code units and begins with the shorter one's |
| Dialogue.BoundedDialogue | backend/orchestration/behaviour_command.py:125-142 | raises exactly on text that cannot be encoded, otherwise returns the longest prefix of whole characters within 512 units |
| Dialogue.BoundedIsSound | backend/orchestration/behaviour_command.py:89-95 | no surrogate pair is split, any other prefix within the bound is a prefix of it, and non-empty text becomes an acceptable dialogue |
| Dialogue.AcceptedIff | backend/orchestration/behaviour_command.py:89-95 | a dialogue is accepted exactly with one to 512 code units |
| UsageProjection.CandidatesByScope | backend/telemetry/benchmark.py:590-613 | raises exactly on a malformed routing record or one scope in two worlds; otherwise the largest count per scope |
| UsageProjection.GroupCalls | backend/telemetry/benchmark.py:615-637 | groups hold exactly the calls of each trigger, in order |
| UsageProjection.GroupsPartition | backend/telemetry/benchmark.py:615-637 | summing any measure over the groups gives the whole run's |
| UsageProjection.EachCallCounts | backend/telemetry/benchmark.py:650-658 | each call counts once, with the input and output tokens it reports |
| UsageProjection.SameTriggerIff | backend/telemetry/benchmark.py:620-637 | calls answer the same trigger exactly when session and source sequence agree and they name the same event, else the same turn, else the same request |
| UsageProjection.CandidatesAre | backend/telemetry/benchmark.py:590-613 | the count used for a session and sequence is the greatest any routing result of theirs reported |
| UsageProjection.ScaleIsCeiling | backend/telemetry/benchmark.py:675-679 | scaling rounds the average times the baseline up, and no further |
| UsageProjection.ScaleNeverBelow | backend/telemetry/benchmark.py:675-679 | scaled tokens are never below the observed, and equal them at the observed number of calls |
| UsageProjection.TriggerProjection | backend/telemetry/benchmark.py:639-658 | an event is projected at the greatest candidate count reported, or at its own calls if those are more; a turn or request at its own calls; tokens scaled from the observed ones, rounded up |
| UsageProjection.AddUp | backend/telemetry/benchmark.py:639-658 | the loop adds one projected amount per trigger |
| UsageProjection.ProjectedAllStrongUsage | backend/telemetry/benchmark.py:576-658 | raises exactly on malformed records and otherwise returns the summed projection |
| UsageProjection.ProjectionIsConservative | backend/telemetry/benchmark.py:576-658 | the projection is never below observed calls or tokens, equals them when no event expands, and has as many calls only then |

## Left out

- Pipeline.Guarantees: runs without session cleanup only, because `backend/orchestration/session_cleanup.py` deletes claims and sequences by design.
- Pipeline.MovesOk: a crash loses all memory; reusing a stopped pipeline object is not modelled, and stopping is a crash. Failures inside a store or an abandon hook are not modelled.
- DurableStores.GenerationCoordinator.Execute: what the checks and the provider say is given as circumstances; `GenerationPolicy` states when the answer to the checks is yes.
- DurableStores.ProviderAttempts.Unresolved: the order of the rows is left open, as is that of `DurableStores.CommandStore.Unpublished`; one NPC has at most one such row, so no per-NPC order depends on it.
- SchedulerSpec.StepOk: `note_turn_not_generated` and the check for another waiting trigger are not part of the scheduler model; they touch neither flag.
- QueueSpec.ClaimsLeast: nothing is claimed about arrival order across tiers of one NPC, since a later Focused turn may pass an earlier Reactive one.
- RouterHandoffs.RouterHandoff.RunWorker: any waiting key may be taken, where the source takes the last inserted; a listener may run between segments but not fail the worker. Cancelling the worker is not modelled.
- RouterHandoffs.RejectReason: results that are not of the expected Python types are outside the model.
- RouterAssignment.AssignTiers: of the readable reasons only the propagation source is kept.
- Conversations.ConversationManager.ObserveSnapshot: whole operations are the steps; a crash between a memory change and its write, and a write that cannot land, are not modelled, so nothing is claimed about AWAITING_RESPONSE implying pending work.
- GenerationPolicy.DecideForEvent: an NPC's assignment is looked up as the first one, where the source's dictionary keeps the last; a routed outcome has exactly one per NPC.
- EventStores.Events.Record: reasons for a refusal are not kept apart; `active` and its ordering are not modelled.
- BehaviourPublishers.BehaviourPublisher.Deliver: the endless loop is run for any given number of passes, because it need not end; observations and the published-at time are not kept.
- SnapshotSender.StepOk: a send that throws before it returns its future, and HTTP itself, are not modelled.
- CommandTracker.Tracker.Deliver: `clear` is not modelled; whether an accepted command can be executed is a free choice.
- Scores and distances are reals; rounding of floats is not modelled.
- Command identities are the claim keys they are derived from: the digest of `identity_digest` is taken to be injective.
- Text compares by code point; Unicode normalisation and case folding are not modelled.
- Provider adapters, prompts and profiles, world state, relevance and recency enrichment, HTTP and WebSocket adapters, telemetry files, the dashboard, the debug console and Minecraft entity code are input and output or single-branch checks.
