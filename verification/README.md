# Order and auction engine: verified model

A Dafny model of the stateful core of an order and auction engine, with proofs about it. The
engine has three services. Sniper1 watches auctions and manages their budget, Sniper2 acquires
reservations and settles them over shared payment channels, and Sniper3 watches for restocks and
places orders through Sniper2. `dafny verify dfyconfig.toml` checks everything.

How the model is laid out:

- A class stands for each object that updates itself in place (`PaymentChannel`, `AcquirePool`,
  `SimpleMachine`, `RestockWatch`, `Sniper2Service`, `BudgetEngine`, `Sniper1Service`,
  `Connection`, `HttpExecutionEngine`, `MemoryRateLimiter`). Each method is proved to take the
  state to what a function on values says, and the theorems are about those functions over all
  runs: every sequence of operations, or every interleaving where the code suspends.
- Clock readings, network replies, adapter answers and the order of events are inputs.
- An asynchronous method is one event per stretch between two suspensions, so that anything may
  happen in between.

| file | what it models |
|---|---|
| `StableSort.dfy`, `Edf.dfy` | the sort and the forward schedule; optimality by exchange |
| `PaymentChannel.dfy`, `ChannelRuns.dfy`, `ChannelPlans.dfy` | the payment queue, its runs against a reference, its plans and receipts |
| `AcquirePool.dfy`, `PoolRuns.dfy`, `PoolSlots.dfy` | the two-level semaphore with its wait queue, and where its slots go |
| `StateMachine.dfy` | the four transition tables and `SimpleMachine` |
| `WatchLifecycle.dfy` | the restock watch |
| `SettleProtocol.dfy`, `SettleOutcomes.dfy`, `OrderVerifier.dfy` | tasks sharing payment channels, and how they end; the status poller |
| `Ledger.dfy`, `BudgetEngine.dfy`, `AuctionBudget.dfy`, `AuctionWins.dfy` | the ledger, its hash chain, the auction money flow |
| `Framing.dfy`, `VaultFrames.dfy`, `WebSocketFrames.dfy` | the two framing codecs |
| `ExecutionEngine.dfy`, `EngineReplies.dfy`, `RateLimiter.dfy` | step and retry loops behind the guard, and their replies; the token bucket |

## Where the code differs from what it promises

Each of these is a lemma. The condition under which the promise holds is proved beside it.

- **Spacing of payments** (docs/DESIGN.md:267, docs/04-shared/payment-channel.md:158). Recorded
  starts are not always `minIntervalMs` apart, since the service does not sleep until the recorded
  start and a completion may be reported before it. `SpacingExactly` says when they are,
  `StartsAreSpaced` gives a condition on completions, and `EarlyCompletionBreaksSpacing` is the
  failing family.
- **No deadlock** (docs/02-core/state-machines.md:179). `acquire_failed` is neither terminal nor
  left by any event; `FinishesExactly` shows it is the only such state.
- **One payment at a time** (docs/04-shared/payment-channel.md:161). At most one task per method is
  in state `paying`, always. At most one payment flow per method is in flight if and only if no call
  that pays settles a task whose flow is in flight (`OneFlowExactly`); `TwoPayAtOnceRun` is a run
  that fails. Settling out of turn has an effect although it throws (`WrongTurnStartsNext`,
  `AbandonedTaskBlocks`).
- **Per-task balances.** They add up if and only if every accepted operation that moves money names
  its task, since the empty id means all tasks (`SumsAgreeExactly`); `EmptyTaskIdBreaksSums` is a run
  that fails.
- **Refunds.** docs/03-products/sniper1.md:138 says that cancelling a won item does not refund its
  budget; `removeWatchedItem` refunds what the item holds in every state, so the budget is left alone
  exactly when it holds nothing (`RemovalRefunds`, `WonItemIsRefunded`). The `refundPolicy` argument
  is only the reason text of the entry.
- **WebSocket input.** The endpoint decodes every chunk by itself and drops what is left over, which
  loses nothing, whatever comes next, exactly when the chunk ends on a frame boundary
  (`BoundaryLosesNothing`, `CutFrameIsLost`).
- **Token bucket.** Its interval bound holds if and only if no weight is above the capacity
  (`BoundExactly`); a clock that runs back is refilled twice unless the bucket is full anyway
  (`RefillTwiceExactly`).

## Model

| member | source | states |
|---|---|---|
| `StableSort.SortUnique` | packages/server/order-shared/payment-channel/index.js:71 | The sort the channel relies on: the result is the one arrangement that ascends by the key and keeps equal keys in their old order, and no other arrangement has both properties. |
| `StableSort.SortTakesEarliest` | packages/server/order-shared/payment-channel/index.js:84-87 | The head of the sorted queue is the oldest task with the smallest deadline, and the tail is the sort of all the others. |
| `StableSort.FilterSort` | packages/server/order-shared/payment-channel/index.js:63-66 | Removing tasks before sorting or after it gives the same queue. |
| `Edf.ScheduleAt` | packages/server/order-shared/payment-channel/index.js:72-81 | Position k starts at the first start plus the durations before it plus k gaps; it is `will_miss` exactly when it finishes after its deadline, and `safe` exactly when at least 120 s are left. |
| `Edf.ExchangeNeighbours` | packages/server/order-shared/payment-channel/index.js:69-82 | Exchanging two neighbours that are out of deadline order never raises the maximum lateness. |
| `Edf.SortedIsNoLater` | packages/server/order-shared/payment-channel/index.js:69-82 | Whatever bound on lateness some order of the tasks meets, every deadline-sorted order of them meets. |
| `Edf.EdfOptimal` | packages/server/order-shared/payment-channel/index.js:69-82 | Earliest deadline first minimises the maximum lateness over all permutations of the tasks. |
| `Edf.EdfMissesNoneIfPossible` | packages/server/order-shared/payment-channel/index.js:69-82 | If any order of the tasks has no `will_miss`, the deadline order has none. |
| `Edf.InsertionEffect` | packages/server/order-shared/payment-channel/index.js:51-52 | One more task leaves the slots of all tasks with a deadline not later than its own as they are and delays every other by exactly its duration and one gap. |
| `PaymentChannels.PaymentChannel.Rebalance` | packages/server/order-shared/payment-channel/index.js:69-82 | In-place sort and estimate loop give the stable deadline order with its forward schedule; nothing but `pending` changes. |
| `PaymentChannels.PaymentChannel.WriteEstimates` | packages/server/order-shared/payment-channel/index.js:72-81 | The loop that carries `lastFinish` writes the forward schedule of the tasks in their order. |
| `PaymentChannels.PaymentChannel.Enqueue` | packages/server/order-shared/payment-channel/index.js:40-61 | Refuses when frozen or full and changes nothing; otherwise adds the task, rebalances, and answers with the slot it got. |
| `PaymentChannels.PaymentChannel.Dequeue` | packages/server/order-shared/payment-channel/index.js:63-67 | Drops every pending task with the id and the one in service if it has it. |
| `PaymentChannels.PaymentChannel.StartNext` | packages/server/order-shared/payment-channel/index.js:84-97 | Nothing while frozen, busy or empty; otherwise the head is served from the recorded start on, and the rest rebalanced. |
| `PaymentChannels.PaymentChannel.Complete` | packages/server/order-shared/payment-channel/index.js:99-105 | Only for the task in service: a success records its duration in the window, and the channel is free again. |
| `PaymentChannels.PaymentChannel.Freeze` | packages/server/order-shared/payment-channel/index.js:119-122 | Sets the reason and changes nothing else. |
| `PaymentChannels.PaymentChannel.Unfreeze` | packages/server/order-shared/payment-channel/index.js:124-128 | Lifts the freeze and rebalances. |
| `PaymentChannels.PaymentChannel.AverageActualDurationMs` | packages/server/order-shared/payment-channel/index.js:130-134 | The typical duration below five samples, the upper median of the window from then on. |
| `ChannelRuns.RunAgrees` | packages/server/order-shared/payment-channel/index.js:40-105 | Over every run the channel agrees with a reference that never sorts: pending is the stable deadline sort of the tasks waiting, every accepted task is in exactly one of waiting, served, completed or dequeued, the bound holds, the earliest deadline (oldest first) is served, and `durations` is the window of the last fifty successes. |
| `ChannelPlans.FinishIsPlanned` | packages/server/order-shared/payment-channel/index.js:88-94 | In every reachable state the task in service is expected to finish exactly its duration after its recorded start. |
| `ChannelPlans.PendingIsPlanned` | packages/server/order-shared/payment-channel/index.js:69-82 | Every operation that has an effect leaves each pending slot starting at the first start, plus the durations and gaps of those before it: from the served task's recorded start, its duration and the gap on, or from the clock on a free channel; with its finish and its label. Any other operation leaves the plan as it is. |
| `ChannelPlans.ReceiptIsExact` | packages/server/order-shared/payment-channel/index.js:40-61 | In every reachable state a task whose id is not already pending is refused exactly when the channel is frozen or full, with the state unchanged; otherwise its receipt gives its place behind all deadlines not later than its own, the start and finish that follow from the served task, the clock, the durations and the gap, the label, and `isSafe` exactly when the finish meets the deadline. |
| `ChannelPlans.EnqueueDelaysExactly` | packages/server/order-shared/payment-channel/index.js:40-61 | In every reachable state an accepted task leaves the slots ahead of it as they are and delays those behind it by exactly its duration and one gap. |
| `ChannelRuns.StartIsRecorded` | packages/server/order-shared/payment-channel/index.js:84-97 | In every run only an unfrozen `startNext` puts a task in service, and this is the start it records. |
| `ChannelRuns.StartKeepsGapFrom` | packages/server/order-shared/payment-channel/index.js:84-97 | On a clock that never goes back an unforced start is recorded at least the gap after every earlier operation, so after the one that freed the channel. |
| `ChannelRuns.FreedBetween` | packages/server/order-shared/payment-channel/index.js:84-105 | Between a state with a task in service and a later one without, some operation freed the channel: at most one task is in service at a time. |
| `ChannelRuns.StartsAreSpaced` | packages/server/order-shared/payment-channel/index.js:84-105 | If nothing frees the channel before the recorded start of its task, the next unforced start is recorded at least the gap after it. |
| `ChannelRuns.SpacingExactly` | packages/server/order-shared/payment-channel/index.js:84-97 | Exactly when two recorded starts keep the gap, in terms of the clock readings of the second call. |
| `ChannelRuns.EarlyCompletionBreaksSpacing` | packages/server/order-shared/payment-channel/index.js:84-105 | The promised spacing fails: for every completion reported earlier than the gap, the next recorded start comes too soon. |
| `ChannelRuns.FrozenExactly` | packages/server/order-shared/payment-channel/index.js:119-128 | Over every run a channel is frozen, and for which reason, exactly by its last freeze, unless an unfreeze came after it. |
| `ChannelRuns.FrozenStartsNothing` | packages/server/order-shared/payment-channel/index.js:84-85 | From a freeze until an unfreeze no operation of any run puts a task in service. |
| `ChannelRuns.EstimateIsMedian` | packages/server/order-shared/payment-channel/index.js:130-134 | The estimate is the upper median: one of the recorded durations, with more than half of them at most it and half or more at least it. |
| `ChannelRuns.MedianIsUnique` | packages/server/order-shared/payment-channel/index.js:130-134 | No other duration has that property. |
| `ChannelRuns.EstimateOverRuns` | packages/server/order-shared/payment-channel/index.js:45-47 | In every reachable state a task without a duration gets the typical duration below five successes, and the upper median of the last fifty from then on. |
| `ChannelPlans.RebalanceIsOptimal` | packages/server/order-shared/payment-channel/index.js:69-82 | In every reachable state: if any order of the pending tasks behind the one in service misses no deadline, `rebalance` labels none `will_miss`, and it meets every bound on lateness that any order meets. |
| `AcquirePools.AcquirePool.Acquire` | packages/server/order-shared/acquire-pool/index.js:21-31 | A grant at once when both limits allow it, otherwise the last place in the queue. |
| `AcquirePools.AcquirePool.TimeOut` | packages/server/order-shared/acquire-pool/index.js:25-28 | The request leaves the queue, and nothing else changes. |
| `AcquirePools.AcquirePool.Release` | packages/server/order-shared/acquire-pool/index.js:33-39 | The slot leaves the active ones and the queue is drained. |
| `AcquirePools.AcquirePool.SetMaxConcurrentPerSite` | packages/server/order-shared/acquire-pool/index.js:11-14 | The site's limit is changed and the queue drained. |
| `AcquirePools.AcquirePool.SetGlobalMaxConcurrent` | packages/server/order-shared/acquire-pool/index.js:16-19 | The global limit is changed and the queue drained. |
| `AcquirePools.AcquirePool.Drain` | packages/server/order-shared/acquire-pool/index.js:56-63 | The loop over a copy of the queue grants what the recursive reference grants, in order. |
| `AcquirePools.DrainSettles` | packages/server/order-shared/acquire-pool/index.js:56-63 | One pass is enough: behind it no waiting request could be granted, per site the grants and then the queue are the old queue in order, every grant was within both limits, and any older request it passed belonged to another site at its limit. |
| `PoolRuns.RunIsFair` | packages/server/order-shared/acquire-pool/index.js:11-63 | Over every run of arrivals, releases, timeouts and limit changes: no waiting request could be granted, at each site requests are granted in order of arrival and none is lost or granted twice, and a waiter is overtaken only by another site while its own is at its limit. |
| `PoolRuns.StepStaysWithin` | packages/server/order-shared/acquire-pool/index.js:11-63 | No operation opens slots beyond the limits in force after it, even when a limit was lowered below what is active. |
| `PoolRuns.LimitsHold` | packages/server/order-shared/acquire-pool/index.js:49-54 | As long as no limit changes, both limits hold in every reachable state. |
| `PoolSlots.SlotsAreConserved` | packages/server/order-shared/acquire-pool/index.js:11-47 | Over every run the active slots are exactly those granted and not released since, and the limits in force exactly those last set, as read off what callers did and got. |
| `PoolSlots.SlotsAreFresh` | packages/server/order-shared/acquire-pool/index.js:41-47 | Every slot granted is new and of the site of its request. |
| `PoolSlots.ReleaseExactly` | packages/server/order-shared/acquire-pool/index.js:33-39 | In every reachable pool, releasing a slot that is held grants exactly the oldest waiting request that fits with both counts lowered by that slot, and only it; if none fits the slot is free and nothing else changes; releasing any other slot does nothing. |
| `StateMachines.SimpleMachine.Send` | packages/core/state-machine/index.js:88-95 | The state moves by the table, the patch is merged whether or not it moves, and the callback runs exactly when it moves. |
| `ItemMachine.EnteredExactly` | packages/core/state-machine/index.js:19-36 | Read backwards: which states and events lead into each state, and that nothing else does. |
| `TaskMachine.EnteredExactly` | packages/core/state-machine/index.js:37-48 | Read backwards: which states and events lead into each state, and that nothing else does. |
| `WatchMachine.EnteredExactly` | packages/core/state-machine/index.js:49-60 | Read backwards: which states and events lead into each state, and that nothing else does. |
| `ExecutionMachine.EnteredExactly` | packages/core/state-machine/index.js:61-67 | Read backwards: which states and events lead into each state, and that nothing else does. |
| `ItemMachine.PaidWasWon` | packages/core/state-machine/index.js:19-36 | Over every sequence of events an item that waits for payment, is paid or overdue was winning when it was marked won. |
| `ItemMachine.Finishes` | packages/core/state-machine/index.js:19-36 | From every state some events lead to a terminal state, and no sequence of events leads out of one. |
| `WatchMachine.Finishes` | packages/core/state-machine/index.js:49-60 | From every state some events lead to a terminal state, and no sequence of events leads out of one. |
| `TaskMachine.FinishesExactly` | packages/core/state-machine/index.js:37-48 | Some events lead to a terminal state exactly from the states other than `acquire_failed`; no sequence of events leads out of that state or a terminal one. |
| `ExecutionMachine.FinishesExactly` | packages/core/state-machine/index.js:61-67 | Some events lead to a terminal state exactly from the states other than `acquire_failed`; no sequence of events leads out of that state or a terminal one. |
| `WatchLifecycle.OrdersAreBounded` | packages/server/sniper3-service/index.js:105-254 | Over every interleaving of signals, confirmations, timeouts, results, rejections and cancellations: completed orders <= maxOrders, tasks created <= maxOrders times the quarantine threshold, and where confirmation is required tasks created <= confirmations <= accepted signals. |
| `WatchLifecycle.BoundIsReached` | packages/server/sniper3-service/index.js:196-254 | The bound on tasks created cannot be improved: for every such watch some run creates exactly that many. |
| `WatchLifecycle.CancelledForGood` | packages/server/sniper3-service/index.js:81-85 | In every reachable state but an exhausted one cancelling takes the watch to `cancelled`, and over every continuation of the run it stays so: no signal is accepted, no result recorded, and neither tasks created nor completed orders grow, whatever call was suspended. |
| `WatchLifecycle.ExhaustedForGood` | packages/server/sniper3-service/index.js:330-340 | The same of an exhausted watch, which cancelling does not change. |
| `WatchLifecycle.ConfirmationGate` | packages/server/sniper3-service/index.js:134-156 | Where confirmation is required an accepted signal creates nothing and waits; a confirmation creates the task; a dismissal and a timeout give the watch back as it was. Where it is not, the signal creates the task. |
| `WatchLifecycle.OrderFails` | packages/server/sniper3-service/index.js:163-190 | An order that does not come about counts neither as created nor as a failure: without a bridge, or once a rejection is known, the watch goes on or stops; with an intent that cannot be built it stays executing. |
| `WatchLifecycle.SignalAccepted` | packages/server/sniper3-service/index.js:105-118 | In every reachable state a signal is accepted exactly when the watch is monitoring and below its cap. |
| `WatchLifecycle.PauseAndResume` | packages/server/sniper3-service/index.js:72-79 | A paused watch takes no signal, and resuming it gives it back as it was. |
| `WatchLifecycle.PausedWaits` | packages/server/sniper3-service/index.js:72-79 | With no call suspended, whatever comes leaves a paused watch as it is until it is resumed or cancelled. |
| `WatchLifecycle.CountersAreExact` | packages/server/sniper3-service/index.js:196-233 | Over every run the counters are the recorded successes and the failures since the last of them; the watch is quarantined exactly when those reach the threshold, and exhausted only when quarantined, not to be continued, or out of orders. |
| `WatchLifecycle.InvResult` | packages/server/sniper3-service/index.js:196-233 | Every recorded result keeps the run invariant and uses up at least one unit of threshold * maxOrders. |
| `WatchLifecycle.InvRun` | packages/server/sniper3-service/index.js:105-340 | The run invariant behind these results: resting states, one suspended signal call at a time, results, tasks and confirmations in step. |
| `WatchLifecycle.RestockWatch.FireSignal` | packages/server/sniper3-service/index.js:105-118 | Accepted exactly below the order cap and in a state that takes signals; up to the first suspension. |
| `WatchLifecycle.RestockWatch.ResumeSignal` | packages/server/sniper3-service/index.js:134-138 | Behind the notification: on to confirming, or to executing and the order. |
| `WatchLifecycle.RestockWatch.ConfirmFromUser` | packages/server/sniper3-service/index.js:140-149 | Throws unless confirming; otherwise executes. |
| `WatchLifecycle.RestockWatch.LapseConfirmation` | packages/server/sniper3-service/index.js:151-156 | Back to monitoring if still confirming; the confirmation timer does the same. |
| `WatchLifecycle.RestockWatch.ExecuteRestockOrder` | packages/server/sniper3-service/index.js:158-183 | Throws unless executing; without a bridge the watch fails; otherwise a task is created, rejected, or the intent is invalid. |
| `WatchLifecycle.RestockWatch.ResumeRejection` | packages/server/sniper3-service/index.js:184-189 | A rejected `createTask` fails the watch and applies the policy, whatever happened in between. |
| `WatchLifecycle.RestockWatch.MarkExecutionResult` | packages/server/sniper3-service/index.js:196-233 | Counts the result, resets or raises the failure count, and quarantines or applies the policy. |
| `WatchLifecycle.RestockWatch.ApplyContinuationPolicy` | packages/server/sniper3-service/index.js:330-340 | Continues and resumes below the cap if the policy says so; otherwise exhausts. |
| `SettleProtocol.PayingRun` | packages/server/sniper2-service/index.js:517-547 | In every interleaving a task whose machine is `paying` is the one its channel serves. |
| `SettleProtocol.AtMostOnePaying` | packages/server/sniper2-service/index.js:517-547 | In no reachable state are two tasks of one payment method paying. |
| `SettleProtocol.OneFlowExactly` | packages/server/sniper2-service/index.js:517-547 | Exactly when the promise of one payment in flight per channel holds: a run never has two flows of one payment method in flight if and only if no live call that gets as far as paying settles a task whose flow is in flight at that moment. |
| `SettleProtocol.TwoPayAtOnceRun` | packages/server/sniper2-service/index.js:517-547 | The failure is reached from an empty service, for any two tasks of any payment method: a run of creating, acquiring, enqueueing and settling at whose end both flows are in flight. |
| `SettleProtocol.AtMostOneInFlight` | packages/server/sniper2-service/index.js:517-547 | In a run without such a call each payment method has at most one flow in flight, at its end too. |
| `SettleProtocol.DuplicateSettleBreaks` | packages/server/sniper2-service/index.js:517-547 | From every state with one task in flight and another next in its unfrozen channel: settling the first again, its first flow ending, and settling the second put both in flight. |
| `SettleProtocol.FrozenBeginsExactly` | packages/server/sniper2-service/index.js:525-528 | A settle call on a frozen channel begins a payment flow exactly for the task the channel already serves. |
| `SettleProtocol.FrozenBeginsNothing` | packages/server/sniper2-service/index.js:384-387 | From a freeze of a payment method until it is lifted, in every run, no flow over it begins for any task but the one its channel served when it was frozen. |
| `SettleProtocol.WrongTurnStartsNext` | packages/server/sniper2-service/index.js:526-527 | Settling out of turn throws, but leaves the task whose turn it is in service of the channel. |
| `SettleProtocol.AbandonedTaskBlocks` | packages/server/sniper2-service/index.js:525-528 | A task left in service blocks its payment method: until somebody settles it, no other task of the method begins to pay, in any run. |
| `SettleOutcomes.OutcomeDecides` | packages/server/sniper2-service/index.js:538-544 | The end of a payment flow takes a paying task to `succeeded` exactly when it was paid, to `payment_timeout` exactly when it timed out, to `payment_failed` exactly when it was declined, and changes no other task. |
| `SettleOutcomes.StateTellsOutcome` | packages/server/sniper2-service/index.js:538-544 | Over every run a task that succeeded was paid, one that timed out timed out, and one that failed was declined, by a flow of it that ended while it was paying. |
| `SettleOutcomes.EndedForGood` | packages/server/sniper2-service/index.js:517-547 | Over every later run a task that succeeded, timed out or was cancelled stays so, and never pays again. |
| `SettleOutcomes.DeclinedCanPayAgain` | packages/server/sniper2-service/index.js:494-547 | A declined task can: over an idle channel, enqueueing and settling it once more makes it pay. |
| `SettleOutcomes.EndFreesChannel` | packages/server/sniper2-service/index.js:538-543 | The end of a flow frees its channel, and only a paid one leaves its time there as a sample. |
| `SettleOutcomes.EnqueueQueues` | packages/server/sniper2-service/index.js:494-515 | The task is queued with its reservation's expiry as deadline exactly when it has one and the channel is neither frozen nor full; otherwise no task and no channel changes. |
| `SettleOutcomes.BeginPays` | packages/server/sniper2-service/index.js:525-528 | In turn, over a free channel, a live call puts the task in service from its recorded start on and makes it pay. |
| `SettleOutcomes.CancelExactly` | packages/server/sniper2-service/index.js:428-432 | Cancelling takes a task out up to its acquisition and behind a failed payment, and does nothing in any other state. |
| `SettleOutcomes.FrozenByLast` | packages/server/sniper2-service/index.js:384-387 | Over every run each channel is frozen exactly by its last freeze, unless that was lifted since. |
| `SettleOutcomes.FreezeHolds` | packages/server/sniper2-service/index.js:384-387 | From a freeze until it is lifted no flow begins over the channel but for the task it serves. |
| `SettleOutcomes.SettingsStay` | packages/server/sniper2-service/index.js:583-596 | A channel is made by the first call that asks for it, with that call's typical duration, and keeps its settings. |
| `SettleOutcomes.LanesAreStandard` | packages/server/sniper2-service/index.js:583-596 | Over every run each channel keeps 30 seconds between payments and takes ten tasks. |
| `SettleProtocol.Sniper2Service.BeginAcquire` | packages/server/sniper2-service/index.js:457-466 | Nothing when a guard refuses; otherwise strike and acquire, up to the awaited flow. |
| `SettleProtocol.Sniper2Service.EndAcquire` | packages/server/sniper2-service/index.js:485-488 | Behind the flow: the reservation is kept, and the machine moves by the outcome. |
| `SettleProtocol.Sniper2Service.EnqueueForSettle` | packages/server/sniper2-service/index.js:494-515 | Throws without a reservation; otherwise enqueues in the payment method's own channel object, created on first use, and marks the task queued if the channel accepts. |
| `SettleProtocol.Sniper2Service.Ask` | packages/server/sniper2-service/index.js:526 | Starts the next task of the channel object unless it serves this one already; no other channel changes. |
| `SettleProtocol.Sniper2Service.BeginSettle` | packages/server/sniper2-service/index.js:517-536 | Up to the payment flow: refused unless live, throws if the channel object then serves another task, else the task is paying. |
| `SettleProtocol.Sniper2Service.EndSettle` | packages/server/sniper2-service/index.js:538-546 | Behind the payment flow: completes the channel object's task and moves the machine by the outcome, as `OutcomeDecides` and `EndFreesChannel` say. |
| `SettleProtocol.Sniper2Service.FreezeChannel` | packages/server/sniper2-service/index.js:384-387 | Freezes the channel object of the payment method, if there is one, and no other. |
| `OrderVerifier.Verify` | packages/server/sniper2-service/index.js:179-235 | For every sequence of answers: at most one poll per interval; the loop ends with the first answer that closes the case (confirmed, cancelled, refunded, or a second unknown with no pending in between), with exactly that answer's verdict and at most one urgent notification, or without a verdict after the last interval. |
| `OrderVerifier.NeutralPollsDoNotCount` | packages/server/sniper2-service/index.js:199-204 | Failed polls and unlisted answers neither count nor reset: leaving one out closes the case at the same poll. |
| `Ledger.AcceptedExactly` | packages/core/budget-engine/index.js:22-50 | Exactly which operations are accepted, and whether the others are refused as no money or as exceeding the budget. |
| `Ledger.OpEffect` | packages/core/budget-engine/index.js:22-50 | `setTotalBudget(x)` makes the total exactly x; a commit lowers what is available by its amount, never below zero; a release raises it; a spend leaves it and moves committed to spent. |
| `Ledger.BalancesAgree` | packages/core/budget-engine/index.js:96-120 | Over every run of operations that name their tasks, no commitment is negative and the per-task commitments and spendings add up to the global ones. |
| `Ledger.AgreeStepExactly` | packages/core/budget-engine/index.js:34-50 | One operation leaves the per-task balances adding up exactly when it names its task, moves nothing, or is refused. |
| `Ledger.SumsAgreeExactly` | packages/core/budget-engine/index.js:100-116 | Over every run the per-task balances add up after each operation if and only if every accepted operation that moves money names its task. |
| `Ledger.EmptyTaskIdBreaksSums` | packages/core/budget-engine/index.js:100-116 | The failure is reached: of ten cents five are committed to a task and five released under the empty id, which makes all ten available while the task still holds five. |
| `BudgetEngines.BudgetEngine.Append` | packages/core/budget-engine/index.js:52-90 | Fails exactly on an amount that is no money; otherwise one entry is added, chained to the last hash. |
| `BudgetEngines.BudgetEngine.SetTotalBudget` | packages/core/budget-engine/index.js:22-32 | Appends the difference as a transfer, nothing when there is none. |
| `BudgetEngines.BudgetEngine.Commit` | packages/core/budget-engine/index.js:34-38 | Fails exactly on bad money or too little available, with nothing appended. |
| `BudgetEngines.BudgetEngine.Release` | packages/core/budget-engine/index.js:40-44 | Fails exactly on bad money or more than is committed. |
| `BudgetEngines.BudgetEngine.Spend` | packages/core/budget-engine/index.js:46-50 | Fails exactly on bad money or more than is committed. |
| `BudgetEngines.VerifyChain` | packages/core/budget-engine/index.js:132-151 | The loop answers true exactly for entries that are all chained and hashed correctly. |
| `BudgetEngines.BudgetEngine.VerifyHashChain` | packages/core/budget-engine/index.js:132-151 | True for every ledger the engine built. |
| `BudgetEngines.LastHashFixesOrCollides` | packages/core/budget-engine/index.js:132-151 | Two verifying ledgers with the same last hash are equal entry by entry, or two different inputs have one hash; nothing is assumed of the hash. |
| `BudgetEngines.LastHashFixesLedger` | packages/core/budget-engine/index.js:132-151 | With an injective hash two verifying ledgers have the same last hash exactly when they are equal. |
| `AuctionBudget.HighWaterMark` | packages/server/sniper1-service/index.js:32-74 | Over every run the total budget is the most that was ever committed and spent at once, what is available is never negative, and nothing stays committed to an item that is gone. |
| `AuctionBudget.ItemCosts` | packages/server/sniper1-service/index.js:246-260 | In every reachable state, exactly: an item whose allocation failed holds and costs nothing; one that was paid for at a price that is not negative holds nothing and has cost the smaller of price and budget; every other holds its whole budget and has cost nothing. |
| `AuctionBudget.AllocationExactly` | packages/server/sniper1-service/index.js:59-63 | The commit inside an allocation never fails for lack of budget; the allocation fails exactly when the budget is no money or the expanded total would not be; otherwise the total becomes the larger of itself and the money in use. |
| `AuctionBudget.SettledExactly` | packages/server/sniper1-service/index.js:253-260 | Paying at a price that is not negative spends the price up to the commitment and releases the rest, leaving nothing committed; a negative price leaves the ledger as it is. |
| `AuctionBudget.RemovalRefunds` | packages/server/sniper1-service/index.js:67-74 | In every reachable state removing an item makes what it holds available again, spends nothing and touches no other item; what is available stays the same exactly when the item holds nothing. |
| `AuctionBudget.WonItemIsRefunded` | packages/server/sniper1-service/index.js:67-74 | The failing case is reached: an item won and waiting for payment is removed, and its whole budget is available again. |
| `AuctionBudget.InvRemove` | packages/server/sniper1-service/index.js:67-74 | Removing an item always succeeds and keeps the run invariant. |
| `AuctionWins.WonAtPrice` | packages/server/sniper1-service/index.js:187-208 | A winning item waits for payment at the price reported, or else at its last bid; any other item and the ledger stay as they are. |
| `AuctionWins.PaidAtPrice` | packages/server/sniper1-service/index.js:187-260 | In every reachable state: a winning funded item that is marked won and paid costs that price up to its budget, and the rest of the budget is available again. |
| `AuctionWins.BidsAreKept` | packages/server/sniper1-service/index.js:135-152 | Over every run an item's history is exactly the bids placed on it, in order. |
| `AuctionWins.BidDecides` | packages/server/sniper1-service/index.js:145-152 | A bid leaves a bidding item winning, outbid or failed exactly by the answer. |
| `AuctionWins.ArmAndBid` | packages/server/sniper1-service/index.js:95-105 | Arming and disarming go and come back, and an armed, outbid or refused item bids. |
| `AuctionWins.OverdueKeepsMoney` | packages/server/sniper1-service/index.js:268-271 | Becoming overdue moves only an item that waits for payment, and no money. |
| `AuctionBudget.SettlesFullyExactly` | packages/server/sniper1-service/index.js:253-260 | In every reachable state paying meets a refusal exactly when the price is negative and the item holds money. |
| `AuctionBudget.Sniper1Service.AddWatchedItem` | packages/server/sniper1-service/index.js:32-65 | The item is listed before its budget is allocated, so it stays listed when the allocation fails, with the allocation's error. |
| `AuctionBudget.Sniper1Service.Allocate` | packages/server/sniper1-service/index.js:59-63 | Expands the total by the shortfall, then commits. |
| `AuctionBudget.Sniper1Service.RemoveWatchedItem` | packages/server/sniper1-service/index.js:67-74 | Cancels, releases what is committed under the policy text as reason, and forgets the item. |
| `AuctionBudget.Sniper1Service.HandleBidOutcome` | packages/server/sniper1-service/index.js:135-152 | Records the bid whether or not the machine moves. |
| `AuctionBudget.Sniper1Service.MarkItemWon` | packages/server/sniper1-service/index.js:187-208 | Throws unless the item can be won; keeps the final price, by default the last bid. |
| `AuctionBudget.Sniper1Service.MarkPaymentCompleted` | packages/server/sniper1-service/index.js:246-260 | Throws unless payment is pending; settles the commitment at the final price. |
| `AuctionBudget.Sniper1Service.Settle` | packages/server/sniper1-service/index.js:253-260 | The spending and the release of the rest, each checked by the ledger. |
| `AuctionBudget.Sniper1Service.MarkPaymentOverdue` | packages/server/sniper1-service/index.js:268-271 | Overdue if still pending, otherwise nothing; the ledger is not touched. |
| `Framing.DecodeAppend` | packages/vault/ipc-protocol/index.js:31-45 | For any lawful frame parser, decoding a + b is decoding a and then its rest with b. |
| `Framing.RestIsIncomplete` | packages/vault/ipc-protocol/index.js:31-45 | What decoding leaves over never starts with a whole frame. |
| `Framing.WriteThenRead` | packages/vault/ipc-protocol/index.js:26-35 | A length that fits its field is read back as it was written. |
| `Framing.ReadThenWrite` | packages/vault/ipc-protocol/index.js:26-35 | Every length field is the encoding of the length it is read as. |
| `VaultFrames.DecodeFrames` | packages/vault/ipc-protocol/index.js:31-45 | The offset loop computes the recursive decoding. |
| `VaultFrames.DecodeExactly` | packages/vault/ipc-protocol/index.js:24-45 | Decoding finds these messages and this rest exactly when the buffer is those messages encoded one behind the other and a rest that is not yet a frame. |
| `VaultFrames.HeaderBytes` | packages/vault/ipc-protocol/index.js:24-29 | The header is the length in four bytes, the most significant first, and the payload follows. |
| `VaultFrames.TooLongForHeader` | packages/vault/ipc-protocol/index.js:24-29 | There is none exactly from 4 GiB on. |
| `VaultFrames.FirstMatchIsFirst` | packages/vault/ipc-protocol/index.js:68-69 | The response is the first message that matches, and there is none exactly when none matches. |
| `VaultFrames.AnyChunking` | packages/vault/ipc-protocol/index.js:63-67 | Whatever the chunks, carrying the rest forward decodes their concatenation. |
| `VaultFrames.MessagesArrive` | packages/vault/ipc-protocol/index.js:63-67 | However a stream of encoded messages is cut into chunks, exactly those messages arrive, in order. |
| `VaultFrames.Connection.OnData` | packages/vault/daemon/main.js:59-63 | After every chunk the connection has decoded the stream as a whole; the first message that answers the request stays the response. |
| `WebSocketFrames.DecodeWsFrames` | packages/server/api/server.js:349-378 | The offset loop computes the recursive decoding, over all three length forms and both mask bits. |
| `WebSocketFrames.ReadLength` | packages/server/api/server.js:357-366 | The length field in its three forms, or none where the buffer ends too early. |
| `WebSocketFrames.NextFrame` | packages/server/api/server.js:353-375 | The frame at an offset is the frame the parser finds in front of the rest, or none where that is incomplete. |
| `WebSocketFrames.ReadFrame` | packages/server/api/server.js:367-375 | The frame behind the length field, or none where the payload is incomplete. |
| `WebSocketFrames.Unmask` | packages/server/api/server.js:372-374 | The in-place loop masks every byte with the key byte of its position. |
| `WebSocketFrames.MaskedBit` | packages/server/api/server.js:372-374 | Byte i is masked bit by bit with byte i modulo 4 of the key (section 5.3 of RFC 6455). |
| `WebSocketFrames.MaskTwice` | packages/server/api/server.js:372-374 | Masking twice with one key gives the payload back. |
| `WebSocketFrames.HeaderIs` | packages/server/api/server.js:332-347 | A server frame byte by byte, in all three length forms. |
| `WebSocketFrames.ServerFrameIsWire` | packages/server/api/server.js:332-347 | It is the unmasked wire form of section 5.2 of RFC 6455. |
| `WebSocketFrames.ParseWire` | packages/server/api/server.js:349-375 | A server frame or a client-masked one in front of anything is parsed back. |
| `WebSocketFrames.StreamRoundTrip` | packages/server/api/server.js:332-378 | Any mix of server and client frames one behind the other decodes to the opcodes and payloads sent. |
| `WebSocketFrames.StreamPrefix` | packages/server/api/server.js:349-378 | Decoding any prefix of such a stream returns a prefix of its frames. |
| `WebSocketFrames.BoundaryLosesNothing` | packages/server/api/server.js:279-281 | Decoding a chunk and the next one by one finds the frames of their concatenation, for every next chunk, exactly when the first ends on a frame boundary. |
| `WebSocketFrames.CutFrameIsLost` | packages/server/api/server.js:279-281 | A cut before the last byte of any frame loses that frame. |
| `ExecutionEngine.StepStopsExactly` | packages/server/order-shared/execution-engine/index.js:31-50 | A step ends with its first attempt that succeeds or fails with an error not to be retried, and with attempt `retry.max` at the latest; its outcome and calls are that attempt's. |
| `ExecutionEngine.StepStopsOnce` | packages/server/order-shared/execution-engine/index.js:31-50 | There is exactly one such attempt, for every flow and every behaviour of the network. |
| `ExecutionEngine.PhaseContinues` | packages/server/order-shared/flow-orchestration/index.js:87-95 | The calls of a phase are in step order, by attempts in order within a step, and at most the sum of retries + 1. |
| `ExecutionEngine.AttemptsWithinRetries` | packages/server/order-shared/execution-engine/index.js:31-50 | No call of a phase belongs to an attempt beyond its step's retries. |
| `ExecutionEngine.RetriesAreUsedUp` | packages/server/order-shared/execution-engine/index.js:38-48 | The bound is reached: a request answered by retryable errors is sent retry.max + 1 times, mutating or not. |
| `ExecutionEngine.FinalReplyEndsPhase` | packages/server/order-shared/execution-engine/index.js:41-46 | A reply that amounts to an error not to be retried is the last of its phase, and the phase ends with that error. |
| `ExecutionEngine.ChallengeEndsSettle` | packages/server/order-shared/execution-engine/index.js:130-136 | When the bank asks for a challenge the settle phase sends nothing more and ends with `payment_3ds_required`, whatever the status of the reply. |
| `ExecutionEngine.DryRunIsLiveCutShort` | packages/server/order-shared/execution-engine/index.js:120-125 | A dry run is the live run cut before its first mutating request: the same calls up to there, never a mutating one; the same outcome exactly when the live run makes none, otherwise cancelled. |
| `ExecutionEngine.UnconfirmedMutatesNothing` | packages/server/sniper2-service/index.js:454-529 | Behind a guard that is not fully confirmed, for every flow and every server, acquiring hands egress no mutating request and settling no request at all. |
| `ExecutionEngine.GuardExactly` | packages/core/developer-mode/index.js:23-53 | Behind a guard a mutating request can be made, in either phase, by some flow against some servers, exactly when all five conditions hold; without one, acquiring can exactly when the dry run is turned off, and settling always can. |
| `EngineReplies.SuccessExactly` | packages/server/order-shared/execution-engine/index.js:120-155 | An attempt succeeds exactly when it sends nothing and does not fail by itself, or may send its request and gets a response below 400 with its capture found and, while settling, no challenge. |
| `EngineReplies.ErrorTable` | packages/server/order-shared/execution-engine/index.js:125-146 | The error of each class of reply in each phase: thrown, challenge, 429, 5xx, other 4xx with and without a decline code, failed capture. |
| `EngineReplies.RetryTable` | packages/core/domain-types/index.js:52-96 | Which errors are tried again while retries are left, and which end the step at once. |
| `EngineReplies.BusyIsRetried` | packages/server/order-shared/execution-engine/index.js:137-138 | A site that keeps answering 429, or 5xx, is asked once and then `retry.max` times more. |
| `EngineReplies.RefusalIsRetried` | packages/server/order-shared/execution-engine/index.js:139-146 | A refusal without a decline code is tried as often, the payment request included. |
| `EngineReplies.DeclineByRecovery` | packages/server/order-shared/execution-engine/index.js:139-146 | A decline code that is not to be retried ends the settle step after one request; one that is, after all retries. |
| `EngineReplies.ThrownByRecovery` | packages/server/order-shared/execution-engine/index.js:41-46 | An error egress throws is retried unless its code says otherwise; a code without an entry is retried. |
| `EngineReplies.NotSendable` | packages/server/order-shared/execution-engine/index.js:121-124 | A request without a url, or mutating in a dry run, is not sent and not tried again. |
| `EngineReplies.PhaseEndsClean` | packages/server/order-shared/flow-orchestration/index.js:87-95 | A phase that ends without an error has got a clean reply to the last call of each step that made one. |
| `EngineReplies.PaidMeansAccepted` | packages/server/order-shared/execution-engine/index.js:208-234 | A settle phase without an error ended on a response below 400, unchallenged, with its captures found. |
| `EngineReplies.MutatingExactly` | packages/server/order-shared/execution-engine/index.js:366-368 | A request is mutating exactly when its verb, in whatever case, is none of GET, HEAD and OPTIONS. |
| `ExecutionEngine.HttpExecutionEngine.Fetch` | packages/server/order-shared/execution-engine/index.js:120-155 | The url check, the dry-run check, the call, and the error its reply amounts to, which `ErrorTable` fixes. |
| `ExecutionEngine.HttpExecutionEngine.RunOnce` | packages/server/order-shared/execution-engine/index.js:52-118 | One attempt at a step. |
| `ExecutionEngine.HttpExecutionEngine.RunStep` | packages/server/order-shared/execution-engine/index.js:31-50 | The retry loop computes the recursive reference. |
| `ExecutionEngine.HttpExecutionEngine.ExecutePhase` | packages/server/order-shared/flow-orchestration/index.js:87-95 | The step loop computes the recursive reference; the first error leaves it. |
| `RateLimiters.IntervalBound` | packages/core/rate-limiter/index.js:9-25 | With calls one at a time, weights up to the capacity, a clock that never goes back and sleeps honoured, no interval grants a key more than capacity + rate * length, whatever other keys do. |
| `RateLimiters.BoundExactly` | packages/core/rate-limiter/index.js:9-25 | Over every such run without a limit on weights: all intervals keep that bound if and only if no weight granted to the key is above the capacity. |
| `RateLimiters.TokensStayWithin` | packages/core/rate-limiter/index.js:9-52 | In every such run each bucket holds between no tokens and its capacity. |
| `RateLimiters.GrantCoversExactly` | packages/core/rate-limiter/index.js:12-18 | A grant takes its whole weight from the bucket exactly when the weight is at most the capacity; only a heavier one reaches the clamp at zero. |
| `RateLimiters.GainIsPerSecond` | packages/core/rate-limiter/index.js:47-52 | The rate is per second: n seconds refill n times the rate. |
| `RateLimiters.LookingChangesNothing` | packages/core/rate-limiter/index.js:27-36 | Asking what remains changes nothing a later call could tell. |
| `RateLimiters.WaitIsExact` | packages/core/rate-limiter/index.js:13-14 | The sleep is the shortest whole number of milliseconds that refills what is missing. |
| `RateLimiters.RefillTwiceExactly` | packages/core/rate-limiter/index.js:47-52 | A refill in between leaves the next one's result the same exactly when the clock did not run back around it, or the bucket is full by then anyway. |
| `RateLimiters.ClockSetBack` | packages/core/rate-limiter/index.js:47-52 | A clock set back by d and back again refills d milliseconds once more, up to the capacity. |
| `RateLimiters.MemoryRateLimiter.Refill` | packages/core/rate-limiter/index.js:47-52 | The bucket gains the time since its last refill up to the capacity; other keys are not touched. |
| `RateLimiters.MemoryRateLimiter.AcquireTokens` | packages/core/rate-limiter/index.js:9-25 | Refills, sleeps exactly when the tokens are short, refills again, and takes the weight. |
| `RateLimiters.MemoryRateLimiter.Remaining` | packages/core/rate-limiter/index.js:27-36 | Refills and answers the whole tokens left. |

## Left out

- SettleProtocol.Sniper2Service.BeginAcquire: the verdict of the price and variant guards is an input, and the acquire slot held around the phase is not tied to the tasks; the pool is modelled on its own.
- Active slots are one set of fresh ids with their sites in place of a map of sets of random strings, and queued requests carry tickets in place of object identity.
- The timer of a queued request is an event that may come at any time; that a drained request's timer is cleared shows as the event doing nothing.
- Durations and `minIntervalMs` are non-negative integers; fractions of a millisecond, invalid dates and the `warnings` texts of a receipt are not modelled.
- ChannelPlans.RebalanceIsOptimal: holds at a fixed clock reading; it says nothing about tasks that arrive later.
- That bytes received with the WebSocket upgrade are decoded again in front of every chunk is not modelled.
- The hash is any function of the hashed fields; SHA-256 and the JSON text it is taken of are not modelled.
- AuctionBudget.HighWaterMark: assumes that nobody else edits the budget of the service and that item ids are fresh.
- RateLimiters.IntervalBound: rounding of floating-point tokens is not modelled, and neither are concurrent calls on one key, which read the bucket before they sleep.
- JSON payloads are opaque bytes, so a frame whose payload does not parse (which throws out of the decoder) is not modelled, and neither are socket errors and request timeouts.
- Ledger ids are numbers, with zero for the empty id and one for `pool`; other falsy ids, unsupported event types and scopes are left out.
- The restock watch: linked task ids, the map from tasks to watches, signal sources, drift detection and the merging of signals are left out; a recorded result may come from anywhere.
- Notifications, reminders, deadline handles and the event bus are left out, except that the verifier counts urgent notifications.
- The order verifier is one loop over the answers; scheduling a second verification while one runs is left out.
- The engine's `captured` and `executionState` are whatever the steps make of the calls so far; request building, interpolation, assertions, captures and challenge or decline detection are part of `World`. Upper-casing covers the ASCII letters.
- The guard's environment flags are given as booleans already parsed; `validateFlow`, the middleware egress, back-off delays and what is computed from a finished phase are left out.
- Bid amounts, bump rules, price and variant guards, drift checks and other single-branch helpers are left out, since they would only add easy members.
- Adapters, site configurations, the restricted YAML parser, browser and mobile engines, vault handlers, HTTP routing and the user interface are left out.
- EngineReplies.PhaseEndsClean: is about worlds in which what a step sends does not depend on its own failed attempts, as in the engine, whose failed requests leave nothing behind that the choice of a request reads; without that condition `SuccessExactly` says the same of the last attempt of each step.
- WatchLifecycle.PausedWaits: is about a watch with no suspended call; a rejection that was suspended before the pause resumes the watch when the policy goes on.
