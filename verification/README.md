# Shard ownership: a model of the splitter client and proofs about it

A coordinator hands out leased grants on shards; each consumer takes a grant over, serves
it and gives it up while the former and the next owner of the shard coordinate through the
coordinator. The client in `splitter-client/` is a set of interleaved tasks: a driver that
keeps a table of grants and closes one-way latches, one task per grant that waits on those
latches and records its progress, watchers that turn latches into messages, and a timer per
lease. Beside them stand a two-way index of the cluster, a lookup by key, a pool of channels
and a retry loop. This project models all of it and proves what holds in every
interleaving, every history and on every input.

Run `dafny verify dfyconfig.toml`.

## How the model is laid out

| Files | What they hold |
|---|---|
| `ids.dfy` | Identifiers, wire shapes with their optional fields, decoding, errors |
| `consumer.dfy`, `ownership.dfy`, `driver.dfy` | The driver's table: what each item makes of it as a function, and the objects that do it in place |
| `driver_loop.dfy`, `loop_laws.dfy`, `shutdown.dfy`, `driver_task.dfy` | The driver's task as a machine; what it makes of messages and failures; when a request to shut it down is served; and its loop in place on an arbitrary schedule |
| `consumer_history.dfy`, `effects.dfy` | Histories of the driver: one automaton per grant, the event log, the lease in force; and what a whole message does, told by its fields |
| `lifecycle.dfy`, `lifecycle_safety.dfy`, `lifecycle_exit.dfy`, `range_closed.dfy`, `rivals.dfy` | All tasks around the grants as a step machine at the grain of single shared-memory operations, and what holds in every interleaving |
| `grant_map.dfy`, `processor.dfy`, `schedule.dfy`, `dispatcher.dfy` | The Processor's and the dispatcher's code in place, on an arbitrary schedule, and its agreement with the step machine |
| `fleet.dfy`, `mirror.dfy`, `fleet_safety.dfy`, `handover.dfy`, `overlap.dfy`, `coverage.dfy` | Any number of consumers, each with a driver and its tasks, and a relaying coordinator: safety of the handover, no gap, end after a clean exit, what a duplicate Assign does, and that the driver's loop is covered |
| `segments.dfy`, `scenes.dfy`, `completion.dfy` | Histories of a fleet built stretch by stretch, and a handover that completes |
| `latch.dfy`, `timer.dfy`, `timer_task.dfy` | The latch and the expiration timer, interleaved at single operations, as machines and in place |
| `wire.dfy`, `cluster*.dfy`, `lookup.dfy` | Decoding and encoding; the cluster snapshot as a two-way index, what each change makes of it, and lookup by key |
| `pool.dfy` | The pool of channels and the resolver |
| `retry.dfy` | The retry loop |
| `folds.dfy` | What a sequence of events makes of a state |

Sequential code that works on changing state is a class whose methods are proved against a
function of the old state; the theorems are about those functions. Concurrent code is a step
machine over values, with an action for each operation that another task can come between. A
`select!` may take any branch whose latch is closed.

The coordinator is not in the repository. `Fleet` assumes of it only what the protocol says
(`proto/atoms/splitter/model.proto:75-88`, `proto/atoms/splitter/consumer.proto:49-79`): it
relays an Update it has read as a Notify to the counterpart grant, and it lets a grant that
takes over become active (by Promote, or by assigning it as Active) only after the
counterpart was reported unloaded or the counterpart's lease lapsed. What it sends may be
lost, reordered and repeated. A history is any sequence of acts; one that is not possible
where it stands changes nothing.

## What the code does that its documentation or the obvious expectation does not say

- A shutdown request that finds the driver anywhere but in its `select!` is lost for good:
  the branch that serves it is guarded by "not closed yet", and the guard is evaluated when
  the next turn begins (`splitter-client/src/consumer.rs:198`), although the request promises
  Deregister and exit (`splitter-client/src/consumer.rs:85`).
  `Shutdown.RequestDuringMessageIsLost` is the schedule, `ServedExactlyWhen` the exact
  condition on any schedule, `ArrivalDecides` the one on the moment of arrival.
- An extension that falls between the timer's read of the deadline and its check is missed
  and the grant expires early. `ExpirationTimer.ExtensionCanBeMissed` is the schedule;
  `EarlyOnlyWhenSuperseded` says that this is the only way.
- A lease that is shortened between the timer's read and its sleep wakes nobody, and the
  timer sleeps out the old lease. `ExpirationTimer.ShorteningCanBeMissed` is the schedule;
  `NewLeaseSleptThroughExactlyWhen` is the exact condition.
- A duplicate Assign gives two overlapping runs of one grant, and the late cleanup of the
  first can delete the GrantMap entry of the second. `Overlap.OverlapLosesEntry` is the
  history; `EntrySurvivesExactlyWhen` is the exact condition.
- A Range that closes itself before its run looks keeps the run from reporting
  RevokedUnloaded, so its heir has to wait until the lease lapses.
  `RangeClosed.CheckDecides` is the exact condition.
- A grant reassigned from one consumer to another disappears from the cluster map when the
  first one is removed. `ClusterExact.ReassignedGrantIsLost` is the input;
  `AssigningIsExactIff` and `RemovalIsPreciseIff` are the exact conditions.
- A peer that moved stays reachable at its old endpoint when dialling the new one fails.
  `Pool.FailedDialKeepsOldEndpoint` is the input; `EndpointsAgreeExactlyWhen` is the exact condition.
- With a zero initial delay, or a zero cap below the timeout, the retry loop can run
  forever. `Retry.TerminatesExactlyWhen` is the exact condition.
- The early return on a closed session skips the clean-up: the driver's `closed` latch stays
  open and the driver expires nothing, so that only the timers still end the grants.
  `DriverLoop.ExitStates` covers both kinds of exit.

## Model

| member | source | states |
|---|---|---|
| Handover.HandoverIsSafe | splitter-client/src/processor.rs:123-136 | In every history of any number of consumers and a relaying coordinator, a run of an allocated grant that is past step 1, and every GrantMap entry of that grant, comes after a run of the revoked counterpart drained and closed `unload`, or after that counterpart's lease lapsed |
| Handover.NeverBothServe | splitter-client/src/processor.rs:110-195 | While any GrantMap shows the new grant, the former one, assigned once, is shown only as Revoked or RevokedUnloaded, unless its lease lapsed |
| Handover.HandoverLeavesNoGap | splitter-client/src/processor.rs:188-194 | A run that reached RevokedUnloaded is still in its GrantMap in that state, or a successor has initialised its Range and closed `load`, or its own ownership expired; from a moment at which no other run of the grant could come to its place, and with no further Assign |
| Completion.HandoverCanComplete | splitter-client/src/processor.rs:110-195 | For any two grants of which one takes over from the other, a history with nothing lapsed ends with the heir Active in its GrantMap and the former run finished, its Range closed and its entry gone |
| Handover.CleanExitEndsEveryRun | splitter-client/src/consumer.rs:227-233 | After a clean exit of the driver all runs of the consumer have expired, and in every continuation each takes a bounded number of further steps, is held up only by the user's `drain` call, and ends with its Range closed and no GrantMap entry |
| Handover.DriverIsNeverBlocked | splitter-client/src/consumer.rs:279-440 | In every reachable state the driver can do what any message, timer or exit asks, and the latches the tasks then see are those of its table; where an Assign would replace an entry, that can be removed, and then the Assign is done |
| Handover.DeliveryUnblocks | splitter-client/src/consumer.rs:377-418 | Once a Promote, a Revoke or a relayed Update has been delivered to the consumer that holds the grant, the current run, wherever it waits for that, can go on |
| Handover.FleetRefinesTasks | splitter-client/src/consumer.rs:312-375 | Every history of the fleet is a run of its tasks, so what holds in all interleavings holds in it |
| Handover.RunsAreSourced | splitter-client/src/ownership.rs:196-208 | A closed `active` or `unloaded` latch of an allocated grant means its counterpart is gone; a closed counterpart-`loaded` latch means a successor closed `load` |
| FleetSafety.FleetStepKeeps | splitter-client/src/consumer.rs:402-418 | Every action of a fleet keeps the invariant that ties drivers, tasks, updates read and messages sent together |
| FleetSafety.FleetReachable | splitter-client/src/consumer.rs:279-310 | That invariant holds in every reachable state |
| FleetSafety.SendableIsOk | proto/atoms/splitter/consumer.proto:49-79 | What the coordinator may send entitles its receiver to close exactly the latches it then closes |
| FleetSafety.ReceiptIsOk | splitter-client/src/consumer.rs:332-345 | An Update that was read reports a latch that some run of that very grant closed |
| Coverage.LoopIsCovered | splitter-client/src/consumer.rs:191-375 | On every schedule of the driver's loop, if the messages it receives were sent: what it does is a sequence of deliveries, removals, timers and a shutdown, each possible in the fleet when the loop comes to it, and the two drivers agree throughout; no Assign is held up by an entry of its id |
| Mirror.ItemLeads | splitter-client/src/consumer.rs:312-440 | Whatever item a driver processes, the tasks can follow with the latches it closes and the Ownership it issues, agree with its table afterwards, and no other consumer is touched |
| LifecycleSafety.LifecycleOrder | splitter-client/src/processor.rs:123-194 | In every interleaving the GrantMap writes of a run are a prefix of the five states; `load` implies the Range initialised after the counterpart unloaded or the grant was active; Active and Revoked are written only after those latches closed; `unload` implies the drain completed after load, activation and revocation |
| LifecycleSafety.MapHoldsOnlyLiveRuns | splitter-client/src/processor.rs:117-121 | Every GrantMap entry belongs to a run that has not cleaned up, even with overlapping runs; with no live run the maps are empty |
| Rivals.EntryIsTheRunsOwn | splitter-client/src/processor.rs:135-190 | From a moment at which no other run of the grant can come to its place in the GrantMap, and while the grant is not assigned again, a run past step 1 that has not cleaned up is in the GrantMap with the last state it wrote |
| Rivals.RivalTakesEntry | splitter-client/src/processor.rs:206-211 | Where another run of the grant can still come to that place, steps of it alone, once its lease lapsed and its `drain` call returned, take the entry while the first run goes on |
| LifecycleSafety.SignalsSentAtMostOnce | splitter-client/src/consumer.rs:448-493 | Per Assign the outbound log holds each of the three signals at most once and only if its latch closed: the assigned grant with state AllocatedLoaded, with state RevokedUnloaded, or, for a revoke request, as it is; a request the user did not make appears only when every filter of the chain declined |
| LifecycleSafety.StepKeeps | splitter-client/src/processor.rs:110-211 | Every step of every task keeps the invariant behind these results |
| RangeClosed.ClosedRangeBarsUnload | splitter-client/src/processor.rs:185-190 | In every interleaving: once the Range is closed before the check of step 5, no continuation closes the run's `unload`, writes RevokedUnloaded or sends its Update |
| RangeClosed.CheckDecides | splitter-client/src/processor.rs:185-188 | A run at that check unloads with its own steps if and only if it finds the Range open, even if the Range closes right after |
| RangeClosed.BailIsFinal | splitter-client/src/processor.rs:124-192 | Expiry on arrival, and a wait that ends because the grant expired or was revoked, or the Range closed, are the end: the run writes nothing more and closes neither `load` nor `unload`, whatever follows |
| RangeClosed.BlockedExactlyWhen | splitter-client/src/ownership.rs:196-251 | At each wait the run can go on exactly when one of the latches that wait is for is closed |
| Overlap.EntrySurvivesExactlyWhen | splitter-client/src/consumer.rs:325-330 | In any reachable state in which a run holds its grant and its entry: the entry survives everything short of another Assign if and only if every other run of the grant there is past its cleanup, with another filter, past this filter, or expired before dispatch |
| Overlap.OverlapLosesEntry | splitter-client/src/consumer.rs:325-330 | A history of exactly two Assigns of one grant: before its last act the second run has its entry and the first, expired, is about to clean up; that cleanup takes the entry, and the second run goes on without it |
| Overlap.OlderRunsHaveExpired | splitter-client/src/consumer.rs:325-330 | Of two runs of a grant at a consumer the earlier has expired |
| LifecycleExit.BoundedExit | splitter-client/src/processor.rs:110-211 | Once a held grant expired, its run takes at most seventeen more steps, only the user's `drain` call can keep it waiting, and when it has ended its Range is closed and no GrantMap shows it |
| LifecycleExit.ExpiredIsNeverBlocked | splitter-client/src/ownership.rs:196-251 | After expiry every wait of a run has a branch to take, except the call of `drain` itself |
| LifecycleExit.OwnStepsBounded | splitter-client/src/processor.rs:110-211 | In every continuation the steps of a run and the rank it is left with stay within the rank it had |
| LifecycleExit.AllRunsBounded | splitter-client/src/processor.rs:110-211 | Any number of runs together take a bounded number of further steps |
| Processors.Task.RunGrant | splitter-client/src/processor.rs:110-195 | On every schedule the five steps with their waits, writes and latches, and the cleanup, leave latches and GrantMaps exactly as the step machine says; a Range closed at any point before the check keeps `unload` open; when the run ends the Range is closed |
| Processors.Task.TakeOver | splitter-client/src/processor.rs:123-153 | Steps 1 and 2, step for step those of the machine |
| Processors.Task.Serve | splitter-client/src/processor.rs:155-172 | Steps 3 and 4 up to the write of Revoked |
| Processors.Task.GiveUp | splitter-client/src/processor.rs:173-194 | `drain` is given what is left of the lease, zero when it has passed; then the drain and step 5; `unload` is closed when it comes to its end, and stays open if the Range was closed before the check |
| Processors.Task.LetGo | splitter-client/src/processor.rs:185-193 | From the check on: given up only with the Range closed, and otherwise `unload` is closed |
| Processors.Task.DropCleanup | splitter-client/src/processor.rs:206-211 | The guard deletes the grant, then closes the Range |
| Processors.Task.TryHandle | splitter-client/src/processor.rs:90-106 | A Processor waits for its `init`, then declines or runs the grant to its end |
| Processors.Task.AwaitInit | splitter-client/src/processor.rs:96 | The wait ends only once the filter has been initialised |
| Dispatcher.InitChain | splitter-client/src/dispatcher.rs:102-104 | Every filter of the chain is initialised before the router starts |
| Processors.Task.RunChain | splitter-client/src/dispatcher.rs:211-231 | The chain of filters on every schedule: nothing after expiry, the first filter that accepts, else a request to be revoked |
| Processors.Task.Select | splitter-client/src/ownership.rs:196-251 | A wait returns a branch of its `select!` whose latch is closed, while any other task may act in between |
| Processors.ReadyIsFiring | splitter-client/src/ownership.rs:196-251 | A branch can be taken exactly if the wait at that point offers it and its latch is closed |
| Schedules.EveryScheduleIsInOrder | splitter-client/src/dispatcher.rs:211-231 | On every schedule writes and latches are in order, and a finished task found the grant expired, closed its Range, or asked for a revoke after all filters declined |
| Schedules.ClosedRangeBarsUnload | splitter-client/src/processor.rs:185-190 | On every schedule a Range closed before the check bars `unload` and the write of RevokedUnloaded from then on |
| Schedules.OpenRangeUnloads | splitter-client/src/processor.rs:185-188 | On every schedule a task that finds its Range open at the check unloads when it is next its turn |
| Schedules.InterleavingsAreSchedules | splitter-client/src/dispatcher.rs:186-209 | Every interleaving of all tasks is, for one task, a schedule, with the same latches and GrantMap contents at the end |
| Schedules.StepShows | splitter-client/src/grant_map.rs:40-64 | Every step of any task is one event, or none, of that schedule |
| Dispatcher.Dispatch | splitter-client/src/dispatcher.rs:191-207 | The task for an Assigned event, from spawn to end: final latches and maps are the machine's, `load` and `unload` are in order, no `unload` if the Range was closed at any point before the check, and it ends in one of three ways |
| GrantMaps.GrantMap.Write | splitter-client/src/grant_map.rs:40-43 | The entry of the id is replaced, all others stay |
| GrantMaps.GrantMap.Delete | splitter-client/src/grant_map.rs:61-64 | The entry is removed and returned; a missing one changes nothing |
| GrantMaps.GrantMap.Get | splitter-client/src/grant_map.rs:67-70 | Finds an entry exactly if there is one |
| ConsumerHistory.Projection | splitter-client/src/consumer.rs:279-440 | After any history, with batches, duplicates and invalid shards, what the driver holds about a grant equals a one-grant automaton run on the items naming it and every Extend |
| ConsumerHistory.LogIsTheTable | splitter-client/src/consumer.rs:312-375 | After any history the event log replays to exactly the table, alternates per id, each entry's flag is its `revoked` latch, and every Ownership ever issued is in the table or expired |
| ConsumerHistory.HistoryKeeps | splitter-client/src/consumer.rs:312-440 | Every history keeps these facts for every grant |
| ConsumerHistory.DeadlineIsLeaseInForce | splitter-client/src/consumer.rs:319-323 | The deadline is what the last item that may set it carries: the Assign, whose own lease counts or else thirty seconds from its reading, a Revoke with a lease, or an Extend received while unrevoked |
| ConsumerHistory.RevokedDeadlineIsFixed | splitter-client/src/consumer.rs:420-429 | From any state, until it is assigned, revoked or removed again, nothing moves a revoked grant's deadline |
| ConsumerHistory.RevokeBoundsTheLease | splitter-client/src/consumer.rs:387-429 | Of items sent in order with a Revoke among them whose lease is no shorter than any the others gave the grant, however many have arrived and whatever is extended meanwhile, the consumer's deadline for the grant is never beyond the lease that the Revoke carries |
| ConsumerHistory.ClosedExactlyAfterExit | splitter-client/src/consumer.rs:227-232 | Only the last step of the exit closes the `closed` latch |
| ConsumerHistory.EmptyTableMeansExpired | splitter-client/src/consumer.rs:227-232 | When the table is empty every Ownership ever issued has expired, whatever timers fire later |
| Effects.MessageEffect | splitter-client/src/consumer.rs:279-429 | From any state, a whole message of the coordinator by its fields: a Revoke flags exactly the named grants in the table, closes their `revoked` and gives them the last lease it names, a Promote closes their `active`, a Notify the counterpart latch its state names, an Extend moves every unrevoked deadline, each Assign with a shard in full issues an Ownership with the latches, the deadline and the expiry that its state, its lease and the clock readings give and replaces the former one; nothing else changes, and other messages change nothing |
| Effects.RevokesDo | splitter-client/src/consumer.rs:387-400 | The same for a batch of Revokes, with duplicates and unknown ids |
| Effects.AssignsDo | splitter-client/src/consumer.rs:312-375 | The same for a batch of Assigns, with duplicates and elements that do not decode, and the log they leave |
| DriverLoop.ExitStates | splitter-client/src/consumer.rs:191-234 | On every schedule the latch is closed exactly when a `break` exit has cleaned up, and then the table is empty and every Ownership ever issued has expired; the early return never closes it |
| DriverLoop.LoopIsHistory | splitter-client/src/consumer.rs:191-310 | On every schedule the table is what some history of items makes of the empty one |
| LoopLaws.MessageIsHandled | splitter-client/src/consumer.rs:236-277 | Whatever comes between, a message that wakes the driver is handled with its next step: only a cluster message that applies changes the snapshot, a closed session ends the task, a session message leaves its ttl |
| LoopLaws.FailureCleansUp | splitter-client/src/consumer.rs:206-225 | A heartbeat that cannot be sent, a broken or ended stream: from then on the task only cleans up, with an error, and puts nothing more on the queue |
| LoopLaws.ExitsHaveReasons | splitter-client/src/consumer.rs:191-234 | The only ways to each of the exits |
| LoopLaws.AbortIsFinal | splitter-client/src/consumer.rs:212-218 | After the early return no entry is removed and the latch stays open |
| LoopLaws.QueueOrder | splitter-client/src/consumer.rs:196-210 | On every schedule the queue holds the heartbeats that fired while the driver waited, and at a clean exit then Deregister and the end of the session, once each and in this order |
| Shutdown.ArrivalDecides | splitter-client/src/consumer.rs:196-205 | A request can be served if and only if it finds the driver in `select!`; otherwise no continuation sends Deregister or ends cleanly |
| Shutdown.RequestDuringMessageIsLost | splitter-client/src/consumer.rs:196-214 | A schedule on which the request arrives while an Assign is handled, its branch is offered as soon as the driver waits again, and is never taken |
| Shutdown.ServedExactlyWhen | splitter-client/src/consumer.rs:196-205 | On every schedule the driver comes to deregister if and only if the first request arrives while it is in `select!` and its branch is then offered before any other |
| DriverTasks.DriverTask.Run | splitter-client/src/consumer.rs:191-234 | The task in place, on every schedule of requests, timers, messages and ready branches, does exactly the machine's steps; a `break` comes with the clean-up done, the early return without |
| DriverTasks.DriverTask.TakeTurn | splitter-client/src/consumer.rs:196-225 | One turn: the guard as it stands on entry, then the `select!`, then what the branch does |
| DriverTasks.DriverTask.EvaluateGuard | splitter-client/src/consumer.rs:198 | The request's branch is enabled exactly if the latch is open when the turn begins |
| DriverTasks.DriverTask.Select | splitter-client/src/consumer.rs:197-224 | Any branch that is offered may win, the request's only if enabled and its latch closed, while others act in between |
| DriverTasks.DriverTask.HandleInbound | splitter-client/src/consumer.rs:236-277 | Only a closed session fails, a session message gives back its ttl; the snapshot changes only by a cluster message that applies, and, with no timer on the way, the table only by a message for it and as its fields say |
| DriverTasks.DriverTask.ApplyCluster | splitter-client/src/consumer.rs:259-266 | A cluster message that fails leaves the old map |
| DriverTasks.DriverTask.HandleClientMessage | splitter-client/src/consumer.rs:279-310 | A message is its batch of items in order, with others acting between them; with no timer on the way the table and every Ownership end as the message's fields say |
| DriverTasks.DriverTask.OnAssign | splitter-client/src/consumer.rs:312-375 | An undecodable shard changes nothing; else the old entry is removed and a new Ownership issued, entered and announced, with the lease of the Assign or thirty seconds from the first reading, and expired if the second is past it |
| Drivers.Driver.OnPromote | splitter-client/src/consumer.rs:377-385 | Replaces the grant and closes `active`, of a known grant only |
| Drivers.Driver.OnRevoke | splitter-client/src/consumer.rs:387-400 | Replaces the grant, sets flag and latch, and the deadline if there is a lease |
| Drivers.Driver.OnNotify | splitter-client/src/consumer.rs:402-418 | Closes the counterpart latch that the relayed state names |
| Drivers.Driver.OnExtend | splitter-client/src/consumer.rs:420-429 | Moves the deadline of every unrevoked entry, in whatever order they are visited |
| Drivers.Driver.RemoveGrant | splitter-client/src/consumer.rs:431-439 | Expires the Ownership, then removes the entry and announces it |
| DriverTasks.DriverTask.CleanUp | splitter-client/src/consumer.rs:227-232 | Removes every entry, in whatever order, and closes the latch |
| DriverTasks.DriverTask.SayGoodbye | splitter-client/src/consumer.rs:198-204 | Deregister, then the end of the session, then the clean-up |
| Drivers.Driver.FireTimer | splitter-client/src/consumer.rs:495-524 | A timer closes `expired` of the Ownership it was made for and nothing else |
| Ownerships.Ownership.constructor | splitter-client/src/ownership.rs:116-137 | `active` is closed for Active, `revoked` for Revoked and RevokedUnloaded, `expired` if the lease has passed, nothing else |
| Ownerships.Ownership.SetExpiration | splitter-client/src/ownership.rs:167-170 | Only the deadline changes |
| LatchProtocol.NoLostWakeUp | splitter-client/src/latch.rs:39-59 | For any closers and waiters at single-operation grain, once the winning closer finished no waiter is blocked, though its send may have found no receiver; no wait returns before the close; at most one value is sent |
| LatchProtocol.WaitsReturn | splitter-client/src/latch.rs:73-87 | From then on every wait has a step to take and a measure that each of its steps lowers and no other task raises |
| LatchProtocol.ScheduleKeeps | splitter-client/src/latch.rs:28-87 | Every schedule keeps the invariant behind it |
| LatchProtocol.Latch.Close | splitter-client/src/latch.rs:39-44 | On every schedule of the other tasks, `close` does exactly the machine's steps, and when it is over the latch is closed |
| LatchProtocol.Latch.Closed | splitter-client/src/latch.rs:73-87 | On every schedule the waiting loop does exactly the machine's steps, and it returns only once the latch has been closed |
| LatchProtocol.Latch.Reader | splitter-client/src/latch.rs:50-55 | A new reader has seen the channel's current version |
| LatchProtocol.Latch.CloneReader | splitter-client/src/latch.rs:22-26 | A clone has seen what the reader it is made from has seen |
| ExpirationTimer.FiresOnlyWhenDue | splitter-client/src/consumer.rs:495-524 | Under all interleavings the timer expires only on a clock reading that reached a deadline it read in the same iteration |
| ExpirationTimer.EarlyOnlyWhenSuperseded | splitter-client/src/consumer.rs:503-517 | For every firing on every schedule: if no `set_expiration` came between the read and the closing, the reading had reached the deadline in force; if that deadline is beyond the reading, another one was set after the read |
| ExpirationTimer.DueIsExpired | splitter-client/src/consumer.rs:505-522 | Once a clock reading has reached the deadline that was read, the next two steps of the timer close `expired` on every schedule, even if the deadline is moved meanwhile |
| ExpirationTimer.ExtensionCanBeMissed | splitter-client/src/consumer.rs:513-517 | A schedule on which that happens |
| ExpirationTimer.NewLeaseSleptThroughExactlyWhen | splitter-client/src/consumer.rs:500-522 | A new lease can be slept through if and only if it is set after the timer read the deadline it then goes to sleep on and before that sleep begins |
| ExpirationTimer.ShorteningCanBeMissed | splitter-client/src/consumer.rs:500-511 | A schedule on which a lease is shortened from 100 to 10 and the grant has not expired at 50, nor will it, whatever the clock reads, until the sleep for the old lease ends |
| ExpirationTimer.FiresWhenSleepEnds | splitter-client/src/consumer.rs:511-518 | Undisturbed after the deadline, it expires within five steps of its sleep ending |
| TimerTasks.TimerTask.Run | splitter-client/src/consumer.rs:495-524 | The loop over an Ownership, on every schedule of the driver and the clock, does exactly the machine's steps, and ends only with `expired` closed |
| ClusterIndex.ReachableIsIndexed | splitter-client/src/cluster.rs:65-145 | Every map reached by any messages keys consumers by their own id and has each grant's consumer present and listing it |
| ClusterExact.AssigningIsExactIff | splitter-client/src/cluster.rs:203-240 | Assigning keeps the lists the exact inverse if and only if the ids are distinct and new |
| ClusterExact.RemovalIsPreciseIff | splitter-client/src/cluster.rs:260-266 | Removing a consumer deletes precisely its grants if and only if all it lists that still exist are its own |
| ClusterExact.ReassignedGrantIsLost | splitter-client/src/cluster.rs:221-238 | Two messages after which that condition has failed: the reassigned grant is gone and its owner still lists it |
| ClusterExact.ReachableIsExact | splitter-client/src/cluster.rs:87-145 | With fresh ids every reachable map is an exact index |
| ClusterExact.ExactIsInverse | splitter-client/src/cluster.rs:253-266 | In an exact map a consumer lists precisely the grants it owns, once each |
| ClusterExact.DropOrderIsIrrelevant | splitter-client/src/cluster.rs:103-113 | Dropping grants one by one gives the same map in every order |
| ClusterChange.ChangeIsItsParts | splitter-client/src/cluster.rs:87-145 | A change with five parts equals the five one-part changes in order, and fails exactly when one of them does, with its error |
| ClusterChange.SnapshotIsChangeOfEmpty | splitter-client/src/cluster.rs:179-201 | A snapshot whose origin decodes is one change of the empty map, apart from the origin |
| ClusterChange.LastAssignmentWins | splitter-client/src/cluster.rs:203-240 | Decodable assignments never fail, and each grant ends as the last one naming it says |
| ClusterLaws.ShardsPart | splitter-client/src/cluster.rs:99-114 | A set of shards that decodes replaces the old one field by field; a grant stays, as it was, exactly if its shard is in the new set; the consumers' lists lose exactly the grants they owned that left, in order; else InvalidMessage |
| ClusterLaws.UpdatePart | splitter-client/src/cluster.rs:242-251 | Known grants take the state of the last update that names them and the shard of the last that carries one; it fails exactly when a known grant gets a shard that does not decode |
| ClusterLaws.UnassignPart | splitter-client/src/cluster.rs:253-258 | Exactly the named grants leave, with their places in their owners' lists |
| ClusterLaws.RemovePart | splitter-client/src/cluster.rs:260-266 | Exactly the named consumers leave and exactly the grants they list; ids that do not parse are passed over |
| ClusterAssignLaws.AssignPart | splitter-client/src/cluster.rs:203-240 | Each grant becomes what the last element naming it says, a consumer stays the one first known under its id, its list goes on in the order of the batch; it fails exactly when something does not decode |
| ClusterAssignLaws.SnapshotPart | splitter-client/src/cluster.rs:179-201 | Identity, origin, shards, grants and consumers are the message's alone; it fails exactly when something in it does not decode |
| ClusterAssignLaws.LaterPartsPrevail | splitter-client/src/cluster.rs:99-142 | Where the parts of one change meet: unassign and remove beat everything, an update beats an assignment, and an assignment stands even on a shard that the new set lacks |
| ClusterMaps.ClusterMap.Apply | splitter-client/src/cluster.rs:65-85 | The new snapshot or the error is that of the specification, the effect of a change of one part is the one its fields say, and the old map stays |
| ClusterMaps.ClusterMap.ApplyChange | splitter-client/src/cluster.rs:87-145 | The five phases in place, given up on the first error |
| ClusterMaps.ClusterMap.ApplyAssignment | splitter-client/src/cluster.rs:203-240 | An assignment that decodes claims its grants for its consumer and appends them to its list; else it fails, and what it leaves half done is that of the specification |
| ClusterMaps.ClusterMap.UpdateGrant | splitter-client/src/cluster.rs:242-251 | A known grant takes the state and, if there is one, the shard; an unknown one is skipped; an invalid shard of a known one fails and changes nothing |
| ClusterMaps.ClusterMap.DropGrant | splitter-client/src/cluster.rs:253-258 | The grant leaves the map and its owner's list |
| ClusterMaps.ClusterMap.RemoveConsumer | splitter-client/src/cluster.rs:260-266 | The consumer and every grant it lists leave the map |
| ClusterMaps.ClusterMap.Lookup | splitter-client/src/cluster.rs:147-172 | A covering grant of the earliest wanted state that has one, nothing exactly when none has, whatever the order of visit |
| Lookup.ChainPartitions | splitter-client/src/cluster.rs:272-289 | Of a chain of shards with increasing bounds and open ends exactly one covers each key in scope, and none any other |
| Lookup.CoverIsLastReached | splitter-client/src/cluster.rs:282-288 | In a chain the cover of a key in scope is the last shard whose lower bound the key has reached |
| Lookup.BoundaryBelongsAbove | splitter-client/src/cluster.rs:282-288 | A key equal to the bound between two shards belongs to the upper one and to no other |
| Lookup.LookupFollowsBounds | splitter-client/src/cluster.rs:147-172 | With one grant per shard in a wanted state, a lookup returns the grant on that last shard |
| Lookup.LookupAtBoundary | splitter-client/src/cluster.rs:282-288 | At a boundary it returns the grant on the upper shard |
| Lookup.FirstDifferenceDecides | splitter-client/src/cluster.rs:282-287 | Key texts are ordered by the first character in which they differ |
| Lookup.PrefixComesFirst | splitter-client/src/cluster.rs:282-287 | A text comes before what it is the beginning of, and not after |
| Lookup.EarliestStateWins | splitter-client/src/cluster.rs:164-170 | The answer is in the first of the given states that a covering grant is in |
| Lookup.DefaultPreference | splitter-client/src/cluster.rs:152-162 | Given no states, Active goes before Revoked before AllocatedLoaded before RevokedUnloaded, and no other state is found |
| Lookup.LookupIsDeterministic | splitter-client/src/cluster.rs:147-172 | Over such a chain, with at most one grant per shard and state, two lookups agree |
| Lookup.OwnerIsPresent | splitter-client/src/resolver.rs:59-65 | In an indexed map the owner found is present under its own id |
| Pool.ConnectionPool.ApplyCluster | splitter-client/src/pool.rs:82-126 | The pool after a cluster: only peers with an endpoint, never itself; departed peers gone, unchanged endpoints with their channel, new and moved ones dialled, failed dials as before |
| Pool.ConnectionPool.Survey | splitter-client/src/pool.rs:83-107 | The work lists hold every stale peer once, whatever the order of visit |
| Pool.ConnectionPool.DialAll | splitter-client/src/pool.rs:109-124 | Each entry is the dialled one or, after a failure, the old one |
| Pool.ConnectionPool.Resolve | splitter-client/src/pool.rs:69-78 | Succeeds exactly for another consumer with an entry |
| Pool.EndpointsAgreeExactlyWhen | splitter-client/src/pool.rs:82-126 | The endpoints are a function of the last cluster alone if and only if no dial of it failed |
| Pool.HistoryIsSound | splitter-client/src/pool.rs:82-126 | Over any sequence of clusters self is no key, keys are within the last cluster's peers, and each channel was dialled from its stored endpoint |
| Pool.ChannelIsKept | splitter-client/src/pool.rs:99-103 | A peer advertised unchanged since some cluster keeps that very channel |
| Pool.FailedDialKeepsOldEndpoint | splitter-client/src/pool.rs:115-122 | Two clusters in which a peer moves and its dial fails: the pool is unchanged and the peer resolves to the channel of its old endpoint |
| Pool.LocationExactlyWhenFound | splitter-client/src/resolver.rs:59-65 | In every reachable cluster the location is known exactly when a lookup finds an owner, and is that owner's |
| Pool.ResolvesExactlyWhen | splitter-client/src/resolver.rs:70-83 | With no failed dial, a key resolves exactly when its domain matches and its owner is another consumer with an endpoint, and then to a channel dialled from it; else another domain is an invalid message, and anything else no resolution |
| Pool.ResolverPreference | splitter-client/src/resolver.rs:46-50 | The resolver prefers Active, then AllocatedLoaded, then Revoked, and finds no other |
| Retry.RetryOwnership | splitter-client/src/retry.rs:34-56 | However long it is watched: every earlier attempt failed as not owned, draining or unavailable, the result is the last attempt's, the sleeps are as scheduled and total at most the timeout, and the attempts are bounded |
| Retry.TerminatesExactlyWhen | splitter-client/src/retry.rs:34-56 | The loop ends under every clock if and only if the timeout is zero, or the first delay is positive and the cap is positive or the first delay reaches the timeout |
| Retry.DelayClosedForm | splitter-client/src/retry.rs:45-54 | The k-th delay is min(initial * 2^k, max) for k at least 1 |
| Retry.SleepClosedForm | splitter-client/src/retry.rs:41-54 | The k-th sleep is that delay or what is left of the timeout, whichever is less, and the clock stands at the attempts, the sleeps and their overruns so far |
| Retry.AttemptBound | splitter-client/src/retry.rs:34-56 | At most ceil(timeout / min(initial, max)) + 1 attempts |
| Retry.SleepWithinClock | splitter-client/src/retry.rs:45-54 | The sleep asked for never exceeds the timeout nor the time that passed |
| Wire.ShardRoundTrip | splitter-client/src/wrap.rs:269-292 | Decoding undoes encoding, and encoding gives back a shard that decoded, with its kind if it was a known one |
| Wire.InstanceRoundTrip | splitter-client/src/wrap.rs:64-109 | An instance survives encoding and decoding exactly if it was not created before the epoch |

## Left out

- Retry.RetryOwnership: overflow of a delay or a deadline in the clock types is not modelled.
- Handover.HandoverIsSafe: that a lease lapsed is the coordinator's word, not a comparison of two clocks; ConsumerHistory.RevokeBoundsTheLease is what the coordinator may rely on when it says so.
- Handover.HandoverLeavesNoGap: says nothing once another run of the grant can come to the same place in the GrantMap; OverlapLosesEntry shows why.
- Lookup.ChainPartitions: key text is ordered by its characters, with no encoding underneath.
- Processors.Task.GiveUp: `drain` returns when the schedule says so, whatever timeout it is given.
- Processors.Task.RunChain: the Range that the accepting factory would build exists from the start.
- DriverTasks.DriverTask.HandleClientMessage: what the message's fields say of the end is stated for a schedule on which no timer fires on the way; a timer that does closes one `expired` latch more. Others act between the items of a message, not between the writes of one item, such as the deadline and the latch of a Revoke or the deadlines of an Extend. The timer's own module interleaves those writes with its reads.
- DriverTasks.DriverTask.Run: the queue takes every frame but a heartbeat, and applying a cluster message is one step.
- Fleet: a driver may remove an entry at any time, which is more than the code does; it removes one before its id is assigned again and all of them at its exit.
- Schedules.InterleavingsAreSchedules: takes the chain's GrantMaps to be distinct objects, one per Processor, and its filters to be initialised, as they are when the router starts; the in-place code needs neither.
- The fleet and the watchers are step machines on values only. The driver, the timer, the latch and the run of a grant are machines and in-place code tied to them on an arbitrary schedule. A schedule that ends early stands for a task that waits for ever.
- All consumers of a fleet have the same number of filters; factories and users may behave differently at each.
- gRPC transport, back-pressure of the outbound queue, lag of the event broadcast and dropping of messages when a receiver is gone: queues and events are logs that only grow.
- A watch channel keeps its old value when it has no receiver. This is modelled for the latch; that the driver's cluster channel has a receiver is taken as given.
- Abort of watchers is allowed at any time, before and after a send; when it takes effect is not modelled.
- The coordinator's choice of shards and consumers, its clock and its storage.
- The messages Register, Released and Status, and the heartbeat's interval: they do not touch the grant table.
- Text of UUIDs, names and timestamps: ids are abstract and time is an integer number of milliseconds.
- `proxy.rs`, `session.rs`, `wrap.rs`, the peer crate and the examples: conversions and plumbing that would only add easy members.
