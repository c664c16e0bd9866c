# The dispatch and timer engine of rtactor

rtactor runs *reactive* actors inside a dispatcher: one bounded first-in first-out queue shared by all of them, a vector of
behaviours sorted by actor identifier, and an ordered map of pending timeouts. The same dispatcher is driven either by a thread with
the clock of the system or by a discrete-event simulator with a clock of its own. *Active* actors own a mailbox and wait in it. This
project models that engine and proves what whole runs of it keep, for every behaviour an actor may have.

## How it is built

The engine exists twice. The first form is a value, `Engine`, with functions that say what one message, one command, one timeout, one
registration does to it; all properties of runs are proved about this form. The second form is the one of the program: classes whose
methods change their fields, with the loops of the program (`Dispatchers`, `SimulationDispatchers`, `ThreadedDispatchers`,
`ActiveMailboxes`, `Aggregators`, `Broadcasting`). Every method there is proved to do to the objects what the function of the same name
does to the value. Theorems about runs are stated over ticks of the simulator and steps of the threaded loop, or over sequences of
`Act`, of which both kinds of runs are instances (`Runs.RunIsActs`, `Runs.StepsAreActs`); so they hold of the loops. The theorems of
`TimerProtocol` and of the client state machines stand on models of their own, built from the same timer functions; where every arm is,
is proved on the engine too (`Firing`).

| file | content |
|---|---|
| `Instants.dfy`, `Timers.dfy` | instants with infinity, durations with their maximum, timer keys, the ordered map of pending timeouts |
| `Engines.dfy` | the engine as a value: queue, routing of messages, behaviours, the dispatcher's own requests, the shutdown drain |
| `Commands.dfy`, `Requests.dfy` | what a call of a behaviour and each of its commands does; what comes of requests to the dispatcher, and of those that nobody can process |
| `Registry.dfy`, `Dispatchers.dfy` | the sorted vector as a map; the scheduler, the dispatcher and the process context as objects |
| `Simulation.dfy`, `Splitting.dfy`, `SimulationDispatchers.dfy` | ticks and runs of the simulator; splitting an interval; its triple loop |
| `Timing.dfy`, `Termination.dfy`, `Recorders.dfy`, `Waiting.dfy` | the simulated clock, when a run ends, what a run of recording actors is, waiting for a message |
| `Threaded.dfy`, `ThreadedDispatchers.dfy` | the threaded loop in any environment; it and the simulator compared |
| `TimerProtocol.dfy` | the life of a timeout from its arm on, and what `is_scheduling` really tells |
| `Ledger.dfy`, `Ordering.dfy`, `Owners.dfy` | where every request is; in which order messages are processed, and which behaviour they change; which identifiers are whose |
| `Firing.dfy`, `Precedence.dfy` | where every arm of a timer is, and in which order timeouts fire |
| `Runs.dfy` | the runs of both loops as sequences of acts, and what follows for them; sessions with the simulator |
| `ActiveMailboxes.dfy` | selective receive and the messages it sets aside |
| `Aggregation.dfy`, `Snapshots.dfy`, `Selections.dfy`, `Aggregators.dfy` | the profiling aggregator as handlers on values; its map, its set and what it notifies; what is registered and selected; as an object |
| `Broadcasting.dfy`, `Stopping.dfy` | the acceleration broadcaster of the documented example; it, its timer and the queue when it is stopped |

A behaviour is any deterministic program: given the state, the actor and the clock, the message and the replies to the commands given so
far, it gives the next command or ends; it may adapt to every error and identifier it gets back. The number of commands of one call is
bounded, since every call returns. A run of the simulator is a number of ticks, one for each turn of its innermost loop. `Ends` says
that a run returns, and with what; it has one result at most (`OneEnd`). A break function may keep and change what it has captured,
and take messages out of mailboxes. Since the program itself does not return from some runs, the
methods with its loops take, as a ghost argument, the number of ticks after which the run ends; that is no restriction, as the run
returns exactly when there is one. Fields called history in the code (`log`, `issued`, `mailed`, `answers`, `dropped`, `taken`,
`armed`, `cancelled`, `displaced`, `arm`, `origin`, `Skipped`) are read by no operation and only let the theorems speak about the past.

## Where the code is not what it says

Each of these is followed as the code has it, with the exact condition under which the expected property holds.

- The comment of `Timer::is_scheduling` (src/reactive.rs:596-600) says that it copes with a timer unscheduled after its timeout was
  queued. It does not: only identifiers are compared, and `unschedule` keeps the identifier. `CancelledTimeoutStillMatches` is the
  counterexample; `CancelExactly` says when a cancellation keeps its word: exactly when the timeout of the latest arm was not in the
  queue yet. `IsSchedulingExactly` says what is decided in general: whether two arms are a multiple of 2^32 arms apart. As `Timer::new`
  uses identifier 0, which is also the first one handed out, a timer never armed matches the first timeout of all.
- No cancellation takes out an entry armed at infinity (`CancelNumbered` says exactly what one takes out), and no new arm of its own
  timer does. It leaves the map if and only if some timer is armed at infinity once the identifiers have come round to its own
  (`InfiniteEntryStaysExactly`), so never with at most 2^32 arms (`InfiniteEntryStays`).
- `process_until` does not tell its caller that the dispatcher was stopped, so `process_until(t1); process_until(t2)` always makes both
  calls. With the clock not past t2 they leave what `process_until(t2)` leaves if and only if the first call does not stop the
  dispatcher, or stops it with the clock already at t2 and nothing left in the queue (`SplitExactly`); `StopBeforeFirstTarget` is an
  input where they do not. Past its instant every call still processes one message: the two ways agree if and only if there is none,
  or the first one leaves the queue empty or makes the program panic (`SplitPastTarget`; `StopPastTarget` is an instance), and so not
  with two messages queued, the first of which does not stop the dispatcher (`SplitPastTargetDiffers`).
- With a queue of size zero a timeout that is due before the target keeps the simulator busy for ever. A run then ends if and only if
  its target is finite, and it starts at the target or past it or no timeout is due before the target (`NoRoomEndsExactly`).
- The error branch of the aggregator (src/profiling_aggregator.rs:273) looks for metrics that the framework never puts there. A round
  is over exactly when its last message answered the outstanding request and no name further on is registered any more
  (`RoundEndsExactly`); without that answer it is stuck for ever, through any new snapshot notification (`UnansweredRoundIsStuck`).
- The broadcaster of the example, stopped while the timeout of its timer is in the queue, arms the timer again although it is stopped
  (`StoppedArmsAgain`), and then once more for each timeout of its own (`StoppedRearmsExactly`). It stays quiet until the next start
  if and only if the timeout of the latest arm was not in the queue when the stop was processed (`StoppedStaysQuietExactly`).
- `active_request_until_cond` looks at one message only. From a mailbox that is not empty a request is decided by the old message in
  it: it is answered if and only if that happens to be its answer, whatever the receiver does (`OldMessageDecides`;
  `OldNotificationDecides` is an instance). From an empty one it is answered if and only if the first message that comes is its answer
  (`RequestSeesOneMessage`). Any other message is lost.
- Counts of 2^31 samples and more turn negative where the broadcaster divides by them. What it sends is an average for every period of
  n samples whose sums do not overflow, if and only if n is less than 2^31 (`AverageExactly`).
- A message that `request_for` sets aside overtakes those set aside before it (`CallPutsInFront`).

## Model

| member | source | states |
|---|---|---|
| Instants.InstantsTotallyOrdered | src/reactive.rs:384-412 | the comparison of instants is a total order in agreement with equality, with infinity on top |
| Instants.InfinityAbsorbs | src/reactive.rs:313-382 | infinity stays infinity, is the maximal duration away from every finite instant and is reached by it from everywhere; finite instants are as far apart as their ticks say, and no time apart the other way round |
| Instants.AddThenSub | src/reactive.rs:313-382 | adding any representable duration, the maximum included, and subtracting again gives it back; the other way round saturates at zero; longer durations give later instants |
| Timers.KeysTotallyOrdered | src/reactive.rs:622-644 | timers are totally ordered, by the earlier deadline, and with equal deadlines by the smaller identifier, so that they can key the map |
| Timers.InsertIsMapUpdate | src/reactive.rs:565-567 | storing a timer keeps the order of the map and changes exactly the mapping of that key |
| Timers.RemoveIsMapRemoval | src/reactive.rs:574-580 | an unscheduled timer loses its mapping, only if it belongs to the caller, and nothing else changes |
| Timers.PutBackFirst | src/reactive.rs:249-272 | taking the first timeout out and storing it back when the queue is full leaves the map unchanged |
| Timers.MatchResetsTimer | src/reactive.rs:601-613 | a timer matches by its identifier alone, and is at infinity afterwards |
| Registry.ContentsAgrees | src/mpsc_dispatcher.rs:164-170 | the sorted vector lists the same behaviours under the same identifiers as the map it stands for |
| Registry.PushAndSort | src/mpsc_dispatcher.rs:308-313 | pushing a new, greater identifier and sorting is the map update of an absent key, and keeps the vector strictly sorted |
| Registry.ReplaceAt | src/mpsc_dispatcher.rs:155-161 | replacing in place is the map update of a present key; the keys and the order stay |
| Registry.RemoveAt | src/mpsc_dispatcher.rs:142-147 | removing one position is the removal of one key |
| Dispatchers.TimeoutScheduler.GenerateTimeoutId | src/reactive.rs:550-554 | identifiers are handed out in increasing order and wrap around at 2^32 |
| Dispatchers.TimeoutScheduler.Unschedule | src/reactive.rs:572-584 | the map and the timer after cancelling; a timer at infinity changes nothing |
| Dispatchers.TimeoutScheduler.ScheduleUntil | src/reactive.rs:557-569 | the map and the timer after arming: the old mapping is cancelled, a fresh identifier is used |
| Dispatchers.Surroundings.GenerateActorId | src/actor.rs:91-97 | actor identifiers are strictly increasing |
| Dispatchers.MpscDispatcher.GetBehaviorIndex | src/mpsc_dispatcher.rs:164-170 | the binary search finds an identifier if and only if the map has it, and then its position |
| Dispatchers.MpscDispatcher.RegisterReactive | src/mpsc_dispatcher.rs:308-313 | a new address, never in use before, under which the behaviour is registered; all others stay |
| Dispatchers.MpscDispatcher.ReplaceReactive | src/mpsc_dispatcher.rs:315-325 | the old behaviour comes out and the new one takes its place, or the new one is given back; the key set stays |
| Dispatchers.MpscDispatcher.UnregisterReactive | src/mpsc_dispatcher.rs:327-333 | the behaviour of that address and no other is taken out, if there is one |
| Dispatchers.MpscDispatcher.Send | src/actor.rs:180-191 | a message reaches the end of the queue behind its address, or fails with the error of an invalid, closed or full one |
| Dispatchers.MpscDispatcher.ReceiveRequest | src/actor.rs:193-212 | a request is queued, or an error response with its own identifier and the data is attempted at its source |
| Dispatchers.MpscDispatcher.ReceiveErrResponse | src/actor.rs:233-250 | an error response is attempted, and only that |
| Dispatchers.MpscDispatcher.DropQueuedMessages | src/mpsc_dispatcher.rs:172-185 | the loop ends with an empty queue, every queued request having been answered, although answers may land in the queue being drained |
| Dispatchers.MpscDispatcher.Close | src/mpsc_dispatcher.rs:336-340 | dropping the dispatcher drains the queue and closes it |
| Dispatchers.ProcessContext.SendRequest | src/reactive.rs:163-173 | the request carries the identifier that is returned and the address of the actor being processed |
| Dispatchers.ProcessContext.Execute | src/reactive.rs:163-226 | every command of a behaviour, with the reply it gets |
| Dispatchers.ProcessContext.RunBehavior | src/mpsc_dispatcher.rs:253-256 | one call of a behaviour: all its commands in order, and its new state under its own identifier |
| Dispatchers.ProcessContext.TrySendNextPendingTimeout | src/reactive.rs:237-283 | the first timeout, if mature, moves to the queue or stays when there is no room; otherwise the time to wait |
| Dispatchers.ProcessContext.ExecuteFn | src/mpsc_dispatcher.rs:210-217 | registrations, replacements and removals in any sequence do to the sorted vector what they do to a map |
| Dispatchers.ProcessContext.Serve | src/mpsc_dispatcher.rs:195-231 | each request to the dispatcher, and the data of its response; the deprecated one gets none |
| Dispatchers.ProcessContext.ProcessDispatcherMessage | src/mpsc_dispatcher.rs:188-239 | the response goes out after the work, and only a stop request stops |
| Dispatchers.ProcessContext.TryProcessMessage | src/mpsc_dispatcher.rs:244-282 | the oldest message is processed by the dispatcher, by the behaviour found, or refused when there is none |
| Engines.DrainOne | src/mpsc_dispatcher.rs:174-184 | each round lowers twice the queued requests plus the other queued messages, wherever the answer lands |
| Engines.Drain | src/mpsc_dispatcher.rs:172-185 | the drain comes to an end with an empty queue and touches nothing but queues and answers |
| Commands.PostArrives | src/actor.rs:180-250 | a message arrives last behind its address if there is room; a full queue and one that is not there are told apart, and nothing changes then |
| Commands.RequestArrives | src/reactive.rs:453-480 | a request arrives, or its source is sent the reason and what it had asked for, if there is room for that |
| Commands.NotificationArrives | src/reactive.rs:192-209 | the sender of a notification is told whether it arrived, and else why not |
| Commands.ResponseArrives | src/reactive.rs:175-190 | a response arrives with the identifier given, if there is room; its sender is told nothing |
| Commands.OwnRequestArrives | src/reactive.rs:163-173 | a request arrives with the identifier that its sender is told, the one after that of the request before, and with the address of its sender; or its sender gets the error under that identifier |
| Commands.TimerIsArmed | src/reactive.rs:557-569 | the timer given back has a fresh identifier and the deadline asked for and is in the map for its actor; the timer given is not any more; all others are |
| Commands.TimerIsCancelled | src/reactive.rs:572-584 | the timer given back is at infinity and keeps its identifier; the timer given is not in the map any more; all others are |
| Commands.CommandsAreCarriedOut | src/mpsc_dispatcher.rs:253-256 | a message for a registered actor is processed by carrying out every command that its behaviour wants after the replies so far, in order, until it wants no more; then the behaviour is what its code makes of the replies |
| Commands.FirstMessageStays | src/mpsc_dispatcher.rs:253-256 | so a response, a notification or a request that a behaviour sends first is in the queue after the call, whatever it does next |
| Requests.RegistrationIsAnswered | src/mpsc_dispatcher.rs:197-209 | the response to a registration holds the address under which the behaviour is registered now and nobody was before |
| Requests.EmptyRegistrationIsAnswered | src/mpsc_dispatcher.rs:201-205 | without a behaviour the address is invalid and nobody is registered |
| Requests.ExecutionIsAnswered | src/mpsc_dispatcher.rs:210-217 | the response holds the result of each operation, in order: the new address, the previous behaviour, the rejected one or the removed one, as the map before that operation says |
| Requests.StopReactiveDoesNothing | src/mpsc_dispatcher.rs:219-220 | the deprecated request is taken from the queue, and that is all |
| Requests.StopIsAnswered | src/mpsc_dispatcher.rs:221-230 | a stop drains the queue, destroys all actors, and only then responds |
| Requests.MissingActorIsReported | src/mpsc_dispatcher.rs:257-267 | a request for an actor that is not there is answered with an error that gives it back; other messages for it are gone |
| Requests.PanicsExactly | src/mpsc_dispatcher.rs:193-238 | the program panics on exactly those messages to the dispatcher that are not requests of its own kind |
| Requests.FateIsByDestination | src/mpsc_dispatcher.rs:249-253 | a message is for the dispatcher, for the actor registered under its destination, or for nobody |
| Requests.DropClosesQueue | src/mpsc_dispatcher.rs:336-340 | after a drop nothing is queued, nothing arrives any more, and senders are told that the address is unreachable |
| Splitting.SplitInterval | src/simulation.rs:153-228 | for every program and all instants t1 <= t2 with the clock not past t2, a pause at t1 changes nothing: the run to t1, then unless it was stopped the run to t2, ends with a state if and only if the run to t2 does, in clock, queue, timers, behaviours, mailboxes, counters and dispatch log |
| Splitting.SplitExactly | src/simulation.rs:153-228 | with the clock not past t2, `process_until(t1); process_until(t2)`, both calls made in any case, leaves exactly what `process_until(t2)` leaves, if and only if the first call does not stop the dispatcher, or stops it with the clock at t2 and an empty queue |
| Splitting.StopBeforeFirstTarget | src/simulation.rs:170-187 | a queued stop request before t1: one call ends at the old clock, two calls at t2 |
| Splitting.SplitPastTarget | src/simulation.rs:176-187 | past t2 two calls leave what one call leaves if and only if there is no message, or the first one leaves the queue empty or makes the program panic, whether it stops the dispatcher or not |
| Splitting.StopPastTarget | src/simulation.rs:170-187 | a stop request of an actor of the same dispatcher past t2: the second call processes the response that the first one left in the queue |
| Splitting.SplitPastTargetDiffers | src/simulation.rs:176-187 | past t2 and with two messages queued, the first of which does not stop the dispatcher, splitting changes the result |
| Simulation.OneEnd | src/simulation.rs:153-218 | a run of the simulator has one end at most |
| Simulation.RunEndsAtTarget | src/simulation.rs:176-207 | with any break function, a run that did not start past its instant and was ended by neither a stop nor a break ends with the clock exactly at the instant and an empty queue |
| Simulation.IdleForEver | src/simulation.rs:200-201 | until infinity, with nothing queued and nothing that can fire, the simulator does not return |
| SimulationDispatchers.SimulatedInstantSource.AdvanceFor | src/simulation.rs:392-395 | the clock and the elapsed duration advance alike |
| SimulationDispatchers.SimulatedInstantSource.AdvanceUntil | src/simulation.rs:397-405 | the clock is at the instant and the elapsed duration agrees |
| SimulationDispatchers.SimulationDispatcher.ProcessAndPoll | src/simulation.rs:169-187 | one turn of the innermost loop is one tick up to the point where time may pass |
| SimulationDispatchers.SimulationDispatcher.ProcessQueuedMessages | src/simulation.rs:168-188 | the innermost loop ends with the run, or with an empty queue before the target, and what remains to be run still ends as the whole run |
| SimulationDispatchers.SimulationDispatcher.FireOrMoveClock | src/simulation.rs:193-208 | with the queue empty the objects do what firing or advancing does to the value |
| SimulationDispatchers.SimulationDispatcher.ProcessUntilCond | src/simulation.rs:153-218 | the triple loop, with any break function, with state of its own, and any target, leaves the objects in the state in which the ticks end, and the break function in its last state |
| SimulationDispatchers.SimulationDispatcher.ProcessUntil | src/simulation.rs:225-228 | the same without a break function |
| SimulationDispatchers.SimulationDispatcher.ProcessFor | src/simulation.rs:220-223 | the same for a duration from now, infinite for the maximal one |
| SimulationDispatchers.SimulationDispatcher.ActiveWaitMessageUntilCond | src/simulation.rs:258-290 | the wait returns the message found at the first tick that finds one, taken out of the mailbox, and none if the simulator ends before, with any break function of the caller |
| SimulationDispatchers.SimulationDispatcher.ActiveWaitMessageUntil | src/simulation.rs:249-256 | the same without a function of the caller; until then the mailboxes only receive |
| SimulationDispatchers.SimulationDispatcher.ActiveRequestUntilCond | src/simulation.rs:309-363 | the request is sent before the wait, and the result is what the one message that the wait got makes it |
| Timing.ProcessKeepsTimely | src/mpsc_dispatcher.rs:244-271 | processing a message, whatever it does, jumps over no deadline, and whatever it adds to the queue is not a timeout |
| Timing.FireOrAdvanceKeepsTimely | src/simulation.rs:194-207 | firing or letting time pass jumps over no pending deadline, and the clock does not go back |
| Timing.TickKeepsTimely | src/simulation.rs:157-218 | so does a whole tick, for every break function, with state of its own, and every target |
| Timing.RunKeepsTimely | src/simulation.rs:153-218 | over whole runs the clock never goes back, no pending deadline is jumped over, and every timeout in the dispatch log was processed at exactly the later of its deadline and the instant of its arm |
| Timing.OutsideKeepsTimely | src/actor.rs:180-231 | notifications, responses, requests and registrations from outside a run keep it too |
| Runs.SessionKeepsTimely | src/simulation.rs:153-233 | over any sequence of runs of the simulator and of messages and registrations between them the clock never goes back, no deadline is jumped over, and every timeout was processed exactly when it was due |
| Runs.NewSessionIsTimely | src/simulation.rs:100-108 | so it is in every session that starts with a new simulator |
| Termination.ProcessCosts | src/mpsc_dispatcher.rs:244-271 | with behaviours whose sends are paid for by the message processed, each message takes more weight out of the queue than it puts in, error responses included |
| Termination.ThriftyRunsEnd | src/simulation.rs:153-218 | with such behaviours that arm timers only in the future, every run to a finite instant comes to an end, for every break function, with state of its own |
| Termination.FutureTimersRunsEnd | src/simulation.rs:153-218 | in particular with behaviours that send nothing |
| Termination.AskingRunsEnd | src/simulation.rs:153-218 | and with clients that send one request for a timeout and servers that send one response for a request, to any address |
| Termination.NoRoomNeverEnds | src/reactive.rs:265-272 | with a queue of size zero a timeout due before the target, mature already or not yet, is stored back for ever and the run does not end |
| Termination.NoRoomEndsExactly | src/reactive.rs:242-283 | with a queue of size zero a run ends if and only if its target is finite, and it starts at the target or past it or no timeout is due before the target |
| Recorders.RecordersRun | src/simulation.rs:153-218 | with behaviours that only record, from before the target and with an empty queue, the run ends at the target in a closed form: the timeouts due before it were processed in key order, each at the later of its deadline and the start, and the others are pending |
| Owners.ReachableRecordersRun | src/simulation.rs:153-218 | so it is from every state that a new dispatcher can reach by any acts |
| Recorders.ClosedFormIsExact | src/simulation.rs:197-204 | in the closed form exactly the entries due strictly before the target fire; one due at the target stays |
| Recorders.ClosedFormAfterFirst | src/simulation.rs:193-207 | the closed form is the effect of the first timeout followed by the closed form of the rest |
| Waiting.WaitStopsAtFirstMessage | src/simulation.rs:268-289 | a wait follows the simulator, with any break function of the caller, up to the first tick at which the mailbox has a message, takes that one message and changes nothing else |
| Waiting.WaitTimesOutOnTime | src/simulation.rs:268-289 | a wait ended by neither a message nor a break nor a stop ends with the clock exactly at its instant and an empty queue, as the simulator ends without it |
| Waiting.WaitingOnlyReceives | src/simulation.rs:271-283 | until then nothing is taken from any mailbox, if the caller has no break function |
| Waiting.RequestSeesOneMessage | src/simulation.rs:330-362 | a request in simulated time is answered if and only if the first message that the mailbox gives is its answer; an answer of another type, an error and any other message give their own results, and each is taken out |
| Waiting.OldMessageDecides | src/simulation.rs:324-362 | a request from a mailbox that is not empty is decided by the old message in it, whatever the request, its receiver and all others do |
| Waiting.OldNotificationDecides | src/simulation.rs:324-362 | with an old notification in the mailbox the call ends at once without an answer, and the notification is taken out |
| Threaded.FiringKeepsPunctual | src/reactive.rs:242-283 | the timeout queued is that of the least entry pending, for its owner and with its identifier, and is mature; the map loses that entry only, and nothing changes when the queue is full |
| Threaded.LoopIsPunctual | src/mpsc_dispatcher.rs:84-132 | whatever other threads send and however the clock moves on, no timeout is queued or processed early, and the loop blocks only until exactly the least pending deadline |
| Threaded.BlocksAfterEmptyQueue | src/mpsc_dispatcher.rs:96-127 | in any run the loop blocks only after it has seen the queue empty and then looked at the timeouts, and for the time that this look gave |
| Threaded.MessageIsTaken | src/mpsc_dispatcher.rs:276-300 | a loop about to take a message, or woken up from a block, processes the oldest one that is there by then |
| Threaded.TickIsIdealSteps | src/mpsc_dispatcher.rs:90-131 | a tick of the simulator is one, two or three steps of the threaded loop in an ideal environment |
| Threaded.SimulatorIsIdealLoop | src/mpsc_dispatcher.rs:84-132 | up to any target the simulator and the threaded loop in an ideal environment do the same: same log, behaviours, timers, mailboxes and counters |
| ThreadedDispatchers.TryProcess | src/mpsc_dispatcher.rs:276-300 | `try_process_message`, and the end of `block_process_message`, are one step of the loop |
| ThreadedDispatchers.TryFire | src/mpsc_dispatcher.rs:106-117 | looking for a mature timeout is one step of the loop |
| ThreadedDispatchers.ProcessQueued | src/mpsc_dispatcher.rs:95-102 | the innermost loop takes steps until the queue was seen empty or a stop was handled |
| ThreadedDispatchers.ProcessReady | src/mpsc_dispatcher.rs:94-119 | the middle loop goes on until there is neither a message nor a mature timeout, and tells how long to block |
| ThreadedDispatchers.ProcessLoop | src/mpsc_dispatcher.rs:84-132 | in every environment the triple loop leaves the objects where the steps lead |
| TimerProtocol.EveryArmInOnePlace | src/reactive.rs:242-283 | after any run on any number of timers every arm ever made is exactly once pending, queued, received, cancelled, displaced by a later arm with the same key, or dropped with the queue |
| TimerProtocol.EveryArmInOneOfFive | src/reactive.rs:242-283 | with at most 2^32 arms nothing is displaced: every arm ever made is exactly once pending, queued, received, cancelled or dropped with the queue |
| TimerProtocol.IsSchedulingExactly | src/reactive.rs:601-613 | after any run a queued timeout matches a timer if and only if its arm and the latest arm of the timer are a multiple of 2^32 arms apart, and a cancellation makes no difference |
| TimerProtocol.ReachableIsHeld | src/reactive.rs:557-584 | with at most 2^32 arms nothing is displaced, and every pending entry with a finite deadline is the latest arm of a timer that still holds its key, so that it can be cancelled |
| TimerProtocol.OneEntryPerTimer | src/reactive.rs:563-567 | a timer has one finite pending entry at most |
| TimerProtocol.CancelExactly | src/reactive.rs:572-613 | until the next arm, a queued timeout matches a cancelled timer if and only if it is that of the latest arm and was in the queue already when the timer was cancelled |
| TimerProtocol.CancelledTimeoutStillMatches | src/reactive.rs:596-606 | arm, fire and cancel: the timeout in the queue matches the cancelled timer and every timer never armed |
| TimerProtocol.CancelNumbered | src/reactive.rs:572-584 | a cancellation takes out exactly the entry with the key of the timer and its owner, and only if its deadline is finite |
| TimerProtocol.InfiniteEntryStaysExactly | src/reactive.rs:565-583 | over any run an entry armed at infinity leaves the map if and only if a timer is armed at infinity when the identifiers have come round to its own |
| TimerProtocol.InfiniteEntryStays | src/reactive.rs:572-583 | with at most 2^32 arms an entry armed at infinity stays in the map over any run |
| Ledger.ProcessBalance | src/mpsc_dispatcher.rs:244-271 | processing one message keeps the account of every request |
| Ledger.DrainBalance | src/mpsc_dispatcher.rs:172-185 | so does the shutdown drain |
| Ledger.EveryRequestInOnePlace | src/actor.rs:193-250 | after any run of sends, dispatches, registrations, timeouts, stops and drops, every request is as often as it was issued queued, handed to the behaviour of its destination or to the dispatcher, answered by an error response of its own identifier attempted at its own source, or put in a mailbox |
| Ledger.DrainAnswersEachOnce | src/mpsc_dispatcher.rs:172-185 | the shutdown answers exactly the queued requests, once each and in order, all as disappeared actors |
| Ledger.AnswerGoesToSource | src/reactive.rs:509-539 | a summary of the definitions: an error response is the last message of the queue behind the source if that one is open and has room, and otherwise changes nothing |
| Ordering.ProcessIsFifo | src/mpsc_dispatcher.rs:276-282 | processing takes the oldest message, and new ones only come behind those queued, within the capacity |
| Ordering.OnlyTheDestinationChanges | src/mpsc_dispatcher.rs:252-256 | a message changes no behaviour but the one registered under its destination |
| Owners.OthersStayRegistered | src/mpsc_dispatcher.rs:308-333 | over any registrations, replacements and removals the address of an actor stays valid if and only if it is not itself removed, and it stays the same actor if not replaced either |
| Owners.RemovedStaysAway | src/actor.rs:91-97 | an identifier is never handed out again |
| Owners.PerformAllProper | src/mpsc_dispatcher.rs:244-313 | in every reachable state the dispatcher is not among its actors, owns no timer, and no identifier has been handed out twice |
| Ordering.ProcessedInOrder | src/mpsc_dispatcher.rs:244-282 | over any run without a shutdown, messages are processed in exactly the order in which they were queued, whoever sent them, and the queue stays within its capacity |
| Firing.EveryArmInOnePlace | src/reactive.rs:242-283 | over any run of the engine, whatever the behaviours do with their timers, every arm ever made is exactly once pending, cancelled, displaced by a later one with the same key, or its timeout queued, processed or dropped with the queue |
| Owners.NothingDisplaced | src/reactive.rs:550-569 | from a new dispatcher on and with at most 2^32 arms no pending timeout was ever displaced |
| Firing.EachArmFiresOnce | src/reactive.rs:242-283 | over any run of the engine, whatever the behaviours do with their timers, all timeouts ever queued are of different arms, each made before, and none of these is still pending |
| Precedence.ReachableInOrder | src/reactive.rs:622-630 | in every state that a new dispatcher can reach with at most 2^32 arms, the deadlines of the pending timeouts do not decrease, and of equal ones the first armed comes first |
| Precedence.FireInOrder | src/reactive.rs:242-283 | over any acts from there, the later one of two pending timeouts is not queued as long as the first one is pending, and if both are queued, the first one is queued before it |
| Firing.FiringKeepsPlaces | src/reactive.rs:249-264 | a timeout that fires moves from the timers to the queue, and is in one of them only |
| Runs.RunIsActs | src/simulation.rs:153-218 | every run of the simulator, with any break function, is a sequence of acts, without a shutdown unless it was stopped |
| Runs.StepsAreActs | src/mpsc_dispatcher.rs:84-132 | so is every run of the threaded loop in every environment |
| Runs.SimulatorKeeps | src/simulation.rs:153-218 | every run of the simulator keeps the account of every request, the order of messages and the one place of every arm |
| Runs.LoopKeeps | src/mpsc_dispatcher.rs:84-132 | so does every run of the threaded loop |
| ActiveMailboxes.ActiveMailbox.GenerateRequestId | src/active.rs:254-257 | identifiers increase and wrap around |
| ActiveMailboxes.ActiveMailbox.TryGetMessage | src/active.rs:144-154 | the message set aside last, or else the oldest of the channel, or none |
| ActiveMailboxes.ActiveMailbox.RequestFor | src/active.rs:198-252 | for any arrivals, the call takes messages up to the first one that ends it and returns an answer only with its own identifier and expected type; notifications, timeouts, requests and responses of another type are set aside in order behind the old ones, and nothing else taken is lost but responses of the expected type to other requests |
| ActiveMailboxes.EachMessageOnce | src/active.rs:216-243 | each message taken is exactly one of: the answer, the error response that ended the call, a response of the expected type to another request, or set aside |
| ActiveMailboxes.KeptAsOften | src/active.rs:226-243 | of the messages taken, notifications, timeouts, requests and responses of another type are kept as often as they were taken, and no others |
| ActiveMailboxes.SetAsideIsKept | src/active.rs:226-243 | what is set aside are exactly these, in order |
| ActiveMailboxes.CallKeepsUnrelated | src/active.rs:208-252 | a call keeps them behind those set aside before; the only others taken are the message that ends the call, and responses of the expected type to other requests |
| ActiveMailboxes.AtMostOneEnds | src/active.rs:216-239 | of the messages taken one at most ends the call, the last one |
| ActiveMailboxes.SetAsideComesFirst | src/active.rs:144-154 | messages set aside are all delivered, last in first out, before anything in the channel, which comes in order |
| ActiveMailboxes.ReverseKeepsAll | src/active.rs:145-147 | the reversal loses and doubles nothing |
| ActiveMailboxes.NoMessageLost | src/active.rs:144-252 | over any sequence of arrivals, calls and gets every message that arrived is exactly once in the channel, set aside, delivered or consumed by a call |
| ActiveMailboxes.DeliveredInOrder | src/active.rs:144-176 | between calls, with arrivals at any time, messages set aside are delivered first, then those in the channel, then the newer ones, each exactly once |
| ActiveMailboxes.SetAsideBeforeChannel | src/active.rs:144-154 | in any run, calls included, all messages ever set aside have been delivered by the time a get looks into the channel |
| ActiveMailboxes.CallPutsInFront | src/active.rs:226-243 | a call puts what it sets aside in front of everything, the last one first, and leaves the rest in place |
| Aggregation.InsertObserverIsInsertion | src/profiling_aggregator.rs:162-165 | observers stay a set: none is notified twice for registering twice |
| Aggregation.RemoveObserverIsRemoval | src/profiling_aggregator.rs:166-169 | an observer that unregisters, and no other, is gone |
| Snapshots.PutIsMapUpdate | src/profiling_aggregator.rs:172-173 | storing a record is the map update, and the names stay in alphabetical order |
| Snapshots.RemoveNameIsMapRemoval | src/profiling_aggregator.rs:181-183 | removing a name takes out its record and nothing else |
| Snapshots.SelectIsMapFilter | src/profiling_aggregator.rs:185-188 | selecting by address keeps or drops each record by its own address |
| Snapshots.ConvertedNames | src/profiling_aggregator.rs:143-157 | a selection stands for exactly the registered names, or those with one of the given addresses, in alphabetical order and without repetition, or for those given |
| Snapshots.TraceTidy | src/profiling_aggregator.rs:100-110 | in every reachable state the dictionary is an ordered map and the observers are a set |
| Selections.RegisteredAsGiven | src/profiling_aggregator.rs:170-174 | a name registered has the address given last for it and no metrics yet; all others stay |
| Selections.RegistrationsAreDone | src/profiling_aggregator.rs:159-194 | observers come and go one by one, names are registered and removed as asked, nothing else changes, and each request is answered once |
| Selections.RoundStartsWithSelected | src/profiling_aggregator.rs:324-335 | a round starts with exactly the names selected, and with the current instant |
| Selections.SnapshotAddsNames | src/profiling_aggregator.rs:336-343 | during a round a snapshot notification adds exactly the names selected that are not in the list yet, each once, at the end, and does nothing else |
| Selections.SelectedIsVisited | src/profiling_aggregator.rs:316-348 | every name selected while a round runs stands at a position of the final list that is visited before the round ends |
| Selections.AskedMetricsAreAway | src/profiling_aggregator.rs:209-224 | the list of metrics of the name asked is away with the request, and all others stay |
| Aggregation.HandleInRange | src/profiling_aggregator.rs:257-264 | between messages the outstanding position is in the list, so that the indexing never fails |
| Aggregation.OutstandingAlways | src/profiling_aggregator.rs:207-241 | in every reachable state the stored identifier is that of the latest request sent, which was for the outstanding position and its name |
| Aggregation.OtherIdentifiersIgnored | src/profiling_aggregator.rs:257-278 | responses with another identifier change nothing and send nothing |
| Aggregation.HandleIsFaithful | src/profiling_aggregator.rs:209-229 | whatever is asked is registered at that moment under that address; whatever is skipped is not |
| Aggregation.ProcessNextVisits | src/profiling_aggregator.rs:196-242 | the next step deals with consecutive positions and stops at a request, or notifies the observers in order, once for each entry of their sequence |
| Aggregation.RoundVisits | src/profiling_aggregator.rs:196-285 | within a round, whatever comes in between, positions are dealt with one after the other, each once, and observers hear nothing before the end |
| Aggregation.WholeRound | src/profiling_aggregator.rs:196-348 | a whole round deals with every position of the final list exactly once and in order, and notifies the observers in order with the lists of the names still registered |
| Snapshots.EveryObserverOnce | src/profiling_aggregator.rs:305-313 | in a whole round from any reachable state each observer is notified exactly once, and nobody else |
| Snapshots.ListsHold | src/profiling_aggregator.rs:293-303 | the notified lists are those of the names registered, each with the metrics stored under it |
| Snapshots.AnswerIsNotified | src/profiling_aggregator.rs:256-303 | if the outstanding request is answered with some metrics, and its name is neither registered again nor removed nor asked again before the round ends, every observer gets these metrics under that name and nothing else |
| Aggregation.AnswersMoveOn | src/profiling_aggregator.rs:256-267 | every answer moves on at least one position, also while the list grows |
| Aggregation.EndsExactly | src/profiling_aggregator.rs:196-285 | a message ends the round if and only if it answers the outstanding request and no name further on is registered |
| Aggregation.RoundEndsExactly | src/profiling_aggregator.rs:196-285 | a round is over if and only if its last message did so in the state before it |
| Aggregation.OneRequestOutstanding | src/profiling_aggregator.rs:209-267 | over any run every request sent was answered but the one that is outstanding, which there is exactly while processing |
| Aggregation.AnsweredRoundEnds | src/profiling_aggregator.rs:232-241 | a round that got an answer for each position left is over, however much its list has grown |
| Aggregation.UnansweredRoundIsStuck | src/profiling_aggregator.rs:272-282 | without an answer to the outstanding request nothing ends the round, and nobody is asked or notified |
| Aggregators.ProfilingAggregator.ConvertSelectionToNames | src/profiling_aggregator.rs:143-157 | the names a selection stands for, in alphabetical order unless they were given |
| Aggregators.ProfilingAggregator.ProcessRequest | src/profiling_aggregator.rs:159-194 | registrations and removals, and one response |
| Aggregators.ProfilingAggregator.NotifyObservers | src/profiling_aggregator.rs:287-314 | every observer gets the lists of the registered names |
| Aggregators.ProfilingAggregator.ProcessNextSnapshotAndNotify | src/profiling_aggregator.rs:196-242 | the loop asks the first registered name from the outstanding position on, or ends the round |
| Aggregators.ProfilingAggregator.ProcessResponse | src/profiling_aggregator.rs:244-285 | only the awaited answer stores metrics and goes on |
| Aggregators.ProfilingAggregator.ProcessNotification | src/profiling_aggregator.rs:316-348 | a snapshot starts a round, or appends its new names to the running one |
| Aggregators.ProfilingAggregator.ProcessMessage | src/profiling_aggregator.rs:100-110 | any message; the outstanding position stays in the list, the dictionary ordered and the observers a set |
| Broadcasting.SumsFitExactly | tests/readme_realistic_example.rs:156-159 | every sum of n samples fits an i32 if and only if n is at most 65536 |
| Broadcasting.AverageFits | tests/readme_realistic_example.rs:166-170 | the truncated average of a period of fewer than 2^31 samples lies within the range of its samples, so that the cast to i16 loses nothing |
| Broadcasting.TruncatedTowardsZero | tests/readme_realistic_example.rs:167 | division is exact up to a rest smaller than the divisor, and rounds towards zero |
| Broadcasting.CastIsModular | tests/readme_realistic_example.rs:169 | the cast to i16 keeps what fits and is modulo 2^16 otherwise |
| Broadcasting.AverageByAxis | tests/readme_realistic_example.rs:165-170 | each axis has its own quotient, in order, and the fourth number is zero |
| Broadcasting.AverageExactly | tests/readme_realistic_example.rs:166-170 | for every count n: the quotient of every period of n samples whose sum fits an i32 lies within the range of its samples, if and only if n is less than 2^31 |
| Broadcasting.ModerateIsSafe | tests/readme_realistic_example.rs:151-187 | no message panics that does not add a sample to 65536 of them since the last reset, the timeout after exactly 65536 included |
| Broadcasting.ModerateRunsAreSafe | tests/readme_realistic_example.rs:121-204 | in every run with at most 65536 samples a period no sum, count or quotient overflows |
| Broadcasting.SendsOnlyWhenWaiting | tests/readme_realistic_example.rs:162-204 | a CAN request goes out only while waiting for samples, and is then the awaited one; only its own response or a stop ends the wait |
| Broadcasting.OneRequestAtATime | tests/readme_realistic_example.rs:162-204 | over any run there is never more than one request outstanding |
| Broadcasting.StartBeginsPeriod | tests/readme_realistic_example.rs:128-138 | a start empties the sums, and arms the timer for 500 milliseconds from now |
| Broadcasting.PeriodIsBroadcast | tests/readme_realistic_example.rs:151-187 | some samples and the timeout: one request goes to the CAN controller given at the start, with the quotients of exactly these samples, none without samples; and the next period begins |
| Broadcasting.WaitingForResponse | tests/readme_realistic_example.rs:139-204 | while a request is awaited a timeout begins the next period without another one, the response ends the wait whatever it says, and a stop ends everything |
| Broadcasting.OthersAreIgnored | tests/readme_realistic_example.rs:121-204 | a start while running, a stop while stopped, the timeout of another arm and the response to another request change nothing |
| Stopping.StoppedStaysQuietExactly | tests/readme_realistic_example.rs:110-148 | in any run with the timers and the queue of its dispatcher, a broadcaster that is stopped arms no timer until the next start, whatever happens, if and only if the timeout of its latest arm was not in the queue when the stop was processed |
| Broadcasting.StoppedRearmsExactly | tests/readme_realistic_example.rs:110-187 | until the next start it stays stopped and sends no request, and arms its timer exactly once for each timeout of its own |
| Broadcasting.StoppedArmsAgain | tests/readme_realistic_example.rs:110-187 | started, stopped and reached by the timeout of the start, a new broadcaster arms its timer although it is stopped |
| Broadcasting.Broadcaster.ResetSum | tests/readme_realistic_example.rs:80-85 | the sums and the count are those of no samples |
| Broadcasting.Broadcaster.ProcessRequest | tests/readme_realistic_example.rs:121-149 | start and stop, each with one response, and without effect when already so |
| Broadcasting.Broadcaster.ProcessAcceleration | tests/readme_realistic_example.rs:151-160 | the sums and the count are those of one sample more, whenever none of them overflows |
| Broadcasting.Broadcaster.ProcessTimerElapsed | tests/readme_realistic_example.rs:162-187 | the request with the quotients, if waiting and there are samples; a new period in any case |
| Broadcasting.Broadcaster.ComputeAverage | tests/readme_realistic_example.rs:165-170 | the truncated quotients of the sums by the count as it is cast, and a zero, for every count of samples |
| Broadcasting.Broadcaster.ProcessCanResponse | tests/readme_realistic_example.rs:189-204 | the awaited response ends the wait, successful or not; others do nothing |

## Left out

- Real threads, blocking and the channels of the standard library: sends are atomic steps on a bounded sequence, and the clock is any sequence of readings that never goes back.
- ThreadedDispatchers.ProcessLoop: observes a finite part of the environment, as the program itself may run for ever; channels of size zero, which hand a message over only to a waiting receiver, have no room here.
- More than one dispatcher: the queues of other dispatchers are not part of this model; requests from outside come from the surroundings with any source address.
- Dispatchers.MpscDispatcher.Close: the drain and the closing of the queue are one step; a message that arrives between the two is not part of this model.
- Dispatchers.ProcessContext.ExecuteFn: the function a caller may have executed is a sequence of registrations, replacements and removals, and does nothing else.
- Broadcasting.Broadcaster.ProcessAcceleration: excludes an overflow of a sum or of the count, at which the program panics or wraps around, depending on how it is built; nothing in the program prevents one beyond 65536 samples (`SumsFitExactly`).
- Panics: malformed messages to the dispatcher, a stop of the clock at infinity and finite instants out of range are excluded by preconditions or end a run as `Crash`.
- SimulationDispatchers.SimulationDispatcher.ProcessUntilCond: a break function touches what it has captured and mailboxes, but sends nothing.
- SimulationDispatchers.SimulationDispatcher.ActiveWaitMessageUntilCond: leaves out the error of a channel without senders, as a mailbox keeps a sender of its own.
- SimulationDispatchers.SimulationDispatcher.ActiveRequestUntilCond: the identifier of the request is given; `ActiveMailboxes.ActiveMailbox.GenerateRequestId` is where it comes from.
- ActiveMailboxes.ActiveMailbox.RequestFor: the sending of the request is that of `Dispatchers.MpscDispatcher.ReceiveRequest`; what arrives while the call waits is any sequence, and the wait for each message starts anew.
- Behaviours read the clock once a call, which is what the simulated clock gives them; the threaded loop reads it once a step.
- Data of messages: which downcasts succeed is kept as tags; names of profiled actors are numbered in alphabetical order, and observers are their actor identifiers, by which addresses are compared.
- Async actors, accessors and their macros, profiled actors and their metrics, mocks, deprecated names and printing.
