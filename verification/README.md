# Callback delivery and shutdown of up-transport-dds: a Dafny model

The transports of this crate (classic, owned, zero-copy) share one runtime: callers register and unregister
listeners, a poller thread turns DDS samples into callback jobs, a dispatcher thread runs the jobs one at a
time as tasks on an async runtime, and dropping the transport stops and joins all of it. This project models
that runtime and the three carriages, and proves what README.md:24-28 and docs/wire-contract.md of the crate
promise: bounded work, an ordered shutdown, an unregister that waits for the callback in flight and keeps
snapshotted jobs from starting, exact self suppression, and payload presence carried faithfully.

Check everything with `dafny verify dfyconfig.toml` (Dafny 4.11).

## How it is built

| file | content |
|---|---|
| `Protocol.dfy` | one transport as atomic steps of five kinds of actor, generic in sample and message type |
| `Safety.dfy`, `Delivery.dfy`, `Linearization.dfy`, `Invariant.dfy` | what every step keeps, and the invariant of every run |
| `Unregistering.dfy`, `Returning.dfy`, `Ordering.dfy`, `Shutdown.dfy` | the guarantees over whole runs |
| `Witnesses.dfy` | runs that show where a guarantee ends |
| `Surroundings.dfy` | what callers, reader, task and condition variables may do at every moment |
| `Interference.dfy` | which steps are whose, what the other threads leave alone, and the log of one thread among others |
| `Threads.dfy` | poller, dispatcher, `run_callback`, `unregister` and drop as methods of threads, each a run of the protocol with the other threads in between |
| `Network.dfy` | several transports on one topic |
| `Carriage.dfy` | the samples of the three families, and the transmit loan as an object |
| `RegistryModel.dfy`, `ListenerRegistry.dfy` | the registry as a value, and as objects whose lock sections refine it |
| `Health.dfy`, `Readiness.dfy`, `Workers.dfy` | the health log, the discovery wait, and the poller's loop on its own objects |

A run is a sequence of steps (`Protocol.After`), and the guarantees speak of every state that some schedule
reaches from the start (`Protocol.Reachable`) and of every continuation of it; `Invariant.InvReachable` gives
their proofs the invariant. A registration is named by its
generation, the position at which it was created, so the same listener registered twice is two
registrations. The step functions follow the source as this table says.

| step function of `Protocol` | source |
|---|---|
| `DoRegister`, `DoUnregister` | src/runtime.rs:424-445, 454-467 |
| `DoDeactivate`, `DoRecheck`, `DoSpuriousWake` | src/runtime.rs:381-390 |
| `DoWake`, `DoTake` | src/lib.rs:143-149, 194-197; src/runtime.rs:282-292 |
| `DoExamine` | src/lib.rs:151-166, src/runtime.rs:472-485 |
| `DoSubmit`, `DoRecordRefusal` | src/runtime.rs:342-350 |
| `DoPollerPanic`, `DoJoinPoller` | src/runtime.rs:498-505 |
| `DoReceive`, `DoDisconnect` | src/runtime.rs:309 |
| `DoBegin` | src/lib.rs:176-188, src/runtime.rs:371-379 |
| `DoObserve`, `DoJoin`, `DoJudge`, `DoRecordPanic` | src/runtime.rs:332-339 |
| `DoStart`, `DoEnd`, `DoCancel`, `DoRelease` | src/lib.rs:184-187, src/runtime.rs:395-403 |
| `DoStop`, `DoTakeEntries`, `DoDeactivateNext`, `DoRecheckNext`, `DoJoinDispatcher` | src/lib.rs:336-339, src/runtime.rs:487-495 |

The methods of `Threads.Shared` keep the control flow of the source. Each atomic access is one step of the protocol
(`Take`), each turn in which it has to wait is one too (`Wait`), and after either the other threads take any enabled
steps of theirs; the contracts hold for every choice of those. A thread waits only where it has to
(`Interference.MayWait`): for a job while its sender lives, for a task that is not finished, for somebody to wake it, for
the thread it joins. A log records the thread's steps and waits, and the
state is a function of the log (`Interference.Told`), so a contract that says how the log has grown says how the state
was reached. A wait of the source is a loop of at most `turns` turns, so that the method ends; that the waits
themselves end is what `Returning.UnregisterReturns` and `Shutdown.ShutdownTerminates` prove.

Assumptions about the surroundings:

- Dropping needs exclusive ownership, so it begins with no API call pending and none comes after it
  (`DoStop` and `DoRegister` say so). The last handle may be dropped by a thread of its own or by a running
  callback (`Stop(inside)`).
- The async runtime outlives the transport; a task drops its future, and with it the token, before its join
  completes; a callback that is not itself inside `unregister` or the drop ends, or yields when it is aborted.
- A spurious wake-up of a condition variable may happen at any moment; it is a step of the safety results and a
  stutter for the termination of the drop. `Returning.UnregisterReturns` speaks of runs that wake the caller for
  nothing finitely often.
- `UUri::matches` and the codecs of up-rust are parameters. What the round trips need of them is stated as
  `ClassicLaw`, `ClassicMessage`, `OwnedLaw` and `UriLaw`.
- DDS is a topic that holds what was written; a reader may take any written sample, in any order, any number
  of times, or a sample without data.
- Destructors of listeners and messages do not panic. The dispatcher drops them inside its `catch_unwind`
  (src/runtime.rs:310-312, src/lib.rs:175-189), where such a panic would be counted for a job that was skipped or ran
  well, even after stop.
- Counters are naturals; the wrap-around of a 64-bit counter is not modelled.

What the proofs say about the code beyond its documentation:

- Raising the stop flag does not by itself keep callbacks from beginning; the guarantee starts when the
  registration is deactivated (`Witnesses.StopAloneDoesNotSilence`, `Unregistering.DeadForever`). Exactly when one
  more callback can still begin once the poller has left is `Shutdown.BeginsAfterStopIff`.
- A callback that panics and is joined while the stop flag is down is not always counted: the join and the second
  look at the flag are two steps, and a stop between them drops the report (`Witnesses.PanicCanBeLost`). Exactly
  that one panic is lost: all others joined before stop are reported, each once, and a cancelled callback never is
  (`Ordering.PanicsReportedExactly`, `Ordering.PanicAccounting`).
- A callback that unregisters its own registration never gets out of that call, and the transport can then
  never be dropped (`Witnesses.SelfUnregisterCanHang`); this is the only pending `unregister` that cannot return, and
  every other one returns in every weakly fair run (`Returning.UnregisterReturnsIff`, `Returning.UnregisterReturns`).
- A callback that drops the last handle of the transport waits in that drop for its own token and never gets out
  of it; every other drop comes to its end (`Shutdown.DropEndsIff`, `Witnesses.DropInsideCanHang`).
- The zero-copy receive frame does not tell an absent payload from an empty one
  (`Carriage.ZeroCopyForgetsPresence`), while docs/wire-contract.md speaks of explicit presence only for the
  other two families.
- The zero-copy send copies flag and bytes of a loan without comparing them (src/zero_copy.rs:419-437). If the loan
  specification of up-rust, which is not part of this model, allows "no payload" together with a nonzero length,
  such a loan is written and then rejected by every receiver; no other loan fails (`Carriage.ZeroCopyRoundTrip`).

## Model

| member | source | states |
|---|---|---|
| Invariant.InvReachable | src/runtime.rs:266-505 | the whole invariant (control, tokens, owners, job logs, API results) holds in every reachable state, whatever the schedule of the five kinds of actor |
| Invariant.RegistryLinearizable | src/runtime.rs:417-496 | in every run the results of `register` and `unregister` are those of a sequential ordered set; listed keys differ pairwise and are active |
| Linearization.ApiKept | src/runtime.rs:424-467 | each step's result agrees with the sequential set: AlreadyExists exactly on presence, NotFound exactly on absence |
| RegistryModel.InsertRefines | src/runtime.rs:424-445 | a lookup succeeds exactly when the key is listed; otherwise registering appends the key |
| RegistryModel.RemoveRefines | src/runtime.rs:454-467 | removing takes out the one entry with the key and keeps the order of the rest |
| RegistryModel.SelectExact | src/runtime.rs:472-485 | `matching` returns exactly the entries whose source filter matches and whose sink filter, present exactly when the message has a sink, matches that sink |
| RegistryModel.SelectIncreasing | src/runtime.rs:473-484 | each at most once, in registration order |
| Safety.ReleaseWakesCalls | src/runtime.rs:395-403 | when the last token goes, every thread parked for it is woken, so no parked thread waits for a token that is gone |
| Safety.RegsUnregister | src/runtime.rs:454-467 | taking an entry out makes the caller its one owner while the registration is still active |
| Safety.RegsDeactivate | src/runtime.rs:381-390 | lowering the flag and returning or parking keeps tokens, owners and listed entries consistent |
| Safety.RegsBegin | src/runtime.rs:371-379 | a token is created only for an active registration and is then the only one of the transport |
| Ordering.BeginDecides | src/runtime.rs:371-379 | the job of an active registration begins its callback with one token, the job of any other is skipped, and nothing else happens |
| Safety.RegsDeactivateNext | src/runtime.rs:487-495 | the same for each entry the dropping thread deactivates in turn |
| Safety.ControlDispatcher | src/runtime.rs:324-340 | an abort, and so a cancelled callback, needs the stop flag; a join waits only for a task that is finished, ending or aborted |
| Delivery.JobsExamine | src/lib.rs:151-166 | a sample yields a snapshot, a malformed event or nothing, exactly by its data, origin and decoding |
| Delivery.JobsSubmit | src/runtime.rs:342-350 | an offered job goes to the end of the queue or becomes one backpressure event |
| Delivery.JobsJoin | src/runtime.rs:332-340 | a joined callback leaves the dispatcher with its fate; a panic joined with the flag down becomes the one that is still to be judged |
| Delivery.JobsJudge | src/runtime.rs:337-339 | the judgement passes that panic on to the health log if the flag is down by then, and drops it otherwise |
| Unregistering.UnregisterSafety | src/runtime.rs:448-470 | once `unregister` has returned, in every continuation the count is zero, no callback of the registration runs or begins, and it is not listed again |
| Unregistering.DeadForever | src/runtime.rs:371-390 | from deactivation on, no schedule reactivates the registration or begins a callback of it |
| Unregistering.ReturnRetires | src/runtime.rs:381-390 | the step that lets the call return is the one at which the registration counts as retired |
| Unregistering.NoLostWakeup | src/runtime.rs:381-403 | a thread parked for a registration implies it is inactive and its token is owned by the running task |
| Unregistering.AtMostOneFinishes | src/runtime.rs:381-403 | between deactivation and return no callback begins and at most the one under way finishes |
| Unregistering.GoneForever | src/runtime.rs:454-467 | a generation taken out of the list is never listed again |
| Unregistering.OneOwner | src/runtime.rs:424-495 | every generation is exactly one of: listed, owned by one caller, held by the dropping thread, retired |
| Unregistering.FreshGeneration | src/runtime.rs:435-445 | a registration made while removals of the same key wait is owned by none of them and stays active until it is taken out itself |
| Unregistering.ReentrantUnregister | src/runtime.rs:381-390 | an `unregister` from inside a callback returns without parking exactly when its target is another registration |
| Unregistering.SelfUnregisterNeverReturns | src/runtime.rs:381-390 | from its own callback it waits in every continuation, and the transport cannot be dropped |
| Witnesses.SelfUnregisterCanHang | src/runtime.rs:381-390 | a reachable state in which the running callback is in such a call, and no schedule lets it return |
| Returning.UnregisterReturnsIff | src/runtime.rs:381-403 | some schedule lets a pending `unregister` return if and only if it is not that one |
| Returning.WaitNext | src/runtime.rs:381-403 | no step of anybody moves a pending call away from its return, but for a spurious wake-up of the caller or one more call made by the callback it waits for; every step of the caller, of that callback or of its own call brings it nearer |
| Returning.UsefulStepsBounded | src/runtime.rs:381-403 | in any schedule at most nine such steps, plus one for each excused step, are taken before the call returns |
| Returning.UsefulStep | src/runtime.rs:381-403 | one of them can be taken as long as the call is pending |
| Returning.UnregisterReturns | src/runtime.rs:448-470 | in every endless run that is weakly fair to the caller, to the task and to the callback's own call, every `unregister` but the callback's own of its own registration returns |
| Returning.FairFromWeak | src/runtime.rs:381-403 | weak fairness makes useful steps come again and again: whose turn it is stays able to move until a useful step is taken |
| Returning.TurnStays | src/runtime.rs:381-403 | only a useful or an excused step passes the turn from caller, task or own call to another of them |
| Returning.FairRunExists | src/runtime.rs:448-470 | a weakly fair run without excused steps exists from every state with such a call pending |
| Ordering.JobConservation | src/lib.rs:165-191 | offered = dropped + being recorded + queued + current + skipped + completed + panicked + cancelled, with the queue within its capacity |
| Ordering.SkippedOnlyInactive | src/lib.rs:176-189 | as long as a registration is active, every job of it that has been processed has run: a job is skipped only when its registration is inactive, for good |
| Ordering.EveryListenerAsked | src/lib.rs:165-176 | an examined sample that decodes to a message of another origin gives one job for each entry listed at that moment whose filters accept it, and for no other |
| Ordering.SnapshotsExact | src/lib.rs:151-166 | the samples with a snapshot are exactly the examined ones that hold data of another origin which decodes, in take order |
| Ordering.SubmitRefusesOnlyWhenFull | src/runtime.rs:342-350 | the disconnected case never happens, and a job is refused exactly when the queue is at capacity |
| Ordering.SerialDelivery | src/runtime.rs:309-313 | the in-flight counts sum to one exactly while the current task owns its token, so callbacks never overlap; callbacks over are a prefix of callbacks begun |
| Ordering.PanicAccounting | src/runtime.rs:332-340 | callback panic events name processed jobs that panicked, each once and in order, never a cancelled one; with the flag down all of them but one that is joined and not yet judged |
| Ordering.PanicsFrozen | src/runtime.rs:337-339 | after stop it no longer changes which callback panics are reported |
| Ordering.PanicsReportedExactly | src/runtime.rs:337-339 | a panic joined before stop is reported, in every continuation, if and only if it was not the one between join and judgement when the flag went up; the counter says the same |
| Witnesses.PanicCanBeLost | src/runtime.rs:337-339 | a whole run, down to the end of the drop, in which a panic joined with the flag down is never counted |
| Ordering.DeliveryOrder | src/lib.rs:151-191 | one snapshot per accepted sample in take order; offered jobs are a prefix of their flattening; sent = processed + current + queued; callbacks begin in the order of a subsequence |
| Ordering.PerRegistrationOrder | src/lib.rs:165-191 | each registration sees samples in take order and no sample twice |
| Ordering.StartedRightful | src/lib.rs:151-176 | a callback delivers what a sample of another origin decodes to, to a registration whose source filter matches and whose sink filter is there exactly when the message has a sink, and matches it |
| Ordering.MalformedExact | src/lib.rs:155-164 | malformed events count exactly the examined samples of another origin that do not decode |
| Witnesses.MalformedHappens | src/lib.rs:155-164 | a run in which a sample of another origin that does not decode is counted and reaches nobody |
| Ordering.HealthAccounted | src/lib.rs:155-197 | kind by kind, the health log counts the failed takes, the malformed samples, the refused jobs, the reported panics and the panic of the poller, and nothing else |
| Shutdown.StepLowers | src/lib.rs:334-339 | after stop every step of poller, dispatcher, task or dropping thread lowers a lexicographic rank |
| Shutdown.SomeStepPossible | src/lib.rs:334-339 | until a drop begun outside a callback is done, one of them can take a step |
| Shutdown.ShutdownTerminates | src/lib.rs:334-339 | every scheduler that always runs somebody who can step brings a drop begun outside a callback to its end |
| Shutdown.SchedulerExists | src/lib.rs:334-339 | such a scheduler exists |
| Shutdown.DropEndsIff | src/lib.rs:334-339 | a drop that has begun can come to its end if and only if it was not begun by the running callback itself |
| Shutdown.InsideNeverEnds | src/lib.rs:338 | begun there, it waits in every continuation for the token of the callback that began it |
| Witnesses.DropInsideCanHang | src/lib.rs:338 | a reachable drop that no schedule can finish |
| Shutdown.DeactivatedAll | src/runtime.rs:487-495 | when `deactivate_all` has returned, every registration ever created is inactive and idle |
| Shutdown.QuietForever | src/lib.rs:338-339 | from then on no callback begins in any continuation: what is still queued is skipped |
| Shutdown.ClosedIsFinal | src/lib.rs:339-340 | when the dispatcher is joined the queue is empty, every sent job has its fate, every token is back, and no step is left |
| Witnesses.StopAloneDoesNotSilence | src/lib.rs:336-338 | a run in which a callback begins after stop and before its registration is deactivated |
| Shutdown.BeginsAfterStopIff | src/lib.rs:336-339 | once the poller has left after stop, some continuation begins one more callback of a registration if and only if it is still active, a job of it is queued or at `begin`, and the drop was not begun inside a callback |
| Surroundings.TaskMayGoOn | src/runtime.rs:332-337 | a task starts unless aborted before, completes or panics unless it is inside the transport's own code, may be cancelled exactly once aborted, and gives its token back last |
| Surroundings.WakesExactly | src/runtime.rs:395-403 | the last token of a registration wakes those who wait for it and nobody else |
| Surroundings.ReaderMayReturn | src/lib.rs:144-150 | the reader may return any samples up to the limit, none or an error, and it or a codec may panic, at every moment the poller runs them |
| Surroundings.DropMayCome | src/lib.rs:334-339 | the last handle may be dropped whenever no call is pending, on a thread of its own or by the running callback |
| Surroundings.WakesMayBeSpurious | src/runtime.rs:384-389 | a parked thread may be woken for nothing at any moment |
| Surroundings.CallsMayCome | src/runtime.rs:418-470 | anybody may register, and unregister when not already in a call, as long as the transport is open |
| Network.Provenance | src/lib.rs:151-191 | among transports on one topic, a callback delivers exactly a message that a transport of a different origin sent, to filters that match the addresses it was sent with |
| Network.DeliveryHappens | src/lib.rs:151-191 | whatever a transport sends can arrive: if the filters of a listener elsewhere match its addresses, some run begins that listener's callback with just that message |
| Network.NothingMalformed | src/lib.rs:155-164 | among such transports nothing is ever counted as malformed |
| Carriage.PresenceImage | docs/wire-contract.md:11-14 | flag and bytes are consistent exactly when some sender writes them, and reading inverts writing |
| Carriage.ClassicRoundTrip | src/lib.rs:260-302 | decode after send restores a message if and only if it survives up-rust's own projections, and keeps absent, empty and nonempty payloads apart |
| Carriage.ClassicAcceptedIsSent | src/lib.rs:260-273 | an accepted sample carries the fields of a payload a sender could have; inconsistent ones are rejected |
| Carriage.ClassicLinkRoundTrips | src/lib.rs:260-302 | the classic family meets what the network results ask of a carriage |
| Carriage.ClassicProvenance | src/lib.rs:151-176 | a classic listener gets exactly a message another transport sent, with filters that match the addresses in its attributes |
| Carriage.OwnedRoundTrip | src/owned.rs:243-284 | decode after send restores every validated frame and its payload presence |
| Carriage.OwnedAcceptedIsSent | src/owned.rs:243-257 | exactly which samples are accepted; each is consistent and holds a valid frame |
| Carriage.OwnedLinkRoundTrips | src/owned.rs:243-284 | the owned family meets what the network results ask of a carriage |
| Carriage.OwnedProvenance | src/owned.rs:243-284 | an owned listener gets exactly a frame another transport sent, with filters that match the addresses in its metadata |
| Carriage.ZeroCopyRoundTrip | src/zero_copy.rs:361-437 | source, optional sink, metadata and payload bytes of a loan are restored if and only if its payload flag agrees with its bytes |
| Carriage.ZeroCopyForgetsPresence | src/zero_copy.rs:382-385 | an absent and an empty payload are different samples and the same receive frame |
| Carriage.ZeroCopyAcceptedIsSent | src/zero_copy.rs:361-387 | an accepted sample has the presence fields of one a sender writes, and sending it on means the same; others are rejected |
| Carriage.ZeroCopyLinkRoundTrips | src/zero_copy.rs:361-437 | the zero-copy family meets what the network results ask of a carriage |
| Carriage.ZeroCopyProvenance | src/zero_copy.rs:361-437 | a zero-copy listener gets the addresses, metadata and bytes another transport put into a loan, with filters that match those addresses |
| Carriage.TxBuffer.constructor | src/zero_copy.rs:406-417 | a loan holds the routing parts of its spec and zeroed storage of the requested length |
| Carriage.TxBuffer.CopyFromSlice | src/zero_copy.rs:79-81 | writing the payload changes the payload and nothing else of the loan |
| Carriage.TxBuffer.Send | src/zero_copy.rs:419-437 | the sample written is that of the loan's content at that moment |
| ListenerRegistry.Registration.Begin | src/runtime.rs:371-379 | a token is granted exactly when active, and counted |
| ListenerRegistry.Registration.DropToken | src/runtime.rs:395-403 | one token less, and waiters are notified exactly at zero |
| ListenerRegistry.Registration.Deactivate | src/runtime.rs:381-384 | the flag goes down and the caller learns whether a token is out |
| ListenerRegistry.Registry.Register | src/runtime.rs:418-446 | the objects follow the registry value: refused exactly when the key is listed, else one fresh active registration at the end |
| ListenerRegistry.Registry.Unlist | src/runtime.rs:454-468 | NotFound exactly when the key is absent, else its one entry leaves the list, still active, and nothing else changes |
| ListenerRegistry.Registry.Begin | src/runtime.rs:371-379 | the registry value gains a token of that generation exactly when it is active |
| ListenerRegistry.Registry.DropToken | src/runtime.rs:395-403 | the registry value loses one token; notification exactly when no token of that generation is left |
| ListenerRegistry.Registry.Deactivate | src/runtime.rs:381-384 | the registry value has that generation inactive and everything else as before |
| ListenerRegistry.Registry.Matching | src/runtime.rs:472-485 | the loop returns exactly the listed registrations whose filters accept the message, in registration order |
| ListenerRegistry.Registry.TakeAll | src/runtime.rs:488-491 | the list is emptied and its entries are returned in order, nothing else changes |
| Health.DdsHealth.Record | src/runtime.rs:180-200 | the history grows by the one event, numbered next; counters and ring stay views of the whole history |
| Health.DdsHealth.Snapshot | src/runtime.rs:167-178 | counters count the whole history and sum to its length; the events are its last 64 with consecutive numbers |
| Health.CountersSum | src/runtime.rs:182-191 | the six counters account for every event |
| Readiness.WaitUntil | src/runtime.rs:240-264 | success, failure and timeout exactly as the readings say, in at most ceil(timeout / 10 ms) + 1 reads |
| Readiness.ReportUnique | src/runtime.rs:245-263 | the readings determine the report and the number of reads |
| Workers.JobQueue.TrySend | src/runtime.rs:342-343 | a job is appended exactly when there is room |
| Workers.Submit | src/runtime.rs:342-350 | sending, or recording a refusal, is one or two poller steps of the protocol |
| Workers.HandleSample | src/lib.rs:151-191 | the body of the sample loop is a run of poller steps that ends with the sample examined and nothing pending; every queued job holds the very registration that was listed |
| Workers.PollOnce | src/lib.rs:144-198 | one turn of the loop is a run of poller steps that begins with the take of what the reader returned and ends at the next wait |
| Interference.KeptNext | src/runtime.rs:309-340 | no step of another thread moves the poller, the dispatcher, a waiting caller or the dropping thread, beyond waking it, bringing it jobs or letting the task go on |
| Interference.InterferedKeeps | src/runtime.rs:309-403 | a turn of the others is a run of steps none of which is the thread's own, and keeps what is its own |
| Interference.InterferenceComplete | src/runtime.rs:309-403 | every run of steps of others is the turn of some tries, so no interleaving is left out |
| Interference.OneOwnerOfStep | src/lib.rs:134-199 | each step of poller, dispatcher, caller and dropping thread belongs to one thread; registrations, the task and spurious wake-ups belong to none |
| Interference.ToldReaches | src/lib.rs:134-199 | what a log tells is a run of the protocol, and a longer log tells of a continuation of it |
| Threads.Shared.Take | src/runtime.rs:309-403 | one step of the thread, then a turn of the others: the new state is exactly what these lead to |
| Threads.Shared.PollerTurn | src/lib.rs:143-199 | wait, take, and handle every sample with the others in between: it leaves exactly when the flag is up, otherwise all that was taken is examined, one snapshot per accepted sample, everything in the snapshots has been offered, and a failed take is counted |
| Threads.Shared.PollerLoop | src/lib.rs:143-199 | what has been taken is what the reader returned, turn by turn and in order, and each failed take is counted; it leaves only with the flag up, and at once if the flag is up already |
| Threads.Shared.RunCallback | src/runtime.rs:324-340 | the dispatcher's own steps are looks, one join, and after a failure the judgement and the report; the job is noted with the outcome of its task, a panic is reported exactly when the flag is down at the last look, a cancelled task is never reported; not done after `turns` turns it has looked that often in vain, or waits in the join for a task that is not finished |
| Threads.Shared.DispatcherLoop | src/runtime.rs:309-313 | a run of dispatcher steps with turns of the others; jobs are processed in the order of the queue, of those queued at first one each turn; the thread leaves only with the queue empty, its sender gone and every sent job processed, and once the sender is gone it does leave, a turn after the last job, unless a callback holds it |
| Threads.Shared.DeactivateAndWait | src/runtime.rs:381-390 | its own steps are one deactivation and then looks; it returns at the first event that finds no token of the registration out, and then the generation is retired |
| Threads.Shared.RetireFirst | src/runtime.rs:381-390 | the same for the dropping thread and the first entry it holds |
| Threads.Shared.Unregister | src/runtime.rs:448-470 | NotFound exactly when absent, after one step that changes nothing but the result log; else its own steps are the removal, one deactivation and looks; it returns at the first event after the removal that finds no token out, with the generation inactive, idle and retired |
| Threads.Shared.DeactivateAll | src/runtime.rs:487-495 | its own steps are the taking of the list and one deactivation for each entry of it, with looks while it waits; not done it stands at an entry it waits for, with the number of entries left |
| Threads.Shared.Drop | src/lib.rs:335-339 | its own steps are stop, join, take, one deactivation for each registered entry, join, in this order, with turns of the others after each; from the state of the log in which `deactivate_all` has returned no callback begins and what is queued is skipped; at the end every job is processed, every generation inactive, and a panic of the poller counted once |

## Left out

- DDS participants, topics, readers, writers, QoS mapping and RTPS delivery: library calls; a topic is a set of written samples.
- Writer errors and their health events in `send`: the model sends only what the writer accepts.
- Entity teardown after the dispatcher is joined, and its `Teardown` events (src/lib.rs:340-356).
- `verify_filter_criteria` before the classic registry calls: a check of up-rust that can only refuse the call early.
- `catch_unwind` around a whole job (src/runtime.rs:310-312): with destructors that do not panic, as assumed above, a job can fail only inside its task, and there the join reports it.
- `dds_status`, `invalid`, `DdsConfig` defaults and most of `validate`: single-branch mappings; error texts are shortened.
- up-rust internals (`UUri::matches`, URI text, protobuf and frame codecs, selected wires): parameters with stated laws.
- `AlignedBytes`, alignment and uninitialized memory: allocator facts; a loan is an array of bytes.
- Real time outside `wait_until`, poisoned locks, thread-spawn failure, 64-bit overflow.
- Role binaries, benchmarks, command line.
- Threads.Shared.PollerTurn: a panic of the reader or of a codec on the poller thread is a step of the protocol, not a path of this method; the objects of `ListenerRegistry` and `Workers` follow the protocol lock section by lock section and are not what the threads of `Threads` work on.
- Threads.Shared.RunCallback: like the other waits of `Threads.Shared`, cut off after `turns` turns; the ends of the waits are theorems about runs.
- The last handle dropped by the teardown of a task's future, after the token is gone: the drop of a transport is modelled on a thread of its own or inside a running callback.
- Shutdown.ShutdownTerminates: assumes, as the list above says, that a running callback ends or yields; a callback that never does keeps the drop waiting.
