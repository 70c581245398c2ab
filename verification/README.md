# Verification of the DelegateMQ core

This project models the parts of the DelegateMQ library on which its guarantees rest, and proves
those guarantees with Dafny 4.11. `dafny verify dfyconfig.toml` checks all of it.

## What is modelled

* **Reliable sending.** `SenderSpec.dfy` says, on values, what a send, an ACK and a TIMEOUT do to
  the packet store of `RetryMonitor` and the pending map of `TransportMonitor`, and states the
  invariant of a sender driven by one network thread. `DrainSpec.dfy` treats the multi-pass drain
  of `Process`. `ReliableSender.dfy` holds the classes, proved against both. Clock readings and send
  results are functions the environment chooses; other status subscribers are finite scripts that
  re-enter the maps, of which `Reentry.dfy` says what they may and may not change; `SenderRuns.dfy`
  has whole runs and the accounting of attempts. `RetryInterleaving.dfy` is the same protocol with
  every lock region a step of its own and any number of threads: the budget survives.
  `RetryOutcomes.dfy` proves the balance that says how often a message is reported, `RetryReports.dfy`
  takes successes and failures one by one, `RetryStranding.dfy` says when exactly a message is
  stranded, and `RetryRuns.dfy` has the runs in which these laws fail and the conditions a caller can
  see under which, and only under which, they hold.
* **Receiving.** `Participant.dfy`: `ProcessIncoming` with the ring of accepted numbers, over a
  network that loses, duplicates and reorders.
* **Blocking calls.** `AsyncWait.dfy`: caller, destination thread, message lock, semaphore and
  expiry as interleaved steps.
* **Worker thread.** `WorkerThread.dfy`: the two-lane queue, the receive loop and `ExitThread` from
  outside or from a callback. `WorkerExit.dfy` says when `ExitThread` can return.
* **Multicast.** `MulticastSpec.dfy` is the plain meaning, a sequence of tickets;
  `Multicast.dfy` the container whose callbacks change the list being iterated.
* **Timers.** `TimerSpec.dfy` has the expiry arithmetic and the termination measure, `Timers.dfy`
  the intrusive pointer list and the drain; `PacedTimers.dfy` the gates of timer delegates.
* **Allocators.** `Allocator.dfy` (fixed blocks and their free list, `FreeList.dfy`),
  `NextHigher.dfy` (bit smearing), `Rounding.dfy` (words and numbers), `BucketTable.dfy`
  (double-checked table), `BlockHeap.dfy` (headers, `xmalloc`, `xfree`, `xrealloc`).
* **Remote call wait.** `InvokeWait.dfy`: early statuses, reconciliation and the wake signal.
* **CRC, registry, time.** `Crc16.dfy` with the generic `Folds.dfy`; `DataBus.dfy`;
  `WrappingTime.dfy`. `MapFacts.dfy` holds small facts about maps and sets, `Common.dfy` what several
  modules share.

## Assumptions

* Serialised sender: messages sent are not stored already (fresh keys), the pending map is filled
  only by this monitor, and during one `Process` call the clock advances by no more than the
  timeout. The exact-outcome law needs status subscribers that do not themselves send; termination
  and the drain are proved for scripts that add, remove and cancel entries.
* Interleaved sender: fresh keys; each lock region is atomic; any number of threads may be in `Process`,
  and what holds for one caller only says so.
* The worker queue keeps the lane contract of `DelegateMsg.h`: HIGH before waiting NORMAL, each lane
  first in, first out. There is one `ExitThread` call, and the final drain-and-destroy is one step.
* Timers: the clock stands still while timers are processed.
* An assignment source of a multicast delegate is not in a broadcast of its own.
* The registry is not reset while it is used.
* A remote call's send reached the dispatcher, so the number recorded is its own.

Where the code and its comments differ, the code is followed. `DelegateOpt.h` says that DRAIN invokes
every message queued before `ExitThread()`: with a watchdog or an idle handler the loop can time out
on the empty queue just before, and then cancels messages queued since
(`WorkerThread.DrainKeepsPromiseIffWaitsAreInfinite`). `CmsisRtos2Thread.cpp` waits for room for the
exit message "to ensure it gets in": a loop that has timed out and then sees the exit flag ends without
making any, and with a full queue `ExitThread` waits forever
(`WorkerExit.AlwaysReturnsIffWaitsAreInfinite`). `MulticastDelegate.h` says that a
delegate added during a broadcast "may" be called in the current pass: the code always calls it,
unless it is removed first or an exception ends the pass. `DataBus.h` checks types before any
write, except that a subscription asking for the last-value cache switches it on before its type is
checked; `DataBus.MismatchChangesNothing` states this. `WAIT_INFINITE` in `DelegateAsyncWait.h` is a
thousand hours: the wait that never expires is the one with `Duration::max()`, see `Semaphore.h`.

## Model

| member | source | states |
|---|---|---|
| `SenderSpec.KeyBitsFaithful` | DelegateMQ/extras/util/TransportMonitor.h:73 | the 32-bit composite key identifies the (id, seq) pair and orders pairs by id, then by number, as the ordered map visits them |
| `SenderSpec.RetryHasRoom` | DelegateMQ/extras/util/RetryMonitor.h:219-221 | the re-Add of a retry never fails: a message whose TIMEOUT is being reported always finds room, because its own slot was freed |
| `SenderSpec.SubmitKeeps` | DelegateMQ/extras/util/RetryMonitor.h:92-154 | a send of a message not stored keeps the whole invariant (equal key sets, conservation, budget), whatever the clock and the send result |
| `SenderSpec.NotifyKeeps` | DelegateMQ/extras/util/RetryMonitor.h:157-258 | a SUCCESS or TIMEOUT for one expired message takes exactly that message out of the unreported batch and keeps the invariant for all others; no Add is refused |
| `SenderSpec.AckKeeps` | DelegateMQ/extras/util/TransportMonitor.h:106-140 | an ACK keeps the invariant: the message leaves both maps and is counted as ACKed once |
| `SenderSpec.ExactlyOneOutcome` | DelegateMQ/extras/util/RetryMonitor.h:92-258 | between operations a key is stored iff it is pending; every message started was ACKed once, or reported failed once, or is still stored; its physical sends are at most 1 + maxRetries |
| `DrainSpec.PassDrains` | DelegateMQ/extras/util/TransportMonitor.h:170-217 | one pass takes out only entries stamped before the call, each once, and strictly shrinks that set although callbacks re-add entries |
| `Reentry.AllCleared` | DelegateMQ/extras/util/TransportMonitor.h:166-218 | whatever the other listeners did: each entry their scripts did not name was reported or is still there as it was, and each of these that had expired when the drain began was reported |
| `SenderRuns.EndsWithinBudget` | DelegateMQ/extras/util/RetryMonitor.h:180-209 | in any run of sends, ACKs and Process calls a stored message that was overdue at more ticks than it had attempts left was ACKed or reported failed, whatever lies between the ticks |
| `ReliableSender.TransportMonitor.Add` | DelegateMQ/extras/util/TransportMonitor.h:70-100 | refused exactly when the map is full or the key is taken; otherwise the entry is stamped with the clock reading; the map never exceeds its cap |
| `ReliableSender.TransportMonitor.Cancel` | DelegateMQ/extras/util/TransportMonitor.h:152-161 | frees exactly the key's slot, silently; says whether it was there |
| `ReliableSender.TransportMonitor.Locate` | DelegateMQ/extras/util/TransportMonitor.h:115-134 | picks the exact key, or for remote id 0 the first entry in key order with the sequence number; finds none iff there is none |
| `ReliableSender.TransportMonitor.CollectExpired` | DelegateMQ/extras/util/TransportMonitor.h:176-204 | moves the first expired entries in key order, at most 16, out of the map and leaves everything else |
| `ReliableSender.TransportMonitor.Process` | DelegateMQ/extras/util/TransportMonitor.h:166-218 | terminates and drains under re-entrant callbacks of any listeners: each entry no script named gets exactly one TIMEOUT or stays untouched, all of them that had expired at entry are reported, no remaining entry was expired at the last pass, and nothing happens to other messages; with the retry monitor alone listening the invariant holds again, each reported message lost one attempt or was dropped |
| `ReliableSender.TransportMonitor.Remove` | DelegateMQ/extras/util/TransportMonitor.h:106-140 | the first matching entry, if any, is removed and reported as SUCCESS, once but for what scripts name; the retry monitor hears of it first; nothing matches, nothing changes |
| `ReliableSender.TransportMonitor.EmitStatus` | DelegateMQ/extras/util/TransportMonitor.h:207-210 | the retry monitor reacts exactly as its specification says, with other listeners too; then the next script, if there is one, is used up, and what runs changes only messages it names |
| `ReliableSender.RetryMonitor.SendWithRetry` | DelegateMQ/extras/util/RetryMonitor.h:92-154 | a fresh message that finds room puts exactly its own packet on the wire, once, and nothing else is sent; it is stored, marked as sent and pending iff the answer is 0, which needs room and a send result of 0; otherwise it is cleaned up and reported failed |
| `ReliableSender.RetryMonitor.OnStatusChanged` | DelegateMQ/extras/util/RetryMonitor.h:157-258 | SUCCESS forgets the message and sends nothing; a TIMEOUT with attempts left puts the stored packet on the wire exactly once more and costs one attempt, re-registers a message whose first send still runs, or reports one without attempts; the rest of the state stays |
| `SenderSpec.NotifiedInFull` | DelegateMQ/extras/util/RetryMonitor.h:157-258 | the same for every state in which the entry is stored under its own key: wire, store, pending map and reports of each case of a status, spelled out |
| `ReliableSender.RetryMonitor.HandleAck` | DelegateMQ/extras/util/TransportMonitor.h:106-140 | an ACK settles exactly the first message that its number, and its remote id unless 0, match, or changes nothing |
| `SenderRuns.TickAccounts` | DelegateMQ/extras/util/RetryMonitor.h:190-196 | the accounting behind it: TIMEOUTs of a message since it was stored plus attempts left stay equal to maxRetries through any Process call |
| `SenderRuns.TickSpends` | DelegateMQ/extras/util/RetryMonitor.h:184-224 | the same account on the wire: physical sends of a stored message since it was stored plus attempts left stay equal to 1 + maxRetries through any Process call |
| `SenderRuns.GivenUpAfterAllSends` | DelegateMQ/extras/util/RetryMonitor.h:184-257 | a message given up for want of attempts was physically sent exactly 1 + maxRetries times (once if maxRetries is negative) since it was stored, and is reported failed once more |
| `ReliableSender.RetryMonitor.HandleTick` | DelegateMQ/extras/databus/NetworkNode.h:446-453 | a timer tick reports every message expired at its start, costs each reported message one attempt or drops it, ACKs none, and leaves all others as they were |
| `ReliableSender.RetryMonitor.Run` | DelegateMQ/extras/databus/NetworkNode.h:334-337 | every run of sends, ACKs and Process calls, with any clocks and send results, is a run of the specification: the invariant holds at every point, each message sent was ACKed once, or reported failed once, or is still stored and pending, and none outlives its attempts |
| `RetryInterleaving.StepSafe` | DelegateMQ/extras/util/RetryMonitor.h:92-258 | any atomic step of any sender, ACK or timeout thread keeps budget, ordering and packet identity |
| `RetryInterleaving.RetryBudget` | DelegateMQ/extras/util/RetryMonitor.h:97-151 | in every interleaving one SendWithRetry causes at most one first transmission and at most maxRetries retransmissions |
| `RetryInterleaving.RetransmissionsAreFaithful` | DelegateMQ/extras/util/RetryMonitor.h:184-246 | a retransmission comes after a first send that returned 0 and carries the original header and payload |
| `RetryInterleaving.AttemptsAreTransmitted` | DelegateMQ/extras/util/RetryMonitor.h:92-258 | and no fewer: in every interleaving a stored message that no thread is just about to transmit or give up has begun its one first transmission, and exactly the attempts it does not have left were retransmitted |
| `RetryOutcomes.ReportsBalance` | DelegateMQ/extras/util/RetryMonitor.h:92-258 | the balance of every interleaving: at rest the reports of a message, its entry if still pending and its stakes given up (a TIMEOUT that finds nothing stored, a refused re-registration) are together one more than the Cancels after a failed Send that found its entry gone |
| `RetryOutcomes.ReportedAtMostOnce` | DelegateMQ/extras/util/RetryMonitor.h:132-141 | so at rest a message was reported at most once iff no more of its Cancels missed than stakes of it were given up, a pending entry counting as one |
| `RetryOutcomes.ReportedExactlyOnce` | DelegateMQ/extras/util/RetryMonitor.h:92-258 | and it was reported exactly once and is forgotten, or was not reported and is stored and pending, iff as many Cancels missed as stakes were given up |
| `RetryOutcomes.BothReportedIffMissed` | DelegateMQ/extras/util/RetryMonitor.h:232-236 | at rest a message was reported both as a success and as a failure iff an ACK took its entry and a Cancel after a failed Send of it missed |
| `RetryStranding.ReliableTransportReportsOnce` | DelegateMQ/extras/util/RetryMonitor.h:92-258 | the conditions a caller can see: when no physical send fails and no more messages were begun than the pending map holds, exactly one outcome or stored and pending, in every interleaving |
| `RetryRuns.ReportedAtMostOnceIffSendsSucceed` | DelegateMQ/extras/util/RetryMonitor.h:125-142 | at most one report of every message in all runs iff physical sends do not fail, whatever the number of retries |
| `RetryReports.SucceedsAtMostOnce` | DelegateMQ/extras/util/TransportMonitor.h:106-140 | no message is reported as a success twice, in any interleaving |
| `RetryReports.FailsTwiceIff` | DelegateMQ/extras/util/RetryMonitor.h:132-141 | at rest a message was reported failed twice or more iff more of its Cancels missed than stakes of it were given up, came to a success or are still pending |
| `RetryReports.FailsAtMostOnce` | DelegateMQ/extras/util/RetryMonitor.h:184-257 | with retries, no message is reported failed twice in a run in which no TIMEOUT of it is handled during a retransmission of it, which one caller of Process ensures |
| `RetryRuns.FailsAtMostOnceIffRetries` | DelegateMQ/extras/util/RetryMonitor.h:204-208 | with that proviso, no message is reported failed twice in any run iff there are retries |
| `RetryRuns.ExpiryInFirstSendReportsTwice` | DelegateMQ/extras/util/RetryMonitor.h:204-257 | without retries one caller of Process is enough: the message expires inside its first Send, is erased and reported, the Send fails, its Cancel misses and it is reported again |
| `RetryRuns.LateAckReportsBoth` | DelegateMQ/extras/util/RetryMonitor.h:223-236 | a run with both reports: an ACK lands while a retransmission is inside Send, and that Send then fails |
| `RetryRuns.OverlappingRetriesReportTwice` | DelegateMQ/extras/util/RetryMonitor.h:213-236 | with two callers of Process at once, two retransmissions of one message can be inside Send, and when both fail both report it |
| `RetryStranding.StrandedIffRefused` | DelegateMQ/extras/util/RetryMonitor.h:248-251 | at rest a message is stored but not pending iff its re-registration was refused for lack of room while it was stored and its first send returned 0 |
| `RetryRuns.NoneStrandedIffRoomForAll` | DelegateMQ/extras/util/RetryMonitor.h:248-251 | a caller who begins at most n messages is safe from stranding in all runs iff n is within the capacity of the pending map |
| `RetryRuns.RefusedReregistrationStrands` | DelegateMQ/extras/util/RetryMonitor.h:248-251 | for every capacity and every data message there is a run, with one message more than the map holds, in which the ignored re-registration is refused and the message is never decided in any continuation |
| `RetryStranding.StrandedForever` | DelegateMQ/extras/util/RetryMonitor.h:248-251 | a stored message that is neither pending nor in the hands of a thread is never mentioned again |
| `AsyncWait.TargetRunsAtMostOnce` | DelegateMQ/delegate/DelegateAsyncWait.h:512-550 | in every interleaving the target function starts at most once |
| `AsyncWait.NothingAfterReturn` | DelegateMQ/delegate/DelegateAsyncWait.h:251-266 | after the call has returned the target does not start, run or touch the caller's arguments; a target that started has ended before the return, even if the wait expired |
| `AsyncWait.SuccessMeansCompleted` | DelegateMQ/delegate/DelegateAsyncWait.h:438-483 | the call reports success iff the target returned normally and the wait did not expire; the value handed over is the one the target returned; on failure there is none |
| `AsyncWait.CallSucceedsIff` | DelegateMQ/delegate/DelegateAsyncWait.h:438-483 | a call that has returned succeeded iff its message was queued and taken, the target did not throw and the wait did not expire: there is no other reason to fail |
| `AsyncWait.TakenCallRuns` | DelegateMQ/delegate/DelegateAsyncWait.h:524-547 | once the destination thread is through with a message it took, the target has run to its end, unless the wait expired |
| `AsyncWait.UndisturbedCallSucceeds` | DelegateMQ/delegate/DelegateAsyncWait.h:231-267 | with a bound, non-empty delegate, an accepted dispatch, no cancellation, expiry or throw, a call that has returned has run the target and hands over the value it returned |
| `AsyncWait.NothingToRun` | DelegateMQ/delegate/DelegateAsyncWait.h:438-483 | an empty delegate or one without a thread sends nothing, runs nothing and does not succeed; the empty one has returned at once and nothing else is seen |
| `AsyncWait.CancelledNeverRuns` | DelegateMQ/delegate/DelegateAsyncWait.h:104-109 | a message cancelled in the queue never starts its target, in any continuation, and its call fails |
| `AsyncWait.TargetIsReached` | DelegateMQ/delegate/DelegateAsyncWait.h:524-537 | the run of an ordinary call that reaches its target, which can use the caller's arguments |
| `AsyncWait.InfiniteWaitNeverExpires` | DelegateMQ/delegate/Semaphore.h:39-44 | a wait without a limit never expires |
| `AsyncWait.FiniteWaitEnds` | DelegateMQ/delegate/Semaphore.h:45-60 | a caller in a finite wait goes on at its signal or at the expiry, whatever the destination thread does |
| `AsyncWait.EndsOnce` | DelegateMQ/delegate/DelegateAsyncWait.h:524-548 | in every interleaving the target ends at most once, by returning or by throwing |
| `AsyncWait.SignalledExactlyWhenDisposed` | DelegateMQ/delegate/Semaphore.h:37-71 | the semaphore of a caller that is about to wait or waiting is signalled iff its message was invoked, threw or was cancelled, whichever came first |
| `AsyncWait.DisposedCallReturns` | DelegateMQ/delegate/DelegateAsyncWait.h:104-109 | once the destination thread is through with the message, the call returns by the caller's own steps, without an expiry, even with an infinite wait |
| `AsyncWait.NeverStuck` | DelegateMQ/delegate/DelegateAsyncWait.h:231-267 | no deadlock: until the call has returned some step other than an expiry is possible |
| `WorkerThread.EveryMessageDisposed` | DelegateMQ/port/os/cmsis-rtos2/CmsisRtos2Thread.cpp:191-231 | conservation: what a lane accepted is what was taken from it followed by what waits, in order; after the exit every accepted message was invoked or cancelled exactly once |
| `WorkerThread.LaneFifo` | DelegateMQ/delegate/DelegateMsg.h:15-34 | per-lane FIFO: messages of a lane are taken in the order of acceptance, without gaps |
| `WorkerThread.HighBeforeNormal` | DelegateMQ/delegate/DelegateMsg.h:15-34 | when a NORMAL message is received every HIGH message accepted so far has been taken |
| `WorkerThread.DrainInvokes` | DelegateMQ/port/os/cmsis-rtos2/CmsisRtos2Thread.cpp:450-457 | DRAIN from another thread, the time-out of Receive and the read of the exit flag being two steps: a message accepted before the exit message is invoked iff it was accepted before the wait on which the loop ended was over, and never both invoked and cancelled |
| `WorkerThread.DrainWithInfiniteWaits` | DelegateMQ/port/os/cmsis-rtos2/CmsisRtos2Thread.cpp:434-448 | when the loop waits forever, DRAIN invokes every message accepted before the exit message |
| `WorkerThread.DrainKeepsPromiseIffWaitsAreInfinite` | DelegateMQ/port/os/cmsis-rtos2/CmsisRtos2Thread.cpp:434-457 | what DRAIN documents, that a message queued before ExitThread(DRAIN) is called has been invoked, and not cancelled, when it returns, holds for all runs around the call iff the loop waits without a timeout: no watchdog, no idle handler |
| `WorkerThread.FiniteWaitsCanCancel` | DelegateMQ/port/os/cmsis-rtos2/CmsisRtos2Thread.cpp:450-457 | the failing run, for every capacity: Receive times out, a message is queued, ExitThread is called and sets its flags, the loop reads them and ends, the message is cancelled under DRAIN |
| `WorkerThread.DiscardStopsInvoking` | DelegateMQ/port/os/cmsis-rtos2/CmsisRtos2Thread.cpp:191-231 | from the first step of ExitThread(DISCARD) on, in any continuation, no message passes the check that had not passed it before; when it has returned every other accepted message was cancelled |
| `WorkerThread.SelfExitDiscards` | DelegateMQ/port/os/cmsis-rtos2/CmsisRtos2Thread.cpp:209-216 | the same for ExitThread called from the running callback, under either policy |
| `WorkerThread.LoopEndsOnlyOnExit` | DelegateMQ/port/os/cmsis-rtos2/CmsisRtos2Thread.cpp:450-457 | the loop ends only after ExitThread has raised the exit flag |
| `WorkerThread.QueueIsBounded` | DelegateMQ/port/os/cmsis-rtos2/CmsisRtos2Thread.cpp:217-227 | the queue never holds more than its capacity, the exit message included |
| `WorkerThread.ExitReturns` | DelegateMQ/port/os/cmsis-rtos2/CmsisRtos2Thread.cpp:217-231 | once its exit message is queued, finitely many steps of the loop alone end it and let ExitThread return |
| `WorkerExit.ReturnsIffNotBlocked` | DelegateMQ/port/os/cmsis-rtos2/CmsisRtos2Thread.cpp:217-231 | ExitThread whose exit message is allocated can return iff it does not find the queue full and the loop ended or just timed out (or a queue without capacity) |
| `WorkerExit.FullQueueBlocksExit` | DelegateMQ/port/os/cmsis-rtos2/CmsisRtos2Thread.cpp:450-457 | the run in which it waits forever, for every capacity and either policy: Receive times out, the queue fills, ExitThread sets its flags, the loop reads the exit flag and ends, and the exit message finds no room |
| `WorkerExit.AlwaysReturnsIffWaitsAreInfinite` | DelegateMQ/port/os/cmsis-rtos2/CmsisRtos2Thread.cpp:434-457 | so ExitThread can return from every run iff the loop waits without a timeout |
| `WorkerExit.WithoutMessageReturnsIffWaitsAreFinite` | DelegateMQ/port/os/cmsis-rtos2/CmsisRtos2Thread.cpp:450-457 | when the exit message cannot be allocated it is the other way round: ExitThread can return iff the loop's waits time out |
| `MulticastSpec.SurvivorsCalled` | DelegateMQ/delegate/MulticastDelegate.h:208-219 | a broadcast that no exception ends has called every subscription present at its end, appended ones included, whatever the callbacks did |
| `MulticastSpec.PassUnfolds` | DelegateMQ/delegate/MulticastDelegate.h:212-217 | each step of a pass calls the next subscription still present and goes on behind it; removed ones never come back |
| `MulticastSpec.QuietPass` | DelegateMQ/delegate/MulticastDelegate.h:208-219 | with callbacks that do nothing a broadcast calls all subscriptions, in order, once |
| `MulticastSpec.AppliedDelegates` | DelegateMQ/delegate/MulticastDelegate.h:32-94 | what each operation makes of the list of delegates, in terms of the list alone: added at the end, the first equal one gone, empty, or the assigned ones; a throw or an operation calls nobody |
| `MulticastSpec.QuietBroadcast` | DelegateMQ/delegate/MulticastDelegate.h:208-219 | with silent callbacks a broadcast calls exactly the delegates of the list, in order |
| `MulticastSpec.ScriptDoesAll` | DelegateMQ/delegate/MulticastDelegate.h:208-219 | the operations of a callback take effect one after the other, each on what the ones before it left, up to a throw |
| `MulticastSpec.NestedBroadcast` | DelegateMQ/delegate/MulticastDelegate.h:208-219 | a broadcast inside a callback, with nothing scripted for its own callees, calls all subscriptions of that moment before the outer one goes on |
| `Multicast.MulticastDelegate.PushBack` | DelegateMQ/delegate/MulticastDelegate.h:32-56 | appends one live subscription; positions of an iteration in progress do not shift |
| `Multicast.MulticastDelegate.Remove` | DelegateMQ/delegate/MulticastDelegate.h:61-81 | of the delegates held in order, the first equal one is gone and nothing else; during a broadcast no position shifts |
| `Multicast.MulticastDelegate.Clear` | DelegateMQ/delegate/MulticastDelegate.h:84-94 | nothing is held any more; during a broadcast entries are only nulled |
| `Multicast.MulticastDelegate.CopyFrom` | DelegateMQ/delegate/MulticastDelegate.h:247-253 | copy assignment: afterwards exactly the source's delegates are held, in its order, none of the old ones; the source and, on self-assignment, everything stays; positions survive a broadcast |
| `Multicast.MulticastDelegate.MoveFrom` | DelegateMQ/delegate/MulticastDelegate.h:258-275 | move assignment, both branches: exactly the delegates the source held are held, in its order, and the source is empty |
| `Multicast.MulticastDelegate.LeaveBroadcast` | DelegateMQ/delegate/MulticastDelegate.h:144-153 | leaving the outermost broadcast purges nulls without changing the live subscriptions |
| `Multicast.MulticastDelegate.Invoke` | DelegateMQ/delegate/MulticastDelegate.h:208-219 | refinement: for any callback scripts (nested broadcasts, add, remove, clear, assignment, throw) the calls made and the live subscriptions are those of the plain sequence; with silent callbacks exactly the delegates held are called, in order; at depth zero no null and no clean-up flag remain; inside a broadcast positions are stable |
| `Multicast.FirstRemoved` | DelegateMQ/delegate/MulticastDelegate.h:61-81 | nulling or erasing the first equal slot both remove the first equal live subscription |
| `TimerSpec.FiredIsLighter` | DelegateMQ/extras/util/Timer.cpp:107-141 | an expiry strictly lowers the timer's weight, falling behind or not, and leaves no deadline in the past |
| `TimerSpec.PassIsLighter` | DelegateMQ/extras/util/Timer.cpp:152-222 | a pass that captured anything lowers the total weight, whatever its callbacks start, stop or destroy |
| `TimerSpec.DrainOutcome` | DelegateMQ/extras/util/Timer.cpp:146-225 | each timer expires at most twice, a one-shot at most once; a timer due at entry expires unless a callback acted on it |
| `TimerSpec.LastPassSettles` | DelegateMQ/extras/util/Timer.cpp:146-225 | after a pass that the batch limit did not cut off, no enabled timer's deadline is before now |
| `TimerSpec.NotBeforeTimeout` | DelegateMQ/extras/util/Timer.cpp:46-141 | a timer started at n with timeout T and not acted on since does not expire, and stays as it is, in all drains before n + T |
| `TimerSpec.OneShotExpiresOnce` | DelegateMQ/extras/util/Timer.cpp:57-131 | started as a one-shot it expires once over all later drains, in the first at or after n + T, not at all without one, and is disabled exactly after that |
| `TimerSpec.PeriodicExpiresAgain` | DelegateMQ/extras/util/Timer.cpp:57-141 | started as periodic it is still enabled after any drains; the first one at or after n + T moves the deadline to n + 2T, or to the present if that has passed, and expires it once or, if so, twice |
| `Timers.Timer.CheckExpired` | DelegateMQ/extras/util/Timer.cpp:107-141 | reports an expiry iff the timer is enabled and due, and moves its deadline or disables it accordingly |
| `Timers.TimerService.Start` | DelegateMQ/extras/util/Timer.cpp:46-86 | the timer is enabled with deadline now + timeout, that period and the kind asked for, one-shot or periodic, and no other timer changes; the list stays acyclic, duplicate-free and complete; a timeout that is not positive is refused and changes nothing |
| `Timers.TimerService.Stop` | DelegateMQ/extras/util/Timer.cpp:91-102 | disables the timer and raises the stop flag; the list is left alone |
| `Timers.TimerService.Destroy` | DelegateMQ/extras/util/Timer.cpp:25-41 | pointer surgery takes exactly this timer out of the list, the others keep their order |
| `Timers.TimerService.Prune` | DelegateMQ/extras/util/Timer.cpp:163-180 | drops exactly the disabled timers and lowers the stop flag |
| `Timers.TimerService.Collect` | DelegateMQ/extras/util/Timer.cpp:182-205 | captures up to 16 expirations, each once; if fewer, no due timer was left |
| `Timers.TimerService.ProcessTimers` | DelegateMQ/extras/util/Timer.cpp:146-225 | terminates under any callback scripts; on return no enabled deadline is before now, each timer fired at most twice, a one-shot at most once, every timer due at entry fired unless a callback script that ran names it; a timer no script acted on is what its expiries make of it; one script is used per call; the list invariants hold |
| `Timers.TimerService.InvokeAll` | DelegateMQ/extras/util/Timer.cpp:211-219 | the captured expirations are called in order, and each call runs its script in full: the timers are what all these operations, in sequence, make of them |
| `Timers.LastActDecides` | DelegateMQ/extras/util/Timer.cpp:25-102 | in a callback the last operation on a timer decides: started as asked, disabled, or gone, if the timer still exists then |
| `PacedTimers.PacedDispatch.TryFire` | DelegateMQ/extras/util/TimerDelegate.h:49-70 | a tick dispatches iff the previous message is no longer queued or running, so a dropped or finished message re-enables the next one; otherwise it only marks the gate pending |
| `PacedTimers.TimerGates.Run` | DelegateMQ/extras/util/TimerDelegate.h:140-146 | in every run of ticks and worker steps, messages queued plus running never outnumber the delegates, and a queue of that capacity never meets its full policy |
| `PacedTimers.TimerGates.Handle` | DelegateMQ/extras/util/TimerDelegate.h:140-146 | a tick queues one message iff the gate is idle, there is memory and there is room, and meets the full policy iff only room is missing; take, finish and cancel move only what they name; the full policy is not met with capacity for all gates |
| `PacedTimers.TimerGates.Flood` | DelegateMQ/extras/util/TimerDelegate.h:49-70 | a smaller queue does meet its full policy: there is a run that finds it full |
| `PacedTimers.RoomForIdleGate` | DelegateMQ/extras/util/TimerDelegate.h:49-70 | while one gate is not in flight the worker holds fewer messages than there are gates |
| `Crc16.CalcBlockByTable` | DelegateMQ/extras/util/crc16.h:56-61 | the table-driven calculation equals the bitwise definition for every message and initial value |
| `Crc16.CalcBlockByLoop` | DelegateMQ/extras/util/crc16.h:68-84 | the bit-by-bit calculation equals the bitwise definition for every message and initial value |
| `Crc16.EntryIsShifted` | DelegateMQ/extras/util/crc16.h:24-51 | every one of the 256 table entries is its index divided through bit by bit |
| `Crc16.CrcComposes` | DelegateMQ/extras/util/crc16.h:56-61 | the CRC of a concatenation continues from the CRC of the first part |
| `Crc16.ResidueChecksTrailer` | DelegateMQ/extras/util/crc16.h:56-61 | the register ends at zero iff the two bytes appended are the CRC, high byte first |
| `Crc16.BurstDetected` | DelegateMQ/extras/util/crc16.h:68-84 | two different messages of equal length that differ only within 16 consecutive bits have different CRCs |
| `Crc16.SeventeenBitsUndetected` | DelegateMQ/extras/util/crc16.h:68-84 | a 17-bit difference that spells the polynomial goes unseen, so 16 is the limit |
| `Participant.RingIsWindow` | DelegateMQ/extras/databus/Participant.h:359-376 | the ring holds exactly the last SIZE accepted sequence numbers |
| `Participant.HandledIff` | DelegateMQ/extras/databus/Participant.h:71-115 | which arrivals are handled: well received, with the marker, on a registered channel, and either an acknowledgement, always, or with a number not among the last SIZE accepted |
| `Participant.DeliveredInFull` | DelegateMQ/extras/databus/Participant.h:71-115 | all other effects of an arrival: each receive error reported once, a number accepted exactly if its message is handled and no acknowledgement, no channel and no other history touched |
| `Participant.SeqHistory.Contains` | DelegateMQ/extras/databus/Participant.h:367-370 | finds a number iff it is among the last SIZE accepted |
| `Participant.SeqHistory.Record` | DelegateMQ/extras/databus/Participant.h:371-375 | a new number replaces the oldest |
| `Participant.Participant.ProcessIncoming` | DelegateMQ/extras/databus/Participant.h:71-115 | receive failure, bad marker, unknown id, ACK id, duplicate and new message each have the specified effect and result |
| `Participant.CopyIsDropped` | DelegateMQ/extras/databus/Participant.h:97-101 | at most once: a further copy of a handled message is dropped while fewer than SIZE other messages of its id were accepted in between |
| `Participant.CopyHandledAgain` | DelegateMQ/extras/databus/Participant.h:359-376 | SIZE is the limit: after SIZE other messages a copy is handled again |
| `Participant.DroppedOnlyIfCongruent` | DelegateMQ/extras/dispatcher/Dispatcher.h:54 | a message not accepted before is dropped iff its dispatch count is congruent modulo 2^16 to one of the last SIZE accepted counts |
| `Participant.FirstArrivalHandled` | DelegateMQ/extras/dispatcher/Dispatcher.h:54 | a first arrival is handled while the window spans fewer than 2^16 dispatches |
| `InvokeWait.InvokeWaitState.OnStatus` | DelegateMQ/extras/rpc/RemoteDispatcher.h:316-336 | early statuses are buffered, the first own status after recording completes the call and raises the signal |
| `InvokeWait.InvokeWaitState.RecordSent` | DelegateMQ/extras/rpc/RemoteDispatcher.h:343-363 | recording the number reconciles a buffered status and forgets the others |
| `InvokeWait.WakesForOwnStatusOnly` | DelegateMQ/extras/rpc/RemoteDispatcher.h:310-396 | the signal is raised at most once, exactly when a status of the call's own (id, seq) arrived; success needs SUCCESS among those |
| `InvokeWait.Confluent` | DelegateMQ/extras/rpc/RemoteDispatcher.h:310-396 | with one own status, the outcome is the same whether it lands before or after the number is recorded, whatever other statuses arrive |
| `InvokeWait.TrueMeansAcked` | DelegateMQ/extras/rpc/RemoteDispatcher.h:378-395 | in every run a call that returns true has seen SUCCESS for exactly the message it sent |
| `InvokeWait.WokenHasAnswer` | DelegateMQ/extras/rpc/RemoteDispatcher.h:378-395 | signals raised, pending and consumed add up to one iff the call is complete; a woken caller returns the deciding status |
| `InvokeWait.UnwokenHasReason` | DelegateMQ/extras/rpc/RemoteDispatcher.h:367-395 | a caller that goes on without being woken had its send refused or its wait expired |
| `InvokeWait.PatientCallIsAnswered` | DelegateMQ/extras/rpc/RemoteDispatcher.h:310-395 | without a refused send and an expiry, a call that has returned was answered, and returns true iff the deciding status was SUCCESS |
| `InvokeWait.AnsweredCallerCanWake` | DelegateMQ/extras/rpc/RemoteDispatcher.h:316-395 | no lost wake-up: a waiting caller whose answer is there can be woken, now or after the signal on its way |
| `InvokeWait.CallerCanReturn` | DelegateMQ/extras/rpc/RemoteDispatcher.h:343-395 | from any point of any run at most four of the caller's own steps, whether its send succeeds or not, end the call |
| `Allocator.BlocksApart` | DelegateMQ/extras/allocator/Allocator.cpp:78 | pool blocks do not overlap and lie inside the pool |
| `Allocator.BlocksAligned` | DelegateMQ/extras/allocator/Allocator.cpp:78 | a block's offset is its index times the block size |
| `Allocator.Allocator.Allocate` | DelegateMQ/extras/allocator/Allocator.cpp:63-114 | a request gets the newest free block, else the next one of the untouched pool tail, else a heap block, and never one in use; a pool refuses iff all its blocks are in use; counters follow modulo 2^32 |
| `Allocator.Allocator.Deallocate` | DelegateMQ/extras/allocator/Allocator.cpp:119-136 | the block goes to the head of the free list threaded through the blocks; counters follow modulo 2^32 |
| `Allocator.Allocator.Run` | DelegateMQ/extras/allocator/Allocator.cpp:63-136 | in every run that frees only blocks in use, free blocks, blocks in use and the untouched tail stay disjoint and account for the pool; the free list is acyclic; blocks in use are grants minus returns |
| `Allocator.Allocator.Push` | DelegateMQ/extras/allocator/Allocator.cpp:151-156 | the free list gains this block, whatever its owner had written into the link word |
| `Allocator.Allocator.Pop` | DelegateMQ/extras/allocator/Allocator.cpp:161-172 | the newest free block leaves the list, or none |
| `NextHigher.NextPower` | DelegateMQ/extras/allocator/xallocator.cpp:106-113 | the least power of two at or above the argument for 1..2^63; zero and larger arguments give zero |
| `NextHigher.FullySmeared` | DelegateMQ/extras/allocator/xallocator.cpp:110-111 | the six smears set every bit below the highest one |
| `BucketTable.Table.Find` | DelegateMQ/extras/allocator/xallocator.cpp:192-204 | finds the bucket of the size iff the table has one, although the search stops at the first empty slot |
| `BucketTable.Table.Insert` | DelegateMQ/extras/allocator/xallocator.cpp:209-220 | takes the first empty slot, keeping the table a dense prefix with one bucket a size; fails iff the table is full |
| `BucketTable.OneAllocatorPerSize` | DelegateMQ/extras/allocator/xallocator.cpp:293-337 | under every interleaving of look-up, unlocked construction and recheck, all callers for one size get the same allocator |
| `BucketTable.Table.GetAllocator` | DelegateMQ/extras/allocator/xallocator.cpp:293-337 | run by one thread, look-up, construction, recheck and insertion on the table are the steps of the interleaved model |
| `BucketTable.SizeNamesAllocator` | DelegateMQ/extras/allocator/xallocator.cpp:293-337 | in every run a block size names one allocator and an allocator has one block size, so the header word may be either |
| `BucketTable.ServedAtOnce` | DelegateMQ/extras/allocator/xallocator.cpp:299-308 | in every run a request for a size already served gets its bucket in its first step, and no allocator is constructed for it |
| `BucketTable.TableOnlyGrows` | DelegateMQ/extras/allocator/xallocator.cpp:293-337 | a bucket once in the table stays at its place |
| `BucketTable.FailsOnlyWhenFull` | DelegateMQ/extras/allocator/xallocator.cpp:320-325 | a request fails only when the table is full of buckets of other sizes |
| `BlockHeap.BlockSizeIsLeastPower` | DelegateMQ/extras/allocator/xallocator.cpp:293-300 | a request is served with the least power of two that holds it and its header |
| `Rounding.WordBlockSize` | DelegateMQ/extras/allocator/xallocator.cpp:296-297 | the block size computed by smearing machine words is the one computed on numbers, when it does not wrap around |
| `BlockHeap.XAllocator.Malloc` | DelegateMQ/extras/allocator/xallocator.cpp:343-391 | the newest freed block of the size is reused, and the heap asked only if there is none; the block was not in use, holds the requested bytes, and its header names the allocator that issued it; blocks never overlap |
| `BlockHeap.XAllocator.Free` | DelegateMQ/extras/allocator/xallocator.cpp:397-416 | the block returns to the free list of the allocator that issued it although the link overwrites the header; a null pointer is ignored |
| `BlockHeap.XAllocator.Realloc` | DelegateMQ/extras/allocator/xallocator.cpp:421-452 | the new block starts with the first min(old, new) bytes; null and zero-size cases; all other blocks keep their bytes |
| `DataBus.TopicTypeIsFirstUse` | DelegateMQ/extras/databus/DataBus.h:784-790 | in every run a topic's type is that of its first use and everything stored under it has that type |
| `DataBus.CacheHoldsLastPublished` | DelegateMQ/extras/databus/DataBus.h:523-572 | the cached value is the last one published with the topic's type since the cache was asked for, and there is none without such a publish |
| `DataBus.MismatchChangesNothing` | DelegateMQ/extras/databus/DataBus.h:515-522 | a use with another type leaves every stored object as it was; a mismatching subscription can still switch the cache on |
| `DataBus.DataBus.SubscribeLocked` | DelegateMQ/extras/databus/DataBus.h:420-431 | the region has the specified effect and yields the topic's signal iff the type matches; the cast back is to the type stored |
| `DataBus.DataBus.LastValueLocked` | DelegateMQ/extras/databus/DataBus.h:454-474 | the cached value, unless expired, is delivered through a cast to the type it was made with |
| `DataBus.LateSubscriberGetsLastPublished` | DelegateMQ/extras/databus/DataBus.h:420-474 | whatever ran between the two regions of an accepted subscription, its topic still has its type and the cache holds the last value published with it, so the cast is sound |
| `DataBus.SignalIsShared` | DelegateMQ/extras/databus/DataBus.h:747-767 | the signal handed to a subscription is the one every later subscription and publish of the topic gets, in any run, and no other topic ever has it |
| `DataBus.RegistryHoldsLast` | DelegateMQ/extras/databus/DataBus.h:575-590 | in every run a publish finds the last serializer and the last stringifier registered with the topic's type, and none if there was none |
| `DataBus.DataBus.PublishLocked` | DelegateMQ/extras/databus/DataBus.h:510-595 | the region has the specified effect and hands out exactly the topic's signal, serializer and stringifier, each if there is one, cast back like the cached object to the type stored |
| `DataBus.DataBus.RegisterSerializerLocked` | DelegateMQ/extras/databus/DataBus.h:679-692 | stored iff the type matches |
| `DataBus.DataBus.RegisterStringifierLocked` | DelegateMQ/extras/databus/DataBus.h:695-715 | stored iff the type matches |
| `DataBus.Participants.Add` | DelegateMQ/extras/databus/DataBus.h:657-676 | appended unless the array is full |
| `DataBus.Participants.Remove` | DelegateMQ/extras/databus/DataBus.h:641-655 | the first match goes, the later participants move up in order |
| `WrappingTime.Clock.Run` | DelegateMQ/port/os/cmsis-rtos2/CmsisRtos2Clock.h:43-64 | for non-decreasing true ticks less than 2^32 apart, the first below 2^32, the readings are the exact unbounded ticks |
| `WrappingTime.FullLapIsMissed` | DelegateMQ/port/os/cmsis-rtos2/CmsisRtos2Clock.h:51-55 | a gap of 2^32 is not noticed |
| `WrappingTime.DifferenceIsTrue` | DelegateMQ/extras/util/MonotonicGuard.h:39-43 | the wrapped signed difference of truncated numbers is the true one within half the range |
| `WrappingTime.MonotonicGuard.Filter` | DelegateMQ/extras/util/MonotonicGuard.h:32-58 | on truncations of numbers each within half the range of the highest before, exactly the strict running maxima are accepted |
| `WrappingTime.HalfRangeAheadRejected` | DelegateMQ/extras/util/MonotonicGuard.h:39-43 | a number half the range ahead is taken for an old one |

## Left out

- The HTTP layer (`HTTP/async_http.cpp`, `main.cpp`): plumbing over libcurl; its blocking requests are blocking calls as modelled.
- Concrete transports, sockets, serializers and streams: a physical send is a step with a zero or non-zero result; payloads are byte sequences.
- RTOS primitives (mutexes, semaphores, message queues, interrupt masking): their contracts are assumed.
- Concurrency in `AsyncWait`, `WorkerThread`, the `Retry` modules, `BucketTable` and the caller part of `InvokeWait` is modelled on values, one atomic step at a time, not on shared objects; memory ordering weaker than that is not captured.
- ReliableSender.TransportMonitor.Process: one caller at a time, not re-entered from its own callbacks; the shared batch array `m_expiredItems` is a returned sequence, and the `OnCapExceeded` and `OnPendingExceeded` signals and the log are not modelled.
- ReliableSender.RetryMonitor.Run: a send whose key is still stored, which overwrites the entry, is skipped; so are destruction and re-initialisation of the monitors.
- AsyncWait.SuccessMeansCompleted: one call at a time, since calls share no state; the empty delegate and the unbound thread are included, the synchronous mode of the clone and failed allocations are not.
- WorkerExit.ReturnsIffNotBlocked: it says that some continuation ends the call; that the loop is scheduled and callbacks return is assumed.
- WorkerThread.EveryMessageDisposed: two `ExitThread` calls at once, a failed creation of the exit semaphore, start, exit and idle handlers, watchdog, statistics and exceptions that escape a callback are not modelled; a full queue is a refused send under every policy.
- Multicast.MulticastDelegate.Invoke: callbacks do not catch exceptions themselves; delegate equality is equality of values; destruction of the container during a broadcast is not modelled.
- Timers.TimerService.ProcessTimers: callbacks do not call it again; the count of timers left by a full batch, which is only logged, is not computed; connections of `OnExpired` are one callback per timer.
- PacedTimers.PacedDispatch.TryFire: `Reset`, which forgets the message in flight, and copying of gates are not modelled; the stuck report is a counter.
- Allocator.Allocator.Allocate: no new-handler is installed, so exhaustion is reported at once; the range and alignment assertions of the safeguard build are not modelled.
- BlockHeap.XAllocator.Malloc: an allocator is identified by its block size, which `BucketTable.SizeNamesAllocator` justifies; its sizes are unbounded integers, `Rounding` links them to machine words; the 64-bit layout without safeguards; sizes that overflow the address space are not modelled, `NextHigher.NextPower` says what rounding does to them.
- BlockHeap.XAllocator.Free: only blocks in use are freed.
- Participant.Participant.ProcessIncoming: channel creation and type checks, and what a handler does when it re-enters, are not modelled; `is_duplicate` is split into its search and its recording half.
- InvokeWait.InvokeWaitState.RecordSent: a send that fails before dispatch would record a stale number; the direct path taken on the network thread itself is not modelled.
- DataBus.DataBus.PublishLocked: dispatch to subscribers, participants and monitors after the region, rate limits and the unhandled signal are not modelled; the stringifier, which is handed out here, is called only when a monitor listens.
- WrappingTime.MonotonicGuard.IsNewer: the widths up to 32 bits; wider types are compared directly in the code, without wrap-around.
- Fault handling, logging, statistics, spy packets, template machinery and unicast delegates.
