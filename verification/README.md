# LuvCoro: verified model of its concurrent state machines and its framing layer

LuvCoro wraps libuv in C++20 coroutines. This project models the parts of it that decide something on their own: the
bounded message channel, the asynchronous and the single-threaded synchronisation primitives, structured concurrency,
the delimiter framing of `stream_buffer`, and three small machines on the runtime's task queue (the one-reader slot of a
stream, a sleep, a fixed-rate task).

    dafny verify dfyconfig.toml

## How the model is built

**Waiters.** A suspended coroutine is an id. The objects that the source shares between a deque, a timer and a stop
callback are entries of a table from ids to flags (`active`, `completed`, whether a continuation is stored, a payload). A
deque holds ids and is pruned at its front only, as in the source. `Waiters` proves once that such a deque stands for the
plain queue of its active members, whatever is switched off in the middle; every class below uses this.

**Three layers for the channel.** `MessageChannel` is the class with the five deques, the flags and the loops; one
method for each region under the lock. Each method is proved to act on a ghost `view` as a function of `ChannelSpec`
says, in which dead waiters do not exist. `ChannelRuns` then takes any interleaving of these regions, by any number of
threads, and proves the invariants, conservation and FIFO order, and that buffer, parked senders, direct hand-over and
pump together behave as one line of values (`Queue`), an independent reference in which the capacity only decides who
must wait. `ChannelWaiters` and `ChannelTimers` prove what single waiters rely on, and `ChannelSends` what becomes of what
is sent. `ChannelCalls` adds what the callers see: the handle that carries flush requests to the loop, the close task,
and the report each call makes after its region. `ChannelFlush` lets code run between the resumptions of one flush and
proves which regions that code runs, as if everyone had been resumed at once. The methods do not assume the invariants
of reachable states: that several of their branches are dead is proved above them, not built into them.

**Semaphore, mutex, condition variable.** `PermitSpec` is a FIFO hand-out of permits with cancellations; the mutex is its
case of one permit, with the set of requests that hold the lock. `AsyncSync` and `ConditionVariable` hold the classes.
`PermitSpec` also has the state after any run in closed form, `ConditionVariable` the protocol of `wait` as a machine over
the condition variable and the mutex together, and `SyncResumes` counts resumptions.

**Re-entrancy.** In `LocalSemaphore` a granted coroutine runs in the middle of the loop of `release` and may acquire and
release itself. A coroutine is a script that branches on what the semaphore answers and may start other coroutines;
`ReleaseMany` and `RunScript` call each other as the inline resumptions do, and the invariant counts the permits that
each release on the stack has still to distribute. `InlineMachine` is the reference: a machine with an explicit stack.

**Structured concurrency.** `TaskScope` has one step for each region of `spawn_impl`, `run_child`, `join` and the stop
callback. `ScopeState` is the shared object, with a real `MessageChannel` for the completions, and connects the two
through the channel's refinement theorem.

**Framing.** `Delimiters` is about byte strings alone; `StreamBuffer` holds the loops, over a stream whose calls fail or
deliver pieces of any size and a stop token whose checks find anything. Both are arbitrary functions of the number of the
call, so that a result can name the answer it depends on.

**Machines on the task queue.** `ReadSlot` and `SleepTimer` pair a class with a transition system over its regions and
the callbacks of libuv; `FixedRate` holds the two nested loops.

## Where the code does not do what one expects

For each of them the exact condition is proved; where a run is needed to see it, one is given.

- A receive stores its continuation before its second attempt (`include/luvcoro/message.hpp:1213-1221`). If a value
  arrives between the two attempts, the receiver is queued for resumption although it also goes on at once. A receiver
  is resumed twice exactly if this happened to it (`ResumedOnceUnlessRaced`, `DoubleResumeExample`). Senders have no
  such race (`SenderResumedOnce`). All other results about the channel hold with the race included.
- A call reports only after its locked region, and off the loop thread it throws if the channel's handle is closing by
  then (`include/luvcoro/message.hpp:1124-1126`). A `send` can so fail although its value was received, and a receive can
  throw the value it took away. This happens exactly if the region left a flush to ask for, the call is off the loop
  thread, and the close task ran in between (`ThrewIff`, `FailingSendExample`, `LostTakeExample`). Nobody is left
  unresumed by it (`NobodyIsStranded`).
- A waiter of `async_mutex`, `async_semaphore` or `async_condition_variable` is in its queue before `await_suspend` has
  decided. It is resumed twice exactly if it is ended before that and its continuation is stored by the time it is
  resumed (`SyncResumes.ResumedOnceUnlessRaced`, `ResumedTwiceIffCaught`, `SyncResumes.DoubleResumeExample`).
- `try_recv` and `blocking_next` can open a full channel for a blocked `send` without notifying it, exactly when they
  take from a full buffer behind which nobody is parked (`TakeOpensSilently`, `SilentTakeExample`). The awaited receives
  never do (`OpeningIsAnnounced`).
- A `task_scope` whose children have all gone is closed for good. If a child is spawned after that, `join` throws the
  channel's closed error exactly if some child is still active when it looks (`JoinOverRuns`, `LeakIff`, `LeakExample`);
  without a late spawn it never does.
- `read_until_any_result` depends on how the stream was chunked exactly if one delimiter occurs inside another other
  than as a suffix (`ChunkingIsInvisibleIff`).
- A failing `read_exact` loses the bytes it has already taken. It loses nothing exactly if the stop is requested at the
  call, or nothing was read ahead and the first call on the stream fails (`ExactLosesNothingIff`, `ExactLosesExample`).
  The other reads lose nothing, whether they fail or not (`StreamBuffer.StreamBuffer.RunReads`).
- `wait` on a mutex throws before it suspends exactly if the mutex is unlocked, and then leaves its waiter queued, where
  a later notification is spent on it (`ConditionVariable.AsyncConditionVariable.BeginWait`, `AbandonedTakesNotify`).

## Model

| member | source | states |
|---|---|---|
| `Waiters.Prune` | include/luvcoro/sync.hpp:57-62 | Dropping dead waiters from the front only keeps the queue of active ones, and the deque is empty afterwards exactly if nobody is active |
| `Waiters.Pop` | include/luvcoro/message.hpp:902-924 | The popped waiter is the oldest active one, and the others keep their order |
| `Waiters.LiveDeactivate` | include/luvcoro/message.hpp:562-569 | A waiter switched off where it stands leaves the queue of active waiters, and no other does |
| `MessageChannel.ReceiverStatus` | include/luvcoro/message.hpp:562-569 | A timer finds its receiver active and unfinished exactly if it still waits in the FIFO queue |
| `MessageChannel.ExpireReceiver` | include/luvcoro/message.hpp:562-569 | A receiver may end while its entry stays in the deque: the deque then stands for the queue without it |
| `MessageChannel.MessageChannel.CanSendNow` | include/luvcoro/message.hpp:926-950 | The check prunes but changes neither FIFO queue, and answers whether a new value may go past nobody |
| `MessageChannel.MessageChannel.PlaceSend` | include/luvcoro/message.hpp:952-964 | A value goes to the oldest waiting receiver, else to the end of the buffer; a flush is requested exactly in the first case |
| `MessageChannel.MessageChannel.CompleteReceiverValue` | include/luvcoro/message.hpp:966-981 | The receiver ends with the value, overriding nothing else, and is queued for resumption exactly if it stored its continuation |
| `MessageChannel.MessageChannel.CompleteReceiverClosed` | include/luvcoro/message.hpp:983-997 | The receiver ends with the closed error, and is queued for resumption exactly if it stored its continuation |
| `MessageChannel.MessageChannel.CompleteSender` | include/luvcoro/message.hpp:999-1017 | A parked sender ends as accepted or with closed, and is queued for resumption |
| `MessageChannel.MessageChannel.PumpLocked` | include/luvcoro/message.hpp:1019-1063 | Both loops together serve receivers oldest first from the buffer, then from parked senders, then refill the buffer; both flags are exact |
| `MessageChannel.MessageChannel.TryRecvLocked` | include/luvcoro/message.hpp:1065-1095 | Takes the head of the buffer and pumps, else the oldest parked value, else reports closed, else leaves everything as it was |
| `MessageChannel.MessageChannel.TryRecvNow` | include/luvcoro/message.hpp:292-308 | The locked region of the non-waiting receive takes the head of buffer and parked values, with the exact flags it raises |
| `MessageChannel.MessageChannel.RecvReady` | include/luvcoro/message.hpp:771-786 | First attempt of an awaited receive, with a time limit that may be over |
| `MessageChannel.MessageChannel.RecvSuspend` | include/luvcoro/message.hpp:788-853 | Second attempt with the continuation already stored; queues the receiver exactly if there is nothing to receive and time is left |
| `MessageChannel.MessageChannel.BlockingSendTurn` | include/luvcoro/message.hpp:616-642 | One turn of `send` or `try_send` under the lock: closed, would block, must wait, or the value placed |
| `MessageChannel.MessageChannel.SendReady` | include/luvcoro/message.hpp:687-708 | First attempt of an asynchronous send |
| `MessageChannel.MessageChannel.SendSuspend` | include/luvcoro/message.hpp:710-740 | Second attempt; parks the sender with its value exactly if the channel is open and a send may not pass |
| `MessageChannel.MessageChannel.Close` | include/luvcoro/message.hpp:314-356 | Every waiting receiver and parked sender ends once with closed, the buffer stays, and the handle's close is scheduled once |
| `MessageChannel.MessageChannel.TimerReport` | include/luvcoro/message.hpp:551-592 | A timer that fires or fails ends its receiver if it still waits, and otherwise changes nothing |
| `MessageChannel.MessageChannel.TakeReady` | include/luvcoro/message.hpp:471-477 | The locked region of a flush takes both ready queues and leaves them empty |
| `ChannelFlush.FlushReadyWaiters` | include/luvcoro/message.hpp:470-490 | A flush with the code of the waiters it resumes run in between, further flushes included, is: everyone resumed when the queues were taken, and then the regions of that code, block by block; only the order in which resumptions are logged differs |
| `ChannelFlush.RunAhead` | include/luvcoro/message.hpp:470-490 | What was resumed when decides nothing: runs that differ only there go on alike |
| `ChannelFlush.Perform` | include/luvcoro/message.hpp:284-853 | Code that calls the channel's methods in any order runs exactly the regions of its actions, one after the other, as a legal run |
| `ChannelFlush.RegionsAhead` | include/luvcoro/message.hpp:470-490 | Which regions code runs does not depend on what was resumed when |
| `ChannelFlush.RanGuarantees` | include/luvcoro/message.hpp:470-490 | The invariants, the finality of outcomes and the resume counts of runs hold of such code |
| `ChannelSpec.CloseOneReceiver` | include/luvcoro/message.hpp:326-329 | Ending one waiting receiver first does not change the outcome of the close |
| `ChannelSpec.CloseOneSender` | include/luvcoro/message.hpp:331-333 | Ending one parked sender first does not change the outcome of the close, order of refused values included |
| `ChannelRuns.PumpOnce` | include/luvcoro/message.hpp:1019-1063 | In reachable states a pump after a take moves at most one parked value into the buffer; its first loop is dead |
| `ChannelRuns.ApplyKeeps` | include/luvcoro/message.hpp:936-1095 | Every region keeps the shape, conservation and distinctness invariants |
| `ChannelRuns.RunsKeepInv` | include/luvcoro/message.hpp:936-1095 | A waiting receiver implies nothing buffered, nobody parked and not closed; a parked sender implies an exactly full buffer; the buffer never exceeds the capacity: after every run |
| `ChannelRuns.FifoConservation` | include/luvcoro/message.hpp:952-1095 | Delivered, buffered, parked and refused values, in this order, are the accepted values in order of acceptance, after every run |
| `ChannelRuns.StepRefinesQueue` | include/luvcoro/message.hpp:952-1095 | Every region is one step of a single FIFO line of values |
| `ChannelRuns.RunRefinesQueue` | include/luvcoro/message.hpp:952-1095 | Over every run the channel gives each receiver the same outcome as the single FIFO line |
| `ChannelRuns.RunLater` | include/luvcoro/message.hpp:551-592 | A receiver or sender ends in one way for good, deliveries are never withdrawn, and a waiter in line stays until it ends |
| `ChannelTimers.TimersOverRuns` | include/luvcoro/message.hpp:788-815 | Over every run: a waiting receiver can be timed out exactly if it asked for a time limit, its timer then ends it as timed out or failed, and nobody ends either way who did not ask for a limit |
| `ChannelTimers.TimedReceiveExample` | include/luvcoro/message.hpp:551-569 | A timed receive whose timer fires ends timed out |
| `ChannelWaiters.ResumedOnceUnlessRaced` | include/luvcoro/message.hpp:1200-1221 | Over every run a receiver is resumed not at all before it ends, once when it ends, and twice exactly if its second attempt succeeded after the first had failed |
| `ChannelWaiters.DoubleResumeExample` | include/luvcoro/message.hpp:1213-1221 | The run in which the race resumes a receiver twice |
| `ChannelWaiters.SenderResumedOnce` | include/luvcoro/message.hpp:687-740 | An asynchronous sender is resumed exactly once, when it ends |
| `ChannelSends.StepIsHonest` | include/luvcoro/message.hpp:952-1095 | One region ends as accepted exactly the sender whose value it hands out or buffers, and at most one |
| `ChannelSends.PlacedInOrder` | include/luvcoro/message.hpp:952-1095 | Over every run of locked regions, equal values included: what was handed out or is buffered is, in order, what the sends whose region succeeded brought; an asynchronous sender is among them exactly if it ended as accepted, once and with its own value |
| `ChannelCalls.ThrewIff` | include/luvcoro/message.hpp:1114-1147 | A call throws the closing-handle error although its region took effect if and only if the region left a flush to ask for, the call is off the loop thread, and the close task closed the handle before the call finished; otherwise it reports what its region did |
| `ChannelCalls.CallersAreToldTheTruth` | include/luvcoro/message.hpp:611-756 | Over every run of calls: a `send` or `try_send` that reported success is delivered or buffered, once and in order; one whose region failed is neither; one that threw is |
| `ChannelCalls.ThrownSendIsDelivered` | include/luvcoro/message.hpp:643-645 | The value of a send that threw was handed to the receiver that waited for it |
| `ChannelCalls.FailingSendExample` | include/luvcoro/message.hpp:643-645 | A run in which a send reports failure and its value is received |
| `ChannelCalls.ValuesAreHeldUnlessThrown` | include/luvcoro/message.hpp:284-312 | Over every run of calls: each value handed out is with the receiver that waited for it, or with the one receive that took it, unless that receive threw; then nobody has it |
| `ChannelCalls.LostTakeExample` | include/luvcoro/message.hpp:294-310 | A run in which `try_recv` throws and the value it took is lost |
| `ChannelCalls.NobodyIsStranded` | include/luvcoro/message.hpp:1114-1147 | At every moment of every run, throwing calls included: whoever is queued for resumption has a flush coming, except a receiver that raced and goes on anyway |
| `ChannelCalls.CallsRun` | include/luvcoro/message.hpp:284-356 | Calls, signals and the close task run the channel through a legal run of regions |
| `ChannelCalls.Notifier.FinalizeAfterUnlock` | include/luvcoro/message.hpp:1134-1147 | A flush that is owed happens on the loop thread, is signalled off it, or throws exactly if the handle is closing |
| `ChannelCalls.Notifier.Close` | include/luvcoro/message.hpp:314-343 | The close task is posted by the first close only |
| `ChannelCalls.Notifier.CloseTaskFlush` | include/luvcoro/message.hpp:344-345 | The close task flushes before it closes the handle |
| `ChannelWaiters.Drain` | include/luvcoro/message.hpp:314-356 | After a close, any run hands out exactly the buffered messages, in order, one for each receive |
| `ChannelWaiters.DrainedReceive` | include/luvcoro/message.hpp:1065-1095 | After a close the k-th receive gets the k-th buffered message, and every later one sees closed |
| `ChannelWaiters.ReadyIsFlushed` | include/luvcoro/message.hpp:1134-1147 | A region that queues a waiter for resumption requests a flush; the one exception is a receiver queueing itself in the race |
| `ChannelWaiters.FlushIsNeeded` | include/luvcoro/message.hpp:1134-1147 | A send or receive requests a flush exactly if it queues somebody else for resumption |
| `ChannelWaiters.ResumedInOrder` | include/luvcoro/message.hpp:470-490 | Waiters are resumed in the order in which they ended, and those a close ends oldest first |
| `ChannelWaiters.NotifiesIffTaken` | include/luvcoro/message.hpp:1065-1078 | An awaited receive notifies blocked senders exactly if it took a value |
| `ChannelWaiters.OpeningIsAnnounced` | include/luvcoro/message.hpp:1065-1078 | Apart from `try_recv`, whatever makes a send possible notifies blocked senders |
| `ChannelWaiters.TakeOpensSilently` | include/luvcoro/message.hpp:294-297 | The exact states in which `try_recv` makes a send possible without notifying |
| `ChannelWaiters.SilentTakeExample` | include/luvcoro/message.hpp:294-297 | A reachable state of that kind |
| `PermitSpec.PermitsOverRuns` | include/luvcoro/sync.hpp:657-779 | No waiter while a permit is free, permits plus grants equal initial plus released, and grants followed by the queue are the uncancelled arrivals in order, after every run |
| `PermitSpec.PermitsInClosedForm` | include/luvcoro/sync.hpp:657-779 | After every run, of the uncancelled arrivals the first ones are granted, as many as permits were there initially or given back by the events of the run; the others wait; all permits left over are free |
| `PermitSpec.OneOutcome` | include/luvcoro/sync.hpp:657-677 | Nobody is granted twice, granted and still queued, or granted and cancelled |
| `PermitSpec.OutcomesAreFinal` | include/luvcoro/sync.hpp:657-779 | Grants and cancellations are final, and a queued request stays queued until one of them |
| `PermitSpec.MutualExclusion` | include/luvcoro/sync.hpp:400-526 | Over every run of lock, try_lock, unlock and cancel: locked exactly if there is a holder, and then exactly one, the request granted last |
| `PermitSpec.MutexOverRuns` | include/luvcoro/sync.hpp:400-526 | A new mutex, over every run: at most one holder, locked exactly if there is one, nobody waiting while it is free |
| `PermitSpec.UnlockHandsOver` | include/luvcoro/sync.hpp:504-526 | Unlock passes the lock to the oldest uncancelled waiter, and frees it exactly if there is none |
| `AsyncSync.GrantFront` | include/luvcoro/sync.hpp:517-522 | The front of a pruned deque is the oldest waiter, and granting it serves the FIFO queue |
| `AsyncSync.CancelInPlace` | include/luvcoro/sync.hpp:657-677 | Cancelling a waiter where it stands takes it, and it alone, out of the FIFO queue |
| `AsyncSync.AsyncSemaphore.AcquireReady` | include/luvcoro/sync.hpp:685-694 | First attempt: a permit is taken exactly if one is free |
| `AsyncSync.AsyncSemaphore.AcquireSuspend` | include/luvcoro/sync.hpp:696-713 | Second attempt up to the push: cancelled early, granted, or queued last |
| `AsyncSync.AsyncSemaphore.CheckSuspend` | include/luvcoro/sync.hpp:723-726 | The last check suspends exactly if the request has not ended since the push |
| `AsyncSync.AsyncSemaphore.TryAcquire` | include/luvcoro/sync.hpp:741-750 | Takes a permit exactly if one is free |
| `AsyncSync.AsyncSemaphore.Release` | include/luvcoro/sync.hpp:752-779 | The oldest min(count, waiting) waiters get a permit each, the rest is added; a count that is not positive is an error without effect |
| `AsyncSync.AsyncSemaphore.CancelWaiter` | include/luvcoro/sync.hpp:657-677 | A waiter is cancelled and resumed exactly if it is still queued |
| `AsyncSync.AsyncMutex.LockReady` | include/luvcoro/sync.hpp:429-439 | First attempt: the lock is taken exactly if it is free |
| `AsyncSync.AsyncMutex.LockSuspend` | include/luvcoro/sync.hpp:441-460 | Second attempt up to the push: cancelled early, locked, or queued last |
| `AsyncSync.AsyncMutex.CheckSuspend` | include/luvcoro/sync.hpp:470-473 | The last check suspends exactly if the request has not ended since the push |
| `AsyncSync.AsyncMutex.TryLock` | include/luvcoro/sync.hpp:493-502 | Takes the lock exactly if it is free; it never overtakes a waiter |
| `AsyncSync.AsyncMutex.Unlock` | include/luvcoro/sync.hpp:504-526 | Fails on an unlocked mutex; otherwise releases the one permit to the oldest waiter or to nobody |
| `AsyncSync.AsyncMutex.CancelWaiter` | include/luvcoro/sync.hpp:400-420 | A waiter is cancelled and resumed exactly if it is still queued |
| `LocalSemaphore.LocalSemaphore.ReleaseMany` | include/luvcoro/sync.hpp:885-905 | Whatever resumed coroutines do inline: permits, shares still to be distributed and grants add up to initial plus released, the oldest waiters are served first, and with no release left on the stack no permit is stranded |
| `LocalSemaphore.LocalSemaphore.RunScript` | include/luvcoro/sync.hpp:885-905 | A coroutine run inline, with every branch it may take on what the semaphore answers, and the coroutines it starts, does what a machine with an explicit stack does on top of any stack; it keeps the balance of every release on the stack, and the nesting terminates |
| `LocalSemaphore.LocalSemaphore.ServeOldest` | include/luvcoro/sync.hpp:891-901 | One turn of the loop of `release` is what a machine with an explicit stack does: the oldest waiter is granted and goes on where its acquire succeeded |
| `LocalSemaphore.LocalSemaphore.GrantOldest` | include/luvcoro/sync.hpp:891-900 | One turn of the loop moves one undistributed permit to the oldest waiter |
| `LocalSemaphore.LocalSemaphore.AcquireOrSuspend` | include/luvcoro/sync.hpp:818-872 | A permit, an early cancellation, or a place at the end of the queue |
| `LocalSemaphore.LocalSemaphore.CancelPosted` | include/luvcoro/sync.hpp:797-816 | The posted cancellation ends its waiter exactly if it is still queued; the coroutine goes on where its acquire was cancelled, and is never granted |
| `LocalSemaphore.OldestGranted` | include/luvcoro/sync.hpp:885-905 | Emptying the queue or making n grants in FIFO order serves the oldest n waiters of the call |
| `ConditionVariable.AsyncConditionVariable.Register` | include/luvcoro/sync.hpp:1050-1056 | The waiter is queued last, neither notified nor cancelled |
| `ConditionVariable.AsyncConditionVariable.BeginWait` | include/luvcoro/sync.hpp:1050-1066 | The waiter is queued last, and the mutex then passes to its oldest waiter or becomes free; on an unlocked mutex it throws, leaves the mutex alone, and the waiter stays queued |
| `ConditionVariable.AbandonedTakesNotify` | include/luvcoro/sync.hpp:1103-1120 | A waiter left behind by a `wait` that threw takes its turn like any other: with n waiters before it, notification n + 1 goes to it, ahead of every later waiter |
| `ConditionVariable.AsyncConditionVariable.AwaitReady` | include/luvcoro/sync.hpp:1072-1075 | Ready exactly if the waiter has been notified or cancelled |
| `ConditionVariable.AsyncConditionVariable.CheckSuspend` | include/luvcoro/sync.hpp:1077-1081 | The caller suspends exactly if its waiter has been neither notified nor cancelled |
| `SyncResumes.ResumedOnceUnlessRaced` | include/luvcoro/sync.hpp:459-486 | Over every run of a mutex, semaphore or condition variable: a waiter is not resumed before it ends, and once or twice after, twice exactly if it was ended before its `await_suspend` had decided and its continuation was stored when it was passed to `resume_waiter` |
| `SyncResumes.ResumedTwiceIffCaught` | include/luvcoro/sync.hpp:456-473 | For a mutex or semaphore, twice exactly if the waiter was ended between its push and its last check |
| `SyncResumes.DoubleResumeExample` | include/luvcoro/sync.hpp:459-473 | A hand-over of the mutex that resumes its waiter twice |
| `ConditionVariable.AsyncConditionVariable.NotifyOne` | include/luvcoro/sync.hpp:1103-1120 | The oldest uncancelled waiter is notified; without one nothing changes |
| `ConditionVariable.AsyncConditionVariable.NotifyAll` | include/luvcoro/sync.hpp:1122-1141 | Exactly the waiters active at the call are notified, in order |
| `ConditionVariable.AsyncConditionVariable.CancelWaiter` | include/luvcoro/sync.hpp:1025-1046 | A waiter is cancelled exactly if it is still queued |
| `ConditionVariable.WaitsOverRuns` | include/luvcoro/sync.hpp:1048-1101 | Over every interleaving of waits, notifications, cancellations and other users of the mutex: at most one holder, a waiter is queued before it gives the mutex up, is queued or has ended at every moment, and is never both notified and cancelled |
| `ConditionVariable.WaitReturnsHolding` | include/luvcoro/sync.hpp:1092-1101 | `wait` comes back or throws only as the sole holder of the mutex, either notified or cancelled and never both |
| `ConditionVariable.NoLostNotify` | include/luvcoro/sync.hpp:1053-1066 | Whoever holds the mutex after a wait gave it up finds the waiter queued, so the next notification reaches it |
| `ConditionVariable.LeaveGivesUpMutex` | include/luvcoro/sync.hpp:1066 | Inside `wait` the mutex goes to its oldest waiter, or becomes free |
| `ConditionVariable.StopEndsWait` | include/luvcoro/sync.hpp:1025-1046 | A stop ends a wait that has not been notified, and no notification is spent on it |
| `ConditionVariable.EndedWaitRelocks` | include/luvcoro/sync.hpp:1097 | A wait that has ended gets a free mutex, else it queues behind those that wait for it |
| `TaskScope.RunsKeepInv` | include/luvcoro/task_scope.hpp:68-168 | After every run: active children are those not yet counted out, the first recorded failure is kept and stop follows it, and each receive of `join` is paid for by one token or the close |
| `TaskScope.JoinOverRuns` | include/luvcoro/task_scope.hpp:80-125 | `join` ends with no child left, over every run, and throws the first failure, else cancelled if it saw the stop, else returns; it leaks the closed error exactly if children are active, which takes a spawn after the count had returned to zero |
| `TaskScope.JoinTellsWhatHappened` | include/luvcoro/task_scope.hpp:80-125 | The same read off the events alone: `join` throws what the first child failed with, else it throws cancelled exactly if it came to its loop head after its stop token was requested, else it returns; it leaks exactly if fewer children left than were spawned |
| `TaskScope.TokenWakesJoin` | include/luvcoro/task_scope.hpp:72-79 | The token of the stop callback, or of a child, wakes a suspended `join` |
| `TaskScope.ReceivesBounded` | include/luvcoro/task_scope.hpp:68-125 | `join` completes at most one receive more than children were spawned |
| `TaskScope.JoinNotStranded` | include/luvcoro/task_scope.hpp:141-168 | While `join` is suspended without an answer, some child has yet to count itself out or to close the channel, late spawns included |
| `TaskScope.LeakIff` | include/luvcoro/task_scope.hpp:80-124 | On a closed and drained scope, `join` by itself ends, and leaks the closed error if and only if a child is active |
| `TaskScope.LeakExample` | include/luvcoro/task_scope.hpp:80-168 | A run of one early child, one late one and `join` that ends with the leaked error |
| `ScopeState.ChannelStep` | include/luvcoro/task_scope.hpp:54 | One region of the completion channel is one step of the FIFO line the scope sees |
| `ScopeState.ReceiveLinks` | include/luvcoro/task_scope.hpp:112-114 | An attempt of `join` to receive moves channel object and scope in step, and finishes exactly if there is something to receive |
| `ScopeState.SignalLinks` | include/luvcoro/task_scope.hpp:167 | The asynchronous send of a leaving child is one token of the scope, and never has to wait |
| `ScopeState.ScopeState.RecordFailure` | include/luvcoro/task_scope.hpp:145-150 | Only the first exception is kept |
| `ScopeState.ScopeState.LeaveScope` | include/luvcoro/task_scope.hpp:155-160 | The child that brings the count to zero is told so |
| `ScopeState.ScopeState.CloseCompletions` | include/luvcoro/task_scope.hpp:162-165 | The last child closes the channel |
| `ScopeState.ScopeState.SignalCompletion` | include/luvcoro/task_scope.hpp:167 | Every other child sends one token, in its first attempt |
| `ScopeState.ScopeState.JoinLoopHead` | include/luvcoro/task_scope.hpp:83-86 | A requested stop is recorded and passed on to the children |
| `ScopeState.ScopeState.JoinCheckActive` | include/luvcoro/task_scope.hpp:88-108 | With nobody active `join` ends with what the scope has recorded |
| `ScopeState.ScopeState.JoinReceiveReady` | include/luvcoro/task_scope.hpp:111-112 | First attempt to receive a token |
| `ScopeState.ScopeState.JoinReceiveSuspend` | include/luvcoro/task_scope.hpp:111-112 | Second attempt to receive a token |
| `ScopeState.ScopeState.JoinHandleClosed` | include/luvcoro/task_scope.hpp:113-124 | After a receive that threw, `join` ends normally with nobody active and rethrows otherwise |
| `Delimiters.FindFrom` | include/luvcoro/io.hpp:302-327 | The first occurrence of a delimiter, or none anywhere |
| `Delimiters.FindAny` | include/luvcoro/io.hpp:302-327 | Of all occurrences of all delimiters the one that starts first, the longest of those, the first listed of those |
| `Delimiters.BestEndsFirst` | include/luvcoro/io.hpp:245-274 | If delimiters overlap only as suffixes, what is found in any part read so far is the delimiter that ends first in the whole stream |
| `Delimiters.EndsFirstUnique` | include/luvcoro/io.hpp:245-274 | There is only one such delimiter and position |
| `Delimiters.ChunkingIsInvisibleIff` | include/luvcoro/io.hpp:245-274 | Framing is independent of chunking if and only if delimiters overlap only as suffixes |
| `Delimiters.CrLfIsSafe` | include/luvcoro/io.hpp:245-274 | The two line endings satisfy the condition |
| `Delimiters.CutOfPrefix` | include/luvcoro/io.hpp:209-236 | For one delimiter the first occurrence read is the first of the whole stream |
| `Delimiters.LineRoundTrip` | include/luvcoro/io.hpp:871-886 | Of the stream alone: taking lines off undoes writing them, for any lines without a newline and a final carriage return, with either ending |
| `Delimiters.UnendedRoundTrip` | include/luvcoro/io.hpp:871-886 | The same with a last line that was not ended |
| `StreamBuffer.StreamBuffer.ReadSome` | include/luvcoro/io.hpp:166-180 | Returned bytes followed by what is left are the stream; it fails exactly if nothing was read ahead and its one call on the stream fails |
| `StreamBuffer.StreamBuffer.ReadExact` | include/luvcoro/io.hpp:182-207 | Returns exactly min(wanted, available) bytes from the front; a failing call loses exactly what the loop `Exact` had taken, for any answers of the stream and the stop checks |
| `StreamBuffer.ExactConserves` | include/luvcoro/io.hpp:182-207 | Taken, lost and remaining bytes of the loop make up the stream |
| `StreamBuffer.ExactLosesNothingIff` | include/luvcoro/io.hpp:187-203 | A failing read_exact loses nothing if and only if the stop is requested at the call, or nothing was read ahead and the first call on the stream fails |
| `StreamBuffer.ExactLosesExample` | include/luvcoro/io.hpp:187-203 | A call that takes a byte read ahead, fails, and loses it |
| `StreamBuffer.StreamBuffer.ReadUntil` | include/luvcoro/io.hpp:209-236 | Cuts after the first delimiter of the whole stream for every chunking; fails exactly on an empty delimiter or if a stop check or stream call it made failed, and then loses nothing |
| `StreamBuffer.StreamBuffer.ReadUntilAny` | include/luvcoro/io.hpp:245-274 | Cuts at the delimiter found in the part read, which is the one ending first in the whole stream if delimiters overlap only as suffixes; nothing is lost |
| `StreamBuffer.StreamBuffer.ReadLine` | include/luvcoro/io.hpp:871-886 | One call takes one line off the whole stream, for every chunking; it fails only if a stop or the stream interferes |
| `StreamBuffer.StreamBuffer.ReadSomeLines` | include/luvcoro/io.hpp:871-886 | Repeated calls take the lines of the whole stream one by one, up to the first that fails |
| `StreamBuffer.StreamBuffer.ReadBack` | include/luvcoro/io.hpp:871-886 | Reading as many lines as were written returns exactly those lines, for every chunking, and leaves exactly what followed; interrupted, it has returned the first of them |
| `StreamBuffer.StreamBuffer.RunReads` | include/luvcoro/io.hpp:166-274 | Over any sequence of read_some, read_exact, read_until and read_until_any calls on one buffer, failing ones included: what they returned, with what failing read_exact calls lost, followed by what is left is the stream; undisturbed, exactly the calls with invalid arguments fail |
| `ReadSlot.StreamReads.AwaitSuspend` | src/stream_ops.hpp:204-283 | A read posts its start task, or ends cancelled if its token is already requested |
| `ReadSlot.StreamReads.RunNext` | src/stream_ops.hpp:217-283 | The next queued start or cancel task, without effect on a read that has ended |
| `ReadSlot.StreamReads.CancelTask` | src/stream_ops.hpp:217-228 | A cancel ends its read, and frees the slot exactly if the read owns it |
| `ReadSlot.StreamReads.StartTask` | src/stream_ops.hpp:232-282 | A start takes a free slot, fails busy on a taken one, and leaves the slot free if libuv refuses |
| `ReadSlot.StreamReads.OnData` | src/stream_ops.hpp:252-276 | Data, end of stream or an error ends the owner of the slot and frees it |
| `ReadSlot.SlotOverRuns` | src/stream_ops.hpp:184-296 | After every run a read has one result or none; the slot names a read that has not ended; every other unfinished read has exactly one start task queued |
| `ReadSlot.ResultsAreFinal` | src/stream_ops.hpp:184-195 | A read completes once; its result never changes |
| `ReadSlot.ReadEndsFirst` | src/stream_ops.hpp:204-296 | Over every run a read ends with the first end that comes to it: its cancel task, a busy slot, a refusal by libuv, or what the callback reports while it owns the slot |
| `ReadSlot.CancelEnds` | src/stream_ops.hpp:217-228 | A cancel that runs while its read is pending ends it as cancelled, and frees the slot exactly if the read owned it |
| `ReadSlot.StopIsHeard` | src/stream_ops.hpp:214-228 | A stop requested for a read takes effect: with the queue drained the read has a result, cancelled unless another end came first |
| `ReadSlot.CancelFirstNeverReads` | src/stream_ops.hpp:214-236 | A read cancelled before its start task is posted never owns the slot and can only end cancelled |
| `ReadSlot.BytesReachTheOwner` | src/stream_ops.hpp:252-297 | Bytes delivered to a read are what it returns, whatever is cancelled afterwards |
| `ReadSlot.ContenderIsBusy` | src/stream_ops.hpp:232-241 | A contending read fails busy and the owner keeps the slot |
| `ReadSlot.DrainedLeavesOwnerOnly` | src/stream_ops.hpp:184-296 | With the queue drained no read is left waiting but the owner |
| `SleepTimer.TimerWait.StartTimer` | src/runtime.cpp:91-121 | Creates a timer only for a sleep that has not ended, and ends it failed if libuv refuses |
| `SleepTimer.TimerWait.Fire` | src/runtime.cpp:123-133 | The first end wins: the handle is closed and one resumption posted |
| `SleepTimer.TimerWait.CancelSleep` | src/runtime.cpp:135-145 | The same for a cancellation |
| `SleepTimer.TimerWait.AwaitSuspend` | src/runtime.cpp:425-446 | Posts the start task, or ends cancelled at once if the token is already requested |
| `SleepTimer.TimerWait.AwaitResume` | src/runtime.cpp:448-455 | Reports how the sleep ended, and cancelled whenever the token is requested by then |
| `SleepTimer.RunsKeepInv` | src/runtime.cpp:76-190 | After every run: one start, one end, one resumption for it, a handle closed exactly when the sleep has ended; an end is final |
| `SleepTimer.SleepIsOneShot` | src/runtime.cpp:76-190 | At most one timer, closed exactly once and only after the end; at most one resumption and none before the end |
| `SleepTimer.NothingLeftHanging` | src/runtime.cpp:256-288 | With the queue drained and no timer running, the sleep has ended and was resumed exactly once |
| `SleepTimer.SleepEndsFirst` | src/runtime.cpp:91-157 | Over every run a sleep ends with the first end that comes to it: fired if its timer fires first, failed with the code of libuv if the start task is refused first, cancelled otherwise |
| `SleepTimer.StopIsHeard` | src/runtime.cpp:433-438 | A stop requested during a sleep takes effect: with the queue drained the sleep has ended and the sleeper was resumed |
| `SleepTimer.CancelFirstNeverStarts` | src/runtime.cpp:433-443 | A sleep cancelled before its start task is posted creates no timer and can only end cancelled |
| `SleepTimer.CancelBeforeStart` | src/runtime.cpp:91-145 | A cancel that runs before the start means no timer is ever created and the sleep ends cancelled |
| `FixedRate.ClosedForm` | include/luvcoro/runtime.hpp:584-587 | The slot the catch-up loop stops at is the least future one if and only if it is the one computed by division |
| `FixedRate.CatchUp` | include/luvcoro/runtime.hpp:584-587 | The loop terminates at the least slot of the grid that lies in the future |
| `FixedRate.RunFixedRate` | include/luvcoro/runtime.hpp:574-605 | Every awaited deadline is start plus k intervals with k strictly increasing, and is the least future slot not yet used; the task stops at the first turn that is stopped or cancelled, and its body runs exactly in the turns that were not stopped before it |
| `FixedRate.DeadlineByDivision` | include/luvcoro/runtime.hpp:584-590 | The deadline each turn sleeps for, in closed form: the first future slot by division, or the slot after the last one used if that is later |
| `FixedRate.DeadlinesIncrease` | include/luvcoro/runtime.hpp:574-605 | No slot fires twice: the awaited deadlines strictly increase |

## Left out

- libuv itself, coroutine frames, `shared_ptr` lifetimes and memory orders: a waiter is an id, a resumption an event, and callbacks come at any time.
- Runtime shutdown, a failing `post` (`include/luvcoro/message.hpp:812-828`) or `uv_async_send`, and exceptions thrown by resumed code.
- The timer handles behind a timed receive (their cancellation list and their close); only what a timer reports is modelled.
- The "not initialized" branches of the sends: the constructor leaves no channel in that state.
- `size`, `empty` and the channel's generators and iterators, which only repeat a modelled receive.
- LocalSemaphore.LocalSemaphore.RunScript: a coroutine that acts on the semaphore without end and never suspends is not covered, because the `release` that resumed it does not return either; up to any point such a coroutine has acted like a finite script.
- LocalSemaphore.LocalSemaphore.AcquireOrSuspend: the second attempt of `acquire` is not repeated, since on one thread nothing runs between the two.
- AsyncSync.AsyncSemaphore.constructor: a negative initial count, which the source rejects with an exception, is a precondition here; the same holds for the local semaphore and for the positive interval of a fixed-rate task.
- `local_async_mutex`, which resumes only as its last action, and `local_async_event` and `async_event`, which would only add easy members; `local_async_condition_variable`, whose `notify_all` may also reach waiters that queue again during an inline resumption.
- Several concurrent calls of `join` on one scope.
- A sleep that is ready at once because its delay is not positive.
- `select`, `with_timeout` and `run_controlled`, which rest on `when_any` of the coroutine library, not part of this model.
- Integer widths of `ptrdiff_t` and `size_t`, the truncation of delays to milliseconds, and the accuracy of clocks.
- The network, pipe, terminal, process, signal and file wrappers, the spawn overloads, and the writing side of streams.
