# The wake-up machinery of a single-threaded async runtime, in Dafny

The runtime polls futures on one thread. Everything in it that waits does so
through one primitive, `Event`: an ordered registry of listeners, each of which
can hold a value (it has been notified) or a waker (its owner is parked). Locks,
channels, streams and wait groups are poll loops over an event, and an executor
turns the wakers into polls, with wakers that may fire on any thread. This
project models that machinery from the primitive up to the scheduler and proves
that nobody who waits is forgotten, over every run.

## How it is built

* **Values and objects.** For each component one module holds a specification on
  values (what one call does, as a function of the state) with a system of many
  users of it, an invariant and the theorems over all runs. A second module holds
  the component as the program has it: a class whose fields are changed in
  place, with its loops. Every method of such a class is proved to produce the
  state that the specification states for it, so the theorems are about the loops.
* **`NatSets`, `Registry`, `RegistryRuns`** state the listener registry. `notify`
  is stated by *which* listeners it picks, the earliest unnotified ones (the
  unique such set), not by how a loop finds them. **`Event`** is the class whose
  loops are proved to pick them.
* **`Waiters`** holds what lock futures, sends and receives have in common: a
  future is idle or waits on a listener, which it drops as soon as it has consumed
  the notification. **`Streams`** does the same for event streams. **`WaiterRuns`**
  proves the notification order of any event used in this way.
* **`Mutex`, `RwLock`, `Mpsc`, `Emitter`, `WaitGroup`** with their `...Objects` and
  `...Runs` files are the clients of the event.
* **`Protocol`, `ProtocolRuns`, `ProtocolLimits`** model the executor as a step
  relation between one runner and any number of waker threads. **`Executor`** is
  the executor as a class; each of its methods takes steps of the protocol
  (`Take`), so an execution of the class is a run of the protocol, and it
  terminates. **`Futures`** holds the trees of actions that its tasks are.
* **`LockSystem`, `LockSystemRuns`** put event, mutex and protocol together.

## Conventions of the model

* A waker is a task together with a ticket that tells one stored clone from
  another, which is how "woken once" can be said. `Ledger`, `Log`, `history` and
  the sequences beside a channel or an emitter record what happened; the program
  keeps none of it, and no branch depends on it.
* A step of `Protocol` is at most one access to shared memory plus the
  thread-local work after it. Atomics are sequentially consistent, and a
  spin-lock section is one step. When the runner itself calls a waker, a thread of
  its own does it, which only adds interleavings.
* Nothing re-enters `process_tasks` or `block_on` from inside a poll.
* Counters are naturals. `usize::MAX` as an amount to notify is the case `All`.
* Where a run is a sequence of operations, `Can` says which ones the program's
  types and ownership allow. That this refuses nobody who is there, and so that no
  decrement underflows, is proved (`NothingIsRefused`, `ProtocolRuns.NobodyIsStuck`).
* In `LockSystem` a task makes one lock future at a time, and a task that returns
  pending while its lock future waits has polled that future in this poll, as
  `await` does.
* A spawned future in `Executor` is a finite tree: what each poll wakes, cancels
  and spawns, how it ends, and what its drop does.

## Where a plausible claim is false

Each is kept as the program has it, with the exact condition or a witness.

* Lock acquisition is not first come, first served. A poll passes a waiter exactly
  if the lock is free and the polled future is idle (`MutexRuns.PassesExactly`), so
  a newcomer passes any number of waiters (`MutexRuns.NewcomerPasses`). The order
  among waiters changes too, because one that finds the lock taken goes to the end
  of the line (`MutexRuns.ThirdPassesSecond`).
* A waiting reader can stay parked beside readers that hold the lock. Waiters are
  served for exactly zero readers (`RwLockRuns.WaitersServedExactly`).
* With capacity two or more a parked send can be left beside a free slot. Sends
  are served exactly for capacities up to one (`MpscRuns.SendersServedExactly`).
* Dropping a subscription can hand an old value on. Emitter histories survive the
  drop exactly if it was harmless (`Emitters.DropKeepsFaithfulExactly`);
  `EmitterRuns.OldValueYielded` is a run with its wrong output.
* After the executor is gone its inbox can still grow, exactly if a thread is past
  the check of `closed` (`ProtocolRuns.LatePush`); `ProtocolLimits.InboxGrowsAfterClose`
  is a run that gets there.
* "Nothing can wake it at that point", the comment at `src/executor.rs:279-282`
  says of a future that `block_on` gives up. A thread that has set QUEUED and not
  pushed yet can: an unfinished task is queued behind an empty inbox exactly in that
  case (`ProtocolLimits.EmptyInboxMeans`, and `ProtocolLimits.WakeBehindEmptyInbox`
  is a run). Without other threads the comment is true (`Executors.Executor.BlockOn`).

## Model

| member | source | states |
|---|---|---|
| NatSets.EarliestIsUnique | src/event.rs:92-106 | walking in id order and stopping after `k` can only mean one set: the `k` smallest ids, or all |
| Registries.AwardMarks | src/event.rs:92-108 | handing out up to `k` values marks exactly the earliest unnotified ids, none of which was marked before |
| Registries.GrantKeepsValid | src/event.rs:83-149 | both notify flavours keep the registry invariant: counter, waker storage, tickets, balance |
| Registries.DropKeepsValid | src/event.rs:243-270 | dropping a listener, with hand-off, keeps the registry invariant |
| Registries.PollKeepsValid | src/event.rs:275-296 | a poll keeps it, whether it consumes or parks |
| Registries.CloseKeepsValid | src/event.rs:165-175 | so does dropping the event |
| RegistryRuns.EveryRun | src/event.rs:83-296 | over every run the counter is the number of entries holding a value, grants = consumed + discarded + unread, an entry with a value has no waker, no waker is woken twice |
| RegistryRuns.CounterGuardsNeverFire | src/event.rs:255-288 | where a value is found the counter is positive, so the saturating decrement and the zero test never take effect |
| RegistryRuns.NotifyLeaves | src/event.rs:64-109 | `notify(n)` leaves max(notified before, min(n, listeners)) notified, the earliest first, overwrites no unread value, and wakes exactly the newly notified, in order |
| RegistryRuns.AdditionalLeaves | src/event.rs:111-149 | additional notify adds exactly min(n, unnotified), the earliest first, and overwrites no unread value |
| RegistryRuns.CloseWakesAll | src/event.rs:165-175 | dropping the event wakes every stored waker once, in ascending order, and leaves listeners and values alone |
| RegistryRuns.NotifyTwice | src/event.rs:83-109 | two notifies mark the set that one for the larger amount would have marked |
| RegistryRuns.AdditionalTwice | src/event.rs:124-149 | two additional notifies mark the set that one for the sum would have marked |
| RegistryRuns.UnreadKept | src/event.rs:97-101 | whatever else happens, an unread value stays until its own listener is polled or dropped |
| RegistryRuns.PendingPollIsKept | src/event.rs:292-296 | over every run after a pending poll its waker is still stored, or was woken for a value or the close |
| RegistryRuns.DiscardMeansNobodyWaits | src/event.rs:250-268 | only a listener's drop discards a notification, and only when no unnotified listener is left |
| Events.Event.constructor | src/event.rs:32-43 | a new event is the empty registry |
| Events.Event.WakeEntry | src/event.rs:101-104 | one entry gets the value and its stored waker, if any, is woken |
| Events.Event.Walk | src/event.rs:92-108 | the loop over the entries in id order gives the value to exactly the `count` earliest unnotified ones, waking them in order |
| Events.Event.NotifyInner | src/event.rs:83-109 | the loop does what `Notify` states, for a bounded amount and for all |
| Events.Event.NotifyAdditional | src/event.rs:124-149 | the same for additional notify |
| Events.Event.Listen | src/event.rs:194-207 | a new listener under a new id, without value or waker |
| Events.Event.PollListener | src/event.rs:275-296 | returns the value that was there and takes it; otherwise stores a fresh waker |
| Events.Event.DropListener | src/event.rs:243-270 | removes the entry; an unread value goes to the earliest unnotified listener and wakes it, or is discarded |
| Events.Event.Unregister | src/event.rs:247-257 | the part after the lookup: entry gone, counter lowered only for an unread value |
| Events.Event.HandOff | src/event.rs:258-268 | the search for the next unnotified entry finds the earliest one |
| Events.Event.Close | src/event.rs:165-175 | the event is closed, every stored waker woken once, in id order, values left alone |
| Events.Event.WakeAll | src/event.rs:169-173 | the loop over all entries takes every stored waker |
| Waiters.PollKeepsLinked | src/lock/mutex.rs:104-130 | a poll of one waiting future keeps: listeners belong one to one to waiting futures, each parked, the notified ones oldest |
| Waiters.DropKeepsLinked | src/event.rs:243-270 | so does dropping a waiting future, notified or not |
| Waiters.NotifyKeepsLinked | src/event.rs:83-109 | so does any notify |
| Waiters.NotifyStirs | src/event.rs:83-109 | after `notify(n)`, n > 0, somebody is notified if anybody waits |
| Waiters.DropKeepsStirred | src/event.rs:243-270 | if somebody was notified, dropping any listener still leaves somebody notified or nobody waiting |
| Waiters.PendingKeepsStirred | src/lock/mutex.rs:107-116 | a poll that stays pending although the thing is free uses up nobody's notification |
| Waiters.ReadyWhen | src/lock/mutex.rs:107-126 | a poll is ready if and only if the thing is free and the future is not parked unnotified |
| Waiters.PollCases | src/lock/mutex.rs:107-126 | consuming and then dropping a listener never hands its value on; the three outcomes of a poll |
| Waiters.NotifyAllReaches | src/emitter.rs:56-60 | notifying all reaches exactly the listeners without an unread value |
| Waiters.SomeoneWasWoken | src/event.rs:101-104 | a notified waiter exists whose latest parked waker has been woken |
| WaiterRuns.NotifiedAreOldest | src/event.rs:83-296 | over every run of registrations, polls, drops, both notifies and the close in which a listener is dropped when its value is taken, the notified ids are a downward-closed part of the registered ids, whether or not a listener was ever polled |
| WaiterRuns.PollWaiterIsTidy | src/lock/mutex.rs:104-130 | every poll of a lock future, send or receive is such a run |
| WaiterRuns.PollStreamIsTidy | src/event.rs:330-367 | so is every poll of a stream |
| WaiterRuns.KeptListenerBreaksOrder | src/event.rs:275-288 | a run in which a listener kept after its value was taken leaves a newer listener notified and an older one not |
| Mutexes.DoKeepsInv | src/lock/mutex.rs:18-193 | every poll, guard drop and future drop keeps: one guard iff locked; free with waiters means somebody notified |
| Mutexes.OneGuardAtMost | src/lock/mutex.rs:18-31 | over every run live guards of both kinds number 1 if `locked`, else 0 |
| Mutexes.FreeMutexWakesSomeone | src/lock/mutex.rs:23-31 | over every run a free mutex with a waiter has a notified waiter, woken since it parked, and polling it acquires the lock |
| Mutexes.PollAcquires | src/lock/mutex.rs:104-130 | a poll acquires if and only if the lock is free and the future is not parked unnotified |
| MutexRuns.DoKeepsBound | src/lock/mutex.rs:23-31 | every operation keeps: at most one notification is outstanding |
| MutexRuns.PassesExactly | src/lock/mutex.rs:104-130 | over every run, a poll acquires past somebody waiting before it iff the lock is free, the polled future is idle and somebody waits; a waiter that acquires registered before every other one |
| MutexRuns.NewcomerPasses | src/lock/mutex.rs:117-121 | for every n > 0, after a reachable state with n futures waiting in line, a future made then acquires on its first poll, past all of them |
| MutexRuns.ThirdPassesSecond | src/lock/mutex.rs:23-26 | for every n >= 3, from a reachable state with n futures waiting in line, a run without newcomers in which the third acquires while the second, which parked earlier, still waits |
| MutexRuns.PollComesTo | src/lock/mutex.rs:104-130 | a poll that acquires leaves somebody notified if anybody waits; any other ends parked with a waker of its task and changes nobody else |
| MutexRuns.UnlockServes | src/lock/mutex.rs:28-31 | a dropped guard leaves the mutex free and without guards, and somebody notified if anybody waits |
| MutexRuns.NothingIsRefused | src/lock/mutex.rs:36-68 | over every run every live future can be polled and dropped, every guard dropped, and new futures made |
| MutexObjects.AsyncMutex.constructor | src/lock/mutex.rs:36-43 | a new mutex is free and its event empty |
| MutexObjects.AsyncMutex.Lock | src/lock/mutex.rs:23-26 | locked, and one waiter notified even so |
| MutexObjects.AsyncMutex.Unlock | src/lock/mutex.rs:28-31 | free, and one waiter notified |
| MutexObjects.Guard.Drop | src/lock/mutex.rs:64-68 | dropping a guard frees its mutex and notifies one waiter |
| MutexObjects.LockFuture.Poll | src/lock/mutex.rs:104-130 | the poll loop terminates and its outcome, lock state, event and future state are those of the specification |
| MutexObjects.LockFuture.Drop | src/event.rs:243-270 | a dropped future takes its listener with it, handing an unread notification on |
| RwLocks.DoKeepsInv | src/lock/rwlock.rs:19-338 | every operation keeps: counters match guards, exclusion, and somebody notified when neither readers nor a writer hold the lock |
| RwLocks.ReadersOrWriter | src/lock/rwlock.rs:20-48 | over every run `readers` = live read guards, `locked` iff the one write guard lives, never both kinds |
| RwLocks.DropNeverPanics | src/lock/rwlock.rs:33-38 | over every run every live guard can be dropped: the assertion in `decrement_readers` cannot fire |
| RwLocks.FreeLockWakesSomeone | src/lock/rwlock.rs:155-218 | over every run, with no reader, no writer and a waiter, some waiter is notified and woken, and polling it acquires, whichever kind it is |
| RwLockRuns.AcquiresExactly | src/lock/rwlock.rs:155-218 | a poll acquires iff what it wants is free and it is not parked unnotified; it then holds that, and somebody is notified if anybody waits |
| RwLockRuns.GuardDropServes | src/lock/rwlock.rs:97-119 | a dropped guard is gone, its share given back, and somebody notified if anybody waits |
| RwLockRuns.AllReadersGetIn | src/lock/rwlock.rs:28-31 | with no writer and only readers waiting, polling whoever is notified, once for each waiter, lets all of them in |
| RwLockRuns.NothingIsRefused | src/lock/rwlock.rs:54-119 | over every run every live future can be polled and dropped, every guard dropped, and new futures made |
| RwLockRuns.ReaderLeftParked | src/lock/rwlock.rs:204-212 | for every n > 0 a reachable state with n readers holding the lock, a reader parked and nobody notified |
| RwLockRuns.WaitersServedExactly | src/lock/rwlock.rs:20-48 | with no writer and n readers, "somebody waits implies somebody is notified" holds in all reachable states iff n = 0 |
| RwLockObjects.RwLock.constructor | src/lock/rwlock.rs:54-62 | a new lock has no readers and no writer, and its event is empty |
| RwLockObjects.RwLock.IncrementReaders | src/lock/rwlock.rs:28-31 | one more reader, one waiter notified |
| RwLockObjects.RwLock.DecrementReaders | src/lock/rwlock.rs:33-38 | one reader less, one waiter notified |
| RwLockObjects.RwLock.Lock | src/lock/rwlock.rs:40-43 | write-locked, one waiter notified |
| RwLockObjects.RwLock.Unlock | src/lock/rwlock.rs:45-48 | no longer write-locked, one waiter notified |
| RwLockObjects.Guard.Drop | src/lock/rwlock.rs:97-119 | a guard gives back what it holds, a read share or the write lock |
| RwLockObjects.LockFuture.Poll | src/lock/rwlock.rs:155-218 | the poll loop of either kind terminates with the outcome of the specification |
| RwLockObjects.LockFuture.Drop | src/event.rs:243-270 | a dropped future takes its listener with it |
| Mpsc.DoKeepsInv | src/channel/mpsc.rs:43-310 | every operation keeps the channel invariant: both events linked, conservation, each send once, receiver served, sends released, and for capacity up to one senders served |
| Mpsc.DoKeepsConserved | src/channel/mpsc.rs:52-310 | every operation keeps received ++ queue = accepted, the queue bound and `senders` = live handles |
| Mpsc.DoKeepsSentOnce | src/channel/mpsc.rs:137-180 | every operation keeps: each send future's value is accepted once if it returned `Ok`, else never |
| Mpsc.DoServesReceiver | src/channel/mpsc.rs:67-98 | every operation keeps: a receiver parked unnotified has an empty queue and a live sender |
| Mpsc.DoServesSenders | src/channel/mpsc.rs:272-310 | for capacity up to one every operation keeps: with room in the queue some parked send is notified |
| Mpsc.ReleasedPoll | src/channel/mpsc.rs:151-153 | once all sends are released, the next poll of any of them ends its wait, and nobody is left unnotified |
| MpscRuns.NothingLostOrDuplicated | src/channel/mpsc.rs:52-310 | over every run, while the receiver lives: accepted = received ++ queue in order, length within `max_queue_size`, `senders` exact, each send once if `Ok`, else never |
| MpscRuns.ReceiverNotStranded | src/channel/mpsc.rs:272-310 | over every run and for every capacity an unnotified parked receiver means an empty queue and a live sender |
| MpscRuns.SendsFailWithoutReceiver | src/channel/mpsc.rs:242-252 | over every run, once the receiver is dropped, every unfinished send resolves to `Err` at its next poll |
| MpscRuns.ReceiverRepliesExactly | src/channel/mpsc.rs:272-310 | over every run and capacity the next poll of the receiver yields the oldest queued item if there is one, else the end iff no handle is left, else it parks |
| MpscRuns.SendRepliesExactly | src/channel/mpsc.rs:137-180 | over every run and capacity the next poll of an unfinished send fails iff the receiver is gone, and otherwise sends iff there is room and it is not parked unnotified |
| MpscRuns.HandlesAndSends | src/channel/mpsc.rs:43-110 | what each operation does to values, handles and queue; a send into a nonempty queue and a handle other than the last do not concern the receiver |
| MpscRuns.ReceiverDropReleases | src/channel/mpsc.rs:242-252 | dropping the receiver notifies every parked send and wakes the waker it left |
| MpscRuns.LastHandleReleases | src/channel/mpsc.rs:84-98 | dropping the last handle notifies a parked receiver and wakes the waker it left |
| MpscRuns.NothingIsRefused | src/channel/mpsc.rs:43-110 | over every run every live handle, unfinished send and the receiver can be used and dropped |
| MpscRuns.RoomWakesSomeSend | src/channel/mpsc.rs:272-310 | over every run at capacity one, room with a send waiting means some parked send is notified, woken since it parked, and its next poll sends |
| MpscRuns.Stranded | src/channel/mpsc.rs:286-296 | for every capacity of at least two: fill, park two, receive everything, poll the first; the second stays parked beside free slots with nobody notified |
| MpscRuns.SendersServedExactly | src/channel/mpsc.rs:286-296 | in all reachable states room in the queue means some parked send is notified, iff the capacity is at most one |
| MpscObjects.Shared.constructor | src/channel/mpsc.rs:18-36 | a new channel: empty queue, one sender, a receiver |
| MpscObjects.Shared.Push | src/channel/mpsc.rs:156-173 | appends and notifies the receiver exactly when the queue was empty |
| MpscObjects.Shared.TrySend | src/channel/mpsc.rs:52-72 | succeeds exactly with a live receiver and room; otherwise changes nothing |
| MpscObjects.Shared.CloneSender | src/channel/mpsc.rs:100-110 | one more sender while the receiver lives |
| MpscObjects.Shared.DropSender | src/channel/mpsc.rs:84-98 | one sender less while the receiver lives; the last one notifies all |
| MpscObjects.Send.Poll | src/channel/mpsc.rs:137-180 | the poll loop terminates with the outcome of the specification and gives the value away exactly on `Ok` |
| MpscObjects.Send.Drop | src/event.rs:243-270 | a dropped send takes its listener with it and leaves queue and counters alone |
| MpscObjects.Receiver.PollNext | src/channel/mpsc.rs:272-310 | the poll loop terminates with the outcome of the specification |
| MpscObjects.Receiver.Drop | src/channel/mpsc.rs:242-252 | all sends notified, then both events closed with the shared state, then the receiver's own listener dropped |
| Streams.PollStreamKeepsValid | src/event.rs:330-367 | a stream poll keeps the registry invariant |
| Streams.StreamRepliesExactly | src/event.rs:330-367 | a poll yields the value at hand, ends (and has given up its listener) iff the stream is done, cannot register anew, or the event is gone, and otherwise parks with a waker of its task |
| Streams.ClosedStreamEnds | src/event.rs:341-364 | a stream whose event is gone yields what it holds, if anything, and otherwise ends |
| StreamObjects.Stream.constructor | src/event.rs:151-162 | a new stream listens from now on |
| StreamObjects.Stream.PollNext | src/event.rs:330-367 | the poll loop terminates with the outcome of the specification |
| StreamObjects.Stream.Drop | src/event.rs:243-270 | a dropped stream takes its listener with it, handing an unread value on |
| Emitters.DoKeepsInv | src/emitter.rs:43-117 | every operation but a harmful drop keeps the streams apart and their histories true |
| Emitters.StreamsYieldFirsts | src/emitter.rs:83-117 | over every run without harmful drops each stream yields exactly the first value emitted after each of its registrations, an ordered subsequence without repeats; the next poll of a listening stream yields the first value emitted since it registered if there is one, else nothing |
| Emitters.DropKeepsFaithfulExactly | src/event.rs:258-262 | dropping a stream keeps all histories true iff it holds no unread value or every other listener holds one |
| Emitters.HandedOn | src/event.rs:250-268 | dropping a listener with an unread value while another has none gives that very value to the oldest of those, and changes nothing else |
| EmitterRuns.OldValueYielded | src/event.rs:258-262 | a run with its output: the second stream registers after the only emit, the first is dropped unread, and the second yields the value from before it registered |
| EmitterRuns.StreamRepliesExactly | src/emitter.rs:83-117 | over every run, harmful drops included, a stream's next poll yields the value it holds, else ends iff the emitter is gone or it had ended, else parks with a waker of its task |
| EmitterRuns.SubscriptionsComeAndGo | src/emitter.rs:43-60 | what each operation does to streams and history; an emit serves every listening stream without a value and wakes it; dropping the emitter closes the event and wakes every such stream |
| EmitterRuns.NothingIsRefused | src/emitter.rs:43-117 | over every run every stream can be polled and dropped, and an emitter that lives can be used |
| EmitterRuns.AtMostOneMore | src/emitter.rs:92-113 | in every run in which the emitter is dropped, harmful drops of streams included, after the emitter is dropped a stream yields at most one more value, and once it has ended it stays ended |
| EmitterObjects.Emitter.constructor | src/emitter.rs:35-41 | a new emitter has no streams and has emitted nothing |
| EmitterObjects.Emitter.Emit | src/emitter.rs:56-60 | emitting takes the step of the specification |
| EmitterObjects.Emitter.Subscribe | src/emitter.rs:43-53 | subscribing takes the step of the specification and returns a listening stream |
| EmitterObjects.Emitter.PollNext | src/emitter.rs:83-117 | polling a subscription takes the step of the specification and returns its reply |
| EmitterObjects.Emitter.Drop | src/event.rs:165-175 | dropping the emitter takes the step of the specification |
| WaitGroups.PollIsWaiter | src/waitgroup.rs:51-61 | the async loop over an event stream does what one waiter wanting "no ticket left" does |
| WaitGroups.DoKeepsInv | src/waitgroup.rs:34-80 | every add, ticket drop, poll and dropped wait keeps the invariant |
| WaitGroups.TicketsAreLive | src/waitgroup.rs:35-80 | over every run `tickets` = live tickets, and each live ticket can be dropped without an underflow |
| WaitGroups.ReadyExactlyWithoutTickets | src/waitgroup.rs:51-61 | over every run a poll of the wait future completes iff no ticket is alive |
| WaitGroups.TicketsAndWaits | src/waitgroup.rs:34-80 | what each operation comes to; a wait that finishes or is dropped leaves no listener, one that goes on has left a waker of its task |
| WaitGroups.WaitCompletes | src/waitgroup.rs:51-80 | a run in which a wait parks, the last ticket is dropped, and the next poll completes it |
| WaitGroups.NotForgotten | src/waitgroup.rs:51-80 | over every run a suspended wait is unnotified only while a ticket lives, and once notified its latest waker has been woken |
| WaitGroups.EveryDropNotifies | src/waitgroup.rs:75-80 | each ticket dropped while a wait is suspended leaves it notified |
| WaitGroupObjects.WaitGroup.constructor | src/waitgroup.rs:26-31 | a new group has no tickets |
| WaitGroupObjects.WaitGroup.Add | src/waitgroup.rs:35-41 | one more ticket, which belongs to the group |
| WaitGroupObjects.Ticket.Drop | src/waitgroup.rs:75-80 | one ticket less and one waiter notified, also when tickets are left |
| WaitGroupObjects.Wait.Poll | src/waitgroup.rs:51-61 | a poll of the async function has the outcome of the specification: ready at once without tickets, else it listens |
| WaitGroupObjects.Wait.AwaitEvents | src/waitgroup.rs:55-60 | the loop over the events terminates with the outcome of the specification |
| WaitGroupObjects.Wait.Drop | src/waitgroup.rs:51-61 | a dropped wait takes its stream with it |
| Protocol.StepKeepsInv | src/executor.rs:120-386 | every step of every thread keeps the executor invariant |
| Protocol.StepKeepsQueuedMeansEntry | src/executor.rs:120-132 | an unfinished task of an open executor with QUEUED set has an entry, or a thread about to push it |
| Protocol.StepKeepsOnePlace | src/executor.rs:231-269 | every step keeps each future in exactly one of slot, being polled, dropped |
| Protocol.StepKeepsAccounted | src/executor.rs:120-132 | every step keeps pushed = processed ++ batch ++ inbox and one event-loop wake, made or in flight, per push |
| Protocol.LineMoves | src/executor.rs:219-236 | only a push appends to the line of entries, only the runner removes from its front, and only the close drops its rest |
| ProtocolRuns.EveryRun | src/executor.rs:120-386 | over every interleaving: each task has at most one entry or pushing thread in all, either implies QUEUED, QUEUED on an unfinished task of an open executor implies one; each future in one place and dropped at most once, between tasks the slots are exactly the unfinished tasks, everything pushed accounted for, ids never reused |
| ProtocolRuns.NobodyIsStuck | src/executor.rs:120-386 | over every interleaving every thread inside `schedule` and the runner can take their next step, and wakes and handle drops can always start |
| ProtocolRuns.NoLostWake | src/executor.rs:120-132 | once a thread has done its `fetch_or`, then in every later state of an open executor the unfinished task was polled since, or is queued, in the batch, or about to be pushed |
| ProtocolRuns.QuietMeansAnswered | src/executor.rs:231-269 | when everything has settled, every such wake was followed by a poll, or the task has finished |
| ProtocolRuns.QueuedUntilPolled | src/executor.rs:236-246 | QUEUED stays set until the task's future is polled |
| ProtocolRuns.FinishedIsNeverPolled | src/executor.rs:231-246 | after Ready or cancel a task is never polled again |
| ProtocolRuns.ClosedNeverPolls | src/executor.rs:163-176 | after close nothing is ever polled again |
| ProtocolRuns.DroppedOnce | src/executor.rs:252-268 | a dropped future is never dropped again |
| ProtocolRuns.BoundedWait | src/executor.rs:219-229 | with calls of `process_tasks(c)`, c >= 1, the entry at index k leaves the inbox in call k / c + 1 and no other, and is processed in that turn, whatever is pushed meanwhile |
| ProtocolRuns.ServedInTime | src/executor.rs:219-269 | once k / c + 1 such calls are over, the task at index k has been polled since, or is finished |
| ProtocolRuns.OneCall | src/executor.rs:219-229 | one call processes exactly the first min(c, len) entries, in order |
| ProtocolRuns.LatePush | src/executor.rs:120-132 | after the executor is gone its inbox can change iff some thread is past the check of `closed` with QUEUED still to set or set by it |
| ProtocolLimits.EmptyInboxMeans | src/executor.rs:276-304 | between calls on an open executor with an empty inbox, an unfinished task is queued iff some thread is about to push it |
| ProtocolLimits.WakeBehindEmptyInbox | src/executor.rs:125-131 | a reachable state of that kind: the inbox is empty, the task is unfinished and queued, and a thread is about to push it |
| ProtocolLimits.InboxGrowsAfterClose | src/executor.rs:121-130 | a reachable state in which the executor is gone, its inbox empty, and the inbox can still grow |
| Futures.WithinPlaces | src/executor.rs:231-269 | what "performed in order" means in the rows below: each action has a place of its own in the record, further and further on |
| Executors.Executor.constructor | src/executor.rs:203-215 | a new executor is the protocol's initial state |
| Executors.Executor.Schedule | src/executor.rs:120-132 | a finished, closed or queued task changes nothing; any other is queued, appended once, and the event loop woken once |
| Executors.Executor.Enqueue | src/executor.rs:125-131 | the same after the checks |
| Executors.Executor.WakeTask | src/executor.rs:135-146 | waking takes the protocol's steps and touches no slot and no batch; for a finished task it changes nothing at all, any other is queued afterwards on an open executor, pushed once if it was not queued before |
| Executors.Executor.AddTask | src/executor.rs:316-331 | a new id, never used before, with the future in its slot |
| Executors.Executor.SpawnTask | src/executor.rs:312-339 | the task is added, queued, pushed once, and its handle returned |
| Executors.Executor.CancelTask | src/executor.rs:374-382 | the task is marked canceled and has no slot; what was in the slot is returned to be dropped, unless the task was finished before |
| Executors.Executor.DropHandle | src/executor.rs:368-386 | dropping a handle leaves the task finished and without a slot, and performs the drop code of the future that was there, unless the task was finished; it terminates although that code may cancel and spawn in turn |
| Executors.Executor.PerformOne | src/executor.rs:120-132 | after a wake the task is queued or finished; after a cancel its handle is gone and the task finished, with no slot; a spawn leaves a new queued task with its future in its slot, and a handle unless detached |
| Executors.Executor.Perform | src/executor.rs:251-268 | code of a task performs its actions in order, whatever they set off: everybody woken is queued or finished, everybody canceled finished, everything spawned there; runner, batch, finished and queued tasks are left alone |
| Executors.Executor.CheckTask | src/executor.rs:232-234 | finished tasks are skipped |
| Executors.Executor.TakeTask | src/executor.rs:236-246 | QUEUED is cleared, and the future is the one from the task's slot, which is left empty |
| Executors.Executor.Complete | src/executor.rs:251-253 | a ready task is marked completed and loses its slot; the value reaches the cell of `block_on` exactly for its own task |
| Executors.Executor.PutBack | src/executor.rs:261-267 | a pending future goes back iff its task still has a slot and is unfinished; otherwise it is returned to be dropped |
| Executors.Executor.RunTask | src/executor.rs:231-269 | processing an entry takes it from the batch; a finished task performs nothing, any other the poll of the future in its slot and then the drop of what is not put back; it uses up some future or leaves the inbox as it was |
| Executors.Executor.EndPoll | src/executor.rs:251-268 | after the poll, a ready future is dropped, and a pending one exactly if its task has finished |
| Executors.Executor.HasTasks | src/executor.rs:272-274 | yes means some task is queued; no, between calls on an open executor, that an unfinished task is queued iff some thread is about to push it |
| Executors.Executor.ProcessTasks | src/executor.rs:219-229 | exactly the first min(count, len) entries are processed, in order; the remaining behaviour shrinks or the inbox does |
| Executors.Executor.BlockOn | src/executor.rs:283-304 | with no thread but the executor's own: terminates; a future that wakes its task in every pending poll always yields its value; yields the future's value iff its task completed, and panics only when that task is unfinished with no wake outstanding and the inbox empty |
| Executors.PolledTwice | src/executor.rs:283-304 | `block_on` of a future that wakes its own task in a first, pending poll and is ready with 7 in the second yields 7 |
| Executors.Executor.Close | src/executor.rs:163-176 | afterwards every task is finished, no slot is left, the inbox is empty, nothing was polled, and the drop code of every future left was performed in the order of ids, without waking the event loop |
| LockSystem.NotifiedWasWoken | src/event.rs:101-104 | a parked listener that becomes notified has had the waker of its latest poll woken in that very operation |
| LockSystem.DoWakes | src/lock/mutex.rs:104-130 | each mutex operation wakes at most one parked waker |
| LockSystem.NewlyNotified | src/event.rs:258-266 | whoever a mutex operation or a hand-off notifies is being woken afterwards |
| LockSystem.ApplyKeepsInv | src/lock/mutex.rs:104-130 | every act of every thread keeps: a live task whose lock future is notified is being woken, queued, or running and about to poll it |
| LockSystemRuns.UnlockComesTo | src/lock/mutex.rs:64-68 | an unlock leaves the mutex free, somebody notified if anybody waits, and every live notified task about to be polled |
| LockSystemRuns.PollComesTo | src/lock/mutex.rs:104-130 | the running task acquires iff the mutex is free and it is not parked unnotified; else it parks with its own waker |
| LockSystemRuns.FuturesComeAndGo | src/lock/mutex.rs:36-60 | lock futures made and dropped; a drop leaves every live notified task about to be polled |
| LockSystemRuns.NothingIsRefused | src/lock/mutex.rs:36-68 | over every run the running task can make or poll its lock future, dropped tasks' futures can be dropped, guards dropped by anyone |
| LockSystemRuns.UnlockLeadsToAcquire | src/executor.rs:120-269 | from every settled state of an open executor with the mutex held and somebody waiting, an unlock can be followed through wake, queue and poll to the acquisition by a waiter |
| LockSystemRuns.LockIsHandedOver | src/executor.rs:120-269 | a reachable system in which the holder unlocks and the parked task is woken, polled and acquires |
| LockSystem.NobodyStranded | src/executor.rs:231-269 | over every run of tasks, cancellations, guard drops and waker threads: on a settled open executor with a free mutex no live task is parked in a lock future |

## Left out

- LockSystem.NobodyStranded: about tasks that poll the lock future they await in every poll that returns pending, as `await` does; a task that parks a lock future and stops polling it is not covered.
- Executors.Executor.BlockOn: futures are finite trees over task ids fixed in advance, a panic is the result `None`, the value is an integer, and no foreign thread acts inside the class; foreign threads are in `Protocol`, and `ProtocolLimits.EmptyInboxMeans` says what they change.
- Executors.Executor.Close: the drop code of a future left at close finds no executor to spawn on; one that keeps its executor alive, so that neither is ever dropped, is not modelled.
- ProtocolRuns.NoLostWake: says where the wake is until it is answered; that the runner keeps taking steps is the caller's doing. `BoundedWait` says in which call an entry is processed.
- RwLocks.FreeLockWakesSomeone: for a lock without readers and without a writer only, because it is false otherwise (`RwLockRuns.WaitersServedExactly`).
- Mpsc.DoServesSenders: for capacities up to one only, because it is false for every other (`MpscRuns.SendersServedExactly`).
- Mpsc.DoKeepsConserved: says nothing once the receiver is gone, when queue and counters have been dropped with it.
- Emitters.DoKeepsInv: for drops that hand no old value on, because the histories become false otherwise (`Emitters.DropKeepsFaithfulExactly`).
- Borrowed and reference-counted lock futures and guards run the same code and are one class each; `Mutexes.Kind` tells them apart where guards are counted.
- Send futures do not count as senders, as in the program: an item can still arrive after the stream has ended once. No claim is made against that.
- `upgrades` in `Streams.PollStream` is whether the stream's weak reference still leads to its event. For an emitter that is whether the emitter lives, for a wait group it always does, and otherwise the caller says it.
- Re-entrant `process_tasks` or `block_on` inside a poll; wrap-around of ids and counters.
- Weak memory orderings, liveness of the spin lock, real wakers and the event loop's own waker.
- Pinning, `UnsafeCell` access to the guarded values, and reference counts as memory.
- `src/channel/oneshot.rs` and `src/poll_lock.rs`: a four-state one-shot and a thin layer over the mutex would add only easy members.
- `src/atom.rs`, `src/upgrade.rs`, `src/cell.rs`, `src/ref_cell.rs`, `src/util.rs`, `src/spawner.rs`: wrappers and trait plumbing.
- `Listener`, `SubscribeOnce` and the `listen_with` family in `src/emitter.rs`: closures handed to spawners.
- Formatting, comparison and the benchmarks.
