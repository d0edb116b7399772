# A verified model of the xhb asynchronous library

The library is a Seastar-style collection of futures, queues, locks and resource helpers in C++14. This project models
the parts of it whose correctness is hardest to see from the code, in Dafny 4.11, and proves what those parts promise.
`dafny verify dfyconfig.toml` checks everything.

| file | what it is about |
|---|---|
| `Bits.dfy`, `Wrappers.dfy` | machine words as naturals; `Option` |
| `ObjectPool.dfy` | the lock-free object pool as a machine of interleaved steps, with 32-bit counters |
| `TimeLiner.dfy` | the timer index, a radix heap keyed by leading zeros |
| `Rueue.dfy` | the ring deque with 64-bit wrapping indices |
| `FutureLinks.dfy`, `Future.dfy` | promises and futures pointing at each other: the protocol on values, and the objects |
| `Then.dfy` | `then`, on ready and on waiting futures, against the meaning of the code it chains |
| `CleanerGraph.dfy`, `Cleaner.dfy` | reference-counted cleaner chains: the graph, and the objects |
| `SharedMutex.dfy`, `ExpiringFifo.dfy`, `Semaphore.dfy`, `RwLock.dfy` | the locks and the queue of waiters |
| `Fueue.dfy`, `Pipe.dfy` | the bounded queue and the pipe on it |
| `FutureUtil.dfy` | parallel_for_each, when_all, both map_reduce forms, do_until |
| `Resource.dfy` | the distribution of memory over NUMA nodes |

How the models are built:

- What the source keeps in an object is kept in a class with the same fields, and its methods do what the source's do.
  Where a protocol spans several objects or several calls, the new state is given by a function on values, each method is
  proved to compute that function, and the invariants and whole-run theorems are proved about the functions.
- Ghost fields and the bookkeeping parts of a state (tickets, channels, arrivals, ledgers, logs) are never read by the
  modelled code.
- Single-threaded components run one call at a time. What a continuation does later is a call or step of its own, which
  comes at any time. The pool interleaves single loads, stores and compare-and-swaps of any number of threads.
- Exceptions and failed assertions are results (`Option`, a flag, an error value), or preconditions where the source
  asserts. Integer widths are modelled where they matter: 32-bit counters in the pool, 64-bit indices in the deque,
  W-bit timestamps in the timer index.

Places where the code does not do what it is meant to, each with the exact condition under which it does:

- `get_raw` of the pool loads `_prod_tail` before `_cons_head` (`src/utility/object_pool.h:129-130`). A thread held up
  between the two can reserve a slot that nobody filled; `ObjectPool.TailFirstIsUnsafe` gives such a run. The code is safe
  exactly if at most one thread ever calls `get_raw`, or the ring has a single slot, which is never used:
  `ObjectPool.TailFirstSafeIff`. Loading the head first, as `put_raw` does, is safe for any number of threads:
  `ObjectPool.HeadFirstSafe`.
- `rueue::erase(where)` returns an iterator to the wrong element when it shifts the front (`src/rueue.h:472-481`):
  `Rueue.Rueue.EraseAt`.
- A timeout of the front waiter of a semaphore leaves a new front that could be served waiting until the next signal
  (`src/expiring_fifo.h:69-76`): `Semaphore.StaysBlocked`, `Semaphore.TimeOutUnblocks`, `Semaphore.SignalBlocks`.
- A pipe of size 0 has no room for the mark of the end, so closing the write side leaves a reader waiting
  (`src/pipe.h:111-121`): `Pipe.ForgetsIffNoRoom`.
- A reader of a pipe that is destroyed while a read of its own is outstanding leaves a continuation behind, and the close
  that deletes the buffer wakes it, to use the deleted buffer (`src/pipe.h:103-121`, `175-179`, `214-218`). That is so
  exactly if the read is still outstanding when the second end goes: `Pipe.LeftReading`, `Pipe.DanglesIff`,
  `Pipe.MayDangleIff`, `Pipe.PatientNeverDangles`.
- Initial-value `map_reduce` reduces in completion order, not in the list order its documentation gives
  (`src/future_util.h:604-630`): the two agree for every input exactly if the reduction is left-commutative,
  `FutureUtil.ListOrderIffCommutative`.
- `assert(!remain)` in the memory distribution holds exactly if the nodes have enough for all cpus
  (`src/resource_hwloc.cpp:228`): `Resource.Allocator.Distribute`.

Readings of the source: in `time_liner` the name `list` in `remove` and the destructor is the list at hand, `l`; in
`future_state`'s move constructor `other.state` is `other._state`; `then_wrapped` in `future_util.h` is `then_warpped` of
`future.h`; a task attached with `schedule` is known by a number for its function.

## Model

| member | source | states |
|---|---|---|
| Bits.MaskIsMod | src/rueue.h:214-216 | masking with a power of two less one is reduction modulo that power |
| Bits.LowerDiffIsSmaller | src/time_liner.h:48-51 | of two numbers above a base, the one that first differs from it at the lower bit is the smaller |
| Bits.SameDiffShrinks | src/time_liner.h:130-131 | raising the base within a number's own bucket moves the number to a strictly closer one |
| ObjectPool.DifferencesAreTrue | src/utility/object_pool.h:73-97 | the 32-bit differences the code computes equal the differences of the unbounded counters |
| ObjectPool.SpinIsExact | src/utility/object_pool.h:117-119 | the 32-bit comparison of the spin loops is true exactly for the thread with the oldest open ticket |
| ObjectPool.StepInvIff | src/utility/object_pool.h:91-162 | one step of any thread keeps the ordering, ownership and slot invariant if and only if it is no reservation on an empty or full ring |
| ObjectPool.RunSafeIff | src/utility/object_pool.h:91-162 | the invariant holds in every state of a run if and only if no step of it is such a reservation |
| ObjectPool.NoOverrun | src/utility/object_pool.h:95-112 | a timely put_raw never reserves on a full ring, since a head loaded before the tail makes its check safe |
| ObjectPool.HollowNeedsOvertakenTail | src/utility/object_pool.h:129-147 | a get_raw on an empty ring needs the tail loaded first and overtaken before the head was loaded |
| ObjectPool.TailFirstSafeIff | src/utility/object_pool.h:123-162 | every timely run (see Left out) of the code as written is safe if and only if at most one thread calls get_raw or the ring is of one slot |
| ObjectPool.TimelyRunSafeIff | src/utility/object_pool.h:123-162 | run by run: a timely run of the code as written is safe if and only if no get_raw of it reserves on an empty ring |
| ObjectPool.HeadFirstRunSafe | src/utility/object_pool.h:91-162 | with the head loaded first in get_raw every timely run of any number of threads keeps the invariant and every object in its place |
| ObjectPool.HeadFirstSafe | src/utility/object_pool.h:91-162 | from the start, then, with any number of threads |
| ObjectPool.TailFirstIsUnsafe | src/utility/object_pool.h:129-150 | for any two threads that call get_raw, and any ring of more than one slot, a run of the code as written ends with a client holding a null pointer from a slot nobody filled |
| ObjectPool.OldestProducerCanAdvance | src/utility/object_pool.h:117-120 | while tickets are unpublished, the thread with the oldest of them is not held up by anybody |
| ObjectPool.OldestConsumerCanAdvance | src/utility/object_pool.h:152-155 | the same on the consuming side |
| ObjectPool.Delivery | src/utility/object_pool.h:114-115 | in any safe run from the start the consumer of a ticket returns the pointer that the ticket's producer put, however long ago |
| ObjectPool.StepKeepsLocated | src/utility/object_pool.h:91-162 | each step moves at most one object between client, thread, slot and destroyed, and keeps every object found where it is recorded |
| ObjectPool.ExactlyOnePlace | src/utility/object_pool.h:91-162 | each object ever made is in exactly one place |
| ObjectPool.Drain | src/utility/object_pool.h:58-68 | the destructor's wrapping loop frees the pointers of the published tickets, in order |
| ObjectPool.DrainIsComplete | src/utility/object_pool.h:58-68 | what the drain frees is each object that is neither with the client nor destroyed before |
| ObjectPool.Destructor | src/utility/object_pool.h:58-68 | called on a safe pool when no operation is under way, the destructor leaves each object with the client, destroyed before, or freed, just once |
| TimeLine.LaterListIsEarlier | src/time_liner.h:44-52 | timers in lists of larger index have strictly earlier timeouts |
| TimeLine.AdvanceIndex | src/time_liner.h:113-133 | what advancing to a new time does to each timer: lists above its own are due, those below keep their timers, its own is due or moves strictly up |
| TimeLine.HighestBit | src/time_liner.h:58-60 | the length of the bitset read as a number finds the last non-empty list |
| TimeLine.LastListHasEarliest | src/time_liner.h:137-141 | the minimum over the last non-empty list is the minimum of all pending timeouts |
| TimeLine.NothingDue | src/time_liner.h:89-91 | before the announced next expiry nothing is due |
| TimeLine.TimeLiner.Insert | src/time_liner.h:75-87 | one timer is added to the multiset; the answer is whether the deadline moved forward |
| TimeLine.TimeLiner.Remove | src/time_liner.h:93-101 | just that timer leaves the multiset, and the bit of its list is cleared if the list is empty |
| TimeLine.TimeLiner.Expire | src/time_liner.h:103-143 | the due timers, all of them and no others, are returned and the rest kept, each in its new list; the deadline is then exact; a past time is refused and changes nothing; before the announced deadline the result is empty |
| TimeLine.TimeLiner.Rebucket | src/time_liner.h:129-132 | one timer goes to a strictly higher list, at its end, and that is counted as one move |
| TimeLine.TimeLiner.Redistribute | src/time_liner.h:122-133 | the loop files the timers of now's own list that are not due, in order, one move for each of them |
| TimeLine.SettleKeeps | src/time_liner.h:129-132 | filing them again keeps every timer in the list of its timeout, and each move is paid for by the list left |
| TimeLine.StepKeeps | src/time_liner.h:75-143 | insert, remove and expire keep every timer in the list of its timeout, and the moves within what insertions paid |
| TimeLine.MovesBound | src/time_liner.h:122-133 | over any run from the start the re-insertions are at most W times the insertions |
| TimeLine.LifeBound | src/time_liner.h:130-131 | over any run no timer changes its list more often than there are lists above the one it is in |
| Rueue.MaskedIndex | src/rueue.h:214-216 | masking an index that has wrapped modulo 2^64 finds the slot of the true index |
| Rueue.WrappedGap | src/rueue.h:181-183 | the wrapped difference of two indices is their true distance |
| Rueue.IteratorOrder | src/rueue.h:399-417 | iterators compare like the positions they stand for, wherever the front has wrapped to |
| Rueue.CountCeilPower | src/rueue.h:223-234 | the result is the least power of two that is at least the argument |
| Rueue.SizePolicy | src/rueue.h:217-222 | the result is the least power of two that is at least 32 and the argument |
| Rueue.MovedDownIs | src/rueue.h:456-458 | move_backward of the front leaves the front part directly before the rest |
| Rueue.MovedUpIs | src/rueue.h:461-463 | move of the back leaves the back part directly behind the front |
| Rueue.InsertedFront | src/rueue.h:513-520 | filling before the front and rotating gives the sequence with the new elements at their place |
| Rueue.InsertedBack | src/rueue.h:522-529 | filling behind the back and rotating gives the same sequence |
| Rueue.Rueue.Realloc | src/rueue.h:254-279 | contents and order are kept, the capacity is the least admissible power of two, and the moves are counted; an oversized request changes nothing |
| Rueue.Rueue.Reserve | src/rueue.h:190-193 | room for the request afterwards, nothing changed if there was room before |
| Rueue.Rueue.PushBack | src/rueue.h:88-107 | the element is appended, or the queue is unchanged on an oversized growth; the ledger of pushes and moves goes on as in MovesBound |
| Rueue.Rueue.PushFront | src/rueue.h:121-140 | the element is prepended, or the queue is unchanged on an oversized growth; the ledger goes on likewise |
| Rueue.Rueue.PopBack | src/rueue.h:109-113 | the last element goes, if there is one |
| Rueue.Rueue.PopFront | src/rueue.h:142-146 | the first element goes, if there is one |
| Rueue.Rueue.At | src/rueue.h:195-211 | the element at the index, or the out-of-range exception |
| Rueue.MovesBound | src/rueue.h:235-279 | over any run of pushes and pops at either end the elements moved by growth are at most twice the pushes |
| Rueue.Rueue.Erase | src/rueue.h:450-466 | the range is cut out, whichever side is shifted, and the iterator returned is at the position of the cut |
| Rueue.Rueue.EraseAt | src/rueue.h:468-483 | the element is cut out; the iterator returned is at its position if and only if the back was shifted |
| Rueue.Rueue.InsertN | src/rueue.h:505-561 | the new elements are put before the position, whichever side makes way and whether or not storage is replaced, and the iterator returned is at the first of them |
| FutureLinks.StepKeeps | src/future.h:287-410 | every operation keeps promises and futures pointing at each other or not at all, and each value with just one holder; values set stay, values received are not received again |
| FutureLinks.LinksAgree | src/future.h:290-354 | in every reachable state a promise has a future exactly if that future has the promise, and a promise with a continuation has none |
| FutureLinks.ReceivedIsOutcome | src/future.h:538-545 | what a future hands out or a continuation is run with is the value that was set, and was not received before |
| FutureLinks.ReceivedOnce | src/future.h:401-410 | over any run no value is received twice, and each value received is the one its promise was set to |
| FutureLinks.QueueIsRun | src/reactor.cpp:50-54 | the engine gets to every queued continuation, in order, each with the value set on its channel |
| FutureLinks.SetIsSeen | src/future.h:328-376 | a value set is seen by the linked future at once, and by no other future |
| FutureLinks.MoveIsUnseen | src/future.h:290-309 | moving or destroying a promise changes nothing that any future sees |
| FutureLinks.FutureMoveIsSeen | src/future.h:568-576 | the future moved to sees what the one moved from saw, and no other sees a change |
| FutureLinks.ScheduleEitherWay | src/future.h:527-536 | a continuation comes to the queue with the value, whether it was attached before the value was set or after |
| FutureLinks.ForwardEitherWay | src/future.h:629-637 | the other promise's future sees the value, whether it was set before the forwarding or after |
| FutureLinks.ScheduleKeeps | src/future.h:527-536 | attaching a continuation keeps the links in order and the values set and received as they are |
| FutureLinks.ForwardAvailable | src/future.h:629-631 | forwarding an available state gives the other promise that value, for the receiver it had |
| FutureLinks.ForwardPending | src/future.h:632-636 | forwarding a state to come makes the promise waited for stand where the other promise stood, and changes no other promise or channel |
| FutureLinks.ChainReaches | src/future.h:629-637 | a value set on the promise at the start of a chain of forwards reaches the future or continuation at the end |
| Future.Engine.RunTask | src/reactor.cpp:50-54 | the engine runs the continuation at the front of its queue |
| Future.Promise.GetFuture | src/future.h:315-318 | a new future is linked, seeing what the promise holds |
| Future.Promise.Set | src/future.h:328-339 | the objects change as SetState says: own state, or continuation to the engine's queue |
| Future.Promise.Abandon | src/future.h:347-355 | the objects change as the destruction of a promise says |
| Future.Promise.Move | src/future.h:290-298 | the objects change as the move of a promise says, with the link turned round |
| Future.Promise.Assign | src/future.h:303-309 | destruction followed by a move, and nothing for the promise itself |
| Future.Future.Move | src/future.h:568-576 | the objects change as the move of a future says |
| Future.Future.Detach | src/future.h:586-590 | destroying a future unlinks its promise |
| Future.Future.Schedule | src/future.h:527-536 | the objects change as Schedule says, on both branches |
| Future.Future.GetAvailableState | src/future.h:538-545 | the state is handed out and the link is cut |
| Future.Future.ForwardTo | src/future.h:629-637 | the objects change as Forward says, on both branches |
| Then.ThenIs | src/future.h:636-664 | then runs the continuation on a value and lets an exception pass |
| Then.Associative | src/future.h:640-664 | chained thens have the same outcomes however they are grouped |
| Then.ExecStands | src/future.h:640-664 | running code, with then on ready futures in place and on others by a continuation, gives a future that stands for what the code means |
| Then.ThenEitherWay | src/future.h:642-650 | then on an existing future gives a future that stands for the same whether the first was ready or not |
| Then.StepKeeps | src/future.h:651-663 | events coming in, continuations running and futures being forwarded keep every future standing for its computation, and keep outcomes |
| Then.AnySchedule | src/future.h:640-664 | for every order of events and continuations, a future that gets set gets the outcome its computation evaluates to, the same in all runs |
| Then.AnyGrouping | src/future.h:640-664 | two ways of grouping a chain come to the same outcome in any run |
| Then.AllSettled | src/future.h:651-663 | once all events have come in and the queue is empty, every future is set |
| CleanerGraph.SharersCounted | src/cleaner.h:159-171 | an impl counts the cleaners that point at it, and a tagged pointer has one |
| CleanerGraph.StepKeeps | src/cleaner.h:49-65 | making, moving, sharing and destroying keep counts, acyclic chains and one place per action |
| CleanerGraph.ReleaseDoes | src/cleaner.h:99-111 | destroying a cleaner does just the actions whose last owner goes, an impl's own before those of its next |
| CleanerGraph.MoveCarries | src/cleaner.h:49-64 | a cleaner moved to does what the one moved from would have done, which is left empty |
| CleanerGraph.SharedOuter | src/cleaner.h:63-65 | of two cleaners that share, destroying either does nothing |
| CleanerGraph.ShareThenDestroy | src/cleaner.h:159-165 | sharing an impl and destroying the copy leaves everything as it was |
| CleanerGraph.ReleaseSpares | src/cleaner.h:99-111 | the other cleaners the program holds are left as they are |
| CleanerGraph.LiveIsReachable | src/cleaner.h:91-96 | an impl lives only as long as the program can reach it |
| CleanerGraph.NothingLeaks | src/cleaner.h:99-120 | once the program holds only empty cleaners every action has been done and no impl is left |
| CleanerGraph.EveryActionOnce | src/cleaner.h:99-165 | in any program counts are exact, no action is done twice, and in the end every one is done |
| Cleaner.Handle.Share | src/cleaner.h:159-165 | the objects change as sharing says: a tagged pointer first becomes an impl |
| Cleaner.Handle.Destroy | src/cleaner.h:99-111 | the destructor, going down the chain, ends and does what the release of the graph says, and the cleaner is gone |
| Cleaner.Handle.Refs | src/cleaner.h:167-171 | the number of cleaners that share what this one holds |
| SharedMutex.StepKeeps | src/shared_mutex.h:68-116 | no writer beside readers, nobody waits for an idle lock, and locks are granted in order of arrival |
| SharedMutex.GrantBound | src/shared_mutex.h:77-116 | a request with p ahead and h holders is granted by the (p+h)-th unlock, whatever arrives meanwhile |
| SharedMutex.WokenKeeps | src/shared_mutex.h:99-116 | wake grants from the front only, keeping holders plus waiters constant |
| SharedMutex.Mutex.LockShared | src/shared_mutex.h:68-75 | granted at once exactly if there is no writer and nobody waits |
| SharedMutex.Mutex.Lock | src/shared_mutex.h:85-92 | granted at once exactly if nobody holds the lock, without a look at the queue |
| SharedMutex.Mutex.Wake | src/shared_mutex.h:99-116 | the loop grants what the recursive definition grants |
| ExpiringFifo.LiveExpired | src/expiring_fifo.h:69-76 | an expiry takes just its own element out of the queue that clients see |
| ExpiringFifo.Fifo.DropExpiredFront | src/expiring_fifo.h:90-94 | the front is never expired, and clients see no change |
| ExpiringFifo.Fifo.Expire | src/expiring_fifo.h:69-76 | the handler gets the element, which leaves the queue in place; size and front stay right |
| ExpiringFifo.Fifo.PopFront | src/expiring_fifo.h:168-172 | the first live element goes and the next live one comes to the front |
| Semaphore.StepKeeps | src/semaphore.h:156-240 | the count is what was supplied less what was granted, and grants and queue together are the arrivals in order but for those timed out |
| Semaphore.StaysBlocked | src/semaphore.h:156-240 | a front that must wait stays so, except exactly when the front times out before a request that could be served |
| Semaphore.TimeOutUnblocks | src/expiring_fifo.h:69-76 | whenever too large a request waits before a small enough one, the timeout of the first leaves the second unserved |
| Semaphore.SignalBlocks | src/semaphore.h:195-206 | after any signal the front of the queue cannot be served |
| Semaphore.AnyRun | src/semaphore.h:112-240 | the ledger and the order hold over any run, and the front must wait in runs without timeouts |
| Semaphore.BasicSemaphore.Wait | src/semaphore.h:156-168 | granted at once, failed or queued; the units are looked at before the exception |
| Semaphore.BasicSemaphore.Signal | src/semaphore.h:195-206 | units are added and given out from the front while they suffice; nothing once broken |
| Semaphore.BasicSemaphore.TimeOut | src/semaphore.h:106-110 | the waiter fails and leaves the queue, and nothing else is done |
| Semaphore.BasicSemaphore.Break | src/semaphore.h:281-289 | every waiter fails, in order, and no units are left |
| Semaphore.SemaphoreUnits.Drop | src/semaphore.h:308-312 | what the object holds is signalled, and nothing if a move or a release has emptied it; it holds nothing afterwards |
| RwLock.Exclusion | src/rwlock.h:82-106 | units in stock, readers and all units per writer add up to the maximum, so a writer is alone |
| RwLock.WaitersHaveReason | src/rwlock.h:82-106 | nobody waits for a lock nobody holds, and a reader is in front only behind a writer or a full house of readers |
| RwLock.AlwaysExclusive | src/rwlock.h:82-117 | over any run from the start a writer excludes readers and other writers |
| RwLock.RwLock.WriteUnlock | src/rwlock.h:104-106 | the lock changes as the signal of all units says |
| Fueue.TakenIs | src/fueue.h:195-206 | consume passes items up to and with the first that is answered with false |
| Fueue.Keeps | src/fueue.h:98-111 | under every operation a promise is engaged only while the queue is empty, or full |
| Fueue.Queue.Consume | src/fueue.h:195-206 | the loop takes just those items and notifies a writer if there is room; false comes back exactly if one was answered with false |
| Pipe.StepKeeps | src/pipe.h:84-122 | each read, write, continuation and close keeps the order of values, the bounds, and good reasons to wait |
| Pipe.InOrder | src/pipe.h:148-213 | over any run reads get a prefix of the writes, the end comes only after all of them, and the buffer stays in bounds |
| Pipe.NobodyForgotten | src/fueue.h:163-190 | who waits has something to wait for: an open empty pipe, or a full one that is still read |
| Pipe.ForgetsIffNoRoom | src/pipe.h:111-121 | a reader can be left waiting for a writer that has gone exactly in a pipe of size 0 |
| Pipe.DanglesIff | src/pipe.h:103-121 | the close that deletes the buffer leaves a continuation that will use it exactly if a read is outstanding at that moment |
| Pipe.LeftReading | src/pipe.h:103-121 | a read of an empty pipe, then the end of the reader and of the writer, is such a run |
| Pipe.MayDangleIff | src/pipe.h:175-179 | once the reader is gone, some run comes to use the deleted buffer exactly if a read of it is still outstanding |
| Pipe.PatientNeverDangles | src/pipe.h:175-179 | a reader that waits for its reads before it goes never leaves such a continuation |
| Pipe.PipeBuffer.CloseRead | src/pipe.h:103-110 | a full queue is aborted and the waiting write fails; the answer is whether the buffer goes, and then whether a continuation is left on it |
| Pipe.PipeBuffer.CloseWrite | src/pipe.h:111-121 | the mark of the end is queued exactly if the queue is empty, which wakes a reader; the answer is as for CloseRead |
| FutureUtil.FirstFailureIs | src/future_util.h:62-69 | the exception kept is the first to come in, and there is none only if nothing failed |
| FutureUtil.ParallelForEach.Complete | src/future_util.h:26-34 | the promise is set with the last completion, once, to the first failure |
| FutureUtil.ParallelForEach.Start | src/future_util.h:52-86 | the guard count keeps the promise unset while invocations are still being launched |
| FutureUtil.WhenAllResolves | src/future_util.h:444-464 | for every order in which the futures come and continuations run, when_all resolves only when all are there, with the outcome of each in its place, and it has resolved, or does with the continuation that is due, once they are |
| FutureUtil.WhenAllOnce | src/future_util.h:444-464 | it resolves at most once: in any run there is no result before the last step |
| FutureUtil.LastFailureIs | src/future_util.h:619-627 | the failure that comes out of the chain of links is the last one in list order, and there is none only if no link failed |
| FutureUtil.FailuresAt | src/future_util.h:616-627 | a link fails by its mapper, or by what reduce throws on the result of the completions before |
| FutureUtil.UpToFirstFailure | src/future_util.h:547-566 | what comes out is the first failure in list order, and the reducer has seen the values before it |
| FutureUtil.ReducesInListOrder | src/future_util.h:547-566 | for every completion order the reducer is applied in list order up to the first failure |
| FutureUtil.AnyOrder | src/future_util.h:606-630 | for a left-commutative reduction every completion order gives the fold in list order |
| FutureUtil.ListOrderIffCommutative | src/future_util.h:606-630 | that is so for every input if and only if the reduction is left-commutative |
| FutureUtil.MapReduce.Outcome | src/future_util.h:614-630 | nothing comes out before all mappers are done; then the last failure in list order, of a mapper or thrown by reduce, or else the reduction |
| FutureUtil.DoUntil | src/future_util.h:116-143 | the loop ends at the first round where the condition holds or the action fails, whether or not futures were ready |
| Resource.Passes | src/resource_hwloc.cpp:31-39 | a transfer keeps every node within its capacity and every byte counted once |
| Resource.Allocator.WalkRing | src/resource_hwloc.cpp:218-227 | the walk around the nodes ends, and leaves a cpu short only if every node is used up |
| Resource.Allocator.Distribute | src/resource_hwloc.cpp:195-230 | all cpus get exactly their share, and the assertion holds, if and only if the nodes have at least cpus times share in all |

## Left out

- Weak memory orders in the object pool: every load, store and compare-and-swap is sequentially consistent.
- A compare-and-swap of the pool that succeeds although its thread slept through 2^32 reservations since it loaded the
  head. A run without such a step is called timely; `ObjectPool.StepInvIff` and `ObjectPool.RunSafeIff` do not need that.
- The element constructors and destructors run by get_raw with arguments, `size` and `free_items` as calls of their own.
- Allocation failure, and constructors or moves that throw, everywhere.
- Signed timestamps in `time_liner`: the model has W-bit unsigned ones with W+1 lists. The bit of the last list is clear
  whenever the bitset is read as a number, so that `to_ulong` has no more than W bits to convert.
- `time_liner::clear` and `size`, and the destructor's cancelling of timers.
- Rueue.Rueue.InsertN: asks that size plus count does not overflow size_t, which the code does not check.
- Rueue.SizePolicy: asks for at most 2^63 elements, so one-byte element types with larger requests are not covered.
- Rueue.CountCeilPower: asks for at most 2^63, above which the code shifts by the width of the word.
- `rueue` construction, copy, assign, swap and clear, and the destruction of elements: `data` holds values.
- Rueue.MovesBound: is about runs of push and pop; reserve and insert do not keep the ledger it rests on.
- `future::wait` and `get` with thread switching, shared futures, `finally`, `handle_exception` and the specialisation for
  futures without a value; `handle_exception` has its branches reversed in the source.
- A promise destroyed before it was set leaves its future pending for ever; scheduling on such a future dereferences a
  null pointer in the source and is excluded by a precondition.
- Then.StepKeeps: a continuation makes the futures it hands back; one that hands back a future that existed before has no
  step.
- Then.ExecStands: code that runs for more than any given number of continuations in place has no step, so divergence is
  not modelled.
- In the machine of `Then` the promise objects are abstracted to who feeds a future; that promises and futures do pass
  values on in this way is what `FutureLinks` shows.
- Reference counts of cleaners are unbounded: fewer than 2^32 cleaners share an impl.
- The counter of the semaphore is unbounded: signals are taken not to exceed the range of intmax_t.
- The linked block list under `expiring_fifo` is an abstract queue, and a clock is the choice of when entries expire.
- `pipe_reader::unread`, more than one fiber at an end of a pipe, and a writer destroyed while its own write waits.
- FutureUtil.ListOrderIffCommutative: is about reductions that do not throw; what a throwing one does is in
  `FutureUtil.MapReduce.Outcome`.
- Futures of parallel_for_each and when_all are known by their outcomes only; `repeat`, `do_for_each`, `keep_doing`,
  `with_timeout` and `when_all_succeed`.
- The topology calls of hwloc: nodes are a list of capacities, cpus a list of their nodes; the distribution of I/O queues;
  `get_memory_depth`, whose loop runs while there is local memory although it is to find the level that has some.
- Stacks, signals, threads, mmap, the reactor's main loop and how many tasks it runs at a time, logging, printing and
  string helpers, and the template machinery.
