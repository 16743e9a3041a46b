# Jacks event delivery: a verified model

Jacks hands JACK callbacks over to an application through an event queue.  This project
models that queue and what is built on it, and proves what it is for.  Four parts:

* **The lock-free queue and its freelist** (`corelib/lfds`).  The queue is a chain of nodes
  behind a dummy, changed by double-word compare-and-swap; its nodes are recycled for ever
  through a stack, the freelist.  Modules `Freelist`, `Queue` and `Machine` give the code as
  a machine that takes one access to shared memory per step; a schedule is any sequence of
  steps by any number of threads.  `QueueInvariant` and `MachineInvariant` hold the invariant
  of all schedules, and `Values`, `Lifo`, `Calls`, `Conservation`, `Progress` and `Solo` what
  follows from it.  `Answers` and `Matching` say what the answers of calls mean to the callers.  `QueueOrder`, `MachineOrder`, `Fifo`, `Guarantees` and `TornRead` are about
  the order of values.  `HeapFreelist` and `HeapQueue` are the same code run by one thread, as
  classes on real objects: construction, capacity, deletion.  `Start` connects the two: the
  objects that construction leaves are the machine's initial state.
* **The structure checker** (`Walks`, `Validate`): loop detection on an arbitrary heap and
  the two range checks.
* **Event delivery and the session handshake** (`Latch`, `Client`, `Delivery`, `Handshake`).
* **The wrapper runtime** (`CastLists`, `ClientData`, `Packing`): the move-to-front cast
  list, the client-data flood, hexadecimal pointers.

## How the queue is modelled, and what is true of it

Every word of `enqueue`, `dequeue`, `top` and of every `next` pair is read in a step of its
own, in program order.  A compare-and-swap is one step; in the freelist a failed one reloads the
compared pair, and the pair that a pop installs is read before the swap, again one word per
step.  Memory is sequentially consistent.  Counters
are unbounded.  The queue adds 1 to counters of pointer type, so they move by a fixed stride
(`Words.STRIDE`).  A queue element and the freelist element it is paired with share one
number.  `queue_new` leaves the counters of `enqueue` and `dequeue` unset, so their first
values are arbitrary; it uses `aba_counter` before clearing it, and the model takes it as 0
there, which gives the first dummy the link counter 2.  Which values fresh memory holds, and
whether an allocation succeeds, is part of the schedule.

**First-in first-out does not hold in every schedule.**  `queue_internal_queue` reads the two words of
the `next` pair separately (`corelib/lfds/queue_queue.c:71-72`).  If another enqueuer links a
node in between, the thread holds NULL with the counter of a later instant.
`queue_internal_init_element` nulls the pointer of a recycled node before it draws the new
counter (`corelib/lfds/queue_new.c:132-133`), so exactly that pair can appear once more, in a
node that is not in the queue.  The link swap then succeeds there (a "stray link"): the
enqueue returns 1, but its value is behind a node that is still to be enqueued, and comes out
after it.  `TornRead.FifoCanFail` builds such a schedule from every new queue of at least two
elements with at least two threads.  `Fifo.FifoExactly` gives the exact condition: the queue is
first-in first-out throughout a schedule if and only if no link swap in it hits a node that
another thread holds and has not linked yet.  `Guarantees.StrayNeedsTornPair` shows that this
needs a torn pair, so with the pair read in one step the queue is first-in first-out in all
schedules (`Guarantees.TearFreeIsFifo`).

"First-in first-out" is said of memory, not of bookkeeping: the values returned by dequeues,
followed by those found by walking the `next` pointers from `dequeue`, are the values of the
successful link swaps in order (`Fifo.IsFifo`).

**Everything else holds in every schedule, stray links included.**  No value is lost and none
comes out twice: what came out, what the chain holds and what waits behind an unfinished
enqueue are together the values of all link swaps (`Values.NothingLostNothingTwice`).  A call
that answers 1 has taken effect with one swap of its own, a call that answers 0 with none
(`Answers`), and every dequeue that answers a value answers for an enqueue call of its own
(`Matching.NoValueTwice`).  The freelist is a stack, no element is in two places, no thread touches an address that is not an
element's, the loops are lock-free, and a thread that runs alone finishes its call.

In `Client` the event queue is an atomic sequence, except that an enqueue may fail at any time
(elements may be in the hands of other threads).  That is what the machine's results justify
for schedules without a stray link; with one, an event can be delivered late and out of order.
The semaphore and the condition variable follow chapter 3 of the System Interfaces volume of
POSIX.1-2008: `sem_wait` may be interrupted, a condition wait may return without a signal, a
signal wakes at least one waiter if there is one.

## Model

| member | source | states |
|---|---|---|
| Freelist.StepKeepsValid | corelib/lfds/freelist_pop_push.c:8-87 | every step of a pop or push by a thread whose locals are sound keeps the freelist well formed: links, places and counters agree with the stack |
| Freelist.KnowledgeSurvives | corelib/lfds/freelist_pop_push.c:16-84 | what one call knows stays true under any step of any other thread, reuse of elements included |
| Freelist.SwapPop | corelib/lfds/freelist_pop_push.c:23-35 | a successful pop swap installs exactly the pair directly below the popped element |
| Lifo.ValidIsStack | corelib/lfds/freelist_pop_push.c:8-87 | the history's stack is the one found in memory by following the links from top |
| Lifo.StackUnique | corelib/lfds/freelist_pop_push.c:8-87 | memory determines that stack |
| Lifo.StepRefinesLifo | corelib/lfds/freelist_pop_push.c:16-84 | each step of a call is a pop, a push, an empty pop or nothing on an atomic stack |
| Lifo.StepAnswers | corelib/lfds/freelist_pop_push.c:16-84 | a step ends a pop exactly if it takes the element that the pop returns, or finds the stack empty, and then it returns NULL; a step ends a push exactly if it puts the element there |
| Lifo.PushCoversTop | corelib/lfds/freelist_pop_push.c:79-84 | a successful push leaves its element on top and linked to the top of that instant |
| Lifo.FreelistIsLifo | corelib/lfds/freelist_pop_push.c:8-87 | in every schedule of queue calls the freelist is an atomic stack; a pop goes on until it ends with the element it took, or with NULL, and then the stack is empty at that step; a push ends exactly when its element is on the stack |
| QueueInvariant.StepKeepsValid | corelib/lfds/queue_queue.c:54-180 | every step of a queue call, whatever its link swap hits, keeps the queue well formed: chain, places, tails that hang outside it, and the account of values |
| QueueInvariant.StepKeepsEnqKnowledge | corelib/lfds/queue_queue.c:66-95 | what an enqueuer has read and checked stays usable from step to step |
| QueueInvariant.StepKeepsDeqKnowledge | corelib/lfds/queue_queue.c:123-177 | the same for a dequeuer: in the attempt state next is the successor of the dummy it saw |
| QueueInvariant.StepKeepsOwnership | corelib/lfds/queue_new.c:122-139 | a call keeps hold of its element through re-initialisation until it links it, together with what others hung behind it |
| QueueInvariant.StepRespects | corelib/lfds/queue_queue.c:54-180 | a step leaves the elements held by other threads alone, except that it may hang a node behind one |
| QueueInvariant.StrayTarget | corelib/lfds/queue_queue.c:80-83 | a link swap outside the chain hits an element that is held or hangs, never a free one, and one that left the chain after the linked element did, so no cycle arises |
| QueueInvariant.HeadGoes | corelib/lfds/queue_queue.c:162-169 | a successful head swap moves dequeue to the node after the dummy and never past enqueue |
| MachineInvariant.NextKeepsInv | corelib/lfds/queue_queue.c:8-180 | every step of the whole machine, by any thread, keeps the invariant that joins queue, freelist and all threads |
| Fifo.RunKeepsInv | corelib/lfds/queue_queue.c:8-180 | hence the invariant holds in every state of every schedule |
| Fifo.InitInv | corelib/lfds/queue_new.c:8-42 | a new queue of any size, with any number of threads, satisfies the invariant |
| Start.NewQueueIsInit | corelib/lfds/queue_new.c:8-42 | the objects that queue_new leaves, read word by word, are an initial state of the machine |
| Values.NothingLostNothingTwice | corelib/lfds/queue_queue.c:54-180 | in every state of every schedule, the values that came out, those in the chain and those that wait behind an unfinished enqueue are together the values of all link swaps, each once |
| Values.SettledIsWhole | corelib/lfds/queue_queue.c:54-180 | whenever no enqueue is in progress, what came out and what the chain holds are together what was enqueued |
| Values.NothingTwice | corelib/lfds/queue_queue.c:105-180 | in every schedule, each value that comes out belongs to a link swap of its own |
| Answers.CallBegan | corelib/lfds/queue_queue.c:8-39 | in every schedule, a thread inside a call began it with a step of its own, has been in it since, and works with the operation and the value of that step, guaranteed enqueues included |
| Answers.EnqueueAnswered | corelib/lfds/queue_queue.c:8-98 | in every schedule, an enqueue of either kind that answers 1 linked the value its caller gave, with one swap in the call and no other; one that answers 0 swapped nothing; there are no other answers |
| Answers.EnqueueFails | corelib/lfds/queue_new.c:74-115 | in every schedule, an enqueue answers 0 only if the freelist was empty at a step of its pop, a guaranteed enqueue only if the allocator failed at a step of the call |
| Answers.DequeueAnswered | corelib/lfds/queue_queue.c:105-180 | in every schedule, a dequeue that answers 1 took the value it answers, with one head swap in the call and no other; one that answers 0 took nothing and answers NULL |
| Matching.NoValueTwice | corelib/lfds/queue_queue.c:8-180 | in every schedule, each dequeue that answers a value answers what some enqueue call was given and linked before, and two dequeue calls never answer for the same enqueue call |
| Values.ChainShape | corelib/lfds/queue_queue.c:66-174 | in every state of every schedule the chain from dequeue is acyclic, ends in NULL and contains enqueue |
| Values.Permutes | corelib/lfds/queue_queue.c:54-180 | an account that picks every link swap once has the same values |
| QueueOrder.UntornLinkHitsLast | corelib/lfds/queue_queue.c:71-83 | while the order holds, a link swap, however stale, whose pair was not torn succeeds only on a node that is in the queue and is its last, and enqueue still points at it |
| QueueOrder.StepKeepsOrder | corelib/lfds/queue_queue.c:54-180 | every step of a queue call that is not a stray link keeps values in order and (NULL, counter) pairs from coming back |
| MachineOrder.NextKeepsOrder | corelib/lfds/queue_queue.c:8-180 | every step of the machine that is not a stray link keeps the order |
| Fifo.ChainUnique | corelib/lfds/queue_queue.c:123-174 | memory determines the chain from dequeue |
| Fifo.StrayBreaksFifo | corelib/lfds/queue_queue.c:71-83 | the first stray link makes an enqueue succeed whose value is not in the queue |
| Fifo.StrayHitsHeld | corelib/lfds/queue_queue.c:71-83 | the first stray link hits an element that another thread holds and has not linked yet |
| Fifo.FifoExactly | corelib/lfds/queue_queue.c:54-180 | the queue is first-in first-out throughout a schedule if and only if no link swap in it hits an element that another thread holds and has not linked yet |
| Guarantees.StrayNeedsTornPair | corelib/lfds/queue_new.c:130-133 | the first stray link needs a torn next pair, and hits the element of another thread between nulling its next pointer and linking it |
| Guarantees.NextKeepsClose | corelib/lfds/queue_queue.c:66-95 | while the order holds, a step that is not a torn link is no stray link and keeps enqueue at the last node or the one before |
| Guarantees.ChainLength | corelib/lfds/queue_queue.c:66-174 | while the order holds, the chain has one node more than the queue has values |
| Guarantees.TearFreeIsFifo | corelib/lfds/queue_queue.c:54-180 | in every schedule in which no torn pair is swapped, the queue is first-in first-out at every instant and enqueue lags by at most one node |
| TornRead.StrayIsReachable | corelib/lfds/queue_queue.c:71-83 | from every new queue of two or more elements with two threads there is a schedule that ends in a stray link |
| TornRead.FifoCanFail | corelib/lfds/queue_queue.c:71-83 | hence a schedule during which the queue is not first-in first-out |
| Calls.EmptyWasEmpty | corelib/lfds/queue_queue.c:131-155 | in every schedule, a dequeue that returns 0 has read its NULL next at an instant within the call at which no node came after the dummy |
| Calls.EmptyHasNoValues | corelib/lfds/queue_queue.c:140-155 | while the order holds, no node after the dummy means no value in the queue |
| Calls.EnqSnapshotTrue | corelib/lfds/queue_queue.c:68-78 | in every schedule, if an enqueue pair passes the recheck, there is the step of the same pass that read the counter, and in every state since then the pair was the true one |
| Calls.DeqSnapshotTrue | corelib/lfds/queue_queue.c:125-138 | the same for the dequeue pair |
| Calls.AttemptIsSafe | corelib/lfds/queue_queue.c:146-169 | in the attempt state next is a real node, and if the head swap succeeds the value read is the one that node carries |
| Calls.DequeueTakesOldest | corelib/lfds/queue_queue.c:146-169 | while the order holds, that value is the oldest one in the queue |
| Calls.NeverWild | corelib/lfds/queue_queue.c:54-180 | in no state of any schedule does the next step of a thread dereference NULL or an address that was not allocated |
| Conservation.EveryElementOnce | corelib/lfds/queue_queue.c:8-180 | every element is on the freelist, in the chain, behind an unfinished enqueue, or held by exactly one thread, and the counts add up |
| Conservation.NextKeepsCount | corelib/lfds/freelist_new.c:79-122 | element_count is the number of elements created and only a guaranteed enqueue raises it, by one |
| Conservation.ConservedThroughout | corelib/lfds/queue_new.c:74-139 | at every instant of every schedule these elements add up to element_count |
| Progress.LockFree | corelib/lfds/queue_queue.c:66-174 | in every schedule, a pass through a queue loop that does not finish overlaps a successful swap of some thread since the step that began the pass |
| Progress.FreelistLockFree | corelib/lfds/freelist_pop_push.c:16-84 | in every schedule, a swap on top fails only if another one succeeded since the step with which the thread last looked |
| Solo.ActRanks | corelib/lfds/queue_queue.c:8-180 | every step of a thread inside a call brings it nearer to the end of the call, by a count that only other threads can raise |
| Solo.CallAlone | corelib/lfds/queue_queue.c:8-180 | in every schedule, a thread in the middle of any call, freelist_pop and freelist_push included, that is left alone returns from the call within that count of steps |
| Solo.EnqueueAlone | corelib/lfds/queue_queue.c:8-98 | an enqueue of either kind that is left alone links the value its caller gave and returns 1, or returns 0 if it had no element yet and gets none |
| Solo.DequeueAlone | corelib/lfds/queue_queue.c:105-180 | a dequeue that is left alone at the head of its loop returns 0 exactly if no node came after the dummy, and else the value of that node |
| Solo.RankBounds | corelib/lfds/queue_queue.c:66-174 | the count is eight steps for each node that enqueue lags behind and eight more for an enqueue, and two passes for a dequeue, whatever the lag |
| Solo.TwoPasses | corelib/lfds/queue_queue.c:66-95 | where no torn pair was ever swapped, two passes are enough for an enqueue |
| HeapFreelist.FreelistState.Pop | corelib/lfds/freelist_pop_push.c:8-36 | takes the top element off, or returns NULL from an empty freelist |
| HeapFreelist.FreelistState.Push | corelib/lfds/freelist_pop_push.c:58-87 | puts the element on top with a fresh counter, linked to the old top pair, and leaves the rest as it was |
| HeapFreelist.FreelistState.NewElement | corelib/lfds/freelist_new.c:79-122 | yields a new element and counts it, with what the init function allocates if there is one, or nothing at all |
| HeapFreelist.NewElements | corelib/lfds/freelist_new.c:51-72 | pushes one new element for every allocation that succeeds, each with a partner of its own |
| HeapFreelist.NewFreelist | corelib/lfds/freelist_new.c:8-44 | succeeds exactly if every allocation does, with all elements on the freelist |
| HeapFreelist.DeleteFreelist | corelib/lfds/freelist_delete.c:20-31 | frees every element once, in order, with its own partner |
| HeapQueue.QueueState.constructor | corelib/lfds/queue_new.c:26-32 | the queue starts valid and empty, with the dummy at both ends, link counter 2 and aba_counter 0 |
| HeapQueue.NewQueue | corelib/lfds/queue_new.c:8-42 | succeeds exactly if the allocations do, and is then empty with n + 1 elements |
| HeapQueue.QueueState.AcquireElement | corelib/lfds/queue_new.c:74-91 | fails exactly on an empty freelist; otherwise yields a private element that carries the value |
| HeapQueue.QueueState.CreateElement | corelib/lfds/queue_new.c:98-115 | yields a private new element that carries the value, or changes nothing |
| HeapQueue.QueueState.InitElement | corelib/lfds/queue_new.c:122-139 | the element carries the value and a link counter drawn from aba_counter; the queue and its contents stay as they were |
| HeapQueue.QueueState.Link | corelib/lfds/queue_queue.c:54-98 | appends the element, also when enqueue lags, and leaves enqueue at it |
| HeapQueue.QueueState.Enqueue | corelib/lfds/queue_queue.c:8-24 | returns 1 and appends exactly if fewer than element_count - 1 values are held, else changes nothing |
| HeapQueue.QueueState.GuaranteedEnqueue | corelib/lfds/queue_queue.c:31-47 | appends and raises element_count exactly if the allocation succeeds |
| HeapQueue.QueueState.Dequeue | corelib/lfds/queue_queue.c:105-180 | returns 0 exactly if empty, else the oldest value; no element is lost |
| HeapQueue.Perform | corelib/lfds/queue_queue.c:8-180 | a queue built for n elements answers every sequence of calls as a sequence bounded by n does |
| HeapQueue.Drain | corelib/lfds/queue_delete.c:17-19 | the user's delete function gets every value, in order, and all nodes but the dummy return to the freelist |
| HeapQueue.DeleteQueue | corelib/lfds/queue_delete.c:8-35 | frees every freelist element and every queue element exactly once, dummy included, after deleting the values in order |
| Walks.CyclicOrEnds | corelib/lfds/freelist_query.c:56-71 | in a finite heap a walk comes back to a node or ends |
| Walks.WalkersMeet | corelib/lfds/freelist_query.c:73-84 | on a cycle the slow and the fast pointer meet |
| Walks.Verdict | corelib/lfds/freelist_query.c:84-87 | where the pointers stop tells whether there is a cycle |
| Validate.FreelistLoop | corelib/lfds/freelist_query.c:54-87 | on any finite heap the loop ends and reports a loop exactly if the chain from top is cyclic |
| Validate.QueueLoop | corelib/lfds/queue_query.c:63-96 | the same for the chain from dequeue |
| Validate.ValidateFreelist | corelib/lfds/freelist_query.c:38-111 | INVALID_LOOP exactly on cycles; otherwise the wrapped count is judged against the range, too many before too few |
| Validate.ValidateQueue | corelib/lfds/queue_query.c:42-151 | both verdicts on any heap, with the dummy taken off the count and the complementary range for the freelist, in wrapping arithmetic; for a possible range the freelist is VALID exactly between total - 1 - max and total - 1 - min elements, with too many above and too few below |
| Validate.RangesAgree | corelib/lfds/queue_query.c:103-143 | the two ranges hold together exactly if min <= k <= max <= total - 1, whatever min and max are |
| Validate.ValidateIntact | corelib/lfds/queue_query.c:98-151 | an intact queue shows no loop, and both structures are VALID exactly if min <= k <= max <= total - 1 |
| Latch.DoKeepsInv | corelib/JacksLatch.c:66-94 | every step of a get or post keeps mutual exclusion, the count of posts and the wake-ups owed |
| Latch.LatchIsSound | corelib/JacksLatch.c:66-94 | in every run: one thread inside at most, no more gets than posts despite spurious wake-ups, and a post never leaves every getter asleep |
| Latch.PostStays | corelib/JacksLatch.c:66-94 | in every run, a post stays until a get takes it |
| Latch.SignalWakes | corelib/JacksLatch.c:66-94 | every get that is let through and every post wakes a thread if one is asleep |
| Latch.NeverStuck | corelib/JacksLatch.c:66-94 | in every run, some thread inside can step, unless all inside are asleep, and then there is no post |
| Client.DoKeepsCovered | corelib/JacksRbClient.c:65-136 | every step keeps: queue length <= semaphore + producers that owe a post + consumers awake from a wait |
| Client.DoKeepsLogged | corelib/JacksRbClient.c:65-136 | events enqueued are the events delivered followed by the queue, in order |
| Client.NoLostWakeup | corelib/JacksRbClient.c:76-133 | in every run, an event in the queue means a semaphore above zero, a producer about to post or a consumer about to dequeue |
| Delivery.TraceIsRun | corelib/JacksRbClient.c:65-136 | a run with its steps is a run, so that every result on runs holds of it |
| Delivery.EventsInOrder | corelib/JacksRbClient.c:65-136 | in every run, what get_event returned, followed by the queue, is what the callbacks sent, in order, each callback sending the event it is there for |
| Delivery.GetEventReturns | corelib/JacksRbClient.c:124-136 | in every run, get_event waits only after it found the queue empty, looks again after every wait, interrupted ones included, and ends only by returning the event that is then the oldest |
| Delivery.CallbackComplete | corelib/JacksRbClient.c:65-118 | in every run, a process callback that returns has sent and posted once for each port, up to its first failure; the other callbacks have sent once, unless that failed, and posted once in any case |
| Delivery.SemaphoreExact | corelib/JacksRbClient.c:76-133 | in every run, the semaphore is one more than the posts that no wait has taken |
| Handshake.DoKeepsInv | corelib/JacksRbClient.c:87-100 | every step keeps a session event in at most one place between its callback, the queue, the application and the latch |
| Handshake.SessionHandshake | corelib/JacksRbClient.c:87-100 | in every run, callbacks, deliveries, completions and replies are in the same order, each no later than the one before it, and a delivered event carries the data of its own callback until it is completed |
| Handshake.DeliveryIsPossible | corelib/JacksRbClient.c:124-136 | in every run, with an event queued and a thread in get_event, three steps can have get_event return the oldest event |
| Handshake.DataIsCleared | corelib/JacksRbClient.c:87-97 | in every run, the session event has the data of the running callback from the first setting to the second, and NULL at all other times |
| Handshake.CompletionsPost | corelib/JacksEvent.c:56-61 | in every run, each completion of a session event posts the latch once |
| Handshake.CanStep | corelib/JacksRbClient.c:65-136 | in every run, no thread outside the latch is stuck, except in a wait on a semaphore at zero, and an event that is held can be completed or dropped at once |
| CastLists.TypeCheck | modules/lua/Jacks_lua_wrap.c:397-446 | returns the first entry of the given name or type, or NULL if there is none, moves it to the front, keeps the order of the others and both directions of links |
| CastLists.Lookups | modules/lua/Jacks_lua_wrap.c:397-446 | the same over every sequence of lookups |
| CastLists.LookupsKeepSearch | modules/lua/Jacks_lua_wrap.c:397-446 | lookups of one kind, by name or by type, never change what a lookup of that kind finds |
| CastLists.SharedNameDisagrees | modules/lua/Jacks_lua_wrap.c:424-446 | if two types share a name, some lookup by type changes what a lookup by name finds |
| CastLists.LookupsAgreeExactly | modules/lua/Jacks_lua_wrap.c:397-446 | mixed lookups always find what plain search of the original list finds, if and only if types of one name are one type |
| ClientData.Flood | modules/lua/Jacks_lua_wrap.c:503-518 | with data the recursion ends on every cast graph, self-casts included, and every type it set has only neighbours with data; with NULL it goes as deep as the ways through types without data |
| ClientData.ClearingEndsExactly | modules/lua/Jacks_lua_wrap.c:503-518 | with NULL for data the recursion has a depth if and only if no cycle of casts without a converter, through types without data, can be reached |
| ClientData.FloodIsReach | modules/lua/Jacks_lua_wrap.c:503-518 | a type without data gets it exactly if it can be reached through types without data |
| ClientData.TypeClientData | modules/lua/Jacks_lua_wrap.c:503-518 | with data: root overwritten, types with data unchanged, types without data set exactly if reachable, so that casts with a converter do not count and casts without one do; with NULL, where it ends: the root is cleared and nothing else changes |
| Packing.HexInjective | modules/lua/Jacks_lua_wrap.c:607-618 | different byte strings pack to different texts |
| Packing.HexCharacters | modules/lua/Jacks_lua_wrap.c:607-618 | each byte becomes two characters, upper four bits first, `0` to `9` and then `a` to `f` |
| Packing.PackData | modules/lua/Jacks_lua_wrap.c:607-618 | writes the packed form at the cursor and nothing else |
| Packing.UnpackData | modules/lua/Jacks_lua_wrap.c:623-646 | succeeds exactly on packed forms, gives back the bytes, and never reads past the terminator |
| Packing.PackVoidPtr | modules/lua/Jacks_lua_wrap.c:651-660 | succeeds exactly if everything fits and never writes past the buffer size |
| Packing.UnpackVoidPtr | modules/lua/Jacks_lua_wrap.c:662-673 | decodes packed pointers and "NULL", rejects everything else |
| Packing.PointerRoundTrip | modules/lua/Jacks_lua_wrap.c:651-673 | a packed pointer unpacks to the same bytes with the cursor at its type's name |

## Left out

- Weak memory ordering and wrap-around of the counters of the queue and the freelist: the machine is sequentially consistent and its counters are unbounded.  Wrap-around is modelled in the checker, for a 64-bit `atom_t`.
- The compare-and-swap, increment and allocation primitives of `corelib/lfds/abstraction_*.c`: they are single steps.  Allocating an element and counting it is one step of the machine.
- queue_new with the largest number of elements, where `number_elements+1` wraps to zero.
- Concurrent construction or deletion: no node is freed while threads run, as the library demands.
- freelist_new: modelled with the init function the queue uses, which allocates a queue element; the elements that a failed construction leaks are not tracked.
- `INVALID_TEST_DATA`, which the checker never reports, and the misuse that the source rejects by `assert`.
- ClientData.TypeClientData: requires, for NULL data, that the recursion ends; `ClientData.ClearingEndsExactly` says when that is.
- CastLists.TypeCheck: the search by name and the search by type are one method with the test as a parameter, since the two functions differ in nothing else.
- Packing: bytes are numbers below 256 and masks and shifts are written as division and remainder by 16; `SWIG_PackDataName` and `SWIG_UnpackDataName`, which add nothing new, are not modelled.
- Liveness of the session callback: its enqueue may fail unnoticed (`corelib/JacksRbClient.c:92`), and then it waits for ever.  Only safety is proved there.
- Overflow of the semaphore, and the timeout of `JacksRbClient_get_event`, which the code ignores.
- The Handshake results take from JACK that session callbacks do not overlap, and from the application that it completes a delivered event at most once.
- JacksRbPort's ring buffers, ports, sockets and signals; opening, activating and closing the JACK client; latency and sample-rate calls; error messages: foreign code and I/O.  Writing to a ring buffer is a step that may fail.
- `JacksHelper.c`, `freelist_get_and_set.c`, string lists and latency ranges: easy members only.
- The rest of the generated wrappers, `SWIG_TypeNameComp`, type queries and module registration, the Perl and Python copies of the runtime, the Node.js bindings.
