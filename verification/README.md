# MultiQueueProcessor — a verified model of the per-key queue state machine

`MultiQueueProcessor<Key, Value>` keeps independent FIFO queues by key. Each key's
`Queue` has a buffer of values, capped at `MaxCapacity` = 1000, and at most one
non-owning consumer pointer. Every mutation (Subscribe, Unsubscribe, Enqueue, the
body of Dequeue, and the internal delivery step `consume`) runs as a task on one
worker thread, one task at a time, in submission order. So the logic is sequential.
A worker turn is `io_service.run()` on that thread (DispatchQueue.h:12) running one handler
that `dispatch` posted (DispatchQueue.h:25 or 28).

The model has three modules:

- `QueueState` (queue_state.dfy): the state machine as values. A `State` holds
  - the `queues` map from key to `Queue(values, consumer)`, where `None` is the null pointer;
  - `pending`, the worker's FIFO of posted tasks. The task kinds are the three posted bodies
    and `Deliver(k)`, which is `consume(k)` re-posting itself;
  - `log`, every value that left the processor: `Delivered(consumer, key, value)` stands for
    the consumer's `Consume` call, and `Dequeued(key, value)` for a value returned by Dequeue;
  - `accepted`, every value Enqueue put into a buffer. This is bookkeeping for the proofs.

  Each task body is a function (`SubscribeStep`, `UnsubscribeStep`, `EnqueueStep`,
  `ConsumeStep`, `DequeueStep`). One worker turn is `NextState` and n turns are `RunMany`.
  The invariant `Inv` has three parts: `Bounded`, `DeliveryScheduled` (a key with a
  consumer and buffered values has a `Deliver` task pending) and `Conserved` (per key,
  the output followed by the buffer equals the accepted values, in order).
- `QueueProperties` (queue_properties.dfy): lemmas. Every operation keeps `Inv`.
  They also prove drained-means-delivered, isolation between keys, first-subscriber-wins,
  idle-key erasure, and the behaviour the repository's tests check.
- `Processor` (processor.dfy): the class `MultiQueueProcessor`. Its fields `queues`,
  `pending` and `log` are updated in place. The public operations (`Subscribe`,
  `Unsubscribe`, `Enqueue`, `Dequeue`) and the worker methods (`RunTasks`, `Step`) tie the
  new state to the `QueueState` function of the old state and keep `Valid()`. The task
  bodies (`RunSubscribe`, `RunUnsubscribe`, `RunEnqueue`, `TakeHead`, `Consume`) are proved
  equal to their `QueueState` functions; `Step` proves they keep the invariant.

Dequeue is a synchronous round trip. The worker first runs the tasks that were pending
when Dequeue was called. Tasks those tasks post stay behind it. Then the worker runs
Dequeue's body and returns its result (`DequeueRoundTrip`, `MultiQueueProcessor.Dequeue`).

A second Subscribe while a consumer is registered is ignored, so the first consumer
stays (MultiQueueProcessor.h:27-31).

`Dequeue` (MultiQueueProcessor.h:71) calls `dispatch_sync`. DispatchQueue.h does not
define it; it has only `dispatch` and `dispatch_or_call`. The model gives Dequeue the
blocking behaviour of `dispatch` for a task with a result (DispatchQueue.h:26-30).

## Model

| member | source | states |
|---|---|---|
| `QueueState.ConsumeStep` | MultiQueueProcessor.h:91-107 | An absent key, a null consumer or an empty buffer changes nothing. Otherwise the head goes to the registered consumer and is popped. `Deliver(k)` is re-posted exactly when values remain. Other keys are untouched. |
| `QueueState.SubscribeStep` | MultiQueueProcessor.h:21-33 | The key's entry exists afterwards. If a consumer is already registered, nothing changes (first subscriber wins). Otherwise `c` is registered and, if `c` is non-null and values are buffered, the head is delivered to `c` at once. Other keys are untouched. |
| `QueueState.UnsubscribeStep` | MultiQueueProcessor.h:35-50 | An unknown key is a no-op. Otherwise the consumer becomes null and the buffer is kept. The entry is erased exactly when the buffer is empty. Nothing is posted and other keys are untouched. |
| `QueueState.EnqueueStep` | MultiQueueProcessor.h:52-67 | The key's entry exists afterwards. A full buffer (1000 values) leaves the whole state unchanged. Below capacity, `v` is accepted. It is delivered at once exactly when the buffer was empty and a consumer is registered; otherwise it is appended at the tail. No task is ever posted. |
| `QueueState.DequeueStep` | MultiQueueProcessor.h:74-86 | An unknown key or an empty buffer gives the empty value and no change, so no entry is created. Otherwise it returns the front, removes exactly that value, and keeps the key set, the consumer and every other key. |
| `QueueState.EntryInsertUnobservable` | MultiQueueProcessor.h:26 | `queues[k]` inserts the value-initialised Queue (empty buffer, null consumer) when k is absent. Afterwards k is present, the key set grows by k alone, and every key reads exactly as before. |
| `QueueState.Post` | DispatchQueue.h:21-25 | Posting adds the task at the tail of the worker's queue. The tasks already pending, the map, the log and the accepted values are unchanged. |
| `QueueState.DequeueRoundTrip` | MultiQueueProcessor.h:69-88 | The tasks pending at the call all run first, then the Dequeue body. The result is that state's front value, or the empty value when its buffer for k is empty. Tasks posted meanwhile stay pending. |
| `QueueState.NextState` | DispatchQueue.h:12 | One worker turn runs the oldest task. The tasks behind it stay pending in order, and at most one new task is posted. |
| `QueueState.RunMany` | DispatchQueue.h:12 | After n turns, the tasks that were pending behind the first n are still pending, in the same order, ahead of anything posted since. |
| `QueueProperties.ValuesForAppend` | MultiQueueProcessor.h:102 | Logging an event extends the per-key output of that event's key by its value, and no other key's output. |
| `QueueProperties.AcceptedForAppend` | MultiQueueProcessor.h:63 | Accepting a value extends the accepted sequence of that value's key only. |
| `QueueProperties.InitialInv` | MultiQueueProcessor.h:110-117 | A processor with no keys, no pending tasks and an empty log satisfies the invariant. |
| `QueueProperties.PostKeepsInv` | MultiQueueProcessor.h:23-32 | Posting any task keeps the invariant. |
| `QueueProperties.ConsumeStepKeepsInv` | MultiQueueProcessor.h:99-106 | consume(k) restores the delivery obligation for k. It keeps buffers bounded and per-key output FIFO and exactly once. |
| `QueueProperties.SubscribeStepKeepsInv` | MultiQueueProcessor.h:26-31 | The Subscribe body keeps the invariant. |
| `QueueProperties.UnsubscribeStepKeepsInv` | MultiQueueProcessor.h:40-48 | The Unsubscribe body keeps the invariant. |
| `QueueProperties.EnqueueStepKeepsInv` | MultiQueueProcessor.h:58-65 | The Enqueue body keeps the invariant. In particular no buffer exceeds `MaxCapacity`. |
| `QueueProperties.TakeOldestTask` | DispatchQueue.h:12 | Taking the oldest task off the worker's queue keeps buffers bounded and output conserved. Every delivery obligation except the one the task itself carries (a `Deliver` task for its key) is still pending. |
| `QueueProperties.NextStateKeepsInv` | MultiQueueProcessor.h:21-107 | Whatever task a worker turn runs, the invariant holds afterwards. |
| `QueueProperties.RunManyKeepsInv` | MultiQueueProcessor.h:21-107 | Any number of worker turns keeps the invariant. |
| `QueueProperties.DequeueStepKeepsInv` | MultiQueueProcessor.h:74-86 | The Dequeue body keeps the invariant; the popped value is recorded as output. |
| `QueueProperties.DequeueRoundTripKeepsInv` | MultiQueueProcessor.h:69-88 | A whole Dequeue round trip keeps the invariant. |
| `QueueProperties.DrainedMeansDelivered` | MultiQueueProcessor.h:91-107 | With nothing pending, every key with a registered consumer has an empty buffer. Its output (deliveries and Dequeue results together) equals its accepted values, in order. |
| `QueueProperties.OnlyDeliveredToValues` | MultiQueueProcessor.h:102 | When every event logged for k is a hand-over to c, k's output is exactly what c received for k. |
| `QueueProperties.OnlyDeliveredToAppend` | MultiQueueProcessor.h:102 | Logging an event for another key, or a hand-over to c, keeps "everything for k went to c". |
| `QueueProperties.AdmitsAppend` | MultiQueueProcessor.h:23 | Appending tasks that subscribe no rival of c for k to a queue without such tasks gives a queue without them. |
| `QueueProperties.InitialServedBy` | MultiQueueProcessor.h:110-117 | A fresh processor serves every key by any consumer: nothing registered, nothing pending, nothing logged. |
| `QueueProperties.PostServedBy` | MultiQueueProcessor.h:21-24 | Posting any task except a Subscribe of another consumer for k keeps k served by c. |
| `QueueProperties.ConsumeStepServedBy` | MultiQueueProcessor.h:91-107 | consume hands k's values only to k's registered consumer, so k stays served by c. |
| `QueueProperties.SubscribeStepServedBy` | MultiQueueProcessor.h:26-31 | A Subscribe body that names c (or null) for k, or any consumer for another key, keeps k served by c. |
| `QueueProperties.UnsubscribeStepServedBy` | MultiQueueProcessor.h:40-48 | The Unsubscribe body keeps k served by c. |
| `QueueProperties.EnqueueStepServedBy` | MultiQueueProcessor.h:58-65 | The Enqueue body, including its immediate delivery, keeps k served by c. |
| `QueueProperties.NextStateServedBy` | DispatchQueue.h:12 | A worker turn keeps k served by c. |
| `QueueProperties.RunManyServedBy` | DispatchQueue.h:12 | Any number of worker turns keeps k served by c. |
| `QueueProperties.DequeueRoundTripServedBy` | MultiQueueProcessor.h:69-88 | A Dequeue round trip on another key keeps k served by c. |
| `QueueProperties.DrainedDeliveredToConsumer` | main.cpp:85-94 | With nothing pending, a key served by c alone, with c registered, has an empty buffer. c received every value accepted for the key, each once, in order. No Dequeue is involved. |
| `QueueProperties.NextStateIsolated` | MultiQueueProcessor.h:21-107 | A turn running a task for key k leaves every other key's presence, entry, output and accepted values unchanged. |
| `QueueProperties.RunManyHead` | DispatchQueue.h:12 | The i-th worker turn runs the task that was i-th in the queue at the start. |
| `QueueProperties.RunManyIsolated` | MultiQueueProcessor.h:21-107 | Running tasks none of which is for key j leaves j's entry, output and accepted values unchanged. |
| `QueueProperties.DequeueStepIsolated` | MultiQueueProcessor.h:74-86 | Dequeue on k leaves every other key's entry and output unchanged. |
| `QueueProperties.FirstSubscriberWins` | MultiQueueProcessor.h:27-31 | Subscribe(k, c1) then Subscribe(k, c2) leaves c1 registered. The second call changes nothing. |
| `QueueProperties.UnsubscribeIdleForgets` | MultiQueueProcessor.h:45-48 | Unsubscribe on a key with an empty buffer erases the key. A Dequeue then finds nothing and creates nothing. |
| `QueueProperties.SubscribeEnqueueUnsubscribeScenario` | MultiQueueProcessor.h:26-31 | On a fresh processor, Subscribe(k, c) then Enqueue(k, v) delivers v to c exactly once and leaves nothing buffered or pending. A following Unsubscribe(k) erases the key. |
| `QueueProperties.CappedSnoc` | MultiQueueProcessor.h:60-63 | Adding one value and then keeping the first 1000 is the same as keeping the first 1000 and adding the value only while there is room. |
| `QueueProperties.CappedAppendLast` | MultiQueueProcessor.h:60-63 | Keeping the first 1000 of the old buffer plus vs is the same as doing that for all but the last value, then adding the last value only while there is room. |
| `QueueProperties.EnqueueTurnWithoutConsumer` | MultiQueueProcessor.h:58-65 | A worker turn that runs Enqueue(k, v) for a key without a consumer appends v exactly when the buffer holds fewer than 1000 values. It logs nothing, posts nothing, and leaves the consumer null. |
| `QueueProperties.RunOneEnqueue` | MultiQueueProcessor.h:58-65 | One more Enqueue task on a consumer-less key extends the capped buffer by its value while there is room. This is the inductive step of `RunEnqueues`. |
| `QueueProperties.RunEnqueues` | MultiQueueProcessor.h:58-65 | For a key without a consumer, running a batch of Enqueue tasks leaves the first 1000 values of the old buffer followed by the new values, taken together. Values beyond that are dropped and nothing is logged. |
| `QueueProperties.DequeueManyIdle` | MultiQueueProcessor.h:74-86 | With nothing pending, successive Dequeues return the buffer front to back and then the empty value. |
| `QueueProperties.DequeueManyAfterRun` | MultiQueueProcessor.h:69-88 | The first Dequeue runs all earlier tasks. When they leave nothing pending, Dequeues before and after those tasks return the same values. |
| `QueueProperties.EnqueueThenDrain` | main.cpp:21-46 | On a fresh processor given only Enqueue(k, v) for each v of vs, Dequeues return the first 1000 of vs in order, then the empty value. |
| `QueueProperties.CapacityScenario` | main.cpp:33-46 | 1001 Enqueues, then 1001 Dequeues, return the first 1000 values and then the empty value. |
| `QueueProperties.EnqueueDequeueScenario` | main.cpp:21-31 | A Dequeue on a fresh processor returns the empty value and creates no entry. After Enqueue(k, v), Dequeues return v and then the empty value. |
| `QueueProperties.Capped` | MultiQueueProcessor.h:7 | What a buffer keeps of a value sequence has at most 1000 values. It is a prefix of the sequence, and the whole sequence when that fits. |
| `QueueProperties.EnqueueTasks` | MultiQueueProcessor.h:52-57 | Calling Enqueue(k, v) for each v of vs posts one Enqueue task per value, in order. |
| `Processor.MultiQueueProcessor.constructor` | MultiQueueProcessor.h:110-117 | A new processor has no keys, no pending tasks and an empty log, and satisfies the invariant. |
| `Processor.MultiQueueProcessor.Subscribe` | MultiQueueProcessor.h:21-24 | Posts the Subscribe body at the tail of the worker's queue and keeps the invariant. |
| `Processor.MultiQueueProcessor.Unsubscribe` | MultiQueueProcessor.h:35-38 | Posts the Unsubscribe body at the tail of the worker's queue and keeps the invariant. |
| `Processor.MultiQueueProcessor.Enqueue` | MultiQueueProcessor.h:52-56 | Posts the Enqueue body at the tail of the worker's queue and keeps the invariant. |
| `Processor.MultiQueueProcessor.Dequeue` | MultiQueueProcessor.h:69-88 | Runs the tasks posted before the call, then the Dequeue body, and returns its result (`DequeueRoundTrip`). Keeps the invariant. |
| `Processor.MultiQueueProcessor.RunTasks` | DispatchQueue.h:12 | Runs n worker turns in place (`RunMany`) and keeps the invariant. |
| `Processor.MultiQueueProcessor.Step` | DispatchQueue.h:12 | Runs the oldest pending task in place (`NextState`) and keeps the invariant. |
| `Processor.MultiQueueProcessor.RunSubscribe` | MultiQueueProcessor.h:26-31 | Updates the map in place as `SubscribeStep` describes. |
| `Processor.MultiQueueProcessor.RunUnsubscribe` | MultiQueueProcessor.h:40-48 | Updates or erases the entry in place as `UnsubscribeStep` describes. |
| `Processor.MultiQueueProcessor.RunEnqueue` | MultiQueueProcessor.h:58-65 | Updates the buffer in place as `EnqueueStep` describes. |
| `Processor.MultiQueueProcessor.TakeHead` | MultiQueueProcessor.h:74-86 | Pops and returns the head in place, or returns the empty value, as `DequeueStep` describes. |
| `Processor.MultiQueueProcessor.Consume` | MultiQueueProcessor.h:91-107 | Delivers, pops and re-posts in place as `ConsumeStep` describes. |

## Left out

- Threads: DispatchQueue.h's io_service, worker thread, futures and thread-id check are not modelled. The only behaviour kept is one worker running tasks in FIFO order, as the `pending` sequence.
- `Processor.MultiQueueProcessor.Dequeue` runs its round trip atomically with respect to other callers. In the source, another thread can post a task while Dequeue waits, and that task can land ahead of a `Deliver(k)` re-posted by one of the earlier tasks. The `QueueState` lemmas hold for any state and interleaving of posts, but the class does not model such concurrent posting.
- `dispatch_or_call`'s same-thread fast path is not modelled, because MultiQueueProcessor never calls it.
- The destructor, the thread join and the shutdown drain (DispatchQueue.h:15-19, MultiQueueProcessor.h:19) are not modelled, because they concern lifetime and threading.
- The consumer's `Consume` body is not modelled. A delivery is recorded as a `Delivered` log entry, and the consumer is an opaque identity. The callback is assumed not to call back into the processor.
- The use-after-free hazard of a consumer destroyed without Unsubscribe is not modelled.
- Liveness is not proved: nothing says the pending queue always drains. The model proves only what holds once it is drained (`DrainedMeansDelivered`).
- `Value{}` has no generic counterpart in Dafny. It is the constructor parameter `emptyValue`, and `none` in the functions.
- Buffer sizes stay at most 1000, so `size_t` arithmetic never wraps and is modelled with unbounded integers.
- The hashing and node allocation of `std::unordered_map` and `std::list` are not modelled; a Dafny `map` and `seq` stand for them.
