/** The per-key queue state machine of MultiQueueProcessor<Key, Value>, as values.

    A State holds the processor's map from key to Queue, the FIFO of tasks
    posted to the single worker and not yet run, and two observation records:
    `log`, every value that left the processor (handed to a consumer by
    consume, or returned by Dequeue), and `accepted`, every value Enqueue put
    into a buffer.  The worker runs one task at a time, so every operation is
    a function from State to State. */
module QueueState {

  datatype Option<T> = None | Some(value: T)

  /** The most values one key may buffer; further Enqueues are dropped. */
  const MaxCapacity: nat := 1000

  /** One key's state: its FIFO buffer and its non-owning consumer
      reference (None stands for a null pointer). */
  datatype Queue<V, C> = Queue(values: seq<V>, consumer: Option<C>)

  /** The worker's work items.  The first three are the bodies posted by
      Subscribe, Unsubscribe and Enqueue; Deliver(k) is consume(k) as
      re-posted by consume itself. */
  datatype Task<K, V, C> =
    | SubscribeTask(key: K, consumer: Option<C>)
    | UnsubscribeTask(key: K)
    | EnqueueTask(key: K, value: V)
    | Deliver(key: K)

  /** A value leaving the processor: handed to `consumer` by consume, or
      returned to a Dequeue caller. */
  datatype Event<K, V, C> =
    | Delivered(consumer: C, key: K, value: V)
    | Dequeued(key: K, value: V)

  /** A value that Enqueue accepted into key's buffer. */
  datatype Item<K, V> = Item(key: K, value: V)

  datatype State<K, V, C> = State(
    queues: map<K, Queue<V, C>>,
    pending: seq<Task<K, V, C>>,
    log: seq<Event<K, V, C>>,
    accepted: seq<Item<K, V>>)

  /** A freshly constructed processor. */
  function Initial<K(==,!new), V, C>(): State<K, V, C> {
    State(map[], [], [], [])
  }

  /** What `queues[k]` yields: the key's entry, or the value-initialised
      Queue (empty buffer, null consumer) when the key is absent. */
  function Entry<K(==,!new), V, C>(s: State<K, V, C>, k: K): Queue<V, C> {
    if k in s.queues then s.queues[k] else Queue([], None)
  }

  /** `queues[k]` also inserts the value-initialised Queue when k is absent:
      afterwards k is present, and no lookup of any key can tell the
      difference. */
  lemma EntryInsertUnobservable<K(!new), V, C>(s: State<K, V, C>, k: K)
    ensures var t := s.(queues := s.queues[k := Entry(s, k)]);
            && k in t.queues && t.queues.Keys == s.queues.Keys + {k}
            && forall j :: Entry(t, j) == Entry(s, j)
  {
    var t := s.(queues := s.queues[k := Entry(s, k)]);
    forall j ensures Entry(t, j) == Entry(s, j) {
      if j != k {
        assert (j in t.queues) == (j in s.queues);
      }
    }
  }

  function Buffer<K(==,!new), V, C>(s: State<K, V, C>, k: K): seq<V> {
    Entry(s, k).values
  }

  function ConsumerOf<K(==,!new), V, C>(s: State<K, V, C>, k: K): Option<C> {
    Entry(s, k).consumer
  }

  /** The values the log records for key k, in order. */
  ghost function ValuesFor<K, V, C>(log: seq<Event<K, V, C>>, k: K): seq<V> {
    if log == [] then []
    else (if log[0].key == k then [log[0].value] else []) + ValuesFor(log[1..], k)
  }

  /** The values accepted for key k, in order. */
  ghost function AcceptedFor<K, V>(items: seq<Item<K, V>>, k: K): seq<V> {
    if items == [] then []
    else (if items[0].key == k then [items[0].value] else []) + AcceptedFor(items[1..], k)
  }

  /** Every key other than k has the same entry (or the same absence) in r as in s. */
  ghost predicate SameElsewhere<K(!new), V, C>(s: State<K, V, C>, r: State<K, V, C>, k: K) {
    forall j | j != k :: (j in r.queues <==> j in s.queues) && Entry(r, j) == Entry(s, j)
  }

  /** Posting a task to the worker: it joins the tail of the pending FIFO. */
  function Post<K(==,!new), V, C>(s: State<K, V, C>, t: Task<K, V, C>): (r: State<K, V, C>)
    ensures |r.pending| == |s.pending| + 1 && r.pending[|s.pending|] == t && s.pending <= r.pending
    ensures r.queues == s.queues && r.log == s.log && r.accepted == s.accepted
  {
    s.(pending := s.pending + [t])
  }

  /** consume(k): when k has a consumer and a non-empty buffer, hand the head
      to the consumer, pop it, and re-post Deliver(k) while values remain;
      otherwise nothing happens. */
  function ConsumeStep<K(==,!new), V, C>(s: State<K, V, C>, k: K): (r: State<K, V, C>)
    ensures r.accepted == s.accepted && r.queues.Keys == s.queues.Keys
    ensures SameElsewhere(s, r, k)
    ensures ConsumerOf(r, k) == ConsumerOf(s, k)
    ensures ConsumerOf(s, k).None? || Buffer(s, k) == [] ==> r == s
    ensures ConsumerOf(s, k).Some? && Buffer(s, k) != [] ==>
              && Buffer(r, k) == Buffer(s, k)[1..]
              && r.log == s.log + [Delivered(ConsumerOf(s, k).value, k, Buffer(s, k)[0])]
              && r.pending == s.pending + (if Buffer(r, k) == [] then [] else [Deliver(k)])
  {
    if k !in s.queues then s
    else
      var q := s.queues[k];
      if q.consumer.None? || q.values == [] then s
      else
        var rest := q.values[1..];
        var log := s.log + [Delivered(q.consumer.value, k, q.values[0])];
        var pending := if rest != [] then s.pending + [Deliver(k)] else s.pending;
        State(s.queues[k := q.(values := rest)], pending, log, s.accepted)
  }

  /** The body Subscribe posts: create k's entry if absent; register c only
      when no consumer is registered, and then try a delivery at once. */
  function SubscribeStep<K(==,!new), V, C>(s: State<K, V, C>, k: K, c: Option<C>): (r: State<K, V, C>)
    ensures k in r.queues && r.accepted == s.accepted
    ensures SameElsewhere(s, r, k)
    ensures ConsumerOf(s, k).Some? ==> r == s
    ensures ConsumerOf(s, k).None? ==> ConsumerOf(r, k) == c
    ensures ConsumerOf(s, k).None? && c.Some? && Buffer(s, k) != [] ==>
              && Buffer(r, k) == Buffer(s, k)[1..]
              && r.log == s.log + [Delivered(c.value, k, Buffer(s, k)[0])]
              && r.pending == s.pending + (if Buffer(r, k) == [] then [] else [Deliver(k)])
    ensures ConsumerOf(s, k).None? && (c.None? || Buffer(s, k) == []) ==>
              Buffer(r, k) == Buffer(s, k) && r.log == s.log && r.pending == s.pending
  {
    var q := Entry(s, k);
    if q.consumer.None? then
      ConsumeStep(s.(queues := s.queues[k := q.(consumer := c)]), k)
    else
      s.(queues := s.queues[k := q])
  }

  /** The body Unsubscribe posts: an unknown key is left alone; otherwise the
      consumer is cleared and the entry is erased when its buffer is empty. */
  function UnsubscribeStep<K(==,!new), V, C>(s: State<K, V, C>, k: K): (r: State<K, V, C>)
    ensures r.pending == s.pending && r.log == s.log && r.accepted == s.accepted
    ensures SameElsewhere(s, r, k)
    ensures k !in s.queues ==> r == s
    ensures k in s.queues ==> (k in r.queues <==> Buffer(s, k) != [])
    ensures ConsumerOf(r, k).None? && Buffer(r, k) == Buffer(s, k)
  {
    if k !in s.queues then s
    else
      var q := s.queues[k].(consumer := None);
      if q.values == [] then s.(queues := s.queues - {k})
      else s.(queues := s.queues[k := q])
  }

  /** The body Enqueue posts: create k's entry if absent; drop v when the
      buffer is full; otherwise append v and, when v is now the only value,
      try a delivery at once. */
  function EnqueueStep<K(==,!new), V, C>(s: State<K, V, C>, k: K, v: V): (r: State<K, V, C>)
    ensures SameElsewhere(s, r, k)
    ensures k in r.queues && ConsumerOf(r, k) == ConsumerOf(s, k)
    ensures r.pending == s.pending
    ensures |Buffer(s, k)| >= MaxCapacity ==> r == s
    ensures |Buffer(s, k)| < MaxCapacity ==> r.accepted == s.accepted + [Item(k, v)]
    ensures |Buffer(s, k)| < MaxCapacity && (Buffer(s, k) != [] || ConsumerOf(s, k).None?) ==>
              Buffer(r, k) == Buffer(s, k) + [v] && r.log == s.log
    ensures Buffer(s, k) == [] && ConsumerOf(s, k).Some? ==>
              Buffer(r, k) == [] && r.log == s.log + [Delivered(ConsumerOf(s, k).value, k, v)]
  {
    var q := Entry(s, k);
    var s0 := s.(queues := s.queues[k := q]);
    if |q.values| >= MaxCapacity then s0
    else
      var s1 := s0.(queues := s0.queues[k := q.(values := q.values + [v])],
                    accepted := s.accepted + [Item(k, v)]);
      if |q.values + [v]| == 1 then ConsumeStep(s1, k) else s1
  }

  /** The body of Dequeue: an unknown key or an empty buffer yields `none`
      (the value-initialised Value) and changes nothing; otherwise the head
      is popped and returned. */
  function DequeueStep<K(==,!new), V, C>(s: State<K, V, C>, k: K, none: V): (r: (State<K, V, C>, V))
    ensures Buffer(s, k) == [] ==> r == (s, none)
    ensures Buffer(s, k) != [] ==>
              && r.1 == Buffer(s, k)[0]
              && Buffer(r.0, k) == Buffer(s, k)[1..]
              && r.0.log == s.log + [Dequeued(k, r.1)]
    ensures r.0.queues.Keys == s.queues.Keys && ConsumerOf(r.0, k) == ConsumerOf(s, k)
    ensures SameElsewhere(s, r.0, k)
    ensures r.0.pending == s.pending && r.0.accepted == s.accepted
  {
    if k !in s.queues then (s, none)
    else
      var q := s.queues[k];
      if q.values == [] then (s, none)
      else
        var head := q.values[0];
        (s.(queues := s.queues[k := q.(values := q.values[1..])], log := s.log + [Dequeued(k, head)]), head)
  }

  /** Running task t on the worker. */
  function RunTask<K(==,!new), V, C>(s: State<K, V, C>, t: Task<K, V, C>): State<K, V, C> {
    match t
    case SubscribeTask(k, c) => SubscribeStep(s, k, c)
    case UnsubscribeTask(k) => UnsubscribeStep(s, k)
    case EnqueueTask(k, v) => EnqueueStep(s, k, v)
    case Deliver(k) => ConsumeStep(s, k)
  }

  /** One turn of the worker: take the oldest pending task and run it.
      Tasks already pending keep their order, and one turn posts at most
      one new task. */
  function NextState<K(==,!new), V, C>(s: State<K, V, C>): (r: State<K, V, C>)
    requires s.pending != []
    ensures s.pending[1..] <= r.pending && |r.pending| <= |s.pending|
  {
    RunTask(s.(pending := s.pending[1..]), s.pending[0])
  }

  /** n turns of the worker: the n oldest pending tasks run, in order; what
      was pending behind them is still pending, in the same order. */
  function RunMany<K(==,!new), V, C>(s: State<K, V, C>, n: nat): (r: State<K, V, C>)
    requires n <= |s.pending|
    ensures s.pending[n..] <= r.pending
  {
    if n == 0 then s
    else
      var p := RunMany(s, n - 1);
      assert s.pending[n - 1..] <= p.pending;
      assert p.pending != [];
      var r := NextState(p);
      assert s.pending[n..] == s.pending[n - 1..][1..];
      assert s.pending[n - 1..][1..] <= p.pending[1..];
      r
  }

  /** Dequeue as a synchronous round trip: its body runs after every task
      posted before it (and before the tasks those post), and the caller
      receives its result. */
  function DequeueRoundTrip<K(==,!new), V, C>(s: State<K, V, C>, k: K, none: V): (r: (State<K, V, C>, V))
    ensures var p := RunMany(s, |s.pending|);
            && r.0.pending == p.pending && r.0.accepted == p.accepted
            && (Buffer(p, k) == [] ==> r == (p, none))
            && (Buffer(p, k) != [] ==>
                  r.1 == Buffer(p, k)[0] && Buffer(r.0, k) == Buffer(p, k)[1..]
                  && r.0.log == p.log + [Dequeued(k, r.1)])
  {
    DequeueStep(RunMany(s, |s.pending|), k, none)
  }

  /** No buffer ever exceeds MaxCapacity. */
  ghost predicate Bounded<K(!new), V, C>(s: State<K, V, C>) {
    forall k :: |Buffer(s, k)| <= MaxCapacity
  }

  /** Every key that has a consumer and buffered values, except possibly k,
      has a Deliver task pending. */
  ghost predicate ScheduledExcept<K(!new), V, C>(s: State<K, V, C>, k: K) {
    forall j | j != k && ConsumerOf(s, j).Some? && Buffer(s, j) != [] :: Deliver(j) in s.pending
  }

  /** Every key that has a consumer and buffered values has a Deliver task pending. */
  ghost predicate DeliveryScheduled<K(!new), V, C>(s: State<K, V, C>) {
    forall j | ConsumerOf(s, j).Some? && Buffer(s, j) != [] :: Deliver(j) in s.pending
  }

  /** Per key, what left the processor followed by what is still buffered is
      exactly what was accepted, in order: FIFO, nothing lost, nothing twice. */
  ghost predicate Conserved<K(!new), V, C>(s: State<K, V, C>) {
    forall k :: ValuesFor(s.log, k) + Buffer(s, k) == AcceptedFor(s.accepted, k)
  }

  ghost predicate Inv<K(!new), V, C>(s: State<K, V, C>) {
    Bounded(s) && DeliveryScheduled(s) && Conserved(s)
  }

  /** The values the log records as handed to consumer c for key k, in order. */
  ghost function DeliveredTo<K, V, C>(log: seq<Event<K, V, C>>, c: C, k: K): seq<V> {
    if log == [] then []
    else
      var e := log[0];
      (if e.Delivered? && e.consumer == c && e.key == k then [e.value] else []) + DeliveredTo(log[1..], c, k)
  }

  /** Every event the log records for key k is a hand-over to consumer c:
      nothing for k went to another consumer or to a Dequeue caller. */
  ghost predicate OnlyDeliveredTo<K, V, C>(log: seq<Event<K, V, C>>, c: C, k: K) {
    forall i | 0 <= i < |log| && log[i].key == k :: log[i].Delivered? && log[i].consumer == c
  }

  /** Task t does not try to register a consumer other than c for key k. */
  ghost predicate Admits<K, V, C>(t: Task<K, V, C>, k: K, c: C) {
    t.SubscribeTask? && t.key == k && t.consumer.Some? ==> t.consumer.value == c
  }

  /** Key k is served by consumer c alone: no other consumer is registered
      for k or about to be, and everything that left k went to c. */
  ghost predicate ServedBy<K(!new), V, C>(s: State<K, V, C>, k: K, c: C) {
    && (ConsumerOf(s, k).Some? ==> ConsumerOf(s, k).value == c)
    && (forall i | 0 <= i < |s.pending| :: Admits(s.pending[i], k, c))
    && OnlyDeliveredTo(s.log, c, k)
  }
}
