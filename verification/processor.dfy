/** MultiQueueProcessor<Key, Value> as a class whose fields the operations
    update in place: the map of per-key queues, the single worker's FIFO of
    pending tasks, and the log of values handed to consumers or returned by
    Dequeue.  Each method is proved against the state machine of QueueState;
    the public operations and the worker's turns also keep its invariant. */
module Processor {
  import opened QueueState
  import opened QueueProperties

  class MultiQueueProcessor<K(==,!new), V, C> {
    var queues: map<K, Queue<V, C>>
    var pending: seq<Task<K, V, C>>
    var log: seq<Event<K, V, C>>
    /** The values Enqueue has accepted, in order (proof bookkeeping only). */
    ghost var accepted: seq<Item<K, V>>
    /** The value-initialised Value that Dequeue returns when there is nothing to pop. */
    const emptyValue: V

    ghost function Abs(): State<K, V, C>
      reads this
    {
      State(queues, pending, log, accepted)
    }

    ghost predicate Valid()
      reads this
    {
      Inv(Abs())
    }

    constructor (emptyValue: V)
      ensures Valid() && Abs() == Initial() && this.emptyValue == emptyValue
    {
      queues, pending, log := map[], [], [];
      accepted := [];
      this.emptyValue := emptyValue;
      InitialInv<K, V, C>();
    }

    /** Posts the Subscribe body; the caller does not wait for it. */
    method Subscribe(k: K, consumer: Option<C>)
      requires Valid()
      modifies this
      ensures Valid() && Abs() == Post(old(Abs()), SubscribeTask(k, consumer))
    {
      PostKeepsInv(Abs(), SubscribeTask(k, consumer));
      pending := pending + [SubscribeTask(k, consumer)];
    }

    /** Posts the Unsubscribe body; the caller does not wait for it. */
    method Unsubscribe(k: K)
      requires Valid()
      modifies this
      ensures Valid() && Abs() == Post(old(Abs()), UnsubscribeTask(k))
    {
      PostKeepsInv(Abs(), UnsubscribeTask(k));
      pending := pending + [UnsubscribeTask(k)];
    }

    /** Posts the Enqueue body; the caller does not wait for it. */
    method Enqueue(k: K, v: V)
      requires Valid()
      modifies this
      ensures Valid() && Abs() == Post(old(Abs()), EnqueueTask(k, v))
    {
      PostKeepsInv(Abs(), EnqueueTask(k, v));
      pending := pending + [EnqueueTask(k, v)];
    }

    /** Synchronous Dequeue: the worker first runs every task posted before
        this call, then runs the Dequeue body, whose result the caller gets. */
    method Dequeue(k: K) returns (v: V)
      requires Valid()
      modifies this
      ensures Valid() && (Abs(), v) == DequeueRoundTrip(old(Abs()), k, emptyValue)
    {
      RunTasks(|pending|);
      DequeueStepKeepsInv(Abs(), k, emptyValue);
      v := TakeHead(k);
    }

    /** The worker's loop, for n turns. */
    method RunTasks(n: nat)
      requires Valid() && n <= |pending|
      modifies this
      ensures Valid() && Abs() == RunMany(old(Abs()), n)
    {
      var i := 0;
      while i < n
        invariant i <= n
        invariant Valid() && Abs() == RunMany(old(Abs()), i)
      {
        assert old(Abs()).pending[i..] <= pending;
        Step();
        i := i + 1;
      }
    }

    /** One turn of the worker: run the oldest pending task. */
    method Step()
      requires Valid() && pending != []
      modifies this
      ensures Valid() && Abs() == NextState(old(Abs()))
    {
      NextStateKeepsInv(Abs());
      var t := pending[0];
      pending := pending[1..];
      match t {
        case SubscribeTask(k, c) => RunSubscribe(k, c);
        case UnsubscribeTask(k) => RunUnsubscribe(k);
        case EnqueueTask(k, v) => RunEnqueue(k, v);
        case Deliver(k) => Consume(k);
      }
    }

    /** The body Subscribe posts. */
    method RunSubscribe(k: K, c: Option<C>)
      modifies this
      ensures Abs() == SubscribeStep(old(Abs()), k, c)
    {
      var q := if k in queues then queues[k] else Queue([], None);
      queues := queues[k := q];
      if q.consumer.None? {
        queues := queues[k := q.(consumer := c)];
        Consume(k);
      }
    }

    /** The body Unsubscribe posts. */
    method RunUnsubscribe(k: K)
      modifies this
      ensures Abs() == UnsubscribeStep(old(Abs()), k)
    {
      if k !in queues {
        return;
      }
      var q := queues[k].(consumer := None);
      if q.values == [] {
        queues := queues - {k};
      } else {
        queues := queues[k := q];
      }
    }

    /** The body Enqueue posts. */
    method RunEnqueue(k: K, v: V)
      modifies this
      ensures Abs() == EnqueueStep(old(Abs()), k, v)
    {
      var q := if k in queues then queues[k] else Queue([], None);
      queues := queues[k := q];
      if |q.values| >= MaxCapacity {
        return;
      }
      queues := queues[k := q.(values := q.values + [v])];
      accepted := accepted + [Item(k, v)];
      if |queues[k].values| == 1 {
        Consume(k);
      }
    }

    /** The body of Dequeue. */
    method TakeHead(k: K) returns (v: V)
      modifies this
      ensures (Abs(), v) == DequeueStep(old(Abs()), k, emptyValue)
    {
      if k !in queues {
        return emptyValue;
      }
      var q := queues[k];
      if q.values == [] {
        return emptyValue;
      }
      v := q.values[0];
      queues := queues[k := q.(values := q.values[1..])];
      log := log + [Dequeued(k, v)];
    }

    /** consume(k): hand the head to k's consumer, pop it, and re-post
        delivery for k while values remain. */
    method Consume(k: K)
      modifies this
      ensures Abs() == ConsumeStep(old(Abs()), k)
    {
      if k !in queues {
        return;
      }
      var q := queues[k];
      if q.consumer.None? || q.values == [] {
        return;
      }
      log := log + [Delivered(q.consumer.value, k, q.values[0])];
      queues := queues[k := q.(values := q.values[1..])];
      if queues[k].values != [] {
        pending := pending + [Deliver(k)];
      }
    }
  }
}
