/** What the per-key queue state machine guarantees: the capacity bound, the
    delivery obligation behind "drained implies delivered", per-key FIFO
    exactly-once output, isolation between keys, first-subscriber-wins, and
    the enqueue/dequeue behaviour the repository's own tests rely on. */
module QueueProperties {
  import opened QueueState

  // ---------------------------------------------------------------------
  // Per-key projections of the observation records

  lemma {:induction false} ValuesForAppend<K, V, C>(log: seq<Event<K, V, C>>, e: Event<K, V, C>, k: K)
    ensures ValuesFor(log + [e], k) == ValuesFor(log, k) + (if e.key == k then [e.value] else [])
  {
    if log != [] {
      assert (log + [e])[1..] == log[1..] + [e];
      ValuesForAppend(log[1..], e, k);
    }
  }

  lemma {:induction false} AcceptedForAppend<K, V>(items: seq<Item<K, V>>, i: Item<K, V>, k: K)
    ensures AcceptedFor(items + [i], k) == AcceptedFor(items, k) + (if i.key == k then [i.value] else [])
  {
    if items != [] {
      assert (items + [i])[1..] == items[1..] + [i];
      AcceptedForAppend(items[1..], i, k);
    }
  }

  lemma PrefixKeeps<T>(a: seq<T>, b: seq<T>, x: T)
    requires a <= b && x in a
    ensures x in b
  {
    var i :| 0 <= i < |a| && a[i] == x;
    assert b[i] == x;
  }

  // ---------------------------------------------------------------------
  // The invariant Inv: bounded buffers, delivery scheduled, conservation

  lemma InitialInv<K(!new), V, C>()
    ensures Inv(Initial<K, V, C>())
  {
  }

  /** Posting a task keeps the invariant: the tasks already pending stay. */
  lemma PostKeepsInv<K(!new), V, C>(s: State<K, V, C>, t: Task<K, V, C>)
    requires Inv(s)
    ensures Inv(Post(s, t))
  {
    forall j ensures Buffer(Post(s, t), j) == Buffer(s, j) {
    }
    forall j | ConsumerOf(s, j).Some? && Buffer(s, j) != []
      ensures Deliver(j) in Post(s, t).pending
    {
      PrefixKeeps(s.pending, s.pending + [t], Deliver(j));
    }
  }

  /** consume(k) re-establishes the delivery obligation for k itself. */
  lemma ConsumeStepKeepsInv<K(!new), V, C>(s: State<K, V, C>, k: K)
    requires Bounded(s) && Conserved(s) && ScheduledExcept(s, k)
    ensures Inv(ConsumeStep(s, k))
  {
    var r := ConsumeStep(s, k);
    if ConsumerOf(s, k).Some? && Buffer(s, k) != [] {
      var b := Buffer(s, k);
      var e := Delivered(ConsumerOf(s, k).value, k, b[0]);
      forall j ensures |Buffer(r, j)| <= MaxCapacity {
        assert |Buffer(s, j)| <= MaxCapacity;
      }
      forall j ensures ValuesFor(r.log, j) + Buffer(r, j) == AcceptedFor(r.accepted, j) {
        ValuesForAppend(s.log, e, j);
        assert ValuesFor(s.log, j) + Buffer(s, j) == AcceptedFor(s.accepted, j);
        if j == k {
          assert [b[0]] + b[1..] == b;
        }
      }
      forall j | ConsumerOf(r, j).Some? && Buffer(r, j) != []
        ensures Deliver(j) in r.pending
      {
        if j != k {
          PrefixKeeps(s.pending, r.pending, Deliver(j));
        }
      }
    }
  }

  lemma SubscribeStepKeepsInv<K(!new), V, C>(s: State<K, V, C>, k: K, c: Option<C>)
    requires Inv(s)
    ensures Inv(SubscribeStep(s, k, c))
  {
    if ConsumerOf(s, k).None? {
      var s1 := s.(queues := s.queues[k := Entry(s, k).(consumer := c)]);
      forall j ensures Buffer(s1, j) == Buffer(s, j) && (j != k ==> ConsumerOf(s1, j) == ConsumerOf(s, j)) {
      }
      ConsumeStepKeepsInv(s1, k);
    }
  }

  lemma UnsubscribeStepKeepsInv<K(!new), V, C>(s: State<K, V, C>, k: K)
    requires Inv(s)
    ensures Inv(UnsubscribeStep(s, k))
  {
    var r := UnsubscribeStep(s, k);
    forall j ensures Buffer(r, j) == Buffer(s, j) {
    }
  }

  lemma EnqueueStepKeepsInv<K(!new), V, C>(s: State<K, V, C>, k: K, v: V)
    requires Inv(s)
    ensures Inv(EnqueueStep(s, k, v))
  {
    var r := EnqueueStep(s, k, v);
    if |Buffer(s, k)| < MaxCapacity {
      forall j ensures |Buffer(r, j)| <= MaxCapacity {
        assert |Buffer(s, j)| <= MaxCapacity;
      }
      forall j ensures ValuesFor(r.log, j) + Buffer(r, j) == AcceptedFor(r.accepted, j) {
        AcceptedForAppend(s.accepted, Item(k, v), j);
        assert ValuesFor(s.log, j) + Buffer(s, j) == AcceptedFor(s.accepted, j);
        if Buffer(s, k) == [] && ConsumerOf(s, k).Some? {
          ValuesForAppend(s.log, Delivered(ConsumerOf(s, k).value, k, v), j);
        }
      }
      forall j | ConsumerOf(r, j).Some? && Buffer(r, j) != []
        ensures Deliver(j) in r.pending
      {
        assert ConsumerOf(s, j).Some? && Buffer(s, j) != [];
      }
    }
  }

  lemma InTail<T>(p: seq<T>, x: T)
    requires x in p && p[0] != x
    ensures x in p[1..]
  {
    var i :| 0 <= i < |p| && p[i] == x;
    assert p[1..][i - 1] == x;
  }

  /** Once the oldest task is taken off the queue, the invariant still holds
      except that the delivery obligation of a Deliver task's key is now the
      task's own. */
  lemma TakeOldestTask<K(!new), V, C>(s: State<K, V, C>)
    requires Inv(s) && s.pending != []
    ensures var s0 := s.(pending := s.pending[1..]);
            && Bounded(s0) && Conserved(s0) && ScheduledExcept(s0, s.pending[0].key)
            && (!s.pending[0].Deliver? ==> DeliveryScheduled(s0))
  {
    var t := s.pending[0];
    var s0 := s.(pending := s.pending[1..]);
    forall j ensures Buffer(s0, j) == Buffer(s, j) && ConsumerOf(s0, j) == ConsumerOf(s, j) {
    }
    forall j | t != Deliver(j) && ConsumerOf(s0, j).Some? && Buffer(s0, j) != []
      ensures Deliver(j) in s0.pending
    {
      InTail(s.pending, Deliver(j));
    }
  }

  /** One turn of the worker keeps the invariant, whatever task it runs. */
  lemma NextStateKeepsInv<K(!new), V, C>(s: State<K, V, C>)
    requires Inv(s) && s.pending != []
    ensures Inv(NextState(s))
  {
    TakeOldestTask(s);
    var s0 := s.(pending := s.pending[1..]);
    match s.pending[0]
    case SubscribeTask(k, c) => SubscribeStepKeepsInv(s0, k, c);
    case UnsubscribeTask(k) => UnsubscribeStepKeepsInv(s0, k);
    case EnqueueTask(k, v) => EnqueueStepKeepsInv(s0, k, v);
    case Deliver(k) => ConsumeStepKeepsInv(s0, k);
  }

  lemma {:induction false} RunManyKeepsInv<K(!new), V, C>(s: State<K, V, C>, n: nat)
    requires Inv(s) && n <= |s.pending|
    ensures Inv(RunMany(s, n))
  {
    if n > 0 {
      RunManyKeepsInv(s, n - 1);
      NextStateKeepsInv(RunMany(s, n - 1));
    }
  }

  lemma DequeueStepKeepsInv<K(!new), V, C>(s: State<K, V, C>, k: K, none: V)
    requires Inv(s)
    ensures Inv(DequeueStep(s, k, none).0)
  {
    var r := DequeueStep(s, k, none).0;
    if Buffer(s, k) != [] {
      var b := Buffer(s, k);
      forall j ensures |Buffer(r, j)| <= MaxCapacity {
        assert |Buffer(s, j)| <= MaxCapacity;
      }
      forall j ensures ValuesFor(r.log, j) + Buffer(r, j) == AcceptedFor(r.accepted, j) {
        ValuesForAppend(s.log, Dequeued(k, b[0]), j);
        assert ValuesFor(s.log, j) + Buffer(s, j) == AcceptedFor(s.accepted, j);
        if j == k {
          assert [b[0]] + b[1..] == b;
        }
      }
      forall j | ConsumerOf(r, j).Some? && Buffer(r, j) != []
        ensures Deliver(j) in r.pending
      {
        assert ConsumerOf(s, j).Some? && Buffer(s, j) != [];
      }
    }
  }

  lemma DequeueRoundTripKeepsInv<K(!new), V, C>(s: State<K, V, C>, k: K, none: V)
    requires Inv(s)
    ensures Inv(DequeueRoundTrip(s, k, none).0)
  {
    RunManyKeepsInv(s, |s.pending|);
    DequeueStepKeepsInv(RunMany(s, |s.pending|), k, none);
  }

  /** Once the worker has nothing left to run, every key with a registered
      consumer has an empty buffer, and that key's output is exactly what
      was accepted for it, in order. */
  lemma DrainedMeansDelivered<K(!new), V, C>(s: State<K, V, C>)
    requires Inv(s) && s.pending == []
    ensures forall k | ConsumerOf(s, k).Some? ::
              Buffer(s, k) == [] && ValuesFor(s.log, k) == AcceptedFor(s.accepted, k)
  {
  }

  // ---------------------------------------------------------------------
  // A key served by one consumer: that consumer receives every accepted value

  lemma {:induction false} OnlyDeliveredToValues<K, V, C>(log: seq<Event<K, V, C>>, c: C, k: K)
    requires OnlyDeliveredTo(log, c, k)
    ensures ValuesFor(log, k) == DeliveredTo(log, c, k)
  {
    if log != [] {
      assert OnlyDeliveredTo(log[1..], c, k) by {
        forall i | 0 <= i < |log[1..]| && log[1..][i].key == k
          ensures log[1..][i].Delivered? && log[1..][i].consumer == c
        {
          assert log[1..][i] == log[i + 1];
        }
      }
      OnlyDeliveredToValues(log[1..], c, k);
    }
  }

  lemma OnlyDeliveredToAppend<K, V, C>(log: seq<Event<K, V, C>>, e: Event<K, V, C>, c: C, k: K)
    requires OnlyDeliveredTo(log, c, k) && (e.key == k ==> e.Delivered? && e.consumer == c)
    ensures OnlyDeliveredTo(log + [e], c, k)
  {
    forall i | 0 <= i < |log + [e]| && (log + [e])[i].key == k
      ensures (log + [e])[i].Delivered? && (log + [e])[i].consumer == c
    {
      if i < |log| {
        assert (log + [e])[i] == log[i];
      }
    }
  }

  lemma AdmitsAppend<K, V, C>(p: seq<Task<K, V, C>>, extra: seq<Task<K, V, C>>, k: K, c: C)
    requires forall i | 0 <= i < |p| :: Admits(p[i], k, c)
    requires forall i | 0 <= i < |extra| :: Admits(extra[i], k, c)
    ensures forall i | 0 <= i < |p + extra| :: Admits((p + extra)[i], k, c)
  {
    forall i | 0 <= i < |p + extra| ensures Admits((p + extra)[i], k, c) {
      if i < |p| {
        assert (p + extra)[i] == p[i];
      } else {
        assert (p + extra)[i] == extra[i - |p|];
      }
    }
  }

  /** The empty processor is served by any consumer. */
  lemma InitialServedBy<K(!new), V, C>(k: K, c: C)
    ensures ServedBy(Initial<K, V, C>(), k, c)
  {
  }

  /** Posting a task that does not subscribe a rival keeps k served by c. */
  lemma PostServedBy<K(!new), V, C>(s: State<K, V, C>, t: Task<K, V, C>, k: K, c: C)
    requires ServedBy(s, k, c) && Admits(t, k, c)
    ensures ServedBy(Post(s, t), k, c)
  {
    AdmitsAppend(s.pending, [t], k, c);
  }

  /** consume(j) hands k's values only to k's registered consumer, c. */
  lemma ConsumeStepServedBy<K(!new), V, C>(s: State<K, V, C>, j: K, k: K, c: C)
    requires ServedBy(s, k, c)
    ensures ServedBy(ConsumeStep(s, j), k, c)
  {
    var r := ConsumeStep(s, j);
    if ConsumerOf(s, j).Some? && Buffer(s, j) != [] {
      OnlyDeliveredToAppend(s.log, Delivered(ConsumerOf(s, j).value, j, Buffer(s, j)[0]), c, k);
      AdmitsAppend(s.pending, if Buffer(r, j) == [] then [] else [Deliver(j)], k, c);
    }
  }

  lemma SubscribeStepServedBy<K(!new), V, C>(s: State<K, V, C>, j: K, x: Option<C>, k: K, c: C)
    requires ServedBy(s, k, c) && Admits(Task<K, V, C>.SubscribeTask(j, x), k, c)
    ensures ServedBy(SubscribeStep(s, j, x), k, c)
  {
    var q := Entry(s, j);
    if q.consumer.None? {
      var s1 := s.(queues := s.queues[j := q.(consumer := x)]);
      assert ConsumerOf(s1, k) == if j == k then x else ConsumerOf(s, k);
      ConsumeStepServedBy(s1, j, k, c);
    }
  }

  lemma UnsubscribeStepServedBy<K(!new), V, C>(s: State<K, V, C>, j: K, k: K, c: C)
    requires ServedBy(s, k, c)
    ensures ServedBy(UnsubscribeStep(s, j), k, c)
  {
    assert ConsumerOf(UnsubscribeStep(s, j), k) == if j == k then None else ConsumerOf(s, k);
  }

  lemma EnqueueStepServedBy<K(!new), V, C>(s: State<K, V, C>, j: K, v: V, k: K, c: C)
    requires ServedBy(s, k, c)
    ensures ServedBy(EnqueueStep(s, j, v), k, c)
  {
    var q := Entry(s, j);
    var s0 := s.(queues := s.queues[j := q]);
    if |q.values| < MaxCapacity {
      var s1 := s0.(queues := s0.queues[j := q.(values := q.values + [v])],
                    accepted := s.accepted + [Item(j, v)]);
      assert ConsumerOf(s1, k) == ConsumerOf(s, k);
      ConsumeStepServedBy(s1, j, k, c);
    }
  }

  /** A worker turn keeps k served by c. */
  lemma NextStateServedBy<K(!new), V, C>(s: State<K, V, C>, k: K, c: C)
    requires ServedBy(s, k, c) && s.pending != []
    ensures ServedBy(NextState(s), k, c)
  {
    var s0 := s.(pending := s.pending[1..]);
    forall i | 0 <= i < |s0.pending| ensures Admits(s0.pending[i], k, c) {
      assert s0.pending[i] == s.pending[i + 1];
    }
    assert Admits(s.pending[0], k, c);
    match s.pending[0]
    case SubscribeTask(j, x) => SubscribeStepServedBy(s0, j, x, k, c);
    case UnsubscribeTask(j) => UnsubscribeStepServedBy(s0, j, k, c);
    case EnqueueTask(j, v) => EnqueueStepServedBy(s0, j, v, k, c);
    case Deliver(j) => ConsumeStepServedBy(s0, j, k, c);
  }

  lemma {:induction false} RunManyServedBy<K(!new), V, C>(s: State<K, V, C>, n: nat, k: K, c: C)
    requires ServedBy(s, k, c) && n <= |s.pending|
    ensures ServedBy(RunMany(s, n), k, c)
  {
    if n > 0 {
      RunManyServedBy(s, n - 1, k, c);
      NextStateServedBy(RunMany(s, n - 1), k, c);
    }
  }

  /** A Dequeue round trip on another key keeps k served by c. */
  lemma DequeueRoundTripServedBy<K(!new), V, C>(s: State<K, V, C>, j: K, none: V, k: K, c: C)
    requires ServedBy(s, k, c) && j != k
    ensures ServedBy(DequeueRoundTrip(s, j, none).0, k, c)
  {
    var p := RunMany(s, |s.pending|);
    RunManyServedBy(s, |s.pending|, k, c);
    if Buffer(p, j) != [] {
      OnlyDeliveredToAppend(p.log, Dequeued(j, Buffer(p, j)[0]), c, k);
    }
  }

  /** Once the worker has nothing left to run, a key served by c alone with c
      registered has an empty buffer, and c has received every value
      accepted for that key, each once, in order. */
  lemma DrainedDeliveredToConsumer<K(!new), V, C>(s: State<K, V, C>, k: K, c: C)
    requires Inv(s) && s.pending == [] && ServedBy(s, k, c) && ConsumerOf(s, k) == Some(c)
    ensures Buffer(s, k) == [] && DeliveredTo(s.log, c, k) == AcceptedFor(s.accepted, k)
  {
    DrainedMeansDelivered(s);
    OnlyDeliveredToValues(s.log, c, k);
  }

  // ---------------------------------------------------------------------
  // Isolation between keys

  /** A turn of the worker running a task for one key leaves every other
      key's entry, output and accepted values as they were. */
  lemma NextStateIsolated<K(!new), V, C>(s: State<K, V, C>, j: K)
    requires s.pending != [] && j != s.pending[0].key
    ensures var r := NextState(s);
            && (j in r.queues <==> j in s.queues) && Entry(r, j) == Entry(s, j)
            && ValuesFor(r.log, j) == ValuesFor(s.log, j)
            && AcceptedFor(r.accepted, j) == AcceptedFor(s.accepted, j)
  {
    var t := s.pending[0];
    var s0 := s.(pending := s.pending[1..]);
    var k := t.key;
    match t
    case SubscribeTask(_, c) =>
      if ConsumerOf(s0, k).None? && c.Some? && Buffer(s0, k) != [] {
        ValuesForAppend(s.log, Delivered(c.value, k, Buffer(s0, k)[0]), j);
      }
    case UnsubscribeTask(_) =>
    case EnqueueTask(_, v) =>
      if |Buffer(s0, k)| < MaxCapacity {
        AcceptedForAppend(s.accepted, Item(k, v), j);
        if Buffer(s0, k) == [] && ConsumerOf(s0, k).Some? {
          ValuesForAppend(s.log, Delivered(ConsumerOf(s0, k).value, k, v), j);
        }
      }
    case Deliver(_) =>
      if ConsumerOf(s0, k).Some? && Buffer(s0, k) != [] {
        ValuesForAppend(s.log, Delivered(ConsumerOf(s0, k).value, k, Buffer(s0, k)[0]), j);
      }
  }

  /** The worker's i-th turn runs the i-th task that was pending at the start. */
  lemma RunManyHead<K(!new), V, C>(s: State<K, V, C>, i: nat)
    requires i < |s.pending|
    ensures RunMany(s, i).pending != [] && RunMany(s, i).pending[0] == s.pending[i]
  {
    assert s.pending[i..] <= RunMany(s, i).pending;
    assert s.pending[i..][0] == s.pending[i];
  }

  /** Running tasks none of which is for key j leaves j untouched. */
  lemma {:induction false} RunManyIsolated<K(!new), V, C>(s: State<K, V, C>, n: nat, j: K)
    requires n <= |s.pending|
    requires forall i | 0 <= i < n :: s.pending[i].key != j
    ensures var r := RunMany(s, n);
            && (j in r.queues <==> j in s.queues) && Entry(r, j) == Entry(s, j)
            && ValuesFor(r.log, j) == ValuesFor(s.log, j)
            && AcceptedFor(r.accepted, j) == AcceptedFor(s.accepted, j)
  {
    if n > 0 {
      RunManyIsolated(s, n - 1, j);
      RunManyHead(s, n - 1);
      NextStateIsolated(RunMany(s, n - 1), j);
    }
  }

  /** Dequeue on one key leaves every other key's entry and output alone. */
  lemma DequeueStepIsolated<K(!new), V, C>(s: State<K, V, C>, k: K, none: V, j: K)
    requires j != k
    ensures var r := DequeueStep(s, k, none).0;
            && (j in r.queues <==> j in s.queues) && Entry(r, j) == Entry(s, j)
            && ValuesFor(r.log, j) == ValuesFor(s.log, j)
  {
    if Buffer(s, k) != [] {
      ValuesForAppend(s.log, Dequeued(k, Buffer(s, k)[0]), j);
    }
  }

  // ---------------------------------------------------------------------
  // Subscribe and Unsubscribe

  /** Subscribe(k, c1) then Subscribe(k, c2) on a key without a consumer
      leaves c1 registered; the second call changes nothing. */
  lemma FirstSubscriberWins<K(!new), V, C>(s: State<K, V, C>, k: K, c1: C, c2: C)
    requires ConsumerOf(s, k).None?
    ensures var s1 := SubscribeStep(s, k, Some(c1));
            ConsumerOf(s1, k) == Some(c1) && SubscribeStep(s1, k, Some(c2)) == s1
  {
  }

  /** Unsubscribe on a key with an empty buffer forgets the key entirely:
      afterwards it is as if the key had never been seen. */
  lemma UnsubscribeIdleForgets<K(!new), V, C>(s: State<K, V, C>, k: K, none: V)
    requires Buffer(s, k) == []
    ensures var r := UnsubscribeStep(s, k);
            r.queues == s.queues - {k} && DequeueStep(r, k, none) == (r, none)
  {
  }

  /** On a fresh processor, Subscribe(k, c) then Enqueue(k, v) delivers v to
      c exactly once and leaves nothing buffered or pending; a following
      Unsubscribe(k) forgets the key. */
  lemma SubscribeEnqueueUnsubscribeScenario<K(!new), V, C>(k: K, c: C, v: V)
    ensures var s := Initial<K, V, C>().(pending := [SubscribeTask(k, Some(c)), EnqueueTask(k, v)]);
            var r := RunMany(s, 2);
            && r.log == [Delivered(c, k, v)] && r.pending == []
            && Buffer(r, k) == [] && ConsumerOf(r, k) == Some(c)
            && UnsubscribeStep(r, k).queues == map[]
  {
    var s := Initial<K, V, C>().(pending := [SubscribeTask(k, Some(c)), EnqueueTask(k, v)]);
    assert RunMany(s, 0) == s;
    var s1 := RunMany(s, 1);
    assert s1 == NextState(s);
    assert s1.queues == map[k := Queue([], Some(c))] && s1.pending == [EnqueueTask(k, v)];
    var r := RunMany(s, 2);
    assert r == NextState(s1);
    assert r.queues == map[k := Queue([], Some(c))];
  }

  // ---------------------------------------------------------------------
  // Enqueue followed by Dequeue, with no consumer

  /** The first MaxCapacity values of xs: what a buffer keeps of them. */
  function Capped<V>(xs: seq<V>): (r: seq<V>)
    ensures |r| <= MaxCapacity && r <= xs
    ensures |xs| <= MaxCapacity ==> r == xs
    ensures |xs| > MaxCapacity ==> r == xs[..MaxCapacity]
  {
    if |xs| <= MaxCapacity then xs else xs[..MaxCapacity]
  }

  /** The tasks posted by calling Enqueue(k, v) for each v of vs in turn. */
  function EnqueueTasks<K, V, C>(k: K, vs: seq<V>): (ts: seq<Task<K, V, C>>)
    ensures |ts| == |vs|
    ensures forall i | 0 <= i < |vs| :: ts[i] == EnqueueTask(k, vs[i])
  {
    if vs == [] then [] else EnqueueTasks(k, vs[..|vs| - 1]) + [EnqueueTask(k, vs[|vs| - 1])]
  }

  /** Appending one value to a list and then capping equals capping, then
      appending the value if there is still room. */
  lemma CappedSnoc<V>(b: seq<V>, x: V)
    ensures Capped(b + [x]) == if |Capped(b)| < MaxCapacity then Capped(b) + [x] else Capped(b)
  {
    if |b| >= MaxCapacity {
      assert (b + [x])[..MaxCapacity] == b[..MaxCapacity];
    }
  }

  /** Capping b + vs, built one value at a time: the last value of vs is
      kept exactly when the capped prefix before it still has room. */
  lemma CappedAppendLast<V>(b: seq<V>, vs: seq<V>)
    requires vs != []
    ensures var front := Capped(b + vs[..|vs| - 1]);
            Capped(b + vs) == if |front| < MaxCapacity then front + [vs[|vs| - 1]] else front
  {
    var front, last := vs[..|vs| - 1], vs[|vs| - 1];
    assert b + vs == (b + front) + [last] by {
      assert vs == front + [last];
    }
    CappedSnoc(b + front, last);
  }

  /** Dropping the first element of a suffix of xs leaves the next suffix. */
  lemma DropFirst<T>(xs: seq<T>, i: nat)
    requires i < |xs|
    ensures xs[i..][1..] == xs[i + 1..]
  {
  }

  /** A worker turn that runs Enqueue(k, v) for a key without a consumer
      appends v while there is room and logs nothing. */
  lemma EnqueueTurnWithoutConsumer<K(!new), V, C>(p: State<K, V, C>, k: K, v: V)
    requires p.pending != [] && p.pending[0] == EnqueueTask(k, v) && ConsumerOf(p, k).None?
    ensures var r := NextState(p);
            && Buffer(r, k) == (if |Buffer(p, k)| < MaxCapacity then Buffer(p, k) + [v] else Buffer(p, k))
            && ConsumerOf(r, k).None? && r.pending == p.pending[1..] && r.log == p.log
  {
    var p0 := p.(pending := p.pending[1..]);
    assert NextState(p) == EnqueueStep(p0, k, v);
    assert Buffer(p0, k) == Buffer(p, k) && ConsumerOf(p0, k) == ConsumerOf(p, k);
  }

  /** The n-th worker turn runs on the state the first n - 1 turns left. */
  lemma RunManyLast<K(!new), V, C>(s: State<K, V, C>, n: nat)
    requires 0 < n <= |s.pending|
    ensures RunMany(s, n - 1).pending != [] && RunMany(s, n) == NextState(RunMany(s, n - 1))
  {
  }

  /** The inductive step of RunEnqueues: if the first |vs| - 1 Enqueue tasks
      left the kept part of the buffer followed by those values, the next
      Enqueue task leaves the kept part of the buffer followed by all of vs. */
  lemma RunOneEnqueue<K(!new), V, C>(s: State<K, V, C>, k: K, vs: seq<V>)
    requires 0 < |vs| <= |s.pending| && s.pending[|vs| - 1] == EnqueueTask(k, vs[|vs| - 1])
    requires var p := RunMany(s, |vs| - 1);
             && Buffer(p, k) == Capped(Buffer(s, k) + vs[..|vs| - 1])
             && ConsumerOf(p, k).None? && p.pending == s.pending[|vs| - 1..] && p.log == s.log
    ensures var r := RunMany(s, |vs|);
            && Buffer(r, k) == Capped(Buffer(s, k) + vs)
            && ConsumerOf(r, k).None? && r.pending == s.pending[|vs|..] && r.log == s.log
  {
    var n, b := |vs|, Buffer(s, k);
    var front, last := vs[..n - 1], vs[n - 1];
    var p := RunMany(s, n - 1);
    RunManyLast(s, n);
    EnqueueTurnWithoutConsumer(p, k, last);
    CappedAppendLast(b, vs);
    DropFirst(s.pending, n - 1);
  }

  /** Running the Enqueue tasks for a key without a consumer appends the
      values, keeping the first MaxCapacity and dropping the rest. */
  lemma {:induction false} RunEnqueues<K(!new), V, C>(s: State<K, V, C>, k: K, vs: seq<V>)
    requires |vs| <= |s.pending|
    requires forall i | 0 <= i < |vs| :: s.pending[i] == EnqueueTask(k, vs[i])
    requires ConsumerOf(s, k).None? && |Buffer(s, k)| <= MaxCapacity
    ensures var r := RunMany(s, |vs|);
            && Buffer(r, k) == Capped(Buffer(s, k) + vs)
            && ConsumerOf(r, k).None? && r.pending == s.pending[|vs|..] && r.log == s.log
  {
    if vs != [] {
      RunEnqueues(s, k, vs[..|vs| - 1]);
      RunOneEnqueue(s, k, vs);
    }
  }

  /** n copies of x. */
  function Repeat<T>(x: T, n: nat): (r: seq<T>)
    ensures |r| == n && forall i | 0 <= i < n :: r[i] == x
  {
    if n == 0 then [] else [x] + Repeat(x, n - 1)
  }

  /** n successive Dequeue calls on key k: the final state and the values returned. */
  function DequeueMany<K(==,!new), V, C>(s: State<K, V, C>, k: K, none: V, n: nat): (State<K, V, C>, seq<V>)
    decreases n
  {
    if n == 0 then (s, [])
    else
      var (s1, v) := DequeueRoundTrip(s, k, none);
      var (s2, vs) := DequeueMany(s1, k, none, n - 1);
      (s2, [v] + vs)
  }

  /** With nothing pending, successive Dequeues return the buffer front to
      back and then the empty value. */
  lemma {:induction false} DequeueManyIdle<K(!new), V, C>(s: State<K, V, C>, k: K, none: V, n: nat)
    requires s.pending == []
    ensures var b := Buffer(s, k);
            DequeueMany(s, k, none, n).1 == if n <= |b| then b[..n] else b + Repeat(none, n - |b|)
    decreases n
  {
    if n > 0 {
      var b := Buffer(s, k);
      var (s1, v) := DequeueStep(s, k, none);
      assert DequeueRoundTrip(s, k, none) == (s1, v);
      DequeueManyIdle(s1, k, none, n - 1);
      if b != [] {
        assert [b[0]] + b[1..] == b;
        if n <= |b| {
          assert [b[0]] + b[1..][..n - 1] == b[..n];
        }
      }
    }
  }

  /** The first Dequeue runs every pending task; when they leave nothing
      pending, Dequeues from the state before them and from the state after
      them return the same values. */
  lemma DequeueManyAfterRun<K(!new), V, C>(s: State<K, V, C>, k: K, none: V, n: nat)
    requires n > 0 && RunMany(s, |s.pending|).pending == []
    ensures DequeueMany(s, k, none, n) == DequeueMany(RunMany(s, |s.pending|), k, none, n)
  {
    var d := RunMany(s, |s.pending|);
    assert RunMany(d, |d.pending|) == d;
    assert DequeueRoundTrip(s, k, none) == DequeueRoundTrip(d, k, none);
  }

  /** A fresh processor that was sent Enqueue(k, v) for each v of vs and no
      other call: successive Dequeues return the first MaxCapacity values of
      vs in order, then the empty value. */
  lemma EnqueueThenDrain<K(!new), V, C>(k: K, vs: seq<V>, none: V)
    ensures var s := Initial<K, V, C>().(pending := EnqueueTasks(k, vs));
            var kept := Capped(vs);
            DequeueMany(s, k, none, |kept| + 1).1 == kept + [none]
  {
    var s := Initial<K, V, C>().(pending := EnqueueTasks(k, vs));
    assert Buffer(s, k) == [];
    RunEnqueues(s, k, vs);
    var d := RunMany(s, |vs|);
    assert Buffer(d, k) == Capped(vs);
    var n := |Capped(vs)| + 1;
    DequeueManyAfterRun(s, k, none, n);
    DequeueManyIdle(d, k, none, n);
    assert Repeat(none, 1) == [none];
  }

  /** The capacity test: 1001 Enqueues on a fresh processor, then 1000
      Dequeues return the first 1000 values and the next returns the empty
      value. */
  lemma CapacityScenario<K(!new), V, C>(k: K, vs: seq<V>, none: V)
    requires |vs| == MaxCapacity + 1
    ensures var s := Initial<K, V, C>().(pending := EnqueueTasks(k, vs));
            DequeueMany(s, k, none, MaxCapacity + 1).1 == vs[..MaxCapacity] + [none]
  {
    EnqueueThenDrain<K, V, C>(k, vs, none);
  }

  /** The enqueue/dequeue test: Dequeue on a fresh processor returns the
      empty value and creates no entry; after Enqueue(k, v), Dequeue returns
      v and then the empty value. */
  lemma EnqueueDequeueScenario<K(!new), V, C>(k: K, v: V, none: V)
    ensures DequeueRoundTrip(Initial<K, V, C>(), k, none) == (Initial(), none)
    ensures var s := Initial<K, V, C>().(pending := [EnqueueTask(k, v)]);
            DequeueMany(s, k, none, 2).1 == [v, none]
  {
    EnqueueThenDrain<K, V, C>(k, [v], none);
    assert EnqueueTasks<K, V, C>(k, [v]) == [EnqueueTask(k, v)];
  }
}
