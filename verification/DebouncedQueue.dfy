/** internal/tracker/debounced_queue.go: debounce timers in front of a client-go work queue. */
module DebouncedQueues {
  import opened Types

  /** The client-go queue, known by its documented contract. `waiting` are its delayed Adds. */
  datatype WorkQueue = WorkQueue(pending: seq<NamespacedName>, dirty: set<NamespacedName>, processing: set<NamespacedName>,
                                 waiting: set<NamespacedName>, shuttingDown: bool)
  {
    function Add(k: NamespacedName): WorkQueue {
      if shuttingDown || k in dirty then this
      else this.(dirty := dirty + {k}, pending := if k in processing then pending else pending + [k])
    }

    function Get(): WorkQueue
      requires pending != []
    {
      this.(pending := pending[1..], processing := processing + {pending[0]}, dirty := dirty - {pending[0]})
    }

    function Done(k: NamespacedName): WorkQueue {
      this.(processing := processing - {k}, pending := if k in dirty then pending + [k] else pending)
    }
  }

  const NO_WORK := WorkQueue([], {}, {}, {}, false)

  /** The state between two lock sections.

      A key of `timers` has an entry in debounceTimers; the value says whether that timer is armed.
      `loose` holds armed timers whose entry was deleted. A fired timer's callback is in `started`
      until it has called queue.Add, in `enqueued` until it has deleted the map entry, and in
      `finishing` until its deferred Done.

      `owed` and `rearmed` are history: the keys added and not handed to the work queue since, and
      how often an Add found a timer that had fired but still had its entry. */
  datatype Queue = Queue(
    timers: map<NamespacedName, bool>,
    loose: multiset<NamespacedName>,
    started: multiset<NamespacedName>,
    enqueued: multiset<NamespacedName>,
    finishing: multiset<NamespacedName>,
    wg: int,
    stopped: bool,
    work: WorkQueue,
    owed: set<NamespacedName>,
    rearmed: nat)

  const IDLE := Queue(map[], multiset{}, multiset{}, multiset{}, multiset{}, 0, false, NO_WORK, {}, 0)

  function Added(q: Queue, k: NamespacedName): Queue {
    if q.stopped then q
    else if k in q.timers then
      q.(timers := q.timers[k := true], owed := q.owed + {k}, rearmed := q.rearmed + if q.timers[k] then 0 else 1)
    else
      q.(timers := q.timers[k := true], owed := q.owed + {k}, wg := q.wg + 1)
  }

  function Retried(q: Queue, k: NamespacedName): Queue {
    if q.stopped then q else q.(work := q.work.(waiting := q.work.waiting + {k}))
  }

  function Stopped(q: Queue): Queue {
    q.(timers := map[], stopped := true, work := q.work.(shuttingDown := true))
  }

  /** The steps no caller takes: timers, their callbacks and elapsed retries. */
  datatype Step =
    | Fire(key: NamespacedName)
    | FireLoose(key: NamespacedName)
    | CallbackAdd(key: NamespacedName)
    | CallbackDelete(key: NamespacedName)
    | CallbackDone(key: NamespacedName)
    | RetryDue(key: NamespacedName)

  predicate Enabled(q: Queue, s: Step) {
    match s
    case Fire(k) => k in q.timers && q.timers[k]
    case FireLoose(k) => k in q.loose
    case CallbackAdd(k) => k in q.started
    case CallbackDelete(k) => k in q.enqueued
    case CallbackDone(k) => k in q.finishing
    case RetryDue(k) => k in q.work.waiting
  }

  /** The callback up to and including queue.Add, which it skips after shutdown. */
  function HandedOver(q: Queue, k: NamespacedName): Queue {
    if q.stopped then q.(started := q.started - multiset{k}, finishing := q.finishing + multiset{k})
    else q.(started := q.started - multiset{k}, enqueued := q.enqueued + multiset{k}, work := q.work.Add(k), owed := q.owed - {k})
  }

  /** The callback's critical section. It deletes whatever entry the key has by then. */
  function EntryDeleted(q: Queue, k: NamespacedName): Queue {
    q.(enqueued := q.enqueued - multiset{k}, finishing := q.finishing + multiset{k}, timers := q.timers - {k},
       loose := if k in q.timers && q.timers[k] then q.loose + multiset{k} else q.loose)
  }

  function Next(q: Queue, s: Step): Queue
    requires Enabled(q, s)
  {
    match s
    case Fire(k) => q.(timers := q.timers[k := false], started := q.started + multiset{k})
    case FireLoose(k) => q.(loose := q.loose - multiset{k}, started := q.started + multiset{k})
    case CallbackAdd(k) => HandedOver(q, k)
    case CallbackDelete(k) => EntryDeleted(q, k)
    case CallbackDone(k) => q.(finishing := q.finishing - multiset{k}, wg := q.wg - 1)
    case RetryDue(k) => q.(work := q.work.(waiting := q.work.waiting - {k}).Add(k))
  }

  function Fired(q: Queue): set<NamespacedName> {
    set k | k in q.timers && !q.timers[k]
  }

  function Arm(timers: map<NamespacedName, bool>, ks: set<NamespacedName>): map<NamespacedName, bool> {
    timers + map k | k in ks :: true
  }

  /** Adding several keys in one critical section, in any order. */
  function AddedAll(q: Queue, ks: set<NamespacedName>): Queue {
    if q.stopped then q
    else q.(timers := Arm(q.timers, ks),
            owed := q.owed + ks,
            wg := q.wg + |ks - q.timers.Keys|,
            rearmed := q.rearmed + |ks * Fired(q)|)
  }

  lemma AddedNone(q: Queue)
    ensures AddedAll(q, {}) == q
  {
    assert Arm(q.timers, {}) == q.timers;
    assert q.owed + {} == q.owed;
    assert {} * Fired(q) == {};
  }

  lemma OneMoreOutside(ks: set<NamespacedName>, k: NamespacedName, t: set<NamespacedName>)
    requires k !in ks
    ensures |(ks + {k}) - t| == |ks - t| + if k in t then 0 else 1
    ensures |(ks + {k}) * t| == |ks * t| + if k in t then 1 else 0
  {
    if k in t {
      assert (ks + {k}) - t == ks - t;
      assert (ks + {k}) * t == ks * t + {k};
    } else {
      assert (ks + {k}) - t == (ks - t) + {k};
      assert (ks + {k}) * t == ks * t;
    }
  }

  lemma ArmOneMore(timers: map<NamespacedName, bool>, ks: set<NamespacedName>, k: NamespacedName)
    requires k !in ks
    ensures Arm(timers, ks + {k}) == Arm(timers, ks)[k := true]
    ensures k in Arm(timers, ks) <==> k in timers
    ensures k in timers ==> Arm(timers, ks)[k] == timers[k]
  {
  }

  lemma AddedCounters(q: Queue, ks: set<NamespacedName>, k: NamespacedName)
    requires k !in ks && !q.stopped
    ensures var p, r := AddedAll(q, ks), AddedAll(q, ks + {k});
            && r.wg == p.wg + (if k in p.timers then 0 else 1)
            && r.rearmed == p.rearmed + (if k in p.timers && !p.timers[k] then 1 else 0)
  {
    ArmOneMore(q.timers, ks, k);
    OneMoreOutside(ks, k, q.timers.Keys);
    OneMoreOutside(ks, k, Fired(q));
  }

  lemma AddedShape(q: Queue, ks: set<NamespacedName>, k: NamespacedName)
    requires k !in ks && !q.stopped
    ensures var p, r := AddedAll(q, ks), AddedAll(q, ks + {k});
            r == p.(timers := p.timers[k := true], owed := p.owed + {k}, wg := r.wg, rearmed := r.rearmed)
  {
    ArmOneMore(q.timers, ks, k);
    UnionOneMore(q.owed, ks, k);
  }

  lemma UnionOneMore<T>(a: set<T>, b: set<T>, x: T)
    ensures a + (b + {x}) == (a + b) + {x}
  {
  }

  lemma AddedOneMore(q: Queue, ks: set<NamespacedName>, k: NamespacedName)
    requires k !in ks
    ensures AddedAll(q, ks + {k}) == Added(AddedAll(q, ks), k)
  {
    if !q.stopped {
      AddedCounters(q, ks, k);
      AddedShape(q, ks, k);
    }
  }

  lemma AddedJust(q: Queue, k: NamespacedName)
    ensures AddedAll(q, {k}) == Added(q, k)
  {
    var none: set<NamespacedName> := {};
    assert none + {k} == {k} by { }
    AddedOneMore(q, none, k);
    AddedNone(q);
  }

  lemma AddedIfIn(q: Queue, k: NamespacedName, ks: set<NamespacedName>)
    ensures AddedAll(q, {k} * ks) == if k in ks then Added(q, k) else q
  {
    if k in ks {
      assert {k} * ks == {k};
      AddedJust(q, k);
    } else {
      assert {k} * ks == {};
      AddedNone(q);
    }
  }

  /** What the rate limiter of the work queue remembers: the retries of each key since it was forgotten. */
  class RateLimiter {
    var failures: multiset<NamespacedName>

    constructor ()
      ensures failures == multiset{}
    {
      failures := multiset{};
    }

    method When(item: NamespacedName)
      modifies this
      ensures failures == old(failures) + multiset{item}
    {
      failures := failures + multiset{item};
    }

    method Forget(item: NamespacedName)
      modifies this
      ensures failures == old(failures)[item := 0]
    {
      failures := failures[item := 0];
    }
  }

  class DebouncedQueue {
    var debounceTimers: map<NamespacedName, bool>
    var debounceWg: int
    var stopCh: bool
    var queue: WorkQueue
    ghost var loose: multiset<NamespacedName>
    ghost var started: multiset<NamespacedName>
    ghost var enqueued: multiset<NamespacedName>
    ghost var finishing: multiset<NamespacedName>
    ghost var owed: set<NamespacedName>
    ghost var rearmed: nat
    const rateLimiter: RateLimiter

    ghost function Value(): Queue
      reads this
    {
      Queue(debounceTimers, loose, started, enqueued, finishing, debounceWg, stopCh,
            queue, owed, rearmed)
    }

    constructor ()
      ensures Value() == IDLE && fresh(rateLimiter) && rateLimiter.failures == multiset{}
    {
      debounceTimers, debounceWg, stopCh, queue := map[], 0, false, NO_WORK;
      loose, started, enqueued, finishing, owed, rearmed := multiset{}, multiset{}, multiset{}, multiset{}, {}, 0;
      rateLimiter := new RateLimiter();
    }

    method Add(item: NamespacedName)
      modifies this
      ensures Value() == Added(old(Value()), item)
    {
      if stopCh {
        return;
      }
      if item in debounceTimers {
        rearmed := rearmed + if debounceTimers[item] then 0 else 1;
        debounceTimers := debounceTimers[item := true];
      } else {
        debounceWg := debounceWg + 1;
        debounceTimers := debounceTimers[item := true];
      }
      owed := owed + {item};
    }

    /** The runtime fires an armed timer of the map and starts its callback. */
    method FireTimer(item: NamespacedName)
      requires item in debounceTimers && debounceTimers[item]
      modifies this
      ensures Value() == Next(old(Value()), Fire(item))
    {
      debounceTimers := debounceTimers[item := false];
      started := started + multiset{item};
    }

    /** The same for an armed timer whose entry was deleted. */
    method FireLooseTimer(item: NamespacedName)
      requires item in loose
      modifies this
      ensures Value() == Next(old(Value()), FireLoose(item))
    {
      loose, started := loose - multiset{item}, started + multiset{item};
    }

    method CallbackEnqueues(item: NamespacedName)
      requires item in started
      modifies this
      ensures Value() == HandedOver(old(Value()), item)
    {
      ghost var after := HandedOver(Value(), item);
      if !stopCh {
        queue := queue.Add(item);
      }
      started, enqueued, finishing, owed := after.started, after.enqueued, after.finishing, after.owed;
    }

    method CallbackDeletes(item: NamespacedName)
      requires item in enqueued
      modifies this
      ensures Value() == EntryDeleted(old(Value()), item)
    {
      ghost var after := EntryDeleted(Value(), item);
      debounceTimers := debounceTimers - {item};
      enqueued, finishing, loose := after.enqueued, after.finishing, after.loose;
    }

    /** The callback's deferred debounceWg.Done. */
    method CallbackReturns(item: NamespacedName)
      requires item in finishing
      modifies this
      ensures Value() == Next(old(Value()), CallbackDone(item))
    {
      finishing := finishing - multiset{item};
      debounceWg := debounceWg - 1;
    }

    /** Get once it does not block: the work queue has an item or shuts down. It hands out what is
        left before it reports the shutdown. */
    method Get() returns (item: NamespacedName, shutdown: bool)
      requires queue.pending != [] || queue.shuttingDown
      modifies this`queue
      ensures shutdown <==> old(queue.pending) == []
      ensures shutdown ==> Value() == old(Value())
      ensures !shutdown ==> item == old(queue.pending)[0] && Value() == old(Value()).(work := old(queue).Get())
    {
      if queue.pending == [] {
        return NamespacedName("", ""), true;
      }
      item, shutdown := queue.pending[0], false;
      queue := queue.Get();
    }

    method Done(item: NamespacedName)
      modifies this`queue
      ensures Value() == old(Value()).(work := old(queue).Done(item))
    {
      queue := queue.Done(item);
    }

    method AddWithRetry(item: NamespacedName)
      modifies this`queue, rateLimiter
      ensures Value() == Retried(old(Value()), item)
      ensures rateLimiter.failures == if stopCh then old(rateLimiter.failures) else old(rateLimiter.failures) + multiset{item}
    {
      if stopCh {
        return;
      }
      rateLimiter.When(item);
      queue := queue.(waiting := queue.waiting + {item});
    }

    /** The work queue adds a delayed key once its backoff is over. */
    method RetryElapses(item: NamespacedName)
      requires item in queue.waiting
      modifies this`queue
      ensures Value() == Next(old(Value()), RetryDue(item))
    {
      queue := queue.(waiting := queue.waiting - {item}).Add(item);
    }

    method ForgetRetries(item: NamespacedName)
      modifies rateLimiter
      ensures rateLimiter.failures == old(rateLimiter.failures)[item := 0]
    {
      rateLimiter.Forget(item);
    }

    method ShutDown()
      modifies this
      ensures Value() == Stopped(old(Value()))
    {
      debounceTimers := map[];
      stopCh := true;
      queue := queue.(shuttingDown := true);
    }
  }
}
