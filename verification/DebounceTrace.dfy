/** The debounce in time: when each Add reaches the work queue, with callbacks taken as atomic. */
module DebounceTrace {
  import opened Types
  import opened DebouncedQueues
  import B = Barrier

  /** A call of Add, or the moment its timer hands the key to the work queue. */
  datatype Event = Event(key: NamespacedName, time: int)

  ghost predicate InOrder(adds: seq<Event>) {
    forall i, j | 0 <= i < j < |adds| :: adds[i].time <= adds[j].time
  }

  /** No later Add of the key comes before this one's delay is over. */
  ghost predicate Kept(adds: seq<Event>, d: nat, i: nat)
    requires i < |adds|
  {
    forall j | i < j < |adds| && adds[j].key == adds[i].key :: adds[j].time >= adds[i].time + d
  }

  function HandOver(a: Event, d: nat): Event {
    Event(a.key, a.time + d)
  }

  /** How many of the first n Adds are kept and hand over as e says: their key, a delay after them. */
  ghost function HandOvers(adds: seq<Event>, d: nat, n: nat, e: Event): nat
    requires n <= |adds|
  {
    if n == 0 then 0
    else HandOvers(adds, d, n - 1, e) + if Kept(adds, d, n - 1) && e == HandOver(adds[n - 1], d) then 1 else 0
  }

  ghost predicate Matches(all: multiset<Event>, adds: seq<Event>, d: nat) {
    forall e :: all[e] == HandOvers(adds, d, |adds|, e)
  }

  type Deadlines = map<NamespacedName, int>

  function Due(timers: Deadlines): set<Event> {
    set k | k in timers :: Event(k, timers[k])
  }

  /** What has been handed over and what the armed timers will hand over. */
  function Total(fired: multiset<Event>, timers: Deadlines): multiset<Event> {
    fired + multiset(Due(timers))
  }

  lemma FiringKeepsTotal(fired: multiset<Event>, timers: Deadlines, k: NamespacedName)
    requires k in timers
    ensures Total(fired + multiset{Event(k, timers[k])}, timers - {k}) == Total(fired, timers)
  {
    var e, rest := Event(k, timers[k]), timers - {k};
    forall x ensures x in Due(timers) <==> x in Due(rest) || x == e {
      InDue(timers, x);
      InDue(rest, x);
    }
    InDue(rest, e);
    assert Due(timers) == Due(rest) + {e};
  }

  lemma InDue(timers: Deadlines, x: Event)
    ensures x in Due(timers) <==> x.key in timers && timers[x.key] == x.time
  {
  }

  lemma {:induction false} LaterHandOvers(adds: seq<Event>, a: Event, d: nat, n: nat, e: Event)
    requires n <= |adds|
    ensures HandOvers(adds + [a], d, n, e) == if e.key == a.key && e.time > a.time then 0 else HandOvers(adds, d, n, e)
  {
    if n > 0 {
      LaterHandOvers(adds, a, d, n - 1, e);
      KeptWithOneMore(adds, a, d, n - 1);
      assert (adds + [a])[n - 1] == adds[n - 1];
    }
  }

  lemma KeptWithOneMore(adds: seq<Event>, a: Event, d: nat, i: nat)
    requires i < |adds|
    ensures Kept(adds + [a], d, i) <==> Kept(adds, d, i) && (a.key == adds[i].key ==> a.time >= adds[i].time + d)
  {
    var more := adds + [a];
    assert more[i] == adds[i] && more[|adds|] == a;
    assert forall j | i < j < |adds| :: more[j] == adds[j];
  }

  /** One more Add: the key's armed timer, whose deadline is still to come, is replaced. */
  lemma ResetMatches(adds: seq<Event>, a: Event, d: nat, fired: multiset<Event>, timers: Deadlines)
    requires Matches(Total(fired, timers), adds, d)
    requires forall e | e in fired :: e.time <= a.time
    requires forall k | k in timers :: timers[k] > a.time
    ensures Matches(Total(fired, timers[a.key := a.time + d]), adds + [a], d)
  {
    var reset := timers[a.key := a.time + d];
    forall e: Event ensures Total(fired, reset)[e] == HandOvers(adds + [a], d, |adds| + 1, e) {
      LaterHandOvers(adds, a, d, |adds|, e);
      LastIsKept(adds, a, d, e);
      InDue(timers, e);
      InDue(reset, e);
      assert Total(fired, timers)[e] == HandOvers(adds, d, |adds|, e);
    }
  }

  lemma LastIsKept(adds: seq<Event>, a: Event, d: nat, e: Event)
    ensures HandOvers(adds + [a], d, |adds| + 1, e) == HandOvers(adds + [a], d, |adds|, e) + if e == HandOver(a, d) then 1 else 0
  {
    assert Kept(adds + [a], d, |adds|);
  }

  // The timed queue in the transition system of the queue.

  lemma AddRestores(q: Queue, q1: Queue, k: NamespacedName)
    requires !q.stopped && q1 == q.(timers := q.timers[k := false], started := q.started + multiset{k})
    ensures Next(q1, CallbackAdd(k))
         == q.(timers := q.timers[k := false], enqueued := q.enqueued + multiset{k}, work := q.work.Add(k), owed := q.owed - {k})
  {
    assert q1.started - multiset{k} == q.started;
  }

  lemma DeleteRestores(q: Queue, q2: Queue, k: NamespacedName)
    requires q2 == q.(timers := q.timers[k := false], enqueued := q.enqueued + multiset{k}, work := q.work.Add(k), owed := q.owed - {k})
    ensures Next(q2, CallbackDelete(k))
         == q.(timers := q.timers - {k}, finishing := q.finishing + multiset{k}, work := q.work.Add(k), owed := q.owed - {k})
  {
    assert q2.enqueued - multiset{k} == q.enqueued;
    assert q.timers[k := false] - {k} == q.timers - {k};
  }

  /** The entry goes, its Done is paid, and the key reaches the work queue. */
  function Handing(q: Queue, k: NamespacedName): Queue {
    q.(timers := q.timers - {k}, work := q.work.Add(k), owed := q.owed - {k}, wg := q.wg - 1)
  }

  /** An atomic firing in the transition system of the queue. */
  lemma AtomicFiring(q: Queue, k: NamespacedName)
    requires !q.stopped && k in q.timers && q.timers[k]
    ensures var q1 := Next(q, Fire(k));
            Enabled(q1, CallbackAdd(k)) &&
            var q2 := Next(q1, CallbackAdd(k));
            Enabled(q2, CallbackDelete(k)) &&
            var q3 := Next(q2, CallbackDelete(k));
            Enabled(q3, CallbackDone(k)) &&
            var q4 := Next(q3, CallbackDone(k));
            q4 == Handing(q, k)
  {
    var q1 := Next(q, Fire(k));
    AddRestores(q, q1, k);
    var q2 := Next(q1, CallbackAdd(k));
    DeleteRestores(q, q2, k);
    var q3 := Next(q2, CallbackDelete(k));
    assert q3.finishing - multiset{k} == q.finishing;
  }

  function Firing(k: NamespacedName): seq<B.Action> {
    [B.Internal(Fire(k))] + [B.Internal(CallbackAdd(k))] + [B.Internal(CallbackDelete(k))] + [B.Internal(CallbackDone(k))]
  }

  /** The keys that a run hands to the work queue, in order. */
  function Handed(run: seq<B.Action>): seq<NamespacedName> {
    if run == [] then []
    else
      Handed(run[..|run| - 1]) + match run[|run| - 1] case Internal(CallbackAdd(k)) => [k] case _ => []
  }

  /** The sets of keys that a run adds, in order. */
  function Requested(run: seq<B.Action>): seq<set<NamespacedName>> {
    if run == [] then []
    else
      Requested(run[..|run| - 1]) + match run[|run| - 1] case Adds(ks) => [ks] case _ => []
  }

  function Requests(adds: seq<Event>): seq<set<NamespacedName>> {
    seq(|adds|, i requires 0 <= i < |adds| => {adds[i].key})
  }

  function Keys(log: seq<Event>): seq<NamespacedName> {
    seq(|log|, i requires 0 <= i < |log| => log[i].key)
  }

  /** Deadlines and what has been handed over. */
  datatype Timed = Timed(timers: Deadlines, log: seq<Event>) {
    function Add(k: NamespacedName, deadline: int): Timed {
      Timed(timers[k := deadline], log)
    }

    /** What has been handed over and what the armed timers will hand over. */
    function All(): multiset<Event> {
      Total(multiset(log), timers)
    }

    function Fired(k: NamespacedName): Timed {
      if k in timers then Timed(timers - {k}, log + [Event(k, timers[k])]) else this
    }
  }

  function FiredAll(t: Timed, order: seq<NamespacedName>): Timed {
    if order == [] then t else FiredAll(t, order[..|order| - 1]).Fired(order[|order| - 1])
  }

  lemma FiredOneMore(t: Timed, order: seq<NamespacedName>, k: NamespacedName)
    ensures FiredAll(t, order + [k]) == FiredAll(t, order).Fired(k)
  {
    assert (order + [k])[..|order|] == order;
  }

  function AllArmed(timers: Deadlines): map<NamespacedName, bool> {
    map k | k in timers :: true
  }

  /** The state between two firings: the entries are those with a deadline, each armed and paid for. */
  predicate Between(q: Queue, timers: Deadlines) {
    && q.timers == AllArmed(timers) && q.wg == |timers| && q.owed == timers.Keys && q.rearmed == 0 && !q.stopped
    && q.loose == multiset{} && q.started == multiset{} && q.enqueued == multiset{} && q.finishing == multiset{}
  }

  /** The run leads there and hands over what the log says. */
  ghost predicate Refines(run: seq<B.Action>, t: Timed) {
    B.Run(IDLE, run).Some? && Between(B.Run(IDLE, run).value, t.timers) && Handed(run) == Keys(t.log)
  }

  lemma NothingRefines()
    ensures Refines([], Timed(map[], [])) && Requested([]) == Requests([])
  {
  }

  lemma AddStaysBetween(q: Queue, timers: Deadlines, k: NamespacedName, t: int)
    requires Between(q, timers)
    ensures Between(Added(q, k), timers[k := t])
  {
    var more := timers[k := t];
    assert more.Keys == timers.Keys + {k};
    assert |timers| == |timers.Keys| && |more| == |more.Keys|;
  }

  lemma FiringStaysBetween(q: Queue, timers: Deadlines, k: NamespacedName)
    requires Between(q, timers) && k in timers
    ensures Between(Handing(q, k), timers - {k})
  {
    var less := timers - {k};
    assert timers.Keys == less.Keys + {k};
    assert |timers| == |timers.Keys| && |less| == |less.Keys|;
  }

  lemma HandedOneMore(run: seq<B.Action>, a: B.Action)
    ensures Handed(run + [a]) == Handed(run) + match a case Internal(CallbackAdd(k)) => [k] case _ => []
    ensures Requested(run + [a]) == Requested(run) + match a case Adds(ks) => [ks] case _ => []
  {
    assert (run + [a])[..|run|] == run;
  }

  lemma AddRefines(run: seq<B.Action>, t: Timed, k: NamespacedName, deadline: int)
    requires Refines(run, t)
    ensures Refines(run + [B.Adds({k})], t.Add(k, deadline)) && Requested(run + [B.Adds({k})]) == Requested(run) + [{k}]
  {
    var q := B.Run(IDLE, run).value;
    B.RunOneMore(IDLE, run, B.Adds({k}));
    AddedJust(q, k);
    AddStaysBetween(q, t.timers, k, deadline);
    HandedOneMore(run, B.Adds({k}));
  }

  lemma Regroup<T>(run: seq<T>, a: T, b: T, c: T, d: T)
    ensures run + [a] + [b] + [c] + [d] == run + ([a] + [b] + [c] + [d])
  {
  }

  lemma FiringHands(run: seq<B.Action>, k: NamespacedName)
    ensures Handed(run + Firing(k)) == Handed(run) + [k] && Requested(run + Firing(k)) == Requested(run)
  {
    var a, b, c, d := B.Internal(Fire(k)), B.Internal(CallbackAdd(k)), B.Internal(CallbackDelete(k)), B.Internal(CallbackDone(k));
    HandedOneMore(run, a);
    HandedOneMore(run + [a], b);
    HandedOneMore(run + [a] + [b], c);
    HandedOneMore(run + [a] + [b] + [c], d);
    Regroup(run, a, b, c, d);
  }

  lemma StepRuns(run: seq<B.Action>, q: Queue, step: Step)
    requires B.Run(IDLE, run) == Some(q) && Enabled(q, step)
    ensures B.Run(IDLE, run + [B.Internal(step)]) == Some(Next(q, step))
  {
    B.RunOneMore(IDLE, run, B.Internal(step));
  }

  lemma FiringRuns(run: seq<B.Action>, q: Queue, k: NamespacedName)
    requires B.Run(IDLE, run) == Some(q) && !q.stopped && k in q.timers && q.timers[k]
    ensures B.Run(IDLE, run + Firing(k)) == Some(Handing(q, k))
  {
    var a, b, c, d := B.Internal(Fire(k)), B.Internal(CallbackAdd(k)), B.Internal(CallbackDelete(k)), B.Internal(CallbackDone(k));
    AtomicFiring(q, k);
    var q1 := Next(q, Fire(k));
    StepRuns(run, q, Fire(k));
    var q2 := Next(q1, CallbackAdd(k));
    StepRuns(run + [a], q1, CallbackAdd(k));
    var q3 := Next(q2, CallbackDelete(k));
    StepRuns(run + [a] + [b], q2, CallbackDelete(k));
    StepRuns(run + [a] + [b] + [c], q3, CallbackDone(k));
    Regroup(run, a, b, c, d);
  }

  lemma KeysOneMore(log: seq<Event>, e: Event)
    ensures Keys(log + [e]) == Keys(log) + [e.key]
  {
  }

  lemma FiringRefines(run: seq<B.Action>, t: Timed, k: NamespacedName)
    requires Refines(run, t) && k in t.timers
    ensures Refines(run + Firing(k), t.Fired(k)) && Requested(run + Firing(k)) == Requested(run)
  {
    FiringRuns(run, B.Run(IDLE, run).value, k);
    FiringHands(run, k);
    FiringStaysBetween(B.Run(IDLE, run).value, t.timers, k);
    KeysOneMore(t.log, Event(k, t.timers[k]));
  }

  lemma {:induction false} FiringsRefine(run: seq<B.Action>, t: Timed, order: seq<NamespacedName>) returns (longer: seq<B.Action>)
    requires Refines(run, t)
    ensures Refines(longer, FiredAll(t, order)) && Requested(longer) == Requested(run)
    decreases |order|
  {
    longer := run;
    if order != [] {
      longer := FiringsRefine(run, t, order[..|order| - 1]);
      var u, k := FiredAll(t, order[..|order| - 1]), order[|order| - 1];
      if k in u.timers {
        FiringRefines(longer, u, k);
        longer := longer + Firing(k);
      }
    }
  }

  /** After some Adds: what has been and will be handed over matches them, and a run with these Adds leads there. */
  ghost predicate Plays(t: Timed, adds: seq<Event>, d: nat, run: seq<B.Action>) {
    Matches(t.All(), adds, d) && Refines(run, t) && Requested(run) == Requests(adds)
  }

  lemma AddMatches(adds: seq<Event>, a: Event, d: nat, t: Timed)
    requires Matches(t.All(), adds, d)
    requires forall e | e in t.log :: e.time <= a.time
    requires forall k | k in t.timers :: t.timers[k] > a.time
    ensures Matches(t.Add(a.key, a.time + d).All(), adds + [a], d)
  {
    ResetMatches(adds, a, d, multiset(t.log), t.timers);
  }

  lemma NothingArmed(log: seq<Event>)
    ensures Timed(map[], log).All() == multiset(log)
  {
    assert Due(map[]) == {};
  }

  /** How one turn leads from a timed queue to the next: timers fire, then an Add comes. */
  ghost predicate Turns(t: Timed, order: seq<NamespacedName>, a: Event, d: nat, next: Timed) {
    next == FiredAll(t, order).Add(a.key, a.time + d)
  }

  predicate LoggedBy(log: seq<Event>, now: int) {
    forall e | e in log :: e.time <= now
  }

  lemma FiringKeepsAll(t: Timed, k: NamespacedName)
    requires k in t.timers
    ensures t.Fired(k).All() == t.All()
  {
    FiringKeepsTotal(multiset(t.log), t.timers, k);
    assert multiset(t.log + [Event(k, t.timers[k])]) == multiset(t.log) + multiset{Event(k, t.timers[k])};
  }

  /** Lets the timers due by some moment fire, in any order. */
  method Elapse(t: Timed, now: int) returns (r: Timed, ghost order: seq<NamespacedName>)
    requires LoggedBy(t.log, now)
    ensures r.All() == t.All() && LoggedBy(r.log, now)
    ensures forall k :: k in r.timers <==> k in t.timers && t.timers[k] > now
    ensures forall k | k in r.timers :: r.timers[k] == t.timers[k]
    ensures r == FiredAll(t, order)
  {
    r, order := t, [];
    var due := set k | k in t.timers && t.timers[k] <= now;
    while due != {}
      invariant forall k :: k in due <==> k in r.timers && r.timers[k] <= now
      invariant forall k | k in r.timers :: k in t.timers && r.timers[k] == t.timers[k]
      invariant forall k | k in t.timers && t.timers[k] > now :: k in r.timers
      invariant r.All() == t.All() && LoggedBy(r.log, now)
      invariant r == FiredAll(t, order)
      decreases due
    {
      var k :| k in due;
      FiringKeepsAll(r, k);
      FiredOneMore(t, order, k);
      r, order := r.Fired(k), order + [k];
      due := due - {k};
    }
  }

  /** Time passes up to an Add, which then takes place. */
  method Take(t: Timed, a: Event, d: nat, ghost before: seq<Event>) returns (r: Timed, ghost order: seq<NamespacedName>)
    requires Matches(t.All(), before, d) && LoggedBy(t.log, a.time)
    ensures Matches(r.All(), before + [a], d) && LoggedBy(r.log, a.time)
    ensures Turns(t, order, a, d, r)
  {
    r, order := Elapse(t, a.time);
    AddMatches(before, a, d, r);
    r := r.Add(a.key, a.time + d);
  }

  /** Waits for every timer. */
  method Settle(t: Timed) returns (log: seq<Event>, ghost order: seq<NamespacedName>)
    ensures multiset(log) == t.All() && Timed(map[], log) == FiredAll(t, order)
  {
    var last := Latest(t.timers, t.log);
    var r;
    r, order := Elapse(t, last);
    log := r.log;
    assert r.timers == map[];
    NothingArmed(log);
  }

  lemma RequestsOneMore(adds: seq<Event>, a: Event)
    ensures Requests(adds + [a]) == Requests(adds) + [{a.key}]
  {
  }

  lemma RunOn(run: seq<B.Action>, t: Timed, order: seq<NamespacedName>, a: Event, d: nat, next: Timed) returns (longer: seq<B.Action>)
    requires Refines(run, t) && Turns(t, order, a, d, next)
    ensures Refines(longer, next) && Requested(longer) == Requested(run) + [{a.key}]
  {
    var fired := FiringsRefine(run, t, order);
    AddRefines(fired, FiredAll(t, order), a.key, a.time + d);
    longer := fired + [B.Adds({a.key})];
  }

  lemma TakeOneMore<T>(s: seq<T>, n: nat)
    requires n < |s|
    ensures s[..n + 1] == s[..n] + [s[n]]
  {
  }

  lemma TakeAll<T>(s: seq<T>)
    ensures s[..0] == [] && s[..|s|] == s
  {
  }

  lemma PlaysOn(t: Timed, before: seq<Event>, a: Event, d: nat, run: seq<B.Action>, order: seq<NamespacedName>, next: Timed)
    returns (longer: seq<B.Action>)
    requires Plays(t, before, d, run) && Turns(t, order, a, d, next) && Matches(next.All(), before + [a], d)
    ensures Plays(next, before + [a], d, longer)
  {
    longer := RunOn(run, t, order, a, d, next);
    RequestsOneMore(before, a);
  }

  lemma NothingPlays(d: nat)
    ensures Plays(Timed(map[], []), [], d, [])
  {
    NothingRefines();
    assert Due(map[]) == {};
  }

  /** Plays a timed sequence of Adds and then waits for all timers: the key of every Add with no
      later Add of that key within its delay is handed over once, exactly a delay after that Add, and
      nothing else is. All of it is a run of the transition system with the same Adds that hands over the
      same keys in the same order and ends with no entry, callback or Add left. */
  method Replay(adds: seq<Event>, duration: nat) returns (log: seq<Event>, ghost run: seq<B.Action>)
    requires InOrder(adds)
    ensures Matches(multiset(log), adds, duration)
    ensures Refines(run, Timed(map[], log)) && Requested(run) == Requests(adds)
  {
    var t := Timed(map[], []);
    run := [];
    NothingPlays(duration);
    TakeAll(adds);
    for n := 0 to |adds|
      invariant Plays(t, adds[..n], duration, run)
      invariant n < |adds| ==> LoggedBy(t.log, adds[n].time)
    {
      var next, order := Take(t, adds[n], duration, adds[..n]);
      run := PlaysOn(t, adds[..n], adds[n], duration, run, order, next);
      TakeOneMore(adds, n);
      t := next;
    }
    TakeAll(adds);
    ghost var order;
    log, order := Settle(t);
    run := FiringsRefine(run, t, order);
  }

  /** A moment by which all timers have fired. */
  method Latest(timers: Deadlines, log: seq<Event>) returns (t: int)
    ensures forall k | k in timers :: timers[k] <= t
    ensures forall e | e in log :: e.time <= t
  {
    t := 0;
    for n := 0 to |log|
      invariant forall m | 0 <= m < n :: log[m].time <= t
    {
      t := if log[n].time > t then log[n].time else t;
    }
    var todo := timers.Keys;
    while todo != {}
      invariant todo <= timers.Keys
      invariant forall k | k in timers.Keys - todo :: timers[k] <= t
      invariant forall e | e in log :: e.time <= t
      decreases todo
    {
      var k :| k in todo;
      t := if timers[k] > t then timers[k] else t;
      todo := todo - {k};
    }
  }

  /** An Add hands over at a time if that is the delay after it, and no later Add of its key comes before. */
  ghost predicate HandsOver(adds: seq<Event>, d: nat, i: nat, e: Event)
    requires i < |adds|
  {
    && e.key == adds[i].key && e.time == adds[i].time + d
    && forall j | i < j < |adds| && adds[j].key == adds[i].key :: adds[j].time - adds[i].time >= d
  }

  lemma {:induction false} HandOversIff(adds: seq<Event>, d: nat, n: nat, e: Event)
    requires n <= |adds|
    ensures HandOvers(adds, d, n, e) > 0 <==> exists i | 0 <= i < n :: HandsOver(adds, d, i, e)
  {
    if n > 0 {
      HandOversIff(adds, d, n - 1, e);
      assert HandsOver(adds, d, n - 1, e) <==> Kept(adds, d, n - 1) && e == HandOver(adds[n - 1], d);
    }
  }

  lemma {:induction false} HandOversAtMostOnce(adds: seq<Event>, d: nat, n: nat, e: Event)
    requires n <= |adds| && d > 0
    ensures HandOvers(adds, d, n, e) <= 1
  {
    if n > 0 {
      HandOversAtMostOnce(adds, d, n - 1, e);
      HandOversIff(adds, d, n - 1, e);
      if i :| 0 <= i < n - 1 && HandsOver(adds, d, i, e) {
        assert HandsOver(adds, d, n - 1, e) ==> adds[n - 1].time - adds[i].time >= d;
      }
    }
  }

  /** What a replay hands over: at a moment exactly the keys of the Adds that hand over then, once each if
      there is any delay. */
  lemma HandedOverIff(log: seq<Event>, adds: seq<Event>, d: nat, e: Event)
    requires Matches(multiset(log), adds, d)
    ensures e in log <==> exists i | 0 <= i < |adds| :: HandsOver(adds, d, i, e)
    ensures d > 0 ==> multiset(log)[e] <= 1
  {
    HandOversIff(adds, d, |adds|, e);
    assert e in log <==> multiset(log)[e] > 0;
    if d > 0 { HandOversAtMostOnce(adds, d, |adds|, e); }
  }

  /** Only the next Add of the key matters: in a burst with gaps below the delay every Add but the
      last is absorbed, and a gap of at least the delay ends the burst with a hand-over. */
  lemma BurstEndsAtGap(adds: seq<Event>, d: nat, i: nat, j: nat)
    requires InOrder(adds) && i < j < |adds| && adds[j].key == adds[i].key
    requires forall m | i < m < j :: adds[m].key != adds[i].key
    ensures Kept(adds, d, i) <==> adds[j].time - adds[i].time >= d
  {
  }

  /** The Adds of one key, in order. */
  function Of(adds: seq<Event>, key: NamespacedName): seq<Event> {
    if adds == [] then []
    else Of(adds[..|adds| - 1], key) + if adds[|adds| - 1].key == key then [adds[|adds| - 1]] else []
  }

  lemma OneMoreAdd(adds: seq<Event>, a: Event, d: nat, e: Event)
    ensures HandOvers(adds + [a], d, |adds| + 1, e)
         == (if e.key == a.key && e.time > a.time then 0 else HandOvers(adds, d, |adds|, e)) + (if e == HandOver(a, d) then 1 else 0)
  {
    LaterHandOvers(adds, a, d, |adds|, e);
    LastIsKept(adds, a, d, e);
  }

  /** Keys are independent: in every trace a key is handed over as if only its own Adds had happened. */
  lemma {:induction false} KeysAreIndependent(adds: seq<Event>, d: nat, e: Event)
    ensures HandOvers(adds, d, |adds|, e) == HandOvers(Of(adds, e.key), d, |Of(adds, e.key)|, e)
  {
    if adds != [] {
      var before, a := adds[..|adds| - 1], adds[|adds| - 1];
      KeysAreIndependent(before, d, e);
      OneMoreAdd(before, a, d, e);
      assert adds == before + [a];
      if a.key == e.key {
        OneMoreAdd(Of(before, e.key), a, d, e);
      } else {
        assert Of(adds, e.key) == Of(before, e.key);
      }
    }
  }
}
