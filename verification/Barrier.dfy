/** debounceWg as a barrier: what WaitForUpdates waits for. */
module Barrier {
  import opened Types
  import opened DebouncedQueues

  /** Everything that can happen to the queue before ShutDown. */
  datatype Action =
    | Adds(keys: set<NamespacedName>)
    | Internal(step: Step)
    | Pop
    | Finished(key: NamespacedName)
    | Retry(key: NamespacedName)

  predicate Possible(q: Queue, a: Action) {
    match a
    case Adds(_) => true
    case Internal(s) => Enabled(q, s)
    case Pop => q.work.pending != []
    case Finished(k) => true
    case Retry(k) => true
  }

  function After(q: Queue, a: Action): Queue
    requires Possible(q, a)
  {
    match a
    case Adds(ks) => AddedAll(q, ks)
    case Internal(s) => Next(q, s)
    case Pop => q.(work := q.work.Get())
    case Finished(k) => q.(work := q.work.Done(k))
    case Retry(k) => Retried(q, k)
  }

  function Run(q: Queue, actions: seq<Action>): Option<Queue>
    decreases |actions|
  {
    if actions == [] then Some(q)
    else if Possible(q, actions[0]) then Run(After(q, actions[0]), actions[1..])
    else None
  }

  function Armed(q: Queue): set<NamespacedName> {
    set k | k in q.timers && q.timers[k]
  }

  /** The Done calls still to come. */
  function Outstanding(q: Queue): nat {
    |Armed(q)| + |q.loose| + |q.started| + |q.enqueued| + |q.finishing|
  }

  /** Each Done still to come was paid for by wg.Add(1), except one for every Add that re-armed a
      fired timer. */
  ghost predicate Accounted(q: Queue) {
    !q.stopped && !q.work.shuttingDown && Outstanding(q) == q.wg + q.rearmed
  }

  /** No Add ever found a fired timer: a callback is under way exactly for the fired entries. */
  ghost predicate Clean(q: Queue) {
    && q.rearmed == 0
    && q.loose == multiset{}
    && (forall k :: q.started[k] + q.enqueued[k] == if k in q.timers && !q.timers[k] then 1 else 0)
    && q.wg == |q.timers| + |q.finishing|
  }

  ghost predicate Owed(q: Queue) {
    forall k | k in q.owed :: k in Armed(q) || k in q.loose || k in q.started
  }

  ghost predicate Inv(q: Queue) {
    Accounted(q) && (q.rearmed == 0 ==> Clean(q)) && Owed(q)
  }

  lemma SizeOfParts<T>(a: set<T>, b: set<T>, c: set<T>)
    requires a !! b && a !! c && b !! c
    ensures |a + (b + c)| == |a| + |b| + |c|
  {
    assert |b + c| == |b| + |c|;
    assert a !! (b + c);
  }

  lemma AddsArms(q: Queue, ks: set<NamespacedName>)
    requires !q.stopped
    ensures Armed(AddedAll(q, ks)) == Armed(q) + ((ks - q.timers.Keys) + ks * Fired(q))
  {
    var sum := Armed(q) + ((ks - q.timers.Keys) + ks * Fired(q));
    forall k ensures k in Armed(AddedAll(q, ks)) <==> k in sum {
      AddsArm(q, ks, k);
    }
  }

  lemma AddsArm(q: Queue, ks: set<NamespacedName>, k: NamespacedName)
    requires !q.stopped
    ensures k in Armed(AddedAll(q, ks)) <==> k in Armed(q) || k in ks
    ensures k in Armed(q) + ((ks - q.timers.Keys) + ks * Fired(q)) <==> k in Armed(q) || k in ks
  {
    assert k in Arm(q.timers, ks) <==> k in q.timers || k in ks;
  }

  lemma AddsKeepsAccounted(q: Queue, ks: set<NamespacedName>)
    requires Accounted(q)
    ensures Accounted(AddedAll(q, ks))
  {
    AddsArms(q, ks);
    SizeOfParts(Armed(q), ks - q.timers.Keys, ks * Fired(q));
  }

  lemma NoneAgain(ks: set<NamespacedName>, q: Queue)
    requires |ks * Fired(q)| == 0
    ensures forall k | k in ks && k in q.timers :: q.timers[k]
  {
    forall k | k in ks && k in q.timers ensures q.timers[k] {
      assert k !in ks * Fired(q);
    }
  }

  lemma GrownTimers(timers: map<NamespacedName, bool>, ks: set<NamespacedName>)
    ensures |Arm(timers, ks)| == |timers| + |ks - timers.Keys|
  {
    assert Arm(timers, ks).Keys == timers.Keys + (ks - timers.Keys);
    assert |Arm(timers, ks)| == |Arm(timers, ks).Keys| && |timers| == |timers.Keys|;
  }

  lemma AddsKeepsClean(q: Queue, ks: set<NamespacedName>)
    requires !q.stopped && Clean(q) && AddedAll(q, ks).rearmed == 0
    ensures Clean(AddedAll(q, ks))
  {
    NoneAgain(ks, q);
    GrownTimers(q.timers, ks);
    AddsCallbacks(q, ks);
  }

  lemma AddsCallbacks(q: Queue, ks: set<NamespacedName>)
    requires !q.stopped && Clean(q)
    requires forall k | k in ks && k in q.timers :: q.timers[k]
    ensures var r := AddedAll(q, ks);
            forall k :: r.started[k] + r.enqueued[k] == if k in r.timers && !r.timers[k] then 1 else 0
  {
  }

  lemma AddsKeepOwed(q: Queue, ks: set<NamespacedName>)
    requires Owed(q)
    ensures Owed(AddedAll(q, ks))
  {
  }

  lemma AddsKeepsInv(q: Queue, ks: set<NamespacedName>)
    requires Inv(q)
    ensures Inv(AddedAll(q, ks))
  {
    AddsKeepsAccounted(q, ks);
    if AddedAll(q, ks).rearmed == 0 {
      AddsKeepsClean(q, ks);
    }
    AddsKeepOwed(q, ks);
  }

  lemma FireArmed(q: Queue, k: NamespacedName)
    requires k in q.timers && q.timers[k]
    ensures Armed(Next(q, Fire(k))) == Armed(q) - {k} && |Armed(q) - {k}| == |Armed(q)| - 1
  {
  }

  lemma DeleteArmed(q: Queue, k: NamespacedName)
    ensures Armed(EntryDeleted(q, k)) == Armed(q) - {k}
    ensures |Armed(q) - {k}| == |Armed(q)| - if k in Armed(q) then 1 else 0
  {
    if k !in Armed(q) { assert Armed(q) - {k} == Armed(q); }
  }

  /** Steps left before everything under way has returned. */
  function Work(q: Queue): nat {
    4 * |Armed(q)| + 4 * |q.loose| + 3 * |q.started| + 2 * |q.enqueued| + |q.finishing|
  }

  /** A step of a timer or callback pays for itself and brings everything under way nearer its end. */
  ghost predicate Pays(q: Queue, r: Queue) {
    && r.wg - Outstanding(r) == q.wg - Outstanding(q) && Work(r) < Work(q)
    && r.rearmed == q.rearmed && r.stopped == q.stopped && r.work.shuttingDown == q.work.shuttingDown
  }

  lemma FirePays(q: Queue, k: NamespacedName)
    requires k in q.timers && q.timers[k]
    ensures Pays(q, Next(q, Fire(k)))
  {
    FireArmed(q, k);
  }

  lemma FireLoosePays(q: Queue, k: NamespacedName)
    requires k in q.loose
    ensures Pays(q, Next(q, FireLoose(k)))
  {
    assert Armed(Next(q, FireLoose(k))) == Armed(q);
  }

  lemma CallbackAddPays(q: Queue, k: NamespacedName)
    requires k in q.started
    ensures Pays(q, Next(q, CallbackAdd(k)))
  {
    assert Armed(Next(q, CallbackAdd(k))) == Armed(q);
  }

  lemma CallbackDeletePays(q: Queue, k: NamespacedName)
    requires k in q.enqueued
    ensures Pays(q, Next(q, CallbackDelete(k)))
  {
    DeleteArmed(q, k);
  }

  lemma CallbackDonePays(q: Queue, k: NamespacedName)
    requires k in q.finishing
    ensures Pays(q, Next(q, CallbackDone(k)))
  {
    assert Armed(Next(q, CallbackDone(k))) == Armed(q);
  }

  lemma StepPays(q: Queue, s: Step)
    requires Enabled(q, s) && !s.RetryDue?
    ensures Pays(q, Next(q, s))
  {
    match s {
      case Fire(k) => FirePays(q, k);
      case FireLoose(k) => FireLoosePays(q, k);
      case CallbackAdd(k) => CallbackAddPays(q, k);
      case CallbackDelete(k) => CallbackDeletePays(q, k);
      case CallbackDone(k) => CallbackDonePays(q, k);
    }
  }

  lemma StepKeepsAccounted(q: Queue, s: Step)
    requires Accounted(q) && Enabled(q, s)
    ensures Accounted(Next(q, s))
  {
    if s.RetryDue? {
      assert Armed(Next(q, s)) == Armed(q);
    } else {
      StepPays(q, s);
    }
  }

  lemma StepKeepsClean(q: Queue, s: Step)
    requires !q.stopped && Clean(q) && Enabled(q, s)
    ensures Clean(Next(q, s))
  {
    match s {
      case Fire(k) => assert Next(q, s).timers.Keys == q.timers.Keys;
      case CallbackDelete(k) =>
        assert q.started[k] + q.enqueued[k] == if k in q.timers && !q.timers[k] then 1 else 0;
        assert q.timers.Keys == (q.timers - {k}).Keys + {k};
        assert |q.timers| == |q.timers.Keys|;
      case _ =>
    }
  }

  lemma StepKeepsInv(q: Queue, s: Step)
    requires Inv(q) && Enabled(q, s)
    ensures Inv(Next(q, s)) && Next(q, s).rearmed == q.rearmed
  {
    StepKeepsAccounted(q, s);
    if q.rearmed == 0 {
      StepKeepsClean(q, s);
    }
    match s {
      case Fire(k) => FireArmed(q, k);
      case CallbackDelete(k) => DeleteArmed(q, k);
      case _ =>
    }
  }

  lemma ActionKeepsInv(q: Queue, a: Action)
    requires Inv(q) && Possible(q, a)
    ensures Inv(After(q, a))
  {
    match a {
      case Adds(ks) => AddsKeepsInv(q, ks);
      case Internal(s) => StepKeepsInv(q, s);
      case _ => assert Armed(After(q, a)) == Armed(q);
    }
  }

  lemma {:induction false} RunKeepsInv(q: Queue, actions: seq<Action>)
    requires Inv(q)
    ensures Run(q, actions).Some? ==> Inv(Run(q, actions).value)
    decreases |actions|
  {
    if actions != [] && Possible(q, actions[0]) {
      ActionKeepsInv(q, actions[0]);
      RunKeepsInv(After(q, actions[0]), actions[1..]);
    }
  }

  lemma IdleInv()
    ensures Inv(IDLE)
  {
    assert Armed(IDLE) == {};
  }

  lemma ClearedMeansNothingOwed(q: Queue)
    requires Inv(q) && q.rearmed == 0 && q.wg == 0
    ensures q.owed == {}
  {
    assert |q.timers| == 0;
    assert Armed(q) == {};
    if k :| k in q.owed {
      assert q.started[k] + q.enqueued[k] == 0;
    }
  }

  /** In every run before shutdown the counter is the number of Done calls to come, less the Adds
      that landed between a firing and the deletion of its entry. Without such an Add it counts map
      entries plus callbacks past their critical section, and when it is zero no Add is still owed
      to the work queue. */
  lemma {:induction false} BarrierAccounting(actions: seq<Action>)
    requires Run(IDLE, actions).Some?
    ensures var q := Run(IDLE, actions).value;
            && q.wg == Outstanding(q) - q.rearmed
            && (q.rearmed == 0 ==> q.wg == |q.timers| + |q.finishing|)
            && (q.rearmed == 0 && q.wg == 0 ==> q.owed == {})
  {
    IdleInv();
    RunKeepsInv(IDLE, actions);
    var q := Run(IDLE, actions).value;
    if q.rearmed == 0 && q.wg == 0 {
      ClearedMeansNothingOwed(q);
    }
  }

  lemma SomeStep(q: Queue) returns (s: Step)
    requires Outstanding(q) > 0
    ensures Enabled(q, s) && !s.RetryDue?
  {
    if Armed(q) != {} {
      var k :| k in Armed(q);
      s := Fire(k);
    } else if |q.loose| > 0 {
      var k :| k in q.loose;
      s := FireLoose(k);
    } else if |q.started| > 0 {
      var k :| k in q.started;
      s := CallbackAdd(k);
    } else if |q.enqueued| > 0 {
      var k :| k in q.enqueued;
      s := CallbackDelete(k);
    } else {
      var k :| k in q.finishing;
      s := CallbackDone(k);
    }
  }

  function Steps(q: Queue, steps: seq<Step>): Option<Queue>
    decreases |steps|
  {
    if steps == [] then Some(q)
    else if Enabled(q, steps[0]) then Steps(Next(q, steps[0]), steps[1..])
    else None
  }

  /** Left alone, the callbacks return and leave the counter at minus the number of window Adds. */
  lemma Drain(q: Queue) returns (steps: seq<Step>)
    requires Inv(q)
    ensures Steps(q, steps).Some? && Steps(q, steps).value.wg + q.rearmed == 0
    decreases Work(q)
  {
    if Outstanding(q) == 0 {
      return [];
    }
    var s := SomeStep(q);
    StepPays(q, s);
    StepKeepsInv(q, s);
    var rest := Drain(Next(q, s));
    steps := [s] + rest;
    assert steps[1..] == rest;
  }

  lemma {:induction false} StepsKeepInv(q: Queue, steps: seq<Step>)
    requires Inv(q) && Steps(q, steps).Some?
    ensures Inv(Steps(q, steps).value) && Steps(q, steps).value.rearmed == q.rearmed
    decreases |steps|
  {
    if steps != [] {
      StepKeepsInv(q, steps[0]);
      StepsKeepInv(Next(q, steps[0]), steps[1..]);
    }
  }

  /** Exactly when no Add has landed in a firing window, no schedule of the timers and callbacks
      drives the counter below zero, where sync.WaitGroup panics. */
  lemma {:induction false} NeverNegativeIff(actions: seq<Action>)
    requires Run(IDLE, actions).Some?
    ensures var q := Run(IDLE, actions).value;
            q.rearmed == 0 <==> forall steps | Steps(q, steps).Some? :: Steps(q, steps).value.wg >= 0
  {
    IdleInv();
    RunKeepsInv(IDLE, actions);
    DrainsBelowZeroIff(Run(IDLE, actions).value);
  }

  lemma DrainsBelowZeroIff(q: Queue)
    requires Inv(q)
    ensures q.rearmed == 0 <==> forall steps | Steps(q, steps).Some? :: Steps(q, steps).value.wg >= 0
  {
    if q.rearmed == 0 {
      forall steps | Steps(q, steps).Some? ensures Steps(q, steps).value.wg >= 0 {
        StepsKeepInv(q, steps);
      }
    } else {
      var steps := Drain(q);
      assert Steps(q, steps).value.wg < 0;
    }
  }

  /** A second Add between the callback's queue.Add and its critical section: the counter is zero
      with the second Add still owed, and then negative. */
  lemma WindowAdd(k: NamespacedName)
    ensures Run(IDLE, Window(k)).Some? && Run(IDLE, Window(k)).value.wg == 0 && k in Run(IDLE, Window(k)).value.owed
    ensures exists steps :: Steps(Run(IDLE, Window(k)).value, steps).Some? && Steps(Run(IDLE, Window(k)).value, steps).value.wg < 0
  {
    WindowRun(k);
    NeverNegativeIff(Window(k));
  }

  function Window(k: NamespacedName): seq<Action> {
    [Adds({k}), Internal(Fire(k)), Internal(CallbackAdd(k))] + [Adds({k}), Internal(CallbackDelete(k)), Internal(CallbackDone(k))]
  }

  lemma WindowRun(k: NamespacedName)
    ensures Run(IDLE, Window(k)).Some?
    ensures var q := Run(IDLE, Window(k)).value; q.wg == 0 && k in q.owed && q.rearmed == 1
  {
    AddedJust(IDLE, k);
    var q1 := Added(IDLE, k);
    var q2 := Next(q1, Fire(k));
    var q3 := Next(q2, CallbackAdd(k));
    SecondHalf(q3, k);
    var second := [Adds({k}), Internal(CallbackDelete(k)), Internal(CallbackDone(k))];
    RunCons(q2, Internal(CallbackAdd(k)), second);
    RunCons(q1, Internal(Fire(k)), [Internal(CallbackAdd(k))] + second);
    RunCons(IDLE, Adds({k}), [Internal(Fire(k))] + ([Internal(CallbackAdd(k))] + second));
    assert Window(k) == [Adds({k})] + ([Internal(Fire(k))] + ([Internal(CallbackAdd(k))] + second));
  }

  lemma SecondHalf(q3: Queue, k: NamespacedName)
    requires k in q3.timers && !q3.timers[k] && k in q3.enqueued && !q3.stopped && q3.rearmed == 0 && q3.wg == 1
    ensures var r := Run(q3, [Adds({k}), Internal(CallbackDelete(k)), Internal(CallbackDone(k))]);
            r.Some? && r.value.wg == 0 && k in r.value.owed && r.value.rearmed == 1
  {
    AddedJust(q3, k);
    var q4 := Added(q3, k);
    var q5 := Next(q4, CallbackDelete(k));
    RunCons(q5, Internal(CallbackDone(k)), []);
    RunCons(q4, Internal(CallbackDelete(k)), [Internal(CallbackDone(k))]);
    RunCons(q3, Adds({k}), [Internal(CallbackDelete(k)), Internal(CallbackDone(k))]);
  }

  lemma TailOfSum<T>(s: seq<T>, x: T)
    ensures s == [] ==> s + [x] == [x] && (s + [x])[1..] == []
    ensures s != [] ==> (s + [x])[0] == s[0] && (s + [x])[1..] == s[1..] + [x]
  {
  }

  lemma {:induction false} RunOneMore(q: Queue, actions: seq<Action>, a: Action)
    requires Run(q, actions).Some? && Possible(Run(q, actions).value, a)
    ensures Run(q, actions + [a]) == Some(After(Run(q, actions).value, a))
    decreases |actions|
  {
    TailOfSum(actions, a);
    if actions != [] {
      RunOneMore(After(q, actions[0]), actions[1..], a);
    }
  }

  lemma RunCons(q: Queue, a: Action, rest: seq<Action>)
    requires Possible(q, a)
    ensures Run(q, [a] + rest) == Run(After(q, a), rest)
  {
    assert ([a] + rest)[1..] == rest;
  }
}
