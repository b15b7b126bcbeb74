/** When WaitForUpdates may return although an Add has not reached the work queue yet. */
module EarlyReturn {
  import opened Types
  import opened DebouncedQueues
  import opened Barrier

  // Keys that nobody has used yet.

  lemma LengthBound(avoid: set<NamespacedName>) returns (n: nat)
    ensures forall k | k in avoid :: |k.name| < n
    decreases |avoid|
  {
    if avoid == {} {
      n := 0;
    } else {
      var k :| k in avoid;
      var m := LengthBound(avoid - {k});
      n := if |k.name| < m then m else |k.name| + 1;
    }
  }

  lemma FreshKeys(avoid: set<NamespacedName>, n: nat) returns (ks: set<NamespacedName>)
    ensures |ks| == n && ks !! avoid
  {
    ks := {};
    if n > 0 {
      var rest := FreshKeys(avoid, n - 1);
      var m := LengthBound(avoid + rest);
      var k := NamespacedName("", seq(m, _ => 'a'));
      assert k !in avoid + rest;
      ks := rest + {k};
    }
  }

  /** The keys with an entry, a timer or a callback. */
  function Busy(q: Queue): set<NamespacedName> {
    q.timers.Keys + (set k | k in q.loose) + (set k | k in q.started) + (set k | k in q.enqueued) + (set k | k in q.finishing)
  }

  /** A key has an armed timer and nothing else under way, and is owed to the work queue. */
  predicate JustArmed(q: Queue, k: NamespacedName) {
    && k in q.timers && q.timers[k] && k in q.owed
    && k !in q.loose && k !in q.started && k !in q.enqueued && k !in q.finishing
  }

  ghost predicate OnlyArmed(q: Queue, ks: set<NamespacedName>) {
    forall k | k in ks :: JustArmed(q, k)
  }

  lemma NotBusy(q: Queue, k: NamespacedName)
    requires k !in Busy(q)
    ensures k !in q.timers && k !in q.loose && k !in q.started && k !in q.enqueued && k !in q.finishing
  {
  }

  lemma AddArmsFresh(q: Queue, ks: set<NamespacedName>, k: NamespacedName)
    requires !q.stopped && k in ks && k !in Busy(q)
    ensures JustArmed(AddedAll(q, ks), k)
  {
    NotBusy(q, k);
  }

  lemma NoneRearmed(q: Queue, ks: set<NamespacedName>)
    requires ks !! Busy(q)
    ensures AddedAll(q, ks).rearmed == q.rearmed
  {
    forall k | k in ks ensures k !in Fired(q) {
      NotBusy(q, k);
    }
    assert ks * Fired(q) == {};
  }

  lemma AddsArmFresh(q: Queue, ks: set<NamespacedName>)
    requires !q.stopped && ks !! Busy(q)
    ensures OnlyArmed(AddedAll(q, ks), ks)
  {
    forall k | k in ks ensures JustArmed(AddedAll(q, ks), k) {
      AddArmsFresh(q, ks, k);
    }
  }

  lemma OtherStepKeepsArmed(q: Queue, s: Step, k: NamespacedName)
    requires JustArmed(q, k) && Enabled(q, s) && s.key != k
    ensures JustArmed(Next(q, s), k)
  {
  }

  lemma SomeOtherStep(q: Queue, ks: set<NamespacedName>) returns (s: Step)
    requires OnlyArmed(q, ks) && Outstanding(q) > |ks|
    ensures Enabled(q, s) && !s.RetryDue? && s.key !in ks
  {
    if Armed(q) - ks != {} {
      var k :| k in Armed(q) - ks;
      s := Fire(k);
    } else {
      forall k ensures k in Armed(q) <==> k in ks {
        assert k in ks ==> JustArmed(q, k);
        assert k !in Armed(q) - ks;
      }
      assert Armed(q) == ks;
      s := AnyCallback(q);
      forall k | k in ks ensures s.key != k {
        assert JustArmed(q, k);
      }
    }
  }

  lemma AnyCallback(q: Queue) returns (s: Step)
    requires |q.loose| + |q.started| + |q.enqueued| + |q.finishing| > 0
    ensures Enabled(q, s) && !s.RetryDue?
    ensures s.key in q.loose || s.key in q.started || s.key in q.enqueued || s.key in q.finishing
  {
    if |q.loose| > 0 {
      var k :| k in q.loose;
      s := FireLoose(k);
    } else if |q.started| > 0 {
      var k :| k in q.started;
      s := CallbackAdd(k);
    } else if |q.enqueued| > 0 {
      var k :| k in q.enqueued;
      s := CallbackDelete(k);
    } else {
      var k :| k in q.finishing;
      s := CallbackDone(k);
    }
  }

  lemma AtLeastArmed(q: Queue, ks: set<NamespacedName>)
    requires OnlyArmed(q, ks)
    ensures Outstanding(q) >= |ks|
  {
    forall k | k in ks ensures k in Armed(q) {
      assert JustArmed(q, k);
    }
    assert Armed(q) == ks + (Armed(q) - ks);
  }

  /** Everything else can run to its end while these timers stay armed. */
  lemma DrainOthers(q: Queue, ks: set<NamespacedName>) returns (steps: seq<Step>)
    requires Inv(q) && OnlyArmed(q, ks)
    ensures Steps(q, steps).Some?
    ensures var r := Steps(q, steps).value; Inv(r) && OnlyArmed(r, ks) && Outstanding(r) == |ks| && r.rearmed == q.rearmed
    decreases Work(q)
  {
    AtLeastArmed(q, ks);
    if Outstanding(q) == |ks| {
      return [];
    }
    var s := SomeOtherStep(q, ks);
    StepPays(q, s);
    StepKeepsInv(q, s);
    forall k | k in ks ensures JustArmed(Next(q, s), k) {
      OtherStepKeepsArmed(q, s, k);
    }
    var rest := DrainOthers(Next(q, s), ks);
    steps := [s] + rest;
    assert steps[1..] == rest;
  }

  function AsActions(steps: seq<Step>): seq<Action> {
    seq(|steps|, i requires 0 <= i < |steps| => Internal(steps[i]))
  }

  lemma {:induction false} StepsAreRun(q: Queue, steps: seq<Step>)
    ensures Run(q, AsActions(steps)) == Steps(q, steps)
    decreases |steps|
  {
    if steps != [] {
      assert AsActions(steps)[0] == Internal(steps[0]) && AsActions(steps)[1..] == AsActions(steps[1..]);
      if Enabled(q, steps[0]) {
        StepsAreRun(Next(q, steps[0]), steps[1..]);
      }
    }
  }

  /** If WaitForUpdates can return, every Add has reached the work queue. */
  ghost predicate WaitIsRight(q: Queue) {
    q.wg == 0 ==> q.owed == {}
  }

  lemma RearmedCanLie(q: Queue) returns (more: seq<Action>)
    requires Inv(q) && q.rearmed > 0
    ensures Run(q, more).Some? && Run(q, more).value.rearmed == q.rearmed && !WaitIsRight(Run(q, more).value)
  {
    var ks := FreshKeys(Busy(q), q.rearmed);
    var p := AddedAll(q, ks);
    AddsKeepsInv(q, ks);
    AddsArmFresh(q, ks);
    NoneRearmed(q, ks);
    var steps := DrainOthers(p, ks);
    StepsAreRun(p, steps);
    RunCons(q, Adds(ks), AsActions(steps));
    more := [Adds(ks)] + AsActions(steps);
    var r := Steps(p, steps).value;
    var k :| k in ks;
    assert JustArmed(r, k);
  }

  /** No continuation without a further Add in a firing window makes WaitForUpdates return early. */
  ghost predicate NeverEarly(q: Queue) {
    forall more | Run(q, more).Some? && Run(q, more).value.rearmed == q.rearmed :: WaitIsRight(Run(q, more).value)
  }

  lemma NeverEarlyIfClean(q: Queue)
    requires Inv(q) && q.rearmed == 0
    ensures NeverEarly(q)
  {
    forall more | Run(q, more).Some? && Run(q, more).value.rearmed == q.rearmed ensures WaitIsRight(Run(q, more).value) {
      RunKeepsInv(q, more);
      var r := Run(q, more).value;
      if r.wg == 0 { ClearedMeansNothingOwed(r); }
    }
  }

  /** Exactly when no Add has landed in a firing window, WaitForUpdates returns only with every Add in
      the work queue, whatever follows without such an Add. Otherwise some continuation makes it return
      with an Add still owed. */
  lemma {:induction false} EarlyReturnIff(actions: seq<Action>)
    requires Run(IDLE, actions).Some?
    ensures Run(IDLE, actions).value.rearmed == 0 <==> NeverEarly(Run(IDLE, actions).value)
  {
    IdleInv();
    RunKeepsInv(IDLE, actions);
    var q := Run(IDLE, actions).value;
    if q.rearmed == 0 {
      NeverEarlyIfClean(q);
    } else {
      var more := RearmedCanLie(q);
      assert !WaitIsRight(Run(q, more).value);
    }
  }
}
