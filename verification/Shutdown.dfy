/** internal/tracker/debounced_queue.go: runs that go on after ShutDown. */
module Shutdown {
  import opened Types
  import opened DebouncedQueues
  import opened Barrier

  /** How many callbacks and timers without an entry still have their Done before them. */
  function Returning(q: Queue): nat {
    |q.loose| + |q.started| + |q.enqueued| + |q.finishing|
  }

  /** A state after a shutdown in q: no entry, nothing enters the work queue, nothing owed is paid, and
      each callback that has returned has taken one from the wait group. */
  ghost predicate Since(q: Queue, r: Queue) {
    && r.stopped && r.work.shuttingDown && r.timers == map[]
    && r.owed == q.owed && r.rearmed == q.rearmed
    && r.work.dirty <= q.work.dirty && r.work.waiting <= q.work.waiting
    && (forall k | k in r.work.pending :: k in q.work.pending || k in q.work.dirty)
    && r.wg - Returning(r) == q.wg - Returning(q)
  }

  lemma StoppedSince(q: Queue)
    ensures Since(q, Stopped(q))
  {
  }

  lemma TakenSince(q: Queue, r: Queue, a: Action)
    requires Since(q, r) && Possible(r, a) && !a.Internal?
    ensures Since(q, After(r, a))
  {
  }

  lemma StepSince(q: Queue, r: Queue, s: Step)
    requires Since(q, r) && Enabled(r, s)
    ensures Since(q, Next(r, s))
  {
  }

  /** After ShutDown no key enters the work queue any more: neither by an Add, nor by a timer or callback
      that is still under way, nor by a retry. Entries are gone, and what was owed stays owed. */
  lemma {:induction false} NothingEnters(q: Queue, r: Queue, actions: seq<Action>)
    requires Since(q, r) && Run(r, actions).Some?
    ensures Since(q, Run(r, actions).value)
    decreases |actions|
  {
    if actions != [] {
      match actions[0] {
        case Internal(s) => StepSince(q, r, s);
        case _ => TakenSince(q, r, actions[0]);
      }
      NothingEnters(q, After(r, actions[0]), actions[1..]);
    }
  }

  /** The callbacks under way can return until the wait group is zero, if there are enough of them. */
  lemma ReturnUntilZero(q: Queue, r: Queue) returns (actions: seq<Action>)
    requires Since(q, r) && 0 <= r.wg <= Returning(r)
    ensures Run(r, actions).Some? && Run(r, actions).value.wg == 0
    decreases Work(r)
  {
    if r.wg == 0 {
      return [];
    }
    assert Armed(r) == {};
    var s := SomeStep(r);
    StepPays(r, s);
    StepSince(q, r, s);
    TakesAtMostOne(r, s);
    var rest := ReturnUntilZero(q, Next(r, s));
    RunCons(r, Internal(s), rest);
    actions := [Internal(s)] + rest;
  }

  lemma TakesAtMostOne(r: Queue, s: Step)
    requires Enabled(r, s)
    ensures r.wg - 1 <= Next(r, s).wg <= r.wg
  {
  }

  lemma {:induction false} NeverRises(q: Queue, r: Queue, actions: seq<Action>)
    requires Since(q, r) && Run(r, actions).Some?
    ensures Run(r, actions).value.wg <= r.wg
    decreases |actions|
  {
    if actions != [] {
      match actions[0] {
        case Internal(s) => StepSince(q, r, s); TakesAtMostOne(r, s);
        case _ => TakenSince(q, r, actions[0]);
      }
      NeverRises(q, After(r, actions[0]), actions[1..]);
    }
  }

  /** WaitForUpdates can return in some continuation. */
  ghost predicate CanReturn(q: Queue) {
    exists actions :: Run(q, actions).Some? && Run(q, actions).value.wg == 0
  }

  lemma ReturnNeedsNoTimer(q: Queue, actions: seq<Action>)
    requires Accounted(q) && Run(Stopped(q), actions).Some? && Run(Stopped(q), actions).value.wg == 0
    ensures |Armed(q)| <= q.rearmed && 0 <= q.wg
  {
    StoppedSince(q);
    NothingEnters(q, Stopped(q), actions);
    NeverRises(q, Stopped(q), actions);
  }

  lemma WithoutTimersItReturns(q: Queue)
    requires Accounted(q) && |Armed(q)| <= q.rearmed && 0 <= q.wg
    ensures CanReturn(Stopped(q))
  {
    StoppedSince(q);
    var actions := ReturnUntilZero(q, Stopped(q));
    assert Run(Stopped(q), actions).value.wg == 0;
  }

  /** ShutDown stops the timers of the map without paying their Done. After any run, a wait that is still
      to come after it can return if and only if no more timers were armed than Adds had landed in firing
      windows, and the wait group is not negative. Without such Adds: if and only if none was armed. */
  lemma {:induction false} WaitAfterShutDownIff(before: seq<Action>)
    requires Run(IDLE, before).Some?
    ensures var q := Run(IDLE, before).value;
            && (CanReturn(Stopped(q)) <==> |Armed(q)| <= q.rearmed && 0 <= q.wg)
            && (q.rearmed == 0 ==> (CanReturn(Stopped(q)) <==> Armed(q) == {}))
  {
    IdleInv();
    RunKeepsInv(IDLE, before);
    var q := Run(IDLE, before).value;
    if CanReturn(Stopped(q)) {
      var actions :| Run(Stopped(q), actions).Some? && Run(Stopped(q), actions).value.wg == 0;
      ReturnNeedsNoTimer(q, actions);
    } else if |Armed(q)| <= q.rearmed && 0 <= q.wg {
      WithoutTimersItReturns(q);
    }
  }

  /** What ShutDown leaves of a queue. */
  lemma ShutDownIsFinal(q: Queue, actions: seq<Action>, k: NamespacedName)
    requires Run(Stopped(q), actions).Some?
    ensures var r := Run(Stopped(q), actions).value;
            && r.timers == map[] && r.owed == q.owed
            && (k in r.work.pending ==> k in q.work.pending || k in q.work.dirty)
            && (k in r.work.dirty ==> k in q.work.dirty) && (k in r.work.waiting ==> k in q.work.waiting)
  {
    StoppedSince(q);
    NothingEnters(q, Stopped(q), actions);
  }
}
