/** internal/tracker/debounced_queue.go: what WaitForCompletion waits for. It first waits until the wait
    group is zero and then polls until the work queue holds no pending key. */
module Completion {
  import opened Types
  import opened TrackerStates
  import opened Statuses
  import B = Barrier
  import Q = DebouncedQueues
  import P = Protocol
  import R = Passes
  import C = Recreation

  /** Steps that add no key to the debounced queue. */
  predicate AddsNothing(s: P.State, a: P.Action) {
    match a
    case AddQueued(_) => false
    case Track(op) => Touched(s.tracker, op) == {}
    case _ => true
  }

  ghost predicate AllAddNothing(s: P.State, actions: seq<P.Action>)
    decreases |actions|
  {
    actions != [] ==>
      P.Enabled(s, actions[0]) && AddsNothing(s, actions[0]) && AllAddNothing(P.Next(s, actions[0]), actions[1..])
  }

  /** No Add ever landed in a firing window, and the wait group is zero. */
  predicate Cleared(s: P.State) {
    s.queue.rearmed == 0 && s.queue.wg == 0
  }

  lemma ClearedHasNoTimers(q: Q.Queue)
    requires B.Inv(q) && q.rearmed == 0 && q.wg == 0
    ensures q.timers == map[] && q.owed == {} && B.Outstanding(q) == 0
    ensures B.Armed(q) == {} && q.loose == multiset{} && q.started == multiset{}
  {
    B.ClearedMeansNothingOwed(q);
    assert |q.timers| == 0;
  }

  lemma StaysCleared(s: P.State, a: P.Action)
    requires P.Inv(s) && Cleared(s) && P.Enabled(s, a) && AddsNothing(s, a)
    ensures Cleared(P.Next(s, a))
  {
    ClearedHasNoTimers(s.queue);
    if a.Track? {
      Q.AddedNone(s.queue);
    }
  }

  lemma {:induction false} StepsStayCleared(s: P.State, actions: seq<P.Action>, t: P.State)
    requires P.Inv(s) && Cleared(s) && P.Steps(s, actions, t) && AllAddNothing(s, actions)
    ensures Cleared(t)
    decreases |actions|
  {
    if actions != [] {
      P.ActionKeepsInv(s, actions[0]);
      StaysCleared(s, actions[0]);
      StepsStayCleared(P.Next(s, actions[0]), actions[1..], t);
    }
  }

  /** What WaitForCompletion does not look at: AddModelValidation calls, new objects, delayed retries and
      the key that the worker has. */
  predicate LeftBehind(s: P.State, k: Key) {
    || k in s.adding || k in s.unseen || k in s.queue.work.waiting
    || P.Held(s, k) || (k in s.queue.work.dirty && s.worker != P.Idle && s.worker.key == k)
  }

  lemma StaleIsLeftBehind(s: P.State, k: Key)
    requires P.Inv(s) && P.WorkInv(s) && Cleared(s) && s.queue.work.pending == [] && P.Stale(s, k)
    ensures LeftBehind(s, k)
  {
    ClearedHasNoTimers(s.queue);
    if !P.Held(s, k) {
      assert P.Pending(s, k);
    }
  }

  lemma QuietIff(s: P.State)
    requires P.Inv(s) && P.WorkInv(s) && Cleared(s) && s.queue.work.pending == []
    ensures P.Quiet(s) <==> s.worker.Idle? && s.adding == multiset{} && s.queue.work.waiting == {}
    ensures s.queue.work.dirty + s.queue.work.processing == {} <==> s.worker.Idle?
  {
    ClearedHasNoTimers(s.queue);
    assert s.worker.Idle? || s.worker.key in s.queue.work.processing;
  }

  /** When WaitForCompletion returns: at some moment of the run the wait group was zero, and later, with
      no Add in between, no key is pending. Then a status is stale only if its key is one that
      WaitForCompletion does not look at. Nothing at all is under way exactly if the worker is idle and no
      AddModelValidation call and no retry is left, and all items are processed exactly if it is idle. */
  lemma {:induction false} CompletionMeans(before: seq<P.Action>, between: seq<P.Action>, s: P.State, t: P.State)
    requires P.Exec(before) == Some(s) && Cleared(s)
    requires P.Steps(s, between, t) && AllAddNothing(s, between) && t.queue.work.pending == []
    ensures forall k | P.Stale(t, k) :: LeftBehind(t, k)
    ensures P.Quiet(t) <==> t.worker.Idle? && t.adding == multiset{} && t.queue.work.waiting == {}
    ensures t.queue.work.dirty + t.queue.work.processing == {} <==> t.worker.Idle?
  {
    P.ReachableInv(before);
    StepsStayCleared(s, between, t);
    P.StepsProlong(before, s, between, t);
    P.ReachableInv(before + between);
    forall k | P.Stale(t, k) ensures LeftBehind(t, k) {
      StaleIsLeftBehind(t, k);
    }
    QuietIff(t);
  }

  /** A run in which it returns too early: the worker has taken the only key and published nothing yet. */
  lemma EarlyRun(k: Key, r: Revision)
    requires r.config.authMethod != ""
    ensures P.Exec(C.Adding(k, r) + R.Starting(k)).Some?
    ensures var s := P.Exec(C.Adding(k, r) + R.Starting(k)).value;
            Cleared(s) && s.queue.work.pending == [] && P.Stale(s, k) && s.worker == P.Got(k)
  {
    C.StartingRuns(k, r);
    C.EmptyIsPublishable(k, r);
  }
}
