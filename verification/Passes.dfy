/** One complete pass over a key in the transition system, step by step, from the moment its timer is
    armed until its status is published and nothing is under way. */
module Passes {
  import opened Types
  import opened ModelValidationInfos
  import opened TrackerStates
  import opened Statuses
  import Q = DebouncedQueues
  import P = Protocol

  /** The object as it was created, a tracker, and the given queue and worker. */
  function During(t: Tracker, k: Key, r: Revision, q: Q.Queue, w: P.Phase): P.State {
    P.State(t, q, multiset{}, w, map[k := P.Object(1, r, NO_STATUS)], 1, {}, {})
  }

  /** The key's timer is armed. */
  function Ready(t: Tracker, k: Key, r: Revision): P.State {
    During(t, k, r, Q.Added(Q.IDLE, k), P.Idle)
  }

  /** The status is published. */
  function Published(t: Tracker, k: Key, r: Revision, st: Status): P.State {
    P.State(t, Q.IDLE, multiset{}, P.Idle, map[k := P.Object(2, r, st)], 2, {}, {})
  }

  /** The idle queue with a key in its work queue, or with the worker. */
  function Enqueued(k: Key): Q.Queue {
    Q.IDLE.(work := Q.NO_WORK.Add(k))
  }

  function Processing(k: Key): Q.Queue {
    Q.IDLE.(work := Q.NO_WORK.(processing := {k}))
  }

  /** The queue after each step of the firing. */
  function AfterFiring(k: Key, n: nat): Q.Queue {
    var q := Q.Added(Q.IDLE, k);
    if n == 0 then q
    else if n == 1 then q.(timers := map[k := false], started := multiset{k})
    else if n == 2 then q.(timers := map[k := false], enqueued := multiset{k}, owed := {}, work := Q.NO_WORK.Add(k))
    else if n == 3 then q.(timers := map[], finishing := multiset{k}, owed := {}, work := Q.NO_WORK.Add(k))
    else Enqueued(k)
  }

  function FiringStep(k: Key, n: nat): Q.Step {
    if n == 0 then Q.Fire(k) else if n == 1 then Q.CallbackAdd(k) else if n == 2 then Q.CallbackDelete(k) else Q.CallbackDone(k)
  }

  lemma Fires(k: Key)
    ensures var q := AfterFiring(k, 0); Q.Enabled(q, Q.Fire(k)) && Q.Next(q, Q.Fire(k)) == AfterFiring(k, 1)
  {
    assert map[k := true][k := false] == map[k := false];
  }

  lemma CallbackAdds(k: Key)
    ensures var q := AfterFiring(k, 1); Q.Enabled(q, Q.CallbackAdd(k)) && Q.Next(q, Q.CallbackAdd(k)) == AfterFiring(k, 2)
  {
    assert multiset{k} - multiset{k} == multiset{} && {k} - {k} == {};
  }

  lemma CallbackDeletes(k: Key)
    ensures var q := AfterFiring(k, 2); Q.Enabled(q, Q.CallbackDelete(k)) && Q.Next(q, Q.CallbackDelete(k)) == AfterFiring(k, 3)
  {
    assert multiset{k} - multiset{k} == multiset{} && map[k := false] - {k} == map[];
  }

  lemma CallbackReturns(k: Key)
    ensures var q := AfterFiring(k, 3); Q.Enabled(q, Q.CallbackDone(k)) && Q.Next(q, Q.CallbackDone(k)) == AfterFiring(k, 4)
  {
    assert multiset{k} - multiset{k} == multiset{};
  }

  lemma FiringSteps(k: Key, n: nat)
    requires n < 4
    ensures Q.Enabled(AfterFiring(k, n), FiringStep(k, n)) && Q.Next(AfterFiring(k, n), FiringStep(k, n)) == AfterFiring(k, n + 1)
  {
    if n == 0 { Fires(k); } else if n == 1 { CallbackAdds(k); } else if n == 2 { CallbackDeletes(k); } else { CallbackReturns(k); }
  }

  /** The first n steps of the firing. */
  function Firing(k: Key, n: nat): seq<P.Action> {
    if n == 0 then [] else Firing(k, n - 1) + [P.Timer(FiringStep(k, n - 1))]
  }

  function Starting(k: Key): seq<P.Action> {
    Firing(k, 4) + [P.GetKey]
  }

  function Publishing(k: Key, st: Status): seq<P.Action> {
    Starting(k) + [P.Fetch, P.Snapshot(st)] + [P.Write(true, true)] + [P.DoneKey]
  }

  lemma {:induction false} FiringRuns(t: Tracker, k: Key, r: Revision, n: nat)
    requires n <= 4
    ensures P.Steps(Ready(t, k, r), Firing(k, n), During(t, k, r, AfterFiring(k, n), P.Idle))
  {
    if n > 0 {
      FiringRuns(t, k, r, n - 1);
      FiringSteps(k, n - 1);
      P.StepsOneMore(Ready(t, k, r), Firing(k, n - 1), During(t, k, r, AfterFiring(k, n - 1), P.Idle), P.Timer(FiringStep(k, n - 1)));
    }
  }

  lemma GetLeavesNothing(k: Key)
    ensures Enqueued(k).work.pending == [k] && Enqueued(k).(work := Enqueued(k).work.Get()) == Processing(k)
  {
    assert [k][1..] == [] && {k} - {k} == {};
  }

  lemma GetLeads(t: Tracker, k: Key, r: Revision)
    ensures var s := During(t, k, r, Enqueued(k), P.Idle);
            P.Enabled(s, P.GetKey) && P.Next(s, P.GetKey) == During(t, k, r, Processing(k), P.Got(k))
  {
    GetLeavesNothing(k);
  }

  lemma StartingRuns(t: Tracker, k: Key, r: Revision)
    ensures P.Steps(Ready(t, k, r), Starting(k), During(t, k, r, Processing(k), P.Got(k)))
  {
    FiringRuns(t, k, r, 4);
    GetLeads(t, k, r);
    P.StepsOneMore(Ready(t, k, r), Firing(k, 4), During(t, k, r, Enqueued(k), P.Idle), P.GetKey);
  }

  /** The status can be published: it shows the tracked pods, classified under the spec, and not nothing. */
  ghost predicate Publishable(t: Tracker, k: Key, r: Revision, st: Status) {
    k in t.mvs && IsSnapshot(st, t.mvs[k]) && t.mvs[k].config == r.config && !StatusEqual(NO_STATUS, st)
  }

  lemma SnapshotRuns(t: Tracker, k: Key, r: Revision, st: Status)
    requires Publishable(t, k, r, st)
    ensures P.Steps(Ready(t, k, r), Starting(k) + [P.Fetch, P.Snapshot(st)],
                    During(t, k, r, Processing(k), P.Snapshotted(k, P.Object(1, r, NO_STATUS), t.mvs[k], st)))
  {
    var s := During(t, k, r, Processing(k), P.Got(k));
    StartingRuns(t, k, r);
    P.ReadingSteps(s, st);
    assert P.Met(s) == s;
    P.StepsConcat(Ready(t, k, r), Starting(k), s, [P.Fetch, P.Snapshot(st)], P.HasRead(s, st));
  }

  lemma PublishingRuns(t: Tracker, k: Key, r: Revision, st: Status)
    requires Publishable(t, k, r, st)
    ensures P.Steps(Ready(t, k, r), Publishing(k, st), Published(t, k, r, st))
  {
    var s := During(t, k, r, Processing(k), P.Snapshotted(k, P.Object(1, r, NO_STATUS), t.mvs[k], st));
    var run := Starting(k) + [P.Fetch, P.Snapshot(st)];
    SnapshotRuns(t, k, r, st);
    WriteLeads(t, k, r, st);
    var u := P.Next(s, P.Write(true, true));
    P.StepsOneMore(Ready(t, k, r), run, s, P.Write(true, true));
    P.StepsOneMore(Ready(t, k, r), run + [P.Write(true, true)], u, P.DoneKey);
  }

  lemma WriteLeads(t: Tracker, k: Key, r: Revision, st: Status)
    requires Publishable(t, k, r, st)
    ensures var s := During(t, k, r, Processing(k), P.Snapshotted(k, P.Object(1, r, NO_STATUS), t.mvs[k], st));
            P.Enabled(s, P.Write(true, true)) &&
            var u := P.Next(s, P.Write(true, true));
            P.Enabled(u, P.DoneKey) && P.Next(u, P.DoneKey) == Published(t, k, r, st)
  {
    assert map[k := P.Object(1, r, NO_STATUS)][k := P.Object(2, r, st)] == map[k := P.Object(2, r, st)];
    assert {k} - {k} == {};
  }

  lemma PublishedIsQuiet(t: Tracker, k: Key, r: Revision, st: Status)
    ensures P.Quiet(Published(t, k, r, st))
  {
  }
}
