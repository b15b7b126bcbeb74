/** A complete run of the joint system that publishes a live pod. */
module PublishedPod {
  import opened Types
  import opened ModelValidationInfos
  import opened TrackerStates
  import opened PodControllers
  import opened Statuses
  import opened EndToEnd
  import opened StatusLists
  import C = Convergence
  import G = Progress
  import N = Recreation
  import P = Protocol
  import Q = DebouncedQueues
  import R = Passes

  /** A run whose seeding presents pods as they are, and the state it leads to. */
  ghost predicate Leads(w: C.World, steps: seq<Step>, j: Joint) {
    Exec(w, steps) == Some(j) && SeedsCurrent(w, steps)
  }

  lemma LeadsOn(w: C.World, steps: seq<Step>, j: Joint, step: Step)
    requires Leads(w, steps, j) && Enabled(w, j, step)
    requires step.OnPods? ==> PresentsCurrent(j.pods, step.pods)
    ensures Leads(w, steps + [step], Next(w, j, step))
  {
    assert (steps + [step])[..|steps|] == steps;
  }

  // Steps of the status protocol on their own.

  function Lifted(actions: seq<P.Action>): seq<Step> {
    seq(|actions|, i requires 0 <= i < |actions| => OnUpdates(actions[i]))
  }

  lemma LiftedStep(w: C.World, steps: seq<Step>, j: Joint, a: P.Action)
    requires Leads(w, steps, j) && P.Enabled(j.updates, a) && LeavesTracker(a)
    ensures Leads(w, steps + [OnUpdates(a)], j.(updates := P.Next(j.updates, a)))
  {
    LeadsOn(w, steps, j, OnUpdates(a));
  }

  lemma {:induction false} LiftedLeads(w: C.World, steps: seq<Step>, j: Joint, actions: seq<P.Action>, s: P.State)
    requires Leads(w, steps, j) && P.Steps(j.updates, actions, s) && forall a | a in actions :: LeavesTracker(a)
    ensures Leads(w, steps + Lifted(actions), j.(updates := s))
    decreases |actions|
  {
    if actions == [] {
      assert steps + Lifted(actions) == steps;
    } else {
      var n := P.Next(j.updates, actions[0]);
      LiftedStep(w, steps, j, actions[0]);
      LiftedLeads(w, steps + [OnUpdates(actions[0])], j.(updates := n), actions[1..], s);
      assert Lifted(actions)[0] == OnUpdates(actions[0]) && Lifted(actions)[1..] == Lifted(actions[1..]);
      P.MoveHead(steps, Lifted(actions));
    }
  }

  lemma {:induction false} FiringLeavesTracker(k: Key, n: nat)
    ensures forall a | a in R.Firing(k, n) :: LeavesTracker(a)
  {
    if n > 0 { FiringLeavesTracker(k, n - 1); }
  }

  lemma PublishingLeavesTracker(k: Key, st: Status)
    ensures forall a | a in R.Publishing(k, st) :: LeavesTracker(a)
  {
    FiringLeavesTracker(k, 4);
  }

  // The run: a ModelValidation is created, tracked and seeded, and then a pod with its label appears.

  function Creating(k: Key, r: Revision): seq<Step> {
    [OnUpdates(P.Create(k, r))] + [OnPods(C.AddMVAction(k, r))] + [OnPods(C.ListPods(k))]
  }

  function Appearing(pod: Pod, k: Key): seq<Step> {
    [OnPods(C.WritePod(pod))] + [OnPods(Reconciling(pod))] + [OnUpdates(P.AddQueued(k))]
  }

  // The states on the way.

  function Unadded(k: Key, r: Revision): Joint {
    Joint(C.NO_SYSTEM, P.State(NO_TRACKING, Q.IDLE, multiset{}, P.Idle, map[k := P.Object(1, r, NO_STATUS)], 1, {k}, {k}))
  }

  /** AddModelValidation has not reached the queue yet. */
  function Tracked(t: Tracker, k: Key, r: Revision, q: Q.Queue): P.State {
    R.During(t, k, r, q, P.Idle).(adding := multiset{k})
  }

  function Unlisted(k: Key, r: Revision): Joint {
    Joint(C.System(map[], N.Tracking(k, r), {}, map[k := None]), Tracked(N.Tracking(k, r), k, r, Q.IDLE))
  }

  function Created(k: Key, r: Revision): Joint {
    Joint(C.System(map[], N.Tracking(k, r), {}, map[k := Some({})]), Tracked(N.Tracking(k, r), k, r, Q.IDLE))
  }

  function Written(pod: Pod, k: Key, r: Revision): Joint {
    var n := PodName(pod);
    Joint(C.System(map[n := pod], N.Tracking(k, r), {n}, map[k := Some({})]), Tracked(N.Tracking(k, r), k, r, Q.IDLE))
  }

  function Observing(pod: Pod, k: Key, r: Revision): Tracker {
    Apply(N.Tracking(k, r), PodEvent(pod))
  }

  function Settled(pod: Pod, k: Key, r: Revision): C.System {
    C.System(map[PodName(pod) := pod], Observing(pod, k, r), {}, map[k := Some({})])
  }

  function Reconciling(pod: Pod): C.Action {
    C.Reconcile(PodName(pod), Api(true, Accepted))
  }

  lemma CreateStep(w: C.World, k: Key, r: Revision)
    ensures var step := OnUpdates(P.Create(k, r)); Enabled(w, START, step) && Next(w, START, step) == Unadded(k, r)
  {
    var none: set<Key> := {};
    assert none + {k} == {k};
  }

  lemma AddStep(w: C.World, k: Key, r: Revision)
    ensures var j, step := Unadded(k, r), OnPods(C.AddMVAction(k, r)); Enabled(w, j, step) && Next(w, j, step) == Unlisted(k, r)
  {
    assert {k} - {k} == {};
    assert multiset{} + multiset{k} == multiset{k};
  }

  lemma ListStep(w: C.World, k: Key, r: Revision)
    ensures var j, step := Unlisted(k, r), OnPods(C.ListPods(k)); Enabled(w, j, step) && Next(w, j, step) == Created(k, r)
  {
    assert C.Labelled(map[], k) == {};
    assert Unlisted(k, r).pods.todo[k := Some({})] == map[k := Some({})];
  }

  lemma WriteStep(w: C.World, pod: Pod, k: Key, r: Revision)
    requires w.Knows(pod)
    ensures var j, step := Created(k, r), OnPods(C.WritePod(pod)); Enabled(w, j, step) && Next(w, j, step) == Written(pod, k, r)
  {
  }

  function Observed(pod: Pod, k: Key, r: Revision): Joint {
    Joint(Settled(pod, k, r), Tracked(Observing(pod, k, r), k, r, Q.Added(Q.IDLE, k)))
  }

  lemma ReconcilePresents(pod: Pod)
    requires LabelKey(pod).Some? && !pod.deleting
    ensures var pods := map[PodName(pod) := pod]; Reconciled(pods, PodName(pod), Api(true, Accepted)) == Outcome(pods, Some(PodEvent(pod)), true)
  {
  }

  lemma ReconcileSettles(pod: Pod, k: Key, r: Revision)
    requires LabelKey(pod) == Some(k) && !pod.deleting
    ensures C.After(Written(pod, k, r).pods, Reconciling(pod)) == Settled(pod, k, r)
    ensures InProtocol(Written(pod, k, r).pods, Reconciling(pod)) == Some(P.Track(PodEvent(pod)))
  {
    ReconcilePresents(pod);
    assert {PodName(pod)} - {PodName(pod)} == {};
  }

  lemma TrackPods(pod: Pod, k: Key, r: Revision)
    requires LabelKey(pod) == Some(k)
    ensures var s := Tracked(N.Tracking(k, r), k, r, Q.IDLE);
            && P.Enabled(s, P.Track(PodEvent(pod)))
            && P.Next(s, P.Track(PodEvent(pod))) == Tracked(Observing(pod, k, r), k, r, Q.Added(Q.IDLE, k))
  {
    PodIsTouched(pod, k, r);
  }

  lemma ReconcileStep(w: C.World, pod: Pod, k: Key, r: Revision)
    requires LabelKey(pod) == Some(k) && !pod.deleting
    ensures var j, step := Written(pod, k, r), OnPods(Reconciling(pod)); Enabled(w, j, step) && Next(w, j, step) == Observed(pod, k, r)
  {
    ReconcileSettles(pod, k, r);
    TrackPods(pod, k, r);
  }

  lemma PodIsTouched(pod: Pod, k: Key, r: Revision)
    requires LabelKey(pod) == Some(k)
    ensures Q.AddedAll(Q.IDLE, Touched(N.Tracking(k, r), PodEvent(pod))) == Q.Added(Q.IDLE, k)
  {
    Q.AddedIfIn(Q.IDLE, k, N.Tracking(k, r).mvs.Keys);
  }

  lemma QueueStep(t: Tracker, k: Key, r: Revision)
    ensures var s := Tracked(t, k, r, Q.Added(Q.IDLE, k)); P.Enabled(s, P.AddQueued(k)) && P.Next(s, P.AddQueued(k)) == R.Ready(t, k, r)
  {
    AddedTwice(k);
    assert multiset{k} - multiset{k} == multiset{};
  }

  /** Adding a key whose timer is armed changes nothing. */
  lemma AddedTwice(k: Key)
    ensures Q.AddedAll(Q.Added(Q.IDLE, k), {k}) == Q.Added(Q.IDLE, k)
  {
    Q.AddedJust(Q.Added(Q.IDLE, k), k);
    assert map[k := true][k := true] == map[k := true];
  }

  lemma CreatingLeads(w: C.World, k: Key, r: Revision)
    ensures Leads(w, Creating(k, r), Created(k, r))
  {
    var create, add := OnUpdates(P.Create(k, r)), OnPods(C.AddMVAction(k, r));
    CreateStep(w, k, r);
    LeadsOn(w, [], START, create);
    assert [] + [create] == [create];
    AddStep(w, k, r);
    LeadsOn(w, [create], Unadded(k, r), add);
    ListStep(w, k, r);
    LeadsOn(w, [create] + [add], Unlisted(k, r), OnPods(C.ListPods(k)));
  }

  lemma Regroup<T>(a: seq<T>, b: seq<T>, c: seq<T>, d: seq<T>)
    ensures a + b + c + d == a + (b + c + d)
  {
  }

  lemma AppearingLeads(w: C.World, pod: Pod, k: Key, r: Revision)
    requires w.Knows(pod) && LabelKey(pod) == Some(k) && !pod.deleting
    ensures Leads(w, Creating(k, r) + Appearing(pod, k), Joint(Settled(pod, k, r), R.Ready(Observing(pod, k, r), k, r)))
  {
    var before, write, reconcile := Creating(k, r), OnPods(C.WritePod(pod)), OnPods(Reconciling(pod));
    CreatingLeads(w, k, r);
    WriteStep(w, pod, k, r);
    LeadsOn(w, before, Created(k, r), write);
    ReconcileStep(w, pod, k, r);
    LeadsOn(w, before + [write], Written(pod, k, r), reconcile);
    QueueStep(Observing(pod, k, r), k, r);
    LiftedStep(w, before + [write] + [reconcile], Observed(pod, k, r), P.AddQueued(k));
    Regroup(before, [write], [reconcile], [OnUpdates(P.AddQueued(k))]);
  }

  lemma ShowsSomething(st: Status, i: Info, u: UID)
    requires i.Valid() && IsSnapshot(st, i) && u in i.Tracked()
    ensures !StatusEqual(NO_STATUS, st)
  {
    SnapshotShowsView(st, i);
    ListedAreTracked(st, i, Ref(i.All()[u]));
  }

  lemma ObservedIsPublishable(pod: Pod, k: Key, r: Revision) returns (st: Status)
    requires LabelKey(pod) == Some(k)
    ensures R.Publishable(Observing(pod, k, r), k, r, st)
  {
    var i := Observing(pod, k, r).mvs[k];
    ObservingIsValid(pod, k, r);
    st := G.SomeSnapshot(i);
    ShowsSomething(st, i, pod.uid);
  }

  lemma ObservingIsValid(pod: Pod, k: Key, r: Revision)
    requires LabelKey(pod) == Some(k)
    ensures k in Observing(pod, k, r).mvs
    ensures var i := Observing(pod, k, r).mvs[k]; i.Valid() && pod.uid in i.Tracked() && i.config == r.config
  {
    ObserveKeepsValid(NewInfo(r), InfoOf(pod), HasFinalizer(pod));
  }

  lemma OnlyLivePod(pod: Pod, k: Key)
    requires LabelKey(pod) == Some(k) && !pod.deleting
    ensures LiveRefs(map[PodName(pod) := pod], k) == {PodRef(pod.name, pod.uid)}
  {
  }

  lemma EndIsSettled(pod: Pod, k: Key, r: Revision, st: Status)
    requires LabelKey(pod) == Some(k)
    ensures IsSettled(Joint(Settled(pod, k, r), R.Published(Observing(pod, k, r), k, r, st)), k)
  {
    R.PublishedIsQuiet(Observing(pod, k, r), k, r, st);
  }

  /** Every live labelled pod can be the one that a status lists: a run without seed steps that is
      settled and ends with this pod alive and published, and no other. */
  lemma PublishingRun(w: C.World, pod: Pod, k: Key, r: Revision) returns (steps: seq<Step>)
    requires w.Knows(pod) && LabelKey(pod) == Some(k) && !pod.deleting
    ensures Exec(w, steps).Some? && SeedsCurrent(w, steps) && IsSettled(Exec(w, steps).value, k)
    ensures var j := Exec(w, steps).value;
            j.pods.pods == map[PodName(pod) := pod] && Listed(j.updates.api[k].status) == {PodRef(pod.name, pod.uid)}
  {
    var st := ObservedIsPublishable(pod, k, r);
    var before, t := Creating(k, r) + Appearing(pod, k), Observing(pod, k, r);
    AppearingLeads(w, pod, k, r);
    R.PublishingRuns(t, k, r, st);
    PublishingLeavesTracker(k, st);
    LiftedLeads(w, before, Joint(Settled(pod, k, r), R.Ready(t, k, r)), R.Publishing(k, st), R.Published(t, k, r, st));
    steps := before + Lifted(R.Publishing(k, st));
    EndIsSettled(pod, k, r, st);
    StatusShowsLivePods(w, steps, k);
    OnlyLivePod(pod, k);
  }
}
