/** Pods and status together: the system of Convergence and the status protocol step as one, around a
    single tracker. */
module EndToEnd {
  import opened Types
  import opened ModelValidationInfos
  import opened TrackerStates
  import opened TrackerIndex
  import opened PodControllers
  import opened Statuses
  import C = Convergence
  import P = Protocol

  /** The two sides hold the same tracker. */
  datatype Joint = Joint(pods: C.System, updates: P.State)

  const START := Joint(C.NO_SYSTEM, P.INITIAL)

  datatype Step = OnPods(pods: C.Action) | OnUpdates(update: P.Action)

  /** The operation that an action performs on the tracker. */
  function OpOf(c: C.System, a: C.Action): Option<Op> {
    match a
    case Reconcile(n, api) => Reconciled(c.pods, n, api).op
    case AddMVAction(k, r) => Some(AddMV(k, r))
    case Untrack(op) => Some(op)
    case SeedListed(pod, k) => Some(SeedPod(pod, k))
    case SeedOther(pod, k) => Some(SeedPod(pod, k))
    case _ => None
  }

  lemma ActionIsOp(c: C.System, a: C.Action)
    ensures C.After(c, a).tracker == ApplyIfAny(c.tracker, OpOf(c, a))
  {
  }

  /** What an action on the pods' side is for the status protocol, if it enters the tracker. */
  function InProtocol(c: C.System, a: C.Action): Option<P.Action> {
    match OpOf(c, a)
    case Some(AddMV(k, r)) => Some(P.AddLocked(k, r))
    case Some(DropMissing(_)) => Some(P.DropKey)
    case Some(op) => Some(P.Track(op))
    case None => None
  }

  predicate LeavesTracker(a: P.Action) {
    !a.AddLocked? && !a.Track? && !a.DropKey?
  }

  /** Steps of the protocol that leave the tracker alone are taken on their own. */
  ghost predicate Enabled(w: C.World, j: Joint, step: Step) {
    match step
    case OnPods(a) =>
      && C.Possible(w, j.pods, a) && C.Orderly(j.pods, a)
      && (InProtocol(j.pods, a).Some? ==> P.Enabled(j.updates, InProtocol(j.pods, a).value))
      && (a.Untrack? && a.op.DropMissing? ==> j.updates.worker == P.Missing(a.op.key))
    case OnUpdates(a) => P.Enabled(j.updates, a) && LeavesTracker(a)
  }

  ghost function Next(w: C.World, j: Joint, step: Step): Joint
    requires Enabled(w, j, step)
  {
    match step
    case OnPods(a) =>
      Joint(C.After(j.pods, a), match InProtocol(j.pods, a) case Some(p) => P.Next(j.updates, p) case None => j.updates)
    case OnUpdates(a) => j.(updates := P.Next(j.updates, a))
  }

  ghost function Exec(w: C.World, steps: seq<Step>): Option<Joint>
    decreases |steps|
  {
    if steps == [] then Some(START)
    else
      match Exec(w, steps[..|steps| - 1])
      case None => None
      case Some(j) => if Enabled(w, j, steps[|steps| - 1]) then Some(Next(w, j, steps[|steps| - 1])) else None
  }

  ghost predicate Inv(w: C.World, j: Joint) {
    C.Inv(w, j.pods) && P.Inv(j.updates) && P.WorkInv(j.updates) && j.pods.tracker == j.updates.tracker
  }

  /** The two trackers change alike. */
  lemma PodsStepOp(w: C.World, j: Joint, a: C.Action)
    requires Enabled(w, j, OnPods(a)) && j.pods.tracker == j.updates.tracker
    ensures C.After(j.pods, a).tracker == Next(w, j, OnPods(a)).updates.tracker
  {
    ActionIsOp(j.pods, a);
  }

  lemma UpdatesLeaveTracker(s: P.State, a: P.Action)
    requires P.Enabled(s, a) && LeavesTracker(a)
    ensures P.Next(s, a).tracker == s.tracker
  {
  }

  lemma PodsKeepInv(w: C.World, j: Joint, a: C.Action)
    requires Inv(w, j) && Enabled(w, j, OnPods(a))
    ensures Inv(w, Next(w, j, OnPods(a)))
  {
    C.ActionKeepsInv(w, j.pods, a);
    PodsStepOp(w, j, a);
    if InProtocol(j.pods, a).Some? {
      P.ActionKeepsInv(j.updates, InProtocol(j.pods, a).value);
      P.ActionKeepsWorkInv(j.updates, InProtocol(j.pods, a).value);
    }
  }

  lemma UpdatesKeepInv(w: C.World, j: Joint, a: P.Action)
    requires Inv(w, j) && Enabled(w, j, OnUpdates(a))
    ensures Inv(w, Next(w, j, OnUpdates(a)))
  {
    P.ActionKeepsInv(j.updates, a);
    P.ActionKeepsWorkInv(j.updates, a);
    UpdatesLeaveTracker(j.updates, a);
  }

  lemma StepKeepsInv(w: C.World, j: Joint, step: Step)
    requires Inv(w, j) && Enabled(w, j, step)
    ensures Inv(w, Next(w, j, step))
  {
    match step {
      case OnPods(a) => PodsKeepInv(w, j, a);
      case OnUpdates(a) => UpdatesKeepInv(w, j, a);
    }
  }

  lemma {:induction false} ReachableInv(w: C.World, steps: seq<Step>)
    requires Exec(w, steps).Some?
    ensures Inv(w, Exec(w, steps).value)
    decreases |steps|
  {
    if steps == [] {
      P.InitialInv();
    } else {
      ReachableInv(w, steps[..|steps| - 1]);
      StepKeepsInv(w, Exec(w, steps[..|steps| - 1]).value, steps[|steps| - 1]);
    }
  }

  /** The pods that a status lists, by name and UID. */
  function Listed(st: Status): set<PodRef> {
    Members(st.injected) + Members(st.uninjected) + Members(st.orphaned)
  }

  /** The pods that exist, are not being deleted and carry the label. */
  function LiveRefs(pods: Pods, k: Key): set<PodRef> {
    set n | n in pods && !pods[n].deleting && LabelKey(pods[n]) == Some(k) :: PodRef(n.name, pods[n].uid)
  }

  lemma ListedAreTracked(st: Status, i: Info, x: PodRef)
    requires i.Valid() && StatusView(st) == ViewOf(i)
    ensures x in Listed(st) <==> x.uid in i.Tracked() && Ref(i.All()[x.uid]) == x
  {
    InRefs(i.injected, x);
    InRefs(i.uninjected, x);
    InRefs(i.orphaned, x);
    assert StatusView(st).injected == Refs(i.injected) && StatusView(st).uninjected == Refs(i.uninjected) && StatusView(st).orphaned == Refs(i.orphaned);
  }

  lemma InRefs(m: PodMap, x: PodRef)
    requires Keyed(m)
    ensures x in Refs(m) <==> x.uid in m && Ref(m[x.uid]) == x
  {
  }

  lemma LivePodIsTracked(w: C.World, c: C.System, k: Key, n: NamespacedName)
    requires C.Inv(w, c) && c.stale == {} && C.Seeded(c, k)
    requires n in c.pods && !c.pods[n].deleting && LabelKey(c.pods[n]) == Some(k)
    ensures var u := c.pods[n].uid; c.tracker.Tracks(k, u) && w.nameOf(u) == n
  {
    assert C.Covered(c, n) && w.Knows(c.pods[n]) && PodName(c.pods[n]) == n;
  }

  lemma LiveIsTracked(w: C.World, c: C.System, k: Key, x: PodRef)
    requires C.Inv(w, c) && c.stale == {} && C.Seeded(c, k) && x in LiveRefs(c.pods, k)
    ensures x.uid in c.tracker.mvs[k].Tracked() && Ref(c.tracker.mvs[k].All()[x.uid]) == x
  {
    var n :| n in c.pods && !c.pods[n].deleting && LabelKey(c.pods[n]) == Some(k) && x == PodRef(n.name, c.pods[n].uid);
    LivePodIsTracked(w, c, k, n);
    TrackedHasName(w, c.tracker, k, x.uid);
  }

  lemma TrackedHasName(w: C.World, t: Tracker, k: Key, u: UID)
    requires t.Valid() && Indexed(t, w.nameOf, w.KeyOf()) && t.Tracks(k, u)
    ensures Ref(t.mvs[k].All()[u]) == PodRef(w.nameOf(u).name, u)
  {
    assert Found(t, k, u, w.nameOf, w.KeyOf());
  }

  lemma TrackedIsLive(w: C.World, c: C.System, k: Key, x: PodRef)
    requires C.Inv(w, c) && c.stale == {} && C.Seeded(c, k)
    requires x.uid in c.tracker.mvs[k].Tracked() && Ref(c.tracker.mvs[k].All()[x.uid]) == x
    ensures x in LiveRefs(c.pods, k)
  {
    assert c.tracker.Tracks(k, x.uid);
    TrackedHasName(w, c.tracker, k, x.uid);
    assert C.Sound(w, c, k, x.uid) && C.Live(c, w.nameOf(x.uid), x.uid);
    assert w.Knows(c.pods[w.nameOf(x.uid)]);
  }

  lemma LiveIffTracked(w: C.World, c: C.System, k: Key, x: PodRef)
    requires C.Inv(w, c) && c.stale == {} && C.Seeded(c, k)
    ensures x in LiveRefs(c.pods, k) <==> x.uid in c.tracker.mvs[k].Tracked() && Ref(c.tracker.mvs[k].All()[x.uid]) == x
  {
    if x in LiveRefs(c.pods, k) {
      LiveIsTracked(w, c, k, x);
    } else if x.uid in c.tracker.mvs[k].Tracked() && Ref(c.tracker.mvs[k].All()[x.uid]) == x {
      TrackedIsLive(w, c, k, x);
    }
  }

  /** Nothing is on its way in the status protocol, every pod's latest state has been reconciled, and the
      ModelValidation is tracked, seeded, and known to the operator. */
  ghost predicate IsSettled(j: Joint, k: Key) {
    P.Quiet(j.updates) && j.pods.stale == {} && C.Seeded(j.pods, k) && k in j.updates.api && k !in j.updates.unseen
  }

  /** End to end: in every orderly run, once nothing is on its way in the status protocol and every pod's
      latest state has been reconciled, the published status of a tracked and seeded ModelValidation
      lists, by name and UID, exactly the pods that exist, are not being deleted and carry its label. */
  lemma {:induction false} StatusShowsLivePods(w: C.World, steps: seq<Step>, k: Key)
    requires Exec(w, steps).Some? && IsSettled(Exec(w, steps).value, k)
    ensures var j := Exec(w, steps).value; Listed(j.updates.api[k].status) == LiveRefs(j.pods.pods, k)
  {
    var j := Exec(w, steps).value;
    ReachableInv(w, steps);
    P.QuietIsPublished(j.updates);
    forall x ensures x in Listed(j.updates.api[k].status) <==> x in LiveRefs(j.pods.pods, k) {
      ListedAreTracked(j.updates.api[k].status, j.pods.tracker.mvs[k], x);
      LiveIffTracked(w, j.pods, k, x);
    }
  }
}
