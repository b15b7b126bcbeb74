/** Which pods each list of a published status holds: the live pods of the API server, told apart by
    their finalizer and by the configurations installed since the tracker last saw them. */
module StatusLists {
  import opened Types
  import opened ModelValidationInfos
  import opened TrackerStates
  import opened TrackerHistory
  import opened PodControllers
  import opened Statuses
  import opened EndToEnd
  import C = Convergence
  import P = Protocol

  // The tracked records agree with the API server's pods.

  /** What the tracker reads of a pod. */
  predicate LooksLike(p: Pod, q: Pod) {
    InfoOf(p) == InfoOf(q) && (HasFinalizer(p) <==> HasFinalizer(q))
  }

  predicate Records(i: Info, u: UID, pod: Pod)
    requires u in i.Tracked()
  {
    i.All()[u] == InfoOf(pod) && (i.StateOf(u) == Some(Uninjected) <==> !HasFinalizer(pod))
  }

  /** The record of a tracked pod is that of its latest state, unless a reconcile of it is due. */
  predicate IsCurrent(w: C.World, c: C.System, k: Key, u: UID)
    requires c.tracker.Tracks(k, u)
  {
    var n := w.nameOf(u);
    n !in c.stale ==> n in c.pods && Records(c.tracker.mvs[k], u, c.pods[n])
  }

  ghost predicate Current(w: C.World, c: C.System) {
    forall k, u | c.tracker.Tracks(k, u) :: IsCurrent(w, c, k, u)
  }

  /** A seed step presents the pod as it is, unless a reconcile of it is due. */
  predicate PresentsCurrent(c: C.System, a: C.Action) {
    a.SeedListed? || a.SeedOther? ==>
      var n := PodName(a.pod); n !in c.stale ==> n in c.pods && LooksLike(a.pod, c.pods[n])
  }

  lemma OpKeepsRecord(t: Tracker, op: Op, k: Key, u: UID, pod: Pod)
    requires t.Valid() && Apply(t, op).Tracks(k, u)
    requires if Sees(t, op, k, u) then LooksLike(SeenPod(op), pod) else t.Tracks(k, u) ==> Records(t.mvs[k], u, pod)
    ensures Records(Apply(t, op).mvs[k], u, pod)
  {
    if Sees(t, op, k, u) {
      SeenIsClassified(t, op, k, u);
    } else {
      OthersOnlyOrphan(t, op, k, u);
    }
  }

  /** The pod that a tracked record belongs to is the one seen, or has been left alone. */
  ghost predicate SeenOrAlone(w: C.World, c: C.System, a: C.Action, k: Key, u: UID) {
    var n, d := w.nameOf(u), C.After(c, a);
    n in d.pods &&
    if OpOf(c, a).Some? && Sees(c.tracker, OpOf(c, a).value, k, u) then LooksLike(SeenPod(OpOf(c, a).value), d.pods[n])
    else c.tracker.Tracks(k, u) ==> n !in c.stale && n in c.pods && c.pods[n] == d.pods[n]
  }

  lemma ReconciledOrAlone(w: C.World, c: C.System, n: NamespacedName, api: Api, k: Key, u: UID)
    requires var a := C.Reconcile(n, api); C.Sound(w, C.After(c, a), k, u) && w.nameOf(u) !in C.After(c, a).stale
    requires forall m | m in c.pods :: PodName(c.pods[m]) == m && w.Knows(c.pods[m])
    ensures SeenOrAlone(w, c, C.Reconcile(n, api), k, u)
  {
    if w.nameOf(u) == n {
      AliveAfterReconcile(c, n, api, u);
    } else {
      OthersAfterReconcile(c, n, api, w.nameOf(u));
      assert n in c.pods ==> w.Knows(c.pods[n]);
    }
  }

  /** A pod that is alive and reconciled has been presented to the tracker, if it carries the label. */
  lemma AliveAfterReconcile(c: C.System, n: NamespacedName, api: Api, u: UID)
    requires var d := C.After(c, C.Reconcile(n, api)); C.Live(d, n, u) && n !in d.stale
    ensures var d := C.After(c, C.Reconcile(n, api));
            n in c.pods && d.pods == c.pods &&
            OpOf(c, C.Reconcile(n, api)) == Some(if LabelKey(c.pods[n]).Some? then PodEvent(c.pods[n]) else RemoveByName(n))
  {
  }

  lemma OthersAfterReconcile(c: C.System, n: NamespacedName, api: Api, m: NamespacedName)
    requires m != n
    ensures var d := C.After(c, C.Reconcile(n, api));
            (m in d.pods <==> m in c.pods) && (m in c.pods ==> d.pods[m] == c.pods[m]) && (m in d.stale <==> m in c.stale)
  {
  }

  lemma StaysCurrent(w: C.World, c: C.System, a: C.Action, k: Key, u: UID)
    requires C.KnownPods(w, c) && C.Possible(w, c, a) && C.Orderly(c, a) && PresentsCurrent(c, a)
    requires C.Sound(w, C.After(c, a), k, u) && w.nameOf(u) !in C.After(c, a).stale
    ensures SeenOrAlone(w, c, a, k, u)
  {
    if a.Reconcile? {
      ReconciledOrAlone(w, c, a.name, a.api, k, u);
    }
  }

  lemma ActionKeepsCurrent(w: C.World, c: C.System, a: C.Action)
    requires C.Inv(w, c) && C.Possible(w, c, a) && C.Orderly(c, a) && PresentsCurrent(c, a) && Current(w, c)
    ensures Current(w, C.After(c, a))
  {
    var d := C.After(c, a);
    C.ActionKeepsInv(w, c, a);
    ActionIsOp(c, a);
    forall k, u | d.tracker.Tracks(k, u) ensures IsCurrent(w, d, k, u) {
      if w.nameOf(u) !in d.stale {
        assert C.Sound(w, d, k, u);
        StaysCurrent(w, c, a, k, u);
        assert c.tracker.Tracks(k, u) ==> IsCurrent(w, c, k, u);
        if OpOf(c, a).Some? {
          OpKeepsRecord(c.tracker, OpOf(c, a).value, k, u, d.pods[w.nameOf(u)]);
        }
      }
    }
  }

  // Runs of the joint system.

  ghost predicate SeedsCurrent(w: C.World, steps: seq<Step>)
    requires Exec(w, steps).Some?
    decreases |steps|
  {
    steps != [] ==>
      var before, step := steps[..|steps| - 1], steps[|steps| - 1];
      SeedsCurrent(w, before) && (step.OnPods? ==> PresentsCurrent(Exec(w, before).value.pods, step.pods))
  }

  /** The operations on the tracker, in order. */
  ghost function Ops(w: C.World, steps: seq<Step>): seq<Op>
    requires Exec(w, steps).Some?
    decreases |steps|
  {
    if steps == [] then []
    else
      var before, step := steps[..|steps| - 1], steps[|steps| - 1];
      Ops(w, before) + match step
                       case OnPods(a) => (match OpOf(Exec(w, before).value.pods, a) case Some(op) => [op] case None => [])
                       case OnUpdates(_) => []
  }

  lemma {:induction false} OpsMakeTracker(w: C.World, steps: seq<Step>)
    requires Exec(w, steps).Some?
    ensures Run(Ops(w, steps)) == Exec(w, steps).value.pods.tracker
    decreases |steps|
  {
    if steps != [] {
      var before, step := steps[..|steps| - 1], steps[|steps| - 1];
      OpsMakeTracker(w, before);
      match step {
        case OnPods(a) =>
          ActionIsOp(Exec(w, before).value.pods, a);
          RunOneMore(Ops(w, before), OpOf(Exec(w, before).value.pods, a));
        case OnUpdates(_) => assert Ops(w, steps) == Ops(w, before);
      }
    }
  }

  lemma RunOneMore(ops: seq<Op>, op: Option<Op>)
    ensures Run(ops + match op case Some(o) => [o] case None => []) == ApplyIfAny(Run(ops), op)
  {
    match op {
      case Some(o) => assert (ops + [o])[..|ops|] == ops;
      case None => assert ops + [] == ops;
    }
  }

  lemma {:induction false} ReachableCurrent(w: C.World, steps: seq<Step>)
    requires Exec(w, steps).Some? && SeedsCurrent(w, steps)
    ensures Current(w, Exec(w, steps).value.pods)
    decreases |steps|
  {
    if steps != [] {
      var before, step := steps[..|steps| - 1], steps[|steps| - 1];
      ReachableCurrent(w, before);
      ReachableInv(w, before);
      if step.OnPods? {
        ActionKeepsCurrent(w, Exec(w, before).value.pods, step.pods);
      }
    }
  }

  // The lists.

  /** The class that a pod's state and the history of its ModelValidation tell. */
  ghost function ClassOf(ops: seq<Op>, k: Key, pod: Pod): State {
    if !HasFinalizer(pod) then Uninjected
    else if LastSeen(ops, k, pod.uid).Some? && NeverDrifted(ops, LastSeen(ops, k, pod.uid).value, k, InfoOf(pod)) then Injected
    else Orphaned
  }

  /** The pods of a class that exist, are not being deleted and carry the label. */
  ghost function LiveIn(ops: seq<Op>, pods: Pods, k: Key, s: State): set<PodRef> {
    set n | n in pods && !pods[n].deleting && LabelKey(pods[n]) == Some(k) && ClassOf(ops, k, pods[n]) == s
      :: PodRef(n.name, pods[n].uid)
  }

  /** The list of a class. */
  function ListOf(st: Status, s: State): seq<PodRef> {
    match s case Injected => st.injected case Uninjected => st.uninjected case Orphaned => st.orphaned
  }

  lemma TrackedClass(ops: seq<Op>, k: Key, pod: Pod)
    requires Run(ops).Tracks(k, pod.uid) && Records(Run(ops).mvs[k], pod.uid, pod)
    ensures Run(ops).mvs[k].StateOf(pod.uid) == Some(ClassOf(ops, k, pod))
  {
    ClassificationIsHistory(ops, k, pod.uid);
  }

  lemma InList(st: Status, i: Info, s: State, x: PodRef)
    requires i.Valid() && StatusView(st) == ViewOf(i)
    ensures x in ListOf(st, s) <==> x.uid in i.Tracked() && Ref(i.All()[x.uid]) == x && i.StateOf(x.uid) == Some(s)
  {
    InRefs(i.Pods(s), x);
    assert x in ListOf(st, s) <==> x in Members(ListOf(st, s));
    assert Members(ListOf(st, s)) == Refs(i.Pods(s));
  }

  lemma LiveHasClass(w: C.World, c: C.System, ops: seq<Op>, k: Key, n: NamespacedName)
    requires C.Inv(w, c) && c.stale == {} && C.Seeded(c, k) && Current(w, c) && Run(ops) == c.tracker
    requires n in c.pods && !c.pods[n].deleting && LabelKey(c.pods[n]) == Some(k)
    ensures c.tracker.mvs[k].StateOf(c.pods[n].uid) == Some(ClassOf(ops, k, c.pods[n]))
  {
    LivePodIsTracked(w, c, k, n);
    assert IsCurrent(w, c, k, c.pods[n].uid);
    TrackedClass(ops, k, c.pods[n]);
  }

  lemma LiveInIff(w: C.World, c: C.System, ops: seq<Op>, k: Key, s: State, x: PodRef)
    requires C.Inv(w, c) && c.stale == {} && C.Seeded(c, k) && Current(w, c) && Run(ops) == c.tracker
    ensures x in LiveIn(ops, c.pods, k, s) <==> x in LiveRefs(c.pods, k) && c.tracker.mvs[k].StateOf(x.uid) == Some(s)
  {
    forall n | n in c.pods && !c.pods[n].deleting && LabelKey(c.pods[n]) == Some(k)
      ensures c.tracker.mvs[k].StateOf(c.pods[n].uid) == Some(ClassOf(ops, k, c.pods[n]))
    {
      LiveHasClass(w, c, ops, k, n);
    }
  }

  /** The three lists, each exactly. In every orderly run whose seeding presents pods as they are, once
      settled, the published status lists as uninjected the live labelled pods without the finalizer, as
      injected those with it whose stamps match every configuration the ModelValidation has had since the
      tracker last saw them, and as orphaned the others. */
  lemma {:induction false} ListsAreExact(w: C.World, steps: seq<Step>, k: Key, s: State)
    requires Exec(w, steps).Some? && SeedsCurrent(w, steps) && IsSettled(Exec(w, steps).value, k)
    ensures var j := Exec(w, steps).value;
            Members(ListOf(j.updates.api[k].status, s)) == LiveIn(Ops(w, steps), j.pods.pods, k, s)
  {
    var j, ops := Exec(w, steps).value, Ops(w, steps);
    ReachableInv(w, steps);
    ReachableCurrent(w, steps);
    OpsMakeTracker(w, steps);
    P.QuietIsPublished(j.updates);
    forall x ensures x in Members(ListOf(j.updates.api[k].status, s)) <==> x in LiveIn(ops, j.pods.pods, k, s) {
      InList(j.updates.api[k].status, j.pods.tracker.mvs[k], s, x);
      LiveInIff(w, j.pods, ops, k, s, x);
      LiveIffTracked(w, j.pods, k, x);
    }
  }

  /** A late seed step that presents a live pod in another state puts its record out of step: from a
      settled state the step keeps every record current if and only if it presents what the tracker
      reads of the pod as it is. */
  lemma SeedKeepsCurrentIff(w: C.World, c: C.System, pod: Pod, k: Key)
    requires C.Inv(w, c) && c.stale == {} && Current(w, c) && k in c.tracker.mvs
    requires C.Possible(w, c, C.SeedOther(pod, k)) && C.Orderly(c, C.SeedOther(pod, k))
    ensures Current(w, C.After(c, C.SeedOther(pod, k))) <==> LooksLike(pod, c.pods[PodName(pod)])
  {
    var a, n := C.SeedOther(pod, k), PodName(pod);
    var d := C.After(c, a);
    if LooksLike(pod, c.pods[n]) {
      ActionKeepsCurrent(w, c, a);
    }
    if Current(w, d) {
      SeenIsClassified(c.tracker, SeedPod(pod, k), k, pod.uid);
      assert d.tracker.Tracks(k, pod.uid);
      assert IsCurrent(w, d, k, pod.uid);
    }
  }
}
