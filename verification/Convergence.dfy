/** Pod reconciling and seeding (internal/controller/pod_controller.go,
    internal/tracker/status_tracker.go) against the pods of the API server. */
module Convergence {
  import opened Types
  import opened ModelValidationInfos
  import opened PodMappings
  import opened TrackerStates
  import opened TrackerHistory
  import opened TrackerIndex
  import opened PodControllers

  /** Fixed facts about UIDs: the name of the pod and the ModelValidation its label points at. */
  datatype World = World(nameOf: UID -> NamespacedName, labelOf: UID -> Option<Key>) {
    function KeyOf(): UID -> Key {
      u => match labelOf(u) case Some(k) => k case None => NamespacedName("", "")
    }

    predicate Knows(pod: Pod) {
      PodName(pod) == nameOf(pod.uid) && LabelKey(pod) == labelOf(pod.uid)
    }
  }

  /** `stale` are the names whose latest state has not been reconciled. `todo` is the seeding of each
      tracked ModelValidation: None before its List, then the listed names not yet processed. */
  datatype System = System(pods: Pods, tracker: Tracker, stale: set<NamespacedName>, todo: map<Key, Option<set<NamespacedName>>>)

  const NO_SYSTEM := System(map[], NO_TRACKING, {}, map[])

  datatype Action =
    | WritePod(pod: Pod)                                // a user or the API server creates or changes a pod
    | PodGone(name: NamespacedName)
    | Reconcile(name: NamespacedName, api: Api)
    | AddMVAction(key: Key, revision: Revision)
    | Untrack(op: Op)                                   // RemoveModelValidation or the not-found branch
    | ListPods(key: Key)
    | SeedListed(pod: Pod, key: Key)                    // the current seeding of the key
    | SeedOther(pod: Pod, key: Key)                     // a seeding left over from an earlier tracking

  function Labelled(pods: Pods, k: Key): set<NamespacedName> {
    set n | n in pods && LabelKey(pods[n]) == Some(k)
  }

  predicate Possible(w: World, c: System, a: Action) {
    match a
    case WritePod(pod) => w.Knows(pod) && (PodName(pod) in c.pods ==> c.pods[PodName(pod)].uid == pod.uid)
    case PodGone(n) => n in c.pods
    case Reconcile(_, _) => true
    case AddMVAction(_, _) => true
    case Untrack(op) => op.RemoveMV? || op.DropMissing?
    case ListPods(k) => k in c.todo && c.todo[k].None?
    case SeedListed(pod, k) =>
      w.Knows(pod) && LabelKey(pod) == Some(k) && k in c.todo && c.todo[k].Some? && PodName(pod) in c.todo[k].value
    case SeedOther(pod, k) => w.Knows(pod) && LabelKey(pod) == Some(k)
  }

  function After(c: System, a: Action): System {
    match a
    case WritePod(pod) => c.(pods := c.pods[PodName(pod) := pod], stale := c.stale + {PodName(pod)})
    case PodGone(n) => c.(pods := c.pods - {n}, stale := c.stale + {n})
    case Reconcile(n, api) =>
      var o := Reconciled(c.pods, n, api);
      c.(pods := o.pods, tracker := ApplyIfAny(c.tracker, o.op), stale := if o.ok && o.pods == c.pods then c.stale - {n} else c.stale + {n})
    case AddMVAction(k, r) =>
      c.(tracker := Apply(c.tracker, AddMV(k, r)), todo := if k in c.tracker.mvs then c.todo else c.todo[k := None])
    case Untrack(op) => c.(tracker := Apply(c.tracker, op), todo := if op.RemoveMV? || op.DropMissing? then c.todo - {op.key} else c.todo)
    case ListPods(k) => c.(todo := c.todo[k := Some(Labelled(c.pods, k))])
    case SeedListed(pod, k) =>
      c.(tracker := Apply(c.tracker, SeedPod(pod, k)),
         todo := if k in c.todo && c.todo[k].Some? then c.todo[k := Some(c.todo[k].value - {PodName(pod)})] else c.todo)
    case SeedOther(pod, k) => c.(tracker := Apply(c.tracker, SeedPod(pod, k)))
  }

  /** The pod exists and is not being deleted. */
  predicate Live(c: System, n: NamespacedName, u: UID) {
    n in c.pods && c.pods[n].uid == u && !c.pods[n].deleting
  }

  /** A seed step may present a pod if a reconcile of its name is still due and the name has no newer
      UID, or if the pod is alive at that moment. */
  predicate SeedOk(c: System, pod: Pod) {
    var n := PodName(pod);
    && NameFree(c.tracker, n, pod.uid)
    && if n in c.stale then n !in c.pods || c.pods[n].uid == pod.uid else Live(c, n, pod.uid)
  }

  /** A name is reused only after its old UID is untracked, and seeding is not behind reconciling. */
  predicate Orderly(c: System, a: Action) {
    match a
    case WritePod(pod) => NameFree(c.tracker, PodName(pod), pod.uid)
    case SeedListed(pod, _) => SeedOk(c, pod)
    case SeedOther(pod, _) => SeedOk(c, pod)
    case _ => true
  }

  // The invariant.

  ghost predicate KnownPods(w: World, c: System) {
    forall n | n in c.pods :: PodName(c.pods[n]) == n && w.Knows(c.pods[n])
  }

  /** A tracked pod carries the label, is the pod of its name, and is alive or due for a reconcile. */
  predicate Sound(w: World, c: System, k: Key, u: UID) {
    var n := w.nameOf(u);
    && w.labelOf(u) == Some(k)
    && (n in c.pods ==> c.pods[n].uid == u)
    && (n in c.stale || Live(c, n, u))
  }

  /** A live labelled pod is tracked, due for a reconcile, or still to be seeded. */
  predicate Covered(c: System, n: NamespacedName)
    requires n in c.pods
  {
    var pod := c.pods[n];
    !pod.deleting && LabelKey(pod).Some? && LabelKey(pod).value in c.tracker.mvs ==>
      var k := LabelKey(pod).value;
      || n in c.stale || c.tracker.Tracks(k, pod.uid)
      || (k in c.todo && (c.todo[k].None? || n in c.todo[k].value))
  }

  ghost predicate Inv(w: World, c: System) {
    && c.tracker.Valid() && Indexed(c.tracker, w.nameOf, w.KeyOf())
    && KnownPods(w, c)
    && (forall k, u | c.tracker.Tracks(k, u) :: Sound(w, c, k, u))
    && (forall n | n in c.pods :: Covered(c, n))
    && c.todo.Keys == c.tracker.mvs.Keys
  }

  /** The tracked pods of a name are that of the API server, so presenting it is regular. */
  lemma PresentIsRegular(w: World, c: System, n: NamespacedName)
    requires Inv(w, c) && n in c.pods && LabelKey(c.pods[n]).Some?
    ensures Regular(c.tracker, PodEvent(c.pods[n]), w.nameOf, w.KeyOf())
  {
    forall k, v | k in c.tracker.mvs && v in c.tracker.mvs[k].Tracked() && NameOf(c.tracker.mvs[k].All()[v]) == n ensures v == c.pods[n].uid {
      assert c.tracker.Tracks(k, v) && Found(c.tracker, k, v, w.nameOf, w.KeyOf());
      assert Sound(w, c, k, v);
    }
  }

  lemma OpKeepsIndexed(w: World, c: System, op: Op)
    requires Inv(w, c) && Regular(c.tracker, op, w.nameOf, w.KeyOf())
    ensures Apply(c.tracker, op).Valid() && Indexed(Apply(c.tracker, op), w.nameOf, w.KeyOf())
  {
    ApplyKeepsValid(c.tracker, op);
    ApplyStaysIndexed(c.tracker, op, w.nameOf, w.KeyOf());
  }

  lemma PodsKeepInv(w: World, c: System, a: Action)
    requires Inv(w, c) && Possible(w, c, a) && Orderly(c, a) && (a.WritePod? || a.PodGone?)
    ensures Inv(w, After(c, a))
  {
    var d := After(c, a);
    forall k, u | d.tracker.Tracks(k, u) ensures Sound(w, d, k, u) {
      assert Sound(w, c, k, u) && Found(c.tracker, k, u, w.nameOf, w.KeyOf());
    }
    forall n | n in d.pods ensures Covered(d, n) {
      if n in c.pods { assert Covered(c, n); }
    }
  }

  lemma AddMVKeepsInv(w: World, c: System, k: Key, r: Revision)
    requires Inv(w, c)
    ensures Inv(w, After(c, AddMVAction(k, r)))
  {
    var d, op := After(c, AddMVAction(k, r)), AddMV(k, r);
    OpKeepsIndexed(w, c, op);
    forall j, u | d.tracker.Tracks(j, u) ensures Sound(w, d, j, u) {
      TracksAfter(c.tracker, op, j, u);
      assert Sound(w, c, j, u);
    }
    forall n | n in d.pods ensures Covered(d, n) {
      assert Covered(c, n);
      if LabelKey(d.pods[n]).Some? { TracksAfter(c.tracker, op, LabelKey(d.pods[n]).value, d.pods[n].uid); }
    }
  }

  lemma UntrackKeepsInv(w: World, c: System, op: Op)
    requires Inv(w, c) && (op.RemoveMV? || op.DropMissing?)
    ensures Inv(w, After(c, Untrack(op)))
  {
    var d := After(c, Untrack(op));
    OpKeepsIndexed(w, c, op);
    forall j, u | d.tracker.Tracks(j, u) ensures Sound(w, d, j, u) {
      TracksAfter(c.tracker, op, j, u);
      assert Sound(w, c, j, u);
    }
    forall n | n in d.pods ensures Covered(d, n) {
      assert Covered(c, n);
      if LabelKey(d.pods[n]).Some? { TracksAfter(c.tracker, op, LabelKey(d.pods[n]).value, d.pods[n].uid); }
    }
  }

  lemma ListKeepsInv(w: World, c: System, k: Key)
    requires Inv(w, c) && Possible(w, c, ListPods(k))
    ensures Inv(w, After(c, ListPods(k)))
  {
    var d := After(c, ListPods(k));
    forall j, u | d.tracker.Tracks(j, u) ensures Sound(w, d, j, u) {
      assert Sound(w, c, j, u);
    }
    forall n | n in d.pods ensures Covered(d, n) {
      assert Covered(c, n);
    }
  }

  lemma SeedSound(w: World, c: System, a: Action, j: Key, u: UID)
    requires Inv(w, c) && Possible(w, c, a) && Orderly(c, a) && (a.SeedListed? || a.SeedOther?)
    requires Apply(c.tracker, SeedPod(a.pod, a.key)).Tracks(j, u)
    ensures Sound(w, c, j, u)
  {
    TracksAfter(c.tracker, SeedPod(a.pod, a.key), j, u);
    assert c.tracker.Tracks(j, u) ==> Sound(w, c, j, u);
  }

  lemma SeedCovered(w: World, c: System, a: Action, n: NamespacedName)
    requires Inv(w, c) && Possible(w, c, a) && Orderly(c, a) && (a.SeedListed? || a.SeedOther?) && n in c.pods
    ensures n in After(c, a).pods && Covered(After(c, a), n)
  {
    assert Covered(c, n) && w.Knows(c.pods[n]) && PodName(c.pods[n]) == n;
    if LabelKey(c.pods[n]).Some? { SeedTracksMore(c.tracker, a.pod, a.key, LabelKey(c.pods[n]).value, c.pods[n].uid); }
  }

  lemma SeedTracksMore(t: Tracker, pod: Pod, j: Key, k: Key, u: UID)
    ensures var s := Apply(t, SeedPod(pod, j)); (k in s.mvs <==> k in t.mvs) && (t.Tracks(k, u) ==> s.Tracks(k, u))
    ensures LabelKey(pod) == Some(j) && j in t.mvs ==> Apply(t, SeedPod(pod, j)).Tracks(j, pod.uid)
  {
    TracksAfter(t, SeedPod(pod, j), k, u);
    TracksAfter(t, SeedPod(pod, j), j, pod.uid);
  }

  lemma SeedKeepsInv(w: World, c: System, a: Action)
    requires Inv(w, c) && Possible(w, c, a) && Orderly(c, a) && (a.SeedListed? || a.SeedOther?)
    ensures Inv(w, After(c, a))
  {
    var d := After(c, a);
    OpKeepsIndexed(w, c, SeedPod(a.pod, a.key));
    forall j, u | d.tracker.Tracks(j, u) ensures Sound(w, d, j, u) {
      SeedSound(w, c, a, j, u);
    }
    forall n | n in d.pods ensures Covered(d, n) {
      SeedCovered(w, c, a, n);
    }
  }

  lemma ReconcileKeepsInv(w: World, c: System, n: NamespacedName, api: Api)
    requires Inv(w, c)
    ensures Inv(w, After(c, Reconcile(n, api)))
  {
    if !api.gets {
      ReconcileUnanswered(w, c, n, api);
    } else if n !in c.pods {
      ReconcileAbsent(w, c, n, api);
    } else if c.pods[n].deleting {
      ReconcileDeleting(w, c, n, api);
    } else if LabelKey(c.pods[n]).None? {
      ReconcileUnlabelled(w, c, n, api);
    } else {
      ReconcilePresent(w, c, n, api);
    }
  }

  lemma ReconcileUnanswered(w: World, c: System, n: NamespacedName, api: Api)
    requires Inv(w, c) && !api.gets
    ensures Inv(w, After(c, Reconcile(n, api)))
  {
    var d := After(c, Reconcile(n, api));
    forall j, u | d.tracker.Tracks(j, u) ensures Sound(w, d, j, u) {
      assert Sound(w, c, j, u);
    }
    forall m | m in d.pods ensures Covered(d, m) {
      assert Covered(c, m);
    }
  }

  lemma AbsentCovered(w: World, c: System, n: NamespacedName, m: NamespacedName)
    requires Inv(w, c) && n !in c.pods && m in c.pods
    requires LabelKey(c.pods[m]).Some?
    ensures var t, k, u := Apply(c.tracker, RemoveByName(n)), LabelKey(c.pods[m]).value, c.pods[m].uid;
            (k in t.mvs <==> k in c.tracker.mvs) && (t.Tracks(k, u) <==> c.tracker.Tracks(k, u))
  {
    TracksAfter(c.tracker, RemoveByName(n), LabelKey(c.pods[m]).value, c.pods[m].uid);
    RemovesOnlyNamed(w, c, n, LabelKey(c.pods[m]).value, c.pods[m].uid);
    assert w.Knows(c.pods[m]) && PodName(c.pods[m]) == m;
  }

  lemma AbsentSound(w: World, c: System, n: NamespacedName, j: Key, u: UID)
    requires Inv(w, c) && Apply(c.tracker, RemoveByName(n)).Tracks(j, u)
    ensures Sound(w, c, j, u) && w.nameOf(u) != n
  {
    TracksAfter(c.tracker, RemoveByName(n), j, u);
    assert Sound(w, c, j, u) && Found(c.tracker, j, u, w.nameOf, w.KeyOf());
  }

  lemma ReconcileAbsent(w: World, c: System, n: NamespacedName, api: Api)
    requires Inv(w, c) && api.gets && n !in c.pods
    ensures Inv(w, After(c, Reconcile(n, api)))
  {
    var d := After(c, Reconcile(n, api));
    OpKeepsIndexed(w, c, RemoveByName(n));
    forall j, u | d.tracker.Tracks(j, u) ensures Sound(w, d, j, u) {
      AbsentSound(w, c, n, j, u);
    }
    forall m | m in d.pods ensures Covered(d, m) {
      assert Covered(c, m);
      if LabelKey(d.pods[m]).Some? { AbsentCovered(w, c, n, m); }
    }
  }

  lemma RemovesOnlyNamed(w: World, c: System, n: NamespacedName, k: Key, u: UID)
    requires Inv(w, c)
    ensures Removes(c.tracker, RemoveByName(n), k, u) ==> w.nameOf(u) == n
  {
    if n in c.tracker.index.nameToUID { assert Inverted(c.tracker.index, n, w.nameOf); }
  }

  lemma PresentSound(w: World, c: System, n: NamespacedName, j: Key, u: UID)
    requires Inv(w, c) && n in c.pods && !c.pods[n].deleting && LabelKey(c.pods[n]).Some?
    requires Apply(c.tracker, PodEvent(c.pods[n])).Tracks(j, u)
    ensures w.labelOf(u) == Some(j) && (w.nameOf(u) in c.pods ==> c.pods[w.nameOf(u)].uid == u)
    ensures (w.nameOf(u) in c.stale && w.nameOf(u) != n) || Live(c, w.nameOf(u), u)
  {
    TracksAfter(c.tracker, PodEvent(c.pods[n]), j, u);
    assert c.tracker.Tracks(j, u) ==> Sound(w, c, j, u);
    assert w.Knows(c.pods[n]) && PodName(c.pods[n]) == n;
  }

  lemma PresentCovered(w: World, c: System, n: NamespacedName, m: NamespacedName)
    requires Inv(w, c) && n in c.pods && !c.pods[n].deleting && LabelKey(c.pods[n]).Some? && m in c.pods && LabelKey(c.pods[m]).Some?
    ensures var t, k, u := Apply(c.tracker, PodEvent(c.pods[n])), LabelKey(c.pods[m]).value, c.pods[m].uid;
            (k in t.mvs <==> k in c.tracker.mvs) && (c.tracker.Tracks(k, u) ==> t.Tracks(k, u)) && (m == n && k in t.mvs ==> t.Tracks(k, u))
  {
    TracksAfter(c.tracker, PodEvent(c.pods[n]), LabelKey(c.pods[m]).value, c.pods[m].uid);
  }

  lemma ReconcilePresent(w: World, c: System, n: NamespacedName, api: Api)
    requires Inv(w, c) && api.gets && n in c.pods && !c.pods[n].deleting && LabelKey(c.pods[n]).Some?
    ensures Inv(w, After(c, Reconcile(n, api)))
  {
    var d := After(c, Reconcile(n, api));
    PresentIsRegular(w, c, n);
    OpKeepsIndexed(w, c, PodEvent(c.pods[n]));
    assert d.pods == c.pods && d.stale == c.stale - {n};
    forall j, u | d.tracker.Tracks(j, u) ensures Sound(w, d, j, u) {
      PresentSound(w, c, n, j, u);
    }
    forall m | m in d.pods ensures Covered(d, m) {
      assert Covered(c, m);
      if LabelKey(d.pods[m]).Some? { PresentCovered(w, c, n, m); }
    }
  }

  lemma StrippedIsKnown(w: World, pod: Pod)
    requires w.Knows(pod)
    ensures w.Knows(Stripped(pod)) && PodName(Stripped(pod)) == PodName(pod) && LabelKey(Stripped(pod)) == LabelKey(pod)
  {
  }

  /** A reconcile that may update a pod changes no other pod, and keeps its UID, label and deletion. */
  lemma UpdateFrame(w: World, c: System, n: NamespacedName, api: Api)
    requires Inv(w, c) && api.gets && n in c.pods && (c.pods[n].deleting || LabelKey(c.pods[n]).None?)
    ensures var d := After(c, Reconcile(n, api));
            && d.todo == c.todo && d.pods.Keys == c.pods.Keys && c.stale - {n} <= d.stale
            && (forall m | m in c.pods && m != n :: d.pods[m] == c.pods[m])
            && (d.pods[n] == c.pods[n] || d.pods[n] == Stripped(c.pods[n]))
  {
  }

  lemma UpdateKeepsKnown(w: World, c: System, n: NamespacedName, api: Api)
    requires Inv(w, c) && api.gets && n in c.pods && (c.pods[n].deleting || LabelKey(c.pods[n]).None?)
    ensures KnownPods(w, After(c, Reconcile(n, api)))
  {
    UpdateFrame(w, c, n, api);
    StrippedIsKnown(w, c.pods[n]);
    assert w.Knows(c.pods[n]) && PodName(c.pods[n]) == n;
  }

  /** What an update of another pod leaves as it was. */
  lemma OthersStaySound(w: World, c: System, d: System, n: NamespacedName, j: Key, u: UID)
    requires Sound(w, c, j, u) && w.nameOf(u) != n
    requires d.pods.Keys == c.pods.Keys && c.stale - {n} <= d.stale && forall m | m in c.pods && m != n :: d.pods[m] == c.pods[m]
    ensures Sound(w, d, j, u)
  {
  }

  lemma DeletingTracks(w: World, c: System, n: NamespacedName, j: Key, u: UID)
    requires Inv(w, c) && n in c.pods && Apply(c.tracker, RemoveUID(c.pods[n].uid)).Tracks(j, u)
    ensures w.nameOf(u) != n && Sound(w, c, j, u)
  {
    TracksAfter(c.tracker, RemoveUID(c.pods[n].uid), j, u);
    assert Sound(w, c, j, u);
  }

  lemma DeletingCovered(w: World, c: System, n: NamespacedName, m: NamespacedName)
    requires Inv(w, c) && n in c.pods && m in c.pods && m != n && LabelKey(c.pods[m]).Some?
    ensures var t, k, u := Apply(c.tracker, RemoveUID(c.pods[n].uid)), LabelKey(c.pods[m]).value, c.pods[m].uid;
            (k in t.mvs <==> k in c.tracker.mvs) && (t.Tracks(k, u) <==> c.tracker.Tracks(k, u))
  {
    TracksAfter(c.tracker, RemoveUID(c.pods[n].uid), LabelKey(c.pods[m]).value, c.pods[m].uid);
    assert PodName(c.pods[m]) == m && w.Knows(c.pods[m]) && PodName(c.pods[n]) == n && w.Knows(c.pods[n]);
  }

  lemma ReconcileDeleting(w: World, c: System, n: NamespacedName, api: Api)
    requires Inv(w, c) && api.gets && n in c.pods && c.pods[n].deleting
    ensures Inv(w, After(c, Reconcile(n, api)))
  {
    var d := After(c, Reconcile(n, api));
    OpKeepsIndexed(w, c, RemoveUID(c.pods[n].uid));
    UpdateFrame(w, c, n, api);
    UpdateKeepsKnown(w, c, n, api);
    assert d.tracker == Apply(c.tracker, RemoveUID(c.pods[n].uid));
    forall j, u | d.tracker.Tracks(j, u) ensures Sound(w, d, j, u) {
      DeletingTracks(w, c, n, j, u);
      OthersStaySound(w, c, d, n, j, u);
    }
    forall m | m in d.pods ensures Covered(d, m) {
      assert Covered(c, m);
      if m != n && LabelKey(d.pods[m]).Some? { DeletingCovered(w, c, n, m); }
    }
  }

  /** No tracked pod has the name of a pod without the label. */
  lemma UnlabelledIsUntracked(w: World, c: System, n: NamespacedName, j: Key, u: UID)
    requires Inv(w, c) && n in c.pods && LabelKey(c.pods[n]).None? && c.tracker.Tracks(j, u)
    ensures w.nameOf(u) != n && Sound(w, c, j, u)
  {
    assert Sound(w, c, j, u) && w.Knows(c.pods[n]);
  }

  lemma UnlabelledTracks(w: World, c: System, n: NamespacedName, api: Api, j: Key, u: UID)
    requires Inv(w, c) && api.gets && n in c.pods && !c.pods[n].deleting && LabelKey(c.pods[n]).None?
    ensures var t := After(c, Reconcile(n, api)).tracker;
            (j in t.mvs <==> j in c.tracker.mvs) && (t.Tracks(j, u) <==> c.tracker.Tracks(j, u))
  {
    TracksAfter(c.tracker, RemoveByName(n), j, u);
    RemovesOnlyNamed(w, c, n, j, u);
    if c.tracker.Tracks(j, u) { UnlabelledIsUntracked(w, c, n, j, u); }
  }

  lemma UnlabelledIndexed(w: World, c: System, n: NamespacedName, api: Api)
    requires Inv(w, c) && api.gets && n in c.pods && !c.pods[n].deleting && LabelKey(c.pods[n]).None?
    ensures var t := After(c, Reconcile(n, api)).tracker; t.Valid() && Indexed(t, w.nameOf, w.KeyOf()) && t.mvs.Keys == c.tracker.mvs.Keys
  {
    OpKeepsIndexed(w, c, RemoveByName(n));
  }

  lemma ReconcileUnlabelled(w: World, c: System, n: NamespacedName, api: Api)
    requires Inv(w, c) && api.gets && n in c.pods && !c.pods[n].deleting && LabelKey(c.pods[n]).None?
    ensures Inv(w, After(c, Reconcile(n, api)))
  {
    var d := After(c, Reconcile(n, api));
    UnlabelledIndexed(w, c, n, api);
    UpdateFrame(w, c, n, api);
    UpdateKeepsKnown(w, c, n, api);
    forall j, u | d.tracker.Tracks(j, u) ensures Sound(w, d, j, u) {
      UnlabelledTracks(w, c, n, api, j, u);
      UnlabelledIsUntracked(w, c, n, j, u);
      OthersStaySound(w, c, d, n, j, u);
    }
    forall m | m in d.pods ensures Covered(d, m) {
      assert Covered(c, m);
      if m != n && LabelKey(c.pods[m]).Some? { UnlabelledTracks(w, c, n, api, LabelKey(c.pods[m]).value, c.pods[m].uid); }
    }
  }

  lemma ActionKeepsInv(w: World, c: System, a: Action)
    requires Inv(w, c) && Possible(w, c, a) && Orderly(c, a)
    ensures Inv(w, After(c, a))
  {
    match a {
      case WritePod(_) => PodsKeepInv(w, c, a);
      case PodGone(_) => PodsKeepInv(w, c, a);
      case Reconcile(n, api) => ReconcileKeepsInv(w, c, n, api);
      case AddMVAction(k, r) => AddMVKeepsInv(w, c, k, r);
      case Untrack(op) => UntrackKeepsInv(w, c, op);
      case ListPods(k) => ListKeepsInv(w, c, k);
      case SeedListed(_, _) => SeedKeepsInv(w, c, a);
      case SeedOther(_, _) => SeedKeepsInv(w, c, a);
    }
  }

  /** The state after a run, if each step is possible and orderly where asked. */
  ghost function Exec(w: World, actions: seq<Action>, orderly: bool): Option<System>
    decreases |actions|
  {
    if actions == [] then Some(NO_SYSTEM)
    else
      match Exec(w, actions[..|actions| - 1], orderly)
      case None => None
      case Some(c) =>
        var a := actions[|actions| - 1];
        if Possible(w, c, a) && (orderly ==> Orderly(c, a)) then Some(After(c, a)) else None
  }

  lemma {:induction false} ReachableInv(w: World, actions: seq<Action>)
    requires Exec(w, actions, true).Some?
    ensures Inv(w, Exec(w, actions, true).value)
    decreases |actions|
  {
    if actions != [] {
      ReachableInv(w, actions[..|actions| - 1]);
      ActionKeepsInv(w, Exec(w, actions[..|actions| - 1], true).value, actions[|actions| - 1]);
    }
  }

  /** No pod that is being deleted or has no label holds our finalizer, unless a reconcile of it is due. */
  predicate NoneHeld(c: System) {
    forall n | n in c.pods && n !in c.stale && IsReleased(c.pods[n]) :: FINALIZER !in c.pods[n].finalizers
  }

  lemma ActionKeepsNoneHeld(w: World, c: System, a: Action)
    requires NoneHeld(c) && Possible(w, c, a)
    ensures NoneHeld(After(c, a))
  {
    if a.Reconcile? {
      ReconcileKeepsNoneHeld(c, a.name, a.api);
    }
  }

  lemma ReconcileKeepsNoneHeld(c: System, n: NamespacedName, api: Api)
    requires NoneHeld(c)
    ensures NoneHeld(After(c, Reconcile(n, api)))
  {
    ReconcileFailsIff(c.pods, n, api);
    if api.gets && n in c.pods && IsReleased(c.pods[n]) && api.update != Refused {
      FinalizerIsReleased(c.pods, n, api);
    } else {
      OthersAreNotUpdated(c.pods, n, api);
    }
  }

  /** No pod is held back: in every run, orderly or not, once every pod's latest state has been reconciled,
      no pod that is being deleted, and none without the label, still has our finalizer. */
  lemma {:induction false} SettledPodsAreReleased(w: World, actions: seq<Action>, orderly: bool)
    requires Exec(w, actions, orderly).Some?
    ensures NoneHeld(Exec(w, actions, orderly).value)
    decreases |actions|
  {
    if actions != [] {
      SettledPodsAreReleased(w, actions[..|actions| - 1], orderly);
      ActionKeepsNoneHeld(w, Exec(w, actions[..|actions| - 1], orderly).value, actions[|actions| - 1]);
    }
  }

  function TrackedUIDs(t: Tracker, k: Key): set<UID> {
    if k in t.mvs then t.mvs[k].Tracked() else {}
  }

  /** The pods that exist, are not being deleted and carry the label. */
  function LiveUIDs(pods: Pods, k: Key): set<UID> {
    set n | n in pods && !pods[n].deleting && LabelKey(pods[n]) == Some(k) :: pods[n].uid
  }

  predicate Seeded(c: System, k: Key) {
    k in c.tracker.mvs && k in c.todo && c.todo[k] == Some({})
  }

  lemma InvMeansExact(w: World, c: System, k: Key)
    requires Inv(w, c) && c.stale == {} && Seeded(c, k)
    ensures TrackedUIDs(c.tracker, k) == LiveUIDs(c.pods, k)
  {
    forall u | u in TrackedUIDs(c.tracker, k) ensures u in LiveUIDs(c.pods, k) {
      assert c.tracker.Tracks(k, u) && Sound(w, c, k, u);
      var n := w.nameOf(u);
      assert n in c.pods && c.pods[n].uid == u && LabelKey(c.pods[n]) == Some(k);
    }
    forall u | u in LiveUIDs(c.pods, k) ensures u in TrackedUIDs(c.tracker, k) {
      var n :| n in c.pods && !c.pods[n].deleting && LabelKey(c.pods[n]) == Some(k) && c.pods[n].uid == u;
      assert Covered(c, n);
    }
  }

  /** Convergence: in every orderly run, once every pod's latest state has been reconciled, the pods
      tracked under a ModelValidation that is tracked and seeded are exactly the existing pods with
      its label that are not being deleted. */
  lemma TrackedPodsConverge(w: World, actions: seq<Action>, k: Key)
    requires Exec(w, actions, true).Some?
    requires var c := Exec(w, actions, true).value; c.stale == {} && Seeded(c, k)
    ensures var c := Exec(w, actions, true).value; TrackedUIDs(c.tracker, k) == LiveUIDs(c.pods, k)
  {
    ReachableInv(w, actions);
    InvMeansExact(w, Exec(w, actions, true).value, k);
  }

  /** From a settled state a late seed step keeps the tracked pods exact if and only if the pod it
      presents is, at that moment, alive. Seeding itself never looks at the deletion timestamp. */
  lemma SeedKeepsExactIff(w: World, c: System, pod: Pod, k: Key)
    requires Inv(w, c) && c.stale == {} && Seeded(c, k)
    requires w.Knows(pod) && LabelKey(pod) == Some(k)
    ensures var d := After(c, SeedOther(pod, k));
            TrackedUIDs(d.tracker, k) == LiveUIDs(d.pods, k) <==> Live(c, PodName(pod), pod.uid)
  {
    InvMeansExact(w, c, k);
    LiveIffListed(w, c, pod, k);
    SeedTracks(c, pod, k);
    StaysExactIff(c, After(c, SeedOther(pod, k)), pod.uid, k);
  }

  lemma StaysExactIff(c: System, d: System, u: UID, k: Key)
    requires TrackedUIDs(c.tracker, k) == LiveUIDs(c.pods, k)
    requires TrackedUIDs(d.tracker, k) == TrackedUIDs(c.tracker, k) + {u} && d.pods == c.pods
    ensures TrackedUIDs(d.tracker, k) == LiveUIDs(d.pods, k) <==> u in LiveUIDs(c.pods, k)
  {
  }

  lemma LiveIffListed(w: World, c: System, pod: Pod, k: Key)
    requires KnownPods(w, c) && w.Knows(pod) && LabelKey(pod) == Some(k)
    ensures pod.uid in LiveUIDs(c.pods, k) <==> Live(c, PodName(pod), pod.uid)
  {
    forall m | m in c.pods && !c.pods[m].deleting && LabelKey(c.pods[m]) == Some(k) && c.pods[m].uid == pod.uid
      ensures Live(c, PodName(pod), pod.uid)
    {
      assert w.Knows(c.pods[m]) && PodName(c.pods[m]) == m;
    }
    if Live(c, PodName(pod), pod.uid) {
      assert w.Knows(c.pods[PodName(pod)]);
    }
  }

  lemma SeedTracks(c: System, pod: Pod, k: Key)
    requires c.tracker.Valid() && k in c.tracker.mvs && LabelKey(pod) == Some(k)
    ensures TrackedUIDs(After(c, SeedOther(pod, k)).tracker, k) == TrackedUIDs(c.tracker, k) + {pod.uid}
  {
    SeenTracked(c.tracker.mvs[k], InfoOf(pod), HasFinalizer(pod));
  }

  lemma SeenTracked(i: Info, p: PodInfo, f: bool)
    requires i.Valid()
    ensures Observe(i, p, f).Tracked() == i.Tracked() + {p.uid}
  {
  }

  /** The five steps by which a pod that is being deleted, and has been reconciled, becomes tracked:
      the List of a fresh seeding returns it. */
  function DeletedPodRun(pod: Pod, k: Key, r: Revision): seq<Action> {
    [WritePod(pod), Reconcile(PodName(pod), Api(true, Accepted)), AddMVAction(k, r), ListPods(k), SeedListed(pod, k)]
  }

  lemma ExecOneMore(w: World, actions: seq<Action>, a: Action, c: System)
    requires Exec(w, actions, false) == Some(c) && Possible(w, c, a)
    ensures Exec(w, actions + [a], false) == Some(After(c, a))
  {
    assert (actions + [a])[..|actions|] == actions;
  }

  /** The deleting pod's state after the List of the fresh seeding. */
  function Listed(pod: Pod, k: Key, r: Revision): System {
    var n := PodName(pod);
    System(map[n := pod], Apply(Apply(NO_TRACKING, RemoveUID(pod.uid)), AddMV(k, r)), {}, map[k := Some({n})])
  }

  lemma DeletedPodIsListed(w: World, pod: Pod, k: Key, r: Revision)
    requires w.Knows(pod) && LabelKey(pod) == Some(k) && pod.deleting && !HasFinalizer(pod)
    ensures Exec(w, DeletedPodRun(pod, k, r)[..4], false) == Some(Listed(pod, k, r))
  {
    var run, n := DeletedPodRun(pod, k, r), PodName(pod);
    var c1 := After(NO_SYSTEM, run[0]);
    ExecOneMore(w, [], run[0], NO_SYSTEM);
    var c2 := After(c1, run[1]);
    ExecOneMore(w, [] + [run[0]], run[1], c1);
    assert c2.stale == {} && c2.pods == map[n := pod] && c2.tracker.mvs == map[];
    var c3 := After(c2, run[2]);
    ExecOneMore(w, [] + [run[0]] + [run[1]], run[2], c2);
    ExecOneMore(w, [] + [run[0]] + [run[1]] + [run[2]], run[3], c3);
    var c4, l := After(c3, run[3]), Listed(pod, k, r);
    assert Labelled(c3.pods, k) == {n};
    assert c4.pods == l.pods && c4.stale == l.stale && c4.todo == l.todo;
    assert c4.tracker == l.tracker;
    assert run[..4] == [] + [run[0]] + [run[1]] + [run[2]] + [run[3]];
  }

  lemma DeletedPodIsSeeded(w: World, pod: Pod, k: Key, r: Revision)
    requires w.Knows(pod) && LabelKey(pod) == Some(k) && pod.deleting && !HasFinalizer(pod)
    ensures Exec(w, DeletedPodRun(pod, k, r), false).Some?
    ensures var c := Exec(w, DeletedPodRun(pod, k, r), false).value;
            && c.stale == {} && Seeded(c, k) && c.pods == map[PodName(pod) := pod]
            && pod.uid in TrackedUIDs(c.tracker, k) && LiveUIDs(c.pods, k) == {}
  {
    var run, c := DeletedPodRun(pod, k, r), Listed(pod, k, r);
    DeletedPodIsListed(w, pod, k, r);
    ExecOneMore(w, run[..4], run[4], c);
    assert run == run[..4] + [run[4]];
    SeenTracked(NewInfo(r), InfoOf(pod), HasFinalizer(pod));
    assert {PodName(pod)} - {PodName(pod)} == {};
    assert After(c, run[4]).tracker.mvs == map[k := Observe(NewInfo(r), InfoOf(pod), HasFinalizer(pod))];
  }
}
