/** The tracker's state and what each of its critical sections does to it
    (internal/tracker/status_tracker.go). */
module TrackerStates {
  import opened Types
  import opened ModelValidationInfos
  import opened PodMappings

  type Key = NamespacedName

  datatype Tracker = Tracker(mvs: map<Key, Info>, namespaces: map<string, int>, index: Index) {
    predicate Tracks(k: Key, u: UID) {
      k in mvs && u in mvs[k].Tracked()
    }

    ghost predicate Valid() {
      forall k | k in mvs :: mvs[k].Valid()
    }
  }

  const NO_TRACKING := Tracker(map[], map[], EMPTY)

  type ValidTracker = t: Tracker | t.Valid() ghost witness NO_TRACKING

  /** Indexing a Go map of ints. */
  function Count(namespaces: map<string, int>, ns: string): int {
    if ns in namespaces then namespaces[ns] else 0
  }

  /** The critical sections that change the state. DropMissing is the not-found branch of doUpdateStatus. */
  datatype Op =
    | AddMV(key: Key, revision: Revision)
    | RemoveMV(key: Key)
    | PodEvent(pod: Pod)
    | SeedPod(pod: Pod, key: Key)
    | RemoveUID(uid: UID)
    | RemoveByName(name: NamespacedName)
    | DropMissing(key: Key)

  function AddedMV(t: Tracker, k: Key, r: Revision): Tracker {
    if k !in t.mvs then
      t.(mvs := t.mvs[k := NewInfo(r)], namespaces := t.namespaces[k.namespace := Count(t.namespaces, k.namespace) + 1])
    else if r.generation != t.mvs[k].generation then t.(mvs := t.mvs[k := Reconfigure(t.mvs[k], r)])
    else t
  }

  function Names(pods: PodMap): set<NamespacedName> {
    set u | u in pods :: NameOf(pods[u])
  }

  function Discounted(namespaces: map<string, int>, ns: string): map<string, int> {
    var n := Count(namespaces, ns) - 1;
    if n <= 0 then namespaces - {ns} else namespaces[ns := n]
  }

  function RemovedMV(t: Tracker, k: Key): Tracker {
    if k !in t.mvs then t
    else Tracker(t.mvs - {k}, Discounted(t.namespaces, k.namespace), RemoveNames(t.index, Names(t.mvs[k].All())))
  }

  /** processPodEventCommon, when the ModelValidation is tracked. */
  function SawPod(t: Tracker, pod: Pod, k: Key): Tracker {
    if k !in t.mvs then t
    else t.(mvs := t.mvs[k := Observe(t.mvs[k], InfoOf(pod), HasFinalizer(pod))], index := Add(t.index, PodName(pod), pod.uid))
  }

  function WithoutPod(mvs: map<Key, Info>, u: UID): map<Key, Info> {
    map k | k in mvs :: Remove(mvs[k], u)
  }

  function RemovedUID(t: Tracker, u: UID): Tracker {
    t.(mvs := WithoutPod(t.mvs, u))
  }

  function RemovedName(t: Tracker, n: NamespacedName): Tracker {
    if n in t.index.nameToUID then
      t.(mvs := WithoutPod(t.mvs, t.index.nameToUID[n]), index := RemoveNames(t.index, {n}))
    else t
  }

  function Apply(t: Tracker, op: Op): Tracker {
    match op
    case AddMV(k, r) => AddedMV(t, k, r)
    case RemoveMV(k) => RemovedMV(t, k)
    case PodEvent(pod) => (match LabelKey(pod) case Some(k) => SawPod(t, pod, k) case None => t)
    case SeedPod(pod, k) => if LabelKey(pod).Some? then SawPod(t, pod, k) else t
    case RemoveUID(u) => RemovedUID(t, u)
    case RemoveByName(n) => RemovedName(t, n)
    case DropMissing(k) => t.(mvs := t.mvs - {k})
  }

  /** The ModelValidations that hold a pod. */
  function Holders(t: Tracker, u: UID): set<Key> {
    set k | k in t.mvs && u in t.mvs[k].Tracked()
  }

  /** The keys each critical section hands to the debounced queue. AddModelValidation does so after
      it has released the lock. */
  function Touched(t: Tracker, op: Op): set<Key> {
    match op
    case PodEvent(pod) => (match LabelKey(pod) case Some(k) => {k} * t.mvs.Keys case None => {})
    case SeedPod(pod, k) => if LabelKey(pod).Some? then {k} * t.mvs.Keys else {}
    case RemoveUID(u) => Holders(t, u)
    case RemoveByName(n) => if n in t.index.nameToUID then Holders(t, t.index.nameToUID[n]) else {}
    case _ => {}
  }

  function Run(ops: seq<Op>): Tracker {
    if ops == [] then NO_TRACKING else Apply(Run(ops[..|ops| - 1]), ops[|ops| - 1])
  }

  /** AddModelValidation installs the configuration it is given exactly if the key is new, or its
      generation is, or the configuration is the tracked one already. */
  lemma InstallsIff(t: Tracker, k: Key, r: Revision)
    ensures k in Apply(t, AddMV(k, r)).mvs
    ensures Apply(t, AddMV(k, r)).mvs[k].config == r.config
       <==> k !in t.mvs || r.generation != t.mvs[k].generation || t.mvs[k].config == r.config
  {
  }

  lemma ApplyKeepsValid(t: Tracker, op: Op)
    requires t.Valid()
    ensures Apply(t, op).Valid()
  {
    forall k | k in Apply(t, op).mvs ensures Apply(t, op).mvs[k].Valid() {
      match op {
        case AddMV(_, r) => if k in t.mvs { ReconfigureKeepsValid(t.mvs[k], r); }
        case PodEvent(pod) => if k in t.mvs { ObserveKeepsValid(t.mvs[k], InfoOf(pod), HasFinalizer(pod)); }
        case SeedPod(pod, _) => if k in t.mvs { ObserveKeepsValid(t.mvs[k], InfoOf(pod), HasFinalizer(pod)); }
        case RemoveUID(u) => RemoveKeepsValid(t.mvs[k], u);
        case RemoveByName(n) => if n in t.index.nameToUID { RemoveKeepsValid(t.mvs[k], t.index.nameToUID[n]); }
        case _ =>
      }
    }
  }

  lemma RemovedUIDKeepsValid(t: Tracker, u: UID)
    requires t.Valid()
    ensures RemovedUID(t, u).Valid()
  {
    ApplyKeepsValid(t, RemoveUID(u));
  }

  /** In every reachable state the three maps of every ModelValidation are disjoint and keyed by UID,
      and every injected pod passes the drift test against the current configuration. */
  lemma {:induction false} ReachableIsValid(ops: seq<Op>)
    ensures Run(ops).Valid()
  {
    if ops != [] {
      ReachableIsValid(ops[..|ops| - 1]);
      ApplyKeepsValid(Run(ops[..|ops| - 1]), ops[|ops| - 1]);
    }
  }

  /** Removing a pod leaves its UID in no map and changes no other pod; the keys handed to the queue
      are exactly the ModelValidations that change. The index and the namespaces stay. */
  lemma RemovalIsExact(t: Tracker, u: UID)
    requires t.Valid()
    ensures var s := Apply(t, RemoveUID(u));
            && s.mvs.Keys == t.mvs.Keys && s.index == t.index && s.namespaces == t.namespaces
            && (forall k | k in t.mvs :: s.mvs[k].Tracked() == t.mvs[k].Tracked() - {u})
            && (forall k, v | k in t.mvs && v != u :: s.mvs[k].StateOf(v) == t.mvs[k].StateOf(v))
            && (forall k | k in t.mvs :: k in Touched(t, RemoveUID(u)) <==> s.mvs[k] != t.mvs[k])
            && Touched(t, RemoveUID(u)) <= t.mvs.Keys
  {
    forall k | k in t.mvs ensures u in t.mvs[k].Tracked() <==> Remove(t.mvs[k], u) != t.mvs[k] {
      RemoveKeepsValid(t.mvs[k], u);
      if u !in t.mvs[k].Tracked() {
        RemoveAbsent(t.mvs[k], u);
      }
    }
  }

  /** The same for removal by name, of the UID that the index binds to it; the name is forgotten. An
      unknown name changes and queues nothing. */
  lemma NamedRemovalIsExact(t: Tracker, n: NamespacedName)
    requires t.Valid()
    ensures n !in t.index.nameToUID ==> Apply(t, RemoveByName(n)) == t && Touched(t, RemoveByName(n)) == {}
    ensures n in t.index.nameToUID ==>
              var s, u := Apply(t, RemoveByName(n)), t.index.nameToUID[n];
              && s.mvs.Keys == t.mvs.Keys && s.namespaces == t.namespaces
              && (forall m :: Bound(s.index, m) == if m == n then None else Bound(t.index, m))
              && (forall v :: Named(s.index, v) == if v == u then None else Named(t.index, v))
              && (forall k | k in t.mvs :: s.mvs[k].Tracked() == t.mvs[k].Tracked() - {u})
              && (forall k, v | k in t.mvs && v != u :: s.mvs[k].StateOf(v) == t.mvs[k].StateOf(v))
              && (forall k | k in t.mvs :: k in Touched(t, RemoveByName(n)) <==> s.mvs[k] != t.mvs[k])
  {
    if n in t.index.nameToUID {
      var u := t.index.nameToUID[n];
      RemovalIsExact(t, u);
      SameMaps(t, n);
      RemoveNamesUnbinds(t.index, {n});
      assert n in {n} && Bound(t.index, n) == Some(u);
    }
  }

  /** Untracking a ModelValidation drops it and no other, and forgets exactly the names of its pods and
      the UIDs bound to these. */
  lemma UntrackingIsExact(t: Tracker, k: Key)
    ensures k !in t.mvs ==> Apply(t, RemoveMV(k)) == t
    ensures k in t.mvs ==>
              var s := Apply(t, RemoveMV(k));
              && s.mvs == t.mvs - {k}
              && (forall m :: Bound(s.index, m) == if HasPodNamed(t.mvs[k], m) then None else Bound(t.index, m))
              && (forall v :: Named(s.index, v)
                              == if exists m :: HasPodNamed(t.mvs[k], m) && Bound(t.index, m) == Some(v) then None else Named(t.index, v))
    ensures Touched(t, RemoveMV(k)) == {}
  {
    if k in t.mvs {
      RemoveNamesUnbinds(t.index, Names(t.mvs[k].All()));
      forall m ensures m in Names(t.mvs[k].All()) <==> HasPodNamed(t.mvs[k], m) {
      }
    }
  }

  predicate HasPodNamed(i: Info, n: NamespacedName) {
    exists u :: u in i.Tracked() && i.All()[u].namespace == n.namespace && i.All()[u].name == n.name
  }

  /** The not-found branch drops the key and leaves the namespaces and the index as they are. */
  lemma DroppingIsExact(t: Tracker, k: Key)
    ensures var s := Apply(t, DropMissing(k)); s.mvs == t.mvs - {k} && s.namespaces == t.namespaces && s.index == t.index
    ensures Touched(t, DropMissing(k)) == {}
  {
  }

  /** AddModelValidation leaves the pods of every ModelValidation tracked, changes no other
      ModelValidation, and leaves the index alone. */
  lemma AddingIsExact(t: Tracker, k: Key, r: Revision)
    requires t.Valid()
    ensures var s := Apply(t, AddMV(k, r));
            && s.mvs.Keys == t.mvs.Keys + {k} && s.index == t.index
            && (forall j | j in t.mvs && j != k :: s.mvs[j] == t.mvs[j])
            && s.mvs[k].Tracked() == (if k in t.mvs then t.mvs[k].Tracked() else {})
            && s.mvs[k].generation == r.generation
            && (k in t.mvs ==> s.namespaces == t.namespaces)
            && (k in t.mvs && r.generation == t.mvs[k].generation ==> s == t)
  {
    if k in t.mvs { ReconfigureKeepsValid(t.mvs[k], r); }
  }

  // What an event of a pod does, in terms of the pod.

  /** The pod is recorded under the key, by name, namespace, UID and stamps, and bound in the index;
      nothing else changes. */
  ghost predicate Sighted(t: Tracker, s: Tracker, pod: Pod, k: Key)
    requires k in t.mvs
  {
    && s.mvs.Keys == t.mvs.Keys && s.namespaces == t.namespaces
    && (forall j | j in t.mvs && j != k :: s.mvs[j] == t.mvs[j])
    && s.mvs[k].config == t.mvs[k].config && s.mvs[k].generation == t.mvs[k].generation
    && (forall u | u != pod.uid :: s.mvs[k].StateOf(u) == t.mvs[k].StateOf(u))
    && s.mvs[k].Tracked() == t.mvs[k].Tracked() + {pod.uid}
    && IsRecordOf(s.mvs[k].All()[pod.uid], pod)
    && (s.mvs[k].StateOf(pod.uid) == Some(Uninjected) <==> FINALIZER !in pod.finalizers)
    && (forall m :: Bound(s.index, m) == if m == NamespacedName(pod.namespace, pod.name) then Some(pod.uid) else Bound(t.index, m))
    && (forall u :: Named(s.index, u) == if u == pod.uid then Some(NamespacedName(pod.namespace, pod.name)) else Named(t.index, u))
  }

  predicate IsRecordOf(p: PodInfo, pod: Pod) {
    && p.name == pod.name && p.namespace == pod.namespace && p.uid == pod.uid
    && p.configHash == (if CONFIG_HASH_ANNOTATION in pod.annotations then pod.annotations[CONFIG_HASH_ANNOTATION] else "")
    && p.authMethod == (if AUTH_METHOD_ANNOTATION in pod.annotations then pod.annotations[AUTH_METHOD_ANNOTATION] else "")
  }

  predicate HasLabel(pod: Pod) {
    LABEL in pod.labels && pod.labels[LABEL] != ""
  }

  lemma ObservedOnly(i: Info, pod: Pod)
    requires i.Valid()
    ensures var j := Observe(i, InfoOf(pod), HasFinalizer(pod));
            && j.config == i.config && j.generation == i.generation && j.Tracked() == i.Tracked() + {pod.uid}
            && (forall u | u != pod.uid :: j.StateOf(u) == i.StateOf(u))
            && IsRecordOf(j.All()[pod.uid], pod)
            && (j.StateOf(pod.uid) == Some(Uninjected) <==> FINALIZER !in pod.finalizers)
  {
    var p, s := InfoOf(pod), Classify(InfoOf(pod), HasFinalizer(pod), i.config);
    ObserveKeepsValid(i, p, HasFinalizer(pod));
    PlacedRecord(i, p, s);
    forall u | u != pod.uid ensures Place(i, p, s).StateOf(u) == i.StateOf(u) {
      PlacedOthers(i, p, s, u);
    }
    assert IsRecordOf(p, pod);
  }

  lemma PlacedRecord(i: Info, p: PodInfo, s: State)
    ensures Place(i, p, s).Tracked() == i.Tracked() + {p.uid} && Place(i, p, s).All()[p.uid] == p
  {
  }

  lemma PlacedOthers(i: Info, p: PodInfo, s: State, u: UID)
    requires u != p.uid
    ensures Place(i, p, s).StateOf(u) == i.StateOf(u)
  {
  }

  lemma SawIsSighted(t: Tracker, pod: Pod, k: Key)
    requires t.Valid() && k in t.mvs
    ensures Sighted(t, SawPod(t, pod, k), pod, k)
  {
    ObservedOnly(t.mvs[k], pod);
    AddBinds(t.index, NamespacedName(pod.namespace, pod.name), pod.uid);
  }

  /** A pod event acts, and queues, exactly under the ModelValidation of the pod's namespace that its
      label names, if that is tracked. */
  lemma EventIsExact(t: Tracker, pod: Pod)
    requires t.Valid()
    ensures var op := PodEvent(pod);
            if HasLabel(pod) && NamespacedName(pod.namespace, pod.labels[LABEL]) in t.mvs then
              var k := NamespacedName(pod.namespace, pod.labels[LABEL]); Sighted(t, Apply(t, op), pod, k) && Touched(t, op) == {k}
            else Apply(t, op) == t && Touched(t, op) == {}
  {
    if HasLabel(pod) && NamespacedName(pod.namespace, pod.labels[LABEL]) in t.mvs {
      SawIsSighted(t, pod, NamespacedName(pod.namespace, pod.labels[LABEL]));
    }
  }

  /** A seeded pod with a label acts, and queues, under the key that is being seeded. */
  lemma SeedingIsExact(t: Tracker, pod: Pod, k: Key)
    requires t.Valid()
    ensures var op := SeedPod(pod, k);
            if HasLabel(pod) && k in t.mvs then Sighted(t, Apply(t, op), pod, k) && Touched(t, op) == {k}
            else Apply(t, op) == t && Touched(t, op) == {}
  {
    if HasLabel(pod) && k in t.mvs {
      SawIsSighted(t, pod, k);
    }
  }

  lemma SameMaps(t: Tracker, n: NamespacedName)
    requires n in t.index.nameToUID
    ensures var u := t.index.nameToUID[n];
            && Apply(t, RemoveByName(n)) == Apply(t, RemoveUID(u)).(index := RemoveNames(t.index, {n}))
            && Touched(t, RemoveByName(n)) == Touched(t, RemoveUID(u))
  {
  }

  lemma RemoveAbsent(i: Info, u: UID)
    requires u !in i.Tracked()
    ensures Remove(i, u) == i
  {
    assert i.injected - {u} == i.injected;
    assert i.uninjected - {u} == i.uninjected;
    assert i.orphaned - {u} == i.orphaned;
  }
}
