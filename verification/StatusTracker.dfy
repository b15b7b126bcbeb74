/** internal/tracker/status_tracker.go: the critical sections of StatusTrackerImpl, proved against
    TrackerStates.Apply and DebouncedQueues.AddedAll. */
module StatusTrackers {
  import opened Types
  import opened ModelValidationInfos
  import opened PodMappings
  import opened DebouncedQueues
  import opened TrackerStates

  class StatusTracker {
    var modelValidations: map<Key, ModelValidationInfo>
    var mvNamespaces: map<string, int>
    const podMapping: PodMapping
    const debouncedQueue: DebouncedQueue
    const metrics: TransitionCounter
    ghost var state: ValidTracker  // the tracked state as a value

    /** Each key has an object of its own, which holds what `state` says. */
    ghost predicate Valid()
      reads this, podMapping, modelValidations.Values
    {
      && Objects(modelValidations, state.mvs)
      && mvNamespaces == state.namespaces
      && podMapping.Value() == state.index
    }

    constructor ()
      ensures Valid() && state == NO_TRACKING && debouncedQueue.Value() == IDLE && metrics.counts == multiset{}
      ensures fresh(podMapping) && fresh(debouncedQueue) && fresh(metrics)
    {
      modelValidations, mvNamespaces, state := map[], map[], NO_TRACKING;
      podMapping := new PodMapping();
      debouncedQueue := new DebouncedQueue();
      metrics := new TransitionCounter();
    }

    /** The critical section of AddModelValidation. The result says whether to seed. */
    method TrackModelValidation(k: Key, r: Revision) returns (seed: bool)
      requires Valid()
      modifies this, modelValidations.Values, metrics
      ensures Valid() && fresh(modelValidations.Values - old(modelValidations.Values))
      ensures seed <==> k !in old(state).mvs
      ensures state == Apply(old(state), AddMV(k, r))
      ensures metrics.counts == old(metrics.counts) + Drift(old(state), k, r)
    {
      seed := k !in modelValidations;
      if seed {
        ghost var _ := TrackFirst(k, r);
      } else if r.generation != modelValidations[k].observedGeneration {
        InstallRevision(k, r);
      }
    }

    method InstallRevision(k: Key, r: Revision)
      requires Valid() && k in modelValidations
      modifies this`state, modelValidations[k], metrics
      ensures Valid()
      ensures state == old(state).(mvs := old(state).mvs[k := Reconfigure(old(state).mvs[k], r)])
      ensures metrics.counts == old(metrics.counts) + Bulk(k, |Drifting(old(state).mvs[k], r.config)|)
    {
      var drifted := ConfigureOne(k, r);
      label Configured:
      metrics.RecordMultiple(Transition(k.namespace, k.name, Injected, Orphaned), drifted);
      assert Valid() == old@Configured(Valid());
    }

    method TrackFirst(k: Key, r: Revision) returns (ghost info: ModelValidationInfo)
      requires Valid() && k !in modelValidations
      modifies this
      ensures Valid() && fresh(info) && modelValidations == old(modelValidations)[k := info]
      ensures state == AddedMV(old(state), k, r)
    {
      info := TrackNew(k, r);
      CountOne(k.namespace);
    }

    method TrackNew(k: Key, r: Revision) returns (ghost info: ModelValidationInfo)
      requires Valid() && k !in modelValidations
      modifies this`modelValidations, this`state
      ensures Valid() && fresh(info) && modelValidations == old(modelValidations)[k := info]
      ensures state == old(state).(mvs := old(state).mvs[k := NewInfo(r)])
    {
      OneMoreIsValid(state, k, NewInfo(r));
      ghost var tracked := state.(mvs := state.mvs[k := NewInfo(r)]);
      var mvInfo := new ModelValidationInfo(k.name, r, k);
      info := mvInfo;
      modelValidations, state := modelValidations[k := mvInfo], tracked;
    }

    method CountOne(ns: string)
      requires Valid()
      modifies this`mvNamespaces, this`state
      ensures Valid() && state == old(state).(namespaces := old(state).namespaces[ns := Count(old(state).namespaces, ns) + 1])
    {
      mvNamespaces := mvNamespaces[ns := Count(mvNamespaces, ns) + 1];
      state := state.(namespaces := mvNamespaces);
    }

    method ConfigureOne(k: Key, r: Revision) returns (drifted: nat)
      requires Valid() && k in modelValidations
      modifies this`state, modelValidations[k]
      ensures Valid()
      ensures state == old(state).(mvs := old(state).mvs[k := Reconfigure(old(state).mvs[k], r)])
      ensures drifted == |Drifting(old(state).mvs[k], r.config)|
    {
      ghost var before := state.mvs;
      ReconfigureKeepsValid(before[k], r);
      OneMoreIsValid(state, k, Reconfigure(before[k], r));
      state := state.(mvs := before[k := Reconfigure(before[k], r)]);
      drifted := UpdateOne(modelValidations, k, r, before);
    }

    static method UpdateOne(objects: map<Key, ModelValidationInfo>, k: Key, r: Revision, ghost now: map<Key, Info>) returns (drifted: nat)
      requires Objects(objects, now) && k in now && now[k].Valid()
      modifies objects[k]
      ensures Objects(objects, now[k := Reconfigure(now[k], r)])
      ensures drifted == |Drifting(now[k], r.config)|
    {
      drifted := CountDrift(objects[k], r);
    }

    static method CountDrift(mvInfo: ModelValidationInfo, r: Revision) returns (drifted: nat)
      requires mvInfo.Value().Valid()
      modifies mvInfo
      ensures mvInfo.Value() == Reconfigure(old(mvInfo.Value()), r)
      ensures drifted == |Drifting(old(mvInfo.Value()), r.config)|
    {
      var driftedPods := mvInfo.UpdateConfig(r);
      drifted := |driftedPods|;
    }

    method AddModelValidation(k: Key, r: Revision) returns (seed: bool)
      requires Valid()
      modifies this, modelValidations.Values, metrics, debouncedQueue
      ensures Valid() && fresh(modelValidations.Values - old(modelValidations.Values))
      ensures seed <==> k !in old(state).mvs
      ensures state == Apply(old(state), AddMV(k, r))
      ensures debouncedQueue.Value() == Added(old(debouncedQueue.Value()), k)
      ensures metrics.counts == old(metrics.counts) + Transitions(old(state), AddMV(k, r))
    {
      seed := TrackModelValidation(k, r);
      QueueKey(k);
    }

    method RemoveModelValidation(k: Key)
      requires Valid()
      modifies this, podMapping
      ensures Valid() && modelValidations.Values <= old(modelValidations.Values)
      ensures state == Apply(old(state), RemoveMV(k))
    {
      if k in modelValidations {
        var mvInfo := modelValidations[k];
        ForgetModelValidation(k);
        CleanUpIndex(mvInfo);
      }
    }

    method CleanUpIndex(mvInfo: ModelValidationInfo)
      requires Valid() && mvInfo.Value().Valid()
      modifies this`state, podMapping
      ensures Valid()
      ensures state == old(state).(index := RemoveNames(old(state).index, Names(mvInfo.Value().All())))
    {
      var allPods := mvInfo.GetAllPods();
      var podsToCleanup := CollectPodsForCleanup(allPods, mvInfo.Value().All());
      podMapping.RemovePodsByName(podsToCleanup);
      state := state.(index := podMapping.Value());
    }

    /** The map and counter updates of RemoveModelValidation. */
    method ForgetModelValidation(k: Key)
      requires Valid() && k in modelValidations
      modifies this
      ensures Valid() && modelValidations.Values <= old(modelValidations.Values)
      ensures state == RemovedMV(old(state), k).(index := old(state).index)
    {
      DropKey(k);
      DiscountOne(k.namespace);
    }

    method DropKey(k: Key)
      requires Valid()
      modifies this`modelValidations, this`state
      ensures Valid() && modelValidations.Values <= old(modelValidations.Values)
      ensures state == old(state).(mvs := old(state).mvs - {k})
    {
      modelValidations := modelValidations - {k};
      state := state.(mvs := state.mvs - {k});
    }

    method DiscountOne(ns: string)
      requires Valid()
      modifies this`mvNamespaces, this`state
      ensures Valid()
      ensures state == old(state).(namespaces := Discounted(old(state).namespaces, ns))
    {
      mvNamespaces := mvNamespaces[ns := Count(mvNamespaces, ns) - 1];
      if Count(mvNamespaces, ns) <= 0 {
        mvNamespaces := mvNamespaces - {ns};
      }
      assert mvNamespaces == Discounted(state.namespaces, ns);
      state := state.(namespaces := mvNamespaces);
    }

    /** processPodEventCommon. */
    method ProcessPodEventCommon(pod: Pod, k: Key)
      requires Valid() && k in modelValidations
      modifies this`state, modelValidations[k], podMapping, metrics, debouncedQueue
      ensures Valid()
      ensures state == SawPod(old(state), pod, k)
      ensures debouncedQueue.Value() == Added(old(debouncedQueue.Value()), k)
      ensures metrics.counts == old(metrics.counts) + ObservedTransition(old(state).mvs[k], InfoOf(pod), HasFinalizer(pod), k.name)
    {
      RecordPod(pod, k);
      QueueKey(k);
    }

    /** All of it but the queueing. */
    method RecordPod(pod: Pod, k: Key)
      requires Valid() && k in modelValidations
      modifies this`state, modelValidations[k], podMapping, metrics
      ensures Valid() && debouncedQueue.Value() == old(debouncedQueue.Value())
      ensures state == SawPod(old(state), pod, k)
      ensures metrics.counts == old(metrics.counts) + ObservedTransition(old(state).mvs[k], InfoOf(pod), HasFinalizer(pod), k.name)
    {
      var hasOurFinalizer := FINALIZER in pod.finalizers;
      var podInfo := PodInfo(pod.name, pod.namespace, pod.uid, Lookup(pod.annotations, CONFIG_HASH_ANNOTATION),
                             Lookup(pod.annotations, AUTH_METHOD_ANNOTATION));
      IndexPod(NamespacedName(pod.namespace, pod.name), pod.uid);
      ClassifyPod(k, podInfo, hasOurFinalizer);
    }

    method IndexPod(n: NamespacedName, u: UID)
      requires Valid()
      modifies this`state, podMapping
      ensures Valid() && state == old(state).(index := Add(old(state).index, n, u))
    {
      podMapping.AddPod(n, u);
      state := state.(index := podMapping.Value());
    }

    method ClassifyPod(k: Key, podInfo: PodInfo, hasOurFinalizer: bool)
      requires Valid() && k in modelValidations
      modifies this`state, modelValidations[k], metrics
      ensures Valid()
      ensures state == old(state).(mvs := old(state).mvs[k := Observe(old(state).mvs[k], podInfo, hasOurFinalizer)])
      ensures metrics.counts == old(metrics.counts) + ObservedTransition(old(state).mvs[k], podInfo, hasOurFinalizer, k.name)
    {
      ghost var before := state.mvs;
      ObserveKeepsValid(before[k], podInfo, hasOurFinalizer);
      OneMoreIsValid(state, k, Observe(before[k], podInfo, hasOurFinalizer));
      state := state.(mvs := before[k := Observe(before[k], podInfo, hasOurFinalizer)]);
      ClassifyOne(modelValidations, k, podInfo, hasOurFinalizer, before, metrics);
    }

    static method ClassifyOne(objects: map<Key, ModelValidationInfo>, k: Key, podInfo: PodInfo, hasOurFinalizer: bool,
                              ghost now: map<Key, Info>, metrics: TransitionCounter)
      requires Objects(objects, now) && k in now && now[k].Valid()
      modifies objects[k], metrics
      ensures Objects(objects, now[k := Observe(now[k], podInfo, hasOurFinalizer)])
      ensures metrics.counts == old(metrics.counts) + ObservedTransition(now[k], podInfo, hasOurFinalizer, k.name)
    {
      ClassifyIn(objects[k], podInfo, hasOurFinalizer, metrics);
    }

    static method ClassifyIn(mvInfo: ModelValidationInfo, podInfo: PodInfo, hasOurFinalizer: bool, metrics: TransitionCounter)
      requires mvInfo.Value().Valid()
      modifies mvInfo, metrics
      ensures mvInfo.Value() == Observe(old(mvInfo.Value()), podInfo, hasOurFinalizer)
      ensures metrics.counts == old(metrics.counts) + ObservedTransition(old(mvInfo.Value()), podInfo, hasOurFinalizer, mvInfo.name)
    {
      if hasOurFinalizer {
        mvInfo.AddInjectedPod(podInfo, metrics);
      } else {
        mvInfo.AddUninjectedPod(podInfo, metrics);
      }
    }

    method ProcessPodEvent(pod: Pod)
      requires Valid()
      modifies this`state, modelValidations.Values, podMapping, metrics, debouncedQueue
      ensures Valid()
      ensures state == Apply(old(state), PodEvent(pod))
      ensures debouncedQueue.Value() == AddedAll(old(debouncedQueue.Value()), Touched(old(state), PodEvent(pod)))
      ensures metrics.counts == old(metrics.counts) + Transitions(old(state), PodEvent(pod))
    {
      if LABEL in pod.labels && pod.labels[LABEL] != "" {
        ProcessIfTracked(pod, NamespacedName(pod.namespace, pod.labels[LABEL]));
      } else {
        AddedNone(debouncedQueue.Value());
      }
    }

    method ProcessSeedPodEvent(pod: Pod, k: Key)
      requires Valid()
      modifies this`state, modelValidations.Values, podMapping, metrics, debouncedQueue
      ensures Valid()
      ensures state == Apply(old(state), SeedPod(pod, k))
      ensures debouncedQueue.Value() == AddedAll(old(debouncedQueue.Value()), Touched(old(state), SeedPod(pod, k)))
      ensures metrics.counts == old(metrics.counts) + Transitions(old(state), SeedPod(pod, k))
    {
      if LABEL in pod.labels && pod.labels[LABEL] != "" {
        ProcessIfTracked(pod, k);
      } else {
        AddedNone(debouncedQueue.Value());
      }
    }

    method ProcessIfTracked(pod: Pod, k: Key)
      requires Valid()
      modifies this`state, modelValidations.Values, podMapping, metrics, debouncedQueue
      ensures Valid()
      ensures state == SawPod(old(state), pod, k)
      ensures debouncedQueue.Value() == AddedAll(old(debouncedQueue.Value()), {k} * old(state).mvs.Keys)
      ensures metrics.counts == old(metrics.counts) + Classified(old(state), pod, k)
    {
      AddedIfIn(debouncedQueue.Value(), k, state.mvs.Keys);
      if k in modelValidations {
        ProcessPodEventCommon(pod, k);
      }
    }

    /** removePodFromTrackingMapsUnsafe: visits the ModelValidations in some order. */
    static method RemovePodFromTrackingMaps(objects: map<Key, ModelValidationInfo>, u: UID, ghost t: Tracker) returns (updated: set<Key>)
      requires Objects(objects, t.mvs) && t.Valid()
      modifies objects.Values
      ensures Objects(objects, WithoutPod(t.mvs, u))
      ensures updated == Holders(t, u)
    {
      updated := {};
      var todo := objects.Keys;
      ghost var done: set<Key> := {};
      PartlyNone(t.mvs, u);
      while todo != {}
        invariant todo !! done && todo + done == t.mvs.Keys
        invariant Objects(objects, PartlyWithout(t.mvs, u, done))
        invariant updated == Holders(t, u) * done
        decreases todo
      {
        var k :| k in todo;
        HoldersOneMore(Holders(t, u), done, k);
        var found := RemoveNext(objects, k, u, t, done);
        updated := if found then updated + {k} else updated;
        todo, done := todo - {k}, done + {k};
      }
      PartlyAll(t.mvs, u, done);
    }

    static method RemoveNext(objects: map<Key, ModelValidationInfo>, k: Key, u: UID, ghost t: Tracker, ghost done: set<Key>)
      returns (found: bool)
      requires k in t.mvs && k !in done && t.mvs[k].Valid()
      requires Objects(objects, PartlyWithout(t.mvs, u, done))
      modifies objects[k]
      ensures Objects(objects, PartlyWithout(t.mvs, u, done + {k}))
      ensures found <==> k in Holders(t, u)
    {
      PartlyOneMore(t.mvs, u, done, k);
      found := RemoveOne(objects, k, u, PartlyWithout(t.mvs, u, done));
    }

    static method RemoveOne(objects: map<Key, ModelValidationInfo>, k: Key, u: UID, ghost now: map<Key, Info>) returns (found: bool)
      requires Objects(objects, now) && k in now && now[k].Valid()
      modifies objects[k]
      ensures Objects(objects, now[k := Remove(now[k], u)])
      ensures found <==> u in now[k].Tracked()
    {
      found := objects[k].RemovePod(u);
    }

    method QueueAll(keys: set<Key>)
      modifies debouncedQueue
      ensures debouncedQueue.Value() == AddedAll(old(debouncedQueue.Value()), keys)
    {
      ghost var before, done := debouncedQueue.Value(), {};
      AddedNone(before);
      var todo := keys;
      while todo != {}
        invariant Split(keys, todo, done)
        invariant debouncedQueue.Value() == AddedAll(before, done)
        decreases |todo|
      {
        var k :| k in todo;
        MoveOne(keys, todo, done, k);
        QueueOne(k, before, done);
        todo, done := todo - {k}, done + {k};
      }
      assert done == keys;
    }

    /** Queueing leaves what is tracked alone. */
    method QueueKey(k: Key)
      requires Valid()
      modifies debouncedQueue
      ensures Valid() && debouncedQueue.Value() == Added(old(debouncedQueue.Value()), k)
    {
      debouncedQueue.Add(k);
      assert Valid() == old(Valid());
    }

    method QueueUpdated(keys: set<Key>)
      requires Valid()
      modifies debouncedQueue
      ensures Valid() && debouncedQueue.Value() == AddedAll(old(debouncedQueue.Value()), keys)
    {
      QueueAll(keys);
      assert Valid() == old(Valid());
    }

    method QueueOne(k: Key, ghost before: Queue, ghost done: set<Key>)
      requires debouncedQueue.Value() == AddedAll(before, done) && k !in done
      modifies debouncedQueue
      ensures debouncedQueue.Value() == AddedAll(before, done + {k})
    {
      AddedOneMore(before, done, k);
      debouncedQueue.Add(k);
    }

    method RemovePodEvent(u: UID)
      requires Valid()
      modifies this`state, modelValidations.Values, debouncedQueue
      ensures Valid()
      ensures state == Apply(old(state), RemoveUID(u))
      ensures debouncedQueue.Value() == AddedAll(old(debouncedQueue.Value()), Touched(old(state), RemoveUID(u)))
    {
      UIDCase(state, u);
      var updated := UntrackUID(u);
      QueueUpdated(updated);
    }

    method UntrackUID(u: UID) returns (updated: set<Key>)
      requires Valid()
      modifies this`state, modelValidations.Values
      ensures Valid() && debouncedQueue.Value() == old(debouncedQueue.Value())
      ensures state == RemovedUID(old(state), u) && updated == Holders(old(state), u)
    {
      ghost var before := state;
      RemovedUIDKeepsValid(before, u);
      state := RemovedUID(before, u);
      updated := RemovePodFromTrackingMaps(modelValidations, u, before);
    }

    method RemovePodByName(n: NamespacedName)
      requires Valid()
      modifies this`state, modelValidations.Values, podMapping, debouncedQueue
      ensures Valid()
      ensures state == Apply(old(state), RemoveByName(n))
      ensures debouncedQueue.Value() == AddedAll(old(debouncedQueue.Value()), Touched(old(state), RemoveByName(n)))
    {
      NameCases(state, debouncedQueue.Value(), n);
      var uid := podMapping.GetUIDByName(n);
      if uid.Some? {
        RemoveKnown(n, uid.value);
      }
    }

    method RemoveKnown(n: NamespacedName, u: UID)
      requires Valid() && n in state.index.nameToUID && u == state.index.nameToUID[n]
      modifies this`state, modelValidations.Values, podMapping, debouncedQueue
      ensures Valid() && state == RemovedName(old(state), n)
      ensures debouncedQueue.Value() == AddedAll(old(debouncedQueue.Value()), Holders(old(state), u))
    {
      var updated := UntrackName(n, u);
      QueueUpdated(updated);
    }

    method UntrackName(n: NamespacedName, u: UID) returns (updated: set<Key>)
      requires Valid() && n in state.index.nameToUID && u == state.index.nameToUID[n]
      modifies this`state, modelValidations.Values, podMapping
      ensures Valid() && debouncedQueue.Value() == old(debouncedQueue.Value())
      ensures state == RemovedName(old(state), n) && updated == Holders(old(state), u)
    {
      updated := UntrackUID(u);
      ForgetName(n);
    }

    method ForgetName(n: NamespacedName)
      requires Valid()
      modifies this`state, podMapping
      ensures Valid() && state == old(state).(index := RemoveNames(old(state).index, {n}))
    {
      podMapping.RemovePodsByName([n]);
      assert Elements([n]) == {n};
      state := state.(index := podMapping.Value());
    }

    /** The critical section of doUpdateStatus when the ModelValidation is gone. */
    method ForgetMissing(k: Key)
      requires Valid()
      modifies this
      ensures Valid() && modelValidations.Values <= old(modelValidations.Values)
      ensures state == Apply(old(state), DropMissing(k))
    {
      DropKey(k);
    }
  }

  lemma OneMoreIsValid(t: Tracker, k: Key, i: Info)
    requires t.Valid() && i.Valid()
    ensures t.(mvs := t.mvs[k := i]).Valid()
  {
  }

  /** A loop over some keys has handled part of them. */
  predicate Split(keys: set<Key>, todo: set<Key>, done: set<Key>) {
    todo !! done && todo + done == keys
  }

  lemma MoveOne(keys: set<Key>, todo: set<Key>, done: set<Key>, k: Key)
    requires Split(keys, todo, done) && k in todo
    ensures Split(keys, todo - {k}, done + {k}) && k in keys && k !in done && |todo - {k}| < |todo|
  {
  }

  lemma HoldersOneMore(holders: set<Key>, done: set<Key>, k: Key)
    ensures holders * (done + {k}) == if k in holders then holders * done + {k} else holders * done
  {
  }

  function PartlyWithout(mvs: map<Key, Info>, u: UID, done: set<Key>): map<Key, Info> {
    map k | k in mvs :: if k in done then Remove(mvs[k], u) else mvs[k]
  }

  lemma PartlyNone(mvs: map<Key, Info>, u: UID)
    ensures PartlyWithout(mvs, u, {}) == mvs
  {
  }

  lemma PartlyOneMore(mvs: map<Key, Info>, u: UID, done: set<Key>, k: Key)
    requires k in mvs && k !in done
    ensures var now := PartlyWithout(mvs, u, done);
            k in now && now[k] == mvs[k] && PartlyWithout(mvs, u, done + {k}) == now[k := Remove(mvs[k], u)]
  {
  }

  lemma PartlyAll(mvs: map<Key, Info>, u: UID, done: set<Key>)
    requires done == mvs.Keys
    ensures PartlyWithout(mvs, u, done) == WithoutPod(mvs, u)
  {
  }

  lemma UIDCase(t: Tracker, u: UID)
    ensures Apply(t, RemoveUID(u)) == RemovedUID(t, u) && Touched(t, RemoveUID(u)) == Holders(t, u)
  {
  }

  lemma NameCases(t: Tracker, q: Queue, n: NamespacedName)
    ensures n !in t.index.nameToUID ==> Apply(t, RemoveByName(n)) == t && AddedAll(q, Touched(t, RemoveByName(n))) == q
    ensures n in t.index.nameToUID ==>
              && Apply(t, RemoveByName(n)) == RemovedName(t, n)
              && Touched(t, RemoveByName(n)) == Holders(t, t.index.nameToUID[n])
  {
    AddedNone(q);
  }

  ghost predicate Objects(objects: map<Key, ModelValidationInfo>, mvs: map<Key, Info>)
    reads objects.Values
  {
    && objects.Keys == mvs.Keys
    && (forall k | k in objects :: objects[k].key == k && objects[k].name == k.name && objects[k].Value() == mvs[k])
  }

  function Bulk(k: Key, n: nat): multiset<Transition> {
    multiset{}[Transition(k.namespace, k.name, Injected, Orphaned) := n]
  }

  /** metrics.RecordMultiplePodStateTransitions in AddModelValidation. */
  function Drift(t: Tracker, k: Key, r: Revision): multiset<Transition> {
    if k in t.mvs && r.generation != t.mvs[k].generation then
      Bulk(k, |Drifting(t.mvs[k], r.config)|)
    else multiset{}
  }

  function Classified(t: Tracker, pod: Pod, k: Key): multiset<Transition> {
    if k in t.mvs then ObservedTransition(t.mvs[k], InfoOf(pod), HasFinalizer(pod), k.name) else multiset{}
  }

  /** What each critical section records. */
  function Transitions(t: Tracker, op: Op): multiset<Transition> {
    match op
    case AddMV(k, r) => Drift(t, k, r)
    case PodEvent(pod) => (match LabelKey(pod) case Some(k) => Classified(t, pod, k) case None => multiset{})
    case SeedPod(pod, k) => if LabelKey(pod).Some? then Classified(t, pod, k) else multiset{}
    case _ => multiset{}
  }

  method CollectPodsForCleanup(allPods: seq<PodInfo>, ghost pods: PodMap) returns (names: seq<NamespacedName>)
    requires Lists(allPods, pods)
    ensures Elements(names) == Names(pods)
  {
    names := [];
    for n := 0 to |allPods|
      invariant Elements(names) == set m | 0 <= m < n :: NameOf(allPods[m])
    {
      var longer := names + [NamespacedName(allPods[n].namespace, allPods[n].name)];
      assert Elements(longer) == Elements(names) + {NameOf(allPods[n])};
      names := longer;
    }
    ListsMeaning(allPods, pods);
    forall u | u in pods ensures NameOf(pods[u]) in Elements(names) {
      var m :| 0 <= m < |allPods| && allPods[m] == pods[u];
    }
  }
}
