/** Removal by name through the index against a scan of every tracked pod. */
module TrackerIndex {
  import opened Types
  import opened ModelValidationInfos
  import opened PodMappings
  import opened TrackerStates
  import opened TrackerHistory

  /** Every tracked pod of that name has that UID. */
  predicate NameFree(t: Tracker, n: NamespacedName, u: UID) {
    forall k, v | k in t.mvs && v in t.mvs[k].Tracked() && NameOf(t.mvs[k].All()[v]) == n :: v == u
  }

  /** A pod event is regular if the UID has its one name and its one ModelValidation, and a reused
      name is presented only after its old UID is untracked. */
  predicate RegularPod(t: Tracker, pod: Pod, k: Key, nameOf: UID -> NamespacedName, keyOf: UID -> Key) {
    k in t.mvs ==> PodName(pod) == nameOf(pod.uid) && k == keyOf(pod.uid) && NameFree(t, PodName(pod), pod.uid)
  }

  predicate Regular(t: Tracker, op: Op, nameOf: UID -> NamespacedName, keyOf: UID -> Key) {
    match op
    case PodEvent(pod) => LabelKey(pod).Some? ==> RegularPod(t, pod, LabelKey(pod).value, nameOf, keyOf)
    case SeedPod(pod, k) => LabelKey(pod).Some? ==> RegularPod(t, pod, k, nameOf, keyOf)
    case _ => true
  }

  ghost predicate RegularRun(ops: seq<Op>, nameOf: UID -> NamespacedName, keyOf: UID -> Key) {
    forall j | 0 <= j < |ops| :: Regular(At(ops, j), ops[j], nameOf, keyOf)
  }

  /** A tracked pod is where its UID says it is, and is found under its name. */
  predicate Found(t: Tracker, k: Key, u: UID, nameOf: UID -> NamespacedName, keyOf: UID -> Key)
    requires t.Tracks(k, u)
  {
    && k == keyOf(u)
    && NameOf(t.mvs[k].All()[u]) == nameOf(u)
    && nameOf(u) in t.index.nameToUID
    && t.index.nameToUID[nameOf(u)] == u
  }

  predicate Inverted(x: Index, n: NamespacedName, nameOf: UID -> NamespacedName)
    requires n in x.nameToUID
  {
    var u := x.nameToUID[n];
    nameOf(u) == n && u in x.uidToName && x.uidToName[u] == n
  }

  ghost predicate Indexed(t: Tracker, nameOf: UID -> NamespacedName, keyOf: UID -> Key) {
    && (forall k, u | t.Tracks(k, u) :: Found(t, k, u, nameOf, keyOf))
    && (forall n | n in t.index.nameToUID :: Inverted(t.index, n, nameOf))
  }

  lemma SawStaysIndexed(t: Tracker, pod: Pod, k: Key, nameOf: UID -> NamespacedName, keyOf: UID -> Key)
    requires t.Valid() && Indexed(t, nameOf, keyOf) && RegularPod(t, pod, k, nameOf, keyOf)
    ensures Indexed(SawPod(t, pod, k), nameOf, keyOf)
  {
    if k in t.mvs {
      var s := SawPod(t, pod, k);
      ObserveKeepsValid(t.mvs[k], InfoOf(pod), HasFinalizer(pod));
      forall j, v | s.Tracks(j, v) ensures Found(s, j, v, nameOf, keyOf) {
        SawKeepsOthers(t, pod, k, j, v);
        assert t.Tracks(j, v) ==> Found(t, j, v, nameOf, keyOf);
      }
      forall n | n in s.index.nameToUID ensures Inverted(s.index, n, nameOf) {
        if n != PodName(pod) { assert Inverted(t.index, n, nameOf); }
      }
    }
  }

  lemma SawKeepsOthers(t: Tracker, pod: Pod, k: Key, j: Key, v: UID)
    requires t.Valid() && k in t.mvs && SawPod(t, pod, k).Tracks(j, v)
    ensures j != k || v != pod.uid ==> t.Tracks(j, v) && SawPod(t, pod, k).mvs[j].All()[v] == t.mvs[j].All()[v]
    ensures j == k && v == pod.uid ==> SawPod(t, pod, k).mvs[j].All()[v] == InfoOf(pod)
  {
    if j == k {
      ObservedAs(t.mvs[k], InfoOf(pod), HasFinalizer(pod));
      if v != pod.uid { ObserveKeepsRecord(t.mvs[k], InfoOf(pod), HasFinalizer(pod), v); }
    }
  }

  lemma ObserveKeepsRecord(i: Info, p: PodInfo, f: bool, u: UID)
    requires i.Valid() && u != p.uid && u in Observe(i, p, f).Tracked()
    ensures u in i.Tracked() && Observe(i, p, f).All()[u] == i.All()[u]
  {
  }

  lemma RemovedMVStaysIndexed(t: Tracker, k: Key, nameOf: UID -> NamespacedName, keyOf: UID -> Key)
    requires Indexed(t, nameOf, keyOf)
    ensures Indexed(RemovedMV(t, k), nameOf, keyOf)
  {
    if k in t.mvs {
      var s, names := RemovedMV(t, k), Names(t.mvs[k].All());
      forall j, v | s.Tracks(j, v) ensures Found(s, j, v, nameOf, keyOf) {
        assert Found(t, j, v, nameOf, keyOf);
        forall w | w in t.mvs[k].All() ensures NameOf(t.mvs[k].All()[w]) != nameOf(v) {
          assert t.Tracks(k, w) && Found(t, k, w, nameOf, keyOf);
        }
      }
      RemoveNamesStaysInverted(t.index, names, nameOf);
    }
  }

  lemma RemoveNamesStaysInverted(x: Index, names: set<NamespacedName>, nameOf: UID -> NamespacedName)
    requires forall n | n in x.nameToUID :: Inverted(x, n, nameOf)
    ensures forall n | n in RemoveNames(x, names).nameToUID :: Inverted(RemoveNames(x, names), n, nameOf)
  {
    var y := RemoveNames(x, names);
    forall n | n in y.nameToUID ensures Inverted(y, n, nameOf) {
      assert Inverted(x, n, nameOf);
      forall m | m in names && m in x.nameToUID ensures x.nameToUID[m] != x.nameToUID[n] {
        assert Inverted(x, m, nameOf);
      }
    }
  }

  lemma RemovedUIDStaysIndexed(t: Tracker, u: UID, nameOf: UID -> NamespacedName, keyOf: UID -> Key)
    requires Indexed(t, nameOf, keyOf)
    ensures Indexed(RemovedUID(t, u), nameOf, keyOf)
  {
    var s := RemovedUID(t, u);
    forall j, v | s.Tracks(j, v) ensures Found(s, j, v, nameOf, keyOf) {
      assert t.Tracks(j, v) && s.mvs[j].All()[v] == t.mvs[j].All()[v];
      assert Found(t, j, v, nameOf, keyOf);
    }
  }

  lemma RemovedNameStaysIndexed(t: Tracker, n: NamespacedName, nameOf: UID -> NamespacedName, keyOf: UID -> Key)
    requires Indexed(t, nameOf, keyOf)
    ensures Indexed(RemovedName(t, n), nameOf, keyOf)
  {
    if n in t.index.nameToUID {
      var u, s := t.index.nameToUID[n], RemovedName(t, n);
      RemovedUIDStaysIndexed(t, u, nameOf, keyOf);
      forall j, v | s.Tracks(j, v) ensures Found(s, j, v, nameOf, keyOf) {
        assert RemovedUID(t, u).Tracks(j, v) && v != u;
        assert Found(RemovedUID(t, u), j, v, nameOf, keyOf);
      }
      RemoveNamesStaysInverted(t.index, {n}, nameOf);
    }
  }

  lemma SubsetStaysIndexed(t: Tracker, s: Tracker, nameOf: UID -> NamespacedName, keyOf: UID -> Key)
    requires Indexed(t, nameOf, keyOf) && s.index == t.index
    requires forall k, u | s.Tracks(k, u) :: t.Tracks(k, u) && s.mvs[k].All()[u] == t.mvs[k].All()[u]
    ensures Indexed(s, nameOf, keyOf)
  {
    forall j, v | s.Tracks(j, v) ensures Found(s, j, v, nameOf, keyOf) {
      assert Found(t, j, v, nameOf, keyOf);
    }
  }

  lemma AddedMVStaysIndexed(t: Tracker, k: Key, r: Revision, nameOf: UID -> NamespacedName, keyOf: UID -> Key)
    requires t.Valid() && Indexed(t, nameOf, keyOf)
    ensures Indexed(AddedMV(t, k, r), nameOf, keyOf)
  {
    var s := AddedMV(t, k, r);
    forall j, v | s.Tracks(j, v) ensures t.Tracks(j, v) && s.mvs[j].All()[v] == t.mvs[j].All()[v] {
      if j == k && k in t.mvs { ReconfigureKeepsRecord(t.mvs[k], r, v); }
    }
    SubsetStaysIndexed(t, s, nameOf, keyOf);
  }

  lemma ReconfigureKeepsRecord(i: Info, r: Revision, u: UID)
    requires i.Valid()
    ensures u in Reconfigure(i, r).Tracked() <==> u in i.Tracked()
    ensures u in i.Tracked() ==> Reconfigure(i, r).All()[u] == i.All()[u]
  {
  }

  lemma EventStaysIndexed(t: Tracker, op: Op, nameOf: UID -> NamespacedName, keyOf: UID -> Key)
    requires op.PodEvent? || op.SeedPod?
    requires t.Valid() && Indexed(t, nameOf, keyOf) && Regular(t, op, nameOf, keyOf)
    ensures Indexed(Apply(t, op), nameOf, keyOf)
  {
    var pod := op.pod;
    if LabelKey(pod).Some? {
      SawStaysIndexed(t, pod, if op.PodEvent? then LabelKey(pod).value else op.key, nameOf, keyOf);
    }
  }

  lemma ApplyStaysIndexed(t: Tracker, op: Op, nameOf: UID -> NamespacedName, keyOf: UID -> Key)
    requires t.Valid() && Indexed(t, nameOf, keyOf) && Regular(t, op, nameOf, keyOf)
    ensures Indexed(Apply(t, op), nameOf, keyOf)
  {
    match op {
      case AddMV(k, r) => AddedMVStaysIndexed(t, k, r, nameOf, keyOf);
      case RemoveMV(k) => RemovedMVStaysIndexed(t, k, nameOf, keyOf);
      case PodEvent(_) => EventStaysIndexed(t, op, nameOf, keyOf);
      case SeedPod(_, _) => EventStaysIndexed(t, op, nameOf, keyOf);
      case RemoveUID(u) => RemovedUIDStaysIndexed(t, u, nameOf, keyOf);
      case RemoveByName(n) => RemovedNameStaysIndexed(t, n, nameOf, keyOf);
      case DropMissing(k) => SubsetStaysIndexed(t, Apply(t, op), nameOf, keyOf);
    }
  }

  /** In every regular run each tracked pod is found under its name, and each name's entry has its
      inverse. */
  lemma {:induction false} RegularRunsAreIndexed(ops: seq<Op>, nameOf: UID -> NamespacedName, keyOf: UID -> Key)
    requires RegularRun(ops, nameOf, keyOf)
    ensures Indexed(Run(ops), nameOf, keyOf)
  {
    if ops != [] {
      var before := ops[..|ops| - 1];
      forall j | 0 <= j < |before| ensures Regular(At(before, j), before[j], nameOf, keyOf) {
        AtPrefix(ops, j);
        assert Regular(At(ops, j), ops[j], nameOf, keyOf);
      }
      RegularRunsAreIndexed(before, nameOf, keyOf);
      ReachableIsValid(before);
      assert At(ops, |ops| - 1) == Run(before);
      ApplyStaysIndexed(Run(before), ops[|ops| - 1], nameOf, keyOf);
    }
  }

  /** Deletes every pod of a name from one class. */
  function Scan(m: PodMap, n: NamespacedName): PodMap {
    map u | u in m && NameOf(m[u]) != n :: m[u]
  }

  function ScanInfo(i: Info, n: NamespacedName): Info {
    i.(injected := Scan(i.injected, n), uninjected := Scan(i.uninjected, n), orphaned := Scan(i.orphaned, n))
  }

  function ScanAll(mvs: map<Key, Info>, n: NamespacedName): map<Key, Info> {
    map k | k in mvs :: ScanInfo(mvs[k], n)
  }

  /** The pods of a name are those of a UID. */
  predicate SamePods(m: PodMap, n: NamespacedName, u: UID) {
    forall v | v in m :: NameOf(m[v]) == n <==> v == u
  }

  lemma ScanIsRemoval(i: Info, n: NamespacedName, u: UID)
    requires SamePods(i.injected, n, u) && SamePods(i.uninjected, n, u) && SamePods(i.orphaned, n, u)
    ensures ScanInfo(i, n) == Remove(i, u)
  {
    assert Scan(i.injected, n) == i.injected - {u};
    assert Scan(i.uninjected, n) == i.uninjected - {u};
    assert Scan(i.orphaned, n) == i.orphaned - {u};
  }

  predicate NoneNamed(m: PodMap, n: NamespacedName) {
    forall v | v in m :: NameOf(m[v]) != n
  }

  lemma NothingScanned(i: Info, n: NamespacedName)
    requires NoneNamed(i.injected, n) && NoneNamed(i.uninjected, n) && NoneNamed(i.orphaned, n)
    ensures ScanInfo(i, n) == i
  {
    assert Scan(i.injected, n) == i.injected;
    assert Scan(i.uninjected, n) == i.uninjected;
    assert Scan(i.orphaned, n) == i.orphaned;
  }

  /** The tracked pods of a name are exactly those of the UID that the index binds to it. */
  ghost predicate NameIsIndexed(t: Tracker, n: NamespacedName) {
    forall k, v | k in t.mvs && v in t.mvs[k].Tracked() :: NameOf(t.mvs[k].All()[v]) == n <==> Bound(t.index, n) == Some(v)
  }

  lemma ScannedPods(i: Info, n: NamespacedName, v: UID)
    requires i.Valid() && v in i.Tracked()
    ensures v in ScanInfo(i, n).Tracked() <==> NameOf(i.All()[v]) != n
  {
  }

  lemma IndexedNameIsScanned(i: Info, n: NamespacedName, bound: Option<UID>)
    requires i.Valid()
    requires forall v | v in i.Tracked() :: NameOf(i.All()[v]) == n <==> bound == Some(v)
    ensures ScanInfo(i, n) == match bound case Some(u) => Remove(i, u) case None => i
  {
    forall v | v in i.injected ensures NameOf(i.injected[v]) == n <==> bound == Some(v) { assert v in i.Tracked() && i.All()[v] == i.injected[v]; }
    forall v | v in i.uninjected ensures NameOf(i.uninjected[v]) == n <==> bound == Some(v) { assert v in i.Tracked() && i.All()[v] == i.uninjected[v]; }
    forall v | v in i.orphaned ensures NameOf(i.orphaned[v]) == n <==> bound == Some(v) { assert v in i.Tracked() && i.All()[v] == i.orphaned[v]; }
    match bound {
      case Some(u) => ScanIsRemoval(i, n, u);
      case None => NothingScanned(i, n);
    }
  }

  lemma RemovedByNameIn(t: Tracker, n: NamespacedName, k: Key)
    requires k in t.mvs
    ensures k in Apply(t, RemoveByName(n)).mvs
    ensures Apply(t, RemoveByName(n)).mvs[k] == match Bound(t.index, n) case Some(u) => Remove(t.mvs[k], u) case None => t.mvs[k]
  {
  }

  lemma RemovalKeepsOthers(i: Info, bound: Option<UID>, v: UID)
    requires v in i.Tracked()
    ensures v in (match bound case Some(u) => Remove(i, u) case None => i).Tracked() <==> bound != Some(v)
  {
  }

  /** In every valid state, removing a pod by name gives the same pod maps as scanning all of them and
      deleting every pod of that name, if and only if the tracked pods of the name are exactly those
      of the UID that the index binds to it. */
  lemma RemoveByNameIsScanIff(t: Tracker, n: NamespacedName)
    requires t.Valid()
    ensures Apply(t, RemoveByName(n)).mvs == ScanAll(t.mvs, n) <==> NameIsIndexed(t, n)
  {
    var scanned, removed, bound := ScanAll(t.mvs, n), Apply(t, RemoveByName(n)).mvs, Bound(t.index, n);
    if NameIsIndexed(t, n) {
      forall k | k in t.mvs ensures scanned[k] == removed[k] {
        IndexedNameIsScanned(t.mvs[k], n, bound);
        RemovedByNameIn(t, n, k);
      }
    }
    if scanned == removed {
      forall k, v | k in t.mvs && v in t.mvs[k].Tracked() ensures NameOf(t.mvs[k].All()[v]) == n <==> bound == Some(v) {
        assert scanned[k] == removed[k];
        RemovedByNameIn(t, n, k);
        ScannedPods(t.mvs[k], n, v);
        RemovalKeepsOthers(t.mvs[k], bound, v);
      }
    }
  }

  lemma IndexedMeansNamed(t: Tracker, n: NamespacedName, nameOf: UID -> NamespacedName, keyOf: UID -> Key)
    requires Indexed(t, nameOf, keyOf)
    ensures NameIsIndexed(t, n)
  {
    forall k, v | k in t.mvs && v in t.mvs[k].Tracked()
      ensures NameOf(t.mvs[k].All()[v]) == n <==> Bound(t.index, n) == Some(v)
    {
      assert t.Tracks(k, v) && Found(t, k, v, nameOf, keyOf);
      assert n in t.index.nameToUID ==> Inverted(t.index, n, nameOf);
    }
  }

  /** Every regular run ends in such a state, for every name. */
  lemma {:induction false} RemoveByNameIsScan(ops: seq<Op>, n: NamespacedName, nameOf: UID -> NamespacedName, keyOf: UID -> Key)
    requires RegularRun(ops, nameOf, keyOf)
    ensures Apply(Run(ops), RemoveByName(n)).mvs == ScanAll(Run(ops).mvs, n)
  {
    RegularRunsAreIndexed(ops, nameOf, keyOf);
    ReachableIsValid(ops);
    IndexedMeansNamed(Run(ops), n, nameOf, keyOf);
    RemoveByNameIsScanIff(Run(ops), n);
  }

  /** Presenting a reused name before its old UID is untracked makes removal by name miss the old
      pod: it stays tracked under that name. */
  lemma ReusedNameIsMissed(t: Tracker, k: Key, first: Pod, second: Pod)
    requires t.Valid() && k in t.mvs && LabelKey(first) == LabelKey(second) == Some(k)
    requires PodName(first) == PodName(second) && first.uid != second.uid
    ensures var s := Apply(Apply(Apply(t, PodEvent(first)), PodEvent(second)), RemoveByName(PodName(second)));
            s.Tracks(k, first.uid) && !s.Tracks(k, second.uid) && NameOf(s.mvs[k].All()[first.uid]) == PodName(second)
  {
    ObserveKeepsValid(t.mvs[k], InfoOf(first), HasFinalizer(first));
    var i := Observe(t.mvs[k], InfoOf(first), HasFinalizer(first));
    OtherPodStays(i, InfoOf(second), HasFinalizer(second), first.uid);
    BothAreSeen(t, k, first, second);
    ObservedAs(t.mvs[k], InfoOf(first), HasFinalizer(first));
  }

  lemma BothAreSeen(t: Tracker, k: Key, first: Pod, second: Pod)
    requires k in t.mvs && LabelKey(first) == LabelKey(second) == Some(k)
    ensures var s := Apply(Apply(t, PodEvent(first)), PodEvent(second));
            && k in s.mvs && PodName(second) in s.index.nameToUID && s.index.nameToUID[PodName(second)] == second.uid
            && s.mvs[k] == Observe(Observe(t.mvs[k], InfoOf(first), HasFinalizer(first)), InfoOf(second), HasFinalizer(second))
  {
  }

  lemma ObservedAs(i: Info, p: PodInfo, f: bool)
    requires i.Valid()
    ensures p.uid in Observe(i, p, f).Tracked() && Observe(i, p, f).All()[p.uid] == p
  {
  }

  lemma OtherPodStays(i: Info, p: PodInfo, f: bool, u: UID)
    requires i.Valid() && u in i.Tracked() && u != p.uid
    ensures var j := Remove(Observe(i, p, f), p.uid); u in j.Tracked() && j.All()[u] == i.All()[u]
  {
  }
}
