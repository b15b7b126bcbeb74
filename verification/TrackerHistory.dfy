/** What the tracker's state says about the run that led to it. */
module TrackerHistory {
  import opened Types
  import opened ModelValidationInfos
  import opened PodMappings
  import opened TrackerStates

  /** The operation is a pod event that reaches a tracked ModelValidation. */
  predicate Sees(t: Tracker, op: Op, k: Key, u: UID) {
    match op
    case PodEvent(pod) => LabelKey(pod) == Some(k) && k in t.mvs && pod.uid == u
    case SeedPod(pod, j) => LabelKey(pod).Some? && j == k && k in t.mvs && pod.uid == u
    case _ => false
  }

  /** The position of the last event of a pod under a ModelValidation. */
  function LastSeen(ops: seq<Op>, k: Key, u: UID): (e: Option<nat>)
    ensures e.Some? ==> e.value < |ops| && (ops[e.value].PodEvent? || ops[e.value].SeedPod?)
  {
    if ops == [] then None
    else
      var before := ops[..|ops| - 1];
      if Sees(Run(before), ops[|ops| - 1], k, u) then Some(|ops| - 1) else LastSeen(before, k, u)
  }

  /** The state after the first j operations. */
  function At(ops: seq<Op>, j: nat): Tracker
    requires j <= |ops|
  {
    Run(ops[..j])
  }

  predicate Fits(t: Tracker, k: Key, p: PodInfo) {
    k in t.mvs && !Drifted(p, t.mvs[k].config)
  }

  /** Every configuration held from just after operation e to the end, which includes the one the
      event was classified under, agrees with the pod's stamps. */
  ghost predicate NeverDrifted(ops: seq<Op>, e: nat, k: Key, p: PodInfo) {
    forall j | e < j <= |ops| :: Fits(At(ops, j), k, p)
  }

  ghost predicate TrackedSince(ops: seq<Op>, e: nat, k: Key) {
    forall j | e < j <= |ops| :: k in At(ops, j).mvs
  }

  lemma AtPrefix(ops: seq<Op>, j: nat)
    requires j <= |ops|
    ensures j < |ops| ==> At(ops, j) == At(ops[..|ops| - 1], j)
    ensures j == |ops| ==> At(ops, j) == Run(ops)
  {
    if j < |ops| {
      assert ops[..j] == ops[..|ops| - 1][..j];
    } else {
      assert ops[..j] == ops;
    }
  }

  lemma NeverDriftedOneMore(ops: seq<Op>, e: nat, k: Key, p: PodInfo)
    requires e < |ops|
    ensures NeverDrifted(ops, e, k, p) <==> NeverDrifted(ops[..|ops| - 1], e, k, p) && Fits(Run(ops), k, p)
  {
    var before := ops[..|ops| - 1];
    if NeverDrifted(before, e, k, p) && Fits(Run(ops), k, p) {
      forall j | e < j <= |ops| ensures Fits(At(ops, j), k, p) {
        AtPrefix(ops, j);
        assert j < |ops| ==> Fits(At(before, j), k, p);
      }
    }
    if NeverDrifted(ops, e, k, p) {
      AtPrefix(ops, |ops|);
      assert Fits(At(ops, |ops|), k, p);
      forall j | e < j <= |before| ensures Fits(At(before, j), k, p) {
        AtPrefix(ops, j);
        assert Fits(At(ops, j), k, p);
      }
    }
  }

  lemma TrackedSinceOneMore(ops: seq<Op>, e: nat, k: Key)
    requires e < |ops| && TrackedSince(ops[..|ops| - 1], e, k) && k in Run(ops).mvs
    ensures TrackedSince(ops, e, k)
  {
    forall j | e < j <= |ops| ensures k in At(ops, j).mvs {
      AtPrefix(ops, j);
    }
  }

  /** What an operation other than an event of the pod may do to its class. */
  ghost predicate OnlyOrphans(i: Info, j: Info, u: UID)
    requires u in i.Tracked() && u in j.Tracked()
  {
    && j.All()[u] == i.All()[u]
    && j.StateOf(u) == (if i.StateOf(u) == Some(Injected) && Drifted(i.All()[u], j.config) then Some(Orphaned) else i.StateOf(u))
  }

  lemma ReconfigureOnlyOrphans(i: Info, r: Revision, u: UID)
    requires i.Valid() && u in i.Tracked()
    ensures u in Reconfigure(i, r).Tracked() && OnlyOrphans(i, Reconfigure(i, r), u)
  {
  }

  lemma OtherPodOnlyOrphans(i: Info, p: PodInfo, f: bool, u: UID)
    requires i.Valid() && u != p.uid && u in Observe(i, p, f).Tracked()
    ensures u in i.Tracked() && OnlyOrphans(i, Observe(i, p, f), u)
  {
    var j := Observe(i, p, f);
    assert (u in j.injected <==> u in i.injected) && (u in j.uninjected <==> u in i.uninjected) && (u in j.orphaned <==> u in i.orphaned);
  }

  lemma RemovalOnlyOrphans(i: Info, v: UID, u: UID)
    requires i.Valid() && u in Remove(i, v).Tracked()
    ensures u in i.Tracked() && OnlyOrphans(i, Remove(i, v), u)
  {
  }

  lemma NothingOnlyOrphans(i: Info, u: UID)
    requires i.Valid() && u in i.Tracked()
    ensures OnlyOrphans(i, i, u)
  {
  }

  /** An operation that is not an event of the pod moves it from injected to orphaned, when it
      installs a configuration the pod has drifted from, or leaves it where it is. */
  lemma OthersOnlyOrphan(t: Tracker, op: Op, k: Key, u: UID)
    requires t.Valid() && !Sees(t, op, k, u) && Apply(t, op).Tracks(k, u)
    ensures t.Tracks(k, u) && OnlyOrphans(t.mvs[k], Apply(t, op).mvs[k], u)
  {
    var s := Apply(t, op);
    assert k in t.mvs;
    if s.mvs[k] == t.mvs[k] {
      NothingOnlyOrphans(t.mvs[k], u);
    } else {
      match op {
        case AddMV(_, r) => ReconfigureOnlyOrphans(t.mvs[k], r, u);
        case PodEvent(pod) => OtherPodOnlyOrphans(t.mvs[k], InfoOf(pod), HasFinalizer(pod), u);
        case SeedPod(pod, _) => OtherPodOnlyOrphans(t.mvs[k], InfoOf(pod), HasFinalizer(pod), u);
        case RemoveUID(v) => RemovalOnlyOrphans(t.mvs[k], v, u);
        case RemoveByName(n) => RemovalOnlyOrphans(t.mvs[k], t.index.nameToUID[n], u);
        case _ =>
      }
    }
  }

  lemma SeenIsClassified(t: Tracker, op: Op, k: Key, u: UID)
    requires t.Valid() && Sees(t, op, k, u)
    ensures var p, i := SeenPod(op), Apply(t, op).mvs[k];
            && i.All()[u] == InfoOf(p) && i.config == t.mvs[k].config
            && i.StateOf(u) == Some(Classify(InfoOf(p), HasFinalizer(p), i.config))
  {
    ObserveKeepsValid(t.mvs[k], InfoOf(SeenPod(op)), HasFinalizer(SeenPod(op)));
  }

  function SeenPod(op: Op): Pod
    requires op.PodEvent? || op.SeedPod?
  {
    op.pod
  }

  /** After any run, the class of a tracked pod is told by its last event and the configurations
      installed since: uninjected if the event lacked the finalizer, injected if it had it and the
      stamps matched the configuration at the event and every one since, orphaned otherwise. */
  lemma {:induction false} ClassificationIsHistory(ops: seq<Op>, k: Key, u: UID)
    requires Run(ops).Tracks(k, u)
    ensures LastSeen(ops, k, u).Some?
    ensures var e := LastSeen(ops, k, u).value;
            var pod := SeenPod(ops[e]);
            && TrackedSince(ops, e, k)
            && Run(ops).mvs[k].All()[u] == InfoOf(pod)
            && Run(ops).mvs[k].StateOf(u) == Some(if !HasFinalizer(pod) then Uninjected
                                                   else if NeverDrifted(ops, e, k, InfoOf(pod)) then Injected
                                                   else Orphaned)
  {
    var before, op := ops[..|ops| - 1], ops[|ops| - 1];
    ReachableIsValid(before);
    if Sees(Run(before), op, k, u) {
      SeenIsClassified(Run(before), op, k, u);
      NeverDriftedOneMore(ops, |ops| - 1, k, InfoOf(SeenPod(op)));
      TrackedSinceOneMore(ops, |ops| - 1, k);
    } else {
      OthersOnlyOrphan(Run(before), op, k, u);
      ClassificationIsHistory(before, k, u);
      var e := LastSeen(before, k, u).value;
      assert before[e] == ops[e];
      NeverDriftedOneMore(ops, e, k, InfoOf(SeenPod(ops[e])));
      TrackedSinceOneMore(ops, e, k);
    }
  }

  /** The stamp of a pod: the value of an annotation, or nothing. */
  predicate IsStamp(pod: Pod, key: string, stamp: string) {
    if key in pod.annotations then pod.annotations[key] == stamp else stamp == ""
  }

  /** What the class comes to in terms of the pod's last state: without the finalizer it is uninjected.
      With it, it is injected exactly if each stamp is empty or has been, from the event on, the value
      of every configuration; otherwise it is orphaned. */
  lemma {:induction false} StampsDecide(ops: seq<Op>, k: Key, u: UID, hash: string, authMethod: string)
    requires Run(ops).Tracks(k, u)
    requires LastSeen(ops, k, u).Some? ==>
               var pod := SeenPod(ops[LastSeen(ops, k, u).value]);
               IsStamp(pod, CONFIG_HASH_ANNOTATION, hash) && IsStamp(pod, AUTH_METHOD_ANNOTATION, authMethod)
    ensures LastSeen(ops, k, u).Some? && TrackedSince(ops, LastSeen(ops, k, u).value, k)
    ensures var e := LastSeen(ops, k, u).value;
            Run(ops).mvs[k].StateOf(u)
            == Some(if FINALIZER !in SeenPod(ops[e]).finalizers then Uninjected
                    else if forall j | e < j <= |ops| ::
                              && (hash == "" || At(ops, j).mvs[k].config.hash == hash)
                              && (authMethod == "" || At(ops, j).mvs[k].config.authMethod == authMethod) then Injected
                    else Orphaned)
  {
    ClassificationIsHistory(ops, k, u);
    var e := LastSeen(ops, k, u).value;
    var p := InfoOf(SeenPod(ops[e]));
    forall j | e < j <= |ops|
      ensures Fits(At(ops, j), k, p)
         <==> ((hash == "" || At(ops, j).mvs[k].config.hash == hash)
               && (authMethod == "" || At(ops, j).mvs[k].config.authMethod == authMethod))
    {
      assert k in At(ops, j).mvs;
    }
  }

  /** A pod with the finalizer and no stamps is injected, whatever is configured. */
  lemma {:induction false} UnstampedIsInjected(ops: seq<Op>, k: Key, u: UID)
    requires Run(ops).Tracks(k, u)
    requires LastSeen(ops, k, u).Some? ==>
               var pod := SeenPod(ops[LastSeen(ops, k, u).value]);
               FINALIZER in pod.finalizers && IsStamp(pod, CONFIG_HASH_ANNOTATION, "") && IsStamp(pod, AUTH_METHOD_ANNOTATION, "")
    ensures Run(ops).mvs[k].StateOf(u) == Some(Injected)
  {
    StampsDecide(ops, k, u, "", "");
  }

  /** With one stamp, that stamp alone decides. */
  lemma {:induction false} HashAloneDecides(ops: seq<Op>, k: Key, u: UID, hash: string)
    requires Run(ops).Tracks(k, u) && hash != ""
    requires LastSeen(ops, k, u).Some? ==>
               var pod := SeenPod(ops[LastSeen(ops, k, u).value]);
               FINALIZER in pod.finalizers && IsStamp(pod, CONFIG_HASH_ANNOTATION, hash) && IsStamp(pod, AUTH_METHOD_ANNOTATION, "")
    ensures LastSeen(ops, k, u).Some? && TrackedSince(ops, LastSeen(ops, k, u).value, k)
    ensures Run(ops).mvs[k].StateOf(u) == Some(Injected)
       <==> forall j | LastSeen(ops, k, u).value < j <= |ops| :: At(ops, j).mvs[k].config.hash == hash
    ensures Run(ops).mvs[k].StateOf(u) == Some(Injected) || Run(ops).mvs[k].StateOf(u) == Some(Orphaned)
  {
    StampsDecide(ops, k, u, hash, "");
  }

  lemma {:induction false} MethodAloneDecides(ops: seq<Op>, k: Key, u: UID, authMethod: string)
    requires Run(ops).Tracks(k, u) && authMethod != ""
    requires LastSeen(ops, k, u).Some? ==>
               var pod := SeenPod(ops[LastSeen(ops, k, u).value]);
               FINALIZER in pod.finalizers && IsStamp(pod, CONFIG_HASH_ANNOTATION, "") && IsStamp(pod, AUTH_METHOD_ANNOTATION, authMethod)
    ensures LastSeen(ops, k, u).Some? && TrackedSince(ops, LastSeen(ops, k, u).value, k)
    ensures Run(ops).mvs[k].StateOf(u) == Some(Injected)
       <==> forall j | LastSeen(ops, k, u).value < j <= |ops| :: At(ops, j).mvs[k].config.authMethod == authMethod
    ensures Run(ops).mvs[k].StateOf(u) == Some(Injected) || Run(ops).mvs[k].StateOf(u) == Some(Orphaned)
  {
    StampsDecide(ops, k, u, "", authMethod);
  }

  /** The position of the AddModelValidation that installed the tracked revision: it found the key
      untracked or under another generation. */
  function Installer(ops: seq<Op>, k: Key): (e: Option<nat>)
    ensures e.Some? ==> e.value < |ops| && ops[e.value].AddMV? && ops[e.value].key == k
  {
    if ops == [] then None
    else
      var before, op := ops[..|ops| - 1], ops[|ops| - 1];
      if op.AddMV? && op.key == k && (k in Run(before).mvs ==> op.revision.generation != Run(before).mvs[k].generation)
      then Some(|ops| - 1)
      else Installer(before, k)
  }

  /** The AddModelValidation calls of the key since some position have all brought this generation. */
  ghost predicate OneGenerationSince(ops: seq<Op>, e: nat, k: Key, generation: int) {
    forall j | e <= j < |ops| && ops[j].AddMV? && ops[j].key == k :: ops[j].revision.generation == generation
  }

  /** The tracked configuration and generation are those of the last AddModelValidation that found the
      key untracked or brought a new generation. The key has been tracked since, and all its later
      AddModelValidation calls brought the same generation. */
  lemma {:induction false} RevisionIsHistory(ops: seq<Op>, k: Key)
    requires k in Run(ops).mvs
    ensures Installer(ops, k).Some?
    ensures var e, i := Installer(ops, k).value, Run(ops).mvs[k];
            && i.config == ops[e].revision.config && i.generation == ops[e].revision.generation
            && TrackedSince(ops, e, k) && OneGenerationSince(ops, e, k, i.generation)
  {
    var before, op := ops[..|ops| - 1], ops[|ops| - 1];
    if Installer(ops, k) == Some(|ops| - 1) {
      TrackedSinceOneMore(ops, |ops| - 1, k);
    } else {
      OtherOpKeepsRevision(Run(before), op, k);
      RevisionIsHistory(before, k);
      TrackedSinceOneMore(ops, Installer(ops, k).value, k);
    }
  }

  lemma OtherOpKeepsRevision(t: Tracker, op: Op, k: Key)
    requires k in Apply(t, op).mvs
    requires op.AddMV? && op.key == k ==> k in t.mvs && op.revision.generation == t.mvs[k].generation
    ensures k in t.mvs && Apply(t, op).mvs[k].config == t.mvs[k].config && Apply(t, op).mvs[k].generation == t.mvs[k].generation
  {
  }

  predicate Removes(t: Tracker, op: Op, k: Key, u: UID) {
    match op
    case RemoveMV(j) => j == k
    case DropMissing(j) => j == k
    case RemoveUID(v) => v == u
    case RemoveByName(n) => n in t.index.nameToUID && t.index.nameToUID[n] == u
    case _ => false
  }

  ghost predicate NotRemovedSince(ops: seq<Op>, e: nat, k: Key, u: UID) {
    forall j | e < j < |ops| :: !Removes(At(ops, j), ops[j], k, u)
  }

  lemma TracksAfter(t: Tracker, op: Op, k: Key, u: UID)
    ensures Apply(t, op).Tracks(k, u) <==> Sees(t, op, k, u) || (t.Tracks(k, u) && !Removes(t, op, k, u))
  {
  }

  lemma NotRemovedOneMore(ops: seq<Op>, e: nat, k: Key, u: UID)
    requires e < |ops| - 1
    ensures var before := ops[..|ops| - 1];
            NotRemovedSince(ops, e, k, u) <==> NotRemovedSince(before, e, k, u) && !Removes(Run(before), ops[|ops| - 1], k, u)
  {
    var before := ops[..|ops| - 1];
    if NotRemovedSince(ops, e, k, u) {
      assert !Removes(At(ops, |before|), ops[|before|], k, u);
      forall j | e < j < |before| ensures !Removes(At(before, j), before[j], k, u) {
        AtPrefix(ops, j);
        assert !Removes(At(ops, j), ops[j], k, u);
      }
    }
    if NotRemovedSince(before, e, k, u) && !Removes(Run(before), ops[|ops| - 1], k, u) {
      forall j | e < j < |ops| ensures !Removes(At(ops, j), ops[j], k, u) {
        AtPrefix(ops, j);
        assert j < |before| ==> !Removes(At(before, j), before[j], k, u);
      }
    }
  }

  /** A pod is tracked exactly when it has been seen under the ModelValidation and nothing has
      removed either of them since. */
  lemma {:induction false} TrackedIsHistory(ops: seq<Op>, k: Key, u: UID)
    ensures Run(ops).Tracks(k, u) <==> LastSeen(ops, k, u).Some? && NotRemovedSince(ops, LastSeen(ops, k, u).value, k, u)
  {
    if ops != [] {
      var before, op := ops[..|ops| - 1], ops[|ops| - 1];
      TrackedIsHistory(before, k, u);
      TracksAfter(Run(before), op, k, u);
      if !Sees(Run(before), op, k, u) && LastSeen(before, k, u).Some? {
        NotRemovedOneMore(ops, LastSeen(before, k, u).value, k, u);
      }
    }
  }

  // Namespace accounting.

  function TrackedIn(t: Tracker, ns: string): set<Key> {
    set k | k in t.mvs && k.namespace == ns
  }

  /** The namespaces of tracked keys that the not-found branch has dropped. */
  function Dropped(ops: seq<Op>): multiset<string> {
    if ops == [] then multiset{}
    else
      Dropped(ops[..|ops| - 1]) + DroppedBy(Run(ops[..|ops| - 1]), ops[|ops| - 1])
  }

  function DroppedBy(t: Tracker, op: Op): multiset<string> {
    if op.DropMissing? && op.key in t.mvs then multiset{op.key.namespace} else multiset{}
  }

  ghost predicate Accounted(t: Tracker, dropped: multiset<string>) {
    forall ns ::
      && Count(t.namespaces, ns) == |TrackedIn(t, ns)| + dropped[ns]
      && (ns in t.namespaces <==> |TrackedIn(t, ns)| + dropped[ns] > 0)
  }

  lemma TrackedInLess(t: Tracker, s: Tracker, k: Key, ns: string)
    requires k in t.mvs && s.mvs.Keys == t.mvs.Keys - {k}
    ensures |TrackedIn(s, ns)| == |TrackedIn(t, ns)| - if ns == k.namespace then 1 else 0
  {
    assert TrackedIn(s, ns) == TrackedIn(t, ns) - {k};
  }

  lemma AddedStaysAccounted(t: Tracker, k: Key, r: Revision, dropped: multiset<string>)
    requires Accounted(t, dropped)
    ensures Accounted(AddedMV(t, k, r), dropped)
  {
    var s := AddedMV(t, k, r);
    forall ns ensures Count(s.namespaces, ns) == |TrackedIn(s, ns)| + dropped[ns] && (ns in s.namespaces <==> |TrackedIn(s, ns)| + dropped[ns] > 0) {
      if k in t.mvs {
        assert TrackedIn(s, ns) == TrackedIn(t, ns);
      } else {
        TrackedInLess(s, t, k, ns);
      }
    }
  }

  lemma RemovedStaysAccounted(t: Tracker, k: Key, dropped: multiset<string>)
    requires Accounted(t, dropped)
    ensures Accounted(RemovedMV(t, k), dropped)
  {
    if k in t.mvs {
      var s := RemovedMV(t, k);
      forall ns ensures Count(s.namespaces, ns) == |TrackedIn(s, ns)| + dropped[ns] && (ns in s.namespaces <==> |TrackedIn(s, ns)| + dropped[ns] > 0) {
        TrackedInLess(t, s, k, ns);
      }
    }
  }

  lemma DroppedStaysAccounted(t: Tracker, k: Key, dropped: multiset<string>)
    requires Accounted(t, dropped) && k in t.mvs
    ensures Accounted(Apply(t, DropMissing(k)), dropped + multiset{k.namespace})
  {
    var s, more := Apply(t, DropMissing(k)), dropped + multiset{k.namespace};
    forall ns ensures Count(s.namespaces, ns) == |TrackedIn(s, ns)| + more[ns] && (ns in s.namespaces <==> |TrackedIn(s, ns)| + more[ns] > 0) {
      TrackedInLess(t, s, k, ns);
    }
  }

  lemma SameKeysStayAccounted(t: Tracker, s: Tracker, dropped: multiset<string>)
    requires Accounted(t, dropped) && s.mvs.Keys == t.mvs.Keys && s.namespaces == t.namespaces
    ensures Accounted(s, dropped)
  {
    assert forall ns :: TrackedIn(s, ns) == TrackedIn(t, ns);
  }

  lemma StepStaysAccounted(t: Tracker, op: Op, dropped: multiset<string>)
    requires Accounted(t, dropped)
    ensures Accounted(Apply(t, op), dropped + DroppedBy(t, op))
  {
    assert dropped + multiset{} == dropped;
    match op {
      case AddMV(k, r) => AddedStaysAccounted(t, k, r, dropped);
      case RemoveMV(k) => RemovedStaysAccounted(t, k, dropped);
      case DropMissing(k) =>
        if k in t.mvs { DroppedStaysAccounted(t, k, dropped); } else { SameKeysStayAccounted(t, Apply(t, op), dropped); }
      case _ => SameKeysStayAccounted(t, Apply(t, op), dropped);
    }
  }

  /** Without a drop that finds its key tracked, a namespace counts exactly its tracked keys. */
  lemma CountIsTracked(ops: seq<Op>, ns: string)
    requires Dropped(ops) == multiset{}
    ensures Count(Run(ops).namespaces, ns) == |TrackedIn(Run(ops), ns)|
  {
    NamespaceAccounting(ops);
  }

  /** After any run a namespace counts its tracked keys plus the tracked keys the not-found branch
      dropped from it, and is listed exactly when that sum is positive. */
  lemma {:induction false} NamespaceAccounting(ops: seq<Op>)
    ensures Accounted(Run(ops), Dropped(ops))
  {
    if ops == [] {
      assert forall ns :: TrackedIn(NO_TRACKING, ns) == {};
    } else {
      NamespaceAccounting(ops[..|ops| - 1]);
      StepStaysAccounted(Run(ops[..|ops| - 1]), ops[|ops| - 1], Dropped(ops[..|ops| - 1]));
    }
  }
}
