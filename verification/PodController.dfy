/** internal/controller/pod_controller.go: PodReconciler. */
module PodControllers {
  import opened Types
  import opened ModelValidationInfos
  import opened DebouncedQueues
  import opened TrackerStates
  import opened StatusTrackers

  type Pods = map<NamespacedName, Pod>

  /** What becomes of an Update: an error may hide one that was applied. */
  datatype Update = Accepted | Refused | AppliedInSilence {
    predicate Applied() {
      !Refused?
    }
  }

  /** The API server's part in one reconcile: whether it answers the Get, and the fate of the Update. */
  datatype Api = Api(gets: bool, update: Update)

  function WithoutFinalizer(finalizers: seq<string>): seq<string> {
    if finalizers == [] then []
    else WithoutFinalizer(finalizers[..|finalizers| - 1])
         + if finalizers[|finalizers| - 1] == FINALIZER then [] else [finalizers[|finalizers| - 1]]
  }

  function Stripped(pod: Pod): Pod {
    pod.(finalizers := WithoutFinalizer(pod.finalizers))
  }

  /** Our finalizer is gone, every other one stays as often as it was there. */
  lemma {:induction false} OnlyOursIsRemoved(finalizers: seq<string>)
    ensures FINALIZER !in WithoutFinalizer(finalizers)
    ensures multiset(WithoutFinalizer(finalizers)) == multiset(finalizers)[FINALIZER := 0]
    decreases |finalizers|
  {
    if finalizers != [] {
      var last := |finalizers| - 1;
      OnlyOursIsRemoved(finalizers[..last]);
      assert finalizers == finalizers[..last] + [finalizers[last]];
    }
  }

  /** The others keep their order. */
  lemma {:induction false} OthersKeepOrder(finalizers: seq<string>, n: nat)
    requires n <= |finalizers|
    ensures WithoutFinalizer(finalizers[..n]) <= WithoutFinalizer(finalizers)
    decreases |finalizers|
  {
    if n == |finalizers| {
      assert finalizers[..n] == finalizers;
    } else {
      OthersKeepOrder(finalizers[..|finalizers| - 1], n);
      assert finalizers[..|finalizers| - 1][..n] == finalizers[..n];
    }
  }

  /** What Reconcile does for a pod name: the pods it leaves, the tracker operation it performs, and
      whether it returns without an error. */
  datatype Outcome = Outcome(pods: Pods, op: Option<Op>, ok: bool)

  function Reconciled(pods: Pods, n: NamespacedName, api: Api): Outcome {
    if !api.gets then Outcome(pods, None, false)
    else if n !in pods then Outcome(pods, Some(RemoveByName(n)), true)
    else
      var pod := pods[n];
      var updated := if HasFinalizer(pod) && api.update.Applied() then pods[n := Stripped(pod)] else pods;
      var fails := HasFinalizer(pod) && !api.update.Accepted?;
      if pod.deleting then Outcome(updated, Some(RemoveUID(pod.uid)), !fails)
      else if LabelKey(pod).None? then Outcome(updated, if fails then None else Some(RemoveByName(n)), !fails)
      else Outcome(pods, Some(PodEvent(pod)), true)
  }

  /** The operator lets go of a pod that is being deleted or has no label. */
  predicate IsReleased(pod: Pod) {
    pod.deleting || LABEL !in pod.labels || pod.labels[LABEL] == ""
  }

  /** A pod that the operator lets go of has lost our finalizer, and nothing else, once its update has been
      applied. No other pod changes. */
  lemma FinalizerIsReleased(pods: Pods, n: NamespacedName, api: Api)
    requires api.gets && n in pods && IsReleased(pods[n]) && api.update != Refused
    ensures var after := Reconciled(pods, n, api).pods;
            && after.Keys == pods.Keys && (forall m | m in pods && m != n :: after[m] == pods[m])
            && FINALIZER !in after[n].finalizers
            && (forall f | f != FINALIZER :: multiset(after[n].finalizers)[f] == multiset(pods[n].finalizers)[f])
            && after[n].(finalizers := []) == pods[n].(finalizers := [])
            && (FINALIZER !in pods[n].finalizers ==> after == pods)
  {
    OnlyOursIsRemoved(pods[n].finalizers);
  }

  /** No other reconcile changes a pod. */
  lemma OthersAreNotUpdated(pods: Pods, n: NamespacedName, api: Api)
    requires api.gets && n in pods ==> !IsReleased(pods[n]) || api.update == Refused
    ensures Reconciled(pods, n, api).pods == pods
  {
  }

  /** A reconcile fails exactly if the Get is not answered, or the update that lets go of a pod is not
      accepted. */
  lemma ReconcileFailsIff(pods: Pods, n: NamespacedName, api: Api)
    ensures !Reconciled(pods, n, api).ok
       <==> !api.gets || (n in pods && IsReleased(pods[n]) && FINALIZER in pods[n].finalizers && api.update != Accepted)
  {
  }

  /** What a reconcile tells the tracker: of an absent pod its name, of one being deleted its UID, before
      the update, of one without the label its name, after an accepted update, and of any other the pod. */
  lemma ReconcileTells(pods: Pods, n: NamespacedName, api: Api)
    ensures var op := Reconciled(pods, n, api).op;
            && (!api.gets ==> op == None)
            && (api.gets && n !in pods ==> op == Some(RemoveByName(n)))
            && (api.gets && n in pods && pods[n].deleting ==> op == Some(RemoveUID(pods[n].uid)))
            && (api.gets && n in pods && !pods[n].deleting && IsReleased(pods[n]) ==>
                  op == if FINALIZER in pods[n].finalizers && api.update != Accepted then None else Some(RemoveByName(n)))
            && (api.gets && n in pods && !IsReleased(pods[n]) ==> op == Some(PodEvent(pods[n])))
  {
  }

  function ApplyIfAny(t: Tracker, op: Option<Op>): Tracker {
    match op case Some(o) => Apply(t, o) case None => t
  }

  function QueuedIfAny(q: Queue, t: Tracker, op: Option<Op>): Queue {
    match op case Some(o) => AddedAll(q, Touched(t, o)) case None => q
  }

  function RecordedIfAny(t: Tracker, op: Option<Op>): multiset<Transition> {
    match op case Some(o) => Transitions(t, o) case None => multiset{}
  }

  class PodReconciler {
    var pods: Pods  // the API server's pods
    const tracker: StatusTracker

    constructor (pods: Pods)
      ensures this.pods == pods && tracker.Valid() && tracker.state == NO_TRACKING
    {
      this.pods := pods;
      tracker := new StatusTracker();
    }

    method RemoveFinalizer(finalizers: seq<string>) returns (kept: seq<string>)
      ensures kept == WithoutFinalizer(finalizers)
    {
      kept := [];
      for i := 0 to |finalizers|
        invariant kept == WithoutFinalizer(finalizers[..i])
      {
        assert finalizers[..i + 1][..i] == finalizers[..i];
        if finalizers[i] != FINALIZER {
          kept := kept + [finalizers[i]];
        }
      }
      assert finalizers[..|finalizers|] == finalizers;
    }

    /** RemoveFinalizer and Update, if the pod has our finalizer. */
    method ReleasePod(n: NamespacedName, update: Update) returns (ok: bool)
      requires n in pods
      modifies this
      ensures ok <==> !HasFinalizer(old(pods)[n]) || update.Accepted?
      ensures pods == if HasFinalizer(old(pods)[n]) && update.Applied() then old(pods)[n := Stripped(old(pods)[n])] else old(pods)
    {
      ok := true;
      if FINALIZER in pods[n].finalizers {
        var kept := RemoveFinalizer(pods[n].finalizers);
        ok := update.Accepted?;
        if update.Applied() {
          pods := pods[n := pods[n].(finalizers := kept)];
        }
      }
    }

    method Reconcile(n: NamespacedName, api: Api) returns (ok: bool)
      requires tracker.Valid()
      modifies this, tracker`state, tracker.modelValidations.Values, tracker.podMapping, tracker.metrics, tracker.debouncedQueue
      ensures tracker.Valid()
      ensures pods == Reconciled(old(pods), n, api).pods && ok == Reconciled(old(pods), n, api).ok
      ensures tracker.state == ApplyIfAny(old(tracker.state), Reconciled(old(pods), n, api).op)
      ensures tracker.debouncedQueue.Value()
           == QueuedIfAny(old(tracker.debouncedQueue.Value()), old(tracker.state), Reconciled(old(pods), n, api).op)
      ensures tracker.metrics.counts
           == old(tracker.metrics.counts) + RecordedIfAny(old(tracker.state), Reconciled(old(pods), n, api).op)
    {
      if !api.gets {
        return false;
      }
      if n !in pods {
        tracker.RemovePodByName(n);
        return true;
      }
      ok := ReconcilePod(n, api);
    }

    method ReconcilePod(n: NamespacedName, api: Api) returns (ok: bool)
      requires tracker.Valid() && api.gets && n in pods
      modifies this, tracker`state, tracker.modelValidations.Values, tracker.podMapping, tracker.metrics, tracker.debouncedQueue
      ensures tracker.Valid()
      ensures pods == Reconciled(old(pods), n, api).pods && ok == Reconciled(old(pods), n, api).ok
      ensures tracker.state == ApplyIfAny(old(tracker.state), Reconciled(old(pods), n, api).op)
      ensures tracker.debouncedQueue.Value()
           == QueuedIfAny(old(tracker.debouncedQueue.Value()), old(tracker.state), Reconciled(old(pods), n, api).op)
      ensures tracker.metrics.counts
           == old(tracker.metrics.counts) + RecordedIfAny(old(tracker.state), Reconciled(old(pods), n, api).op)
    {
      var pod := pods[n];
      if pod.deleting {
        ok := HandleDeletion(n, api);
      } else if LABEL !in pod.labels || pod.labels[LABEL] == "" {
        ok := HandleUnlabelled(n, api);
      } else {
        ok := HandleLabelled(n, api);
      }
    }

    method HandleLabelled(n: NamespacedName, api: Api) returns (ok: bool)
      requires tracker.Valid() && api.gets && n in pods && !pods[n].deleting && LabelKey(pods[n]).Some?
      modifies this, tracker`state, tracker.modelValidations.Values, tracker.podMapping, tracker.metrics, tracker.debouncedQueue
      ensures tracker.Valid()
      ensures pods == Reconciled(old(pods), n, api).pods && ok == Reconciled(old(pods), n, api).ok
      ensures tracker.state == ApplyIfAny(old(tracker.state), Reconciled(old(pods), n, api).op)
      ensures tracker.debouncedQueue.Value()
           == QueuedIfAny(old(tracker.debouncedQueue.Value()), old(tracker.state), Reconciled(old(pods), n, api).op)
      ensures tracker.metrics.counts
           == old(tracker.metrics.counts) + RecordedIfAny(old(tracker.state), Reconciled(old(pods), n, api).op)
    {
      tracker.ProcessPodEvent(pods[n]);
      ok := true;
    }

    /** Untracks first, so a failing update leaves the pod untracked. */
    method HandleDeletion(n: NamespacedName, api: Api) returns (ok: bool)
      requires tracker.Valid() && api.gets && n in pods && pods[n].deleting
      modifies this, tracker`state, tracker.modelValidations.Values, tracker.podMapping, tracker.metrics, tracker.debouncedQueue
      ensures tracker.Valid()
      ensures pods == Reconciled(old(pods), n, api).pods && ok == Reconciled(old(pods), n, api).ok
      ensures tracker.state == ApplyIfAny(old(tracker.state), Reconciled(old(pods), n, api).op)
      ensures tracker.debouncedQueue.Value()
           == QueuedIfAny(old(tracker.debouncedQueue.Value()), old(tracker.state), Reconciled(old(pods), n, api).op)
      ensures tracker.metrics.counts
           == old(tracker.metrics.counts) + RecordedIfAny(old(tracker.state), Reconciled(old(pods), n, api).op)
    {
      tracker.RemovePodEvent(pods[n].uid);
      label Untracked:
      ok := ReleasePod(n, api.update);
      assert tracker.Valid() == old@Untracked(tracker.Valid());
    }

    /** Updates first, so a failing update leaves the tracker as it was. */
    method HandleUnlabelled(n: NamespacedName, api: Api) returns (ok: bool)
      requires tracker.Valid() && api.gets && n in pods && !pods[n].deleting && LabelKey(pods[n]).None?
      modifies this, tracker`state, tracker.modelValidations.Values, tracker.podMapping, tracker.metrics, tracker.debouncedQueue
      ensures tracker.Valid()
      ensures pods == Reconciled(old(pods), n, api).pods && ok == Reconciled(old(pods), n, api).ok
      ensures tracker.state == ApplyIfAny(old(tracker.state), Reconciled(old(pods), n, api).op)
      ensures tracker.debouncedQueue.Value()
           == QueuedIfAny(old(tracker.debouncedQueue.Value()), old(tracker.state), Reconciled(old(pods), n, api).op)
      ensures tracker.metrics.counts
           == old(tracker.metrics.counts) + RecordedIfAny(old(tracker.state), Reconciled(old(pods), n, api).op)
    {
      ok := ReleasePod(n, api.update);
      assert tracker.Valid() == old(tracker.Valid());
      if ok {
        tracker.RemovePodByName(n);
      }
    }
  }
}
