/** internal/webhooks/pod_webhook.go: Handle, and how its stamps meet the tracker. */
module PodWebhooks {
  import opened Types
  import opened ModelValidationTypes
  import opened Annotations
  import opened ValidationArgs
  import opened VolumeMounts
  import opened ModelValidationInfos
  import opened TrackerStates
  import opened TrackerHistory

  const IGNORE_NAMESPACE_LABEL := "validation.ml.sigstore.dev/ignore"
  const IGNORE_NAMESPACE_VALUE := "true"
  const INIT_CONTAINER := "model-validation"
  const SIDECAR_CONTAINER := "model-validation-sidecar"
  const TUF_VOLUME := "sigstore-tuf-cache"

  /** What the API server holds: the labels of its namespaces, and its ModelValidations. */
  datatype Cluster = Cluster(namespaces: map<string, map<string, string>>, mvs: map<NamespacedName, ModelValidation>)

  /** A pod that does not decode is None. */
  datatype Request = Request(namespace: string, pod: Option<Pod>)

  datatype Response = Errored | Allowed | Patched(pod: Pod)

  predicate HasContainer(containers: seq<Container>, name: string) {
    exists i | 0 <= i < |containers| :: containers[i].name == name
  }

  /** One of the two containers that tell Handle that a pod has been injected. */
  predicate Carries(pod: Pod) {
    HasContainer(pod.initContainers, INIT_CONTAINER) || HasContainer(pod.containers, SIDECAR_CONTAINER)
  }

  /** The configuration a pod is stamped with. */
  function ConfigOf(mv: ModelValidation): Config {
    Config(mv.hash, GetAuthMethod(mv.config))
  }

  function Stamped(annotations: map<string, string>, c: Config, now: string): map<string, string> {
    annotations[INJECTED_ANNOTATION := now][AUTH_METHOD_ANNOTATION := c.authMethod][CONFIG_HASH_ANNOTATION := c.hash]
  }

  function Marked(annotations: map<string, string>, mv: ModelValidation): map<string, string> {
    if Continuous(mv) then annotations[CONTINUOUS_ANNOTATION := "true"] else annotations
  }

  function WithFinalizer(finalizers: seq<string>): seq<string> {
    if FINALIZER in finalizers then finalizers else finalizers + [FINALIZER]
  }

  /** The mounts of the injected containers. */
  function Mounts(pod: Pod, mv: ModelValidation): seq<VolumeMount> {
    Filtered(AllMounts(pod.containers), NeededPaths(Merged(mv.model, pod.annotations), mv.config))
    + if mv.config.sigstore.Some? then [VolumeMount(TUF_VOLUME, "/.sigstore", false)] else []
  }

  function Args(pod: Pod, mv: ModelValidation): seq<string> {
    VerifyArgs(mv.config, Merged(mv.model, pod.annotations))
  }

  function InjectedPod(pod: Pod, mv: ModelValidation, native: bool, now: string): Pod {
    pod.(finalizers := WithFinalizer(pod.finalizers),
         annotations := Marked(Stamped(pod.annotations, ConfigOf(mv), now), mv),
         volumes := pod.volumes + if mv.config.sigstore.Some? then [TUF_VOLUME] else [],
         initContainers := pod.initContainers + [Container(INIT_CONTAINER, InitArgs(mv, native, Args(pod, mv)), Mounts(pod, mv))],
         containers := pod.containers
           + if Continuous(mv) && !native then [Container(SIDECAR_CONTAINER, SidecarArgs(mv, Args(pod, mv)), Mounts(pod, mv))] else [])
  }

  function Handled(req: Request, cluster: Cluster, native: bool, now: string): Response {
    if req.pod.None? || req.namespace !in cluster.namespaces then Errored
    else
      var pod := req.pod.value;
      if Lookup(cluster.namespaces[req.namespace], IGNORE_NAMESPACE_LABEL) == IGNORE_NAMESPACE_VALUE then Allowed
      else if LabelKey(pod).None? then Allowed
      else if LabelKey(pod).value !in cluster.mvs then Errored
      else if Carries(pod) then Allowed
      else Patched(InjectedPod(pod, cluster.mvs[LabelKey(pod).value], native, now))
  }

  /** The copy of the pod that Handle changes. */
  class PodCopy {
    var pod: Pod

    constructor (pod: Pod)
      ensures this.pod == pod
    {
      this.pod := pod;
    }

    method AddFinalizer()
      modifies this
      ensures pod == old(pod).(finalizers := WithFinalizer(old(pod).finalizers))
    {
      if FINALIZER !in pod.finalizers {
        pod := pod.(finalizers := pod.finalizers + [FINALIZER]);
      }
    }

    method Annotate(key: string, value: string)
      modifies this
      ensures pod == old(pod).(annotations := old(pod).annotations[key := value])
    {
      pod := pod.(annotations := pod.annotations[key := value]);
    }

    method AddVolume(name: string)
      modifies this
      ensures pod == old(pod).(volumes := old(pod).volumes + [name])
    {
      pod := pod.(volumes := pod.volumes + [name]);
    }

    method AddInitContainer(c: Container)
      modifies this
      ensures pod == old(pod).(initContainers := old(pod).initContainers + [c])
    {
      pod := pod.(initContainers := pod.initContainers + [c]);
    }

    method AddContainer(c: Container)
      modifies this
      ensures pod == old(pod).(containers := old(pod).containers + [c])
    {
      pod := pod.(containers := pod.containers + [c]);
    }
  }

  class PodInterceptor {
    const nativeSidecarSupport: bool

    constructor (native: bool)
      ensures nativeSidecarSupport == native
    {
      nativeSidecarSupport := native;
    }

    method FindContainer(containers: seq<Container>, name: string) returns (found: bool)
      ensures found == HasContainer(containers, name)
    {
      for i := 0 to |containers|
        invariant forall j | 0 <= j < i :: containers[j].name != name
      {
        if containers[i].name == name {
          return true;
        }
      }
      return false;
    }

    method BuildArgs(pod: Pod, mv: ModelValidation) returns (args: seq<string>)
      ensures args == Args(pod, mv)
    {
      var mergedModel := MergeModelWithAnnotations(mv.model, pod.annotations);
      var printed := ValidationConfigToArgs(mv.config, mergedModel);
      args := ["verify"] + printed + [mergedModel.path];
    }

    method BuildMounts(pod: Pod, mv: ModelValidation, pp: PodCopy) returns (vm: seq<VolumeMount>)
      modifies pp
      ensures vm == Mounts(pod, mv)
      ensures pp.pod == old(pp.pod).(volumes := old(pp.pod).volumes + if mv.config.sigstore.Some? then [TUF_VOLUME] else [])
    {
      var mergedModel := MergeModelWithAnnotations(mv.model, pod.annotations);
      var neededPaths := CollectNeededPaths(mergedModel, mv.config);
      vm := FilterVolumeMounts(pod.containers, neededPaths);
      if mv.config.sigstore.Some? {
        pp.AddVolume(TUF_VOLUME);
        vm := vm + [VolumeMount(TUF_VOLUME, "/.sigstore", false)];
      }
    }

    method BuildValidationContainer(mv: ModelValidation, args: seq<string>, vm: seq<VolumeMount>, pp: PodCopy) returns (c: Container)
      modifies pp
      ensures c == Container(INIT_CONTAINER, InitArgs(mv, nativeSidecarSupport, args), vm)
      ensures pp.pod == old(pp.pod).(annotations := Marked(old(pp.pod).annotations, mv))
    {
      c := Container(INIT_CONTAINER, args, vm);
      if Continuous(mv) && nativeSidecarSupport {
        var interval := "5m";
        if mv.continuous.value.interval != "" {
          interval := mv.continuous.value.interval;
        }
        c := c.(args := ["--interval=" + interval] + args);
      }
      if Continuous(mv) {
        pp.Annotate(CONTINUOUS_ANNOTATION, "true");
      }
    }

    method BuildLegacySidecarContainer(mv: ModelValidation, args: seq<string>, vm: seq<VolumeMount>) returns (c: Container)
      ensures c == Container(SIDECAR_CONTAINER, SidecarArgs(mv, args), vm)
    {
      var interval := "5m";
      if mv.continuous.Some? && mv.continuous.value.interval != "" {
        interval := mv.continuous.value.interval;
      }
      c := Container(SIDECAR_CONTAINER, ["--interval=" + interval, "--skip-initial"] + args, vm);
    }

    method Inject(pod: Pod, mv: ModelValidation, now: string) returns (patched: Pod)
      ensures patched == InjectedPod(pod, mv, nativeSidecarSupport, now)
    {
      var args := BuildArgs(pod, mv);
      var pp := new PodCopy(pod);
      pp.AddFinalizer();
      pp.Annotate(INJECTED_ANNOTATION, now);
      pp.Annotate(AUTH_METHOD_ANNOTATION, GetAuthMethod(mv.config));
      pp.Annotate(CONFIG_HASH_ANNOTATION, mv.hash);
      var useLegacySidecar := Continuous(mv) && !nativeSidecarSupport;
      var vm := BuildMounts(pod, mv, pp);
      var container := BuildValidationContainer(mv, args, vm, pp);
      pp.AddInitContainer(container);
      if useLegacySidecar {
        var sidecar := BuildLegacySidecarContainer(mv, args, vm);
        pp.AddContainer(sidecar);
      }
      return pp.pod;
    }

    method Handle(req: Request, cluster: Cluster, now: string) returns (resp: Response)
      ensures resp == Handled(req, cluster, nativeSidecarSupport, now)
    {
      if req.pod.None? || req.namespace !in cluster.namespaces {
        return Errored;
      }
      var pod := req.pod.value;
      if Lookup(cluster.namespaces[req.namespace], IGNORE_NAMESPACE_LABEL) == IGNORE_NAMESPACE_VALUE {
        return Allowed;
      }
      if LABEL !in pod.labels || pod.labels[LABEL] == "" {
        return Allowed;
      }
      var key := NamespacedName(pod.namespace, pod.labels[LABEL]);
      if key !in cluster.mvs {
        return Errored;
      }
      var hasInit := FindContainer(pod.initContainers, INIT_CONTAINER);
      if hasInit {
        return Allowed;
      }
      var hasSidecar := FindContainer(pod.containers, SIDECAR_CONTAINER);
      if hasSidecar {
        return Allowed;
      }
      var patched := Inject(pod, cluster.mvs[key], now);
      return Patched(patched);
    }
  }

  // When a request is refused, let through, or patched.

  predicate IsLabelled(pod: Pod) {
    "validation.ml.sigstore.dev/ml" in pod.labels && pod.labels["validation.ml.sigstore.dev/ml"] != ""
  }

  /** The namespace has the label that switches the webhook off. */
  predicate IsIgnored(labels: map<string, string>) {
    "validation.ml.sigstore.dev/ignore" in labels && labels["validation.ml.sigstore.dev/ignore"] == "true"
  }

  predicate IsInjected(pod: Pod) {
    || (exists c | c in pod.initContainers :: c.name == "model-validation")
    || (exists c | c in pod.containers :: c.name == "model-validation-sidecar")
  }

  /** The webhook is switched on where the pod goes, and the pod asks for it. */
  predicate Wants(req: Request, cluster: Cluster) {
    && req.pod.Some? && req.namespace in cluster.namespaces
    && !IsIgnored(cluster.namespaces[req.namespace]) && IsLabelled(req.pod.value)
  }

  /** The ModelValidation that the label names, in the namespace of the pod. */
  function NamedMV(pod: Pod): NamespacedName
    requires IsLabelled(pod)
  {
    NamespacedName(pod.namespace, pod.labels["validation.ml.sigstore.dev/ml"])
  }

  lemma CarriesIff(pod: Pod)
    ensures Carries(pod) <==> IsInjected(pod)
  {
    HasContainerIff(pod.initContainers, INIT_CONTAINER);
    HasContainerIff(pod.containers, SIDECAR_CONTAINER);
  }

  lemma HasContainerIff(containers: seq<Container>, name: string)
    ensures HasContainer(containers, name) <==> exists c | c in containers :: c.name == name
  {
    if i :| 0 <= i < |containers| && containers[i].name == name {
      assert containers[i] in containers;
    }
  }

  /** Which of the three answers a request gets. It is refused if the pod does not decode, the namespace
      is unknown, or the pod wants injection and its ModelValidation does not exist; it is patched if the
      pod wants injection, its ModelValidation exists, and it has not been injected; and it is let through
      as it is in all other cases. */
  lemma AnswerIff(req: Request, cluster: Cluster, native: bool, now: string)
    ensures Handled(req, cluster, native, now).Errored?
       <==> || req.pod.None? || req.namespace !in cluster.namespaces
            || (Wants(req, cluster) && NamedMV(req.pod.value) !in cluster.mvs)
    ensures Handled(req, cluster, native, now).Patched?
       <==> Wants(req, cluster) && NamedMV(req.pod.value) in cluster.mvs && !IsInjected(req.pod.value)
    ensures Handled(req, cluster, native, now).Patched? ==>
              Handled(req, cluster, native, now).pod == InjectedPod(req.pod.value, cluster.mvs[NamedMV(req.pod.value)], native, now)
    ensures Handled(req, cluster, native, now).Allowed?
       <==> && req.pod.Some? && req.namespace in cluster.namespaces
            && (Wants(req, cluster) ==> NamedMV(req.pod.value) in cluster.mvs && IsInjected(req.pod.value))
  {
    if req.pod.Some? {
      CarriesIff(req.pod.value);
    }
  }

  // What a patch adds.

  /** Continuous validation is asked for. */
  predicate IsContinuous(mv: ModelValidation) {
    match mv.continuous case Some(c) => c.enabled case None => false
  }

  /** The value of an annotation after injection, if it has one. */
  function Annotation(pod: Pod, key: string): Option<string> {
    if key in pod.annotations then Some(pod.annotations[key]) else None
  }

  lemma StampKeysDiffer()
    ensures INJECTED_ANNOTATION != AUTH_METHOD_ANNOTATION && INJECTED_ANNOTATION != CONFIG_HASH_ANNOTATION
    ensures INJECTED_ANNOTATION != CONTINUOUS_ANNOTATION
  {
    assert |INJECTED_ANNOTATION| == 38 && |CONTINUOUS_ANNOTATION| == 48;
    assert INJECTED_ANNOTATION[27] == 'i' && AUTH_METHOD_ANNOTATION[27] == 'a' && CONFIG_HASH_ANNOTATION[27] == 'c';
  }

  /** The annotations: time, method and hash are written, the continuous mark exactly if it is asked for. */
  lemma PatchAnnotates(pod: Pod, mv: ModelValidation, native: bool, now: string, key: string)
    ensures Annotation(InjectedPod(pod, mv, native, now), key)
         == if key == INJECTED_ANNOTATION then Some(now)
            else if key == AUTH_METHOD_ANNOTATION then Some(GetAuthMethod(mv.config))
            else if key == CONFIG_HASH_ANNOTATION then Some(mv.hash)
            else if key == CONTINUOUS_ANNOTATION && IsContinuous(mv) then Some("true")
            else Annotation(pod, key)
  {
    AnnotationKeysDiffer();
    StampKeysDiffer();
  }

  /** The finalizer is added once, the cache volume exactly with sigstore; one init container is appended,
      and a sidecar exactly for continuous validation without native sidecars, with the same mounts. */
  lemma PatchAppends(pod: Pod, mv: ModelValidation, native: bool, now: string)
    ensures var pp := InjectedPod(pod, mv, native, now);
            && pp.finalizers == pod.finalizers + (if "validation.ml.sigstore.dev/finalizer" in pod.finalizers then []
                                                 else ["validation.ml.sigstore.dev/finalizer"])
            && pp.volumes == pod.volumes + (if mv.config.sigstore.Some? then ["sigstore-tuf-cache"] else [])
            && |pp.initContainers| == |pod.initContainers| + 1 && pp.initContainers[..|pod.initContainers|] == pod.initContainers
            && pp.initContainers[|pod.initContainers|].name == "model-validation"
            && |pp.containers| == |pod.containers| + (if IsContinuous(mv) && !native then 1 else 0)
            && pp.containers[..|pod.containers|] == pod.containers
            && (IsContinuous(mv) && !native ==>
                  && pp.containers[|pod.containers|].name == "model-validation-sidecar"
                  && pp.containers[|pod.containers|].mounts == pp.initContainers[|pod.initContainers|].mounts)
  {
  }

  /** A file that the agent reads: the model, or a path of the signature, the certificate, the public key
      or the trust configuration that is set. */
  predicate IsNeeded(mv: ModelValidation, path: string) {
    || path == mv.model.path
    || (path != "" && (path == mv.model.signaturePath || Some(path) == mv.config.pki || Some(path) == mv.config.publicKey
                       || Some(path) == mv.config.clientTrust))
  }

  /** The mount path, other than the root, is or contains a needed path. */
  ghost predicate Holds(mv: ModelValidation, mountPath: string) {
    mountPath != "/" && exists p :: IsNeeded(mv, p) && IsUnder(p, mountPath)
  }

  predicate IsUnder(path: string, mountPath: string) {
    || path == mountPath || mountPath + "/" <= path
    || (mountPath != "" && mountPath[|mountPath| - 1] == '/' && mountPath <= path)
  }

  lemma NeededAre(pod: Pod, mv: ModelValidation, path: string)
    ensures path in NeededPaths(Merged(mv.model, pod.annotations), mv.config) <==> IsNeeded(mv, path)
  {
    NeededPathsAre(Merged(mv.model, pod.annotations), mv.config, path);
  }

  lemma HoldsIff(pod: Pod, mv: ModelValidation, mountPath: string)
    ensures mountPath != "/" && CoversSome(mountPath, NeededPaths(Merged(mv.model, pod.annotations), mv.config)) <==> Holds(mv, mountPath)
  {
    var needed := NeededPaths(Merged(mv.model, pod.annotations), mv.config);
    forall p ensures p in needed && Covers(mountPath, p) <==> IsNeeded(mv, p) && IsUnder(p, mountPath) {
      NeededAre(pod, mv, p);
      CoversIff(mountPath, p);
    }
    if CoversSome(mountPath, needed) {
      var p :| p in needed && Covers(mountPath, p);
      assert IsNeeded(mv, p) && IsUnder(p, mountPath);
    }
    if mountPath != "/" && Holds(mv, mountPath) {
      var p :| IsNeeded(mv, p) && IsUnder(p, mountPath);
      assert p in needed && Covers(mountPath, p);
    }
  }

  /** The mounts of the injected containers that come from the pod. */
  function PodMounts(pod: Pod, mv: ModelValidation): seq<VolumeMount> {
    Filtered(AllMounts(pod.containers), NeededPaths(Merged(mv.model, pod.annotations), mv.config))
  }

  /** The new containers have these mounts, and the cache exactly with sigstore. */
  lemma PatchMounts(pod: Pod, mv: ModelValidation, native: bool, now: string)
    ensures InjectedPod(pod, mv, native, now).initContainers[|pod.initContainers|].mounts
         == PodMounts(pod, mv) + (if mv.config.sigstore.Some? then [VolumeMount("sigstore-tuf-cache", "/.sigstore", false)] else [])
  {
  }

  /** A path that the submitted containers mount is mounted exactly if it holds a needed file. */
  lemma MountedIff(pod: Pod, mv: ModelValidation, path: string)
    ensures HasPath(PodMounts(pod, mv), path) <==> HasPath(AllMounts(pod.containers), path) && Holds(mv, path)
  {
    FilteredIsExact(AllMounts(pod.containers), NeededPaths(Merged(mv.model, pod.annotations), mv.config), path);
    HoldsIff(pod, mv, path);
  }

  /** Once and read-only, from the volume of the first container mount at the path. */
  lemma MountsAreFirst(pod: Pod, mv: ModelValidation, j: nat)
    requires j < |PodMounts(pod, mv)|
    ensures var kept := PodMounts(pod, mv); kept[j].readOnly && !HasPath(kept[..j], kept[j].mountPath)
    ensures IsFirst(AllMounts(pod.containers), PodMounts(pod, mv)[j])
  {
    var mounts, needed := AllMounts(pod.containers), NeededPaths(Merged(mv.model, pod.annotations), mv.config);
    FilteredIsDistinct(mounts, needed);
    KeptIsFirst(mounts, needed, PodMounts(pod, mv)[j]);
  }

  // Injection over the admissions of a pod.

  /** An edit of the stored pod, submitted for admission. */
  datatype Admission = Admission(edit: Pod -> Pod, namespace: string, cluster: Cluster, native: bool, now: string)

  function Admit(stored: Pod, a: Admission): Response {
    Handled(Request(a.namespace, Some(a.edit(stored))), a.cluster, a.native, a.now)
  }

  function Store(stored: Pod, a: Admission): Pod {
    match Admit(stored, a)
    case Patched(pod) => pod
    case Allowed => a.edit(stored)
    case Errored => stored
  }

  function Patches(stored: Pod, admissions: seq<Admission>): nat
    decreases |admissions|
  {
    if admissions == [] then 0
    else (if Admit(stored, admissions[0]).Patched? then 1 else 0) + Patches(Store(stored, admissions[0]), admissions[1..])
  }

  ghost predicate KeepsInjection(edit: Pod -> Pod) {
    forall p: Pod :: Carries(p) ==> Carries(edit(p))
  }

  lemma InjectedCarries(pod: Pod, mv: ModelValidation, native: bool, now: string)
    ensures Carries(InjectedPod(pod, mv, native, now))
  {
    var c := InjectedPod(pod, mv, native, now).initContainers;
    assert c[|c| - 1].name == INIT_CONTAINER;
  }

  /** Over any sequence of admissions whose edits keep the injected containers, whatever happens to
      the namespaces, the ModelValidations and the kind of sidecar, the pod is injected at most once,
      and not at all if it came with the containers. */
  lemma {:induction false} InjectedAtMostOnce(stored: Pod, admissions: seq<Admission>)
    requires forall a | a in admissions :: KeepsInjection(a.edit)
    ensures Patches(stored, admissions) <= if Carries(stored) then 0 else 1
    decreases |admissions|
  {
    if admissions != [] {
      var a := admissions[0];
      assert KeepsInjection(a.edit);
      var r := Admit(stored, a);
      if r.Patched? {
        var pod := a.edit(stored);
        InjectedCarries(pod, a.cluster.mvs[LabelKey(pod).value], a.native, a.now);
      }
      InjectedAtMostOnce(Store(stored, a), admissions[1..]);
    }
  }

  /** What was submitted stays: containers and volumes are prefixes, finalizers and labels remain. */
  lemma InjectionKeepsPod(pod: Pod, mv: ModelValidation, native: bool, now: string)
    ensures var pp := InjectedPod(pod, mv, native, now);
            && pod.containers <= pp.containers && pod.initContainers <= pp.initContainers && pod.volumes <= pp.volumes
            && pod.finalizers <= pp.finalizers && HasFinalizer(pp)
            && pp.labels == pod.labels && PodName(pp) == PodName(pod) && pp.uid == pod.uid && pp.deleting == pod.deleting
  {
  }

  lemma InjectionKeepsAnnotations(pod: Pod, mv: ModelValidation, native: bool, now: string, key: string)
    requires key !in {INJECTED_ANNOTATION, AUTH_METHOD_ANNOTATION, CONFIG_HASH_ANNOTATION, CONTINUOUS_ANNOTATION}
    ensures var pp := InjectedPod(pod, mv, native, now);
            (key in pp.annotations <==> key in pod.annotations) && Lookup(pp.annotations, key) == Lookup(pod.annotations, key)
  {
  }

  function StoreAll(stored: Pod, admissions: seq<Admission>): Pod
    decreases |admissions|
  {
    if admissions == [] then stored else StoreAll(Store(stored, admissions[0]), admissions[1..])
  }

  /** The pod still begins with the containers, init containers and volumes of the original. */
  predicate Extends(pod: Pod, original: Pod) {
    original.containers <= pod.containers && original.initContainers <= pod.initContainers && original.volumes <= pod.volumes
  }

  /** As long as the edits keep what the pod was created with in front, the webhook does too. */
  lemma {:induction false} OriginalStaysInFront(original: Pod, stored: Pod, admissions: seq<Admission>)
    requires Extends(stored, original)
    requires forall a, p: Pod | a in admissions && Extends(p, original) :: Extends(a.edit(p), original)
    ensures Extends(StoreAll(stored, admissions), original)
    decreases |admissions|
  {
    if admissions != [] {
      assert Extends(admissions[0].edit(stored), original);
      OriginalStaysInFront(original, Store(stored, admissions[0]), admissions[1..]);
    }
  }

  lemma StampsAreOurs(pod: Pod, mv: ModelValidation, native: bool, now: string)
    ensures InfoOf(InjectedPod(pod, mv, native, now)).configHash == mv.hash
    ensures InfoOf(InjectedPod(pod, mv, native, now)).authMethod == GetAuthMethod(mv.config)
  {
    AnnotationKeysDiffer();
  }

  lemma AnnotationKeysDiffer()
    ensures CONTINUOUS_ANNOTATION != CONFIG_HASH_ANNOTATION && CONTINUOUS_ANNOTATION != AUTH_METHOD_ANNOTATION
    ensures AUTH_METHOD_ANNOTATION != CONFIG_HASH_ANNOTATION
  {
    assert |CONTINUOUS_ANNOTATION| == 48 && |CONFIG_HASH_ANNOTATION| == 38 && |AUTH_METHOD_ANNOTATION| == 38;
    assert CONFIG_HASH_ANNOTATION[27] == 'c' && AUTH_METHOD_ANNOTATION[27] == 'a';
  }

  /** The stamps and the finalizer of the injection are still on the pod. */
  predicate Intact(pod: Pod, injected: Pod) {
    && HasFinalizer(pod)
    && InfoOf(pod).configHash == InfoOf(injected).configHash && InfoOf(pod).authMethod == InfoOf(injected).authMethod
  }

  /** Such a pod passes the drift test exactly for the configuration it was injected with. */
  lemma StampsMatchIff(pod: Pod, original: Pod, mv: ModelValidation, native: bool, now: string, c: Config)
    requires mv.hash != "" && Intact(pod, InjectedPod(original, mv, native, now))
    ensures Drifted(InfoOf(pod), c) <==> c != ConfigOf(mv)
  {
    StampsAreOurs(original, mv, native, now);
  }

  /** Injection and tracking agree: after any run of the tracker, a tracked pod whose last event
      showed it with the finalizer and the stamps of its injection is injected if and only if the
      configuration held at that event, and every one held since, is the one of the ModelValidation
      at admission. Otherwise it is orphaned. */
  lemma {:induction false} InjectionMeetsTracking(ops: seq<Op>, k: Key, u: UID, original: Pod, mv: ModelValidation, native: bool, now: string)
    requires Run(ops).Tracks(k, u) && mv.hash != ""
    requires LastSeen(ops, k, u).Some? ==> Intact(SeenPod(ops[LastSeen(ops, k, u).value]), InjectedPod(original, mv, native, now))
    ensures LastSeen(ops, k, u).Some?
    ensures var e := LastSeen(ops, k, u).value;
            && TrackedSince(ops, e, k)
            && Run(ops).mvs[k].StateOf(u)
               == Some(if forall j | e < j <= |ops| :: At(ops, j).mvs[k].config == ConfigOf(mv) then State.Injected else Orphaned)
  {
    ClassificationIsHistory(ops, k, u);
    var e := LastSeen(ops, k, u).value;
    var pod := SeenPod(ops[e]);
    forall j | e < j <= |ops| ensures Fits(At(ops, j), k, InfoOf(pod)) <==> At(ops, j).mvs[k].config == ConfigOf(mv) {
      StampsMatchIff(pod, original, mv, native, now, At(ops, j).mvs[k].config);
    }
  }
}
