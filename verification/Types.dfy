/** Values shared by the operator's packages: Kubernetes names, pods and the constants of
    internal/constants/labels.go. */
module Types {
  datatype Option<+T> = None | Some(value: T)

  datatype Result<+T> = Ok(value: T) | Err

  datatype NamespacedName = NamespacedName(namespace: string, name: string)

  type UID = string

  /** What the tracker remembers of a ModelValidation spec: the value of GetConfigHash, which is
      left uninterpreted, and the value of GetAuthMethod. */
  datatype Config = Config(hash: string, authMethod: string)

  /** The part of an observed ModelValidation that AddModelValidation reads. */
  datatype Revision = Revision(config: Config, generation: int)

  datatype VolumeMount = VolumeMount(name: string, mountPath: string, readOnly: bool)

  datatype Container = Container(name: string, args: seq<string>, mounts: seq<VolumeMount>)

  datatype Pod = Pod(
    namespace: string,
    name: string,
    uid: UID,
    labels: map<string, string>,
    annotations: map<string, string>,
    finalizers: seq<string>,
    deleting: bool,
    initContainers: seq<Container>,
    containers: seq<Container>,
    volumes: seq<string>)

  const LABEL := "validation.ml.sigstore.dev/ml"
  const FINALIZER := "validation.ml.sigstore.dev/finalizer"
  const INJECTED_ANNOTATION := "validation.ml.sigstore.dev/injected-at"
  const AUTH_METHOD_ANNOTATION := "validation.ml.sigstore.dev/auth-method"
  const CONFIG_HASH_ANNOTATION := "validation.ml.sigstore.dev/config-hash"
  const CONTINUOUS_ANNOTATION := "validation.ml.sigstore.dev/continuous-validation"
  const IGNORE_PATHS_ANNOTATION := "validation.ml.sigstore.dev/ignore-paths"
  const IGNORE_GIT_PATHS_ANNOTATION := "validation.ml.sigstore.dev/ignore-git-paths"
  const IGNORE_UNSIGNED_FILES_ANNOTATION := "validation.ml.sigstore.dev/ignore-unsigned-files"
  const ALLOW_SYMLINKS_ANNOTATION := "validation.ml.sigstore.dev/allow-symlinks"

  /** Indexing a Go map of strings: a missing key reads as the empty string. */
  function Lookup(m: map<string, string>, key: string): string {
    if key in m then m[key] else ""
  }

  /** The record the tracker keeps of a pod. */
  datatype PodInfo = PodInfo(name: string, namespace: string, uid: UID, configHash: string, authMethod: string)

  function NameOf(p: PodInfo): NamespacedName {
    NamespacedName(p.namespace, p.name)
  }

  function InfoOf(pod: Pod): PodInfo {
    PodInfo(pod.name, pod.namespace, pod.uid,
            Lookup(pod.annotations, CONFIG_HASH_ANNOTATION), Lookup(pod.annotations, AUTH_METHOD_ANNOTATION))
  }

  /** The ModelValidation a pod's label points at, in the pod's own namespace. */
  function LabelKey(pod: Pod): Option<NamespacedName> {
    var name := Lookup(pod.labels, LABEL);
    if name == "" then None else Some(NamespacedName(pod.namespace, name))
  }

  function PodName(pod: Pod): NamespacedName {
    NamespacedName(pod.namespace, pod.name)
  }

  predicate HasFinalizer(pod: Pod) {
    FINALIZER in pod.finalizers
  }
}
