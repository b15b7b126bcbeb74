/** api/v1alpha1/modelvalidation_types.go: the spec of a ModelValidation. */
module ModelValidationTypes {
  import opened Types

  datatype Model = Model(
    path: string,
    signaturePath: string,
    ignorePaths: seq<string>,
    ignoreGitPaths: Option<bool>,
    ignoreUnsignedFiles: Option<bool>,
    allowSymlinks: Option<bool>)

  datatype SigstoreConfig = SigstoreConfig(certificateIdentity: string, certificateOidcIssuer: string)

  /** The path of the certificate authority, of the public key and of the trust configuration stand
      for PkiConfig, PublicKeyConfig and ClientTrustConfig, which hold nothing else. */
  datatype ValidationConfig = ValidationConfig(
    sigstore: Option<SigstoreConfig>,
    pki: Option<string>,
    publicKey: Option<string>,
    clientTrust: Option<string>)

  datatype ContinuousValidation = ContinuousValidation(enabled: bool, interval: string)

  /** A ModelValidation. `hash` is the value of GetConfigHash: 16 hexadecimal digits, otherwise left open. */
  datatype ModelValidation = ModelValidation(
    labels: map<string, string>,
    model: Model,
    config: ValidationConfig,
    continuous: Option<ContinuousValidation>,
    hash: string)

  predicate Continuous(mv: ModelValidation) {
    mv.continuous.Some? && mv.continuous.value.enabled
  }

  function GetAuthMethod(config: ValidationConfig): string {
    if config.sigstore.Some? then "sigstore"
    else if config.pki.Some? then "pki"
    else if config.publicKey.Some? then "public-key"
    else "unknown"
  }

  /** The validation rule of ValidationConfig. */
  predicate ExactlyOneMethod(config: ValidationConfig) {
    (if config.sigstore.Some? then 1 else 0) + (if config.pki.Some? then 1 else 0) + (if config.publicKey.Some? then 1 else 0) == 1
  }

  /** The validation pattern of the model path. */
  predicate MatchesPathPattern(path: string) {
    "/" <= path || "s3://" <= path || "gs://" <= path || "http://" <= path || "https://" <= path
  }
}
