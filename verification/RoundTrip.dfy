/** The webhook prints what the agent reads: pod_webhook.go, main.go and parse.go together. */
module RoundTrip {
  import opened Types
  import opened ModelValidationTypes
  import opened Parse
  import opened ValidationArgs
  import opened Agent
  import opened Annotations
  import W = PodWebhooks

  /** What the agent is meant to verify, field by field. An absent and a false allow-symlinks are not
      told apart on the command line. */
  function Intended(config: ValidationConfig, model: Model): AgentConfig
    requires VerifierOf(config).Some?
  {
    var key := config.sigstore.None? && config.publicKey.Some?;
    var certificate := config.sigstore.None? && config.publicKey.None? && config.pki.Some?;
    AgentConfig(
      verifier := VerifierOf(config).value,
      modelPath := model.path,
      signaturePath := model.signaturePath,
      identity := if config.sigstore.Some? then config.sigstore.value.certificateIdentity else "",
      identityProvider := if config.sigstore.Some? then config.sigstore.value.certificateOidcIssuer else "",
      publicKeyPath := if key then config.publicKey.value else "",
      certificateChainPath := if certificate then config.pki.value else "",
      trustConfigPath := if config.clientTrust.Some? then config.clientTrust.value else "",
      ignorePaths := model.ignorePaths,
      ignoreGitPaths := model.ignoreGitPaths,
      ignoreUnsignedFiles := model.ignoreUnsignedFiles,
      allowSymlinks := if model.allowSymlinks == Some(true) then Some(true) else None)
  }

  lemma {:induction false} FoldIgnorePaths(c: AgentConfig, paths: seq<string>)
    ensures Folded(c, IgnoreItems(paths)) == c.(ignorePaths := c.ignorePaths + paths)
  {
    if paths == [] {
      assert c.ignorePaths + paths == c.ignorePaths;
    } else {
      var n := |paths| - 1;
      FoldIgnorePaths(c, paths[..n]);
      FoldedLast(c, IgnoreItems(paths));
      assert IgnoreItems(paths)[..n] == IgnoreItems(paths[..n]);
      assert c.ignorePaths + paths == c.ignorePaths + paths[..n] + [paths[n]];
    }
  }

  lemma FoldOne(c: AgentConfig, item: Item)
    ensures Folded(c, [item]) == SetBy(c, item)
  {
  }

  lemma FoldTwo(c: AgentConfig, a: Item, b: Item)
    ensures Folded(c, [a, b]) == SetBy(SetBy(c, a), b)
  {
    FoldedConcat(c, [a], [b]);
    assert [a] + [b] == [a, b];
  }

  function MethodSet(config: ValidationConfig, model: Model): AgentConfig
    requires VerifierOf(config).Some?
  {
    Intended(config, model).(modelPath := "", trustConfigPath := "", ignorePaths := [], ignoreGitPaths := None,
                             ignoreUnsignedFiles := None, allowSymlinks := None)
  }

  lemma FoldMethod(config: ValidationConfig, model: Model)
    requires VerifierOf(config).Some?
    ensures Folded(Zero(VerifierOf(config).value).(signaturePath := model.signaturePath), MethodItems(config)) == MethodSet(config, model)
  {
    var c, items := Zero(VerifierOf(config).value).(signaturePath := model.signaturePath), MethodItems(config);
    if config.sigstore.Some? {
      FoldTwo(c, items[0], items[1]);
    } else {
      FoldOne(c, items[0]);
    }
  }

  lemma FoldHead(config: ValidationConfig, model: Model)
    requires VerifierOf(config).Some?
    ensures Folded(Zero(VerifierOf(config).value), HeadItems(config, model))
         == MethodSet(config, model).(trustConfigPath := Intended(config, model).trustConfigPath)
  {
    var zero, signature, items := Zero(VerifierOf(config).value), Signature(model.signaturePath), MethodItems(config);
    FoldMethod(config, model);
    FoldOne(zero, signature);
    FoldedConcat(zero, [signature], items);
    if config.clientTrust.Some? {
      var trust := Valued(TrustConfig, config.clientTrust.value);
      FoldedConcat(zero, [signature] + items, [trust]);
      FoldOne(MethodSet(config, model), trust);
    } else {
      assert HeadItems(config, model) == [signature] + items;
    }
  }

  lemma FoldSwitches(c: AgentConfig, model: Model)
    requires c.ignoreGitPaths == c.ignoreUnsignedFiles == c.allowSymlinks == None
    ensures Folded(c, SwitchItems(model))
         == c.(ignoreGitPaths := model.ignoreGitPaths, ignoreUnsignedFiles := model.ignoreUnsignedFiles,
               allowSymlinks := if model.allowSymlinks == Some(true) then Some(true) else None)
  {
    var git := match model.ignoreGitPaths
      case None => []
      case Some(b) => [Switched(if b then IgnoreGitPaths else NoIgnoreGitPaths)];
    var unsigned := match model.ignoreUnsignedFiles
      case None => []
      case Some(b) => [Switched(if b then IgnoreUnsignedFiles else NoIgnoreUnsignedFiles)];
    var symlinks := if model.allowSymlinks == Some(true) then [Switched(AllowSymlinks)] else [];
    FoldedConcat(c, git + unsigned, symlinks);
    FoldedConcat(c, git, unsigned);
    var c1 := Folded(c, git);
    var c2 := Folded(c1, unsigned);
    assert c1 == c.(ignoreGitPaths := model.ignoreGitPaths);
    assert c2 == c1.(ignoreUnsignedFiles := model.ignoreUnsignedFiles);
    assert Folded(c2, symlinks) == c2.(allowSymlinks := if model.allowSymlinks == Some(true) then Some(true) else None);
  }

  lemma FoldItems(config: ValidationConfig, model: Model)
    requires VerifierOf(config).Some?
    ensures Meaning(VerifierOf(config).value, Line(Items(config, model), model.path)) == Intended(config, model)
  {
    var zero, head := Zero(VerifierOf(config).value), HeadItems(config, model);
    FoldedConcat(zero, head + IgnoreItems(model.ignorePaths), SwitchItems(model));
    FoldedConcat(zero, head, IgnoreItems(model.ignorePaths));
    FoldHead(config, model);
    var c := MethodSet(config, model).(trustConfigPath := Intended(config, model).trustConfigPath);
    FoldIgnorePaths(c, model.ignorePaths);
    assert c.ignorePaths + model.ignorePaths == model.ignorePaths;
    FoldSwitches(c.(ignorePaths := model.ignorePaths), model);
  }

  /** What is printed parses if and only if there is a method and the path is not empty and not a
      flag; it then parses to what was meant, whatever the other values look like. */
  lemma PrintedParses(config: ValidationConfig, model: Model)
    ensures Parsed(VerifyArgs(config, model)).Ok? <==> VerifierOf(config).Some? && IsModelPath(model.path)
    ensures Parsed(VerifyArgs(config, model)).Ok? ==> Parsed(VerifyArgs(config, model)) == Ok(Intended(config, model))
  {
    var args, line := VerifyArgs(config, model), Line(Items(config, model), model.path);
    AcceptedIsGrammar(args);
    if VerifierOf(config).Some? && IsModelPath(model.path) {
      var verifier := VerifierOf(config).value;
      assert args == ["verify", verifier] + Rendered(line.items) + [line.path];
      assert Spells(args, verifier, line);
      GrammarIsAccepted(args, verifier, line);
      FoldItems(config, model);
    }
    forall v, l | Spells(args, v, l) ensures VerifierOf(config).Some? && IsModelPath(model.path) {
      assert |args| >= 3 && l.path == args[|args| - 1];
    }
  }

  /** The method on the command line is the one GetAuthMethod names, if and only if it is not the case
      that sigstore is absent while both pki and the public key are set. */
  predicate NamesAgree(verifier: Option<string>, authMethod: string) {
    match verifier
    case Some(v) =>
      || (v == "sigstore" && authMethod == "sigstore") || (v == "key" && authMethod == "public-key")
      || (v == "certificate" && authMethod == "pki")
    case None => authMethod == "unknown"
  }

  lemma MethodsAgreeIff(config: ValidationConfig)
    ensures NamesAgree(VerifierOf(config), GetAuthMethod(config))
       <==> !(config.sigstore.None? && config.pki.Some? && config.publicKey.Some?)
  {
  }

  lemma FlagsHaveDashes(flag: Flag)
    ensures FlagName(flag) != "" && FlagName(flag)[0] == '-'
  {
  }

  lemma SwitchesHaveDashes(switch: Switch)
    ensures SwitchName(switch) != "" && SwitchName(switch)[0] == '-'
  {
  }

  lemma PatternIsModelPath(path: string)
    requires MatchesPathPattern(path)
    ensures IsModelPath(path)
  {
    assert path != "" && path[0] != '-';
    forall flag ensures FlagName(flag) != path {
      FlagsHaveDashes(flag);
    }
    forall switch ensures SwitchName(switch) != path {
      SwitchesHaveDashes(switch);
    }
  }

  /** ptr.Deref(b, false). */
  function Effective(b: Option<bool>): bool {
    b == Some(true)
  }

  lemma PeeledInit(mv: ModelValidation, native: bool, args: seq<string>, syntax: Syntax)
    requires args != [] && args[0] == "verify" && syntax.duration(Interval(mv))
    ensures Peel(DEFAULTS, InitArgs(mv, native, args), syntax)
         == Ok(Peeled(if Continuous(mv) && native then DEFAULTS.(interval := Interval(mv)) else DEFAULTS, args))
  {
    PeelStopsAtVerify(DEFAULTS, args, syntax);
    PeelInterval(DEFAULTS, Interval(mv), args, syntax);
    PeelStopsAtVerify(DEFAULTS.(interval := Interval(mv)), args, syntax);
  }

  lemma SidecarInParts(mv: ModelValidation, args: seq<string>)
    ensures SidecarArgs(mv, args) == ["--interval=" + Interval(mv)] + (["--skip-initial"] + args)
  {
  }

  lemma PeeledSidecar(mv: ModelValidation, args: seq<string>, syntax: Syntax)
    requires args != [] && args[0] == "verify" && syntax.duration(Interval(mv))
    ensures Peel(DEFAULTS, SidecarArgs(mv, args), syntax)
         == Ok(Peeled(DEFAULTS.(interval := Interval(mv), skipInitial := true), args))
  {
    var timed := DEFAULTS.(interval := Interval(mv));
    PeelInterval(DEFAULTS, Interval(mv), ["--skip-initial"] + args, syntax);
    PeelSkipInitial(timed, args, syntax);
    PeelStopsAtVerify(timed.(skipInitial := true), args, syntax);
    SidecarInParts(mv, args);
  }

  /** For every ModelValidation the API admits, the arguments of each injected container reach the
      agent unchanged: after its own flags it is left with a line that parses to the method that
      GetAuthMethod names and to the values of the model and the configuration. */
  lemma {:induction false} InjectedArgsRoundTrip(mv: ModelValidation, model: Model, native: bool, syntax: Syntax)
    requires ExactlyOneMethod(mv.config) && MatchesPathPattern(model.path) && syntax.duration(Interval(mv))
    ensures var args := VerifyArgs(mv.config, model);
            && Parsed(args) == Ok(Intended(mv.config, model))
            && Peel(DEFAULTS, InitArgs(mv, native, args), syntax)
            == Ok(Peeled(if Continuous(mv) && native then DEFAULTS.(interval := Interval(mv)) else DEFAULTS, args))
            && Peel(DEFAULTS, SidecarArgs(mv, args), syntax)
            == Ok(Peeled(DEFAULTS.(interval := Interval(mv), skipInitial := true), args))
    ensures var c := Intended(mv.config, model);
            && NamesAgree(Some(c.verifier), GetAuthMethod(mv.config))
            && Effective(c.ignoreGitPaths) == Effective(model.ignoreGitPaths)
            && Effective(c.ignoreUnsignedFiles) == Effective(model.ignoreUnsignedFiles)
            && Effective(c.allowSymlinks) == Effective(model.allowSymlinks)
  {
    var args := VerifyArgs(mv.config, model);
    PatternIsModelPath(model.path);
    PrintedParses(mv.config, model);
    MethodsAgreeIff(mv.config);
    PeeledInit(mv, native, args, syntax);
    PeeledSidecar(mv, args, syntax);
  }

  /** The agent, started with these arguments, takes these settings and verifies what is intended. */
  predicate AgentReads(argv: seq<string>, syntax: Syntax, settings: Settings, intended: AgentConfig) {
    match Peel(DEFAULTS, argv, syntax)
    case Ok(peeled) => peeled.settings == settings && Parsed(peeled.rest) == Ok(intended)
    case Err => false
  }

  /** What the agent verifies is the model of the ModelValidation, with each switch as the annotations of
      the pod say it, or as the ModelValidation does where they say nothing. Of allow-symlinks the command
      line tells only whether it is on. */
  ghost predicate Obeys(c: AgentConfig, model: Model, annotations: map<string, string>) {
    && c.modelPath == model.path && c.signaturePath == model.signaturePath
    && Says(annotations, "validation.ml.sigstore.dev/ignore-git-paths", model.ignoreGitPaths, c.ignoreGitPaths)
    && Says(annotations, "validation.ml.sigstore.dev/ignore-unsigned-files", model.ignoreUnsignedFiles, c.ignoreUnsignedFiles)
    && (exists allow :: Says(annotations, "validation.ml.sigstore.dev/allow-symlinks", model.allowSymlinks, allow)
                        && c.allowSymlinks == if allow == Some(true) then Some(true) else None)
    && ("validation.ml.sigstore.dev/ignore-paths" !in annotations ==> c.ignorePaths == model.ignorePaths)
  }

  /** The ignore paths it reads are those that the entries of the annotation say. */
  lemma AgentReadsEntries(config: ValidationConfig, model: Model, annotations: map<string, string>, entries: seq<Entry>)
    requires VerifierOf(config).Some? && entries != [] && forall e | e in entries :: e.Valid()
    requires "validation.ml.sigstore.dev/ignore-paths" in annotations
    requires annotations["validation.ml.sigstore.dev/ignore-paths"] == Joined(Texts(entries), ',')
    ensures Intended(config, Merged(model, annotations)).ignorePaths == if PathsOf(entries) == [] then model.ignorePaths else PathsOf(entries)
  {
    EntriesAreRead(model, annotations, entries);
  }

  lemma IntendedObeys(config: ValidationConfig, model: Model, annotations: map<string, string>)
    requires VerifierOf(config).Some?
    ensures Obeys(Intended(config, Merged(model, annotations)), model, annotations)
  {
    SwitchesAreSaid(model, annotations);
    var allow := Merged(model, annotations).allowSymlinks;
    assert Says(annotations, "validation.ml.sigstore.dev/allow-symlinks", model.allowSymlinks, allow);
    if "validation.ml.sigstore.dev/ignore-paths" !in annotations { NoListStays(model, annotations); }
  }

  /** The interval of continuous validation, five minutes unless set. */
  predicate IsInterval(mv: ModelValidation, interval: string) {
    match mv.continuous
    case Some(c) => interval == if c.interval == "" then "5m" else c.interval
    case None => interval == "5m"
  }

  /** End to end: each container that an admission adds runs the agent on the settings of the
      ModelValidation, as overridden by the annotations of the submitted pod. The init container runs once,
      unless it is a native sidecar for continuous validation, and the legacy sidecar skips the first run. */
  lemma {:induction false} AdmittedPodsVerifyAsIntended(req: W.Request, cluster: W.Cluster, native: bool, now: string, mv: ModelValidation, syntax: Syntax)
    requires W.Handled(req, cluster, native, now).Patched? && mv == cluster.mvs[LabelKey(req.pod.value).value]
    requires ExactlyOneMethod(mv.config) && MatchesPathPattern(mv.model.path) && syntax.duration(Interval(mv))
    ensures var pod, pp := req.pod.value, W.Handled(req, cluster, native, now).pod;
            var intended := Intended(mv.config, Merged(mv.model, pod.annotations));
            && Obeys(intended, mv.model, pod.annotations)
            && IsInterval(mv, Interval(mv))
            && |pp.initContainers| == |pod.initContainers| + 1
            && AgentReads(pp.initContainers[|pod.initContainers|].args, syntax,
                          Settings(if W.IsContinuous(mv) && native then Interval(mv) else "0", "8080", false), intended)
            && |pp.containers| == |pod.containers| + (if W.IsContinuous(mv) && !native then 1 else 0)
            && (W.IsContinuous(mv) && !native ==>
                  AgentReads(pp.containers[|pod.containers|].args, syntax, Settings(Interval(mv), "8080", true), intended))
  {
    InjectedArgsRoundTrip(mv, Merged(mv.model, req.pod.value.annotations), native, syntax);
    IntendedObeys(mv.config, mv.model, req.pod.value.annotations);
  }

  /** An interval that time.ParseDuration refuses stops the agent before it verifies anything. */
  lemma BadIntervalStops(mv: ModelValidation, args: seq<string>, syntax: Syntax)
    requires !syntax.duration(Interval(mv))
    ensures Peel(DEFAULTS, SidecarArgs(mv, args), syntax) == Err
    ensures Continuous(mv) ==> Peel(DEFAULTS, InitArgs(mv, true, args), syntax) == Err
  {
    PeelInterval(DEFAULTS, Interval(mv), args, syntax);
    PeelInterval(DEFAULTS, Interval(mv), ["--skip-initial"] + args, syntax);
    SidecarInParts(mv, args);
  }
}
