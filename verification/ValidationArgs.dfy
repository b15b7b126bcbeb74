/** internal/webhooks/pod_webhook.go: validationConfigToArgs, which prints what ParseArgs reads. */
module ValidationArgs {
  import opened Types
  import opened ModelValidationTypes
  import opened Parse

  /** The method on the command line. The public key comes before the certificate here. */
  function VerifierOf(config: ValidationConfig): Option<string> {
    if config.sigstore.Some? then Some("sigstore")
    else if config.publicKey.Some? then Some("key")
    else if config.pki.Some? then Some("certificate")
    else None
  }

  function MethodItems(config: ValidationConfig): seq<Item> {
    if config.sigstore.Some? then
      [Valued(Identity, config.sigstore.value.certificateIdentity),
       Valued(IdentityProvider, config.sigstore.value.certificateOidcIssuer)]
    else if config.publicKey.Some? then [Valued(PublicKey, config.publicKey.value)]
    else if config.pki.Some? then [Valued(CertificateChain, config.pki.value)]
    else []
  }

  function IgnoreItems(paths: seq<string>): seq<Item> {
    seq(|paths|, i requires 0 <= i < |paths| => Valued(IgnorePaths, paths[i]))
  }

  function SwitchItems(model: Model): seq<Item> {
    (match model.ignoreGitPaths
     case None => []
     case Some(b) => [Switched(if b then IgnoreGitPaths else NoIgnoreGitPaths)])
    + (match model.ignoreUnsignedFiles
       case None => []
       case Some(b) => [Switched(if b then IgnoreUnsignedFiles else NoIgnoreUnsignedFiles)])
    + if model.allowSymlinks == Some(true) then [Switched(AllowSymlinks)] else []
  }

  function HeadItems(config: ValidationConfig, model: Model): seq<Item> {
    [Signature(model.signaturePath)] + MethodItems(config)
    + match config.clientTrust case Some(path) => [Valued(TrustConfig, path)] case None => []
  }

  /** The line printed for a configuration, item by item. */
  function Items(config: ValidationConfig, model: Model): seq<Item> {
    HeadItems(config, model) + IgnoreItems(model.ignorePaths) + SwitchItems(model)
  }

  function Printed(config: ValidationConfig, model: Model): seq<string> {
    match VerifierOf(config) case Some(verifier) => [verifier] + Rendered(Items(config, model)) case None => []
  }

  lemma {:induction false} RenderedConcat(a: seq<Item>, b: seq<Item>)
    ensures Rendered(a + b) == Rendered(a) + Rendered(b)
    decreases |a|
  {
    if a == [] {
      assert a + b == b;
    } else {
      RenderedConcat(a[1..], b);
      assert (a + b)[1..] == a[1..] + b;
    }
  }

  lemma RenderedFew(a: Item, b: Item, c: Item)
    ensures Rendered([a]) == Tokens(a)
    ensures Rendered([a, b]) == Tokens(a) + Tokens(b)
    ensures Rendered([a, b, c]) == Tokens(a) + Tokens(b) + Tokens(c)
  {
    RenderedConcat([a], [b]);
    RenderedConcat([a, b], [c]);
    assert [a] + [b] == [a, b] && [a, b] + [c] == [a, b, c];
    assert Rendered([a]) == Tokens(a) && Rendered([b]) == Tokens(b) && Rendered([c]) == Tokens(c);
  }

  method PrintMethod(config: ValidationConfig, model: Model) returns (res: seq<string>)
    requires VerifierOf(config).Some?
    ensures res == [VerifierOf(config).value] + Rendered([Signature(model.signaturePath)] + MethodItems(config))
  {
    ghost var items := [Signature(model.signaturePath)] + MethodItems(config);
    if config.sigstore.Some? {
      res := ["sigstore", "--signature=" + model.signaturePath,
              "--identity", config.sigstore.value.certificateIdentity,
              "--identity_provider", config.sigstore.value.certificateOidcIssuer];
      RenderedFew(items[0], items[1], items[2]);
      assert items == [items[0], items[1], items[2]];
    } else if config.publicKey.Some? {
      res := ["key", "--signature=" + model.signaturePath, "--public_key", config.publicKey.value];
      RenderedFew(items[0], items[1], items[1]);
      assert items == [items[0], items[1]];
    } else {
      res := ["certificate", "--signature=" + model.signaturePath, "--certificate_chain", config.pki.value];
      RenderedFew(items[0], items[1], items[1]);
      assert items == [items[0], items[1]];
    }
  }

  method PrintHead(config: ValidationConfig, model: Model) returns (res: seq<string>)
    requires VerifierOf(config).Some?
    ensures res == [VerifierOf(config).value] + Rendered(HeadItems(config, model))
  {
    res := PrintMethod(config, model);
    ghost var items := [Signature(model.signaturePath)] + MethodItems(config);
    if config.clientTrust.Some? {
      res := res + ["--trust_config", config.clientTrust.value];
      ghost var trust := Valued(TrustConfig, config.clientTrust.value);
      RenderedConcat(items, [trust]);
      RenderedFew(trust, trust, trust);
    } else {
      assert HeadItems(config, model) == items;
    }
  }

  method PrintIgnorePaths(start: seq<string>, paths: seq<string>) returns (res: seq<string>)
    ensures res == start + Rendered(IgnoreItems(paths))
  {
    res := start;
    for i := 0 to |paths|
      invariant res == start + Rendered(IgnoreItems(paths[..i]))
    {
      var one := Valued(IgnorePaths, paths[i]);
      assert IgnoreItems(paths[..i + 1]) == IgnoreItems(paths[..i]) + [one];
      RenderedConcat(IgnoreItems(paths[..i]), [one]);
      assert Rendered([one]) == ["--ignore-paths", paths[i]];
      res := res + ["--ignore-paths", paths[i]];
    }
    assert paths[..|paths|] == paths;
  }

  method PrintSwitches(start: seq<string>, model: Model) returns (res: seq<string>)
    ensures res == start + Rendered(SwitchItems(model))
  {
    res := start;
    if model.ignoreGitPaths.Some? {
      res := res + [if model.ignoreGitPaths.value then "--ignore-git-paths" else "--no-ignore-git-paths"];
    }
    if model.ignoreUnsignedFiles.Some? {
      res := res + [if model.ignoreUnsignedFiles.value then "--ignore_unsigned_files" else "--no-ignore_unsigned_files"];
    }
    if model.allowSymlinks.Some? && model.allowSymlinks.value {
      res := res + ["--allow_symlinks"];
    }
    SwitchTokens(SwitchItems(model));
  }

  lemma {:induction false} SwitchTokens(items: seq<Item>)
    requires forall i | 0 <= i < |items| :: items[i].Switched?
    ensures |Rendered(items)| == |items| && forall i | 0 <= i < |items| :: Rendered(items)[i] == SwitchName(items[i].switch)
  {
    if items != [] {
      SwitchTokens(items[1..]);
    }
  }

  lemma PrintedInParts(config: ValidationConfig, model: Model)
    requires VerifierOf(config).Some?
    ensures Printed(config, model)
         == [VerifierOf(config).value] + Rendered(HeadItems(config, model)) + Rendered(IgnoreItems(model.ignorePaths))
            + Rendered(SwitchItems(model))
  {
    RenderedConcat(HeadItems(config, model) + IgnoreItems(model.ignorePaths), SwitchItems(model));
    RenderedConcat(HeadItems(config, model), IgnoreItems(model.ignorePaths));
  }

  // The printed line, token by token.

  /** The method and what belongs to it; nothing without a method. */
  predicate IsHead(config: ValidationConfig, model: Model, head: seq<string>) {
    match (config.sigstore, config.publicKey, config.pki)
    case (Some(s), _, _) =>
      head == ["sigstore", "--signature=" + model.signaturePath, "--identity", s.certificateIdentity,
               "--identity_provider", s.certificateOidcIssuer]
    case (None, Some(key), _) => head == ["key", "--signature=" + model.signaturePath, "--public_key", key]
    case (None, None, Some(chain)) => head == ["certificate", "--signature=" + model.signaturePath, "--certificate_chain", chain]
    case (None, None, None) => head == []
  }

  function Optional(path: Option<string>): seq<string> {
    match path case Some(p) => ["--trust_config", p] case None => []
  }

  predicate IsIgnoreArgs(paths: seq<string>, args: seq<string>) {
    |args| == 2 * |paths| && forall i | 0 <= i < |paths| :: args[2 * i] == "--ignore-paths" && args[2 * i + 1] == paths[i]
  }

  /** An unset switch prints nothing, and neither does one that is off without a name for it. */
  function SwitchArg(switch: Option<bool>, on: string, off: Option<string>): seq<string> {
    match switch
    case Some(true) => [on]
    case Some(false) => if off.Some? then [off.value] else []
    case None => []
  }

  lemma HeadTokens(config: ValidationConfig, model: Model) returns (head: seq<string>)
    requires VerifierOf(config).Some?
    ensures IsHead(config, model, head)
    ensures [VerifierOf(config).value] + Rendered(HeadItems(config, model)) == head + Optional(config.clientTrust)
  {
    var items := [Signature(model.signaturePath)] + MethodItems(config);
    head := [VerifierOf(config).value] + Rendered(items);
    if config.sigstore.Some? {
      RenderedFew(items[0], items[1], items[2]);
      assert items == [items[0], items[1], items[2]];
    } else {
      RenderedFew(items[0], items[1], items[1]);
      assert items == [items[0], items[1]];
    }
    if config.clientTrust.Some? {
      var trust := Valued(TrustConfig, config.clientTrust.value);
      RenderedConcat(items, [trust]);
      RenderedFew(trust, trust, trust);
    } else {
      assert HeadItems(config, model) == items;
    }
  }

  lemma {:induction false} IgnoreTokens(paths: seq<string>)
    ensures IsIgnoreArgs(paths, Rendered(IgnoreItems(paths)))
  {
    if paths != [] {
      var n := |paths| - 1;
      var one := Valued(IgnorePaths, paths[n]);
      IgnoreTokens(paths[..n]);
      assert IgnoreItems(paths) == IgnoreItems(paths[..n]) + [one];
      RenderedConcat(IgnoreItems(paths[..n]), [one]);
      assert Rendered([one]) == ["--ignore-paths", paths[n]];
    }
  }

  lemma SwitchLine(model: Model)
    ensures Rendered(SwitchItems(model))
         == SwitchArg(model.ignoreGitPaths, "--ignore-git-paths", Some("--no-ignore-git-paths"))
            + SwitchArg(model.ignoreUnsignedFiles, "--ignore_unsigned_files", Some("--no-ignore_unsigned_files"))
            + SwitchArg(model.allowSymlinks, "--allow_symlinks", None)
  {
    SwitchTokens(SwitchItems(model));
  }

  /** The whole line, in the order in which it is printed; an empty one without a method. */
  lemma PrintedLine(config: ValidationConfig, model: Model) returns (head: seq<string>, ignored: seq<string>)
    ensures IsHead(config, model, head)
    ensures head == [] ==> Printed(config, model) == []
    ensures head != [] ==>
              && IsIgnoreArgs(model.ignorePaths, ignored)
              && Printed(config, model)
              == head + Optional(config.clientTrust) + ignored
                 + (SwitchArg(model.ignoreGitPaths, "--ignore-git-paths", Some("--no-ignore-git-paths"))
                    + SwitchArg(model.ignoreUnsignedFiles, "--ignore_unsigned_files", Some("--no-ignore_unsigned_files"))
                    + SwitchArg(model.allowSymlinks, "--allow_symlinks", None))
  {
    head, ignored := [], [];
    if VerifierOf(config).Some? {
      head := HeadTokens(config, model);
      ignored := Rendered(IgnoreItems(model.ignorePaths));
      IgnoreTokens(model.ignorePaths);
      SwitchLine(model);
      PrintedInParts(config, model);
    }
  }

  method ValidationConfigToArgs(config: ValidationConfig, model: Model) returns (res: seq<string>)
    ensures res == Printed(config, model)
  {
    if VerifierOf(config).None? {
      return [];
    }
    PrintedInParts(config, model);
    res := PrintHead(config, model);
    res := PrintIgnorePaths(res, model.ignorePaths);
    res := PrintSwitches(res, model);
  }

  /** The arguments Handle builds for the one-shot run. */
  function VerifyArgs(config: ValidationConfig, model: Model): seq<string> {
    ["verify"] + Printed(config, model) + [model.path]
  }

  function Interval(mv: ModelValidation): string {
    if mv.continuous.Some? && mv.continuous.value.interval != "" then mv.continuous.value.interval else "5m"
  }

  /** The arguments of the init container: buildValidationContainer prepends the interval of a native sidecar. */
  function InitArgs(mv: ModelValidation, native: bool, args: seq<string>): seq<string> {
    if Continuous(mv) && native then ["--interval=" + Interval(mv)] + args else args
  }

  /** The arguments of the sidecar that buildLegacySidecarContainer adds. */
  function SidecarArgs(mv: ModelValidation, args: seq<string>): seq<string> {
    ["--interval=" + Interval(mv), "--skip-initial"] + args
  }
}
