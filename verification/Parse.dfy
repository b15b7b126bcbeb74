/** internal/validation/parse.go: ParseArgs, against the grammar of its arguments. */
module Parse {
  import opened Types

  /** validation.Config. */
  datatype AgentConfig = AgentConfig(
    verifier: string,
    modelPath: string,
    signaturePath: string,
    identity: string,
    identityProvider: string,
    publicKeyPath: string,
    certificateChainPath: string,
    trustConfigPath: string,
    ignorePaths: seq<string>,
    ignoreGitPaths: Option<bool>,
    ignoreUnsignedFiles: Option<bool>,
    allowSymlinks: Option<bool>)

  function Zero(verifier: string): AgentConfig {
    AgentConfig(verifier, "", "", "", "", "", "", "", [], None, None, None)
  }

  // The grammar: a line is `verify`, a method, items and a model path.

  datatype Flag = Identity | IdentityProvider | PublicKey | CertificateChain | TrustConfig | IgnorePaths

  datatype Switch = IgnoreGitPaths | NoIgnoreGitPaths | IgnoreUnsignedFiles | NoIgnoreUnsignedFiles | AllowSymlinks

  datatype Item = Signature(path: string) | Valued(flag: Flag, value: string) | Switched(switch: Switch)

  datatype Line = Line(items: seq<Item>, path: string)

  const SIGNATURE := "--signature="

  function FlagName(flag: Flag): string {
    match flag
    case Identity => "--identity"
    case IdentityProvider => "--identity_provider"
    case PublicKey => "--public_key"
    case CertificateChain => "--certificate_chain"
    case TrustConfig => "--trust_config"
    case IgnorePaths => "--ignore-paths"
  }

  function SwitchName(switch: Switch): string {
    match switch
    case IgnoreGitPaths => "--ignore-git-paths"
    case NoIgnoreGitPaths => "--no-ignore-git-paths"
    case IgnoreUnsignedFiles => "--ignore_unsigned_files"
    case NoIgnoreUnsignedFiles => "--no-ignore_unsigned_files"
    case AllowSymlinks => "--allow_symlinks"
  }

  predicate IsMethod(arg: string) {
    arg == "sigstore" || arg == "key" || arg == "certificate"
  }

  function Tokens(item: Item): (r: seq<string>)
    ensures |r| > 0
  {
    match item
    case Signature(path) => [SIGNATURE + path]
    case Valued(flag, value) => [FlagName(flag), value]
    case Switched(switch) => [SwitchName(switch)]
  }

  function Rendered(items: seq<Item>): seq<string> {
    if items == [] then [] else Tokens(items[0]) + Rendered(items[1..])
  }

  /** An argument that ParseArgs takes for a flag, and so not for the model path. */
  ghost predicate IsFlag(arg: string) {
    || SIGNATURE <= arg
    || (exists flag :: arg == FlagName(flag))
    || (exists switch :: arg == SwitchName(switch))
  }

  ghost predicate IsModelPath(arg: string) {
    arg != "" && !IsFlag(arg)
  }

  // What the items mean: the last scalar wins, ignore paths accumulate.

  function SetBy(cfg: AgentConfig, item: Item): AgentConfig {
    match item
    case Signature(path) => cfg.(signaturePath := path)
    case Valued(Identity, v) => cfg.(identity := v)
    case Valued(IdentityProvider, v) => cfg.(identityProvider := v)
    case Valued(PublicKey, v) => cfg.(publicKeyPath := v)
    case Valued(CertificateChain, v) => cfg.(certificateChainPath := v)
    case Valued(TrustConfig, v) => cfg.(trustConfigPath := v)
    case Valued(IgnorePaths, v) => cfg.(ignorePaths := cfg.ignorePaths + [v])
    case Switched(IgnoreGitPaths) => cfg.(ignoreGitPaths := Some(true))
    case Switched(NoIgnoreGitPaths) => cfg.(ignoreGitPaths := Some(false))
    case Switched(IgnoreUnsignedFiles) => cfg.(ignoreUnsignedFiles := Some(true))
    case Switched(NoIgnoreUnsignedFiles) => cfg.(ignoreUnsignedFiles := Some(false))
    case Switched(AllowSymlinks) => cfg.(allowSymlinks := Some(true))
  }

  function Folded(cfg: AgentConfig, items: seq<Item>): AgentConfig
    decreases |items|
  {
    if items == [] then cfg else Folded(SetBy(cfg, items[0]), items[1..])
  }

  function Meaning(verifier: string, line: Line): AgentConfig {
    Folded(Zero(verifier), line.items).(modelPath := line.path)
  }

  lemma {:induction false} FoldedConcat(cfg: AgentConfig, a: seq<Item>, b: seq<Item>)
    ensures Folded(cfg, a + b) == Folded(Folded(cfg, a), b)
    decreases |a|
  {
    if a == [] {
      assert a + b == b;
    } else {
      FoldedConcat(SetBy(cfg, a[0]), a[1..], b);
      assert (a + b)[1..] == a[1..] + b;
    }
  }

  lemma FoldedLast(cfg: AgentConfig, items: seq<Item>)
    requires items != []
    ensures var n := |items| - 1; Folded(cfg, items) == SetBy(Folded(cfg, items[..n]), items[n])
  {
    var n := |items| - 1;
    FoldedConcat(cfg, items[..n], [items[n]]);
    assert items == items[..n] + [items[n]];
  }

  /** The value of the last item with the flag. */
  function LastValue(items: seq<Item>, flag: Flag): string {
    if items == [] then ""
    else
      var last := items[|items| - 1];
      if last.Valued? && last.flag == flag then last.value else LastValue(items[..|items| - 1], flag)
  }

  function LastSignature(items: seq<Item>): string {
    if items == [] then ""
    else if items[|items| - 1].Signature? then items[|items| - 1].path
    else LastSignature(items[..|items| - 1])
  }

  /** The last item that is one of two opposite switches. */
  function LastSwitch(items: seq<Item>, on: Switch, off: Option<Switch>): Option<bool> {
    if items == [] then None
    else
      var last := items[|items| - 1];
      if last == Switched(on) then Some(true)
      else if last.Switched? && Some(last.switch) == off then Some(false)
      else LastSwitch(items[..|items| - 1], on, off)
  }

  function Values(items: seq<Item>, flag: Flag): seq<string> {
    if items == [] then []
    else
      var last := items[|items| - 1];
      Values(items[..|items| - 1], flag) + if last.Valued? && last.flag == flag then [last.value] else []
  }

  /** In any line the last value of a flag wins and the ignore paths accumulate in order. */
  lemma {:induction false} LastScalarWins(verifier: string, items: seq<Item>)
    ensures var c := Folded(Zero(verifier), items);
            && c.identity == LastValue(items, Identity) && c.identityProvider == LastValue(items, IdentityProvider)
            && c.publicKeyPath == LastValue(items, PublicKey) && c.trustConfigPath == LastValue(items, TrustConfig)
            && c.certificateChainPath == LastValue(items, CertificateChain)
            && c.signaturePath == LastSignature(items)
            && c.ignorePaths == Values(items, IgnorePaths)
  {
    if items != [] {
      LastScalarWins(verifier, items[..|items| - 1]);
      FoldedLast(Zero(verifier), items);
    }
  }

  lemma SwitchSets(c: AgentConfig, item: Item)
    ensures var d := SetBy(c, item);
            && d.ignoreGitPaths == (if item == Switched(IgnoreGitPaths) then Some(true)
                                    else if item == Switched(NoIgnoreGitPaths) then Some(false) else c.ignoreGitPaths)
            && d.ignoreUnsignedFiles == (if item == Switched(IgnoreUnsignedFiles) then Some(true)
                                         else if item == Switched(NoIgnoreUnsignedFiles) then Some(false) else c.ignoreUnsignedFiles)
            && d.allowSymlinks == (if item == Switched(AllowSymlinks) then Some(true) else c.allowSymlinks)
            && d.verifier == c.verifier
  {
  }

  /** Of two opposite switches the last one wins; without either the option stays unset. */
  lemma {:induction false} LastSwitchWins(verifier: string, items: seq<Item>)
    ensures var c := Folded(Zero(verifier), items);
            && c.ignoreGitPaths == LastSwitch(items, IgnoreGitPaths, Some(NoIgnoreGitPaths))
            && c.ignoreUnsignedFiles == LastSwitch(items, IgnoreUnsignedFiles, Some(NoIgnoreUnsignedFiles))
            && c.allowSymlinks == LastSwitch(items, AllowSymlinks, None)
            && c.verifier == verifier
  {
    if items != [] {
      var before, last := items[..|items| - 1], items[|items| - 1];
      LastSwitchWins(verifier, before);
      FoldedLast(Zero(verifier), items);
      SwitchSets(Folded(Zero(verifier), before), last);
    }
  }

  // Reading a line.

  function FlagOf(arg: string): Option<Flag> {
    if arg == "--identity" then Some(Identity)
    else if arg == "--identity_provider" then Some(IdentityProvider)
    else if arg == "--public_key" then Some(PublicKey)
    else if arg == "--certificate_chain" then Some(CertificateChain)
    else if arg == "--trust_config" then Some(TrustConfig)
    else if arg == "--ignore-paths" then Some(IgnorePaths)
    else None
  }

  function SwitchOf(arg: string): Option<Switch> {
    if arg == "--ignore-git-paths" then Some(IgnoreGitPaths)
    else if arg == "--no-ignore-git-paths" then Some(NoIgnoreGitPaths)
    else if arg == "--ignore_unsigned_files" then Some(IgnoreUnsignedFiles)
    else if arg == "--no-ignore_unsigned_files" then Some(NoIgnoreUnsignedFiles)
    else if arg == "--allow_symlinks" then Some(AllowSymlinks)
    else None
  }

  datatype Head = Next(item: Item) | Dangling | Positional

  /** What the first of the remaining arguments starts. */
  function HeadOf(args: seq<string>): (h: Head)
    requires args != []
    ensures h.Next? ==> |Tokens(h.item)| <= |args|
  {
    if SIGNATURE <= args[0] then Next(Signature(args[0][|SIGNATURE|..]))
    else if FlagOf(args[0]).Some? then
      if |args| > 1 then Next(Valued(FlagOf(args[0]).value, args[1])) else Dangling
    else if SwitchOf(args[0]).Some? then Next(Switched(SwitchOf(args[0]).value))
    else Positional
  }

  function Read(args: seq<string>): Option<Line>
    decreases |args|
  {
    if args == [] then None
    else
      match HeadOf(args)
      case Next(item) =>
        (match Read(args[|Tokens(item)|..])
         case Some(line) => Some(Line([item] + line.items, line.path))
         case None => None)
      case Dangling => None
      case Positional => if |args| == 1 && args[0] != "" then Some(Line([], args[0])) else None
  }

  function Parsed(args: seq<string>): Result<AgentConfig> {
    if |args| < 3 || args[0] != "verify" || !IsMethod(args[1]) then Err
    else match Read(args[2..]) case Some(line) => Ok(Meaning(args[1], line)) case None => Err
  }

  // Reading is exact.

  lemma FlagOfName(flag: Flag)
    ensures FlagOf(FlagName(flag)) == Some(flag)
  {
  }

  lemma SwitchOfName(switch: Switch)
    ensures SwitchOf(SwitchName(switch)) == Some(switch)
  {
  }

  lemma FlagNames(arg: string)
    ensures FlagOf(arg).Some? <==> exists flag :: arg == FlagName(flag)
    ensures FlagOf(arg).Some? ==> arg == FlagName(FlagOf(arg).value)
    ensures FlagOf(arg).Some? ==> !(SIGNATURE <= arg) && SwitchOf(arg).None?
  {
    forall flag | arg == FlagName(flag) ensures FlagOf(arg).Some? {
      FlagOfName(flag);
    }
    assert SIGNATURE[2] == 's';
    assert FlagOf(arg).Some? ==> arg == FlagName(FlagOf(arg).value);
  }

  lemma SwitchNames(arg: string)
    ensures SwitchOf(arg).Some? <==> exists switch :: arg == SwitchName(switch)
    ensures SwitchOf(arg).Some? ==> arg == SwitchName(SwitchOf(arg).value)
    ensures SwitchOf(arg).Some? ==> !(SIGNATURE <= arg)
  {
    forall switch | arg == SwitchName(switch) ensures SwitchOf(arg).Some? {
      SwitchOfName(switch);
    }
    assert SIGNATURE[2] == 's';
    assert SwitchOf(arg).Some? ==> arg == SwitchName(SwitchOf(arg).value);
  }

  lemma HeadOfTokens(item: Item, rest: seq<string>)
    ensures HeadOf(Tokens(item) + rest) == Next(item)
  {
    var args := Tokens(item) + rest;
    match item {
      case Signature(path) =>
        assert args[0] == SIGNATURE + path;
        assert args[0][|SIGNATURE|..] == path;
      case Valued(flag, _) =>
        FlagOfName(flag);
        FlagNames(args[0]);
      case Switched(switch) =>
        SwitchOfName(switch);
        SwitchNames(args[0]);
        FlagNames(args[0]);
    }
  }

  lemma HeadMeaning(args: seq<string>)
    requires args != []
    ensures HeadOf(args).Next? ==> var t := Tokens(HeadOf(args).item); args == t + args[|t|..]
    ensures HeadOf(args).Positional? <==> !IsFlag(args[0])
    ensures HeadOf(args).Dangling? ==> |args| == 1
  {
    FlagNames(args[0]);
    SwitchNames(args[0]);
    assert args == [args[0]] + args[1..];
    if |args| > 1 { assert args == [args[0], args[1]] + args[2..]; }
    if SIGNATURE <= args[0] { assert args[0] == SIGNATURE + args[0][|SIGNATURE|..]; }
  }

  lemma {:induction false} ReadInvertsRendered(items: seq<Item>, path: string)
    requires IsModelPath(path)
    ensures Read(Rendered(items) + [path]) == Some(Line(items, path))
  {
    if items == [] {
      HeadMeaning([path]);
      assert Rendered(items) + [path] == [path];
    } else {
      var rest := Rendered(items[1..]) + [path];
      ReadInvertsRendered(items[1..], path);
      HeadOfTokens(items[0], rest);
      assert Rendered(items) + [path] == Tokens(items[0]) + rest;
      assert [items[0]] + items[1..] == items;
      assert (Tokens(items[0]) + rest)[|Tokens(items[0])|..] == rest;
    }
  }

  lemma {:induction false} ReadIsRendered(args: seq<string>)
    requires Read(args).Some?
    ensures var line := Read(args).value; args == Rendered(line.items) + [line.path] && IsModelPath(line.path)
    decreases |args|
  {
    HeadMeaning(args);
    if HeadOf(args).Next? {
      var n := |Tokens(HeadOf(args).item)|;
      ReadIsRendered(args[n..]);
      var line := Read(args).value;
      assert line.items[1..] == Read(args[n..]).value.items;
    }
  }

  /** The arguments are `verify`, a known method, the line's items and a path that is not a flag. */
  ghost predicate Spells(args: seq<string>, verifier: string, line: Line) {
    && args == ["verify", verifier] + Rendered(line.items) + [line.path]
    && IsMethod(verifier) && IsModelPath(line.path)
  }

  lemma DropTwo(a: string, b: string, rest: seq<string>, end: seq<string>)
    ensures ([a, b] + rest + end)[2..] == rest + end && ([a, b] + rest + end)[1] == b
  {
  }

  /** A line of the grammar is accepted with the left-to-right fold of its items, and is the only line
      its arguments spell. */
  lemma GrammarIsAccepted(args: seq<string>, verifier: string, line: Line)
    requires Spells(args, verifier, line)
    ensures Parsed(args) == Ok(Meaning(verifier, line))
    ensures forall v, l :: Spells(args, v, l) ==> v == verifier && l == line
  {
    forall v, l | Spells(args, v, l) ensures v == args[1] && Read(args[2..]) == Some(l) {
      ReadInvertsRendered(l.items, l.path);
      DropTwo("verify", v, Rendered(l.items), [l.path]);
    }
  }

  /** Whatever ParseArgs accepts is a line of the grammar; its model path is the last argument. */
  lemma AcceptedIsGrammar(args: seq<string>)
    ensures Parsed(args).Ok? <==> exists v, l :: Spells(args, v, l)
    ensures Parsed(args).Ok? ==> Parsed(args).value.modelPath == args[|args| - 1]
  {
    if Parsed(args).Ok? {
      var line := Read(args[2..]).value;
      ReadIsRendered(args[2..]);
      assert args == [args[0], args[1]] + args[2..];
      assert Spells(args, args[1], line);
    }
    forall v, l | Spells(args, v, l) ensures Parsed(args).Ok? {
      GrammarIsAccepted(args, v, l);
    }
  }

  /** It begins with the verb and one of three methods, which becomes the verifier. */
  lemma AcceptedStarts(args: seq<string>)
    requires Parsed(args).Ok?
    ensures |args| >= 3 && args[0] == "verify" && args[1] in {"sigstore", "key", "certificate"}
    ensures Parsed(args).value.verifier == args[1]
  {
    var line := Read(args[2..]).value;
    LastSwitchWins(args[1], line.items);
  }

  lemma OneItem(verifier: string, item: Item, path: string)
    requires IsMethod(verifier) && IsModelPath(path)
    ensures Parsed(["verify", verifier] + Tokens(item) + [path]) == Ok(SetBy(Zero(verifier), item).(modelPath := path))
  {
    var args, line := ["verify", verifier] + Tokens(item) + [path], Line([item], path);
    assert Rendered([item]) == Tokens(item) + Rendered([]) == Tokens(item);
    GrammarIsAccepted(args, verifier, line);
    FoldedLast(Zero(verifier), [item]);
    assert [item][..0] == [];
  }

  /** What each flag sets, by its spelling on a line of its own. */
  lemma FlagBySpelling(verifier: string, flag: Flag, value: string, path: string)
    requires verifier in {"sigstore", "key", "certificate"} && IsModelPath(path)
    ensures var start, zero := ["verify", verifier], Zero(verifier).(modelPath := path);
            match flag
            case Identity => Parsed(start + ["--identity", value] + [path]) == Ok(zero.(identity := value))
            case IdentityProvider => Parsed(start + ["--identity_provider", value] + [path]) == Ok(zero.(identityProvider := value))
            case PublicKey => Parsed(start + ["--public_key", value] + [path]) == Ok(zero.(publicKeyPath := value))
            case CertificateChain => Parsed(start + ["--certificate_chain", value] + [path]) == Ok(zero.(certificateChainPath := value))
            case TrustConfig => Parsed(start + ["--trust_config", value] + [path]) == Ok(zero.(trustConfigPath := value))
            case IgnorePaths => Parsed(start + ["--ignore-paths", value] + [path]) == Ok(zero.(ignorePaths := [value]))
  {
    OneItem(verifier, Valued(flag, value), path);
    assert Zero(verifier).ignorePaths + [value] == [value];
  }

  lemma SignatureBySpelling(verifier: string, value: string, path: string)
    requires verifier in {"sigstore", "key", "certificate"} && IsModelPath(path)
    ensures Parsed(["verify", verifier] + ["--signature=" + value] + [path]) == Ok(Zero(verifier).(signaturePath := value, modelPath := path))
  {
    OneItem(verifier, Signature(value), path);
  }

  /** And what each switch does. */
  lemma SwitchBySpelling(verifier: string, switch: Switch, path: string)
    requires verifier in {"sigstore", "key", "certificate"} && IsModelPath(path)
    ensures var start, zero := ["verify", verifier], Zero(verifier).(modelPath := path);
            match switch
            case IgnoreGitPaths => Parsed(start + ["--ignore-git-paths"] + [path]) == Ok(zero.(ignoreGitPaths := Some(true)))
            case NoIgnoreGitPaths => Parsed(start + ["--no-ignore-git-paths"] + [path]) == Ok(zero.(ignoreGitPaths := Some(false)))
            case IgnoreUnsignedFiles => Parsed(start + ["--ignore_unsigned_files"] + [path]) == Ok(zero.(ignoreUnsignedFiles := Some(true)))
            case NoIgnoreUnsignedFiles => Parsed(start + ["--no-ignore_unsigned_files"] + [path]) == Ok(zero.(ignoreUnsignedFiles := Some(false)))
            case AllowSymlinks => Parsed(start + ["--allow_symlinks"] + [path]) == Ok(zero.(allowSymlinks := Some(true)))
  {
    OneItem(verifier, Switched(switch), path);
  }

  /** What reading the rest makes of the configuration built so far. */
  function From(cfg: AgentConfig, args: seq<string>): Result<AgentConfig> {
    match Read(args) case Some(line) => Ok(Folded(cfg, line.items).(modelPath := line.path)) case None => Err
  }

  lemma FromNext(cfg: AgentConfig, args: seq<string>, i: nat)
    requires i < |args| && HeadOf(args[i..]).Next?
    ensures var item := HeadOf(args[i..]).item;
            i + |Tokens(item)| <= |args| && From(cfg, args[i..]) == From(SetBy(cfg, item), args[i + |Tokens(item)|..])
  {
    var item := HeadOf(args[i..]).item;
    assert args[i..][|Tokens(item)|..] == args[i + |Tokens(item)|..];
    match Read(args[i + |Tokens(item)|..]) {
      case Some(line) => assert ([item] + line.items)[1..] == line.items;
      case None =>
    }
  }

  lemma FromEnd(cfg: AgentConfig, args: seq<string>, i: nat)
    requires i < |args| && !HeadOf(args[i..]).Next?
    ensures From(cfg, args[i..])
         == if HeadOf(args[i..]).Positional? && i == |args| - 1 && args[i] != "" then Ok(cfg.(modelPath := args[i])) else Err
  {
  }

  /** The loop body of ParseArgs. */
  method ParseArg(cfg: AgentConfig, args: seq<string>, i: nat) returns (out: AgentConfig, next: nat, ok: bool)
    requires i < |args|
    ensures var head := HeadOf(args[i..]);
            && (head.Next? ==> ok && out == SetBy(cfg, head.item) && next == i + |Tokens(head.item)|)
            && (head.Dangling? ==> !ok)
            && (head.Positional? ==> (ok <==> i == |args| - 1))
            && (head.Positional? && ok ==> out == cfg.(modelPath := args[i]) && next == i + 1)
  {
    var arg := args[i];
    out, next, ok := cfg, i, true;
    assert args[i..][0] == arg;
    if SIGNATURE <= arg {
      out := cfg.(signaturePath := arg[|SIGNATURE|..]);
      next := i + 1;
    } else if arg == "--identity" {
      if i + 1 >= |args| {
        return cfg, i, false;
      }
      out := cfg.(identity := args[i + 1]);
      next := i + 2;
    } else if arg == "--identity_provider" {
      if i + 1 >= |args| {
        return cfg, i, false;
      }
      out := cfg.(identityProvider := args[i + 1]);
      next := i + 2;
    } else if arg == "--public_key" {
      if i + 1 >= |args| {
        return cfg, i, false;
      }
      out := cfg.(publicKeyPath := args[i + 1]);
      next := i + 2;
    } else if arg == "--certificate_chain" {
      if i + 1 >= |args| {
        return cfg, i, false;
      }
      out := cfg.(certificateChainPath := args[i + 1]);
      next := i + 2;
    } else if arg == "--trust_config" {
      if i + 1 >= |args| {
        return cfg, i, false;
      }
      out := cfg.(trustConfigPath := args[i + 1]);
      next := i + 2;
    } else if arg == "--ignore-paths" {
      if i + 1 >= |args| {
        return cfg, i, false;
      }
      out := cfg.(ignorePaths := cfg.ignorePaths + [args[i + 1]]);
      next := i + 2;
    } else {
      out, next, ok := ParseSwitch(cfg, args, i);
    }
  }

  /** The cases without a value, and the model path. */
  method ParseSwitch(cfg: AgentConfig, args: seq<string>, i: nat) returns (out: AgentConfig, next: nat, ok: bool)
    requires i < |args| && !(SIGNATURE <= args[i]) && FlagOf(args[i]).None?
    ensures var head := HeadOf(args[i..]);
            && (head.Next? ==> ok && out == SetBy(cfg, head.item) && next == i + |Tokens(head.item)|)
            && (head.Dangling? ==> !ok)
            && (head.Positional? ==> (ok <==> i == |args| - 1))
            && (head.Positional? && ok ==> out == cfg.(modelPath := args[i]) && next == i + 1)
  {
    var arg := args[i];
    out, next, ok := cfg, i, true;
    assert args[i..][0] == arg;
    if arg == "--ignore-git-paths" {
      out := cfg.(ignoreGitPaths := Some(true));
      next := i + 1;
    } else if arg == "--no-ignore-git-paths" {
      out := cfg.(ignoreGitPaths := Some(false));
      next := i + 1;
    } else if arg == "--ignore_unsigned_files" {
      out := cfg.(ignoreUnsignedFiles := Some(true));
      next := i + 1;
    } else if arg == "--no-ignore_unsigned_files" {
      out := cfg.(ignoreUnsignedFiles := Some(false));
      next := i + 1;
    } else if arg == "--allow_symlinks" {
      out := cfg.(allowSymlinks := Some(true));
      next := i + 1;
    } else {
      if i != |args| - 1 {
        return cfg, i, false;
      }
      out := cfg.(modelPath := arg);
      next := i + 1;
    }
  }

  /** One turn of the loop, before any model path. */
  method ParseNext(cfg: AgentConfig, args: seq<string>, i: nat) returns (out: AgentConfig, next: nat, ok: bool)
    requires i < |args| && cfg.modelPath == ""
    ensures !ok ==> From(cfg, args[i..]) == Err
    ensures ok ==> i < next <= |args|
    ensures ok && next < |args| ==> out.modelPath == "" && From(cfg, args[i..]) == From(out, args[next..])
    ensures ok && next == |args| ==> From(cfg, args[i..]) == if out.modelPath == "" then Err else Ok(out)
  {
    out, next, ok := ParseArg(cfg, args, i);
    if HeadOf(args[i..]).Next? {
      FromNext(cfg, args, i);
    } else {
      FromEnd(cfg, args, i);
    }
  }

  method ParseArgs(args: seq<string>) returns (r: Result<AgentConfig>)
    ensures r == Parsed(args)
  {
    if |args| < 3 {
      return Err;
    }
    if args[0] != "verify" {
      return Err;
    }
    if !(args[1] == "sigstore" || args[1] == "key" || args[1] == "certificate") {
      return Err;
    }
    var cfg := Zero(args[1]);
    var i := 2;
    while i < |args|
      invariant 2 <= i <= |args|
      invariant i < |args| ==> cfg.modelPath == "" && Parsed(args) == From(cfg, args[i..])
      invariant i == |args| ==> Parsed(args) == if cfg.modelPath == "" then Err else Ok(cfg)
      decreases |args| - i
    {
      var out, next, ok := ParseNext(cfg, args, i);
      if !ok {
        return Err;
      }
      cfg, i := out, next;
    }
    if cfg.modelPath == "" {
      return Err;
    }
    return Ok(cfg);
  }
}
