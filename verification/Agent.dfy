/** cmd/validation-agent/main.go: the flags the agent takes off the front of its arguments, by the
    contract of Go's flag package. */
module Agent {
  import opened Types
  import opened Strings

  datatype Settings = Settings(interval: string, healthPort: string, skipInitial: bool)

  const DEFAULTS := Settings("0", "8080", false)

  /** Whether time.ParseDuration and the integer parser of the flag package accept a value. */
  datatype Syntax = Syntax(duration: string -> bool, integer: string -> bool)

  /** The settings, and flag.Args(). */
  datatype Peeled = Peeled(settings: Settings, rest: seq<string>)

  /** What one flag sets, if its name is known and its value is in order. */
  function Setting(s: Settings, name: string, value: string, syntax: Syntax): Option<Settings> {
    if name == "interval" then if syntax.duration(value) then Some(s.(interval := value)) else None
    else if name == "health-port" then if syntax.integer(value) then Some(s.(healthPort := value)) else None
    else if name == "skip-initial" then
      match ParseBool(value) case Some(b) => Some(s.(skipInitial := b)) case None => None
    else None
  }

  /** The name of a flag, without its dashes, and what follows an equals sign. */
  function FlagText(arg: string): string
    requires |arg| >= 2
  {
    if arg[1] == '-' then arg[2..] else arg[1..]
  }

  /** flag.Parse: stops at the first argument that is not a flag, or after `--`. */
  function Peel(s: Settings, argv: seq<string>, syntax: Syntax): Result<Peeled>
    decreases |argv|
  {
    if argv == [] || |argv[0]| < 2 || argv[0][0] != '-' then Ok(Peeled(s, argv))
    else if argv[0] == "--" then Ok(Peeled(s, argv[1..]))
    else
      var text := FlagText(argv[0]);
      var n := IndexOf(text, '=');
      if text == "" || text[0] == '-' || n == 0 then Err
      else if n < |text| then
        (match Setting(s, text[..n], text[n + 1..], syntax) case Some(t) => Peel(t, argv[1..], syntax) case None => Err)
      else if text == "skip-initial" then Peel(s.(skipInitial := true), argv[1..], syntax)
      else if |argv| == 1 then Err
      else
        match Setting(s, text, argv[1], syntax) case Some(t) => Peel(t, argv[2..], syntax) case None => Err
  }

  lemma PeelStopsAtVerify(s: Settings, args: seq<string>, syntax: Syntax)
    requires args != [] && args[0] == "verify"
    ensures Peel(s, args, syntax) == Ok(Peeled(s, args))
  {
  }

  lemma PeelInterval(s: Settings, interval: string, rest: seq<string>, syntax: Syntax)
    ensures Peel(s, ["--interval=" + interval] + rest, syntax)
         == if syntax.duration(interval) then Peel(s.(interval := interval), rest, syntax) else Err
  {
    var argv := ["--interval=" + interval] + rest;
    var text := FlagText(argv[0]);
    assert text == "interval" + ['='] + interval;
    IndexOfFirst("interval", '=', interval);
    assert text[..8] == "interval" && text[9..] == interval;
    assert argv[1..] == rest;
  }

  /** The settings that have a value: which syntax it must have, and what it sets. */
  predicate Accepts(name: string, value: string, syntax: Syntax) {
    (name == "interval" && syntax.duration(value)) || (name == "health-port" && syntax.integer(value))
  }

  function With(s: Settings, name: string, value: string): Settings {
    if name == "interval" then s.(interval := value) else s.(healthPort := value)
  }

  lemma SplitAtEquals(name: string, value: string)
    requires '=' !in name
    ensures var text := name + "=" + value;
            IndexOf(text, '=') == |name| && |name| < |text| && text[..|name|] == name && text[|name| + 1..] == value
  {
    IndexOfFirst(name, '=', value);
    assert name + "=" + value == name + ['='] + value;
  }

  lemma NoEquals(name: string)
    requires '=' !in name
    ensures IndexOf(name, '=') == |name|
  {
  }

  /** A setting may have one dash or two, and its value behind an equals sign or in the next argument. */
  lemma PeelForms(s: Settings, name: string, value: string, rest: seq<string>, syntax: Syntax)
    requires name in {"interval", "health-port"}
    ensures var expected := if Accepts(name, value, syntax) then Peel(With(s, name, value), rest, syntax) else Err;
            && Peel(s, ["-" + (name + "=" + value)] + rest, syntax) == expected
            && Peel(s, ["--" + (name + "=" + value)] + rest, syntax) == expected
            && Peel(s, ["-" + name, value] + rest, syntax) == expected
            && Peel(s, ["--" + name, value] + rest, syntax) == expected
  {
    SplitAtEquals(name, value);
    NoEquals(name);
    assert (name + "=" + value)[0] == name[0];
    DashText(name);
    DashText(name + "=" + value);
    PeelJoined(s, "-" + (name + "=" + value), name, value, rest, syntax);
    PeelJoined(s, "--" + (name + "=" + value), name, value, rest, syntax);
    PeelApart(s, "-" + name, name, value, rest, syntax);
    PeelApart(s, "--" + name, name, value, rest, syntax);
  }

  lemma DashText(text: string)
    requires text != "" && text[0] != '-'
    ensures |"-" + text| >= 2 && FlagText("-" + text) == text && FlagText("--" + text) == text
  {
  }

  lemma PeelJoined(s: Settings, arg: string, name: string, value: string, rest: seq<string>, syntax: Syntax)
    requires name in {"interval", "health-port"}
    requires |arg| > 2 && arg[0] == '-' && FlagText(arg) == name + "=" + value && IndexOf(name + "=" + value, '=') == |name|
    ensures Peel(s, [arg] + rest, syntax) == if Accepts(name, value, syntax) then Peel(With(s, name, value), rest, syntax) else Err
  {
    assert ([arg] + rest)[1..] == rest;
    SplitAtEquals(name, value);
    assert (name + "=" + value)[0] == name[0];
  }

  lemma PeelApart(s: Settings, arg: string, name: string, value: string, rest: seq<string>, syntax: Syntax)
    requires name in {"interval", "health-port"}
    requires |arg| > 2 && arg[0] == '-' && FlagText(arg) == name && IndexOf(name, '=') == |name|
    ensures Peel(s, [arg, value] + rest, syntax) == if Accepts(name, value, syntax) then Peel(With(s, name, value), rest, syntax) else Err
  {
    assert ([arg, value] + rest)[2..] == rest;
  }

  /** Any other flag stops the agent. */
  lemma UnknownStops(s: Settings, name: string, rest: seq<string>, syntax: Syntax)
    requires name != "" && name[0] != '-' && '=' !in name && name !in {"interval", "health-port", "skip-initial"}
    ensures Peel(s, ["--" + name] + rest, syntax) == Err
  {
    NoEquals(name);
    assert FlagText("--" + name) == name;
  }

  lemma PeelSkipInitial(s: Settings, rest: seq<string>, syntax: Syntax)
    ensures Peel(s, ["--skip-initial"] + rest, syntax) == Peel(s.(skipInitial := true), rest, syntax)
  {
    var argv := ["--skip-initial"] + rest;
    var text := FlagText(argv[0]);
    assert text == "skip-initial";
    assert '=' !in text;
    assert argv[1..] == rest;
  }
}
