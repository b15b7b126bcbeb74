/** internal/webhooks/pod_webhook.go: which volume mounts the validation container gets. */
module VolumeMounts {
  import opened Types
  import opened Strings
  import opened ModelValidationTypes

  predicate EndsWithSlash(path: string) {
    path != "" && path[|path| - 1] == '/'
  }

  function Prefix(mountPath: string): string {
    if EndsWithSlash(mountPath) then mountPath else mountPath + "/"
  }

  predicate Covers(mountPath: string, path: string) {
    Prefix(mountPath) <= path || path == mountPath
  }

  predicate CoversSome(mountPath: string, needed: seq<string>) {
    exists p | p in needed :: Covers(mountPath, p)
  }

  /** The mounts of all containers, in order. */
  function AllMounts(containers: seq<Container>): seq<VolumeMount> {
    if containers == [] then []
    else AllMounts(containers[..|containers| - 1]) + containers[|containers| - 1].mounts
  }

  /** Exactly the mounts of the containers. */
  lemma {:induction false} AllMountsAre(containers: seq<Container>, m: VolumeMount)
    ensures m in AllMounts(containers) <==> exists i | 0 <= i < |containers| :: m in containers[i].mounts
  {
    if containers != [] {
      var before, last := containers[..|containers| - 1], containers[|containers| - 1];
      AllMountsAre(before, m);
      if i :| 0 <= i < |before| && m in before[i].mounts {
        assert m in containers[i].mounts;
      }
      if i :| 0 <= i < |containers| && m in containers[i].mounts {
        assert i < |before| ==> m in before[i].mounts;
      }
    }
  }

  /** In the order of the containers, and within a container in its order. */
  lemma {:induction false} AllMountsConcat(a: seq<Container>, b: seq<Container>)
    ensures AllMounts(a + b) == AllMounts(a) + AllMounts(b)
    ensures |b| == 1 ==> AllMounts(b) == b[0].mounts
  {
    if b == [] {
      assert a + b == a;
    } else {
      AllMountsConcat(a, b[..|b| - 1]);
      assert (a + b)[..|a + b| - 1] == a + b[..|b| - 1];
    }
  }

  /** A mount covers its own path and what lies under it, with a slash in between that the mount path may
      already end with. */
  lemma CoversIff(mountPath: string, path: string)
    ensures Covers(mountPath, path)
       <==> || path == mountPath || mountPath + "/" <= path
            || (mountPath != "" && mountPath[|mountPath| - 1] == '/' && mountPath <= path)
  {
    if mountPath + "/" <= path {
      assert mountPath <= path;
    }
  }

  predicate HasPath(mounts: seq<VolumeMount>, path: string) {
    exists i | 0 <= i < |mounts| :: mounts[i].mountPath == path
  }

  /** In order and read-only, the first mount at each path other than the root that covers a needed path. */
  function Filtered(mounts: seq<VolumeMount>, needed: seq<string>): seq<VolumeMount> {
    if mounts == [] then []
    else
      var rest, m := mounts[..|mounts| - 1], mounts[|mounts| - 1];
      Filtered(rest, needed)
      + if m.mountPath != "/" && CoversSome(m.mountPath, needed) && !HasPath(rest, m.mountPath) then [m.(readOnly := true)] else []
  }

  lemma HasPathOneMore(mounts: seq<VolumeMount>, m: VolumeMount, path: string)
    ensures HasPath(mounts + [m], path) <==> HasPath(mounts, path) || m.mountPath == path
  {
    assert (mounts + [m])[|mounts|] == m;
    if HasPath(mounts, path) {
      var i :| 0 <= i < |mounts| && mounts[i].mountPath == path;
      assert (mounts + [m])[i].mountPath == path;
    }
    if HasPath(mounts + [m], path) && m.mountPath != path {
      var i :| 0 <= i < |mounts + [m]| && (mounts + [m])[i].mountPath == path;
      assert mounts[i].mountPath == path;
    }
  }

  /** A path is kept if and only if some container mounts it, it is not the root, and it covers a
      needed path. */
  lemma {:induction false} FilteredIsExact(mounts: seq<VolumeMount>, needed: seq<string>, path: string)
    ensures HasPath(Filtered(mounts, needed), path) <==> HasPath(mounts, path) && path != "/" && CoversSome(path, needed)
  {
    if mounts != [] {
      var rest, m := mounts[..|mounts| - 1], mounts[|mounts| - 1];
      FilteredIsExact(rest, needed, path);
      assert mounts == rest + [m];
      HasPathOneMore(rest, m, path);
      HasPathOneMore(Filtered(rest, needed), m.(readOnly := true), path);
      assert Filtered(rest, needed) + [] == Filtered(rest, needed);
    }
  }

  /** No path is kept twice, and every kept mount is read-only. */
  lemma {:induction false} FilteredIsDistinct(mounts: seq<VolumeMount>, needed: seq<string>)
    ensures var f := Filtered(mounts, needed);
            forall j | 0 <= j < |f| :: f[j].readOnly && !HasPath(f[..j], f[j].mountPath)
  {
    if mounts != [] {
      var rest, m := mounts[..|mounts| - 1], mounts[|mounts| - 1];
      var f, g := Filtered(mounts, needed), Filtered(rest, needed);
      FilteredIsDistinct(rest, needed);
      FilteredIsExact(rest, needed, m.mountPath);
      forall j | 0 <= j < |f| ensures f[j].readOnly && !HasPath(f[..j], f[j].mountPath) {
        assert f[..j] == g[..j];
        assert j == |g| ==> g[..j] == g;
      }
    }
  }

  /** Up to the read-only flag it is the first of the mounts at its path. */
  predicate IsFirst(mounts: seq<VolumeMount>, m: VolumeMount) {
    exists i | 0 <= i < |mounts| :: mounts[i].(readOnly := true) == m && !HasPath(mounts[..i], m.mountPath)
  }

  /** Each kept mount is, up to the read-only flag, the first mount at its path. */
  lemma {:induction false} KeptIsFirst(mounts: seq<VolumeMount>, needed: seq<string>, m: VolumeMount)
    requires m in Filtered(mounts, needed)
    ensures IsFirst(mounts, m)
  {
    var n := |mounts| - 1;
    if m in Filtered(mounts[..n], needed) {
      KeptIsFirst(mounts[..n], needed, m);
      var i :| 0 <= i < n && mounts[..n][i].(readOnly := true) == m && !HasPath(mounts[..n][..i], m.mountPath);
      assert mounts[..n][..i] == mounts[..i];
    } else {
      assert mounts[n].(readOnly := true) == m;
    }
  }

  /** Mounts are kept in the order in which the containers list them. */
  lemma {:induction false} FilteredKeepsOrder(mounts: seq<VolumeMount>, needed: seq<string>, n: nat)
    requires n <= |mounts|
    ensures Filtered(mounts[..n], needed) <= Filtered(mounts, needed)
  {
    if n == |mounts| {
      assert mounts[..n] == mounts;
    } else {
      FilteredKeepsOrder(mounts[..|mounts| - 1], needed, n);
      assert mounts[..|mounts| - 1][..n] == mounts[..n];
    }
  }

  /** Needing more paths never loses a mount path. */
  lemma FilteringIsMonotone(mounts: seq<VolumeMount>, needed: seq<string>, more: seq<string>, path: string)
    requires forall p | p in needed :: p in more
    requires HasPath(Filtered(mounts, needed), path)
    ensures HasPath(Filtered(mounts, more), path)
  {
    FilteredIsExact(mounts, needed, path);
    FilteredIsExact(mounts, more, path);
  }

  method CoversOne(mountPath: string, neededPaths: seq<string>) returns (covers: bool)
    ensures covers == CoversSome(mountPath, neededPaths)
  {
    var prefix := mountPath;
    if !EndsWithSlash(prefix) {
      prefix := prefix + "/";
    }
    for i := 0 to |neededPaths|
      invariant forall j | 0 <= j < i :: !Covers(mountPath, neededPaths[j])
    {
      if prefix <= neededPaths[i] || neededPaths[i] == mountPath {
        assert neededPaths[i] in neededPaths && Covers(mountPath, neededPaths[i]);
        return true;
      }
    }
    return false;
  }

  /** What `seen` holds after some mounts: the paths kept so far. */
  ghost predicate SeenAre(seen: set<string>, mounts: seq<VolumeMount>, needed: seq<string>) {
    forall path :: path in seen <==> HasPath(mounts, path) && path != "/" && CoversSome(path, needed)
  }

  method FilterMount(m: VolumeMount, needed: seq<string>, ghost before: seq<VolumeMount>, seen: set<string>, out: seq<VolumeMount>)
    returns (nowSeen: set<string>, nowOut: seq<VolumeMount>)
    requires SeenAre(seen, before, needed) && out == Filtered(before, needed)
    ensures SeenAre(nowSeen, before + [m], needed) && nowOut == Filtered(before + [m], needed)
  {
    nowSeen, nowOut := seen, out;
    assert (before + [m])[..|before|] == before;
    forall path ensures HasPath(before + [m], path) <==> HasPath(before, path) || m.mountPath == path {
      HasPathOneMore(before, m, path);
    }
    if m.mountPath in seen || m.mountPath == "/" {
      return;
    }
    var covers := CoversOne(m.mountPath, needed);
    if covers {
      nowOut := out + [m.(readOnly := true)];
      nowSeen := seen + {m.mountPath};
    }
  }

  lemma TakeOneMore(before: seq<VolumeMount>, mounts: seq<VolumeMount>, j: nat)
    requires j < |mounts|
    ensures before + mounts[..j + 1] == before + mounts[..j] + [mounts[j]]
  {
  }

  /** The inner loop of filterVolumeMounts. */
  method FilterContainer(mounts: seq<VolumeMount>, needed: seq<string>, ghost before: seq<VolumeMount>,
                         seen: set<string>, out: seq<VolumeMount>)
    returns (nowSeen: set<string>, nowOut: seq<VolumeMount>)
    requires SeenAre(seen, before, needed) && out == Filtered(before, needed)
    ensures SeenAre(nowSeen, before + mounts, needed) && nowOut == Filtered(before + mounts, needed)
  {
    nowSeen, nowOut := seen, out;
    ghost var done := before;
    for j := 0 to |mounts|
      invariant done == before + mounts[..j]
      invariant SeenAre(nowSeen, done, needed) && nowOut == Filtered(done, needed)
    {
      nowSeen, nowOut := FilterMount(mounts[j], needed, done, nowSeen, nowOut);
      TakeOneMore(before, mounts, j);
      done := done + [mounts[j]];
    }
    assert mounts[..|mounts|] == mounts;
  }

  method FilterVolumeMounts(containers: seq<Container>, neededPaths: seq<string>) returns (out: seq<VolumeMount>)
    ensures out == Filtered(AllMounts(containers), neededPaths)
  {
    var seen: set<string> := {};
    out := [];
    ghost var done: seq<VolumeMount> := [];
    for i := 0 to |containers|
      invariant done == AllMounts(containers[..i])
      invariant SeenAre(seen, done, neededPaths) && out == Filtered(done, neededPaths)
    {
      seen, out := FilterContainer(containers[i].mounts, neededPaths, done, seen, out);
      done := done + containers[i].mounts;
      assert containers[..i + 1][..i] == containers[..i];
    }
    assert containers[..|containers|] == containers;
  }

  function NonEmpty(path: Option<string>): seq<string> {
    if path.Some? && path.value != "" then [path.value] else []
  }

  function NeededPaths(model: Model, config: ValidationConfig): seq<string> {
    [model.path] + NonEmpty(Some(model.signaturePath)) + NonEmpty(config.pki) + NonEmpty(config.publicKey) + NonEmpty(config.clientTrust)
  }

  lemma NeededPathsAre(model: Model, config: ValidationConfig, p: string)
    ensures p in NeededPaths(model, config) <==>
              || p == model.path
              || (p != "" && (p == model.signaturePath || Some(p) == config.pki || Some(p) == config.publicKey || Some(p) == config.clientTrust))
  {
  }

  /** collectNeededPaths: the files that the agent reads, whichever method it uses. */
  method CollectNeededPaths(model: Model, config: ValidationConfig) returns (paths: seq<string>)
    ensures paths == NeededPaths(model, config)
    ensures forall p :: p in paths <==>
              || p == model.path
              || (p != "" && (p == model.signaturePath || Some(p) == config.pki || Some(p) == config.publicKey || Some(p) == config.clientTrust))
  {
    paths := [model.path];
    if model.signaturePath != "" {
      paths := paths + [model.signaturePath];
    }
    if config.pki.Some? && config.pki.value != "" {
      paths := paths + [config.pki.value];
    }
    if config.publicKey.Some? && config.publicKey.value != "" {
      paths := paths + [config.publicKey.value];
    }
    if config.clientTrust.Some? && config.clientTrust.value != "" {
      paths := paths + [config.clientTrust.value];
    }
    assert paths == NeededPaths(model, config);
    forall p ensures p in paths <==>
              || p == model.path
              || (p != "" && (p == model.signaturePath || Some(p) == config.pki || Some(p) == config.publicKey || Some(p) == config.clientTrust))
    {
      NeededPathsAre(model, config, p);
    }
  }

  // Covering on normalized absolute paths.

  predicate IsComponent(s: string) {
    s != "" && '/' !in s
  }

  predicate AreComponents(s: seq<string>) {
    forall i | 0 <= i < |s| :: IsComponent(s[i])
  }

  function Joined(components: seq<string>): string {
    if components == [] then "" else "/" + components[0] + Joined(components[1..])
  }

  /** The normalized absolute path with the given components. */
  function PathOf(components: seq<string>): string {
    if components == [] then "/" else Joined(components)
  }

  lemma JoinedStart(components: seq<string>)
    ensures Joined(components) == "" <==> components == []
    ensures components != [] ==> Joined(components)[0] == '/'
  {
  }

  lemma {:induction false} JoinedEnd(components: seq<string>)
    requires components != [] && AreComponents(components)
    ensures !EndsWithSlash(Joined(components)) && Joined(components) != ""
  {
    var c, rest := components[0], components[1..];
    if rest == [] {
      assert Joined(components) == "/" + c;
      assert c[|c| - 1] in c;
    } else {
      JoinedEnd(rest);
      assert Joined(components)[|Joined(components)| - 1] == Joined(rest)[|Joined(rest)| - 1];
    }
  }

  /** Where the first component of a joined path ends. */
  lemma {:induction false} FirstComponent(c: string, rest: string)
    requires '/' !in c && (rest == "" || rest[0] == '/')
    ensures IndexOf(c + rest, '/') == |c|
  {
    if c == "" {
      assert c + rest == rest;
    } else {
      FirstComponent(c[1..], rest);
      assert (c + rest)[1..] == c[1..] + rest;
    }
  }

  lemma {:induction false} PrefixKeepsIndex(s: string, t: string, c: char)
    requires s <= t && IndexOf(s, c) < |s|
    ensures IndexOf(t, c) == IndexOf(s, c)
  {
    if s[0] != c {
      PrefixKeepsIndex(s[1..], t[1..], c);
    }
  }

  lemma SameFirstComponent(c: string, x: string, d: string, y: string)
    requires IsComponent(c) && IsComponent(d) && x != "" && x[0] == '/' && (y == "" || y[0] == '/')
    ensures c + x <= d + y <==> c == d && x <= y
  {
    FirstComponent(c, x);
    FirstComponent(d, y);
    if c + x <= d + y {
      PrefixKeepsIndex(c + x, d + y, '/');
      assert c == (d + y)[..|c|] == d;
      assert x == (c + x)[|c|..] && y == (d + y)[|d|..];
    }
    if c == d && x <= y {
      assert d + y == c + x + y[|x|..];
    }
  }

  lemma {:induction false} JoinedPrefix(a: seq<string>, b: seq<string>)
    requires AreComponents(a) && AreComponents(b)
    ensures Joined(a) + "/" <= Joined(b) <==> a <= b && a != b
  {
    JoinedStart(b);
    if a == [] {
      assert Joined(a) + "/" == "/";
    } else if b != [] {
      JoinedPrefix(a[1..], b[1..]);
      JoinedPrefixStep(a, b);
      PrefixByParts(a, b);
    }
  }

  lemma PrefixByParts(a: seq<string>, b: seq<string>)
    requires a != [] && b != []
    ensures a <= b && a != b <==> a[0] == b[0] && a[1..] <= b[1..] && a[1..] != b[1..]
  {
    assert a == [a[0]] + a[1..] && b == [b[0]] + b[1..];
  }

  lemma JoinedPrefixStep(a: seq<string>, b: seq<string>)
    requires a != [] && b != [] && AreComponents(a) && AreComponents(b)
    ensures Joined(a) + "/" <= Joined(b) <==> a[0] == b[0] && Joined(a[1..]) + "/" <= Joined(b[1..])
  {
    var x, y := Joined(a[1..]) + "/", Joined(b[1..]);
    JoinedStart(a[1..]);
    JoinedStart(b[1..]);
    SameFirstComponent(a[0], x, b[0], y);
    Regroup(a[0], Joined(a[1..]), "/");
    Regroup(b[0], Joined(b[1..]), "");
    SlashPrefix(a[0] + x, b[0] + y);
    assert y + "" == y && Joined(b) + "" == Joined(b);
  }

  lemma Regroup(first: string, rest: string, end: string)
    ensures "/" + first + rest + end == "/" + (first + (rest + end))
  {
  }

  lemma SlashPrefix(s: string, t: string)
    ensures "/" + s <= "/" + t <==> s <= t
  {
    if "/" + s <= "/" + t {
      assert s == ("/" + s)[1..] && t == ("/" + t)[1..];
    }
    if s <= t {
      assert "/" + t == "/" + s + t[|s|..];
    }
  }

  lemma JoinedIsUnique(a: seq<string>, b: seq<string>)
    requires AreComponents(a) && AreComponents(b)
    ensures Joined(a) == Joined(b) <==> a == b
  {
    if Joined(a) == Joined(b) {
      var more := b + ["x"];
      JoinedOneMore(b, "x");
      JoinedPrefix(a, more);
      JoinedPrefix(b, a);
      assert a <= more && a != more;
      assert a <= b by { assert |a| <= |b|; assert forall i | 0 <= i < |a| :: a[i] == more[i] == b[i]; }
      JoinedOneMore(a, "x");
      JoinedPrefix(b, a + ["x"]);
      assert b <= a + ["x"];
    }
  }

  lemma {:induction false} JoinedOneMore(a: seq<string>, c: string)
    ensures Joined(a + [c]) == Joined(a) + "/" + c
  {
    if a == [] {
      assert a + [c] == [c];
    } else {
      JoinedOneMore(a[1..], c);
      assert (a + [c])[1..] == a[1..] + [c];
    }
  }

  /** On normalized absolute paths a mount covers a path if and only if the components of the mount
      path are a prefix of the components of the path. */
  lemma CoveringIsComponentPrefix(a: seq<string>, b: seq<string>)
    requires AreComponents(a) && AreComponents(b)
    ensures Covers(PathOf(a), PathOf(b)) <==> a <= b
  {
    JoinedStart(b);
    if a == [] {
      assert Prefix("/") == "/" <= PathOf(b);
    } else {
      JoinedEnd(a);
      JoinedPrefix(a, b);
      JoinedIsUnique(a, b);
      if b == [] {
        assert IsComponent(a[0]) && |Joined(a)| > 1;
      }
    }
  }
}
