/** internal/webhooks/pod_webhook.go: mergeModelWithAnnotations. */
module Annotations {
  import opened Types
  import opened Strings
  import opened ModelValidationTypes

  /** unicode.IsSpace. */
  predicate IsSpace(c: char) {
    || '\t' <= c <= '\r' || c == ' ' || c == '\U{85}' || c == '\U{A0}' || c == '\U{1680}'
    || '\U{2000}' <= c <= '\U{200A}' || c == '\U{2028}' || c == '\U{2029}' || c == '\U{202F}' || c == '\U{205F}' || c == '\U{3000}'
  }

  /** The characters with the White_Space property of Unicode. */
  const WHITE_SPACE := "\t\n\U{B}\U{C}\r \U{85}\U{A0}\U{1680}\U{2000}\U{2001}\U{2002}\U{2003}\U{2004}\U{2005}\U{2006}\U{2007}\U{2008}\U{2009}\U{200A}\U{2028}\U{2029}\U{202F}\U{205F}\U{3000}"

  lemma SpacesAre(c: char)
    ensures IsSpace(c) <==> c in WHITE_SPACE
  {
    var w := WHITE_SPACE;
    assert |w| == 25;
    assert w[0] == '\t' && w[1] == '\n' && w[2] == '\U{B}' && w[3] == '\U{C}' && w[4] == '\r' && w[5] == ' ' && w[6] == '\U{85}' && w[7] == '\U{A0}';
    assert w[8] == '\U{1680}' && w[9] == '\U{2000}' && w[10] == '\U{2001}' && w[11] == '\U{2002}' && w[12] == '\U{2003}' && w[13] == '\U{2004}';
    assert w[14] == '\U{2005}' && w[15] == '\U{2006}' && w[16] == '\U{2007}' && w[17] == '\U{2008}' && w[18] == '\U{2009}' && w[19] == '\U{200A}';
    assert w[20] == '\U{2028}' && w[21] == '\U{2029}' && w[22] == '\U{202F}' && w[23] == '\U{205F}' && w[24] == '\U{3000}';
  }

  /** strings.TrimSpace. */
  function TrimSpace(s: string): string {
    if s == "" then ""
    else if IsSpace(s[0]) then TrimSpace(s[1..])
    else if IsSpace(s[|s| - 1]) then TrimSpace(s[..|s| - 1])
    else s
  }

  predicate IsTrimmed(s: string) {
    s != "" ==> !IsSpace(s[0]) && !IsSpace(s[|s| - 1])
  }

  /** strings.Split with a separator of one character. */
  function Split(s: string, c: char): (parts: seq<string>)
    ensures parts != []
    decreases |s|
  {
    var n := IndexOf(s, c);
    if n == |s| then [s] else [s[..n]] + Split(s[n + 1..], c)
  }

  function Joined(parts: seq<string>, c: char): string
    requires parts != []
  {
    if |parts| == 1 then parts[0] else parts[0] + [c] + Joined(parts[1..], c)
  }

  /** The entries of a comma-separated list, trimmed, without the empty ones. */
  function ValidPaths(parts: seq<string>): seq<string> {
    if parts == [] then []
    else
      ValidPaths(parts[..|parts| - 1])
      + var path := TrimSpace(parts[|parts| - 1]); if path != "" then [path] else []
  }

  function MergedIgnorePaths(model: Model, annotations: map<string, string>): seq<string> {
    var raw := Lookup(annotations, IGNORE_PATHS_ANNOTATION);
    var paths := if raw == "" then [] else ValidPaths(Split(raw, ','));
    if paths == [] then model.ignorePaths else paths
  }

  /** parseBoolAnnotation: None for an annotation that is missing or does not parse. */
  function BoolAnnotation(annotations: map<string, string>, key: string): Option<bool> {
    if key in annotations then ParseBool(TrimSpace(annotations[key])) else None
  }

  function Override(setting: Option<bool>, annotation: Option<bool>): Option<bool> {
    if annotation.Some? then annotation else setting
  }

  function Merged(model: Model, annotations: map<string, string>): (m: Model)
    ensures m.path == model.path && m.signaturePath == model.signaturePath
  {
    Model(model.path, model.signaturePath, MergedIgnorePaths(model, annotations),
          Override(model.ignoreGitPaths, BoolAnnotation(annotations, IGNORE_GIT_PATHS_ANNOTATION)),
          Override(model.ignoreUnsignedFiles, BoolAnnotation(annotations, IGNORE_UNSIGNED_FILES_ANNOTATION)),
          Override(model.allowSymlinks, BoolAnnotation(annotations, ALLOW_SYMLINKS_ANNOTATION)))
  }

  method CollectValidPaths(paths: seq<string>) returns (validPaths: seq<string>)
    ensures validPaths == ValidPaths(paths)
  {
    validPaths := [];
    for i := 0 to |paths|
      invariant validPaths == ValidPaths(paths[..i])
    {
      assert paths[..i + 1][..i] == paths[..i];
      var trimmed := TrimSpace(paths[i]);
      if trimmed != "" {
        validPaths := validPaths + [trimmed];
      }
    }
    assert paths[..|paths|] == paths;
  }

  method MergeModelWithAnnotations(model: Model, annotations: map<string, string>) returns (merged: Model)
    ensures merged == Merged(model, annotations)
  {
    merged := model;
    if IGNORE_PATHS_ANNOTATION in annotations && annotations[IGNORE_PATHS_ANNOTATION] != "" {
      var paths := Split(annotations[IGNORE_PATHS_ANNOTATION], ',');
      var validPaths := CollectValidPaths(paths);
      if |validPaths| > 0 {
        merged := merged.(ignorePaths := validPaths);
      }
    }
    var git := BoolAnnotation(annotations, IGNORE_GIT_PATHS_ANNOTATION);
    if git.Some? {
      merged := merged.(ignoreGitPaths := git);
    }
    var unsigned := BoolAnnotation(annotations, IGNORE_UNSIGNED_FILES_ANNOTATION);
    if unsigned.Some? {
      merged := merged.(ignoreUnsignedFiles := unsigned);
    }
    var symlinks := BoolAnnotation(annotations, ALLOW_SYMLINKS_ANNOTATION);
    if symlinks.Some? {
      merged := merged.(allowSymlinks := symlinks);
    }
  }

  // What a list in an annotation can say.

  lemma {:induction false} TrimSpaceIsTrimmed(s: string)
    ensures IsTrimmed(TrimSpace(s))
    ensures forall c | c !in s :: c !in TrimSpace(s)
    decreases |s|
  {
    if s != "" {
      if IsSpace(s[0]) {
        TrimSpaceIsTrimmed(s[1..]);
      } else if IsSpace(s[|s| - 1]) {
        TrimSpaceIsTrimmed(s[..|s| - 1]);
      }
    }
  }

  predicate AreSpaces(s: string) {
    forall c | c in s :: IsSpace(c)
  }

  lemma {:induction false} OnlySpaces(s: string)
    requires AreSpaces(s)
    ensures TrimSpace(s) == ""
  {
    if s != "" {
      OnlySpaces(s[1..]);
    }
  }

  lemma {:induction false} TrimEnd(text: string, after: string)
    requires IsTrimmed(text) && text != "" && AreSpaces(after)
    ensures TrimSpace(text + after) == text
    decreases |after|
  {
    var s := text + after;
    if after == "" {
      assert s == text;
    } else {
      assert s[0] == text[0];
      assert s[..|s| - 1] == text + after[..|after| - 1];
      TrimEnd(text, after[..|after| - 1]);
    }
  }

  /** Trimming takes off the white space at both ends and nothing else. */
  lemma {:induction false} TrimSpaceIs(before: string, text: string, after: string)
    requires AreSpaces(before) && IsTrimmed(text) && AreSpaces(after)
    ensures TrimSpace(before + text + after) == text
  {
    var s := before + text + after;
    if before != "" {
      assert s[0] == before[0] && s[1..] == before[1..] + text + after;
      TrimSpaceIs(before[1..], text, after);
    } else if text == "" {
      assert s == after;
      OnlySpaces(after);
    } else {
      assert s == text + after;
      TrimEnd(text, after);
    }
  }

  predicate IsListed(path: string) {
    path != "" && IsTrimmed(path) && ',' !in path
  }

  lemma {:induction false} SplitHasNoSeparator(s: string, c: char)
    ensures forall p | p in Split(s, c) :: c !in p
    decreases |s|
  {
    var n := IndexOf(s, c);
    if n < |s| {
      SplitHasNoSeparator(s[n + 1..], c);
    }
  }

  lemma {:induction false} ValidPathsAreListed(parts: seq<string>)
    requires forall p | p in parts :: ',' !in p
    ensures forall p | p in ValidPaths(parts) :: IsListed(p)
  {
    if parts != [] {
      ValidPathsAreListed(parts[..|parts| - 1]);
      TrimSpaceIsTrimmed(parts[|parts| - 1]);
    }
  }

  lemma SplitFirst(a: string, c: char, b: string)
    requires c !in a
    ensures Split(a + [c] + b, c) == [a] + Split(b, c)
  {
    var s := a + [c] + b;
    IndexOfFirst(a, c, b);
    assert s[..|a|] == a && s[|a| + 1..] == b;
  }

  lemma {:induction false} SplitInvertsJoined(parts: seq<string>, c: char)
    requires parts != [] && forall p | p in parts :: c !in p
    ensures Split(Joined(parts, c), c) == parts
  {
    assert parts[0] in parts;
    if |parts| == 1 {
    } else {
      SplitFirst(parts[0], c, Joined(parts[1..], c));
      SplitInvertsJoined(parts[1..], c);
      assert parts == [parts[0]] + parts[1..];
    }
  }

  lemma {:induction false} ListedStay(paths: seq<string>)
    requires forall p | p in paths :: IsListed(p)
    ensures ValidPaths(paths) == paths
  {
    if paths != [] {
      var n := |paths| - 1;
      ListedStay(paths[..n]);
      assert paths[n] in paths && IsListed(paths[n]);
      assert TrimSpace(paths[n]) == paths[n];
      assert paths == paths[..n] + [paths[n]];
    }
  }

  const TRUE_SPELLINGS := {"1", "t", "T", "true", "TRUE", "True"}
  const FALSE_SPELLINGS := {"0", "f", "F", "false", "FALSE", "False"}

  /** What an annotation makes of a switch: true or false as it spells, apart from white space around it;
      the setting of the ModelValidation if it is absent or spells neither. */
  ghost predicate Says(annotations: map<string, string>, key: string, setting: Option<bool>, merged: Option<bool>) {
    if key !in annotations then merged == setting
    else
      var text := TrimSpace(annotations[key]);
      && (text in TRUE_SPELLINGS ==> merged == Some(true))
      && (text in FALSE_SPELLINGS ==> merged == Some(false))
      && (text !in TRUE_SPELLINGS && text !in FALSE_SPELLINGS ==> merged == setting)
  }

  lemma SwitchIsSaid(annotations: map<string, string>, key: string, setting: Option<bool>)
    ensures Says(annotations, key, setting, Override(setting, BoolAnnotation(annotations, key)))
  {
  }

  lemma SwitchesAreSaid(model: Model, annotations: map<string, string>)
    ensures var m := Merged(model, annotations);
            && Says(annotations, "validation.ml.sigstore.dev/ignore-git-paths", model.ignoreGitPaths, m.ignoreGitPaths)
            && Says(annotations, "validation.ml.sigstore.dev/ignore-unsigned-files", model.ignoreUnsignedFiles, m.ignoreUnsignedFiles)
            && Says(annotations, "validation.ml.sigstore.dev/allow-symlinks", model.allowSymlinks, m.allowSymlinks)
  {
    SwitchIsSaid(annotations, IGNORE_GIT_PATHS_ANNOTATION, model.ignoreGitPaths);
    SwitchIsSaid(annotations, IGNORE_UNSIGNED_FILES_ANNOTATION, model.ignoreUnsignedFiles);
    SwitchIsSaid(annotations, ALLOW_SYMLINKS_ANNOTATION, model.allowSymlinks);
  }

  /** An entry of a list: a path with white space around it. A blank entry has the empty path. */
  datatype Entry = Entry(before: string, path: string, after: string) {
    predicate Valid() {
      AreSpaces(before) && IsTrimmed(path) && AreSpaces(after) && ',' !in before && ',' !in path && ',' !in after
    }

    function Text(): string {
      before + path + after
    }
  }

  function Texts(entries: seq<Entry>): seq<string> {
    seq(|entries|, i requires 0 <= i < |entries| => entries[i].Text())
  }

  /** The paths of the entries that are not blank, in order. */
  function PathsOf(entries: seq<Entry>): seq<string> {
    if entries == [] then []
    else
      var before, last := PathsOf(entries[..|entries| - 1]), entries[|entries| - 1].path;
      if last == "" then before else before + [last]
  }

  lemma ValidPathsLast(parts: seq<string>, last: string)
    ensures ValidPaths(parts + [last]) == if TrimSpace(last) == "" then ValidPaths(parts) else ValidPaths(parts) + [TrimSpace(last)]
  {
    assert (parts + [last])[..|parts|] == parts;
  }

  lemma {:induction false} EntriesGivePaths(entries: seq<Entry>)
    requires forall e | e in entries :: e.Valid()
    ensures ValidPaths(Texts(entries)) == PathsOf(entries)
  {
    if entries != [] {
      var before, last := entries[..|entries| - 1], entries[|entries| - 1];
      EntriesGivePaths(before);
      assert last in entries;
      TrimSpaceIs(last.before, last.path, last.after);
      assert Texts(entries) == Texts(before) + [last.Text()];
      ValidPathsLast(Texts(before), last.Text());
    }
  }

  /** Entries between commas, with white space around them and blanks among them, give the paths they
      say, in order; only blanks give nothing, and the list of the ModelValidation stays. */
  lemma EntriesAreRead(model: Model, annotations: map<string, string>, entries: seq<Entry>)
    requires entries != [] && forall e | e in entries :: e.Valid()
    requires "validation.ml.sigstore.dev/ignore-paths" in annotations
    requires annotations["validation.ml.sigstore.dev/ignore-paths"] == Joined(Texts(entries), ',')
    ensures Merged(model, annotations).ignorePaths == if PathsOf(entries) == [] then model.ignorePaths else PathsOf(entries)
  {
    forall i | 0 <= i < |entries| ensures ',' !in Texts(entries)[i] {
      assert entries[i] in entries;
    }
    SplitInvertsJoined(Texts(entries), ',');
    EntriesGivePaths(entries);
    if Joined(Texts(entries), ',') == "" {
      assert |entries| == 1 && entries[0].Text() == "" && entries[0].path == "";
    }
  }

  /** Without an annotation the list stays as well. */
  lemma NoListStays(model: Model, annotations: map<string, string>)
    requires "validation.ml.sigstore.dev/ignore-paths" !in annotations
    ensures Merged(model, annotations).ignorePaths == model.ignorePaths
  {
  }

  /** Any non-empty list of trimmed, non-empty paths without commas can be given by joining it. */
  lemma AnnotationGivesList(model: Model, annotations: map<string, string>, paths: seq<string>)
    requires paths != [] && forall p | p in paths :: IsListed(p)
    requires Lookup(annotations, IGNORE_PATHS_ANNOTATION) == Joined(paths, ',')
    ensures Merged(model, annotations).ignorePaths == paths
  {
    SplitInvertsJoined(paths, ',');
    ListedStay(paths);
    assert IsListed(paths[0]);
    assert Joined(paths, ',') != "";
  }

  /** And only such lists, unless the list of the ModelValidation stays in force. */
  lemma AnnotationGivesOnlyLists(model: Model, annotations: map<string, string>)
    ensures var paths := Merged(model, annotations).ignorePaths;
            paths == model.ignorePaths || (paths != [] && forall p | p in paths :: IsListed(p))
  {
    var raw := Lookup(annotations, IGNORE_PATHS_ANNOTATION);
    SplitHasNoSeparator(raw, ',');
    ValidPathsAreListed(Split(raw, ','));
  }
}
