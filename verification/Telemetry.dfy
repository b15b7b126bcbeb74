/** internal/webhooks/telemetry.go: the choice of a TelemetryConfig. */
module Telemetry {
  import opened Types
  import opened Strings

  type Labels = map<string, string>

  datatype Requirement = Requirement(key: string, operator: string, values: seq<string>)

  datatype Selector = Selector(matchLabels: Labels, matchExpressions: seq<Requirement>)

  datatype TelemetryConfig = TelemetryConfig(
    namespace: string,
    name: string,
    enabled: bool,
    namespaceSelector: Option<Selector>,
    selector: Option<Selector>)

  /** The namespace and ModelValidation to match. `matches` stands for LabelSelectorAsSelector and
      Matches of apimachinery: None for a selector that is not valid. */
  datatype Query = Query(
    targetNamespace: string,
    namespaceLabels: Labels,
    mvLabels: Labels,
    matches: (Selector, Labels) -> Option<bool>)

  predicate Selected(selector: Option<Selector>, labels: Labels, q: Query) {
    selector.None? || q.matches(selector.value, labels) == Some(true)
  }

  predicate Matching(tc: TelemetryConfig, q: Query) {
    tc.enabled && Selected(tc.namespaceSelector, q.namespaceLabels, q) && Selected(tc.selector, q.mvLabels, q)
  }

  function SelectorSpecificity(selector: Option<Selector>): nat {
    match selector case None => 0 case Some(s) => |s.matchLabels| + |s.matchExpressions|
  }

  function Specificity(tc: TelemetryConfig): nat {
    SelectorSpecificity(tc.namespaceSelector) + SelectorSpecificity(tc.selector)
  }

  function FullName(tc: TelemetryConfig): string {
    tc.namespace + "/" + tc.name
  }

  datatype Candidate = Candidate(tc: TelemetryConfig, specificity: nat)

  /** The comparator of sort.Slice: more specific first, then the target namespace, then by name. */
  predicate Precedes(x: Candidate, y: Candidate, target: string) {
    if x.specificity != y.specificity then x.specificity > y.specificity
    else if (x.tc.namespace == target) != (y.tc.namespace == target) then x.tc.namespace == target
    else Less(FullName(x.tc), FullName(y.tc))
  }

  lemma PrecedesIsStrictWeak(target: string)
    ensures StrictWeak((x, y) => Precedes(x, y, target))
  {
    forall x: Candidate, y: Candidate | Precedes(x, y, target) ensures !Precedes(y, x, target) {
      LessAsymmetric(FullName(x.tc), FullName(y.tc));
    }
    forall x: Candidate, y: Candidate, z: Candidate | !Precedes(x, y, target) && !Precedes(y, z, target)
      ensures !Precedes(x, z, target)
    {
      if !Less(FullName(x.tc), FullName(y.tc)) && !Less(FullName(y.tc), FullName(z.tc)) {
        LessWeak(FullName(x.tc), FullName(y.tc), FullName(z.tc));
      }
    }
  }

  /** Which result is right: none if nothing matches, else a match that no other match precedes. */
  ghost predicate IsWinner(items: seq<TelemetryConfig>, q: Query, r: Option<TelemetryConfig>) {
    match r
    case None => forall tc | tc in items :: !Matching(tc, q)
    case Some(w) =>
      && w in items && Matching(w, q)
      && (forall tc | tc in items && Matching(tc, q) :: !Preferred(tc, w, q))
  }

  predicate Preferred(x: TelemetryConfig, y: TelemetryConfig, q: Query) {
    Precedes(Candidate(x, Specificity(x)), Candidate(y, Specificity(y)), q.targetNamespace)
  }

  /** The candidates are the matching configurations, with their specificity. */
  ghost predicate Collected(candidates: seq<Candidate>, items: seq<TelemetryConfig>, q: Query) {
    && (forall c | c in candidates :: c.tc in items && Matching(c.tc, q) && c.specificity == Specificity(c.tc))
    && (forall tc | tc in items && Matching(tc, q) :: Candidate(tc, Specificity(tc)) in candidates)
  }

  method CollectCandidates(items: seq<TelemetryConfig>, q: Query) returns (candidates: seq<Candidate>)
    ensures Collected(candidates, items, q)
  {
    candidates := [];
    for i := 0 to |items|
      invariant Collected(candidates, items[..i], q)
    {
      var tc := items[i];
      assert items[..i + 1] == items[..i] + [tc];
      if tc.enabled && Selected(tc.namespaceSelector, q.namespaceLabels, q) && Selected(tc.selector, q.mvLabels, q) {
        candidates := candidates + [Candidate(tc, SelectorSpecificity(tc.namespaceSelector) + SelectorSpecificity(tc.selector))];
      }
    }
    assert items[..|items|] == items;
  }

  /** `list` is the answer to the List call. */
  method FindMatchingTelemetryConfig(list: Result<seq<TelemetryConfig>>, q: Query) returns (r: Result<Option<TelemetryConfig>>)
    ensures r.Err? <==> list.Err?
    ensures list.Ok? ==> IsWinner(list.value, q, r.value)
  {
    if list.Err? {
      return Err;
    }
    var items := list.value;
    if |items| == 0 {
      return Ok(None);
    }
    var candidates := CollectCandidates(items, q);
    if |candidates| == 0 {
      return Ok(None);
    }
    var target := q.targetNamespace;
    PrecedesIsStrictWeak(target);
    var sorted := SortSlice(candidates, (x, y) => Precedes(x, y, target));
    FirstIsLeast(candidates, sorted, (x, y) => Precedes(x, y, target));
    return Ok(Some(sorted[0].tc));
  }

  lemma FirstIsLeast<T(!new)>(s: seq<T>, r: seq<T>, less: (T, T) -> bool)
    requires StrictWeak(less) && Sorted(r, less) && multiset(r) == multiset(s) && s != []
    ensures |r| > 0 && r[0] in s
    ensures forall x | x in s :: !less(x, r[0])
  {
    assert |multiset(r)| == |r| && |multiset(s)| == |s|;
    assert r[0] in multiset(r);
    forall x | x in s ensures !less(x, r[0]) {
      assert x in multiset(r);
    }
  }

  // The order is total on configurations the API server can hold together.

  /** Different configurations differ in namespace or name, and a namespace holds no slash. */
  ghost predicate WellNamed(items: seq<TelemetryConfig>) {
    && (forall x, y | x in items && y in items && x.namespace == y.namespace && x.name == y.name :: x == y)
    && (forall x | x in items :: '/' !in x.namespace)
  }

  lemma FullNameIsUnique(x: TelemetryConfig, y: TelemetryConfig)
    requires '/' !in x.namespace && '/' !in y.namespace && FullName(x) == FullName(y)
    ensures x.namespace == y.namespace && x.name == y.name
  {
    IndexOfFirst(x.namespace, '/', x.name);
    IndexOfFirst(y.namespace, '/', y.name);
    var s := FullName(x);
    assert x.namespace == s[..|x.namespace|] && x.name == s[|x.namespace| + 1..];
    assert y.namespace == s[..|y.namespace|] && y.name == s[|y.namespace| + 1..];
  }

  /** On them the comparator is a strict total order. */
  lemma PreferredIsTotal(items: seq<TelemetryConfig>, q: Query, x: TelemetryConfig, y: TelemetryConfig)
    requires WellNamed(items) && x in items && y in items
    ensures x == y || Preferred(x, y, q) || Preferred(y, x, q)
    ensures !(Preferred(x, y, q) && Preferred(y, x, q))
  {
    LessTotal(FullName(x), FullName(y));
    LessAsymmetric(FullName(x), FullName(y));
    if FullName(x) == FullName(y) {
      FullNameIsUnique(x, y);
    }
  }

  lemma PreferredIsTransitive(q: Query, x: TelemetryConfig, y: TelemetryConfig, z: TelemetryConfig)
    requires Preferred(x, y, q) && Preferred(y, z, q)
    ensures Preferred(x, z, q)
  {
    if Less(FullName(x), FullName(y)) && Less(FullName(y), FullName(z)) {
      LessTransitive(FullName(x), FullName(y), FullName(z));
    }
  }

  /** The result does not depend on the order in which the API server lists the configurations. */
  lemma WinnerIgnoresOrder(a: seq<TelemetryConfig>, b: seq<TelemetryConfig>, q: Query, r: Option<TelemetryConfig>, s: Option<TelemetryConfig>)
    requires multiset(a) == multiset(b) && WellNamed(a)
    requires IsWinner(a, q, r) && IsWinner(b, q, s)
    ensures r == s
  {
    forall tc ensures tc in a <==> tc in b {
      assert tc in a <==> tc in multiset(a);
      assert tc in b <==> tc in multiset(b);
    }
    if r.Some? && s.Some? {
      PreferredIsTotal(a, q, r.value, s.value);
    }
  }

  /** A winner is enabled, and each of its selectors is valid and matches, if it has one. Nothing wins exactly
      if no configuration is like that. */
  lemma WinnerMatches(items: seq<TelemetryConfig>, q: Query, r: Option<TelemetryConfig>)
    requires IsWinner(items, q, r)
    ensures r.Some? ==> r.value in items && IsCandidate(r.value, q)
    ensures r.None? <==> forall tc | tc in items :: !IsCandidate(tc, q)
  {
  }

  predicate IsCandidate(tc: TelemetryConfig, q: Query) {
    && tc.enabled
    && (match tc.namespaceSelector case Some(s) => q.matches(s, q.namespaceLabels) == Some(true) case None => true)
    && (match tc.selector case Some(s) => q.matches(s, q.mvLabels) == Some(true) case None => true)
  }

  /** The selectors have so many terms together: labels to match and expressions to match. */
  predicate HasTerms(tc: TelemetryConfig, terms: int) {
    match (tc.namespaceSelector, tc.selector)
    case (Some(a), Some(b)) => terms == |a.matchLabels| + |a.matchExpressions| + |b.matchLabels| + |b.matchExpressions|
    case (Some(a), None) => terms == |a.matchLabels| + |a.matchExpressions|
    case (None, Some(b)) => terms == |b.matchLabels| + |b.matchExpressions|
    case (None, None) => terms == 0
  }

  /** The winner has the highest specificity; among equally specific matches it is in the target
      namespace if any is; and a match equal in both comes later by name. */
  lemma WinnerIsBest(items: seq<TelemetryConfig>, q: Query, w: TelemetryConfig, tc: TelemetryConfig)
    requires WellNamed(items) && IsWinner(items, q, Some(w)) && tc in items && IsCandidate(tc, q) && tc != w
    ensures HasTerms(tc, Specificity(tc)) && HasTerms(w, Specificity(w)) && Specificity(tc) <= Specificity(w)
    ensures Specificity(tc) == Specificity(w) && tc.namespace == q.targetNamespace ==> w.namespace == q.targetNamespace
    ensures Specificity(tc) == Specificity(w) && (tc.namespace == q.targetNamespace <==> w.namespace == q.targetNamespace)
        ==> Less(w.namespace + "/" + w.name, tc.namespace + "/" + tc.name)
  {
    PreferredIsTotal(items, q, tc, w);
  }
}
