/** The published status, and the test that skips a write (internal/tracker/status_tracker.go). */
module Statuses {
  import opened Types
  import opened ModelValidationInfos
  import opened Strings

  /** A PodTrackingInfo without its timestamp. */
  datatype PodRef = PodRef(name: string, uid: UID)

  datatype Status = Status(
    injectedCount: int,
    uninjectedCount: int,
    orphanedCount: int,
    authMethod: string,
    injected: seq<PodRef>,
    uninjected: seq<PodRef>,
    orphaned: seq<PodRef>)

  const NO_STATUS := Status(0, 0, 0, "", [], [], [])

  /** Go's conversion of a length to int32. */
  function Int32(n: nat): int {
    var m := n % 0x1_0000_0000;
    if m < 0x8000_0000 then m else m - 0x1_0000_0000
  }

  /** The conversion wraps around: it keeps the value modulo 2^32, stays in range, and is exact below 2^31. */
  lemma Int32Wraps(n: nat)
    ensures Counts(Int32(n), n)
  {
  }

  /** The int32 that a count of n is published as. */
  predicate Counts(count: int, n: nat) {
    && -0x8000_0000 <= count < 0x8000_0000 && (count - n) % 0x1_0000_0000 == 0
    && (n < 0x8000_0000 ==> count == n)
  }

  /** Sorted by name, in the order of strings. */
  predicate InNameOrder(refs: seq<PodRef>) {
    forall i, j | 0 <= i < j < |refs| :: refs[i].name == refs[j].name || Less(refs[i].name, refs[j].name)
  }

  lemma SortedIsInNameOrder(refs: seq<PodRef>)
    requires Sorted(refs, ByName())
    ensures InNameOrder(refs)
  {
    forall i, j | 0 <= i < j < |refs| ensures refs[i].name == refs[j].name || Less(refs[i].name, refs[j].name) {
      assert !ByName()(refs[j], refs[i]);
      LessTotal(refs[i].name, refs[j].name);
    }
  }

  predicate StatusEqual(a: Status, b: Status) {
    && a.injectedCount == b.injectedCount
    && a.uninjectedCount == b.uninjectedCount
    && a.orphanedCount == b.orphanedCount
    && a.authMethod == b.authMethod
    && a.injected == b.injected
    && a.uninjected == b.uninjected
    && a.orphaned == b.orphaned
  }

  /** Nothing that a status says, apart from its timestamps, escapes the comparison. */
  lemma StatusEqualIff(a: Status, b: Status)
    ensures StatusEqual(a, b) <==> a == b
  {
  }

  function ByName(): (PodRef, PodRef) -> bool {
    (a: PodRef, b: PodRef) => Less(a.name, b.name)
  }

  lemma ByNameIsStrictWeak()
    ensures StrictWeak(ByName())
  {
    forall x, y ensures ByName()(x, y) ==> !ByName()(y, x) {
      LessAsymmetric(x.name, y.name);
    }
    forall x, y, z | !ByName()(x, y) && !ByName()(y, z) ensures !ByName()(x, z) {
      LessWeak(x.name, y.name, z.name);
    }
  }

  function Ref(p: PodInfo): PodRef {
    PodRef(p.name, p.uid)
  }

  function Refs(m: PodMap): set<PodRef> {
    set u | u in m :: Ref(m[u])
  }

  /** Some order of a class, each pod once. */
  ghost predicate Enumerates(refs: seq<PodRef>, m: PodMap) {
    forall x :: multiset(refs)[x] == if x in Refs(m) then 1 else 0
  }

  ghost predicate Published(refs: seq<PodRef>, m: PodMap) {
    Enumerates(refs, m) && Sorted(refs, ByName())
  }

  /** A status that doUpdateStatus may build from the tracked state. */
  ghost predicate IsSnapshot(st: Status, i: Info) {
    && Published(st.injected, i.injected) && Published(st.uninjected, i.uninjected) && Published(st.orphaned, i.orphaned)
    && st.injectedCount == Int32(|i.injected|)
    && st.uninjectedCount == Int32(|i.uninjected|)
    && st.orphanedCount == Int32(|i.orphaned|)
    && st.authMethod == i.config.authMethod
  }

  // Building a status.

  method CollectPodTrackingInfo(pods: PodMap) returns (result: seq<PodRef>)
    requires Keyed(pods)
    ensures Enumerates(result, pods) && |result| == |pods|
  {
    result := [];
    var todo := pods.Keys;
    ghost var done: PodMap := map[];
    while todo != {}
      invariant todo <= pods.Keys && Enumerates(result, done) && |result| == |done|
      invariant done == map u | u in pods && u !in todo :: pods[u]
      decreases todo
    {
      var u :| u in todo;
      EnumeratesOneMore(result, done, pods[u]);
      result := result + [PodRef(pods[u].name, pods[u].uid)];
      done, todo := done[u := pods[u]], todo - {u};
    }
    assert done == pods;
  }

  lemma EnumeratesOneMore(refs: seq<PodRef>, m: PodMap, p: PodInfo)
    requires Keyed(m) && Enumerates(refs, m) && p.uid !in m
    ensures Enumerates(refs + [Ref(p)], m[p.uid := p])
  {
    var n := m[p.uid := p];
    assert Refs(n) == Refs(m) + {Ref(p)} by {
      forall x | x in Refs(m) ensures x in Refs(n) {
        var u :| u in m && Ref(m[u]) == x;
        assert n[u] == m[u];
      }
      assert n[p.uid] == p;
    }
    assert Ref(p) !in Refs(m);
    assert multiset(refs + [Ref(p)]) == multiset(refs) + multiset{Ref(p)};
  }

  /** The body of doUpdateStatus between its read of the tracked state and its comparison. */
  method BuildStatus(i: Info) returns (st: Status)
    requires i.Valid()
    ensures IsSnapshot(st, i)
    ensures |st.injected| == |i.injected| && |st.uninjected| == |i.uninjected| && |st.orphaned| == |i.orphaned|
    ensures Counts(st.injectedCount, |st.injected|) && Counts(st.uninjectedCount, |st.uninjected|) && Counts(st.orphanedCount, |st.orphaned|)
    ensures InNameOrder(st.injected) && InNameOrder(st.uninjected) && InNameOrder(st.orphaned)
  {
    ByNameIsStrictWeak();
    var trackedPods, uninjectedPods, orphanedPods;
    trackedPods := CollectPodTrackingInfo(i.injected);
    uninjectedPods := CollectPodTrackingInfo(i.uninjected);
    orphanedPods := CollectPodTrackingInfo(i.orphaned);
    trackedPods := SortedRefs(trackedPods, i.injected);
    uninjectedPods := SortedRefs(uninjectedPods, i.uninjected);
    orphanedPods := SortedRefs(orphanedPods, i.orphaned);
    st := Status(Int32(|trackedPods|), Int32(|uninjectedPods|), Int32(|orphanedPods|), i.config.authMethod,
                 trackedPods, uninjectedPods, orphanedPods);
    Int32Wraps(|trackedPods|);
    Int32Wraps(|uninjectedPods|);
    Int32Wraps(|orphanedPods|);
  }

  method SortedRefs(refs: seq<PodRef>, ghost m: PodMap) returns (r: seq<PodRef>)
    requires Enumerates(refs, m) && |refs| == |m|
    ensures Published(r, m) && |r| == |m| && InNameOrder(r)
  {
    ByNameIsStrictWeak();
    r := SortSlice(refs, ByName());
    SortedIsInNameOrder(r);
    assert |multiset(r)| == |multiset(refs)|;
  }

  // What a status says.

  /** Pods by name and UID in each class, and the auth method. */
  datatype View = View(injected: set<PodRef>, uninjected: set<PodRef>, orphaned: set<PodRef>, authMethod: string)

  function ViewOf(i: Info): View {
    View(Refs(i.injected), Refs(i.uninjected), Refs(i.orphaned), i.config.authMethod)
  }

  function Members(refs: seq<PodRef>): set<PodRef> {
    set x | x in refs
  }

  function StatusView(st: Status): View {
    View(Members(st.injected), Members(st.uninjected), Members(st.orphaned), st.authMethod)
  }

  lemma EnumerationMembers(refs: seq<PodRef>, m: PodMap)
    requires Enumerates(refs, m)
    ensures Members(refs) == Refs(m)
  {
    forall x ensures x in Members(refs) <==> x in Refs(m) {
      assert x in refs <==> x in multiset(refs);
    }
  }

  lemma SnapshotShowsView(st: Status, i: Info)
    requires IsSnapshot(st, i)
    ensures StatusView(st) == ViewOf(i)
  {
    EnumerationMembers(st.injected, i.injected);
    EnumerationMembers(st.uninjected, i.uninjected);
    EnumerationMembers(st.orphaned, i.orphaned);
  }

  /** No two pods of the class share a name. */
  ghost predicate DistinctNames(m: PodMap) {
    forall u, v | u in m && v in m && m[u].name == m[v].name :: u == v
  }

  lemma OrderedByName(refs: seq<PodRef>, i: nat, j: nat)
    requires Sorted(refs, ByName()) && i <= j < |refs|
    ensures !Less(refs[j].name, refs[i].name)
  {
    if i < j {
      assert !ByName()(refs[j], refs[i]);
    } else {
      LessAsymmetric(refs[j].name, refs[i].name);
    }
  }

  /** Two orderings by name of the same refs, no two with one name, start alike. */
  lemma SameHead(a: seq<PodRef>, b: seq<PodRef>)
    requires Sorted(a, ByName()) && Sorted(b, ByName()) && multiset(a) == multiset(b) && a != []
    requires forall x, y | x in a && y in a && x.name == y.name :: x == y
    ensures b != [] && a[0] == b[0]
  {
    assert a[0] in multiset(b);
    assert b != [];
    assert b[0] in multiset(a);
    var p :| 0 <= p < |b| && b[p] == a[0];
    var q :| 0 <= q < |a| && a[q] == b[0];
    OrderedByName(b, 0, p);
    OrderedByName(a, 0, q);
    LessTotal(a[0].name, b[0].name);
  }

  lemma {:induction false} SortedIsUnique(a: seq<PodRef>, b: seq<PodRef>)
    requires Sorted(a, ByName()) && Sorted(b, ByName()) && multiset(a) == multiset(b)
    requires forall x, y | x in a && y in a && x.name == y.name :: x == y
    ensures a == b
  {
    if a == [] {
      assert |multiset(b)| == 0;
    } else {
      SameHead(a, b);
      assert a == [a[0]] + a[1..] && b == [b[0]] + b[1..];
      assert multiset(a[1..]) == multiset(a) - multiset{a[0]};
      assert multiset(b[1..]) == multiset(b) - multiset{b[0]};
      SortedIsUnique(a[1..], b[1..]);
    }
  }

  lemma SameEnumeration(a: seq<PodRef>, b: seq<PodRef>, m: PodMap, n: PodMap)
    requires Enumerates(a, m) && Enumerates(b, n) && Refs(m) == Refs(n)
    ensures multiset(a) == multiset(b)
  {
  }

  lemma DistinctRefs(refs: seq<PodRef>, m: PodMap)
    requires Keyed(m) && Enumerates(refs, m) && DistinctNames(m)
    ensures forall x, y | x in refs && y in refs && x.name == y.name :: x == y
  {
    EnumerationMembers(refs, m);
    forall x, y | x in refs && y in refs && x.name == y.name ensures x == y {
      assert x in Members(refs) && y in Members(refs);
      var u :| u in m && Ref(m[u]) == x;
      var v :| v in m && Ref(m[v]) == y;
    }
  }

  lemma PublishedEqualIff(a: seq<PodRef>, b: seq<PodRef>, m: PodMap, n: PodMap)
    requires Keyed(m) && Published(a, m) && Published(b, n) && DistinctNames(m)
    ensures a == b <==> Refs(m) == Refs(n)
  {
    EnumerationMembers(a, m);
    EnumerationMembers(b, n);
    if Refs(m) == Refs(n) {
      SameEnumeration(a, b, m, n);
      DistinctRefs(a, m);
      SortedIsUnique(a, b);
    }
  }

  lemma RefsCount(m: PodMap)
    requires Keyed(m)
    ensures |Refs(m)| == |m|
    decreases |m|
  {
    if m.Keys != {} {
      var u :| u in m;
      var n := m - {u};
      assert m.Keys == n.Keys + {u};
      assert |n| == |m| - 1;
      RefsCount(n);
      RefsLess(m, u);
    } else {
      assert Refs(m) == {};
    }
  }

  lemma RefsLess(m: PodMap, u: UID)
    requires Keyed(m) && u in m
    ensures Refs(m) == Refs(m - {u}) + {Ref(m[u])} && Ref(m[u]) !in Refs(m - {u})
  {
    var n := m - {u};
    forall x | x in Refs(m) ensures x in Refs(n) + {Ref(m[u])} {
      var v :| v in m && Ref(m[v]) == x;
      if v != u { assert v in n && n[v] == m[v]; }
    }
    forall x | x in Refs(n) ensures x in Refs(m) && x != Ref(m[u]) {
      var v :| v in n && Ref(n[v]) == x;
      assert v in m && m[v] == n[v];
    }
  }

  /** The skip test is exact when no two pods of a class share a name: whatever orders the maps were
      read in, the two statuses are equal exactly when they show the same pods by name and UID in
      each class and the same auth method. */
  lemma SkipTestIsExact(a: Status, i: Info, b: Status, j: Info)
    requires i.Valid() && j.Valid() && IsSnapshot(a, i) && IsSnapshot(b, j)
    requires DistinctNames(i.injected) && DistinctNames(i.uninjected) && DistinctNames(i.orphaned)
    ensures StatusEqual(a, b) <==> ViewOf(i) == ViewOf(j)
  {
    PublishedEqualIff(a.injected, b.injected, i.injected, j.injected);
    PublishedEqualIff(a.uninjected, b.uninjected, i.uninjected, j.uninjected);
    PublishedEqualIff(a.orphaned, b.orphaned, i.orphaned, j.orphaned);
    RefsCount(i.injected);
    RefsCount(i.uninjected);
    RefsCount(i.orphaned);
    RefsCount(j.injected);
    RefsCount(j.uninjected);
    RefsCount(j.orphaned);
  }

  lemma SomePublished(m: PodMap) returns (refs: seq<PodRef>)
    requires Keyed(m)
    ensures Published(refs, m)
    decreases |m|
  {
    if m.Keys == {} {
      refs := [];
      assert Refs(m) == {};
    } else {
      var u :| u in m;
      var n := m - {u};
      assert m.Keys == n.Keys + {u};
      assert |n| == |m| - 1;
      var rest := SomePublished(n);
      ByNameIsStrictWeak();
      InsertedIsSorted(rest, Ref(m[u]), ByName());
      RefsLess(m, u);
      refs := Inserted(rest, Ref(m[u]), ByName());
    }
  }

  lemma SwapStaysPublished(a: seq<PodRef>, m: PodMap, p: nat, q: nat)
    requires Published(a, m) && p < |a| && q < |a| && a[p].name == a[q].name
    ensures Published(a[p := a[q]][q := a[p]], m)
  {
    var b := a[p := a[q]][q := a[p]];
    assert multiset(b) == multiset(a);
    forall x, y | 0 <= x < y < |b| ensures !ByName()(b[y], b[x]) {
      assert b[x].name == a[x].name && b[y].name == a[y].name;
      assert !ByName()(a[y], a[x]);
    }
  }

  /** Without distinct names the test depends on the map order: a class has one published form
      exactly when no two of its pods share a name. */
  lemma OnePublishedFormIff(m: PodMap)
    requires Keyed(m)
    ensures (forall a, b | Published(a, m) && Published(b, m) :: a == b) <==> DistinctNames(m)
  {
    if DistinctNames(m) {
      forall a, b | Published(a, m) && Published(b, m) ensures a == b {
        PublishedEqualIff(a, b, m, m);
      }
    } else {
      var u, v :| u in m && v in m && m[u].name == m[v].name && u != v;
      var a := SomePublished(m);
      EnumerationMembers(a, m);
      assert Ref(m[u]) in Members(a) && Ref(m[v]) in Members(a);
      var p :| 0 <= p < |a| && a[p] == Ref(m[u]);
      var q :| 0 <= q < |a| && a[q] == Ref(m[v]);
      SwapStaysPublished(a, m, p, q);
      assert a[p := a[q]][q := a[p]][p] != a[p];
    }
  }
}
