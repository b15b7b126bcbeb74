/** internal/tracker/model_validation_info.go: the pods of one ModelValidation, in three classes. */
module ModelValidationInfos {
  import opened Types

  datatype State = Injected | Uninjected | Orphaned

  /** The drift test of AddInjectedPod and UpdateConfig: an empty stamp never drifts. */
  predicate Drifted(p: PodInfo, c: Config) {
    || (p.configHash != "" && p.configHash != c.hash)
    || (p.authMethod != "" && p.authMethod != c.authMethod)
  }

  function Classify(p: PodInfo, finalizer: bool, c: Config): State {
    if !finalizer then Uninjected else if Drifted(p, c) then Orphaned else Injected
  }

  type PodMap = map<UID, PodInfo>

  predicate Keyed(m: PodMap) {
    forall u | u in m :: m[u].uid == u
  }

  /** The list holds every entry of the map exactly once. */
  ghost predicate Lists(pods: seq<PodInfo>, m: PodMap) {
    if pods == [] then m == map[]
    else
      var p := pods[|pods| - 1];
      p.uid in m && m[p.uid] == p && Lists(pods[..|pods| - 1], m - {p.uid})
  }

  lemma ListsOneMore(pods: seq<PodInfo>, m: PodMap, p: PodInfo)
    requires Lists(pods, m) && p.uid !in m
    ensures Lists(pods + [p], m[p.uid := p])
  {
    assert (pods + [p])[..|pods|] == pods;
    assert m[p.uid := p] - {p.uid} == m;
  }

  lemma {:induction false} ListsConcat(a: seq<PodInfo>, m: PodMap, b: seq<PodInfo>, n: PodMap)
    requires Lists(a, m) && Lists(b, n) && m.Keys !! n.Keys
    ensures Lists(a + b, m + n)
  {
    if b == [] {
      assert a + b == a;
      assert m + n == m;
    } else {
      var p := b[|b| - 1];
      ListsConcat(a, m, b[..|b| - 1], n - {p.uid});
      assert (a + b)[..|a + b| - 1] == a + b[..|b| - 1];
      assert (m + n) - {p.uid} == m + (n - {p.uid});
    }
  }

  /** What being listed means: same size, same entries, no repeats. */
  lemma {:induction false} ListsMeaning(pods: seq<PodInfo>, m: PodMap)
    requires Lists(pods, m)
    ensures |pods| == |m|
    ensures forall n | 0 <= n < |pods| :: pods[n].uid in m && m[pods[n].uid] == pods[n]
    ensures forall u | u in m :: m[u] in pods
    ensures forall x, y | 0 <= x < y < |pods| :: pods[x].uid != pods[y].uid
  {
    if pods != [] {
      var p, rest := pods[|pods| - 1], pods[..|pods| - 1];
      ListsMeaning(rest, m - {p.uid});
      assert pods == rest + [p];
      assert m.Keys == (m - {p.uid}).Keys + {p.uid};
      forall n | 0 <= n < |pods| ensures pods[n].uid in m && m[pods[n].uid] == pods[n] {
        if n < |rest| { assert pods[n] == rest[n]; }
      }
      forall x, y | 0 <= x < y < |pods| ensures pods[x].uid != pods[y].uid {
        assert pods[x] == rest[x];
        if y < |rest| { assert pods[y] == rest[y]; }
      }
    }
  }

  /** The contents of a ModelValidationInfo. */
  datatype Info = Info(config: Config, generation: int, injected: PodMap, uninjected: PodMap, orphaned: PodMap) {
    function Pods(s: State): PodMap {
      match s
      case Injected => injected
      case Uninjected => uninjected
      case Orphaned => orphaned
    }

    function Tracked(): set<UID> {
      injected.Keys + uninjected.Keys + orphaned.Keys
    }

    function StateOf(u: UID): Option<State> {
      if u in injected then Some(Injected)
      else if u in orphaned then Some(Orphaned)
      else if u in uninjected then Some(Uninjected)
      else None
    }

    /** The records of all tracked pods. */
    function All(): PodMap {
      injected + uninjected + orphaned
    }

    /** The classes are disjoint, keys are UIDs, and no injected pod has drifted. */
    ghost predicate Valid() {
      && injected.Keys !! uninjected.Keys !! orphaned.Keys
      && Keyed(injected) && Keyed(uninjected) && Keyed(orphaned)
      && (forall u | u in injected :: !Drifted(injected[u], config))
    }
  }

  function NewInfo(r: Revision): Info {
    Info(r.config, r.generation, map[], map[], map[])
  }

  function Remove(i: Info, u: UID): Info {
    i.(injected := i.injected - {u}, uninjected := i.uninjected - {u}, orphaned := i.orphaned - {u})
  }

  function Place(i: Info, p: PodInfo, s: State): Info {
    var j := Remove(i, p.uid);
    match s
    case Injected => j.(injected := j.injected[p.uid := p])
    case Uninjected => j.(uninjected := j.uninjected[p.uid := p])
    case Orphaned => j.(orphaned := j.orphaned[p.uid := p])
  }

  function Observe(i: Info, p: PodInfo, finalizer: bool): Info {
    Place(i, p, Classify(p, finalizer, i.config))
  }

  function Drifting(i: Info, c: Config): set<UID> {
    set u | u in i.injected && Drifted(i.injected[u], c)
  }

  function DriftingPods(i: Info, c: Config): PodMap {
    map u | u in Drifting(i, c) :: i.injected[u]
  }

  /** Installing a revision: exactly the injected pods that drift from it become orphaned. */
  function Reconfigure(i: Info, r: Revision): Info {
    Info(r.config, r.generation, i.injected - Drifting(i, r.config), i.uninjected, i.orphaned + DriftingPods(i, r.config))
  }

  /** The moving loop of UpdateConfig, pod by pod. */
  function OrphanEach(i: Info, pods: seq<PodInfo>): Info {
    if pods == [] then i
    else
      var j, p := OrphanEach(i, pods[..|pods| - 1]), pods[|pods| - 1];
      j.(injected := j.injected - {p.uid}, orphaned := j.orphaned[p.uid := p])
  }

  lemma {:induction false} OrphanEachMoves(i: Info, pods: seq<PodInfo>, d: PodMap)
    requires Lists(pods, d)
    ensures OrphanEach(i, pods) == i.(injected := i.injected - d.Keys, orphaned := i.orphaned + d)
  {
    if pods == [] {
      assert i.injected - d.Keys == i.injected && i.orphaned + d == i.orphaned;
    } else {
      var p, rest := pods[|pods| - 1], pods[..|pods| - 1];
      var e := d - {p.uid};
      OrphanEachMoves(i, rest, e);
      assert (i.injected - e.Keys) - {p.uid} == i.injected - d.Keys;
      assert (i.orphaned + e)[p.uid := p] == i.orphaned + d;
    }
  }

  lemma OrphanEachMeaning(i: Info, pods: seq<PodInfo>, r: Revision)
    requires i.Valid() && Lists(pods, DriftingPods(i, r.config))
    ensures |pods| == |Drifting(i, r.config)|
    ensures OrphanEach(i.(config := r.config, generation := r.generation), pods) == Reconfigure(i, r)
    ensures Reconfigure(i, r).Valid()
  {
    ListsMeaning(pods, DriftingPods(i, r.config));
    assert DriftingPods(i, r.config).Keys == Drifting(i, r.config);
    OrphanEachMoves(i.(config := r.config, generation := r.generation), pods, DriftingPods(i, r.config));
    ReconfigureKeepsValid(i, r);
  }

  lemma NoDriftWithoutChange(i: Info, r: Revision)
    requires i.Valid() && i.config == r.config
    ensures Drifting(i, r.config) == {} && Reconfigure(i, r) == i.(generation := r.generation)
  {
    assert Drifting(i, r.config) == {};
    assert i.injected - {} == i.injected;
    assert i.orphaned + DriftingPods(i, r.config) == i.orphaned;
  }

  lemma ObserveKeepsValid(i: Info, p: PodInfo, finalizer: bool)
    requires i.Valid()
    ensures var j := Observe(i, p, finalizer); j.Valid() && j.StateOf(p.uid) == Some(Classify(p, finalizer, i.config))
  {
  }

  lemma RemoveKeepsValid(i: Info, u: UID)
    requires i.Valid()
    ensures Remove(i, u).Valid() && Remove(i, u).Tracked() == i.Tracked() - {u}
  {
  }

  lemma ReconfigureKeepsValid(i: Info, r: Revision)
    requires i.Valid()
    ensures Reconfigure(i, r).Valid() && Reconfigure(i, r).Tracked() == i.Tracked()
  {
    assert DriftingPods(i, r.config).Keys == Drifting(i, r.config);
  }

  /** metrics.RecordPodStateTransition: a counter per label set. */
  datatype Transition = Transition(namespace: string, modelValidation: string, from: State, to: State)

  class TransitionCounter {
    var counts: multiset<Transition>

    constructor ()
      ensures counts == multiset{}
    {
      counts := multiset{};
    }

    method Record(t: Transition)
      modifies this
      ensures counts == old(counts) + multiset{t}
    {
      counts := counts[t := counts[t] + 1];
    }

    method RecordMultiple(t: Transition, n: nat)
      modifies this
      ensures counts == old(counts) + multiset{}[t := n]
    {
      if n > 0 {
        counts := counts[t := counts[t] + n];
      }
    }
  }

  /** What movePodToState records: a change of class, never a first sighting or a stay. */
  function Recorded(i: Info, p: PodInfo, to: State): Option<(State, State)> {
    match i.StateOf(p.uid)
    case Some(from) => if from != to then Some((from, to)) else None
    case None => None
  }

  class ModelValidationInfo {
    const name: string
    ghost const key: NamespacedName  // where the tracker keeps it
    var configHash: string
    var authMethod: string
    var observedGeneration: int
    var injectedPods: PodMap
    var uninjectedPods: PodMap
    var orphanedPods: PodMap

    ghost function Value(): Info
      reads this
    {
      Info(Config(configHash, authMethod), observedGeneration, injectedPods, uninjectedPods, orphanedPods)
    }

    constructor (name: string, r: Revision, ghost key: NamespacedName)
      ensures Value() == NewInfo(r) && this.name == name && this.key == key
    {
      this.name, this.key := name, key;
      configHash, authMethod, observedGeneration := r.config.hash, r.config.authMethod, r.generation;
      injectedPods, uninjectedPods, orphanedPods := map[], map[], map[];
    }

    method GetPodState(u: UID) returns (s: Option<State>)
      ensures s == Value().StateOf(u)
    {
      if u in injectedPods { return Some(Injected); }
      if u in orphanedPods { return Some(Orphaned); }
      if u in uninjectedPods { return Some(Uninjected); }
      return None;
    }

    /** Stops at the first class that holds the UID; disjointness makes that a full removal. */
    method RemovePod(u: UID) returns (found: bool)
      requires Value().Valid()
      modifies this
      ensures Value() == Remove(old(Value()), u)
      ensures found <==> u in old(Value()).Tracked()
    {
      if u in injectedPods {
        injectedPods := injectedPods - {u};
        found := true;
      } else if u in orphanedPods {
        orphanedPods := orphanedPods - {u};
        found := true;
      } else if u in uninjectedPods {
        uninjectedPods := uninjectedPods - {u};
        found := true;
      } else {
        found := false;
      }
      assert Value() == Remove(old(Value()), u);
    }

    method MovePodToState(p: PodInfo, to: State, metrics: TransitionCounter)
      requires Value().Valid()
      modifies this, metrics
      ensures Value() == Place(old(Value()), p, to)
      ensures metrics.counts == match Recorded(old(Value()), p, to)
                                case None => old(metrics.counts)
                                case Some(m) => old(metrics.counts) + multiset{Transition(p.namespace, name, m.0, m.1)}
    {
      var prev := GetPodState(p.uid);
      var _ := RemovePod(p.uid);
      match to {
        case Injected => injectedPods := injectedPods[p.uid := p];
        case Uninjected => uninjectedPods := uninjectedPods[p.uid := p];
        case Orphaned => orphanedPods := orphanedPods[p.uid := p];
      }
      if prev.Some? && prev.value != to {
        metrics.Record(Transition(p.namespace, name, prev.value, to));
      }
    }

    method AddInjectedPod(p: PodInfo, metrics: TransitionCounter)
      requires Value().Valid()
      modifies this, metrics
      ensures Value().Valid() && Value() == Observe(old(Value()), p, true)
      ensures metrics.counts == old(metrics.counts) + ObservedTransition(old(Value()), p, true, name)
    {
      ghost var before := Value();
      var isOrphaned := (p.configHash != "" && p.configHash != configHash) || (p.authMethod != "" && p.authMethod != authMethod);
      if isOrphaned {
        MovePodToState(p, Orphaned, metrics);
      } else {
        MovePodToState(p, Injected, metrics);
      }
      ObserveKeepsValid(before, p, true);
    }

    method AddUninjectedPod(p: PodInfo, metrics: TransitionCounter)
      requires Value().Valid()
      modifies this, metrics
      ensures Value().Valid() && Value() == Observe(old(Value()), p, false)
      ensures metrics.counts == old(metrics.counts) + ObservedTransition(old(Value()), p, false, name)
    {
      ghost var before := Value();
      MovePodToState(p, Uninjected, metrics);
      ObserveKeepsValid(before, p, false);
    }

    /** The early return and the two loops amount to Reconfigure on every valid state. */
    method UpdateConfig(r: Revision) returns (drifted: seq<PodInfo>)
      requires Value().Valid()
      modifies this
      ensures Value().Valid() && Value() == Reconfigure(old(Value()), r)
      ensures Lists(drifted, DriftingPods(old(Value()), r.config)) && |drifted| == |Drifting(old(Value()), r.config)|
    {
      ghost var before := Value();
      if configHash == r.config.hash && authMethod == r.config.authMethod {
        observedGeneration := r.generation;
        NoDriftWithoutChange(before, r);
        assert DriftingPods(before, r.config) == map[];
        return [];
      }
      drifted := CollectDrifted(r.config);
      OrphanEachMeaning(before, drifted, r);
      configHash, authMethod, observedGeneration := r.config.hash, r.config.authMethod, r.generation;
      OrphanPods(drifted);
    }

    /** The loop that runs after it. */
    method OrphanPods(drifted: seq<PodInfo>)
      modifies this
      ensures Value() == OrphanEach(old(Value()), drifted)
    {
      assert drifted[..0] == [];
      for n := 0 to |drifted|
        invariant Value() == OrphanEach(old(Value()), drifted[..n])
      {
        assert drifted[..n + 1][..n] == drifted[..n];
        injectedPods := injectedPods - {drifted[n].uid};
        orphanedPods := orphanedPods[drifted[n].uid := drifted[n]];
      }
      assert drifted[..|drifted|] == drifted;
    }

    /** The loop that runs before the new configuration is installed. */
    method CollectDrifted(c: Config) returns (drifted: seq<PodInfo>)
      requires Value().Valid()
      ensures Lists(drifted, DriftingPods(Value(), c))
    {
      drifted := [];
      var todo := injectedPods.Keys;
      ghost var found: PodMap := map[];
      while todo != {}
        invariant todo <= injectedPods.Keys
        invariant Lists(drifted, found)
        invariant found == map u | u in injectedPods && u !in todo && Drifted(injectedPods[u], c) :: injectedPods[u]
        decreases todo
      {
        var u :| u in todo;
        var p := injectedPods[u];
        if (p.configHash != "" && p.configHash != c.hash) || (p.authMethod != "" && p.authMethod != c.authMethod) {
          ListsOneMore(drifted, found, p);
          drifted := drifted + [p];
          found := found[u := p];
        }
        todo := todo - {u};
      }
      assert found == DriftingPods(Value(), c);
    }

    /** Each tracked pod exactly once. */
    method GetAllPods() returns (pods: seq<PodInfo>)
      requires Value().Valid()
      ensures Lists(pods, Value().All())
    {
      var a := Collect(injectedPods);
      var b := Collect(uninjectedPods);
      var c := Collect(orphanedPods);
      ListsConcat(a, injectedPods, b, uninjectedPods);
      ListsConcat(a + b, injectedPods + uninjectedPods, c, orphanedPods);
      pods := a + b + c;
    }
  }

  function ObservedTransition(i: Info, p: PodInfo, finalizer: bool, name: string): multiset<Transition> {
    match Recorded(i, p, Classify(p, finalizer, i.config))
    case None => multiset{}
    case Some(m) => multiset{Transition(p.namespace, name, m.0, m.1)}
  }

  /** Ranges over a Go map in some order. */
  method Collect(pods: PodMap) returns (result: seq<PodInfo>)
    requires Keyed(pods)
    ensures Lists(result, pods)
  {
    result := [];
    var todo := pods.Keys;
    ghost var found: PodMap := map[];
    while todo != {}
      invariant todo <= pods.Keys && Lists(result, found)
      invariant found == map u | u in pods && u !in todo :: pods[u]
      decreases todo
    {
      var u :| u in todo;
      ListsOneMore(result, found, pods[u]);
      result := result + [pods[u]];
      found, todo := found[u := pods[u]], todo - {u};
    }
    assert found == pods;
  }
}
