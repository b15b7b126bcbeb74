/** The transition counters of internal/metrics/metrics.go against the sizes of the pod classes. */
module PodFlow {
  import opened Types
  import opened ModelValidationInfos

  /** What can happen to one tracked ModelValidation. */
  datatype Event =
    | Seen(pod: PodInfo, finalizer: bool)
    | Gone(uid: UID)
    | Installed(revision: Revision)

  function Apply(i: Info, e: Event): Info {
    match e
    case Seen(p, f) => Observe(i, p, f)
    case Gone(u) => Remove(i, u)
    case Installed(r) => Reconfigure(i, r)
  }

  /** First sightings, recorded transitions and removals, each counted by class. */
  datatype Tally = Tally(entered: multiset<State>, moved: multiset<(State, State)>, left: multiset<State>)

  function TallyOf(i: Info, e: Event): Tally {
    match e
    case Seen(p, f) =>
      var c := Classify(p, f, i.config);
      Tally(if i.StateOf(p.uid).None? then multiset{c} else multiset{},
            match Recorded(i, p, c) case Some(m) => multiset{m} case None => multiset{},
            multiset{})
    case Gone(u) =>
      Tally(multiset{}, multiset{}, match i.StateOf(u) case Some(s) => multiset{s} case None => multiset{})
    case Installed(r) =>
      Tally(multiset{}, multiset{}[(Injected, Orphaned) := |Drifting(i, r.config)|], multiset{})
  }

  function Into(moved: multiset<(State, State)>, s: State): nat {
    moved[(Injected, s)] + moved[(Uninjected, s)] + moved[(Orphaned, s)]
  }

  function OutOf(moved: multiset<(State, State)>, s: State): nat {
    moved[(s, Injected)] + moved[(s, Uninjected)] + moved[(s, Orphaned)]
  }

  function Balance(t: Tally, s: State): int {
    t.entered[s] + Into(t.moved, s) - OutOf(t.moved, s) - t.left[s]
  }

  function Run(i: Info, events: seq<Event>): Info {
    if events == [] then i else Apply(Run(i, events[..|events| - 1]), events[|events| - 1])
  }

  function Total(i: Info, events: seq<Event>): Tally {
    if events == [] then Tally(multiset{}, multiset{}, multiset{})
    else
      var before := events[..|events| - 1];
      var t, u := Total(i, before), TallyOf(Run(i, before), events[|events| - 1]);
      Tally(t.entered + u.entered, t.moved + u.moved, t.left + u.left)
  }

  lemma SizeWithout(m: PodMap, d: set<UID>)
    requires d <= m.Keys
    ensures |m - d| == |m| - |d|
  {
    assert (m - d).Keys == m.Keys - d;
    assert |m.Keys - d| == |m.Keys| - |d|;
  }

  lemma SizeOfUnion(m: PodMap, n: PodMap)
    requires m.Keys !! n.Keys
    ensures |m + n| == |m| + |n|
  {
    assert (m + n).Keys == m.Keys + n.Keys;
  }

  lemma SizeWithoutOne(m: PodMap, u: UID)
    ensures |m - {u}| == |m| - (if u in m then 1 else 0)
  {
    if u in m { SizeWithout(m, {u}); } else { assert m - {u} == m; }
  }

  lemma SizeWithOneMore(m: PodMap, p: PodInfo)
    requires p.uid !in m
    ensures |m[p.uid := p]| == |m| + 1
  {
    assert m[p.uid := p].Keys == m.Keys + {p.uid};
  }

  lemma GoneBalances(i: Info, u: UID, s: State)
    requires i.Valid()
    ensures |Remove(i, u).Pods(s)| == |i.Pods(s)| + Balance(TallyOf(i, Gone(u)), s)
  {
    SizeWithoutOne(i.Pods(s), u);
    InClass(i, u, s);
    GoneBalance(i, u, s);
    RemovedPods(i, u, s);
  }

  lemma GoneBalance(i: Info, u: UID, s: State)
    ensures Balance(TallyOf(i, Gone(u)), s) == if i.StateOf(u) == Some(s) then -1 else 0
  {
  }

  lemma RemovedPods(i: Info, u: UID, s: State)
    ensures Remove(i, u).Pods(s) == i.Pods(s) - {u}
  {
  }

  lemma InClass(i: Info, u: UID, s: State)
    requires i.Valid()
    ensures u in i.Pods(s) <==> i.StateOf(u) == Some(s)
  {
  }

  /** Whatever is recorded, a sighting adds one to the new class and takes one from the old. */
  lemma SeenBalance(i: Info, p: PodInfo, f: bool, s: State)
    ensures Balance(TallyOf(i, Seen(p, f)), s)
         == (if s == Classify(p, f, i.config) then 1 else 0) - (if i.StateOf(p.uid) == Some(s) then 1 else 0)
  {
    MoveBalance(i.StateOf(p.uid), Classify(p, f, i.config), s);
  }

  /** The tally of a sighting, by the class before and the class after. */
  function SightingOf(from: Option<State>, to: State): Tally {
    match from
    case None => Tally(multiset{to}, multiset{}, multiset{})
    case Some(c) => Tally(multiset{}, if c != to then multiset{(c, to)} else multiset{}, multiset{})
  }

  lemma MoveBalance(from: Option<State>, to: State, s: State)
    ensures Balance(SightingOf(from, to), s) == (if s == to then 1 else 0) - (if from == Some(s) then 1 else 0)
  {
    if from.Some? && from.value != to {
      SingleMove(from.value, to, s);
    }
  }

  lemma SingleMove(from: State, to: State, s: State)
    requires from != to
    ensures Into(multiset{(from, to)}, s) == (if s == to then 1 else 0)
    ensures OutOf(multiset{(from, to)}, s) == (if s == from then 1 else 0)
  {
  }

  lemma BalanceAdds(t: Tally, u: Tally, s: State)
    ensures Balance(Tally(t.entered + u.entered, t.moved + u.moved, t.left + u.left), s) == Balance(t, s) + Balance(u, s)
  {
  }

  lemma SizeAfterPlace(i: Info, p: PodInfo, to: State, s: State)
    requires i.Valid()
    ensures |Place(i, p, to).Pods(s)| == |i.Pods(s)| + (if s == to then 1 else 0) - (if i.StateOf(p.uid) == Some(s) then 1 else 0)
  {
    InClass(i, p.uid, s);
    SizeWithoutOne(i.Pods(s), p.uid);
    PlacedPods(i, p, to, s);
    if s == to {
      SizeWithOneMore(i.Pods(s) - {p.uid}, p);
    }
  }

  lemma PlacedPods(i: Info, p: PodInfo, to: State, s: State)
    ensures Place(i, p, to).Pods(s) == if s == to then (i.Pods(s) - {p.uid})[p.uid := p] else i.Pods(s) - {p.uid}
  {
  }

  lemma SeenBalances(i: Info, p: PodInfo, f: bool, s: State)
    requires i.Valid()
    ensures |Observe(i, p, f).Pods(s)| == |i.Pods(s)| + Balance(TallyOf(i, Seen(p, f)), s)
  {
    SizeAfterPlace(i, p, Classify(p, f, i.config), s);
    SeenBalance(i, p, f, s);
  }

  lemma InstalledBalance(i: Info, r: Revision, s: State)
    ensures Balance(TallyOf(i, Installed(r)), s)
         == match s case Injected => -|Drifting(i, r.config)| case Uninjected => 0 case Orphaned => |Drifting(i, r.config)|
  {
  }

  lemma InstalledBalances(i: Info, r: Revision, s: State)
    requires i.Valid()
    ensures |Reconfigure(i, r).Pods(s)| == |i.Pods(s)| + Balance(TallyOf(i, Installed(r)), s)
  {
    var d := DriftingPods(i, r.config);
    InstalledBalance(i, r, s);
    assert d.Keys == Drifting(i, r.config);
    assert |d| == |d.Keys|;
    SizeWithout(i.injected, d.Keys);
    SizeOfUnion(i.orphaned, d);
  }

  lemma {:induction false} RunValid(i: Info, events: seq<Event>)
    requires i.Valid()
    ensures Run(i, events).Valid()
  {
    if events != [] {
      var before, e := events[..|events| - 1], events[|events| - 1];
      RunValid(i, before);
      match e {
        case Seen(p, f) => ObserveKeepsValid(Run(i, before), p, f);
        case Gone(u) => RemoveKeepsValid(Run(i, before), u);
        case Installed(r) => ReconfigureKeepsValid(Run(i, before), r);
      }
    }
  }

  /** Over any run each class has what entered it and moved in, less what moved out and left. */
  lemma {:induction false} FlowIsConserved(i: Info, events: seq<Event>, s: State)
    requires i.Valid()
    ensures |Run(i, events).Pods(s)| == |i.Pods(s)| + Balance(Total(i, events), s)
  {
    if events != [] {
      var before, e := events[..|events| - 1], events[|events| - 1];
      FlowIsConserved(i, before, s);
      RunValid(i, before);
      BalanceAdds(Total(i, before), TallyOf(Run(i, before), e), s);
      match e {
        case Seen(p, f) => SeenBalances(Run(i, before), p, f, s);
        case Gone(u) => GoneBalances(Run(i, before), u, s);
        case Installed(r) => InstalledBalances(Run(i, before), r, s);
      }
    }
  }

  /** Seeing the same pod again, with the same finalizer, changes nothing and records nothing. */
  lemma RepeatIsSilent(i: Info, p: PodInfo, f: bool)
    requires i.Valid()
    ensures var j := Observe(i, p, f);
            && Observe(j, p, f) == j
            && TallyOf(j, Seen(p, f)) == Tally(multiset{}, multiset{}, multiset{})
  {
    ObserveKeepsValid(i, p, f);
    var c := Classify(p, f, i.config);
    var j, k := Observe(i, p, f), Observe(Observe(i, p, f), p, f);
    PlacedTwice(i, p, c, Injected);
    PlacedTwice(i, p, c, Uninjected);
    PlacedTwice(i, p, c, Orphaned);
    assert k.injected == j.injected && k.uninjected == j.uninjected && k.orphaned == j.orphaned;
  }

  lemma PlacedTwice(i: Info, p: PodInfo, to: State, s: State)
    ensures Place(Place(i, p, to), p, to).Pods(s) == Place(i, p, to).Pods(s)
  {
    PlacedPods(i, p, to, s);
    PlacedPods(Place(i, p, to), p, to, s);
    var rest := i.Pods(s) - {p.uid};
    assert rest - {p.uid} == rest;
    assert (rest[p.uid := p] - {p.uid})[p.uid := p] == rest[p.uid := p];
  }
}
