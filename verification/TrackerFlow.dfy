/** Flow conservation for a ModelValidation inside a run of the whole tracker, with the counter of
    internal/metrics/metrics.go. */
module TrackerFlow {
  import opened Types
  import opened ModelValidationInfos
  import opened TrackerStates
  import opened TrackerHistory
  import opened StatusTrackers
  import F = PodFlow

  /** What an operation means for one tracked ModelValidation. */
  function EventOf(t: Tracker, op: Op, k: Key): Option<F.Event> {
    match op
    case AddMV(j, r) => if j == k && k in t.mvs && r.generation != t.mvs[k].generation then Some(F.Installed(r)) else None
    case PodEvent(pod) => if LabelKey(pod) == Some(k) then Some(F.Seen(InfoOf(pod), HasFinalizer(pod))) else None
    case SeedPod(pod, j) => if LabelKey(pod).Some? && j == k then Some(F.Seen(InfoOf(pod), HasFinalizer(pod))) else None
    case RemoveUID(u) => Some(F.Gone(u))
    case RemoveByName(n) => if n in t.index.nameToUID then Some(F.Gone(t.index.nameToUID[n])) else None
    case _ => None
  }

  function AfterEvent(i: Info, e: Option<F.Event>): Info {
    match e case Some(x) => F.Apply(i, x) case None => i
  }

  function MovedBy(i: Info, e: Option<F.Event>): multiset<(State, State)> {
    match e case Some(x) => F.TallyOf(i, x).moved case None => multiset{}
  }

  lemma EventIsExact(t: Tracker, op: Op, k: Key)
    requires k in t.mvs && k in Apply(t, op).mvs
    ensures Apply(t, op).mvs[k] == AfterEvent(t.mvs[k], EventOf(t, op, k))
  {
  }

  /** The label set under which a ModelValidation's transitions are counted. */
  function Label(k: Key, from: State, to: State): Transition {
    Transition(k.namespace, k.name, from, to)
  }

  /** A seeded pod comes from a List in the namespace of its ModelValidation. */
  predicate Local(op: Op) {
    op.SeedPod? ==> op.pod.namespace == op.key.namespace
  }

  lemma SeenIsCounted(i: Info, pod: Pod, j: Key, k: Key, from: State, to: State)
    requires pod.namespace == j.namespace
    ensures ObservedTransition(i, InfoOf(pod), HasFinalizer(pod), j.name)[Label(k, from, to)]
         == if j == k then F.TallyOf(i, F.Seen(InfoOf(pod), HasFinalizer(pod))).moved[(from, to)] else 0
  {
  }

  lemma PodIsCounted(t: Tracker, pod: Pod, j: Key, k: Key, from: State, to: State)
    requires k in t.mvs && pod.namespace == j.namespace
    ensures Classified(t, pod, j)[Label(k, from, to)]
         == if j == k then F.TallyOf(t.mvs[k], F.Seen(InfoOf(pod), HasFinalizer(pod))).moved[(from, to)] else 0
  {
    if j in t.mvs {
      SeenIsCounted(t.mvs[j], pod, j, k, from, to);
    }
  }

  lemma NoneIsCounted(i: Info, op: Op, t: Tracker, k: Key, from: State, to: State)
    requires !op.AddMV? && !op.PodEvent? && !op.SeedPod?
    ensures Transitions(t, op) == multiset{} && MovedBy(i, EventOf(t, op, k)) == multiset{}
  {
  }

  lemma DriftIsCounted(t: Tracker, j: Key, r: Revision, k: Key, from: State, to: State)
    requires k in t.mvs
    ensures Transitions(t, AddMV(j, r))[Label(k, from, to)] == MovedBy(t.mvs[k], EventOf(t, AddMV(j, r), k))[(from, to)]
  {
    if j in t.mvs {
      BulkIsCounted(j, k, |Drifting(t.mvs[j], r.config)|, from, to);
    }
  }

  lemma BulkIsCounted(j: Key, k: Key, n: nat, from: State, to: State)
    ensures Bulk(j, n)[Label(k, from, to)] == if j == k then multiset{}[(Injected, Orphaned) := n][(from, to)] else 0
  {
  }

  lemma EventIsCounted(t: Tracker, op: Op, k: Key, from: State, to: State)
    requires Local(op) && k in t.mvs
    ensures Transitions(t, op)[Label(k, from, to)] == MovedBy(t.mvs[k], EventOf(t, op, k))[(from, to)]
  {
    match op {
      case AddMV(j, r) => DriftIsCounted(t, j, r, k, from, to);
      case PodEvent(pod) => if LabelKey(pod).Some? { PodIsCounted(t, pod, LabelKey(pod).value, k, from, to); }
      case SeedPod(pod, j) => if LabelKey(pod).Some? { PodIsCounted(t, pod, j, k, from, to); }
      case _ => NoneIsCounted(t.mvs[k], op, t, k, from, to);
    }
  }

  /** What the counter holds after a run: metrics.counts of the StatusTracker class. */
  function Counted(ops: seq<Op>): multiset<Transition> {
    if ops == [] then multiset{}
    else Counted(ops[..|ops| - 1]) + Transitions(Run(ops[..|ops| - 1]), ops[|ops| - 1])
  }

  function EventsSince(ops: seq<Op>, from: nat, k: Key): seq<F.Event>
    requires from <= |ops|
    decreases |ops|
  {
    if |ops| == from then []
    else
      var before := ops[..|ops| - 1];
      EventsSince(before, from, k) + match EventOf(Run(before), ops[|ops| - 1], k) case Some(e) => [e] case None => []
  }

  /** The key is tracked after the first n operations and has stayed so. */
  ghost predicate TrackedFrom(ops: seq<Op>, n: nat, k: Key) {
    n <= |ops| && forall j | n <= j <= |ops| :: k in At(ops, j).mvs
  }

  lemma TrackedFromLess(ops: seq<Op>, n: nat, k: Key)
    requires TrackedFrom(ops, n, k) && n < |ops|
    ensures TrackedFrom(ops[..|ops| - 1], n, k) && k in Run(ops).mvs && k in Run(ops[..|ops| - 1]).mvs
    ensures At(ops, n) == At(ops[..|ops| - 1], n)
  {
    var before := ops[..|ops| - 1];
    forall j | n <= j <= |before| ensures k in At(before, j).mvs {
      AtPrefix(ops, j);
      assert k in At(ops, j).mvs;
    }
    AtPrefix(ops, n);
    AtPrefix(ops, |ops|);
    assert k in At(ops, |ops|).mvs;
    assert before[..|before|] == before;
    assert k in At(before, |before|).mvs;
  }

  lemma RunOneMore(i: Info, events: seq<F.Event>, e: Option<F.Event>)
    ensures var more := events + match e case Some(x) => [x] case None => [];
            && F.Run(i, more) == AfterEvent(F.Run(i, events), e)
            && F.Total(i, more).moved == F.Total(i, events).moved + MovedBy(F.Run(i, events), e)
  {
    match e {
      case Some(x) => assert (events + [x])[..|events|] == events;
      case None => assert events + [] == events;
    }
  }

  /** The pods of the ModelValidation are those its own events leave, and the counter has grown, under
      its label set, by the transitions of these events. */
  lemma {:induction false} ProjectionIsExact(ops: seq<Op>, n: nat, k: Key, from: State, to: State)
    requires TrackedFrom(ops, n, k) && forall op | op in ops :: Local(op)
    ensures k in Run(ops).mvs && k in At(ops, n).mvs
    ensures Run(ops).mvs[k] == F.Run(At(ops, n).mvs[k], EventsSince(ops, n, k))
    ensures Counted(ops)[Label(k, from, to)]
         == Counted(ops[..n])[Label(k, from, to)] + F.Total(At(ops, n).mvs[k], EventsSince(ops, n, k)).moved[(from, to)]
    decreases |ops|
  {
    if |ops| == n {
      assert ops[..n] == ops;
      assert k in At(ops, n).mvs;
    } else {
      var before, op := ops[..|ops| - 1], ops[|ops| - 1];
      TrackedFromLess(ops, n, k);
      ProjectionIsExact(before, n, k, from, to);
      assert before[..n] == ops[..n];
      EventIsExact(Run(before), op, k);
      EventIsCounted(Run(before), op, k, from, to);
      RunOneMore(At(ops, n).mvs[k], EventsSince(before, n, k), EventOf(Run(before), op, k));
    }
  }

  /** How often the counter was incremented under a label set since the first n operations. */
  function Moves(ops: seq<Op>, n: nat, k: Key, from: State, to: State): int
    requires n <= |ops|
  {
    var now: int, before: int := Counted(ops)[Label(k, from, to)], Counted(ops[..n])[Label(k, from, to)];
    now - before
  }

  function MovesInto(ops: seq<Op>, n: nat, k: Key, s: State): int
    requires n <= |ops|
  {
    Moves(ops, n, k, Injected, s) + Moves(ops, n, k, Uninjected, s) + Moves(ops, n, k, Orphaned, s)
  }

  function MovesOutOf(ops: seq<Op>, n: nat, k: Key, s: State): int
    requires n <= |ops|
  {
    Moves(ops, n, k, s, Injected) + Moves(ops, n, k, s, Uninjected) + Moves(ops, n, k, s, Orphaned)
  }

  /** The classes of the pods first sighted, and of the pods removed, since the first n operations. */
  function Sightings(ops: seq<Op>, n: nat, k: Key): multiset<State>
    requires n <= |ops| && k in At(ops, n).mvs
  {
    F.Total(At(ops, n).mvs[k], EventsSince(ops, n, k)).entered
  }

  function Removals(ops: seq<Op>, n: nat, k: Key): multiset<State>
    requires n <= |ops| && k in At(ops, n).mvs
  {
    F.Total(At(ops, n).mvs[k], EventsSince(ops, n, k)).left
  }

  /** Flow conservation: while a ModelValidation stays tracked, each of its classes grows by its first
      sightings and by what the transition counter shows coming in, less what the counter shows going
      out and less the removals, whatever happens to the other ModelValidations. */
  lemma {:induction false} ClassSizesFollowCounter(ops: seq<Op>, n: nat, k: Key, s: State)
    requires TrackedFrom(ops, n, k) && forall op | op in ops :: Local(op)
    ensures k in Run(ops).mvs && k in At(ops, n).mvs
    ensures |Run(ops).mvs[k].Pods(s)|
         == |At(ops, n).mvs[k].Pods(s)| + Sightings(ops, n, k)[s] + MovesInto(ops, n, k, s) - MovesOutOf(ops, n, k, s) - Removals(ops, n, k)[s]
  {
    ReachableIsValid(ops[..n]);
    forall from, to ensures k in Run(ops).mvs && k in At(ops, n).mvs && Moves(ops, n, k, from, to)
         == F.Total(At(ops, n).mvs[k], EventsSince(ops, n, k)).moved[(from, to)] {
      ProjectionIsExact(ops, n, k, from, to);
    }
    ProjectionIsExact(ops, n, k, s, s);
    F.FlowIsConserved(At(ops, n).mvs[k], EventsSince(ops, n, k), s);
  }
}
