/** What deleting and recreating a ModelValidation can do to its status and to its tracking: complete
    runs of the transition system, and exactly which runs keep an object tracked. */
module Recreation {
  import opened Types
  import opened ModelValidationInfos
  import opened TrackerStates
  import opened Statuses
  import Q = DebouncedQueues
  import P = Protocol
  import R = Passes

  // The status of a recreated object.

  function Tracking(k: Key, r: Revision): Tracker {
    AddedMV(NO_TRACKING, k, r)
  }

  /** A ModelValidation is created and passed to AddModelValidation. */
  function Adding(k: Key, r: Revision): seq<P.Action> {
    [P.Create(k, r)] + [P.AddLocked(k, r)] + [P.AddQueued(k)]
  }

  lemma AddingRuns(k: Key, r: Revision)
    ensures P.Exec(Adding(k, r)) == Some(R.Ready(Tracking(k, r), k, r))
  {
    var s1 := P.Next(P.INITIAL, P.Create(k, r));
    P.ExecOneMore([], P.Create(k, r), P.INITIAL);
    assert [] + [P.Create(k, r)] == [P.Create(k, r)];
    var s2 := P.Next(s1, P.AddLocked(k, r));
    P.ExecOneMore([P.Create(k, r)], P.AddLocked(k, r), s1);
    assert s1.created - {k} == {} && s1.unseen - {k} == {} && s1.adding + multiset{k} == multiset{k};
    assert s2 == R.During(Tracking(k, r), k, r, Q.IDLE, P.Idle).(adding := multiset{k});
    P.ExecOneMore([P.Create(k, r)] + [P.AddLocked(k, r)], P.AddQueued(k), s2);
    Q.AddedJust(Q.IDLE, k);
    assert s2.adding - multiset{k} == multiset{};
  }

  lemma StartingRuns(k: Key, r: Revision)
    ensures P.Exec(Adding(k, r) + R.Starting(k)) == Some(R.During(Tracking(k, r), k, r, R.Processing(k), P.Got(k)))
  {
    var t := Tracking(k, r);
    AddingRuns(k, r);
    R.StartingRuns(t, k, r);
    P.StepsProlong(Adding(k, r), R.Ready(t, k, r), R.Starting(k), R.During(t, k, r, R.Processing(k), P.Got(k)));
  }

  /** The status of a ModelValidation without pods. */
  function EmptyStatus(r: Revision): Status {
    Status(0, 0, 0, r.config.authMethod, [], [], [])
  }

  lemma EmptyIsPublishable(k: Key, r: Revision)
    requires r.config.authMethod != ""
    ensures R.Publishable(Tracking(k, r), k, r, EmptyStatus(r))
    ensures ViewOf(Tracking(k, r).mvs[k]) != StatusView(NO_STATUS)
  {
    assert Refs(map[]) == {};
    assert ViewOf(NewInfo(r)).authMethod == r.config.authMethod;
  }

  function Publishing(k: Key, r: Revision): seq<P.Action> {
    Adding(k, r) + R.Publishing(k, EmptyStatus(r))
  }

  lemma PublishingRuns(k: Key, r: Revision)
    requires r.config.authMethod != ""
    ensures P.Exec(Publishing(k, r)) == Some(R.Published(Tracking(k, r), k, r, EmptyStatus(r)))
  {
    var t, st := Tracking(k, r), EmptyStatus(r);
    AddingRuns(k, r);
    EmptyIsPublishable(k, r);
    R.PublishingRuns(t, k, r, st);
    P.StepsProlong(Adding(k, r), R.Ready(t, k, r), R.Publishing(k, st), R.Published(t, k, r, st));
  }

  /** A complete run after which the status of a tracked ModelValidation is stale and nothing in the
      operator is about to replace it: published, deleted, created again. */
  lemma RecreatedRun(k: Key, r: Revision)
    requires r.config.authMethod != ""
    ensures var run := Publishing(k, r) + [P.Delete(k)] + [P.Create(k, r)];
            P.Exec(run).Some? &&
            var t := P.Exec(run).value; P.Stale(t, k) && P.IsNewAndShows(t, k) && !P.UnderWay(t, k)
  {
    var s := R.Published(Tracking(k, r), k, r, EmptyStatus(r));
    PublishingRuns(k, r);
    EmptyIsPublishable(k, r);
    P.RecreatedIsNotYetPending(s, k, r);
    P.ExecOneMore(Publishing(k, r), P.Delete(k), s);
    P.ExecOneMore(Publishing(k, r) + [P.Delete(k)], P.Create(k, r), P.Next(s, P.Delete(k)));
  }

  // Tracking itself.

  /** What has happened to a key since the last AddModelValidation that locked it: whether there was
      one, a RemoveModelValidation, a Get of the worker, and drops by the not-found branch, told apart by
      whether their Get came before or after it. */
  datatype Mark = Mark(added: bool, removed: bool, fetched: bool, staleDrop: bool, freshDrop: bool)

  ghost function MarkOf(actions: seq<P.Action>, k: Key): Mark
    requires P.Exec(actions).Some?
    decreases |actions|
  {
    if actions == [] then Mark(false, false, false, false, false)
    else
      var before := actions[..|actions| - 1];
      Marked(MarkOf(before, k), P.Exec(before).value, actions[|actions| - 1], k)
  }

  function Marked(m: Mark, s: P.State, a: P.Action, k: Key): Mark {
    match a
    case AddLocked(j, _) => if j == k then Mark(true, false, false, false, false) else m
    case Track(op) => if op == RemoveMV(k) then m.(removed := true) else m
    case Fetch => if s.worker == P.Got(k) then m.(fetched := true) else m
    case DropKey =>
      if s.worker != P.Missing(k) then m
      else if m.fetched then m.(freshDrop := true)
      else m.(staleDrop := true)
    case _ => m
  }

  /** A drop whose Get came after the last AddModelValidation found the object gone, so the object is
      still gone or has been created since. */
  predicate MarkInv(m: Mark, s: P.State, k: Key) {
    && (k in s.tracker.mvs <==> m.added && !m.removed && !m.staleDrop && !m.freshDrop)
    && (k in s.api ==> m.added || k in s.created)
    && (m.freshDrop || (m.fetched && s.worker == P.Missing(k)) ==> k !in s.api || k in s.created)
  }

  /** Which keys are tracked after an operation. */
  lemma KeysAfter(t: Tracker, op: Op, k: Key)
    ensures k in Apply(t, op).mvs <==>
              match op
              case AddMV(j, _) => k in t.mvs || j == k
              case RemoveMV(j) => k in t.mvs && j != k
              case DropMissing(j) => k in t.mvs && j != k
              case _ => k in t.mvs
  {
  }

  lemma TrackingStepKeepsMarkInv(m: Mark, s: P.State, a: P.Action, k: Key)
    requires MarkInv(m, s, k) && P.Enabled(s, a) && (a.AddLocked? || a.Track? || a.DropKey?)
    ensures MarkInv(Marked(m, s, a, k), P.Next(s, a), k)
  {
    KeysAfter(s.tracker, if a.AddLocked? then AddMV(a.key, a.revision) else if a.Track? then a.op else DropMissing(s.worker.key), k);
  }

  lemma OtherStepKeepsMarkInv(m: Mark, s: P.State, a: P.Action, k: Key)
    requires MarkInv(m, s, k) && P.Enabled(s, a) && !a.AddLocked? && !a.Track? && !a.DropKey?
    ensures MarkInv(Marked(m, s, a, k), P.Next(s, a), k)
  {
  }

  lemma StepKeepsMarkInv(m: Mark, s: P.State, a: P.Action, k: Key)
    requires MarkInv(m, s, k) && P.Enabled(s, a)
    ensures MarkInv(Marked(m, s, a, k), P.Next(s, a), k)
  {
    if a.AddLocked? || a.Track? || a.DropKey? {
      TrackingStepKeepsMarkInv(m, s, a, k);
    } else {
      OtherStepKeepsMarkInv(m, s, a, k);
    }
  }

  lemma {:induction false} ReachableMarkInv(actions: seq<P.Action>, k: Key)
    requires P.Exec(actions).Some?
    ensures MarkInv(MarkOf(actions, k), P.Exec(actions).value, k)
    decreases |actions|
  {
    if actions != [] {
      var before := actions[..|actions| - 1];
      ReachableMarkInv(before, k);
      StepKeepsMarkInv(MarkOf(before, k), P.Exec(before).value, actions[|actions| - 1], k);
    }
  }

  /** Tracking is not lost, exactly: an existing object that AddModelValidation has been called for
      since its creation is tracked if and only if, since the last such call, no RemoveModelValidation has
      come and the not-found branch has not acted on a Get made before that call. */
  lemma {:induction false} TrackedIffNotDropped(actions: seq<P.Action>, k: Key)
    requires P.Exec(actions).Some? && k in P.Exec(actions).value.api && k !in P.Exec(actions).value.created
    ensures var m := MarkOf(actions, k);
            m.added && (k in P.Exec(actions).value.tracker.mvs <==> !m.removed && !m.staleDrop)
  {
    ReachableMarkInv(actions, k);
  }

  /** The object is deleted before the worker's Get, and created and added before it drops the key. */
  function Losing(k: Key, r: Revision): seq<P.Action> {
    Adding(k, r) + R.Starting(k) + [P.Delete(k)] + [P.Fetch] + [P.Create(k, r)] + [P.AddLocked(k, r)] + [P.DropKey]
  }

  /** A complete run that loses the tracking of an existing object. */
  lemma LosingRun(k: Key, r: Revision)
    ensures P.Exec(Losing(k, r)).Some?
    ensures var s := P.Exec(Losing(k, r)).value; k in s.api && k !in s.created && k !in s.tracker.mvs && k in s.adding
    ensures var m := MarkOf(Losing(k, r), k); !m.removed && m.staleDrop
  {
    var run, s := Adding(k, r) + R.Starting(k), R.During(Tracking(k, r), k, r, R.Processing(k), P.Got(k));
    StartingRuns(k, r);
    P.ExecOneMore(run, P.Delete(k), s);
    var s1 := P.Next(s, P.Delete(k));
    assert k !in s1.api;
    P.ExecOneMore(run + [P.Delete(k)], P.Fetch, s1);
    var s2 := P.Next(s1, P.Fetch);
    assert s2.worker == P.Missing(k);
    MissingIsDropped(run + [P.Delete(k)] + [P.Fetch], k, r, s2);
  }

  lemma MissingIsDropped(actions: seq<P.Action>, k: Key, r: Revision, s: P.State)
    requires P.Exec(actions) == Some(s) && s.worker == P.Missing(k) && k !in s.api
    ensures var run := actions + [P.Create(k, r)] + [P.AddLocked(k, r)] + [P.DropKey];
            P.Exec(run).Some? &&
            var t, m := P.Exec(run).value, MarkOf(run, k);
            k in t.api && k !in t.created && k !in t.tracker.mvs && k in t.adding && !m.removed && m.staleDrop
  {
    P.ExecOneMore(actions, P.Create(k, r), s);
    var a1, s1 := actions + [P.Create(k, r)], P.Next(s, P.Create(k, r));
    P.ExecOneMore(a1, P.AddLocked(k, r), s1);
    var a2, s2 := a1 + [P.AddLocked(k, r)], P.Next(s1, P.AddLocked(k, r));
    P.ExecOneMore(a2, P.DropKey, s2);
    var a3 := a2 + [P.DropKey];
    assert a3[..|a2|] == a2 && a2[..|a1|] == a1;
    assert MarkOf(a2, k) == Mark(true, false, false, false, false);
    assert MarkOf(a3, k) == Marked(MarkOf(a2, k), s2, P.DropKey, k);
  }
}
