/** The asynchronous status update as a transition system: one step is one critical section, one API
    call or one action of a timer. The steps of the tracker and the queue are those the classes
    StatusTracker and DebouncedQueue are proved against. */
module Protocol {
  import opened Types
  import opened ModelValidationInfos
  import opened DebouncedQueues
  import opened TrackerStates
  import opened Statuses
  import opened Strings
  import Barrier

  /** A ModelValidation in the API server; every change gives it a new version. */
  datatype Object = Object(version: nat, revision: Revision, status: Status)

  /** Where the single worker is in processNextUpdate and doUpdateStatus. */
  datatype Phase =
    | Idle
    | Got(key: Key)
    | Missing(key: Key)                                                // Get answered not-found
    | Fetched(key: Key, seen: Object)
    | Snapshotted(key: Key, seen: Object, info: Info, status: Status)  // has read the tracked state
    | Failed(key: Key)                                                 // about to call AddWithRetry
    | Finishing(key: Key)                                              // about to call Done

  /** `adding` are the AddModelValidation calls between unlocking and queue.Add. `created` are the
      ModelValidations created and not passed to AddModelValidation since; `unseen` those of them that
      the worker has not fetched since either. */
  datatype State = State(
    tracker: Tracker,
    queue: Queue,
    adding: multiset<Key>,
    worker: Phase,
    api: map<Key, Object>,
    version: nat,
    created: set<Key>,
    unseen: set<Key>)

  const INITIAL := State(NO_TRACKING, IDLE, multiset{}, Idle, map[], 0, {}, {})

  datatype Action =
    | Create(key: Key, revision: Revision)
    | Edit(key: Key, revision: Revision)
    | Delete(key: Key)
    | AddLocked(key: Key, revision: Revision)
    | AddQueued(key: Key)
    | Track(op: Op)
    | Timer(step: Step)
    | GetKey
    | Fetch
    | FetchFails
    | DropKey
    | Snapshot(status: Status)
    | Conclude
    | Write(applied: bool, acknowledged: bool)
    | RetryKey
    | DoneKey

  /** AddLocked takes any revision, however stale, and Track any pod observation. */
  ghost predicate Enabled(s: State, a: Action) {
    match a
    case Create(k, _) => k !in s.api
    case Edit(k, _) => k in s.api
    case Delete(k) => k in s.api
    case AddLocked(_, _) => true
    case AddQueued(k) => k in s.adding
    case Track(op) => !op.AddMV? && !op.DropMissing?
    case Timer(step) => DebouncedQueues.Enabled(s.queue, step)
    case GetKey => s.worker.Idle? && s.queue.work.pending != []
    case Fetch => s.worker.Got?
    case FetchFails => s.worker.Got?
    case DropKey => s.worker.Missing?
    case Snapshot(st) => s.worker.Fetched? && (s.worker.key in s.tracker.mvs ==> IsSnapshot(st, s.tracker.mvs[s.worker.key]))
    case Conclude => s.worker.Snapshotted? && (Drifts(s.worker) || StatusEqual(s.worker.seen.status, s.worker.status))
    case Write(applied, acknowledged) =>
      && s.worker.Snapshotted? && !Drifts(s.worker) && !StatusEqual(s.worker.seen.status, s.worker.status)
      && (acknowledged ==> applied)
      && (applied ==> s.worker.key in s.api && s.api[s.worker.key].version == s.worker.seen.version)
    case RetryKey => s.worker.Failed?
    case DoneKey => s.worker.Finishing?
  }

  predicate Drifts(w: Phase)
    requires w.Snapshotted?
  {
    w.info.config != w.seen.revision.config
  }

  ghost function Next(s: State, a: Action): State
    requires Enabled(s, a)
  {
    match a
    case Create(k, r) =>
      s.(api := s.api[k := Object(s.version + 1, r, NO_STATUS)], version := s.version + 1,
          created := s.created + {k}, unseen := s.unseen + {k})
    case Edit(k, r) => s.(api := s.api[k := Object(s.version + 1, r, s.api[k].status)], version := s.version + 1)
    case Delete(k) => s.(api := s.api - {k})
    case AddLocked(k, r) =>
      s.(tracker := Apply(s.tracker, AddMV(k, r)), adding := s.adding + multiset{k},
          created := s.created - {k}, unseen := s.unseen - {k})
    case AddQueued(k) => s.(adding := s.adding - multiset{k}, queue := AddedAll(s.queue, {k}))
    case Track(op) => s.(tracker := Apply(s.tracker, op), queue := AddedAll(s.queue, Touched(s.tracker, op)))
    case Timer(step) => s.(queue := DebouncedQueues.Next(s.queue, step))
    case GetKey => s.(queue := s.queue.(work := s.queue.work.Get()), worker := Got(s.queue.work.pending[0]))
    case Fetch =>
      var k := s.worker.key;
      if k in s.api then s.(worker := Fetched(k, s.api[k]), unseen := s.unseen - {k}) else s.(worker := Missing(k))
    case FetchFails => s.(worker := Failed(s.worker.key))
    case DropKey => s.(tracker := Apply(s.tracker, DropMissing(s.worker.key)), worker := Finishing(s.worker.key))
    case Snapshot(st) =>
      var k := s.worker.key;
      s.(worker := if k in s.tracker.mvs then Snapshotted(k, s.worker.seen, s.tracker.mvs[k], st) else Finishing(k))
    case Conclude => s.(worker := if Drifts(s.worker) then Failed(s.worker.key) else Finishing(s.worker.key))
    case Write(applied, acknowledged) => AfterWrite(s, applied, acknowledged)
    case RetryKey => s.(queue := Retried(s.queue, s.worker.key), worker := Finishing(s.worker.key))
    case DoneKey => s.(queue := s.queue.(work := s.queue.work.Done(s.worker.key)), worker := Idle)
  }

  /** Status().Update: an error may hide a write that was applied. */
  function AfterWrite(s: State, applied: bool, acknowledged: bool): State
    requires s.worker.Snapshotted? && (applied ==> s.worker.key in s.api)
  {
    var k := s.worker.key;
    var w := if acknowledged then Finishing(k) else Failed(k);
    if applied then
      s.(api := s.api[k := Object(s.version + 1, s.api[k].revision, s.worker.status)], version := s.version + 1, worker := w)
    else s.(worker := w)
  }

  /** The state after a run, if every step of it is enabled. */
  ghost function Exec(actions: seq<Action>): Option<State>
    decreases |actions|
  {
    if actions == [] then Some(INITIAL)
    else
      match Exec(actions[..|actions| - 1])
      case None => None
      case Some(s) => if Enabled(s, actions[|actions| - 1]) then Some(Next(s, actions[|actions| - 1])) else None
  }

  /** A sequence of enabled steps. */
  ghost predicate Steps(s: State, actions: seq<Action>, t: State)
    decreases |actions|
  {
    if actions == [] then s == t
    else Enabled(s, actions[0]) && Steps(Next(s, actions[0]), actions[1..], t)
  }

  lemma {:induction false} StepsConcat(s: State, a: seq<Action>, t: State, b: seq<Action>, u: State)
    requires Steps(s, a, t) && Steps(t, b, u)
    ensures Steps(s, a + b, u)
    decreases |a|
  {
    if a == [] {
      assert a + b == b;
    } else {
      assert (a + b)[0] == a[0] && (a + b)[1..] == a[1..] + b;
      StepsConcat(Next(s, a[0]), a[1..], t, b, u);
    }
  }

  lemma StepsOneMore(s: State, actions: seq<Action>, t: State, a: Action)
    requires Steps(s, actions, t) && Enabled(t, a)
    ensures Steps(s, actions + [a], Next(t, a))
  {
    OneStep(t, a);
    StepsConcat(s, actions, t, [a], Next(t, a));
  }

  lemma OneStep(s: State, a: Action)
    requires Enabled(s, a)
    ensures Steps(s, [a], Next(s, a))
  {
  }

  lemma TwoSteps(s: State, a: Action, b: Action)
    requires Enabled(s, a) && Enabled(Next(s, a), b)
    ensures Steps(s, [a, b], Next(Next(s, a), b))
  {
    OneStep(s, a);
    OneStep(Next(s, a), b);
    StepsConcat(s, [a], Next(s, a), [b], Next(Next(s, a), b));
    assert [a] + [b] == [a, b];
  }

  /** Steps prolong a run. */
  lemma {:induction false} StepsProlong(actions: seq<Action>, s: State, more: seq<Action>, t: State)
    requires Exec(actions) == Some(s) && Steps(s, more, t)
    ensures Exec(actions + more) == Some(t)
    decreases |more|
  {
    if more == [] {
      assert actions + more == actions;
    } else {
      ExecOneMore(actions, more[0], s);
      StepsProlong(actions + [more[0]], Next(s, more[0]), more[1..], t);
      MoveHead(actions, more);
    }
  }

  lemma MoveHead<T>(a: seq<T>, b: seq<T>)
    requires b != []
    ensures a + [b[0]] + b[1..] == a + b
  {
  }

  lemma ExecOneMore(actions: seq<Action>, a: Action, s: State)
    requires Exec(actions) == Some(s) && Enabled(s, a)
    ensures Exec(actions + [a]) == Some(Next(s, a))
  {
    assert (actions + [a])[..|actions|] == actions;
  }

  // The invariant.

  predicate Pending(s: State, k: Key) {
    || k in s.adding
    || k in s.queue.owed
    || k in s.queue.work.dirty
    || k in s.queue.work.waiting
    || k in s.unseen
  }

  predicate Stale(s: State, k: Key) {
    k in s.tracker.mvs && k in s.api && ViewOf(s.tracker.mvs[k]) != StatusView(s.api[k].status)
  }

  /** The worker has the key and will write the current view or retry. */
  predicate Held(s: State, k: Key) {
    match s.worker
    case Got(j) => j == k
    case Fetched(j, _) => j == k
    case Snapshotted(j, _, i, _) => j == k && (k in s.tracker.mvs ==> ViewOf(i) == ViewOf(s.tracker.mvs[k]))
    case Failed(j) => j == k
    case _ => false
  }

  ghost predicate NothingLost(s: State) {
    forall k | Stale(s, k) :: Pending(s, k) || Held(s, k)
  }

  /** What the worker has seen is current, unless it has been superseded: by a new version of the
      object, or by a change that leaves the key pending. */
  ghost predicate WorkerInv(s: State) {
    match s.worker
    case Missing(k) => Pending(s, k) || k !in s.api
    case Fetched(k, seen) => SeenInv(s, k, seen)
    case Snapshotted(k, seen, i, st) =>
      && SeenInv(s, k, seen)
      && i.Valid() && IsSnapshot(st, i)
      && (Pending(s, k) || k !in s.tracker.mvs || ViewOf(i) == ViewOf(s.tracker.mvs[k]))
    case _ => true
  }

  ghost predicate SeenInv(s: State, k: Key, seen: Object) {
    && seen.version <= s.version
    && (k in s.api && s.api[k].version == seen.version ==> s.api[k] == seen)
    && (Pending(s, k) || k !in s.api || s.api[k].status == seen.status)
  }

  ghost predicate Core(s: State) {
    && s.tracker.Valid()
    && Barrier.Inv(s.queue)
    && (forall k | k in s.api :: s.api[k].version <= s.version)
    && WorkerInv(s)
    && NothingLost(s)
  }

  ghost predicate Inv(s: State) {
    Core(s) && UnseenInv(s)
  }

  /** The status of an object that the worker has not seen is empty, and no write can change that
      before the worker fetches it. */
  ghost predicate UnseenInv(s: State) {
    forall k | k in s.unseen && k in s.api ::
      && s.api[k].status == NO_STATUS
      && (s.worker.Fetched? || s.worker.Snapshotted? ==> s.worker.key == k ==> s.worker.seen.version < s.api[k].version)
  }

  /** Steps away from the worker and the API server keep the invariant if they keep pending keys
      pending and leave every ModelValidation they change pending. */
  lemma ElsewhereKeepsCore(s: State, t: State)
    requires Core(s) && t.worker == s.worker && t.api == s.api && t.version == s.version && t.unseen <= s.unseen
    requires t.tracker.Valid() && Barrier.Inv(t.queue)
    requires forall k | Pending(s, k) :: Pending(t, k)
    requires forall k | k in t.tracker.mvs :: Pending(t, k) || (k in s.tracker.mvs && ViewOf(t.tracker.mvs[k]) == ViewOf(s.tracker.mvs[k]))
    ensures Core(t)
  {
    forall k | Stale(t, k) ensures Pending(t, k) || Held(t, k) {
      if !Pending(t, k) {
        assert Stale(s, k) && !Pending(s, k) && Held(s, k);
      }
    }
  }

  lemma AddedPending(q: Queue, ks: set<Key>)
    requires !q.stopped
    ensures AddedAll(q, ks).owed == q.owed + ks && AddedAll(q, ks).work == q.work
  {
  }

  /** Every critical section but AddModelValidation's queues the ModelValidations whose view it changes. */
  lemma ChangesAreTouched(t: Tracker, op: Op, k: Key)
    requires !op.AddMV? && k in Apply(t, op).mvs && k !in Touched(t, op)
    ensures k in t.mvs && Apply(t, op).mvs[k] == t.mvs[k]
  {
    match op {
      case RemoveUID(u) => RemoveAbsent(t.mvs[k], u);
      case RemoveByName(n) => if n in t.index.nameToUID { RemoveAbsent(t.mvs[k], t.index.nameToUID[n]); }
      case _ =>
    }
  }

  lemma TrackKeepsCore(s: State, op: Op)
    requires Core(s) && Enabled(s, Track(op))
    ensures Core(Next(s, Track(op)))
  {
    var t := Next(s, Track(op));
    ApplyKeepsValid(s.tracker, op);
    Barrier.AddsKeepsInv(s.queue, Touched(s.tracker, op));
    AddedPending(s.queue, Touched(s.tracker, op));
    forall k | k in t.tracker.mvs ensures Pending(t, k) || (k in s.tracker.mvs && ViewOf(t.tracker.mvs[k]) == ViewOf(s.tracker.mvs[k])) {
      if k !in Touched(s.tracker, op) {
        ChangesAreTouched(s.tracker, op, k);
      }
    }
    ElsewhereKeepsCore(s, t);
  }

  lemma AddLockedKeepsCore(s: State, k: Key, r: Revision)
    requires Core(s)
    ensures Core(Next(s, AddLocked(k, r)))
  {
    var t := Next(s, AddLocked(k, r));
    ApplyKeepsValid(s.tracker, AddMV(k, r));
    forall j ensures Pending(s, j) ==> Pending(t, j)
      ensures j in t.tracker.mvs ==> Pending(t, j) || (j in s.tracker.mvs && ViewOf(t.tracker.mvs[j]) == ViewOf(s.tracker.mvs[j]))
    {
      AddLockedIsPending(s, k, r, j);
    }
    ElsewhereKeepsCore(s, t);
  }

  lemma AddLockedIsPending(s: State, k: Key, r: Revision, j: Key)
    ensures var t := Next(s, AddLocked(k, r));
            && (Pending(s, j) ==> Pending(t, j))
            && (j in t.tracker.mvs ==> Pending(t, j) || (j in s.tracker.mvs && t.tracker.mvs[j] == s.tracker.mvs[j]))
  {
  }

  lemma AddQueuedKeepsCore(s: State, k: Key)
    requires Core(s) && Enabled(s, AddQueued(k))
    ensures Core(Next(s, AddQueued(k)))
  {
    var t := Next(s, AddQueued(k));
    Barrier.AddsKeepsInv(s.queue, {k});
    AddedPending(s.queue, {k});
    ElsewhereKeepsCore(s, t);
  }

  lemma TimerKeepsPending(q: Queue, step: Step, k: Key)
    requires !q.stopped && !q.work.shuttingDown && DebouncedQueues.Enabled(q, step)
    ensures var r := DebouncedQueues.Next(q, step);
            k in q.owed || k in q.work.dirty || k in q.work.waiting ==> k in r.owed || k in r.work.dirty || k in r.work.waiting
  {
  }

  lemma TimerKeepsCore(s: State, step: Step)
    requires Core(s) && Enabled(s, Timer(step))
    ensures Core(Next(s, Timer(step)))
  {
    var t := Next(s, Timer(step));
    Barrier.StepKeepsInv(s.queue, step);
    forall k | Pending(s, k) ensures Pending(t, k) {
      TimerKeepsPending(s.queue, step, k);
    }
    ElsewhereKeepsCore(s, t);
  }

  lemma UserKeepsCore(s: State, a: Action)
    requires Core(s) && Enabled(s, a) && (a.Create? || a.Edit? || a.Delete?)
    ensures Core(Next(s, a))
  {
    var t := Next(s, a);
    forall k | Pending(s, k) ensures Pending(t, k) {
    }
    forall k | Stale(t, k) ensures Pending(t, k) || Held(t, k) {
      if !Pending(t, k) {
        assert Stale(s, k) && Held(s, k);
      }
    }
  }

  lemma FetchKeepsCore(s: State, a: Action)
    requires Core(s) && Enabled(s, a) && (a.Fetch? || a.FetchFails?)
    ensures Core(Next(s, a))
  {
    var t := Next(s, a);
    forall k | Stale(t, k) ensures Pending(t, k) || Held(t, k) {
      FetchLosesNothing(s, a, k);
    }
    FetchedIsSeen(s, a);
  }

  lemma FetchLosesNothing(s: State, a: Action, k: Key)
    requires NothingLost(s) && Enabled(s, a) && (a.Fetch? || a.FetchFails?) && Stale(Next(s, a), k)
    ensures Pending(Next(s, a), k) || Held(Next(s, a), k)
  {
    assert Stale(s, k);
  }

  lemma FetchedIsSeen(s: State, a: Action)
    requires Enabled(s, a) && (a.Fetch? || a.FetchFails?) && forall k | k in s.api :: s.api[k].version <= s.version
    ensures WorkerInv(Next(s, a))
  {
  }

  lemma SnapshotKeepsCore(s: State, a: Action)
    requires Core(s) && Enabled(s, a) && a.Snapshot?
    ensures Core(Next(s, a))
  {
    var t := Next(s, a);
    forall k | Stale(t, k) ensures Pending(t, k) || Held(t, k) {
      assert Stale(s, k);
    }
  }

  lemma GetKeepsCore(s: State)
    requires Core(s) && Enabled(s, GetKey)
    ensures Core(Next(s, GetKey))
  {
    var t := Next(s, GetKey);
    Barrier.ActionKeepsInv(s.queue, Barrier.Pop);
    forall k | Stale(t, k) ensures Pending(t, k) || Held(t, k) {
      assert Stale(s, k) && Pending(s, k);
    }
  }

  lemma DropKeepsCore(s: State)
    requires Core(s) && Enabled(s, DropKey)
    ensures Core(Next(s, DropKey))
  {
    var t := Next(s, DropKey);
    ApplyKeepsValid(s.tracker, DropMissing(s.worker.key));
    forall k | Stale(t, k) ensures Pending(t, k) || Held(t, k) {
      DropLosesNothing(s, k);
    }
  }

  lemma DropLosesNothing(s: State, k: Key)
    requires NothingLost(s) && Enabled(s, DropKey) && Stale(Next(s, DropKey), k)
    ensures Pending(Next(s, DropKey), k)
  {
    assert Stale(s, k);
  }

  lemma ConcludeKeepsCore(s: State)
    requires Core(s) && Enabled(s, Conclude)
    ensures Core(Next(s, Conclude))
  {
    var t := Next(s, Conclude);
    SnapshotShowsView(s.worker.status, s.worker.info);
    forall k | Stale(t, k) ensures Pending(t, k) || Held(t, k) {
      assert Stale(s, k);
    }
  }

  lemma WriteKeepsCore(s: State, applied: bool, acknowledged: bool)
    requires Core(s) && Enabled(s, Write(applied, acknowledged))
    ensures Core(AfterWrite(s, applied, acknowledged))
  {
    var t := AfterWrite(s, applied, acknowledged);
    SnapshotShowsView(s.worker.status, s.worker.info);
    forall k | Stale(t, k) ensures Pending(t, k) || Held(t, k) {
      if k != s.worker.key {
        assert Stale(s, k);
      }
    }
  }

  lemma ReleaseKeepsCore(s: State, a: Action)
    requires Core(s) && Enabled(s, a) && (a.RetryKey? || a.DoneKey?)
    ensures Core(Next(s, a))
  {
    var t := Next(s, a);
    Barrier.ActionKeepsInv(s.queue, if a.RetryKey? then Barrier.Retry(s.worker.key) else Barrier.Finished(s.worker.key));
    forall k | Stale(t, k) ensures Pending(t, k) || Held(t, k) {
      ReleaseLosesNothing(s, a, k);
    }
  }

  lemma ReleaseLosesNothing(s: State, a: Action, k: Key)
    requires Core(s) && Enabled(s, a) && (a.RetryKey? || a.DoneKey?) && Stale(Next(s, a), k)
    ensures Pending(Next(s, a), k)
  {
    assert Stale(s, k);
    assert !s.queue.stopped;
  }

  lemma ActionKeepsCore(s: State, a: Action)
    requires Core(s) && Enabled(s, a)
    ensures Core(Next(s, a))
  {
    match a {
      case Track(op) => TrackKeepsCore(s, op);
      case AddLocked(k, r) => AddLockedKeepsCore(s, k, r);
      case AddQueued(k) => AddQueuedKeepsCore(s, k);
      case Timer(step) => TimerKeepsCore(s, step);
      case GetKey => GetKeepsCore(s);
      case DropKey => DropKeepsCore(s);
      case Conclude => ConcludeKeepsCore(s);
      case Write(applied, acknowledged) => WriteKeepsCore(s, applied, acknowledged);
      case RetryKey => ReleaseKeepsCore(s, a);
      case DoneKey => ReleaseKeepsCore(s, a);
      case Create(_, _) => UserKeepsCore(s, a);
      case Edit(_, _) => UserKeepsCore(s, a);
      case Delete(_) => UserKeepsCore(s, a);
      case Snapshot(_) => SnapshotKeepsCore(s, a);
      case _ => FetchKeepsCore(s, a);
    }
  }

  lemma ActionKeepsUnseen(s: State, a: Action)
    requires Inv(s) && Enabled(s, a)
    ensures UnseenInv(Next(s, a))
  {
    match a {
      case Track(op) => AddedPending(s.queue, Touched(s.tracker, op));
      case _ =>
    }
  }

  lemma ActionKeepsInv(s: State, a: Action)
    requires Inv(s) && Enabled(s, a)
    ensures Inv(Next(s, a))
  {
    ActionKeepsCore(s, a);
    ActionKeepsUnseen(s, a);
  }

  lemma InitialInv()
    ensures Inv(INITIAL) && WorkInv(INITIAL)
  {
    Barrier.IdleInv();
  }

  lemma {:induction false} ReachableInv(actions: seq<Action>)
    requires Exec(actions).Some?
    ensures Inv(Exec(actions).value) && WorkInv(Exec(actions).value)
    decreases |actions|
  {
    if actions == [] {
      InitialInv();
    } else {
      ReachableInv(actions[..|actions| - 1]);
      ActionKeepsInv(Exec(actions[..|actions| - 1]).value, actions[|actions| - 1]);
      ActionKeepsWorkInv(Exec(actions[..|actions| - 1]).value, actions[|actions| - 1]);
    }
  }

  /** Something in the operator is about to deal with a key: it is in an AddModelValidation call that
      will queue it, has an armed timer or a callback that has not queued it yet, is queued or will be
      when the worker is done with it, waits for a retry, or is held by the worker before its snapshot,
      with a snapshot of the current view, or after a failure it will retry. */
  predicate UnderWay(s: State, k: Key) {
    || k in s.adding
    || k in Barrier.Armed(s.queue) || k in s.queue.loose || k in s.queue.started
    || k in s.queue.work.pending || (k in s.queue.work.dirty && s.worker != Idle && s.worker.key == k)
    || k in s.queue.work.waiting
    || Held(s, k)
  }

  /** No update is lost: whenever a tracked ModelValidation's view differs from its published status, its
      key is under way, or its object is new: neither the worker nor AddModelValidation has met it. */
  lemma {:induction false} NoLostUpdate(actions: seq<Action>, k: Key)
    requires Exec(actions).Some? && Stale(Exec(actions).value, k)
    ensures UnderWay(Exec(actions).value, k) || k in Exec(actions).value.unseen
  {
    ReachableInv(actions);
  }

  predicate IsNewAndShows(s: State, k: Key)
    requires k in s.tracker.mvs
  {
    k in s.unseen && ViewOf(s.tracker.mvs[k]) != StatusView(NO_STATUS)
  }

  lemma StaleIff(s: State, k: Key)
    requires Inv(s) && WorkInv(s) && k in s.tracker.mvs && k in s.api && !UnderWay(s, k)
    ensures Stale(s, k) <==> IsNewAndShows(s, k)
  {
    assert Stale(s, k) ==> Pending(s, k);
  }

  /** Exactly when nothing is lost: in every run, the status of a tracked key that is not under way is
      stale if and only if its object is new in that sense and its view is not the empty one. */
  lemma {:induction false} StaleIffNew(actions: seq<Action>, k: Key)
    requires Exec(actions).Some?
    requires var s := Exec(actions).value; k in s.tracker.mvs && k in s.api && !UnderWay(s, k)
    ensures Stale(Exec(actions).value, k) <==> IsNewAndShows(Exec(actions).value, k)
  {
    ReachableInv(actions);
    StaleIff(Exec(actions).value, k);
  }

  /** Nothing is on its way: no call, timer, callback, queued key or retry. */
  predicate Quiet(s: State) {
    && s.worker.Idle? && s.adding == multiset{}
    && Barrier.Armed(s.queue) == {} && s.queue.loose == multiset{} && s.queue.started == multiset{}
    && s.queue.work.pending == [] && s.queue.work.waiting == {}
  }

  ghost predicate AllPublished(s: State) {
    forall k | k in s.tracker.mvs && k in s.api ::
      StatusView(s.api[k].status) == ViewOf(s.tracker.mvs[k]) <==> !IsNewAndShows(s, k)
  }

  lemma QuietIsPublished(s: State)
    requires Inv(s) && WorkInv(s) && Quiet(s)
    ensures AllPublished(s)
  {
    forall k | k in s.tracker.mvs && k in s.api
      ensures StatusView(s.api[k].status) == ViewOf(s.tracker.mvs[k]) <==> !IsNewAndShows(s, k)
    {
      assert !UnderWay(s, k);
      StaleIff(s, k);
    }
  }

  /** Once nothing is on its way, the status of exactly those tracked ModelValidations shows their pods
      whose object is not new, or that have none to show. */
  lemma {:induction false} QuietMeansPublished(actions: seq<Action>)
    requires Exec(actions).Some? && Quiet(Exec(actions).value)
    ensures AllPublished(Exec(actions).value)
  {
    ReachableInv(actions);
    QuietIsPublished(Exec(actions).value);
  }

  /** How an object comes to be new in that sense: deleting and recreating the object of a tracked
      ModelValidation that is not under way leaves an empty status that nothing in the operator is
      about to replace. */
  lemma RecreatedIsNotYetPending(s: State, k: Key, r: Revision)
    requires k in s.tracker.mvs && k in s.api && !UnderWay(s, k) && ViewOf(s.tracker.mvs[k]) != StatusView(NO_STATUS)
    ensures Enabled(s, Delete(k)) && Enabled(Next(s, Delete(k)), Create(k, r))
    ensures var t := Next(Next(s, Delete(k)), Create(k, r)); Stale(t, k) && IsNewAndShows(t, k) && !UnderWay(t, k)
  {
  }

  /** An undisturbed pass over a tracked key. If the spec has the configuration the pods were
      classified under, the pass ends with the view published, by a write or because it already was;
      otherwise it publishes nothing and fails, to be retried. */
  lemma UndisturbedPass(s: State, st: Status)
    requires Inv(s) && s.worker.Got? && s.worker.key in s.api && s.worker.key in s.tracker.mvs
    requires IsSnapshot(st, s.tracker.mvs[s.worker.key])
    ensures var k := s.worker.key;
            var t := Next(Next(s, Fetch), Snapshot(st));
            t == HasRead(s, st) &&
            if s.tracker.mvs[k].config != s.api[k].revision.config then
              Enabled(t, Conclude) && Next(t, Conclude) == Met(s).(worker := Failed(k))
            else if StatusEqual(s.api[k].status, st) then
              Enabled(t, Conclude) && Next(t, Conclude) == Met(s).(worker := Finishing(k)) && !Stale(s, k)
            else
              && Enabled(t, Write(true, true))
              && var u := Next(t, Write(true, true)); u.worker == Finishing(k) && u.tracker == s.tracker && k in u.api && !Stale(u, k)
  {
    SnapshotShowsView(st, s.tracker.mvs[s.worker.key]);
    PassReads(s, st);
  }

  function HasRead(s: State, st: Status): State
    requires s.worker.Got? && s.worker.key in s.api && s.worker.key in s.tracker.mvs
  {
    Met(s).(worker := Snapshotted(s.worker.key, s.api[s.worker.key], s.tracker.mvs[s.worker.key], st))
  }

  /** The worker has fetched the object of its key. */
  function Met(s: State): State
    requires s.worker.Got?
  {
    s.(unseen := s.unseen - {s.worker.key})
  }

  /** The key has an object and is tracked, and the status is one that may be built from the pods. */
  ghost predicate Readable(s: State, st: Status) {
    s.worker.Got? && s.worker.key in s.api && s.worker.key in s.tracker.mvs && IsSnapshot(st, s.tracker.mvs[s.worker.key])
  }

  lemma ReadingSteps(s: State, st: Status)
    requires Readable(s, st)
    ensures Steps(s, [Fetch, Snapshot(st)], HasRead(s, st))
  {
    PassReads(s, st);
    TwoSteps(s, Fetch, Snapshot(st));
  }

  lemma PassReads(s: State, st: Status)
    requires s.worker.Got? && s.worker.key in s.api && s.worker.key in s.tracker.mvs
    requires IsSnapshot(st, s.tracker.mvs[s.worker.key])
    ensures Next(Next(s, Fetch), Snapshot(st)) == HasRead(s, st)
  {
  }

  // The work queue.

  ghost predicate WorkOk(w: WorkQueue) {
    && (forall k | k in w.pending :: k in w.dirty && k !in w.processing)
    && (forall k | k in w.dirty :: k in w.pending || k in w.processing)
    && (forall i, j | 0 <= i < j < |w.pending| :: w.pending[i] != w.pending[j])
  }

  ghost predicate WorkInv(s: State) {
    WorkOk(s.queue.work) && s.queue.work.processing == if s.worker.Idle? then {} else {s.worker.key}
  }

  lemma WorkAddOk(w: WorkQueue, k: Key)
    requires WorkOk(w)
    ensures WorkOk(w.Add(k))
  {
  }

  lemma WorkGetOk(w: WorkQueue)
    requires WorkOk(w) && w.pending != []
    ensures WorkOk(w.Get())
  {
    var k, v := w.pending[0], w.Get();
    forall j | j in v.pending ensures j in v.dirty && j !in v.processing {
      var i :| 0 <= i < |v.pending| && v.pending[i] == j;
      assert w.pending[i + 1] == j;
    }
    forall j | j in v.dirty ensures j in v.pending || j in v.processing {
      if j in w.pending {
        var i :| 0 <= i < |w.pending| && w.pending[i] == j;
        assert v.pending[i - 1] == j;
      }
    }
  }

  lemma WorkDoneOk(w: WorkQueue, k: Key)
    requires WorkOk(w) && w.processing == {k}
    ensures WorkOk(w.Done(k))
  {
  }

  lemma TimerKeepsWorkOk(q: Queue, step: Step)
    requires DebouncedQueues.Enabled(q, step) && WorkOk(q.work)
    ensures WorkOk(DebouncedQueues.Next(q, step).work) && DebouncedQueues.Next(q, step).work.processing == q.work.processing
  {
    match step {
      case CallbackAdd(k) => WorkAddOk(q.work, k);
      case RetryDue(k) => WorkAddOk(q.work.(waiting := q.work.waiting - {k}), k);
      case _ =>
    }
  }

  lemma ActionKeepsWorkInv(s: State, a: Action)
    requires Inv(s) && WorkInv(s) && Enabled(s, a)
    ensures WorkInv(Next(s, a))
  {
    match a {
      case Track(op) => AddedPending(s.queue, Touched(s.tracker, op));
      case AddQueued(k) => AddedPending(s.queue, {k});
      case Timer(step) => TimerKeepsWorkOk(s.queue, step);
      case GetKey => WorkGetOk(s.queue.work);
      case DoneKey => WorkDoneOk(s.queue.work, s.worker.key);
      case _ =>
    }
  }

  // What a write publishes.

  predicate DisjointUIDs(a: seq<PodRef>, b: seq<PodRef>) {
    forall x, y | x in a && y in b :: x.uid != y.uid
  }

  ghost predicate Consistent(o: Object) {
    var st := o.status;
    && Counts(st.injectedCount, |st.injected|) && Counts(st.uninjectedCount, |st.uninjected|)
    && Counts(st.orphanedCount, |st.orphaned|)
    && InNameOrder(st.injected) && InNameOrder(st.uninjected) && InNameOrder(st.orphaned)
    && DisjointUIDs(st.injected, st.uninjected) && DisjointUIDs(st.injected, st.orphaned) && DisjointUIDs(st.uninjected, st.orphaned)
    && st.authMethod == o.revision.config.authMethod
  }

  lemma ListedIsTracked(refs: seq<PodRef>, m: PodMap, x: PodRef)
    requires Keyed(m) && Enumerates(refs, m) && x in refs
    ensures x.uid in m && Ref(m[x.uid]) == x
  {
    assert x in multiset(refs);
    var u :| u in m && Ref(m[u]) == x;
  }

  lemma DisjointClasses(a: seq<PodRef>, m: PodMap, b: seq<PodRef>, n: PodMap)
    requires Keyed(m) && Keyed(n) && Enumerates(a, m) && Enumerates(b, n) && m.Keys !! n.Keys
    ensures DisjointUIDs(a, b)
  {
    forall x, y | x in a && y in b ensures x.uid != y.uid {
      ListedIsTracked(a, m, x);
      ListedIsTracked(b, n, y);
    }
  }

  lemma EnumerationLength(refs: seq<PodRef>, m: PodMap)
    requires Keyed(m) && Enumerates(refs, m)
    ensures |refs| == |m|
  {
    RefsCount(m);
    assert multiset(refs) == multiset(Refs(m));
    assert |refs| == |multiset(refs)|;
  }

  lemma ListIsConsistent(refs: seq<PodRef>, m: PodMap)
    requires Keyed(m) && Published(refs, m)
    ensures Counts(Int32(|m|), |refs|) && InNameOrder(refs)
  {
    EnumerationLength(refs, m);
    Int32Wraps(|refs|);
    SortedIsInNameOrder(refs);
  }

  lemma SnapshotIsConsistent(o: Object, i: Info)
    requires i.Valid() && IsSnapshot(o.status, i) && i.config == o.revision.config
    ensures Consistent(o)
  {
    var st := o.status;
    ListIsConsistent(st.injected, i.injected);
    ListIsConsistent(st.uninjected, i.uninjected);
    ListIsConsistent(st.orphaned, i.orphaned);
    DisjointClasses(st.injected, i.injected, st.uninjected, i.uninjected);
    DisjointClasses(st.injected, i.injected, st.orphaned, i.orphaned);
    DisjointClasses(st.uninjected, i.uninjected, st.orphaned, i.orphaned);
  }

  /** Every listed injected pod is a tracked record whose stamps pass the drift test. */
  ghost predicate ListsUndrifted(refs: seq<PodRef>, m: PodMap, c: Config) {
    forall x | x in refs :: x.uid in m && Ref(m[x.uid]) == x && !Drifted(m[x.uid], c)
  }

  lemma SnapshotListsUndrifted(st: Status, i: Info)
    requires i.Valid() && IsSnapshot(st, i)
    ensures ListsUndrifted(st.injected, i.injected, i.config)
  {
    forall x | x in st.injected ensures x.uid in i.injected && Ref(i.injected[x.uid]) == x && !Drifted(i.injected[x.uid], i.config) {
      ListedIsTracked(st.injected, i.injected, x);
    }
  }

  /** What the worker holds as a snapshot was the tracked state of its key at one moment of the run. */
  lemma {:induction false} SnapshotHasMoment(actions: seq<Action>) returns (j: nat)
    requires Exec(actions).Some? && Exec(actions).value.worker.Snapshotted?
    ensures j <= |actions| && Exec(actions[..j]).Some?
    ensures var w, s := Exec(actions).value.worker, Exec(actions[..j]).value; w.key in s.tracker.mvs && s.tracker.mvs[w.key] == w.info
    decreases |actions|
  {
    var before, a := actions[..|actions| - 1], actions[|actions| - 1];
    if a.Snapshot? {
      j := |before|;
    } else {
      SameSnapshot(Exec(before).value, a);
      j := SnapshotHasMoment(before);
      assert before[..j] == actions[..j];
    }
  }

  lemma SameSnapshot(s: State, a: Action)
    requires Enabled(s, a) && !a.Snapshot? && Next(s, a).worker.Snapshotted?
    ensures s.worker == Next(s, a).worker
  {
  }

  /** In every run, a write that is applied publishes one consistent snapshot: the tracked pods of the
      key as they were at one moment, classified under the very configuration, hash and auth method,
      that the object has when it is written. No listed injected pod has drifted from it. */
  lemma {:induction false} WritesAreConsistent(actions: seq<Action>, acknowledged: bool) returns (j: nat)
    requires Exec(actions).Some? && Enabled(Exec(actions).value, Write(true, acknowledged))
    ensures j <= |actions| && Exec(actions[..j]).Some?
    ensures var s := Exec(actions).value;
            var k, i, t := s.worker.key, s.worker.info, Next(s, Write(true, acknowledged));
            && k in Exec(actions[..j]).value.tracker.mvs && i == Exec(actions[..j]).value.tracker.mvs[k]
            && k in t.api && Consistent(t.api[k]) && IsSnapshot(t.api[k].status, i)
            && i.Valid() && i.config == t.api[k].revision.config
            && ListsUndrifted(t.api[k].status.injected, i.injected, t.api[k].revision.config)
  {
    ReachableInv(actions);
    var s := Exec(actions).value;
    WriteIsConsistent(s, acknowledged);
    j := SnapshotHasMoment(actions);
  }

  lemma WriteIsConsistent(s: State, acknowledged: bool)
    requires Inv(s) && Enabled(s, Write(true, acknowledged))
    ensures var k, i, t := s.worker.key, s.worker.info, Next(s, Write(true, acknowledged));
            && k in t.api && Consistent(t.api[k]) && IsSnapshot(t.api[k].status, i)
            && i.Valid() && i.config == t.api[k].revision.config
            && ListsUndrifted(t.api[k].status.injected, i.injected, t.api[k].revision.config)
  {
    var t := Next(s, Write(true, acknowledged));
    SnapshotIsConsistent(t.api[s.worker.key], s.worker.info);
    SnapshotListsUndrifted(s.worker.status, s.worker.info);
  }
}
