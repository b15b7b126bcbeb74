/** Whether retrying ever ends: from where the status protocol can settle, and where it cannot. */
module Progress {
  import opened Types
  import opened ModelValidationInfos
  import opened TrackerStates
  import opened Statuses
  import B = Barrier
  import Q = DebouncedQueues
  import P = Protocol
  import W = StatusWorkers

  /** Every tracked key is tracked with the configuration that its object has. */
  ghost predicate ConfigsAgree(s: P.State) {
    forall k | k in s.tracker.mvs && k in s.api :: s.tracker.mvs[k].config == s.api[k].revision.config
  }

  /** Steps of timers, callbacks, retries and the worker, and the end of AddModelValidation calls. */
  predicate IsInternal(a: P.Action) {
    !a.Create? && !a.Edit? && !a.Delete? && !a.AddLocked? && !a.Track?
  }

  ghost predicate Good(s: P.State) {
    P.Inv(s) && P.WorkInv(s) && ConfigsAgree(s)
  }

  lemma StepKeepsAgreement(s: P.State, a: P.Action)
    requires ConfigsAgree(s) && P.Enabled(s, a) && IsInternal(a)
    ensures ConfigsAgree(P.Next(s, a))
  {
  }

  lemma {:induction false} StepsKeepGood(s: P.State, actions: seq<P.Action>, t: P.State)
    requires Good(s) && P.Steps(s, actions, t) && forall a | a in actions :: IsInternal(a)
    ensures Good(t)
    decreases |actions|
  {
    if actions != [] {
      P.ActionKeepsInv(s, actions[0]);
      P.ActionKeepsWorkInv(s, actions[0]);
      StepKeepsAgreement(s, actions[0]);
      StepsKeepGood(P.Next(s, actions[0]), actions[1..], t);
    }
  }

  /** A state can be reached by internal steps. */
  ghost predicate Leads(s: P.State, actions: seq<P.Action>, t: P.State) {
    P.Steps(s, actions, t) && forall a | a in actions :: IsInternal(a)
  }

  lemma LeadsOn(s: P.State, a: seq<P.Action>, t: P.State, b: seq<P.Action>, u: P.State)
    requires Leads(s, a, t) && Leads(t, b, u)
    ensures Leads(s, a + b, u)
  {
    P.StepsConcat(s, a, t, b, u);
  }

  lemma LeadsOne(s: P.State, a: P.Action)
    requires P.Enabled(s, a) && IsInternal(a)
    ensures Leads(s, [a], P.Next(s, a))
  {
    P.OneStep(s, a);
  }

  // First the calls and timers run out.

  lemma CallsEnd(s: P.State) returns (actions: seq<P.Action>, t: P.State)
    requires Good(s)
    ensures Leads(s, actions, t) && Good(t) && t.adding == multiset{}
    decreases |s.adding|
  {
    if s.adding == multiset{} {
      return [], s;
    }
    var k :| k in s.adding;
    var a, n := P.AddQueued(k), P.Next(s, P.AddQueued(k));
    LeadsOne(s, a);
    StepsKeepGood(s, [a], n);
    var rest, u := CallsEnd(n);
    LeadsOn(s, [a], n, rest, u);
    return [a] + rest, u;
  }

  /** No call and no timer or callback is left. */
  predicate Calm(s: P.State) {
    s.adding == multiset{} && B.Outstanding(s.queue) == 0
  }

  lemma TimersEnd(s: P.State) returns (actions: seq<P.Action>, t: P.State)
    requires Good(s) && s.adding == multiset{}
    ensures Leads(s, actions, t) && Good(t) && Calm(t)
    decreases B.Work(s.queue)
  {
    if Calm(s) {
      return [], s;
    }
    var step := B.SomeStep(s.queue);
    B.StepPays(s.queue, step);
    var a, n := P.Timer(step), P.Next(s, P.Timer(step));
    LeadsOne(s, a);
    StepsKeepGood(s, [a], n);
    var rest, u := TimersEnd(n);
    LeadsOn(s, [a], n, rest, u);
    return [a] + rest, u;
  }

  // Then the worker ends what it has begun.

  function Rank(w: P.Phase): nat {
    match w
    case Idle => 0
    case Finishing(_) => 1
    case Failed(_) => 2
    case Snapshotted(_, _, _, _) => 3
    case Missing(_) => 3
    case Fetched(_, _) => 4
    case Got(_) => 5
  }

  lemma SomeSnapshot(i: Info) returns (st: Status)
    requires i.Valid()
    ensures IsSnapshot(st, i)
  {
    var a := SomePublished(i.injected);
    var b := SomePublished(i.uninjected);
    var c := SomePublished(i.orphaned);
    st := Status(Int32(|i.injected|), Int32(|i.uninjected|), Int32(|i.orphaned|), i.config.authMethod, a, b, c);
  }

  /** A step of the worker; a write that is due meets a conflict. */
  lemma WorkerStep(s: P.State) returns (a: P.Action)
    requires P.Inv(s) && !s.worker.Idle?
    ensures P.Enabled(s, a) && IsInternal(a) && !a.AddQueued? && !a.Timer? && Rank(P.Next(s, a).worker) < Rank(s.worker)
  {
    match s.worker {
      case Got(_) => a := P.Fetch;
      case Missing(_) => a := P.DropKey;
      case Fetched(k, _) =>
        if k in s.tracker.mvs {
          var st := SomeSnapshot(s.tracker.mvs[k]);
          a := P.Snapshot(st);
        } else {
          a := P.Snapshot(NO_STATUS);
        }
      case Snapshotted(_, seen, _, st) =>
        a := if P.Drifts(s.worker) || StatusEqual(seen.status, st) then P.Conclude else P.Write(false, false);
      case Failed(_) => a := P.RetryKey;
      case Finishing(_) => a := P.DoneKey;
    }
  }

  lemma WorkerStaysCalm(s: P.State, a: P.Action)
    requires Calm(s) && P.Enabled(s, a) && IsInternal(a) && !a.AddQueued? && !a.Timer?
    ensures Calm(P.Next(s, a))
  {
    assert B.Armed(P.Next(s, a).queue) == B.Armed(s.queue);
  }

  lemma WorkerEnds(s: P.State) returns (actions: seq<P.Action>, t: P.State)
    requires Good(s) && Calm(s)
    ensures Leads(s, actions, t) && Good(t) && Calm(t) && t.worker.Idle?
    decreases Rank(s.worker)
  {
    if s.worker.Idle? {
      return [], s;
    }
    var a := WorkerStep(s);
    var n := P.Next(s, a);
    LeadsOne(s, a);
    StepsKeepGood(s, [a], n);
    WorkerStaysCalm(s, a);
    var rest, u := WorkerEnds(n);
    LeadsOn(s, [a], n, rest, u);
    return [a] + rest, u;
  }

  // Then it takes key after key, and no pass fails.

  /** An update that ends without an error. */
  ghost predicate CleanEnd(s: P.State, actions: seq<P.Action>, t: P.State)
    requires s.worker.Got?
  {
    Leads(s, actions, t) && t.worker == P.Finishing(s.worker.key) && t.queue == s.queue && t.adding == s.adding
  }

  lemma CleanMissing(s: P.State)
    requires s.worker.Got? && s.worker.key !in s.api
    ensures CleanEnd(s, [P.Fetch, P.DropKey], W.Ending(s).(tracker := Apply(s.tracker, DropMissing(s.worker.key))))
  {
    W.NotFound(s);
  }

  lemma CleanUntracked(s: P.State)
    requires s.worker.Got? && s.worker.key in s.api && s.worker.key !in s.tracker.mvs
    ensures CleanEnd(s, [P.Fetch, P.Snapshot(NO_STATUS)], W.Ending(P.Met(s)))
  {
    W.NotTracked(s);
  }

  lemma CleanTracked(s: P.State, st: Status) returns (actions: seq<P.Action>, t: P.State)
    requires P.Readable(s, st) && s.tracker.mvs[s.worker.key].config == s.api[s.worker.key].revision.config
    ensures CleanEnd(s, actions, t)
  {
    if StatusEqual(s.api[s.worker.key].status, st) {
      W.Concludes(s, st);
      actions, t := [P.Fetch, P.Snapshot(st)] + [P.Conclude], W.Ending(P.Met(s));
    } else {
      W.Writes(s, st, W.Api(true, true, true));
      actions, t := [P.Fetch, P.Snapshot(st)] + [P.Write(true, true)], W.Ending(W.Written(P.Met(s), st));
    }
  }

  lemma CleanUpdate(s: P.State) returns (actions: seq<P.Action>, t: P.State)
    requires Good(s) && s.worker.Got?
    ensures CleanEnd(s, actions, t)
  {
    var k := s.worker.key;
    if k !in s.api {
      CleanMissing(s);
      actions, t := [P.Fetch, P.DropKey], W.Ending(s).(tracker := Apply(s.tracker, DropMissing(k)));
    } else if k !in s.tracker.mvs {
      CleanUntracked(s);
      actions, t := [P.Fetch, P.Snapshot(NO_STATUS)], W.Ending(P.Met(s));
    } else {
      var st := SomeSnapshot(s.tracker.mvs[k]);
      actions, t := CleanTracked(s, st);
    }
  }

  /** A whole turn takes one key out of the work queue and puts none back. */
  lemma CleanTurn(s: P.State) returns (actions: seq<P.Action>, t: P.State)
    requires Good(s) && Calm(s) && s.worker.Idle? && s.queue.work.pending != []
    ensures Leads(s, actions, t) && Good(t) && Calm(t) && t.worker.Idle?
    ensures t.queue.work.pending == s.queue.work.pending[1..] && t.queue.work.waiting == s.queue.work.waiting
  {
    var g := P.Next(s, P.GetKey);
    LeadsOne(s, P.GetKey);
    StepsKeepGood(s, [P.GetKey], g);
    var update, u := CleanUpdate(g);
    t := P.Next(u, P.DoneKey);
    LeadsOne(u, P.DoneKey);
    LeadsOn(s, [P.GetKey], g, update, u);
    LeadsOn(s, [P.GetKey] + update, u, [P.DoneKey], t);
    actions := [P.GetKey] + update + [P.DoneKey];
    StepsKeepGood(s, actions, t);
    assert B.Armed(t.queue) == B.Armed(s.queue);
  }

  /** A retry comes due. */
  lemma RetryComesDue(s: P.State, k: Key)
    requires Calm(s) && k in s.queue.work.waiting
    ensures var a := P.Timer(Q.RetryDue(k));
            && P.Enabled(s, a) && Calm(P.Next(s, a)) && P.Next(s, a).worker == s.worker
            && P.Next(s, a).queue.work.waiting == s.queue.work.waiting - {k}
            && |P.Next(s, a).queue.work.pending| <= |s.queue.work.pending| + 1
  {
    assert B.Armed(P.Next(s, P.Timer(Q.RetryDue(k))).queue) == B.Armed(s.queue);
  }

  lemma CalmIsQuiet(s: P.State)
    requires Calm(s) && s.worker.Idle? && s.queue.work.waiting == {} && s.queue.work.pending == []
    ensures P.Quiet(s)
  {
  }

  lemma QueueEmpties(s: P.State) returns (actions: seq<P.Action>, t: P.State)
    requires Good(s) && Calm(s) && s.worker.Idle?
    ensures Leads(s, actions, t) && Good(t) && P.Quiet(t)
    decreases 2 * |s.queue.work.waiting| + |s.queue.work.pending|
  {
    if s.queue.work.waiting != {} {
      var k :| k in s.queue.work.waiting;
      var a, n := P.Timer(Q.RetryDue(k)), P.Next(s, P.Timer(Q.RetryDue(k)));
      RetryComesDue(s, k);
      LeadsOne(s, a);
      StepsKeepGood(s, [a], n);
      var rest, u := QueueEmpties(n);
      LeadsOn(s, [a], n, rest, u);
      return [a] + rest, u;
    }
    if s.queue.work.pending != [] {
      var turn, n := CleanTurn(s);
      var rest, u := QueueEmpties(n);
      LeadsOn(s, turn, n, rest, u);
      return turn + rest, u;
    }
    CalmIsQuiet(s);
    return [], s;
  }

  lemma GoodSettles(s: P.State) returns (actions: seq<P.Action>, t: P.State)
    requires Good(s)
    ensures Leads(s, actions, t) && Good(t) && P.Quiet(t)
  {
    var a, s1 := CallsEnd(s);
    var b, s2 := TimersEnd(s1);
    var c, s3 := WorkerEnds(s2);
    var d, s4 := QueueEmpties(s3);
    LeadsOn(s, a, s1, b, s2);
    LeadsOn(s, a + b, s2, c, s3);
    LeadsOn(s, a + b + c, s3, d, s4);
    return a + b + c + d, s4;
  }

  /** Progress: from every reachable state in which every tracked key is tracked with the configuration
      of its object, internal steps lead to a quiet state, in which the statuses show what they should. */
  lemma {:induction false} CanSettle(actions: seq<P.Action>) returns (more: seq<P.Action>, t: P.State)
    requires P.Exec(actions).Some? && ConfigsAgree(P.Exec(actions).value)
    ensures P.Exec(actions + more) == Some(t) && (forall a | a in more :: IsInternal(a))
    ensures P.Quiet(t) && P.AllPublished(t)
  {
    var s := P.Exec(actions).value;
    P.ReachableInv(actions);
    more, t := GoodSettles(s);
    P.StepsProlong(actions, s, more, t);
    P.QuietIsPublished(t);
  }

  // Where it cannot settle.

  /** A key is tracked with another configuration than its object has, under the generation that the
      object has: no AddModelValidation of this object will install the object's configuration. */
  predicate Stuck(s: P.State, k: Key) {
    && k in s.tracker.mvs && k in s.api
    && s.tracker.mvs[k].config != s.api[k].revision.config
    && s.tracker.mvs[k].generation == s.api[k].revision.generation
    && s.worker != P.Missing(k)
    && (s.worker.Snapshotted? && s.worker.key == k ==> s.worker.info.config == s.tracker.mvs[k].config)
  }

  /** What leaves the object and its tracking be: anything but a change of the object, and a
      RemoveModelValidation or AddModelValidation for another generation of the key. */
  predicate LeavesBe(s: P.State, a: P.Action, k: Key)
    requires k in s.tracker.mvs
  {
    match a
    case Edit(j, _) => j != k
    case Delete(j) => j != k
    case Track(op) => op != RemoveMV(k)
    case AddLocked(j, r) => j == k ==> r.generation == s.tracker.mvs[k].generation
    case _ => true
  }

  lemma TrackKeepsConfig(t: Tracker, op: Op, k: Key)
    requires k in t.mvs && !op.AddMV? && !op.DropMissing? && op != RemoveMV(k)
    ensures k in Apply(t, op).mvs && Apply(t, op).mvs[k].config == t.mvs[k].config
    ensures Apply(t, op).mvs[k].generation == t.mvs[k].generation
  {
  }

  lemma ChangeStaysStuck(s: P.State, a: P.Action, k: Key)
    requires Stuck(s, k) && P.Enabled(s, a) && LeavesBe(s, a, k)
    requires a.Create? || a.Edit? || a.Delete? || a.AddLocked? || a.Track? || a.DropKey?
    ensures Stuck(P.Next(s, a), k) && P.Next(s, a).api[k] == s.api[k]
  {
    match a {
      case Track(op) => TrackKeepsConfig(s.tracker, op, k);
      case DropKey => TrackerAfterDrop(s.tracker, s.worker.key, k);
      case _ =>
    }
  }

  lemma TrackerAfterDrop(t: Tracker, j: Key, k: Key)
    requires j != k && k in t.mvs
    ensures var u := Apply(t, DropMissing(j)); k in u.mvs && u.mvs[k] == t.mvs[k]
  {
  }

  lemma WorkStaysStuck(s: P.State, a: P.Action, k: Key)
    requires Stuck(s, k) && P.Enabled(s, a)
    requires a.Fetch? || a.FetchFails? || a.Snapshot? || a.Conclude? || a.GetKey? || a.RetryKey? || a.DoneKey? || a.AddQueued? || a.Timer?
    ensures Stuck(P.Next(s, a), k) && P.Next(s, a).api[k] == s.api[k]
  {
  }

  lemma StaysStuck(s: P.State, a: P.Action, k: Key)
    requires P.Inv(s) && Stuck(s, k) && P.Enabled(s, a) && LeavesBe(s, a, k)
    ensures Stuck(P.Next(s, a), k) && P.Next(s, a).api[k] == s.api[k]
  {
    if a.Write? {
      StuckIsNotWritten(s, a, k);
    } else if a.Create? || a.Edit? || a.Delete? || a.AddLocked? || a.Track? || a.DropKey? {
      ChangeStaysStuck(s, a, k);
    } else {
      WorkStaysStuck(s, a, k);
    }
  }

  lemma StuckIsNotWritten(s: P.State, a: P.Action, k: Key)
    requires P.Inv(s) && Stuck(s, k) && P.Enabled(s, a) && a.Write?
    ensures P.Next(s, a).tracker == s.tracker && k in P.Next(s, a).api && P.Next(s, a).api[k] == s.api[k]
    ensures !P.Next(s, a).worker.Snapshotted? && P.Next(s, a).worker != P.Missing(k)
  {
  }

  ghost predicate AllLeaveBe(s: P.State, actions: seq<P.Action>, k: Key)
    decreases |actions|
  {
    actions != [] ==>
      && P.Enabled(s, actions[0]) && k in s.tracker.mvs && LeavesBe(s, actions[0], k)
      && AllLeaveBe(P.Next(s, actions[0]), actions[1..], k)
  }

  /** A stuck key stays stuck, and its status is never written, however often its updates are retried
      and AddModelValidation is called for it. */
  lemma {:induction false} StuckForGood(s: P.State, actions: seq<P.Action>, t: P.State, k: Key)
    requires P.Inv(s) && Stuck(s, k) && P.Steps(s, actions, t) && AllLeaveBe(s, actions, k)
    ensures Stuck(t, k) && t.api[k] == s.api[k]
    decreases |actions|
  {
    if actions != [] {
      P.ActionKeepsInv(s, actions[0]);
      StaysStuck(s, actions[0], k);
      StuckForGood(P.Next(s, actions[0]), actions[1..], t, k);
    }
  }

  /** How a key gets stuck: its object is deleted and created again with another configuration. Both
      have the first generation, so AddModelValidation takes the new object for the old one. */
  lemma RecreationSticks(s: P.State, k: Key, r: Revision)
    requires P.Quiet(s) && k in s.tracker.mvs && k in s.api
    requires r.generation == s.tracker.mvs[k].generation && r.config != s.tracker.mvs[k].config
    ensures P.Enabled(s, P.Delete(k)) && P.Enabled(P.Next(s, P.Delete(k)), P.Create(k, r))
    ensures var t := P.Next(P.Next(P.Next(s, P.Delete(k)), P.Create(k, r)), P.AddLocked(k, r)); Stuck(t, k)
  {
    InstallsIff(s.tracker, k, r);
  }
}
