/** internal/tracker/status_tracker.go: doUpdateStatus and processNextUpdate, as the worker runs them
    when nothing else happens meanwhile, against the steps of the transition system. */
module StatusWorkers {
  import opened Types
  import opened ModelValidationInfos
  import opened DebouncedQueues
  import opened TrackerStates
  import opened StatusTrackers
  import opened Statuses
  import P = Protocol

  /** The API server's part in one update: whether it answers the Get, whether it applies the status
      write, and whether its answer to the write arrives. */
  datatype Api = Api(gets: bool, applied: bool, acknowledged: bool)

  /** The steps are those the API server's answers lead to; the state decides everything else. */
  predicate Follows(actions: seq<P.Action>, answers: Api) {
    && |actions| > 0 && actions[0] == (if answers.gets then P.Fetch else P.FetchFails)
    && forall a | a in actions && a.Write? :: a == P.Write(answers.applied, answers.acknowledged)
  }

  lemma ReadingFollows(st: Status, last: P.Action, answers: Api)
    requires answers.gets && (last.Write? ==> last == P.Write(answers.applied, answers.acknowledged))
    ensures Follows([P.Fetch, P.Snapshot(st)] + [last], answers)
  {
  }

  // What an update comes to.

  predicate SameRecords(s: P.State, t: P.State) {
    t.tracker == s.tracker && t.api == s.api && t.version == s.version
  }

  /** The status that was built is skipped if the object has it; otherwise it is written to this object
      alone, under its spec, if the API server applies the write, and the update succeeds if the answer
      arrives. */
  predicate Publishes(s: P.State, k: Key, answers: Api, st: Status, ok: bool, t: P.State)
    requires k in s.api
  {
    if StatusEqual(s.api[k].status, st) then ok && SameRecords(s, t)
    else
      && (ok <==> answers.acknowledged)
      && t.tracker == s.tracker
      && (answers.applied ==> t.version == s.version + 1 && t.api == s.api[k := P.Object(s.version + 1, s.api[k].revision, st)])
      && (!answers.applied ==> SameRecords(s, t))
  }

  /** An unanswered Get is an error. An object that is gone is dropped from the tracker, an untracked one is
      left alone, both without an error. A spec that is not the tracked configuration is an error and
      changes nothing. Otherwise a snapshot of the tracked pods is published. */
  ghost predicate Updates(s: P.State, k: Key, answers: Api, ok: bool, t: P.State) {
    if !answers.gets then !ok && SameRecords(s, t)
    else if k !in s.api then
      && ok && t.tracker.mvs == s.tracker.mvs - {k} && t.tracker.namespaces == s.tracker.namespaces
      && t.tracker.index == s.tracker.index && t.api == s.api && t.version == s.version
    else if k !in s.tracker.mvs then ok && SameRecords(s, t)
    else if s.tracker.mvs[k].config != s.api[k].revision.config then !ok && SameRecords(s, t)
    else exists st :: IsSnapshot(st, s.tracker.mvs[k]) && Publishes(s, k, answers, st, ok, t)
  }

  // What each way through doUpdateStatus does to the state of the transition system.

  function Failing(s: P.State): P.State
    requires s.worker.Got?
  {
    s.(worker := P.Failed(s.worker.key))
  }

  function Ending(s: P.State): P.State
    requires s.worker.Got?
  {
    s.(worker := P.Finishing(s.worker.key))
  }

  lemma GetFails(s: P.State)
    requires s.worker.Got?
    ensures P.Steps(s, [P.FetchFails], Failing(s))
  {
    P.OneStep(s, P.FetchFails);
  }

  lemma NotFound(s: P.State)
    requires s.worker.Got? && s.worker.key !in s.api
    ensures P.Steps(s, [P.Fetch, P.DropKey], Ending(s).(tracker := Apply(s.tracker, DropMissing(s.worker.key))))
  {
    P.TwoSteps(s, P.Fetch, P.DropKey);
  }

  lemma NotTracked(s: P.State)
    requires s.worker.Got? && s.worker.key in s.api && s.worker.key !in s.tracker.mvs
    ensures P.Steps(s, [P.Fetch, P.Snapshot(NO_STATUS)], Ending(P.Met(s)))
  {
    P.TwoSteps(s, P.Fetch, P.Snapshot(NO_STATUS));
  }

  lemma Concludes(s: P.State, st: Status)
    requires P.Readable(s, st)
    requires s.tracker.mvs[s.worker.key].config != s.api[s.worker.key].revision.config || StatusEqual(s.api[s.worker.key].status, st)
    ensures P.Steps(s, [P.Fetch, P.Snapshot(st)] + [P.Conclude],
                  if s.tracker.mvs[s.worker.key].config != s.api[s.worker.key].revision.config then Failing(P.Met(s)) else Ending(P.Met(s)))
  {
    P.ReadingSteps(s, st);
    var t := P.HasRead(s, st);
    P.OneStep(t, P.Conclude);
    P.StepsConcat(s, [P.Fetch, P.Snapshot(st)], t, [P.Conclude], P.Next(t, P.Conclude));
  }

  function Written(s: P.State, st: Status): P.State
    requires s.worker.Got? && s.worker.key in s.api
  {
    s.(api := s.api[s.worker.key := P.Object(s.version + 1, s.api[s.worker.key].revision, st)], version := s.version + 1)
  }

  lemma Writes(s: P.State, st: Status, api: Api)
    requires P.Readable(s, st) && (api.acknowledged ==> api.applied)
    requires s.tracker.mvs[s.worker.key].config == s.api[s.worker.key].revision.config && !StatusEqual(s.api[s.worker.key].status, st)
    ensures var w := if api.applied then Written(P.Met(s), st) else P.Met(s);
            P.Steps(s, [P.Fetch, P.Snapshot(st)] + [P.Write(api.applied, api.acknowledged)], if api.acknowledged then Ending(w) else Failing(w))
  {
    P.ReadingSteps(s, st);
    var t, write := P.HasRead(s, st), P.Write(api.applied, api.acknowledged);
    WriteEnds(s, st, api);
    P.StepsOneMore(s, [P.Fetch, P.Snapshot(st)], t, write);
  }

  lemma WriteEnds(s: P.State, st: Status, api: Api)
    requires P.Readable(s, st) && (api.acknowledged ==> api.applied)
    requires s.tracker.mvs[s.worker.key].config == s.api[s.worker.key].revision.config && !StatusEqual(s.api[s.worker.key].status, st)
    ensures var t, write, w := P.HasRead(s, st), P.Write(api.applied, api.acknowledged), if api.applied then Written(P.Met(s), st) else P.Met(s);
            P.Enabled(t, write) && P.Next(t, write) == if api.acknowledged then Ending(w) else Failing(w)
  {
  }

  function Idle(s: P.State, q: Queue, k: Key): P.State {
    s.(queue := q.(work := q.work.Done(k)), worker := P.Idle)
  }

  lemma Retries(s: P.State)
    requires s.worker.Failed?
    ensures P.Steps(s, [P.RetryKey, P.DoneKey], Idle(s, Retried(s.queue, s.worker.key), s.worker.key))
  {
    P.TwoSteps(s, P.RetryKey, P.DoneKey);
  }

  /** The queue after the worker is done with a key. */
  function Released(q: Queue, k: Key, ok: bool): Queue {
    var tried := if ok then q else Retried(q, k);
    tried.(work := tried.work.Done(k))
  }

  lemma UpdatesFrom(r: P.State, s: P.State, k: Key, answers: Api, ok: bool, t: P.State)
    requires SameRecords(r, s) && Updates(s, k, answers, ok, t)
    ensures Updates(r, k, answers, ok, t)
  {
    if answers.gets && k in s.api && k in s.tracker.mvs && s.tracker.mvs[k].config == s.api[k].revision.config {
      var st :| IsSnapshot(st, s.tracker.mvs[k]) && Publishes(s, k, answers, st, ok, t);
      assert Publishes(r, k, answers, st, ok, t);
    }
  }

  lemma UpdatesGoOn(s: P.State, k: Key, answers: Api, ok: bool, t: P.State, u: P.State)
    requires Updates(s, k, answers, ok, t) && SameRecords(t, u)
    ensures Updates(s, k, answers, ok, u)
  {
    if answers.gets && k in s.api && k in s.tracker.mvs && s.tracker.mvs[k].config == s.api[k].revision.config {
      var st :| IsSnapshot(st, s.tracker.mvs[k]) && Publishes(s, k, answers, st, ok, t);
      assert Publishes(s, k, answers, st, ok, u);
    }
  }

  /** The steps after an update. */
  function Releasing(ok: bool): seq<P.Action> {
    if ok then [P.DoneKey] else [P.RetryKey, P.DoneKey]
  }

  /** A success leaves no retries of its key, an error one more, unless the queue is stopped; other keys keep theirs. */
  lemma RememberedMeans(failures: multiset<Key>, k: Key, ok: bool, stopped: bool, j: Key)
    ensures Remembered(failures, k, ok, stopped)[j]
         == if j != k then failures[j] else if ok then 0 else if stopped then failures[k] else failures[k] + 1
  {
  }

  /** The turn took the first pending key and has put it back for a retry exactly after an error. */
  predicate Turned(q: Queue, r: Queue, k: Key, ok: bool) {
    && q.work.pending == [k] + r.work.pending
    && r.work.dirty == q.work.dirty - {k} && r.work.processing == q.work.processing - {k}
    && r.work.waiting == q.work.waiting + (if ok || q.stopped then {} else {k})
    && r == q.(work := r.work)
  }

  /** The retries remembered after an update of a key. */
  function Remembered(failures: multiset<Key>, k: Key, ok: bool, stopped: bool): multiset<Key> {
    if ok then failures[k := 0] else if stopped then failures else failures + multiset{k}
  }

  lemma ReleaseTurns(q: Queue, ok: bool)
    requires q.work.pending != []
    ensures var k := q.work.pending[0];
            Turned(q, Released(q.(work := q.work.Get()), k, ok), k, ok)
  {
    var k := q.work.pending[0];
    assert q.work.pending == [k] + q.work.pending[1..];
    assert (q.work.processing + {k}) - {k} == q.work.processing - {k};
    assert k !in q.work.dirty - {k};
    assert q.work.waiting + {} == q.work.waiting;
  }

  lemma QuickEnds(s: P.State, k: Key, answers: Api)
    requires s.worker == P.Got(k) && answers.gets
    ensures k !in s.api ==> Updates(s, k, answers, true, Ending(s).(tracker := Apply(s.tracker, DropMissing(k))))
    ensures k in s.api && k !in s.tracker.mvs ==> Updates(s, k, answers, true, Ending(P.Met(s)))
  {
  }

  lemma SkipPublishes(s: P.State, k: Key, answers: Api, st: Status)
    requires s.worker == P.Got(k) && k in s.api && StatusEqual(s.api[k].status, st)
    ensures Publishes(s, k, answers, st, true, Ending(P.Met(s)))
  {
  }

  /** The state after Status().Update. */
  function AfterUpdate(s: P.State, answers: Api, st: Status): P.State
    requires s.worker.Got? && s.worker.key in s.api
  {
    var w := if answers.applied then Written(P.Met(s), st) else P.Met(s);
    if answers.acknowledged then Ending(w) else Failing(w)
  }

  lemma WritePublishes(s: P.State, k: Key, answers: Api, st: Status)
    requires s.worker == P.Got(k) && k in s.api && !StatusEqual(s.api[k].status, st)
    ensures Publishes(s, k, answers, st, answers.acknowledged, AfterUpdate(s, answers, st))
  {
  }

  lemma NoAnswerUpdates(s: P.State, k: Key, answers: Api)
    requires s.worker == P.Got(k) && !answers.gets
    ensures Updates(s, k, answers, false, Failing(s))
  {
  }

  class StatusWorker {
    const tracker: StatusTracker
    var api: map<Key, P.Object>  // the API server's ModelValidations
    var version: nat

    constructor ()
      ensures tracker.Valid() && api == map[] && Shows(P.INITIAL)
    {
      api, version := map[], 0;
      tracker := new StatusTracker();
    }

    /** The objects hold what a state of the transition system says. */
    ghost predicate Shows(s: P.State)
      reads this, tracker, tracker.debouncedQueue
    {
      tracker.state == s.tracker && tracker.debouncedQueue.Value() == s.queue && api == s.api && version == s.version
    }

    /** The tracked pods as a value, read under the lock. */
    method ReadInfo(k: Key) returns (info: Info)
      requires tracker.Valid() && k in tracker.modelValidations
      ensures info == tracker.state.mvs[k]
    {
      var mvInfo := tracker.modelValidations[k];
      info := Info(Config(mvInfo.configHash, mvInfo.authMethod), mvInfo.observedGeneration,
                   mvInfo.injectedPods, mvInfo.uninjectedPods, mvInfo.orphanedPods);
      assert info == mvInfo.Value();
    }

    /** Every way through is a run of the transition system that ends with the worker about to call
        Done, or about to retry if an error is returned. */
    method DoUpdateStatus(k: Key, answers: Api, ghost s: P.State) returns (ok: bool, ghost actions: seq<P.Action>, ghost t: P.State)
      requires tracker.Valid() && Shows(s) && s.worker == P.Got(k)
      requires answers.acknowledged ==> answers.applied
      modifies this, tracker
      ensures tracker.Valid() && Shows(t) && P.Steps(s, actions, t) && Follows(actions, answers)
      ensures t.worker == (if ok then P.Finishing(k) else P.Failed(k)) && t.queue == s.queue
      ensures Updates(s, k, answers, ok, t)
    {
      if !answers.gets {
        GetFails(s);
        NoAnswerUpdates(s, k, answers);
        return false, [P.FetchFails], Failing(s);
      }
      QuickEnds(s, k, answers);
      if k !in api {
        NotFound(s);
        tracker.ForgetMissing(k);
        return true, [P.Fetch, P.DropKey], Ending(s).(tracker := Apply(s.tracker, DropMissing(k)));
      }
      if k !in tracker.modelValidations {
        NotTracked(s);
        return true, [P.Fetch, P.Snapshot(NO_STATUS)], Ending(P.Met(s));
      }
      ok, actions, t := PublishTracked(k, answers, s);
      QueueIsApart(tracker);
    }

    /** The rest of doUpdateStatus, once the object has been fetched and the key is tracked. */
    method PublishTracked(k: Key, answers: Api, ghost s: P.State) returns (ok: bool, ghost actions: seq<P.Action>, ghost t: P.State)
      requires tracker.Valid() && Shows(s) && s.worker == P.Got(k) && k in api && k in tracker.modelValidations
      requires answers.gets && (answers.acknowledged ==> answers.applied)
      modifies this
      ensures Shows(t) && P.Steps(s, actions, t) && Follows(actions, answers)
      ensures t.worker == (if ok then P.Finishing(k) else P.Failed(k)) && t.queue == s.queue
      ensures Updates(s, k, answers, ok, t)
    {
      var mv := api[k];
      var info := ReadInfo(k);
      var newStatus := BuildStatus(info);
      if info.config.hash != mv.revision.config.hash || info.config.authMethod != mv.revision.config.authMethod {
        Concludes(s, newStatus);
        ReadingFollows(newStatus, P.Conclude, answers);
        return false, [P.Fetch, P.Snapshot(newStatus)] + [P.Conclude], Failing(P.Met(s));
      }
      ok, actions, t := PublishChanged(k, newStatus, answers, s);
    }

    /** The skip test and the write. */
    method PublishChanged(k: Key, newStatus: Status, answers: Api, ghost s: P.State)
      returns (ok: bool, ghost actions: seq<P.Action>, ghost t: P.State)
      requires Shows(s) && s.worker == P.Got(k) && k in api && P.Readable(s, newStatus)
      requires s.tracker.mvs[k].config == api[k].revision.config && answers.gets && (answers.acknowledged ==> answers.applied)
      modifies this
      ensures Shows(t) && P.Steps(s, actions, t) && Follows(actions, answers)
      ensures t.worker == (if ok then P.Finishing(k) else P.Failed(k)) && t.queue == s.queue
      ensures Publishes(s, k, answers, newStatus, ok, t)
    {
      if StatusEqual(api[k].status, newStatus) {
        Concludes(s, newStatus);
        SkipPublishes(s, k, answers, newStatus);
        ReadingFollows(newStatus, P.Conclude, answers);
        return true, [P.Fetch, P.Snapshot(newStatus)] + [P.Conclude], Ending(P.Met(s));
      }
      Writes(s, newStatus, answers);
      WritePublishes(s, k, answers, newStatus);
      ReadingFollows(newStatus, P.Write(answers.applied, answers.acknowledged), answers);
      actions := [P.Fetch, P.Snapshot(newStatus)] + [P.Write(answers.applied, answers.acknowledged)];
      ghost var _ := UpdateStatus(k, newStatus, answers, P.Met(s));
      ok := answers.acknowledged;
      t := AfterUpdate(s, answers, newStatus);
    }

    /** Status().Update. */
    method UpdateStatus(k: Key, st: Status, answers: Api, ghost s: P.State) returns (ghost t: P.State)
      requires Shows(s) && s.worker == P.Got(k) && k in api
      modifies this
      ensures t == (if answers.applied then Written(s, st) else s) && Shows(t)
      ensures t.worker == P.Got(k) && t.queue == s.queue && t.tracker == s.tracker
    {
      t := if answers.applied then Written(s, st) else s;
      if answers.applied {
        api := api[k := P.Object(version + 1, api[k].revision, st)];
        version := version + 1;
      }
    }

    /** One turn of the worker, from idle to idle: Get, the update, a retry if it failed, and Done. A
        success forgets the retries of the key. An empty queue that shuts down ends the turn at once. */
    method ProcessNextUpdate(answers: Api, ghost s: P.State) returns (ghost update: seq<P.Action>, ok: bool, ghost t: P.State)
      requires tracker.Valid() && Shows(s) && s.worker.Idle?
      requires s.queue.work.pending != [] || s.queue.work.shuttingDown
      requires answers.acknowledged ==> answers.applied
      modifies this, tracker, tracker.debouncedQueue, tracker.debouncedQueue.rateLimiter
      ensures tracker.Valid() && Shows(t) && t.worker.Idle?
      ensures s.queue.work.pending != [] ==> P.Steps(s, [P.GetKey] + update + Releasing(ok), t) && Follows(update, answers)
      ensures s.queue.work.pending != [] ==>
                Updates(s, s.queue.work.pending[0], answers, ok, t) && Turned(s.queue, t.queue, s.queue.work.pending[0], ok)
      ensures s.queue.work.pending == [] ==> t == s
      ensures tracker.debouncedQueue.rateLimiter.failures
           == if s.queue.work.pending == [] then old(tracker.debouncedQueue.rateLimiter.failures)
              else Remembered(old(tracker.debouncedQueue.rateLimiter.failures), s.queue.work.pending[0], ok, s.queue.stopped)
    {
      var mvKey, shutdown, got := Take(s);
      assert tracker.Valid() == old(tracker.Valid());
      if shutdown {
        return [], true, s;
      }
      update, ok, t := UpdateKey(mvKey, answers, got);
      ReleaseTurns(s.queue, ok);
      UpdatesFrom(s, got, mvKey, answers, ok, t);
      P.StepsConcat(s, [P.GetKey], got, update + Releasing(ok), t);
      assert [P.GetKey] + (update + Releasing(ok)) == [P.GetKey] + update + Releasing(ok);
    }

    /** A turn after Get has handed out a key. */
    method UpdateKey(k: Key, answers: Api, ghost s: P.State) returns (ghost update: seq<P.Action>, ok: bool, ghost t: P.State)
      requires tracker.Valid() && Shows(s) && s.worker == P.Got(k)
      requires answers.acknowledged ==> answers.applied
      modifies this, tracker, tracker.debouncedQueue, tracker.debouncedQueue.rateLimiter
      ensures tracker.Valid() && Shows(t) && t.worker.Idle?
      ensures P.Steps(s, update + Releasing(ok), t) && Follows(update, answers)
      ensures Updates(s, k, answers, ok, t) && t.queue == Released(s.queue, k, ok)
      ensures tracker.debouncedQueue.rateLimiter.failures
           == Remembered(old(tracker.debouncedQueue.rateLimiter.failures), k, ok, s.queue.stopped)
    {
      ghost var updated;
      ok, update, updated := DoUpdateStatus(k, answers, s);
      label Updated:
      t := Release(k, ok, updated);
      QueueIsApart@Updated(tracker);
      UpdatesGoOn(s, k, answers, ok, updated, t);
      P.StepsConcat(s, update, updated, Releasing(ok), t);
    }

    method Take(ghost s: P.State) returns (k: Key, shutdown: bool, ghost got: P.State)
      requires Shows(s) && s.worker.Idle? && (s.queue.work.pending != [] || s.queue.work.shuttingDown)
      modifies tracker.debouncedQueue
      ensures shutdown <==> s.queue.work.pending == []
      ensures if shutdown then Shows(s) else
                && Shows(got) && P.Steps(s, [P.GetKey], got)
                && got.worker == P.Got(k) && k == s.queue.work.pending[0] && SameRecords(s, got)
                && got.queue == s.queue.(work := s.queue.work.Get())
    {
      k, shutdown := tracker.debouncedQueue.Get();
      got := s;
      if !shutdown {
        got := P.Next(s, P.GetKey);
        P.OneStep(s, P.GetKey);
      }
    }

    /** The end of processNextUpdate: AddWithRetry after an error, else ForgetRetries, and the deferred Done. */
    method Release(k: Key, ok: bool, ghost s: P.State) returns (ghost t: P.State)
      requires Shows(s) && s.worker == if ok then P.Finishing(k) else P.Failed(k)
      modifies tracker.debouncedQueue, tracker.debouncedQueue.rateLimiter
      ensures Shows(t) && P.Steps(s, Releasing(ok), t) && t.worker.Idle?
      ensures SameRecords(s, t) && t.queue == Released(s.queue, k, ok)
      ensures tracker.debouncedQueue.rateLimiter.failures
           == Remembered(old(tracker.debouncedQueue.rateLimiter.failures), k, ok, s.queue.stopped)
    {
      if ok {
        P.OneStep(s, P.DoneKey);
        t := Idle(s, s.queue, k);
        tracker.debouncedQueue.ForgetRetries(k);
      } else {
        Retries(s);
        t := Idle(s, Retried(s.queue, k), k);
        tracker.debouncedQueue.AddWithRetry(k);
      }
      tracker.debouncedQueue.Done(k);
    }
  }

  /** The tracked state does not depend on the queue. */
  twostate lemma QueueIsApart(tracker: StatusTracker)
    requires unchanged(tracker) && unchanged(tracker.podMapping) && unchanged(old(tracker.modelValidations.Values))
    ensures tracker.Valid() == old(tracker.Valid())
  {
  }
}
