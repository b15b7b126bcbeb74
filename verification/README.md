# Model validation operator: a verified model

The operator injects a validation agent into labelled pods and publishes, for each ModelValidation, which
pods were injected, which were not, and which were injected under another configuration (orphaned). This
project models that in Dafny and proves what each part promises. `dafny verify dfyconfig.toml` checks it all.

The code that changes state in place is modelled by classes and methods, each proved against a function of
the old state. The theorems are about these functions and about runs of them. What a function comes to is also
stated without it: in terms of pods, labels, annotations, arguments or counts.

| files | what they model |
|---|---|
| `Types`, `ModelValidationTypes`, `Strings` | pods, specs, Go's string functions and `sort.Slice` |
| `ModelValidationInfo`, `PodFlow` | the three pod classes of one ModelValidation; transition counting |
| `PodMapping`, `TrackerIndex` | the name/UID index, against a scan of all pods |
| `DebouncedQueue`, `Barrier`, `EarlyReturn`, `Shutdown`, `DebounceTrace` | debounce timers before a work queue: lock sections, wait group, shutdown, timing |
| `TrackerState`, `StatusTracker` | the tracker's critical sections, as functions and as a class |
| `TrackerHistory`, `TrackerFlow` | what a tracker state says about the run that led to it |
| `Status`, `StatusWorker`, `Protocol` | building, comparing and publishing a status; the whole protocol as a transition system |
| `Passes`, `Completion` | complete passes over a key; what WaitForCompletion waits for |
| `Progress` | from where the protocol can settle, and where it cannot |
| `Recreation` | what deleting and recreating a ModelValidation does to its status and its tracking |
| `PodController`, `Convergence` | pod reconciling and seeding against the API server's pods |
| `EndToEnd`, `StatusLists`, `PublishedPod` | both systems together: published statuses, list by list, against the API server's pods |
| `ValidationArgs`, `Agent`, `Parse`, `RoundTrip` | printing, peeling and parsing the agent's arguments |
| `Telemetry`, `VolumeMounts`, `Annotations`, `PodWebhook` | the webhook: selection, mounts, annotation overrides, injection |

Findings that shape the theorems:

- Seeding does not look at the deletion timestamp. A pod that is being deleted and has already been reconciled
  becomes tracked again if a fresh seeding lists it. `Convergence.SeedKeepsExactIff` says exactly when a seed
  step keeps the tracked pods right, and `Convergence.DeletedPodIsSeeded` is the five-step run that shows it.
- An Add that lands between a timer's firing and the deletion of its entry re-arms the timer without a second
  `debounceWg.Add`. `Barrier.NeverNegativeIff`: the counter is safe from going negative, which panics, exactly
  when no such Add has happened. `EarlyReturn.EarlyReturnIff`: so is `WaitForUpdates` from returning with
  an Add still on its way. `Barrier.WindowAdd` is a run for both.
- ShutDown stops the timers of the map without paying for them in the wait group, so a wait that comes after it
  may never return. `Shutdown.WaitAfterShutDownIff` says exactly when; `Stop` waits before it shuts down.
- `WaitForCompletion` returns when the work queue holds no pending key, also while the worker still has one or a
  retry waits. `Completion.CompletionMeans` says what can be unpublished then, and `Completion.EarlyRun` is a run.
- `validationConfigToArgs` prefers the public key to the certificate and `GetAuthMethod` the other way round.
  They agree exactly when it is not the case that both are set and sigstore is not
  (`RoundTrip.MethodsAgreeIff`); the validation rule of the CRD excludes that case.
- A status can be stale with nothing in the operator about to replace it: after an object is deleted and
  created again, until the worker fetches the new object or `AddModelValidation` is called for it.
  `Protocol.StaleIffNew` says that this is the only way, and exactly when it happens; `Recreation.RecreatedRun` is
  a complete run that ends there.
- Retrying can go on for ever: `AddModelValidation` ignores a revision whose generation is the tracked one, and an
  object that is deleted and created again has its first generation again. With another configuration every pass
  over it fails (`Progress.RecreationSticks`, `Progress.StuckForGood`). Where configurations agree the protocol can
  always settle (`Progress.CanSettle`).
- Seeding may present an older state of a pod than the tracker has already seen, and overwrite it.
  `StatusLists.SeedKeepsCurrentIff` says exactly when a late seed step keeps the records right.
- Tracking can be lost: the not-found branch deletes the key without looking again, also when the object has
  been created and passed to `AddModelValidation` since the Get. `Recreation.TrackedIffNotDropped` says exactly
  which runs keep an existing object tracked, and `Recreation.LosingRun` is a complete run that does not.
- A UID removed by UID stays in the index, and a name reused before its old UID is untracked hides the old pod
  from removal by name (`TrackerIndex.ReusedNameIsMissed`). `TrackerIndex.RemoveByNameIsScanIff` says exactly in
  which states removal by name removes all pods of the name and nothing else.
- The skip test depends on the order in which the maps are read if two pods of a class share a name
  (`Statuses.OnePublishedFormIff`); pods of one ModelValidation live in one namespace, where names are unique
  at any moment.

Conventions: a Go map is a `map`, a pointer that may be nil an `Option`, an error a `Result` or a boolean
without its text. The lengths published as `int32` wrap around as Go's conversion does. Strings are sequences
of code points, on which Go's byte order agrees for valid UTF-8. Where Go ranges over a map the methods pick
the next key arbitrarily, so the results hold for every order. The work queue of client-go, `sort.Slice` and
the `flag` package are used by their documented contracts. `GetConfigHash` is left uninterpreted; only that its
value is not empty is used.

## Model

| member | source | states |
|---|---|---|
| ModelValidationInfos.ModelValidationInfo.GetPodState | internal/tracker/model_validation_info.go:52-63 | the class that holds the pod, if any |
| ModelValidationInfos.ModelValidationInfo.MovePodToState | internal/tracker/model_validation_info.go:66-75 | the pod leaves every class and enters one; a transition is recorded exactly when its class changes, never for a first sighting |
| ModelValidationInfos.ModelValidationInfo.AddInjectedPod | internal/tracker/model_validation_info.go:78-88 | with the finalizer a pod becomes orphaned if a non-empty stamp differs from the configuration, else injected; the partition is kept |
| TrackerHistory.StampsDecide | internal/tracker/model_validation_info.go:78-93 | the drift test in plain terms, over any run: a tracked pod is uninjected iff its last state lacks the finalizer, and injected iff it has it and each of its two stamps is empty or equal to that part of every configuration from the event on |
| TrackerHistory.UnstampedIsInjected | internal/tracker/model_validation_info.go:80-85 | with the finalizer and both annotations empty or absent a pod is injected, whatever configurations come |
| TrackerHistory.HashAloneDecides | internal/tracker/model_validation_info.go:80 | with a hash and no method, the hash alone decides between injected and orphaned |
| TrackerHistory.MethodAloneDecides | internal/tracker/model_validation_info.go:81 | with a method and no hash, the method alone does |
| ModelValidationInfos.ModelValidationInfo.AddUninjectedPod | internal/tracker/model_validation_info.go:91-93 | without the finalizer a pod becomes uninjected; the partition is kept |
| ModelValidationInfos.ModelValidationInfo.RemovePod | internal/tracker/model_validation_info.go:96-112 | stopping at the first class still removes the UID from all of them, and reports whether it was tracked |
| ModelValidationInfos.ModelValidationInfo.UpdateConfig | internal/tracker/model_validation_info.go:116-145 | early return and moving loop alike: exactly the injected pods that drift from the new configuration become orphaned, and exactly these are returned, each once |
| ModelValidationInfos.ModelValidationInfo.GetAllPods | internal/tracker/model_validation_info.go:148-161 | the list holds every tracked pod exactly once |
| ModelValidationInfos.ListsMeaning | internal/tracker/model_validation_info.go:148-161 | what listing a map once means: same size, same records, no UID twice |
| ModelValidationInfos.OrphanEachMeaning | internal/tracker/model_validation_info.go:124-142 | moving the collected pods one by one is the whole reconfiguration, whatever their order |
| ModelValidationInfos.TransitionCounter.RecordMultiple | internal/metrics/metrics.go:167-171 | n transitions under one label set |
| PodFlow.FlowIsConserved | internal/tracker/model_validation_info.go:66-145 | over any run each class has what entered it and moved in, less what moved out and was removed |
| PodFlow.RepeatIsSilent | internal/tracker/model_validation_info.go:66-75 | seeing an unchanged pod again changes nothing and records nothing |
| TrackerFlow.ProjectionIsExact | internal/tracker/status_tracker.go:310-568 | inside a run of the whole tracker a ModelValidation's pods are those its own events leave, and the counter grows under its labels by the transitions of exactly these events |
| TrackerFlow.ClassSizesFollowCounter | internal/metrics/metrics.go:132-171 | flow conservation against the real counter: class sizes equal first sightings plus counted transitions in, minus counted transitions out, minus removals |
| PodMappings.PodMapping.AddPod | internal/tracker/pod_mapping.go:23-29 | binds name and UID to each other; other entries stay, also the old UID of a reused name |
| PodMappings.AddBinds | internal/tracker/pod_mapping.go:23-29 | look-ups after it: the name gives the UID and the UID the name, every other look-up is as before |
| PodMappings.PodMapping.GetUIDByName | internal/tracker/pod_mapping.go:32-35 | the UID bound to a name, if any |
| PodMappings.PodMapping.RemovePodsByName | internal/tracker/pod_mapping.go:44-54 | forgets exactly the given names and the UIDs bound to them |
| PodMappings.RemoveNamesUnbinds | internal/tracker/pod_mapping.go:44-54 | look-ups after it: the names and the UIDs they were bound to give nothing, every other look-up is as before |
| PodMappings.RemoveEachMeaning | internal/tracker/pod_mapping.go:49-53 | removing names one after another, in any order and with repeats, is removing them together |
| DebouncedQueues.DebouncedQueue.Add | internal/tracker/debounced_queue.go:116-138 | resets the timer of an entry, or pays for a new one in the wait group; nothing after shutdown |
| DebouncedQueues.DebouncedQueue.FireTimer | internal/tracker/debounced_queue.go:126-127 | an armed timer of the map fires and starts its callback; its entry stays |
| DebouncedQueues.DebouncedQueue.FireLooseTimer | internal/tracker/debounced_queue.go:122-127 | so does one that was reset after it had fired and has lost its entry since |
| DebouncedQueues.DebouncedQueue.RetryElapses | internal/tracker/debounced_queue.go:153-159 | a delayed key enters the work queue, unless it is queued already or the queue shuts down |
| DebouncedQueues.DebouncedQueue.CallbackEnqueues | internal/tracker/debounced_queue.go:128-132 | a fired timer hands its key to the work queue unless shut down |
| DebouncedQueues.DebouncedQueue.CallbackDeletes | internal/tracker/debounced_queue.go:133-135 | deletes whatever entry the key has by then, so a re-armed timer goes on without one |
| DebouncedQueues.DebouncedQueue.CallbackReturns | internal/tracker/debounced_queue.go:127 | the deferred Done |
| DebouncedQueues.DebouncedQueue.AddWithRetry | internal/tracker/debounced_queue.go:153-159 | a delayed Add, nothing after shutdown |
| DebouncedQueues.DebouncedQueue.ShutDown | internal/tracker/debounced_queue.go:202-219 | drops all entries, refuses later Adds, and shuts the work queue down, so that no retry or callback enters it any more |
| Shutdown.ShutDownIsFinal | internal/tracker/debounced_queue.go:202-219 | over every continuation after ShutDown no key enters the work queue, by an Add, a timer or callback still under way, or a retry; no entry comes back, and what was owed stays owed |
| Shutdown.WaitAfterShutDownIff | internal/tracker/debounced_queue.go:206-209 | after every run, a wait after ShutDown can return iff no more timers were armed than Adds had landed in firing windows and the counter is not negative; without such Adds, iff no timer was armed |
| DebouncedQueues.DebouncedQueue.Get | internal/tracker/debounced_queue.go:141-143 | hands out the first pending key, and reports the shutdown only when none is left |
| DebouncedQueues.DebouncedQueue.ForgetRetries | internal/tracker/debounced_queue.go:162-164 | the rate limiter forgets the key and no other |
| DebouncedQueues.AddedOneMore | internal/tracker/debounced_queue.go:116-138 | adding keys one by one in one critical section is adding them all at once, in any order |
| Barrier.BarrierAccounting | internal/tracker/debounced_queue.go:116-138 | in every run before shutdown the wait group counts the Done calls to come less the Adds in firing windows; without those it counts entries plus callbacks past their critical section, and when it is zero every Add has reached the work queue |
| Barrier.NeverNegativeIff | internal/tracker/debounced_queue.go:122-137 | no schedule of timers and callbacks makes the wait group negative if and only if no Add landed in a firing window |
| Barrier.WindowAdd | internal/tracker/debounced_queue.go:122-137 | a run with such an Add: the counter is zero with an Add still owed, and can go negative (exact conditions: `NeverNegativeIff` and `EarlyReturn.EarlyReturnIff`) |
| EarlyReturn.EarlyReturnIff | internal/tracker/debounced_queue.go:176-179 | after any run before shutdown: no Add landed in a firing window if and only if no continuation without such an Add reaches a zero wait group with an Add still owed to the work queue |
| DebounceTrace.Replay | internal/tracker/debounced_queue.go:116-138 | for every timed sequence of Adds, a key is handed over exactly a delay after each Add that no later Add of the key follows within the delay, once each, and at no other time; all of it is a run of the queue's transition system with the same Adds and the same hand-overs, which ends with no entry and no Add left |
| DebounceTrace.HandedOverIff | internal/tracker/debounced_queue.go:122-137 | what is handed over at a moment, in times: the keys with an Add exactly the delay before and no Add less than the delay after that one, and each only once |
| DebounceTrace.AddStaysBetween | internal/tracker/debounced_queue.go:116-137 | the Add of the timed model is the Add of the transition system: a reset or a new armed entry, paid for once, never in a firing window |
| DebounceTrace.FiringStaysBetween | internal/tracker/debounced_queue.go:126-136 | and its firing removes the entry, its payment and what it owed |
| DebounceTrace.BurstEndsAtGap | internal/tracker/debounced_queue.go:122-124 | an Add is absorbed exactly when the next Add of its key comes within the delay |
| DebounceTrace.KeysAreIndependent | internal/tracker/debounced_queue.go:122-126 | in every trace a key is handed over exactly as if only its own Adds had happened |
| DebounceTrace.AtomicFiring | internal/tracker/debounced_queue.go:126-136 | the atomic firing of the timed model is four steps of the queue's transition system; the whole state after them |
| TrackerStates.ReachableIsValid | internal/tracker/model_validation_info.go:30-35 | in every reachable state the classes are disjoint, keyed by UID, and no injected pod drifts from the current configuration |
| TrackerStates.InstallsIff | internal/tracker/status_tracker.go:313-334 | AddModelValidation installs the configuration it is given iff the key is new, the generation differs, or it was the tracked one already |
| TrackerStates.AddingIsExact | internal/tracker/status_tracker.go:313-334 | it takes over the generation, keeps every pod tracked, and changes no other ModelValidation and not the index; a known generation changes nothing at all |
| TrackerStates.EventIsExact | internal/tracker/status_tracker.go:497-520 | a pod event acts exactly if the pod has a label and the ModelValidation of that name in its namespace is tracked: it records name, namespace, UID and stamps there, binds name and UID, queues that key, and changes nothing else |
| TrackerStates.SeedingIsExact | internal/tracker/status_tracker.go:449-464 | a seeded pod with a label does the same under the key that is seeded |
| TrackerStates.UntrackingIsExact | internal/tracker/status_tracker.go:352-380 | removal drops the key alone and forgets exactly the names of its pods and the UIDs bound to them |
| TrackerStates.DroppingIsExact | internal/tracker/status_tracker.go:170-173 | the not-found branch drops the key alone, and neither namespaces nor index change |
| TrackerStates.RemovalIsExact | internal/tracker/status_tracker.go:523-534 | removal by UID leaves the UID nowhere, changes no other pod, and queues exactly the ModelValidations that change |
| TrackerStates.NamedRemovalIsExact | internal/tracker/status_tracker.go:538-555 | removal by name does the same for the UID bound to the name, and nothing for an unknown name |
| StatusTrackers.StatusTracker.TrackModelValidation | internal/tracker/status_tracker.go:313-334 | starts tracking and counts the namespace, or installs a new generation and records the bulk transitions |
| StatusTrackers.StatusTracker.AddModelValidation | internal/tracker/status_tracker.go:310-349 | the same, then queues the key in every case; seeding starts exactly for a new key |
| StatusTrackers.StatusTracker.RemoveModelValidation | internal/tracker/status_tracker.go:352-380 | untracks the key, decrements or drops its namespace, and forgets the names of its pods |
| StatusTrackers.StatusTracker.ProcessPodEventCommon | internal/tracker/status_tracker.go:467-493 | indexes and classifies the pod, records the transition, queues the key |
| StatusTrackers.StatusTracker.ProcessPodEvent | internal/tracker/status_tracker.go:497-520 | the same under the labelled ModelValidation of the pod's namespace if it is tracked; otherwise nothing at all |
| StatusTrackers.StatusTracker.ProcessSeedPodEvent | internal/tracker/status_tracker.go:449-464 | the same under the seeded key if it is still tracked |
| StatusTrackers.StatusTracker.RemovePodFromTrackingMaps | internal/tracker/status_tracker.go:558-568 | removes the UID everywhere, in any order of the map, and returns exactly its holders |
| StatusTrackers.StatusTracker.RemovePodEvent | internal/tracker/status_tracker.go:523-534 | removes by UID, leaves the index, queues exactly the holders |
| StatusTrackers.StatusTracker.RemovePodByName | internal/tracker/status_tracker.go:538-555 | removes the UID that the index binds to the name, forgets the name, queues exactly the holders; nothing for an unknown name |
| StatusTrackers.StatusTracker.ForgetMissing | internal/tracker/status_tracker.go:170-173 | the not-found branch drops the key but not its namespace count |
| StatusTrackers.CollectPodsForCleanup | internal/tracker/status_tracker.go:95-105 | exactly the names of the given pods |
| TrackerHistory.ClassificationIsHistory | internal/tracker/status_tracker.go:310-333 | after any run a tracked pod is uninjected iff its last event lacked the finalizer, injected iff the event had it and its stamps match the configuration at the event and every one since, else orphaned |
| TrackerHistory.TrackedIsHistory | internal/tracker/status_tracker.go:467-568 | a pod is tracked under a key iff it has been seen under it and neither pod nor key was removed since |
| TrackerHistory.RevisionIsHistory | internal/tracker/status_tracker.go:313-334 | after any run the tracked configuration and generation are those of the last AddModelValidation that found the key untracked or brought a new generation; all later ones brought the same generation |
| TrackerHistory.NamespaceAccounting | internal/tracker/status_tracker.go:313-367 | a namespace counts its tracked keys plus those the not-found branch dropped, and is listed iff that sum is positive |
| TrackerHistory.CountIsTracked | internal/tracker/status_tracker.go:313-367 | without such a drop the count is the number of tracked keys |
| TrackerIndex.RegularRunsAreIndexed | internal/tracker/pod_mapping.go:23-69 | if names are reused only after their old UID is untracked, every tracked pod is found under its name and every entry has its inverse |
| TrackerIndex.RemoveByNameIsScanIff | internal/tracker/status_tracker.go:538-555 | in every valid state removal by name equals scanning all pods and deleting those of that name, iff the tracked pods of the name are exactly those of the UID the index binds to it |
| TrackerIndex.RemoveByNameIsScan | internal/tracker/status_tracker.go:538-555 | every such run ends in a state of that kind, for every name |
| TrackerIndex.ReusedNameIsMissed | internal/tracker/pod_mapping.go:23-29 | otherwise the old pod of a reused name stays tracked after removal by name |
| Statuses.CollectPodTrackingInfo | internal/tracker/status_tracker.go:81-92 | each pod of the map once, in any order |
| Statuses.BuildStatus | internal/tracker/status_tracker.go:181-245 | lists sorted by name that enumerate the three classes, the tracked auth method, and counts that are the lengths of the lists below 2^31 and wrap around above |
| Statuses.Int32Wraps | internal/tracker/status_tracker.go:237-239 | the conversion keeps the value modulo 2^32, stays in range, and is exact below 2^31 |
| Statuses.StatusEqualIff | internal/tracker/status_tracker.go:275-308 | the comparison covers everything a status says but its timestamps and conditions |
| Strings.LessIff | internal/tracker/status_tracker.go:199-207 | the order of names: the first difference decides, and a proper prefix comes first |
| Statuses.SkipTestIsExact | internal/tracker/status_tracker.go:296-307 | with distinct names two built statuses compare equal iff their auth methods and their three sets of name and UID are equal, whatever the map orders |
| Statuses.OnePublishedFormIff | internal/tracker/status_tracker.go:199-207 | a class has one sorted form iff no two of its pods share a name |
| Statuses.SnapshotShowsView | internal/tracker/status_tracker.go:186-207 | collecting and sorting loses and invents no pod |
| StatusWorkers.StatusWorker.DoUpdateStatus | internal/tracker/status_tracker.go:164-272 | for every answer of the API server, the objects change by a sequence of enabled protocol steps that those answers lead to, ending finished or failed as the result says; an unanswered Get and a spec that is not the tracked configuration are errors and change nothing, a missing object is dropped and an untracked one left alone without an error, and otherwise a snapshot is skipped or written to this object alone |
| StatusWorkers.StatusWorker.ProcessNextUpdate | internal/tracker/status_tracker.go:133-154 | one turn takes the first pending key, updates it, puts it back for a retry exactly after an error, and is done with it; a shutdown ends the turn without an effect |
| StatusWorkers.RememberedMeans | internal/tracker/status_tracker.go:143-153 | a success leaves no retries of the key, an error one more unless the queue is stopped; other keys keep theirs |
| Protocol.NoLostUpdate | internal/tracker/status_tracker.go:133-272 | in every interleaving before shutdown, a tracked ModelValidation whose view differs from its published status is about to be queued, has a timer or callback under way, is queued, waits for a retry, is held by the worker with nothing older than the current view, or has a new object that neither the worker has fetched nor AddModelValidation been called for |
| Protocol.StaleIffNew | internal/tracker/status_tracker.go:133-272 | the exact condition: in every run, the status of a tracked existing key of which nothing is under way is stale if and only if its object is new in that sense and there is something to show |
| Protocol.QuietMeansPublished | internal/tracker/status_tracker.go:133-272 | when nothing is under way at all, a tracked ModelValidation's status shows exactly its pods if and only if its object is not new or there is nothing to show |
| Protocol.RecreatedIsNotYetPending | internal/tracker/status_tracker.go:310-349 | how objects come to be new: recreating any tracked object of which nothing is under way leaves its status stale with nothing under way |
| Recreation.RecreatedRun | internal/tracker/status_tracker.go:133-272 | a complete run to such a state: published, deleted, created again |
| Progress.CanSettle | internal/tracker/status_tracker.go:133-272 | progress: from every reachable state in which every tracked key is tracked with the configuration of its object, some steps of calls, timers, retries and the worker alone lead to a state with nothing under way and all statuses as QuietMeansPublished says |
| Progress.StuckForGood | internal/tracker/status_tracker.go:321-322 | a key tracked with another configuration than its object has, but under its generation, stays so, and its status is never written, over every run without a change of the object or of its tracked generation |
| Progress.RecreationSticks | internal/tracker/status_tracker.go:321-322 | from any quiet state, recreating an object with another configuration and the tracked generation gets it there, AddModelValidation included |
| Recreation.TrackedIffNotDropped | internal/tracker/status_tracker.go:168-175 | in every run, an existing object that AddModelValidation has been called for since its creation is tracked iff, since the last such call, it was not removed and the not-found branch did not act on a Get older than that call |
| Recreation.LosingRun | internal/tracker/status_tracker.go:168-175 | a complete run in which it did, and an existing object ends untracked |
| Completion.CompletionMeans | internal/tracker/debounced_queue.go:183-199 | if the wait group was zero at some moment of a run without window Adds, and later, with no Add in between, no key is pending, then a stale key is in an AddModelValidation call, newly created, waiting for a retry, or the worker's; all items are processed iff the worker is idle, and nothing is under way iff moreover no call and no retry is left |
| Completion.EarlyRun | internal/tracker/debounced_queue.go:183-199 | a run in which WaitForCompletion returns with the only key fetched by the worker and nothing published |
| Protocol.UndisturbedPass | internal/tracker/status_tracker.go:164-272 | an undisturbed pass publishes the current view, or finds it published, unless the spec differs from the tracked configuration, when it writes nothing and fails |
| Protocol.WritesAreConsistent | internal/tracker/status_tracker.go:186-258 | every applied write publishes the tracked pods as they were at one moment of the run: counts are the lengths of the lists below 2^31, lists are in the order of names and disjoint, the object has at the write the very hash and auth method they were classified under, and every listed injected pod is a tracked record whose stamps pass the drift test against it |
| EndToEnd.StatusShowsLivePods | internal/controller/pod_controller.go:34-96 | in every orderly run of reconciler, seeding, tracker and status protocol together, once nothing is under way, a tracked and seeded ModelValidation's published status lists by name and UID exactly the live pods with its label |
| StatusLists.ListsAreExact | internal/tracker/status_tracker.go:186-245 | list by list, if seeding presents pods as they are: uninjected are exactly the live labelled pods without the finalizer, injected those with it whose stamps match every configuration since the tracker last saw them, orphaned the others |
| StatusLists.SeedKeepsCurrentIff | internal/tracker/status_tracker.go:428-464 | in a settled state a late seed step of a live pod keeps every record current iff it presents what the tracker reads of the pod as it is |
| PublishedPod.PublishingRun | internal/tracker/status_tracker.go:133-272 | for every live labelled pod a complete run that ends settled with exactly this pod in the API server and in the published status |
| PodControllers.PodReconciler.Reconcile | internal/controller/pod_controller.go:34-96 | per pod state and API answer, with updates accepted, refused, or applied behind an error: which tracker operation, which update, which error; a deleted pod is untracked before its update, an unlabelled one after |
| PodControllers.FinalizerIsReleased | internal/controller/pod_controller.go:63-83 | once its update is applied, a pod that is being deleted or has no label no longer has our finalizer; its other finalizers keep their multiplicity, and nothing else of it or of any other pod changes |
| PodControllers.OthersAreNotUpdated | internal/controller/pod_controller.go:34-96 | no other reconcile changes any pod |
| PodControllers.ReconcileFailsIff | internal/controller/pod_controller.go:43-53 | an error exactly if the Get is not answered, or a pod to be let go of has our finalizer and its update is not accepted |
| PodControllers.ReconcileTells | internal/controller/pod_controller.go:42-95 | which operation the tracker performs for an absent, deleting, unlabelled or labelled pod |
| Convergence.SettledPodsAreReleased | internal/controller/pod_controller.go:55-83 | in every run, once every pod's latest state is reconciled, no pod that is being deleted or has no label still holds our finalizer |
| PodControllers.OnlyOursIsRemoved | internal/controller/pod_controller.go:63-64 | the finalizer is gone and every other one stays as often as it was there |
| PodControllers.OthersKeepOrder | internal/controller/pod_controller.go:63-64 | and the others keep their order |
| Convergence.TrackedPodsConverge | internal/controller/pod_controller.go:42-95 | in every orderly run, once every pod's latest state is reconciled, the pods tracked under a tracked and seeded ModelValidation are exactly the existing, non-deleting pods with its label |
| Convergence.SeedKeepsExactIff | internal/tracker/status_tracker.go:428-464 | in a settled state a late seed step keeps that equality iff the pod it presents is alive at that moment |
| Convergence.DeletedPodIsSeeded | internal/tracker/status_tracker.go:403-464 | a run in which seeding tracks a pod that is being deleted and has been reconciled |
| Parse.ParseArg | internal/validation/parse.go:36-100 | one turn of the loop reads the item that the next argument starts, rejects a flag without its value, and takes any other argument only in last place |
| Parse.ParseArgs | internal/validation/parse.go:12-108 | terminates with the fold of the items read, or an error |
| Parse.GrammarIsAccepted | internal/validation/parse.go:12-108 | `verify`, a known method, items, and a path that is neither empty nor a flag are accepted, mean the left-to-right fold of the items, and are read in one way only |
| Parse.AcceptedIsGrammar | internal/validation/parse.go:33-107 | nothing else is accepted, and the model path is the last argument, not the value of a flag |
| Parse.AcceptedStarts | internal/validation/parse.go:13-31 | what is accepted starts with `verify` and one of the three methods, which becomes the verifier |
| Parse.FlagBySpelling | internal/validation/parse.go:42-77 | which field each flag sets, by its spelling, for every value and path |
| Parse.SignatureBySpelling | internal/validation/parse.go:39-41 | the same for `--signature=` |
| Parse.SwitchBySpelling | internal/validation/parse.go:78-92 | which option each switch sets, and to what |
| Parse.LastScalarWins | internal/validation/parse.go:39-77 | of repeated flags, `--signature=` included, the last value counts, and ignore paths accumulate in order |
| Parse.LastSwitchWins | internal/validation/parse.go:78-92 | of opposite switches the last counts, and without one the option stays unset |
| ValidationArgs.ValidationConfigToArgs | internal/webhooks/pod_webhook.go:374-429 | prints the method and the items of the configuration, or nothing without a method |
| ValidationArgs.PrintedLine | internal/webhooks/pod_webhook.go:374-429 | the printed line token by token: method with its values, trust configuration, ignore paths in order, switches |
| RoundTrip.PrintedParses | internal/webhooks/pod_webhook.go:125-127 | for every configuration and model, the printed line parses iff there is a method and the path is not empty and not a flag, and then to the intended values field by field, even if other values look like flags |
| RoundTrip.InjectedArgsRoundTrip | internal/webhooks/pod_webhook.go:212-224 | for every admissible ModelValidation the arguments of the init container, native sidecar and legacy sidecar come out of the agent's flag parser as that line, with the method GetAuthMethod names |
| RoundTrip.AdmittedPodsVerifyAsIntended | internal/webhooks/pod_webhook.go:123-173 | end to end from an admission: every container it adds makes the agent verify the model and method of the ModelValidation, each switch as the pod's annotation spells it or else as the ModelValidation has it; the init container runs once unless it is a native sidecar, the legacy sidecar skips the first run, and the interval is the one set or five minutes |
| RoundTrip.AgentReadsEntries | internal/webhooks/pod_webhook.go:451-466 | the ignore paths it reads are those the entries of the annotation say |
| RoundTrip.MethodsAgreeIff | api/v1alpha1/modelvalidation_types.go:236-245 | the printed method and GetAuthMethod agree iff pki and public key are not both set without sigstore |
| RoundTrip.BadIntervalStops | cmd/validation-agent/main.go:38-42 | an interval that does not parse stops the agent before it reads the line |
| Agent.PeelInterval | cmd/validation-agent/main.go:38-42 | the flag parser takes `--interval=` off the front, whatever the value contains, if it is a duration |
| Agent.PeelForms | cmd/validation-agent/main.go:38-42 | a setting is read alike with one dash or two and with its value behind an equals sign or next, if the value is in order |
| Agent.UnknownStops | cmd/validation-agent/main.go:38-42 | any other flag stops the agent |
| Annotations.MergeModelWithAnnotations | internal/webhooks/pod_webhook.go:448-483 | annotations that are present and parse replace the settings, the paths to model and signature stay |
| Annotations.SwitchesAreSaid | internal/webhooks/pod_webhook.go:434-480 | each of the three switches follows its own annotation: true or false as that spells apart from white space, the setting of the ModelValidation if it is absent or spells neither |
| Annotations.EntriesAreRead | internal/webhooks/pod_webhook.go:451-466 | comma-separated entries with white space around them give their paths in order, blanks are skipped, and only blanks leave the list as it is |
| Annotations.NoListStays | internal/webhooks/pod_webhook.go:451 | so does a missing annotation |
| Annotations.TrimSpaceIs | internal/webhooks/pod_webhook.go:456 | trimming takes off exactly the white space at both ends |
| Annotations.AnnotationGivesList | internal/webhooks/pod_webhook.go:451-462 | every non-empty list of trimmed paths without commas is given exactly by joining it with commas |
| Annotations.AnnotationGivesOnlyLists | internal/webhooks/pod_webhook.go:453-465 | and no other list can be given: otherwise the setting stays |
| Telemetry.FindMatchingTelemetryConfig | internal/webhooks/telemetry.go:34-121 | an error if the List fails; nothing if no enabled configuration matches, else a match that no other match precedes |
| Telemetry.WinnerMatches | internal/webhooks/telemetry.go:60-95 | the result is enabled and each of its selectors, if it has one, is valid and matches; nothing results exactly if no configuration is like that |
| Telemetry.PreferredIsTotal | internal/webhooks/telemetry.go:99-112 | on distinct names and namespaces without slashes the comparator is total and asymmetric |
| Telemetry.PreferredIsTransitive | internal/webhooks/telemetry.go:99-112 | and transitive |
| Telemetry.WinnerIgnoresOrder | internal/webhooks/telemetry.go:99-120 | every order of the list has the same result |
| Telemetry.WinnerIsBest | internal/webhooks/telemetry.go:88-130 | the winner has the most selector terms, labels and expressions of both selectors together, then the target namespace, then the least `namespace/name` |
| VolumeMounts.CollectNeededPaths | internal/webhooks/pod_webhook.go:486-501 | exactly the model path and the non-empty paths of signature, authority, key and trust configuration |
| VolumeMounts.FilterVolumeMounts | internal/webhooks/pod_webhook.go:506-529 | the nested loops with their seen map give the declarative filter over all mounts |
| VolumeMounts.AllMountsAre | internal/webhooks/pod_webhook.go:509-510 | the mounts it goes through are exactly those of the containers |
| VolumeMounts.AllMountsConcat | internal/webhooks/pod_webhook.go:509-510 | container by container, in order |
| VolumeMounts.CoversIff | internal/webhooks/pod_webhook.go:514-519 | a mount covers its own path and what lies under it |
| VolumeMounts.FilteredIsExact | internal/webhooks/pod_webhook.go:509-526 | a path is kept iff some container mounts it, it is not the root, and it covers a needed path |
| VolumeMounts.FilteredIsDistinct | internal/webhooks/pod_webhook.go:511-522 | no path is kept twice and all mounts are read-only |
| VolumeMounts.KeptIsFirst | internal/webhooks/pod_webhook.go:511-522 | each kept mount is the first one at its path |
| VolumeMounts.FilteredKeepsOrder | internal/webhooks/pod_webhook.go:509-521 | mounts are kept in the order of the containers |
| VolumeMounts.FilteringIsMonotone | internal/webhooks/pod_webhook.go:518-524 | needing more never loses a path |
| VolumeMounts.CoveringIsComponentPrefix | internal/webhooks/pod_webhook.go:514-519 | on normalized absolute paths covering is being a prefix by components, so `/a` does not cover `/ab` |
| PodWebhooks.PodInterceptor.BuildMounts | internal/webhooks/pod_webhook.go:144-163 | the filtered mounts of the submitted containers, and the cache volume exactly with sigstore |
| PodWebhooks.PatchMounts | internal/webhooks/pod_webhook.go:144-166 | the injected containers get mounts of the pod and, exactly with sigstore, the cache at `/.sigstore` |
| PodWebhooks.MountedIff | internal/webhooks/pod_webhook.go:144-145 | a mount path of the submitted containers is among them iff it is not the root and is or contains the model or a configured file that is not empty |
| PodWebhooks.MountsAreFirst | internal/webhooks/pod_webhook.go:509-526 | each path once, read-only, from the first container mount at it |
| PodWebhooks.PodInterceptor.BuildValidationContainer | internal/webhooks/pod_webhook.go:193-283 | name, arguments and mounts of the init container, and the continuous mark on the pod in either sidecar mode |
| PodWebhooks.PodInterceptor.BuildLegacySidecarContainer | internal/webhooks/pod_webhook.go:290-358 | name, arguments and mounts of the legacy sidecar |
| PodWebhooks.PodInterceptor.Inject | internal/webhooks/pod_webhook.go:123-173 | the whole patched pod |
| PodWebhooks.PatchAnnotates | internal/webhooks/pod_webhook.go:132-137 | each annotation after it: time, method and hash are written, the continuous mark exactly if continuous validation is enabled, every other one is as before |
| PodWebhooks.PatchAppends | internal/webhooks/pod_webhook.go:129-173 | the finalizer once, the cache volume exactly with sigstore, one init container, and a sidecar with the same mounts exactly for continuous validation without native sidecars; all behind what was there |
| PodWebhooks.PodInterceptor.Handle | internal/webhooks/pod_webhook.go:70-191 | the answer to a request, with the patched pod |
| PodWebhooks.AnswerIff | internal/webhooks/pod_webhook.go:80-121 | exactly when a request is refused, let through or patched, by whether the pod decodes, its namespace exists and is not ignored, it has a label, the ModelValidation of that name exists in its namespace, and one of the two containers is there already; a patch is the injection for that ModelValidation |
| PodWebhooks.InjectedAtMostOnce | internal/webhooks/pod_webhook.go:109-121 | over any admissions whose edits keep the injected containers the pod is patched at most once, and never if it came with them |
| PodWebhooks.InjectionKeepsPod | internal/webhooks/pod_webhook.go:129-173 | submitted containers, volumes and finalizers stay in front, labels and identity stay |
| PodWebhooks.InjectionKeepsAnnotations | internal/webhooks/pod_webhook.go:132-137 | no annotation but the operator's own four changes |
| PodWebhooks.OriginalStaysInFront | internal/webhooks/pod_webhook.go:129-173 | so over any admissions the original containers and volumes stay prefixes if the edits keep them |
| PodWebhooks.StampsMatchIff | internal/webhooks/pod_webhook.go:135-137 | a pod with its stamps intact drifts from a configuration iff it is not the one of its ModelValidation at admission |
| PodWebhooks.InjectionMeetsTracking | internal/webhooks/pod_webhook.go:131-137 | after any tracker run such a pod is injected iff every configuration from its last event on is the one at admission, else orphaned |

## Left out

- Protocol.NoLostUpdate: stated before shutdown. The case of a new object cannot go (`Protocol.StaleIffNew`). It speaks of tracked keys; `Recreation.TrackedIffNotDropped` says which those are.
- Progress.CanSettle: that some schedule settles; fairness of timers, of the worker and of the API server is not modelled.
- StatusLists.ListsAreExact: for runs in which no seed step presents an older state of a pod once its latest has been reconciled; `StatusLists.SeedKeepsCurrentIff` shows that this is exact.
- Completion.CompletionMeans: WaitForCompletion's ticker and its return at shutdown are not modelled; the wait group and the length of the queue are looked at in two moments of a run.
- Convergence.TrackedPodsConverge: for runs in which labels are fixed per UID, a name is reused only after its old UID is untracked, and a seed step presents a pod only while a reconcile of its name is due or the pod is alive; `Convergence.SeedKeepsExactIff` shows the last condition is exact.
- DebounceTrace.Replay: takes each timer callback as atomic, so its hand-overs come exactly at their deadlines; `Barrier` has every interleaving of the steps in between.
- StatusWorkers.StatusWorker.DoUpdateStatus: the worker alone; interleavings with other actors are the transition system's.
- Parse.ParseArgs: error texts are not modelled.
- PodWebhooks.PodInterceptor.Handle: the marshalling of the patched pod, its error, and the JSON patch are not modelled.
- PodWebhooks.PodInterceptor.Inject: the containers of the patched pod are modelled by name, arguments and mounts.
- PodWebhooks.PodInterceptor.BuildValidationContainer: image, pull policy, environment, probes, resources, restart policy and security context are constant or copied data and not modelled.
- PodWebhooks.PodInterceptor.BuildLegacySidecarContainer: the same.
- PodWebhooks.InjectionMeetsTracking: the configuration hash is an uninterpreted non-empty string. Nothing is said about different specs having different hashes.
- The loop that seeds pod by pod appears as its single steps (`ListPods` and `SeedListed` in `Convergence`), since other critical sections come between them.
- The status protocol after ShutDown; `Shutdown` has the runs of the queue that go on after it.
- Backoff and rate limits of retries: a retry is an Add that comes at some later moment, and of the rate limiter only the number of retries is kept.
- Timestamps (`LastUpdated`, `InjectedAt`), status conditions, and the gauges and histograms of the metrics.
- GetNameByUID, RemovePodByUID, GetAllPodNames and Clear of the pod mapping, which the tracker does not use.
- The ModelValidation controller: it calls AddModelValidation or RemoveModelValidation, which the transition system lets happen at any time with any spec.
- The cryptographic verifiers and the SHA-256 in GetConfigHash, which are library calls.
- Label selector semantics: whether a selector is valid and matches is a parameter of the telemetry query.
- telemetryEnvVars, the agent's readiness flag and loop, version detection, servers, TLS and manager wiring.
