# Verification of the agent's monitoring core

A Dafny project that models the stateful parts of the monitoring agent and of the hub's alerts on
network monitors, and proves what each of them promises. `dafny verify dfyconfig.toml` checks it.

| file | what it is about |
|---|---|
| MonitorHistory.dfy | the sample history behind a monitor: a pruned raw list and a ring of 61 minute aggregates, against the unbounded log |
| ResumeGuard.dfy | the clock guard whose generation tells that the host was suspended |
| MonitorTask.dfy | the single-flight probe protocol along a chain of tasks that replace one another |
| CertSlot.dfy | the certificate slot of a task |
| MonitorManager.dfy | sync requests against the map of tasks |
| MonitorCache.dfy | the hub's cache of enabled monitors and the protocol that keeps it from going stale |
| MonitorAlerts.dfy | alerts on network monitors: the fast path that predicts transitions, and the evaluator with its rollback |
| AlertPrediction.dfy | when the prediction is exact, the handler of a payload, and both over runs of the cache |
| AlertBookkeeping.dfy | alerts, their incident history and the messages over any sequence of operations |
| ConnectionManager.dfy | the event loop that switches between WebSocket and SSH |
| GpuAverages.dfy | averages of one accumulator for several readers |
| JsonFraming.dfy | splitting a byte stream into JSON objects |
| ContainerTemplate.dfy, ContainerNames.dfy | the container name template, and which containers may use their label names |
| PortMap.dfy, ListenPorts.dfy | published ports as ranges, listening ports as text |
| PidCache.dfy | the cache of container process ids |
| Wrappers.dfy | absent values |

Three forms recur. Code that updates an object in place is a class whose methods are proved against
a specification function; what the code promises is proved about that function. Concurrent code is a
state machine on values whose steps are the locked sections, channel operations and shared reads of
the program, and its objects' methods are proved against those steps; an `Execution` is any sequence
of enabled steps, so a statement about all executions covers every interleaving. Where there is a
simple thing the code must agree with (the log of all samples, a reader's own list, a map from ID to
configuration, a grammar and its printer), that thing is defined on its own and an all-inputs lemma
connects the two.

## Findings

* The fast path that predicts alert transitions is exact if and only if every alert's owner has access
  to the system, every alert's state decodes and, if there is a certificate alert, every stored
  certificate with an expiry decodes (`FastPathExactIff`, over all states of incidents and history that
  the bookkeeping allows). Otherwise it may call for an evaluation that changes nothing, but it never
  misses a transition (`NoTransitionMissed`). The three causes: the cache of enabled monitors takes the
  expiry that a failed JSON decoding leaves behind, although its comment says that malformed info leaves
  the expiry unknown (deploy/beszel-fork/internal/alerts/network_monitor_cache.go:98-100), while the
  evaluator skips such a certificate, so an alert whose threshold it passes is predicted from then on
  (`UndecodedCertMispredicts`, `UndecodedCertStaysPredicted`); the evaluator skips alerts of users without
  access, and with them incidents of monitors removed since the access was lost; and it gives up on a
  state that does not decode, which the prediction counts as a transition (`UnevaluatedMispredicts`).
* A history answers a query like the unbounded log if and only if its layer has lost no sample of the
  window (`QueryExactIff`, on any log). That is so while no sample is later than the clock reading that
  the report was asked with and timestamps do not decrease (`ReportExactInOrder`). `GetResults` reads the
  clock before it takes the history's lock (deploy/beszel-fork/agent/network_monitor.go:177-187), so a
  probe may record a sample of the next minute in between, and the hour aggregate then lacks its first
  minute (`LateSampleLosesMinute`). `QueryExactIffReaches` says exactly how much later a sample may be.
* Ranges of published ports are not always as long as they could be when one host port is published
  twice: `MaximalIffNotCrowded` gives the exact condition and `CrowdedExample` published ports that
  meet it.
* The listening text drops ports exactly when there are more than twenty entries
  (`ListenTextReadsBack`), as for 21 ports of which no two are consecutive (`TooManyPorts`).
* The resume guard's comparison of generations is blind after exactly 2^32 jumps:
  `WrapHidesJumps`; below that it is exact.

## Model

| member | source | states |
|---|---|---|
| `MonitorHistory.QueryExactIff` | deploy/beszel-fork/agent/network_monitor_history.go:210-274 | On any log at all, also one whose clock went back, a query on the pruned list or the ring gives the same sum, minimum, maximum, total and success count as the same window over the unbounded log if and only if no sample of the window was dropped from the list, or followed in the ring by one of another minute in the same slot |
| `MonitorHistory.QueryExactIffReaches` | deploy/beszel-fork/agent/network_monitor_history.go:210-274 | On ordered logs whose newest sample is at most `newest`, a query agrees with the same window over the unbounded log if and only if the layer that serves it reaches: 61 seconds back from `newest` for the raw list, 61 minutes for the ring |
| `MonitorHistory.QueryExact` | deploy/beszel-fork/agent/network_monitor_history.go:210-274 | Every such query, whether the pruned list or the ring answers it, gives the same sum, minimum, maximum, total and success count as the same window over the unbounded log |
| `MonitorHistory.HourReaches` | deploy/beszel-fork/agent/network_monitor_history.go:210-217 | A query of up to an hour reaches whenever the newest sample is no later than its clock reading |
| `MonitorHistory.LateSampleLosesMinute` | deploy/beszel-fork/agent/network_monitor.go:177-187 | For every clock reading there is a log whose second sample came in the minute after it, before the history was locked, and whose hour aggregate then misses the first minute |
| `MonitorHistory.RingExactIff` | deploy/beszel-fork/agent/network_monitor_history.go:231-274 | On any log, ordered or not, the ring answers a window like the log if and only if no sample of the window is followed by one of another minute in the same slot |
| `MonitorHistory.RingMeaning` | deploy/beszel-fork/agent/network_monitor_history.go:231-274 | After any log, merging the slots of a window in slot order is the aggregate of the samples of the window that no later sample of another minute in the same slot has discarded |
| `MonitorHistory.RingQueryExact` | deploy/beszel-fork/agent/network_monitor_history.go:231-243 | While no sample is more than 60 minutes after the first minute of the window, a ring query counts every sample of the window exactly once and nothing else, although slots are merged in slot order and not in time order |
| `MonitorHistory.RingSpanIsExact` | deploy/beszel-fork/agent/network_monitor_history.go:231-274 | The ring answers a window right on every ordered log up to a newest minute if and only if that minute is at most 60 after the first of the window, however long the window is |
| `MonitorHistory.OverwrittenMinute` | deploy/beszel-fork/agent/network_monitor_history.go:246-274 | For every window, a log of two samples 61 minutes apart that the ring gets wrong because the first minute's slot was reused |
| `MonitorHistory.WindowCoverage` | deploy/beszel-fork/agent/network_monitor_history.go:231-243 | The minute window holds every sample of the duration and none older than the duration and a minute |
| `MonitorHistory.RawRetentionExact` | deploy/beszel-fork/agent/network_monitor_history.go:246-263 | After pruning the raw list is exactly the suffix of an ordered log within 61 seconds of the newest sample |
| `MonitorHistory.RawQueryExactIff` | deploy/beszel-fork/agent/network_monitor_history.go:219-263 | On any log, ordered or not, a query on the pruned list equals the same query on the whole log if and only if every dropped sample is older than its cutoff |
| `MonitorHistory.RawQueryExact` | deploy/beszel-fork/agent/network_monitor_history.go:219-229 | A query on the pruned list whose cutoff is at most 61 seconds before the newest sample equals the same query on the whole log |
| `MonitorHistory.StatsSplit` | deploy/beszel-fork/agent/network_monitor_history.go:94-126 | Aggregates of two disjoint parts of a log merge to the aggregate of their union, so the order of merging never matters |
| `MonitorHistory.StatsMeaning` | deploy/beszel-fork/agent/network_monitor_history.go:89-126 | An aggregate is the number of samples of its window, and the number, sum, attained minimum and attained maximum of the responses among them that were answered |
| `MonitorHistory.ReportMeaning` | deploy/beszel-fork/agent/network_monitor_history.go:134-207 | While nothing of the window or the last hour is lost, a report tells what the log says: the loss is the share of unanswered samples to half a hundredth of a percent, the average the truncated quotient of the answered responses, minimum and maximum are attained bounds, the last probe is that of the newest sample and the count that of the whole log |
| `MonitorHistory.ReportExact` | deploy/beszel-fork/agent/network_monitor_history.go:169-207 | When neither the window nor the last hour has lost a sample, the whole report, with all thirteen fields, is the one computed from the unbounded log: its window, or its latest sample when the window is empty, and its last hour; there is none only before the first sample |
| `MonitorHistory.ReportExactInOrder` | deploy/beszel-fork/agent/network_monitor_history.go:169-207 | In particular for durations of up to an hour whenever no sample is later than the clock reading |
| `MonitorHistory.ReportSound` | deploy/beszel-fork/agent/network_monitor_history.go:134-197 | After any log, ordered or not: minimum <= average <= maximum and losses within 0 to 100 |
| `MonitorHistory.AverageBetweenExtremes` | deploy/beszel-fork/agent/network_monitor_history.go:152-166 | The truncated average lies between the extremes of the successful responses, and loss is a percentage |
| `MonitorHistory.History.AddSample` | deploy/beszel-fork/agent/network_monitor_history.go:246-274 | Pruning, appending and the ring update keep the object equal to the reference layers of the log with the sample added |
| `MonitorHistory.History.Compact` | deploy/beszel-fork/agent/network_monitor_history.go:259-262 | Pruning moves the samples that are kept to the front of the same array, whose contents are then exactly that suffix |
| `MonitorHistory.History.AddToRing` | deploy/beszel-fork/agent/network_monitor_history.go:264-274 | The slot of the sample's minute is reset if it held another minute, and then takes the sample; all other slots stay |
| `MonitorHistory.History.Record` | deploy/beszel-fork/agent/network_monitor_history.go:58-64 | Recording extends the log by the sample and returns the report of its own minute, which always exists and tells of the log's own samples while none is lost |
| `MonitorHistory.History.Aggregate` | deploy/beszel-fork/agent/network_monitor_history.go:210-217 | The query on the object's layers, with the same choice between raw list and ring |
| `MonitorHistory.History.AggregateSamplesSince` | deploy/beszel-fork/agent/network_monitor_history.go:219-229 | The loop over raw samples computes the aggregate of those at or after the cutoff |
| `MonitorHistory.History.AggregateBucketsSince` | deploy/beszel-fork/agent/network_monitor_history.go:231-243 | The loop over slots merges exactly the filled slots whose minute lies in the window |
| `MonitorHistory.History.ResultLocked` | deploy/beszel-fork/agent/network_monitor_history.go:169-207 | The report of the layers for a duration, with the latest sample alone for an empty window |
| `MonitorHistory.History.Result` | deploy/beszel-fork/agent/network_monitor_history.go:52-56 | Absent exactly before the first sample, always sound, and telling of the log's own samples while none of the window or the last hour is lost |
| `MonitorHistory.History.Clone` | deploy/beszel-fork/agent/network_monitor_history.go:42-50 | A copy with the same log that shares no storage |
| `ResumeGuard.EqualGenerationMeansSteady` | deploy/beszel-fork/agent/network_monitor_resume.go:26-88 | For a running guard and fewer than 2^32 operations, the generation is unchanged if and only if the guard was never stopped and no observation came more than 20 seconds after the last start or observation; it then runs after every operation |
| `ResumeGuard.EqualGenerationMeansQuiet` | deploy/beszel-fork/agent/network_monitor_resume.go:26-88 | For any guard, running or not: over fewer than 2^32 operations the generation is unchanged if and only if there was no stop of a running guard and no jump |
| `ResumeGuard.GenerationCountsBreaks` | deploy/beszel-fork/agent/network_monitor_resume.go:54-73 | The 32-bit generation is the number of stops of a running guard and of jumps, modulo 2^32 |
| `ResumeGuard.WrapHidesJumps` | deploy/beszel-fork/agent/network_monitor_resume.go:66-88 | After exactly 2^32 jumps the generation has come round, so the bound above cannot be dropped |
| `ResumeGuard.SuspendIsDetected` | deploy/beszel-fork/agent/network_monitor_resume.go:66-88 | Observations that span a suspend of more than 20 seconds are never quiet |
| `ResumeGuard.StartIsFresh` | deploy/beszel-fork/agent/network_monitor_resume.go:26-35 | A guard that was stopped counts from the time it is started: with gaps of at most 20 seconds since then, and no stop, the generation stays, the guard runs and no pause remains; otherwise the generation moves |
| `ResumeGuard.RunsSinceStart` | deploy/beszel-fork/agent/network_monitor_resume.go:26-62 | The guard runs exactly if its last start or stop was a start, or there was none and it ran before |
| `ResumeGuard.JumpCountsOnce` | deploy/beszel-fork/agent/network_monitor_resume.go:66-73 | A jump moves the generation once and the guard goes on from its time; the pause lasts until ten seconds after it as long as nothing else breaks |
| `ResumeGuard.PauseAfterJump` | deploy/beszel-fork/agent/network_monitor_resume.go:66-88 | After a jump, scheduled probes are paused exactly until ten seconds after it, as long as nothing else breaks |
| `ResumeGuard.MonitorResumeGuard.Start` | deploy/beszel-fork/agent/network_monitor_resume.go:26-52 | Starting is idempotent while running; otherwise it sets a fresh tick and lifts the pause. It leaves the generation alone |
| `ResumeGuard.MonitorResumeGuard.Shutdown` | deploy/beszel-fork/agent/network_monitor_resume.go:54-62 | Stopping a running guard moves the generation on; a stopped one is left as it is |
| `ResumeGuard.MonitorResumeGuard.Observe` | deploy/beszel-fork/agent/network_monitor_resume.go:66-73 | An observation is the reference operation on the guard, with its 32-bit generation |
| `ResumeGuard.MonitorResumeGuard.Snapshot` | deploy/beszel-fork/agent/network_monitor_resume.go:77-88 | A snapshot observes the clock first, and allows scheduled probes unless a running guard is paused |
| `MonitorTask.SingleFlight` | deploy/beszel-fork/agent/network_monitor_task.go:66-119 | In every reachable state at most one run of a task is being executed, by one caller |
| `MonitorTask.NoWaiterLeftBehind` | deploy/beszel-fork/agent/network_monitor_task.go:66-119 | A waiter's run is closed, or in flight with its owner still executing it |
| `MonitorTask.AnswersArePublished` | deploy/beszel-fork/agent/network_monitor_task.go:66-119 | Every answer that is not nil comes from a run that added exactly one sample, and is computed from the history up to that sample |
| `MonitorTask.CallIsAdmitted` | deploy/beszel-fork/agent/network_monitor_task.go:66-86 | In every run a call is refused on a canceled task, joins the one run of the task in flight, or installs a new run that the caller owns |
| `MonitorTask.LeaveAnswers` | deploy/beszel-fork/agent/network_monitor_task.go:72-119 | Over every execution, whoever leaves a live task, owner or waiter, gets the history up to the sample its run published, and nil exactly if it published none; on a canceled task nil |
| `MonitorTask.CallIsAnswered` | deploy/beszel-fork/agent/network_monitor_task.go:66-119 | A caller leaves with the result of the very run it was admitted to, which is a run of the task it called |
| `MonitorTask.NilMeansNothing` | deploy/beszel-fork/agent/network_monitor_task.go:66-119 | A nil answer means that the task was canceled by then or that the run closed without publishing |
| `MonitorTask.CallersGoOn` | deploy/beszel-fork/agent/network_monitor_task.go:66-119 | Nobody is stuck: every caller can take its next step, or waits for a run whose owner can |
| `MonitorTask.ChainConservesSamples` | deploy/beszel-fork/agent/network_monitor_task.go:37-119 | Along any chain of replacements the newest history holds exactly one sample per run that recorded, in order of publication; none is lost or doubled |
| `MonitorTask.CanceledHistoryFrozen` | deploy/beszel-fork/agent/network_monitor_task.go:37-48 | Once a task is canceled its history never changes, whatever its probes still do |
| `MonitorTask.CanceledIffAsked` | deploy/beszel-fork/agent/network_monitor_task.go:42-46 | A task is canceled exactly if it was asked to |
| `MonitorTask.ReplacementGoesOn` | deploy/beszel-fork/agent/network_monitor_task.go:50-62 | A replacement is live, with nothing in flight, and has its predecessor's whole history |
| `MonitorTask.HistoryOnlyGrows` | deploy/beszel-fork/agent/network_monitor_task.go:50-119 | Until then the history of a task only grows, in every run |
| `MonitorTask.RecordsIffQuiet` | deploy/beszel-fork/agent/network_monitor_task.go:66-119 | A finished probe of a live task records its sample if and only if the guard's run was quiet between the two readings of the generation |
| `MonitorTask.ProbeRecordsIffQuiet` | deploy/beszel-fork/agent/network_monitor_task.go:85-119 | Over every execution, a probe of a live task publishes its sample if and only if the guard's run was quiet from the one reading of the generation to the other; of a canceled task none |
| `MonitorTask.GuardSeesAll` | deploy/beszel-fork/agent/network_monitor_task.go:85-92 | The guard's history is all operations of others and all observations of probes, in order |
| `MonitorTask.SuspendedProbeIsDiscarded` | deploy/beszel-fork/agent/network_monitor_task.go:85-119 | A probe that spans a suspend of more than 20 seconds records no sample |
| `MonitorTask.NextKeepsInv` | deploy/beszel-fork/agent/network_monitor_task.go:37-119 | Every step of callers, publication, cancellation, replacement and guard keeps the protocol's invariant |
| `MonitorTask.MonitorTask.FromExisting` | deploy/beszel-fork/agent/network_monitor_task.go:50-62 | A replacement shows the new task of the protocol after its replacement step, with a history of its own storage |
| `MonitorTask.MonitorTask.Enter` | deploy/beszel-fork/agent/network_monitor_task.go:66-86 | The opening section takes the object through the protocol's call step: it refuses on a canceled task, joins the run in flight, or owns a new one |
| `MonitorTask.MonitorTask.ReadGeneration` | deploy/beszel-fork/agent/network_monitor_task.go:86-88 | The generation a probe starts from is the protocol's, read from the guard after its observation |
| `MonitorTask.MonitorTask.Finish` | deploy/beszel-fork/agent/network_monitor_task.go:91-111 | The closing section takes the object through the protocol's publication step: it records and publishes exactly when the task is live and the generation unmoved, and always closes the run |
| `MonitorTask.MonitorTask.Leave` | deploy/beszel-fork/agent/network_monitor_task.go:72-119 | What a caller returns: the report of its run on a live task, nil on a canceled one |
| `MonitorTask.MonitorTask.Publish` | deploy/beszel-fork/agent/network_monitor_task.go:104-107 | Publication adds the sample to the history and publishes its minute's report |
| `MonitorTask.MonitorTask.Cancel` | deploy/beszel-fork/agent/network_monitor_task.go:42-46 | Cancellation takes the object through the protocol's cancellation step, after which its history is frozen |
| `CertSlot.EachCertSentOnce` | deploy/beszel-fork/agent/network_monitor_task.go:121-175 | Through takeUnsentCert every certificate found is handed out at most once and in order, and the latest is either handed out or marked as still to come |
| `CertSlot.LastCertIsKept` | deploy/beszel-fork/agent/network_monitor_task.go:50-61 | The slot holds the last certificate found, or the one inherited from the task it replaced; failed checks never blank it |
| `CertSlot.ChecksAreSpaced` | deploy/beszel-fork/agent/network_monitor_task.go:121-151 | While the task is live, a check starts an hour or more after every earlier one ended, so checks never overlap |
| `CertSlot.RecordsWhatHappened` | deploy/beszel-fork/agent/network_monitor_task.go:121-175 | In every run the slot knows exactly the certificates that checks read up to the cancellation, and whether one runs |
| `CertSlot.CheckBeginsWhenDue` | deploy/beszel-fork/agent/network_monitor_task.go:128-135 | A request begins a check if and only if none runs and none ended within the last hour |
| `CertSlot.TakeCarriesNew` | deploy/beszel-fork/agent/network_monitor_task.go:164-175 | A result carries the latest certificate if and only if none has carried it, and then none is left |
| `CertSlot.CertSlot.FromExisting` | deploy/beszel-fork/agent/network_monitor_task.go:50-61 | A replacement for the same target keeps the certificate known before, as one that the hub has, and is due for a check at once |
| `CertSlot.NextKeepsInv` | deploy/beszel-fork/agent/network_monitor_task.go:121-175 | Every interleaving of checks, results and cancellation keeps the slot's invariant |
| `CertSlot.CertSlot.BeginCheck` | deploy/beszel-fork/agent/network_monitor_task.go:124-134 | A check begins exactly when one is due and none is running |
| `CertSlot.CertSlot.EndCheck` | deploy/beszel-fork/agent/network_monitor_task.go:138-150 | A finished check sets the next one and, if it succeeded on a live task, the certificate |
| `CertSlot.CertSlot.TakeUnsentCert` | deploy/beszel-fork/agent/network_monitor_task.go:164-175 | Returns the latest certificate found if it was not handed out, else nothing |
| `CertSlot.CertSlot.CertInfo` | deploy/beszel-fork/agent/network_monitor_task.go:153-162 | An immediate probe reads the last certificate found, or the inherited one, each time it asks and without taking it |
| `MonitorManager.LastWinsMeaning` | deploy/beszel-fork/agent/network_monitor.go:47-60 | A list configures exactly the nonempty IDs in it, each as in its last occurrence |
| `MonitorManager.RequestedMeaning` | deploy/beszel-fork/agent/network_monitor.go:88-112 | What each request leaves of each ID: a full list decides alone, an upsert or deletion about its own ID only, anything else about none |
| `MonitorManager.ManagerRefinesConfigMap` | deploy/beszel-fork/agent/network_monitor.go:47-225 | After any requests the map equals the reference map (last configuration of an ID wins, empty IDs dropped), the mapped tasks are the only live ones, and the guard runs if and only if there are monitors |
| `MonitorManager.HistoryKept` | deploy/beszel-fork/agent/network_monitor.go:47-145 | As long as a monitor stays configured its history only ever grows, across any number of replacements |
| `MonitorManager.ProbesOnlyRecord` | deploy/beszel-fork/agent/network_monitor.go:47-225 | Between requests, whatever stretch of the probe protocol each task plays out, histories of canceled tasks stay as they are and those of live tasks only grow |
| `MonitorManager.MonitorManager.SyncMonitors` | deploy/beszel-fork/agent/network_monitor.go:47-86 | A full request: the reference map, unchanged configurations keep their very task, changed ones a new task with the old history |
| `MonitorManager.MonitorManager.UpsertMonitor` | deploy/beszel-fork/agent/network_monitor.go:115-145 | One monitor is installed or already right, all others keep their task; an empty ID changes nothing |
| `MonitorManager.MonitorManager.DeleteMonitor` | deploy/beszel-fork/agent/network_monitor.go:160-174 | One monitor is canceled and forgotten; the guard stops with the last one |
| `MonitorManager.MonitorManager.Stop` | deploy/beszel-fork/agent/network_monitor.go:216-225 | No task stays live and the guard stops |
| `MonitorManager.MonitorManager.HandleSyncRequest` | deploy/beszel-fork/agent/network_monitor.go:88-112 | Each request has its reference meaning; a missing ID and an unknown action are errors that change nothing |
| `MonitorCache.StaleEntryIsOutstanding` | deploy/beszel-fork/internal/alerts/network_monitor_cache.go:30-104 | In every reachable state a cached entry that differs from the database has an invalidation outstanding, or a handler still comparing expiries of its system |
| `MonitorCache.QuietCacheIsFresh` | deploy/beszel-fork/internal/alerts/network_monitor_cache.go:30-104 | Once all hooks and handlers have run, an entry, a finished query and what get returns hold exactly the monitors of the system that are stored and enabled, each with its stored interval and expiry |
| `MonitorCache.MetricSavesDoNotEvict` | deploy/beszel-fork/internal/alerts/network_monitor_cache.go:38-50 | A save that leaves system, flag, interval and certificate as they were evicts nothing |
| `MonitorCache.OtherSavesEvict` | deploy/beszel-fork/internal/alerts/network_monitor_cache.go:38-50 | Any other save evicts the system the monitor was in and the one it is in |
| `MonitorCache.CreationsAndDeletions` | deploy/beszel-fork/internal/alerts/network_monitor_cache.go:32-38 | A creation or deletion evicts the system of its monitor and changes no other row |
| `MonitorCache.CertsAreWritten` | deploy/beszel-fork/internal/alerts/alerts_network_monitors.go:99-102 | Certificate writes store what they bring for monitors of the system, and have each of them compared |
| `MonitorCache.ComparisonEvictsStale` | deploy/beszel-fork/internal/alerts/alerts_network_monitors.go:102-107 | A comparison evicts if and only if the cache has another expiry for the monitor |
| `MonitorCache.LoadExcludes` | deploy/beszel-fork/internal/alerts/network_monitor_cache.go:79-103 | While a load holds the lock no invalidation, comparison or other load comes in between, and it ends by storing what it read or with nothing |
| `MonitorCache.LateStoreWouldBeStale` | deploy/beszel-fork/internal/alerts/network_monitor_cache.go:79-103 | Without the lock held through the load, a stale entry could stay with nothing outstanding |
| `MonitorCache.NextKeepsInv` | deploy/beszel-fork/internal/alerts/network_monitor_cache.go:30-104 | Commits, hooks, certificate writes, comparisons and the steps of a load all keep every entry accounted for |
| `MonitorCache.AccountedAfterCheck` | deploy/beszel-fork/internal/alerts/alerts_network_monitors.go:98-107 | A comparison of expiries either invalidates the system or was not needed: it restores the invariant for writes without hooks |
| `MonitorCache.NetworkMonitorCache.Invalidate` | deploy/beszel-fork/internal/alerts/network_monitor_cache.go:57-61 | Carries out one outstanding invalidation of the protocol: afterwards every entry is still accounted for with that invalidation no longer outstanding |
| `MonitorCache.NetworkMonitorCache.CheckCerts` | deploy/beszel-fork/internal/alerts/alerts_network_monitors.go:98-107 | The comparison loop of a payload takes the object through the protocol's comparisons: no cached expiry differs from the payload afterwards, nothing is left outstanding of it, and every entry is still accounted for |
| `MonitorCache.NetworkMonitorCache.CertDiffers` | deploy/beszel-fork/internal/alerts/network_monitor_cache.go:63-70 | True exactly for a cached monitor with a different expiry |
| `MonitorCache.NetworkMonitorCache.Get` | deploy/beszel-fork/internal/alerts/network_monitor_cache.go:72-104 | Returns what is cached or loads it under the lock; once nothing is outstanding that is exactly the stored and enabled monitors of the system |
| `AlertPrediction.FastPathExact` | deploy/beszel-fork/internal/alerts/alerts_network_monitors.go:120-287 | With a current cache, alert states that decode, owners that have access and, if there is a certificate alert, certificates that decode, the predictor is true if and only if the evaluator changes the hub |
| `AlertPrediction.FastPathExactIff` | deploy/beszel-fork/internal/alerts/alerts_network_monitors.go:120-287 | For given monitors and alerts with their types and thresholds, the predictor is right at every time, with every result and in every state of incidents and history that is in step, if and only if every alert's owner has access and its state decodes and, if there is a certificate alert, every stored certificate with an expiry decodes |
| `AlertPrediction.EvaluatedActs` | deploy/beszel-fork/internal/alerts/alerts_network_monitors.go:167-287 | An evaluation of a system that is up changes the hub if and only if every state it reads decodes and some accessible alert acts |
| `AlertPrediction.QuietFastPathExact` | deploy/beszel-fork/internal/alerts/network_monitor_cache.go:30-104 | In every run of the cache's protocol, once hooks and handlers are done, handling results with what `get` returns comes to the same as evaluating, and under the same conditions the predictor is exact |
| `AlertPrediction.HandleNetworkMonitorAlerts` | deploy/beszel-fork/internal/alerts/alerts_network_monitors.go:98-126 | Comparing certificates, loading the cache, predicting and evaluating only if predicted leaves the alerts alone or evaluates them as a whole; with no other hook or handler part way a system that is up ends as if the evaluator had run; a failure changes no alert and sends nothing |
| `AlertPrediction.NetworkMonitorTransitionPending` | deploy/beszel-fork/internal/alerts/alerts_network_monitors.go:128-165 | The loops over cached alerts, incidents, monitors and results compute the prediction, whatever order the maps are iterated in |
| `AlertPrediction.UnevaluatedMispredicts` | deploy/beszel-fork/internal/alerts/alerts_network_monitors.go:129-200 | For every alert whose owner has no access or whose state does not decode, and every time, a state in step in which it is predicted and nothing happens: it holds an incident of a monitor that was removed |
| `AlertPrediction.NoTransitionMissed` | deploy/beszel-fork/internal/alerts/alerts_network_monitors.go:98-165 | With a current cache the predictor never misses a transition, whatever is stored and whoever has access: evaluating only when it predicts comes to the same as always evaluating |
| `AlertPrediction.UndecodedStateIsPredicted` | deploy/beszel-fork/internal/alerts/alerts_network_monitors.go:129-200 | A state that does not decode calls for the evaluator with every payload, and fails it for an owner with access |
| `AlertPrediction.UndecodedCertMispredicts` | deploy/beszel-fork/internal/alerts/network_monitor_cache.go:95-101 | For every certificate with an expiry behind a decoding error, every certificate alert and every time at which the expiry is within the threshold, a state in step in which the alert is predicted and nothing happens |
| `AlertPrediction.UndecodedCertStaysPredicted` | deploy/beszel-fork/internal/alerts/alerts_network_monitors.go:297-306 | No evaluation opens that incident, so the alert is predicted again at every later time whatever the results |
| `AlertPrediction.ActsWhen` | deploy/beszel-fork/internal/alerts/alerts_network_monitors.go:193-272 | When an evaluation acts, from the alert alone: flag out of step, an incident of a missing monitor, or an observation that disagrees with the state |
| `AlertBookkeeping.IncidentsStayInStep` | deploy/beszel-fork/internal/alerts/alerts_network_monitors.go:60-287 | After any evaluations, disables, removals and alert deletions, for every alert: triggered iff the state map is not empty, its keys are enabled monitors, it maps injectively onto exactly the unresolved history, and every incident was announced by one message |
| `AlertBookkeeping.EvaluationMeaning` | deploy/beszel-fork/internal/alerts/alerts_network_monitors.go:167-306 | After an evaluation, in the values of the records: a monitor has an open incident of a loss alert if and only if its loss is above the threshold, given three attempts, a recent probe and a loss of 0 to 100; of a certificate alert if and only if the certificate expires within the threshold in days; otherwise as before. Monitors that are not enabled have none; alerts without access stay; a system that is down opens and recovers nothing |
| `AlertBookkeeping.MessagesTellChanges` | deploy/beszel-fork/internal/alerts/alerts_network_monitors.go:216-265 | The messages of an evaluation are one for each incident of an enabled monitor that was opened or closed, with its record, in the order of alerts and monitors; none while the system is down |
| `AlertBookkeeping.DroppedMonitorCloses` | deploy/beszel-fork/internal/alerts/alerts_network_monitors.go:77-93 | A monitor that is disabled or deleted has its incidents closed at once, and the others keep theirs if the system is down |
| `AlertBookkeeping.OperationChanges` | deploy/beszel-fork/internal/alerts/alerts_network_monitors.go:60-93 | Each operation changes the one thing it is about; deleting an alert resolves all its history |
| `AlertBookkeeping.MessagesAreTransitions` | deploy/beszel-fork/internal/alerts/alerts_network_monitors.go:216-265 | The messages of an evaluation are its transitions, one to one and in order |
| `AlertBookkeeping.IncidentsFollowObservations` | deploy/beszel-fork/internal/alerts/alerts_network_monitors.go:216-265 | After an evaluation exactly the monitors past their threshold are open, among those that could be observed; the others are as before |
| `AlertBookkeeping.SavedMatches` | deploy/beszel-fork/internal/alerts/alerts_network_monitors.go:266-272 | An alert that is not saved had nothing to save |
| `AlertBookkeeping.DeleteOk` | deploy/beszel-fork/internal/alerts/alerts_network_monitors.go:380-392 | Deleting an alert resolves everything still open under it and keeps the rest in step |
| `AlertBookkeeping.WithIncidents` | deploy/beszel-fork/internal/alerts/alerts_network_monitors.go:193-272 | For any alerts and any sets of monitors there is a hub in step in which exactly those monitors have open incidents, each raised by one message |
| `MonitorAlerts.AlertManager.EvaluateNetworkMonitorAlerts` | deploy/beszel-fork/internal/alerts/alerts_network_monitors.go:167-287 | The loops over alerts, incidents and monitors compute the reference evaluation of the whole hub; it fails exactly when a state that it reads does not decode, and then restores everything and sends nothing |
| `MonitorAlerts.AlertManager.EvaluateAlert` | deploy/beszel-fork/internal/alerts/alerts_network_monitors.go:193-272 | One alert: removed monitors are closed, present ones stepped, and the alert saved when something changed |
| `MonitorAlerts.AlertManager.EvaluateMonitor` | deploy/beszel-fork/internal/alerts/alerts_network_monitors.go:218-264 | One monitor: an incident is opened with its record and message, or resolved with its message, or nothing |
| `MonitorAlerts.AlertManager.CloseRemovedMonitors` | deploy/beszel-fork/internal/alerts/alerts_network_monitors.go:206-215 | Incidents of monitors that are not enabled are resolved silently, in whatever order the map is iterated |
| `MonitorAlerts.AlertManager.ResolveMonitorIncident` | deploy/beszel-fork/internal/alerts/alerts_network_monitors.go:364-378 | Resolves one incident; a missing or resolved one is left alone |
| `ConnectionManager.NoLostDisconnect` | deploy/beszel-fork/agent/connection_manager.go:102-146 | In every reachable state, SSHConnected with no SSH connection means a token, a pending notification or the loop in the middle of handling it; WebSocketConnected with no connection means a disconnect queued, blocked in a sender or being handled |
| `ConnectionManager.RestIsTruthful` | deploy/beszel-fork/agent/connection_manager.go:205-319 | When nothing is outstanding a connected state stands for a real connection, an authenticated connection is never overlooked, and the retry ticker is armed iff the state is Disconnected |
| `ConnectionManager.TickerDials` | deploy/beszel-fork/agent/connection_manager.go:211-217 | From every reachable idle state that is disconnected and not connecting, five seconds after the last attempt or later, the tick and its attempt record a dial at that time; one that succeeds installs a live, new, unverified connection |
| `ConnectionManager.ConnectDials` | deploy/beszel-fork/agent/connection_manager.go:321-370 | A pending connect of a disconnected agent dials at once, or after its five seconds, and then nothing is connecting |
| `ConnectionManager.ConnectWaits` | deploy/beszel-fork/agent/connection_manager.go:325-335 | A connect that starts within five seconds of the last attempt waits for five seconds first |
| `ConnectionManager.UnwantedAttemptEnds` | deploy/beszel-fork/agent/connection_manager.go:352-366 | An attempt entered while connected, without a WebSocket client or too early ends without a dial |
| `ConnectionManager.UnconfiguredNeverDials` | deploy/beszel-fork/agent/connection_manager.go:352-366 | Without a WebSocket client nothing is ever dialed or connected |
| `ConnectionManager.UnverifiedRest` | deploy/beszel-fork/agent/connection_manager.go:205-370 | A run that comes to rest in WebSocketConnected with a connection that is not verified, because a dial begun while disconnected completed after another connection had authenticated |
| `ConnectionManager.SettlesTruthfully` | deploy/beszel-fork/agent/connection_manager.go:205-319 | The manager's own steps cannot go on for ever, and in whatever order they run they can only stop at such a rest |
| `ConnectionManager.OneDialAtATime` | deploy/beszel-fork/agent/connection_manager.go:148-155 | Between handlers isConnecting holds exactly while a connect is pending or running, and the ticker is armed exactly while disconnected; ticker and goroutine never attempt together |
| `ConnectionManager.DialsAreApart` | deploy/beszel-fork/agent/connection_manager.go:321-370 | Any two dials start at least five seconds apart |
| `ConnectionManager.DisconnectIsHandled` | deploy/beszel-fork/agent/connection_manager.go:245-319 | A lost WebSocket leads to Disconnected with the ticker armed and a connect pending; one that was replaced changes nothing |
| `ConnectionManager.ConnectIsHandled` | deploy/beszel-fork/agent/connection_manager.go:245-254 | An authenticated WebSocket takes over, also from SSH; a superseded one changes nothing |
| `ConnectionManager.SSHIsHandled` | deploy/beszel-fork/agent/connection_manager.go:228-275 | An SSH connection takes over from disconnected alone, and the last one that closes gives the agent back with a connect pending |
| `ConnectionManager.CountsAreExact` | deploy/beszel-fork/agent/connection_manager.go:118-146 | In every run the SSH connections counted are those opened and not closed |
| `ConnectionManager.NotifiesOnEdges` | deploy/beszel-fork/agent/connection_manager.go:129-145 | In every run the loop is notified when the first connection opens and when the last one closes, and only then |
| `ConnectionManager.NextKeepsInv` | deploy/beszel-fork/agent/connection_manager.go:102-370 | Every step of the loop, the goroutines, the slot and the clock keeps all six invariants |
| `ConnectionManager.StateChangeHandled` | deploy/beszel-fork/agent/connection_manager.go:279-319 | What a whole state change amounts to when nothing comes in between |
| `ConnectionManager.ConnectionManager.HandleEvent` | deploy/beszel-fork/agent/connection_manager.go:245-275 | The event handler as a whole is the loop's own steps run to their end |
| `ConnectionManager.ConnectionManager.HandleStateChange` | deploy/beszel-fork/agent/connection_manager.go:279-319 | The state change as a whole is the loop's own steps run to their end |
| `ConnectionManager.ConnectionManager.HandleSSHChange` | deploy/beszel-fork/agent/connection_manager.go:228-234 | A token is handled by the connection count at that time, as the loop's steps do |
| `ConnectionManager.ConnectionManager.SSHConnectionOpened` | deploy/beszel-fork/agent/connection_manager.go:129-135 | The locked section counts the connection; exactly the first one has to notify the loop, whatever notifications are pending |
| `ConnectionManager.ConnectionManager.SSHConnectionClosed` | deploy/beszel-fork/agent/connection_manager.go:136-145 | The locked section uncounts the connection; exactly the last one has to notify the loop, whatever notifications are pending |
| `ConnectionManager.ConnectionManager.NotifySSHChange` | deploy/beszel-fork/agent/connection_manager.go:102-107 | A pending notification becomes the one token of the loop, and is absorbed if there is one already |
| `ConnectionManager.ConnectionManager.OnClose` | deploy/beszel-fork/agent/client.go:306-321 | Only the current connection is cleared and reported as lost |
| `ConnectionManager.ConnectionManager.HandleAuthChallenge` | deploy/beszel-fork/agent/client.go:356-374 | Only the current connection is marked verified and announced |
| `GpuAverages.GPUManager.GetCurrentData` | deploy/beszel-fork/agent/gpu.go:336-479 | Each GPU is shown with averages within 0.005 of the mean of exactly its samples since this key's last read; without any, with those of the last window any reader saw, or zeros if there was none or the card looks suspended; with its present values to two decimals and a name told apart; no other key's snapshot moves |
| `GpuAverages.ReportedIsShown` | deploy/beszel-fork/agent/gpu.go:360-421 | What is carried forward are the averages of the last window that any reader saw, from the history alone |
| `GpuAverages.GPUManager.CalculateGPUAverage` | deploy/beszel-fork/agent/gpu.go:382-421 | One GPU's averages over the reader's own list, and when the last average is replaced or carried forward |
| `GpuAverages.GPUManager.AddSample` | deploy/beszel-fork/agent/gpu.go:240-334 | A parsed sample extends the history by one arrival and touches no other GPU, snapshot or average |
| `GpuAverages.EngineAverages` | deploy/beszel-fork/agent/gpu.go:441-455 | Each engine's average, and the usage as that of the busiest engine, in whatever order the map is iterated |
| `GpuAverages.Feed` | deploy/beszel-fork/agent/gpu_intel.go:27-55 | A sample is added to the accumulator field by field and engine by engine |
| `GpuAverages.DeltaIsPending` | deploy/beszel-fork/agent/gpu.go:423-455 | Accumulator minus snapshot is the sum over the samples since the reader's last read, for every quantity and for the count |
| `GpuAverages.ReadTracks` | deploy/beszel-fork/agent/gpu.go:466-479 | Storing a snapshot for one key keeps every key's snapshot equal to what that key has been shown |
| `GpuAverages.NothingLostOrRepeated` | deploy/beszel-fork/agent/gpu.go:336-479 | For any interleaving of arrivals and reads, the windows shown to a reader and its pending list are together all arrivals, once and in order |
| `GpuAverages.AveragesConserve` | deploy/beszel-fork/agent/gpu.go:336-479 | Per reader the unrounded averages times their counts, plus what is pending, add up to the whole accumulator |
| `GpuAverages.EngineEntries` | deploy/beszel-fork/agent/gpu_intel.go:45-50 | An engine has an entry if and only if some sample reported it |
| `GpuAverages.RoundMeaning` | deploy/beszel-fork/agent/gpu.go:360-455 | Rounding is to the nearest, half away from zero |
| `JsonFraming.FramingRoundTrip` | deploy/beszel-fork/agent/gpu_intel.go:155-216 | For every list of JSON object trees printed with any whitespace, commas and opening brackets between them, reading gives exactly the printed texts in order, and then what the tail gives |
| `JsonFraming.ObjectIsFramed` | deploy/beszel-fork/agent/gpu_intel.go:155-216 | One object is framed exactly and nothing after its closing brace is consumed, whatever strings, escapes and braces it holds |
| `JsonFraming.TruncatedObject` | deploy/beszel-fork/agent/gpu_intel.go:183-188 | An object cut short anywhere is reported as an unexpected end, or as the failure of the reader below |
| `JsonFraming.StreamEndsSilently` | deploy/beszel-fork/agent/gpu_intel.go:155-160 | A stream that stops between objects ends with the reader's own end, after all objects |
| `JsonFraming.StreamEndsWithBracket` | deploy/beszel-fork/agent/gpu_intel.go:165-167 | A closing bracket ends the stream and leaves everything behind it unread |
| `JsonFraming.StreamEndsInsideObject` | deploy/beszel-fork/agent/gpu_intel.go:183-188 | A stream that stops inside an object gives all objects before it and an unexpected end, or the failure of the reader below |
| `JsonFraming.StreamEndsAtInvalidByte` | deploy/beszel-fork/agent/gpu_intel.go:171-173 | Anything else between objects is an error that names the byte and leaves it unread, after all objects before it |
| `JsonFraming.ValueCrosses` | deploy/beszel-fork/agent/gpu_intel.go:191-214 | No value inside an object ends it: the scan comes back to the same depth, outside any string |
| `JsonFraming.ByteReader.NextIntelJSONObject` | deploy/beszel-fork/agent/gpu_intel.go:155-174 | The loop over separators computes the reference framing and leaves exactly its rest |
| `JsonFraming.ByteReader.ReadJSONObject` | deploy/beszel-fork/agent/gpu_intel.go:178-216 | The byte loop with depth, inString and escape computes the reference scan |
| `JsonFraming.ByteReader.PeekNonSpace` | deploy/beszel-fork/agent/gpu_intel.go:235-248 | Skips leading whitespace and nothing else, and shows the first byte that is none without consuming it |
| `ContainerTemplate.TemplateRoundTrip` | deploy/beszel-fork/agent/docker_names.go:24-65 | Printing normalized parts ('$' doubled, labels as ${key}) and parsing gives the same parts |
| `ContainerTemplate.ParsedIsNormal` | deploy/beszel-fork/agent/docker_names.go:24-65 | Every accepted template with a '$' is in normal form, and its printed form is accepted as the same template |
| `ContainerTemplate.PlainKeyIsReference` | deploy/beszel-fork/agent/docker_names.go:26-28 | A plain label key means the template that refers to it |
| `ContainerTemplate.RenderedMeaning` | deploy/beszel-fork/agent/docker_names.go:67-84 | A container gets a name if and only if every part has its literal or the nonblank trimmed value of its label, and the name is these joined in order and trimmed |
| `ContainerTemplate.ReparsedRendersAlike` | deploy/beszel-fork/agent/docker_names.go:67-84 | A template that was written out and read back renders the same names and refuses the same containers, for all labels |
| `ContainerTemplate.OtherLabelsDoNotMatter` | deploy/beszel-fork/agent/docker_names.go:67-84 | Rendering depends on the values of the referenced labels alone |
| `ContainerTemplate.Render` | deploy/beszel-fork/agent/docker_names.go:67-84 | The loop refuses exactly when a referenced label is missing or blank or nothing is left, and otherwise gives the trimmed expansion |
| `ContainerTemplate.ScanTemplate` | deploy/beszel-fork/agent/docker_names.go:29-64 | The scan with its literal buffer gives the same parts or the same error as reading tokens and assembling them |
| `ContainerTemplate.ParseContainerNameTemplate` | deploy/beszel-fork/agent/docker_names.go:24-65 | The parser as a whole, with the plain-key case |
| `ContainerTemplate.TakeTurn` | deploy/beszel-fork/agent/docker_names.go:37-62 | One turn of the scan: literal byte, doubled dollar, label reference, or error with its position |
| `ContainerTemplate.TrimSpaceTrims` | deploy/beszel-fork/agent/docker_names.go:25 | Trimming leaves no space at either end and does nothing to trimmed text |
| `ContainerTemplate.SpacesAreUnicode` | deploy/beszel-fork/agent/docker_names.go:25 | Spaces are the characters with the White_Space property, by code point |
| `ContainerNames.ResolveContainerNames` | deploy/beszel-fork/agent/docker_names.go:89-123 | Every display name is the reference one: the rounds terminate and give the same result for every iteration order of the maps |
| `ContainerNames.LabelNamesAreUnique` | deploy/beszel-fork/agent/docker_names.go:104-119 | A name taken from labels is unique among the reported names |
| `ContainerNames.AllNamesAreDistinct` | deploy/beszel-fork/agent/docker_names.go:89-123 | If Docker names are distinct, so are all reported names |
| `ContainerNames.ReplicasKeepDockerNames` | deploy/beszel-fork/agent/docker_names.go:86-88 | Containers that render to the same name keep their Docker names |
| `ContainerNames.UnrivalledNameIsUsed` | deploy/beszel-fork/agent/docker_names.go:86-119 | A label name that no other reported container has, as Docker name or as label name, is used |
| `ContainerNames.ResolvedIsStable` | deploy/beszel-fork/agent/docker_names.go:104-119 | The set of label names kept is a fixpoint of the rounds |
| `ContainerNames.Resolve` | deploy/beszel-fork/agent/docker_names.go:106-119 | The repeat-until-stable loop ends, with the names of the reference fixpoint |
| `ContainerNames.TakeBack` | deploy/beszel-fork/agent/docker_names.go:112-118 | One round takes back exactly the shared label names, in whatever order |
| `ContainerNames.CountNames` | deploy/beszel-fork/agent/docker_names.go:108-111 | A name is counted more than once exactly when two candidates share it |
| `ContainerNames.Candidates` | deploy/beszel-fork/agent/docker_names.go:90-103 | The first pass: Docker names everywhere, label names where they are complete and not excluded |
| `PortMap.MergeInPlace` | deploy/beszel-fork/agent/container_port_map.go:73-82 | Merging by compaction in place gives the same ranges as merging a copy: no element is overwritten before it is read |
| `PortMap.RangesExpand` | deploy/beszel-fork/agent/container_port_map.go:73-82 | Expanding the ranges gives back exactly the sorted published ports, and each range is as wide on the host as in the container |
| `PortMap.HeldOnce` | deploy/beszel-fork/agent/container_port_map.go:73-82 | Each published port is held by exactly one range, and ranges hold nothing else |
| `PortMap.MaximalIffNotCrowded` | deploy/beszel-fork/agent/container_port_map.go:60-82 | No range continues another if and only if no third port sharing a host port sorts between two consecutive ones |
| `PortMap.UniqueHostPortsNotCrowded` | deploy/beszel-fork/agent/container_port_map.go:60-82 | In particular ranges are maximal when every host port is published once per address and protocol |
| `PortMap.PublishedMeaning` | deploy/beszel-fork/agent/container_port_map.go:32-55 | A port stands in the listing if and only if some binding publishes it, with the wildcards as no address, any other address kept, and TCP for no protocol |
| `PortMap.CrowdedExample` | deploy/beszel-fork/agent/container_port_map.go:28-82 | Publishing 0.0.0.0:1 to 1, :::1 to 5 and 0.0.0.0:2 to 2 gives ranges of which one continues another |
| `PortMap.PortMapOf` | deploy/beszel-fork/agent/container_port_map.go:28-86 | The listing is 'host' exactly for host networks; otherwise its ranges, in order of host ports, hold exactly the normalized published ports, and none continues another if and only if those are not crowded |
| `PortMap.SortKeepsOrder` | deploy/beszel-fork/agent/container_port_map.go:83-86 | Sorting is stable: ranges of the same host port keep their order by address, protocol and container port |
| `PortMap.Singles` | deploy/beszel-fork/agent/container_port_map.go:32-55 | Deduplication keeps each normalized published port once |
| `PortMap.SingleLessOrders` | deploy/beszel-fork/agent/container_port_map.go:60-72 | The sort order by address, protocol, host port and container port is a strict total order |
| `ListenPorts.ListenTextReadsBack` | deploy/beszel-fork/agent/container_port_map.go:129-155 | Reading the text back gives at most twenty entries, all of whose ports listen; they are all the ports if and only if there were at most twenty entries |
| `ListenPorts.ApartPortsAreCut` | deploy/beszel-fork/agent/container_port_map.go:139-155 | Ports of which no two are consecutive need an entry each, so all of them are in the text if and only if there are at most twenty |
| `ListenPorts.TooManyPorts` | deploy/beszel-fork/agent/container_port_map.go:150-152 | The 21 ports 2, 4, ..., 42, or more of them: one is missing from the text |
| `ListenPorts.LowPortsFirst` | deploy/beszel-fork/agent/container_port_map.go:139-150 | No entry mixes low and ephemeral ports, the low ones come first, and entries of a kind are separated by gaps |
| `ListenPorts.EntriesExact` | deploy/beszel-fork/agent/container_port_map.go:139-169 | All entries together stand for exactly the ports, in ascending order |
| `ListenPorts.FormatListenPorts` | deploy/beszel-fork/agent/container_port_map.go:129-155 | The text is the reference one whatever order the set is iterated in |
| `ListenPorts.PortRanges` | deploy/beszel-fork/agent/container_port_map.go:157-169 | The nested scan finds the runs of consecutive ports |
| `ListenPorts.RunsFlat` | deploy/beszel-fork/agent/container_port_map.go:157-169 | Runs expand to exactly the ports they were made of, in order |
| `ListenPorts.ReadJoined` | deploy/beszel-fork/agent/container_port_map.go:108-113 | Reading undoes joining: decimal numbers, ranges and separators are unambiguous |
| `ListenPorts.ContainerTextReadsBack` | deploy/beszel-fork/agent/container_port_map.go:178-201 | Role, head node and listening text are all read back from the joined text, if the head node's name has no semicolon |
| `ListenPorts.RoleWords` | deploy/beszel-fork/agent/container_port_map.go:183-201 | The words for each role, with no equals sign when the head node is not known |
| `ListenPorts.OthersAreNotRecognized` | deploy/beszel-fork/agent/container_port_map.go:203-205 | Only the placeholder and texts that begin with one of the two prefixes are taken for own text |
| `ListenPorts.ListeningMeaning` | deploy/beszel-fork/agent/container_port_map.go:129-138 | A port listens if it is in the list and not zero |
| `ListenPorts.OwnTextIsRecognized` | deploy/beszel-fork/agent/container_port_map.go:183-205 | Everything written for a host-network container is recognized as such later, and is empty exactly when there is nothing to say |
| `PidCache.EntriesAreTheListed` | deploy/beszel-fork/agent/container_pid.go:131-180 | After every round, however often the generation wrapped, the entries are exactly the ids last noted live in it |
| `PidCache.EntryTells` | deploy/beszel-fork/agent/container_pid.go:141-262 | In every run an entry tells of the answers since it was made: the latest PID and its time, whether a failure came after it, and the half minute that a failure or an empty answer puts off the next look-up |
| `PidCache.NoteQueues` | deploy/beszel-fork/agent/container_pid.go:141-170 | A listed live container is queued if it is new, or no longer put off and without PID, failed, too old or restarted since; all others are not, and one that is not live loses its entry |
| `PidCache.EndStarts` | deploy/beszel-fork/agent/container_pid.go:174-204 | At the end of a round a batch starts if something is queued and none runs, with as many as are allowed, none of them fresher than any that has to wait |
| `PidCache.AnswersDrain` | deploy/beszel-fork/agent/container_pid.go:228-262 | An answer leaves the batch and every other entry alone, and the batch is over once all came |
| `PidCache.BeginClears` | deploy/beszel-fork/agent/container_pid.go:132-137 | A round begins with nothing queued and leaves entries and a running batch alone |
| `PidCache.PidWasReturned` | deploy/beszel-fork/agent/container_pid.go:218-263 | A nonzero PID is the last one an inspect of that id returned |
| `PidCache.OneBatchAtATime` | deploy/beszel-fork/agent/container_pid.go:181-204 | A batch starts only at the end of a round when none is running, with at most maxPerRound ids in flight |
| `PidCache.OldestFirst` | deploy/beszel-fork/agent/container_pid.go:185-196 | Every id selected for a look-up is no fresher than any that is left out |
| `PidCache.PidIsKept` | deploy/beszel-fork/agent/container_pid.go:251-262 | Only a successful answer changes a PID, and only a dead or unlisted container loses its entry; a failed look-up blanks nothing |
| `PidCache.NextKeepsInv` | deploy/beszel-fork/agent/container_pid.go:131-264 | Rounds and answers in any interleaving keep the generation marks, the returned PIDs and the bound on the batch |
| `PidCache.UptimeReadsBack` | deploy/beszel-fork/agent/container_pid.go:57-74 | Docker's 'Up n seconds' is read back as n exactly when it has at most three digits |
| `PidCache.UptimeOtherwise` | deploy/beszel-fork/agent/container_pid.go:57-74 | Under a second counts as zero, and a status in other units, or not up, gives no uptime |
| `PidCache.ContainerPidCache.BeginRound` | deploy/beszel-fork/agent/container_pid.go:132-137 | A new generation, modulo 2^32, with nothing due |
| `PidCache.ContainerPidCache.Note` | deploy/beszel-fork/agent/container_pid.go:141-170 | Every branch of noting a container: forgotten, new, backing off, due, expired, restarted |
| `PidCache.ContainerPidCache.EndRound` | deploy/beszel-fork/agent/container_pid.go:174-204 | Unlisted containers are swept and a batch is handed out exactly when something is due and none runs |
| `PidCache.ContainerPidCache.LookUpAnswered` | deploy/beszel-fork/agent/container_pid.go:245-262 | A look-up's answer is applied if the container is still there; a failed one leaves every PID as it was |
| `PidCache.ContainerPidCache.BatchDone` | deploy/beszel-fork/agent/container_pid.go:228-230 | Once every look-up is answered the batch is over and the next round may start one |
| `PidCache.ContainerPidCache.Pid` | deploy/beszel-fork/agent/container_pid.go:219-226 | The PID shown, 0 when unknown, is the last one returned |

## Left out

Not modelled at all:

- Probe execution, scheduling jitter and the warm-up of a monitor: a probe is any result at any time. The immediate probe of an upsert is the task it would run on.
- Collectors that read sysfs, dbus, NVML or Docker, and their text parsing; a sample is what a parser adds.
- PocketBase: the database is a value, a transaction is one step, and record access rules are the set of users with access.
- Mail and webhook delivery and message wording: sending appends to a list of messages.
- SSH and WebSocket transport, CBOR and TLS: the connection slot, the verified flag and the events remain.
- Shutdown of the connection manager, process exit on DNS errors, and the SSH server itself, whose start changes nothing that is modelled.
- The purge of old alert history. Users losing access while they have open incidents is no operation of AlertBookkeeping; the states it leaves are among those of `FastPathExactIff`.
- Logging, and failures of the database inside an evaluation other than a state that does not decode.
- The text of a published mapping (address, arrow and protocol suffix) beyond its ranges.
- Decoding of the framed JSON objects and the skipped first row of intel_gpu_top.

Modelled with a limit:

- MonitorHistory.History.Record: sums are unbounded integers, so the 64-bit wrap of the sum of responses is not modelled; a single response is 64 bits wide. Timestamps are those for which the 32-bit minute does not wrap.
- MonitorHistory.QueryExactIffReaches: speaks of logs whose timestamps do not decrease. `QueryExactIff` says what happens on the others, in terms of the samples that were lost.
- MonitorHistory.History.AddSample: a sample has one timestamp. In the code the raw list compares monotonic clock readings and the ring takes the minute of the wall clock, and the two part when the host is suspended or its clock is set.
- MonitorHistory.ReportExactInOrder: no sample may be later than the clock reading, which `GetResults` does not ensure because it reads the clock before it takes the history's lock; `LateSampleLosesMinute` is what can then happen.
- MonitorHistory.AverageBetweenExtremes: loss is a real number, so floating point rounding of the percentage is not modelled.
- MonitorTask.SuspendedProbeIsDiscarded: assumes fewer than 2^32 guard operations during one probe, beyond which the generation may come round.
- MonitorManager.ManagerRefinesConfigMap: tasks are entries of a sequence known by their index, not heap objects, and their history is a log; sharing of storage between a task and its replacement is covered by `MonitorHistory.History.Clone` and `MonitorTask.MonitorTask.FromExisting` instead.
- AlertPrediction.FastPathExact: `now` is the same for predictor and evaluator, and a threshold times a day is a real number; the code's float arithmetic may round differently at the millisecond.
- AlertPrediction.HandleNetworkMonitorAlerts: the copy of the alerts that the fast path reads is the stored one; the cache that keeps it is not part of this model. Other hooks and handlers may be part way, but nobody takes a step between those of the handler itself.
- AlertBookkeeping.IncidentsStayInStep: the set of users with access does not change during a run, stored alert states decode, and record IDs are never reused.
- ConnectionManager.RestIsTruthful: a WebSocket state at rest means that there is a connection, not that it is verified, since a dial begun while disconnected may complete later (`UnverifiedRest`). It says nothing about Disconnected with SSH connections, which can happen when a new connection overlaps a closing one; the code sends no notification for it.
- ConnectionManager.ConnectionManager.SSHConnectionOpened: the mark that counts a connection once, however many sessions it opens, is not modelled; it is called once for each connection.
- ConnectionManager.DialsAreApart: the clock is monotonic.
- GpuAverages.GPUManager.AddSample: at most 2^32 - 1 samples per GPU, since the conversion of a larger float count to 32 bits is undefined; sums are real numbers.
- GpuAverages.GPUManager.GetCurrentData: the last average that is carried forward is shared by all keys, as in the code; only averages over new samples belong to one key.
- JsonFraming.ByteReader.ReadJSONObject: the reused buffer is a value, so aliasing of the returned slice with the next one is not modelled.
- JsonFraming.FramingRoundTrip: numbers and the three literal names are words of their possible bytes, a superset of the grammar.
- ContainerTemplate.ParseContainerNameTemplate: text is a sequence of Unicode characters, so the position in an error counts characters, not bytes.
- ContainerTemplate.TemplateRoundTrip: parts whose printed form has a '$' and no outer whitespace; others are not written as templates.
- PortMap.PortMapOf: the sort is an insertion sort; the order is total on the deduplicated ports, so any sort gives the same list.
- PidCache.EntriesAreTheListed: rounds do not overlap, as the caller holds the container list while it makes one; the four-fold parallelism of a batch is any order of answers.
- CertSlot.ChecksAreSpaced: only while the task is not canceled, because a canceled check does not set the next one.
- CertSlot.EachCertSentOnce: speaks of takeUnsentCert alone. An immediate probe also returns the certificate, through certInfo, as often as it is asked (`CertSlot.CertSlot.CertInfo`).
