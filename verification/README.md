# termup: a verified model of the monitoring daemon

termup probes a list of HTTP targets in periodic batches, stores every result, feeds each result to
three trackers (a debounced up/down machine, a certificate alarm and a flap detector), hands the
alerts they raise to an asynchronous queue, and shows a dashboard computed from the stored history.
On a signal it stops the writers, drains the queue and closes the store.

The model follows that structure, one module per component.

- **Objects.** The trackers, the two stores, the fan-out, the queue's critical sections, the
  dashboard handler and one probe of the scheduler are classes and methods that update their
  fields, loop and compact arrays as the program does (`Machine`, `FlapTracker`, `CertTracker`,
  `Memory`, `SQLite`, `Multi`, `Async`, `Scheduler`). Each method is proved equal to a step
  function of the old state, and the facts about whole histories are proved of those functions.
  `Memory` works on Go slices over shared backing arrays, so its `kept := h[:0]` compaction really
  overwrites the array it is reading.
- **Protocols.** Goroutines are labelled transition systems: a label names which goroutine does
  which atomic action, a run is a sequence of labels, and a theorem about all runs covers all
  interleavings. `ProbeBatch` is `runOnce`; `AsyncQueue` has the read-write lock, the test of
  `closed` and the send as separate actions; `Agreement` is the scheduler's loop with reloads and
  sweeps beside it; `Shutdown` puts all of it, the alert queue and `run` together.
- **Time** is an integer number of nanoseconds since the Unix epoch; the zero `time.Time` is year 1.
  `Milliseconds()` and `int(...)` truncate toward zero, `Unix()` rounds down, `Sub` saturates, and
  the hash offset goes through the unsigned modulo and the signed conversion.

Main results:

- every interleaving of the worker pool ends in the tables of the one-at-a-time run and hands over the
  same alerts per monitor (`InterleavingIndependence`);
- every batch observes each listed monitor exactly once, unless it is cancelled
  (`BatchProbesWholeList`);
- a batch always finishes when it has a worker, and every timed run of it is over within the interval
  plus ceil(n / workers) timeouts, a bound that runs come up to (`BatchProgress`, `BatchTerminates`,
  `BatchEndsInTime`, `BoundIsSharp`);
- what either store shows of a monitor and what the machine observed of it never drift apart, through
  any batches, reloads and sweeps, in memory from its empty start and in the row store also across
  restarts (`StoreAndMachineAgree`, `RowsAfterRestart`, `ProbedRowsShowState`);
- the alert queue is linearisable, loses, reorders and invents nothing (`QueueProtocol`,
  `RunLinearises`), and in every fair run workers get their alerts handed over and the signal ends the
  daemon, though a provider may be stuck for ever (`FairRunsTell`, `FairRunsEnd`);
- what alerts and cards say is stated in terms of status codes, errors and expiries
  (`StateFiringMeans`, `CertFiringMeans`, `FlapFiringMeans`, `CardShows`);
- from probe to provider: what is offered to the queue about a monitor is exactly what its trackers
  fire on everything observed of it, and after a drained shutdown every child has all of it but what
  the full queue refused (`AlertsAreFirings`, `FromProbeToProvider`).

Some promises hold only under a condition, which is stated and proved exact:

- **Agreement of the stores.** Over any chronological writes with any cutoffs, a monitor's histories in
  the two stores agree at every point if and only if no prune falls after a result it holds within that
  result's own second (`AgreeThroughoutExactly`, one prune: `PruneAgreesExactly`); otherwise the row
  store keeps more (`SplitSecondWitness`). At one given point they agree if and only if no prune has
  split the second of one of the monitor's last sixty surviving results (`AgreeExactly`), and the two
  dashboards are equal if and only if that holds of all listed monitors (`DashboardsExactly`).
- **Dashboard from the row store.** A card survives storage if and only if no result is a 2xx
  carrying an error with empty text, and the newest expiry is not inside the first second after the
  zero time (`SameCardFromStorage`). Results of the HTTP prober always qualify.
- **Row codec.** A row gives back exactly the result that was saved if and only if every field is
  representable (`RoundTripExact`).
- **Repeated names.** `Sync` followed by `List` on the row store echoes the list if and only if no
  name repeats; otherwise each name's last occurrence remains (`ListEchoesSync`, `ListAfterSync`).
- **Progress.** A batch can get stuck if and only if it has no workers, something to probe and was not
  cancelled from the start (`StuckExactly`).
- **Shutdown.** For each set of waits that give up, the store can be written after its close if and
  only if the sweep or the watcher was left behind, or the scheduler with a worker in its pool
  (`LateWriteExactly`); an alert can be refused as closed if and only if the scheduler was, with a
  worker (`RefusalExactly`).

## Model

| member | source | states |
|---|---|---|
| StateMachine.Machine.Observe | monitor/machine.go:47-74 | told by code and error: a 2xx without error goes up and clears the streak, anything else counts and goes down at three; only that monitor changes; a transition is returned on every change but the first Up, from the state before to the state after, for this monitor and result |
| StateMachine.Machine.CurrentState | monitor/machine.go:76-82 | the debounced state, Unknown for a monitor never observed |
| StateMachine.StateClosedForm | monitor/machine.go:38-41 | after any history: Down iff the last three results all failed, else Up iff one of them succeeded, else Unknown |
| StateMachine.StateMeans | monitor/monitor.go:47-52 | in a table shared by all monitors: Down exactly after three own results each with an error or a code outside 200 to 299, Up exactly when one of the last three has neither |
| StateMachine.Resynchronises | monitor/machine.go:22-23 | two machines in any reachable states hold identical trackers after three common results, or from one common success on |
| StateMachine.RestartConverges | monitor/machine.go:22-23 | a machine restarted from nothing is, after three results or one success, where it would be with its whole earlier history |
| StateMachine.AlertsFollowState | monitor/machine.go:43-46 | announcements alternate Down, Up, Down and so on, each starts where the last ended, and their number's parity is the state |
| AlertMeaning.StateFiringMeans | monitor/machine.go:67-73 | a state change is announced exactly at the third failure in a row and at the first success after it, naming monitor, from, to and result |
| AlertMeaning.ChangesAlternate | monitor/machine.go:67-73 | the state changes providers are told of go down, up, down in turn, each from where the last ended |
| StateMachine.AlertAccounting | monitor/machine.go:57-63 | at every moment the failures seen so far cover three per Down alert plus the current streak |
| StateMachine.AlertBudget | monitor/machine.go:47-74 | alerts alternate from Down; Downs minus Ups is one iff Down; three failures per Down, one success per Up, and at most one alert more than raw flips |
| StateMachine.MonitorsAreIndependent | monitor/machine.go:51-65 | in one shared table, each monitor's tracker is that of its own results, whatever is observed in between |
| FlapDetector.FlapState.Record | monitor/flap.go:43-63 | the window is the last ten results, the warning is on iff they hold five flips, and it fires iff that is new |
| FlapDetector.FlapTracker.Observe | monitor/flap.go:33-64 | creates the state object on first use, changes only that monitor's; reports the number of places where neighbours differ and fires at five unless warned already |
| FlapDetector.CountFlips | monitor/flap.go:48-53 | the loop counts neighbouring results that differ |
| FlapDetector.FlapWindow | monitor/flap.go:43-46 | trimming step by step, the window is the last ten results of the whole history and the warning is on iff they hold five flips |
| FlapDetector.FlipCountMovesByOne | monitor/flap.go:43-53 | one observation moves the flip count by at most one, and raises it only by differing from its predecessor |
| FlapDetector.FlapAlertExact | monitor/flap.go:55-63 | an alert fires exactly when the count rises from below five; it reports exactly five flips, never before the sixth result, on a result that differs from the last |
| AlertMeaning.FlapFiringMeans | scheduler/scheduler.go:153-157 | the alert is raised exactly when the turns among the last ten results reach five, and reports five for this monitor |
| FlapDetector.FlapAlertsSpaced | monitor/flap.go:55-63 | two alerts of one monitor are at least two observations apart |
| CertAlarm.CertTracker.Observe | monitor/cert.go:26-42 | fires iff thirteen days or fewer are left and not warned already; warned afterwards iff so few are left; without a certificate, and for other monitors, nothing changes |
| CertAlarm.DaysLeftBoundary | scheduler/scheduler.go:141-143 | truncated, saturated days below 14 iff the certificate has less than 14 times 24 hours left, for either sign |
| CertAlarm.DaysLeftMeans | scheduler/scheduler.go:142 | whole days of 86,400 seconds, the rest dropped on either side of zero |
| CertAlarm.WarnedMeansLastReadingSoon | monitor/cert.go:33-41 | warned iff the last certificate-bearing result of that monitor was below the line |
| CertAlarm.CertAlarmExact | scheduler/scheduler.go:139-151 | over a run of any monitors: fires exactly at readings below 14 days whose previous reading of that monitor was not below or missing |
| AlertMeaning.CertFiringMeans | scheduler/scheduler.go:139-151 | in nanoseconds: raised exactly at a reading below fourteen days whose previous reading was not; names monitor, expiry and days left |
| Coverage.FailuresBoundedByFlips | monitor/flap.go:14-16 | without three failures in a row there are at most two more failures than flips |
| Coverage.UnhealthyIsNoticed | scheduler/scheduler.go:153-157 | seven failures in the last ten results: the machine was Down in that window or the flap warning is on |
| Coverage.AlternatingRaisesOneAlert | monitor/flap.go:14-16 | a strictly alternating target raises no machine alert ever and exactly one flap alert from its sixth result on |
| MemoryStore.Memory.Save | storage/memory.go:47-57 | through append and reslice of shared arrays: the monitor's window becomes the last sixty results, all others unchanged |
| MemoryStore.SavedMeans | storage/memory.go:13 | the window is the last sixty results, the new one last, and nobody else's changes |
| MemoryStore.PrunedMeans | storage/memory.go:59-77 | exactly the results not checked before the cutoff remain, in order, and exactly the monitors that have some |
| MemoryStore.SyncedMeans | storage/memory.go:85-93 | exactly the histories of names in the list remain, as they are |
| MemoryStore.CompactInPlace | storage/memory.go:64-69 | compaction over the array being read keeps exactly the results not before the cutoff, in order |
| MemoryStore.Memory.PruneEntry | storage/memory.go:63-75 | one iteration of the sweep: that entry compacted, or deleted when emptied, every other entry intact |
| MemoryStore.Memory.Prune | storage/memory.go:59-77 | in any map order: every entry filtered, exactly the emptied ones removed |
| MemoryStore.Memory.Sync | storage/memory.go:79-95 | the given slice becomes the list, histories kept exactly for listed names |
| MemoryStore.Memory.List | storage/memory.go:27-33 | a fresh copy of the list, in order, while the store keeps the slice that Sync was given |
| MemoryStore.Memory.History | storage/memory.go:35-42 | a fresh array with the monitor's window |
| Replay.SnapshotSurvivesWrites | storage/memory.go:35-42 | any sequence of saves, prunes and reloads is performed on the store, overwriting backing arrays, and a history handed out before it is unchanged |
| Codec.StoredReadings | storage/sqlite.go:202-231 | what a stored result still shows: same milliseconds, seconds and code; an empty error text, and only it, turns into no error |
| Codec.StoredMeans | storage/sqlite.go:202-231 | in nanoseconds: the whole second and millisecond of what was saved; the expiry is lost only at the zero time and in the first second of 1970 |
| Codec.RoundTripExact | storage/sqlite.go:129-148 | decode of encode is the identity iff durations are whole milliseconds, times whole seconds, the error text is not empty and the expiry is absent or not Unix 0 |
| Codec.StoringIsIdempotent | storage/sqlite.go:202-231 | saving what was read back loses nothing further |
| RowStore.SQLite.Save | storage/sqlite.go:129-148 | appends the encoded row under a new largest id |
| RowStore.SQLite.History | storage/sqlite.go:106-127 | the last sixty rows of the name by id, oldest first, decoded |
| RowStore.RowHistoryMeans | storage/sqlite.go:16 | the last sixty rows of that name and no others, in their order |
| RowStore.SQLite.Prune | storage/sqlite.go:150-155 | deletes the rows whose whole second is before the cutoff's |
| RowStore.RowPruneMeans | storage/sqlite.go:150-155 | a row stays iff the second after its own begins after the cutoff |
| RowStore.SQLite.Sync | storage/sqlite.go:157-197 | upserts then deletes: the table depends on the list alone, rows stay exactly for listed names, also for the empty list |
| RowStore.SQLite.List | storage/sqlite.go:88-104 | every table row once, by position |
| RowStore.ListAfterSync | storage/sqlite.go:164-192 | whatever was stored before, the only possible answer of List is each name's last occurrence in list order |
| RowStore.ListEchoesSync | storage/sqlite.go:164-192 | List returns the synced list iff no name repeats |
| RowStore.ListingUnique | storage/sqlite.go:89 | with distinct positions, ordering by position has one answer |
| Config.Validate | config/config.go:45-74 | told by the fields: accepts iff there is a monitor, all names are nonempty and distinct, all URLs nonempty and valid, and all notifiers have a type and a URL; otherwise the first complaint in reading order, which is true of the entry it names |
| Config.ToMonitors | config/config.go:93-100 | one monitor per entry, in order |
| Config.AcceptableNamesDistinct | config/config.go:45-64 | an accepted configuration is a nonempty list with pairwise distinct, nonempty names and nonempty URLs |
| Config.ReloadIsHistoryIndependent | server/server.go:185-190 | reloading an accepted configuration makes List return exactly its monitors, whatever was stored |
| Dashboard.BuildHealth | api/handlers.go:69-109 | one bar per result in order, green iff 2xx without error, with its code, error text, milliseconds and second; uptime is the share of green bars in percent; latency is the newest bar's, expiry the newest result's; name, URL and state text are the monitor's |
| Dashboard.CardShows | api/handlers.go:69-109 | the reference card has all of this |
| Dashboard.UptimeExtremes | api/handlers.go:103 | 100 iff all bars are green, 0 iff none is |
| Dashboard.SameCardFromStorage | api/handlers.go:69-109 | for every history, the card built from stored results equals the card built from the originals iff no bar flips and the newest expiry does not vanish |
| Dashboard.SameCardForProbedResults | probe/probe.go:43-75 | results the HTTP prober can produce always give the same card |
| Refinement.RowHistoryIsStored | storage/sqlite.go:106-127 | after any writes, History of the row store is the stored form of the last sixty surviving results |
| Refinement.MemoryWindowIsSuffix | storage/memory.go:47-77 | at any cutoffs, the memory window is the recent end of the results behind the rows |
| Refinement.RowStoreForgetsLess | storage/sqlite.go:150-155 | so at any cutoffs the row store never drops a result that the memory store keeps |
| Refinement.AgreeingIsLastSixty | storage/memory.go:47-77 | the histories agree exactly while trimming on write and limiting on read show the same: the memory window is the last sixty surviving results |
| Refinement.PruneAgreesExactly | storage/sqlite.go:150-155 | after any writes, a prune at any cutoff keeps equal histories equal iff it does not split the second of a kept result |
| Refinement.AgreeThroughoutExactly | storage/sqlite.go:106-155 | over whole runs with any cutoffs, a monitor's histories agree at every point iff no prune splits the second of a result held at that moment |
| Refinement.StoresAgree | storage/sqlite.go:88-197 | over every sequence of chronological saves, distinct reloads and prunes at any cutoffs: List answers alike, and History has agreed all along for exactly the monitors without a split second |
| SplitSeconds.MemoryIsKept | storage/memory.go:47-77 | the memory window is always the last sixty surviving results that no prune has split |
| SplitSeconds.AgreeExactly | storage/sqlite.go:106-155 | at any moment of any run with any cutoffs, a monitor's histories agree iff none of its last sixty surviving results has had its second split by a prune since its save |
| SplitSeconds.DashboardsExactly | api/handlers.go:42-56 | at any moment the two dashboards are equal iff that holds of every listed monitor |
| Refinement.WholeSecondsNeverSplit | storage/sqlite.go:150-155 | cutoffs on whole seconds meet the condition |
| Refinement.SplitSecondWitness | storage/sqlite.go:150-155 | a result at 0.2 s and a cutoff at 0.5 s: the memory store forgets it, the row store still shows it |
| Refinement.SameCardExactly | api/handlers.go:69-109 | a monitor's card is the same from either store iff its histories agree |
| Refinement.SameDashboardExactly | api/handlers.go:42-56 | after any writes with prober results, at any cutoffs, the whole response is the same from either store iff the histories of all listed monitors agree |
| Refinement.SameDashboard | api/handlers.go:42-56 | so it is the same whenever no prune splits a second of a listed monitor |
| Replay.WriteMemory | storage/memory.go:47-95 | each write of the memory store object is the write the refinement is about |
| Replay.WriteRows | storage/sqlite.go:129-197 | each write of the row store object likewise |
| Replay.Replay | storage/sqlite.go:129-197 | two new store objects put through any sequence of writes are in exactly the two states the refinement compares |
| Handler.HandleFromMemory | api/handlers.go:42-56 | card number i shows monitor number i, its window and its own state, over the memory store and the machine |
| Handler.HandleFromRows | api/handlers.go:42-56 | the same over the row store |
| Handler.AnswersAfter | api/handlers.go:42-56 | two new store objects put through the same writes answer with the cards of what was written, the same ones iff the listed monitors' histories agree, in particular when no prune splits a second |
| Notify.Multi.Notify | notify/multi.go:17-24 | child number i is served i-th with the event, every child, whatever the others answer |
| AsyncQueue.RunKeepsInv | notify/async.go:53-96 | in every interleaving the lock counts its holders, a writer excludes readers, a producer past the test sees an open queue, and no event is lost |
| AsyncQueue.ProducerKeepsLock | notify/async.go:54-65 | the steps of Notify keep the lock's invariant, so a send never meets a closed channel |
| AsyncQueue.QueueProtocol | notify/async.go:53-96 | no panic; accepted is delivered, in-flight and queued in order; at most capacity plus one outstanding; a Close that returned nil means every child has everything accepted |
| AsyncQueue.CallsDecidedOnce | notify/async.go:51-66 | every caller's calls are decided one by one, in order and for the event they were made with, as accepted, full or closed; the channel is closed at most once |
| AsyncQueue.CallersNeedNoDelivery | notify/async.go:22-29 | callers finish by their own steps even if the provider never answers |
| AsyncQueue.ClosedQueueDrains | notify/async.go:68-96 | after the close the worker has a fixed number of steps left, can always take the next, and then everything accepted is delivered |
| AsyncQueue.EveryStepIsAtomic | notify/async.go:53-85 | each call takes effect in one step inside its critical section, with the outcome the atomic queue gives at that moment; no other step is visible |
| AsyncQueue.RunLinearises | notify/async.go:53-96 | over every run: the calls performed one after the other on a plain bounded queue give every caller its outcome and the worker its events in order |
| AsyncQueue.Async.Notify | notify/async.go:53-66 | closed iff closed, full iff open with capacity events waiting, otherwise appended |
| AsyncQueue.DecisionMeans | notify/async.go:57-65 | in the protocol: refused as closed iff closed, as full only with capacity events waiting, accepted into room or by the waiting worker |
| AsyncQueue.UnbufferedAccepts | notify/async.go:60-62 | a queue of size zero accepts an event by handing it to the waiting worker |
| AsyncQueue.Async.DeliverUpTo | notify/async.go:89-96 | as far as the worker gets, every event goes to every child, in order and child after child; the rest stays queued in order |
| AsyncQueue.Async.DeliverAll | notify/async.go:89-96 | the whole queue goes to every child as often as it is configured; to distinct children exactly as it stood |
| AsyncQueue.Async.Close | notify/async.go:71-85 | closes once, and succeeds exactly when the drain is done by the deadline; what is not delivered by then is still queued |
| ProbeBatch.InvKept | scheduler/scheduler.go:67-100 | every step of dispatchers, workers, canceller and caller keeps the wait groups, the channel and the job table consistent |
| ProbeBatch.BatchSafety | scheduler/scheduler.go:67-100 | no send after the close, at most the pool size of probes under way, each entry probed at most once; at return each entry probed to the end or aborted by the cancellation, all of them if there was none |
| ProbeBatch.StepShrinksWork | scheduler/scheduler.go:67-100 | every step lowers one measure that is never negative |
| ProbeBatch.BatchTerminates | scheduler/scheduler.go:67-100 | every execution has at most three steps per worker, twelve per monitor and three more |
| ProbeBatch.BatchProgress | scheduler/scheduler.go:67-100 | with a worker, or nothing to do, or once cancelled, an unfinished batch always has an enabled step besides the cancellation |
| ProbeBatch.CanReturn | scheduler/scheduler.go:67-100 | from every state of a batch with a worker, whatever its probes return, some run without a further cancellation leads to the return |
| ProbeBatch.AnyCutPossible | scheduler/scheduler.go:87-95 | a cancelled batch can have every outcome: for each set of entries some run cuts exactly those short and probes all others to the end |
| ProbeBatch.WaitingMeansPoolBusy | scheduler/scheduler.go:92-95 | a dispatcher nobody can take over waits only for a pool of busy workers with different jobs |
| ProbeBatch.StuckExactly | scheduler/scheduler.go:69-97 | a batch can get stuck iff there are no workers, something to probe, and no cancellation from the start; it then waits for the cancellation |
| ProbeBatch.ReturnedIsComplete | scheduler/scheduler.go:98-100 | when runOnce returns, all workers have stopped and no probe is left between its stages |
| Probe.StageIsLocal | scheduler/scheduler.go:114-158 | a stage of one monitor's probe leaves every other monitor's history, trackers and alerts alone |
| Probe.StageDependsOnShare | scheduler/scheduler.go:114-158 | and depends on its own monitor's share only |
| Scheduling.Scheduler.ProbeOne | scheduler/scheduler.go:114-158 | the objects after one probe are the seven stages of the protocol in order: save, observe, tell, and so on |
| Scheduling.Uninterrupted | scheduler/scheduler.go:118-157 | the seven stages written out: one saved result, three tracker updates, and the alerts in the order state, certificate, flap |
| Scheduling.StateAlertMeans | scheduler/scheduler.go:129-137 | the state change handed over by one probe, told by the state before, code and error |
| Scheduling.CertAlertMeans | scheduler/scheduler.go:139-151 | the certificate alert handed over by one probe, told by expiry, time and the warned table |
| Scheduling.FlapAlertMeans | scheduler/scheduler.go:153-157 | the flapping alert handed over by one probe, told by the window before, code and error |
| Interleaving.RunSeparates | scheduler/scheduler.go:69-77 | at every moment each monitor's share is what its own probe alone has made of it so far |
| Interleaving.BatchIsSequential | scheduler/scheduler.go:60-101 | any interleaving and any cancellation of one batch ends as if the completed probes had run one after the other |
| Interleaving.InterleavingIndependence | scheduler/scheduler.go:47-101 | over whole runs of batches: identical histories and tracker tables, and the same alerts per monitor in the same order, as the one-at-a-time run |
| Makespan.OffsetInInterval | scheduler/scheduler.go:103-112 | the phase lies in the interval, or is zero; the signed conversion never wraps |
| Makespan.OffsetMeans | scheduler/scheduler.go:111 | the phase is the hash less a multiple of the interval; two names share it iff their hashes differ by such a multiple |
| Makespan.WaitingCostsJobs | scheduler/scheduler.go:69-77 | while a job waits through k timeouts the pool takes k times workers other jobs, so there must be that many |
| Makespan.MakespanBound | scheduler/scheduler.go:79-100 | in a work-conserving schedule every job of a batch of n ends within interval plus ceil(n / workers) timeouts, however the offsets fall |
| TimedBatch.PoolOccupied | scheduler/scheduler.go:92-95 | in a timed run of the protocol, while a dispatcher waits every worker has a job of its own under way |
| TimedBatch.ScheduleRuns | scheduler/scheduler.go:67-100 | every timed run of the protocol yields such a schedule |
| TimedBatch.BatchEndsInTime | scheduler/scheduler.go:79-100 | so every timed run is over, its last action included, within that bound |
| TimedRuns.RunExists | scheduler/scheduler.go:60-112 | for every pool, all name hashes, every interval and all probe times there is such a run, in which every probe takes exactly its time |
| TimedRuns.OneAfterTheOther | scheduler/scheduler.go:71-76 | two jobs on one worker never overlap |
| TimedRuns.LastsAtLeast | scheduler/scheduler.go:69-100 | a run whose jobs are released no earlier than some time and take at least some duration goes on for ceil(n / workers) such durations after it |
| TimedRuns.BoundIsSharp | scheduler/scheduler.go:79-112 | for every pool, list and timeout some run comes within a nanosecond of the bound |
| WholeLists.BatchProbesWholeList | scheduler/scheduler.go:60-101 | in any life, from one begin of a batch to its return: each monitor of the list it began with is observed exactly once more, at most once under a cancellation, and nobody else is |
| WholeLists.InFlightOutlivesReload | scheduler/scheduler.go:120-122 | a probe in flight saves its result though a reload has dropped its monitor meanwhile |
| Agreement.LifeAgrees | scheduler/scheduler.go:118-129 | at every point of every life of the daemon the store is in step with the machine, or one result ahead between save and observe |
| Agreement.StoreAndMachineAgree | scheduler/scheduler.go:118-137 | outside that gap the history is a suffix of what the machine observed, and with three results held the shown state is what they say, across drops, re-adds and prunes |
| Agreement.PruneAgrees | server/server.go:142-147 | a retention sweep in the middle of a batch keeps the agreement |
| Agreement.SyncAgrees | server/server.go:185-190 | so does a reload, which keeps a history whole or drops it whole |
| RowAgreement.LifeIsRun | scheduler/scheduler.go:118-122 | the writes of any life are chronological per monitor, its lists distinct, and they lead a memory store to the daemon's own state |
| RowAgreement.OwnIsSuffixOfSaved | storage/sqlite.go:150-155 | at any cutoffs, what survives of a monitor's rows is the recent end of everything saved for it |
| RowAgreement.RowsAfterRestart | server/server.go:111-120 | on a row store that survives restarts, at any cutoffs: outside the gap the rows are the recent end of what was saved before the boot and observed since, as stored, and with three rows and three observations the shown state is what the last three rows say, unless an error without text is among them |
| RowAgreement.RowsAndMachineAgree | scheduler/scheduler.go:118-137 | the same from an empty store: the rows are the recent end of what the machine observed |
| RowAgreement.ProbedRowsShowState | probe/probe.go:43-75 | with the HTTP prober no condition on the results is left |
| Firings.ProbeTracks | scheduler/scheduler.go:129-157 | one whole probe takes a monitor's trackers from its history to its history with the new result and raises exactly what they fire |
| Firings.AlertsAreFirings | scheduler/scheduler.go:129-157 | in any life, between probes of a monitor, the alerts handed over about it are exactly its trackers' firings over everything observed, in order |
| Shutdown.OrderedKept | server/server.go:230-244 | each phase of run is entered after the writer it waited for is gone, and the queue is closed only after them |
| Shutdown.LinkedKept | scheduler/scheduler.go:129-157 | a worker is inside Notify only while its probe is telling exactly that alert |
| Shutdown.BookedKept | scheduler/scheduler.go:160-164 | every alert raised is offered to the queue once, in order, per monitor |
| Shutdown.ShutdownEndToEnd | server/server.go:203-249 | a write after the close needs a writer left behind, a refusal as closed needs the scheduler left behind with a worker; after a finished drain every child has, in order, all alerts but those refused; and the alerts offered are those raised unless the scheduler was left behind |
| Overstay.ShutDownLeads | server/server.go:222-244 | for every set of waits, a shutdown in which exactly those give up and the drain succeeds |
| Overstay.LateWriteExactly | server/server.go:171-244 | some run in which exactly a given set of waits gives up writes after the close iff the sweep or the watcher is in the set, or the scheduler with a worker in its pool |
| Overstay.RefusalExactly | server/server.go:171-244 | some such run refuses an alert as closed iff the scheduler is in the set and has a worker |
| Delivery.ServerLives | server/server.go:203-213 | the daemon inside any run of the server leads a life, so all that holds of lives holds of it |
| Delivery.FromProbeToProvider | server/server.go:203-249 | once the store is closed, with the scheduler not left behind, the offered alerts of a monitor are its trackers' firings, none refused as closed, and after a finished drain every child has them but for those the full queue refused |
| Liveness.SignalLeadsToDone | server/server.go:222-244 | from every state reached after the signal, run can get to its end by moves none of which is a delivery |
| Liveness.ProbingNeverWaits | notify/async.go:22-29 | from every reachable state a worker with an alert can get past Notify, still with that alert, by moves none of which is a delivery |
| Fairness.FairRunsTell | notify/async.go:22-29 | in every infinite run fair to run and the callers alone, a worker with an alert finishes handing it over |
| Fairness.FairRunsEnd | server/server.go:222-244 | and after the signal run gets to its end |

## Left out

- HTTP probing, request tracing and timings: the prober is any source of results under the monitor's name; "no status code with an error" is assumed only where stated.
- Slack, Discord, webhook and console providers and message texts: a child is a log of the events it received with an arbitrary answer.
- The SQL engine, driver, migrations and failures: each statement or transaction is atomic and succeeds, and the limit on bound variables is not modelled. A failed `Save` is therefore not modelled either; a failing `List` skips a batch.
- YAML parsing, URL parsing and file watching: URL validity is a parameter, and a reload is any accepted list at any time.
- HTTP routing, JSON encoding, the socket listener, `StatusHandler` and the terminal user interface.
- The FNV hash: any 64-bit value per name.
- Floating point: uptime is a real number, days left an integer division; rounding in `Hours()/24` and in the percentage is not modelled.
- Integer width: durations and times are unbounded, except for the saturating time difference and the conversion of the offset.
- The `serveErr` branch of `run`, which neither drains nor closes: the shutdown theorems are about the signal path, and the HTTP shutdown before the waits is no step of the model.
- The intervals, timeouts and sizes fixed in the program (30 s, 10 s, five workers, hourly sweeps of 30 days, 256 alerts): all are parameters.
- Timers and tickers: a jitter timer, a tick or a sweep may fire at any time, which only adds runs; the makespan alone uses times.
- Goroutines of `runOnce`, `Async` and `run` are transition systems and not classes, because their behaviour is the interleaving; the methods of `Async` beside them are the critical sections one goroutine runs.
- TimedBatch.BatchEndsInTime: jitter timers fire exactly at their offset, and everything but timers and probes takes no time.
- Shutdown.ShutdownEndToEnd: orders the alerts per monitor; alerts of different monitors reach the children in one common order, which the interleaving decides.
- AsyncQueue.Async.Close: is the call of one goroutine with a deadline counted in deliveries; concurrent callers are in the protocol.
- Liveness.SignalLeadsToDone: says that the end can be reached; that fair runs reach it is `FairRunsEnd`.
- Liveness.ProbingNeverWaits: says that the call can end; that it does in fair runs is `FairRunsTell`.
- RowAgreement.RowsAfterRestart: needs a clock that does not go back across restarts, and a machine with three observations of its own.
