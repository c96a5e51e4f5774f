# Gritz: the run protocol and its streams, in Dafny

Gritz runs coding agents in remote sandboxes. This project models the parts of
it that have to be right whatever the timing: the protocol by which a task's
runs are started, reported and ended, the records that survive crashes, and the
event and log streams in between. `dafny verify dfyconfig.toml` checks it all.

Code that changes state is modelled as classes whose methods are tied, old state
to new, to functions of plain values; what matters is then proved about those
functions over every sequence of steps.

- `Task.dfy`: the task row; user operations and version-stamped runner events.
- `RunProtocol.dfy`: one task's row, event stream and driver processes, in any
  interleaving: no wake is lost.
- `RunDelivery.dfy`: the same protocol with the drivers' persisted cursor in it: every
  owed wake is delivered, and exactly when it is not.
- `DriverServer.dfy`: the durable run record, the driver server's critical
  sections, and every interleaving of requests, goroutines, crashes and reboots.
- `Trie.dfy`, `Redact.dfy`, `LogShip.dfy`: the byte trie, streaming secret
  masking over it, and the log shipper.
- `Pagination.dfy`, `TaskLog.dfy`, `Driver.dfy`: keyset pages, the transcript
  reader, and a driver's runs with their persisted event cursor.
- `Runner.dfy`, `RunnerClass.dfy`: concurrency slots, task records, supervisors
  and backstop events, as steps and as the runner's own methods.
- `EventRouter.dfy`, `RouterRuns.dfy`: rule matching, waking and creating, and
  deduplication over runs of events.
- `Option.dfy`, `Sequences.dfy`: what several of these share.
- `Strings.dfy`, `Json.dfy`, `Scope.dfy`: capability scopes with their JSON
  predicates.
- `RoutingKey.dfy`, `RoutingForms.dfy`: the URL normaliser, and exactly which URLs
  it recognises.
- `Sticky.dfy`: the microVM shim's exit broadcaster and the hooks driving it.

Outcomes of the network, disks, backends, clocks and contexts are parameters of
the methods and labels of the steps, so a statement for all of them is a
statement for every such outcome.

## Where the code and its own comments differ

The model follows the code. In each case a statement below says exactly when.

- `internal/runner/agent/driver.go:205-208` says a first drain starts at the head
  of the stream. An empty cursor opens on the newest page, so it does only with
  at most 50 pending events (`Drivers.Driver.DrainEvents`,
  `Drivers.OpensAtHeadExactly`). A wake that comes during a run that does not save
  can be passed over for good that way (`RunDelivery.NextRunDelivers`,
  `RunDelivery.UnsavedRunSkipsWake`).
- `internal/runner/agent/log.go:140-144` says stamping a version cuts a chunk.
  `internal/runner/logship/logship.go:172-176` only sets the field.
- `internal/server/eventrouter/eventrouter.go:167-169` says every match gets an
  outcome. A failed creation skips the assignment and leaves a zero outcome
  without org or rule (`RouterRuns.OutcomesNameTheirRules`).
- `internal/auth/authscope/parse.go:100-102` means to reject trailing data. A
  closing brace or bracket after the object is let through (`Json.ReadsBack`).
- `internal/runner/runner.go:562-564` returns nil for a sandbox already running
  while the caller keeps its slot (`RunnerSteps.LeaksExactly`; a run from boot that
  does it is `RunnerSteps.RunningSandboxLeaksSlot`).
- `internal/model/task.go:257-262`: a repeated `started` of a live run consumes a
  queued start (`RunProtocol.WakeLostExactly`).
- `internal/auth/authscope/scope.go:50-62` keeps the last value of a repeated
  attribute where matching looks at the first
  (`Scopes.BuiltScopePermitsItsRequest`).
- `internal/model/url.go:18-24` calls the key stable. It changes on a second
  application when an escaped `?`, `#` or percent sign in the path, or an escaped
  percent sign in the host, is decoded into it and the result is still recognised
  (`RoutingKeys.StableExactly`; two whole families are
  `RoutingKeys.EscapedKeyIsNotStable` and `RoutingKeys.DoublyEscapedIsNotStable`).

## Model

| member | source | states |
|---|---|---|
| `Tasks.ReachableConsistent` | `internal/model/task.go:222-497` | after any sequence of user operations and runner events from a created task: Pending carries Start or Restart, Running none or Start, Restarting Restart, Cancelling Stop, terminal and draft none; only terminal, draft and cancelling tasks are archived |
| `Tasks.VersionsNeverDecrease` | `internal/model/task.go:450-497` | no operation and no event ever lowers the version |
| `Tasks.AppliedEventLowersRank` | `internal/model/task.go:249-317` | an applied runner event on a non-archived task strictly lowers a rank, except `started` on a cancelled task, which lifts it from 0 to 1 |
| `Tasks.AppliedEventsAreBounded` | `internal/model/task.go:222-317` | between user operations at most rank + 2 per such exception of any delivered, duplicated or reordered events change the row |
| `Tasks.OutcomeDecidedOnce` | `internal/model/task.go:222-317` | once a `stopped` or `failed` stamped N >= 1 was applied, no later one stamped N is, whatever happens in between, unless a `started` revives run N |
| `Tasks.SettledUnlessRevived` | `internal/model/task.go:249-271` | one operation reopens an ended run exactly when it is an applied `started` for that run (or unscoped) on a cancelled or archived row |
| `Tasks.RevivedRunSettlesAgain` | `internal/model/task.go:249-306` | the exception is real: after such a `started` a second `stopped` of the same run is applied |
| `Tasks.BackstopSparesLaterRuns` | `internal/model/task.go:222-247` | an event stamped with an earlier run never changes a row that has moved past it, whatever follows |
| `Tasks.StoppedHonoursUsers` | `internal/model/task.go:273-306` | the `stopped` of a live run, after any user operations, does what they asked: the first cancel or restart decides, else any starts queue exactly one next run, else it completes |
| `Tasks.CancellingIgnoresUsers` | `internal/model/task.go:363-497` | user operations leave a cancelling task as it is |
| `Tasks.FailedHonoursUsers` | `internal/model/task.go:308-317` | the `failed` of a run that waits, lives or is being stopped, after any user operations, fails the task and clears the command, queued starts included; only a restart of a live run or a cancel of a waiting one makes it mean nothing |
| `Tasks.StartedHonoursUsers` | `internal/model/task.go:249-271` | the `started` of a waiting run, after any user operations, makes the task live; cancelled first, the sandbox is stopped again, unless the task already is being stopped or has moved on |
| `Tasks.StartedAgainHonoursUsers` | `internal/model/task.go:249-271` | a live run's second `started`, after any user operations, takes back a queued start and does nothing else |
| `Tasks.StoppedUnstartedHonoursUsers` | `internal/model/task.go:273-306` | the `stopped` of a run that is not live, after any user operations, counts exactly where a stop was asked for |
| `Tasks.RestingIgnoresReports` | `internal/model/task.go:222-317` | a task at rest takes no report but the `started` of a cancelled or archived run, which the next `stopped` brings back to rest |
| `Tasks.EventsNameTheirRun` | `internal/model/task.go:222-247` | version 0 means the current run, any other must be its own; reconcile events, other kinds and a `stopped` before a pending restart mean nothing |
| `Tasks.StartLeadsToRun` | `internal/model/task.go:466-497` | a start is accepted at rest or live, and leads to one more live run at the next version, at once or after the present run's `stopped` |
| `Tasks.RestartLeadsToRun` | `internal/model/task.go:434-464` | a restart is accepted live or ended, and leads to a live run at the next version; cancelled before that, a sandbox that was live is stopped and any other never started |
| `Tasks.CancelLeadsToCancelled` | `internal/model/task.go:400-432` | a cancel is accepted waiting or live, and ends the task cancelled, at once or with its run's `stopped` |
| `Tasks.ArchivedIsFrozen` | `internal/model/task.go:363-398` | archiving freezes a task at rest against every user operation but unarchiving, which clears the timeout alone |
| `Tasks.OnlyRestingIsArchived` | `internal/model/task.go:363-398` | a task is archived exactly when at rest |
| `Tasks.Task.constructor` | `internal/model/task.go:63-92` | a created task is Pending/Start at version 1 or a draft at version 0 |
| `Tasks.Task.ApplyRunnerEvent` | `internal/model/task.go:222-247` | reports whether the event applies and changes the row to its fold, else leaves it |
| `Tasks.Task.ApplyStarted` | `internal/model/task.go:249-271` | the fold of `started`, branch by branch |
| `Tasks.Task.ApplyStopped` | `internal/model/task.go:273-306` | the fold of `stopped` |
| `Tasks.Task.ApplyFailed` | `internal/model/task.go:308-317` | the fold of `failed` |
| `Tasks.Task.Start` | `internal/model/task.go:487-497` | starts or queues a start; false and unchanged when not allowed |
| `Tasks.Task.Restart` | `internal/model/task.go:450-464` | a new version that a running task must be restarted into |
| `Tasks.Task.Cancel` | `internal/model/task.go:418-432` | Cancelling with Stop for a live run, Cancelled at once for a pending one |
| `Tasks.Task.Archive` | `internal/model/task.go:373-380` | archives exactly when terminal or draft with no command |
| `Tasks.Task.Unarchive` | `internal/model/task.go:390-398` | unarchives and clears the auto-archive timeout |
| `Tasks.Task.PendingRunner` | `internal/model/task.go:502-507` | names the runner exactly when a non-archived task has a command |
| `RunProtocol.RowHasItsHistory` | `internal/model/task.go:222-497` | in any interleaving the row has exactly the history that users, router, drivers and outbox gave it, so every law of the row holds in the protocol |
| `RunProtocol.WakesAreQueued` | `internal/server/eventrouter/eventrouter.go:313-378` | an event is appended as a wake exactly when asked for and, for an instruction, allowed; a startable task then has a start queued |
| `RunProtocol.NoWakeIsEverLost` | `internal/runner/agent/driver.go:57-117` | over every interleaving of users, router, drivers, crashes and outbox deliveries in which each run has `started` applied at most once: a wake event appended after the current run drained leaves command Start |
| `RunProtocol.WakeLostExactly` | `internal/model/task.go:257-262` | a step from a good state loses a wake exactly when it is a second `started` of a live run that is owed one |
| `RunProtocol.OwedRunProvisionsNext` | `internal/model/task.go:273-306` | that run's own `stopped` makes the task Pending with Start and the next version, never Completed |
| `RunProtocol.SecondStartedLosesWake` | `internal/model/task.go:257-262` | six steps with two drivers of one run after which the task completes with a wake undelivered |
| `RunDelivery.OwedWakeAwaits` | `internal/runner/agent/driver.go:51-270` | over every interleaving with the persisted cursor in the world: while a wake is owed the next run is queued and the event is delivered already or at or after the saved cursor, unless a run that saved had opened past it |
| `RunDelivery.NextSaveDelivers` | `internal/runner/agent/driver.go:196-270` | whatever steps in between: once a run that drained after an event was appended has saved, the event is in its batch or an earlier one, unless a run that saved had opened past it |
| `RunDelivery.SkipsExactly` | `internal/runner/agent/driver.go:326-344` | a step passes an event over exactly when it is the save of a run that had opened past it |
| `RunDelivery.OpensPastExactly` | `internal/gritzclient/events.go:35-65` | a run opens past an event exactly when it loaded no cursor and more than 50 events stand from that one on |
| `RunDelivery.NextRunDelivers` | `internal/runner/agent/driver.go:51-270` | the run provisioned by the owing run's `stopped` delivers the owed wake exactly unless no cursor had been saved and a full page of events had followed it |
| `RunDelivery.SetupKeepsCursor` | `internal/runner/agent/driver.go:276-324` | a setup save leaves the cursor where the driver found it |
| `RunDelivery.EmptySaveSkipsWake` | `internal/runner/agent/driver.go:205-208` | a first run that saves over an empty stream leaves no cursor, so a wake and fifty more events are passed over too |
| `RunDelivery.UnsavedRunSkipsWake` | `internal/runner/agent/driver.go:205-208` | so a wake and fifty more events during a first run that does not save: the wake is owed, and the next run passes it over |
| `RunRecords.RecordFile.Write` | `internal/runner/runrecord/runrecord.go:83-96` | replaces the whole record or, failing, leaves it untouched |
| `RunRecords.RecordFile.Reconcile` | `internal/runner/runrecord/runrecord.go:98-113` | a record still Running becomes Finished and unreported with the same version; any other is left alone; errors change nothing |
| `DriverServer.Server.constructor` | `internal/runner/driverserver/driverserver.go:109-134` | starts from the reconciled record with no active run |
| `DriverServer.Server.Open` | `internal/runner/driverserver/driverserver.go:221-255` | each refusal, attachment and start in the order of the checks; refused requests change nothing; a new run is begun only after its Running record is on disk |
| `DriverServer.Server.Begin` | `internal/runner/driverserver/driverserver.go:272-288` | writes the Running record first; a failed write starts nothing |
| `DriverServer.Server.Status` | `internal/runner/driverserver/driverserver.go:175-182` | reports the record in memory |
| `DriverServer.Server.Release` | `internal/runner/driverserver/driverserver.go:257-262` | ends the open stream |
| `DriverServer.Server.FinishWrite` | `internal/runner/driverserver/driverserver.go:319-330` | writes the finished record outside the lock, whether or not the write succeeds |
| `DriverServer.Server.FinishPublish` | `internal/runner/driverserver/driverserver.go:330-334` | publishes the finished record and wakes the stream |
| `DriverServer.Server.Stop` | `internal/runner/driverserver/driverserver.go:347-361` | cancels exactly the live active run of that version |
| `DriverServer.Server.Shutdown` | `internal/runner/driverserver/driverserver.go:363-381` | refuses new runs and cancels the active one |
| `DriverServerRuns.InvNext` | `internal/runner/driverserver/driverserver.go:188-381` | the server invariant (memory, disk, goroutines and streams agree; the disk record is at the last version started or past it) is kept by every step, failed writes and crashes included, also one between the write of the Running record and the start of its run |
| `DriverServerRuns.AtMostOnceExecution` | `internal/runner/driverserver/driverserver.go:221-288` | over any run of requests, finishes, failed writes, reboots and crashes, also between the write of the Running record and the start, the versions started are strictly increasing |
| `DriverServerRuns.CrashBeforeStartForfeitsRun` | `internal/runner/driverserver/driverserver.go:272-288` | a crash between the write of the Running record and the start costs that run: whatever follows, its version is never started |
| `DriverServerRuns.AnswersExactly` | `internal/runner/driverserver/driverserver.go:221-255` | every answer in every reachable state, by what happened before: a stream open, the version on disk, the versions this process began, something executing, no spec, a Shutdown, a failed write, else begun |
| `DriverServerRuns.CancelledExactly` | `internal/runner/driverserver/driverserver.go:347-370` | Stop says true exactly when that run executes; the active run is cancelled exactly when a Stop of its version or a Shutdown came while it executed |
| `DriverServerRuns.NothingStartsAfterShutdown` | `internal/runner/driverserver/driverserver.go:244-246` | from the call of Shutdown on, before it returns, nothing starts in that process |
| `DriverServerRuns.ActiveStreamHearsTheTruth` | `internal/runner/driverserver/driverserver.go:203-206` | a stream on a run this process executed ends with reported exactly when the driver returned nil |
| `DriverServerRuns.StatusTellsTheTruth` | `internal/runner/driverserver/driverserver.go:175-182` | of a run this process executed Status shows running while it executes and then whether the driver returned nil |
| `DriverServerRuns.WrittenOutcomeSurvives` | `internal/runner/driverserver/driverserver.go:319-334` | once written an outcome survives any crash: a late attach is told whether the driver returned nil |
| `DriverServerRuns.CrashIsRecordedOnce` | `internal/runner/runrecord/runrecord.go:98-113` | a run cut short is recorded at the next boot as finished then and unreported, and later boots leave that alone |
| `DriverServerRuns.BootsExactly` | `internal/runner/driverserver/driverserver.go:109-134` | a server comes up exactly when the record can be read and, if it says running, corrected |
| `DriverServerRuns.NeverBegunAgain` | `internal/runner/driverserver/driverserver.go:221-255` | a version that was started is never begun again |
| `DriverServerRuns.HonestReporting` | `internal/runner/driverserver/driverserver.go:290-334` | a Finished reply or a record says reported only for a version whose driver returned nil |
| `DriverServerRuns.RebootOnlyDowngrades` | `internal/runner/runrecord/runrecord.go:98-113` | after a crash and a reboot an attach says reported only if the disk said so before the crash, and the last version still attaches |
| `DriverServerRuns.OneRunOneStream` | `internal/runner/driverserver/driverserver.go:221-334` | the in-memory record is Running iff the active run has its version and is not done; at most one run executes and one stream is open |
| `DriverServerRuns.FinishWriteHitsOwnRecord` | `internal/runner/driverserver/driverserver.go:319-334` | though written outside the lock, a finish write only ever replaces its own run's record |
| `DriverServerRuns.SynthesisedOnlyWhenFinished` | `internal/runner/driverserver/driverserver.go:221-270` | a finished run is synthesised only from a record that says Finished |
| `DriverServerRuns.ShutdownIsFinal` | `internal/runner/driverserver/driverserver.go:363-381` | once Shutdown has returned nothing executes and nothing starts in that process |
| `Redact.MaskedIsLeftmostLongest` | `internal/x/redact/redact.go:107-156` | any cutting of the stream into literals and secrets that is leftmost and longest shows exactly what the writer emits |
| `Redact.EveryStreamIsCut` | `internal/x/redact/redact.go:107-156` | every stream has such a cutting |
| `Redact.ChoppingIsInvisible` | `internal/x/redact/redact.go:84-105` | writing a stream in any pieces and flushing emits the mask of the whole stream |
| `Redact.HeldIsLivePrefix` | `internal/x/redact/redact.go:107-156` | bytes are held back only while they begin some secret, and none after a flush |
| `ByteTries.Trie.Put` | `internal/x/bytetrie/bytetrie.go:28-48` | stores the value in place of the key's old one and keeps every other; an empty key changes nothing |
| `ByteTries.Trie.Lookup` | `internal/x/bytetrie/bytetrie.go:50-79` | the longest stored key that is a prefix of the bytes, its value, and partial exactly when a longer stored key starts with all of them |
| `ByteTries.ChildrenMeanMore` | `internal/x/bytetrie/bytetrie.go:55-60` | the node a walk ends on has children exactly when a longer key is stored |
| `ByteTries.NothingBeyond` | `internal/x/bytetrie/bytetrie.go:68-71` | where a walk stops short no longer prefix is stored and no stored key goes on |
| `Redact.MarkerNamesSecret` | `internal/x/redact/redact.go:26-30` | a marker is `[gritz:masked <name>]` and tells names apart |
| `Redact.FirstNameStands` | `internal/x/redact/redact.go:43-46` | every non-empty value is masked, with the marker of the first name that has it |
| `Redact.Writer.constructor` | `internal/x/redact/redact.go:58-73` | builds the trie by putting the names in reverse order |
| `Redact.Writer.Walk` | `internal/x/redact/redact.go:119` | one walk of the trie finds what the scan decides by |
| `Redact.Writer.Decide` | `internal/x/redact/redact.go:118-137` | one decision of the scan: a literal byte joins the pending run, a secret puts the run out with its marker |
| `Redact.Writer.Write` | `internal/x/redact/redact.go:84-98` | emits and holds what one scan of the held bytes and the new ones decides |
| `Redact.Writer.Flush` | `internal/x/redact/redact.go:100-105` | masks and empties what was held |
| `Redact.Writer.Consume` | `internal/x/redact/redact.go:107-156` | the in-place scan emits and holds what the recursive one does |
| `LogShip.NothingIsLostOrReordered` | `internal/runner/logship/logship.go:189-332` | for every interleaving of writes, version stamps, mask flushes, drains and replies: accepted masked bytes are the cut chunks plus the buffer; chunks have 1 to chunkSize bytes; the server holds the cut chunks in order, again once per lost acknowledgement, without the refused and the one in flight |
| `LogShip.FlushShipsTheMaskedStream` | `internal/x/redact/redact.go:84-156` | end to end: a stream written in any pieces that fit the cap, then flushed past any number of transient failures, reaches the server as exactly its mask, in order and once |
| `LogShip.EachReplySettlesItsChunk` | `internal/runner/logship/logship.go:292-332` | an acknowledgement delivers the chunk in flight, a permanent refusal gives it up, and nothing else does either |
| `LogShip.OtherRepliesRetry` | `internal/runner/logship/logship.go:315-332` | after any other reply the same chunk is in flight, to be sent again before anything newer |
| `LogShip.OnlyPermanentRefuses` | `internal/runner/logship/logship.go:315-327` | over a whole drain without a permanent refusal no chunk is given up |
| `LogShip.PassEndsExactly` | `internal/runner/logship/logship.go:292-332` | a pass ends the drain in success exactly when nothing may be sent, in failure exactly when the context ends before the request or in a retry's sleep |
| `LogShip.ChunksCarryTheStamp` | `internal/runner/logship/logship.go:172-176` | chunks cut after a stamp carry it, and no earlier chunk changes |
| `LogShip.WriteIsWhole` | `internal/runner/logship/logship.go:189-206` | a write is kept whole when it fits the cap and dropped whole when not; the mask has seen it either way |
| `LogShip.MaskStaysInStep` | `internal/runner/logship/logship.go:191-199` | after any writes, kept or dropped, the mask is where the whole stream leaves it |
| `LogShip.FittingWritesAreKept` | `internal/runner/logship/logship.go:189-206` | writes whose masks fit the cap together are all accepted |
| `LogShip.WriteRespectsCap` | `internal/runner/logship/logship.go:189-206` | a write never shrinks the buffer and grows it to at most the cap |
| `LogShip.DrainCompletes` | `internal/runner/logship/logship.go:292-332` | a drain that returns true leaves nothing in flight and less than a chunk; with partial, every byte accepted at entry was acknowledged or refused, with at most one short chunk newly cut, whatever writers did meanwhile |
| `LogShip.QuietDrainTerminates` | `internal/runner/logship/logship.go:292-332` | without writers, once more than |buffer| + in-flight requests are settled the drain has returned true, with partial on an empty buffer |
| `LogShip.Shipper.SetVersion` | `internal/runner/logship/logship.go:172-176` | stamps later chunks; cuts nothing |
| `LogShip.Shipper.Write` | `internal/runner/logship/logship.go:189-206` | appends the whole masked output or drops it at the cap; says whether a chunk is full |
| `LogShip.Shipper.CutNext` | `internal/runner/logship/logship.go:264-282` | cuts the head of the buffer into the in-flight chunk, or nothing |
| `LogShip.Shipper.Send` | `internal/runner/logship/logship.go:292-332` | what each reply does to the in-flight chunk |
| `LogShip.Shipper.Turn` | `internal/runner/logship/logship.go:292-332` | one pass of the drain loop |
| `LogShip.Shipper.Drain` | `internal/runner/logship/logship.go:292-332` | the loop, tied to its specification for every sequence of passes |
| `LogShip.Shipper.Flush` | `internal/runner/logship/logship.go:241-256` | flushes the mask, then drains with partial |
| `Pagination.NewerPage` | `internal/x/pagination/pagination.go:147-219` | a page after a cursor holds the next rows in order, says whether more follow, and its next cursor stands just past them |
| `Pagination.OlderPage` | `internal/x/pagination/pagination.go:147-219` | a page before a cursor, or the newest page, holds the rows just before it, with the cursors either side |
| `TaskLogs.CoveredIsExactlyOnce` | `internal/gritzclient/logs.go:107-140` | what a reader has yielded is exactly the log up to its follow cursor, each chunk once and in id order |
| `TaskLogs.TaskLog.Fetch` | `internal/gritzclient/logs.go:243-256` | what one request returns from wherever its token stands, and exactly when it fails; the next one meets a later log |
| `TaskLogs.TaskLog.Walk` | `internal/gritzclient/logs.go:46-80` | the newer walk extends what was yielded to the tail, over a growing log; on an error the cursor stays just past what was yielded, and it fails only when its last request did |
| `TaskLogs.TaskLog.OldestPage` | `internal/gritzclient/logs.go:140-175` | the backward pass ends on the oldest page despite appends |
| `TaskLogs.TaskLog.History` | `internal/gritzclient/logs.go:140-192` | yields a prefix of the log up to the cursor; all of it up to a tail when nothing failed |
| `TaskLogs.TaskLog.Follow` | `internal/gritzclient/logs.go:202-230` | any number of polls extends what was yielded without gap or repeat, up to an error or a cancelled context |
| `TaskLogs.ReadTranscript` | `internal/gritzclient/logs.go:140-240` | History then any number of follows, each taken up where an error or a cancelled context ended the one before, with the log growing before every request: the chunks are exactly the log up to the cursor |
| `Drivers.OpensAtHeadExactly` | `internal/gritzclient/events.go:35-65` | the page an empty cursor opens on is the whole stream exactly when at most 50 events are pending |
| `Drivers.FirstDrainSkipsHead` | `internal/gritzclient/events.go:35-65` | with 51 pending events the first drain opens on the newest 50 and skips the oldest |
| `Drivers.Driver.NextBatch` | `internal/runner/agent/driver.go:326-344` | one page of the walk, at the cursor or the newest without one |
| `Drivers.Driver.DrainEvents` | `internal/runner/agent/driver.go:326-344` | walks from the persisted cursor to the tail, extending what was delivered; without a cursor it starts at the head of the stream exactly when at most 50 events are pending; it fails only when its last request did |
| `Drivers.Driver.Commit` | `internal/runner/agent/driver.go:260-270` | the save: config, cursor and batch together |
| `Drivers.Driver.Setup` | `internal/runner/agent/driver.go:276-324` | resumes at the persisted count; fails exactly when a remaining command or its save fails, with the count on disk at the first such |
| `Drivers.Driver.RunAgent` | `internal/runner/agent/driver.go:166-270` | the cursor and the batch are committed only by a save after everything before it succeeded (config, setup, links of a first run, prompt); failure leaves both, and a run whose own steps all succeed fails only when an event request did |
| `Drivers.Driver.Run` | `internal/runner/agent/driver.go:51-117` | started first, then exactly one outcome of the same version: stopped exactly for a shell session that ended well, an agent run that was saved, or a stop; nil exactly when it was acknowledged |
| `Drivers.Driver.Runs` | `internal/runner/agent/driver.go:51-270` | over any sequence of runs, failed drains and the runs that recover from them included, the saved batches are one gap-free, duplicate-free stretch ending at the persisted cursor |
| `RunnerSteps.SlotAccounting` | `internal/runner/runner.go:246-311` | in every state reachable after Load: slots held = supervisors waiting + starts in flight + starts that returned nil without launching + supervisors that ended with the runner |
| `RunnerSteps.ReleasesExactlyOne` | `internal/runner/runner.go:253-266` | a failing start and a supervised exit give back exactly one slot; the floor at zero never swallows one |
| `RunnerSteps.RunningSandboxLeaksSlot` | `internal/runner/runner.go:221-270` | from every loaded state with a record of the task at another version and a free slot: a restart whose probe still finds the old sandbox running ends with one slot more held, no handler, no launch and no new supervisor |
| `RunnerSteps.LeaksExactly` | `internal/runner/runner.go:558-564` | a step loses a slot exactly when a handler with a slot finds the task's recorded sandbox running |
| `RunnerSteps.LeaksAreForGood` | `internal/runner/runner.go:558-564` | over any run the number of lost slots never falls |
| `RunnerSteps.LeaksStarve` | `internal/runner/runner.go:246-249` | once as many slots are lost as there are, every later attempt to take one fails and its handler ends |
| `RunnerSteps.RestartNeverKillsItsOwnRun` | `internal/runner/runner.go:221-245` | the restart path never signals a sandbox whose record is at the version being restarted |
| `RunnerSteps.SignalsExactly` | `internal/runner/runner.go:238-242` | the restart path signals exactly where it has passed its guard and can read a record, and signals that record's sandbox |
| `RunnerSteps.OldSandboxIsSignalledFirst` | `internal/runner/runner.go:238-252` | in any interleaving with readable records: before a restart takes a slot or launches, the sandbox still on record has been signalled on its behalf |
| `RunnerSteps.RestartLaunchesAtMostOnce` | `internal/runner/runner.go:221-270` | in any interleaving, with the task listed at versions that never fall and at this one as restarting, cancelling, idle or with a start queued, and unless this run's own record is pruned on the way, the restarted run's sandbox is launched at most once |
| `RunnerSteps.RestartedRowLaunchesOnce` | `internal/runner/runner.go:178-270` | the same with the listings taken from any history of the task row, at times that never run back: what the server does after a restart leaves no other listing |
| `Tasks.RestartedRunStartsNoMore` | `internal/model/task.go:487-497` | whatever happens to a restarted row, while it stays at its version a start command waits behind a live run |
| `RunnerSteps.OtherRunsLaunchNothing` | `internal/runner/runner.go:548-602` | handlers at other versions, cancels and starts queued behind a live run never launch at this one |
| `RunnerSteps.BackstopIsScoped` | `internal/runner/runner.go:623-647` | the event a lost sandbox enqueues is stamped with its own run and never fails a later one |
| `Runners.Semaphore.TryAcquire` | `internal/x/safesem/semaphore.go:28-36` | takes the slots exactly when they fit |
| `Runners.Semaphore.Release` | `internal/x/safesem/semaphore.go:42-50` | gives back slots, floored at zero |
| `Runners.ReportsExactlyTheLost` | `internal/runner/runner.go:339-347` | boot enqueues a failed event, under the record's own version, for exactly the exited or gone sandboxes whose task the server says is running |
| `Runners.DiesExactlyUnreported` | `internal/runner/runner.go:373-383` | boot ends the runner exactly when such a report cannot be stored |
| `Runners.ForgetsExactlyTheGone` | `internal/runner/runner.go:345-349` | boot drops the records of exactly the sandboxes that are gone |
| `Runners.SupervisesExactlyTheRunning` | `internal/runner/runner.go:326-355` | boot supervises exactly the sandboxes found running, in record order |
| `Runners.Runner.Load` | `internal/runner/runner.go:326-355` | re-attaches the running, backstops the exited and gone, and seeds the semaphore with their number |
| `Runners.Runner.FailIfTaskRunning` | `internal/runner/runner.go:360-384` | enqueues a failed event of the record's version exactly when the server still says running |
| `Runners.Runner.SuperviseReturns` | `internal/runner/runner.go:623-647` | one slot back and, on a non-zero exit, one failed event of that run |
| `Runners.Runner.SuperviseDetaches` | `internal/runner/runner.go:623-627` | a Wait ended by the runner's own end keeps slot and record and reports nothing |
| `Runners.Runner.Prune` | `internal/runner/runner.go:650-680` | removes exactly the recorded sandboxes that are not running and whose task is archived or unknown; none when one cannot be probed |
| `Runners.Runner.ResolveHandle` | `internal/runner/runner.go:548-569` | already running, gone, unreadable or provisionable, and what each does to the record |
| `Runners.Runner.Start` | `internal/runner/runner.go:548-602` | the record is written before supervision begins; exactly the launched runs are supervised |
| `Runners.Runner.AcquireAndStart` | `internal/runner/runner.go:250-266` | one slot per launched (or already running) sandbox; a failure gives it back and enqueues failed |
| `Runners.Runner.HandleRestart` | `internal/runner/runner.go:221-270` | does nothing exactly when the record is unreadable or already at this version; otherwise signals the sandbox on record, exactly when there is one and it can be read, and attempts the run: slots, record, supervisor and outbox after it |
| `Runners.Runner.HandleStart` | `internal/runner/runner.go:271-311` | does nothing exactly when the task or its sandbox is running or unreadable; otherwise attempts the run, signalling nothing |
| `Runners.Runner.HandleStop` | `internal/runner/runner.go:193-220` | enqueues stopped when no sandbox was signalled |
| `Runners.Runner.Poll` | `internal/runner/runner.go:178-311` | every listed task gets its handler, also after a durable write has failed, no pass begins after that, and afterwards the slots are supervisors plus leaks plus detached ones |
| `RoutingRules.ConditionsNarrow` | `internal/server/eventrouter/rule.go:24-28` | a further condition is one more thing to hold |
| `RoutingRules.NamesNarrow` | `internal/server/eventrouter/rule.go:17-23` | a rule that names nothing matches every event; a source or kind it names has to be the event's |
| `RoutingRules.AnyValueWill` | `internal/server/eventrouter/rule.go:36-55` | a condition holds exactly when one of the values satisfies it, and of no value never |
| `RoutingRules.OperatorsExactly` | `internal/server/eventrouter/rule.go:38-53` | equals, prefix and contains of a value, and no other operator |
| `RoutingRules.ReservedAttributes` | `internal/server/eventrouter/eventrouter.go:58-67` | body and url are the event's own, whatever attributes of those names it carries |
| `RoutingRules.PlannedRuleApplies` | `internal/server/eventrouter/eventrouter.go:143-160` | an org's planned rule matches, is open to the actor, and no earlier rule is both |
| `RoutingRules.LeftOutExactly` | `internal/server/eventrouter/eventrouter.go:143-160` | an org is left out exactly when none of its rules matches and is open to the actor |
| `RoutingRules.Plan` | `internal/server/eventrouter/eventrouter.go:128-162` | per org, in order, its first eligible matching rule |
| `RoutingRules.PlanIsLeastPerOrg` | `internal/server/eventrouter/eventrouter.go:143-161` | an org is planned iff one of its eligible rules matches, with the least such index, and at most once |
| `RoutingRules.PassedOverExactly` | `internal/server/eventrouter/eventrouter.go:144-159` | a rule that would fire is passed over exactly when an earlier one fires |
| `EventRouting.Router.Attach` | `internal/server/eventrouter/eventrouter.go:313-378` | one transaction: the event row and, when waking, the task's start; nothing on failure |
| `EventRouting.Router.Create` | `internal/server/eventrouter/eventrouter.go:391-506` | one transaction: task, trigger link and four events in order; nothing on failure |
| `EventRouting.Router.AttachEach` | `internal/server/eventrouter/eventrouter.go:210-226` | the loop over one org's links with its seen set |
| `EventRouting.Router.Apply` | `internal/server/eventrouter/eventrouter.go:173-243` | the loop over the matches, from one link lookup taken at the start |
| `EventRouting.Router.Route` | `internal/server/eventrouter/eventrouter.go:252-283` | nothing for an empty URL; else plan, apply and the tally |
| `EventRouting.SubscribedTo` | `internal/store/sql/queries/link.sql:16-22` | the tasks of exactly the subscribed links with the key whose task is unarchived, in the org and in the namespace |
| `EventRouting.AttachingTells` | `internal/server/eventrouter/eventrouter.go:313-378` | attaching writes one event row with the event's text and one notice: for the runner when the woken task has work, spoken unless a task still at work was woken |
| `EventRouting.CreatingFollowsRule` | `internal/server/eventrouter/eventrouter.go:391-420` | the created task has the rule's workspace, runner, namespace and timeout, waits for its first run and is linked to the event's URL |
| `EventRouting.CreatingWritesTimeline` | `internal/server/eventrouter/eventrouter.go:421-480` | its timeline begins with the event, its creation, its link and the prompt, which alone wakes; the prompt is the rule's own, else one that names the event's source and kind |
| `EventRouting.NewestFirst` | `internal/store/sql/queries/link.sql:16-22` | the tasks of newer links come before those of older ones |
| `EventRouting.AttachesOncePerTask` | `internal/server/eventrouter/eventrouter.go:210-226` | each listed task, however often listed, is told once unless its transaction fails and started once when the rule wakes |
| `RouterRuns.EachTaskToldOnce` | `internal/server/eventrouter/eventrouter.go:192-241` | one Apply tells each subscribed task of a matched org's namespace exactly once, starts it exactly when its rule wakes, and touches no other task |
| `RouterRuns.ToldExactly` | `internal/server/eventrouter/eventrouter.go:192-241` | read off the tables: an unarchived task is told once exactly when a match for its org and namespace and a subscribed link with the key lead to it, and started exactly when that match's rule wakes |
| `RouterRuns.CreatedExactly` | `internal/server/eventrouter/eventrouter.go:192-241` | one task is created for each match whose rule creates and that no unarchived subscribed task of its org and namespace answers, and none else |
| `RouterRuns.OutcomesPointAtRows` | `internal/server/eventrouter/eventrouter.go:69-88` | the event rows an outcome names are its tasks' own, in order, each telling of the event in the match's org |
| `RouterRuns.OutcomesNameTheirRules` | `internal/server/eventrouter/eventrouter.go:193-241` | one outcome per match; it names org and rule except exactly when a creation failed, where it is the zero outcome |
| `RouterRuns.TallyCountsEvents` | `internal/server/eventrouter/eventrouter.go:275-282` | the number Route returns is the number of trigger events written |
| `RouterRuns.NobodySubscribes` | `internal/store/sql/queries/link.sql:16-22` | the lookup is empty exactly when no subscribed link of an unarchived task has the key, org and namespace |
| `RouterRuns.DuplicatesExactly` | `internal/server/eventrouter/eventrouter.go:192-236` | a second task for one org, key and namespace appears exactly when the router creates while the earlier one is hidden from the lookup |
| `RouterRuns.RedeliveryFindsTheTask` | `internal/server/eventrouter/eventrouter.go:380-386` | after a creation the task is the one subscriber of its org, key and namespace, in a state a created row may have; the next event for them tells it alone and creates nothing |
| `RouterRuns.AtMostOneTaskPerSlot` | `internal/server/eventrouter/eventrouter.go:380-390` | over any run of routed events, with anything in between that leaves the router's tasks findable, at most one task per org, routing key and namespace |
| `RoutedResources.OneTaskPerGithubResource` | `internal/model/url.go:18-31` | so two creations for one GitHub issue or pull request in one org and namespace, by any two of its web or REST URLs, are one |
| `RoutedResources.OtherFormFindsTheTask` | `internal/model/url.go:18-31` | after a creation for one URL of an issue or pull request, an event with any other of its URLs is attached to that task and creates nothing |
| `RoutedResources.FormsName` | `internal/model/url.go:25-29` | the web and the REST URL of every sub-page, with any query or fragment, are among those URLs |
| `RoutedResources.OneKeyPerResource` | `internal/model/url.go:18-31` | every URL that names a GitHub issue or pull request has its web URL as key |
| `Json.ReadsBack` | `internal/auth/authscope/parse.go:94-119` | a predicate object written in any key order reads back as itself; text after it is accepted exactly when it is white space up to the end or up to a closing bracket or brace |
| `Json.ReadsEveryWriting` | `internal/auth/authscope/parse.go:94-109` | every writing of an object of strings and nulls is read (RFC 8259): white space between tokens, every form of every character, the last value of a repeated key |
| `Json.EndsExactly` | `internal/auth/authscope/parse.go:100-102` | what may follow the object is white space, up to the end or up to a closing bracket or brace with anything behind it |
| `Json.BrokenStringIsRefused` | `internal/auth/authscope/parse.go:94-99` | a string that breaks off or goes on with a control character or a broken escape is refused |
| `Json.LoneSurrogateIsReplaced` | `internal/auth/authscope/parse.go:94-99` | half a pair of escapes reads as the replacement character |
| `Json.WrittenIsPlain` | `internal/auth/authscope/parse.go:112-119` | what is written holds no control character and none of <, >, & |
| `Scopes.ParsesOpExactly` | `internal/auth/authscope/parse.go:83-89` | text is an operation exactly when it is the text of a well-formed one |
| `Scopes.ParsesPinsExactly` | `internal/auth/authscope/parse.go:21-36` | a scope with predicates parses exactly when operation and object both do, and keeps both |
| `Scopes.ParseScopes` | `internal/auth/authscope/parse.go:40-53` | all scopes in order, or none when one is malformed |
| `Scopes.RoundTripsExactly` | `internal/auth/authscope/parse.go:21-36` | printing and parsing gives a scope with the same meaning exactly when the operation has a segment, none empty and none with a dot or colon |
| `Scopes.SetRoundTrips` | `internal/auth/authscope/parse.go:55-79` | a whole printed set parses again and allows the same requests and operations |
| `Scopes.ParsedIsWellFormed` | `internal/auth/authscope/parse.go:83-89` | whatever parses has an operation that prints unambiguously |
| `Scopes.SegmentsCover` | `internal/auth/authscope/scope.go:118-131` | a star stands for any one segment, a name for itself; another length is never covered |
| `Scopes.PinsNarrow` | `internal/auth/authscope/scope.go:133-147` | each predicate is one more attribute value to hold |
| `Scopes.SetsAdd` | `internal/auth/authscope/scope.go:90-97` | a set allows exactly what one of its scopes permits |
| `Scopes.FirstValueCounts` | `internal/auth/authscope/scope.go:149-156` | matching goes by the first attribute of a name |
| `Scopes.LastValueCounts` | `internal/auth/authscope/scope.go:53-62` | building goes by the last attribute of a name |
| `Scopes.SubsumesExactly` | `internal/auth/authscope/scope.go:143-156` | one scope permits all another does exactly when it covers its operation as a pattern and pins no more: predicates only narrow |
| `Scopes.SameMeaningExactly` | `internal/auth/authscope/scope.go:17-30` | two scopes permit the same requests exactly when they read the same, nil and empty predicates apart |
| `Scopes.AllowOpIsSomeInstance` | `internal/auth/authscope/scope.go:99-112` | AllowOp holds exactly when Allow holds for some attributes |
| `Scopes.AttrValue` | `internal/auth/authscope/scope.go:146-156` | a value exactly when some attribute has the name |
| `Scopes.New` | `internal/auth/authscope/scope.go:50-62` | each name keeps its last value; nil predicates exactly without attributes |
| `Scopes.BuiltScopePermitsItsRequest` | `internal/auth/authscope/scope.go:146-156` | a scope built from a request's attributes permits it exactly when every name's first value is its last |
| `Sticky.Lifecycle.Publish` | `internal/runner/microvmshim/lifecycle.go:22-37` | the exit becomes sticky and goes to every channel with room |
| `Sticky.Lifecycle.Reset` | `internal/runner/microvmshim/lifecycle.go:42-46` | clears the sticky exit only |
| `Sticky.Lifecycle.constructor` | `internal/runner/microvmshim/lifecycle.go:14-18` | no sticky exit and no subscriber |
| `Sticky.Lifecycle.Subscribe` | `internal/runner/microvmshim/lifecycle.go:50-71` | a fresh empty channel and the sticky exit |
| `Sticky.Lifecycle.Unsubscribe` | `internal/runner/microvmshim/lifecycle.go:65-69` | drops the channel |
| `Sticky.Server.Spawn` | `internal/runner/microvmshim/microvmshim.go:287-304` | resets before the driver starts; a failed start keeps the previous process current |
| `Sticky.Server.RunHook` | `internal/runner/microvmshim/microvmshim.go:156-186` | a repeat is a no-op; fetch and provision errors change nothing; else started, bundle kept and spawned |
| `Sticky.Server.ResumeHook` | `internal/runner/microvmshim/microvmshim.go:192-205` | a no-op before the first run, else a spawn |
| `Sticky.Server.SuspendHook` | `internal/runner/microvmshim/microvmshim.go:211-214` | clears the sticky exit |
| `Sticky.Server.Supervise` | `internal/runner/microvmshim/microvmshim.go:309-315` | publishes the run's exit |
| `Sticky.UnreadChannelHolds` | `internal/runner/microvmshim/lifecycle.go:22-37` | a subscriber that reads nothing has the first sixteen events since it joined |
| `Sticky.LatestExitSticks` | `internal/runner/microvmshim/lifecycle.go:22-37` | what sticks is the latest exit, whatever else is published |
| `StickyDelivery.ExitsAtMostOnce` | `internal/runner/microvmshim/microvmshim.go:287-315` | a driver that could not be launched never exits, and one that was exits once |
| `StickyDelivery.RunHookStartsOnce` | `internal/runner/microvmshim/microvmshim.go:156-205` | a run hook after the first and a resume before it do nothing |
| `StickyDelivery.NothingMissedOrRepeated` | `internal/runner/microvmshim/lifecycle.go:14-71` | over every run without a full channel a subscriber holds an unbroken, repeat-free stretch of the exits up to the latest |
| `StickyDelivery.RoomIsWhatItTakes` | `internal/runner/microvmshim/lifecycle.go:29-36` | a subscriber keeps that through a publish exactly when its channel had room |
| `StickyDelivery.EveryOwedExitOnce` | `internal/runner/microvmshim/lifecycle.go:39-71` | when spawn and suspend also wait for the previous exit, a subscriber gets exactly one exit for every finished run from the one it joined during, none of an earlier run, by replay or channel |
| `StickyDelivery.LateJoinerGetsReplay` | `internal/runner/microvmshim/lifecycle.go:48-63` | a replay is given exactly after the current run's exit and before the reset that ends it |
| `StickyDelivery.StaleExactly` | `internal/runner/microvmshim/microvmshim.go:287-315` | a step makes the replay stale exactly when it is the exit of a live run that a later one has overtaken |
| `StickyDelivery.StaleReplay` | `internal/runner/microvmshim/microvmshim.go:287-315` | whoever joins after that is handed the earlier run's exit |
| `StickyDelivery.ResumeTooEarly` | `internal/runner/microvmshim/microvmshim.go:192-205` | run, launch and a resume before the exit reach such a state from boot |
| `RoutingKeys.StableExactly` | `internal/model/url.go:32-63` | for every URL the key of the key is the key, exactly unless the key's text is recognised again and its path holds one of ? # % or its host is read as another |
| `RoutingKeys.JiraRecognisedAgain` | `internal/model/url.go:75-85` | spelled out for a Jira key: what stands before ? or # decodes to something that does not start with a slash, and the rest can be read |
| `RoutingKeys.DoublyEscapedIsNotStable` | `internal/model/url.go:43-47` | for every owner with an escape escaped again, each application of the key undoes one level |
| `RoutingKeys.TextIsReread` | `internal/model/url.go:33-38` | the text of a host and unescaped path parses to what stands before ? and #, decoded, or not at all |
| `RoutingKeys.KeyIsItsOwn` | `internal/model/url.go:40-63` | a key is the key of its own host and path, which is no longer than the one it came from |
| `RoutingKeys.EscapeFreeIsStable` | `internal/model/url.go:32-63` | for URLs without percent escapes RoutingKey is idempotent |
| `RoutingKeys.GithubFormsAgree` | `internal/model/url.go:25-29` | web and REST URLs of one issue or pull request, with any sub-path, query or fragment, have its web URL as key |
| `RoutingKeys.GithubKeysAreDistinct` | `internal/model/url.go:43-57` | different issues and pull requests have different keys |
| `RoutingKeys.JiraFormsAgree` | `internal/model/url.go:30-31` | the browse and REST URLs of one Jira issue have its browse URL as key |
| `RoutingKeys.EscapedKeyIsNotStable` | `internal/model/url.go:58-63` | for every key with an escaped question mark the second application drops what follows it |
| `RoutingKeys.ParsesDecoded` | `internal/model/url.go:33-38` | printing a host and path and parsing it back gives the host and the decoded path, whatever query or fragment follows |
| `RoutingForms.GithubKeyExactly` | `internal/model/url.go:40-57` | a github.com path has a key exactly when it is an issue's or pull request's path with anything but a digit after the number, and that is its own web URL |
| `RoutingForms.ApiKeyExactly` | `internal/model/url.go:40-57` | likewise for the REST paths of api.github.com |
| `RoutingForms.AtlassianKeyExactly` | `internal/model/url.go:58-85` | on a host ending in .atlassian.net exactly the browse paths, and the REST paths by a key that is not a number, have the browse URL as key |
| `RoutingForms.OtherHostsHaveNoKey` | `internal/model/url.go:40-63` | no other host has keys |
| `RoutingForms.KeyOfAnyWriting` | `internal/model/url.go:32-63` | a resource has one key under every scheme, user, query and fragment, and a URL that names none is its own key |
| `RoutingForms.BrokenTextIsItsOwnKey` | `internal/model/url.go:33-38` | a URL with an escape cut short or not hexadecimal is its own key |

## Left out

- RunDelivery.OwedWakeAwaits: as RunProtocol.NoWakeIsEverLost; a drain ends in one step, with the last page it reads.
- RunProtocol.NoWakeIsEverLost: assumes each run has `started` applied at most once, which the server does not enforce; `RunProtocol.WakeLostExactly` says what happens otherwise.
- StickyDelivery.EveryOwedExitOnce: assumes hooks wait for the previous exit and channels never fill, which the shim leaves to its callers; `StickyDelivery.StaleExactly` and `StickyDelivery.RoomIsWhatItTakes` say exactly what happens otherwise.
- RouterRuns.AtMostOneTaskPerSlot: events are routed one after another; overlapping transactions can still create two tasks, as the source itself says.
- RoutingKeys.StableExactly: the library's reading of hosts is a parameter, relied on only to take percent-free hosts as they stand and to decode no delimiter or control character into one.
- RunnerSteps.SlotAccounting: Load is taken as atomic; in the source its count is set after the supervising goroutines are spawned.
- RunnerSteps.RestartLaunchesAtMostOnce: assumes the restarted run's own record is not pruned on the way; only archived or deleted tasks are pruned, and a listing taken before that could launch the run again.
- Runners.Runner.Poll: one pass handles its tasks one after another; the interleavings of its handlers are covered by the step relation, without the limit on how many run at once.
- TaskLogs.ReadTranscript: a consumer that stops early from an iterator, which leaves the cursor before the page it abandoned.
- Scopes.SetRoundTrips: the outer JSON array of scope strings, and strings that are not valid Unicode; predicates are written in any order, of which the source's sorted one is an instance.
- Sticky.Server.RunHook: concurrent /run hooks, whose check and set are separate critical sections in the source.
- Liveness of the runner, such as a crashed run always becoming failed.
- The 64-bit width of versions, ids and counts.
- The shipper's ticker, backoff delays and failing flag, which change timing and log lines only.
- ByteTries.Trie: a node is identified by its path, so the nodes are one map; the source links node objects, which never share a child.
- The encoding of page tokens and of the run record file: values are stored and compared whole.
- The order of links created at the same instant, and of an org list: the lookup is newest first and orgs come in any order.
- Notifications' texts and resources; which runner they call for and whether they speak in the channel is kept.
- HTTP, Connect, SSE, WebSocket, PTY, container and cloud plumbing; subprocess handling.
- Store queries other than the log, event and link walks; migrations; the outbox file.
- Tokens, OAuth, webhook signatures and API keys.
- Cron schedules, the archiver, the mute filter, workspace files, the command line and the web interface.
