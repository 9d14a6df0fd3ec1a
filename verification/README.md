# Verification of Movy's run-control plane

Movy runs database migrations as leased jobs. Runner agents claim them, each job's own process writes a
numbered event stream to a journal, the agent batches that stream into the metadata database, and the web
server feeds it to browsers, which fold it again. This project models that path and proves what it
promises, module by module:

| module | what it models |
|---|---|
| `RunQueue`, `RunnerAgentModel` | the queue's SQL statements on the runs table; an agent's leases, launches and watchdog |
| `LeaseProtocol`, `LeaseLimits`, `LeaseKeeping` | database, agents and children as one step system: any number of agents, replies late or lost; who may write, and who goes on writing |
| `RunEvents`, `RunProjection`, `Ingestion` | events, the fold of one batch, the merge of its rows into the stored ones |
| `BatchCuts`, `CutsExact`, `OrderlyLogs`, `Replay` | what batching and re-delivery may and may not change, and for which logs |
| `RunRow` | what the run row in the database and the run on the page say, told from the log alone |
| `RunReducer`, `SnapshotAgreement` | the browser's fold, and its agreement with the database |
| `RunEventFeedModel`, `EventWriterModel`, `JournalFollower`, `ThrottledSinkModel` | the machinery that moves events |
| `EndToEnd`, `PageHoles` | those pieces together: from pushes to rows, from the stored log to an open page, and what a page can lose |
| `TablePlanner`, `MssqlCopy`, `Orchestrator` | the migration itself: table order, the SQL Server copy, the nine steps |
| `RunHubModel`, `RunnerHubModel` | the two socket hubs |
| `ProbeWorkerModel` | the coalesced claim loop of the probe worker |
| `Redaction`, `CursorCodec`, `KeysetPaging` | the secrets net; the page cursor's text form; paging by it |

A class of the source is a class here, each callback of an asynchronous function one method; the method's
contract ties the new state to a function of the old one. Where steps interleave, those same functions are
the steps of a state machine, and the theorems are about every run of it. Between two `await`s a handler
runs alone, as it does in one JavaScript process; SQL statements are atomic and share one clock.

## What the proofs found

Where the code does not do what its comments or tests promise, the module gives a concrete input and the
exact condition under which the promise holds.

- Two writers never share a destination exactly when the lease watchdog's period is at most the fence
  margin (plus one millisecond); `LateWatchdog` reaches a state with two writers for every longer period.
- The rows of a run do not depend on batch boundaries exactly when every event fits the rows before it. A
  failed table does not: it reports 0 rows, which wins inside one batch and loses to `greatest` across two.
- A journal read that breaks off at or before the line with the outcome, while the process is gone, settles
  a finished run as `RunnerVanished` (`run-manager.ts`, `catchUp`).
- A cursor carries milliseconds and the ledger microseconds. Paging skips a row exactly when a page ends
  inside a millisecond it shares with a row below it. The comment in `keyset-cursor.ts` promises no skip.
- `decodeCursor` is said to give `undefined` for anything the module did not write. It accepts a text that
  nothing writes exactly when the text has stray bits, a lone digit behind whole groups, or bytes that are not
  ASCII: every cursor short of 150 bytes has a second text, and one of an ISO timestamp has it in the same 82
  digits (`WrittenExactly`, `StrayBitsAreAccepted`).
- An open page can lose an event for good. A frame sent before the snapshot is replaced by it, and an answer of
  the catch-up that a later frame overtook is dropped as old; the comment in `_ws/runs.ts` promises a
  duplicate rather than a hole. It loses none exactly when no delivery begins beyond the first event it still
  lacks, which for the full cohort is one above `lastSeq` (`NoHoleExactly`, `OvertakenEventIsLost`).
- A runner-room subscription that was replaced while its snapshot loaded still delivers it: the peer is left
  looking at a room it is not in. This is the only step that breaks the room's coherence, and it never comes
  if no peer subscribes again or is moved while it waits (`StepCoherentExactly`, `PatientIsNeverStale`).
- Both hubs judge the memberships they noted before they asked for roles. A peer that left meanwhile is put
  back into a room exactly when its cohort or audience changed (`OvertakenByCheckExactly`, `BroughtBackExactly`).
- A run that fails, rather than is cancelled, in `disable_triggers` or `migrate_data` ends without an attempt
  to enable the triggers again (`TriggersLeftDisabledExactly`, `BrokenMigrationLeavesTriggersDisabled`).

## Model

| member | source | states |
|---|---|---|
| RunQueue.QueueStore.PickNext | apps/runner/src/agent/queue-store.ts:140-171 | The oldest unlocked claimable run of the snapshot is picked, and none only if there is none |
| RunQueue.QueueStore.ClaimNextRun | apps/runner/src/agent/queue-store.ts:140-171 | A claim grants a run picked from a snapshot only when the unique index allows it, after attempts that were all refused by it; destinations stay exclusive; no claim leaves the table as it was |
| RunQueue.QueueStore.Heartbeat | apps/runner/src/agent/queue-store.ts:194-215 | Renews the leases of exactly the unsettled runs the agent holds, and names them and those to cancel |
| RunQueue.QueueStore.SettleClaimedRun | apps/runner/src/agent/queue-store.ts:218-227 | Settles a run once: only if it had no outcome yet |
| RunQueue.QueueStore.CancelQueuedRun | apps/runner/src/agent/queue-store.ts:237-251 | Cancels a run exactly if it is still queued |
| RunQueue.QueueStore.RequestRunCancel | apps/web/server/repositories/runs.repo.ts:209-228 | Marks exactly a run without an outcome as cancelling |
| RunQueue.QueueStore.CancelRun | apps/web/server/repositories/runs.repo.ts:166-228 | A cancelled run that waits is over at once, one in work is asked to stop, one that ended keeps its outcome; no other run changes and destinations stay exclusive |
| RunQueue.QueueStore.SweepExpired | apps/runner/src/agent/queue-store.ts:302-310 | Settles exactly the busy runs whose lease is past: as cancelled if they were cancelling, as failed otherwise |
| RunQueue.GrantKeepsUnique | packages/db/src/schema/runs.ts:163-167 | A claim the index allows, from however stale a snapshot, leaves one busy run a destination |
| RunQueue.GrantNeedsIndex | packages/db/src/schema/runs.ts:163-167 | Granting a run keeps destinations exclusive if and only if the index allows it |
| RunQueue.ClaimExcludesCancel | apps/runner/src/agent/queue-store.ts:237-251 | A queued run is claimed or cancelled, never both, in either order |
| RunnerAgentModel.RunnerAgent.CheckLeases | apps/runner/src/agent/runner-agent.ts:242-248 | Fences every owned run whose deadline has come, and no other |
| RunnerAgentModel.RunnerAgent.OnHeartbeat | apps/runner/src/agent/runner-agent.ts:186-229 | An owned run that was live and is held is owned from the time the beat was sent and still writes; live and not held, it is fenced; no longer live, it is not owned; one launched meanwhile keeps its old time. Each cancel is forwarded once, to live runs not yet asked, and no other |
| RunnerAgentModel.RunnerAgent.OnClaimed | apps/runner/src/agent/runner-agent.ts:306-327 | A claimed run is owned from the moment the claim was sent |
| RunnerAgentModel.RunnerAgent.LaunchClaimed | apps/runner/src/agent/runner-agent.ts:330-384 | A child is started only if its run still has lease left after a fresh check |
| RunnerAgentModel.RunnerAgent.FenceRun | apps/runner/src/agent/runner-agent.ts:250-259 | A fenced run's child no longer writes and the run is no longer owned |
| RunnerAgentModel.JudgeOne | apps/runner/src/agent/runner-agent.ts:186-229 | The runs of a beat are judged one by one with the same result as all at once |
| LeaseProtocol.StepKeepsInv | apps/runner/src/agent/runner-agent.ts:186-254 | Every step of database, agents, children and clock keeps: a writing child's run is owned, its row is held and busy, and its database lease covers the time since it was confirmed |
| LeaseProtocol.WritersHoldTheirLease | apps/runner/src/agent/runner-agent.ts:85-94 | While a child writes, its lease in the database has not run out |
| LeaseProtocol.AtMostOneWriter | apps/runner/src/agent/queue-store.ts:140-215 | In every reachable state no two children write to one destination and no run has two children, whatever was delayed, lost, or committed after its client gave up |
| LeaseProtocol.SweepSparesWriters | apps/runner/src/agent/queue-store.ts:302-310 | A sweep settles no run still being written; no agent exceeds its slots; busy destinations are unique |
| LeaseLimits.RaceReachesIndex | packages/db/src/schema/runs.ts:163-167 | Two agents can hold picks for one destination at once, and without the index the second would break exclusivity |
| LeaseLimits.LateWatchdog | apps/runner/src/agent/runner-agent.ts:242-248 | A watchdog period of the margin plus two milliseconds or more reaches two writers |
| LeaseLimits.SingleWriterExactly | apps/runner/src/agent/runner-agent.ts:242-248 | No reachable state has two writers if and only if the watchdog's period is at most the fence margin plus one |
| LeaseKeeping.StoppedExactly | apps/runner/src/agent/runner-agent.ts:186-254 | In every reachable state a step stops a writing child if and only if the child ends by itself, a look at the deadlines finds its own come, or an answered beat was sent while it ran and does not name its run |
| LeaseKeeping.HeldRunKeepsWriting | apps/runner/src/agent/runner-agent.ts:186-229 | A child whose run is confirmed by beats sent less than the deadline before each watchdog look goes on writing, over every run of the system |
| LeaseKeeping.BeatRenews | apps/runner/src/agent/runner-agent.ts:186-229 | In every reachable state a beat that is sent, committed and answered renews the lease of each run being written, in the database and in the agent, from the moment it was sent |
| RunProjection.ProjectEvents | apps/runner/src/agent/run-projection.ts:77-191 | The loop over a batch computes the fold of its events; `RunRow.StoredRunIs` and `OrderlyLogs.RowsFromLog` say what the rows are then |
| RunProjection.ProjectOne | apps/runner/src/agent/run-projection.ts:77-191 | One turn of that loop is one step of the fold, for the run, its steps and its tables |
| RunProjection.SeedTables | apps/runner/src/agent/run-projection.ts:77-191 | A plan seeds exactly its own tables, over whatever the batch already knew of them |
| RunProjection.FoldAt | apps/runner/src/agent/run-projection.ts:203-220 | What an event does to the fold, row by row |
| RunProjection.SeedTwice | apps/runner/src/agent/run-projection.ts:203-215 | A table the plan names twice is seeded as if once |
| Ingestion.RunTables.ApplyProjection | apps/runner/src/agent/ingestion.ts:16-109 | The transaction merges a projection into the stored rows by the conflict rules |
| Ingestion.RunTables.InsertAll | apps/runner/src/agent/ingestion.ts:16-46 | A stored event is never replaced |
| Ingestion.RunTables.UpsertSteps | apps/runner/src/agent/ingestion.ts:47-63 | Each step row is merged by its conflict rule, the others kept |
| Ingestion.RunTables.UpsertTables | apps/runner/src/agent/ingestion.ts:65-85 | Each table row is merged by its conflict rule, the others kept |
| Ingestion.RunTables.FinaliseIfUnsettled | apps/runner/src/agent/ingestion.ts:131-148 | An outcome is written exactly if the run had none |
| Ingestion.MergeAt | apps/runner/src/agent/ingestion.ts:47-108 | What a merge leaves of every row, one at a time |
| BatchCuts.TableCommute | apps/runner/src/agent/ingestion.ts:65-85 | Where a table event fits, folding it into the batch or merging it alone leaves the same row |
| BatchCuts.StepCommute | apps/runner/src/agent/ingestion.ts:47-63 | The same for a step event |
| BatchCuts.RunCommute | apps/runner/src/agent/ingestion.ts:87-108 | The same for the run's own row |
| BatchCuts.OneMoreEvent | apps/runner/src/agent/run-projection.ts:77-220 | One more fitting event in a batch is the batch, then the event |
| BatchCuts.BatchIsOneByOne | apps/runner/src/agent/ingestion.ts:47-108 | A batch leaves the rows its events leave one by one |
| BatchCuts.AnyCut | apps/runner/src/agent/ingestion.ts:47-108 | Any cut of a fitting log into batches ends in the same rows as event by event |
| BatchCuts.CutsAgree | apps/runner/src/agent/ingestion.ts:47-108 | Two cuts of one fitting log end in the same rows, so a restart anywhere changes nothing |
| CutsExact.CutsDoNotMatterExactly | apps/runner/src/agent/ingestion.ts:47-108 | For a fresh run, rows at every moment are independent of the cut if and only if every event fits the rows before it |
| CutsExact.FailedTableDependsOnCut | apps/runner/src/agent/ingestion.ts:65-85 | A sample and a failed finish leave 0 rows in one batch and the sample's rows in two |
| CutsExact.FailedTableDoesNotFit | apps/runner/src/agent/ingestion.ts:65-85 | Those two events are no fitting log |
| OrderlyLogs.OrderlyLogsFit | apps/runner/src/agent/run-projection.ts:77-220 | Of a fresh run, a log that plans first, starts and finishes each step once, lets no table's samples fall and has no later sample above its finish fits, with the plan first |
| OrderlyLogs.OrderlyCutsAgree | apps/runner/src/agent/ingestion.ts:47-108 | Such a log leaves the same rows however it is cut |
| OrderlyLogs.LifeFits | apps/runner/src/agent/ingestion.ts:65-85 | The next thing an orderly log says of a table fits the row so far |
| OrderlyLogs.RowsFromLog | apps/runner/src/agent/run-projection.ts:77-220 | However such a log was cut, a table's row and a step's row are told by its own events alone: what the finish says, else the newest sample, else the plan |
| RunRow.StoredRunIs | apps/runner/src/agent/run-projection.ts:77-191 | For any log in any batches: the run row's status, start, end, duration and failure are those of its last start or finish, the progress fields those of the last overall sample with a later plan's totals, `last_seq` its highest seq |
| RunRow.OutcomeIsStored | apps/runner/src/agent/ingestion.ts:87-108 | A log whose last start or finish is `run_finished` leaves the run with that event's outcome, failure, duration and time |
| RunRow.BatchLeaves | apps/runner/src/agent/ingestion.ts:87-108 | The same of one batch over any stored row: a started run is running, or still cancelling if it was |
| Replay.StoringNeverTakesBack | apps/runner/src/agent/ingestion.ts:65-107 | Whatever is stored, `last_seq`, table counts and finished states never fall and stored events stay |
| Replay.ReplayIsHarmless | apps/runner/src/agent/ingestion.ts:33-36 | Storing any suffix of a stored fitting log again, in any batches, changes no row and no event |
| RunReducer.FoldEvents | apps/web/app/utils/run-reducer.ts:104-244 | The loop folds exactly the accepted events and caps the log pane |
| RunReducer.DeliveriesCompose | apps/web/app/utils/run-reducer.ts:104-244 | Two deliveries one after the other fold as one, log cap included |
| RunReducer.OverlapIsDropped | apps/web/app/utils/run-reducer.ts:104-244 | A delivery folds like its running-maximum subsequence, which ascends; the same delivery again changes nothing |
| RunReducer.CapTwice | apps/web/app/utils/run-reducer.ts:361-363 | Capping the pane between two appends is capping once at the end |
| RunReducer.AcceptedAppend | apps/web/app/utils/run-reducer.ts:104-244 | What passes the `lastSeq` check of a longer delivery |
| RunRow.PageRunIs | apps/web/app/utils/run-reducer.ts:104-244 | What the page shows of a run after any delivery, told from the accepted events alone |
| RunRow.SnapshotRunIs | apps/web/app/utils/run-reducer.ts:79-94 | `applySnapshot` shows the run it brought, moved on by the events that came with it, and only their log lines, newest last |
| RunRow.PageAndRowAgree | apps/web/app/utils/run-reducer.ts:104-244 | Page and run row show the same outcome once both were told the same last finish |
| RunRow.PercentIsRight | apps/web/app/utils/run-reducer.ts:104-244 | A percentage is the part done of the total, at most 100, and 0 where the total is |
| RunRow.PaneKeepsNewest | apps/web/app/utils/run-reducer.ts:361-363 | The pane holds the newest lines of what it had and what came, in order, as many as its cap |
| RunRow.LinesAreLogs | apps/web/app/utils/run-reducer.ts:104-244 | Its lines are the log events of the delivery, each once, with their level, message and time |
| SnapshotAgreement.SnapshotThenOverlap | apps/web/app/utils/run-reducer.ts:79-94 | A view of the rows at any moment, fed events from any earlier moment on, ends as the rows end |
| SnapshotAgreement.ViewerEndsWithDatabase | apps/web/app/utils/run-reducer.ts:79-94 | `applySnapshot` over step rows and table rows of two moments, with what the page's cohort sees of the events from any earlier moment on, shows the rows of the whole log |
| RunEventFeedModel.RunEventFeed.Track | apps/web/server/runs/run-event-feed.ts:65-69 | A run already followed keeps its cursor |
| RunEventFeedModel.RunEventFeed.Notify | apps/web/server/runs/run-event-feed.ts:72-81 | Ignored below the cursor at rest, otherwise a read or one more read; unwatched runs are forgotten |
| RunEventFeedModel.RunEventFeed.Resync | apps/web/server/runs/run-event-feed.ts:84-89 | Every watched cursor is read past, every other dropped |
| RunEventFeedModel.RunEventFeed.OnPage | apps/web/server/runs/run-event-feed.ts:118-133 | A published page leaves the cursor at its last seq, an empty one where it was; a full page asks for the next, any other ends the read |
| RunEventFeedModel.RunEventFeed.OnDrained | apps/web/server/runs/run-event-feed.ts:104-116 | A notification that came during the read starts another |
| RunEventFeedModel.RunEventFeed.OnRetry | apps/web/server/runs/run-event-feed.ts:140-152 | A retry reads again while the run is watched |
| RunEventFeedModel.PageExtends | apps/web/server/runs/run-event-feed.ts:118-133 | A page read above a lagging cursor extends what was delivered without a hole |
| RunEventFeedModel.StepKeepsInv | apps/web/server/runs/run-event-feed.ts:72-152 | Every step keeps: delivered in order, page in hand genuine, no notification lost |
| RunEventFeedModel.JoinsAnywhere | apps/web/server/runs/run-event-feed.ts:65-152 | A viewer may join in any state the feed reaches, reads and retries under way included, and the same theorems hold from there |
| RunEventFeedModel.PublishedInOrder | apps/web/server/runs/run-event-feed.ts:65-152 | Under every interleaving the published events, repeats dropped, are the stored log above the tracked seq, in order |
| RunEventFeedModel.NoLostNotification | apps/web/server/runs/run-event-feed.ts:65-152 | With no read in flight and no retry armed the cursor is at or past the seq of every notification there was, and all events up to there were published |
| RunEventFeedModel.DrainEnds | apps/web/server/runs/run-event-feed.ts:104-133 | With no failure and no commit in between, a drain of n events ends after n / pageSize + 1 rounds, with every one of them published and the cursor at the last |
| RunEventFeedModel.FailureOnlyDelays | apps/web/server/runs/run-event-feed.ts:118-152 | Wherever a read or a publish fails, three steps later the cursor asks again from where it was, and the next drain brings out everything above it |
| RunEventFeedModel.NoticeReadsAgain | apps/web/server/runs/run-event-feed.ts:104-116 | A notification that comes before a drain's end has another read follow it at once |
| RunEventFeedModel.PublishedIsStored | apps/web/server/runs/run-event-feed.ts:118-133 | Only stored events are ever published |
| EventWriterModel.EventWriter.RecordAndMaybeCap | apps/runner/src/agent/event-writer.ts:132-152 | Counts a run's logs and keeps, replaces or drops this one |
| EventWriterModel.EventWriter.Push | apps/runner/src/agent/event-writer.ts:106-120 | Buffers what is kept, then drains a full batch, all of it, or arms the timer |
| EventWriterModel.PushIsRight | apps/runner/src/agent/event-writer.ts:106-120 | What a push leaves of buffer, flight and timer, said without the function that computes it |
| EventWriterModel.EventWriter.DrainRun | apps/runner/src/agent/event-writer.ts:193-222 | Waits for the write in flight, has nothing to do, or hands over the whole buffer |
| EventWriterModel.EventWriter.FlushAll | apps/runner/src/agent/event-writer.ts:163-169 | Drains exactly the runs that hold or are writing something |
| EventWriterModel.EventWriter.OnTimer | apps/runner/src/agent/event-writer.ts:177-185 | The timer is spent before it flushes |
| EventWriterModel.EventWriter.OnPendingOver | apps/runner/src/agent/event-writer.ts:193-198 | A drain that waited drains again |
| EventWriterModel.StepKeepsInv | apps/runner/src/agent/event-writer.ts:106-222 | Every step keeps: one flight, nothing lost between buffer and store, every promise covered, no buffer unwatched |
| EventWriterModel.OneWriteInOrder | apps/runner/src/agent/event-writer.ts:193-222 | At most one write of a run is under way; batches and buffer are the accepted events in push order |
| EventWriterModel.FlushIsDurable | apps/runner/src/agent/event-writer.ts:163-169 | A resolved flush covers everything pushed before it, in batches whose writes are over |
| EventWriterModel.NothingLeftBehind | apps/runner/src/agent/event-writer.ts:177-222 | A non-empty buffer has an armed timer or a waiting drain; at rest everything accepted has been written |
| EventWriterModel.CapKeepsStructure | apps/runner/src/agent/event-writer.ts:106-152 | The ceiling drops no structural event, keeps the first logs, and puts one notice under the next one's seq |
| EventWriterModel.AcceptedIsCapped | apps/runner/src/agent/event-writer.ts:106-152 | What the writer accepts of a run is its pushes under that ceiling |
| JournalFollower.ReadJournalAfter | apps/runner/src/agent/journal-tailer.ts:16-56 | Delivers the intact events above the cursor, in order, counts them, and ends at the highest seq read |
| JournalFollower.ReadIsLineByLine | apps/runner/src/agent/journal-tailer.ts:16-56 | The delivered events are those of exactly the intact lines above the cursor, in file order, each once |
| JournalFollower.MalformedOnes | apps/runner/src/agent/journal-tailer.ts:16-56 | The count of malformed lines is that of exactly the lines that do not parse |
| JournalFollower.RunPass | apps/runner/src/agent/run-manager.ts:269-317 | The last `run_finished` decides; without one a process that was gone before the read has vanished; a broken read moves no cursor |
| JournalFollower.Follower.EndTick | apps/runner/src/agent/run-manager.ts:334-375 | A silent stretch is reported once, an outcome ends the following |
| JournalFollower.PushesFollowJournal | apps/runner/src/agent/run-manager.ts:334-375 | Over any passes on a growing journal the pushes, repeats dropped, lie between what the last whole pass was shown and the journal above the start, in order and without a hole; while no read breaks they are exactly the former, each once |
| JournalFollower.WholePassCatchesUp | apps/runner/src/agent/run-manager.ts:269-317 | A pass that reads to the end leaves nothing it was shown unpushed, whatever broke before; shown the whole journal, it brings the pushes level with it |
| JournalFollower.WrittenIsPushed | apps/runner/src/agent/run-manager.ts:269-317 | What a live process writes is pushed by the next pass that reads to the end, with all that was left before it |
| JournalFollower.DeadIsSettled | apps/runner/src/agent/run-manager.ts:285-314 | Once the process is gone the next such pass settles the run: by the outcome in its unread journal, and as vanished only if there is none |
| JournalFollower.VerdictsAreTrue | apps/runner/src/agent/run-manager.ts:269-317 | Finished only on the journal's word; vanished after a whole read only if the process is gone and its complete journal has no outcome |
| JournalFollower.FalseVanishedExactly | apps/runner/src/agent/run-manager.ts:285-314 | A finished run is declared vanished if and only if its process is gone and the read broke at or before the outcome's line |
| JournalFollower.BrokenReadLosesOutcome | apps/runner/src/agent/run-manager.ts:285-314 | One such journal |
| ThrottledSinkModel.ThrottledSink.Send | packages/core/src/application/events/throttled-sink.ts:40-62 | Passes what is no progress, behind the held samples a finished table owes; sends a sample at once if it is the first of its key or the interval is over, and holds it otherwise |
| ThrottledSinkModel.ThrottledSink.Flush | packages/core/src/application/events/throttled-sink.ts:64-66 | Sends every held sample |
| ThrottledSinkModel.SeqSink.Send | packages/core/src/application/events/seq-sink.ts:12-23 | Numbers each event one above the last |
| ThrottledSinkModel.HistoryKeepsInv | packages/core/src/application/events/throttled-sink.ts:23-66 | Every call keeps, for every key: sent and held samples are inputs in order and end with the newest, and the clock entry is that of the last one sent |
| ThrottledSinkModel.OnlyProgressIsThinned | packages/core/src/application/events/throttled-sink.ts:23-62 | For every history and clock all other events pass in order, each key's samples are an ordered subsequence, and unforced ones keep the interval |
| ThrottledSinkModel.ProgressIsSentWhenDue | packages/core/src/application/events/throttled-sink.ts:40-62 | Over every history a sample is sent at once if nothing of its key was sent or the last is the interval or more ago; otherwise nothing is sent and it is the one held |
| ThrottledSinkModel.FlushSendsNewest | packages/core/src/application/events/throttled-sink.ts:64-66 | After a flush the newest sample of every key has been sent |
| ThrottledSinkModel.FinishFollowsNewest | packages/core/src/application/events/throttled-sink.ts:43-52 | Before a `table_finished` its table's newest sample and the newest overall one have been sent |
| ThrottledSinkModel.WriteAll | packages/core/src/application/events/index.ts:44-50 | The two sinks in a row write the numbered emissions of the throttle |
| ThrottledSinkModel.SeqsAreContiguous | packages/core/src/application/events/index.ts:44-50 | Seqs are 1 to n without a gap although samples were dropped, and all other events are among them in order |
| EndToEnd.WritesLandAsOne | apps/runner/src/agent/event-writer.ts:193-222 | Whatever timer, full batches and flushes cut the events into, once the writer rests the stored rows are those of everything it accepted in one batch |
| EndToEnd.HigherBar | apps/web/app/utils/run-reducer.ts:104-244 | What passes a later `lastSeq` check is what passed an earlier one, above the later seq |
| EndToEnd.RedactedAccepted | apps/web/server/runs/run-hub.ts:169-182 | Withholding the log lines and dropping the repeats may be done in either order |
| EndToEnd.SnapshotThenFrames | apps/web/server/routes/_ws/runs.ts:39-50 | The snapshot's events and the frames behind it are, repeats dropped, all the cohort sees of the log |
| EndToEnd.LiveViewerEndsWithDatabase | apps/web/server/runs/snapshot.ts:28-70 | A page whose snapshot read step rows, table rows and events at three moments, for either cohort, with no frame ahead of its events, shows once the feed rests with the last event announced the step and table rows of the whole stored log, whatever the feed went through |
| PageHoles.NoHoleExactly | apps/web/app/utils/run-reducer.ts:104-244 | Whatever is delivered, twice, late or out of order: the page has a first part of what its cohort sees of the log, nothing missing, if and only if no delivery began beyond the first event it still lacked |
| PageHoles.HoleIsForGood | apps/web/app/utils/run-reducer.ts:104-244 | Once a page lacks an event no delivery brings it back |
| PageHoles.InTimeBySeq | apps/web/app/composables/useRunStream.ts:39-50 | With seqs from 1 without gaps, a delivery is in time if and only if it begins at most one above `lastSeq` |
| PageHoles.PageWithoutHoles | apps/web/app/composables/useRunStream.ts:39-116 | A page whose deliveries, catch-up pages included, were all in time and reach the last event shows the rows of the whole log, however many events its snapshot was short of |
| PageHoles.OvertakenEventIsLost | apps/web/app/composables/useRunStream.ts:39-116 | A page given an empty snapshot, the second event's frame and then the catch-up's answer shows a step as pending that the database has as running |
| PageHoles.FramesEitherSide | apps/web/server/routes/_ws/runs.ts:39-50 | The feed does send those frames: the first event's before the snapshot, the second's after it |
| TablePlanner.DrawGraph | packages/core/src/application/services/table-migration-planner.service.ts:6-28 | The edges are the foreign keys to other tables of the migration, recorded at both ends |
| TablePlanner.SortTables | packages/core/src/application/services/table-migration-planner.service.ts:30-35 | A permutation, larger estimates first, then by collation |
| TablePlanner.SettleLevel | packages/core/src/application/services/table-migration-planner.service.ts:51-68 | Counting a level down leaves in-degrees equal to the unvisited parents, and the next level is exactly the tables that became ready |
| TablePlanner.MakePlan | packages/core/src/application/services/table-migration-planner.service.ts:5-79 | The levels are the waves of the graph until none is left, then the tables that never settle |
| TablePlanner.PlanIsPermutation | packages/core/src/application/services/table-migration-planner.service.ts:70-78 | Load and cleanup order hold every table exactly once |
| TablePlanner.LevelsAreTight | packages/core/src/application/services/table-migration-planner.service.ts:51-68 | Off the cycles every parent is on a lower level, and above level 0 one is on the level just below |
| TablePlanner.CyclicIsLargest | packages/core/src/application/services/table-migration-planner.service.ts:70-73 | `cyclicTables` is the largest set of tables each referencing another of the set |
| TablePlanner.ChildrenAreClearedFirst | packages/core/src/application/services/table-migration-planner.service.ts:75-76 | A table off the cycles is loaded after its parents and cleared before them |
| MssqlCopy.StatementFitsExactly | packages/core/src/infrastructure/migration/mssql-insert.ts:24-26 | A full statement has at most 1,000 rows, and at most 2,100 parameters exactly for tables of at most 2,100 columns; within budget no larger one fits |
| MssqlCopy.Session.InsertRows | packages/core/src/infrastructure/migration/mssql-insert.ts:33-51 | A batch arrives in order, in statements the server takes, all but the last full; it fails exactly if a statement fails, and leaves a first part of the batch |
| MssqlCopy.Session.CopyPages | packages/core/src/infrastructure/migration/mssql-data-migrator.adapter.ts:147-173 | Pages and split inserts leave the source's rows in order, or a first part of them; an abort is seen at a check |
| MssqlCopy.Session.CopySwitched | packages/core/src/infrastructure/migration/mssql-data-migrator.adapter.ts:139-177 | For a table with an identity column every insert is sent between switching identity inserts on and off again, however the copy ends |
| MssqlCopy.CopyKept | packages/core/src/infrastructure/migration/mssql-data-migrator.adapter.ts:139-177 | The statements of one copy keep all sent ones lawful: inserts within the limits, and between a switch on that went through and a try to switch off |
| MssqlCopy.Session.CopyTable | packages/core/src/infrastructure/migration/mssql-data-migrator.adapter.ts:122-180 | A copy that returns has appended the whole source; what was lawful to send stays so, and no table is left switched on without a try to switch it off |
| MssqlCopy.Session.ClearAll | packages/core/src/infrastructure/migration/mssql-data-migrator.adapter.ts:114-120 | The tables are emptied in order, each by TRUNCATE and, only if that fails, by DELETE; a DELETE that fails ends it |
| MssqlCopy.Session.LoadTable | packages/core/src/infrastructure/migration/mssql-data-migrator.adapter.ts:55-82 | A table fails exactly if one of its statements failed, and the signal is looked at before its first statement and behind its last |
| MssqlCopy.Session.Migrate | packages/core/src/infrastructure/migration/mssql-data-migrator.adapter.ts:21-96 | Each successful table equals its source, a failed one reports no rows and holds a first part; if no statement failed all succeed, and it throws only behind one that failed; the constraints are off and the tables emptied in cleanup order first, each by TRUNCATE and by DELETE only if that failed; the signal is last looked at behind the last table, and no result is returned if it was up; a cancellation before clearing empties nothing; every insert is within the server's limits and, for an identity column, sent while it is switched on; the last statements re-enable the constraints |
| Orchestrator.Execute | packages/core/src/application/services/migration-orchestrator.service.ts:62-238 | The run's emissions and trigger statements, for every course of its nine steps |
| Orchestrator.TraceFollowsGrammar | packages/core/src/application/services/migration-orchestrator.service.ts:82-230 | `run_started`, pairs of steps 0, 1, 2, ... of which only the last may have failed, one `run_finished`, nothing after |
| Orchestrator.StepIsTold | packages/core/src/application/services/migration-orchestrator.service.ts:82-196 | A step that goes through is told with its outcome and duration, one that fails with its failure, and one found aborted before its start is not told at all |
| Orchestrator.EndsAs | packages/core/src/application/services/migration-orchestrator.service.ts:198-230 | The run ends as cancelled, failed or succeeded by what the first step to stop was stopped by, with that failure |
| Orchestrator.SucceededExactly | packages/core/src/application/services/migration-orchestrator.service.ts:198-204 | `succeeded` if and only if all nine steps went through and every table was copied |
| Orchestrator.CancellationReenables | packages/core/src/application/services/migration-orchestrator.service.ts:207-223 | A cancelled run that had disabled the triggers tries to enable them before it ends, and warns if that fails |
| Orchestrator.TriggersLeftDisabledExactly | packages/core/src/application/services/migration-orchestrator.service.ts:207-230 | A run leaves them disabled without such an attempt if and only if it failed, not cancelled, in steps 4 or 5 |
| Orchestrator.BrokenMigrationLeavesTriggersDisabled | packages/core/src/application/services/migration-orchestrator.service.ts:207-230 | One such run: disabling goes through, migrating fails, and the run ends as failed with the triggers disabled |
| RunHubModel.RunHub.Subscribe | apps/web/server/runs/run-hub.ts:130-144 | A peer is in the one room of its last grant; both indexes agree |
| RunHubModel.RunHub.Unsubscribe | apps/web/server/runs/run-hub.ts:146-159 | The peer is gone from both indexes, and no empty room is left |
| RunHubModel.RunHub.Publish | apps/web/server/runs/run-hub.ts:169-182 | Each watching peer gets its cohort's part exactly once, nobody else anything; throwing sockets are dropped |
| RunHubModel.RunHub.Revalidate | apps/web/server/runs/run-hub.ts:221-265 | Of the memberships noted before the roles were asked for: who has no role is told and gone, whose cohort changed is told and in the other room of its noted run, the rest are where they were; both are counted, a failed check changes nothing, and with nobody come or gone meanwhile everyone left is in the cohort of its role |
| RunHubModel.OvertakenByCheckExactly | apps/web/server/runs/run-hub.ts:221-265 | A peer that left, or subscribed to another run, while the roles were asked for is put back into its noted run if and only if its cohort changed |
| RunHubModel.LeftPeerIsPutBack | apps/web/server/runs/run-hub.ts:221-265 | One such peer, on the hub itself |
| RunHubModel.JoinKeepsIndexed | apps/web/server/runs/run-hub.ts:130-144 | Joining keeps the two indexes inverse, without empty rooms |
| RunHubModel.LeaveKeepsIndexed | apps/web/server/runs/run-hub.ts:146-159 | Leaving keeps the two indexes inverse, without empty rooms |
| RunHubModel.RedactedGetsNoLogs | apps/web/server/runs/run-hub.ts:169-182 | No publish ever sends a log event to a peer of the redacted cohort |
| RunnerHubModel.RunnerHub.OnSubscribe | apps/web/server/runners/runner-hub.ts:96-106 | A peer enters its grant's room, with a snapshot on its way |
| RunnerHubModel.RunnerHub.OnSnapshot | apps/web/server/runners/runner-hub.ts:106-117 | A known view goes to the newcomer alone, a new one to the whole room |
| RunnerHubModel.RunnerHub.OnRefreshed | apps/web/server/runners/runner-hub.ts:154-173 | Afterwards the room has the view that was found as its last; if it was new every member was sent it, if not nobody was sent anything; peers of other rooms never are |
| RunnerHubModel.RunnerHub.MovePeer | apps/web/server/runners/runner-hub.ts:218-231 | A moved peer is in the new room, which forgets what it last sent |
| RunnerHubModel.StepKeepsIndexed | apps/web/server/runners/runner-hub.ts:96-127 | Over every step one membership object sits in both indexes and no room is empty |
| RunnerHubModel.StepCoherentExactly | apps/web/server/runners/runner-hub.ts:106-173 | From a coherent state a step leads to one if and only if it delivers no stale frame |
| RunnerHubModel.MembersSeeTheirRoom | apps/web/server/runners/runner-hub.ts:96-231 | With no load in flight every member was last shown what its room last sent, over every run without a stale frame |
| RunnerHubModel.PatientIsNeverStale | apps/web/server/runners/runner-hub.ts:96-127 | If no peer subscribes again or is moved while its own snapshot loads, no stale frame is ever delivered |
| RunnerHubModel.PatientPeersSeeTheirRoom | apps/web/server/runners/runner-hub.ts:96-231 | Then, with no load in flight, every member was last shown what its room last sent |
| RunnerHubModel.StaleFrameHappens | apps/web/server/runners/runner-hub.ts:106-112 | A run that does deliver one, and ends incoherent |
| RunnerHubModel.BroughtBackExactly | apps/web/server/runners/runner-hub.ts:175-231 | A step brings back a peer that is gone if and only if it subscribes, or is moved by a revalidation that had noted it |
| RunnerHubModel.LeftPeerIsBroughtBack | apps/web/server/runners/runner-hub.ts:175-231 | A run in which the latter happens |
| ProbeWorkerModel.ProbeWorker.WakeUp | apps/runner/src/agent/probe-worker.ts:70-84 | A wake starts the one loop, or has it run again, or does nothing once stopped |
| ProbeWorkerModel.ProbeWorker.OnClaim | apps/runner/src/agent/probe-worker.ts:100-117 | A claimed probe takes a slot and the loop goes on while there is another; nothing claimed ends it |
| ProbeWorkerModel.ProbeWorker.Start | apps/runner/src/agent/probe-worker.ts:58-67 | Starting, for the first time or after a stop, takes probes again at once |
| ProbeWorkerModel.StepKeepsInv | apps/runner/src/agent/probe-worker.ts:70-117 | Every step keeps: room for what the loop may bring, no announced probe overlooked, at most one claim after a stop |
| ProbeWorkerModel.SlotsHold | apps/runner/src/agent/probe-worker.ts:100-117 | Probes in work never exceed the slots |
| ProbeWorkerModel.NoAnnouncedProbeWaits | apps/runner/src/agent/probe-worker.ts:70-84 | Between loops, with a free slot and no failed claim, no announced probe still waits |
| ProbeWorkerModel.AnnouncedIsTaken | apps/runner/src/agent/probe-worker.ts:70-117 | With no loop running and a slot free, a probe that is queued and announced comes into work |
| ProbeWorkerModel.PollTakesIt | apps/runner/src/agent/probe-worker.ts:58-117 | A claim that fails leaves its probe to the next poll |
| ProbeWorkerModel.FreedSlotIsUsed | apps/runner/src/agent/probe-worker.ts:100-117 | A slot that comes free is for the next waiting probe at once |
| ProbeWorkerModel.StopIsFinal | apps/runner/src/agent/probe-worker.ts:58-93 | A stop lets through at most the claim in flight; once resolved nothing runs and nothing is claimed, whatever happens, until `start()` is called again |
| ProbeWorkerModel.StopWaits | apps/runner/src/agent/probe-worker.ts:87-93 | A stop waits for the claim in flight, and then for the probes in work, the one just claimed among them |
| ProbeWorkerModel.StopResolves | apps/runner/src/agent/probe-worker.ts:58-93 | With the last of them answered it resolves, and a start from there asks the queue again |
| Redaction.RedactInTurn | packages/core/src/application/events/redacting-sink.ts:56-62 | The loop over the needles replaces each in turn |
| Redaction.InTurn | packages/core/src/application/events/redacting-sink.ts:56-62 | Replacing the needles of two lists in a row is replacing those of the first and then those of the second, so the longest go first |
| Redaction.ReplaceIsSplitAndJoin | packages/core/src/application/events/redacting-sink.ts:56-62 | A replacement splits its text at the leftmost, non-overlapping occurrences and joins the same pieces with the mark: nothing else is lost, added or moved |
| Redaction.BuildNeedles | packages/core/src/application/events/redacting-sink.ts:43-53 | Exactly the long enough secrets and encodings of such, longest first |
| Redaction.OccurredBefore | packages/core/src/application/events/redacting-sink.ts:56-62 | What occurs after a replacement touches the mark or was there before and is not the needle |
| Redaction.NoNeedleSurvives | packages/core/src/application/events/redacting-sink.ts:56-62 | No clean needle is left, and no later replacement brings an earlier one back |
| Redaction.RedactTwice | packages/core/src/application/events/redacting-sink.ts:56-62 | Redacting with clean needles is idempotent |
| Redaction.RemovesExactly | packages/core/src/application/events/redacting-sink.ts:56-62 | Needles without guillemets are gone from every result if and only if none is a piece of the mark's word |
| Redaction.ValueIsScrubbed | packages/core/src/application/events/redacting-sink.ts:72-102 | No clean needle is in any string of the result, at any depth, beyond the cap too |
| Redaction.RedactedInPlace | packages/core/src/application/events/redacting-sink.ts:72-102 | At every place of the result stands what stood there, its string redacted, its members as many and under the same keys; one level beyond the cap strings and containers are the mark |
| Redaction.RedactValueTwice | packages/core/src/application/events/redacting-sink.ts:72-102 | Redacting a value twice is redacting it once |
| Redaction.NothingElseChanges | packages/core/src/application/events/redacting-sink.ts:72-102 | A value within the depth cap that holds no needle comes through unchanged |
| Redaction.ScrubEvent | packages/core/src/application/events/redacting-sink.ts:111-120 | An event is redacted with exactly the needles of its secrets, longest first, and if these are clean none of them is left in any string of it |
| CursorCodec.BytesRoundTrip | apps/web/shared/keyset-cursor.ts:72-86 | Every non-empty byte sequence comes back from its base64url text (section 5 of RFC 4648) |
| CursorCodec.VectorOfOne | apps/web/shared/keyset-cursor.ts:72-86 | The test vector "f" of section 10 of RFC 4648 |
| CursorCodec.VectorOfTwo | apps/web/shared/keyset-cursor.ts:72-86 | The test vector "fo" of section 10 of RFC 4648 |
| CursorCodec.VectorOfThree | apps/web/shared/keyset-cursor.ts:72-86 | The test vector "foo" of section 10 of RFC 4648 |
| CursorCodec.TextRoundTripExactly | apps/web/shared/keyset-cursor.ts:80-86 | A text that decodes is its bytes' encoding if and only if it has no lone digit and no stray bits |
| CursorCodec.CursorRoundTripExactly | apps/web/shared/keyset-cursor.ts:28-61 | An ASCII cursor comes back if and only if its timestamp parses without a bar, its id is a UUID and both fit in 150 bytes |
| CursorCodec.WrittenExactly | apps/web/shared/keyset-cursor.ts:32-61 | An accepted text is one a cursor encodes to if and only if it is canonical and its bytes are ASCII |
| CursorCodec.RereadExactly | apps/web/shared/keyset-cursor.ts:28-61 | For ASCII bytes, writing the cursor that was read gives the text back if and only if the text is canonical |
| CursorCodec.EveryCursorHasAnotherText | apps/web/shared/keyset-cursor.ts:39-86 | Every ASCII cursor that comes back and is short of 150 bytes is also read from a second text that nothing writes, of the same length unless its bytes fill whole groups |
| CursorCodec.StrayBitsAreAccepted | apps/web/shared/keyset-cursor.ts:39-86 | A cursor of an ISO timestamp and a UUID is read from a second text of 82 digits |
| CursorCodec.LongerTextDecodesToo | apps/web/shared/keyset-cursor.ts:32-61 | Behind whole groups of four any one digit is dropped, so that longer text reads as the same cursor |
| CursorCodec.AcceptedExactly | apps/web/shared/keyset-cursor.ts:39-61 | A text is read as a cursor if and only if it has 1 to 200 digits of the URL's alphabet and its bytes are that cursor's timestamp, which parses and holds no bar, a bar, and its UUID |
| CursorCodec.UuidIsFiveGroups | apps/web/shared/keyset-cursor.ts:63-63 | An id passes exactly if it is five groups of 8, 4, 4, 4 and 12 hex digits between dashes, in either case |
| CursorCodec.DecodeCursor | apps/web/shared/keyset-cursor.ts:39-61 | Whatever is accepted has a timestamp that parses and a UUID |
| KeysetPaging.ClampLimit | apps/web/server/repositories/paging.ts:12-15 | No number, or one below 1, is 25; one above 100 is 100; between them it is rounded down |
| KeysetPaging.FetchIs | apps/web/server/repositories/paging.ts:33-46 | A fetch is the next rows below the cursor, and has a next cursor, on its last row, exactly when more follow |
| KeysetPaging.RestIsRest | apps/web/server/repositories/runs.repo.ts:246-249 | The cursor leaves exactly the rows below if and only if its millisecond is clear below it |
| KeysetPaging.ArrivalsDoNotShift | apps/web/server/repositories/runs.repo.ts:48-66 | Rows arriving at the head between pages change nothing of what a walk shows |
| KeysetPaging.WalkIsCompleteExactly | apps/web/server/repositories/runs.repo.ts:48-66 | A walk shows every row of its first ledger once and in order if and only if no page ends inside a shared millisecond |
| KeysetPaging.WholeMillisecondsAreComplete | apps/web/server/repositories/runs.repo.ts:246-249 | With whole-millisecond timestamps no walk skips or repeats a row |
| KeysetPaging.SubMillisecondRowIsSkipped | apps/web/server/repositories/runs.repo.ts:246-249 | Two rows of one millisecond and pages of one row: the second is never shown |

## Left out

- Crash, stop and restart of an agent in the single-writer theorem: a detached child outlives its agent, so its lease can expire while it still writes; runs from before leases existed are out for the same reason.
- Liveness of settlement, and cooperative cancellation in the step system: the agent's class forwards cancels, the protocol only fences.
- What SQL does beyond atomic statements on one clock: isolation levels, `SKIP LOCKED` order (a set of locked rows stands for it) and clock skew between hosts.
- A killed child is taken to write nothing after it; a launch either forks or throws before forking.
- RunnerAgentModel.RunnerAgent.OnHeartbeat: a cancel that its child refuses is taken as asked; the source asks again at the next beat.
- RunReducer.FoldEvents: steps and tables are maps here, where the source keeps sorted arrays; `applyRunRow` and the percentages' display form are not modelled.
- RunProjection.ProjectEvents: the fields no conflict rule touches (mode, endpoints, result payload) are not carried.
- RunEventFeedModel.NoLostNotification: about one cursor object that stays watched; a cursor deleted mid-read and tracked anew is not followed across the change.
- EventWriterModel.OneWriteInOrder: a store write that fails counts as ended, as the source has it, and its batch is dropped there.
- EventWriterModel.CapKeepsStructure: the text of the truncation notice is a constant, where the source spells the limit out.
- JournalFollower.PushesFollowJournal: the store behind the writer and the process table are outside; a half-written line is a line that does not parse.
- TablePlanner.SortTables: names are compared through their collation's rank, and the order of names it ties is left open; a reference to a table with an empty name is no reference.
- MssqlCopy.Session.Migrate: the progress callback; the source's row order is taken as stable.
- Orchestrator.TraceFollowsGrammar: the events emitted from inside the nine steps are not part of the trace.
- RunHubModel.RunHub.Revalidate: that an evicted peer's socket is closed.
- RunnerHubModel.MembersSeeTheirRoom: a socket that throws is a peer that leaves; the coalescing of `refresh` itself has the shape proved for the feed and the probe worker.
- ProbeWorkerModel.NoAnnouncedProbeWaits: deadlines and the answers of probes, and a poll timer that a second `start()` leaves behind; the agent's own claim loop has the same shape, and its slots are in `LeaseProtocol`.
- Redaction.BuildNeedles: `encodeURIComponent` is a parameter. Redaction.RedactValue leaves object keys as they are, as the source does.
- CursorCodec.CursorRoundTripExactly: `Date.parse` and the reading of bytes that are not ASCII are parameters; the browser's `atob` is not modelled.
- KeysetPaging.WalkIsCompleteExactly: the status and definition filters, under which rows may leave the list between pages.
- EndToEnd.LiveViewerEndsWithDatabase: a snapshot of more events than its limit of 500, and frames ahead of the snapshot; both are in `PageHoles`, for the deliveries as they arrive.
- PageHoles.PageWithoutHoles: that the catch-up gives up after 50 pages, and what a reconnect does to a page already open.
- Exactly one `table_finished` per table: an exact row estimate reports completion early.
- Database drivers, Docker, HTTP and WebSocket transport, the web app's pages, cryptography and hashing (a destination's lock key is an opaque value): plumbing, or easy members.
