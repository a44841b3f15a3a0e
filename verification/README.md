# DeepWiki: a verified model of its task delivery, chunking, refresh and streaming cores

DeepWiki ingests source repositories, chunks and indexes them, writes wikis about them and answers questions over them.
Its work runs as tasks: rows in Postgres, messages in RabbitMQ, workers that claim, execute and settle, and a reconciler
that picks up what crashed. This project models that protocol and the other stateful cores of the program and proves what
each is relied on for, over every input and every run.

`dafny verify dfyconfig.toml` checks the whole project (Dafny 4.11). One module per file:

| modules | what they model |
|---|---|
| `TaskModel`, `TaskRows`, `TaskStore`, `Queues` | task states and types, the row and its guarded writes, the task table and the broker as classes |
| `Protocol` | the delivery protocol as a transition system: rows, messages by place, workers with program counters, submitters, cancellers, reconciler rounds and a clock; every store call and publish may fail, and fail after taking effect; workers crash, connections drop, messages are lost |
| `ProtocolInvariant`, `ProtocolSafety`, `Starts`, `DoubleStart`, `Delivery`, `DeadLetters`, `Lineage`, `Records`, `Recovery` | the invariant of all runs and the theorems about them |
| `ProtocolShapes`, `Outcomes`, `Manager` | the manager, dead-letter consumer, panic guard and reconciler as methods on the two classes; each method's calls are proved to be a run of the protocol, so the theorems about runs hold of the real fields; deliveries, time, expiry and faults are methods too, so any number of workers may be at work at once |
| `Windows`, `Chunker`, `Lines`, `Lossless`, `FileRows` | the two-level chunker, what its rows are line by line and what they determine |
| `ChunkStore`, `Refresh`, `Layers`, `SearchIndex`, `StoreHistory`, `StoredText`, `Failures`, `Executors`, `Keyword` | the chunks table, the incremental refresh, what repeated and interrupted executions leave of a path, the search index, the history of both stores, the inputs at which it ends badly, the executors' storing stages, and the backfill from child hits to parents |
| `RateLimit`, `Sse`, `ConfigPatch`, `ConfigShape`, `ConfigManager`, `EventBus`, `Fanout` | the sliding-window limiter, the server-sent-event printer and parser, the configuration patches, their decoding and their replay, the event streams with replay and fan-out |
| `Wiki`, `WikiRuns`, `Pipeline`, `Rerank`, `Fusion` | checkpointed wiki generation, one run and any number of reruns, the stage runner, reranking and reciprocal-rank fusion |

Failures of calls are parameters: a store call is `Done`, `ErrLost` (no effect) or `ErrApplied` (an error after the effect),
a publish is `Confirmed`, `NotSent` or `Unconfirmed`. What a language model, an embedder or the environment answers is a
parameter too. Classes keep ghost histories (all admissions, everything printed, everything published, the run so far)
and their invariants tie the real fields to them.

## What the code does not do as its documentation says

The model follows the code; behind each of these stands the lemma named, with an input that fails or the exact condition, or both.

- A negative acknowledgement without requeue is documented as entering the retry chain
  (`deepwiki/internal/task/pool.go:36-38`, `deepwiki/internal/queue/rabbitmq.go:21`). The bindings send it to the dead-letter
  queue (`rabbitmq.go:147-153`), from which it only leaves when its task has been failed (`DeadLetters.NackedOnlyFails`). Retries happen
  only by explicit publishing.
- "At most one `Execute` starts between two resets" fails for a worker that has claimed but not yet read its row when the
  row is reset. `Starts.StartsPerReset` is the bound that holds, `DoubleStart.OneResetTwoStarts` a run from the empty system that needs it.
- Recovering a stale running task takes two rounds, because the reset refreshes `updated_at` (`Recovery.OneRound`, `Recovery.TwoRounds`).
- Refresh weights add up to 105; the comment promises 45 for embedding, the table says 50 (`Pipeline.WeightsAddUp`). No percentage shows it.
- An ingest never deletes. Executed again, as after a crash, it leaves every file twice, and later refreshes take the copies for
  up to date (`Failures.RepeatedIngestStaysDoubled`); if a file changed in between, its path carries two hashes and the next refresh
  repairs it or not by chance (`Failures.MovedUpstreamIsAGamble`). When a refresh does equal a rebuild is `StoreHistory.LastRefreshRebuilds`.
- An insert that fails inside a file's rows leaves a file every later refresh takes for unchanged
  (`Layers.CutShortIsRepairedBetweenFiles`, `Failures.TornFileStaysTorn`).
- A refresh stopped between its two deletes can leave documents of vanished files that later refreshes do not remove
  (`SearchIndex.RefreshAgrees`, `Failures.StaleDocumentSurvives`), and equal counts can hide them from the start-up check
  (`SearchIndex.CountCheck`, `Failures.EqualCountsHideBoth`).
- The stream client trims names and data and drops an empty `message` (`Sse.RoundTrip`).
- A configuration patch with an empty object changes no setting when it is applied, and empties the settings below it at the next
  reload (`ConfigManager.PublishedEqualsReloaded`, `ConfigManager.EmptyObjectEmptiesOnReload`). A null makes the stored and the merged
  trees differ (`ConfigManager.StoredEqualsReloaded`) but not the configurations. Empty and overlapping names are two further exceptions
  (`ConfigManager.EmptyNameIsLost`, `ConfigManager.OverlappingOverridesDependOnOrder`).
- The limiter's member names must be distinct (`RateLimit.DrawnTwice`); the script draws them at random.
- A replay can be reported truncated when nothing is missing, since tasks share one numbering (`EventBus.GapWithoutLoss`), and one
  that is not reported truncated can still stop at the 1000-entry cap (`EventBus.ReplayIsCompleteWithinCap`, `EventBus.CapDropsTheLast`).
  A subscriber of several tasks can miss events, having one cursor for all streams (`Fanout.DeliveredUnlessOvertaken`,
  `Fanout.CursorPassesEvent`), and any subscriber misses the events of a node whose counter is behind its own node's
  (`Fanout.BehindTheStart`, `Fanout.SlowerNodeIsUnheard`).
- A context's fused score can depend on the order of the result lists (`Fusion.ScoresIgnoreListOrder`, `Fusion.OrderDecidesTheWeight`).
- Wiki checkpoints are lost in two ways (`WikiRuns.SavedPageStays` is what holds otherwise): a run that dies between its last checkpoint
  and its completion is not resumed but written again (`WikiRuns.DiesBeforeCompletion`), and a run that fails to read the saved wiki
  starts again and overwrites it (`WikiRuns.FailingReadLosesPages`).

## Model

| member | source | states |
|---|---|---|
| `Delivery.NoTaskIsLost` | deepwiki/internal/task/manager.go:294-438 | In every run without a fault (store error, crash, disconnect, drop, abandoned submit, a running row gone stale), every pending task has a submitter still publishing or a message in the broker or in an unsettled delivery, and every running task has a dead letter or the unsettled delivery of a worker that claimed it. |
| `Delivery.DrainedMeansFinished` | deepwiki/internal/task/manager.go:294-438 | Once a fault-free system holds no message and no submitter, every task is completed, failed or cancelled. |
| `Delivery.StepKeepsCovered` | deepwiki/internal/task/manager.go:400-438 | The inductive step behind the two rows above: every fault-free step of a submitter, worker, broker, canceller or reconciler leaves every task covered. Skipping the reset, publishing after the acknowledgement or acknowledging before the publish would break it. |
| `ProtocolInvariant.StepKeepsInv` | deepwiki/internal/task/manager.go:294-438 | Every step, faults included, keeps the global invariant (rows, claim history, cargo of every message, every program point) and lets every row only grow. |
| `ProtocolSafety.TerminalAbsorbs` | deepwiki/internal/task/store.go:325-389 | In every run, faults included, a completed, failed or cancelled row never changes state again. |
| `ProtocolSafety.RowsExplainThemselves` | deepwiki/internal/task/store.go:112-191 | In every reachable state a row is terminal if and only if `finished_at` is set, and a failed row has an error record. |
| `ProtocolSafety.CancelLasts` | deepwiki/internal/task/manager.go:236-266 | A task whose `Cancel` returned nil is cancelled at every later moment, under later claims, retries, resets, reports and dead letters. |
| `ProtocolSafety.TypesNeverMix` | deepwiki/internal/model/task.go:44-68 | Although the transition table is one union, no row ever enters a stage of another type; every message carries its row's type and every worker executes its row's type, outdated workers included. |
| `ProtocolSafety.RetriesAreBounded` | deepwiki/internal/task/manager.go:400-438 | In every reachable state a message's retry count is at most `maxRetries` and at most 3, and a message waiting in retry queue i carries count i+1. |
| `ProtocolSafety.TriedAgainBelowTheBound` | deepwiki/internal/task/manager.go:400-438 | In every run, faults included, a worker resets and republishes its task only with a retry count below `maxRetries` and gives it up as exhausted only from `maxRetries` on; after an execution that returned an error it does one of the two. |
| `ProtocolSafety.ClaimsAreExclusive` | deepwiki/internal/task/store.go:339-352 | Between any two moments of any run a task is claimed successfully at most once more than it is reset from running to pending; only claimers start `Execute`, so overall starts are at most resets plus one. |
| `ProtocolSafety.NoStartAfterFlag` | deepwiki/internal/task/manager.go:344-382 | No `Execute` starts after the cancel flag is set, except one whose read of the row came before. |
| `Starts.StartsComeFromClaims` | deepwiki/internal/task/manager.go:323-382 | Every `Execute` started between two moments belongs to a claim made between them, or to a latecomer: a worker that had claimed but not yet read the row at the first moment. |
| `Starts.StartsPerReset` | deepwiki/internal/task/manager.go:323-382 | The exact form of "one `Execute` between two resets": starts between two moments are at most the resets in between, plus one if the row was pending, plus the latecomers at the first moment. |
| `Starts.LatecomerStartsTwice` | deepwiki/internal/task/manager.go:323-382 | The latecomer term is needed: from any state with a pending task, a queued message and a latecomer, four fault-free steps start two executions without a reset. |
| `DoubleStart.LatecomerIsReachable` | deepwiki/internal/task/manager.go:323-382 | Eight steps from the empty system lead to such a state: submit, publish, deliver, claim, time past `staleAfter`, and a reconciler round. |
| `DoubleStart.OneResetTwoStarts` | deepwiki/internal/task/manager.go:323-382 | Joined: a run of twelve steps from the empty system with one reset, followed by two executions of the same task and no further reset. |
| `DeadLetters.NackedOnlyFails` | deepwiki/internal/queue/rabbitmq.go:117-153 | In every run a delivery answered negatively without requeue stays in the dead-letter queue and its consumer's hands; it is over only once the consumer has tried to fail its task or the broker has lost it, and once a try went through the task is finished. It never reaches a retry queue. |
| `DeadLetters.DeadLetterStep` | deepwiki/internal/task/dlq.go:53-79 | The step behind it: no step of any actor moves a dead letter anywhere else. |
| `Lineage.ExecutionsAreBounded` | deepwiki/internal/task/manager.go:400-438 | In every fault-free run all executions that descend from one publish, through any number of retries, number at most 1 + min(`maxRetries`, 3); a waiting message's lineage has executed at most as often as its retry count, and has no other waiting message. |
| `Records.RecordsAreTrue` | deepwiki/internal/task/manager.go:294-438 | The counts these theorems speak of are counts of the run's own steps: entries into an executor by lineage and by task, successful claims, and running rows taken back to pending. |
| `Records.EntriesAreBounded` | deepwiki/internal/task/manager.go:400-438 | So in every fault-free run the steps that enter an executor for one publish and its retries number at most 1 + `maxRetries`, and at most four. |
| `Recovery.RoundPublishes` | deepwiki/internal/queue/reconciler.go:72-127 | A completed reconciler round publishes a message for a task if and only if its row was unfinished when the query ran and, in a periodic round, last written before the limit the round began with; whether it was ever claimed does not matter. |
| `Recovery.RepublishedIsQueued` | deepwiki/internal/queue/publisher.go:87-142 | Such a publish is a message in the jobs queue with the row's type and no retries. |
| `Recovery.OneRound` | deepwiki/internal/queue/reconciler.go:72-94 | An unfinished row without a recent write is pending after one round, and that round publishes it if and only if it was pending already: resetting a running row refreshes `updated_at`, which hides it from the same round's query. |
| `Recovery.TwoRounds` | deepwiki/internal/queue/reconciler.go:72-94 | From any reachable state, faults included, an unfinished row last written more than `staleAfter` ago that nobody else writes is pending at the query of a second round more than `staleAfter` later, whose confirmed publish puts a message into the jobs queue; unless the row was written meanwhile it is pending at that very moment. |
| `Recovery.StartupRound` | deepwiki/internal/queue/reconciler.go:97-127 | The start-up round publishes exactly the unfinished rows, stale or not. |
| `TaskModel.StagesAreLegal` | deepwiki/internal/model/task.go:44-68 | The states an executor reports belong to its type, start with the one the claim writes, follow one another legally and end with the completion. |
| `TaskModel.TransitionsStayInType` | deepwiki/internal/model/task.go:44-68 | From a running state of a type the union table leads only to states of that type; from pending only the type's own first state does. |
| `TaskRows.PatchedKeepsRow` | deepwiki/internal/task/store.go:112-191 | `UpdateState` with a patch as its callers build it keeps a well-formed row well-formed and never moves a terminal row. |
| `TaskRows.ClearErrLosesTheError` | deepwiki/internal/task/store.go:112-191 | A patch that sets both `Err` and `ClearErr` leaves a failed row without an error record, so their exclusion is a duty of the caller. |
| `TaskStore.TaskTable.Create` | deepwiki/internal/task/store.go:55-97 | Inserts unless the identifier exists; a store error may or may not have taken effect. |
| `TaskStore.TaskTable.Get` | deepwiki/internal/task/store.go:99-110 | Returns the row, not found, or a store error. |
| `TaskStore.Columns` | deepwiki/internal/task/store.go:112-191 | The columns collected one by one: a column changes only if the patch names it, `ClearErr` wins over `Err`. |
| `TaskStore.TaskTable.UpdateState` | deepwiki/internal/task/store.go:112-191 | Under the row lock: the transition and error guards, the defaulted `finished_at`, and the new row or the refusal. |
| `TaskStore.TaskTable.SetCancelFlag` | deepwiki/internal/task/store.go:262-272 | Raises the flag of an existing row whatever its state; a missing row is reported. |
| `TaskStore.TaskTable.ClaimPending` | deepwiki/internal/task/store.go:339-352 | Compare-and-set: the caller wins if and only if the row exists, is pending and the statement went through; nothing else changes. |
| `TaskStore.TaskTable.ResetToPending` | deepwiki/internal/task/store.go:355-368 | Resets any unfinished row; a finished or missing one counts as not found. |
| `TaskStore.TaskTable.FailTask` | deepwiki/internal/task/store.go:372-389 | Fails any unfinished row, pending included, bypassing the transition table. |
| `TaskStore.TaskTable.ResetStaleRunning` | deepwiki/internal/task/store.go:325-335 | Resets exactly the running rows without a recent heartbeat, refreshes `updated_at`, and counts them. |
| `TaskStore.TaskTable.Find` | deepwiki/internal/task/store.go:274-321 | Lists exactly the unfinished rows, or those of them last written before the limit, each once, oldest first. |
| `Queues.Broker.Publish` | deepwiki/internal/queue/publisher.go:87-142 | Appends a message without retries to the jobs queue unless it never arrived; reports success only on a confirm. |
| `Queues.Broker.PublishRetry` | deepwiki/internal/queue/publisher.go:144-149 | Routes the attempt to its own retry queue with the next count, and past the third queue to the dead-letter queue. |
| `Queues.Broker.PublishToDlq` | deepwiki/internal/queue/publisher.go:151-153 | Appends a dead letter. |
| `Queues.Broker.Settle` | deepwiki/internal/queue/rabbitmq.go:103-161 | An acknowledgement removes the delivery, a negative one without requeue dead-letters it, and only its current holder's answer counts. |
| `Manager.Manager.Submit` | deepwiki/internal/task/manager.go:156-234 | A refresh without its lock is refused with nothing changed. Row before message; the full queue, the refused type, the failed insert and the unconfirmed publish each leave exactly the stated row and messages and return the stated error. The calls made are a run of the protocol. |
| `Manager.Manager.Cancel` | deepwiki/internal/task/manager.go:236-266 | Nil if and only if the row existed unfinished and all three calls went through; then the row is cancelled, flagged and finished. The calls made are a run of the protocol. |
| `Manager.Manager.Dispatch` | deepwiki/internal/task/manager.go:294-438 | For every outcome of every call, the rows and messages in columns: an unknown type or a claim that errs dead-letters the delivery, a lost claim acknowledges it, a claimed task that cannot be read is tried again, a flagged one cancelled, one without an executor failed, and an execution is acknowledged, cancelled, tried again or dead-lettered as it returned. All of it is a run of this one worker; every other worker stays where it is. |
| `Manager.Manager.ResetAndRetry` | deepwiki/internal/task/manager.go:400-438 | Below `maxRetries` the unfinished row is pending again, a message with the next count is in this attempt's retry queue (in the dead-letter queue once three are used up) and the delivery is gone; a failing reset or publish dead-letters it. From `maxRetries` on the unfinished row is failed with 50003, a dead letter is published and the delivery acknowledged. Exactly that is left for every outcome of the calls. |
| `Manager.Manager.RunExecutor` | deepwiki/internal/task/manager.go:380-397 | An executor that returns nil is acknowledged and its row left as it is, a cancelled one's row is cancelled unless it is completed or failed, an error is tried again or given up, a panic dead-letters. |
| `Manager.Manager.FinishCancelled` | deepwiki/internal/task/manager.go:440-455 | Writes the cancelled state and clears the error, ignoring a refusal, as the protocol's move. |
| `Manager.Manager.Execute` | deepwiki/internal/service/executors.go:59-144 | An executor's reports, heartbeats and end, in any number, are moves of the protocol's worker on its own row; it returns what its end says unless a report fails, leaves a succeeded row finished, and without a call leaves the rows alone. |
| `Manager.Manager.Report` | deepwiki/internal/service/executors.go:59-144 | An accepted report leaves the stage, the progress and, at the end, the time; a refused one leaves the row and ends the execution. |
| `Manager.Manager.Deliver` | deepwiki/internal/task/pool.go:63-83 | A message of the jobs queue goes to a free worker while other deliveries may be out. |
| `Manager.Manager.HandleOne` | deepwiki/internal/task/pool.go:85-100 | A delivered message is settled when the handler is done, also when it panics, with what a dispatch of its task, type and retry count leaves, by a run of the protocol. |
| `Manager.Manager.HandleTwo` | deepwiki/internal/task/pool.go:42-61 | Two deliveries out at once are both settled, in either order. |
| `Manager.Manager.Expire` | deepwiki/internal/queue/rabbitmq.go:129-144 | A message whose time to live runs out returns to the jobs queue, and nothing else changes. |
| `Manager.Manager.Crash` | deepwiki/internal/task/manager.go:294-397 | A worker that dies at any program point leaves the rows as they are and, if it still holds it, its delivery in the jobs queue. |
| `Manager.Manager.HandleDlq` | deepwiki/internal/task/dlq.go:53-79 | Fails the task of a dead letter with 50003 if it is unfinished and acknowledges the letter whatever the store answers. |
| `Manager.Manager.RecoverRound` | deepwiki/internal/queue/reconciler.go:72-127 | Every running row last written before the limit is pending again and no other row changes; then exactly the unfinished rows (in a periodic round those still last written before the limit) are published: exactly the confirmed publishes are counted, every sent message stands for a listed row and every confirmed one is queued. |
| `Manager.Manager.ResendAll` | deepwiki/internal/queue/reconciler.go:79-92 | The publishing loop alone, with the same statement. |
| `Manager.FinishedTasksStay` | deepwiki/internal/task/manager.go:294-438 | The run theorems on the real table: a task that was final at any earlier moment of the manager's life is still in the table in that state. |
| `Manager.CancelledTasksStay` | deepwiki/internal/task/manager.go:236-266 | The same for a cancellation that returned nil. |
| `Pipeline.WeightsAddUp` | deepwiki/internal/ingest/pipeline.go:55-65 | Ingest weights add up to 100 and refresh weights to 105: the shared table gives embedding 50 where the comment above it promises refresh 45. |
| `Pipeline.PercentsNeverFall` | deepwiki/internal/ingest/pipeline.go:195-228 | Reported percentages never fall and stay within 0 and 100 all the same. |
| `Pipeline.Run` | deepwiki/internal/ingest/pipeline.go:195-228 | On a row the claim put into the first stage, the runner makes the reports of `ReportsAre` in order; no report is refused unless the store itself fails, and without cancellation or failure the row ends completed at 100. Other rows are untouched. |
| `Pipeline.ReportsAre` | deepwiki/internal/ingest/pipeline.go:53-65 | Ingest reports cloning at 0, parsing at 15, chunking at 25, embedding at 35, persisting at 85 and completion at 100; refresh fetching at 0, diffing at 20, chunking at 30, embedding at 40, persisting at 90 and completion at 100. |
| `Pipeline.Gather` | deepwiki/internal/ingest/pipeline.go:132-158 | The texts to embed are exactly those of the child chunks, in order, with their places. |
| `Pipeline.Embed` | deepwiki/internal/ingest/pipeline.go:132-158 | Every child gets the vector of its own content and no parent gets one; with a wrong number of vectors nothing is written. |
| `Windows.SplitWindows` | deepwiki/internal/ingest/chunker.go:93-140 | The two nested loops terminate for any lines, size, overlap and headings, and compute the window list the lemmas below speak about. |
| `Windows.FillWindow` | deepwiki/internal/ingest/chunker.go:105-115 | The first inner loop ends the window where the rules say and knows whether a heading stopped it. |
| `Windows.TakeBack` | deepwiki/internal/ingest/chunker.go:126-137 | The second inner loop takes lines back exactly as far as the overlap asks. |
| `Windows.EndIsUnique` | deepwiki/internal/ingest/chunker.go:105-115 | A window's end is determined by two properties: no earlier line fills the budget or is a heading, and it is full or stands before a heading or the end. |
| `Windows.WindowStructure` | deepwiki/internal/ingest/chunker.go:93-140 | Windows are non-empty, start at 0, end at n, with strictly increasing starts, non-decreasing ends and no gap; for positive sizes the tokens before a window's last line stay below the size; a window not ended by a heading or the file is full; the repeated lines are just enough for the overlap and not without their first. |
| `Windows.WindowsAreUnique` | deepwiki/internal/ingest/chunker.go:93-140 | These rules, with the overlap taken exactly unless a heading stopped the window or it would take all of it, leave only one list of windows. |
| `Windows.HeadingsStartWindows` | deepwiki/internal/ingest/chunker.go:93-140 | Every heading line starts some window and is interior to none. |
| `Chunker.HeadingMeans` | deepwiki/internal/ingest/chunker.go:143-152 | A heading is one to six hashes followed by a space or the end of the line. |
| `Chunker.CheckHeading` | deepwiki/internal/ingest/chunker.go:143-152 | The scanning loop decides just that. |
| `Chunker.ChunkFiles` | deepwiki/internal/ingest/chunker.go:24-82 | All files' chunks in order, nothing if the context is cancelled before some file; what the chunks of one file are, line by line, is in the next three rows. |
| `FileRows.ParentsAreCut` | deepwiki/internal/ingest/chunker.go:24-140 | The parents of any file, for any options: from the first line to the last, each with its lines' text, below `chunk_size` tokens (500 unless positive) before its last line and not below with it unless a heading or the end follows, no heading inside, each after the first repeating just the overlap; headings count in markdown and in no other language. |
| `FileRows.ChildrenAreCut` | deepwiki/internal/ingest/chunker.go:62-90 | The children of every parent are cut the same way, at 300 tokens with an overlap of 40, and headings never count. |
| `FileRows.HeadingsStartParents` | deepwiki/internal/ingest/chunker.go:48-51 | In a markdown file every line of one to six hashes followed by a space or the end is the first line of some parent and lies inside none. |
| `Chunker.ChunkFile` | deepwiki/internal/ingest/chunker.go:44-79 | One file's windows, each with its parent and children, for the normalised options. |
| `Chunker.ChunkWindow` | deepwiki/internal/ingest/chunker.go:52-79 | One window: the parent and the second-level windows with their line numbers translated to the file. |
| `Lossless.ParentsRebuildTheFile` | deepwiki/internal/ingest/chunker.go:24-82 | For every file and options, joining each parent's lines past the previous parent's end gives the file's text exactly. |
| `Lossless.ChildrenRebuildTheParent` | deepwiki/internal/ingest/chunker.go:24-82 | The same for the children of each parent and the parent's text. |
| `Lossless.RowsAreFaithful` | deepwiki/internal/ingest/chunker.go:24-82 | Every row has a fresh identifier, its file's attributes, exactly the file's lines at its own line numbers, and, if it is a child, a parent of the same file around it. |
| `Lines.JoinSplit` | deepwiki/internal/ingest/chunker.go:24-82 | Splitting a text into lines and joining them gives the text back. |
| `Lines.SplitJoin` | deepwiki/internal/ingest/chunker.go:24-82 | Joining newline-free lines and splitting gives the lines back. |
| `ChunkStore.ChunkTable.InsertBatch` | deepwiki/internal/store/chunk_store.go:48-73 | Success inserts everything in order; failure leaves a prefix that ends with a whole 500-row statement, the one before the failing one or, if it failed after taking effect, that one. |
| `ChunkStore.ChunkTable.DeleteByPaths` | deepwiki/internal/store/chunk_store.go:177-186 | Removes exactly the rows of the paths, of this repository only. |
| `ChunkStore.RowsOfWithout` | deepwiki/internal/store/chunk_store.go:177-186 | After a delete a named path has no rows and every other path has the rows it had, in order. |
| `ChunkStore.ChunkTable.FileHashes` | deepwiki/internal/store/chunk_store.go:188-210 | One entry per path present, the hash of some row of it: the query has no order, so with several hashes any of them may come first. |
| `ChunkStore.AnswerOfPath` | deepwiki/internal/store/chunk_store.go:188-210 | A path has an entry if and only if it has rows, and the entry is the hash of one of them. |
| `Refresh.Diff` | deepwiki/internal/service/executors.go:245-287 | The dirty paths are exactly the new, changed and vanished ones; the files to chunk are exactly the new and changed ones, in order. |
| `Refresh.RebuildIsClean` | deepwiki/internal/ingest/chunker.go:24-82 | Chunking a tree into an empty table leaves every path with the rows of one text. |
| `Refresh.RefreshKeepsClean` | deepwiki/internal/service/executors.go:236-336 | A refresh keeps that, complete or stopped between delete and insert. |
| `Refresh.OneHashPerPath` | deepwiki/internal/store/chunk_store.go:188-210 | In such a table all rows of a path carry one hash, whatever row the query returns first. |
| `Refresh.RefreshedRows` | deepwiki/internal/service/executors.go:236-336 | What a refresh leaves of one path of any table: the rows it had if the diff takes its file for unchanged, the chunks of its present text if not, nothing if the file is gone. |
| `Layers.RefreshEqualsRebuildExactly` | deepwiki/internal/service/executors.go:236-336 | For any table, known by the executions that inserted its rows: with unchanged options and hashes that tell texts apart, a refresh leaves, path by path and up to identifiers, the rows chunking the whole tree gives if and only if every file the diff takes for unchanged is held as the complete rows of a single execution. |
| `Layers.FileStartsOnce` | deepwiki/internal/ingest/chunker.go:24-82 | A file's rows begin with the parent at line one and no other row is like it, which is what tells executions apart. |
| `Layers.RefreshEqualsRebuild` | deepwiki/internal/service/executors.go:236-336 | In particular from a table of whole files a refresh always equals a rebuild. |
| `Layers.StoppedRefreshIsRepaired` | deepwiki/internal/service/executors.go:245-336 | From a table of whole files, a refresh stopped between delete and insert is repaired by the next one, whatever tree that one sees. |
| `Layers.CutShortIsRepairedBetweenFiles` | deepwiki/internal/store/chunk_store.go:60-71 | A refresh whose insert failed part-way is repaired by the next one on the same tree if and only if the cut fell between two files' rows; a file cut in the middle looks unchanged and stays torn. |
| `Failures.TornFileStaysTorn` | deepwiki/internal/store/chunk_store.go:60-71 | The input: a file of 251 lines of 400 characters, in windows of 100 tokens without overlap, has 502 rows; when its second insert statement fails, the next refresh leaves it torn. |
| `StoreHistory.HistoryLayers` | deepwiki/internal/ingest/pipeline.go:159-174 | Over any history of ingests, refreshes and start-up checks, each of them executed any number of times and stopped after any of its calls or inside an insert or an indexing, every path holds exactly the rows its executions since its last delete inserted, oldest first. |
| `StoreHistory.LastRefreshRebuilds` | deepwiki/internal/service/executors.go:236-336 | Over any such history a complete refresh leaves the rows of a rebuild if and only if every file its diff takes for unchanged is held as the complete rows of a single execution. |
| `StoreHistory.OrderlyRefreshRebuilds` | deepwiki/internal/service/executors.go:236-336 | So it does in every history whose ingests only write paths the table does not hold and whose inserts are cut only between files, whatever else was interrupted. |
| `StoreHistory.SettledPathHasOneHash` | deepwiki/internal/store/chunk_store.go:188-210 | A path with at most one complete execution holds the rows of one text, under one hash. |
| `StoreHistory.ParentsStay` | deepwiki/internal/store/chunk_store.go:177-186 | In every such history each child's parent is in the table, in the same file and around it, and no identifier is used twice. |
| `Failures.RepeatedIngestStaysDoubled` | deepwiki/internal/ingest/pipeline.go:159-174 | The input: an ingest executed twice leaves every file twice, and the next refresh of the same tree does not rebuild the table, whatever the hash query answers. |
| `Failures.MovedUpstreamIsAGamble` | deepwiki/internal/store/chunk_store.go:188-210 | When a file changes between the two executions, its path carries two hashes, and the next refresh rebuilds it if and only if the query returns the old one first. |
| `StoreHistory.StoresAgree` | deepwiki/internal/search/opensearch.go:136-221 | Since the stores last agreed, with no interruption that leaves documents without rows or rows without documents, the indexed identifiers are exactly the table's child identifiers, each with its row's document. |
| `StoreHistory.CheckRestores` | deepwiki/cmd/server/main.go:479-547 | If since the stores last agreed all harmful interruptions were of one of the two kinds, however many, the start-up count check restores agreement. |
| `StoreHistory.AgreeFromTheStart` | deepwiki/cmd/server/main.go:479-547 | Both hold from the start of every history, as empty stores agree: what agreement needs is a condition on the visits alone. |
| `Failures.StaleDocumentSurvives` | deepwiki/internal/service/executors.go:271-278 | The input for strays: a refresh stopped between its two deletes leaves a vanished file's document, and the next refresh does not remove it. |
| `Failures.EqualCountsHideBoth` | deepwiki/cmd/server/main.go:490-512 | The input with both kinds: one stray and one missing document make the counts equal, and the check leaves both. |
| `StoreHistory.VisitKeeps` | deepwiki/internal/service/executors.go:236-336 | The step behind these rows: what each kind of visit keeps of the table's soundness and of each half of agreement. |
| `StoredText.RowsAreOfFiles` | deepwiki/internal/ingest/chunker.go:53-79 | Over any history every row carries path, language and hash of a file some visit read, and exactly its lines at the numbers the row claims. |
| `StoredText.DocumentsHoldTheLines` | deepwiki/internal/search/opensearch.go:192-200 | While the stores agree, every document of the index carries path and language of such a file and exactly its lines at the document's own numbers. |
| `Executors.Persist` | deepwiki/internal/ingest/pipeline.go:159-174 | The shared last stage: for every combination of failing calls it leaves all rows and documents, a prefix of the rows, or all rows with part of the documents, and says which. |
| `Executors.Ingest` | deepwiki/internal/ingest/pipeline.go:108-176 | The ingest stages on the two stores in place: an empty tree is refused and changes nothing; whatever fails otherwise, nothing has happened or both stores end exactly as one visit of the history says; other repositories are untouched. |
| `Executors.Run` | deepwiki/internal/service/executors.go:236-336 | The same for the refresh stages from the diff on, including failures of the parse, the hash query, both deletes and the index creation, before or after they took effect. |
| `SearchIndex.SearchCluster.CreateIndex` | deepwiki/internal/search/opensearch.go:106-119 | Idempotent; documents stay. |
| `SearchIndex.SearchCluster.DeleteIndex` | deepwiki/internal/search/opensearch.go:122-132 | Empties one repository's index only. |
| `SearchIndex.SearchCluster.DeleteByPaths` | deepwiki/internal/search/opensearch.go:136-158 | Removes exactly the documents of the paths. |
| `SearchIndex.SearchCluster.BulkIndex` | deepwiki/internal/search/opensearch.go:173-221 | Child chunks only, in batches of 500; a failing request may have indexed any of its items and ends the call, and what is indexed is exactly the chunks at the places not lost. On success every child has a document with its path, text, language and line numbers. |
| `SearchIndex.SearchCluster.Count` | deepwiki/internal/search/opensearch.go:233-243 | The number of documents, zero without an index. |
| `SearchIndex.IndexedMeans` | deepwiki/internal/search/opensearch.go:173-221 | Indexing chunks with distinct identifiers gives each child its own document, with its path, text, language and line numbers, keeps every other document and adds none besides. |
| `SearchIndex.RefreshAgrees` | deepwiki/internal/service/executors.go:265-336 | A complete refresh leaves the stores in agreement if and only if they agreed on the paths it does not touch; documents left behind by a stop between its two deletes can survive it. |
| `SearchIndex.RefreshKeepsAgreement` | deepwiki/internal/service/executors.go:265-336 | In particular a refresh keeps agreement. |
| `SearchIndex.IngestKeepsAgreement` | deepwiki/internal/ingest/pipeline.go:160-176 | And so does an ingest, beside whatever the stores hold. |
| `SearchIndex.RefreshKeepsClosed` | deepwiki/internal/store/chunk_store.go:177-186 | A delete by paths never separates a child from its parent; neither does a refresh, complete or stopped. |
| `SearchIndex.RebuildRestoresAgreement` | deepwiki/cmd/server/main.go:516-547 | Rebuilding from the child rows makes the stores agree whatever the index held. |
| `SearchIndex.CountCheck` | deepwiki/cmd/server/main.go:490-512 | After the count check identifiers match if and only if the counts differed or no indexed document was foreign: equal counts hide a missing document behind a stale one. |
| `SearchIndex.SearchCluster.RebuildIndex` | deepwiki/cmd/server/main.go:516-547 | On success the index is rebuilt from exactly the child rows, on failure from some of them. |
| `SearchIndex.SearchCluster.VerifyIndices` | deepwiki/cmd/server/main.go:479-513 | Each repository whose counts could be read is verified on its own, the others and the table are left alone. |
| `Keyword.Backfill` | deepwiki/internal/retriever/keyword.go:38-112 | The answer lists, for the first hit of each parent and in hit order, the parent row with that hit's score; nothing else. |
| `Keyword.CollectParents` | deepwiki/internal/retriever/keyword.go:56-85 | The identifiers fetched in the second query are exactly the parents of the found children. |
| `Keyword.BackfillLosesNoHit` | deepwiki/internal/retriever/keyword.go:56-111 | While the stores agree and parents are present, every indexed hit is represented by a row around it, at the place and score of the first hit of that parent; no row is listed twice. |
| `RateLimit.SlidingWindow.Script` | deepwiki/internal/ratelimit/redis_lua.go:16-26 | With a non-decreasing clock a request is admitted if and only if fewer than `limit` admissions of the full history lie in the window before it, unless a member was drawn twice; the remaining count and the new set are as stated. |
| `RateLimit.SlidingWindow.Allow` | deepwiki/internal/ratelimit/redis_lua.go:46-75 | The same through the Go wrapper, with the remaining count: `limit` - 1 less the recent admissions when admitted, 0 when refused. When Redis fails the fallback answers and the limiter counts as degraded, also when only the reply is lost and the script has recorded an admission; a refusal's wait is the least one that gets admitted, or the window if it cannot be read. |
| `RateLimit.SlidingWindow.RetryAfter` | deepwiki/internal/ratelimit/redis_lua.go:78-88 | Absent other admissions, after a refusal a later request is admitted if and only if it comes at least the returned wait later. |
| `RateLimit.SlidingWindow.Expire` | deepwiki/internal/ratelimit/redis_lua.go:16-26 | When Redis may drop the expired key, no later answer changes. |
| `RateLimit.EveryWindowHoldsLimit` | deepwiki/internal/ratelimit/redis_lua.go:16-26 | If every admission found fewer than `limit` in its own window, every half-open window of the history holds at most `limit`. |
| `RateLimit.AtMostLimitPerWindow` | deepwiki/internal/ratelimit/redis_lua.go:16-26 | So it is for every history the limiter produces without drawing a member twice. |
| `RateLimit.DrawnTwice` | deepwiki/internal/ratelimit/redis_lua.go:16-26 | Distinct members are needed: with one drawn twice in a millisecond, a limit of two admits three at once. |
| `Sse.EventWriter.WriteEvent` | deepwiki/internal/api/handler/ask.go:77-91 | Prints the lines `id: n`, `event: name`, `data: payload` and an empty one, with the next number; a payload that cannot be encoded prints nothing and uses no number; a write that breaks off after any number of characters has used its number and breaks the connection. |
| `Sse.EventWriter.Beat` | deepwiki/internal/api/handler/ask.go:94-111 | A heartbeat prints its comment and uses no number; its write error is ignored. |
| `Sse.ParseFrame` | web/src/api/client.ts:101-110 | The line loop computes the frame, or none. |
| `Sse.DataLinesAreJoined` | web/src/api/client.ts:101-110 | A second data line of a block continues the first on a line of its own. |
| `Sse.CommentsAreSkipped` | web/src/api/client.ts:101-110 | A block that begins with a colon gives no frame, whatever else it holds. |
| `Sse.StreamSSE` | web/src/api/client.ts:79-94 | The buffer loop emits the frames of the whole text, however the text is cut into network chunks. |
| `Sse.Drain` | web/src/api/client.ts:87-93 | The inner loop emits all complete blocks and keeps the rest. |
| `Sse.FramesContinue` | web/src/api/client.ts:79-94 | Parsing can stop anywhere: what follows is parsed after the kept rest, with nothing lost or doubled. |
| `Sse.EventIsParsed` | web/src/api/client.ts:101-110 | What the client makes of one printed event: its number, name and data trimmed, and nothing if that is an empty `message`. |
| `Sse.PrintedIsSeen` | web/src/api/client.ts:79-110 | For any sequence of events and heartbeats, the frames of the printed text are what the client makes of each event, in order, with nothing left over. |
| `Sse.TornIsUnseen` | web/src/api/client.ts:79-94 | An event or heartbeat of which only the beginning arrived is not seen at all. |
| `Sse.RoundTrip` | web/src/api/client.ts:79-110 | For any events and heartbeats on single lines, printed in full or with a last one cut off anywhere, and any cut into network chunks, the client emits exactly those events with ids 1..n and unchanged name and data if and only if every name and data is free of outer white space and no event is an empty `message`. |
| `Sse.WriterRoundTrip` | deepwiki/internal/api/handler/ask.go:77-111 | So for whatever a writer has printed at any moment, broken off or not. |
| `Sse.DecimalHasItsValue` | deepwiki/internal/api/handler/ask.go:77-91 | The printed id names the number. |
| `ConfigPatch.Merge` | deepwiki/internal/config/manager.go:324-341 | The recursive merge, its members visited in any order, computes MergePatch of RFC 7396, section 2, on objects. |
| `ConfigPatch.MergeIsIdempotent` | deepwiki/internal/config/manager.go:324-341 | Applying a patch twice changes nothing more. |
| `ConfigPatch.SetView` | deepwiki/internal/config/manager.go:343-358 | Setting a dotted key changes what is seen at it, below it and on the way to it, and nothing else. |
| `ConfigPatch.ShownTreeIsUnique` | deepwiki/internal/config/manager.go:19-39 | Prefix-free overrides over a base determine one tree, so the order of replaying them cannot matter. |
| `ConfigPatch.FlatIsPrefixFree` | deepwiki/internal/config/manager.go:366-379 | No flattened path of a patch leads through another. |
| `ConfigPatch.ReplayIsMerge` | deepwiki/internal/config/manager.go:324-379 | On trees, where null and absent differ: replaying a patch's flattened members over a tree is merging it if and only if it has no null and no empty object where the tree has an object with members. |
| `ConfigPatch.ShowsStack` | deepwiki/internal/config/manager.go:19-39 | New overrides over the tree the old ones show are old and new overrides over the base. |
| `ConfigShape.DecodedAt` | deepwiki/internal/config/manager.go:317-322 | What a decoded configuration shows at a path depends on nothing but the leaf that stood there: absent, null and wrongly typed members are the field's zero value, unknown ones are dropped. |
| `ConfigShape.DecodeIsStable` | deepwiki/internal/config/manager.go:310-322 | Encoding a configuration and decoding it again changes nothing. |
| `ConfigShape.MergedLeaf` | deepwiki/internal/config/manager.go:324-341 | The leaf at any path of a merged tree is the one the patch gives, and the old one where the patch says nothing, also below its empty objects. |
| `ConfigShape.DecodedAlike` | deepwiki/internal/config/manager.go:310-379 | Merging a patch into the configuration a tree decodes to and replaying it over the tree itself decode to the same configuration if and only if every setting below an empty object of the patch has its zero value. |
| `ConfigManager.Replay` | deepwiki/internal/config/manager.go:19-39 | The replay loop, in any order, produces the tree the overrides show. |
| `ConfigManager.MergeOverrides` | deepwiki/internal/config/manager.go:19-39 | The result is the configuration that the prefix-free overrides put into effect, the base itself when there are none. |
| `ConfigManager.EffectIsUnique` | deepwiki/internal/config/manager.go:19-39 | Prefix-free overrides put exactly one configuration into effect. |
| `ConfigManager.FlattenRec` | deepwiki/internal/config/manager.go:366-379 | The recursive flattening stores exactly the flat members, each under its dotted key. |
| `ConfigManager.ConfigManager.Apply` | deepwiki/internal/config/manager.go:159-242 | Published only when every check passes and the write is confirmed, as the decoded merge into the configuration published before; the stored overrides become the old ones overlaid with the patch, also when the write was done but reported as failed; the published configuration stays the one the stored overrides put into effect if and only if the patch empties no setting. |
| `ConfigManager.ConfigManager.Reload` | deepwiki/internal/config/manager.go:142-156 | Publishes the configuration the stored overrides put into effect, and changes nothing if it was published already or the load or the validation fails. |
| `ConfigManager.PublishedEqualsReloaded` | deepwiki/internal/config/manager.go:142-242 | With dot-free non-empty names and prefix-free overrides, the configuration `Apply` publishes is the one a reload publishes if and only if every setting below an empty object of the patch has its zero value already; so always for a patch without empty objects, nulls included. |
| `ConfigManager.EmptyObjectEmptiesOnReload` | deepwiki/internal/config/manager.go:366-379 | The input: an empty object for a section with a setting that is not zero. |
| `ConfigManager.StoredEqualsReloaded` | deepwiki/internal/config/manager.go:324-379 | The same on trees, where null and absent differ: the replayed tree is the merged one if and only if the patch has no null and no empty object where the tree has an object with members. |
| `ConfigManager.EmptyNameIsLost` | deepwiki/internal/config/manager.go:366-379 | An empty member name at the top is lost in the stored key. |
| `ConfigManager.OverlappingOverridesDependOnOrder` | deepwiki/internal/config/manager.go:19-39 | Without prefix-freedom the order of replaying matters. |
| `EventBus.MatchFilter` | deepwiki/internal/eventbus/redis_stream.go:163-179 | An event matches if it is of the task and the repository the filter names and of one of its types; a part left empty asks nothing. |
| `EventBus.StreamBus.Publish` | deepwiki/internal/eventbus/redis_stream.go:62-97 | Assigns this node's next number if the event has none, appends only increasing numbers, and trims old entries only while a newest part of at least 1000 is kept. |
| `EventBus.ReplaySince` | deepwiki/internal/eventbus/redis_stream.go:125-161 | The loop returns the matching events after `lastSeq` among at most 1000 range entries, and whether the first of them leaves a gap. |
| `EventBus.ReplayIsComplete` | deepwiki/internal/eventbus/redis_stream.go:125-161 | When the replay reports no gap, nothing after `lastSeq` has been trimmed away; its events are all published matching ones if and only if nothing matching lies past the 1000-entry cap. |
| `EventBus.ReplayIsCompleteWithinCap` | deepwiki/internal/eventbus/redis_stream.go:125-161 | For a filter that every event of the task meets, such a replay is complete if and only if the stream holds at most 1000 entries from `lastSeq` on. |
| `EventBus.CapDropsTheLast` | deepwiki/internal/eventbus/redis_stream.go:125-161 | The input: after 1001 published events a replay from the first reports no gap and leaves out the last. |
| `EventBus.GapWithoutLoss` | deepwiki/internal/eventbus/redis_stream.go:125-161 | A gap is reported for an intact stream exactly when the next event's number is not the following one; numbers are shared by all tasks, so this happens without loss. |
| `EventBus.Subscriber.Deliver` | deepwiki/internal/eventbus/redis_fanout.go:103-120 | A full channel gives up its oldest event; the newest always gets in. |
| `EventBus.Subscriber.Dispatch` | deepwiki/internal/eventbus/redis_fanout.go:51-100 | Matching entries after the cursor are delivered in order, the cursor moves past all entries, delivered numbers strictly increase, nothing of another task, repository or type is ever delivered to a subscriber that names one, and the channel ends with the newest delivered event. |
| `EventBus.RoundMissesNothing` | deepwiki/internal/eventbus/redis_fanout.go:62-98 | One dispatch, while nothing past the cursor was trimmed and the range fits the cap: what was delivered before and in this dispatch are all matching events since the subscription if and only if no unseen matching event of the stream lies at or behind the cursor. |
| `Fanout.Follow` | deepwiki/internal/eventbus/redis_fanout.go:18-48 | The fan-out loop for one subscriber over any sequence of dispatched streams ends with the cursor and deliveries the next rows speak about. |
| `Fanout.DeliveredUnlessOvertaken` | deepwiki/internal/eventbus/redis_fanout.go:51-100 | Over any number of dispatches of any streams: a matching event, first dispatched after the subscription and then still in its stream with the range within the cap, is delivered then or later if and only if its number is larger than the number the subscriber's node had reached at the subscription and no earlier dispatch of another task's stream has moved the cursor to its number or past it. |
| `Fanout.BehindTheStart` | deepwiki/internal/eventbus/redis_fanout.go:51-100 | An event numbered no higher than the subscriber started is never delivered, whatever is dispatched and in whatever order. |
| `Fanout.SlowerNodeIsUnheard` | deepwiki/internal/eventbus/redis_fanout.go:51-100 | The input: the first event of a task, published after the subscription by a node whose counter is behind the subscriber's, is dispatched next, matches and is never delivered. |
| `Fanout.CursorPassesEvent` | deepwiki/internal/eventbus/redis_fanout.go:51-100 | The input: an event of another task with a larger number, dispatched first, leaves a matching event undelivered through all later dispatches. |
| `Wiki.WikiTable.Save` | deepwiki/internal/store/wiki_store.go:60-101 | Replaces the whole wiki in one transaction, also when only the answer to its commit is lost, or leaves it as it was when the commit fails or a slug repeats or is the contents row's. |
| `Wiki.WikiTable.Get` | deepwiki/internal/store/wiki_store.go:103-153 | Gives back contents and pages as stored, pages in sort order, and nothing for an empty table. |
| `Wiki.SameTocSlugs` | deepwiki/internal/service/executors.go:645-655 | The loop compares the slug sequences. |
| `Wiki.TakeUp` | deepwiki/internal/service/executors.go:463-476 | Pages are taken up if and only if the saved wiki can be read and has fewer pages than contents and the same slug sequence; then all of them, distinct members of the contents. |
| `Wiki.Generate` | deepwiki/internal/service/executors.go:459-541 | From any saved state and for any point of failure, failing and unheard saves included: the outcome, the pages and what is left in the table are exactly those of the run's course, where the table holds the pages as of the last save that took effect, or what it held before if none did; pages taken up are kept and not written again; every item done that was not taken up has a page with its slug, title and place and the text written for it; a completed run leaves exactly these and the pages taken up in the table, one page each for the contents' slugs if they are distinct and none is `_toc`; each page is followed by a report of 15 and its share of 80 percent. |
| `WikiRuns.RunAll` | deepwiki/internal/service/executors.go:459-541 | Any number of runs on one table, each with its own contents and failures, form a sequence of such runs. |
| `WikiRuns.TakenUpWhenGoingOn` | deepwiki/internal/service/executors.go:463-476 | With equal slugs, a run takes up a saved page if and only if it can read the saved wiki and a page is missing. |
| `WikiRuns.RunKeepsPage` | deepwiki/internal/service/executors.go:463-520 | A run that goes on keeps every saved page unchanged in the table and does not write it again, however it ends. |
| `WikiRuns.SavedPageStays` | deepwiki/internal/service/executors.go:459-541 | Over any number of crashes, failing saves and reruns with equal slugs, a page once saved stays saved, unchanged, and is written by none of them, until a run's read fails or it finds every page saved. |
| `WikiRuns.CheckpointedPageIsSaved` | deepwiki/internal/service/executors.go:478-520 | A page whose own checkpoint took effect is in the table when the run ends, however it ends: under its item's slug, with the item's title and place and the text that was written for it. |
| `WikiRuns.NothingWrittenIsLost` | deepwiki/internal/service/executors.go:478-520 | With no save undone, a run that wrote a page leaves all its pages in the table, wherever it was interrupted. |
| `WikiRuns.SavedWhenWritingFails` | deepwiki/internal/service/executors.go:498-504 | When writing a page fails and the save that follows takes effect, the table holds all pages before it, even where no earlier save did. |
| `WikiRuns.DiesBeforeCompletion` | deepwiki/internal/service/executors.go:463-541 | The input: a run from an empty table that dies between its last checkpoint and its completion leaves every page saved, and the next run takes none of them up. |
| `WikiRuns.FailingReadLosesPages` | deepwiki/internal/service/executors.go:463-476 | The other input: a run that cannot read the saved wiki starts again, and its first checkpoint overwrites the pages that were saved. |
| `Wiki.Percent` | deepwiki/internal/service/executors.go:514-519 | Percentages stay within 15 and 95. |
| `Wiki.PercentGrows` | deepwiki/internal/service/executors.go:514-519 | More pages never give a smaller percentage. |
| `Wiki.TakenUpExactlyWhenUnfinished` | deepwiki/internal/service/executors.go:463-476 | With the same slugs, a checkpoint is taken up if and only if a page is missing. |
| `Wiki.LastCheckpointIsNotTakenUp` | deepwiki/internal/service/executors.go:463-541 | A wiki saved with all its pages is never taken up. |
| `Rerank.ExchangeSort` | deepwiki/internal/retriever/rerank.go:122-130 | The in-place swap loops leave the same entries, by score descending and then by original place. |
| `Rerank.Rerank` | deepwiki/internal/retriever/rerank.go:85-139 | The scored head is put into the stable order with its new scores, the tail is untouched; a wrong number of scores is an error. |
| `Rerank.Search` | deepwiki/internal/retriever/rerank.go:46-69 | The list is truncated to `topK`, reranked only if there is something to cut, and in the old order when reranking fails. |
| `Rerank.RerankingPermutes` | deepwiki/internal/retriever/rerank.go:122-138 | Every scored candidate has exactly one place in the new order. |
| `Rerank.RerankingIsDetermined` | deepwiki/internal/retriever/rerank.go:122-138 | There is only one reranked list, so the swaps compute what any stable sort would. |
| `Fusion.Merge` | deepwiki/internal/retriever/hybrid.go:91-106 | The map holds each context once, with its first hit and the sum of its reciprocal ranks. |
| `Fusion.Fuse` | deepwiki/internal/retriever/hybrid.go:86-121 | The result is the first `topK` of the list with one hit per context, each with its weighted total, better scores first and equal ones by chunk identifier; the smoothing constant is 60 unless a positive one is given. |
| `Fusion.FirstMeans` | deepwiki/internal/retriever/hybrid.go:91-106 | The hit kept of a context, a child's being its parent's, is the first one in the first list that has it. |
| `Fusion.LangWeight` | deepwiki/internal/retriever/hybrid.go:124-131 | Weights are 0.75 or 1, hence positive. |
| `Fusion.DocumentLanguages` | deepwiki/internal/retriever/hybrid.go:124-131 | Exactly markdown, md, text, txt, rst, adoc, html and no language, in any case, weigh 0.75. |
| `Fusion.ScoreOfPlace` | deepwiki/internal/retriever/hybrid.go:91-106 | In a list that has a context once, at place i counted from zero, it scores 1/(k+i+1) for this list. |
| `Fusion.WeightIgnoresCase` | deepwiki/internal/retriever/hybrid.go:124-131 | A language's weight does not depend on the case it is written in. |
| `Fusion.TotalIgnoresListOrder` | deepwiki/internal/retriever/hybrid.go:86-121 | The order of the lists changes neither which contexts appear nor their totals. |
| `Fusion.ScoresIgnoreListOrder` | deepwiki/internal/retriever/hybrid.go:86-121 | Two orders of the lists give a context the same score if and only if the languages of its first hits weigh the same. |
| `Fusion.OrderDecidesTheWeight` | deepwiki/internal/retriever/hybrid.go:86-121 | The input where they do not: a context hit as a document in one list and as code in another. |
| `Fusion.BetterRanksEarlier` | deepwiki/internal/retriever/hybrid.go:86-121 | A context at least as good as another in every list, present in one, with a weight no lower, ranks strictly earlier with a strictly higher score. |
| `Fusion.FusionIsDetermined` | deepwiki/internal/retriever/hybrid.go:86-121 | With distinct chunk identifiers the sorted list, its length included, does not depend on map iteration order. |

## Left out

Stated weaker than a first reading of the source suggests:

- Delivery.NoTaskIsLost: excludes the faults it names, because each of them does lose a message or leave a running row unserved; those are what `Recovery.TwoRounds` is about.
- Recovery.TwoRounds: the row must not be written by others between the two rounds, because a worker still reporting keeps it from being stale.
- Recovery.OneRound: the row must not be written by others between the reset and the query, for the same reason.
- RateLimit.SlidingWindow.Script: exact only while no member has been drawn twice; with a repeated one the answer can only be too generous, which the contract says.
- Sse.RoundTrip: names and data are single lines, as the encoded payloads and fixed names of the printer are.
- ConfigManager.ConfigManager.Apply: validation, the secret check and the answers of etcd are parameters; settings that come from the environment and are no part of the JSON form (`config/manager.go:32-37`) are not modelled; neither is the decoder's matching of names in another case.
- ConfigShape.DecodedAt: a list is a leaf, and a text of the wrong type reads as whatever the field's reading of it says.
- Layers.RefreshEqualsRebuildExactly: digests are assumed to tell texts apart and the chunking options to be unchanged, as the diff itself assumes.
- StoreHistory.LastRefreshRebuilds: every execution chunks with the same options; rows cut with other options are not told apart by their hash either.
- SearchIndex.SearchCluster.DeleteByPaths: a delete of documents takes effect wholly or not at all.
- StoreHistory.CheckRestores: with interruptions of both kinds the count check can pass by accident, as `Failures.EqualCountsHideBoth` shows; `SearchIndex.CountCheck` is the exact condition.
- EventBus.ReplaySince: stored entries always decode, as everything `Publish` stores does; the source would skip one that does not.
- SearchIndex.SearchCluster.Count: documents can be counted and deleted by query as soon as they are indexed; the engine finds them only after its next refresh.
- Fanout.DeliveredUnlessOvertaken: speaks of events still in their stream, with the range within the cap, when it is next dispatched; trimmed events are lost as well, and events past the cap wait for a later dispatch.
- Pipeline.Run: the stages' own work is a yes-or-no answer; their effects on the stores are modelled in `Executors` and `Embed`.
- Wiki.WikiTable.Get: pages with equal sort order come in any order; the source breaks ties by slug in the database's collation, which is not modelled.
- Manager.Manager.Submit: the queue depth and the refresh lock's answer are arguments; releasing the lock is not modelled, and on cancelled paths the source leaves it to the lock's lifetime.

Not modelled at all:

- Graceful shutdown (`Stop`, `nackInflight`), where a delivery may be settled twice: it appears as crash and disconnect faults.
- The `cancels` and `inflight` maps and context signalling: that a running executor sees a cancellation is one of its possible ends.
- Interleavings inside one `Manager` method; they are all in `Protocol`. Between the methods for single calls (`Claim`, `Load`, `Report`, `Reset` and so on) any other worker, clock step or fault may come.
- Malformed message bodies, and the deletion of task rows, which no writer does.
- Queue length limits beyond their outcome: a rejected publish is an unsent one, a message lost to a full queue is a dropped one.
- Lengths of the retry delays: a waiting message may return to the jobs queue at any moment.
- A difference between the database's clock and the application's.
- The order of rows created at the same moment, and of entries that compare equal in `sort.Slice`, which is any order.
- Identifiers are numbers counted upwards instead of random ones; equal identifiers are therefore not modelled.
- Byte lengths and text decoding: characters stand for bytes in token estimates and in network chunks.
- Floating-point rounding in scores, which are real numbers.
- Sharing of nested maps between the merged tree and the patch in `mergePatch` and `setDotted`.
- The in-process limiter used while Redis fails, the loop over all subscribers, and the hand-over from replay to live subscription, which the source does not promise to be gap-free.
- Ranking inside the search engine, embedding and language-model calls, parsing of tables of contents and score arrays.
- The number of workers after a resize, health probes, metrics, authentication, other handlers and the web views.
