# CodeBridge core: a verified model

CodeBridge lets a manager drive coding agents on remote devices. This project models,
in Dafny 4.11, the parts of it whose correctness spans many calls or several parties,
and proves what they promise over every input and every run:

- **Run-event replication** (`Broker`, `Replay`, `Replication`, `Copies`). A client numbers the
  events of each run and publishes them over a link that loses, repeats and reorders.
  The manager's broker keeps a contiguous head and at most 512 events beyond a gap,
  compares heads after a reconnect and asks for what it lacks. The broker is a class
  with the source's drain loop; the whole protocol, with both ends, the network and
  manager restarts, is a step relation with one invariant.
- **Run lifecycle and scheduling** (`RunRecords`, `Scheduler`, `RunStore`, `Lifetimes`,
  `LifetimeWitness`). One run's record, journal and two ring buffers as classes; each
  run's goroutine as a program counter in a step relation with permits, cancellation
  and shutdown; restart recovery of the run store, and its journal over many process
  lifetimes that may end between any two writes.
- **The incremental JSONL index** (`SessionIndex`, shared by Codex and OMP) and the
  cursor paging that session reads, the runtime journal and replays have in common
  (`Paging`).
- **Patches** (`PatchPlan`, `Checkpoints`, `Rollbacks`, `Patching`, `Diff`). Planning, the
  content-addressed blob store, checkpoint retention, applying with faults at any
  point, rollback, and the previewed diff.
- **The V2 runtime store** (`RuntimeStore`). Transactions over rows and journal,
  per-stream numbers, the mirrored head, run transitions and controller epochs;
  `StatusTables` shows that it keeps V1's status machine.
- **Host IPC frames** (`Frames`) and the **manager's call registry** (`Registry` for
  all interleavings, `FailureReach` for the calls a failure reaches, `Connections` for its
  objects and the steps they stand for).

`Wire` holds the shared plain types. Sequence numbers, positions and counters are
unbounded integers; the 32-bit arithmetic of the frame header is written out. Clocks,
random ids, JSON validity and size, SHA-256, path resolution, SQL and I/O faults are
parameters, so every theorem holds for all their values; the hash is taken to be
injective and random checkpoint ids distinct where a theorem says so.

Check everything with `dafny verify dfyconfig.toml`.

## What the code does that its comments do not say

Each of these has its exact condition, for all inputs, and beside it a case in which
the promise fails.

- `Broker.OrderInsensitiveIff`: delivery order stops mattering exactly up to 512
  numbers besides 1; `OrderMattersBeyondBound` gives two orders for every larger set.
- `Copies.RoutesAgreeIff`, `MirroredIff`: an event is published with its full time and
  replayed from the store with whole milliseconds, so what the manager holds is the
  client's entry exactly when its time survives storage; otherwise it tells by which
  route the event came (`RouteShows`, `LastDependsOnRoute`).
- `Scheduler.CancelNoOpIff`: cancelling a finished run is a no-op exactly for runs this
  process started; a run loaded from the store has no stop function to call
  (`RunRecords.CancelLoadedPanics`).
- `RunStore.CrashBetweenRepeatsEvent`: recovery is two statements, and a crash between
  them makes the next opening journal a second interruption, for exactly the stale runs
  (`CrashRepeatsForOneRow`).
- `Lifetimes.TerminalIsLastIff`: a terminal event is journalled before its row is
  rewritten, so a process that dies in between lets an interruption follow a completion
  (`LifetimeWitness.InterruptedAfterCompletion`).
- `SessionIndex.AgreesIffPrefixFree`: the incremental index is exact exactly when no
  valid record is a proper prefix of another, as for objects and not for bare numbers
  (`NumberCutShort`).
- `PatchPlan.ReplaceRuleExactIff`: "exactly one occurrence" counts occurrences that do
  not overlap; the two agree exactly for texts without a border (`OverlapAccepted`).
- `Checkpoints.FailedRewriteKeepsIff`: blobs are pruned before the checkpoint file is
  rewritten, so a failed rewrite of a full list can lose the oldest checkpoint's blobs
  (`FailedRewriteLosesBlob`).
- `Patching.PatchService.Commit`: a failed patch restores the files written before the
  failing one, so the files are as before exactly when the failing write left its own
  file alone (`BrokenCreateStays`).
- `Rollbacks.OlderRollbackIff`: rolling back an older checkpoint first can spoil undoing
  the newer ones, exactly when it changes a file that is none of theirs
  (`OlderRollbackSpoils`).
- `FailureReach.StrandedIff`: a call that registers after its connection's failure went
  out gets none and waits for its context (`LateCallStranded`).
- `Diff.HeaderCountIff`: the hunk header's new count is right only for regions in a few
  places (`HeaderCountWrong`).
- `Wire.TimeRoundTripIff`, `RuntimeStore.FinishShownIff`: times are stored in whole
  milliseconds and 0 means "not set", so a run that finishes in the first millisecond
  after the epoch has no finish time (`FinishTimeLost`).
- `RuntimeStore.MirrorAfterStep`: `last_seq` is wrong after an insert that does not
  bring the stream's head, until the next append (`MirrorWrongAfterLateInsert`).
- `RuntimeStore.StreamPageContiguousIff`: a page asked for with a negative cursor
  fails the contiguity check (`NegativeCursorFails`).
- `Frames.FrameRoundTripIff`: limits of 2^31 bytes or more admit frames that are
  misread (`OversizedFrameMisread`).

## Model

| member | source | states |
|---|---|---|
| Broker.RunEventBroker.Accept | internal/manager/run_events.go:43-97 | Refused, each with its own error and without any change, exactly when account, device, run, kind or a positive number is missing; otherwise the addressed run takes the event in, no other run changes, and the reported head, acceptance and gap error match the new state. |
| Broker.Advance | internal/manager/run_events.go:76-88 | The drain loop moves the head through every consecutive pending event, empties exactly those, and ends with the event that carries the head's number. |
| Broker.ReceiveStep | internal/manager/run_events.go:69-95 | Accepted numbers become exactly the old ones plus this one, the head never moves back, reaches the event's number if it was next, and stays if refused. |
| Broker.ReceiveValid | internal/manager/run_events.go:69-95 | Every delivery keeps all pending numbers beyond head + 1, at most 512 of them, each under its own number. |
| Broker.OrderAndDuplicationInsensitive | internal/manager/run_events.go:69-95 | From any state, two delivery lists with the same numbers and one content for each number, in any order and with any repeats, give the same head, pending map and last event when what may wait fits in 512. |
| Broker.OrderInsensitiveIff | internal/manager/run_events.go:69-95 | For a fresh run order never matters if and only if at most 512 numbers other than 1 are delivered. |
| Broker.OrderMattersBeyondBound | internal/manager/run_events.go:90-93 | Beyond that bound two orders of the same events that end differently always exist. |
| Broker.NumbersDecide | internal/manager/run_events.go:69-95 | Whatever the copies say, two delivery lists with the same numbers leave the same head and the same numbers pending when they fit. |
| Broker.ReplayCatchesUp | internal/manager/run_events.go:76-95 | Events a+1..a+n arriving in order among any other deliveries bring the head to at least a+n, even with a full pending set. |
| Broker.RunEventBroker.Missing | internal/manager/run_events.go:100-136 | Succeeds exactly on a short head list with named, distinct runs and no negative number, and then returns one cursor per head ahead of the manager without changing anything; each error tells what is wrong with the list. |
| Broker.NeededCursorsExact | internal/manager/run_events.go:107-133 | One cursor for every head ahead of the manager, from the manager's head to the advertised one, none for any other, no run twice, all accepted by the client's checks. |
| Broker.RunEventBroker.Head | internal/manager/run_events.go:139-149 | The contiguous head of a run, 0 for an unknown one. |
| Broker.RunEventBroker.Last | internal/manager/run_events.go:152-163 | The event at the head, found exactly when the head is positive. |
| Replay.WireForm | cmd/client/runtime_events.go:19-35 | An entry that fits in a message goes out as it is; of one that does not only the payload is replaced, by a note of its length. |
| Replay.DecimalReads | cmd/client/runtime_events.go:29 | The length in that note reads back as the number it stands for, without leading zeros. |
| Replay.EnvelopeMeaning | cmd/client/runtime_events.go:19-35 | An entry that fits is sent exactly when it encodes; one that does not must encode, and so must its note. |
| Replay.SendPage | cmd/client/runtime_events.go:92-109 | From any page, even one with gaps, repeats or other runs' events, what is sent carries exactly the numbers next+1..next' in order, never beyond the cursor's end; from a page of the run asked for, it is that run's events. |
| Replay.ReplayOneRun | cmd/client/runtime_events.go:79-113 | Sends a gap-free ascending prefix of (AfterSeq, ThroughSeq], succeeds only if it sent all of it, and always ends; a source that continues every cursor is always served in full. |
| Replay.ReplayRunEvents | cmd/client/runtime_events.go:71-115 | Over all cursors the numbers sent are a prefix of those asked for, all of them exactly on success; a message whose entry fits is that journal entry, one whose entry does not carries all of it but the payload and says how long that is; it succeeds whenever the cursors are valid, the journal serves them and sending works. |
| Replay.BuildRunHeads | cmd/client/runtime_events.go:40-64 | The advertised heads name distinct runs with their last numbers and are always accepted by the manager. |
| Replay.Handshake | cmd/client/runtime_events.go:40-78 | The manager accepts every list the client builds, and the client's checks accept every request the manager answers with. |
| Replication.StepKeepsInv | internal/manager/run_events.go:64-95 | Append, publish, loss, duplication, reordering, heads, answers, replays from store or memory, deliveries and manager restarts all keep: accepted numbers are exactly 1..head and the pending keys, pending keys lie beyond a gap and number at most 512, the head never passes the journal, and everything held carries that journal entry or, of a client with a store, the entry with its time rounded: the entry itself when it fits. |
| Replication.AlwaysInv | internal/agentops/run_events.go:240-267 | The invariant holds in every state of every execution. |
| Replication.JournalIsAppends | internal/agentops/run_events.go:240-267 | In every execution a run's journal is exactly what its client appended, in order, numbered from 1. |
| Replication.LastIsEntry | internal/manager/run_events.go:69-95 | In every execution the last event the manager holds is the client's entry of that number, all of it when it fits in a message and all but the payload otherwise, with the time rounded at most. |
| Replication.ReconnectConverges | internal/manager/run_events.go:76-135 | However live events and other runs interleave, once the numbers after a known head have been delivered in order the head has reached the last of them. |
| Replication.ReplayCompletesRun | cmd/client/runtime_events.go:40-115 | For a cursor the manager answered a head list with, delivering its range brings the head to the number the client advertised. |
| Copies.RoutesAgreeIff | internal/agentops/run_events.go:145-154 | The live and the stored copy of an event have the same wire form if and only if its time is a whole number of milliseconds other than the epoch, or not set. |
| Copies.AlwaysHeldExactly | internal/agentops/run_events.go:240-267 | In every execution all the manager holds of a client without a store, or one all of whose times survive, is that client's entry with its full time, payload included unless it is oversized. |
| Copies.MirroredIff | internal/agentops/run_events.go:145-203 | A client with a store is mirrored exactly in every execution that ends with its journal if and only if every entry's time survives storage. |
| Copies.RouteOnlyChangesCopies | internal/manager/run_events.go:69-95 | Replacing any deliveries by other copies of the same numbers changes neither the head nor the numbers pending. |
| Copies.LastDependsOnRoute | internal/manager/run_events.go:69-95 | For every first event whose time does not survive, the order in which its two copies arrive decides the last event. |
| Copies.RouteShows | internal/agentops/run_events.go:240-267 | Two executions with the same journal and head end with different last events, one live and one replayed. |
| Paging.PageIsSelection | internal/agentops/run_events.go:170-203 | A page is the first `limit` of the entries with a key above the cursor. |
| Paging.FollowEnumerates | internal/runtime/events.go:87-98 | Following the next cursor with any limits while the log grows returns every entry between the first and last cursor exactly once, in order. |
| Paging.FollowEnds | internal/runtime/events.go:87-98 | Once the log rests, enough requests return all of it and the next page is empty. |
| RunRecords.PathShape | internal/agentops/run_manager.go:42-46 | The only status histories are queued, queued-running, queued-cancelled, and queued-running followed by one terminal status. |
| RunRecords.MovedOK | internal/agentops/run_manager.go:577-595 | A legal transition keeps the journal contiguous and spelling the status history, with times and done channel to match. |
| RunRecords.FinishedOK | internal/agentops/run_manager.go:551-575 | Finishing keeps the record's invariant: journal, status history, times and the done channel, closed once and never again. |
| RunRecords.FinishedMeaning | internal/agentops/run_manager.go:551-575 | A running run ends with the status, output and error it was finished with, a queued one cancelled with them, both at that time and with that event last; a run that is over stays as it is. |
| RunRecords.MovedFields | internal/agentops/run_manager.go:577-595 | A legal move sets the status and exactly one of the two times, journals `run.started` or the status' event, closes the done channel when it ends the run, and touches nothing else. |
| RunRecords.RecordedOK | internal/agentops/run_manager.go:599-613 | A recorded line adds itself and one `harness.raw` event that carries it and names the client; a terminal run takes no more lines. |
| RunRecords.JournalAccounting | internal/agentops/run_manager.go:599-613 | eventSeq is eventTotal + 1 while queued, + 2 while running or when cancelled from the queue, + 3 when finished after running. |
| RunRecords.CancelLoadedPanics | internal/agentops/run_manager.go:665-692 | Every run loaded from the store, whatever its row says, makes Cancel call a nil function. |
| RunRecords.RingWrite | internal/agentops/run_manager.go:605-612 | Writing at the next slot keeps the ring equal to the newest entries of the whole history, through every wrap-around. |
| RunRecords.Ring.Newest | internal/agentops/run_manager.go:393-409 | Reading a ring gives the last min(n, kept) entries ever written, in order. |
| RunRecords.RunState.TransitionLocked | internal/agentops/run_manager.go:577-595 | Moves the record exactly on a legal transition and reports whether it did. |
| RunRecords.RunState.Finish | internal/agentops/run_manager.go:551-575 | From running the run ends with the status, output, error and time given, from queued cancelled, from a terminal status nothing changes; rings and counters follow. |
| RunRecords.RunState.RecordEvent | internal/agentops/run_manager.go:599-613 | The line enters both rings and the counters, and nothing changes once the run is over. |
| RunRecords.RunState.Events | internal/agentops/run_manager.go:393-409 | Returns the last min(limit, capacity) lines ever recorded. |
| RunRecords.RunState.EventsAfter | internal/agentops/run_events.go:205-238 | Returns what filtering the last `capacity` journal entries by number and taking `limit` returns. |
| Scheduler.StepKeepsInv | internal/agentops/run_manager.go:476-595 | Every step of start, wait, run, finish, cancel and close keeps permits equal to their holders, at most maxConcurrent, and each run's record as its goroutine's position says. |
| Scheduler.AlwaysSafe | internal/agentops/run_manager.go:476-504 | In every state of every execution running runs ≤ permits held ≤ maxConcurrent. |
| Scheduler.DoneExactlyWhenTerminal | internal/agentops/run_manager.go:551-595 | A run's done channel has been closed once if it is terminal and never otherwise. |
| Scheduler.TerminalIsAbsorbing | internal/agentops/run_manager.go:42-64 | A terminal run keeps status, journal, lines and outcome through the rest of every execution. |
| Scheduler.NoIllegalTransition | internal/agentops/run_manager.go:551-575 | Whatever the interleaving, the goroutine never asks for an illegal transition. |
| Scheduler.StatusFollowsTable | internal/agentops/run_manager.go:66-73 | Along every step a status stays or moves along the table. |
| Scheduler.CancelNoOpIff | internal/agentops/run_manager.go:413-424 | In every execution, cancelling a finished run changes nothing if and only if the run was not loaded when the process started; otherwise the call panics. |
| Scheduler.OutcomeLegal | internal/agentops/run_manager.go:519-549 | Every return is one a running run may take and means what it should: timed out if its time ran out, else cancelled if its context was, else failed with the error's text, else as the harness reported, always with the output. |
| Scheduler.StatusWordMeaning | internal/agentops/run_manager.go:534-545 | Exactly which status words mean what, whatever the case of their letters and the space around them; an unknown one is a failure that quotes it. |
| Scheduler.ReturnDecides | internal/agentops/run_manager.go:498-549 | In every execution a run that came back from its executor ends as that return decides, with its output and error text, whatever happens in between, and stays so. |
| Scheduler.EndIsKept | internal/agentops/run_manager.go:551-575 | Whatever ends a run fixes its status, output, error, finish time and last event for the rest of the execution. |
| Scheduler.CancelledNeverRuns | internal/agentops/run_manager.go:413-424 | A run cancelled while it waits for its turn never reaches the executor and ends cancelled. |
| Scheduler.CancelWins | internal/agentops/run_manager.go:517-526 | A run cancelled before it returns ends cancelled whatever the executor reports, unless its time had run out. |
| Scheduler.StepAdds | internal/agentops/run_manager.go:290-360 | A start makes a queued record with that id and client and one event, a begin notes the time and journals it, a line adds itself unless the run is over. |
| Scheduler.HistoryIsKept | internal/agentops/run_manager.go:599-613 | In every execution no run loses or changes a line, an event, its start time or its identity. |
| Scheduler.CloseIsFinal | internal/agentops/run_manager.go:455-471 | Once the manager is closed no run is accepted. |
| Scheduler.ShutdownReachesAll | internal/agentops/run_manager.go:470-494 | Once the root context is cancelled every run's is, and none goes on to its executor. |
| Scheduler.Quiesces | internal/agentops/run_manager.go:476-504 | From every reachable state the goroutines can finish: all runs end terminal and every permit has been returned. |
| RunStore.RunStore.Open | internal/agentops/run_store.go:49-63 | Opening leaves the rows and journals that `RecoveryEffect` describes, run by run. |
| RunStore.RecoveryEffect | internal/agentops/run_events.go:105-143 | Each queued or running row becomes interrupted, is loaded as interrupted and gets one `run.interrupted` of its own at the next number; all other rows and all existing events are untouched and journals stay contiguous. |
| RunStore.WordsTellStatuses | internal/agentops/run_manager.go:665-692 | A terminal status survives being stored as its word, any other comes back as interrupted, and the journal's kinds spell the same words. |
| RunStore.RestartKeepsRun | internal/agentops/run_manager.go:640-692 | A finished run whose row was written is listed after a restart with the status, output, error, client and journal head it had and its times cut to milliseconds; an unfinished one as interrupted. |
| RunStore.ReopenIsIdentity | internal/agentops/run_store.go:49-63 | Opening again changes no row and no journal. |
| RunStore.CrashBetweenRepeatsEvent | internal/agentops/run_store.go:49-63 | If the process dies between the two recovery statements, exactly the stale runs get a second interruption. |
| RunStore.CrashRepeatsForOneRow | internal/agentops/run_store.go:49-63 | One running row with an empty journal ends with two interruptions that way. |
| RunStore.RunStore.LastSeq | internal/agentops/run_events.go:156-168 | The greatest number in a run's stored journal, 0 when it has none. |
| RunStore.RunStore.LoadHistory | internal/agentops/run_manager.go:665-692 | After opening, every loaded run is terminal, has the client, times and outcome of its row, and continues its stored numbering. |
| RunStore.LoadedHistoryIsInitial | internal/agentops/run_manager.go:665-692 | A loaded history is a legal starting state of the scheduler. |
| RunStore.DurableJournalServes | internal/agentops/run_events.go:170-203 | A page of a contiguous stored journal continues the cursor it was asked with. |
| RunStore.StoredPageExact | internal/agentops/run_events.go:170-203 | A page of a contiguous journal holds exactly the entries that follow the cursor, as many as asked for or 200. |
| RunStore.StoreServes | cmd/client/runtime_events.go:79-83 | Batched pages of the durable journal are true, hold one run only, and serve every replay cursor up to the head, which is all a replay needs to succeed. |
| RunStore.RunStore.AppendEvent | internal/agentops/run_events.go:145-154 | One entry of one journal is put in or replaced with its time in milliseconds, no other changes, and it reads back as the event with its time rounded. |
| Lifetimes.RunStep | internal/agentops/run_manager.go:577-595 | Boot, recovery, starts, moves, lines, row rewrites and deaths at any point keep each journal contiguous and in step with the living run's counter and status. |
| Lifetimes.StoresOwnEvent | internal/agentops/run_events.go:240-267 | What a start, a move or a line stores is the very event the run's record journals in that step, so stored and remembered journals agree. |
| Lifetimes.TerminalIsLastIff | internal/agentops/run_manager.go:593-594 | Over any number of process lifetimes, nothing follows a run's terminal event if and only if no process died between that event and the rewrite of its row and was followed by one that recovered the run. |
| Lifetimes.ServingRowsHonest | internal/agentops/run_store.go:49-63 | While a process serves, a row that says queued or running belongs to a run of that process. |
| LifetimeWitness.InterruptedAfterCompletion | internal/agentops/run_manager.go:593-594 | An execution that journals queued, started, completed and then interrupted for one run. |
| SessionIndex.SessionIndexer.IndexSnapshot | internal/agentops/codex_session.go:471-529 | Resumes at the cached offset, or from nothing when there is none or the file has become shorter, and leaves the index exactly as one pass over the new bytes prescribes; a bad line keeps what came before it and the error names it. |
| SessionIndex.SessionIndexer.Read | internal/agentops/codex_session.go:255-324 | The page holds the trimmed records numbered above the cursor, as many as asked for up to 2000, or 200, with the next cursor and an end flag that is set exactly when nothing is left. |
| SessionIndex.ReadLine | internal/agentops/codex_session.go:494-520 | Each line is taken, left for later or refused exactly as the scan judges it. |
| SessionIndex.JudgeMeaning | internal/agentops/codex_session.go:496-520 | Exactly when a line fails the scan, is skipped, is taken as a record or waits for more, for finished and unfinished lines. |
| SessionIndex.TrimMeaning | internal/agentops/codex_session.go:500 | A record is its line without the white space at both ends, and nothing else is taken off. |
| SessionIndex.AdaptersAgreeIff | internal/agentops/omp_session.go:24-27 | Codex, with its bound of 8 MiB, and OMP, with 4 MiB, judge a line alike unless it exceeds 4 MiB and Codex does not refuse it. |
| SessionIndex.Search | internal/agentops/codex_session.go:280-282 | The binary search finds the first record numbered above the cursor. |
| SessionIndex.ScanFindsLines | internal/agentops/codex_session.go:494-520 | One pass over a finished file finds the trimmed records of its lines, in order. |
| SessionIndex.ResumeScan | internal/agentops/codex_session.go:478-529 | A scan resumed at any offset the index may rest at finds together with the earlier one what a single scan finds, wherever the file was cut. |
| SessionIndex.IncrementalAgrees | internal/agentops/omp_session.go:402-460 | For every record bound and every way of cutting a well-formed file into growth steps the analysed index holds the records of one scan of the file as it stands. |
| SessionIndex.CallsAgree | internal/agentops/codex_session.go:471-529 | Successive indexSnapshot calls on a growing file each succeed and return the records of one scan of the file as it stands, however it was cut between them. |
| SessionIndex.AgreesIffPrefixFree | internal/agentops/codex_session.go:500-505 | For every record bound that agreement holds for all files and cuts if and only if no valid record within the bound is a proper prefix of another. |
| SessionIndex.NumberCutShort | internal/agentops/codex_session.go:500-505 | A file holding the number 12, asked for when only its 1 was on disk, is indexed wrongly. |
| SessionIndex.SeqKeepsMeaning | internal/agentops/codex_session.go:511-515 | A record's number and content never change as the file grows. |
| SessionIndex.FollowReadsEachRecordOnce | internal/agentops/codex_session.go:280-322 | Following NextCursor while the file grows reads every record between the cursors exactly once. |
| SessionIndex.ReadsFollow | internal/agentops/codex_session.go:255-324 | Successive Read calls on a growing file, each with the cursor of the last page, return every record between the first and last cursor exactly once, in order. |
| PatchPlan.PlanEdits | internal/agentops/write.go:106-198 | Succeeds exactly on the plannable patches and then describes each edit's change; otherwise reports the first edit that does not fit and why. |
| PatchPlan.PlanEditOK | internal/agentops/write.go:106-197 | The ordered checks accept exactly the edits whose path, size, text and current file content fit, whatever came before. |
| PatchPlan.RefusalsTrue | internal/agentops/write.go:106-198 | Every refusal tells the truth: a text said not to be found occurs nowhere, one said to be ambiguous occurs twice apart, a missing file is missing, and so on for each error. |
| PatchPlan.ReplaceRuleExactIff | internal/agentops/write.go:184-190 | Counting non-overlapping matches means "exactly one occurrence" in every file if and only if no proper suffix of the text is a prefix of it. |
| PatchPlan.OverlapAccepted | internal/agentops/write.go:28-32 | "aa" occurs twice in "aaa" and the replace is accepted. |
| Checkpoints.RestoreLocal | internal/agentops/write.go:316-345 | A rollback succeeds exactly when all its blobs are there and touches no file outside its checkpoint. |
| Checkpoints.RestoreExact | internal/agentops/write.go:316-345 | From any state that differs only at the checkpoint's files, rolling back gives the snapshot back exactly. |
| Checkpoints.CommitKeepsStore | internal/agentops/write.go:505-528 | Through every patch, failing anywhere, the list is the last ≤ 20 and blobs hold what they were hashed from; after a stored checkpoint every retained one has all its blobs. |
| Checkpoints.FailedRewriteKeepsIff | internal/agentops/write.go:514-528 | A failed rewrite after pruning keeps all blobs of the old list if and only if it was not full or the dropped checkpoint shares all its blobs. |
| Checkpoints.FailedRewriteLosesBlob | internal/agentops/write.go:514-528 | A full list whose oldest checkpoint alone holds a blob loses it that way. |
| Checkpoints.StepKeepsWorld | internal/agentops/write.go:232-260 | Every patch keeps the chain from each retained checkpoint's snapshot to the present. |
| Checkpoints.UndoRestores | internal/agentops/write.go:287-348 | Rolling back the newest k checkpoints newest first restores the files before the oldest of those patches. |
| Checkpoints.AlwaysReversible | internal/agentops/write.go:287-348 | After any run of patches with any failures the newest 19, or all of a shorter list, can be rolled back. |
| Checkpoints.PatchesUndone | internal/agentops/write.go:287-387 | Up to 20 patches from any store are undone completely: every file has its original existence and content. |
| Rollbacks.UndoFromIff | internal/agentops/write.go:287-348 | However the files have changed meanwhile, rolling back the newest k checkpoints restores the files before the oldest of those patches if and only if no file outside those checkpoints has changed. |
| Rollbacks.OlderRollbackIff | internal/agentops/write.go:287-348 | Rolling back an older checkpoint first leaves that possible if and only if each of its files is one of the newest k checkpoints' or already holds what it held before that patch. |
| Rollbacks.OlderRollbackSpoils | internal/agentops/write.go:287-348 | Two creates of different files, the older rolled back first: undoing the newer one then leaves neither file, where before it left the older. |
| Rollbacks.NewerRollbackHarmless | internal/agentops/write.go:287-348 | Rolling back one of the newest k out of order never spoils it. |
| Rollbacks.MixedReversible | internal/agentops/write.go:200-348 | After any run of patches, failing anywhere, mixed with rollbacks of the newest checkpoint, the newest 19 checkpoints, or all of a shorter list, can be undone. |
| Patching.PatchService.StoreBlob | internal/agentops/write.go:428-447 | The blob is stored under its hash unless present, and a failure stores nothing. |
| Patching.PatchService.PruneBlobs | internal/agentops/write.go:469-488 | Exactly the blobs some retained checkpoint references remain. |
| Patching.PatchService.AppendCheckpoint | internal/agentops/write.go:505-528 | The list becomes the newest 20 unless the rewrite fails; the blobs are pruned for the new list either way. |
| Patching.PatchService.CreateCheckpoint | internal/agentops/write.go:358-387 | The checkpoint records every planned file as it stands when the lock is held, or fails leaving files and list alone. |
| Patching.PatchService.RestorePartial | internal/agentops/write.go:389-408 | Exactly the files already written are put back to their snapshot. |
| Patching.PlanCarriesOut | internal/agentops/write.go:106-260 | Writing the plan of a patch does to each edit's file what the edit says, and to no other file anything. |
| Patching.PatchService.Commit | internal/agentops/write.go:218-268 | All changes land exactly when no create finds its file, no delete misses its, and every write works; at the first that does not all earlier files are restored and only the failing file may differ, holding what that write left, so the files equal the pre-state if and only if the failing write was blocked or left its file as it was. |
| Patching.BrokenCreateStays | internal/agentops/write.go:237-258 | A create that breaks off after opening its file fails the patch and leaves an empty file behind. |
| Patching.PatchService.Rollback | internal/agentops/write.go:287-348 | Finds the first checkpoint with that id and workspace and writes it back; the report names, in the checkpoint's order, every file that had been absent as removed and every other one as restored; blobs and list stay. |
| Patching.PatchService.ApplyPatch | internal/agentops/write.go:83-268 | After success each edit's own file holds what the edit asks for, the new text of a create, nothing after a delete, the old content with the first occurrence replaced otherwise, and no other file changed; nothing is written unless the patch is allowed, plannable, confirmed and no preview, every refusal has its own error, and without faults a plannable patch always succeeds. |
| Diff.LocateChangedLines | internal/agentops/write.go:571-591 | Common prefix and suffix never overlap and are as long as possible, the prefix first, so the region in between is all that differs. |
| Diff.TightIsSmallest | internal/agentops/write.go:571-591 | No region that separates the two lists removes or adds fewer lines. |
| Diff.TightUnique | internal/agentops/write.go:571-591 | There is only one region with the longest prefix and the longest suffix beside it. |
| Diff.ReplaceHunk | internal/agentops/write.go:549-564 | Context, removed and context are a window of the old lines, and context, added and context in its place give exactly the new lines, with three lines of context wherever the file has them; the header count comes out right exactly where the changed region allows it. |
| Diff.PrintedDiffIsFaithful | internal/agentops/write.go:610-624 | A reader of the printed lines gets the old window by skipping the plus lines and the new file by skipping the minus lines. |
| Diff.HeaderCountIff | internal/agentops/write.go:563 | For every changed region the header's new count is right if and only if the whole file was replaced, or six lines more precede the region than follow it, the lines that follow counted up to three. |
| Diff.HeaderCountWrong | internal/agentops/write.go:563 | Changing the fifth line of five announces two new lines and shows four. |
| Diff.SplitLinesMeaning | internal/agentops/write.go:626-632 | The lines of a content hold no newline, and joined by newlines they are the content without its final one. |
| Diff.SplitJoin | internal/agentops/write.go:626-632 | Lines without newlines are what their joined text splits into. |
| Diff.SplitLinesEqualIff | internal/agentops/write.go:626-632 | Two contents show the same lines if and only if they are equal or differ only in the final newline. |
| RuntimeStore.Store.Update | internal/runtime/store.go:136-154 | Either every write and the commit go through and the tables are their result, or nothing changed. |
| RuntimeStore.AppendKeepsJournal | internal/runtime/events.go:22-62 | An append takes the next number of its stream and a higher position, so streams stay 1..head; it stores what it was given, the present time and the source "runtime" where none is. |
| RuntimeStore.PutMeaning | internal/runtime/runs_ops.go:16-50 | Writing a row takes all its columns except that an existing row keeps its creation time and, for a run, its stream head. |
| RuntimeStore.AlwaysDB | internal/runtime/store.go:136-154 | Over every history of committed and aborted transactions the journal is contiguous per stream, increasing in position, and only grows. |
| RuntimeStore.MirrorAfterStep | internal/runtime/events.go:54-60 | Exactly when each write leaves `last_seq` equal to the stream head. |
| RuntimeStore.MirrorWrongAfterLateInsert | internal/runtime/runs_ops.go:16-50 | A row inserted with last_seq 0 behind the first event of its stream is wrong. |
| RuntimeStore.AlwaysMirrored | internal/runtime/runs_ops.go:16-50 | If every run is inserted with the head its stream has, `last_seq` is exact for all runs for ever, through upserts too. |
| RuntimeStore.TerminalHasNoSuccessor | internal/runtime/transitions.go:27-40 | Legal moves are exactly queued to running or cancelled and running to any terminal status. |
| StatusTables.SameTable | internal/runtime/transitions.go:23-30 | V2's status machine is V1's: a move is legal in one exactly when it is in the other. |
| StatusTables.SameStatuses | internal/agentops/run_manager.go:20-37 | V2 knows exactly the status words V1 stores and takes the same of them for terminal. |
| StatusTables.LegalMoves | internal/agentops/run_manager.go:42-45 | V1's legal moves are exactly queued to running or cancelled and running to any terminal status. |
| RuntimeStore.CreatedIsManaged | internal/runtime/runs_ops.go:16-50 | A run inserted queued together with its event starts with row and journal agreeing. |
| RuntimeStore.TransitionKeepsManaged | internal/runtime/transitions.go:46-108 | A transition keeps status, start time, finish time and mirrored head equal to what the run's lifecycle events say. |
| RuntimeStore.AlwaysManaged | internal/runtime/transitions.go:46-108 | A run created with its event and changed only by transitions has, after any history, the status its latest lifecycle event names, a legal walk behind it, the time of its `run.running` event as start time, and the latest event's time as finish time once over. |
| RuntimeStore.FinishTimeIff | internal/runtime/transitions.go:77-83 | A run created with its event and changed only by transitions shows a finish time if and only if it is terminal and the time of its last lifecycle event reads back as set. |
| RuntimeStore.StartTimeIff | internal/runtime/transitions.go:76-81 | Such a run shows a start time if and only if it has a `run.running` event whose time reads back as set. |
| RuntimeStore.FinishShownIff | internal/runtime/entities.go:418-431 | A finishing transition leaves a finish time if and only if its time is not in the first millisecond after the epoch or of the year 1. |
| RuntimeStore.FinishTimeLost | internal/runtime/entities.go:418-431 | A run completed half a millisecond after the epoch is over and has no finish time. |
| Wire.TimeRoundTripIff | internal/runtime/entities.go:418-431 | A timestamp survives storage if and only if it is not set or a whole number of milliseconds other than 0, and what is stored is its time rounded down. |
| RuntimeStore.TransitionMeaning | internal/runtime/transitions.go:60-103 | Column by column: the first move to running sets the start time and no later one changes it, an ending sets the finish time, a category or reference is taken if given and kept if not, and one `run.<status>` event is journalled. |
| RuntimeStore.Store.TransitionRun | internal/runtime/transitions.go:46-108 | Refused or failed changes leave no trace and report why; otherwise status, times, category and reference are what the transition and the old row make them, the event goes with them, nothing else changes, and the run is returned as stored. |
| RuntimeStore.Store.SetComputerController | internal/runtime/transitions.go:125-170 | Refused or failed changes leave no trace and report why; otherwise controller, time and epoch, raised by one, are written with their event and nothing else changes. |
| RuntimeStore.ChangeKeepsEpoch | internal/runtime/transitions.go:125-170 | A controller change raises the epoch by one and journals exactly one change. |
| RuntimeStore.ChangeMeaning | internal/runtime/transitions.go:137-168 | The new controller, the time of the change and the raised epoch are written, the creation time stays, one `computer.controller.changed` is journalled, and no run is touched. |
| RuntimeStore.AlwaysEpoch | internal/runtime/transitions.go:125-170 | Over any history in which only controller changes move it, the epoch is its starting value plus the changes journalled since. |
| RuntimeStore.ValidateContiguous | internal/runtime/entities.go:406-415 | Accepts exactly the lists that continue right after the cursor and otherwise reports the first gap. |
| RuntimeStore.StreamPageContiguousIff | internal/runtime/events.go:102-113 | Every page of a stream passes that check if and only if its cursor is not negative or the stream is empty. |
| RuntimeStore.NegativeCursorFails | internal/runtime/events.go:102-113 | One event asked for from cursor -1 fails the check. |
| RuntimeStore.JournalFollow | internal/runtime/events.go:87-98 | Following next_pos with any limits and any number of commits between requests returns every event between the cursors exactly once in order. |
| RuntimeStore.JournalFollowEnds | internal/runtime/events.go:133-141 | Once writes stop, it returns all the rest and ends with an empty page. |
| RuntimeStore.Store.RuntimeEvents | internal/daemon/hostipcapi.go:228-253 | As many events after the cursor as asked for up to 500, or 200, and as next_pos the greatest position seen, which for the whole journal is the cursor to follow. |
| RuntimeStore.StreamOfRun | internal/runtime/entities.go:216-230 | A stream belongs to a run exactly when it is that run's stream name. |
| Frames.HeaderRoundTripIff | internal/hostipc/frame.go:121-126 | Kind and length survive the header if and only if the length is below 2^31. |
| Frames.FrameLayout | internal/hostipc/frame.go:160-210 | On the wire: the length, most significant byte first and 2^31 more for an attachment, then the payload, or the length of the meta block, the block and the data. |
| Frames.Bound | internal/hostipc/frame.go:56-65 | A limit that is not positive selects 1 MiB for JSON and 16 MiB for attachments. |
| Frames.FrameRoundTripIff | internal/hostipc/frame.go:160-184 | An accepted frame with anything behind it reads back as itself leaving exactly that, if and only if its payload is shorter than 2^31. |
| Frames.OversizedFrameMisread | internal/hostipc/frame.go:173-176 | Under limits of 2^31 a payload of that length is written and does not read back. |
| Frames.ReencodeConsumed | internal/hostipc/frame.go:109-156 | Encoding any frame that was read reproduces the bytes consumed, under any limits. |
| Frames.StreamRoundTrip | internal/hostipc/frame.go:109-210 | Any sequence of JSON and attachment frames followed by any bytes reads back as those frames and goes on with those bytes. |
| Frames.CleanEOFIff | internal/hostipc/frame.go:110-120 | Clean EOF is reported if and only if the stream is at its end. |
| Frames.BrokenStream | internal/hostipc/frame.go:138-144 | A stream cut anywhere delivers its whole frames and ends with clean EOF if and only if the cut fell between frames. |
| Frames.Reader.ReadFrame | internal/hostipc/frame.go:109-156 | Result and remaining bytes are exactly `Decode`'s. |
| Frames.Writer.WriteFrame | internal/hostipc/frame.go:160-184 | Out-of-bounds payloads write nothing; otherwise the encoding is written, or the prefix of it the sink took. |
| Frames.Writer.WriteAttachmentFrame | internal/hostipc/frame.go:197-210 | Writes the encoded attachment only if the meta block states the data's size. |
| Registry.StepKeepsInv | internal/manager/registry.go:65-267 | Every step of callers, deliveries, failures, Put, Remove and Disconnect keeps the registry's invariant. |
| Registry.AlwaysInv | internal/manager/registry.go:57-63 | The invariant holds in every state of every execution. |
| Registry.RequestIDsNeverReused | internal/manager/registry.go:187 | No two calls of a run ever have the same request id. |
| Registry.InflightBounded | internal/manager/registry.go:180-200 | Each connection has at most maxInflight pending calls, 8 by default. |
| Registry.AnswersAreOwn | internal/manager/registry.go:170-221 | A successful result is a response delivered under the call's own id on its own connection, which belongs to the device and account the caller named. |
| Registry.ResponsesAreOwn | internal/manager/registry.go:233-267 | Any response a call takes is its own or a failure of its connection, "replaced" only if a newer connection of that device came, and the call returns its data or its error text. |
| Registry.NewestIsListed | internal/manager/registry.go:65-94 | A device is listed with its newest connection unless that very connection was removed. |
| Registry.QuietIsEmpty | internal/manager/registry.go:180-200 | When all calls have returned nothing is pending and every permit is back. |
| Registry.CallIsSent | internal/manager/registry.go:170-205 | A call for a listed device of the caller's account that finds a permit free gets out: it takes one permit and the next number, waits under it, and changes nothing else. |
| Registry.CallIsAnswered | internal/manager/registry.go:192-243 | A waiting call returns the response delivered under its number and leaves no entry and no permit behind. |
| Registry.WrittenWaits | internal/manager/registry.go:180-205 | In every state the invariant allows, a written call holds a permit and sits under its number. |
| Registry.ForeignLooksUnknown | internal/manager/registry.go:174-178 | A device of another account and a device that is not there give a caller the same answer. |
| FailureReach.StrandedIff | internal/manager/registry.go:245-267 | In every execution a written call without a delivered response has nothing coming to it if and only if no FailPending of its connection was made while it was registered. |
| FailureReach.ToldIsAnswered | internal/manager/registry.go:253-267 | A call that was registered when its connection was failed is over, has a response, or has one coming. |
| FailureReach.UntoldGetsNoFailure | internal/manager/registry.go:192-212 | A call gets no failure sent out before it registered; what it takes was delivered under its id. |
| FailureReach.LateCallStranded | internal/manager/registry.go:170-212 | An execution in which a device reconnects between a call's lookup and its registration, and the call is left with nothing to answer it. |
| Connections.AgentConn.Deliver | internal/manager/registry.go:233-243 | Only the call registered under the id gets the response, and only if its channel is empty. |
| Connections.AgentConn.FailPending | internal/manager/registry.go:245-267 | Every waiting call without a response gets the failure; responses already there stay. |
| Connections.DeviceTable.Put | internal/manager/registry.go:65-83 | The device maps to the new connection and the replaced one's waiters are failed. |
| Connections.DeviceTable.Remove | internal/manager/registry.go:85-94 | The device leaves the table only if it maps to that connection. |
| Connections.DeviceTable.Disconnect | internal/manager/registry.go:140-152 | The listed connection's waiters are failed and it stays listed. |
| Connections.DeliverIsSteps | internal/manager/registry.go:233-243 | Deliver is a delivery step of the registry and the send it leads to; the inboxes of its connection go on showing the registry's state and all others keep theirs. |
| Connections.FailIsSteps | internal/manager/registry.go:245-267 | FailPending is a failure step of the registry and one send for every call waiting then, on the same terms. |
| Connections.PutIsSteps | internal/manager/registry.go:65-83 | Put is a registration step followed by the failure of the connection it replaces; table and inboxes go on showing the registry's state, and the calls of all other connections keep theirs. |
| Connections.RemoveIsSteps | internal/manager/registry.go:85-94 | Remove is a removal step followed by the failure of the connection removed, on the same terms. |
| Connections.DisconnectIsSteps | internal/manager/registry.go:140-152 | Disconnect is the step of that name followed by the failure it owes, on the same terms. |
| Connections.LateRemove | internal/manager/registry.go:65-94 | When a replaced connection is removed late, its successor stays listed, the successor's call goes on waiting, and the replaced calls have had their answer. |

## Left out

- gRPC, HTTP, MCP, TLS, OAuth, enrolment, permissions, doctor, UI, audit stores, LSP and symbol search: plumbing or short lookups.
- The SQL engine and its schema: tables are maps and sequences, and no constraint that lives only in the schema is claimed; a new position is taken to exceed all earlier ones.
- Journal appends and run-row writes of the V1 store that fail: the source only logs them, and the model takes them to succeed.
- Subscribers and `forwardRunEvents` polling: documented as best effort, with no exactness to prove.
- JSON encoding, record normalisation and harness output parsing: validity and encoded size are parameters.
- `bytes.TrimSpace` on Unicode white space: only the ASCII spaces are trimmed in the model, which are the ones JSON allows around a record; a file cut inside a multi-byte space is not modelled.
- Directories, symbolic links, file modes and `ensureParentDir`: files are a map from workspace and path to content, and the preview's directory creation is not modelled.
- Patching.PatchService.PruneBlobs: the directory listing and each removal are taken to succeed; the source ignores their failures, which only leave more blobs behind.
- RunStore.RunStore.LoadHistory: the event count, last line and elapsed time of a loaded run are only copied by the source and are not in the record.
- RuntimeStore.Store.TransitionRun: the returned run carries its times as stored; the source returns them before rounding.
- The format check on blob names: all names in the model come from the hash.
- The zone in which a replayed time is written out: times are instants.
- I/O errors during rollback and partial restore other than a missing blob.
- The order of `RunManager.List`: any order is allowed.
- Wrap-around of 64-bit counters.
- Output truncation and execution timeouts as durations: an expired context is a step that may come at any time.
- Session, project and correlation ids of V2 events, which are only copied, and the quoting of an unknown status word in its error text.
- Progress hooks (`DeliverEvent`) and `Touch`.
- The diff sections of created and deleted files: whole files without a search for the changed region.
- `Scheduler` and `Registry` are step relations on values because their subject is the interleaving of goroutines; update in place is modelled by `RunRecords.RunState` and `Connections`.
- Patching.PatchService.ApplyPatch: runs planning and the locked part without another patch in between; `Commit` and `Checkpoints` cover any plan against any later state of the files.
