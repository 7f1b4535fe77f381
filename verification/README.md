# guigu: verification of the session log and the protocols around it

guigu is an agent runtime. Several lanes (agent runs) of a session append to one append-only log of message records and
lane-head records; forks share ancestors, writers fail or crash between two records, several processes share the file
under a lock, and recovery replays the log into a tree and resumes each lane. This project models that log, and the
concurrent and incremental parts of the runtime that are of similar difficulty, and proves what they promise.

How the parts hang together:

- `SessionTree` rebuilds and checks the tree of a session from its entries (loops over maps, the three-colour walk).
- `RecordCodec`, `JsonLines` and `LogText` are the file as text: a concrete one-line encoding with a character-level
  decoder, the reader that stops at the first line that does not decode, and one append that may be cut anywhere.
  `SharedFile` is any number of processes on one file; `JsonlStorage` is the storage object, and `IdCursor` its id cursor
  under competing claims.
- `LogRecords`, `LaneLog`, `LaneSystem` and `LaneRuns` are the lanes: a step system in which every step writes at most one
  record, writes may fail with or without leaving their record behind, and a crash keeps any prefix. `SharedStorage` holds
  the objects with the shared write lock and the lane writer, and `StorageRefinement` shows that what they do to the text
  of the file is what the steps do to the log; `LaneFile` puts both together, from operations of lanes to what is read back
  from the file. `LaneProcesses` has lanes of several processes on one file, interleaved record by record, with processes
  that die and resume and with several writers of one lane id. `LaneRecovery` resumes a lane from the tree.
- `LaneRegistry` (spawn, fork, rollback, shutdown), `FileMutationQueue` (per-path locks with eviction) and `RemoteClient`
  (requests against closing) are further step systems with their objects. A run is any sequence of enabled steps.
- `Messages`, `Context`, `Transcript` and `ToolExecution` are one agent turn: planning the request, keeping tool results
  with their calls, and running tools in parallel.
- `Sse`, `BlockAccumulator` and `OpenAiChunks` are the streaming side: the parser of server-sent events (section 9.2.6 of
  the WHATWG HTML Standard, with the source's deviations) and the accumulator of content, fed with the events of one
  provider and with the chunks of another.

A method whose contract equates the new state with a function of the old one is the object form of a step; the properties
are proved about those functions. Beside what the steps of a system must never do, each system states what they do: where a
new writer, lane or request starts, what a call that nobody disturbs comes to, and which field of an event ends up where. Integer widths appear where the source depends on them: u64 ids and cursors, u32 token
estimates with wrap-around sums, u64 totals. All other counters are unbounded.

Some promises turn out to hold only under a condition. Each is stated with the exact condition; where a run or an input is
named with it, that is a concrete one that fails:

- A record, once readable, is lost exactly when something is written right behind it before it has its newline, which a
  write cut exactly between JSON and newline leaves open (`SharedFile.NextKeepsInv`, `SharedFile.RunKeepsFileSound`; a
  message acknowledged there is unreadable, `SharedFile.UncleanCutLosesAcknowledged`, with the run `SharedFile.UncleanCutRun`).
  An acknowledged lane head is readable exactly when neither a torn line nor such a record precedes it
  (`SharedFile.WriteBehind` for any sound text, `LogText.AcknowledgedHeadReadable` for any cut of one record).
- Every writer of every lane of every process keeps on the file what it was promised exactly when no such write acknowledges
  a message or takes away a record that a writer needs (`LaneProcesses.LanesHoldTheirMessages`, with the run
  `LaneProcesses.HarmRun`).
- The initial head record of a lane follows another head record exactly when a failed append of the lane left one before it
  or the lane was not new to the log (`LaneRuns.InitialFollowsHeadExactly`, with the run `LaneRuns.LeakedHeadComesFirst`).
- The replayed head of a lane is the head in memory exactly when its last head record was not left by an append that
  reported failure (`LaneRuns.ReplayedHeadIsHeadInMemory`; with several processes, `LaneProcesses.WriterReplays`).
- One more message keeps a log readable exactly when it has a parent or is the first (`LaneLog.AppendKeepsReadable`), so a
  lane that retries after losing the head of its first message makes the log unreadable
  (`LaneRuns.RetryAfterLostHeadIsUnreadable`).
- What `fits` accepts is kept whole by `truncate` exactly when the unclamped estimate fits or there is one turn; below a
  window of all 32 bits that is always so (`Context.FittingIsKeptWhole`, `Context.FullWindowDropsWhatFits`).
- Ending a tool call marks that call exactly when no earlier call has its id (`BlockAccumulator.StopMarksFirstWithId`); with
  a repeated id any number of stops never ends it (`BlockAccumulator.RepeatedIdNeverEnds`).
- A chunk that is rejected leaves the accumulator as it was exactly when it carries no text and no thinking and all call
  entries before the rejected one are empty (`OpenAiChunks.RejectedChunkExactly`, with the chunk
  `OpenAiChunks.RejectedChunkLeavesText`); one handled to its end continues the run of accepted deltas
  (`OpenAiChunks.ChunkContinuesRun`).

## Model

| member | source | states |
|---|---|---|
| SessionTree.ReduceFor | src/core/session.rs:162-209 | succeeds exactly when ids are unique, at most one entry has no parent, every parent exists and no parent chain cycles; otherwise names the first rule broken; the tree has ascending children inverse to the parent links |
| SessionTree.CheckAcyclic | src/core/session.rs:214-240 | the three-colour walk ends, and reports a cycle exactly when one exists |
| SessionTree.MarkChain | src/core/session.rs:218-238 | one chain of that walk: either all its nodes become settled or a cycle exists |
| SessionTree.AcyclicIffGrounded | src/core/session.rs:212-214 | no node meets itself on its parent chain exactly when every chain ends |
| SessionTree.Scan | src/core/session.rs:163-184 | first pass: accepts exactly unique ids and at most one root, otherwise gives the error of the first entry rejected |
| SessionTree.FindMissingParent | src/core/session.rs:185-191 | finds a parent that is no node exactly when there is one, the one of the least id |
| SessionTree.FillChildren | src/core/session.rs:193-203 | gives every node its children in ascending order and changes nothing else |
| SessionTree.TreeUnique | src/core/session.rs:162-209 | the specification of the tree has one solution |
| SessionTree.ChildrenInvert | src/core/session.rs:193-209 | the children of a node are, in ascending order, exactly the nodes whose parent it is, and the root is the node without a parent |
| SessionTree.ReduceIgnoresOrder | src/core/session.rs:156-162 | every permutation of the entries is accepted alike and gives the same tree |
| SessionTree.Leaves | src/core/session.rs:61-67 | exactly the nodes without children, ascending |
| SessionTree.PathTo | src/core/session.rs:73-87 | exactly for leaves that reach a root, the messages from that root down to the leaf |
| SessionTree.RootPathUnique | src/core/session.rs:73-87 | a node has at most one path from a root |
| RecordCodec.RoundTrip | src/core/session/lane_head.rs:20-43 | decoding an encoded record gives it back, for every record with u64 ids |
| RecordCodec.EncodeOneLine | src/core/session/jsonl.rs:233-240 | an encoded record holds no line break |
| RecordCodec.NoProperPrefixDecodes | src/core/session/jsonl.rs:200-214 | no proper prefix of an encoded record decodes |
| RecordCodec.GluedNeverDecodes | src/core/session/jsonl.rs:200-214 | a cut record with another one written behind it does not decode |
| RecordCodec.TwoRecordsNeverDecode | src/core/session/jsonl.rs:107-124 | two records on one line do not decode |
| JsonLines.ReadRecordsWithExtent | src/core/session/jsonl.rs:188-216 | the loop gives the records of the longest prefix of lines that decode, and its length |
| JsonLines.ReadsLines | src/core/session/jsonl.rs:107-124 | whole lines are all read, and reading goes on behind them |
| JsonLines.ExtentIsStable | src/core/session/jsonl.rs:154-179 | for any text, cutting the file to the computed extent changes neither its records nor its extent |
| LogText.LinesReadBack | src/core/session/jsonl.rs:107-124 | what was written by whole lines is read back as written |
| LogText.CutFileRecovers | src/core/session/jsonl.rs:107-216 | however the last write is cut, the records are those before it, plus it exactly when its JSON is complete, and truncating to the extent leaves exactly those lines |
| LogText.AcknowledgedMessageReadable | src/core/session/jsonl.rs:221-252 | a locked append behind any cut tail is readable exactly when the tail's JSON was incomplete |
| LogText.AcknowledgedHeadReadable | src/core/session/jsonl.rs:282-301 | a head written behind any cut tail is readable exactly when the tail is empty |
| LogText.BrokenReads | src/core/session/jsonl.rs:107-124 | behind whole lines, a torn line and whatever was written behind it are not read |
| LogText.UnlockedMessageReadable | src/core/session/jsonl.rs:221-252 | the same for a message appended without the file lock |
| LogText.NextFreeBounds | src/core/session/jsonl.rs:166-178 | the cursor a file demands is one above its greatest message id |
| SharedFile.NextKeepsInv | src/core/session/jsonl.rs:221-301 | one operation of any process, however its write is cut, keeps the file whole lines with at most an unended or torn one behind them and ids distinct; it removes no record exactly when it does not write right behind a record without its newline, and then keeps everything acknowledged |
| SharedFile.RunKeepsFileSound | src/core/session/jsonl.rs:130-301 | over every run of any number of processes with writes cut anywhere: ids distinct and below u64::MAX, and cursors never wrap; no record is ever lost exactly when no operation writes right behind a record without its newline, and then everything acknowledged (heads: where nothing torn stood before) stays in the valid prefix in order |
| SharedFile.EmptyFileSound | src/core/session/jsonl.rs:39-75 | a new file is sound |
| SharedFile.WriteBehind | src/core/session/jsonl.rs:221-301 | what can be read after one line, cut anywhere, was written behind any sound text: nothing changes behind a torn line, one record more behind whole lines once its JSON is complete, and one less right behind a record without its newline |
| SharedFile.UncleanCutLosesAcknowledged | src/core/session/jsonl.rs:154-179 | a message acknowledged right behind a record without its newline is unreadable, and so is that record from then on |
| SharedFile.UncleanCutRun | src/core/session/jsonl.rs:154-179 | a run from a new file that does so: one write stops exactly between JSON and newline, the next message is acknowledged, and nothing can be read |
| SharedFile.WithinMembers | src/core/session/jsonl.rs:107-124 | acknowledged records held in order are each among the records read |
| SharedFile.MessageAdds | src/core/session/jsonl.rs:221-252 | a message acknowledged anywhere but right behind a record without its newline is the last record, under an id above all others, and the cursor is one beyond it |
| SharedFile.HeadAdds | src/core/session/jsonl.rs:282-301 | an acknowledged head behind whole lines is the last record; behind a torn line it changes no record |
| SharedFile.ProcessesCome | src/core/session/jsonl.rs:39-75 | opening sets a cursor above the file, loading raises it there, and a process that exits leaves the others alone |
| JsonlStorage.MaxMessageId | src/core/session/jsonl.rs:166-174 | the greatest message id, none without messages |
| JsonlStorage.JsonlSessionStorage.Open | src/core/session/jsonl.rs:39-75 | the cursor of a newly opened file |
| JsonlStorage.JsonlSessionStorage.ClaimNextId | src/core/session/jsonl.rs:130-146 | undisturbed, claims the cursor and advances it, or reports exhaustion without wrapping |
| IdCursor.RunKeepsInv | src/core/session/jsonl.rs:130-146 | over every run of competing claims, spuriously failing exchanges and raises of the cursor, claimed ids lie below the cursor, each claimed once, and the cursor never goes down nor wraps |
| IdCursor.ClaimsAreDistinct | src/core/session/jsonl.rs:130-146 | however claimants interleave, no two get one id, and a claim is refused only once the cursor is at the last u64 |
| IdCursor.SomebodyMakesProgress | src/core/session/jsonl.rs:137-145 | a turn of the loop whose exchange is not spurious claims the cursor, gives up at the last u64, or saw that somebody else had moved the cursor |
| IdCursor.RaiseLiftsToFloor | src/core/session/jsonl.rs:176-178 | a raise lifts the cursor just to its floor and unclaims nothing |
| IdCursor.UndisturbedClaim | src/core/session/jsonl.rs:130-146 | a claim that nobody disturbs takes the cursor and leaves it one higher |
| JsonlStorage.JsonlSessionStorage.RefreshCursorLocked | src/core/session/jsonl.rs:154-179 | repairs the tail and raises the cursor, never lowers it |
| JsonlStorage.JsonlSessionStorage.Append | src/core/session/jsonl.rs:221-252 | the whole append is the specified change of text, cursor and result |
| JsonlStorage.JsonlSessionStorage.AppendLaneHead | src/core/session/jsonl.rs:282-301 | adds one head line or the part of it that was reached |
| JsonlStorage.JsonlSessionStorage.Load | src/core/session/jsonl.rs:254-273 | the tree of the readable records, and the cursor raised to them |
| JsonlStorage.JsonlSessionStorage.LoadLaneHeads | src/core/session/jsonl.rs:303-314 | the replayed heads of the readable records |
| LogRecords.ReplayTakesLast | src/core/session/jsonl.rs:303-314 | the replayed head of a lane is that of its last head record |
| LaneLog.ReplayedHeadsLive | src/core/session/jsonl.rs:303-314 | in every prefix of a well-linked log a replayed head names a message of that prefix |
| LaneLog.PathGrows | src/core/session/lane_writer.rs:83-91 | another record never changes the path behind a head |
| LaneLog.PathOfNew | src/core/session/lane_writer.rs:83-91 | a new message's path is its parent's path and itself |
| LaneLog.LaneLogReduces | src/core/session.rs:162-240 | a well-linked log has unique ids, existing parents and no cycle, so it reduces exactly when at most one message has no parent |
| LaneLog.AppendKeepsReadable | src/core/session/lane_writer.rs:83-91 | one more message keeps a log readable exactly when it has a parent or is the first |
| LaneLog.TreePathIsLogPath | src/core/session.rs:73-87 | the tree's root path of any id carries exactly the messages behind that id in the log |
| LaneLog.GreatestIsLeaf | src/server/lane_recovery.rs:195-198 | the greatest id of such a log is a leaf |
| LaneSystem.NextKeepsInv | src/core/session.rs:365-411 | every step (spawn, fork, resume, message, head, return, initial head, crash) keeps: ids linked and below the cursor, and each lane on its path with its call and persisted head accounted for |
| LaneSystem.EntryMayFollow | src/core/session/lane_writer.rs:83-91 | a message claimed under the cursor may follow the log and extends the path of its parent |
| LaneRuns.RunKeepsInv | src/core/session.rs:365-411 | over every run |
| LaneRuns.LaneHoldsItsMessages | src/core/session/lane_writer.rs:83-102 | in every interleaving with failing writes, walking parents from a lane's head gives its start path and then exactly the messages its appends acknowledged, in order |
| LaneRuns.NewLanesStart | src/server/lane.rs:197-206 | a spawned lane starts with nothing behind it, a forked one at its source's head with the messages behind the source's start and those it acknowledged, a resumed one at the head it is given |
| LaneRuns.CrashKeeps | src/core/session/jsonl.rs:107-124 | a crash leaves the first records, a cursor above them and no lane |
| LaneRuns.OnlyOwnAppendMovesLane | src/core/session/lane_writer.rs:83-102 | only the completed append of a lane moves its head and adds to its messages; no other step changes the path behind it |
| LaneRuns.ReplayedHeadIsHeadInMemory | src/core/session.rs:365-411 | between calls the replayed head is the one in memory exactly when no failed append left the last head record |
| LaneRuns.InitialHeadNeverOverrides | src/core/session.rs:395-411 | for a lane new to the log none of whose failed appends left a head record, no initial record, failed or not, has followed another, and once it is settled the replayed head is the one in memory |
| LaneRuns.InitialFollowsHeadExactly | src/core/session.rs:395-411 | an initial record that reaches the log follows another head record of its lane exactly when a failed append of the lane left one before it or the lane was not new to the log; with a committed head nothing is written |
| LaneRuns.HeadsLiveInEveryPrefix | src/core/session/jsonl.rs:303-314 | in every prefix of every log lanes can write, a replayed head names a message of that prefix |
| LaneRuns.SnapshotIsConsistent | src/core/session.rs:419-426 | heads read with a tree live in that tree, and the tree exists exactly when at most one message has no parent |
| LaneRuns.RetryAfterLostHeadIsUnreadable | src/core/session/lane_writer.rs:83-91 | a run after which the log no longer loads: the head of a first message is lost and the lane goes on |
| LaneRuns.LeakedHeadComesFirst | src/core/session.rs:395-411 | a run in which a head record left by a failed append precedes the initial one and replays to an unacknowledged message |
| SharedStorage.SharedSessionStorage.AppendWithHead | src/core/session.rs:365-383 | message and head in one lock hold; on failure of the second the message stays and the lane is not marked committed |
| SharedStorage.SharedSessionStorage.PersistInitialHead | src/core/session.rs:395-411 | writes nothing once a head of the lane is committed, else exactly one head line |
| SharedStorage.SharedSessionStorage.AppendLaneHead | src/core/session.rs:445-460 | unconditional head line, nothing without a head store |
| SharedStorage.SharedSessionStorage.Snapshot | src/core/session.rs:419-426 | tree and heads of one view of the file, and the cursor raised to it |
| SharedStorage.LaneWriter.Append | src/core/session/lane_writer.rs:83-91 | hangs the message under the head and moves the head to it only on success |
| SharedStorage.LaneWriter.ForkAt | src/core/session/lane_writer.rs:100-102 | moves the head without a write |
| SharedStorage.LaneWriter.PersistHead | src/core/session/lane_writer.rs:71-75 | writes the head it has, reports the outcome, and marks the lane committed only on success |
| StorageRefinement.AppendRefinesSteps | src/core/session.rs:365-383 | on a file of whole lines, in both modes and whatever its two writes do, an append on the text is the message step and the head step on the log, with the same committed set, cursor and result, an exhausted cursor included |
| StorageRefinement.InitialRefinesStep | src/core/session.rs:395-411 | the same for persisting an initial head |
| StorageRefinement.LockedAppendSimulates | src/core/session/jsonl.rs:221-252 | in locked mode, behind whatever cut writes have left, the effect of an append is that of the steps exactly when its message is not written right behind a record without its newline |
| StorageRefinement.UnlockedAppendSimulates | src/core/session/jsonl.rs:221-252 | without the lock, the same holds exactly when the message is written where its record shows, or the cursor is exhausted |
| LaneFile.OpMatches | src/core/session/lane_writer.rs:83-102 | opening, forking, persisting an initial head and appending, through the objects on the text of a file, is a run of steps of the lane system, which it returns; the file holds the log those steps make exactly when the operation writes where its records show (`Clean`) |
| LaneFile.RunMatchesExactly | src/core/session/lane_writer.rs:83-102 | over any operations: the file holds the log of the steps throughout exactly when every operation does so (`RunClean`) |
| LaneFile.InitialAgrees | src/core/session.rs:395-411 | an initial head on the text of the file is the step exactly when it is written where its record shows: not right behind a record without its newline, and behind a torn line only if it fails |
| LaneFile.FileIsRun | src/core/session.rs:365-411 | what is read from a file after any operations that write where their records show (`RunClean`, which `RunMatchesExactly` shows to be needed) is the log of a run of lanes from nothing, so every property of runs holds of it |
| LaneFile.FileReplaysHeads | src/core/session/jsonl.rs:303-314 | after such operations (`RunClean`), the heads replayed from the file are those of the lanes of which a head record reached it, each the writer's own exactly when its last record was not left by an append that failed; and in every prefix a replayed head names a message |
| LaneFile.FileHoldsLaneMessages | src/core/session/lane_writer.rs:83-102 | end to end on a new file, after such operations (`RunClean`) with failed and cut writes: what is read from the file is well linked, and from each writer's head the parents spell the messages behind its birth and exactly those it acknowledged |
| LaneProcesses.NextKeepsInv | src/core/session/jsonl.rs:221-301 | writers of several processes on one file: one hold of the file lock by any of them, a process that opens, loads, dies or resumes, a writer that is dropped, or a power loss keeps the file linked, every writer on it and its replayed head accounted for, if it does no harm (`Harms`) |
| LaneProcesses.HarmBreaks | src/core/session/jsonl.rs:154-179 | after a step that does harm, some writer has not on the file what it was promised |
| LaneProcesses.OverrunLosesExactly | src/core/session/jsonl.rs:154-301 | a step other than a power loss takes a record away exactly when it writes right behind a record without its newline, and then it takes the last one |
| LaneProcesses.RunKeepsInv | src/core/session/jsonl.rs:221-301 | over every run without harm (`NeverHarms`), which `LanesHoldTheirMessages` shows to be needed |
| LaneProcesses.LanesHoldTheirMessages | src/core/session/lane_writer.rs:83-102 | however the messages and heads of all writers of all processes interleave, fail and are cut, and whatever process dies in between: throughout the run, from each writer's head the parents on the file spell the messages behind its first head and exactly those it acknowledged, exactly when no step does harm |
| LaneProcesses.ForkStartsAtSource | src/server/lane.rs:197-206 | a forked writer is on its own lane and stands at its source's head: the parents spell the messages behind the source's first head and those it acknowledged |
| LaneProcesses.NewWriterStarts | src/server/lane_recovery.rs:199-232 | a spawned writer starts with nothing behind it, a resumed one at the head it is given, which must be on the file, with the messages behind that |
| LaneProcesses.OnlyOwnHeadMovesWriter | src/core/session/lane_writer.rs:83-91 | a writer goes when it is dropped, its process dies or the power is lost; its head moves only to the message just written, when its own head record is acknowledged, and only that adds to its messages |
| LaneProcesses.ProcessesStay | src/core/session/jsonl.rs:39-75 | which processes a step leaves, and the cursor of one that opens or loads |
| LaneProcesses.LocksAreGivenBack | src/core/session.rs:365-383 | over every run, harmless or not, the write lock of a process is held exactly by its writer between its two records, which can go on to its head; whoever fails, is dropped or dies gives it back |
| LaneProcesses.MessageLands | src/core/session/jsonl.rs:221-252 | an acknowledged message is the last record, under a new id behind its writer's head, and its process's write lock is held for the head; a failed one changes no writer |
| LaneProcesses.HeadLands | src/core/session/jsonl.rs:282-301 | an acknowledged head on whole lines is the last record and replays to the writer's head, and its lane is committed |
| LaneProcesses.InitialLands | src/core/session.rs:395-411 | an initial head is written only while no head of the lane is committed, and is the head the writer started from |
| LaneProcesses.PowerLossKeeps | src/core/session/jsonl.rs:107-124 | a power loss leaves the first records as whole lines, and no process |
| LaneProcesses.HarmRun | src/core/session/jsonl.rs:154-252 | a run from a new file that does harm: one write stops exactly between JSON and newline, and the next message is acknowledged behind it |
| LaneProcesses.WriterReplays | src/core/session/jsonl.rs:303-314 | in such a run (`NeverHarms`), a lane whose last readable head record is a living writer's replays to the head in that writer's memory exactly when its head has not moved, or tried to, without a record to that effect |
| LaneProcesses.FileStaysLinked | src/core/session/jsonl.rs:303-314 | the file of such a run (`NeverHarms`) has distinct ids, heads that live in every prefix, and loads exactly when at most one message has no parent |
| LaneProcesses.HoldsMakeCommit | src/core/session.rs:365-383 | the two lock holds of an append with nobody in between are the combined commit of the shared storage |
| StorageRefinement.RefreshIsIdle | src/core/session/jsonl.rs:154-179 | on a file lanes left whole, the refresh under the lock changes nothing |
| LaneRecovery.ResolveResumeHead | src/server/lane_recovery.rs:199-232 | an explicit or persisted head resumes exactly when it is a leaf with a root path, a persisted empty head resumes empty, with neither the greatest leaf is taken |
| LaneRecovery.TranscriptFromPath | src/server/lane_recovery.rs:181-183 | the transcript is the path, message by message |
| LaneRecovery.LaneTreeSound | src/server/lane_recovery.rs:199-232 | the tree of a log written by lanes is one resuming can walk: nodes under their own ids, no cycle |
| LaneRecovery.LeafResumesItsPath | src/server/lane_recovery.rs:199-232 | resuming any leaf of a log written by lanes succeeds with exactly the messages behind it |
| LaneRecovery.LaneResumesWhereItWas | src/server/lane_recovery.rs:188-232 | after any run, a lane between calls whose last head record no failed append left: its replayed head is the one in memory, and resuming there gives exactly the messages behind its start and those it acknowledged, or a refusal exactly when that head is not a leaf |
| LaneRecovery.DefaultResumeNeverErrs | src/server/lane_recovery.rs:199-232 | with no head and no record, resuming such a log never errs and starts at its greatest id with the messages behind it |
| LaneRegistry.NextKeepsInv | src/server/lane.rs:79-262 | every step of every call keeps each entry the one its own insertion made, and each started runtime registered, held by a call, or shut down |
| LaneRegistry.RunKeepsInv | src/server/lane.rs:79-262 | over every run |
| LaneRegistry.EntriesLeaveOnlyByOwner | src/server/lane.rs:279-295 | no step replaces a registered lane; an entry leaves only by the rollback of the call that inserted it or by a shutdown that then stops its runtime |
| LaneRegistry.RollbackIsExact | src/server/lane.rs:279-295 | removing by generation removes the call's own runtime and no other entry |
| LaneRegistry.RegisteredAtMostOnce | src/server/lane.rs:116-141 | a runtime or a generation is registered in at most one place |
| LaneRegistry.NoRuntimeIsLeaked | src/server/lane_ops.rs:93-122 | once all calls have finished, a runtime is registered exactly when it was neither shut down nor lost to a failed shutdown |
| LaneRegistry.FailedCallLeavesNothing | src/server/lane.rs:143-161 | a spawn or fork that fails after starting a runtime leaves nothing registered and has shut its runtime down or tried to |
| LaneRegistry.SpawnedStaysUntilShutdown | src/server/lane.rs:112-161 | a lane whose spawn or fork succeeded is registered exactly until a server shutdown drains it, and its runtime is stopped or lost only after that |
| LaneRegistry.AdmittedExactly | src/server/lane.rs:84-99 | a lane is admitted exactly when its session is registered, no lane of its name is, and for a fork its source is; otherwise the first of these is the error |
| LaneRegistry.AdmittedCall | src/server/lane.rs:79-149 | an admitted call that nobody disturbs starts one runtime and registers it under a new generation, and nothing else |
| LaneRegistry.RefusedCall | src/server/lane.rs:84-99 | a refused call changes nothing |
| LaneRegistry.LateRefusal | src/server/lane.rs:112-153 | a call refused by the second check leaves the registry alone and shuts its runtime down |
| LaneRegistry.PersistedCall | src/server/lane.rs:155-161 | persisting the initial head completes the call |
| LaneRegistry.RolledBackCall | src/server/lane.rs:155-161 | when that fails, exactly its own entry is taken out, its runtime shut down, and the error is the storage's |
| LaneRegistry.SessionSteps | src/server/lane_recovery.rs:168-177 | creating a session adds it empty unless it is there, and removing takes it out exactly when it has no lane |
| LaneRegistry.ShutdownStopsAll | src/server/lane_ops.rs:93-122 | an undisturbed shutdown empties the registry and stops every runtime registered; at one that does not stop it gives the rest up |
| LaneRegistry.AgentServer.CheckLane | src/server/lane.rs:90-99 | the first check: admitted exactly as above, or the error that applies |
| LaneRegistry.AgentServer.InsertLane | src/server/lane.rs:115-149 | checks again, admits exactly as above, and adds one entry under a new generation, or leaves everything as it was |
| LaneRegistry.AgentServer.RemoveLaneIfGeneration | src/server/lane.rs:279-295 | removes the entry of that generation, if it is there |
| LaneRegistry.AgentServer.RemoveSessionIfEmpty | src/server/lane_recovery.rs:168-177 | removes only a session without lanes |
| LaneRegistry.AgentServer.CreateSession | src/server/mod.rs:252-277 | adds an empty session unless the id is taken |
| LaneRegistry.AgentServer.Drain | src/server/lane_ops.rs:93-107 | empties the registry and hands over exactly the registered runtimes |
| FileMutationQueue.NextKeepsInv | src/tools/file_mutation_queue.rs:97-140 | every step keeps: a referenced lock is the one in the table for its path, counts equal references, and each lock admits one task |
| FileMutationQueue.RunKeepsInv | src/tools/file_mutation_queue.rs:97-140 | over every run |
| FileMutationQueue.OneGuardPerPath | src/tools/file_mutation_queue.rs:97-125 | however acquires, cancelled waits, drops, failures and evictions interleave, a path has at most one guard |
| FileMutationQueue.OnlyOwnPathBlocks | src/tools/file_mutation_queue.rs:84-86 | a waiter can go on exactly when no task on its own path is past waiting |
| FileMutationQueue.PrunedIsInUse | src/tools/file_mutation_queue.rs:131-140 | eviction by reference count leaves exactly the paths in use |
| FileMutationQueue.TableStaysSmall | src/tools/file_mutation_queue.rs:97-110 | the table never exceeds the greater of the threshold and the peak number of paths in use |
| FileMutationQueue.GuardComesFrom | src/tools/file_mutation_queue.rs:97-125 | a task gets its guard only by the cross-process lock where that is in use, else by the path's lock, and loses it only by dropping it |
| FileMutationQueue.ArrivalWaits | src/tools/file_mutation_queue.rs:97-113 | a new task waits for the lock of its path and disturbs no other |
| FileMutationQueue.LeavingLetsNextGo | src/tools/file_mutation_queue.rs:163-171 | whoever gives up, fails or drops the guard is gone, the others stay, and one waiting behind it may go on |
| FileMutationQueue.AcquireEvictsExactly | src/tools/file_mutation_queue.rs:97-110 | an acquire that finds the table full leaves the paths in use and its own, else it only adds its own |
| FileMutationQueue.LockTable.PruneLocked | src/tools/file_mutation_queue.rs:138-140 | the retain loop evicts exactly what only the table refers to |
| FileMutationQueue.LockTable.Acquire | src/tools/file_mutation_queue.rs:97-110 | eviction when full, then get or insert and clone |
| FileMutationQueue.LockTable.Release | src/tools/file_mutation_queue.rs:163-171 | a dropped guard or an abandoned wait gives back one reference |
| Context.EstimateSnoc | src/core/context.rs:68-93 | from the end, a usage starts the count afresh and any other message adds its estimate |
| Context.FourCharactersAreOneToken | src/core/context.rs:25-29 | a text counts as one token more than its whole groups of four characters |
| Context.EstimateUserPart | src/core/context.rs:32-41 | what a text or an image adds to the estimate of a user message |
| Context.EstimateAssistantPart | src/core/context.rs:42-52 | what a text, a thinking or a tool call adds to the estimate of an assistant message |
| Context.EstimateResultPart | src/core/context.rs:53-63 | the tool's name, and what a text or an image adds, in the estimate of a tool result |
| Context.EstimateIgnores | src/core/context.rs:31-65 | nothing else of a message counts |
| Context.WithOverhead | src/core/context.rs:119-134 | the overhead is the sum of prompt, schemas and wrapper, and the reserve the one given, each capped at u32::MAX |
| Context.FittingLeavesReserve | src/core/context.rs:136-157 | what fits leaves the output reserve free: estimate and reserve together stay within the window; with a larger reserve only an estimate of nothing fits |
| Context.TruncateToBudget | src/core/context.rs:304-342 | the messages if they fit, else the longest rest from a turn boundary that fits, else the last turn; the guard against split results is dead |
| Context.TruncationDetermined | src/core/context.rs:290-342 | that answer is unique, a suffix, never empty for messages, and starts at a user message unless nothing was dropped |
| Context.FittingIsKeptWhole | src/core/context.rs:136-157 | what fits is kept whole exactly when the unclamped total fits or there is one cut, always when the budget is below u32::MAX |
| Context.FullWindowDropsWhatFits | src/core/context.rs:136-157 | at u32::MAX a transcript that fits loses a turn |
| Context.ComputeSplit | src/core/context.rs:367-384 | zero exactly when there are no more turns than to keep, else the start of exactly max(1, keep_recent) last turns |
| Context.LaterSplitKeepsFewer | src/core/context.rs:361-384 | no other split keeps that many |
| Context.PlanContext | src/core/context.rs:229-287 | which request and which commit each outcome of the compactor gives |
| Context.CommitShortens | src/core/context.rs:229-287 | a plan never lengthens; a commit keeps the summary and exactly the turns asked for |
| Transcript.GroupedSplits | src/core/context.rs:290-299 | grouping of results with their calls is kept and given by both halves of any cut that is not in front of a result |
| Transcript.TruncationGrouped | src/core/context.rs:304-342 | truncation keeps results with their calls |
| Transcript.PlannedRequestGrouped | src/core/context.rs:229-287 | so does every planned request |
| Transcript.NextKeepsGrouped | src/core/runtime/step.rs:86-113 | so does every change of the transcript |
| Transcript.EveryTranscriptIsGrouped | src/core/runtime/mod.rs:224-288 | over every run from the empty transcript |
| Transcript.ResultNamesItsCall | src/core/runtime/step.rs:101-105 | read off: behind a result stands the assistant message whose call of that position it names |
| Messages.CallsJoin | src/core/message.rs:40-60 | the calls of a message are those of its parts, in order |
| Transcript.PreparedIsGrouped | src/core/runtime/context_prep.rs:111-150 | a prepared request and the transcript behind it are grouped, no longer than before, and empty only when it was; only cancellation aborts, and then nothing changed |
| Transcript.RunContext.PrepareRequestMessages | src/core/runtime/context_prep.rs:111-150 | only a successful compaction changes the transcript, and then to exactly the planned request |
| Transcript.RunContext.CommitCompaction | src/core/runtime/context_prep.rs:67-87 | drain and insert make the summary and the kept part |
| Transcript.RunContext.PushToolResults | src/core/runtime/step.rs:101-105 | the loop pushes all results in order |
| Transcript.RunContext.PushAssistantMessage | src/core/runtime/mod.rs:175-193 | pushes one message |
| Transcript.RunContext.AppendUserMessage | src/core/runtime/commands.rs:98-113 | pushes one message |
| ToolExecution.ExecuteToolCalls | src/core/runtime/tools.rs:237-296 | one message per call in call order, the same in both modes and for every completion order; a call that is not refused is answered by what the first tool of its name returns, a refused one and one of an unknown name by an error and without being run; at the length limit nothing runs and each call gets the same error; in sequential mode one call follows the other |
| ToolExecution.FindToolExactly | src/core/runtime/tools.rs:46-50 | the tool of a call is the first of its name, and there is none exactly when no tool has the name |
| ToolExecution.ScopeIsOfTool | src/core/runtime/tools.rs:34-42 | a call has the scope of that tool, and is exclusive without one |
| ToolExecution.ExecuteReadonlyParallel | src/core/runtime/tools.rs:161-193 | groups, arbitrary completion and the sort give the outcomes in call order |
| ToolExecution.ExecuteSequential | src/core/runtime/tools.rs:147-158 | one call after the other, with the same outcomes |
| ToolExecution.RunGroup | src/core/runtime/tools.rs:175-185 | a group runs each of its calls once, in any interleaving |
| ToolExecution.OnlyReadOnlyOverlaps | src/core/runtime/tools.rs:160-193 | a call that has started while an earlier one has not ended is joined to it by read-only calls only |
| ToolExecution.AscendingIsDense | src/core/runtime/tools.rs:191-192 | sorted by key, the pairs of all calls stand at the index of their call |
| ToolExecution.SortByKey | src/core/runtime/tools.rs:191-191 | sorts and keeps the pairs |
| ToolExecution.SynthesizeTruncatedResults | src/core/runtime/tools.rs:200-231 | an error per call, in order, with its start and end events |
| ToolExecution.ToolStep | src/core/runtime/step.rs:86-113 | the results of a turn go behind its assistant message and keep the transcript grouped |
| Sse.ChunksDoNotMatter | src/adapters/sse.rs:42-55 | however a stream is cut, fed chunks end in the state and give the events of the whole |
| Sse.ChunksDoNotMatterToTheEnd | src/adapters/sse.rs:42-71 | and so does the end of the stream after them |
| Sse.EndIsNewline | src/adapters/sse.rs:58-71 | the end of the stream gives what a newline behind an unfinished line gives, and then what a blank line does |
| Sse.LineForms | src/adapters/sse.rs:74-115 | every form of a line: blank, comment, field with or without a colon and a space, data, event and unknown fields; only a blank line gives an event, the one of the fields so far |
| Sse.PrintThenParse | src/adapters/sse.rs:42-115 | events whose names are one line (`NameIsOneLine`), printed and cut into any chunks, under a decoding that changes no text (`Faithful`), are read back as they were exactly when no line ends in CR and no data is the end mark; the parser is left fresh |
| Sse.ReadBackExactly | src/adapters/sse.rs:74-115 | the same for one event |
| Sse.FieldParses | src/adapters/sse.rs:74-98 | a printed field comes back, less a CR at its end |
| Sse.SseParser.Feed | src/adapters/sse.rs:42-55 | the draining loop is that function of state and chunk |
| Sse.SseParser.Finish | src/adapters/sse.rs:58-71 | handles the unfinished line, then the event under way |
| Sse.SseParser.ProcessLine | src/adapters/sse.rs:74-98 | one line |
| Sse.SseParser.Flush | src/adapters/sse.rs:101-115 | emits the event under way, if there is one |
| BlockAccumulator.AcceptedIsRepresented | src/adapters/anthropic/blocks.rs:25-188 | after any accepted events the segments hold the blocks started, in order, each with exactly the deltas of its index, every slot is listed once, and the index map knows exactly those blocks |
| BlockAccumulator.AcceptedIsSound | src/adapters/acc.rs:193-203 | two block indices never name one slot |
| BlockAccumulator.MessageIsBlocks | src/adapters/acc.rs:206-243 | the message is each block's deltas joined, in start order, with empty text and thinking dropped |
| BlockAccumulator.MessageKeeps | src/adapters/acc.rs:206-243 | of the blocks the message keeps, in order, every call and every text and thinking that is not empty |
| BlockAccumulator.FieldsAreRead | src/adapters/anthropic/blocks.rs:25-157 | a start announces the block of its type with the id and name of the event, a delta carries the field of its type, and otherwise the first thing wrong is named |
| BlockAccumulator.StartOpensBlock | src/adapters/anthropic/blocks.rs:25-73 | an accepted start adds its block, empty, and reports the start of a call |
| BlockAccumulator.DeltaExtendsBlock | src/adapters/anthropic/blocks.rs:76-157 | an accepted delta adds its own field to the block of its index, to no other, and reports just that |
| BlockAccumulator.StopReports | src/adapters/anthropic/blocks.rs:160-188 | a stop changes no block and reports the end of a call only |
| BlockAccumulator.StrayStopRefused | src/adapters/anthropic/blocks.rs:160-188 | a stop without an index, or of a block that has not started, is refused |
| BlockAccumulator.StartAcceptedExactly | src/adapters/anthropic/blocks.rs:25-73 | a start is accepted exactly when it announces a block and its index has not started; otherwise the first thing wrong is the error |
| BlockAccumulator.DeltaAcceptedExactly | src/adapters/anthropic/blocks.rs:76-157 | a delta is accepted exactly when it has the field of its type and the block of its index has started and is of its kind; otherwise the first thing wrong is the error |
| BlockAccumulator.StopMarksFirstWithId | src/adapters/anthropic/blocks.rs:160-188 | after any accepted events, a stop of a running call marks it, and is refused a second time, exactly when no earlier call has its id |
| BlockAccumulator.RepeatedIdNeverEnds | src/adapters/anthropic/blocks.rs:160-188 | accepted events reach that: with two calls of one id, any number of stops of the second are accepted and it is never marked |
| BlockAccumulator.Acc.HandleBlockStart | src/adapters/anthropic/blocks.rs:25-73 | checks come first: a rejected event leaves the accumulator as it was |
| BlockAccumulator.Acc.HandleBlockDelta | src/adapters/anthropic/blocks.rs:76-157 | the same for a delta |
| BlockAccumulator.Acc.HandleBlockStop | src/adapters/anthropic/blocks.rs:160-188 | the same for a stop |
| BlockAccumulator.Acc.NoteBlock | src/adapters/acc.rs:193-198 | grows the index map and changes one entry |
| BlockAccumulator.Acc.EndToolCall | src/adapters/acc.rs:159-163 | marks the first call with the id |
| BlockAccumulator.Acc.BuildMessage | src/adapters/acc.rs:206-243 | the loop over the segments |
| OpenAiChunks.AcceptedIsRepresented | src/adapters/openai/events.rs:27-145 | after any accepted deltas there is one text block with all text, one thinking block with all thinking, and each call started, in order, with exactly the arguments of its provider index; the index map sends exactly the started indices to their calls |
| OpenAiChunks.IndexIsInjective | src/adapters/acc.rs:168-190 | two provider indices never stand for one call |
| OpenAiChunks.CallAcceptedExactly | src/adapters/openai/events.rs:85-107 | a well-formed call entry is accepted exactly when it starts an index not started yet or continues a started one |
| OpenAiChunks.CallRejectedBecause | src/adapters/openai/events.rs:61-107 | why a call entry is rejected: the first thing wrong with it |
| OpenAiChunks.ChunkSays | src/adapters/openai/events.rs:36-133 | the deltas of a chunk say its content and its reasoning, then its call entries in order, and last why the answer has finished |
| OpenAiChunks.EndsOnce | src/adapters/openai/events.rs:120-133 | the end of a call is reported once, in start order, for exactly the calls started before the answer last finished with tool calls |
| OpenAiChunks.MessageIsContent | src/adapters/acc.rs:206-243 | the message is all text, all thinking and each call with its arguments, in order of first appearance, empty ones dropped |
| OpenAiChunks.ChunkContinuesRun | src/adapters/openai/events.rs:27-145 | a chunk handled to its end continues the run of accepted deltas, state and reported ends |
| OpenAiChunks.RejectedChunkExactly | src/adapters/openai/events.rs:37-117 | every rejected chunk, after any accepted deltas, is rejected at a call entry, and leaves the accumulator as it was exactly when it carries no text and no thinking and all entries before that one are empty |
| OpenAiChunks.RejectedChunkLeavesText | src/adapters/openai/events.rs:37-65 | such a chunk that does not: a text and an entry without an index, on a new accumulator |
| OpenAiChunks.Acc.AppendText | src/adapters/acc.rs:84-99 | adds to the one text block, which the first text makes |
| OpenAiChunks.Acc.AppendThinking | src/adapters/acc.rs:102-117 | the same for thinking |
| OpenAiChunks.Acc.MapCall | src/adapters/openai/events.rs:62-117 | one call entry: checks come first and a rejected entry changes nothing |
| OpenAiChunks.Acc.EndCalls | src/adapters/openai/events.rs:122-131 | reports every call that is not done, in order, and marks all of them |
| OpenAiChunks.Acc.MapChunk | src/adapters/openai/events.rs:27-145 | the method takes the deltas of the chunk in order and stops at the first one rejected |
| RemoteClient.NextKeepsInv | src/remote/client.rs:47-179 | every step keeps entries and unfinished requests in step, and no request waiting once its table was emptied |
| RemoteClient.RunKeepsInv | src/remote/client.rs:47-179 | over every run |
| RemoteClient.NoWaiterIsLost | src/remote/client.rs:100-135 | once a closer has emptied both tables nobody waits on an entry, and everyone still waiting finishes without its timeout |
| RemoteClient.WaitingHasEntry | src/remote/client.rs:154-179 | before that, a waiter has an entry exactly as long as its sender is open |
| RemoteClient.FinishedLeavesNoEntry | src/remote/client.rs:154-179 | an entry belongs to an unfinished request |
| RemoteClient.ReplyIsOwn | src/remote/client.rs:72-87 | a reply was sent to the request that returns it |
| RemoteClient.ResponseIsAddressed | src/remote/client.rs:72-87 | a response changes at most the request of its own id and kind |
| RemoteClient.ResponseSettles | src/remote/client.rs:72-87 | over every run, a response whose request is pending takes the entry out and answers it, and if it waits it can receive and gets that payload; any other response changes nothing |
| RemoteClient.AnswerIsDelivered | src/remote/client.rs:154-179 | a waiter that has its answer returns it, or its own timeout comes first; nothing else ends it |
| RemoteClient.RequestGetsToWait | src/remote/client.rs:149-165 | while the connection is open a request that nobody disturbs gets to wait with an entry of its own |
| RemoteClient.WaitEnds | src/remote/client.rs:165-179 | and then ends with the payload of its response, without its entry |
| RemoteClient.WaitTimesOut | src/remote/client.rs:165-179 | or by its timeout, without its entry |
| RemoteClient.ClosedRefuses | src/remote/client.rs:150-152 | on a closed connection it fails at once |
| RemoteClient.FailsBeforeWaiting | src/remote/client.rs:154-165 | how it fails, and leaves no entry, when its write is refused or the connection has closed meanwhile |
| RemoteClient.ClosingReleases | src/remote/client.rs:100-135 | a closing task drops the sender of every pending request of both kinds and of no other, and those waiting then fail |
| RemoteClient.QuietEndClosesNothing | src/remote/client.rs:114-135 | a write task that ends because nobody can send any more closes nothing |
| RemoteClient.Client.BeginRequest | src/remote/client.rs:149-158 | draws an id and looks at the closed flag |
| RemoteClient.Client.InsertEntry | src/remote/client.rs:154-162 | the insert step |
| RemoteClient.Client.RemoveEntry | src/remote/client.rs:162-178 | the removal of an own entry |
| RemoteClient.Client.OnResponse | src/remote/client.rs:72-87 | settles the request of its id, if it is pending |
| RemoteClient.Client.MarkClosed | src/remote/client.rs:102-102 | the closed flag |
| RemoteClient.Client.DrainCommandTable | src/remote/client.rs:103-103 | drops every pending command |
| RemoteClient.Client.DrainSnapshotTable | src/remote/client.rs:104-104 | drops every pending snapshot request |

## Left out

- The JSON syntax of records: a fixed one-line encoding stands for it, a message is its text, and other JSON for the same record (field order, white space, tags) does not occur.
- Characters and bytes: text is a sequence of characters cut between characters; UTF-8 and its lossy decoding are a parameter in `Sse` and absent elsewhere, so byte lengths in `Context` are character counts.
- SharedFile: the file lock is an atomic mutex; failures to take it, and the unlocked use of one file by several processes, are not modelled. A lane head acknowledged behind a torn line is not counted as acknowledged, because it cannot be read.
- Storage without lane heads, and the in-memory storage: a head store is either the same file or none.
- LaneFile.FileHoldsLaneMessages: one process has the file open in locked mode and lanes are not resumed on it, which `LaneProcesses` has.
- LaneProcesses.FileStaysLinked: states nothing of a file after a step that did harm, beyond what `SharedFile.RunKeepsFileSound` says; a power loss leaves whole lines.
- LaneSystem.NextKeepsInv: a lane id is created once per process life (`LaneProcesses` has several writers of one id); a session re-created under the same id while a spawn is in flight is not modelled, nor are broadcast lag and dropped events of the bridge.
- LaneRegistry.NoRuntimeIsLeaked: calls run to their end; a call whose future is dropped half-way, and the wrap of the generation counter, are not modelled.
- FileMutationQueue.OneGuardPerPath: paths are taken as already normalized, links between files are not seen, and the cross-process lock may fail but is not otherwise modelled.
- Context: a float, timestamps, model names and result details of messages; a sum that overflows u32 wraps as in a release build. A `transform_context` hook may return anything, so the final projection is the truncation.
- Context.PlanContext: the compactor is an arbitrary outcome per call.
- ToolExecution.ExecuteToolCalls: a tool's outcome, refusal and rewriting depend on its call only; update events, cancellation and plugin errors are left out.
- Transcript.EveryTranscriptIsGrouped: injected messages are user messages; the source does not check that.
- OpenAiChunks.Acc.MapChunk: the JSON of a chunk, usage, the stop reason and events other than the ends of calls are not modelled; a provider index is any natural number.
- RemoteClient: timeouts fire at any moment, and a requester that is dropped while it waits leaves its entry behind; request counters, `abort` and the event stream are not modelled.
- Command queues and their counters, steering and follow-up order, live previews, terminal-event order, retries, plugins, wire formats, configuration and user interfaces.
