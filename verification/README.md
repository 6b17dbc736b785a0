# Verified model of the agent's durable state and its protocols

The agent keeps a session's conversation in an append-only file that several processes
feed from a transactional outbox, runs tools and processes behind a durable effect ledger,
moves turns through a fenced state machine, and lets clients watch a session over an event
stream. This project states what those protocols promise and proves it.

| part | files |
|---|---|
| Conversation log: records, repair, append, and their refinement | `Lines`, `Transcript`, `Conversation`, `LogRecovery`, `FileReading`, `SyncRefinement`, `SessionFile` |
| Outbox, drain workers, readers and crashes as one state machine | `Outbox`, `Engine` |
| Pages, pages of a growing history, and the compaction window | `Paging`, `HistoryPages` |
| Event-stream decoder and session observer | `Sse`, `SseFrames`, `SseRoundTrip`, `Observer` |
| Turn life cycle | `Turn` (module `Turns`) |
| Effect ledger, the gate before it, and effects of session turns | `Ledger`, `EffectGate`, `SessionEffects`, `SessionCommits`, `SessionStore` |
| Budgets, layered configuration, bounded output | `ContextBudget`, `ConfigMerge`, `BoundedDrain` |

`dafny verify dfyconfig.toml` checks everything.

## How the parts are modelled

- A file is its content and its durable bytes. A `sync` is a plan of writes, truncations and
  fsyncs; a call that fails or dies leaves any prefix of its plan, the last write possibly
  partial. A power cut leaves what no pending change touches, then any part of the pending
  writes, possibly followed by a tail whose removal was not yet durable. The class `File`
  performs the calls one by one, each free to fail, and its methods are proved to follow the
  plans. The file lock makes one such call atomic against other processes.
- JSON text and UUID text are a parameter (`Wire`) that is only assumed to be faithful: parsing
  inverts printing and printed text holds no raw newline byte, as section 7 of RFC 8259
  requires of control characters. In the stream decoder UTF-8 and JSON decoding are arbitrary
  functions; where lines of bytes are compared with lines of text, UTF-8 is assumed to do what
  it promises of bytes below 128 (`SseFrames.IsUtf8`): each stands for its own character and for
  no part of another. For what the server writes, both are assumed to be read back, and JSON text
  to escape control characters and to begin with no white space (`SseRoundTrip.Reads`).
- The outbox read returns unacknowledged rows in order of sequence, and the acknowledgement
  deletes through a sequence, as `storage.rs` does.
- The observer runs beside a server that changes state first and publishes the change
  later. A subscription queues what is published, may lose its oldest events for one
  `resync_required`, and may end at any time. That every committed change is published in
  the end is an assumption: the engine and the server skip the publication when a step after
  the commit fails (`crates/latte-engine/src/lib.rs:767-779`,
  `crates/latte-server/src/http.rs:1114-1124`), and a change so lost counts as still to be
  published for ever.
- The server's side of the event stream is the frames it writes; that the HTTP library puts each
  as an `event:` line, a `data:` line and a blank line is taken from section 9.2.6 of the WHATWG
  HTML Standard.
- Each ledger write is one database transaction that either happens or changes nothing.
  Approval digests are a function of what they cover; it is assumed injective only where a
  lemma says so. Clocks, storage failures, the executor's outcome and what other processes do
  in the meantime are parameters.
- Machine integers: sequences, revisions and byte counts are below 2^64, and the products in
  the compaction trigger wrap as a release build does.

## What was found on the way

- A file torn inside its header is never repaired: every later call fails and leaves it as it
  is (`LogRecovery.TornHeaderIsNeverRepaired`).
- The writer has no file limit, the reader has: one record that fits can put a log beyond
  every later call (`SyncRefinement.LastFittingRecordCanLockTheLog`). An oversized record stays
  in the outbox and blocks what follows it (the exact condition is `Outbox.WhenADrainSucceeds`).
- A page beyond the last entry carries no cursor, so a client that polls with the answer starts
  over (`Paging.CursorLostExactlyOnEmptyPage`, `Paging.PollingPastTheEndRepeats`).
- The stream decoder departs from section 9.2.6 of the WHATWG HTML Standard. For the event
  name and data of a frame the departures are stated exactly by
  `SseFrames.FrameAgreesExactly`: white space beyond one space before a name or a value or
  behind a name, field lines without a colon, and empty values in front of others. For the
  cutting of lines they are stated exactly by `SseFrames.LinesAgreeExactly` on text and
  `SseFrames.ByteLinesAgreeExactly` on bytes: carriage returns that no newline follows. Besides,
  the decoder stops at a line that is not UTF-8 where the standard substitutes, and it knows
  neither the byte order mark nor `id` and `retry`.
- Validation puts no bound on budgets; with a huge one the compaction trigger's product wraps
  (`ContextBudget.TriggerSoundExactlyWhen`, `ContextBudget.HugeBudgetMisfires`); with a use beyond
  about 1.8e17 tokens the use's product does (`ContextBudget.TriggerSoundForAllExactlyWhen`).
- A session start repeated under its own command is answered Ok again, so a caller that may
  have lost the first reply must not take the second one as new authority
  (`SessionEffects.RepeatedStartIsAnsweredAgain`). Of the starts answered Ok, exactly those
  under a new command started something (`SessionEffects.StartedExactlyWhenNew`).
- `docs/design/data-storage.md` shows records of type "message"; the code writes and reads
  "entry". The model follows the code.

## Model

| member | source | states |
|---|---|---|
| Lines.LinesOfRecord | crates/latte-engine/src/conversation.rs:190-192 | the first line of a record followed by anything is that record, and the rest splits as before: no split inside a record |
| Lines.CutDropsTheTornTail | crates/latte-engine/src/conversation.rs:180-189 | cutting after the last newline keeps every whole line and nothing of the torn one |
| Lines.EmptyLinesAreDropped | crates/latte-engine/src/conversation.rs:190-192 | a newline in front of a line ends an empty one, which the reader passes over |
| LogRecovery.KindRoundTrip | crates/latte-engine/src/conversation.rs:252-258 | every card kind is read back from the name it is written under |
| LogRecovery.ReadLineOfEntryText | crates/latte-engine/src/conversation.rs:209-282 | a written record is read back as its entry under its written id, behind any record of lower sequence |
| LogRecovery.ReadBodyOfEntry | crates/latte-engine/src/conversation.rs:231-282 | id, turn, kind, text, payload, source key and time survive the record; a null payload becomes none |
| LogRecovery.HeaderRoundTrip | crates/latte-engine/src/conversation.rs:193-205 | the header the writer writes passes the reader's identity check |
| LogRecovery.ReadWholeOfLog | crates/latte-engine/src/conversation.rs:190-284 | reading a whole log gives its entries with the ids they were written under |
| LogRecovery.CutLogShape | crates/latte-engine/src/conversation.rs:180-189 | after a cut past the header, the repaired bytes are the log of the surviving entries |
| LogRecovery.CutLogRecovers | crates/latte-engine/src/conversation.rs:168-285 | cutting a log at any byte past its header makes the reader return exactly the entries whose newline survived, and leaves their log |
| LogRecovery.WriteThenRead | crates/latte-engine/src/conversation.rs:90-104 | write then read is the identity on every rising list within the limits, up to null payloads |
| LogRecovery.TornHeaderIsNeverRepaired | crates/latte-engine/src/conversation.rs:180-184 | a file torn inside its header is an error for readers and writers and no call changes it |
| LogRecovery.RunOfRepair | crates/latte-engine/src/conversation.rs:185-188 | the repair operations leave exactly the cut bytes, durably |
| FileReading.ReadsWhatTheFileSays | crates/latte-engine/src/conversation.rs:168-285 | what is read from any file, exactly: within 64 MiB and up to its last newline, a header naming this session and workspace, then lines of at most 2 MiB saying the entries under rising sequences; anything else is an error |
| FileReading.OlderFilesRead | crates/latte-engine/src/conversation.rs:232-251 | a file some or all of whose records spell the turn as `run_id`, with `turn_id` absent or null, reads back as the same entries with the same turns; where both stand, `turn_id` wins |
| FileReading.LineRefusedBecause | crates/latte-engine/src/conversation.rs:207-282 | what is wrong with a line that is refused, by the error it gives |
| FileReading.ForeignLogIsRefused | crates/latte-engine/src/conversation.rs:199-205 | the log of another session, or of this one in another workspace, is refused |
| FileReading.WrittenHeaderSays | crates/latte-engine/src/conversation.rs:61-67 | the header written says session, workspace, version and creation time |
| SyncRefinement.AppendVerdict | crates/latte-engine/src/conversation.rs:72-105 | the append loop succeeds if and only if every old entry is present under the same id and every newer record fits |
| SyncRefinement.AppendRefusedBecause | crates/latte-engine/src/conversation.rs:74-101 | a refused batch names the first entry that is neither recorded under its id nor new and within the limit, and why |
| SyncRefinement.AppendLeaves | crates/latte-engine/src/conversation.rs:74-104 | stopped anywhere, the append loop leaves a prefix of the log being built |
| SyncRefinement.SyncOnLog | crates/latte-engine/src/conversation.rs:41-106 | on a log cut anywhere past its header, sync is "append what is newer": the exact success condition and the exact durable result |
| SyncRefinement.SyncOnLogLeaves | crates/latte-engine/src/conversation.rs:41-106 | however sync stops there, the file is untouched or a prefix of that result extending what survived |
| SyncRefinement.SyncOnEmpty | crates/latte-engine/src/conversation.rs:54-70 | on an empty file sync succeeds exactly for a non-empty batch that fits, and makes its log durable |
| SyncRefinement.SyncOnEmptyLeaves | crates/latte-engine/src/conversation.rs:54-105 | however it stops on an empty file, a prefix of the batch's log is left, and the header is durable before an entry is written |
| SyncRefinement.SyncRebuildsTheLog | crates/latte-engine/src/conversation.rs:71-105 | syncing the outstanding entries rebuilds a cut log byte for byte |
| SyncRefinement.AgreesWithSuffix | crates/latte-engine/src/conversation.rs:75-83 | any run of the same history agrees with any prefix of it: stale and repeated batches are never refused as foreign |
| SyncRefinement.StoppedSyncLosesNothing | crates/latte-engine/src/conversation.rs:71-105 | after a failed or killed sync within the file limit the next reader gets the surviving log, possibly with the first of the newer entries behind it |
| SyncRefinement.ReadAfterSync | crates/latte-engine/src/conversation.rs:108-115 | what a successful sync leaves can be read exactly while it is within the reader's file limit |
| SyncRefinement.LastFittingRecordCanLockTheLog | crates/latte-engine/src/conversation.rs:174-176 | one fitting record past the file limit is accepted and then blocks every later call |
| SessionFile.File.Write | crates/latte-engine/src/conversation.rs:292-293 | a write puts its bytes at the cursor, or fails having put any prefix of them |
| SessionFile.OverwrittenAt | crates/latte-engine/src/conversation.rs:292-293 | byte by byte, the data stand where they were written and everything around them is as it was |
| SessionFile.File.SetLen | crates/latte-engine/src/conversation.rs:186 | truncation keeps exactly the first bytes, or fails and changes nothing |
| SessionFile.File.SyncData | crates/latte-engine/src/conversation.rs:187 | a successful fsync makes the content durable; content never changes |
| SessionFile.WriteRecord | crates/latte-engine/src/conversation.rs:287-294 | the record and its newline reach the end of the file, or the file is left inside that plan; an oversized record writes nothing |
| SessionFile.ReadRecords | crates/latte-engine/src/conversation.rs:206-284 | the reading loop computes the transcript and the id map the specification gives, with the same errors |
| SessionFile.RepairAndRead | crates/latte-engine/src/conversation.rs:168-285 | repair then read, in place, follows the repair plan and returns what the repaired bytes hold |
| SessionFile.Read | crates/latte-engine/src/conversation.rs:108-115 | a reader follows the repair plan and returns the recovered entries |
| SessionFile.AppendRecords | crates/latte-engine/src/conversation.rs:74-104 | the in-place append loop follows the append plan, errors included |
| SessionFile.Resume | crates/latte-engine/src/conversation.rs:71-105 | repair, seek, append, fsync follow the resume plan |
| SessionFile.Sync | crates/latte-engine/src/conversation.rs:41-106 | the whole call follows the sync plan: Ok only with every operation done, otherwise stopped inside it |
| SessionFile.ReadsIncreasing | crates/latte-engine/src/conversation.rs:208-230 | whatever is read back has sequences that rise strictly from above 0 |
| SessionFile.LastIsGreatestKey | crates/latte-engine/src/conversation.rs:72 | the greatest key of the id map is the sequence of the last record read |
| SessionFile.ReadEntriesIncrease | crates/latte-engine/src/conversation.rs:227-230 | the reader refuses sequence 0 and any that does not rise, so the entries it returns are increasing |
| Outbox.StepKeepsInv | crates/latte-engine/src/lib.rs:708-730 | every commit, outbox read, sync, crash, acknowledgement, reader and power cut keeps the invariant |
| Outbox.NothingIsLost | crates/latte-engine/src/lib.rs:708-730 | in every interleaving the outbox is a suffix of the committed history, and what a power cut leaves reads back as an in-order, duplicate-free prefix reaching it |
| Outbox.EveryEntrySomewhere | crates/latte-engine/src/lib.rs:721-728 | each committed entry is in the outbox or in its place in the durable file |
| Outbox.WhenADrainSucceeds | crates/latte-engine/src/conversation.rs:53-105 | the exact condition, in the file's size and the records' sizes, under which a worker's batch, however stale, is accepted |
| Outbox.ReadableSizeSuffices | crates/latte-engine/src/conversation.rs:173-205 | in every reachable state a file past its header and within the limit is readable |
| Outbox.OneDrainFinishes | crates/latte-engine/src/lib.rs:721-728 | one undisturbed drain makes the file the whole history, durably, and empties the outbox |
| Outbox.AcknowledgedSuffix | crates/latte-engine/src/storage.rs:2178-2189 | acknowledging a batch deletes exactly the rows up to its end, also when another worker already did |
| Outbox.OkMakesDurable | crates/latte-engine/src/lib.rs:721-728 | a sync that returned Ok has every entry of its batch durable, which is what makes the acknowledgement safe |
| Outbox.SurvivingBytes | crates/latte-engine/src/conversation.rs:69-105 | whatever a power cut leaves is a prefix of the full log holding what both the content and the durable bytes held |
| Engine.SessionEngine.SyncSession | crates/latte-engine/src/lib.rs:708-730 | fsync before acknowledge: Ok empties the outbox it read; an error leaves every row, and one of the database leaves the file untouched or synced whole |
| Engine.SessionEngine.ReadOutbox | crates/latte-engine/src/storage.rs:2164-2176 | the outbox is read whole, or the database fails and nothing changes |
| Engine.SessionEngine.Acknowledge | crates/latte-engine/src/storage.rs:2178-2189 | the rows through a sequence are deleted, or the database fails and all are kept |
| Engine.SessionEngine.ConversationPage | crates/latte-engine/src/lib.rs:732-765 | a page is cut from the entries recovered after the drain: the newest ones, or the oldest ones newer than the cursor, as many as the limit taken as 1 to 500 |
| Engine.Cut | crates/latte-engine/src/lib.rs:744-764 | the truncate and split on what the loop retained give exactly that page |
| Engine.Retain | crates/latte-engine/src/lib.rs:756 | the retain loop keeps exactly the entries newer than the cursor, in order |
| HistoryPages.ReadFromZero | crates/latte-engine/src/lib.rs:755-756 | whatever a file holds, paging from 0 skips nothing that can be read |
| HistoryPages.AckedGrows | crates/latte-engine/src/lib.rs:725-728 | over any run the acknowledged part of the history never shrinks, whatever is cut or crashes |
| HistoryPages.DrainCovers | crates/latte-engine/src/lib.rs:720-728 | what a page's drain has acknowledged reaches everything committed when it read the outbox, whatever other workers and power cuts did in between |
| HistoryPages.FoundIsHistory | crates/latte-engine/src/lib.rs:743-744 | at any moment of a run a readable file gives the first so many committed entries, the acknowledged ones among them |
| HistoryPages.PageFindsHistory | crates/latte-engine/src/lib.rs:743-744 | what a page is cut from holds everything committed before its own drain began, in order |
| HistoryPages.FoundGrows | crates/latte-engine/src/lib.rs:743-744 | a later page is never cut from less than an earlier one, though the file may have been cut in between |
| HistoryPages.FollowingCollectsTheHistory | crates/latte-engine/src/lib.rs:732-765 | a client following pages while the session goes on, power cuts included, collects the committed history, each entry once and in order; once told there is no more it holds everything committed before the last page was asked for |
| Paging.TailPageIsTail | crates/latte-engine/src/lib.rs:744-753 | the tail page is the last n entries of the log, n the smaller of its length and the limit taken as 1 to 500; it says there is more exactly when n is less, and its cursor is the last sequence of the log |
| Paging.ForwardPageIsForward | crates/latte-engine/src/lib.rs:755-764 | the forward page is as many entries from the first one newer than the cursor on, says whether any is left behind them, and its cursor is its last sequence |
| Paging.OnePage | crates/latte-engine/src/lib.rs:755-764 | a page extends a held prefix to the next page end and says whether more is left |
| Paging.FollowingCollectsTheLog | crates/latte-engine/src/lib.rs:732-765 | following `next_after` collects every entry once and in order, for any limit and while entries are appended; each page with entries left moves forward |
| Paging.PagesNeeded | crates/latte-engine/src/lib.rs:757-763 | on a quiet log page p ends at entry p times the bounded limit, and the last page says so |
| Paging.ZeroIsTheStart | crates/latte-engine/src/lib.rs:755-756 | on increasing entries starting at 0 skips nothing |
| Paging.CursorLostExactlyOnEmptyPage | crates/latte-engine/src/lib.rs:759 | a page carries no cursor exactly when nothing is newer |
| Paging.PollingPastTheEndRepeats | crates/latte-engine/src/lib.rs:755-763 | a client that polls on with the empty page's answer is given the first entry again |
| Paging.NewestCard | crates/latte-engine/src/lib.rs:288-293 | the card chosen is a summary and no later entry is one |
| Paging.WindowIsASuffix | crates/latte-engine/src/lib.rs:288-319 | with a card the window is a suffix: exactly what is at or above the card, or above the sequence the card names; it is idempotent |
| Paging.WindowWithoutCard | crates/latte-engine/src/lib.rs:293-303 | without a card the window is the last n entries, n the smaller of the length and the bounded limit, and stable |
| Paging.WindowFollowsAppends | crates/latte-engine/src/lib.rs:304-319 | the window commutes with appending an ordinary entry; a new card starts a new window |
| Sse.TrimStart | crates/latte-code/src/server_client.rs:461 | trimming removes exactly the leading white space |
| Sse.TrimEnd | crates/latte-code/src/server_client.rs:456 | trimming removes exactly the trailing white space |
| Sse.TrimCarriageReturns | crates/latte-code/src/server_client.rs:1088 | exactly the trailing carriage returns are removed |
| Sse.SpacesAre | crates/latte-code/src/server_client.rs:456-461 | white space is the twenty-five characters with the White_Space property of Unicode |
| Sse.NewlineInFront | crates/latte-code/src/server_client.rs:1081-1085 | more bytes behind a complete line do not change it |
| Sse.EventStream.TakeLine | crates/latte-code/src/server_client.rs:1084-1090 | one complete line is taken off the buffer and off the decoding: an event, nothing, or malformed |
| Sse.EventStream.DrainLines | crates/latte-code/src/server_client.rs:1079-1092 | draining yields the next event of the decoding, or has consumed all complete lines, or met a line that is not UTF-8 |
| Sse.EventStream.NextEvent | crates/latte-code/src/server_client.rs:1832-1862 | each call gives the next event of the decoding of the whole byte stream, whatever its chunks, then None for ever |
| SseFrames.LineExtendsFrame | crates/latte-code/src/server_client.rs:455-464 | feeding a line to the decoder is adding it to the open frame |
| SseFrames.DecodingIsItsFrames | crates/latte-code/src/server_client.rs:447-466 | decoding gives the events of the finished frames before the first line that is not UTF-8; an unfinished frame gives none |
| SseFrames.AddDataJoins | crates/latte-code/src/server_client.rs:457-462 | data lines are joined by newlines after leading empty values are dropped |
| SseFrames.DataTrimAgreesExactly | crates/latte-code/src/server_client.rs:461 | one trimmed value is the standard's exactly when no white space follows the one space it removes |
| SseFrames.NameAgreesExactly | crates/latte-code/src/server_client.rs:455-456 | over every frame the event name is the standard's exactly when the last line naming it has nothing more to trim, or lacks its colon and no earlier name is kept |
| SseFrames.DataAgreesExactly | crates/latte-code/src/server_client.rs:457-462 | over every frame the data are the standard's exactly when no value has more to trim and of several none lacks its colon and the first is not empty |
| SseFrames.FrameAgreesExactly | crates/latte-code/src/server_client.rs:448-465 | over every frame name and data are the standard's exactly under both conditions |
| SseFrames.TidyFrameGivesTheEvent | crates/latte-code/src/server_client.rs:422-437 | such a frame gives the event a conforming parser would, or none with it |
| SseFrames.PaddedNameDiffers | crates/latte-code/src/server_client.rs:456 | with two spaces before a name the decoder gives the name where the standard keeps a space |
| SseFrames.LinesAgreeExactly | crates/latte-code/src/server_client.rs:1081-1088 | the lines cut are the standard's exactly when every carriage return is followed by a newline |
| SseFrames.DecodedLinesAre | crates/latte-code/src/server_client.rs:1081-1088 | on a stream that is UTF-8 the lines the decoder is given are those of the text its bytes decode to |
| SseFrames.PairedTogether | crates/latte-code/src/server_client.rs:1081-1088 | every carriage return byte has its newline exactly when every carriage return of the text has |
| SseFrames.ByteLinesAgreeExactly | crates/latte-code/src/server_client.rs:1081-1088 | from the bytes of a UTF-8 stream the decoder cuts the standard's lines exactly when every carriage return byte is followed by a newline byte |
| SseRoundTrip.EveryEventSentIsReceived | crates/latte-server/src/http.rs:1362-1381 | whatever sequence of events, notices to resynchronise and keep-alive comments the server puts on a stream, the client decodes exactly the events meant, in order |
| SseRoundTrip.FrameGivesExactly | crates/latte-code/src/server_client.rs:419-437 | a frame gives an event exactly when it bears the event's name and its data are JSON with the event's own fields |
| Observer.LatestTurn | crates/latte-code/src/server_client.rs:356-358 | the latest turn is one of the turns, none has a greater ordinal, and only an empty list has none |
| Observer.StepKeepsInv | crates/latte-code/src/server_client.rs:817-913 | every move of client, server and network keeps the client informed or about to be |
| Observer.NoLostWakeUp | crates/latte-code/src/server_client.rs:825-907 | while the client listens and the session is terminal, a wake-up or the stream's end is unread, or the change is still to be published; through every reconnect |
| Observer.WhatIsReturnedAndPrinted | crates/latte-code/src/server_client.rs:330-353 | a terminal result is about a snapshot that one of the client's own checks fetched: completed or denied exactly when the session is ready and its latest turn ended so, waiting, interrupted or to be reconciled exactly when its life cycle says so, failed otherwise; what was printed stands at increasing positions of what was read, exactly the session's own progress that renders |
| Observer.ClassifiedAsMeant | crates/latte-code/src/server_client.rs:330-358 | a session is classified exactly when it is not running, as what the outcome means; the latest turn has no earlier one of greater ordinal and every later one of smaller |
| Observer.ChecksGoOnWhileRunning | crates/latte-code/src/server_client.rs:913-919 | a check ends the observation exactly when the session it fetched is not running |
| Observer.EveryCheckHasItsCause | crates/latte-code/src/server_client.rs:817-911 | until it is done the client checks once at first, once behind each subscription, once for each change or call to resynchronise it read and for each end of a stream, and for nothing else; it subscribes again only after a back-off |
| Observer.SettledStays | crates/latte-code/src/server_client.rs:846-913 | once the session stays terminal no move of the server or the network takes the client further from its end |
| Observer.SettledAdvances | crates/latte-code/src/server_client.rs:846-913 | every move of the client then brings it nearer |
| Observer.SettledIsNeverStuck | crates/latte-code/src/server_client.rs:846-913 | and one is always possible until it has finished |
| Observer.ObserverFinishes | crates/latte-code/src/server_client.rs:846-919 | a listening client then finishes within the events before the first wake-up and two moves more, with the current snapshot and the outcome that says how it ended |
| Turns.ReachableShape | crates/latte-core/src/state.rs:51-185 | the revision counts accepted transitions; pending permission, pending input, failure and handoff exist exactly in their status |
| Turns.NeverMissingPending | crates/latte-core/src/state.rs:82-85 | no run from queued is ever told its pending request is missing |
| Turns.OneAcceptancePerRevision | crates/latte-core/src/state.rs:56-69 | of any number of racing writers at most one is accepted per revision |
| Turns.CancelHolds | crates/latte-core/src/state.rs:122-160 | after a cancellation nothing runs, waits or completes until a Resume and then a Start were accepted |
| Turns.DeadEnds | crates/latte-core/src/state.rs:61-182 | below the last revision the states no attempt can leave are exactly Completed and terminal failures |
| Turns.DeadStaysDead | crates/latte-core/src/state.rs:62-64 | those states never change again |
| Turns.CompletionStaysPossible | crates/latte-core/src/state.rs:70-182 | completion can be reached from exactly the reachable turns that have not failed for good and have the revisions left that the shortest way out takes |
| Turns.RunShortens | crates/latte-core/src/state.rs:51-185 | no run of attempts brings a turn nearer to completion than its accepted transitions are many |
| Turns.AnswersTheLastQuestion | crates/latte-core/src/state.rs:78-106 | an accepted answer names the permission asked for last, across refreshes |
| Turns.CompletedWasAdmitted | crates/latte-core/src/state.rs:161-180 | a completed turn holds the handoff of its last accepted transition; if its policy asked for verification there is evidence and every piece of it passed |
| Turns.UnverifiedEndsTheTurn | crates/latte-core/src/state.rs:163-179 | an accepted completion that must be verified, with no evidence or a piece that did not pass, fails the turn, and no later run of attempts changes it |
| Turns.DeniedEndsTheTurn | crates/latte-core/src/state.rs:89-99 | a denied permission fails the turn for good |
| Turns.StateFollowsFromTheLog | crates/latte-core/src/state.rs:51-185 | over every run the whole state of a turn follows from the transitions it accepted |
| Turns.AcceptedExactlyWhen | crates/latte-core/src/state.rs:51-185 | over every run an attempt is accepted exactly when it names the number of transitions accepted so far, the counter is not exhausted, and its transition may follow the last one |
| Turns.RefusedBecause | crates/latte-core/src/state.rs:56-183 | what a refusal says: a stale revision first, then a completed turn, then an exhausted counter, then another question than the open one, else the status |
| Ledger.TransactionsMoveForward | crates/latte-engine/src/storage.rs:4301-4371 | preparing, starting and recovering never remove an effect or take it back |
| Ledger.RecoveryLeavesNothingStarted | crates/latte-engine/src/storage.rs:4599-4602 | recovery makes unknown exactly what the turn had started and leaves everything else |
| Ledger.SettlingMovesForward | crates/latte-engine/src/storage.rs:4239-4276 | nor does recording an outcome |
| Ledger.ReplacingMovesForward | crates/latte-engine/src/storage.rs:4373-4405 | nor does replacing a prepared effect whose lease is gone |
| EffectGate.BeginMovesForward | crates/latte-engine/src/lib.rs:888-938 | authority is given only for an effect that was prepared until then and is started now under the exact digest |
| EffectGate.AsksExactlyWhen | crates/latte-engine/src/lib.rs:904-925 | a call asks for permission exactly when policy says so, no approval came along, the turn is two revisions before the one asked for under the live lease, and effect and digest are new; it leaves a prepared effect and an unused capability, nothing else |
| EffectGate.AllowedStartsExactlyWhen | crates/latte-engine/src/process.rs:563-590 | an allowed process is given authority exactly when the turn is at its revision and effect and digest are new, under a capability made and used for it |
| EffectGate.ApprovedChangesOnly | crates/latte-engine/src/lib.rs:926-938 | an approved call starts its effect and uses up its capability, nothing else; a refused one changes nothing |
| EffectGate.UnledgeredExactlyWhen | crates/latte-engine/src/lib.rs:890-903 | only a tool that policy allows outright runs past the ledger, and leaves it alone |
| EffectGate.RefusedBecause | crates/latte-engine/src/lib.rs:889-938 | what a refusal says of its cause, and that it changed nothing but for an allowed process prepared and not started |
| EffectGate.RunMovesForward | crates/latte-engine/src/storage.rs:4239-4405 | over any stretch of a run no effect disappears or goes back |
| EffectGate.ReissuesExactlyWhen | crates/latte-engine/src/lib.rs:968-1001 | a permission is asked for again exactly when policy still asks, the turn and lease are in order and the old one waits unused under another lease; the old one is closed and the new one bound like any other |
| EffectGate.ReissuedNeverStarts | crates/latte-engine/src/storage.rs:4373-4405 | a permission asked for again never gives authority under its old effect id, whatever happens later |
| EffectGate.AtMostOnce | crates/latte-engine/src/lib.rs:880-966 | over every interleaving of calls, retries, crashes and recoveries no effect id reaches the executor twice, each under the digest of exactly what is executed |
| EffectGate.WhatTheReplyMeans | crates/latte-engine/src/lib.rs:939-965 | output is answered exactly when success was recorded, an error names how the execution ended, and a call that could write its record leaves no started row |
| EffectGate.RecordedAsItEnded | crates/latte-engine/src/lib.rs:939-965 | over every run what the gate recorded of an effect is how its one execution ended: unknown for a tool that failed on a file or a path, a cancelled process and a failed supervision, failed for any other tool error, success for the rest; what it settled as failed never ended uncertainly, and only an unknown row changes again |
| EffectGate.WhenTheRecordIsLost | crates/latte-engine/src/storage.rs:4239-4276 | the exact condition under which the record of an outcome is refused, and otherwise that the row says how the execution ended and nothing else changed |
| EffectGate.AskedThenStarted | crates/latte-engine/src/lib.rs:898-938 | over every run, for tools and processes, what must be asked for gets authority exactly when the permission last asked for under its effect id was for this form and lease, is still open, and approval, turn, lease and database are in order |
| EffectGate.RunKeepsAsked | crates/latte-engine/src/storage.rs:4301-4405 | over every run each capability of an unlinked turn was made for what its effect id was last asked for, or for an operation that needs no permission |
| EffectGate.Gate.WriteRecord | crates/latte-engine/src/lib.rs:939-964 | a recorded outcome found the started row and changed its status alone, to the one that says how the execution ended; a sequencing error changes nothing |
| EffectGate.Gate.AskPermission | crates/latte-engine/src/lib.rs:904-925 | without an approval the effect is prepared and the exact digest returned, or nothing changes |
| EffectGate.Gate.ConsumeApproval | crates/latte-engine/src/lib.rs:926-938 | an approval must be the exact digest and is used up by the start |
| EffectGate.Gate.PrepareAndStart | crates/latte-engine/src/process.rs:563-590 | an allowed process is prepared, then started, or stopped in between |
| EffectGate.Gate.RunAndRecord | crates/latte-engine/src/lib.rs:939-965 | with authority the executor is reached once and the outcome recorded after whatever others did meanwhile |
| EffectGate.Gate.ExecuteTool | crates/latte-engine/src/lib.rs:880-966 | one tool call is a run of the gate's state machine with the same reply; the executor is reached at most once, and how it ended is then on record |
| EffectGate.Gate.ExecuteProcess | crates/latte-engine/src/process.rs:497-644 | one process call is such a run too, with an allowed process prepared and started first |
| SessionEffects.CommitIsItsUpdate | crates/latte-engine/src/storage.rs:2813-2950 | a commit changes the effect tables and the turn as its update says, once, and only at the expected revision; a replay changes nothing |
| SessionEffects.Asking | crates/latte-engine/src/lib.rs:1691-1754 | an effect that must be asked for is bound two revisions ahead, under the asking lease |
| SessionEffects.Allowing | crates/latte-engine/src/storage.rs:3272-3380 | an allowed effect is rebound to the answering lease at the revision it may start at |
| SessionEffects.FromAskToStart | crates/latte-engine/src/lib.rs:1703-1840 | from asking through answering to starting: started at r + 2 by the answering holder under the recomputed digest and by nobody else; rebinding changes the digest only if the holder changed |
| SessionEffects.StartedOnce | crates/latte-engine/src/storage.rs:3030-3111 | over any run each effect is started once at most |
| SessionEffects.StartsOnlyAsBound | crates/latte-engine/src/lib.rs:1815-1867 | an effect starts only at the revision, under the holder and in the form it was bound to last, whatever happened in between |
| SessionEffects.StartsExactlyAsBound | crates/latte-engine/src/lib.rs:1815-1867 | over every run a start under a new command is accepted exactly when the effect is bound to this form, revision and holder, waits prepared under this digest with its question unused, policy still knows it, the turn runs with nothing pending, and the command's revisions, scope, lease and tokens are in order |
| SessionEffects.RepeatedStartIsAnsweredAgain | crates/latte-engine/src/storage.rs:2824-2841 | a start repeated under its own command is answered as before and starts nothing |
| SessionEffects.StartedExactlyWhenNew | crates/latte-engine/src/storage.rs:2824-2841 | of the starts answered Ok exactly those under a new command and source moved a prepared row to started |
| SessionCommits.PreparedExactlyWhen | crates/latte-engine/src/lib.rs:1691-1754 | an effect is prepared under a new command exactly when policy knows it, the fences hold, the turn runs and effect and digest are new |
| SessionCommits.AllowedExactlyWhen | crates/latte-engine/src/storage.rs:3272-3380 | a permission is allowed under a new command exactly when the fences hold, the open question is about the effect, and it waits prepared and unused, bound to the next revision |
| SessionCommits.DeniedExactlyWhen | crates/latte-engine/src/storage.rs:3381-3411 | it is denied exactly when the fences hold and the open question is about it |
| SessionCommits.OutcomeIsRecorded | crates/latte-engine/src/storage.rs:3112-3143 | an outcome is recorded exactly when the fences hold, the turn runs and the row is started under its digest; the row says success or failure as reported and nothing else changed |
| SessionCommits.UnknownIsRecorded | crates/latte-engine/src/storage.rs:3144-3179 | an unknown outcome is recorded exactly when the fences hold, the row is started and the turn can be cancelled; the turn ends interrupted, two revisions on |
| SessionCommits.EveryCommitLeaves | crates/latte-engine/src/storage.rs:3741-3832 | every accepted commit counts the session revision, remembers its answer, and keeps lease and active turn under its token, or gives both up if it ended the turn |
| SessionCommits.EndedTurnTakesNoCommit | crates/latte-engine/src/storage.rs:3741-3786 | a turn that ended takes no commit under a new command, whoever holds the lease next |
| SessionCommits.RepeatedOrRefused | crates/latte-engine/src/storage.rs:2824-2852 | a request repeated is answered as the first time and changes nothing; another under the same command or for the same source is refused |
| SessionStore.Store.ApplyPrepare | crates/latte-engine/src/storage.rs:2971-3029 | the statements of a preparation, in order, are the specified update |
| SessionStore.Store.ApplyResolve | crates/latte-engine/src/storage.rs:3272-3411 | the statements of an answer, rebinding or denial included, are the specified update |
| SessionStore.Store.ApplyStart | crates/latte-engine/src/storage.rs:3030-3111 | the statements of a start consume the capability and start the row as specified, or fail |
| SessionStore.Store.ApplyMarkUnknown | crates/latte-engine/src/storage.rs:3144-3179 | an uncertain outcome settles the row and interrupts the turn through Cancel |
| SessionStore.Store.CommitTurnUpdate | crates/latte-engine/src/storage.rs:2813-3834 | a commit is answered from the replay table, applied whole or rolled back whole |
| SessionStore.Store.PrepareSession | crates/latte-engine/src/lib.rs:1691-1754 | a new accepted preparation adds one effect bound ahead and, if it must be asked for, its capability and the question; anything else changes nothing |
| SessionStore.Store.ResolveSession | crates/latte-engine/src/lib.rs:1759-1811 | a new accepted answer rebinds the prepared effect to the current lease at the next revision, or closes it unexecuted; anything else changes nothing |
| SessionStore.Store.StartSession | crates/latte-engine/src/lib.rs:1815-1867 | a new accepted start found the row prepared under this digest and its capability unused for this holder and revision, and leaves them started and consumed; anything else changes nothing |
| ContextBudget.Tokens | crates/latte-core/src/profile.rs:142-144 | the estimate is the least number of tokens that holds the bytes |
| ContextBudget.ValidExactlyWhen | crates/latte-core/src/profile.rs:235-269 | a policy is valid exactly when its budgets leave room, its limits are positive and an active compaction triggers and retains within bounds |
| ContextBudget.ComplaintHasItsCause | crates/latte-core/src/profile.rs:235-269 | a complaint names something that is wrong |
| ContextBudget.BudgetIsTheGreatest | crates/latte-core/src/profile.rs:276-281 | the budget is the greatest size that a request may have and that leaves the reserved output its room |
| ContextBudget.UsageBalances | crates/latte-core/src/profile.rs:235-316 | a validated budget is positive, used and remaining add up, in tokens up to one exactly when both parts end in a partial token that one token would hold |
| ContextBudget.TriggerIsMonotone | crates/latte-core/src/profile.rs:299-302 | more use never disarms the trigger while the use's own product fits, whatever the budget |
| ContextBudget.TriggerTracksTheRatio | crates/latte-core/src/profile.rs:299-302 | the trigger is within one token of the byte ratio, both ways |
| ContextBudget.TriggerSoundExactlyWhen | crates/latte-core/src/profile.rs:299-302 | the budgets for which every use whose own product fits 64 bits is compared as meant, exactly |
| ContextBudget.TriggerSoundForAllExactlyWhen | crates/latte-core/src/profile.rs:299-302 | the budgets for which every use a 64-bit count can name is compared as meant, exactly: the product fits and is no more than any use's own product can wrap to |
| ContextBudget.HugeBudgetMisfires | crates/latte-core/src/profile.rs:235-270 | a policy that validates and whose trigger an empty window arms |
| ConfigMerge.MergeValueAt | crates/latte-code/src/lib.rs:537-559 | the recursive merge gives the specified document in whatever order the keys come, and restores the path stack |
| ConfigMerge.Document.Apply | crates/latte-code/src/lib.rs:533-535 | merging into a document in place is the specified merge from the root |
| ConfigMerge.ApplyLayers | crates/latte-code/src/lib.rs:355 | applying layers one after the other is folding the merge |
| ConfigMerge.MergeWithItself | crates/latte-code/src/lib.rs:537-559 | a document merged with itself is unchanged |
| ConfigMerge.MergeTwice | crates/latte-code/src/lib.rs:537-559 | an overlay merged twice is the overlay merged once |
| ConfigMerge.MergeSeenFromAPath | crates/latte-code/src/lib.rs:537-559 | where the two documents part on a path, everything below is the base's if the overlay lacks the key and the overlay's otherwise |
| ConfigMerge.MergeAtASharedPath | crates/latte-code/src/lib.rs:537-559 | along shared objects the keys of both are kept, and any other value is the overlay's |
| ConfigMerge.LastCatalogWins | crates/latte-code/src/lib.rs:541-547 | after any layers whatever a provider's models are those of the last layer that lists some or puts something that is no object in their way |
| ConfigMerge.MergedCatalog | crates/latte-code/src/lib.rs:541-559 | one layer decides a provider's catalog whole or leaves it as it was |
| ConfigMerge.ProperLayersList | crates/latte-code/src/lib.rs:541-547 | if no later layer lists models or is in the way, a listed catalog is the result whole |
| BoundedDrain.Pipe.Read | crates/latte-engine/src/process.rs:782 | a read fills the buffer with the front of what is still to come |
| BoundedDrain.Drain | crates/latte-engine/src/process.rs:774-791 | exactly the first cap bytes are kept, and truncated is reported exactly when there were more |

## Left out

- SQLite itself, schema migrations, legacy import, and the conversion of integers beyond the
  signed 64-bit column range, which the code refuses.
- Lease acquisition, renewal and release: the ledger and session models let leases change
  hands in any way between transactions.
- Recovery and reconciliation edit a turn's state without its transition function; the turn
  module covers the states that function reaches, the effect modules allow any turn change.
- What `reissue_tool_permission` answers its caller; its effect on the ledger is a step of the gate.
- EffectGate.AskedThenStarted: takes policy to be a function of the operation, and assumes that no
  writer but the gate makes capabilities for turns outside a session.
- The commit path's transcript appends, session life cycle names, events and checkpoints, and
  the limits on ids and digests.
- `execute_started_session_effect`: what happens between a session's start and its observation
  is not modelled beyond the reports it leads to.
- Other sessions' effects share the effect table; a clash of ids with one of them is not modelled
  for session turns.
- SessionEffects.FromAskToStart: speaks of commits under new command ids and source keys; a
  replayed command is covered by `SessionEffects.RepeatedStartIsAnsweredAgain`.
- ConfigMerge.MergeValueAt: takes and returns the value that the code updates through a mutable
  reference; aliasing inside the document is not captured.
- Observer: the client's loop is a state machine over its steps, since it need not end; HTTP,
  time-outs and the text of progress lines are not modelled, and what a cancelled client tells
  the server is left out.
- JSON numbers are integers, and limits of the JSON parser on nesting are not modelled.
- Unreadable directories, symbolic links, file permissions, foreign workspaces, and the deletion
  of conversation files.
- The directory entry of a newly created conversation file: the code fsyncs the file and not its
  directory (`crates/latte-engine/src/conversation.rs:69`, `crates/latte-engine/src/conversation.rs:149-155`).
  The model assumes that the entry survives a power cut once the file has been created.
- A power cut that writes sectors out of order, or a disk that loses acknowledged fsyncs.
- Redaction of text and payloads, glob policy, path handling, process groups and signals,
  cancellation tokens, SHA-256, UUID generation, terminal output and exit codes.
- BoundedDrain.Drain: the final lossy decoding to text is an arbitrary function of the kept bytes.
- EffectGate.WhatTheReplyMeans: a tool whose policy allows it outright runs without the ledger,
  so the lemma speaks of executions that went through it.
- ContextBudget.TriggerTracksTheRatio: assumes that neither product wraps; which budgets keep the
  comparison sound for every use is `ContextBudget.TriggerSoundForAllExactlyWhen`.
