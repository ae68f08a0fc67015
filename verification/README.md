# OpenStory verification project

OpenStory watches the transcripts of coding agents and turns them into events. This project models its
stateful core and proves what that core guarantees over whole runs. `dafny verify dfyconfig.toml` covers all
of it.

The model follows the code in form. Objects with mutable fields are classes (`SnapshotState`, `Watcher`,
`KqueueWatcher`, `Tally`, `Bucket`, `Context`), loops are loops, and every such method is proved against a
function or a step relation on plain values. The main theorems are then lemmas about those functions and
relations, for every run, input, schedule and choice of the outside world.

* **Snapshot-diff watcher** (`SnapshotWatcher`, `SnapshotRuns`, `SnapshotStarts`, `SnapshotWriter`). A writer overwrites a whole
  JSON snapshot by appending, undoing or compressing to a new session id, and a poller sees some of the
  versions. The diff knows only a session id and a count. The code's documentation calls it "idempotent and
  convergent". Idempotence holds of every state and poll. Convergence does not hold in general: an undo
  followed by regrowth to at least the old count between two polls cannot be seen. It is proved to hold
  if and only if no poll that looks like an append hides a rewrite, with the lost rewrite as a
  counterexample, and the array does not change any more once the watch has ended. For the watch can end: the
  preview in a session start takes the first 500 bytes of the system prompt, and panics if that cuts a
  character; nothing restarts the thread. A watch survives if and only if no poll announces a session with such
  a prompt. Before that, files do not disturb one another; the one such file silences all of them, and a lemma
  gives the input. Results about runs speak of the polls that are handled, which are the ones before that
  (`WatchIsTheLiveRun`, `AllAreHandledExactlyWhen`). A changed session id that is first seen with an empty
  `messages` array gets no session start for as long as the file stays with it. Every message follows its own
  session's start if and only if no poll shows news of a session that it does not announce and that was not
  announced last, a condition on the polls alone. Event ids are made of session, number and subtype; on a run
  that converges, session and number tell messages apart if and only if no place of a session was polled with
  two different messages.
* **kqueue watch table** (`WatchTable`, `WatchRuns`, `WatchEvents`, `WatchHistory`, `KqueueWatcher`). Two inverse maps, a file
  budget with eviction of the idlest file, and ownership of descriptors that the system hands out again once
  closed. One invariant, kept by every operation and so by every run of the event loop, says that the maps
  are inverse, the budget holds, exactly the table's descriptors are open, and no evicted file was active
  later than a watched one. Activity is told by history: a stamp is the time at which a path was last registered
  or written to, so of two files the one used later outlives the other. Every event is answered with a call for the
  file written, with calls for what a rescan adds, or with none. With a budget of zero a granted `register` still inserts its file, which is then the only one.
  Further results describe surprises: a refused registration still evicts, a stale event in a batch can drop a
  newcomer that took over a descriptor, an event acts on whatever its descriptor stands for now, a rescan finds
  the direct children of a directory and nothing deeper, and a path in the table is not opened again even if what
  stood there was deleted and made anew.
* **Incremental file watcher** (`LineReader`, `FileWatcher`, `FileRuns`, `FileLosses`, `FileNumbers`, `Lines`). Per-file offsets in
  a table kept small by forgetting. Every interleaving of writes, notifications, failed reads and evictions moves
  the offsets over exactly the complete lines, once each while a file is not forgotten. What an offset passes need
  not be delivered. The reader moves the offset line by line, and a line that it cannot read makes it drop the
  events it has built, in its own call and in the directory walk around it. A character half written at the end of
  an append is such a line: one notification at that moment loses the complete lines before it, and a lemma gives
  the run. For any file, every complete line before the offset is delivered once and in order if and only if no
  notification finds, on the disk and from the table's offsets, a candidate that cannot be read after having
  passed events of the file. The condition is exact for single files, and for walks during which the table
  cannot overflow; for the others, one direction holds. A forgotten file is replayed, so a lost line may yet come:
  the lines delivered are all those passed if and only if each was passed by some notification that did not fail.
  The events of files that are no transcripts are numbered from 1 without gaps until their file is forgotten.
* **Sequential kernels.** A transcript generator against its validator (`SynthTranscripts`, `Transcripts`), a
  backward chunked tail reader (`TailReader`), turns and inverted indexes against a plain scan
  (`EventGraph`), tiered billing (`TokenUsage`), grouped costs (`CostByModel`), a message splitter
  (`ChunkMessage`) and a box layout (`LayeredLayout`). The tail reader is wrong for some files: blank lines
  count towards the newlines it looks for but are dropped afterwards. Each call, at the code's chunk size or any
  other, is right if and only if it reads to the start or nothing is missed before the first newline it saw; so
  files of at most one chunk are always read right. A file is right for every count under every chunk size if and
  only if no text is followed by two or more blank pieces.

What the outside world does is arbitrary: which versions a poller sees, which descriptor the system returns
and which requests it refuses, in which order a map is walked, which files change, go missing and
come back, and which of them can be read, what the random generator draws.

## Model

| member | source | states |
|---|---|---|
| SnapshotWatcher.Diff | rs/src/snapshot_watcher.rs:75-104 | What is reported as new is always the tail of the array up to its end, never longer than the new count; a snapshot without an array changes nothing |
| SnapshotWatcher.WrapIndexes | rs/src/snapshot_watcher.rs:244-256 | The envelopes are exactly the non-system messages, each under the session id and its index in the snapshot plus one |
| SnapshotWatcher.OneSessionPerBatch | rs/src/snapshot_watcher.rs:222-258 | Everything one poll emits belongs to the session tracked afterwards, the id under which it is published |
| SnapshotWatcher.Envelopes | rs/src/snapshot_watcher.rs:235-256 | The emitting loop gives the announcement, if due, and then the envelopes of the new messages; its sequence subtraction never goes below zero |
| SnapshotWatcher.SnapshotState.constructor | rs/src/snapshot_watcher.rs:57-63 | A new state has seen no messages, and its translator belongs to the same session |
| SnapshotWatcher.SnapshotState.DiffSnapshot | rs/src/snapshot_watcher.rs:75-104 | The object's diff, updating in place, is the diff on values |
| SnapshotWatcher.SnapshotState.TakeIn | rs/src/snapshot_watcher.rs:213-258 | Diff, session-change test, emission and the translator's update together are one step of the model, or a panic, after the diff, exactly if a start is due and its preview would cut a character |
| SnapshotWatcher.IsSessionFileExactlyWhen | rs/src/snapshot_watcher.rs:188-196 | The three name tests pass exactly for names made of `session_`, anything, and `.json`; the test for a leading dot never decides |
| SnapshotWatcher.Watcher.Entry | rs/src/snapshot_watcher.rs:218-220 | The state of a path is found, or created once for its first session, without sharing between paths |
| SnapshotWatcher.Watcher.ProcessSnapshot | rs/src/snapshot_watcher.rs:184-259 | Only files named `session_`, anything, `.json` have any effect. One of those fails exactly if unreadable and panics exactly where a due start's preview would cut a character; otherwise its state and lines are those of one step; no other file's state ever changes |
| SnapshotWatcher.Watcher.Advance | rs/src/snapshot_watcher.rs:211-258 | One readable snapshot advances one path's state by the step, or panics, and leaves all others alone |
| SnapshotWatcher.Handle | rs/src/snapshot_watcher.rs:350-366 | Per event at most one batch, never empty, labelled with the session of all its lines; none if the event ends the watch |
| SnapshotWatcher.WatchSnapshots | rs/src/snapshot_watcher.rs:269-374 | The events handled are those before the first that panics, all if none does. Over them, what is sent for `session_<id>.json` in any directory is the run of that path's own polls, nothing is sent for any other name, and every batch is non-empty and labelled with the session of all its lines |
| SnapshotRuns.StateTracksObserved | rs/src/snapshot_watcher.rs:86-103 | After any run the two fields are the id and the array length that the file showed last |
| SnapshotRuns.WatchIsTheLiveRun | rs/src/snapshot_watcher.rs:126-178 | A watch goes on exactly if no poll was a cut start, and its output is that of the polls before the first one |
| SnapshotRuns.SurvivesExactlyWhen | rs/src/snapshot_watcher.rs:174-176 | A watch of one file survives its polls if and only if none announces a session whose prompt has a character across byte 500 |
| SnapshotRuns.AllAreHandledExactlyWhen | rs/src/snapshot_watcher.rs:345-371 | A watch of many files handles all events if and only if none of any file is such a poll, judged by what that file showed before; otherwise those before the first |
| SnapshotRuns.CutPromptEndsTheWatch | rs/src/snapshot_watcher.rs:174-176 | The input: an ordinary first poll with a prompt of 499 letters and a two-byte character emits nothing and ends the watch |
| SnapshotRuns.CutPromptSilencesAllFiles | rs/src/snapshot_watcher.rs:345-371 | Seen first, that file leaves every later event of every file unhandled |
| SnapshotStarts.RunStartsWithStart | rs/src/snapshot_watcher.rs:126-178 | Whatever else is polled, a file's output begins with the start of its first named session, with at most the first 500 bytes of its prompt and all of the rest |
| SnapshotStarts.StartsTell | rs/src/snapshot_watcher.rs:174-176 | Every start ever sent carries the session, the first 500 bytes of the prompt and the rest of some snapshot polled |
| SnapshotStarts.OutputGrows | rs/src/snapshot_watcher.rs:184-259 | No later poll takes back anything sent |
| SnapshotStarts.CutExactlyInsideACharacter | rs/src/snapshot_watcher.rs:174-176 | For a prompt made of UTF-8 characters, the preview is cut, which panics, if and only if the prompt is longer than 500 bytes and no number of its characters ends there |
| SnapshotRuns.ConvergesExactlyWhen | rs/src/snapshot_watcher.rs:75-104 | The consumer's copy equals the polled array after every poll if and only if no handled poll with the same session and no fewer messages hides a rewrite and, from a cut start on, the array stays as it was |
| SnapshotRuns.TranslatorIsFedTheCopy | rs/src/snapshot_watcher.rs:86-103 | On every run, rewrites included, the translator was fed, since its last reset, exactly the non-system messages of the consumer's copy, once each, in order, numbered from 1 |
| SnapshotRuns.TranscriptFollowsTheSession | rs/src/snapshot_watcher.rs:222-258 | The translator always belongs to the tracked session, was fed only its lines, and those end the output |
| SnapshotRuns.HiddenRewriteIsLost | rs/src/snapshot_watcher.rs:86-98 | Any rewrite that leaves the count alone emits nothing and leaves the copy wrong |
| SnapshotRuns.HiddenRegrowthExample | rs/src/snapshot_watcher.rs:86-103 | A concrete run, one message undone and replaced unseen, does not converge |
| SnapshotRuns.Idempotent | scripts/hermes_write_timeline.py:216-218 | Seeing a snapshot a second time changes nothing and emits nothing, in every state |
| SnapshotRuns.MessageLines | rs/src/snapshot_watcher.rs:245-256 | A poll emits exactly its non-system messages from the first new index on, with the snapshot's own time |
| SnapshotRuns.EmittedByOnePoll | rs/src/snapshot_watcher.rs:222-256 | After any run, a poll emits exactly its non-system messages, beyond those last observed if it looks like an append |
| SnapshotRuns.EmittedWasPolled | rs/src/snapshot_watcher.rs:222-256 | On every run, each event's id, number and message stood in some polled snapshot at that place |
| SnapshotRuns.ReplayIsHarmless | rs/src/snapshot_watcher.rs:222-256 | On runs honest up to the first cut start, undo replays included, the (id, number, message) triples emitted are exactly the union of those of the snapshots polled before it |
| SnapshotRuns.KeysTellApartExactlyWhen | rs/core/src/translate_hermes.rs:454-472 | On honest runs, no two different messages are emitted under one (session, number) key, which event ids add only a subtype to, if and only if no place of a session was polled with two different messages |
| SnapshotRuns.ScheduleOutput | rs/src/snapshot_watcher.rs:100-103 | Polling an append-only history at any moments emits each message seen by then once, in order |
| SnapshotRuns.ScheduleIsIrrelevant | scripts/hermes_write_timeline.py:216-218 | Any two polling schedules that see the last version emit the same message sequence |
| SnapshotRuns.StartsExactly | rs/src/snapshot_watcher.rs:222-243 | One more poll ends the watch with nothing emitted if it is a cut start; otherwise a session start comes first and once, exactly on first encounter or on an id change with a non-empty array |
| SnapshotRuns.WellAnnouncedExactlyWhen | rs/src/snapshot_watcher.rs:207-258 | Every message follows its own session's start if and only if no poll shows news of a session without announcing it while the last start was another's: a condition on the polls alone |
| SnapshotRuns.AnnouncedExactlyWithoutSilentChange | rs/src/snapshot_watcher.rs:207-258 | The tracked session is the one announced last, after every poll, if and only if no id change is first seen with an empty array |
| SnapshotRuns.SilentChangeIsNeverAnnounced | rs/src/snapshot_watcher.rs:223-228 | After any silent change to a session not announced last, however long the file stays with it, its first news follow no start of their own |
| SnapshotRuns.SilentChangeAndBack | rs/src/snapshot_watcher.rs:223-228 | A silent change away and back leaves every message announced although the tracked session was not the announced one |
| SnapshotWriter.InvariantStep | rs/src/snapshot_watcher.rs:71-74 | Appends, undos, compressions and polls keep the link between the file, its shortest unseen length and the poller's view |
| SnapshotWriter.EveryFairRunConverges | scripts/hermes_write_timeline.py:216-218 | For every interleaving of writer and poller without a poll after a hidden regrowth and without a cut start, the watch goes on, the copy equals the array after every poll, and the file itself right after one |
| SnapshotWriter.WithoutUndoEveryRunIsFair | rs/src/snapshot_watcher.rs:71-74 | A writer that never undoes and never reuses a session id, with prompts that the preview does not cut, needs no polling discipline |
| WatchTable.EveryOpenIsClosedOnce | rs/src/kqueue_watcher.rs:164-274 | In a log without double opens or closes, every descriptor is closed exactly as often as opened, but for those still open |
| WatchTable.TouchKeeps | rs/src/kqueue_watcher.rs:257-261 | A touch keeps the whole invariant |
| WatchTable.UnregisterKeeps | rs/src/kqueue_watcher.rs:235-242 | Unregistering keeps the invariant: both maps lose the entry and its descriptor is closed |
| WatchTable.EvictKeeps | rs/src/kqueue_watcher.rs:245-255 | An eviction keeps the invariant and frees exactly one file if there is one |
| WatchTable.InsertKeeps | rs/src/kqueue_watcher.rs:223-232 | Inserting with room keeps the invariant |
| WatchTable.RefusalKeeps | rs/src/kqueue_watcher.rs:218-222 | A descriptor that cannot be put on the queue is closed again, and nothing else changes |
| WatchTable.OpenKeeps | rs/src/kqueue_watcher.rs:212-232 | The open, enqueue and insert sequence keeps the invariant in all its outcomes |
| WatchTable.RegisterKeeps | rs/src/kqueue_watcher.rs:200-233 | Every registration, granted or refused, keeps maps inverse, budget, descriptor ownership and the eviction order |
| WatchTable.ZeroBudgetStillInserts | rs/src/kqueue_watcher.rs:209-232 | With a budget of zero, a granted registration of a new file leaves exactly that file watched |
| WatchRuns.RegisterWithRoom | rs/src/kqueue_watcher.rs:200-233 | With room, a registration evicts nothing and adds exactly its own path if it succeeds |
| WatchRuns.TreeFitsTheBudget | rs/src/kqueue_watcher.rs:296-298 | Start-up asks for no more files than the budget |
| WatchRuns.NewestAreNewest | rs/src/kqueue_watcher.rs:285-298 | The files asked for are budget-many if there are so many, and none is older than one left out |
| WatchRuns.TreeComesInOrder | rs/src/kqueue_watcher.rs:278-299 | Start-up asks for the directories as they were found and then for as many files as the budget allows, newest first |
| WatchRuns.TreeIsWatched | rs/src/kqueue_watcher.rs:278-299 | From an empty table with every open granted, start-up evicts nothing and watches exactly the directories and the budget-many newest files, each as its kind |
| WatchEvents.RescanAccounts | rs/src/kqueue_watcher.rs:304-327 | A rescan keeps the invariant; afterwards every watchable entry and every directory of the listing is watched, was evicted, or was refused |
| WatchEvents.RescanWatchesAsFound | rs/src/kqueue_watcher.rs:304-327 | What is watched after a rescan, as a file or as a directory, was watched as the same before or stands as the same in the listing |
| WatchEvents.RescanReportsOnce | rs/src/kqueue_watcher.rs:305-326 | A rescan reports only watchable entries of the listing, each once |
| WatchEvents.RescanReportsInOrder | rs/src/kqueue_watcher.rs:305-326 | Reports come in the order of the listing |
| WatchEvents.RescanReportsWhatItFindsUnwatched | rs/src/kqueue_watcher.rs:310-326 | Every watchable entry is reported or refused, never both, exactly if it is unwatched when it is examined, files evicted earlier in the same rescan included |
| WatchEvents.RescanReportsEveryNewFile | rs/src/kqueue_watcher.rs:310-326 | In terms of the table before it: a rescan reports or refuses all that was not watched then, even what it evicts again; and nothing outside the listing gets watched |
| WatchEvents.RescanFindsExactlyDirectChildren | rs/src/kqueue_watcher.rs:310-326 | Of the unwatched watchable files at any depth below a directory, a rescan reports or refuses exactly the direct children; the others stay unwatched |
| WatchEvents.KnownPathIsNotReopened | rs/src/kqueue_watcher.rs:201-207 | Registering a path that the table has opens nothing and keeps its descriptor, whatever became of what stood there; granting any other opens one |
| WatchEvents.HandleKeeps | rs/src/kqueue_watcher.rs:354-375 | Handling any event, stale ones included, keeps the invariant |
| WatchEvents.EveryRunKeepsTheInvariant | rs/src/kqueue_watcher.rs:332-378 | So does every run of the event loop |
| WatchEvents.DirsAreNeverEvicted | rs/src/kqueue_watcher.rs:245-255 | Over a whole run a directory's watch ends only with a delete or rename event on its own descriptor |
| WatchEvents.PolledDirsStayWatched | rs/src/kqueue_watcher.rs:213-217 | Since directories raise no delete or rename events, one that is watched when some poll returns stays watched for the rest of the run |
| WatchEvents.DropClosesEverything | rs/src/kqueue_watcher.rs:264-274 | After the drop nothing is open, and over its life every descriptor was closed as often as opened |
| WatchEvents.RefusedRegistrationStillEvicts | rs/src/kqueue_watcher.rs:209-222 | A refused registration loses a watch if and only if it is for a file, the budget is used up and there is a file to evict; and then the idlest one |
| WatchEvents.GoneEventsActOnTheCurrentEntry | rs/src/kqueue_watcher.rs:355-365 | A delete or rename event drops exactly the path that its descriptor stands for when it is handled |
| WatchEvents.StaleEventHitsReusedDescriptor | rs/src/kqueue_watcher.rs:354-365 | In any table at its budget, a batch can drop the watch of a file that took over an evicted file's descriptor |
| WatchHistory.EventAnswers | rs/src/kqueue_watcher.rs:354-375 | One event, told by the table that meets it: an unwatched descriptor or a gone event calls nobody, a write calls for its own file once and touches it, a changed directory calls for what its rescan adds |
| WatchHistory.EveryEventIsAnswered | rs/src/kqueue_watcher.rs:353-377 | Over any run of the loop the calls are those answers, event by event in order, and the tables between are linked by one history of registrations, writes and ends |
| WatchHistory.CallsAreForWrittenOrFoundFiles | rs/src/kqueue_watcher.rs:366-375 | Every call is for a file whose descriptor was written to when its event was handled, or for a watchable entry of a listing that a directory event read |
| WatchHistory.WriteStampsLatest | rs/src/kqueue_watcher.rs:257-261 | After a write its file bears the clock as its stamp, no stamp is later, the call is for that file alone, and nothing else has changed |
| WatchHistory.StampsAreTimesOfLastUse | rs/src/kqueue_watcher.rs:201-261 | Over any history from an empty table, the stamp that evictions go by is the time at which the path was last registered, registered again or written to |
| WatchHistory.LaterUsedFileIsKept | rs/src/kqueue_watcher.rs:245-255 | Of two watched files, a registration that loses one loses the one used earlier in the history and keeps the one used later |
| WatchHistory.WatcherHistory | rs/src/kqueue_watcher.rs:332-378 | Start-up and loop together are one such history, so at its end every stamp is a time of last use |
| KqueueWatcher.Kernel.Open | rs/src/kqueue_watcher.rs:70-79 | The system refuses, or hands out any descriptor that is not open |
| KqueueWatcher.KqueueWatcher.constructor | rs/src/kqueue_watcher.rs:179-191 | A new watcher is empty, owns only its queue, and satisfies the invariant |
| KqueueWatcher.KqueueWatcher.FileCount | rs/src/kqueue_watcher.rs:193-195 | The number of watched files, directories not counted |
| KqueueWatcher.KqueueWatcher.Touch | rs/src/kqueue_watcher.rs:257-261 | The touch step if the descriptor is watched, which stamps its entry with the clock, else no change |
| KqueueWatcher.KqueueWatcher.Unregister | rs/src/kqueue_watcher.rs:235-242 | The unregister step, closing the descriptor, if it is watched, else no change |
| KqueueWatcher.KqueueWatcher.IdlestFile | rs/src/kqueue_watcher.rs:246-251 | Finds a file that no other file undercuts in recent activity, never a directory, or says that there is none |
| KqueueWatcher.KqueueWatcher.EvictIdleFile | rs/src/kqueue_watcher.rs:245-255 | The eviction step, keeping the object's invariant |
| KqueueWatcher.KqueueWatcher.OpenAndInsert | rs/src/kqueue_watcher.rs:212-233 | The open step, in every outcome that the system may choose |
| KqueueWatcher.KqueueWatcher.Register | rs/src/kqueue_watcher.rs:200-233 | The register step, keeping the object's invariant and the descriptors of others |
| KqueueWatcher.KqueueWatcher.CloseEntries | rs/src/kqueue_watcher.rs:266-270 | Closes each of the table's descriptors once and no other |
| KqueueWatcher.KqueueWatcher.Drop | rs/src/kqueue_watcher.rs:264-274 | Leaves open only what was never the watcher's |
| KqueueWatcher.RegisterTree | rs/src/kqueue_watcher.rs:278-299 | Start-up is the chain of registrations that the start-up theorems are about |
| KqueueWatcher.RescanDir | rs/src/kqueue_watcher.rs:304-327 | A rescan is the chain of steps that the rescan theorems are about; a failed listing changes nothing |
| KqueueWatcher.HandleEvent | rs/src/kqueue_watcher.rs:354-375 | One event is the step that the run theorems are about: its new table, and the calls it makes, which EventAnswers tells |
| KqueueWatcher.HandleEvents | rs/src/kqueue_watcher.rs:354-376 | A sequence of events is the chain that the run theorems are about |
| KqueueWatcher.Live | rs/src/kqueue_watcher.rs:340-377 | Start-up and loop on a new watcher: the chain of steps, the calls event by event, and the history that its stamps tell |
| KqueueWatcher.RunEventLoop | rs/src/kqueue_watcher.rs:332-378 | The whole life of a watcher, start-up, events and drop: the invariant holds throughout, every event has its own calls and no others, in order, the stamps at the end are the times of last use in one history, and the system's open descriptors are as they were found |
| Lines.LinesSplit | rs/src/watcher.rs:190 | The complete lines of a text are those up to any line start and those past it, which is what reading past an offset relies on |
| Lines.LinesEndAtNewlines | rs/src/watcher.rs:190 | Each line of any text ends at the next newline, and what no newline follows is not a complete line |
| Lines.NothingPastTheEnd | rs/src/watcher.rs:190 | No complete line lies past the last newline |
| LineReader.ReadLines | rs/core/src/reader.rs:58-149 | The loop moves the offset line by line and stops at the end, at an unfinished line, or, failing, at a line that cannot be read |
| LineReader.ReadTakesLines | rs/core/src/reader.rs:58-75 | Failed or not, a read from a line start takes exactly the complete lines up to the line start where it got to; a successful one gets behind the last newline |
| LineReader.FailsExactlyWhen | rs/core/src/reader.rs:60 | A read fails if and only if some line from its offset on cannot be read, an unfinished last one included |
| LineReader.YieldsExactlyWhen | rs/core/src/reader.rs:58-146 | A read passes events if and only if a complete line that yields some comes before everything that cannot be read |
| LineReader.ReadAgain | rs/core/src/reader.rs:58-71 | Where a read ended well, the next one finds nothing and ends well |
| FileWatcher.ReadNewLines | rs/core/src/reader.rs:39-150 | A missing file and one that has not grown give nothing, one that cannot be opened fails, any other is read from the offset |
| FileWatcher.BoundIsKept | rs/src/watcher.rs:55-85 | The table never exceeds the cap plus the insertions that left early, by a failed open or read or an empty artifact, since the last one that reached the eviction |
| FileWatcher.CallForgetsOldest | rs/src/watcher.rs:55-85 | A call that forgets a file had at least 4096 files before it and leaves exactly 3584, and no file that it forgets was modified later than one that it keeps |
| FileWatcher.EvictStaleStates | rs/src/watcher.rs:63-85 | At or under the cap nothing changes; over it, exactly the low-water count stays, untouched, and no survivor was modified before a victim |
| FileWatcher.StampAll | rs/src/watcher.rs:71-79 | Every entry is stamped once, with the epoch if its metadata cannot be read |
| FileWatcher.RemovingOldestEvicts | rs/src/watcher.rs:80-84 | Removing the head of the sorted stamps leaves the low-water count, the most recent ones |
| FileWatcher.Chunks | rs/src/watcher.rs:535-537 | The chunks of a batch are the batch in order, none empty, all but the last of exactly 100 events |
| FileWatcher.Watcher.constructor | rs/src/watcher.rs:48-58 | A new watcher knows no file and is within its bound |
| FileWatcher.Watcher.ProcessFileRaw | rs/src/watcher.rs:165-226 | One call is the call step on its file's entry, and keeps the bound |
| FileWatcher.Watcher.ProcessTranscriptFile | rs/src/watcher.rs:182-226 | Reads past the offset; a failing read keeps the offset where it got to, drops the events, and leaves a new entry behind without the eviction; a missing file is tracked and evicts |
| FileWatcher.Watcher.ProcessArtifactFile | rs/src/watcher.rs:251-349 | Emits at most one event, with the session, the length just seen and the next number, and only if the file has grown; metadata that does not parse is retried; an early return skips the eviction |
| FileWatcher.Watcher.Evict | rs/src/watcher.rs:220-223 | The eviction step, recording what is forgotten |
| FileWatcher.Watcher.ProcessWatchPath | rs/src/watcher.rs:358-393 | A notification is a walk of its candidates up to the first failure; on failure nothing of what the offsets passed is handed on |
| FileRuns.ReadPasses | rs/core/src/reader.rs:39-150 | Whether it succeeds or fails, a call moves a transcript's offset to a line start further on and passes the events of the lines between; if it succeeds, that is behind the last complete line |
| FileRuns.ForgetKeeps | rs/src/watcher.rs:50-54 | Forgetting loses the offset but no line read |
| FileRuns.CallKeeps | rs/src/watcher.rs:165-226 | A call for any file, failing or not, keeps the account of every transcript |
| FileRuns.WalkKeeps | rs/src/watcher.rs:363-385 | So does a walk, failing or not |
| FileRuns.EveryRunPassesCompleteLines | rs/src/watcher.rs:47-85 | For every interleaving of changes, notifications, failed reads and evictions, the lines passed of a transcript are, as a set, the complete lines of a prefix not behind the offset; while never forgotten, those up to the offset, once each and in order |
| FileLosses.NotifiedFileIsReadToTheEnd | rs/src/watcher.rs:165-226 | Right after a notification of a transcript whose lines past the offset can be read, the lines passed of it are, as a set, all its complete lines; if never forgotten, exactly those in order |
| FileLosses.CallFailsExactlyWhen | rs/src/watcher.rs:165-349 | From the disk and the offset alone: when a call fails, and when it passes events |
| FileLosses.WalkExactly | rs/src/watcher.rs:363-385 | A walk in which the table cannot overflow fails if and only if some candidate cannot be read from the table's offset; it passes events of a file if and only if the file has some past its offset and comes no later than the first such candidate |
| FileLosses.WalkAtMost | rs/src/watcher.rs:363-385 | Any walk fails, or passes events of a file, only if a candidate may, from the table's offset or from the start |
| FileLosses.DeliveredExactlyWhen | rs/src/watcher.rs:363-385 | Over any run, all events of a file that the offsets pass are delivered, in order, if and only if no notification finds an unreadable candidate after having passed events of the file |
| FileLosses.DeliveredUnlessMayLose | rs/src/watcher.rs:363-385 | With evictions inside walks too: all are delivered if no notification has both a candidate that may fail and one of the file that may yield |
| FileLosses.EveryLineOnceExactlyWhen | rs/src/watcher.rs:165-226 | Every complete line of a never forgotten transcript before its offset is delivered, once and in order, under exactly that condition |
| FileLosses.PassesBehindOffset | rs/core/src/reader.rs:52-75 | A call for a transcript that can be read passes exactly the events of its complete lines behind the offset |
| FileLosses.WalkPassesExactly | rs/src/watcher.rs:363-385 | Which events of a file a walk passes: those that the file's own call passes from the table's offset, if no candidate before it fails |
| FileLosses.DeliveredBySome | rs/src/watcher.rs:363-385 | An event of a file is delivered if and only if some notification of the run passes it and does not fail |
| FileLosses.EveryLineDeliveredExactlyWhen | rs/src/watcher.rs:47-85 | With forgetting and replay: the lines delivered of a transcript are, as a set, the complete lines of the prefix passed, if and only if each was passed by some notification that did not fail |
| FileLosses.HalfWrittenCharacterLosesALine | rs/core/src/reader.rs:58-75 | A run on one append-only file of valid text: notified while a character is half written, the watcher passes the complete line before it and never delivers it |
| FileNumbers.ChecksExactlyWhen | rs/src/watcher.rs:165-349 | A call reaches the eviction check exactly if it succeeds and makes a new entry, but for an empty artifact |
| FileNumbers.OutcomeNumbers | rs/src/watcher.rs:251-349 | A call for a file that is no transcript passes at most one event of it, with the next number, a greater length than any before, which the file has on the disk just then, and a session of the file |
| FileNumbers.WalkNumbers | rs/src/watcher.rs:363-385 | So does a walk, however many candidates lead to the file |
| FileNumbers.ArtifactEventsAreNumbered | rs/core/src/translate.rs:85-88 | Over every run, as long as an artifact is not forgotten, its events are numbered 1, 2, 3 and so on, their lengths strictly grow, and each is the length that the file had on the disk of some notification |
| FileNumbers.EveryRunKeepsSessions | rs/src/watcher.rs:251-269 | Over every run, what the table has of a file bears the session of some path that leads to it |
| TailReader.PrependChunk | scripts/event_viewer.py:325-330 | Splitting a chunk joined to the leftover, and keeping the other pieces, splits the whole text |
| TailReader.ReadBack | scripts/event_viewer.py:315-333 | The loop collects the pieces of the file behind the point where it stops, up to one empty leading piece |
| TailReader.CleanLines | scripts/event_viewer.py:335-340 | Stripped lines in order, without the empty ones |
| TailReader.StripTakesTheEnds | scripts/event_viewer.py:338 | A stripped line is the line without spaces at either end, and with nothing else missing |
| TailReader.WantedAreTheLast | scripts/event_viewer.py:342 | What is wanted is the end of the cleaned lines, n of them or all if there are fewer |
| TailReader.ReadLastNLines | scripts/event_viewer.py:302-342 | Nothing for a missing or empty file, else the last n cleaned lines behind the stopping point |
| TailReader.StopsBehindNewline | scripts/event_viewer.py:322-330 | Stopping short of the start, more than n pieces lie behind the first newline seen, and they are the file's last ones |
| TailReader.TidyFilesAreReadRight | scripts/event_viewer.py:302-342 | For a tidy file, or whenever the start is reached, the result is the last n of all cleaned lines, for any chunk size |
| TailReader.RightExactlyWhen | scripts/event_viewer.py:302-342 | For any file, n and chunk size, a call gives the last n lines if and only if it reads to the start, or enough lines lie behind the first newline seen, or only blanks before it, or the one missing line was seen whole |
| TailReader.SmallFilesAreReadRight | scripts/event_viewer.py:318-325 | A file of at most 8192 characters, one chunk, is read right |
| TailReader.RightExactlyForTidyFiles | scripts/event_viewer.py:302-342 | The guarantee that does not depend on the chunk size: a file is read right for every n under every chunk size if and only if it is tidy |
| TailReader.BlankEndHidesEverything | scripts/event_viewer.py:322-342 | For any chunk size, a file whose last chunk is blank lines reads as empty although it is not |
| EventGraph.TurnCountsCalls | scripts/prototype_event_graph.py:113-116 | A turn's count for a tool is the number of its calls, and no tool is listed with zero |
| EventGraph.TurnListsFilesAndErrors | scripts/prototype_event_graph.py:117-121 | A turn lists exactly the files that its records touch, and flags an error exactly if one of them is one |
| EventGraph.PathIsTheFirstGiven | scripts/prototype_event_graph.py:49-78 | A tool call's path is the first of its four that is not empty and its tool is its name; no other record has either |
| EventGraph.ResponseIsTheLast | scripts/prototype_event_graph.py:121-124 | A turn's response is the text of its last assistant message that has one |
| EventGraph.TurnTellsItsGroup | scripts/prototype_event_graph.py:126-146 | Every turn bears its number, the ids of its records in order, and, if a user message opens it, that message's time and the first 100 characters of its text |
| EventGraph.Flush | scripts/prototype_event_graph.py:103-135 | One pass over a group gives its turn |
| EventGraph.SplitIntoTurns | scripts/prototype_event_graph.py:95-149 | The single pass gives the turns of the records cut before every user message |
| EventGraph.GroupsConcatenate | scripts/prototype_event_graph.py:137-149 | The turns' records, one after the other, are the records |
| EventGraph.TurnsStartWithUserMessages | scripts/prototype_event_graph.py:137-146 | Only the first turn may lack a leading user message, and none has one further on |
| EventGraph.IndexAgreesWithScan | scripts/prototype_event_graph.py:160-174 | Each index holds, under each value, exactly the ids of the records that have it, in record order, and no empty lists |
| EventGraph.ErrorsAreListed | scripts/prototype_event_graph.py:176-177 | The errors are the error records and the failed tool results, in record order |
| EventGraph.RecordsAreKeptById | scripts/prototype_event_graph.py:160-162 | Under every id that occurs, the last record that has it |
| EventGraph.KeysComeInOrderOfFirstUse | scripts/prototype_event_graph.py:160-162 | Ids are listed once, in the order of their first use |
| EventGraph.BuildEventGraph | scripts/prototype_event_graph.py:152-188 | The single pass builds the turns, the three indexes, the errors and the records by id |
| EventGraph.FacetSets | scripts/prototype_event_graph.py:203-221 | An unknown turn selects nothing; otherwise the sets together contain exactly the ids that match all facets |
| EventGraph.Intersect | scripts/prototype_event_graph.py:226-228 | The intersection of all sets |
| EventGraph.ApplyFacets | scripts/prototype_event_graph.py:195-232 | The ids in record order that match all facets; all of them without facets |
| EventGraph.InGroup | scripts/prototype_event_graph.py:137-149 | A record's id is in exactly the turn that counting user messages gives |
| EventGraph.FacetsMatchScan | scripts/prototype_event_graph.py:195-232 | An id matches the facets through the indexes exactly if its record matches them directly |
| EventGraph.FacetsAgreeWithScan | scripts/prototype_event_graph.py:195-232 | For any combination of facets the indexed query equals a brute-force scan of the records, in record order |
| EventGraph.SelectedExactlyWhen | scripts/prototype_event_graph.py:195-232 | For any records, ids shared or not: an id is selected if and only if some record has it and, for each facet asked for, some record with this id has that facet |
| Transcripts.NoLineErrors | scripts/synth_transcripts.py:863-908 | Behind a valid session, a line draws no error if and only if it extends that session to a valid one |
| Transcripts.NoneOfThese | scripts/synth_transcripts.py:863-908 | A line draws no error if and only if its body is complete, its id is new, its parent is known, its own or exempt, and its time does not run back |
| Transcripts.ValidateSession | scripts/synth_transcripts.py:855-910 | The validator reports the errors of every line against those before it |
| Transcripts.ValidExtends | scripts/synth_transcripts.py:863-908 | A session with one more line is valid if and only if the session is and the line fits it |
| Transcripts.NoErrorsExactlyWhenValid | scripts/synth_transcripts.py:855-910 | The validator is silent if and only if ids are unique, parents are known, time never runs back and bodies are complete |
| Transcripts.ReportedExactlyWhen | scripts/synth_transcripts.py:863-908 | For any session and line, each kind of error but running time is reported for the line if and only if the line has that fault, held against the ids before it |
| Transcripts.TimeRunsBackExactlyWhen | scripts/synth_transcripts.py:884-889 | Running time is reported for a line if and only if it is stamped earlier than the last stamped line before it |
| Transcripts.ErrorsOfLines | scripts/synth_transcripts.py:855-910 | The validator reports an error if and only if the line that it names has its fault |
| Transcripts.ReportsComeInOrder | scripts/synth_transcripts.py:863-908 | Reports come line by line |
| SynthTranscripts.WhatBodiesCarry | scripts/synth_transcripts.py:427-614 | Every emitted body is well formed inside its envelope; only tool-use bodies call and only results answer |
| SynthTranscripts.EveryCallIsAnsweredOnce | scripts/synth_transcripts.py:655-678 | In a finished session every tool call is answered by exactly one result, parented to it, before the next call |
| SynthTranscripts.EmitKeepsSound | scripts/synth_transcripts.py:359-373 | A line with a fresh id, a later time and an emitted parent keeps the session valid |
| SynthTranscripts.Context.DrawUuid | scripts/synth_transcripts.py:292-294 | An id that was not drawn before |
| SynthTranscripts.Context.DrawToolId | scripts/synth_transcripts.py:302-306 | A tool id that no line carries |
| SynthTranscripts.Context.Tick | scripts/synth_transcripts.py:316-320 | Time moves on by at least 50 milliseconds and is stamped in whole ones |
| SynthTranscripts.Context.MakeEnvelope | scripts/synth_transcripts.py:359-373 | A fresh id, remembered as the last one, and a later time stamp |
| SynthTranscripts.Context.Emit | scripts/synth_transcripts.py:427-614 | Appends exactly one line, the given body in an envelope with a fresh id and a later time, keeps the session valid and moves the tool protocol |
| SynthTranscripts.ToolCycle | scripts/synth_transcripts.py:647-678 | A cycle adds a hook's progress if drawn, the call on the line before, a line for the shell, an agent and a hook as drawn, all on the call, and last its one result, on the call; it leaves no call open |
| SynthTranscripts.CycleOf | scripts/synth_transcripts.py:647-678 | The pieces of a cycle make up a cycle, told by the fields of its lines, with exactly one call |
| SynthTranscripts.ToolCycles | scripts/synth_transcripts.py:645-678 | The cycles drawn, in order, each on the result of the one before, with as many lines and calls as drawn |
| SynthTranscripts.FinishTurn | scripts/synth_transcripts.py:680-695 | The final text on the line given, with thinking if drawn, then the turn's duration and a drawn stop hook's summary on the text |
| SynthTranscripts.GenerateTurn | scripts/synth_transcripts.py:632-695 | A turn adds its user prompt first, its only one, on the turn's parent; as many calls as drawn, up to 20; the final text, its only one, on the last result or else the prompt; the turn's duration on that text, and a stop hook's summary if drawn. It returns the text's id |
| SynthTranscripts.TurnsMore | scripts/synth_transcripts.py:743-750 | One more turn behind the others: its prompt and text are the only new ones, and its prompt hangs from the text before |
| SynthTranscripts.PlayTurns | scripts/synth_transcripts.py:743-750 | The loop plays the wanted turns, at least one and at most fifty, and further ones only while lines are missing, at most 101 in all |
| SynthTranscripts.CloseSession | scripts/synth_transcripts.py:752-758 | Behind the turns, on the last final text: a compact boundary if drawn and there are more than 200 lines, and an error if drawn |
| SynthTranscripts.GenerateSession | scripts/synth_transcripts.py:702-760 | For all draws the validator reports nothing and all calls are answered. Turns run as wanted, more only for the lines asked for and at most 101; prompts and final texts are exactly those of the turns, where the draws put them, each later prompt on the final text before it; then come the drawn boundary, if there are over 200 lines, and error |
| ChunkMessage.RFindNewline | telegram-bot/bot.py:74 | The last newline before the limit, or none |
| ChunkMessage.SplitAt | telegram-bot/bot.py:74-76 | The cut is within the limit and no earlier than half of it; short of the limit it is at the last newline within it, and at the limit the second half has none |
| ChunkMessage.CutOne | telegram-bot/bot.py:74-78 | One turn of the loop takes the chunk before the cut and drops the newlines behind it |
| ChunkMessage.Chunk | telegram-bot/bot.py:64-79 | The loop, for any limit of at least two, terminates with the pieces |
| ChunkMessage.ChunkForTelegram | telegram-bot/bot.py:64-79 | A text of up to 4096 characters is left alone. Otherwise chunks have up to 4096 characters, all but the last at least 2048, no later one starts with a newline, they rebuild the text with newline runs between them, and a line is broken only behind a full chunk whose second half has no newline |
| ChunkMessage.PiecesFit | telegram-bot/bot.py:69-79 | Every chunk of an over-long text is non-empty and fits, and all but the last are at least half full |
| ChunkMessage.PiecesRebuildText | telegram-bot/bot.py:70-79 | The text is its chunks in order with runs of newlines between and behind them |
| ChunkMessage.NothingElseIsLost | telegram-bot/bot.py:64-79 | The chunks of any text carry all its characters other than newlines, in order |
| ChunkMessage.LaterPiecesStartClean | telegram-bot/bot.py:78 | No chunk but the first starts with a newline, and the first starts as the text does |
| ChunkMessage.LinesAreBrokenOnlyWhenTheyMust | telegram-bot/bot.py:74-77 | A line is broken in two only behind a full chunk with no newline in its second half |
| TokenUsage.Tally.constructor | scripts/token_usage.py:101-116 | An empty tally agrees with its calls |
| TokenUsage.Tally.AddUsage | scripts/token_usage.py:134-141 | The running totals stay those of the calls kept |
| TokenUsage.Tally.Merge | scripts/token_usage.py:143-150 | Merging concatenates the calls and keeps the totals right, even with itself |
| TokenUsage.Tally.EstimateCost | scripts/token_usage.py:152-202 | The loop gives the sums, breaches and biggest prompt of the calls at the named price row |
| TokenUsage.DollarsPerMillion | scripts/token_usage.py:40-98 | What each kind of token costs under every name, in dollars per million; unknown names cost what sonnet costs |
| TokenUsage.DollarsOverTheTier | scripts/token_usage.py:48-54 | Over 200,000 prompt tokens opus-4-6 and no other name breaches its tier, and each kind of token then costs twice as much |
| TokenUsage.UncachedDollars | scripts/token_usage.py:181-196 | The uncached bill is that of a call with all its prompt tokens as input, at the same tier |
| TokenUsage.SumsOfOneCall | scripts/token_usage.py:164-180 | The sums over one call are that call's, and over none zero |
| TokenUsage.SumConcat | scripts/token_usage.py:143-150 | Totals of concatenated calls add up field by field |
| TokenUsage.CostIsAdditive | scripts/token_usage.py:143-202 | Costs, uncached costs and breaches of merged tallies add up |
| TokenUsage.BiggestIsBiggest | scripts/token_usage.py:127-132 | The biggest prompt is reached by some call and exceeded by none |
| TokenUsage.BreachesShowInTheBiggestPrompt | scripts/token_usage.py:170-180 | Some call breaches the tier if and only if the biggest prompt exceeds the threshold |
| TokenUsage.PerCallAgainstOneCall | scripts/token_usage.py:155-160 | Billing per call never exceeds billing the totals as one call, and is at least half of it |
| TokenUsage.CallAgainstUncached | scripts/token_usage.py:181-196 | For every price row a call costs between a tenth and five quarters of its uncached bill |
| TokenUsage.BillAgainstUncached | scripts/token_usage.py:164-202 | So does every tally |
| TokenUsage.CachingPaysExactlyWhen | scripts/token_usage.py:181-202 | For every price row, a call's cache saves money if and only if 18 times the tokens read reach 5 times the tokens written |
| CostByModel.Bucket.Add | scripts/cost_by_model.py:160-167 | Adds one call to every field, its model's count included |
| CostByModel.Bucket.Merge | scripts/cost_by_model.py:169-177 | Adds another bucket on every field, even itself |
| CostByModel.AggregateTotal | scripts/cost_by_model.py:251-256 | The total of all calls |
| CostByModel.TotalsCount | scripts/cost_by_model.py:160-167 | One more call adds its own tokens, one message, its model, and the price it records or else its row's bill |
| CostByModel.KeysAreNames | scripts/cost_by_model.py:259-295 | A model's key is the name by which the other script finds the same price row; a day's is the first ten characters of the time |
| CostByModel.Table.AddUnder | scripts/cost_by_model.py:261-266 | The bucket under a key is created on first use and grows by the call; no other bucket changes |
| CostByModel.AggregateBy | scripts/cost_by_model.py:259-295 | Under each key, the total of exactly the calls that have it; no bucket without calls |
| CostByModel.GroupingConserves | scripts/cost_by_model.py:259-295 | For any grouping and any bill, the buckets add up to the total of the calls grouped, on every field |
| CostByModel.AllGroupingsConserve | scripts/cost_by_model.py:251-295 | Days and models add up to the total of all calls; weeks to that of the calls whose date parses |
| CostByModel.MergeAll | scripts/cost_by_model.py:342-346 | The total row is the total of the calls grouped, in whatever order the buckets are merged |
| CostByModel.ModelBucketIsTokenUsageBill | scripts/cost_by_model.py:81-109 | A model's bucket costs what its calls record and, for those that record nothing, exactly what scripts/token_usage.py estimates for them |
| LayeredLayout.WidthIsPositiveExactly | scripts/diagram_hands.py:93-95 | A row's boxes have a positive width if and only if it has at most 44 |
| LayeredLayout.ColumnsInside | scripts/diagram_hands.py:94-99 | The boxes of a row stay between the side margins |
| LayeredLayout.ColumnsApart | scripts/diagram_hands.py:97-99 | Boxes of one row do not overlap |
| LayeredLayout.RowsApartExactly | scripts/diagram_hands.py:91 | Two rows are clear of each other if and only if their layers are at least 7/69 of the spread apart |
| LayeredLayout.RowInside | scripts/diagram_hands.py:91 | Every row lies between top and bottom margin |
| LayeredLayout.RowIsCentred | scripts/diagram_hands.py:92-99 | A row is centred between the margins at 0.06 and 0.94, and its boxes are 0.02 apart |
| LayeredLayout.WidthExactly | scripts/diagram_hands.py:93-95 | Up to three boxes are 0.28 wide; more share the whole width |
| LayeredLayout.RowsAreSpread | scripts/diagram_hands.py:91 | The lowest layer starts at 0.12, the highest ends at 0.88, and rows are evenly spaced |
| LayeredLayout.ByLayer | scripts/diagram_hands.py:81-83 | Each layer's nodes, in order, and no empty layers |
| LayeredLayout.PlaceLayer | scripts/diagram_hands.py:90-100 | Enters one row of boxes over what is there |
| LayeredLayout.LayoutNodes | scripts/diagram_hands.py:71-101 | With distinct ids, the loops give every node its box and nothing else |
| LayeredLayout.NoOverlap | scripts/diagram_hands.py:71-101 | With room in rows and columns no two boxes overlap |
| LayeredLayout.DisjointExactlyWhen | scripts/diagram_hands.py:88-100 | Boxes of different layers that meet sideways are disjoint if and only if their layers are at least 7/69 of the spread apart |
| LayeredLayout.ChainsFitExactly | scripts/diagram_hands.py:71-101 | A chain of single nodes, one a layer, lays out without overlap if and only if it has at most ten |
| LayeredLayout.BoxIsInside | scripts/diagram_hands.py:71-101 | With at most 44 nodes a layer, every box has a positive width and lies inside the margins |
| LayeredLayout.NineLayersHaveRoom | scripts/diagram_hands.py:86-91 | A spread of at most nine layers leaves room between rows |
| LayeredLayout.JourneysLayOut | scripts/diagram_hands.py:260-282 | Every tool journey lays out without overlap, inside the margins |

## Left out

- SnapshotWatcher.Envelopes: the translator and its format test are not part of this model, so events are the lines handed to it and every wrapped line counts as recognised; of a session start's payload only the prompt preview is told apart, the rest (model, platform, tools, time) is one opaque text.
- SnapshotWatcher.WatchSnapshots: the backfill's time window and the notification channel are left out; both loops hand over files in some order, and that sequence is the input.
- SnapshotWriter.EveryFairRunConverges: the writer is the one that the diff's documentation describes; that program, Hermes, is not part of the repository.
- KqueueWatcher.Kernel.Open: the system calls are a set of open descriptors and arbitrary answers; the flag words of events are one bit, delete or rename.
- KqueueWatcher.RunEventLoop: directory walks, listings and event batches are inputs; the 64-event limit of a poll and its timeout do not matter to any claim and are left out.
- WatchRuns.TreeIsWatched: says nothing about later evictions following modification times; start-up registers the newest file first, so among the start-up files it is the first to be evicted.
- LineReader.ReadLines: which lines are valid UTF-8, and which yield events given the text before them, are arbitrary predicates; all events of a line count as one, and the detection of formats and the translators are not part of this model.
- FileWatcher.ReadNewLines: the file does not change while it is read.
- FileWatcher.Watcher.ProcessArtifactFile: the artifact events carry only session, length and sequence number; their translation is not part of this model.
- FileRuns.EveryRunPassesCompleteLines: a transcript's text only grows; it may go missing and come back, but truncation and replacement are left out.
- FileLosses.DeliveredExactlyWhen: candidates of one walk that are the same file must have the same kind and session; for walks in which the table may overflow, which entries go depends on ties and on the walk itself, and only DeliveredUnlessMayLose is claimed.
- FileWatcher.Chunks: the calls to the callback are the batches; subjects and project ids are left out, and so is the backfill loop, which a failed read ends together with the watch.
- Path classification, canonical paths and session ids of paths are arbitrary functions (`Naming`).
- Diagnostics and metrics have no effect on results and are left out.
- TailReader.ReadLastNLines: characters stand for bytes, the chunk size of 8192 is a parameter, and only ASCII white space is stripped; decoding of other bytes is left out.
- TailReader.RightExactlyForTidyFiles: its converse uses chunks of one character; at the code's own size some untidy files are read right, and RightExactlyWhen says which calls are.
- EventGraph.BuildEventGraph: a record's missing or null fields read as "", which the code's truth tests do not tell apart; a turn's files are a set, not a sorted list.
- SynthTranscripts.GenerateSession: drawn ids are fresh, which the random generator makes overwhelmingly likely but does not guarantee; what the generator draws for a profile is an input, arbitrary and given ahead; message contents, tool inputs and error flags are left out.
- SynthTranscripts.Context.Emit: the twelve emitting functions are wrappers around one method with a body to emit; `emit_queue_op`, which no generator calls, is left out.
- Transcripts.ValidateSession: times are milliseconds instead of fixed-width strings that compare alike.
- TokenUsage.Tally.EstimateCost: amounts are reals, so nothing is claimed about floating-point rounding.
- CostByModel.AggregateBy: the three grouping loops are one, with the key as a parameter; the mapping of model names to price rows and the parsing of dates are parameters, and conservation holds for all of them.
- LayeredLayout.LayoutNodes: coordinates are reals; titles, colours, edges and strokes are left out, and repeated ids, where a later box replaces an earlier one, are not described.
- The user interface, the messenger and HTTP clients, the database queries, the renderers and the other analysis scripts are input and output, or would add only easy members.
