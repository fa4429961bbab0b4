# A verified model of Quartet's history pipeline and runtime protocols

Quartet is a local server that drives coding agents. This project models the
parts of it where many small steps must add up to one promise, and proves the
promises for all inputs and all runs:

* **Chat history.** Agent stream events become rounds (an assistant row and one
  tool row per declared call), rounds become rows of `messages.jsonl`, and those
  rows are stitched, recovered after a crash, cached and paged. The state machine
  of `round.Builder`, the bytes of the file, the repair scan, the reverse tail
  reader and the cursor protocol are modelled one after the other, and
  `pipeline.dfy` joins them: the shape that the builder guarantees is the
  hypothesis under which recovery and paging are right.
* **Agent processes.** Creation, use claims, idle reaping, credential maintenance
  and shutdown interleave under several small locks. Each critical section is one
  step of a state machine over any number of connections, keys and callers, and the
  connection objects and their two registries are proved to refine it.
* **Smaller protocols.** The two-file Codex account swap with its crash rollback,
  the cancellable lock hand-off, the stream adapter that reassembles tool-call
  fragments and caps tool results, and the integer image-size solver.

## How it is organised

| file | contents |
|---|---|
| `wrappers.dfy`, `messages.dfy` | `Option`, `Result`; messages, rounds, histories |
| `round_model.dfy`, `round_builder.dfy` | the builder as step functions, and as the class that refines them |
| `round_invariant.dfy`, `round_declare.dfy`, `round_terminal.dfy`, `round_transcript.dfy`, `round_conserve.dfy`, `round_args.dfy`, `round_times.dfy`, `round_screen.dfy`, `round_page.dfy`, `round_disk.dfy` | what every run of the builder guarantees for the transcript and its clocks, for the received text and arguments, for what the live page shows and is told, and for the file |
| `store_model.dfy`, `store_theorems.dfy` | `messages.jsonl` as bytes |
| `recovery.dfy`, `recovery_theorems.dfy` | the orphan scan and `BeginRun` |
| `tail_reader.dfy`, `tail_facts.dfy`, `paging.dfy`, `paging_theorems.dfy`, `paging_walk.dfy`, `paging_cover.dfy` | the reverse reader, the pages, and the walk over a file of any bytes: where it ends and what it shows |
| `cache_model.dfy`, `cache_ledger.dfy`, `cache.dfy`, `cache_simulation.dfy` | the byte-bounded LRU, what the store means to its callers, the history store that fills and invalidates it, and the proof that the repositories of all sessions over one cache refine the model |
| `pipeline.dfy` | the layers together |
| `acp_model.dfy`, `acp.dfy`, `acp_simulation.dfy` | the connection life cycle as a state machine, as objects, and the proof that the objects refine the machine |
| `locks.dfy`, `codex_account.dfy`, `adapter_model.dfy`, `adapter.dfy`, `image_size.dfy` | the smaller protocols |

Code that changes things step by step is a class or a method with loops, proved
against a function; the promises are then lemmas about that function. Strings are
byte strings. JSON is a pair of functions, `Codec`, and `Faithful` says what is
asked of it: a printed message parses back to itself and is one line with visible
ends, which section 7 of RFC 8259 gives because control characters are escaped.
Hashes are functions that the lemmas ask to be injective. Clock values and file
times are arguments and need not move.

`dafny verify dfyconfig.toml` checks the whole project.

## What the proofs turned up

Where a promise of the code or of its comments does not hold on all inputs, the
code is kept and the exact condition is proved.

* A late tool result whose round was already flushed always takes the arrival time
  as its finish time. The comment at einocli/round/builder.go:1286-1318 says the
  flush time is preferred, but that stamp is gone with the round
  (`RoundDisk.StitchedFinishIsArrival`).
* Arguments of a tool call that arrive after its round was flushed reach the page and
  neither the transcript nor the file (`RoundArgs.PageShowsAllArgs`; a run is
  `RoundArgs.LateArgumentsAreLost`). A stored call holds all arguments of its call if
  and only if the events behind the end of its round change nothing taken together
  (`RoundArgs.KeptIsHeardIff`); a late delta followed by a snapshot of the old text is
  such a case, and without a late snapshot the condition is that no delta with text
  came late (`RoundArgs.KeptIsHeardIffNoLateDelta`).
* With an empty tool-call id the late result reaches memory but not the file
  (`RoundDisk.LateResultReachesDisk`; a run is `RoundDisk.NamelessResultIsLost`).
* The placeholder rewrite replaces one line and keeps every other byte of the file if
  and only if the file begins with a visible character and ends with exactly one
  newline, because the file is trimmed first (`StoreTheorems.StitchKeepsBytesIff`, for
  any bytes; a file that loses a byte is `StoreTheorems.TrailingLineIsLost`). For a
  file whose rows all end in a newline and whose matched row has clean ends, that is:
  the first row begins and the last row ends visibly
  (`StoreTheorems.StitchRewritesOneRow`).
* A second truncation is a no-op exactly when no call in front of the first orphan is
  answered only behind it (`RecoveryTheorems.SecondTruncation`,
  `RecoveryTheorems.SecondBeginRun`); a layout where it is not is
  `RecoveryTheorems.InterleavedCutsTwice`. Histories of rounds never have it.
* A prompt that was written to disk before the run survives `BeginRun` exactly when
  no interrupted round stands before it (`RecoveryTheorems.PrePersistedPrompt`).
  Its callers write it only into fresh sessions.
* A page cursor is refused although nothing changed exactly when its row ends in a
  carriage return after one was dropped (`PagingTheorems.IssuedCursor`; a file on which
  the walk is refused is in `PagingWalk.ReturnIsRefused`).
* On a file whose first row is blank the walk towards the beginning does not reach it,
  unless the first readable row is a tool row: behind the oldest row, which it does show
  (`PagingCover.EveryRowOnce`), it comes to an empty page that asks for itself
  (`PagingTheorems.BlankHeadRepeats`, `PagingWalk.CleanWalkEndsIff`). The
  cursor of that page has no boundary, which cmd/web/handler/session.go:79-83 refuses, so
  over HTTP the walk ends in a bad request (`PagingWalk.StuckIsBadRequest`). When the
  first row is two or more bare carriage returns it depends on the page size
  (`PagingWalk.ReturnsAtTheHead`).
* A connection that maintenance closed stays on the reaper's list until shutdown,
  although the comment on `Close` says dead connections are pruned on the next cycle
  (`AcpModel.MarkedStaysTracked`; a run is `AcpModel.RetiredStaysListed`).
* Maintenance can begin while a process of its key still serves a user, if an
  earlier `Close` of that connection gave up before the process exited
  (`AcpModel.GivenUpConnStaysInUse`); that is the only way
  (`AcpModel.QuietIff`).
* A history file that something else changes is served stale from the cache exactly when
  its size and its time stayed the same (`CacheModel.ChangedOutOfBand`; an input is
  `CacheModel.StaleRead`), although repository/chat_context_cache.go:23-25 says never.

## Model

| member | source | states |
|---|---|---|
| RoundBuilder.Builder.OnMessageChunk | einocli/round/builder.go:860-936 | the builder's whole new state after a text chunk is the model's, including the eager flush it may trigger |
| RoundBuilder.Builder.OnThoughtChunk | einocli/round/builder.go:938-1003 | the same for a reasoning chunk |
| RoundBuilder.Builder.OnToolCall | einocli/round/builder.go:1005-1048 | the same for a declaration |
| RoundBuilder.Builder.OnTerminal | einocli/round/builder.go:1050-1236 | the same for a terminal: accepted, stitched late, or dropped |
| RoundBuilder.Builder.OnToolCallArgs | einocli/round/builder.go:1238-1275 | the same for argument updates and snapshots |
| RoundBuilder.Builder.LateTerminalStitch | einocli/round/builder.go:1276-1434 | the same for a late terminal: the placeholder found from the tail is overwritten in place |
| RoundBuilder.Builder.ReorderToolResults | einocli/round/builder.go:730-764 | the result rows in declared order, a placeholder where none came |
| RoundBuilder.Builder.EagerFlush | einocli/round/builder.go:860-905 | a chunk over open calls remembers the pending ids, flushes the round and marks its calls as superseded |
| RoundBuilder.Builder.RememberSuperseded | einocli/round/builder.go:427-451 | each pending id is remembered with its start time and name; entries of other ids stay |
| RoundBuilder.Builder.FlushCurrentRound | einocli/round/builder.go:631-719 | the round becomes rows handed to the flush callback, and the accumulators are cleared |
| RoundBuilder.Builder.EmitPendingEnds | einocli/round/builder.go:510-567 | open segments end and every pending call is interrupted with the reason |
| RoundBuilder.Builder.CollectMessages | einocli/round/builder.go:576-587 | the last round is flushed and the transcript handed over |
| RoundBuilder.Builder.FinalizeRound | einocli/round/lifecycle.go:119-127 | the close-out in its order: pending ends, collect, handler off |
| RoundBuilder.Builder.RunAll | einocli/round/builder.go:226-297 | a reset builder fed any events and closed out is the model's run |
| RoundInvariant.FlushedRoundShape | einocli/round/builder.go:631-764 | a flushed round is one assistant row and then tool rows with exactly its calls' ids in declared order, for every arrival order |
| RoundTerminal.TerminalFlushHasNoPlaceholder | einocli/round/builder.go:1073-1213 | the flush that the last terminal triggers holds only real results, each the answer of its call |
| RoundTerminal.DroppedTerminal | einocli/round/builder.go:1050-1100 | a terminal changes nothing if and only if its id was not declared before it or already has its answer in the stream, and then no call's answer changes |
| RoundTranscript.DroppedInRun | einocli/round/builder.go:1050-1100 | so in every run a terminal is dropped if and only if the stream does not await it |
| RoundTranscript.RunInv | einocli/round/builder.go:860-1434 | what every step of every run keeps: ids, results, stored rows and superseded calls agree with the events so far |
| RoundTranscript.TranscriptIsTheAnswers | einocli/round/builder.go:569-587 | every run with distinct ids and its handler installed: the transcript is a history of rounds with exactly one tool row per declared id in order; it is the first terminal after the declaration, however late, marked `[failed] ` if it failed, and a placeholder that names the right reason exactly when none came |
| RoundTranscript.FinalizedIgnoresEvents | einocli/round/lifecycle.go:107-127 | after the close-out no event reaches transcript, disk or page |
| RoundTimes.RunStamps | einocli/round/builder.go:1005-1318 | in every run open calls, results, stored rows and what is remembered of superseded calls carry the titles and clocks of the stream: declared, first answered, first cut by a chunk |
| RoundTimes.TranscriptIsStamped | einocli/round/builder.go:1181-1202 | the stamps of every tool row of a closed run: an answer started at its declaration and finished at its first terminal, a placeholder finished when a chunk cut its call, or else at the close-out; stamps that are not positive are left out of placeholders and of starts that were stitched in |
| RoundConserve.RunConserves | einocli/round/builder.go:631-719 | text, reasoning and the ids and names of the calls received equal those in flushed rounds plus open accumulators, in order |
| RoundConserve.TranscriptHoldsEverything | einocli/round/builder.go:569-587 | after the close-out they are all in the transcript, once and in order |
| RoundArgs.RunHoldsArgs | einocli/round/builder.go:1238-1267 | in every run each open call and each stored call holds the arguments heard for it until its round was flushed, deltas appended and snapshots replacing |
| RoundArgs.OpenCallHoldsAll | einocli/round/builder.go:1238-1267 | an open call holds everything heard for its id so far |
| RoundArgs.HeldUntilTheFlush | einocli/round/builder.go:631-719 | a stored call stops listening with the event that flushes its round, and keeps what was heard before it |
| RoundArgs.TranscriptHoldsArgs | einocli/round/builder.go:569-587 | after the close-out every call of every assistant row holds exactly that |
| RoundArgs.KeptIsHeardIff | einocli/round/builder.go:1242-1266 | a stored call holds everything heard for it in the run if and only if the argument events behind the end of its round change nothing taken together |
| RoundArgs.KeptIsHeardIffNoLateDelta | einocli/round/builder.go:1242-1266 | without a late snapshot that is: no delta with text came late |
| RoundArgs.PageShowsAllArgs | einocli/round/builder.go:1266 | the page shows everything heard for a call, however late it came |
| RoundArgs.LateArgumentsAreLost | einocli/round/builder.go:1238-1267 | a run whose late arguments are on the page and not in the transcript |
| RoundScreen.RunScreen | einocli/round/builder.go:860-1434 | no run breaks the page's protocol: segments alternate and never overlap or stay open over pending calls, a call gets one result and end or one interruption, and a restored result follows only a superseded interruption |
| RoundScreen.PageMatchesTranscript | einocli/round/lifecycle.go:119-127 | closed out, the page has one settled bubble per declared call and shows the text of its stored row |
| RoundPage.PageHearsTheStream | einocli/round/builder.go:860-1048 | after every event of every run the deltas and calls that reached the page, joined, are the text, the reasoning, the calls with their titles and the token counts that the stream brought, in order; those since the last flush are what is still open |
| RoundPage.PageSaysTheTranscript | einocli/round/builder.go:631-719 | after the close-out what the page was told between two flushes is the content, the reasoning and the calls of one assistant row, in the order of the rows; no assistant row is empty |
| RoundPage.PageShowsTheAnswers | einocli/round/builder.go:1157-1235 | every result, end and restored result on the page, and every row that is stitched, says what the first terminal of its call said and whether it succeeded; and a round with calls is flushed before the page hears of its last result |
| RoundPage.UsageIsSeen | einocli/round/builder.go:1436-1445 | a run is marked as having reported usage if and only if it did |
| RoundDisk.DiskFindsSameRow | einocli/store/chat_context.go:530-619 | with unique ids the search from the head of the file stops at the row that memory found from the tail |
| RoundDisk.DiskRefinesMemory | einocli/round/builder.go:1319-1338 | after every event of every run the file's rows are the prior rows and then the encoded completed messages |
| RoundDisk.FinalDisk | einocli/round/builder.go:706-719 | the close-out keeps that refinement |
| RoundDisk.BytesFollowRows | einocli/store/chat_context.go:275-287 | the bytes written by appends and rewrites are those rows |
| RoundDisk.ReloadIsTranscript | einocli/store/chat_context.go:299-360 | loading the file after a run gives the prior history followed by the transcript |
| RoundDisk.LateResultReachesDisk | einocli/round/builder.go:1319-1338 | a late result keeps disk and memory equal if and only if its id is not empty |
| RoundDisk.NamelessResultIsLost | einocli/round/builder.go:1319-1338 | a run that supersedes the empty id, after which they differ |
| RoundDisk.StitchedFinishIsArrival | einocli/round/builder.go:1286-1318 | the finish time of a stitched result is always its arrival |
| StoreModel.SplitJoin | einocli/store/chat_context.go:486-520 | splitting joined rows gives the rows back |
| StoreTheorems.LoadAfterAppend | repository/chat_context.go:506-546 | appending messages appends exactly them to what is loaded |
| StoreTheorems.LoadAfterReplace | repository/chat_context.go:548-583 | what a rewrite stores is what the next load returns |
| StoreTheorems.StitchKeepsBytesIff | repository/chat_context.go:601-695 | for any bytes in which a row is found, the rewrite replaces that line and keeps every other byte if and only if the file begins with something visible and ends with exactly one newline |
| StoreTheorems.TrailingLineIsLost | repository/chat_context.go:601-695 | on a file of one placeholder row and a blank line the rewrite drops the blank line |
| StoreTheorems.StitchRewritesOneRow | repository/chat_context.go:601-695 | on a file of rows, each ended by a newline, with a matched row of clean ends: exactly that row changes if and only if the outer rows have no blank ends |
| StoreTheorems.StitchKeepsCounts | repository/chat_context.go:601-695 | it keeps the number of rows and of readable messages |
| Recovery.Register | einocli/chatctx/manager.go:351-372 | the ids of a row enter the index, the first open declaration keeping an id |
| Recovery.OrphanScan | einocli/chatctx/manager.go:337-405 | a clean verdict means every declared id in the window is answered later, even with reused ids; nothing before a cut is unpaired; and if no open id is declared again the cut is the least orphan |
| RecoveryTheorems.HistoryPaired | einocli/chatctx/manager.go:277-286 | a history of rounds is paired from any start, whatever its ids |
| RecoveryTheorems.CleanHistoryKept | einocli/chatctx/manager.go:287-430 | the scan never cuts a history of rounds |
| RecoveryTheorems.CrashCut | einocli/chatctx/manager.go:287-430 | after a crash inside a block the cut is exactly that block, if and only if it is incomplete and the scan starts at or before it |
| RecoveryTheorems.ChatContextManager.BeginRun | einocli/chatctx/manager.go:200-249 | the old file, cut at the scan's cut if there is one, and behind it all the given rows if one of them lacks the mark of a row already on disk, and none of them otherwise |
| RecoveryTheorems.ChatContextManager.LoadMessagesForLLM | einocli/chatctx/manager.go:59-119 | all rows without a summary; with one, its message and then every row from its index on: all of them for a negative index, none for an index behind the end |
| RecoveryTheorems.BeginRunLoads | einocli/chatctx/manager.go:200-234 | what is loaded after BeginRun on any file of rows: the rows in front of the cut and then the batch, whole if one of its rows is unmarked and not at all otherwise |
| RecoveryTheorems.CrashRecovery | einocli/chatctx/manager.go:200-234 | for a file of complete blocks and any row prefix of one more, BeginRun leaves exactly the complete blocks and the unmarked batch; the torn block is dropped if and only if there is no summary index, or one at or before the block, or one behind the file's end |
| RecoveryTheorems.RecoveredIsClean | einocli/chatctx/manager.go:168-176 | what recovery leaves is paired throughout and the next scan finds nothing |
| RecoveryTheorems.ViewIsWholeRounds | einocli/chatctx/manager.go:85-119 | what the model is shown of a history is the summary, if any, and paired whole rounds, when the summary index stands at a block boundary or outside the file |
| RecoveryTheorems.SecondTruncation | einocli/chatctx/manager.go:287-430 | a second scan finds nothing if and only if, in the window, no call in front of the least orphan is answered only behind it |
| RecoveryTheorems.SecondBeginRun | einocli/chatctx/manager.go:200-234 | for two runs in a row on a file: the second rewrites nothing if and only if that holds of the file |
| RecoveryTheorems.InterleavedCutsTwice | einocli/chatctx/manager.go:391-404 | an interleaved layout on which it is not |
| RecoveryTheorems.PrePersistedPrompt | einocli/chatctx/manager.go:201-223 | of a batch that is on disk already the prompt stands in the file after BeginRun, unappended, if and only if no interrupted round stands before it |
| RecoveryTheorems.EveryCrashRecovers | einocli/chatctx/manager.go:168-190 | over any number of crashed runs exactly the user rows and the finished blocks remain, in order |
| TailReader.LinesAreTheRows | pkg/fileserver/fileserver.go:421-469 | the lines of a text are exactly its non-empty rows, each at the offset where it starts |
| TailReader.LinesRise | pkg/fileserver/fileserver.go:448-457 | they come in file order |
| TailReader.TailWindow | pkg/fileserver/fileserver.go:421-469 | one window yields a suffix of the lines before its end, with their offsets, and all that were asked for when it reaches the start of the file |
| TailReader.ReadTailFile | pkg/fileserver/fileserver.go:372-419 | the doubling reader ends and equals the last lines of the whole prefix, for every content, offset and count, errors included |
| TailReader.ReadTailBytes | pkg/fileserver/fileserver.go:342-370 | so does the whole-content fallback |
| TailFacts.LineInFile | pkg/fileserver/fileserver.go:421-469 | a returned line stands in the file at its offset and only line ends separate it from the next |
| TailFacts.AnchorIff | repository/chat_context.go:280-291 | the last line before an offset is a given row if and only if that row stands there, only line ends follow, and it keeps no carriage return |
| Paging.LoadMessagePage | repository/chat_context.go:256-345 | exactly when a request is refused for its limit, its cursor or its offset; otherwise the page that ends at the offset, or at the end of the file: tail read, backward extension, published cursor |
| Paging.ExtendPage | repository/chat_context.go:304-321 | the extension loop ends because the start offset falls |
| Paging.FirstValidRole | repository/chat_context.go:347-355 | the role of the first row that parses and is no system row, and none exactly when there is no such row |
| PagingTheorems.AppendKeepsPage | repository/chat_context.go:293-303 | no append changes the page or the verdict of a request with a cursor |
| PagingTheorems.CursorIff | repository/chat_context.go:269-291 | a cursor is accepted if and only if its row stands unchanged at its offset up to the boundary |
| PagingTheorems.StaleCursorRefused | repository/chat_context.go:269-291 | a request is refused as changed if and only if that fails |
| PagingTheorems.IssuedCursor | repository/chat_context.go:336-343 | an issued cursor is accepted after any appends if and only if its row does not end in a carriage return |
| PagingTheorems.PageOfRows | repository/chat_context.go:256-345 | on a file of rows a page is a contiguous run of rows with the cursor of its first row |
| PagingCover.EveryRowOnce | repository/chat_context.go:256-345 | for a file of any bytes, any page size, and however the file grows: if no cursor of the walk is refused, its pages hold every readable row exactly once with its offset, in order, also when the walk gets stuck, which its oldest page says |
| PagingCover.CleanCover | repository/chat_context.go:256-345 | so they do, and no request is refused, on every file in which no row ends in two carriage returns, from every accepted cursor on, and whatever the decoder does |
| PagingTheorems.ExactCover | repository/chat_context.go:256-345 | the instance for a file of encoded rows, whose walk also ends, at offset 0 |
| PagingTheorems.ReadableIsLoaded | repository/chat_context.go:362-417 | the paged rows are those that loading the file returns |
| PagingTheorems.PagesAreWholeRounds | repository/chat_context.go:304-321 | on a history of rounds every page is whole rounds and reaches back no further than the round it would have split |
| PagingTheorems.BlankHeadRepeats | repository/chat_context.go:293-345 | a page is empty and asks for itself again if and only if only line ends stand before its offset |
| PagingTheorems.FirstPageEndsIff | pkg/fileserver/fileserver.go:458-468 | a page of the whole file reports more if and only if the file starts with a blank row |
| PagingWalk.CleanWalkEndsIff | repository/chat_context.go:256-345 | for every file in which no row ends in two carriage returns and every page size the walk from the end is never refused, and it ends if and only if the file is empty, its first row has text, or its first readable row that is no system row is a tool row |
| PagingWalk.WalkEndsIff | repository/chat_context.go:256-345 | on any file: where no cursor is refused these conditions make it end, and on a blank first row nothing else does |
| PagingWalk.WalkIsNotRefused | repository/chat_context.go:269-291 | no cursor of a walk is refused on such a file |
| PagingWalk.StuckIsBadRequest | cmd/web/handler/session.go:79-83 | the empty page that asks for itself publishes a cursor that the handler answers with a bad request |
| PagingWalk.ReturnsAtTheHead | pkg/fileserver/fileserver.go:421-469 | a file of two bare carriage returns and a row: page by page the walk gets stuck, two rows at once it ends |
| PagingWalk.ReturnIsRefused | repository/chat_context.go:269-291 | an unchanged file on which the second request of a walk is refused |
| CacheModel.FitIsLongest | repository/chat_context_cache.go:135-143 | eviction keeps the longest most recently used prefix that fits |
| CacheModel.PutSurvivors | repository/chat_context_cache.go:113-143 | a stored history is the newest survivor and the others are that longest prefix |
| CacheModel.GetPutKeep | repository/chat_context_cache.go:91-143 | keys stay unique and the total within the budget |
| CacheModel.StepCoherent | repository/chat_context.go:506-695 | every load, append, failed append, rewrite and stitch of every session keeps each cached history the parse of its file or of one that has grown since |
| CacheModel.LoadsAreCurrent | repository/chat_context.go:362-417 | over every run, with file times that may never change, a load returns the parse of the current file |
| CacheModel.ChangedOutOfBand | repository/chat_context_cache.go:23-25 | a load after a change from outside returns the new history if and only if the size or the time changed or the history did not |
| CacheModel.StaleRead | repository/chat_context_cache.go:23-29 | an input on which it returns the old one |
| CacheModel.SameFingerprint | repository/chat_context.go:468-503 | fingerprints agree if and only if the trimmed files do, and then so do the histories |
| CacheModel.EstimateIs | repository/chat_context_cache.go:167-185 | the estimate of a history is the length of its text, its arguments and names included, and 256 for each message |
| CacheLedger.LoadsAreTheLedger | repository/chat_context.go:362-695 | over every run of loads, appends, failed appends, rewrites and stitches of all sessions a load returns the list that the operations on its session describe: what it began with, appended to, replaced, and with the first placeholder of an id answered by a row that takes over the clocks it lacks |
| CacheLedger.RecencyOrder | repository/chat_context_cache.go:91-143 | in every run the cached histories stand in the order of their last load, the oldest at the end where eviction begins |
| CacheLedger.CachedTextFits | repository/chat_context_cache.go:113-185 | in every run the texts of all cached histories, and 256 for each message, fit the budget |
| Cache.MessagesCache.Get | repository/chat_context_cache.go:91-109 | list, index and byte count after a lookup: moved to the front, dropped as stale, or untouched |
| Cache.MessagesCache.Put | repository/chat_context_cache.go:113-143 | and after a store with its evictions: the new item in front, or, when it alone exceeds the budget, no item of its key |
| Cache.MessagesCache.Invalidate | repository/chat_context_cache.go:147-157 | and after an invalidation |
| Cache.MessagesCache.RemoveElement | repository/chat_context_cache.go:160-165 | list and index stay in bijection and the byte count exact |
| Cache.EstimateBytes | repository/chat_context_cache.go:172-185 | the length of all contents, arguments and names together, and 256 for each message |
| Cache.ChatContextRepo.LoadAllMessages | repository/chat_context.go:362-417 | the loaded messages and the new cache are those of the load step |
| Cache.ChatContextRepo.AppendMessages | repository/chat_context.go:518-546 | file and cache after an append, or after one that failed half-way and left part of its rows behind the old bytes |
| Cache.ChatContextRepo.ReplaceMessages | repository/chat_context.go:557-583 | file and cache after a rewrite |
| Cache.ChatContextRepo.ReplacePlaceholderToolResult | repository/chat_context.go:601-695 | file and cache after a stitch, which happens if and only if a placeholder row of the id is found |
| Cache.ChatContextRepo.CountAndHash | repository/chat_context.go:468-503 | the number of messages that a load returns, and the digest of the trimmed file, empty for a blank one |
| CacheSimulation.Sessions.Open | repository/chat_context.go:196-216 | the first repository of a session joins the others over the shared cache |
| CacheSimulation.Sessions.LoadAllMessages | repository/chat_context.go:362-417 | after any operations of any sessions a load returns the parse of its session's file, and the objects hold what the model's run of all operations says |
| CacheSimulation.Sessions.AppendMessages | repository/chat_context.go:518-546 | the run grows by the append, whole or torn, and every repository and the cache still hold what it says |
| CacheSimulation.Sessions.ReplaceMessages | repository/chat_context.go:557-583 | the same for a rewrite, which happens if and only if it can be written |
| CacheSimulation.Sessions.ReplacePlaceholderToolResult | repository/chat_context.go:601-695 | the same for a stitch, which happens if and only if a placeholder row is found and can be written |
| Pipeline.FragmentsReachTheTranscript | einocli/runtime/round_adapter.go:353-403 | for any stream of a run, whatever came before it and comes behind it: the stored call of a complete position has the last name received by the fragment that completed it, and holds exactly its fragments, joined in order, if and only if none with text was forwarded after the call's round had closed |
| Pipeline.StreamReachesThePage | einocli/runtime/round_adapter.go:343-364 | the page is told what was said and thought before a stream, and then the text and the reasoning of its chunks, joined in order, also when the stream breaks |
| Pipeline.ClosedRunIsClean | einocli/round/lifecycle.go:119-127 | after any run closed on a history of rounds the file is one again: no scan cuts it and its pages are whole rounds |
| Pipeline.KilledRunRecovers | einocli/chatctx/manager.go:200-234 | a run killed after any event, with any prefix of a further block on disk, leaves, after BeginRun, the prior history, every round flushed with its late results, and the new users unless all of them are marked |
| Pipeline.EventGrows | einocli/round/builder.go:631-719 | every event of every run leaves the number of completed messages or appends exactly one block to them, with distinct and non-empty ids |
| Pipeline.CloseGrows | einocli/round/lifecycle.go:119-127 | so does the close-out |
| Pipeline.KilledInFlush | einocli/chatctx/manager.go:200-234 | a run killed while an event or its close-out flushes, with any number of that flush's rows on disk: the next BeginRun keeps the round if all are there, and nothing of it otherwise |
| AcpModel.StepKeeps | pkg/acp/maintenance.go:18-66 | every critical section of every caller keeps the protocol's invariant |
| AcpModel.ReapedForever | pkg/acp/conn.go:218-268 | a connection marked as reaped has no user in any continuation of any run |
| AcpModel.CloseOnlyIdle | pkg/acp/pool.go:89-119 | neither reaper nor maintenance terminates a connection in use, and nobody can claim it any more |
| AcpModel.BlockedKeyIsQuiet | pkg/acp/maintenance.go:30-66 | while a key is blocked one maintainer holds it, no creation of it is in flight, and every live connection of it that no Close gave up is marked and unused |
| AcpModel.QuietIff | pkg/acp/maintenance.go:30-66 | while a key is blocked no live process of it is in use if and only if none that a Close gave up is |
| AcpModel.AtMostOneHolder | pkg/acp/maintenance.go:57-65 | at most one maintainer holds a key, and a key is held if and only if it is blocked |
| AcpModel.NoUseWhileBlocked | pkg/acp/conn.go:218-234 | no connection of a blocked key gains a user |
| AcpModel.OnlyReleaseUnblocks | pkg/acp/maintenance.go:57-65 | only its maintainer's release unblocks a key |
| AcpModel.MaintainIff | pkg/acp/maintenance.go:30-52 | maintenance begins if and only if nothing of the key is opening and no live registered connection is transient or in use |
| AcpModel.ScanDropsIff | pkg/acp/conn.go:247-268 | a scan drops a tracked connection if and only if it is unused, unmarked, and dead or idle too long |
| AcpModel.AcquireIff | pkg/acp/conn.go:218-234 | a claim raises the use count by one if and only if the key is not blocked and the connection is alive and unmarked |
| AcpModel.ClaimsAdd | pkg/acp/conn.go:218-234 | such a connection is shared: any number of further claims in a row are all granted and counted |
| AcpModel.CreationIff | pkg/acp/maintenance.go:18-26 | a constructor begins, and is counted for its key alone, if and only if the key is not blocked |
| AcpModel.ScanIsRun | pkg/acp/pool.go:89-110 | a scan of the whole list is a run of single reaping steps |
| AcpModel.MarkedStaysTracked | pkg/acp/pool.go:95-109 | a marked connection stays on the reaper's list until shutdown |
| AcpModel.RetiredStaysListed | pkg/acp/maintenance.go:50-56 | a run in which maintenance closes a tracked connection: it is dead, marked and listed, and no later scan drops it |
| AcpModel.GivenUpConnStaysInUse | pkg/acp/conn.go:175-185 | a run in which a Close that gave up leaves a live user during maintenance |
| Acp.AgentConn.TryAcquireUse | pkg/acp/conn.go:218-234 | claims if and only if the key is not blocked and the connection is live and unmarked |
| Acp.AgentConn.TryBeginIdleReap | pkg/acp/conn.go:247-268 | marks exactly a live, unused, unmarked connection that is idle too long; a dead one is dropped without a mark |
| Acp.RuntimeMaintenance.BeginRuntimeMaintenance | pkg/acp/maintenance.go:30-56 | succeeds exactly under that condition, then marks exactly the key's live registered connections, and changes nothing otherwise |
| Acp.ConnPool.ReapIdleConns | pkg/acp/pool.go:89-119 | for any list, entries repeated or not: exactly the reapable entries are dropped, in order, a live one only the first time; exactly the live ones of them are marked, and nothing else changes |
| AcpSimulation.Runtime.BeginRuntimeCreation | pkg/acp/maintenance.go:18-26 | after it, run at any time, every connection object and both registries still hold what the model's run of all sections so far says; the run grows by this section |
| AcpSimulation.Runtime.EndRuntimeCreation | pkg/acp/maintenance.go:25 | the same for the end of a constructor |
| AcpSimulation.Runtime.StartProcess | pkg/acp/conn.go:486-497 | the same for a new connection, alive and not yet registered |
| AcpSimulation.Runtime.RegisterConn | pkg/acp/conn.go:537-539 | the same for the registration that ends a constructor |
| AcpSimulation.Runtime.TrackConn | pkg/acp/pool.go:29-37 | the same, and the connection is on the reaper's list unless the pool is closing |
| AcpSimulation.Runtime.Acquire | pkg/acp/conn.go:218-234 | the same, and the claim succeeds if and only if the use count grows |
| AcpSimulation.Runtime.ReleaseUse | pkg/acp/conn.go:236-242 | the same for a release, also one too many |
| AcpSimulation.Runtime.BeginRuntimeMaintenance | pkg/acp/maintenance.go:30-54 | the same; it succeeds if and only if the model's guard holds of the run so far, and what it returns may then be terminated |
| AcpSimulation.Runtime.EndRuntimeMaintenance | pkg/acp/maintenance.go:57-65 | the same for the one release of a maintainer that holds its key |
| AcpSimulation.Runtime.ReapIdleConns | pkg/acp/pool.go:89-110 | the same for the run of reaping steps of one scan, and what it returns may be terminated by the reaper |
| AcpSimulation.Runtime.Terminate | pkg/acp/conn.go:175-185 | the same for the first half of a Close, whether the process is seen to exit or not |
| AcpSimulation.Runtime.RemoveConn | pkg/acp/conn.go:182-184 | the same for its second half, which takes the connection out of the registry |
| AcpSimulation.Runtime.CloseAllConns | pkg/acp/pool.go:40-55 | the same for shutdown, which returns the whole list |
| AcpSimulation.ObjectsAreSafe | pkg/acp/maintenance.go:30-66 | after any critical sections: a marked object has no user and cannot be claimed, and while a key is blocked nothing of it is opening, none of its objects can be claimed, and its live registered ones are marked and unused |
| Locks.HoldsAreAccountedFor | repository/session_locks.go:98-122 | the lock's holds are the owners, the undelivered grants and the pending chasers |
| Locks.Exclusion | repository/session_locks.go:76-96 | two holders at once are both readers |
| Locks.GrantIff | repository/session_locks.go:76-122 | a lock call in flight can land if and only if no holder is in its way: readers share the lock, a writer needs it alone |
| Locks.ErroredNeverOwns | repository/session_locks.go:98-122 | a caller that received an error never owns the lock, and its hold is released exactly once if it lands |
| Locks.StepsDescend | repository/session_locks.go:98-122 | every step but a new request lowers the rank of the callers |
| Locks.EveryScheduleDrains | repository/session_locks.go:98-122 | every run of possible steps without new requests is no longer than the rank it uses up, and it cannot go on if and only if every caller is done and the lock is free |
| Locks.Drains | repository/session_locks.go:98-122 | from every reachable state some such run gets there |
| CodexAccount.CodexHome.ReplaceFiles | repository/codex_account.go:141-179 | outcome and files after a replacement that may crash between its steps; from the expected files it gets exactly as far as it runs |
| CodexAccount.CodexHome.RollbackFiles | repository/codex_account.go:181-195 | outcome and files after a rollback that may crash too |
| CodexAccount.ReplaceIff | repository/codex_account.go:141-179 | a replacement succeeds if and only if the files were `before`, and then they are `after` |
| CodexAccount.NeverOverwritesForeign | repository/codex_account.go:157-171 | a file is overwritten only where it held its `before` content |
| CodexAccount.RollbackIff | repository/codex_account.go:181-195 | rollback restores `before` if and only if each file is on one of its sides, and changes nothing otherwise |
| CodexAccount.RecoveryRestores | repository/codex_account.go:181-195 | after a crash anywhere and any number of crashed rollbacks, the next rollback restores exactly `before` |
| CodexAccount.ForeignSurvives | repository/codex_account.go:157-195 | a file that held neither side when the replacement began keeps its content through it and any number of crashed rollbacks |
| CodexAccount.SuccessMeansAfter | repository/codex_account.go:172-179 | with outside edits between the steps success still means `after`, reached by replacing each file only at its `before` content |
| AdapterModel.Reassembly | einocli/runtime/round_adapter.go:353-403 | with one id per position, every interleaving declares a complete call once, before its arguments and under the last non-empty name received by the fragment that completed it, forwards exactly its fragments in order, and forwards nothing for an incomplete one |
| AdapterModel.CollectIsCapped | einocli/runtime/round_adapter.go:235-342 | results are kept in order of first arrival, each exact or a proper prefix, within the per-tool and per-stream caps, the total being their sum; one is cut only where its own cap or the stream's is used up |
| AdapterModel.NothingTruncatedIff | einocli/runtime/round_adapter.go:308-336 | nothing is truncated if and only if every result fits its cap and all of them fit the stream's |
| AdapterModel.TerminalsAreTheResults | einocli/runtime/round_adapter.go:247-272 | each declared id that was seen gets one terminal, in order of first arrival: its whole text, or, if and only if it was cut, the proper prefix that was kept and the marker |
| AdapterModel.StreamIsItsParts | einocli/runtime/round_adapter.go:221-342 | however a stream interleaves, its tool calls are those of its fragments and its results those of its tool chunks |
| AdapterModel.StreamDelivers | einocli/runtime/round_adapter.go:247-278 | a stream that ends delivers its terminals after its calls and consumes exactly their failures; a broken one delivers none |
| AdapterModel.ChunkSpeaksFirst | einocli/runtime/round_adapter.go:353-403 | a chunk forwards its reasoning, then its text, and then nothing but tool calls |
| AdapterModel.VoicesOfStream | einocli/runtime/round_adapter.go:221-364 | a stream, broken or not, forwards all its text and all its reasoning, joined in order |
| Adapter.RoundAdapter.ForwardToolCall | einocli/runtime/round_adapter.go:366-402 | the adapter's whole new state after one fragment |
| Adapter.RoundAdapter.EmitToolTerminal | einocli/runtime/round_adapter.go:107-115 | the terminal is failed if and only if a failure was recorded, which is then gone |
| Adapter.RoundAdapter.ForwardStream | einocli/runtime/round_adapter.go:221-342 | the adapter's whole new state after a stream |
| Adapter.CollectText | einocli/runtime/round_adapter.go:287-339 | the stream-local maps after one piece of a tool result |
| ImageSize.ScaledImageDimensions | einocli/tokenizer/tokenizer.go:206-236 | the image itself when it fits, else the largest size of its orientation whose long edge and patch count are within the limits |
| ImageSize.FeasibleDownwards | einocli/tokenizer/tokenizer.go:227-234 | a smaller long edge is feasible whenever a larger one is |
| ImageSize.RoundedIsProportional | einocli/tokenizer/tokenizer.go:221-228 | exact rounding of the short edge has the shape that the solver needs |

## Left out

- HTTP routes, middleware, commands, the Swift and Web front ends, job, graph and scheduler services, subprocess spawning, signals and orphan cleanup: plumbing, foreign calls, or easy members.
- JSON text, SHA-256, FNV, file I/O and fsync are abstract; a last line torn inside a row is not part of this model, crashes happen between rows.
- The summary file: the summary is a field of the manager; saving and clearing it are not part of this model.
- `PersistErr`, the prompt slot of a connection (`activeSessionID`), `TouchLastUsed` and the session's update time: easy members.
- Logging, counters of late stitches, labels, previews, message ids, timing of assistant rows, image token caching.
- `strings.TrimSpace` is modelled for ASCII white space only.
- StoreTheorems.StitchKeepsBytesIff: so a file that begins or ends with another Unicode space is trimmed more by the program.
- RoundBuilder.Builder.FlushCurrentRound: the timing stamps and the message id of the assistant row are not part of the model's row.
- RecoveryTheorems.ChatContextManager.LoadMessagesForLLM: the mark `KeyIsSummary` on the summary message is not part of the model's message.
- `sanitizeMessageForPersist` (einocli/store/chat_context.go:146-178) rewrites oversized or invalid arguments before encoding and is not part of this model; a row stands for the message as it is encoded.
- Callbacks that race with one builder event between the release of its mutex and the flush: each event is one step.
- Tool-call ids that are reused within a history, beyond the soundness half of `Recovery.OrphanScan` and what is proved for histories of rounds.
- Recovery.OrphanScan: while an open id is declared again the scan is only claimed to be sound, because the code then gives one result to the earliest declaration alone.
- Cache.MessagesCache.Put: list elements are values, so the in-place refresh of an element shared by list and index is modelled as a removal and a push.
- TailReader.ReadTailFile: the file does not change during one read; short reads and I/O errors are not modelled.
- PagingTheorems.ExactCover: it is stated for files of encoded rows; files of any bytes are `PagingCover.EveryRowOnce` and `PagingCover.CleanCover`.
- PagingWalk.WalkEndsIff: where a row ends in two carriage returns it asks of the JSON parser that white space behind a value and an empty text change nothing, as does `PagingCover.EveryRowOnce`; on a first row of two or more bare carriage returns no condition without the page size exists, see `PagingWalk.ReturnsAtTheHead`.
- Pipeline.FragmentsReachTheTranscript: the ids declared in a run are distinct; `sanitizeMessageForPersist` behind it is not part of this model.
- AcpSimulation.Runtime.TrackConn: a connection is tracked once, as its constructor's caller does (pkg/acp/conn.go:345).
- CacheLedger.LoadsAreTheLedger: files begin as encoded rows and a failed append leaves whole rows; for any other bytes a load returns the parse of the file, see `CacheModel.LoadsAreCurrent`.
- CacheModel.LoadsAreCurrent: history files are changed only by the store; one that is edited by hand is `CacheModel.ChangedOutOfBand`, and deletion is not modelled.
- CacheSimulation.Sessions.Open: one object stands for all repository instances of a session, which hold nothing but its directory; here it holds the file.
- AcpModel.BlockedKeyIsQuiet: a connection given up by a Close before its process exited is excluded, see `AcpModel.QuietIff` and `AcpModel.GivenUpConnStaysInUse`.
- CodexAccount.CodexHome.ReplaceFiles: the compare and the write of one file are one step; home paths, directory creation and read errors are not modelled.
- Locks.Drains: the fairness of sync.RWMutex and its preference for waiting writers are not modelled; the lock grants any waiter it may grant.
- Adapter.RoundAdapter.ForwardStream: direct (non-streamed) messages and usage counting are not modelled; a missing failure registry is an empty one.
- ImageSize.ScaledImageDimensions: floating-point rounding is an abstract monotone function; callers pass positive sizes (einocli/tokenizer/tokenizer.go:142-144).
- The near-copies einocli/store/chat_context_cache.go, einocli/store/session_locks.go and pkg/tokenizer/tokenizer.go are modelled once.
