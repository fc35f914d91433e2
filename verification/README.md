# Lingtai kernel: a verified model

A Dafny model of the parts of the Lingtai agent kernel in which a fast, concurrent or incremental procedure
must agree with a simple specification, with proofs that it does, or of exactly when it does.
`dafny verify dfyconfig.toml` checks everything.

**Logs.** An append-only event log is read by a chunked tail-first reader, a bounded tail scan, a forward fold
and an indexed query (`LogLines`, `ReverseReader`, `AgentSession`). Files are byte sequences and lines are cut as
the respective reader cuts them; JSON decoding is an arbitrary function of one line. The live token counters
equal the log fold through rounds and molts, and after a restart exactly when its source allows (`TokenCounters`).

**Concurrency.** The API rate gate (`RateGate`) and the parallel search walker (`SearchWalk`, `SearchEnds`,
`SearchResults`, `SearchTree`) are state machines over atomic steps; the theorems hold for every interleaving. So
are concurrent writers of one file with crashes at any point (`AtomicFiles`), over names and inodes.

**Tool calls and history.** Sequential and parallel execution of a batch (`ToolExecutor`), the inbox of involuntary
calls spliced into the wire history (`TCInbox`, `InboxRuns`, `InboxCalls`), and the notification and snapshot blocks
that move along the history, mutated through aliases (`MetaBlock` on the heap, `MetaBlockRuns` over whole runs).

**Formats and configuration.** The Anthropic, Gemini and Responses forms of the history (`WireFormats`,
`GeminiTurns`, `ResponsesInput`, `WireContent`), and the two-pass configuration merge (`Presets`, `PresetLaws`,
`Capabilities`, `PresetBoot`).

Classes and loops of the program are classes and loops here, each proved against a function on values; the theorems
are then about those functions. Protocols are step relations with a history, and `Reaches` or `Leads` says that a
state comes about by some run.

## Where the code does less than one would expect

Each item names the exact condition under which the promise holds and a concrete run or input that breaks it.

- A log record that contains U+2028 (or another boundary only `str.splitlines` knows) makes the tail scan and the
  full scan disagree: condition `AgentSession.TiersAgree`, input `AgentSession.TiersCanDiffer`. Records are written
  without ASCII escaping by default, so such characters do occur.
- Token events that share the last boundary's timestamp make the indexed query over-count, and a restart that asks
  the index starts with those counters: conditions `AgentSession.IndexedTotals` and
  `TokenCounters.SessionManager.Restart`, inputs `AgentSession.TieOvercounts` and `TokenCounters.RestartAfterTie`.
- A restart with neither index nor log file but with a non-zero lifetime ledger starts the since-molt counters at
  the lifetime totals: condition `TokenCounters.SessionManager.Restart`, run `TokenCounters.RestartFromLedger`.
- A shutdown whose join times out can close the pool under the gate thread, and one submitter waits for ever:
  condition `RateGate.FuturesConserved`, run `RateGate.JoinTimeoutLosesFuture`.
- Grep tests a whole file before it looks at its lines. The builder's default is not multi-line, so an anchored
  pattern that matches a later line only is lost: condition `SearchTree.GrepFindsMatches`, input
  `SearchTree.AnchoredPatternLosesLine`.
- An injected notification pair does not record its payload's signature. When the payload last put on a tool result
  becomes active again, the stale pair stays the holder: condition `MetaBlockRuns.BatchIsCurrent`, run
  `MetaBlockRuns.InjectionHidesNews`.
- A molt keeps the last twenty entries by default and forgets the holder, so a kept payload stays on the wire with
  no owner: condition `MetaBlockRuns.OneCarrier`, run `MetaBlockRuns.MoltKeepsStray`. It does not forget the
  snapshot's signature, so an unchanged snapshot is not shown again: condition `MetaBlockRuns.SnapshotIsVisible`,
  run `MetaBlockRuns.MoltHidesSnapshot`.
- A stopped parallel batch also returns rejected calls behind the one that stopped it: condition
  `ToolExecutor.StoppedJoin`, run `ToolExecutor.StopBothWays`.
- Parsing a serialized history drops empty user entries (Anthropic): condition `WireFormats.AnthropicRoundTrip`,
  input `WireFormats.EmptyEntryIsLost`. It drops the other blocks of a user entry that starts with a result
  (Gemini): condition `GeminiTurns.GeminiRoundTrip`, input `GeminiTurns.RemarkIsLost`.
- A null for a core capability in init.json has no effect when the preset has a capabilities dict without that null:
  condition `PresetBoot.WhoOptsOut`, input `PresetBoot.NullAloneIsIgnored`. A preset entry that is not a dict
  discards the manifest's kwargs, and the file group after a file tool wipes that tool's kwargs: condition
  `PresetBoot.OwnKwargsSurvive`, inputs `PresetBoot.NonDictDiscards` and `PresetBoot.GroupWipes`.

## Model

| member | source | states |
|---|---|---|
| `LogLines.WindowHoldsWholeLines` | src/lingtai_kernel/tool_result_recovery.py:189-224 | the lines of the last `maxBytes` bytes, without the first segment when the window starts inside the file, are the file's own last lines: never a partial one |
| `LogLines.SplitConcat` | src/lingtai_kernel/tool_result_recovery.py:210-218 | cutting at `\n` a stretch that was read in two pieces fuses only the two lines that meet |
| `LogLines.LinesConcat` | src/lingtai_kernel/agent_session.py:363-366 | appending to a text that ends in a newline adds lines and changes none, for text-file iteration and for `splitlines` |
| `LogLines.TailLinesAreLines` | src/lingtai_kernel/agent_session.py:410-430 | a tail may start inside a line, a character or a multi-byte line boundary: without its first line it is a suffix of the whole text's lines |
| `LogLines.CutsAgree` | src/lingtai_kernel/agent_session.py:410-430 | on text whose only line boundary is `\n`, `splitlines`, text-file iteration and cutting at `\n` give the same non-empty lines |
| `ReverseReader.CarrySplit` | src/lingtai_kernel/tool_result_recovery.py:205-218 | carrying only the first line of what was read to the next older chunk loses and invents no line |
| `ReverseReader.ReverseLines.constructor` | src/lingtai_kernel/tool_result_recovery.py:197-204 | a new reader has exactly the non-empty, decodable lines of the window before it, newest first |
| `ReverseReader.ReverseLines.ReadChunk` | src/lingtai_kernel/tool_result_recovery.py:205-218 | reading one chunk moves the position back, stays in the budget and leaves the lines still to come unchanged |
| `ReverseReader.ReverseLines.Next` | src/lingtai_kernel/tool_result_recovery.py:205-224 | each call yields the newest line not yet yielded; it ends, with the whole window scanned, exactly when none is left. Nothing depends on the chunk size |
| `ReverseReader.PrefilterIsTransparent` | src/lingtai_kernel/tool_result_recovery.py:140-186 | when ids are written verbatim the search answers the same with the substring test as without it: the newest line that passes the exact field tests |
| `ReverseReader.FindLatestToolResult` | src/lingtai_kernel/tool_result_recovery.py:140-186 | the answer is the newest scanned line with the right type, id, name and result, counted within the event limit, or none if there is none |
| `ReverseReader.AnswerIsNewest` | src/lingtai_kernel/tool_result_recovery.py:155-184 | when ids are written verbatim, the answer is the newest scanned event of the right type, id and tool with a result, with that result, its time, its tool and its place; there is none exactly if no scanned event is one |
| `ReverseReader.Examine` | src/lingtai_kernel/tool_result_recovery.py:155-184 | the chain of field tests accepts exactly the wanted events |
| `AgentSession.GenerationStep` | src/lingtai_kernel/agent_session.py:363-401 | one forward step of the fold: a boundary resets, a token event adds, anything else changes nothing |
| `AgentSession.GenerationOfSuffix` | src/lingtai_kernel/agent_session.py:281-347 | only what follows the last boundary matters, so any tail that holds it gives the whole log's totals and boundary |
| `AgentSession.ScanBack` | src/lingtai_kernel/agent_session.py:298-330 | the backward loop stops at the newest boundary with the sums of everything after it, or has summed everything |
| `AgentSession.RebuildViaReverseScan` | src/lingtai_kernel/agent_session.py:281-347 | the bounded tail scan gives up exactly when the file is longer than the bound and the tail holds no boundary; otherwise all totals and the boundary are those of the forward fold over the whole file |
| `AgentSession.ScanForward` | src/lingtai_kernel/agent_session.py:350-402 | the forward loop computes the generation of the log: totals since the last boundary, and that boundary |
| `AgentSession.BlankLinesCountNothing` | src/lingtai_kernel/agent_session.py:366-370 | blank lines count for nothing, whatever the decoder would make of them |
| `AgentSession.RebuildViaFullScan` | src/lingtai_kernel/agent_session.py:350-402 | the full scan is the forward fold over the file's text lines |
| `AgentSession.IndexedTotals` | src/lingtai_kernel/agent_session.py:229-278 | on a log in time order the two indexed queries give the positional scan's five totals if and only if no earlier token event shares the last boundary's timestamp |
| `AgentSession.TailReadIsReverseRead` | src/lingtai_kernel/agent_session.py:410-430 | the one-shot tail read, reversed, equals what the chunked reader yields for the same budget |
| `AgentSession.Rebuild` | src/lingtai_kernel/agent_session.py:143-199 | which tier answers, and with what, for every file, index and flag |
| `AgentSession.TiersAgree` | src/lingtai_kernel/agent_session.py:363-426 | the tail scan's and the full scan's way of cutting a file give the same generation under every decoder, if and only if the file has no boundary that only `str.splitlines` knows |
| `AgentSession.ChainIsFullScan` | src/lingtai_kernel/agent_session.py:143-199 | on such a file the chain of tail scan and fallback gives what the full scan gives |
| `AgentSession.TiersCanDiffer` | src/lingtai_kernel/agent_session.py:363-426 | otherwise it is false: the bytes of a record whose `agent_name` holds U+2028 are one call to the full scan and none to the tail scan |
| `AgentSession.TieOvercounts` | src/lingtai_kernel/agent_session.py:229-278 | a token event and a boundary at one timestamp: the index counts the event, the positional scan does not |
| `AgentSession.IndexedBoundary` | src/lingtai_kernel/agent_session.py:229-278 | where boundaries are stamped with their own, distinct times, the index gives the positional scan's initiator always, and its start time unless that is zero |
| `TokenCounters.AppendRecord` | src/lingtai_kernel/services/logging.py:140-150 | appending a record and a newline to a log file appends that event to what the file reads back as |
| `TokenCounters.RecordsGeneration` | src/lingtai_kernel/session.py:759-770 | however the log file is cut into lines, reading it gives the generation of the events logged |
| `TokenCounters.SessionManager.TrackUsage` | src/lingtai_kernel/session.py:483-633 | a provider round keeps the live counters equal to the log fold since the last boundary |
| `TokenCounters.SessionManager.Molt` | src/lingtai_kernel/intrinsics/psyche/_molt.py:430-441 | a molt keeps the invariant: the boundary is in the log and every counter is zero |
| `TokenCounters.SessionManager.ResetSessionTokenUsage` | src/lingtai_kernel/session.py:876-896 | the reset zeroes every counter and re-anchors the runtime baselines |
| `TokenCounters.SessionManager.RestoreTokenState` | src/lingtai_kernel/session.py:898-920 | restoring sets the counters and re-anchors the baselines, so no delta is counted twice |
| `TokenCounters.SessionManager.Restart` | src/lingtai_kernel/base_agent/lifecycle.py:182-221 | after a restart, also after a crash between counter and log, the counters equal the log fold: with an event index if and only if no token event is tied with the boundary, without one if and only if there is a log file or the lifetime ledger is zero |
| `TokenCounters.RestartAfterTie` | src/lingtai_kernel/base_agent/lifecycle.py:182-200 | a round and a molt in one clock tick, then a restart that asks the index: the counters are not the log fold |
| `TokenCounters.RestartFromLedger` | src/lingtai_kernel/base_agent/lifecycle.py:202-207 | neither index nor file, and a ledger: the since-molt counters start at the lifetime totals |
| `TokenCounters.SessionManager.RuntimeSessionTokenUsage` | src/lingtai_kernel/session.py:665-710 | the runtime figures are the sums over the events since the last restart or molt |
| `TokenCounters.SessionManager.AgentSessionTokenUsage` | src/lingtai_kernel/session.py:772-801 | the since-molt figures are the log fold, with the cache misses never negative |
| `RateGate.PruneLoop` | src/lingtai/llm/api_gate.py:81-84 | the loop that pops expired timestamps off the front is the function the protocol steps use |
| `RateGate.PruneIsExact` | src/lingtai/llm/api_gate.py:81-84 | of a sorted deque exactly the timestamps younger than 60 seconds stay |
| `RateGate.WindowAfterPrune` | src/lingtai/llm/api_gate.py:81-84 | pruning keeps the deque the end of the dispatch history, all before it expired |
| `RateGate.PrunedIsRecent` | src/lingtai/llm/api_gate.py:81-95 | in every run, after a prune the deque holds exactly the dispatches of the last 60 seconds |
| `RateGate.WindowAfterRecord` | src/lingtai/llm/api_gate.py:101-102 | recording a dispatch with room in the window keeps every pair of dispatches `max_rpm` apart a minute apart |
| `RateGate.DispatchesAreSpaced` | src/lingtai/llm/api_gate.py:71-103 | in every run dispatch i + max_rpm is at least 60 seconds after dispatch i; the deque is a suffix of the sorted history |
| `RateGate.AtMostMaxPerWindow` | src/lingtai/llm/api_gate.py:71-103 | no half-open 60-second window holds more than `max_rpm` dispatches |
| `RateGate.MinuteIsEnough` | src/lingtai/llm/api_gate.py:87-103 | and nobody is held longer than needed: as long as stop is not set, whoever waits for the window can be dispatched within 60 seconds |
| `RateGate.FuturesNeverTwice` | src/lingtai/llm/api_gate.py:48-112 | items are taken first in, first out; no future is resolved twice; an item is executed exactly if its dispatch was recorded |
| `RateGate.FuturesConserved` | src/lingtai/llm/api_gate.py:48-112 | once everything has settled, an item put before the drain ended has its future resolved exactly once, if and only if its dispatch did not meet a closed pool; which it can meet only if some shutdown's five-second join timed out |
| `RateGate.JoinTimeoutLosesFuture` | src/lingtai/llm/api_gate.py:56-69 | a run of one shutdown call in which this happens: stop, sentinel, five seconds of join, drain of the sentinel, pool closed, then the dispatch; the submitter waits for ever |
| `RateGate.NoDispatchAfterStop` | src/lingtai/llm/api_gate.py:73-103 | once stop is set no dispatch is recorded ever after, unless the gate thread had tested stop just before |
| `RateGate.StopWinds` | src/lingtai/llm/api_gate.py:48-103 | once stop is set the gate thread takes at most four more steps, at most one more dispatch is recorded, and nobody is enqueued who had not passed the test before |
| `RateGate.GateCanMove` | src/lingtai/llm/api_gate.py:71-112 | and until it has ended the gate thread can always take a step |
| `RateGate.SentinelEnds` | src/lingtai/llm/api_gate.py:77-79 | a sentinel taken from the queue ends the gate thread for good |
| `RateGate.TimeoutTakesTime` | src/lingtai/llm/api_gate.py:56-69 | a join gives up no earlier than five seconds into a run |
| `RateGate.ShutdownStops` | src/lingtai/llm/api_gate.py:56-59 | whoever has entered shutdown has set stop |
| `RateGate.ShutdownReturns` | src/lingtai/llm/api_gate.py:56-69 | a shutdown call ends by closing the pool, which stays closed |
| `SearchWalk.Always` | crates/lingtai-search-sidecar/src/main.rs:423-585 | the invariant of every interleaving: slots, visits, reasons, ownership of entries and the content of the sink |
| `SearchEnds.WhyTruncated` | crates/lingtai-search-sidecar/src/main.rs:377-383 | in every run the recorded reason is one that occurred: more visits than `max_visited`, more slots asked for than `max_results`, or the wall time spent; and a joined walk recorded a reason and raised the stop flag if and only if one of them occurred |
| `SearchEnds.EnoughBudget` | crates/lingtai-search-sidecar/src/main.rs:423-555 | a walk whose budgets cover the tree, and that meets no spent wall time, is truncated under no schedule |
| `SearchEnds.AllVisited` | crates/lingtai-search-sidecar/src/main.rs:449-457 | an untruncated walk has counted every entry once |
| `SearchEnds.RunsAreFinite` | crates/lingtai-search-sidecar/src/main.rs:423-555 | no run is longer than a bound given by the tree |
| `SearchEnds.CanJoin` | crates/lingtai-search-sidecar/src/main.rs:423-555 | every run can be carried on to a join: no worker waits for a lock that is never released |
| `SearchEnds.SomeRunCompletes` | crates/lingtai-search-sidecar/src/main.rs:423-555 | so a walk with sufficient budgets has a run that joins untruncated |
| `SearchEnds.QuitIsFinal` | crates/lingtai-search-sidecar/src/main.rs:450-452 | a worker that saw or raised the stop flag takes no further step |
| `SearchEnds.OneCommitter` | crates/lingtai-search-sidecar/src/main.rs:531-548 | under grep at most one worker is between two hits of its file |
| `SearchResults.Bounds` | crates/lingtai-search-sidecar/src/main.rs:353-398 | under every interleaving the sink holds at most `max_results` hits and the visited counter exceeds its budget by at most one per worker |
| `SearchResults.CapReached` | crates/lingtai-search-sidecar/src/main.rs:531-548 | a walk that ends with reason `max_results` has exactly that many hits |
| `SearchResults.FirstReasonWins` | crates/lingtai-search-sidecar/src/main.rs:377-383 | in every run the recorded reason is that of the first worker to record one, so it is the same at every later moment |
| `SearchResults.SinkIsSound` | crates/lingtai-search-sidecar/src/main.rs:531-548 | at any moment every hit in the sink is a match, and each file's hits are in line order |
| `SearchResults.NothingMissed` | crates/lingtai-search-sidecar/src/main.rs:423-555 | without a recorded reason the sink holds exactly what the workers collect from the entries, however they interleave |
| `SearchResults.Emit` | crates/lingtai-search-sidecar/src/main.rs:556-579 | grouping, sorting and the emission loop with its late cap test give the capped, sorted hits |
| `SearchResults.SortIsStable` | crates/lingtai-search-sidecar/src/main.rs:556-565 | the sort of a file's hits orders them by line number and keeps hits of one line as they were |
| `SearchResults.EverythingOrdered` | crates/lingtai-search-sidecar/src/main.rs:556-579 | what is emitted is sorted by path and line and loses or adds nothing |
| `SearchResults.GrepIsExact` | crates/lingtai-search-sidecar/src/main.rs:423-585 | an untruncated grep emits exactly what the workers collect, in order |
| `SearchResults.GrepIsDeterministic` | crates/lingtai-search-sidecar/src/main.rs:423-585 | two untruncated greps of one tree return the same, whatever the schedules |
| `SearchResults.GlobIsExact` | crates/lingtai-search-sidecar/src/main.rs:624-698 | glob's final truncate removes nothing, and an untruncated glob emits exactly what the workers collect, in order |
| `SearchTree.GrepFindsMatches` | crates/lingtai-search-sidecar/src/main.rs:423-585 | an untruncated grep returns only matching lines of readable, size-eligible text files, in order; and it returns all of them if and only if the whole-buffer test accepts every such file that has one |
| `SearchTree.GrepCanComplete` | crates/lingtai-search-sidecar/src/main.rs:423-585 | such an untruncated grep exists whenever the budgets cover the tree |
| `SearchTree.AnchoredPatternLosesLine` | crates/lingtai-search-sidecar/src/main.rs:482-520 | the pattern `^b` on the lines a and b: an engine that anchors the whole-buffer test at the start of the buffer finds line 2, and no untruncated grep returns it |
| `SearchTree.GlobFindsFiles` | crates/lingtai-search-sidecar/src/main.rs:624-698 | an untruncated glob returns exactly the files whose path matches, in order |
| `TCInbox.Inbox.Enqueue` | src/lingtai_kernel/tc_inbox.py:71-83 | a coalescing item takes the place of the first one of its source, any other goes to the end |
| `TCInbox.Inbox.DrainInto` | src/lingtai_kernel/tc_inbox.py:92-136 | nothing happens exactly when the history ends in an assistant entry with a call; otherwise the queue is emptied and spliced item by item into history and tracker |
| `TCInbox.Inbox.RemoveByNotifId` | src/lingtai_kernel/tc_inbox.py:138-159 | exactly the first queued notification with this id goes; true if and only if there was one |
| `TCInbox.ChatInterface.RemovePairByCallId` | src/lingtai_kernel/llm/interface.py:662-709 | the first removable pair with this id goes, and nothing else |
| `TCInbox.ChatInterface.AddToolResult` | src/lingtai_kernel/llm/interface.py:614-660 | a result takes the place of its synthesized placeholder, or is appended |
| `InboxRuns.RemovePairAt` | src/lingtai_kernel/llm/interface.py:662-709 | removal hits exactly a spliced pair, wherever it stands among entries that do not mention its id |
| `InboxRuns.LiveIsUnsuperseded` | src/lingtai_kernel/tc_inbox.py:119-130 | an item stays in history exactly if no later drained item took its slot |
| `InboxRuns.ReplaceIs` | src/lingtai_kernel/tc_inbox.py:77-83 | a coalescing item takes the place of exactly the first queued item of its source, or goes to the end when there is none |
| `InboxRuns.EnqueuedAt` | src/lingtai_kernel/tc_inbox.py:71-83 | an enqueued item goes to the end, or, when it coalesces, to the place of the first one of its source |
| `InboxRuns.ItemsConserved` | src/lingtai_kernel/tc_inbox.py:71-159 | in every run each enqueued item is in exactly one of: queued, spliced, coalesced away, removed |
| `InboxRuns.SplicedOutcome` | src/lingtai_kernel/tc_inbox.py:92-136 | a superseded item has left no trace in history; any other spliced item is there as one call directly followed by its result, and nothing else mentions its id |
| `InboxRuns.UnsplicedUnseen` | src/lingtai_kernel/tc_inbox.py:71-159 | what is queued, coalesced away or dismissed never shows in history |
| `InboxRuns.OneSlot` | src/lingtai_kernel/tc_inbox.py:119-130 | each replace-in-history source has at most one pair in history, the newest drained one, and the tracker holds its id |
| `InboxRuns.TrackerIsExact` | src/lingtai_kernel/tc_inbox.py:119-130 | the tracker knows exactly the sources that have spliced such an item |
| `InboxCalls.CallsStayPaired` | src/lingtai_kernel/tc_inbox.py:92-136 | in every run whose own traffic answers each call right behind it, an assistant entry with a call is the newest entry or is directly followed by the user entry with its results, whatever is enqueued, dismissed and drained |
| `InboxCalls.RemovesFirstPair` | src/lingtai_kernel/llm/interface.py:662-709 | removal takes the first plain pair with this id: text and one call, then its result alone |
| `InboxCalls.RemovesNothingElse` | src/lingtai_kernel/llm/interface.py:662-709 | and without one it takes nothing |
| `InboxCalls.ResultFillsPlaceholder` | src/lingtai_kernel/llm/interface.py:614-660 | a result takes exactly the place of the first placeholder for its call in a user entry |
| `InboxCalls.ResultIsAppended` | src/lingtai_kernel/llm/interface.py:614-660 | a real result is never overwritten: without a placeholder the new one is appended |
| `InboxCalls.DismissesFirst` | src/lingtai_kernel/tc_inbox.py:138-159 | a dismissal takes the first queued notification with this id out of the queue and keeps the rest in order |
| `ToolExecutor.ExecuteSequential` | src/lingtai_kernel/tool_executor.py:1154-1173 | one result per call until one stops the batch; a cancel gives none; exactly the calls that pass the checks are dispatched, in order |
| `ToolExecutor.AnswerIsTrue` | src/lingtai_kernel/tool_executor.py:948-1152 | a rejected call is told why; of an executed one the model sees exactly the returned text and whether it failed, or the exception, or the timeout |
| `ToolExecutor.Partition` | src/lingtai_kernel/tool_executor.py:1184-1252 | phase 1 splits the calls into those to execute and the rejected ones, which have their answers |
| `ToolExecutor.Await` | src/lingtai_kernel/tool_executor.py:1361-1491 | after phase 2 each submitted call has its reply or an error: its own, the worker's, or the timeout's |
| `ToolExecutor.Join` | src/lingtai_kernel/tool_executor.py:1507-1556 | phase 3 hands the results back in input order, up to the call that stops the batch |
| `ToolExecutor.ExecuteParallel` | src/lingtai_kernel/tool_executor.py:1175-1556 | the three phases together, for any completions in any order, any timeout and any cancel; each call that passes the checks is submitted once and no other |
| `ToolExecutor.OneResultPerCall` | src/lingtai_kernel/tool_executor.py:1507-1556 | if nothing stops the batch, the parallel way returns one result per call, in input order, each with its own call's id |
| `ToolExecutor.OrderDoesNotMatter` | src/lingtai_kernel/tool_executor.py:1361-1375 | two completion orders of the same futures give the same joined results and the same stop text |
| `ToolExecutor.SameAsSequential` | src/lingtai_kernel/tool_executor.py:1154-1173 | the same ids as the sequential way, and the same messages wherever the worker was neither lost nor late |
| `ToolExecutor.StoppedJoin` | src/lingtai_kernel/tool_executor.py:1531-1545 | when a result stops the batch, the parallel way returns everything up to it and also exactly the later calls that were rejected, which the sequential way does not |
| `ToolExecutor.StopBothWays` | src/lingtai_kernel/tool_executor.py:1507-1556 | a first call that stops and a second one that is unknown: two results in parallel, one in sequence |
| `ToolExecutor.Execute` | src/lingtai_kernel/tool_executor.py:929-946 | whichever way is chosen: one result per call in order, and exactly the calls that pass the checks are dispatched, each once |
| `MetaBlock.SkeletonKeepsBlocks` | src/lingtai_kernel/meta_block.py:1797-1833 | taking the notifications off an ordinary result keeps its other blocks and its content |
| `MetaBlock.ShedKeepsBlocks` | src/lingtai_kernel/meta_block.py:2194-2205 | taking the agent snapshot off keeps the notifications and every other block |
| `MetaBlock.Agent.SkeletonizeNotificationHolder` | src/lingtai_kernel/meta_block.py:1797-1833 | through the alias exactly the holder's dict changes; the holder is forgotten |
| `MetaBlock.Agent.AttachActiveNotifications` | src/lingtai_kernel/meta_block.py:1906-2031 | the heap after the call is the value-level move: cleared, kept, or moved to the newest dict with the signature recorded |
| `MetaBlock.Agent.StripRuntimePending` | src/lingtai_kernel/meta_block.py:2123-2135 | the scaffolding goes from exactly the dicts of this batch |
| `MetaBlock.Agent.AttachActiveRuntime` | src/lingtai_kernel/meta_block.py:2208-2314 | the same for the agent snapshot: it moves exactly when it materially changed and the newest dict brought one |
| `MetaBlock.Agent.AfterToolBatch` | src/lingtai_kernel/base_agent/turn.py:1655-1697 | the turn loop: notifications first, only taken away after a molt, then the snapshot |
| `MetaBlock.Agent.InjectNotificationPair` | src/lingtai_kernel/base_agent/__init__.py:1511-1600 | the injected pair becomes the holder after the old one lost its payload; the recorded signature stays as it was |
| `MetaBlockRuns.OneCarrier` | src/lingtai_kernel/meta_block.py:1797-2031 | in every run the dicts on the wire that carry the payload are exactly the registered holder and those a molt kept while they were the holder |
| `MetaBlockRuns.SoleCarrier` | src/lingtai_kernel/meta_block.py:1797-2031 | when no molt keeps the holder, at most one dict on the wire carries the payload and it is the registered holder |
| `MetaBlockRuns.MoltKeepsStray` | src/lingtai_kernel/intrinsics/psyche/_molt.py:306-391 | a molt that keeps the holder's entry leaves a payload on the wire that no holder owns |
| `MetaBlockRuns.SignatureIsCarried` | src/lingtai_kernel/meta_block.py:1992-2025 | the recorded signature is that of the payload carried, whenever an ordinary result carries it |
| `MetaBlockRuns.BatchIsCurrent` | src/lingtai_kernel/meta_block.py:1976-2031 | after a batch with active notifications and a dict target the holder shows the current payload, if and only if it is not an injected pair with another payload behind a signature that matches again |
| `MetaBlockRuns.ToolBatchesStayCurrent` | src/lingtai_kernel/meta_block.py:1976-2031 | as long as notifications travel only on tool results, every such batch leaves the holder current |
| `MetaBlockRuns.QuietBatchClears` | src/lingtai_kernel/meta_block.py:1967-1980 | after a batch that finds every channel empty nothing on the wire carries a payload but what a molt left behind, and holder and signature are forgotten |
| `MetaBlockRuns.MoltedBatchClears` | src/lingtai_kernel/base_agent/turn.py:1655-1697 | a batch that molted clears the wire likewise, whatever is active |
| `MetaBlockRuns.PairIsCurrent` | src/lingtai_kernel/base_agent/__init__.py:1511-1600 | an injected pair is the newest dict, shows what was injected, and is the only carrier besides what a molt left behind |
| `MetaBlockRuns.MovedPairIsPlaceholder` | src/lingtai_kernel/meta_block.py:1797-1833 | in every run an injected body that lost its payload is a bare placeholder |
| `MetaBlockRuns.InjectionHidesNews` | src/lingtai_kernel/base_agent/__init__.py:1583-1601 | the exception is real: a result with one payload, an injected pair with another, the first payload again, and the holder stays stale |
| `MetaBlockRuns.NotificationFrame` | src/lingtai_kernel/meta_block.py:1797-2031 | moving notifications changes nothing of an ordinary result but its two notification blocks |
| `MetaBlockRuns.RuntimeFrame` | src/lingtai_kernel/meta_block.py:2194-2314 | moving the snapshot changes nothing of any dict but its two runtime blocks and the scaffolding |
| `MetaBlockRuns.ResultsArePermanent` | src/lingtai_kernel/meta_block.py:1797-2314 | along any run a tool result keeps its content, its `tool_meta` and every block that does not move |
| `MetaBlockRuns.NoScaffolding` | src/lingtai_kernel/meta_block.py:2253-2260 | no scaffolding is left after a batch |
| `MetaBlockRuns.SnapshotIsVisible` | src/lingtai_kernel/meta_block.py:2288-2314 | after a batch that brings a snapshot the wire shows it exactly when it changed or the dict that has it is still on the wire |
| `MetaBlockRuns.SnapshotLands` | src/lingtai_kernel/meta_block.py:2288-2314 | a changed snapshot lands on the newest dict as it was taken |
| `MetaBlockRuns.MoltHidesSnapshot` | src/lingtai_kernel/intrinsics/psyche/_molt.py:384-391 | a molt that drops that dict hides an unchanged snapshot: the signature is not forgotten |
| `WireFormats.ResultsAppend` | src/lingtai_kernel/llm/interface.py:614-660 | without placeholders in the history, results are appended as one entry, and no results add no entry |
| `WireFormats.ParseOne` | src/lingtai/llm/interface_converters.py:70-92 | what parsing makes of one serialized entry: lost if it is an empty user entry, refused if it interrupts open calls, its canonical form otherwise |
| `WireFormats.SerializeAnthropic` | src/lingtai/llm/interface_converters.py:29-47 | the loop gives one message per entry that is not a system entry |
| `WireFormats.ParseAnthropic` | src/lingtai/llm/interface_converters.py:70-92 | the loop folds the messages and stops at the first refusal |
| `WireFormats.AnthropicRoundTrip` | src/lingtai/llm/interface_converters.py:29-113 | serialize, parse, serialize gives back the first serialization, if and only if no user entry is empty and calls still open are followed by results only |
| `WireFormats.EmptyEntryIsLost` | src/lingtai/llm/interface_converters.py:70-92 | one empty user entry: one message on the wire, none after parsing |
| `GeminiTurns.SerializeGemini` | src/lingtai/llm/interface_converters.py:362-372 | the loop gives one turn per entry that is not a system entry |
| `GeminiTurns.ParseGemini` | src/lingtai/llm/interface_converters.py:395-412 | the loop folds the turns and stops at the first refusal |
| `GeminiTurns.GeminiRoundTrip` | src/lingtai/llm/interface_converters.py:362-430 | the same for Gemini turns, if and only if user entries that start with a result hold only results and every other user entry comes when no call is open |
| `GeminiTurns.MixedLoses` | src/lingtai/llm/interface_converters.py:406-408 | a user entry that starts with a result and holds something else comes back without it |
| `GeminiTurns.RemarkIsLost` | src/lingtai/llm/interface_converters.py:395-412 | a result followed by a remark: the remark is gone after parsing |
| `WireContent.TurnsAre` | src/lingtai/llm/interface_converters.py:33-36 | the turns are the entries that are not system entries, each in its place |
| `WireContent.AnthropicSays` | src/lingtai/llm/interface_converters.py:29-67 | each message holds its entry block by block: ids, names, arguments, texts and result contents; a user's lone text goes as a string |
| `WireContent.AnthropicKeepsContent` | src/lingtai/llm/interface_converters.py:29-113 | for every history that the round trip is safe for, the parsed serialization is the prompt and then every turn with its role and, block by block, its text, thought, call or result |
| `WireContent.GeminiSays` | src/lingtai/llm/interface_converters.py:362-392 | the same for the blocks of Gemini turns |
| `WireContent.GeminiKeepsContent` | src/lingtai/llm/interface_converters.py:362-430 | and for what comes back from them |
| `WireContent.LateResultFills` | src/lingtai_kernel/llm/interface.py:614-660 | a result that comes late takes the place of the first placeholder for its call in a user entry |
| `ResponsesInput.PairOrphanCalls` | src/lingtai/llm/interface_converters.py:190-250 | the loop appends one placeholder block to the unchanged input |
| `ResponsesInput.OrphansAre` | src/lingtai/llm/interface_converters.py:224-249 | one placeholder per distinct, non-empty, unanswered call id |
| `ResponsesInput.OrphanOrder` | src/lingtai/llm/interface_converters.py:235-249 | the placeholders follow the order of the first calls |
| `ResponsesInput.EveryCallAnswered` | src/lingtai/llm/interface_converters.py:190-250 | after the guard every call with an id has an output |
| `ResponsesInput.GuardIsIdempotent` | src/lingtai/llm/interface_converters.py:190-250 | guarding twice is guarding once |
| `ResponsesInput.SerializeResponses` | src/lingtai/llm/interface_converters.py:253-354 | the loops give reasoning, text and calls of each assistant entry in this order, results or text of each user entry, then the guard |
| `WireContent.ItemsInOrder` | src/lingtai/llm/interface_converters.py:278-354 | the items of an entry stand together behind those of the entries before it |
| `WireContent.AssistantItems` | src/lingtai/llm/interface_converters.py:304-353 | within an assistant entry: its thoughts, its joined text if it is not empty, its calls |
| `WireContent.OutputsAre` | src/lingtai/llm/interface_converters.py:283-297 | each result of a user entry is one output with its id and content, in the place of its order |
| `WireContent.CallsAre` | src/lingtai/llm/interface_converters.py:336-342 | each call is one item with its id, name and arguments, in the place of its order |
| `WireContent.ThoughtsAre` | src/lingtai/llm/interface_converters.py:311-335 | each thought with a stored item or with text is one item, in the place of its order |
| `WireContent.TextsAre` | src/lingtai/llm/interface_converters.py:297-309 | each text is one part, in the place of its order |
| `WireContent.JoinedByNewlines` | src/lingtai/llm/interface_converters.py:297-303 | each further part goes on a line of its own |
| `ResponsesInput.PrefixIsStable` | src/lingtai/llm/interface_converters.py:224-354 | a serialization without its placeholder tail is a prefix of the serialization of every history that extends it |
| `ResponsesInput.AnsweredPrefixIsStable` | src/lingtai/llm/interface_converters.py:224-354 | when every call is answered, so is the whole serialization |
| `Presets.ManifestData.MaterializeActivePreset` | src/lingtai_kernel/presets.py:396-521 | in-place materialization with fallback is the value-level one; on an error the manifest is unchanged |
| `Presets.ManifestData.MergeCapabilities` | src/lingtai_kernel/presets.py:468-517 | the three merge loops: overrides key by key, core kwargs carried along, skill paths appended |
| `PresetLaws.SettingsSwapped` | src/lingtai_kernel/presets.py:443-448 | every setting of the chosen preset replaces the manifest's, but for the context limit, which moves to the root and stays when the preset has none |
| `PresetLaws.CapabilitiesSwapped` | src/lingtai_kernel/presets.py:468-521 | the manifest's capabilities are merged into the preset's; a preset without any leaves them exactly as they are, and a field that is no dict replaces them |
| `PresetLaws.MergedIs` | src/lingtai_kernel/presets.py:480-500 | what each capability other than skills becomes |
| `PresetLaws.SkillsPaths` | src/lingtai_kernel/presets.py:501-517 | skill paths are the preset's list followed by the manifest's distinct extras in order |
| `PresetLaws.MergeAgain` | src/lingtai_kernel/presets.py:468-517 | merging into what was merged changes nothing |
| `PresetLaws.MaterializeTwice` | src/lingtai_kernel/presets.py:355-521 | materializing twice is materializing once, also with the fallback and with the context limit |
| `Capabilities.NothingMerges` | src/lingtai/capabilities/__init__.py:108-144 | on a dict, whose names are distinct, the merge of entries of one name (with its skill paths) never happens: normalizing only turns nulls into empty kwargs |
| `Capabilities.MergedPaths` | src/lingtai/capabilities/__init__.py:119-140 | were two skills entries to meet, their paths would be joined without repeats, the newcomer's first |
| `Capabilities.Normalize` | src/lingtai/capabilities/__init__.py:108-144 | the loop with its merge branch, on a dict |
| `Capabilities.Resolve` | src/lingtai/agent.py:1326-1355 | group expansion, normalization with the nulls put back, defaults and disables, as the boot runs them |
| `Capabilities.FindExpand` | src/lingtai/agent.py:1337-1347 | expansion keeps every entry, unless the file group stands after a file tool and wipes its kwargs |
| `Capabilities.FindDefaults` | src/lingtai/capabilities/__init__.py:73-105 | what each name resolves to: null takes the default away, a dict is merged into it |
| `PresetBoot.BootedIs` | src/lingtai/agent.py:1326-1355 | both passes together, for every core capability other than skills |
| `PresetBoot.OwnKwargsSurvive` | src/lingtai_kernel/presets.py:480-500 | init.json kwargs of a core capability reach the agent with their values, if and only if it is not disabled and the preset omits it or gives it a dict (and does not list the file group after a file tool that has kwargs) |
| `PresetBoot.WhoOptsOut` | src/lingtai/capabilities/__init__.py:87-101 | a core capability stays off exactly when it is disabled or the preset nulls it: a null in init.json alone has no effect |
| `PresetBoot.NullAloneIsIgnored` | src/lingtai_kernel/presets.py:480-500 | bash null in init.json, a preset with an empty capabilities dict: bash is booted |
| `PresetBoot.NonDictDiscards` | src/lingtai_kernel/presets.py:480-500 | the preset gives bash `true`: its init.json kwargs do not reach the boot |
| `PresetBoot.GroupWipes` | src/lingtai/agent.py:1337-1347 | the preset lists read and then the file group: read's init.json kwargs do not reach the boot |
| `PresetBoot.SkillPathsReachBoot` | src/lingtai_kernel/presets.py:501-517 | the appended skill paths are what the agent boots with, even when the preset nulls skills |
| `PresetBoot.CoreDefaultsTable` | src/lingtai/capabilities/__init__.py:58-70 | the default table of the source has the shape these laws need |
| `AtomicFiles.TargetIsWhole` | src/lingtai_kernel/_fsutil.py:76-116 | under any interleaving, failure and crash the target holds its first content or the whole text of the last writer that renamed |
| `AtomicFiles.OthersUntouched` | src/lingtai_kernel/_fsutil.py:55-116 | no other file of the directory changes |
| `AtomicFiles.OwnTempOnly` | src/lingtai_kernel/_fsutil.py:55-116 | a step of one writer leaves every other writer's temporary file alone |
| `AtomicFiles.ReaderIsUndisturbed` | src/lingtai_kernel/_fsutil.py:76-116 | whoever has the target open keeps reading the same whole text |
| `AtomicFiles.NoTempLeft` | src/lingtai_kernel/_fsutil.py:97-115 | when all writers have finished without a crash or a failed unlink no temporary file is left |
| `AtomicFiles.WriterSucceeds` | src/lingtai_kernel/_fsutil.py:76-116 | from any moment on, a writer that has not failed can bring its text to the target by its own steps, whatever the others have done and whatever is there |
| `AtomicFiles.SharedNameTears` | src/lingtai_kernel/_fsutil.py:55-73 | with one shared temporary name three writers can put a half-written file onto the target |

## Left out

- AgentSession.IndexedTotals: compares the five totals; the boundary row that the first query picks among rows with equal timestamps is only known to carry the latest timestamp.
- AgentSession.RebuildViaFullScan: a byte sequence that is not valid UTF-8, which the text reader refuses, is not modelled; neither are the scanned-event counts and rendered start times of a session.
- RateGate.FuturesConserved: says nothing about an item enqueued after shutdown's drain has ended, or about the delay between dispatch and execution in the pool.
- SearchTree.GrepFindsMatches: the regular-expression engine is three arbitrary functions (UTF-8 test, whole-buffer test, line search), the last of which reports lines in ascending order.
- SearchWalk.Always: the directory walker is a contract (each unpruned entry goes to one worker, none after a quit); its pruning, the skip counters of the response and the path rendering are not modelled.
- InboxRuns.ItemsConserved: ordinary conversation only appends entries that mention no queued or spliced id; truncation and the rebuild of the history at a molt are not part of these runs.
- ToolExecutor.AnswerIsTrue: summaries made on request before a result is shown, and what is stamped onto results, are not modelled.
- ToolExecutor.ExecuteParallel: the result hook and the metadata builders do not raise; in the source a hook that raises becomes an error result in the sequential way and escapes from the parallel one.
- MetaBlockRuns.BatchIsCurrent: tool results bring neither of the moving blocks themselves, and a metadata builder that raises is not modelled.
- MetaBlock.Agent.AttachActiveNotifications: signatures are the values they sign, since the JSON rendering of channel data is injective; the filesystem fingerprint that is committed beside them is not modelled.
- ResponsesInput.PrefixIsStable: holds for histories that grow at the end; the OpenAI Chat Completions form is not modelled.
- WireFormats.AnthropicRoundTrip: argument objects and dumped contents are opaque strings, and wire blocks of unknown type do not occur.
- PresetLaws.MaterializeTwice: skill paths are lists of strings; a `paths` value that is neither a list nor empty is read as no paths. Preset normalization while loading and the resolution of environment names are not modelled.
- TokenCounters.SessionManager.Restart: assumes that an index mirrors the log; the event index is written fail-open, so a real one may miss rows, and with them their tokens.
- TokenCounters.AppendRecord: assumes records that read back as the event written under either way of cutting lines; a record with a boundary that only `str.splitlines` knows, which can occur, does not (`AgentSession.TiersCanDiffer`).
- TokenCounters.SessionManager.TrackUsage: one record is appended as a whole; torn writes, ratios and rounding are not modelled.
- Reading back JSONL records one by one and taking the last n of them (`iter_jsonl_records`, `tail_jsonl_records`) would only add easy members; log reading is modelled in `AgentSession`.
- AtomicFiles.TargetIsWhole: a crash stops a writer between two steps and loses no data already written; power loss without fsync is not modelled.
- Regular expressions, JSON parsing and SQLite are arbitrary functions or contracts.
- Provider calls, subprocesses, mail, logging, prompts and the lock file of the working directory add no invariant of this kind.
