# arbiter: a verified model of the agent runtime's core

This project models the parts of arbiter, a C++ runtime for LLM agents, whose correctness is
a matter of interleavings, whole runs or round trips, and proves what those parts promise.
`dafny verify dfyconfig.toml` checks everything. Nothing here runs the original program.

**The provider call protocol** (`CircuitBreaker`, `CallProtocol`, `CallObligations`, `CallRecords`,
`ConnectionPool`, `ConnectionLimit`, `Cancellation`, `LockOrder`, `ProtocolWitnesses`). Any number
of threads run `complete()` and `stream()` on any number of clients that share one circuit
breaker. Every atomic load, store, lock, wake-up, breaker call and network outcome is one step of a transition
system, and the results hold after every finite sequence of steps. The breaker is a class
whose methods are proved against the replay of the calls it received. Time is a clock in ticks;
network outcomes, preflight answers and the offline setting are arguments of the steps.

**Context compaction** (`Compaction`, `CompactionRuns`, `CompactionBoundary`,
`AgentConversation`). A summary and an index stand for a prefix of a conversation. An attempt
takes a snapshot under the lock and commits later, so appends, replacements and other attempts
can fall in between. The summarizer's answer is an argument; the slices it was given are kept in
a log. The agent is a class over maps from conversation keys to histories and states.

**Writs, shell words and dispatch** (`WritParser`, `WritWords`, `WritTruncation`, `WritRoundTrip`,
`ExecTokenizer`, `Dispatch`, `Dispatching`, `DispatchProperties`, `ToolEvents`, `Base64`). The reply parser and
the `/exec` tokenizer are loops proved against a batch definition and a grammar. `Dispatch`
specifies the dispatcher's turns, `Dispatching` is its code: a class with the branches, their
counters and early exits, that logs every callback it makes. What the callbacks answer, and what
a sub-agent leaves in the shared cache, is an argument. `ToolEvents` interleaves any number of turns
that draw their event ids from one counter.

**Byte streams and the file cap** (`StreamLines`, `HttpHeaders`, `FileCap`). Incremental readers
are proved to depend on the bytes alone, not on how they were cut. The byte reservation loop is
stepped by any number of threads; loads may see any value and swaps may fail spuriously.

## What the code does not keep

Eight promises hold only under a condition. Each has a run or an input at which it fails and
a theorem that says exactly when it holds.

* A half-open breaker can be stranded. The offline setting is asked after the breaker, and
  `stream()` catches only `std::exception`. `HalfOpenHasItsProbe` says which probes owe their
  report, from the client's setting and the exchange's outcome alone; `NeverStranded` follows
  for a uniform setting; `OfflineClientStrands` and `ForeignThrowStrands` reach the state, and
  `StrandedForever` shows that every later call is then refused.
* The limit of 16 connections can be exceeded. A lease checks for cancellation inside its wait
  and again after it; if the first check says cancelled at a full pool and the second does not,
  it takes one more than the limit allows. `OverLimitExactly` shows this is the only way. That
  needs a `clear_hard_cancel()`, though not one between the two checks: `ClearOverfillsPool` has it
  there, `StaleFlagOverfillsPool` before both, with the ephemeral flag still up. `PoolLimit`
  says which clears are harmless.
* A successful compaction need not advance. Attempts that overlap commit in any order and a
  commit does not look at what was installed since its snapshot: `OverlapRegresses` takes the
  cut back. `SlicesAreThePrefix` holds for attempts one at a time, `CommitAdvancesExactly` for
  each commit.
* Replacing a history while an attempt is in flight can install the old summary before the new
  messages: `CommitConservesExactly` and `ReplaceRaceLoses`.
* A continuation need not leave the history as it found it. The lock is not held during the model
  call, and afterwards the last two messages are popped, whatever they are. `PopsRestoreExactly`
  says when that restores the history, and when there is nothing to pop; `ArrivalIsPopped` loses a
  message. Where a single message is kept, an attempt that starts in that window summarizes the
  partial reply: `WindowCut` says when, `WindowSnapshotLoses` reaches the loss.
* Commands run on the host unasked. The documented opt-in makes the host's shell the wired exec
  backend, and a wired backend confirms destructive commands only: `HostRunsUnasked`.
  `HostTouchedConfirmedExactly` says which calls are confirmed.
* A cached result need not be of the same turn. `/agent` shares the cache with the sub-agent's
  turn: `DelegatedResultReplays`. `CachedWasDone` says where every entry comes from.
* The header says a failed `run_compaction` leaves the state unchanged. The code has already
  sanitized it: `FailureLeavesStateIffSane` and `FailureCanResetState`. Its only caller,
  `maybe_compact`, passes sane states, because every slot stays sane (`Agent.Valid`).

## Model

| member | source | states |
|---|---|---|
| `CircuitBreaker.EntryInvariant` | src/circuit_breaker.cpp:41-108 | after every history of calls a probe is in flight exactly when half-open; while closed the counter is the failures since the last success and is below the threshold |
| `CircuitBreaker.TripsExactlyAtThreshold` | src/circuit_breaker.cpp:78-96 | a closed breaker opens at exactly the failure that completes a threshold-long run without a success, and never goes straight to half-open |
| `CircuitBreaker.HalfOpenRejects` | src/circuit_breaker.cpp:57-63 | while a probe is out nobody else is admitted and the entry does not move |
| `CircuitBreaker.StateMovesExactly` | src/circuit_breaker.cpp:41-108 | after every history a call moves the state exactly so: closed to open at the failure that completes the threshold, open to half-open at an admission check a whole cooldown after the last opening, half-open to closed at a success and to open at any other report; and a call is let through if and only if the breaker is closed or that cooldown is over |
| `CircuitBreaker.CooldownElapsed` | src/circuit_breaker.cpp:47-52 | an elapsed time that truncates to at least the cooldown in whole seconds is at least the cooldown in clock ticks |
| `CircuitBreaker.AdmissionsPaced` | src/circuit_breaker.cpp:41-108 | since the opening, k admissions need k cooldowns up to the last call, and up to the last opening if open again |
| `CircuitBreaker.AdmissionBound` | src/circuit_breaker.cpp:41-108 | from the opening until the next close the number of admitted calls times the cooldown never exceeds the elapsed time |
| `CircuitBreaker.ProviderCircuitBreaker.constructor` | src/circuit_breaker.cpp:32-39 | a new breaker knows no provider |
| `CircuitBreaker.ProviderCircuitBreaker.Allow` | src/circuit_breaker.cpp:41-66 | the answer and the new entry are those of the provider's replayed history; other providers are untouched |
| `CircuitBreaker.ProviderCircuitBreaker.RecordSuccess` | src/circuit_breaker.cpp:68-76 | one success is added to the provider's history and the entry is its replay; other providers are untouched |
| `CircuitBreaker.ProviderCircuitBreaker.RecordFailure` | src/circuit_breaker.cpp:78-96 | one failure is added to the provider's history and the entry is its replay; other providers are untouched |
| `CircuitBreaker.ProviderCircuitBreaker.RecordAbandoned` | src/circuit_breaker.cpp:98-108 | one abandoned probe is added to the provider's history and the entry is its replay; other providers are untouched |
| `CallObligations.ExactlyOneRecord` | src/api_client.cpp:1422-1590 | in every run a returned call asked the breaker exactly once unless refused at entry, and reported exactly once if and only if it was admitted, its client is online and no exception outside `std::exception` has left its stream, otherwise not at all |
| `CallRecords.RecordsAreTruthful` | src/api_client.cpp:1476-1590 | in every run, from the outcomes of a call's own exchanges: its record is a success if and only if one was answered, a failure if and only if the last could not connect, got a final error or used up the four or three attempts, abandoned if and only if a check or latch of its own stopped it; every exchange but the last could be retried; and a returned call to which one of these happened has filed it |
| `CallRecords.TokenStopsCall` | src/api_client.cpp:1476-1498 | once its token is cancelled, a call that is not at an exchange or past it makes no further exchange in any continuation and files nothing but abandoned |
| `CallRecords.TokenLeavesOneExchange` | src/api_client.cpp:1491-1498 | wherever a call is when its token is cancelled, it makes at most the exchange it is at |
| `CallObligations.BreakerIsReplay` | src/api_client.cpp:1443-1590 | in every interleaving the shared breaker's entry is the replay of the logged calls, so the admission bound holds of it |
| `CallObligations.HalfOpenHasItsProbe` | src/api_client.cpp:1936-2057 | in every run, with any mixture of online and offline calls, a half-open breaker has a known probe; past the offline check it owes its report if and only if its client is online and no exception outside `std::exception` has left its stream |
| `CallObligations.ReportResolvesProbe` | src/circuit_breaker.cpp:68-108 | the report of the awaited probe takes the breaker out of half-open |
| `CallObligations.NeverStranded` | src/api_client.cpp:1936-2057 | with one offline answer for all calls and no foreign exception a half-open breaker always has a live call that will report |
| `CallObligations.StrandedForever` | src/circuit_breaker.cpp:57-63 | a half-open breaker with nobody left to report stays so through every continuation and admits nobody |
| `ConnectionPool.PoolConservation` | src/api_client.cpp:535-571 | in every run idle and leased connections are disjoint, free of duplicates and together all of the pool; no connection is leased twice; a pool mutex has one owner; a cancelled wait holds no connection |
| `ConnectionLimit.PoolLimit` | src/api_client.cpp:535-559 | no pool exceeds 16 connections in any run whose clears of the sticky bit are harmless where they happen: no `cancel()` half done or showing in the ephemeral flag, and no lease about to reread the bit at a full pool with a live token; whatever else is cancelled |
| `ConnectionLimit.RunKnowsCause` | src/api_client.cpp:538-556 | in every run a lease being decided at a full pool left its wait cancelled, and one about to take a connection has passed its second check since |
| `ConnectionLimit.OverLimitExactly` | src/api_client.cpp:538-556 | in every run a pool has passed 16 connections if and only if some lease of its client left the wait cancelled at a full pool, was told by its second check that nothing is cancelled, and took a connection |
| `ProtocolWitnesses.OfflineClientStrands` | src/api_client.cpp:1443-1466 | one online and one offline client reach a half-open breaker that nobody will ever resolve |
| `ProtocolWitnesses.ForeignThrowStrands` | src/api_client.cpp:1990-2023 | with every client online, a streaming probe left by a foreign exception reaches a half-open breaker that nobody will ever resolve |
| `ProtocolWitnesses.ClearOverfillsPool` | src/api_client.cpp:535-559 | a run with a clear between the two checks of a waiting lease reaches 17 connections |
| `ProtocolWitnesses.StaleFlagOverfillsPool` | src/api_client.cpp:497-559 | so does a run whose cancel and clear both precede the first check: it sees the ephemeral flag, which an entering call drops before the second |
| `Cancellation.TokensStayLocal` | src/api_client.cpp:497-533 | without `cancel()` and without a failing preflight, token cancels leave every client flag down and a call is abandoned only for its own token |
| `Cancellation.CancelIsSticky` | src/api_client.cpp:1426-1498 | while the sticky bit is set a call that has yet to read it takes no connection and makes no exchange, one past it makes at most one more, and later calls are refused at entry without asking the breaker, despite stores to the ephemeral flag |
| `Cancellation.RefusalSticks` | src/api_client.cpp:518-528 | after a preflight refuses a call, the client's sticky bit is set until somebody clears it, unless the refused call is still about to store it; in a stream it is set at once |
| `Cancellation.RetriesBounded` | src/api_client.cpp:1476-1590 | in every run no `complete()` makes more than four exchanges and no `stream()` more than three |
| `Cancellation.ReportsInBoundedSteps` | src/api_client.cpp:1476-1590 | once its lease is decided a call has after 31 of its own steps reported, whatever happens in between, if and only if it is not a stream that a foreign exception left |
| `LockOrder.OperationsRanked` | src/api_client.cpp:418-495 | every client operation, for any tokens, owners, pools and wake-ups, nests its mutexes in the order tokens, token, pool map, pool |
| `LockOrder.DeadlockFree` | src/api_client.cpp:404-607 | in every run of client operations no cyclic wait exists, and while any thread has work left some thread can step |
| `Compaction.CutUnique` | src/context_compaction.cpp:37-61 | the cut is determined by the history and the window |
| `Compaction.ComputeCutIndex` | src/context_compaction.cpp:37-61 | the cut is zero, or the greatest index of a real user turn that leaves at least the window |
| `Compaction.CutExactly` | src/context_compaction.cpp:30-61 | the kept tail starts on a user turn that is no tool-result frame, holds at least the window, and is the shortest such tail |
| `Compaction.SanitizeExact` | src/context_compaction.cpp:370-380 | sanitizing changes exactly the states that cover more than the history or cover something without a summary, and leaves a sane one |
| `Compaction.BuildModelMessages` | src/context_compaction.cpp:63-83 | the view is the whole history, or the summary envelope followed by exactly the uncovered messages |
| `Compaction.ViewCarriesSummary` | src/context_compaction.cpp:63-83 | the view of a summarized history opens with a user message that holds the whole summary between its markers and an assistant message, and goes on with what is not covered |
| `Compaction.ViewsTellSummariesApart` | src/context_compaction.cpp:63-83 | different summaries at the same cut give different views |
| `Compaction.ViewAlternates` | src/context_compaction.cpp:63-83 | an alternating history is shown alternating when the kept tail starts on a user turn |
| `Compaction.RunCompaction` | src/context_compaction.cpp:328-368 | succeeds exactly when there is a cut past the covered part, a model and an answer; then summary, cut, generation, boundary and slice are as specified, otherwise the state is the sanitized one |
| `Compaction.FailureLeavesStateIffSane` | include/context_compaction.h:145-146 | a failed attempt leaves the state as it was if and only if that state was sane |
| `Compaction.FailureCanResetState` | src/context_compaction.cpp:328-345 | an input at which the header's promise fails: without a model, a covered count without a summary comes back reset |
| `Compaction.SuccessAdvances` | src/context_compaction.cpp:328-368 | a successful attempt moves the cut strictly forward, adds one generation and cuts at a real user turn |
| `CompactionRuns.RunConserves` | src/agent.cpp:44-104 | in every run of appends, continuations, overlapping attempts and replacements between attempts the slices behind the current summary, those of the attempts it descends from, concatenate to exactly the covered prefix, each given to the summarizer with the summary of those before it, and never hold a partial reply, also for attempts that start or end inside a continuation; nothing arrives inside one, and none starts there where a single message is kept |
| `CompactionRuns.WindowCut` | src/context_compaction.cpp:37-61 | a history that ends in a partial reply and the prompt to go on is cut before the two if and only if not exactly one message is kept (or the prompt looked like tool results) |
| `CompactionRuns.WindowSnapshotLoses` | src/agent.cpp:142-157 | where one message is kept, an attempt begun inside a continuation ends with a reply that is neither summarized nor shown |
| `CompactionRuns.ViewLosesNothing` | src/context_compaction.cpp:63-83 | in every such run the view is the history, or opens with the current summary in full and goes on with everything outside the slices; alternation is kept |
| `CompactionRuns.SlicesAreThePrefix` | src/agent.cpp:44-104 | in every such run whose attempts do not overlap, all slices ever given to the summarizer on successful attempts concatenate to exactly the covered prefix, one per generation, and each attempt strictly advances cut and generation or changes nothing |
| `CompactionRuns.CommitAdvancesExactly` | src/agent.cpp:84-103 | when attempts overlap, a successful commit strictly advances cut and generation if and only if the slot still has the generation of the snapshot and the snapshot's cut lies past what is covered by now |
| `CompactionRuns.OverlapRegresses` | src/agent.cpp:44-104 | a run without replacements in which a stale commit takes the cut back from 2 to 1, keeps the generation, and the summarizer has been given more than the covered prefix |
| `CompactionRuns.CommitConservesExactly` | src/agent.cpp:84-103 | whatever happened meanwhile, a commit keeps the account if and only if it is dropped or the summarized prefix is still the history's |
| `CompactionRuns.ReplaceRaceLoses` | src/agent.cpp:44-104 | a replacement inside an attempt reaches a state in which a message is neither summarized nor shown |
| `CompactionBoundary.FindCompactionBoundary` | src/context_compaction.cpp:168-196 | by row id the first row with it; by content an index if and only if it is the only match of role and content |
| `CompactionBoundary.MatchesExactly` | src/context_compaction.cpp:156-166 | a row matches if and only if the stored text ends with the row's first 4096 characters |
| `CompactionBoundary.ResolveBoundaryDbId` | src/context_compaction.cpp:198-223 | unique with that row's id, ambiguous, or none, as exactly one, several or no rows match |
| `CompactionBoundary.ResolvesExclusive` | src/context_compaction.cpp:198-223 | the three statuses exclude each other and a unique id is determined |
| `CompactionBoundary.ResolvedIdLocatesSame` | src/context_compaction.cpp:168-223 | a unique resolution fed back as row id locates what the content did if and only if no earlier row carries that id or the id is not positive |
| `CompactionBoundary.DistinctIdsLocateSame` | src/context_compaction.cpp:168-223 | with distinct row ids both lookups agree |
| `CompactionBoundary.RemapCompactionOntoHistory` | src/context_compaction.cpp:225-244 | the covered part becomes the located index or zero, always within the history; an empty summary resets the state |
| `CompactionBoundary.RemapRestoresCut` | src/context_compaction.cpp:225-244 | remapping by row id onto the history the summary was cut from restores the cut, whatever the contents |
| `CompactionBoundary.ContentRemapRestoresCut` | src/context_compaction.cpp:168-244 | after a successful attempt, remapping onto the same history, with or without row ids, restores the cut if and only if the boundary message matches its stored text, as it does unless a preamble was stripped, and no other message of its role does |
| `AgentConversation.MergedIsConcatenation` | src/agent.cpp:182-188 | the merged reply is the concatenation of the segments' text and reasoning with all four token sums and the last stop reason |
| `AgentConversation.ContinuedOutcome` | src/agent.cpp:114-190 | content and tokens are those of the first reply and the successful continuations; `ok` is cleared if and only if a continuation failed, with `cancelled` kept and the stop reason left at max_tokens |
| `AgentConversation.CountChars` | src/context_compaction.cpp:85-89 | the sum of the content lengths |
| `AgentConversation.TryCompact` | src/agent.cpp:60-83 | an attempt succeeds if and only if it is called for and there is something new to summarize: forced past the window, or by the context fill, or by the size of the view where the fill is unknown; then the state strictly advances, else it is kept |
| `AgentConversation.Agent.constructor` | include/agent.h:31-31 | a new agent has no conversations |
| `AgentConversation.Agent.SetHistory` | include/agent.h:62-72 | the slot gets the history and loses its compaction state, token count, pinned facts and notice; no other slot changes |
| `AgentConversation.Agent.ResetHistory` | src/agent.cpp:357-365 | the same with an empty history |
| `AgentConversation.Agent.SetCompactionState` | include/agent.h:115-120 | the state is stored if it fits the slot's history and dropped otherwise; no other slot changes |
| `AgentConversation.Agent.CommitUserMessage` | src/agent.cpp:208-215 | exactly one user message with that text is appended to the slot |
| `AgentConversation.Agent.CommitUserParts` | src/agent.cpp:217-236 | exactly one user message is appended: a single text as such, anything else with its parts beside the joined text |
| `AgentConversation.ConcatenateText` | src/agent.cpp:197-206 | the text parts joined, each starting on a new line |
| `AgentConversation.TextIsJoined` | src/agent.cpp:197-206 | texts that are lines come out as those lines, in order, joined by newlines |
| `AgentConversation.UserMessageKeeps` | src/agent.cpp:217-236 | a user message carries the joined text, and its parts unless they are that very text |
| `AgentConversation.ImagesAddNoText` | src/agent.cpp:192-206 | images contribute nothing to a message's text |
| `AgentConversation.Agent.MaybeCompact` | src/agent.cpp:44-104 | whatever is appended or replaced while the summarizer runs unlocked, the slot's history is what that leaves; the call succeeds if and only if an attempt is due and its cut fits that history, and then covers strictly more of the snapshot, else the state is what the others left; every slot stays within its history |
| `AgentConversation.UndisturbedAttempt` | src/agent.cpp:60-103 | while others only append, an attempt succeeds if and only if it is due, and coverage does not shrink |
| `AgentConversation.Agent.Commit` | src/agent.cpp:84-103 | whatever the slot holds by then, a result is installed if and only if it fits the history; then the token count is a quarter of the characters now shown, at least one |
| `AgentConversation.Agent.AskOnce` | src/agent.cpp:142-157 | the request ends with the partial reply and the prompt to go on; with any messages arriving during the call, the slot's history is the pushed one and those, less the last two |
| `AgentConversation.PopsRestoreExactly` | src/agent.cpp:142-157 | the pops leave the old history and what arrived if and only if the slot was not reset and what arrived, if anything, repeats the pushed pair; they find too little to pop if and only if the slot was reset and fewer than two messages arrived since |
| `AgentConversation.ArrivalIsPopped` | src/agent.cpp:142-157 | one message arriving during the call is lost and the partial reply stays |
| `AgentConversation.QuietCallsRestore` | src/agent.cpp:114-190 | if nothing arrives during the model calls, any number of continuations leave the old history and what arrived between the calls |
| `AgentConversation.Agent.ContinueUntilDone` | src/agent.cpp:114-190 | at most three extra calls, each asking to continue the text merged so far; the slot's history is what the pushes, pops and arrivals of those rounds leave, its coverage never shrinks, and the result is the merge of the successful segments |
| `AgentConversation.Agent.SendContinue` | src/agent.cpp:252-284 | with any arrivals, a successful first reply adds exactly one assistant message with the merged text, even if a continuation failed; a failed one adds nothing; no other slot changes |
| `AgentConversation.Agent.Send` | src/agent.cpp:247-250 | one user message of any parts and then the reply are appended to this slot only; a failed first call keeps the user message |
| `WritParser.GetLine` | src/commands.cpp:362-362 | reads the next line and leaves the rest of the lines |
| `WritParser.ReadBody` | src/commands.cpp:667-693 | the body read is the lines up to the first sentinel, or up to the end of input if there is none |
| `WritParser.PeekBody` | src/commands.cpp:459-480 | looks at the next line without consuming it: a body line unless it is blank or starts another writ |
| `WritWords.LookAheadExactly` | src/commands.cpp:140-169 | a look-ahead is ended by a blank line, by a slash and a command word, and by a slash, `end` and a block word, and by no other line |
| `WritWords.PathsAreText` | src/commands.cpp:140-143 | a line without a slash in front, or with a second character that begins no command word, as in `/usr` or `/v1`, neither ends a look-ahead nor is a writ |
| `WritParser.ReadWrit` | src/commands.cpp:378-693 | one line outside a fence yields the commands of its class and consumes exactly its block |
| `WritParser.ParseAgentCommands` | src/commands.cpp:356-698 | the loop over the text returns what the line-by-line definition does, for every text |
| `WritWords.OnlyCommandLines` | src/commands.cpp:378-665 | a line that does not begin with a slash and a whole command word is prose |
| `WritWords.VerbsExactly` | src/commands.cpp:508-540 | a `/lesson` is a listing, search or deletion if and only if that word is its first |
| `WritWords.CrlfParses` | src/commands.cpp:362-693 | lines that end in CRLF parse to the same commands, in heads, bodies and sentinels, for every text and fence |
| `WritWords.TrailingBlank` | src/commands.cpp:378-380 | a blank behind a line outside blocks changes nothing |
| `WritWords.MapDropsBlanks` | src/commands.cpp:411-420 | blanks in front of the directory of a `/map` are dropped |
| `WritTruncation.CollectStopsAtFirstSentinel` | src/commands.cpp:667-693 | a block closes at its first sentinel and only there, and is unclosed exactly when no line is the sentinel |
| `WritTruncation.OnlyLastTruncated` | src/commands.cpp:356-698 | in the commands of any text only the last can be truncated |
| `WritTruncation.TruncatedIffUnclosed` | src/commands.cpp:447-693 | some command is truncated if and only if the parser comes, outside every fence, to a block that is never closed, the looked-ahead `/todo add` and `/lesson` included |
| `WritRoundTrip.OneLineClassified` | src/commands.cpp:378-665 | the line of a one-line command is taken for that command and no other |
| `WritRoundTrip.ContentOfBody` | src/commands.cpp:667-693 | every content is the content of some body lines |
| `WritRoundTrip.ParseFenced` | src/commands.cpp:362-378 | nothing between a fence and its own closing marker yields a command, the other marker included |
| `WritRoundTrip.ParseBareHead` | src/commands.cpp:459-490 | a `/todo add` or `/lesson` head followed by nothing, a blank line or another writ is a command of its own line, and the look-ahead is taken back |
| `WritRoundTrip.ParseClosed` | src/commands.cpp:447-693 | a closed block parses back to its command; those of `/todo add` and `/lesson` with any first line that is not blank and does not begin with a slash and a command or end word |
| `WritRoundTrip.WritEndsLookAhead` | src/commands.cpp:144-169 | the first line of every rendered writ or block ends a look-ahead |
| `WritRoundTrip.RoundTrip` | src/commands.cpp:356-698 | rendering one-line writs, bare look-ahead heads, closed blocks, prose and fences as text and parsing it returns exactly the writs and blocks in order; a bare head only needs a blank line, a writ or the end behind it |
| `WritRoundTrip.PlainLinesAreText` | src/commands.cpp:378-665 | lines without a slash in front, and paths, are text |
| `WritRoundTrip.TextHasNoCommands` | src/commands.cpp:356-698 | lines none of which begins with a slash and a command word yield no command, inside or outside fences |
| `ExecTokenizer.ParseExecArgv` | src/commands.cpp:1369-1417 | argv is returned if and only if the grammar of quoted and bare words derives the line with at least one word, and is then its value; otherwise the line needs a shell |
| `ExecTokenizer.SplitsExactly` | src/commands.cpp:1369-1417 | the scanner and the grammar agree on every line and every word list |
| `ExecTokenizer.QuotingRoundTrip` | src/commands.cpp:1351-1417 | any non-empty list of arbitrary words survives single quoting and splitting |
| `Dispatching.Dispatcher.AllowedBundles` | src/commands.cpp:2383-2435 | the computed set grants a tool exactly when some listed capability names its bundle |
| `Dispatching.Dispatcher.Gate` | src/commands.cpp:2472-2496 | passes exactly the granted tools |
| `Dispatching.DetectPersist` | src/commands.cpp:3473-3489 | finds the flag after any leading blanks, followed by a blank |
| `Dispatching.PersistExactly` | src/commands.cpp:3473-3489 | a file is kept if and only if the flag is its first argument, with a blank behind it |
| `Dispatching.Dispatcher.FetchBranch` | src/commands.cpp:2528-2568 | one URL read and its count, unless three have been made |
| `Dispatching.Dispatcher.SearchBranch` | src/commands.cpp:2570-2627 | one search and its count, unless four have been made, the query is empty or none is wired; an error is not cached |
| `Dispatching.Dispatcher.BrowseBranch` | src/commands.cpp:2629-2726 | one URL read from the budget shared with fetch, then the page; no page after a failed navigation, which is not cached |
| `Dispatching.Dispatcher.ExecBranch` | src/commands.cpp:3232-3295 | the shell is reached only if it is enabled and, where a confirmation is due, after an accepted one; a declined command is not cached |
| `Dispatching.Dispatcher.AdviseBranch` | src/commands.cpp:3297-3330 | one consult and its count, unless none is wired or two have been made |
| `Dispatching.Dispatcher.WriteBranch` | src/commands.cpp:3466-3598 | a truncated block, a missing workspace and a declined confirmation each close the command themselves, with one failed closing event and nothing written; otherwise workspace, confirmation, write and artifact in that order |
| `Dispatching.Dispatcher.MapBranch` | src/commands.cpp:3716-3752 | a missing workspace closes the command itself, in both places; otherwise the tree is read |
| `Dispatching.Dispatcher.OtherBranch` | src/commands.cpp:2728-3714 | a single-callback command reaches its own callback if its arguments are usable; what a sub-agent of `/agent` leaves is added to the shared cache and overwrites nothing; an unknown name produces nothing |
| `Dispatching.Dispatcher.RunBranch` | src/commands.cpp:2528-3752 | the branch of the command's name makes exactly the specified calls, in order, counts them, and closes the command itself exactly on the early paths; the cache changes only by delegation |
| `Dispatching.Dispatcher.One` | src/commands.cpp:2468-3770 | one opening and one closing event with an id past all those other turns have taken around the calls, on every path: refused, replayed, closed early by its branch, and ordinary; the block is cached exactly when the branch allows |
| `Dispatching.Dispatcher.Execute` | src/commands.cpp:2332-3774 | the trace is one such segment per command reached, in order; it stops exactly at the output limit or a cancel; the output is the blocks in order, the note why it stopped, and the closing line |
| `DispatchProperties.BudgetsExact` | src/commands.cpp:2364-2381 | for every turn the URL reads (fetch and browse together), searches and consults made are exactly those asked for, cut off at 3, 4 and 2 |
| `DispatchProperties.GrantedExactly` | src/commands.cpp:2383-2496 | a tool is granted if and only if the list is empty, it needs no grant, or an entry of the list names a tool of its bundle |
| `DispatchProperties.CallsAreGranted` | src/commands.cpp:2472-2496 | every call made belongs to its command, which is granted and not a repeat; a command that no entry of the list covers makes none and closes as a failure |
| `DispatchProperties.HostTouchedConfirmedExactly` | src/commands.cpp:3232-3598 | over a whole turn a call that touches the host's shell or workspace files comes right after an accepted confirmation if and only if one is wired and it writes a file, reaches the shell directly, or is destructive; a truncated file or one without a workspace is never written, a disabled shell never reached directly |
| `DispatchProperties.HostRunsUnasked` | src/commands.cpp:3250-3258 | on every host whose exec backend is its own shell, a plain command runs there without a confirmation |
| `DispatchProperties.RepeatsReplay` | src/commands.cpp:2498-2517 | once there is an entry for a tool and its arguments (and a file's content), a command that asks for the same makes no call and, if granted, returns it: the block of the first run, unless that delegated and its sub-agent left one for it |
| `DispatchProperties.NewCommandsAreRun` | src/commands.cpp:2498-2517 | a granted command is run by its branch unless the cache before the turn or a sub-agent holds an entry for its tool and arguments, or an earlier command of the turn had the same tool and arguments (and, for a file, content hash) |
| `DispatchProperties.DoneOnce` | src/commands.cpp:2498-2526 | what was done once with an answer worth keeping is not done again: later commands that ask for the same make no call and return that block |
| `DispatchProperties.RememberedExactly` | src/commands.cpp:2523-3760 | a command that was run is remembered if and only if it did its work and the answer is worth keeping |
| `DispatchProperties.WorkDoneExactly` | src/commands.cpp:2528-3752 | a granted command that is no repeat does its work if and only if budget, wiring, workspace and leave are there and the block is whole; a file goes to disk exactly when it is written and not intercepted |
| `DispatchProperties.OkExactly` | src/commands.cpp:2472-3770 | a command closes as a success if and only if it is granted, its block is no failure, and it is neither unknown nor cut short for a truncated block, workspace or leave |
| `DispatchProperties.TurnOnlyAdds` | src/commands.cpp:2498-2517 | a turn overwrites no cached result, with any delegation in it |
| `DispatchProperties.CachedWasDone` | src/commands.cpp:2499-3760 | every cached result of these seven commands was there before the turn, or an earlier command with that tool and those arguments made the call that does its work and returned it, or an earlier `/agent` left it |
| `DispatchProperties.RetriesStayOpen` | src/commands.cpp:2523-2526 | a granted command whose work neither an earlier command that asked for the same nor a sub-agent has done this turn is run again, however often it was skipped for its budget, refused, declined or cut short before |
| `DispatchProperties.DelegatedResultReplays` | src/orchestrator.cpp:319-415 | after a sub-agent has read a page, a granted `/fetch` of it makes no call and returns it, though no command of this turn has read it |
| `DispatchProperties.EventsPaired` | src/commands.cpp:2435-2470 | each command reached has exactly one Started and one Finished event, under an id that no other command of the turn has and that lies past those given out before it, however many ids other turns take in between; no other id occurs |
| `ToolEvents.IdsAreFresh` | src/commands.cpp:2435-2470 | however any number of turns interleave on the process-wide counter, no id is announced or closed twice by any turn, one is closed if and only if it was given out and is not in use, at most one turn holds it, and each turn closes what it announced |
| `Base64.Base64Encode` | src/commands.cpp:1246-1281 | the loop computes the group-by-group encoding |
| `Base64.RoundTrip` | src/commands.cpp:1246-1281 | decoding by section 4 of RFC 4648 gives back every byte string |
| `Base64.Shape` | src/commands.cpp:1246-1281 | the length is four times the groups of three, rounded up; padding only at the end, as many signs as bytes are missing |
| `StreamLines.SplitUnique` | src/api_client.cpp:1844-1870 | a text splits at its newlines in one way only |
| `StreamLines.TruncatedGrows` | src/api_client.cpp:1855-1861 | appending only while there is room is the same as truncating the whole line to 1 MiB |
| `StreamLines.LineSplitter.ProcessLine` | src/api_client.cpp:1825-1842 | hands on the payload of a data line without its trailing carriage return, and nothing else |
| `StreamLines.LineSplitter.Feed` | src/api_client.cpp:1844-1870 | after any feed the lines processed are those of all bytes fed so far, each truncated, and the buffer is the truncated rest |
| `StreamLines.LineSplitter.Finish` | src/api_client.cpp:1911-1912 | at the end a non-empty rest is processed too |
| `StreamLines.ReadStream` | src/api_client.cpp:1844-1912 | for every way of cutting a text into segments the events are those of the text |
| `StreamLines.EventsArrive` | src/api_client.cpp:1825-1870 | a stream of framed events yields exactly its payloads, in order |
| `HttpHeaders.Scan` | src/api_client.cpp:1062-1071 | finds the end of the first blank line if there is one |
| `HttpHeaders.ReadHttpHeaders` | src/api_client.cpp:1048-1073 | succeeds if and only if some prefix of the received chunks holds a blank line within 64 KiB; then head and leftover are what was received and the head is the shortest prefix ending in the blank line |
| `HttpHeaders.SameHead` | src/api_client.cpp:1048-1073 | two segmentations of one stream that both succeed agree on the head |
| `HttpHeaders.ReadWheneverItFits` | src/api_client.cpp:1051-1060 | a head that ends a buffer short of the limit is read in every segmentation, one that ends beyond it in none |
| `FileCap.Conservation` | include/file_cap.h:15-34 | under every interleaving with matched releases the counter is the sum of the live reservations, never above the cap, and never wraps |
| `FileCap.CounterIsOffByLoose` | include/file_cap.h:27-34 | in any run the counter is off by exactly the bytes released without a reservation, modulo the word |
| `FileCap.LooseReleaseOvershoots` | include/file_cap.h:27-34 | for every cap one unmatched release lets the live reservations reach twice the cap |
| `FileCap.AloneSucceedsIffItFits` | include/file_cap.h:15-25 | an uncontended call succeeds if and only if the bytes fit, and a refusal leaves no trace |
| `FileCap.CallGoesOn` | include/file_cap.h:15-25 | a call ends only by its own test, with nothing changed, or its own swap, with exactly its bytes added and within the cap; a lost swap leaves it running with the same bytes |
| `FileCap.RefusalIsTruthful` | include/file_cap.h:15-25 | when loads see the current value, a call ends without a reservation only if its bytes did not fit at some step while it ran |
| `FileCap.FileBudget.TryReserve` | include/file_cap.h:15-25 | the loop reserves if and only if the bytes fit, through any number of spurious failures |
| `FileCap.FileBudget.Release` | include/file_cap.h:32-34 | subtracts modulo the word |

## Left out

- CircuitBreaker.EntryInvariant: the failure counter is unbounded, the C++ `int` would overflow after 2^31 failures while open.
- Sockets, TLS, DNS, libcurl, key masking, process spawning and file writes: foreign calls, whose outcomes are arguments here.
- JSON request builders and provider response parsers, metrics and cost accounting: field plumbing.
- Rate limiter, idempotency and route caches, reconcile, scheduler, tenant store and orchestrator: not part of this model.
- Liveness of a token cancel's wake-up: waiters are notified without the pool's mutex, so only safety is claimed.
- Which record a stream cancelled in mid-read files: it reaches the failure report; exactly one record is claimed, not its kind.
- Chunked transfer decoding: its two-byte trailer read may return one byte, so the result depends on the segmentation.
- Thread-local conversation scopes: the key of the current conversation is an argument of every agent method.
- AgentConversation.Agent.MaybeCompact: other attempts on the slot while the summarizer runs are in `CompactionRuns`.
- AgentConversation.Agent.ContinueOnce: messages may arrive during the model call; a reset of the slot in that window is in `PopsRestoreExactly`, an attempt in it in `CompactionRuns`; two continuations of one slot at once are not modelled.
- CompactionRuns.RunConserves: arrivals inside a continuation are excluded there, because the pops then take the wrong messages (`PopsRestoreExactly`).
- The memory files that `/mem write` and `/mem clear` change without a confirmation where no scratchpad is wired: not among the host files here.
- The wording of the summarizer's prompt around the prior summary and the messages, and pinned facts in it: not part of this model.
- Thinking text and tool traces of a message, the text of notices and the merging of pinned facts: not part of this model.
- AgentConversation.Agent.ContinueUntilDone: the text of the prompt to go on is a configuration value, so the result holds for any prompt.
- Compaction.RunCompaction: the stripping of orchestrator preambles from the boundary message is an arbitrary function.
- `fold_compaction_gap` and the JSON form of the state: easy members beside the ones above.
- Dispatching.Dispatcher.OtherBranch: the inner branches of `/mem`, `/read` and the other single-callback commands are one answer of the environment, whether they reach their callback.
- Dispatching.Dispatcher.RunBranch: block texts and the argument parsing of the individual commands are answers of the environment; the key of the cache is a record instead of a joined string.
- The `/todo add` soft-commit branch of the dispatcher: its test never matches, because parsed arguments keep a leading space.
- A replayed result equals a fresh one: false in general, since the key ignores the body of every command but `/write`.
- UTF-8 boundaries in `cap_bytes`, command-safety word lists, help texts, labels and HTML stripping: table lookups or easy members.
- FileCap.RefusalIsTruthful: only for runs whose loads see the current value; a relaxed load may be older than the call.
