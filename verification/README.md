# A verified model of the agent SDK's turn machine and its protocols

This project models, in Dafny, the parts of the Go agent SDK in which a mistake would be hardest to see, and proves what
they promise.

| module | models |
|---|---|
| `Messages`, `Pairing`, `StepStages`, `Compaction`, `Turn` | the turn machine: the scope-sorted stage chain, compaction, the step loop with its two logs, early exits |
| `Dispatch` | the interruptible join of a step's tool calls, with the signal sink |
| `CursorKey`, `Cursors`, `Chaining` | conversation chaining by response id: the bytes hashed, the LRU cache, the protocol with the server |
| `Thinking`, `Interleaving` | the streaming tag parser, and streams with other deltas between the text |
| `Elicitation` | the first-come-first-served lock around the elicitation UI |
| `Consensus` | the worker pool and the vote |
| `ToolNames` | the bijection between tool names and wire names |
| `ToolClaims`, `Routing` | many tool sources behind one list |
| `Windows`, `Ranking`, `Injection` | event windows, and the drain under priority and budget |
| `Approval` | the tool-call gate |
| `Triggers` | the anti-nag slots |
| `Stuck` | detection of a turn that repeats itself |
| `Grep` | the lines around a match, and the pages of a stored result |
| `Sorting`, `Events`, `Wrappers` | what the others share: the stable sort by rank, the event, the option |

## How it is modelled

- Operations that update state in place are classes or methods with loops. Each is proved against a specification
  function, and the promises are proved about those functions. What the functions compute is also stated without them, in
  the inputs alone: the calls and outcomes of a turn, the fold of the stages, the steps of a dispatch, a call's verdict,
  rules and mode, an event's hint, the lines of a text.
- Protocols between goroutines are state machines. A step is one critical section or one visible action, the scheduler
  is arbitrary, and the theorems hold for every sequence of steps.
- Providers, tools, hooks, stages, gates, key functions, resolvers and the regular expression are arbitrary functions.
- A Go string is a Dafny `string` with one character per byte. Integers are unbounded, except where a sum can wrap:
  the two sums in `Grep` and the eight-byte counts in `CursorKey`. Time is an integer.
- `hide` in a proof keeps a definition out of the solver's sight; it removes facts and adds none.

## Where the code departs from its comments, or from what one would hope

The model follows the code in each of these, and says exactly when the hoped-for property holds.

- The stuck detector's comment (`stuck.go:170-172`) gives the order repeat, alternation, error. The code looks for
  repeat, then same error, then alternation. A step with a new key does not always silence it: a run of one error goes
  through different calls, at every threshold (`NewKeyMayStillTrip`). At a threshold t it is silent exactly when the step
  and the t - 1 steps before it did not all fail with one result (`NewKeySilences`).
- A session stage is said only to append. The check behind that compares tool calls by their number, so wherever there is
  a call, a stage that renames its id passes (`RenamingPasses`). What passes was only appended to, exactly when the
  messages hold no tool calls (`AppendOnlyIffNoCalls`).
- A compaction that is as long as what it replaces is thrown away, so a cut of one message has no effect
  (`CompactionOnlyShortens`).
- Merged tool lists are said to hold no duplicates and to keep every tool reachable. A tool whose name is another
  source's qualified name breaks both (`SlashNameShadows`), and an empty source id or tool name breaks the second. Both
  properties have their exact condition (`NoNameTwice`, `ListAndDispatchAgree`).
- A denied tool can run through another tool's remembered approval when names hold a NUL character (`NulInNameLeaks`). It
  cannot exactly when no call that may be remembered shares its key with a call to a denied tool
  (`DenyHoldsIffSeparated`).
- Two bindings with one slot key at construction leave a binding without a slot once the key is removed. Distinct keys
  are exactly what avoids it (`SlotsCoverBindings`). While they share the slot, the one with the shorter cooldown re-arms
  it for both, so a binding may fire before its own cooldown is over (`SharedSlotCutsShort`). A binding's own cooldown
  holds in every run exactly when the first keys are distinct or the budget is one (`OwnCooldown`); for any bindings there
  is the shortest cooldown among those that share the slot (`AntiNag`).
- A context near the largest integer makes the first match's window wrap in `grepLines`, and a limit near it does the
  same for a page. `GrepLines`, `WindowBreaks` and `PagesFrom` say exactly when; a later match whose window wraps does no
  harm, and reading from the start never breaks.
- Generate is said to be consistent with Stream (`thinking_stream.go:52-53`). A delta forwarded inside a tag cuts the tag
  for the stream alone (`ForwardInsideTag`). The two remove the same tags exactly when no tag is cut (`SameTagsIffClean`),
  and then give the same tagged text and answer (`InterleavedAgrees`). Other tags removed may leave the same text by chance
  (`SameTextByChance`), so it is the tags that the exact condition is about.
- Every draw of a vote is said to end with a result or an error. A draw whose error has an empty text leaves an empty slot,
  or after a stop one that says it was not run; `EverySlotSettled` has the exact condition.

## Model

| member | source | states |
|---|---|---|
| `Thinking.PrefixOverlap` | thinking_stream.go:197-212 | the result is the longest suffix of the text that is a proper prefix of the tag |
| `Thinking.ScanAppend` | thinking_stream.go:142-172 | feeding x and then y leaves the same parser state and the same tagged text as feeding x + y, for all x, y and tags |
| `Thinking.SplitUnique` | thinking_stream.go:142-172 | the only pieces that join back to the text with each tag at its leftmost match are the ones read left to right |
| `Thinking.OnlyTagsRemoved` | thinking_stream.go:142-182 | feed and flush emit exactly the pieces between leftmost matched tags, with alternating modes, so nothing but matched tags is removed |
| `Thinking.ChunkingIsInvisible` | thinking_stream.go:82-121 | a stream's whole tagged output, with errors and forwarded deltas, depends only on its merged text runs |
| `Thinking.StreamAgreesWithWhole` | thinking_stream.go:40-80 | any cutting of a text into fragments with nothing in between gives the tagged text of parsing it whole |
| `Thinking.Opening` | thinking_stream.go:135-172 | without an open tag the text before the first close tag is reasoning and all that follows is answer; with one the text before the first open tag is answer; without the tag wanted the whole text is of one mode |
| `Thinking.StreamOpening` | thinking_stream.go:82-172 | the same of every cutting of the text into a stream |
| `Interleaving.SameTagsIffClean` | thinking_stream.go:52-121 | a stream with other deltas between its runs of text splits the text into the same pieces as Generate exactly when no tag starts before such a delta and ends after it |
| `Interleaving.InterleavedAgrees` | thinking_stream.go:52-121 | then the parser makes the same tagged text of it, and a consumer collects the same answer |
| `Interleaving.ForwardKeepsPlace` | thinking_stream.go:113-118 | a forwarded delta comes after all text before it, held-back text included, before all that follows, unchanged, and with nothing held back across it |
| `Interleaving.ForwardInsideTag` | thinking_stream.go:113-118 | a delta forwarded at any place inside an open tag leaves the tag in the stream and not in Generate |
| `Interleaving.SameTextByChance` | thinking_stream.go:52-121 | tags and a stream whose tag is cut and whose text comes out the same all the same, so the text alone cannot give the exact condition |
| `Thinking.ThinkParser.Feed` | thinking_stream.go:142-172 | the loop ends, what it emits with the new buffer and mode is the scan of the old buffer and the new text, and no delta is empty |
| `Thinking.ThinkParser.Flush` | thinking_stream.go:175-182 | the buffered text is emitted in the current mode and the buffer is empty |
| `Thinking.ThinkingStream.Recv` | thinking_stream.go:93-121 | each call hands out exactly the front of what is pending; end of stream comes only when nothing is |
| `Thinking.Generate` | thinking_stream.go:54-80 | answer and reasoning are the characters of each mode of the whole parsed text, reasoning appended to what was there; without an open tag the reasoning is the text before the first close tag and the answer all that follows, and with one the answer begins with the text before it |
| `CursorKey.SameBytesSameHistory` | responses_cursor.go:14-39 | for field lengths below 2^64 the bytes hashed are equal exactly when role, text, tool-call id and every call's id, name and arguments agree, though no message count is written |
| `CursorKey.ValueOfBigEndian` | responses_cursor.go:16-21 | k big-endian bytes give back the number modulo 256 to the k, so eight give a count modulo 2^64 |
| `CursorKey.HashedBytes` | responses_cursor.go:14-39 | the loops write exactly the encoding of what the model sees |
| `Cursors.Shape` | responses_cursor.go:58-92 | every operation keeps the keys distinct and at most max of them |
| `Cursors.RunShape` | responses_cursor.go:58-92 | so does every sequence of operations |
| `Cursors.HitIsLatest` | responses_cursor.go:58-92 | a key that is found has the id of its last put, and was not dropped since |
| `Cursors.Retained` | responses_cursor.go:58-83 | in any run a key is found, with its latest id, as long as fewer than max distinct other keys were put or hit since it was last put or hit, and it was not dropped since; lookups that miss do not count |
| `Cursors.CursorCache.Get` | responses_cursor.go:58-67 | map and list stay one structure, and contents and answer are those of the abstract LRU |
| `Cursors.CursorCache.Put` | responses_cursor.go:69-83 | the same for put, eviction included |
| `Cursors.CursorCache.Evict` | responses_cursor.go:78-82 | the eviction loop leaves the max most recent entries, and the map follows |
| `Cursors.CursorCache.Drop` | responses_cursor.go:85-92 | exactly the key is gone from map and list |
| `Chaining.ResponsesProvider.FindLastAssistant` | responses_provider.go:229-236 | the index is that of the last assistant message, or -1 |
| `Chaining.ResponsesProvider.Pick` | responses_provider.go:192-203 | the request and the cache after choosing a cursor |
| `Chaining.ResponsesProvider.Retry` | responses_provider.go:204-210 | a refused cursor is dropped and the whole history is sent |
| `Chaining.ResponsesProvider.Remember` | responses_provider.go:221-227 | the reply's id is remembered under the history that ends with the reply, unless storing is off or there is no id |
| `Chaining.ChooseIsGood` | responses_provider.go:192-203 | in every reachable state a cursor found stands for exactly the part of the history left out |
| `Chaining.StepKeeps` | responses_provider.go:192-227 | every step of callers, server, evictions and other clients keeps the cursors truthful |
| `Chaining.ChainingPreservesMeaning` | responses_provider.go:192-227 | in every run, every request the server took was read as exactly what the model sees of the history it was sent with, stale retries included |
| `Chaining.CacheIsRun` | responses_provider.go:192-227 | the cache of every run is that of its lookups, puts and drops in order |
| `Chaining.ChainsOnceRemembered` | responses_provider.go:192-227 | in every run, once a reply was remembered or found again, a history that goes on from it is sent as the id last remembered and just the new messages, as long as fewer than max other histories were remembered or found since and it was not dropped |
| `Chaining.RememberedIsContinued` | responses_provider.go:192-227 | in every run, right after a reply is remembered, a history that goes on from it is sent as its id and just the new messages |
| `Chaining.StaleIsForgotten` | responses_provider.go:204-210 | in every run, right after a stale id is refused, its request and every later one for that history goes out whole |
| `Pairing.PairedTail` | compaction.go:136-149 | a paired history may be cut at any message that is not a tool result |
| `Pairing.DropUnanswered` | runner.go:757-766 | only trailing unanswered requests go, and nothing does when the history is paired |
| `StepStages.RunStepChain` | stepstage.go:253-286 | the loop computes the chain's working messages, record and view, or the first failure: the left fold of what the stages themselves return |
| `StepStages.StageTakesEffect` | stepstage.go:258-286 | what a stage returns takes effect: a request stage's view as it is, a turn or session stage's messages as view and working messages with the tools put back, and a session stage's additions in the record; its error, or overstepping its scope, ends the chain |
| `StepStages.ChainIsFold` | stepstage.go:253-286 | the chain is the left fold of what its stages return, up to the first that fails |
| `StepStages.ChainIsStableSort` | stepstage.go:236-250 | the chain is the one list sorted by scope that keeps the configured order, built-ins first, within each scope |
| `StepStages.SessionChain` | stepstage.go:258-286 | after session stages the working messages are the given ones followed by the record, as far as the comparison tells |
| `StepStages.Scoping` | stepstage.go:236-294 | for any configured order, working messages and record come from session and turn stages alone, which leave tools, provider, grammar and parameters untouched; the view sent is what request stages make of it; the record is what session stages appended |
| `StepStages.RequestStagesLeaveNoTrace` | stepstage.go:236-286 | configurations that agree on session and turn stages carry on and record the same, whatever their request stages |
| `StepStages.RenamingPasses` | stepstage.go:292-294 | wherever there is a call, a session stage that renames it passes, records nothing, and the model sees the renamed call |
| `StepStages.AppendOnlyIffNoCalls` | stepstage.go:292-294 | everything the append-only check lets through was only appended to, as the model sees it, exactly when the messages hold no tool calls |
| `Compaction.CharEstimate` | compaction.go:49-66 | the estimate is the characters of text and arguments over the configured ratio |
| `Compaction.EstimateIsMonotonic` | compaction.go:49-66 | more messages never estimate fewer tokens |
| `Compaction.CharsAddUp` | compaction.go:49-66 | what is counted is the text of each message and the arguments of its calls, each once |
| `Compaction.Compact` | compaction.go:131-163 | the cut search and the summary, with its errors |
| `Compaction.CompactsTheHead` | compaction.go:131-163 | over budget, exactly the messages before the last place to cut are summarized, and only that call can fail; within it, or without such a place, the history stays |
| `Compaction.CompactionShape` | compaction.go:131-163 | a compaction is the history, or one summary of the head and a verbatim tail, which together make up the history, the tail with at least the last KeepRecent messages, six unless configured; it never parts a request from its results |
| `Compaction.CompactionOnlyShortens` | stepstage.go:158-176 | the stage changes only the messages, exactly when they do not fit and the cut is at least two, only to fewer of them, and after step one only to messages that fit |
| `Compaction.CompactionFails` | stepstage.go:158-176 | the stage fails only with the summarizer's error over the head, or after step one with the context budget when what is left does not fit |
| `Compaction.CompactionIsGentle` | stepstage.go:158-176 | compaction keeps tool pairing |
| `Compaction.NoteStageIsGentle` | stepstage.go:203-225 | stages that add a note keep tool pairing |
| `Compaction.StepBudgetWarns` | stepstage.go:203-225 | the step budget keeps tool pairing: it appends one system note when at most within steps are left, a quarter of the cap and at least three unless set; the note stays once it appears, and exactly the last step is told that it is the last |
| `Compaction.SelectorIsGentle` | stepstage.go:181-195 | the tool selector keeps tool pairing: it replaces the tools offered with what the selector picks from messages and tools, and nothing else |
| `Compaction.ConfiguredChainIsGentle` | stepstage.go:236-250 | the chain built from any compactor, any selector and stages that keep pairing keeps pairing, in any configured order |
| `Compaction.ChainSpelledOut` | stepstage.go:236-250 | session stages, then the compactor before the other turn stages, then the selector before the other request stages, each kind in its configured order |
| `Compaction.ChainKeepsPairing` | stepstage.go:253-286 | a chain of such stages keeps working messages and view paired and records only plain messages |
| `Turn.TotalCredit` | runner.go:771-800 | crediting a named step adds exactly its usage to the total over names |
| `Turn.JoinedAnswers` | runner.go:686-696 | what a returned dispatch hands the turn is one result per call, in call order |
| `Turn.PartialResult` | runner.go:731-748 | an early exit returns the record unchanged if it does not end with a request, as a paired one never does, with the usage so far and no answer |
| `Turn.FinalizeStructured` | runner.go:862-903 | at most two attempts, the second shown the first document and what is wrong with it, all paired; the document is that of the last answer, the usage is that of all answers, and a document that does not match is returned only after the last attempt |
| `Turn.FinalizeGuided` | runner.go:935-950 | one request without the free answer, whose reply replaces that answer in both logs and is paid for; it fails exactly when that request does |
| `Turn.Finalize` | runner.go:610-640 | the constrained answer is asked for exactly when the step has a grammar and offered tools, the structured one exactly with a schema, from the conversation with its answer; it fails only when a call that is due fails |
| `Turn.TurnEnd` | runner.go:608-684 | the hooks are told answer, draft, mismatch, usage and record; the turn is finished exactly when they accept, with the answer, its record, document, finish reason and usage; stopped exactly when they stop it, with the record kept; sent on exactly when they say so, with the answer and their note, in the role they chose, last in both logs; and broken only when a finalizing call or a hook fails |
| `Turn.UseTools` | runner.go:686-716 | the turn goes on exactly when the dispatch returned and neither cancellation nor the signals end it: the request, the results in call order and one system note of the signals, if any were raised, then stand last in both logs, as one paired round |
| `Turn.TakeStep` | runner.go:523-717 | the model is asked with exactly the view the stages made of the log and the listed tools, and what follows is what its reply calls for; without a reply the turn ends for one of the reasons listed, with steps, record and usage as they were; one step sends at most one paired request |
| `Turn.RunTurn` | runner.go:435-720 | every model call is made on what the stages make of the log that the step before left, and its reply is the model's to that request; the turn finishes exactly with an answer the hooks accept, stops, runs out of budget or steps, or breaks exactly for the causes listed. For every model, compactor, selector, schedule of tool calls, hooks and budgets, and stages that keep pairing: every request sent, finalizing ones included, and the messages returned on success and on every early exit are paired, across compaction too; trimming unanswered calls changed nothing; the requests and results returned are exactly those of the replies and their dispatches; steps reported are model calls made; the usage is that of all replies and finalizing answers, and text, document and finish reason are those of the last |
| `Turn.UsageByName` | runner.go:768-800 | per-name usage is reported exactly when a stage named some call, and holds for each name billed the usage of its replies, finalizing answers counting under the name of the configured provider |
| `Dispatch.SignalSink.Raise` | signal.go:158-168 | every signal is kept, and the channel is closed by the first that breaks the barrier, once |
| `Dispatch.SignalSink.Drain` | signal.go:170-176 | all signals are handed over and none is left |
| `Dispatch.AbortOnEscalate` | signal.go:104-117 | the turn is aborted exactly when some signal escalates, with the first one's reason |
| `Dispatch.JoinIsComplete` | runner.go:1059-1247 | for every interleaving, with any number of raises of one call under way at once, dispatch returns only after all calls finished, with one result per call in call order and every raised signal exactly once; a call completes once, and its result is the cancellation notice if the user cancelled it or the barrier was broken before it completed and the turn was not aborted, and otherwise the text it completed with |
| `Dispatch.NeverLockedOut` | runner.go:473-494 | at any time the user may cancel a call and the turn may be aborted, and a call's children may raise anything until it completes |
| `Dispatch.BreaksOnlyWhenAllowed` | runner.go:1031-1048 | the barrier breaks, and a call that the user did not cancel is cut, only in an interruptible turn in which a child escalated or raised a preempt that the grant accepts |
| `Dispatch.NoGrantNoCancel` | runner.go:1031-1048 | without a grant, preempts and custom signals cancel no call |
| `Dispatch.EscalationCanBreak` | runner.go:1106-1124 | an escalation or a granted preempt in an interruptible turn can break the barrier at once |
| `Dispatch.CanReturn` | runner.go:1059-1124 | from every reachable state in which dispatch has not returned, some steps lead to its return |
| `Elicitation.ElicitationCoordinator.TryAcquire` | elicitation.go:88-98 | the baton is taken when free, and otherwise the request queues last |
| `Elicitation.ElicitationCoordinator.GiveUp` | elicitation.go:102-117 | a cancelled waiter leaves the queue, or passes on a baton already granted |
| `Elicitation.ElicitationCoordinator.ReleaseLocked` | elicitation.go:125-133 | the baton goes to the first waiter, or is put down |
| `Elicitation.StepKeeps` | elicitation.go:80-133 | every step of every request keeps the lock's invariant |
| `Elicitation.OneAtATime` | elicitation.go:80-133 | at most one request is presented, whatever the interleaving |
| `Elicitation.GrantedInArrivalOrder` | elicitation.go:88-133 | those granted, then those queued, are exactly the arrivals in order less those that left the queue before their turn |
| `Elicitation.BatonConserved` | elicitation.go:99-133 | the baton is out exactly when one grant has not been passed on, and then only the last one granted holds it, also when a cancel races a grant |
| `Elicitation.NeverStalls` | elicitation.go:99-133 | while anyone is queued some request holds the baton, and at most two of its steps hand it to the first in the queue |
| `ToolNames.SanitizeIsNoOp` | toolname.go:26-43 | sanitizing changes a name exactly when it is not legal on the wire |
| `ToolNames.SanitizeRules` | toolname.go:26-43 | a legal character stays where it is, a run of others becomes one underscore, an empty name becomes "tool", and what is over 64 characters is cut off |
| `ToolNames.CandidatesDiffer` | toolname.go:55-65 | different suffix numbers give different candidates, truncation included |
| `ToolNames.Pigeonhole` | toolname.go:55-65 | as many names are taken as candidates were tried, so the search ends |
| `ToolNames.FirstFree` | toolname.go:55-65 | the search returns a legal name not yet taken |
| `ToolNames.CandidateRules` | toolname.go:55-65 | a candidate is as much of the sanitized name as leaves room, an underscore and the number |
| `ToolNames.PickRules` | toolname.go:47-65 | the name picked is the sanitized one if it is free, and otherwise the first free candidate from 2 on |
| `ToolNames.BuildIsBijection` | toolname.go:47-71 | the two maps are inverse to each other on exactly the offered names, and wire names are legal |
| `ToolNames.ToolNameMaps` | toolname.go:47-71 | the nested loops end and build that bijection |
| `ToolNames.OutAndBack` | toolname.go:77-92 | out and back is the identity for every offered name, every name sent is legal, and no two tools share one |
| `ToolNames.LegalNamesStay` | toolname.go:47-71 | names that are already legal are sent as they are |
| `Consensus.ClaimsFormAPrefix` | consensus.go:165-186 | for every schedule and any number of workers the claimed draws are 0, 1, 2 and so on, each once |
| `Consensus.OneHolderEach` | consensus.go:165-205 | no two workers ever hold one draw |
| `Consensus.NoClaimsAfterStop` | consensus.go:166-205 | nothing is claimed after a stop, and the first reason stands |
| `Consensus.EverySlotSettled` | consensus.go:159-219 | once the workers are done every claimed draw holds what it came to, and without a stop all were claimed; after the last loop a draw has a result or an error exactly when there was a stop or it came to a result or an error with a text |
| `Consensus.DrawIsKept` | consensus.go:184-204 | in every run each slot ends with what its own draw came to: the draw a worker finished, or the error that ended its context |
| `Consensus.FillNotRun` | consensus.go:208-216 | after a stop exactly the slots without a result and an error get the stopping error, and every other slot stays as it is |
| `Consensus.VoteIsUnique` | consensus.go:258-283 | the vote is determined by the draws, not by the order of map iteration |
| `Consensus.CountsAreSizes` | consensus.go:258-272 | the counts are the numbers of draws accepted with a key and of draws that ran to completion |
| `Consensus.SplitMeansNoMajority` | consensus.go:258-283 | split says exactly that no key has a strict majority of the completed draws |
| `Consensus.MostCommon` | consensus.go:273-278 | whatever the iteration order, the key with most draws is found, ties to the earliest first draw |
| `Consensus.ConsensusResult.Tally` | consensus.go:258-283 | the result's fields are the vote and the count of completed draws |
| `ToolClaims.SortedIsUnique` | multi_source.go:312-314 | owners sorted by id are determined by their set |
| `ToolClaims.GatherExact` | multi_source.go:289-315 | the index holds, for every name, exactly the sources that list it, each once with its first definition, sorted, and every name once in the listing order |
| `ToolClaims.CollectFails` | multi_source.go:292-296 | gathering fails exactly when some registered source fails to list |
| `ToolClaims.ClaimsIgnoreOrder` | multi_source.go:289-315 | two registration orders of the same sources fail together and gather equal claims |
| `ToolClaims.GatherInOrder` | multi_source.go:291-311 | names are listed in source order: where the sources, one after another, list them first |
| `ToolClaims.FirstDefMeans` | multi_source.go:299-306 | the definition kept of a repeated name is the first |
| `Routing.SplitUndoesQualify` | multi_source.go:325-335 | splitting undoes qualifying exactly when neither part is empty |
| `Routing.QualifiedIsInjective` | multi_source.go:325-327 | with no slash in ids, equal qualified names have equal parts |
| `Routing.ResolveRules` | multi_source.go:255-287 | a name one source claims is its, one that several claim goes where the resolver says if that is registered, and one that none claims is found exactly as a registered source, a slash and a tool it claims |
| `Routing.EntryRules` | multi_source.go:128-158 | a listed name is the tool's own, or source, slash and name when several claim it; the rest of the definition is the tool's |
| `Routing.EveryClaimIsListed` | multi_source.go:128-158 | every claim is listed, and nothing else is |
| `Routing.OneResolvesHome` | multi_source.go:255-287 | one listed entry resolves to its source and bare name exactly when it does not collide, or its qualified form has no empty part and is no tool's name |
| `Routing.ListAndDispatchAgree` | multi_source.go:128-287 | all listed entries resolve to the source and bare name they were listed for, whatever the resolver, exactly under that condition on all of them |
| `Routing.NoNameTwice` | multi_source.go:128-158 | no name is listed twice exactly when no qualified form is the name of a tool of a single source |
| `Routing.SlashNameShadows` | multi_source.go:128-287 | three sources for which a name is listed twice and one entry leads to the wrong source |
| `Routing.ConventionSuffices` | multi_source.go:317-335 | non-empty ids and names, and no name that starts with an id and a slash, give both properties |
| `Routing.ListIgnoresOrder` | multi_source.go:125-158 | the definitions listed do not depend on the order of registration |
| `Routing.RunKeeps` | multi_source.go:84-252 | after every run the ids are distinct and the memoized index names only registered sources |
| `Routing.NeverARemovedSource` | multi_source.go:181-236 | after every run a lookup finds only a source that is registered now |
| `Routing.OwnerOfForetellsCall` | multi_source.go:181-236 | OwnerOf names exactly the source that a Call with the same arguments then reaches |
| `Routing.NewToolIsReachable` | multi_source.go:181-200 | a name the memoized index does not know, and that one source lists now, is found there after one fresh gathering |
| `Routing.MultiSource.Add` | multi_source.go:84-97 | it succeeds exactly for a new id without a slash, and then the index is dropped |
| `Routing.MultiSource.Remove` | multi_source.go:109-123 | the id leaves the order and the sources, and the index is dropped |
| `Routing.MultiSource.Invalidate` | multi_source.go:102-106 | only the index is dropped |
| `Routing.MultiSource.Gathered` | multi_source.go:289-315 | the loops compute the sorted claims and the order of names, or fail |
| `Routing.MultiSource.Tools` | multi_source.go:128-158 | the list holds the entry of every claim, in listing order |
| `Routing.MultiSource.Call` | multi_source.go:181-200 | the call goes to the registered source the lookup found, after one fresh gathering on a miss |
| `Routing.MultiSource.OwnerOf` | multi_source.go:216-236 | the owner is the source the same lookup found |
| `Windows.NothingLost` | stages.go:135-169 | every event pushed is in exactly one burst of its key, in the order pushed |
| `Windows.RunHolds` | stages.go:135-169 | after every run a window holds exactly the open bursts, each as its fold or last event and its deadline |
| `Windows.FlushReleasesBursts` | stages.go:155-169 | a flush releases every burst that is over, once, as its fold or last event, and no other |
| `Windows.OldestFirst` | stages.go:135-169 | after every run a window's keys, and so what a flush releases, stand in the order in which their bursts opened |
| `Windows.KeysApart` | injection.go:245-247 | events of one name share a key exactly when they come from one server; with no slash in server names keys are equal exactly when server and name are |
| `Windows.WindowStage.Push` | stages.go:135-153 | the bucket of the event's key is opened, folded or replaced, and its deadline set or restarted |
| `Windows.WindowStage.Flush` | stages.go:155-169 | due keys are released in the order their bursts opened and leave both structures; the others stay |
| `Sorting.StableSort` | injection.go:311-313 | the sorts of the stage chain and of the drain give the one list sorted by rank that keeps the order within each rank |
| `Injection.DrainKeepsOrder` | injection.go:281-327 | a drain takes turn events of one priority from the front and leaves the others in order |
| `Injection.DrainConserves` | injection.go:281-327 | a drain releases, denies or leaves every pending event, each once |
| `Injection.DrainIsFair` | injection.go:292-327 | a drain returns at most the budget, by rank, only what consents; nothing left pending outranks what was released, and something is left only when the budget is used up |
| `Injection.DrainByHints` | injection.go:281-365 | in terms of hints: it shows only what is public or unmarked, accepted by the gate, or personal without a gate; at most MaxPerDrain entries, 16 unless set; critical before high before medium or unset before the rest, and nothing it leaves is more urgent than anything it shows; every entry that may not be shown is counted as dropped |
| `Injection.ReleasedOnlyIfPermitted` | injection.go:222-345 | in every run an event is released only if some drain's gate permits it by its hint, and denied only if some drain's gate withholds it |
| `Injection.SessionEntriesReturn` | injection.go:281-327 | every session entry the gate lets pass is in each drain, unless entries that rank no lower use up the budget |
| `Injection.Exec` | injection.go:222-327 | in every run, with gates that may change their mind, each event buffered for a turn is released, denied or pending exactly once, and events of one priority leave and wait in buffering order |
| `Injection.WindowsAreIndependent` | injection.go:236-280 | after every run each window is that of its own pushes and flushes |
| `Injection.FreshAreOverBursts` | injection.go:236-280 | what a drain after any run adds to the buffer is, window by window, the bursts of the ingested events that are over then |
| `Injection.IngestByHint` | injection.go:236-265 | by its hint an event goes into the window of its name, into the session in place of the last of its server and name, or behind the other pending events, and nothing else changes |
| `Injection.EventInjectionPolicy.Ingest` | injection.go:232-253 | an event joins its window, or is buffered when there is none |
| `Injection.EventInjectionPolicy.Buffer` | injection.go:255-265 | a session event replaces its predecessor of the same key; a turn event goes to the end of pending |
| `Injection.EventInjectionPolicy.Drain` | injection.go:272-327 | the loops compute the drain over flushed windows, with the count of refusals |
| `Approval.ExecKeeps` | approval.go:304-423 | every run of calls, answers and mode switches keeps the gate's invariant |
| `Approval.GateIsSafe` | approval.go:304-423 | in every run a forbidden call is never sent on, an always-ask call only after the user accepted that very call, and a call is sent on under its own name, with other arguments only if accepted |
| `Approval.DecidesBy` | approval.go:304-368 | the decision exactly: which calls are refused, which run unasked, and that all others are asked about, by verdict, remembered key, rule, grant and mode, with the flags each verdict gives |
| `Approval.BeginDecides` | approval.go:304-368 | in every run a call is sent on at once exactly when it is neither forbidden nor always asked about and an approval given before covers it, or its tool is not denied and it is granted, allowed, or covered by no rule and allowed by the mode last set: all calls, read-only ones, or also those that do not destroy |
| `Approval.SettleDecides` | approval.go:370-423 | in every run an asked call is accepted and sent on exactly by a yes, with the arguments the chooser narrowed it to |
| `Approval.NothingRunsUnasked` | approval.go:304-423 | so in every run a call that is sent on was accepted by the user, or could run unasked when it began |
| `Approval.DenyHoldsIffSeparated` | approval.go:239-423 | no call to a denied tool is sent on in any run, exactly when no call that may be remembered shares its key with one, or nothing can be remembered at all |
| `Approval.NulFreeSeparates` | approval.go:239-250 | tool names without NUL and tool-scoped keys keep them apart |
| `Approval.NulInNameLeaks` | approval.go:239-250 | a name with NUL for which a denied tool is sent on |
| `Approval.LooserAsksLess` | approval.go:352-367 | a looser mode refuses the same calls, asks about no more of them, and runs what ran before |
| `Approval.TieredApproval.WrapToolCall` | approval.go:304-368 | the ladder's decision, which `DecidesBy` says exactly |
| `Approval.TieredApproval.DoAsk` | approval.go:370-423 | what becomes of an asked call, and that only a whole approval is remembered, as `AnswerRules` says |
| `Approval.AnswerRules` | approval.go:370-423 | an asked call runs exactly when the chooser or the asker there is said yes, as narrowed, and only a yes to the whole call is remembered |
| `Triggers.SlotsCoverBindings` | triggers.go:96-154 | every binding keeps its slot in every run exactly when the first bindings have distinct keys |
| `Triggers.BudgetHolds` | triggers.go:170-211 | in every run, from any bindings, firings are counted exactly and never exceed the budget, ten unless set |
| `Triggers.RunFiresFirstEligible` | triggers.go:170-212 | in every run from bindings with distinct keys an event fires the first binding that is for its name and server, whose filter lets it through, whose slot is open or engaged and rested, and that is consented to, if the budget is not used up; and otherwise nothing |
| `Triggers.FiresOnlyOnItsEvents` | triggers.go:170-212 | from any state only an installed binding that is for the event, by name, server and filter, and is consented to, fires |
| `Triggers.KeysApart` | triggers.go:164 | with no slash in servers and event names, keys are equal exactly when server, event and label are |
| `Triggers.StepOnSlot` | triggers.go:120-225 | an operation that does not add or remove a key moves its slot only by engagement, by re-arming when its rest is over, or by firing |
| `Triggers.AntiNag` | triggers.go:120-225 | from any state, two firings of one slot, with no Add or Remove of its key between them, are separated by an engagement and at least the shortest cooldown of the bindings that share the slot, under any consent answers |
| `Triggers.OwnCooldown` | triggers.go:96-225 | in every run two firings of one slot, with its key untouched in between, are apart by the firing binding's own cooldown, exactly when the first bindings have distinct keys or the budget is one |
| `Triggers.SharedSlotCutsShort` | triggers.go:96-225 | from any bindings of which two share a slot, and a budget of two or more, a run in which a binding fires again long before its own cooldown is over |
| `Triggers.TriggerPolicy.Add` | triggers.go:120-135 | the binding of the same key is replaced, or a new one appended, and its slot is fresh |
| `Triggers.TriggerPolicy.Remove` | triggers.go:139-154 | the slot and the first binding of the key go, and the answer says whether there was one |
| `Triggers.TriggerPolicy.OnEvent` | triggers.go:170-212 | the loop fires the first matching open binding within the budget and with consent, and leaves re-armed slots open |
| `Triggers.TriggerPolicy.NotifyEngagement` | triggers.go:217-225 | exactly the spent slots are engaged |
| `Stuck.SplitRecord` | stuck.go:211-224 | the loop splits the record at assistant messages |
| `Stuck.RecordsCoverTurn` | stuck.go:209-224 | the steps joined are the turn without the messages before its first assistant message |
| `Stuck.StepsCountFromOne` | stuck.go:215 | steps are numbered from one |
| `Stuck.KeySteps` | stuck.go:236-245 | the segment is the keyed steps after the last one left out |
| `Stuck.SegmentIsLastKeyed` | stuck.go:236-245 | the segment is the longest end of the record whose steps all have a key, each with its number and key |
| `Stuck.RepeatRun` | stuck.go:253-256 | the run is the maximal trailing repeat |
| `Stuck.ErrorRun` | stuck.go:261-265 | the run is the maximal trailing run of one error |
| `Stuck.AlternatingPairs` | stuck.go:271-276 | the count is the largest whole number of trailing alternating pairs |
| `Stuck.Report` | stuck.go:283-298 | steps, tools without duplicates, and the latest call cut to 200 bytes |
| `Stuck.DetectStuck` | stuck.go:235-281 | nothing is found exactly when no enabled pattern holds at its threshold; a finding is of the first that holds, in the code's order, and names its maximal run |
| `Stuck.NewKeySilences` | stuck.go:173-178 | at a threshold t of two or more a new key rules out repeat and alternation, and same-error exactly when the step and the t - 1 before it did not all fail with one result |
| `Stuck.NewKeyMayStillTrip` | stuck.go:261-269 | at every threshold, so many different calls with one error trip the detector although the last key is new |
| `Grep.FindHits` | offloading_source.go:269-274 | the loop collects the hits |
| `Grep.HitsAreExact` | offloading_source.go:269-274 | the hits are exactly the matching lines, in order |
| `Grep.MergeCovers` | offloading_source.go:279-293 | unless the first window wraps, the merged spans are sorted, separated by gaps, and cover exactly the lines within the context of a match |
| `Grep.MergeBreaks` | offloading_source.go:283 | if it wraps, the first span's bounds are out of order |
| `Grep.SizeIsCover` | offloading_source.go:294-320 | separate spans hold as many lines as they cover |
| `Grep.Show` | offloading_source.go:295-308 | the loop shows whole spans while they fit, and stops the program at the first that fits but cannot be sliced |
| `Grep.BlocksList` | offloading_source.go:295-308 | the rows of separate spans are the lines they cover, as they stand in the text and in order, with a separator wherever lines are skipped |
| `Grep.GrepLines` | offloading_source.go:261-321 | what is shown are the first whole spans that fit in the limit, 200 lines unless set: the first lines within the context of a match, in order, with a separator wherever lines are skipped; shown and hidden together are all of them; there is no answer exactly without a match |
| `Grep.WindowBreaks` | offloading_source.go:231-247 | a page's bounds are out of order exactly when offset plus limit wraps |
| `Grep.PageMovesOn` | offloading_source.go:231-252 | a page has limit characters, 4000 unless set, or what is left, and names the next exactly when more is left |
| `Grep.PagesFrom` | offloading_source.go:231-252 | following the pages from any offset reads the rest of the text exactly when the first page is in order |
| `Grep.PagesAreTheText` | offloading_source.go:231-252 | following the pages from the start, each of which names the next, reads the whole text, whatever the limit |

## Left out

- HTTP, server-sent events, JSON encoding, request bodies and retries of the providers: input and output over libraries
  outside the model. That a message list becomes the wire items that say the same is not modelled.
- SHA-256 is taken to be injective, and field lengths in chaining to be below 2^64.
- Spans, metrics, logging, events emitted to the surface and the collision hook: they do not affect results.
- Regular expressions, JSON schemas, canonical arguments and `DefaultStuckKey`: arbitrary functions here.
- Real scheduling: safety is claimed for every interleaving of steps, liveness only as far as `NeverStalls` and
  `CanReturn` say.
- The sort routines of the Go library: modelled as the sorted lists that `Sorting.StableSort` and
  `SortedIsUnique` show unique.
- `host/`, memory and result stores, run store, plan tool, failover, agent pool, tree budget, evaluation, spotlight,
  critique and the thin tool sources: real, but their invariants are easier.
- The event policy's filters, transforms, templates and `SetHint`: an event arrives after the first two, hints are fixed
  for the run, and rendering is a string template.
- EventInjectionPolicy.Drain: windows are held as values in the policy rather than as objects of their own, because each
  belongs to one policy; `WindowStage` is the object. The order in which the map yields windows is a parameter.
- TieredApproval.WrapToolCall: stops where the call is sent on or put to the user, since the answer comes later; a
  grant's answer is a parameter. The note a chooser appends to the result is not modelled.
- MultiSource.Gathered: what each source lists is a parameter, since a source may answer differently each time.
- RunTurn: a tool call's outcome is the text its schedule completes it with. Tool middleware, hints and the run scope are
  not modelled, and a dispatch that never returns counts as a turn without a result.
- The prior results a vote may start from: they are draws that are settled before the workers start.
- GrepLines: takes the text already split into lines, and leaves the wording of the last row and of the empty answer out.
