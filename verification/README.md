# Eidolon agent: verified model

This project models four parts of the Eidolon agent and proves what they keep over every
input and every run:

1. the role-group stream (`CoordinationStream`): a bounded priority outbox, a 64-slot reply
   semaphore, revocable permits, playback receipts and the press / release / transcript
   capture protocol, as a state machine whose steps are the stretches of code between awaits;
2. the conversation history cache (`HistoryManager`) and the turn loop (`TurnEngine.run`);
3. the prompt budget (`ContextBudget.prune`), the assembly of the system prompt by volatility,
   and the token reservation for history;
4. home sessions: the session table with its TTL, capacity and per-session lock, and the
   smart-home command that a close or an eviction may interrupt at any await.

`dafny verify dfyconfig.toml` checks everything.

## Layout

| files | subject |
|---|---|
| `Basics`, `Messages`, `Windows`, `History`, `HistoryReads`, `HistoryManager` | messages and their order, the last-write-wins log and its newest entries, `_merge_tail`, `replace_turn`, `recent_window`, the cache object |
| `Tools`, `Turn`, `TurnMeaning`, `TurnHistory` | tool rounds and their results, the whole turn, what it says and shows in terms of the deltas, overlapping turns and the cache |
| `Budget`, `Nesting`, `Rendering`, `Provenance`, `References`, `Prompt`, `PromptReuse` | the allocator, when its kept sets are nested, the rendered history and its reservation, what it says of each message, its references, the assembled prompt |
| `Outbox`, `Capture`, `Stream`, `CoordinationStream` | queue and semaphore, capture protocol, the protocol's state machine and its runs, the stream object |
| `StreamOutcomes`, `StreamOrder`, `StreamDelivery`, `CaptureProgress`, `StreamLimits` | what the calls return, what is sent and in which order, that an undisturbed reply and capture get through, where the protocol falls short |
| `HomeContext`, `HomeCommand`, `HomeOutcomes`, `SmartHomeCommand`, `HomeStore`, `HomeSessions` | the conversation state, the command's stretches (as functions and on the object) and what they come to, the session table (as a value and as objects) |
| `HomeRuns`, `HomeSafety`, `HomeAuthority`, `HomeTable`, `HomeOpening`, `HomeProgress` | runs of the application, what holds in them, when a closed key opens, that commands get through |

An object that the source updates in place is a class; its methods are proved against the
functions that the lemmas are about. The inputs of a run that the code does not decide (the
model, dispatchers, interpreters, directories, the executor, the moment of a cancellation,
the clock) are parameters.

## What the proofs found

- The history store's hydrator applies its row limit before private rows are dropped, so a
  private row can hide public history from `recent_window`. `HistoryReads.HydratedExactIff`
  is the exact condition, `HistoryReads.HydratedExact` the case without private rows.
- A window of zero is not an empty window: `[-0:]` keeps everything (`HistoryReads.ZeroWindow`).
- `replace_turn` docs allow a terminal update to remove an answer; the cache then is shorter
  than full and no longer the newest part of the log (`HistoryManagers.WithdrawnAnswerLeavesGap`).
  `History.ReplaceExactIff` says exactly when one call keeps it so. The engine does this only when
  cancelled in its wait for a presentation, which is not modelled: the turns that are never do
  (`TurnHistory.CacheOfTurns`).
- A `Press` whose `capturing` frame cannot be queued leaves the new capture id with the old
  transcript future. `StreamLimits.WrongTextReached` is a run after which `transcribe` would answer
  a caller asking for the new capture with the old text; the press also raises out of `accept` and
  ends the reader, so nothing in the application makes that call. `StreamLimits.AcceptPressBindsIff`
  is the exact condition. The model treats such a press as broken.
- A softened answer is streamed text first and stored prefix first: history matches exactly when
  answer and prefix are repetitions of one word (`Turn.SoftenedMatchesIff`), so never when they
  begin differently (`Turn.SoftenedDiffers`).
- A turn whose history write before DONE raises tries to write the answer again in its clean-up,
  as an errored turn; whether that write takes effect is an input, and `Turn.ErroredKeepsIff` says
  exactly when an errored turn keeps an answer.
- `_round_done` marks the stream disconnected without resolving receipts, so that a `stop` which
  still waits for its device is left waiting: `StreamLimits.RoundDoneStrands` is a run of the stream
  under an arbitrary session, and `StreamLimits.QuietIff` says exactly when nobody is left waiting
  after a lost connection. In the application the socket handler then calls `disconnect`
  (`app/admin/routers/role_groups.py`), and a `stop` has a deadline of its own.
- Kept sets are not nested across budgets (`Nesting.NotNested`); `Nesting.NestedIff` says exactly
  for which segments they are.
- A `get` under another Companion's scope neither touches nor keeps alive a closed home session.
  So a key can open although it was asked for within the TTL
  (`HomeOpenings.ForeignGetsDoNotCount`); `HomeOpenings.OpensIff` is the exact condition, and
  `HomeOpenings.OpensAfterKeyGap` the plain claim while only the session's own scope asks.

## Model

| member | source | states |
|---|---|---|
| Messages.OrderLaws | eidolon_agent/domain/history/manager.py:162-175 | conversation order is a strict total order on message positions |
| Messages.KeyMeaning | eidolon_agent/domain/history/manager.py:178-183 | a message with a place in a turn is stored under that place, whatever its id; any other under its id |
| History.MergeTail | eidolon_agent/domain/history/manager.py:150-159 | the dictionary-then-sort loop computes `MergeTailOf`, negative and zero windows included |
| History.MergeTailMeaning | eidolon_agent/domain/history/manager.py:150-159 | the merge is the newest part of the last-write-wins log of both inputs whenever equal keys are equal positions |
| History.FoldMeaning | eidolon_agent/domain/history/manager.py:156-159 | that log is sorted and holds exactly the last write to each position |
| History.TruncateEarly | eidolon_agent/domain/history/manager.py:150-183 | truncating a merge before merging more never changes the result |
| History.ReplaceExactIff | eidolon_agent/domain/history/manager.py:44-59 | when one `replace_turn` on a truncated window equals truncating the log rewritten: exactly when nothing older was forgotten or enough newer entries remain |
| History.CacheIsNewestLog | eidolon_agent/domain/history/manager.py:44-59 | over any run whose later records of a turn keep its earlier keys, the cache is the newest `window_size` entries of the unbounded log, in order, no key twice |
| HistoryManagers.HistoryManager.Append | eidolon_agent/domain/history/manager.py:36-42 | a bounded deque: the oldest entry falls off, nothing is sorted |
| HistoryManagers.HistoryManager.ReplaceTurn | eidolon_agent/domain/history/manager.py:44-59 | one conversation's window becomes the specified replacement, all others stay |
| HistoryManagers.HistoryManager.ReadCache | eidolon_agent/domain/history/manager.py:64-75 | the first lock section: the cached answer, and how many rows to hydrate when it is short |
| HistoryManagers.HistoryManager.ReadAgain | eidolon_agent/domain/history/manager.py:88-95 | the second lock section reads the cache as it is then and merges the rows under it |
| HistoryManagers.HistoryManager.DropSession | eidolon_agent/domain/history/manager.py:106-108 | one conversation's window is removed |
| HistoryManagers.RememberedConsistent | eidolon_agent/domain/agent/turn.py:1031-1078 | the records `_remember_turn` writes always give equal keys equal positions |
| HistoryManagers.RememberedCacheIsNewest | eidolon_agent/domain/agent/turn.py:1031-1078 | over any run of recorded turns that withdraw nothing, the cache is the newest part of the log |
| HistoryManagers.WithdrawnAnswerLeavesGap | eidolon_agent/domain/history/manager.py:49-51 | a withdrawn answer leaves the cache different from the newest part of the log |
| HistoryManagers.TurnReadsBack | eidolon_agent/domain/agent/turn.py:1031-1078 | all that the log holds of a turn is its newest record, whatever was written since: its text as the user's message or its answer as the assistant's |
| HistoryManagers.TurnKept | eidolon_agent/domain/agent/turn.py:1031-1078 | neither is missing unless it is empty, and the text comes before the answer |
| HistoryReads.CacheAnswers | eidolon_agent/domain/history/manager.py:61-67 | the cache alone is a suffix of the promised answer (also after a hydration timeout), and the answer itself once it fills the window |
| HistoryReads.AnswerMeaning | eidolon_agent/domain/history/manager.py:61-67 | the promised answer, message by message: public, not of the excluded turn, and with fewer than `window` such messages after it |
| HistoryReads.UnhydratedAnswers | eidolon_agent/domain/history/manager.py:69-88 | a read whose rows did not come in time answers with a suffix of the promised answer, and with all of it when the cache fills the window |
| HistoryReads.ZeroWindow | eidolon_agent/domain/history/manager.py:97-104 | a window of zero reads as asked for exactly when the cache shows nothing |
| HistoryReads.HydratedExactIff | eidolon_agent/domain/history/manager.py:88-95 | after hydration the read is exactly the last `window` visible messages of the log iff the row limit cut off no visible row the cache lacks or the window is full of newer ones; the cache may have changed between the locks |
| HistoryReads.HydratedExact | eidolon_agent/domain/history/manager.py:69-95 | with no private rows stored and at most two rows of the excluded turn the read is exact |
| HistoryReads.PrivateRowHidesHistory | eidolon_agent/infra/persistence/agent_runtime.py:72-93 | a newer private row inside the limit hides an older public message |
| Tools.Split | eidolon_agent/domain/agent/turn.py:472-479 | calls of tools that failed are suppressed, the others dispatched, each in call order |
| Tools.MergeResults | eidolon_agent/domain/agent/turn.py:1137-1147 | results by call id, in call order |
| Tools.Recount | eidolon_agent/domain/agent/turn.py:540-544 | a success forgets a tool's failures, a failure adds one |
| Tools.CountMeaning | eidolon_agent/domain/agent/turn.py:540-544 | after a round a tool is blocked exactly when its last result failed, or as before if it was not named |
| Tools.RoundAnswered | eidolon_agent/domain/agent/turn.py:472-539 | every call of a round gets exactly one result under its own id, in call order, and only dispatched ones succeed |
| Tools.RoundMixes | eidolon_agent/domain/agent/turn.py:1122-1147 | with distinct call ids, a call's result is its suppression exactly when its tool was blocked |
| Tools.DispatchedGetsItsReport | eidolon_agent/domain/agent/turn.py:472-539 | with distinct call ids, the result of a dispatched call is the dispatcher's own report for it, under its id and name |
| Tools.RoundKeepsSuppression | eidolon_agent/domain/agent/turn.py:472-544 | a round never dispatches a tool whose last result in an earlier round failed |
| Tools.OneDispatchedFailure | eidolon_agent/domain/agent/turn.py:472-479 | a corollary of permanent suppression: each tool has at most one round in which its dispatch ends in failure |
| Turn.Consume | eidolon_agent/domain/agent/turn.py:370-440 | one model stream shows exactly its events, with a delegation's acknowledgement said once a turn, and accumulates exactly the text it shows |
| Turn.ReportRound | eidolon_agent/domain/agent/turn.py:556-600 | the events of a round, and exactly one TOOL message per result, in order, with its id, name and content |
| Turn.ToolRound | eidolon_agent/domain/agent/turn.py:472-614 | a round extends the conversation by its call message and then one TOOL message per result, keeps failed tools suppressed, and shows at most one wait hint a turn |
| Turn.ToolLoop | eidolon_agent/domain/agent/turn.py:365-615 | the loop ends; its rounds, events and way out are those of the script, with one model stream more than rounds |
| Turn.RunIsDetermined | eidolon_agent/domain/agent/turn.py:365-615 | the loop's contract leaves no choice of rounds |
| Turn.RoundsBounded | eidolon_agent/domain/agent/turn.py:461-471 | at most `max_tool_iters` rounds |
| Turn.Conclude | eidolon_agent/domain/agent/turn.py:617-727 | status, last events and the stored answer: the whole answer on success, its first max(0, played_chars) characters on cancellation, none on an error before the final write; writes of the cancellation handler and of the clean-up may fail |
| Turn.ErroredKeepsIff | eidolon_agent/domain/agent/turn.py:648-727 | an errored turn keeps an answer exactly when it had a whole one, its write before DONE raised and the one in the clean-up took effect |
| Turn.Run | eidolon_agent/domain/agent/turn.py:228-727 | the whole turn: events numbered 0, 1, 2, ..., their exact sequence; after the compiled prompt every call message is followed by exactly one TOOL message per call, in call order, with the name and content of its result; permanent suppression, and history that agrees with what was said |
| Turn.ConversationTells | eidolon_agent/domain/agent/turn.py:556-614 | the messages built round by round tell the rounds: the calls of each, then its results |
| Turn.TellsWellFormed | eidolon_agent/domain/agent/turn.py:556-614 | and such a conversation is well formed: each call message has exactly its answers after it, under the ids of its calls |
| Turn.StopsForAReason | eidolon_agent/domain/agent/turn.py:441-471 | the loop stops only when the last stream broke off or asked for no tools, the turn is coordinated, its rounds are used up, or the dispatch broke off |
| TurnMeaning.WordsMeaning | eidolon_agent/domain/agent/turn.py:385-440 | what is said is the texts of the deltas in order; the acknowledgement of a delegation stands once, after the text of the first delta that delegates |
| TurnMeaning.TurnSays | eidolon_agent/domain/agent/turn.py:366-440 | a listener was given exactly the words of all the deltas consumed, and then the softening prefix, if the answer was given whole and softened |
| TurnMeaning.TurnKeeps | eidolon_agent/domain/agent/turn.py:617-709 | history keeps exactly those words: prefix first when the turn ended well, what was heard of them when it was cancelled |
| TurnMeaning.HeardMeaning | eidolon_agent/domain/agent/turn.py:690-709 | what was heard is the first max(0, played_chars) characters, and all of them when no boundary is given |
| TurnMeaning.TurnShows | eidolon_agent/domain/agent/turn.py:366-727 | every tool call of the model and every result of every round is shown once and in order, at most one hint, and DONE last and exactly when the turn ended well |
| TurnMeaning.TurnHandsOver | eidolon_agent/domain/agent/turn.py:556-600 | a handoff is shown right after each delegation whose result hands off, and nowhere else |
| TurnMeaning.EndsWellIff | eidolon_agent/domain/agent/turn.py:617-727 | a turn ends well exactly when it was admitted and compiled, its loop came to its own end, the guardrail did not block it and history took the answer |
| TurnMeaning.BlockedIsNotKept | eidolon_agent/domain/agent/turn.py:617-727 | a blocked answer ends the turn as an error and is not kept |
| Turn.CommuteIff | eidolon_agent/domain/agent/turn.py:622-628 | putting a prefix first or last makes no difference exactly when both texts are repetitions of one word |
| Turn.SoftenedMatchesIff | eidolon_agent/domain/agent/turn.py:622-628 | a softened answer is stored as it was said exactly when answer and prefix are repetitions of one word |
| Turn.SoftenedDiffers | eidolon_agent/domain/agent/turn.py:622-628 | it is stored differently whenever answer and prefix begin with different characters |
| TurnHistory.EngineWithdrawsNothing | eidolon_agent/domain/agent/turn.py:1031-1078 | however the writes of overlapping turns interleave, none drops what an earlier one of its turn held |
| TurnHistory.CacheOfTurns | eidolon_agent/domain/agent/turn.py:1031-1078 | so the cache is the newest part of the whole log for every interleaving of turns |
| TurnHistory.LogIsFold | eidolon_agent/domain/history/manager.py:44-59 | when no position is lost, the log is the last write to each position ever written |
| TurnHistory.LogTellsTurn | eidolon_agent/domain/agent/turn.py:1031-1078 | however turns overlapped, the log tells each by its newest write: what was asked as the user, what that write kept as the assistant |
| TurnHistory.TurnsCovered | eidolon_agent/domain/history/manager.py:88-95 | a store of rows the turns wrote, one a position, with all that the cache forgot, covers the log together with the cache |
| TurnHistory.ReadOfTurns | eidolon_agent/domain/history/manager.py:61-95 | end to end: for every interleaving of turns and every such store without private rows, the hydrated read returns exactly the last `window` messages not of the excluded turn |
| Budget.Prune | eidolon_agent/domain/context/types.py:155-201 | the loop computes the greedy allocation by rank; kept and dropped partition the input in segment and rank order, and overflow is the mandatory excess |
| Budget.AllocationUnique | eidolon_agent/domain/context/types.py:181-194 | the allocation is unique: the specification determines the kept set |
| Budget.NothingElseFits | eidolon_agent/domain/context/types.py:181-194 | no dropped segment would still fit |
| Budget.DropsCascade | eidolon_agent/domain/context/types.py:181-194 | a dropped segment forces every later-ranked optional segment of at least its size to be dropped |
| Budget.TotalBounded | eidolon_agent/domain/context/types.py:168-185 | the kept total is at most the larger of the budget and the mandatory total |
| Nesting.NestedIff | eidolon_agent/domain/context/types.py:179-194 | for given segments, a larger budget keeps all that a smaller one kept, for all budgets, exactly when in rank order no optional segment is followed by a smaller non-empty one |
| Nesting.NotNested | eidolon_agent/domain/context/types.py:181-185 | the smallest witness that it is not so in general |
| Rendering.BackgroundBlock | eidolon_agent/domain/context/compiler.py:1346-1370 | the loop renders the background block of the messages, skipping empty ones |
| Rendering.HistoryBinding | eidolon_agent/domain/history/source.py:64-98 | the loop renders the binding of the kept messages to the current speaker; what that binding says is `Provenance.RelationsMeaning` and `Provenance.MatchedIsSame` |
| Provenance.RelationsMeaning | eidolon_agent/domain/history/source.py:70-85 | one entry for each user message, in order and none for an assistant's: same source exactly when its identified speaker is the current one, different exactly when both are known and differ, undecided exactly when one is unknown |
| Provenance.MatchedIsSame | eidolon_agent/domain/history/source.py:44-61 | a reference is listed as the current speaker's own exactly when its entry says the same source, in that order |
| Provenance.NoticeIff | eidolon_agent/domain/history/source.py:86-98 | the notice that nothing can be attributed is there exactly when no user message is the current speaker's |
| Provenance.LinesTell | eidolon_agent/domain/context/compiler.py:1346-1370 | after its head the block has one line for each message with content, in order, with its reference and role first and its content last |
| References.ReferencesDiffer | eidolon_agent/domain/context/compiler.py:1360-1369 | different message ids are never written alike as references, with or without ASCII escapes |
| Rendering.ReservationCovers | eidolon_agent/domain/context/compiler.py:539-571 | for any kept messages, the estimates of the rendered block and of the real binding never exceed the per-message reservations plus the empty binding's, every estimate floored by three |
| Prompt.RenderedHistoryFits | eidolon_agent/domain/context/compiler.py:539-571 | so under any allocation the rendered history and binding stay within the budget beside the other segments |
| Prompt.SortIsClasses | eidolon_agent/domain/context/compiler.py:784-785 | the stable sort is the concatenation of the volatility classes, each in its own order |
| Prompt.PruningKeepsStable | eidolon_agent/domain/context/types.py:155-167 | pruning never touches the stable parts |
| Prompt.BlocksInOrder | eidolon_agent/domain/context/compiler.py:764-793 | blocks come stable, history, volatile, current |
| Prompt.PrefixReused | eidolon_agent/domain/context/compiler.py:764-793 | two prompts with the same stable parts, the second's history extending the first's, share the stable text and the whole first history block, if there is one |
| PromptReuse.KeptWhenRoom | eidolon_agent/domain/context/types.py:179-185 | a segment is kept whenever the mandatory ones and all that outrank it leave room for it |
| PromptReuse.ReusedWhenRoom | eidolon_agent/domain/context/compiler.py:764-793 | prefix reuse from what is known before pruning: both budgets have room for their history windows and the later window only appends |
| Prompt.RequestIsLast | eidolon_agent/domain/context/compiler.py:764-793 | the current request is the last block |
| Outbox.FullOnlyWithNotices | eidolon_agent/app/transport/coordination.py:43-44 | a full queue holds at least 64 frames that are not reply frames |
| Outbox.LeastMeaning | eidolon_agent/app/transport/coordination.py:96-98 | the writer takes the least (priority, sequence) entry |
| Outbox.WriteInOrder | eidolon_agent/app/transport/coordination.py:96-107 | whatever overtakes it, each reply's frames leave in order |
| Outbox.AbandonKeeps | eidolon_agent/app/transport/coordination.py:87-94 | a cancelled acquire loses no slot |
| Capture.TranscribeIsBound | eidolon_agent/app/transport/coordination.py:109-112 | whatever happens later, `transcribe` yields only the final transcript of its own capture, after its release; that it does is `CaptureProgress.RoundGetsItsText` |
| CaptureProgress.TranscribeAnswers | eidolon_agent/app/transport/coordination.py:109-112 | `transcribe` answers for the current capture, before and after its release, with the future of that capture |
| CaptureProgress.PressStarts | eidolon_agent/app/transport/coordination.py:213-226 | a queued press of a new capture makes it current, with a transcript of its own that is not resolved |
| CaptureProgress.RoundGetsItsText | eidolon_agent/app/transport/coordination.py:213-244 | from a queued press on, while no other press is accepted and the scene is not closed: `transcribe` hands out one future, and it holds exactly the first final text of the capture after its release |
| CaptureProgress.ClosedNobodyWaits | eidolon_agent/app/transport/coordination.py:262-269 | once a closing scene is closed nobody waits for a transcript, in any continuation, and settled ones keep their outcome |
| Capture.SupersededNeverDelivers | eidolon_agent/app/transport/coordination.py:213-224 | a superseded capture's unresolved transcript is cancelled for good |
| Capture.PressBindsIff | eidolon_agent/app/transport/coordination.py:213-224 | a press binds `transcribe` to its own capture exactly when its frame is queued or there is no earlier transcript |
| StreamLimits.AcceptPressBindsIff | eidolon_agent/app/transport/coordination.py:213-224 | the same for the stream, by the state of its queue |
| StreamLimits.WrongTextReached | eidolon_agent/app/transport/coordination.py:218-224 | a run from the start, ended by the failing press, after which `transcribe` would give a caller for the new capture the text of the old one |
| StreamMachine.StepKeeps | eidolon_agent/app/transport/coordination.py:68-280 | every step keeps the invariant of slots, queue, replies, receipts and captures |
| StreamMachine.SentIsPrefix | eidolon_agent/app/transport/coordination.py:68-107 | in every run the frames sent for a request are a prefix of its start, deltas and end; an end that was sent had everything before it sent |
| StreamMachine.RevokedIsSilent | eidolon_agent/app/transport/coordination.py:96-107 | once a permit is revoked nothing more of its reply is sent |
| StreamOutcomes.RevocationSilences | eidolon_agent/app/transport/coordination.py:96-107 | so a revocation takes effect at once, in every continuation |
| StreamMachine.SlotsConserved | eidolon_agent/app/transport/coordination.py:43-94 | in every run free + granted + queued reply slots are 64, and the queue is full only with 64 other frames |
| StreamMachine.PresentedOnEvidence | eidolon_agent/app/transport/coordination.py:128-197 | `present` returns True only after a completed receipt from the request's own device, under a current permit, after the writer took its `reply_end` |
| StreamOutcomes.ReceiptDecides | eidolon_agent/app/transport/coordination.py:114-197 | an accepted receipt decides the call that waits: it returns on "completed" and raises otherwise, a reply and a stop alike; a completed reply is presented |
| StreamOutcomes.ReturnsIff | eidolon_agent/app/transport/coordination.py:114-197 | in every run a call has returned exactly when its task ran on after an accepted completed receipt and before a cancellation; `present` has returned True exactly when that call was a reply |
| StreamOutcomes.CompletionAllowedIff | eidolon_agent/app/transport/coordination.py:96-107 | a waiting reply may be confirmed exactly when the writer took its `reply_end` |
| StreamOrder.WholeAnswerSent | eidolon_agent/app/transport/coordination.py:147-175 | in every run the texts sent for a reply are a prefix of the answer texts of its events, and all of them once its `reply_end` was sent |
| StreamOrder.ControlsSentInOrder | eidolon_agent/app/transport/coordination.py:68-107 | in every run no stop and no capturing frame is lost, they are queued as urgent and sent in the order emitted |
| StreamOrder.StopsOvertakeReplies | eidolon_agent/app/transport/coordination.py:96-126 | a stop or capturing frame queued behind reply frames leaves before all of them, in every continuation |
| StreamOrder.SlotsInOrder | eidolon_agent/app/transport/coordination.py:87-94 | in every run the reply slots go to the waiting calls in the order in which they asked |
| StreamOrder.StopQueuedIff | eidolon_agent/app/transport/coordination.py:114-126 | a new `stop` queues its frame and waits exactly when the stream is connected and its queue not full; otherwise it raises |
| StreamDelivery.UndisturbedIsPresented | eidolon_agent/app/transport/coordination.py:87-179 | from any reachable state with room for its frames: a reply under a current permit is sent as exactly its texts between start and end, and the completed receipt of its device makes `present` return True |
| StreamDelivery.GrantedGoesOn | eidolon_agent/app/transport/coordination.py:87-94 | a call whose slot was granted leaves the line and emits its frame, or fails exactly when its permit is revoked, the stream disconnected or the queue full |
| StreamDelivery.FailedReplyStops | eidolon_agent/app/transport/coordination.py:147-178 | after a receipt that says "failed" no more text of the reply is emitted and `present` never returns True, in any continuation |
| StreamMachine.UselessReceipts | eidolon_agent/app/transport/coordination.py:182-197 | a corollary of the receipt branch: late, duplicate, foreign, premature, revoked and unacknowledged receipts change nothing |
| StreamMachine.NoNewWaiting | eidolon_agent/app/transport/coordination.py:68-70 | once disconnected no step makes a task wait for a receipt |
| StreamMachine.DisconnectedStaysQuiet | eidolon_agent/app/transport/coordination.py:271-280 | after `disconnect`, in every continuation, no task waits on an unresolved receipt |
| StreamLimits.WaitsUntilSettled | eidolon_agent/app/transport/coordination.py:246-280 | once the connection is lost nobody starts to wait for a receipt, and each wait goes on exactly until a receipt, a cancellation or `disconnect` settles it |
| StreamLimits.QuietIff | eidolon_agent/app/transport/coordination.py:246-280 | so nobody waits exactly when every wait the loss left behind was settled since |
| StreamLimits.RoundDoneStrands | eidolon_agent/app/transport/coordination.py:227-260 | a run from the start in which the round of a released capture ends with the queue full: `_round_done` disconnects the stream and leaves every `stop` waiting |
| StreamMachine.MicOnlyGrows | eidolon_agent/app/transport/coordination.py:213-244 | nothing later in a run takes back what the capture protocol settled |
| StreamMachine.TranscriptsAreBound | eidolon_agent/app/transport/coordination.py:109-112 | over every continuation: transcripts are bound to their capture and release, superseded ones stay unresolved no longer, each release happens once; that `transcribe` answers is `CaptureProgress.TranscribeAnswers` |
| CoordinationStreams.CoordinationStream.Emit | eidolon_agent/app/transport/coordination.py:68-85 | raises when disconnected, counts the frame, queues it or finds the queue full |
| CoordinationStreams.CoordinationStream.SendReply | eidolon_agent/app/transport/coordination.py:89-94 | from an owned slot: frame queued, or the slot released and the request ended |
| CoordinationStreams.CoordinationStream.BeginPresent | eidolon_agent/app/transport/coordination.py:128-146 | a reply registers its receipt and emits its start, or waits for a slot |
| CoordinationStreams.CoordinationStream.NextEvent | eidolon_agent/app/transport/coordination.py:147-165 | an event is checked, refused or emitted |
| CoordinationStreams.CoordinationStream.BeginStop | eidolon_agent/app/transport/coordination.py:114-126 | a stop registers its receipt and emits urgently, or ends |
| CoordinationStreams.CoordinationStream.WriteOne | eidolon_agent/app/transport/coordination.py:96-107 | one round of the writer: slot released, revoked frame dropped, completion allowed at the end |
| CoordinationStreams.CoordinationStream.AcceptReceipt | eidolon_agent/app/transport/coordination.py:182-197 | the receipt branch, refusals included; what an accepted receipt decides is `StreamOutcomes.ReceiptDecides` |
| CoordinationStreams.CoordinationStream.AcceptPress | eidolon_agent/app/transport/coordination.py:213-226 | a press supersedes the capture, including the failing emit |
| CoordinationStreams.CoordinationStream.AcceptRelease | eidolon_agent/app/transport/coordination.py:227-234 | only the first release of the current capture reaches the session |
| CoordinationStreams.CoordinationStream.AcceptTranscript | eidolon_agent/app/transport/coordination.py:235-244 | a transcript resolves the current released capture once; a different one is refused |
| CoordinationStreams.CoordinationStream.Disconnect | eidolon_agent/app/transport/coordination.py:271-276 | every registered receipt is resolved as failed |
| HomeContexts.HistoryIsNewest | eidolon_agent/domain/smarthome/context.py:60-75 | over any changes the bounded history is the newest part of the whole conversation since it was last cleared |
| HomeContexts.ChangesKeepBounds | eidolon_agent/domain/smarthome/context.py:43-75 | history stays within its limit and its texts within 512 characters; a pending question was asked |
| HomeContexts.SeenIsRecent | eidolon_agent/domain/smarthome/context.py:77-93 | what a turn is shown was remembered within 30 seconds and not cleared since |
| HomeContexts.KeptMeaning | eidolon_agent/domain/smarthome/context.py:60-75 | the newest history item shows the first 512 characters of the utterance, and of the response or, without one, of the question asked |
| HomeContexts.HomeContext.Clear | eidolon_agent/domain/smarthome/context.py:47-58 | everything is reset, history only if asked |
| HomeContexts.HomeContext.Remember | eidolon_agent/domain/smarthome/context.py:60-75 | the exchange becomes the focus and the newest history entry for 30 seconds |
| HomeContexts.HomeContext.TakeSnapshot | eidolon_agent/domain/smarthome/context.py:77-93 | nothing and a cleared context when inactive or expired, otherwise the conversation as it is |
| HomeCommands.PlanDevices | eidolon_agent/domain/smarthome/planning.py:137-176 | one planned target per reference with its refusal; all refused beyond the command bound |
| HomeCommands.ResolveAmbiguity | eidolon_agent/domain/smarthome/command.py:412-455 | the loop decides by the capable devices in order |
| HomeCommands.CapableMeaning | eidolon_agent/domain/smarthome/command.py:420-435 | the capable are exactly the accepting references; a single one is the only one that accepts |
| HomeCommands.StaleIsInert | eidolon_agent/domain/smarthome/command.py:152-277 | a stale turn writes nothing and runs nothing, whichever await it was at |
| HomeCommands.ContinueKeeps | eidolon_agent/domain/smarthome/command.py:146-284 | every stretch keeps the context bounded and neither closes nor renumbers the session |
| HomeCommands.PlanIsGrounded | eidolon_agent/domain/smarthome/command.py:232-274 | the executor is called only for a rechecked proposal of a current turn; every target is in the home just read and accepts, all of them or the only capable one; that it is called is `HomeOutcomes.ExecutesIff` |
| HomeOutcomes.ExecutesIff | eidolon_agent/domain/smarthome/command.py:232-274 | a current control command reaches the executor exactly when all it names is still there and its action can be done on its targets, or on the only capable one of an ambiguous request; the plan does it on exactly these |
| HomeOutcomes.ActIff | eidolon_agent/domain/smarthome/planning.py:124-176 | a resolved action is executed exactly when it activates one scene, or each of one to `MAX_COMMANDS` devices accepts it |
| HomeOutcomes.SceneNamesNow | eidolon_agent/domain/smarthome/planning.py:162-166 | a scene plan names exactly the stored devices that are still there, each once, in stored order |
| HomeOutcomes.OnlyCapableIff | eidolon_agent/domain/smarthome/command.py:420-441 | one capable device is left exactly when it is the only named one that accepts the action |
| HomeOutcomes.ChoosingIff | eidolon_agent/domain/smarthome/command.py:204-223 | the interpreter's question about several devices becomes a choice exactly among the two to eight that accept, and is asked as it is otherwise |
| HomeOutcomes.RefusedAsksOrFails | eidolon_agent/domain/smarthome/command.py:253-270 | a device command that cannot be done is asked back about, with exactly its devices, when it names several or its value is out of range, and fails otherwise |
| HomeOutcomes.QueryAnswersIff | eidolon_agent/domain/smarthome/command.py:237-242 | a query is answered from the home read last exactly when it names a device, and executes nothing |
| HomeOutcomes.WithdrawnLeavesNoFocus | eidolon_agent/domain/smarthome/command.py:199-230 | a request withdrawn, not understood, unrelated or about nothing there ends at once and leaves nothing a later turn could confirm |
| HomeOutcomes.ExecutedIsSeen | eidolon_agent/domain/smarthome/command.py:272-277 | after an executed command the next turn within 30 seconds is shown what was asked, done and answered |
| HomeOutcomes.UnconfirmedIsNotRemembered | eidolon_agent/domain/smarthome/command.py:272-277 | what is not reported as executed, or comes back to a closed session, leaves the context as it was |
| HomeOutcomes.ChoiceIsSeen | eidolon_agent/domain/smarthome/command.py:280-284 | after a choice it is shown exactly the capable devices, as the pending question |
| HomeOutcomes.QuestionIsSeen | eidolon_agent/domain/smarthome/command.py:260-270 | after a question about several devices it is shown these devices, as pending |
| SmartHomeCommands.SmartHomeCommand.Understood | eidolon_agent/domain/smarthome/command.py:176-230 | the stretch after understanding, on the session's own context |
| SmartHomeCommands.SmartHomeCommand.HomeReread | eidolon_agent/domain/smarthome/command.py:232-274 | the stretch after the second directory read, with its checks in the source's order; what it comes to is `HomeOutcomes.ExecutesIff`, `QueryAnswersIff` and `RefusedAsksOrFails` |
| SmartHomeCommands.SmartHomeCommand.Resume | eidolon_agent/domain/smarthome/command.py:146-277 | whichever await returned, the object moves as the specified stretch says |
| HomeStores.GetOthers | eidolon_agent/app/smarthome/sessions.py:33-50 | `get` drops a session exactly when it is unlocked and idle for the TTL, and touches only the session of its own scope |
| HomeStores.GetKeeps | eidolon_agent/app/smarthome/sessions.py:33-50 | `get` keeps the table within its capacity and every active session reachable under its key |
| HomeStores.GetAnswers | eidolon_agent/app/smarthome/sessions.py:33-50 | what `get` answers: the key's live open session, an error for a closed one or another Companion's, a new session where none is live, and an error when the live ones fill the table |
| HomeStores.OneActive | eidolon_agent/app/smarthome/sessions.py:40-44 | at most one active session a key |
| HomeStores.ExpiredIsSweep | eidolon_agent/app/smarthome/sessions.py:35-38 | deleting expired sessions one by one, in any order, is the sweep of them all |
| HomeStores.ClearedAreBlank | eidolon_agent/app/smarthome/sessions.py:61-65 | clearing closes every session in the table and leaves nothing of its conversation |
| HomeSessionTables.HomeSessions.Get | eidolon_agent/app/smarthome/sessions.py:33-50 | sweep, room, creation, scope check, touch and active check on the objects, as specified |
| HomeSessionTables.HomeSessions.Close | eidolon_agent/app/smarthome/sessions.py:52-59 | the named session is closed and cleared, or a foreign scope is refused |
| HomeSessionTables.HomeSessions.Clear | eidolon_agent/app/smarthome/sessions.py:61-65 | every session in the table is closed and cleared, and the table emptied |
| HomeRuns.StepKeeps | eidolon_agent/app/smarthome/application.py:48-80 | every step keeps the table, the locks and the order of arrival |
| HomeSafety.ExecutionsAreGrounded | eidolon_agent/domain/smarthome/command.py:192-274 | in every run each turn calls the executor at most once, for what it understood, on targets all held by a home it read in a later step |
| HomeAuthority.ExecutionsAreAuthorized | eidolon_agent/app/smarthome/application.py:48-72 | in every run no command reads the home, is understood or is executed before its own authorization came back |
| HomeProgress.SpokenExecutesIff | eidolon_agent/app/smarthome/application.py:48-77 | end to end, from every reachable state: a command that finds its session new or idle and is understood as a control proposal calls the executor exactly when it can be done in the home as read last |
| HomeProgress.CommandExecutesIff | eidolon_agent/domain/smarthome/command.py:146-277 | the same for a command that holds its lock, after whatever delays between its replies |
| HomeProgress.ArrivalBegins | eidolon_agent/app/smarthome/application.py:48-61 | a command whose session is new or idle gets its lock at once |
| HomeProgress.ResumeBegins | eidolon_agent/app/smarthome/application.py:53-61 | the next command in line of an open session gets its lock once that is free |
| HomeSafety.ClosedIsFinal | eidolon_agent/domain/smarthome/command.py:152-277 | once a session is closed, ended or evicted, no queued or suspended turn of it calls the executor or writes its context, in any continuation |
| HomeSafety.EndSessionIsFinal | eidolon_agent/app/smarthome/application.py:79-80 | after `end_session` the context stays empty and nothing more is executed for the session |
| HomeSafety.StaleMeansClosed | eidolon_agent/app/smarthome/application.py:57-61 | the lock's holder always has its session's revision, so only closing makes a turn stale |
| HomeSafety.OneInFlight | eidolon_agent/app/smarthome/application.py:57-61 | one command of a session is in flight at a time |
| HomeTables.LockedStays | eidolon_agent/app/smarthome/sessions.py:35-38 | a locked session is never evicted |
| HomeTables.TableIsSound | eidolon_agent/app/smarthome/sessions.py:33-65 | in every run: size within capacity, at most one active session a key, every active session reachable |
| HomeTables.FirstComeFirstServed | eidolon_agent/app/smarthome/application.py:53-61 | commands of a session begin in the order they arrived |
| HomeTables.ClosedOpensAfterGap | eidolon_agent/app/smarthome/sessions.py:33-50 | while a key is closed, a get of it succeeds only after at least the TTL without a get or close under the closed scope |
| HomeTables.EndedOpensAfterGap | eidolon_agent/app/smarthome/sessions.py:52-59 | and after `end_session` the gap starts no earlier than the end |
| HomeOpenings.OpensIff | eidolon_agent/app/smarthome/sessions.py:33-50 | a get of a closed key succeeds exactly when its session is unlocked and was last touched at least the TTL ago, whichever Companion asks and however full the table is |
| HomeOpenings.OpensAfterKeyGap | eidolon_agent/app/smarthome/sessions.py:33-50 | while only its own scope asks for a closed key, it opens only after the TTL in which nobody asks for it |
| HomeOpenings.ForeignGetsDoNotCount | eidolon_agent/app/smarthome/sessions.py:45-47 | from every freshly closed session: a foreign get inside the TTL and an own one at its end open the key with no such time |
| HomeOpenings.ClosedReached | eidolon_agent/app/smarthome/application.py:48-80 | a command, its cancellation and `end_session` reach such a state |

## Left out

- HistoryReads.HydratedExact: takes the store to hold no private rows and at most two rows of the excluded turn, because the hydrator limits rows before they are filtered; `HydratedExactIff` is the general case.
- History.CacheIsNewestLog: takes later records of a turn to keep its earlier keys, because a withdrawn key makes the claim false (`WithdrawnAnswerLeavesGap`).
- HomeTables.ClosedOpensAfterGap: counts gets under the closed session's own scope only, because a get under another Companion's scope does not touch it (`HomeOpenings.ForeignGetsDoNotCount`).
- History.TruncateEarly: windows are not negative; the code's behaviour for a negative window is modelled in `Slice` but not part of the law.
- HistoryManagers.RememberedCacheIsNewest: is about turn ids that are non-empty and have no surrounding white space, and turns that persist; speculative and uncommitted turns write nothing.
- Turn.Run: leaves out presentation mode, the crisis and refuse paths, speculative turns, closing the generator between events, a failing first history write, and the traces and metadata of a turn.
- StreamMachine.StepKeeps: a cancelled wait for a reply slot is one step, `Speaking` frames and the session object are left out, and the text of notices is not modelled; a round may end at any time after its capture is released, and more than once.
- CoordinationStreams.CoordinationStream.BeginPresent: request ids are unique; a repeated one does nothing here, where the source overwrites the pending receipt.
- CoordinationStreams.CoordinationStream.BeginStop: request ids are unique, and the stop frame's `capture_id` is left out.
- CoordinationStreams.CoordinationStream.AcceptPress: the table `_capture_epochs` is left out.
- CoordinationStreams.CoordinationStream.AcceptReceipt: pending receipts are entries of a map rather than objects shared with their waiting task.
- HomeCommands.PlanIsGrounded: interpreters, fallback and their confidence checks are one reply; a query's status texts and every message wording are stand-ins, as are the SDK's names of the scene trait and command.
- HomeRuns.StepKeeps: an asyncio lock is a holder and a queue whose first waiter may run when the lock is free; cancelling a waiter is one step, and which executor failures the actuator reports is an input.
- JSON escapes are modelled character by character; white space of contents is taken as already collapsed, and labels of a message come in as text.
- Time is a monotone integer clock; timeouts are replies that may come at any moment.
- gRPC, NATS, SQL, settings, logging, the device SDK and wire formats.
- Scoring and ranking of memories, persona state and the other prompt segments' texts: only their kind, estimate and place matter here.
