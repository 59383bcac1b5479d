# FastClaw: a verified model

FastClaw is a gateway between chat channels, a language-model agent and the computers its users link
to it. This project models the parts of it that keep state over whole runs, and proves what they
promise. `dafny verify dfyconfig.toml` checks everything.

**A turn and its history** (`messages`, `session`, `compaction`, `image_context`, `guards`,
`tool_rounds`, `turn_loop`, `turn_meaning`, `session_runs`). A session is the class it is in the program: a list of
messages, an undo snapshot, a count of running turns and a buffer of steering messages. The model provider, the
tools, what they are shown and the moments at which steers arrive or the turn is cut off are arbitrary
functions of the call, round or step, and so are the ids of the calls. `RoundsBefore` and `SaidBefore`
tell from the replies and the tools alone which tool rounds precede a request and what was said and
returned in them; `HandleMessage` is proved against that history: what each request holds, steers included, when it
offers tools, what ends the turn and at which step a death does, and that at most `limit + 2` calls are made in the loop and one after it. It is
also proved against the provider's rule for tool calls: an assistant message with tool calls is followed
at once by one result per call, in call order, and no result stands without its call. A turn that starts
from such a history keeps the rule in every request, whatever the ids, and in the history it leaves exactly
when the ids of the latest calls are usable. Each accepted steer is in the history once, in arrival order.
`RunSession` extends this to any sequence of turns, `/compact`, `/retry` and `/undo`.

**Linked computers** (`agl_link`, `agl_pairing`, `agl_tales`, `agl_stream`, `agl_recovery`, `agl_chat`,
`agl_answers`, `agl_allows`, `agl_bridge`, `agl_shared_turn`, `agl_grants`, `agl_tools`). Each block that holds a lock is one
step, and steps of all goroutines interleave freely: a run is any sequence of steps. Time is a counter that
only grows. The environment is agl's event stream, which brackets turns: a turn starts once, when none runs in its
session, and the turn that runs is the one that ends. Events that the hub drops for a subscriber that
lags are a step of their own (`Miss`). Where the program has a class whose methods hold the lock, the
model has that class (`ChatState`, `Session`, `AcpRunState`, `EventQueue` and others), and the contract
of each of its one-block methods equates the new state with the function that the steps use; the table
below lists those of them that branch, loop or send.

**Publish/subscribe, rate limiting and Agent Communication Protocol 0.2 runs** (`event_hub`,
`event_table`, `rate_limit`, `acp_run`, `acp_run_table`).

**Bundled skills and text cutting** (`skill_trees`, `bundled_skills`, `text`, `utf8`, `split_reply`).
sha256 is taken to tell apart whatever differs.

Some promises turn out to need a condition, and each comes with the run or the input that breaks it
without it:

- `internal/agent/loop.go:2902` reads an error that is missing when a result counts as failed by its
  content alone; the loop at `internal/agent/loop.go:3580-3585` guards that. Both forms are modelled
  (`Env.guarded`): without the guard the turn dies there, and the padding at its end still runs.
- A history is paired after a turn exactly when the ids of its latest calls are usable. Repeated ids do
  no harm to a round that finishes; an empty one does, in every turn
  (`Sessions.PadSettlesIff`, `Sessions.EmptyIdBreaks`).
- An accepted cancel ends a run cancelled exactly when the run's decisive check still sees it, in its
  status or in its context (`AcpRun.CheckDecides`, `AcpRun.LateCancelLoses`,
  `AcpRun.OverwrittenCancelLoses`).
- An answer holds only its own turn's text if its collector missed no start, end or text of that turn
  (`AglAnswers.AnswerHasOwnText`, `AglAnswers.MissedEventsMixTexts`).
- A turn gets one final answer from each chat that relays it: a session's name leaves out channel and account,
  so a chat can adopt the running turn of another one, and then both answer
  (`AglBridge.SharedTurnAdopted`, `AglSharedTurn.BothAnswer`).
- Lossless queues miss nothing and repeat nothing, but two publications at once may reach two queues of one
  key in opposite orders (`EventTable.EachReaderGetsAll`, `EventTable.OrdersMayDiffer`).
- A session grant answers a request of the machine of the collector that read it, which is the grant's
  own machine unless the chat has been bound to another one meanwhile: a superseded collector reads the
  chat's present machine. Where no two machines share a session id nothing goes astray
  (`AglAllows.EveryDecisionAnswersItsRequest`, `AglAllows.SharedIdMisdirects`).
- A bundled skill stays upgradable exactly when its bundle has no hidden file, since the hash of the
  disk skips hidden files and the hash of the bundle does not
  (`BundledSkills.UpgradedIffNothingHidden`); and the tree encoding decodes uniquely for paths without
  newlines only (`SkillTrees.DecodeEncode`, `SkillTrees.NewlinesCollide`).

## Model

| member | source | states |
|---|---|---|
| `Sessions.Session.PadOrphanToolResults` | internal/agent/loop.go:3109-3142 | the loops append what `Padded` says: a stopped result for each call of the latest calling message that has none |
| `Sessions.PadsTell` | internal/agent/loop.go:3109-3142 | what the pads are, told from the history alone: for each call of the latest calling message whose id no later result carries, in order, a result that says it was stopped |
| `Sessions.PadRestoresIff` | internal/agent/loop.go:3099-3142 | padding makes a round cut off after some results well paired exactly when the calls' ids are usable: the answered calls' ids are non-empty and none of the unanswered calls repeats one of them |
| `Sessions.PadIdleIff` | internal/agent/loop.go:3109-3142 | calls answered in place get no pad exactly when none of their ids is empty, repeated ids or not |
| `Sessions.PadSettledIff` | internal/agent/loop.go:3109-3142 | a settled history is well paired after padding exactly when no id of its latest calls is empty |
| `Sessions.PadSettlesIff` | internal/agent/loop.go:2462-2470 | whether settled or cut off inside a round, a history is well paired after padding exactly when the ids of its latest calls are usable: each answered call's is non-empty and no unanswered call shares it |
| `Sessions.EmptyIdBreaks` | internal/agent/loop.go:3122-3127 | the one way a finished round comes to harm: a call without an id is never counted as answered, and padding answers it a second time |
| `Sessions.FlushBeforePadBreaks` | internal/agent/loop.go:2450-2470 | the reason for the order of the deferred calls: a steer appended before padding separates the pads from their call for good |
| `Compaction.EstimateTokens` | internal/agent/compaction.go:28-46 | the accumulator loop computes the token estimate that compaction decides by |
| `Compaction.TokensEstimate` | internal/agent/compaction.go:28-46 | how good the estimate is: a quarter of all bytes of text and calls, 6000 for an image, less at most three for each text whose quarter is rounded down |
| `Compaction.PruneOldToolResults` | internal/agent/compaction.go:141-162 | the copied slice is the history with old, long tool results cut, and nothing else changed |
| `Compaction.SafeCompactionCutoff` | internal/agent/compaction.go:130-138 | the cutoff moves forward to the first message that is not a tool result |
| `Compaction.CompressOlderMessages` | internal/agent/compaction.go:166-217 | a summary followed by everything from the safe cutoff on, or nothing when there is too little to compress or the summary fails |
| `Compaction.CompactMessages` | internal/agent/compaction.go:62-110 | below 80000 estimated tokens the result is the input; else every tool result over 200 bytes in front of the newest twenty messages is cut to the placeholder and nothing else changes; and if that is still too much and there are more than twenty, the result is one summary message, of what is in front of the first non-result from there on without the injected messages, followed by the rest, or the pruned history when there is no summary (`CompactsTo`) |
| `Compaction.CompactedMeaning` | internal/agent/compaction.go:62-217 | the compacted history that the other results speak of is that one, for any history and summariser |
| `Compaction.CompactedPaired` | internal/agent/compaction.go:62-217 | compaction of a well paired history is well paired, for any summary |
| `Compaction.CompactedKeepsTail` | internal/agent/compaction.go:62-217 | a history of at most twenty messages, or a longer one's messages from the safe cutoff on, come through compaction unchanged and in place at the end |
| `Compaction.UnsafeCutoffOrphans` | internal/agent/compaction.go:112-138 | why the cutoff moves: cutting between a call and its results leaves a history that is not well paired |
| `ImageContext.ModelMessagesWithRecentImages` | internal/agent/image_context.go:21-80 | the loop with its running counts yields the bounded copy `Recent`; the input stays as it is |
| `ImageContext.RecentWithinLimits` | internal/agent/image_context.go:21-80 | user messages keep at most 4 inline images of 6 MiB together, all in the newest image-bearing one; positions, roles, calls, ids and all other parts stay in order |
| `ImageContext.NewestTurnKeeps` | internal/agent/image_context.go:42-66 | the newest image turn part by part: an image stays exactly when fewer than four stay in front of it and 6 MiB hold it with them, every other part stays, in order, and a note follows when an image went |
| `ImageContext.RecentIdempotent` | internal/agent/image_context.go:21-80 | bounding twice is bounding once |
| `ImageContext.RecentPaired` | internal/agent/image_context.go:21-80 | bounding images keeps calls and results paired |
| `ImageContext.FittingTurnKept` | internal/agent/image_context.go:21-80 | the newest image turn is untouched when its images fit |
| `Guards.StreakMeaning` | internal/agent/loop.go:2130-2159 | the running streak is the number of failures of the last failing tool since it last succeeded or another tool failed |
| `Guards.ToolsWithheldIff` | internal/agent/loop.go:2636-2664 | tools are withheld exactly when some tool failed twice since it last succeeded or another one failed, when the last three rounds had nothing but failures, or when ten calls of the turn failed |
| `Guards.WhyMeaning` | internal/agent/loop.go:2636-2664 | the reason given is the first of these, with the tool and the count it is about |
| `Guards.FailedIff` | internal/agent/loop.go:3067-3079 | what counts as a failed result, told from its error and its text without the white space at its ends |
| `Guards.SameSigIff` | internal/agent/tool_loop_detector.go:24-34 | which calls count as the same |
| `Guards.RunMeaning` | internal/agent/tool_loop_detector.go:24-37 | the counter is the length of the longest run of equal (name, arguments, result) at the end of what was observed since the last reset |
| `Guards.ToolLoopDetector.Observe` | internal/agent/tool_loop_detector.go:24-37 | the fields updated step by step keep that meaning; a loop is reported exactly when the last three observations since the reset are the same |
| `Guards.ToolLoopDetector.Reset` | internal/agent/tool_loop_detector.go:41-43 | after a reset nothing has been observed |
| `ToolRounds.ExecuteToolsConcurrently` | internal/agent/sdkbridge.go:167-221 | one result per call, in call order, whatever the executor returned: it tells what the last response with the call's id says (`ResultOf`), on success its non-empty blocks in order on lines of their own and the response's error, on failure the error, or else the first block, and the hint to retry, with the error set; a call without a response gets an error |
| `ToolRounds.RoundResults` | internal/agent/loop.go:2796-2827 | calls past the parallel cap get a synthetic result, so that every call has one |
| `ToolRounds.ResultsTell` | internal/agent/sdkbridge.go:167-221 | the same for every result of every round of a turn, and that a call past the parallel cap is put off |
| `ToolRounds.ProcessResult` | internal/agent/loop.go:2866-2958 | one result goes to history, request and guards alike; an unguarded result that failed by content alone kills the turn, and nothing is recorded then |
| `ToolRounds.ProcessResults` | internal/agent/loop.go:2866-2959 | the history and the request grow by the results' messages in order, and streak, counts and detector say what the results so far say; the loop stops early at the first result that kills the turn, or at the step of a death, and at nothing else |
| `ToolRounds.RunCalls` | internal/agent/loop.go:2745-2968 | the history grows by the reply and the messages of this round's first n results, all of them when it finishes; then the request has grown alike and the guards by the observations of exactly those results |
| `ToolRounds.ToolRound` | internal/agent/loop.go:2745-2994 | what ends a turn after a round, and that nothing else does: a death at one of the round's own steps, the missing error, a tool that ends the turn, or a loop detected after an earlier one, in this order, told from this round's own results |
| `TurnLoop.FinishOrFold` | internal/agent/loop.go:2706-2743 | a reply without calls ends the turn unless steers were waiting; then reply and steers are in history and request, and the turn goes on |
| `ToolRounds.FoldSteers` | internal/agent/loop.go:1969-1977 | every drained steer goes to history and request, in order |
| `TurnLoop.ReActLoop` | internal/agent/loop.go:2593-2994 | the loop ends for any provider and tools although dropped replies and steers continue it, at the reply that `RunsAs` names, at the first step that a death falls on, or at the cap; each request holds, well paired and in order, all that was said and returned before it with the notes to the model in their places, and every steer folded in before it, and offers tools, or ends with the note why not, exactly as the guards of all the rounds run so far say |
| `TurnLoop.FinalDelivery` | internal/agent/loop.go:2996-3035 | one more request, well paired, with everything said and without tools; then its answer or the canned one, with the mark for the channel, is recorded |
| `TurnLoop.OpenTurn` | internal/agent/loop.go:2490-2515 | the user's message goes into the history, which is then replaced by its compaction, unless the turn dies at one of its first two steps; steers that arrive meanwhile wait |
| `TurnLoop.FirstMessagesPaired` | internal/agent/loop.go:2517-2542 | the preamble and the history with its recent images are well paired when the history is |
| `TurnLoop.FlushLeftoverSteer` | internal/agent/loop.go:1987-1996 | what is still buffered at the end goes to the history, in order |
| `TurnLoop.CloseTurn` | internal/agent/loop.go:2456-2470 | steers that arrive after the loop's last drain, before or after the padding, still follow the pads in the history, in order |
| `TurnLoop.HandleMessage` | internal/agent/loop.go:2332-3035 | a whole turn from any history: how it runs and ends is read off the replies, the tool results and the steps of deaths alone (`TurnOk`), within the call bound; each accepted steer is in the history exactly once and in arrival order, and one that was folded in stands in every later request of the turn; from a paired history every request is paired, and the history left is paired exactly when the ids of the latest calls are usable |
| `TurnLoop.TurnPairs` | internal/agent/loop.go:2456-2470 | the pairing half of it on its own, for any replies |
| `TurnMeaning.TurnTells` | internal/agent/loop.go:2593-3035 | what a turn leaves, told from replies and responses alone: every round it finished stands in the history at its place, each call answered by what its last response says, as the model is shown it; and its last word is the one of its ending, be that the model's answer, its failure, the note on an empty reply or the final delivery's text at the cap |
| `TurnMeaning.TurnOpens` | internal/agent/loop.go:2490-2542 | what a turn starts from: the history with the user's message, cut or summarised as compaction does; and every request starts with the preamble and that history, its images bounded |
| `TurnMeaning.DroppedIff` | internal/agent/output_limit.go:16-21 | which replies are dropped; a call that may be cut off runs only after two replies were dropped |
| `SessionRuns.SlashRetry` | internal/agent/slash.go:244-277 | the history is cut in front of its newest user message, whose text is sent again, after a snapshot; pairing survives |
| `SessionRuns.SlashUndo` | internal/agent/slash.go:280-305 | the snapshot comes back; without one exactly the trailing assistant messages and the one user message in front of them are dropped, as `IsUndoCut` says (of one cut only: `SessionRuns.UndoCutUnique`); pairing survives |
| `SessionRuns.SlashCompact` | internal/agent/slash.go:307-327 | the history becomes its compaction; pairing survives |
| `SessionRuns.RunSession` | internal/agent/loop.go:2332-3142 | over any sequence of turns, compactions, retries and undos, with any call ids: every request is well paired up to and including the first turn that is left with unusable ids, and history and snapshot stay paired until then |
| `SessionRuns.UnpairedShows` | internal/agent/loop.go:2462-2470 | what an unpaired history leads to: the first request of the next turn is unpaired unless compaction steps in |
| `EventHub.QueueSound` | internal/agent/event_hub.go:46-67 | in every interleaving of pushers and the consumer: taken plus queued is what was published, and a non-empty queue has a pending token, a pusher between its two steps or a consumer about to take |
| `EventHub.QuiescentDelivery` | internal/agent/event_hub.go:46-67 | when pushers and consumer rest, a queue without a token is empty: no wake-up is lost |
| `EventHub.EventQueue.Take` | internal/agent/event_hub.go:61-67 | taking returns all items in order and empties the queue |
| `EventHub.Hub.Subscribe` | internal/agent/event_hub.go:99-104 | a new open channel is listed last under its key |
| `EventHub.Hub.Cleanup` | internal/agent/event_hub.go:105-119 | the channel is closed and unlisted if it was listed, and otherwise nothing happens; no other subscription changes |
| `EventHub.Hub.SubscribeQueue` | internal/agent/event_hub.go:71-82 | a new empty queue is listed last under its key, and the invariant `Lossless` counts its publications from here on |
| `EventHub.Hub.CleanupQueue` | internal/agent/event_hub.go:83-96 | the queue is unlisted if it was listed, and otherwise nothing happens; the key goes with its last queue |
| `EventHub.Hub.Publish` | internal/agent/event_hub.go:126-140 | the event goes last into the buffer of each listed channel of the key that has room, all of them open, and then to every queue registered under the key; so each registered queue has been given exactly what was published under its key since its registration, in order (`Lossless`) |
| `EventHub.FannedAt` | internal/agent/event_hub.go:126-136 | a publication puts the event last in each subscribed buffer with room, once, and changes no other buffer |
| `EventHub.PublishFeeds` | internal/agent/event_hub.go:137-139 | a publication keeps every registered queue supplied with all of its key's log since it came, and gives queues of other keys nothing |
| `EventTable.RunKeeps` | internal/agent/event_hub.go:46-140 | in every interleaving of overlapping publications, push by push, with registrations and readers: what a registered queue was given and what publications under way still owe it are together the key's publications since it came; each queue stays sound |
| `EventTable.EachReaderGetsAll` | internal/agent/event_hub.go:46-140 | when no publication is under way, the reader's next wake-up and Take complete all that was published under the key since the registration, each event as often as it was published |
| `EventTable.OrdersMayDiffer` | internal/agent/event_hub.go:126-140 | two publications that share the lock can reach two queues in opposite orders, so order is promised one publication at a time only |
| `EventHub.CleanupTwice` | internal/agent/event_hub.go:105-119 | running a cleanup twice closes its channel at most once |
| `RateLimit.WindowBound` | internal/api/ratelimit.go:29-53 | in a log where each request was permitted by the full log, no closed interval of one window holds more than rpm |
| `RateLimit.LimiterBound` | internal/api/ratelimit.go:29-53 | every limiter that its constructor, decisions and purges can reach keeps that bound for every user |
| `RateLimit.RateLimiter.Allow` | internal/api/ratelimit.go:29-53 | the decision from the pruned window is the decision from the whole log of accepted requests: refused exactly when the rpm-th latest of them is at most a minute old; only an accepted request is logged |
| `RateLimit.RateLimiter.Cleanup` | internal/api/ratelimit.go:56-82 | a purge at any moment changes no user's log, so no later decision |
| `RateLimit.SoundPurge` | internal/api/ratelimit.go:67-80 | purging one user keeps every user's log and the limiter's invariant |
| `AcpRun.AcpRunState.SetCancelLocked` | internal/api/acp.go:680-688 | the cancel function is set, and is to be called at once exactly when a cancel came first |
| `AcpRun.AcpRunState.RequestCancelLocked` | internal/api/acp.go:690-704 | a cancel is accepted exactly for a run created or in progress, which it sets to cancelling, and the function is to be called exactly when it is set |
| `AcpRun.RunInv` | internal/api/acp.go:266-346 | in every interleaving of the run with cancels: the event log is the one the run's position tells, terminal statuses are reached only at the end, and the output is set exactly when its message is closed |
| `AcpRun.AcceptedCancelReaches` | internal/api/acp.go:680-704 | an accepted cancel has the context cancelled, whichever of setting the function and requesting came first |
| `AcpRun.EarlyCancelWins` | internal/api/acp.go:266-272 | a cancel accepted before the first check ends the run cancelled with nothing else logged |
| `AcpRun.TerminalIsFinal` | internal/api/acp.go:339-346 | a terminal status and its output never change |
| `AcpRun.FinishedLog` | internal/api/acp.go:266-346 | the log has exactly one terminal event, last, and at most one message; a completed run's output is the parts emitted |
| `AcpRun.StreamIsRelayed` | internal/api/acp.go:294-336 | every finished run past its first check has read its stream to the end and logged each non-empty part it read, in order, in one message, which is a completed run's output; a run stopped at the first check has read and logged nothing |
| `AcpRun.FailsIffStreamDoes` | internal/api/acp.go:317-320 | a finished run has failed exactly when it read an error at the end of its stream and its context was alive when it looked |
| `AcpRun.CancelInTimeWins` | internal/api/acp.go:316-325 | a run whose context ends before its last check ends cancelled, whatever the stream does |
| `AcpRun.CheckDecides` | internal/api/acp.go:266-325 | how a run ends, exactly: its decisive check settles it, whatever is asked later; at the last check it ends cancelled iff its context has ended or its status still says cancelling |
| `AcpRun.EndsByVerdict` | internal/api/acp.go:266-325 | every finished run has made a decisive check, and its status is that check's verdict |
| `AcpRun.LateCancelLoses` | internal/api/acp.go:321-336 | any run past its decisive check and not yet finished still accepts a cancel, and ends as that check found it, whatever comes after; `AcpRun.LateCancelRuns` runs one |
| `AcpRun.OverwrittenCancelLoses` | internal/api/acp.go:266-325 | a cancel accepted before the last check can be lost too: the run writes over the status, and the context is still alive at that check |
| `AcpRunTable.RunTable.Store` | internal/api/acp.go:610-634 | the table holds at most 1000 runs; expired ones go, and an unexpired one only when the table is full of them, an oldest one |
| `AglLink.NobodyBlocks` | internal/agl/hub.go:232-243 | each request's channel takes at most one send, so neither close nor the read loop blocks on it |
| `AglLink.OwnAnswerOnly` | internal/agl/hub.go:747-760 | a request returns a response that carried its own id, or the end of the link, or its own deadline |
| `AglLink.ReplyIsReturned` | internal/agl/hub.go:824-858 | a response read while its request waits reaches it: the request returns it by its own next steps and takes its entry along |
| `AglLink.ClosedIsTold` | internal/agl/hub.go:232-243 | closing tells each request in the table once |
| `AglLink.ClosedLetsGo` | internal/agl/hub.go:817-858 | once the link has closed every request, late ones too, can return by its own steps and leaves no entry behind |
| `AglLink.LateReplyIgnored` | internal/agl/hub.go:824-834 | a response read after its request returned reaches nobody |
| `AglLink.Conn.Shut` | internal/agl/hub.go:232-243 | the closing loop sends the end to each pending request once and empties the table |
| `AglLink.ReachableIsReady` | internal/agl/hub.go:232-243 | whenever a link closes, the channel of each pending request is empty, which is all the closing loop needs |
| `AglLink.OnlineIff` | internal/agl/hub.go:653-670 | the table holds a link exactly when it was registered last for its machine and has neither ended nor been cut off since: a replaced link's exit never removes its successor |
| `AglLink.Hub.Serve` | internal/agl/hub.go:653-660 | registering replaces the machine's link and yields the old one to close |
| `AglLink.Hub.Exit` | internal/agl/hub.go:664-669 | a link's end removes its own entry only |
| `AglLink.Hub.Disconnect` | internal/agl/hub.go:794-804 | cutting a machine off removes its entry and yields the link to close |
| `AglLink.Hub.Online` | internal/agl/hub.go:787-792 | online means what the history of links says |
| `AglPairing.LeftoverWasMissed` | internal/agl/hub.go:546-613 | when all pairings have ended, two active records of one computer at one address remain only where a pairing at that place that kept one of them failed to list or revoke, or was cut short |
| `AglPairing.OneRecordWhenAllEnded` | internal/agl/hub.go:595-613 | with every listing and revocation made, at most one active record exists per computer and address, in every interleaving of pairings by any users |
| `AglPairing.PairingChooses` | internal/agl/hub.go:559-580 | how a pairing comes by its record: a new active one of its user, computer and address, or an active one moved to its address, which stays as it is when it was revoked meanwhile |
| `AglPairing.PairingFinds` | internal/agl/hub.go:559-568 | only an active record of the same user and computer is moved; otherwise a new one is made |
| `AglPairing.RevokesOnlyListed` | internal/agl/hub.go:595-613 | a pairing revokes only records it listed at its own computer and address, never the one it keeps, and moves only that one |
| `AglPairing.RevokedStays` | internal/store/machines.go:328-360 | a revoked record is never touched again, over any run |
| `AglPairing.BothMayBeRevoked` | internal/agl/hub.go:595-613 | two simultaneous pairings may revoke each other's record: at most one, possibly none |
| `AglPairing.MachineStore.RevokeMachine` | internal/store/machines.go:349-360 | an active record is revoked; any other stays as it is |
| `AglPairing.MachineStore.RevokeReplaced` | internal/agl/hub.go:595-613 | one pairing's loop on its own: every other active record of the place goes, no other record changes |
| `AglTales.TaleMeaning` | internal/agl/bridge.go:715-764 | the running turn's text is its own non-commentary deltas since its start, in order, up to the one that filled the buffer |
| `AglTales.FinalRepliesSend` | internal/agl/bridge.go:681-697 | what is sent at the end of a turn, outcome by outcome, for its text without the white space at its ends: completed, the text or the line for an empty one; aborted, the text with the mark or nothing; failed, the text if any and then the error |
| `AglStream.RecoverApproval` | internal/agl/bridge.go:715-764 | the loop over the history computes `Recover` |
| `AglStream.RecoverMeaning` | internal/agl/bridge.go:715-764 | what is recovered is a request of the turn still running, asked since it started and left to the chat, with that turn's text alone |
| `AglRecovery.RecoversNewestOpen` | internal/agl/bridge.go:744-763 | with each request asked once, recovery succeeds exactly when the running turn has an unresolved request, and yields the newest |
| `AglStream.WindowEnough` | internal/agl/bridge.go:715-719 | what the newest part of the history recovers is what the whole of it would |
| `AglStream.ResumeRefinesLive` | internal/agl/bridge.go:333-363 | a collector seeded from any window of the history sends for that turn exactly what one that watched from the beginning sends, buffer cap and commentary included |
| `AglChat.WorkerKeepsChat` | internal/agl/bridge.go:283-468 | every block of the worker keeps the rule between chat and collectors |
| `AglChat.CollectorKeepsChat` | internal/agl/bridge.go:560-704 | every block of a collector keeps it |
| `AglAnswers.OneCurrentCollector` | internal/agl/bridge.go:432-468 | in every interleaving: generations are distinct, the chat collects exactly while one live collector carries its generation, follows that one's session, and every other live collector has been told to stop |
| `AglAnswers.IdleIsClean` | internal/agl/bridge.go:570-583 | a chat that is not collecting has no outstanding turn, no pending request and no stop function |
| `AglAnswers.SupersededHarmless` | internal/agl/bridge.go:573-702 | a superseded collector, from any state, sets nothing in the chat, answers no turn and takes no turn that starts for its own |
| `AglAnswers.OneAnswerEach` | internal/agl/bridge.go:658-702 | one chat answers each turn id at most once, at that turn's own end; what two chats do is `AglBridge.SharedTurnAdopted` |
| `AglAnswers.EndIsAnswered` | internal/agl/bridge.go:658-702 | the end of an outstanding turn, got by the current collector, is answered there and then, whatever the outcome, and the chat idles after the last one |
| `AglAnswers.OutstandingLeaves` | internal/agl/bridge.go:570-702 | the only ways in which a turn is waited for no more: its answer, being taken into the running turn, a prompt that failed, its collector's quitting, or the chat's going on to another collector |
| `AglAnswers.PromptIsAwaited` | internal/agl/bridge.go:432-468 | a prompted turn is waited for by a new current collector that has missed nothing |
| `AglAnswers.DeliveredIsWhole` | internal/agl/bridge.go:616-630 | a collector that gets every event stays one that missed nothing, and each turn's start makes it one |
| `AglAnswers.AnswerHasOwnText` | internal/agl/bridge.go:616-702 | an answer whose collector missed no start, end or text of the turn is what `Sends` says for exactly that turn's deltas: completed, aborted or failed |
| `AglAnswers.MissedEventsMixTexts` | internal/agl/hub.go:884-894 | when the hub drops events for a lagging subscriber, an answer can hold another turn's text |
| `AglAllows.EveryDecisionHasAuthor` | internal/agl/bridge.go:314-331 | each decision a chat sends on a person's word is said by a message that a worker block of this run handled: a direct message of a permitted sender in the owner's space, for the owner's own unrevoked machine, whose text is 1 for allow, 2 for the session or 3 for deny, but for white space (`Authorised`); any other follows a grant of the last day for the same machine and session that such a message made, in this chat or in another one |
| `AglAllows.DecidedIff` | internal/agl/bridge.go:60-75 | which messages decide, and what: exactly the authorised ones, by the digit that their text is |
| `AglAllows.DecisionIsSent` | internal/agl/bridge.go:314-331 | such a message is carried out: its decision is sent for the pending request, which is then pending no more, and the session is granted exactly when the machine took a session-wide decision |
| `AglAllows.RecoveredIsSent` | internal/agl/bridge.go:333-363 | after a restart it is sent for the newest open request of the running turn in the history, and the chat waits for that turn with its text so far |
| `AglAllows.NothingElseIsSent` | internal/agl/bridge.go:283-331 | no other message sends or prepares a decision |
| `AglAllows.RebindForgets` | internal/agl/bridge.go:305-312 | a message for another machine first has the chat forget session, turns and request of the old one |
| `AglAllows.RequestIsAsked` | internal/agl/bridge.go:631-647 | a request that was read is answered by a grant of the last day, or else is the chat's pending one |
| `AglAllows.PendingLeaves` | internal/agl/bridge.go:570-702 | the only ways in which a pending request leaves: its answer, its resolution, a turn's end, a newer one, its collector's quitting, or the chat's going on |
| `AglAllows.EveryDecisionAnswersItsRequest` | internal/agl/bridge.go:631-647 | each decision answers a request that was asked: a person's, at the machine and session it is sent to; a grant's, at the machine whose collector read it, so it goes astray only when the chat was bound to another machine at that read and both have a session of that id |
| `AglAllows.SharedIdMisdirects` | internal/agl/bridge.go:635-641 | with one session id on two machines a grant's decision goes where nobody asked |
| `AglBridge.EveryBridgeDecision` | internal/agl/bridge.go:150-158 | over all chats of the bridge, which share one grant table: behind each decision sent stands a message that this very chat accepted and took, from its authorised sender, whose text is the digit for it; or a session-wide decision that one of the chats sent to the very same machine and session within the last day, said by such a message of that chat's own |
| `AglBridge.OneDecisionEach` | internal/agl/bridge.go:214-230 | the decisions a chat sends on persons' words are, in order, those of some of the messages it took, at most one each; each of these came in for the chat's key |
| `AglBridge.SharedTurnAdopted` | internal/agl/bridge.go:333-363 | two chats of the bridge answer one turn only if one of them recovered it from a session's history while it ran |
| `AglSharedTurn.BothAnswer` | internal/agl/bridge.go:187-191 | the run that shows it: the chat key has channel and account, the session name does not, so the second chat of an agent adopts the first one's turn, and both answer it |
| `AglBridge.EachChatRuns` | internal/agl/bridge.go:194-242 | each chat among others sees a run of its own, with events and grants from outside, so what holds of every run of one chat holds of it |
| `AglBridge.NothingStranded` | internal/agl/bridge.go:194-242 | a worker that exits has run the handling of all its chat accepted, in order, is out of the table and has no live current collector; a message still to handle has a worker in the table |
| `AglBridge.Bridge.HandleLocked` | internal/agl/bridge.go:194-212 | a message goes last into the inbox of the table's chat for its key, made if missing, and is dropped exactly when the inbox is full; no other chat changes |
| `AglBridge.Bridge.LeaveIfIdle` | internal/agl/bridge.go:228-240 | a worker leaves exactly when its chat neither collects nor has a message |
| `AglGrants.GrantKeyInjective` | internal/agl/grants.go:32 | grant keys tell machine and session apart when machine ids hold no NUL |
| `AglGrants.GrantKeysCollide` | internal/agl/grants.go:32 | with a NUL in a machine id two machines can share a key |
| `AglGrants.SessionGrants.Note` | internal/agl/grants.go:35-50 | only a session-wide decision is taken down; the table never exceeds its limit, and only a full one evicts a key, at most one, for it |
| `AglGrants.SessionGrants.MakeRoom` | internal/agl/grants.go:42-48 | of a full table all expired entries go and at most one other, the first visited, whatever its age; all the rest stay |
| `AglGrants.SessionGrants.Has` | internal/agl/grants.go:52-61 | a grant is reported exactly when its key was granted within the last day, but for keys evicted and not granted again, for which nothing older than a day is reported |
| `AglTools.Follow` | internal/agl/tools.go:388-487 | a run returns at the first end of its own turn with what `Returns` says for that turn's text and no other's, wherever it joins the session's events and whatever it misses of other turns |
| `AglTools.ToolApprovals.Take` | internal/agl/tools.go:592-600 | the chat's request is taken out exactly for the user who owns the machine |
| `AglTools.ToolApprovals.Resolved` | internal/agl/tools.go:451-458 | a resolution clears the chat's request only if it is that one of that session |
| `AglTools.ToolApprovals.ClearApproval` | internal/agl/tools.go:530-536 | a run's end clears the chat's request only if it is of the run's session |
| `AglTools.TakenOnce` | internal/agl/tools.go:592-600 | each open request is taken by at most one decision, in every interleaving |
| `AglTools.ToolRequestIsAsked` | internal/agl/tools.go:432-450 | a run's request is answered by a grant of the last day or becomes its chat's open one |
| `AglTools.ToolDecisionIsSent` | internal/agl/tools.go:592-617 | the owner's decision is sent for the open request, to where it was asked, and grants the session exactly when the machine took a session-wide one |
| `AglTools.OpenRequestIsCleared` | internal/agl/tools.go:451-458 | a resolution clears the request it is about, and a run's end its chat's request in that session |
| `AglTools.OpenRequestLeaves` | internal/agl/tools.go:592-617 | the only ways in which an open request leaves; sending the answer to an older one is not among them |
| `AglTools.EveryToolDecisionInOrder` | internal/agl/tools.go:432-450 | each decision sent answers a request that a run at that very machine and session asked, and is that run's user's own or follows a grant of the last day that stems from one |
| `SkillTrees.DecodeEncode` | internal/agent/bundled_skills.go:209-233 | the path, length and contents encoding decodes to the files it was made from, for paths without newlines |
| `SkillTrees.NewlinesCollide` | internal/agent/bundled_skills.go:227-229 | with a newline in a path two trees can have one encoding |
| `SkillTrees.TreeHashInjective` | internal/agent/bundled_skills.go:207-233 | hashes agree exactly for equal trees, for paths without newlines |
| `SkillTrees.EmbedTreeHash` | internal/agent/bundled_skills.go:209-236 | the walk over a bundle computes the hash of the whole tree |
| `SkillTrees.DiskTreeHash` | internal/agent/bundled_skills.go:238-276 | the walk over a directory, skipping hidden files, computes the hash of the visible tree |
| `BundledSkills.InstallSkill` | internal/agent/bundled_skills.go:103-165 | deciding and acting on one skill's directory |
| `BundledSkills.CopyTree` | internal/agent/bundled_skills.go:304-328 | copying writes every file of the bundle over what is there |
| `BundledSkills.RetireSkill` | internal/agent/bundled_skills.go:82-97 | a retired skill goes exactly when its visible tree is what its sidecar records |
| `BundledSkills.SkillsRoot.InstallBundled` | internal/agent/bundled_skills.go:103-165 | the bundled skills are installed one after the other |
| `BundledSkills.AllInstalledAt` | internal/agent/bundled_skills.go:114-163 | each skill's directory is what installing its own bundle makes of it |
| `BundledSkills.AllInstalledOther` | internal/agent/bundled_skills.go:114-163 | a directory that no bundle is named after is not touched |
| `BundledSkills.SkillsRoot.RetireBundled` | internal/agent/bundled_skills.go:80-98 | each retired skill that is as shipped goes, no other directory is touched |
| `BundledSkills.EditsAreKept` | internal/agent/bundled_skills.go:180-205 | over any history of edits, upgrades and starts, a tree with its SKILL.md that differs from the last bundle keeps all its files at every start |
| `BundledSkills.UntouchedFollows` | internal/agent/bundled_skills.go:180-205 | an untouched tree becomes the newest bundle at the next start, and goes when its skill is retired |
| `BundledSkills.AdoptedFollows` | internal/agent/bundled_skills.go:187-195 | a directory without a sidecar is adopted exactly when its visible tree is the bundle, and then follows the next bundle; any other stays as it is |
| `BundledSkills.StartsTrackNewest` | internal/agent/bundled_skills.go:60-67 | through any sequence of upgrades an untouched directory is the newest bundle |
| `BundledSkills.SecondStartIdle` | internal/agent/bundled_skills.go:60-67 | a second start with the same binary changes nothing |
| `BundledSkills.UpgradedIffNothingHidden` | internal/agent/bundled_skills.go:238-262 | an installed bundle can be upgraded exactly when it has no hidden file |
| `BundledSkills.FreshKeepsOthers` | internal/agent/bundled_skills.go:131-139 | without a SKILL.md the bundle is copied over what is there, and other files stay |
| `SplitReplies.SplitReply` | internal/agl/bridge.go:77-113 | the loops compute `Split`, for any limit |
| `SplitReplies.SplitMeaning` | internal/agl/bridge.go:77-113 | `Split` told from the texts alone: what fits is one bubble, else the part up to the last paragraph break past half of the window, or line break, or the limit; the tenth is marked when more is left |
| `SplitReplies.SplitConserves` | internal/agl/bridge.go:77-113 | for a limit of at least 1: at most ten non-empty bubbles within the limit but for the tenth's mark, and no non-space character lost, added or moved but what the mark says is left out |
| `SplitReplies.CutPrefersParagraphs` | internal/agl/bridge.go:95-101 | a paragraph break past half of the window's bytes is where the cut falls, at the last such |
| `SplitReplies.CutElseAtLines` | internal/agl/bridge.go:98-102 | without such a paragraph break the cut falls at the last line break past half, and without that at the limit |
| `SplitReplies.SplitNothing` | internal/agl/bridge.go:83-101 | for a limit below 1: empty bubbles and the mark |
| `Utf8.ValidPrefixIff` | internal/agent/tool_output_cap.go:54-62 | a prefix of valid text is valid exactly when it ends at the end or in front of a rune start |
| `Utf8.TruncateUtf8` | internal/agent/tool_output_cap.go:54-62 | cut at the last rune start within the limit |
| `Utf8.TailUtf8` | internal/agent/tool_output_cap.go:64-73 | from the first rune start within the limit of the end |
| `Utf8.ClipN` | internal/agl/hub.go:618-629 | the longest valid prefix within the limit; a short text as it is |
| `Utf8.TruncateIsClip` | internal/agl/hub.go:618-629 | on valid text cutting at a rune start and shrinking to validity agree |
| `Utf8.TailIsValid` | internal/agent/tool_output_cap.go:64-73 | the tail of valid text is valid and at most 3 bytes short |
| `Utf8.CapToolResult` | internal/agent/tool_output_cap.go:29-52 | what fits is untouched; else head and tail are the two ends, disjoint, with the omitted count between them, and valid for valid text |
| `Utf8.CapResult` | internal/agl/tools.go:498-507 | the shown text is the result up to the last rune start within 8 KiB |

## Left out

- TurnLoop.HandleMessage: two turns that overlap on one session; hooks, plan mode, personal-data scrubbing, metering, retries inside one provider call, metadata and timestamps are not modelled.
- TurnLoop.HandleMessage: the by-id backstop at `internal/agent/loop.go:2834-2853` cannot run, because the bridge below it always returns one result per call; the streaming variant of the loop (`internal/agent/loop.go:3289-3620`) is modelled only in the guard that differs.
- SessionRuns.RunSession: commands run between turns, not during one; a retried message comes back as a new turn.
- Compaction.CompressOlderMessages: the summary is an arbitrary string, and the rendering of the request for it and the history log are not modelled.
- TurnMeaning.TurnTells: the wording of notes, of the line for a call put off and of the text at the cap, and how a result is prepared for the model, are arbitrary functions or one shortened line each.
- AglTales.FinalRepliesSend: the line around an error, and the cut of a long error; how a long text becomes bubbles is module SplitReplies.
- EventHub.Hub.Publish: a publication is one step. It is one against a subscription or a cleanup, which need the lock for themselves; two publications share the lock for reading and may interleave. Module EventTable has those interleavings for the queues; for the channels, where a full buffer drops events anyway, they are left out.
- AglBridge.NothingStranded: of the handling of a message the first block is required, and what follows is any of the blocks that the handling consists of, at most one of them acting on the message; which of them the message's text picks is not part of it.
- AglBridge.EveryBridgeDecision: the answer a grant sends counts as sent when it is decided, although it leaves on a goroutine of its own; which link carries it is the concern of module AglLink.
- AglAnswers.OneAnswerEach: the partial text sent when a machine disconnects is not a final answer, and a turn resumed after that may repeat it.
- AglStream.ResumeRefinesLive: events between reading the history and subscribing are lost in the program too; in module AglAnswers a collector that started late, or missed some of the turn's text, does not count as whole.
- AglBridge.NothingStranded: messages without an agent, and those dropped on a full inbox, are not accepted.
- AglPairing.OneRecordWhenAllEnded: a pairing that fails to list or to revoke, or is cut short, can leave two records until the next pairing; `AglPairing.LeftoverWasMissed` says so exactly.
- BundledSkills.InstallSkill: failures of reading and writing files, a path that is a directory on one side and a file on the other, and empty directories.
- BundledSkills.EditsAreKept: edits of the sidecar file itself; hidden files of the user, which an upgrade of an otherwise untouched tree removes.
- Utf8.CapToolResult: where the full output is saved, and the wording of the note.
- Utf8.ClipN: the trimming in front of it, and a short text that is not valid UTF-8, which stays as it is.
- AcpRun.RunInv: attachments, the prompt, and error details of a failed run.
- HTTP and WebSocket framing, JSON, the progress notices and pickers of tool runs, prompt text, tool-call recovery by regular expressions, the store, goal and usage packages, and the command line are not part of this model.
