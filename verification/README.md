# Models and proofs of the agent workflow plugin

The repository runs LLM agents: two loops that call a model and its tools, the gates in front of the tools,
and the shared services around them. This project models the parts that hold real algorithms, state
machines and concurrent protocols, and proves what they keep. Each module follows one component:

- `EditDistance` – the single-row edit distance behind "did you mean" suggestions. The in-place table is
  proved to yield the true minimum over all edit scripts, and that minimum is a metric.
- `ThinkingStream`, `ThinkingBatch` – the streaming parser for thinking blocks. However the stream is cut,
  the parser ends in the same state with the same merged events; nothing is lost; and it is stated exactly
  when it agrees with the batch parser.
- `LoopDetection` – the four loop heuristics over a recorded history, and what every unbroken run looks like.
- `AgentLoop`, `AgentRuns`, `ContextLimit` – the orchestrator's loop with its correction turns, compaction and
  delta sending, what each turn of a run adds to the conversation, told from the replies and the outcomes of
  the calls alone, and the context window it works with.
- `Executor`, `ExecutorRuns`, `ExecutorRecords`, `Inbox` – the executor's loop, the trust gate before each tool
  call and the events emitted, with theorems over whole runs: their grammar, what may be run, and what is
  reported and recorded of each call.
- `Trust`, `TrustDecisions` – trust rules, persistent grants and their deny-wins decisions, and exactly when a
  name, a command or a path is allowed, asked about or denied.
- `EnsureGate`, `EnsureAnswers`, `RequestRow`, `FanOut`, `FanOutSteps`, `ProviderCache` – concurrent protocols,
  each a state machine whose steps are the lock sections or SQL statements of the code; the theorems hold
  over every interleaving.
- `Ranking`, `SearchResults` – hybrid memory search over the reals: cosine similarity, normalised BM25, stable
  in-place sort, and which entries come back.
- `Paginator`, `PageService` – large tool results served page by page from a cache.
- `Text`, `Sorting`, `Chat`, `Runs` – what several of these share: searching and trimming strings as Go's
  `strings` package does it, insertion sort by a relation, chat messages, and runs of state machines.

Code that changes state is modelled by classes, arrays and loops, and each such method is proved against a
specification function; the theorems are lemmas about those functions. The lemmas whose names end in `Means`,
and those of `AgentRuns`, `ExecutorRecords`, `TrustDecisions`, `EnsureAnswers`, `PageService` and
`SearchResults`, say what such a function amounts to without it. Whatever a component calls out to
(the model, tools, approvers, clocks, hashes, globs, the order of ranging over a map) is a parameter, so
every theorem holds for all of its answers. In the interleaving models `After(s, run)` is the state a run of
enabled steps leads to; a class method states which step, or which run of steps, it performs.

Where the code does not do what one would expect, the model follows the code and says when it does:

- The alternation check never fires when `maxConsecutive` is 2: the consecutive-call warning is returned
  first (`LoopDetection.AlternationMissed`). `LoopDetection.ReliableLimits` says under which limits an
  unbroken history is free of repeating and alternating windows.
- The streaming and the batch parser differ when text precedes the first block, or when a second block
  follows it (`ThinkingBatch.AgreeOnOpenBlock`, `AgreeOnClosedBlock`, `BothFailingCanAgree`).
- A waiter that reports an expired request may disagree with the row, because the row count of its last
  update is ignored (`RequestRow.GivingUpAgrees`, `ExpiredThoughResolved`); and `Approve` and `Reject`
  report success when they lost (`RequestRow.AcceptedIsNotWon`, `ApprovedThoughRejected`).
- No sweep ever takes an approval with a negative number of minutes, because the database reads no time span
  out of it (`RequestRow.SweepMeans`).
- A page number so large that its offset wraps round a machine integer is served, or panics, instead of
  being refused (`Paginator.RefusedOutsideRange`, `FarPagesAreServed`, `FarFloatPagePanics`).
- Two different calls can share a cache key when a value holds a comma (`Paginator.KeysCollide`,
  `TwoCallsOneKey`); keys tell calls apart when tool, names and values keep off the key's punctuation
  (`Paginator.KeysTellCallsApart`).
- Two broadcasts, or two notifications of the blackboard, hold the read lock together, so two clients can
  receive them in opposite orders (`FanOut.ClientsCanDisagree`); the daemon's subscribers cannot
  (`FanOut.DaemonDeliversInOrder`).
- An inspection that fails counts as a container that is down, so it evicts a container that is up and a
  second one is created (`EnsureGate.ErringInspectionEvicts`).
- A provider under construction while its row is edited and invalidated is stored all the same
  (`ProviderCache.StaleProviderReturns`).
- The command and path rules of a trust policy are consulted only when the tool's name was allowed, so a
  Deny rule for a command or path does not deny a call whose name must be asked about
  (`ExecutorRuns.DeniedCommand`, `DeniedPath`, `DeniedCommandCanRun`, `DeniedPathCanRun`).
- The context window found for a model name depends on map iteration order when two longest entries of one
  length disagree, as the built-in table makes them do for some names (`ContextLimit.AnswerIsUnique`,
  `TwoAnswers`).

`dafny verify dfyconfig.toml` checks the whole project.

## Model

| member | source | states |
|---|---|---|
| EditDistance.Levenshtein | orchestrator/tool_fuzzy_match.go:58-85 | the loop over one reused row returns the length of a shortest edit script |
| EditDistance.FillRow | orchestrator/tool_fuzzy_match.go:72-82 | overwriting the row from left to right turns table row i-1 into row i |
| EditDistance.ShortestScript | orchestrator/tool_fuzzy_match.go:58-85 | some script of exactly the returned length turns one string into the other |
| EditDistance.NoShorterScript | orchestrator/tool_fuzzy_match.go:58-85 | no script of insertions, deletions and substitutions that does so is shorter |
| EditDistance.DistanceIsLeast | orchestrator/tool_fuzzy_match.go:58-85 | both together: the result is the least number of edits |
| EditDistance.Symmetric | orchestrator/tool_fuzzy_match.go:58-85 | the distance is the same both ways |
| EditDistance.Triangle | orchestrator/tool_fuzzy_match.go:58-85 | the triangle inequality |
| EditDistance.ZeroExactlyOnEqual | orchestrator/tool_fuzzy_match.go:58-85 | the distance is zero exactly between equal strings |
| EditDistance.LengthBounds | orchestrator/tool_fuzzy_match.go:58-85 | it lies between the difference of the lengths and the longer length |
| EditDistance.ExtractBaseName | orchestrator/tool_fuzzy_match.go:47-55 | what follows the last colon, or else the last double underscore, or the whole name |
| EditDistance.CollapseMeans | orchestrator/tool_fuzzy_match.go:16-22 | in a normalised name the first double underscore becomes a single one, and what follows it is normalised in turn |
| EditDistance.QuickMatchMeans | orchestrator/tool_fuzzy_match.go:18-30 | two names match at once exactly when one normalised name begins with the other, or the last part of one occurs in the other |
| EditDistance.QuickTool | orchestrator/tool_fuzzy_match.go:18-30 | finds a prefix or base-name match exactly when the registry has one, whatever the map order |
| EditDistance.NearestTool | orchestrator/tool_fuzzy_match.go:33-42 | returns a registry name nearest to the input among those within 5 edits, or "" if there is none |
| EditDistance.SuggestTool | orchestrator/tool_fuzzy_match.go:13-43 | the fallback is used exactly when nothing matches quickly, and then gives a nearest name or "" |
| ThinkingStream.HeldLength | provider/local.go:84-91 | the held-back text is the longest suffix that a tag may still start with |
| ThinkingStream.PartialSuffix | provider/local.go:84-91 | the downward search finds that suffix |
| ThinkingStream.ThinkingStreamParser.Feed | provider/local.go:33-80 | one chunk changes buffer and mode, and yields events, as draining the extended buffer does |
| ThinkingStream.DrainSettles | provider/local.go:33-80 | after a chunk the buffer holds no tag and nothing that could be emitted |
| ThinkingStream.NothingStartsEarlier | provider/local.go:49-55 | no tag can begin before the held-back suffix, whatever arrives later |
| ThinkingStream.SearchAfterSafe | provider/local.go:49-55 | emitting the safe part leaves later searches unchanged |
| ThinkingStream.DrainSplit | provider/local.go:33-80 | draining two pieces one after the other equals draining them at once, character by character |
| ThinkingStream.RunAsOne | provider/local.go:33-80 | feeding any chunks equals feeding their concatenation |
| ThinkingStream.MergeKeepsMarks | provider/local.go:33-80 | joining adjacent events of one type changes no character and no mode |
| ThinkingStream.MarksDetermine | provider/local.go:33-80 | merged event lists with the same characters in the same modes are equal |
| ThinkingStream.ChunkIndependence | provider/local.go:33-80 | any two ways of cutting the same input end with the same buffer, mode and merged events |
| ThinkingBatch.SegmentsAccount | provider/local.go:33-80 | the stretches emitted, with the alternating tags put back at their first occurrences, are the input |
| ThinkingBatch.RunConserves | provider/local.go:33-80 | the same for any chunks: events, removed tags and held-back buffer rebuild the input exactly |
| ThinkingBatch.TextShrinks | provider/local.go:59-76 | text mode shows no more visible characters than came in, and fewer once a block opens |
| ThinkingBatch.ParseThinkingMeans | provider/local.go:8-22 | without a block the text is the content unchanged; otherwise thinking is what the first block holds, trimmed, and content what follows it, trimmed |
| ThinkingBatch.TrimSpaceMeans | provider/local.go:16-20 | trimming cuts blanks off both ends, as far as there are any |
| ThinkingBatch.AgreeWithoutBlock | provider/local.go:8-80 | without an opening tag, streaming shows what the batch parser returns |
| ThinkingBatch.AgreeOnOpenBlock | provider/local.go:8-80 | with an unclosed block they agree exactly when only blanks precede it |
| ThinkingBatch.AgreeOnClosedBlock | provider/local.go:8-80 | with a closed block they agree exactly when only blanks precede it and no second block opens, provided one of the two holds |
| ThinkingBatch.BothFailingCanAgree | provider/local.go:8-80 | the proviso is needed: an input failing both conditions on which they agree |
| LoopDetection.LoopDetector.constructor | executor/loop_detector.go:58-77 | zero and negative limits get their defaults, the history is empty |
| LoopDetection.LoopDetector.Record | executor/loop_detector.go:80-95 | one entry is appended; the error text is kept only for errors |
| LoopDetection.LoopDetector.Reset | executor/loop_detector.go:133-135 | the history becomes empty |
| LoopDetection.LoopDetector.Check | executor/loop_detector.go:100-130 | the status is that of the first strategy with an objection, in the code's order |
| LoopDetection.LoopDetector.CheckConsecutive | executor/loop_detector.go:139-169 | the trailing run of equal calls decides between break, warning and none |
| LoopDetection.LoopDetector.CheckRepeatedErrors | executor/loop_detector.go:172-194 | occurrences of the last error over the whole history decide |
| LoopDetection.LoopDetector.CheckAlternating | executor/loop_detector.go:198-238 | breaks exactly when the tail alternates between two different calls for the given cycles |
| LoopDetection.LoopDetector.CheckNoProgress | executor/loop_detector.go:242-264 | occurrences of the last successful call with its result decide |
| LoopDetection.CheckMeans | executor/loop_detector.go:100-264 | when a check breaks and when it warns, in terms of how often the last outcome occurred and of the last calls |
| LoopDetection.OccurrencesAre | executor/loop_detector.go:172-264 | the occurrence counts are the numbers of entries with that outcome |
| LoopDetection.UnbrokenExactlyClean | executor/loop_detector.go:80-264 | at maxConsecutive >= 3 and maxAlternating >= 2, a history was never broken exactly when no window anywhere repeats or alternates and no key is at its limit |
| LoopDetection.UnbrokenHasFew | executor/loop_detector.go:172-264 | under any limits an unbroken history holds no error or result as often as its limit |
| LoopDetection.Pigeonhole | executor/loop_detector.go:172-264 | entries drawn from k failures and m successes below their limits number at most k(maxErrors-1)+m(maxNoProgress-1) |
| LoopDetection.UnbrokenIsShort | executor/loop_detector.go:80-264 | that bound holds for every unbroken history and its distinct errors and successes |
| LoopDetection.AlternationMissed | executor/loop_detector.go:100-130 | with maxConsecutive 2, or with maxAlternating 1, some history alternates for the configured cycles and is never broken, unless no error and no success is ever tolerated |
| LoopDetection.LoneCallMissed | executor/loop_detector.go:139-169 | likewise with maxConsecutive 1 a lone call is a window that no check breaks |
| LoopDetection.NothingTolerated | executor/loop_detector.go:172-264 | with maxNoProgress and maxErrors both 1 only the empty history is unbroken |
| LoopDetection.ReliableLimits | executor/loop_detector.go:58-264 | unbroken histories are free of repeating and alternating windows exactly when maxConsecutive >= 3 and maxAlternating >= 2, or maxNoProgress and maxErrors are both 1 |
| AgentLoop.EstimateTokens | orchestrator/context_manager.go:131-138 | sums four tokens a message and a quarter of its length |
| AgentLoop.ContextManager.constructor | orchestrator/context_manager.go:67-83 | a threshold that is not positive becomes 0.8, and nothing has been compacted |
| AgentLoop.ContextManager.NeedsCompaction | orchestrator/context_manager.go:141-145 | true exactly when the estimate has reached the truncated product of the window and the threshold |
| AgentLoop.ContextManager.Compact | orchestrator/context_manager.go:159-204 | short lists are unchanged; longer ones become system message, one summary of the middle, and the kept tail |
| AgentLoop.PrepareChat | orchestrator/step_agent_execute.go:309-374 | compaction, reset, redaction and the slice to be sent |
| AgentLoop.HandleReply | orchestrator/step_agent_execute.go:377-490 | which replies are corrected, end the run or are processed, and what each appends and counts |
| AgentLoop.ProcessCalls | orchestrator/step_agent_execute.go:500-663 | results and warnings appended in order until a gate or the loop detector ends the run |
| AgentLoop.Execute | orchestrator/step_agent_execute.go:284-716 | the loop terminates; status, iterations and every slice sent are those of an ended run, each turn of which follows from the ones before |
| AgentLoop.ChatBudget | orchestrator/step_agent_execute.go:306-490 | at most nine Chat calls beyond the maximum, and between one and the maximum iterations reported |
| AgentLoop.EndedUnique | orchestrator/step_agent_execute.go:306-663 | replies, outcomes and summaries determine the whole run |
| AgentLoop.SliceNotEmpty | orchestrator/step_agent_execute.go:370-376 | no Chat call is made with an empty slice |
| AgentLoop.DeltasAddUp | orchestrator/step_agent_execute.go:284-376 | what a stateful provider was sent since its last reset is always the whole current conversation |
| AgentLoop.StatelessSendsAll | orchestrator/step_agent_execute.go:370-373 | other providers are always sent everything |
| AgentRuns.EveryCallIsAnswered | orchestrator/step_agent_execute.go:488-663 | when calls just succeed, a turn adds the model's message with exactly its calls and one result under each call's id, in order |
| AgentRuns.CallsTurn | orchestrator/step_agent_execute.go:455-663 | all calls of a reply are made in parallel mode, otherwise its only one, or the first after five corrections; the conversation gets what each answered, up to the first that ends the run, and the run ends exactly then |
| AgentRuns.CorrectionTurn | orchestrator/step_agent_execute.go:419-484 | the first two empty replies, the first two replies that only talk of a call, and the first five with several calls in sequential mode each add the reply and its note, are not counted, and the run goes on |
| AgentRuns.LastTurn | orchestrator/step_agent_execute.go:377-452 | a failed Chat call ends the run as failed, a reply without calls that is not corrected as completed, and neither adds anything |
| AgentRuns.Corrections | orchestrator/step_agent_execute.go:419-484 | how often each correction was made, told from the replies alone |
| AgentRuns.CallsMade | orchestrator/step_agent_execute.go:500-663 | calls are made one by one up to the first that ends the run |
| AgentRuns.HistoryAt | orchestrator/step_agent_execute.go:309-374 | what the model is shown is the redacted conversation, or, when it is too long and has five messages, its first message, one summary and its last three or four |
| AgentRuns.TokensAddUp | orchestrator/context_manager.go:131-138 | estimates add up, four and a quarter of the length for each message |
| AgentRuns.CompactAtMeans | orchestrator/context_manager.go:67-83 | the limit is the whole part of the window times the threshold, four fifths unless configured |
| ContextLimit.LookupContextLimit | orchestrator/context_manager.go:115-127 | the limit of a longest matching entry, or the default |
| ContextLimit.AnswerIsUnique | orchestrator/context_manager.go:115-127 | the answer is determined exactly when all longest matching entries agree |
| ContextLimit.TwoAnswers | orchestrator/context_manager.go:14-47 | for one name the built-in table has two longest entries with different limits, so both are answers |
| ContextLimit.OrderKeepsAnswers | orchestrator/context_manager.go:115-127 | visiting the entries in another order allows the same answers |
| Inbox.DrainInbox | executor/executor.go:741-779 | pending messages are appended in order as plain user messages and recorded, at most a hundred, until none is left or the inbox is closed |
| Trust.DecideJoins | policy/trust.go:140-156 | deciding is a homomorphism from lists of matches into none < Ask < Allow < Deny |
| Trust.DecideByScan | policy/trust.go:140-156 | the three scans find the strongest of Deny, Allow, Ask |
| Trust.TrailingStar | policy/trust.go:259-274 | a trailing star matches exactly the names with that prefix |
| Trust.CommandStar | policy/trust.go:277-301 | a bash pattern ending in a star covers the lines with that first field and those with that prefix |
| Trust.FirstFieldOf | policy/trust.go:291-294 | leading blanks do not hide a command's first field |
| Trust.MatchedMembers | policy/trust.go:130-138 | the collected actions are those of the matching rules |
| Trust.CollectMatched | policy/trust.go:186-191 | the loop collects the matching rules' actions in order |
| Trust.DecideByRuleSet | policy/trust.go:129-156 | a decision depends only on which rules there are |
| Trust.DecisionsByRuleSet | policy/trust.go:120-243 | all three evaluations are invariant under permuting and repeating rules |
| Trust.DenyWins | policy/trust.go:120-243 | a matching Deny rule beats all rules, grants and the SQL policy |
| TrustDecisions.ToolDecision | policy/trust.go:120-175 | exactly when a tool is allowed, asked about or denied, from membership in the rules and grants and the policy's answer, with Deny as the default |
| TrustDecisions.CommandDecision | policy/trust.go:179-209 | the same for command lines, which rules alone decide |
| TrustDecisions.PathDecision | policy/trust.go:213-243 | the same for paths |
| TrustDecisions.NamePattern | policy/trust.go:259-274 | exactly which patterns cover a tool name |
| TrustDecisions.CommandPattern | policy/trust.go:277-301 | exactly which patterns cover a command line |
| TrustDecisions.PathPattern | policy/trust.go:306-319 | exactly which patterns cover a path |
| TrustDecisions.ConservativeDecides | policy/trust.go:339-349 | left to itself, the conservative mode allows reading, the blackboard and messages, asks about writing, and denies every other name |
| TrustDecisions.OtherModesDecide | policy/trust.go:350-364 | the permissive and sandbox modes allow every name, the locked one asks about all but reading and the blackboard |
| Trust.TrustEngine.constructor | policy/trust.go:50-60 | a known mode loads its preset, an unknown one none |
| Trust.TrustEngine.SetMode | policy/trust.go:79-89 | a known mode replaces the preset and keeps explicit rules; an unknown one changes nothing |
| Trust.TrustEngine.AddRule | policy/trust.go:92-96 | the rule is appended to the explicit ones |
| Trust.TrustEngine.EvaluateScoped | policy/trust.go:120-175 | rules first, then grants, then the SQL policy, then Deny |
| Trust.TrustEngine.EvaluateCommand | policy/trust.go:179-209 | the decision on a command line, Deny by default |
| Trust.TrustEngine.EvaluatePath | policy/trust.go:213-243 | the decision on a path, Deny by default |
| Trust.ExplicitRulesSurvive | policy/trust.go:79-96 | through any changes the explicit rules only grow and the preset is the current mode's |
| Trust.DenySurvives | policy/trust.go:79-175 | a name denied by an explicit rule stays denied through any mode, rule and grant changes |
| Trust.NormalizeWildcard | policy/trust.go:397-411 | the converted pattern splits at the last colon |
| TrustDecisions.NormalizeClaudeMeans | policy/trust.go:397-411 | what each form of pattern is converted to |
| Trust.ClaudeDenyBlocks | policy/trust.go:277-411 | a converted Deny pattern denies every command line with that prefix |
| Trust.PermissionStore.Grant | policy/store.go:46-66 | the table stays one row per pattern and scope, and maps this key to the new action |
| Trust.PermissionStore.Revoke | policy/store.go:69-75 | exactly that key disappears |
| Trust.PermissionStore.Check | policy/store.go:81-122 | deny wins, then allow, then ask, among the grants that apply; none if none applies |
| Trust.WithoutGrantRemoves | policy/store.go:53-58 | deleting keeps the table's key property and removes exactly one key |
| Trust.OnePerKeyMeans | policy/store.go:45-66 | two rows never share pattern and scope |
| Trust.GrantedByView | policy/store.go:90-101 | the collected actions depend on the stored keys and actions alone |
| Trust.CheckByView | policy/store.go:81-122 | tables with the same grants answer alike, whatever the order of their rows |
| Executor.EvaluateTrust | executor/executor.go:306-390 | the events and the refusal of the gate follow from the composed decision and the approver |
| Executor.ExecuteCall | executor/executor.go:290-520 | one call: its events, whether a tool ran, its result or the end of the run |
| Executor.ExecuteCalls | executor/executor.go:290-565 | the calls of one reply, with the loop detector after each |
| Executor.Execute | executor/executor.go:185-617 | the whole run as a trace of events, dispatches and recorded calls |
| ExecutorRuns.EveryRunWellFormed | executor/executor.go:185-617 | every run's events are accepted by the grammar automaton |
| ExecutorRuns.OneTerminalLast | executor/executor.go:185-617 | exactly one Completed or Failed event, and it is last |
| ExecutorRuns.StartIsAnswered | executor/executor.go:290-520 | each call start is followed by its own result before the next start, or by the failure of a gate that ends the run |
| ExecutorRuns.EveryDispatchJustified | executor/executor.go:306-448 | tools run at most once per call, in order, and only when permitted or approved |
| ExecutorRecords.EveryRunTold | executor/executor.go:185-617 | every run told call by call from its surroundings: which calls are begun, the events of each, the outcome recorded of each, the tools run, and why it ends |
| ExecutorRecords.OutcomeReported | executor/executor.go:400-525 | each tool run that is not a gate is reported and recorded with its own error flag and its own redacted result |
| ExecutorRecords.PermittedCallRuns | executor/executor.go:400-448 | a call that is begun, permitted and executable is dispatched |
| ExecutorRecords.MissedGateEndsRun | executor/executor.go:451-487 | a gate whose wait ran out ends the run there, with that gate's status |
| ExecutorRecords.ComposeMeans | executor/executor.go:306-322 | a call is denied, or asked about, exactly if its name is, or its command or path when the name is allowed |
| ExecutorRecords.SpeechTold | executor/executor.go:185-245 | a run announces exactly its iterations and the thinking and text of its replies |
| ExecutorRuns.DeniedNameNeverRuns | executor/policy_bridge.go:20-44 | with the policy bridge, a name under an explicit global Deny rule never runs, whatever changes during the run |
| ExecutorRuns.DeniedCommand | executor/executor.go:306-322 | for a command under a Deny rule the composed decision is Deny exactly unless the name must be asked about |
| ExecutorRuns.DeniedPath | executor/executor.go:306-322 | the same for paths: the composed decision is Deny exactly unless the name must be asked about |
| ExecutorRuns.DeniedCommandRunsOnlyIfApproved | executor/executor.go:306-448 | a command under a Deny rule runs only if the approver approved that call |
| ExecutorRuns.DeniedPathRunsOnlyIfApproved | executor/executor.go:306-448 | the same for paths |
| ExecutorRuns.AskedCallRuns | executor/executor.go:306-448 | a call whose name must be asked about is dispatched when the approver approves it, whatever its command or path |
| ExecutorRuns.DeniedPathCanRun | executor/executor.go:306-448 | under the conservative preset a run writes below ~/.ssh, against the preset's own Deny rule, once the write is approved |
| ExecutorRuns.DeniedCommandCanRun | executor/executor.go:306-448 | under the locked preset a run dispatches a shell command that an explicit rule denies, once it is approved |
| ExecutorRuns.UnrecognisedAnswerPermits | executor/executor.go:324-390 | an answer outside allow, deny and ask lets the call through; the bridge never gives one |
| ExecutorRuns.CallsAreFew | executor/executor.go:522-565 | the answered calls of a run number at most one more than its distinct errors and successes allow |
| ExecutorRuns.RunEnds | executor/executor.go:185-617 | every run ends within its iterations, with a status that its last event shows |
| EnsureGate.ContainerManager.TryBegin | orchestrator/container_manager.go:256-270 | registers a channel unless one is registered, and says which |
| EnsureGate.ContainerManager.Done | orchestrator/container_manager.go:272-279 | unregisters and closes the channel if it is still this caller's |
| EnsureGate.ContainerManager.Forget | orchestrator/container_manager.go:160-164 | drops a dead container unless it has been replaced |
| EnsureGate.ContainerManager.Remember | orchestrator/container_manager.go:227-229 | caches the new container |
| EnsureGate.ContainerManager.Take | orchestrator/container_manager.go:351-356 | removes and returns the cached container |
| EnsureGate.InvNext | orchestrator/container_manager.go:135-282 | every step keeps the ownership of sections and channels |
| EnsureGate.EveryRunKeeps | orchestrator/container_manager.go:135-282 | so does every run |
| EnsureGate.GateIsSafe | orchestrator/container_manager.go:254-282 | one caller inside per project, no channel closed twice, every waiter's channel registered or closed |
| EnsureGate.HolderMovesOn | orchestrator/container_manager.go:135-282 | a caller inside is never stuck, and each of its steps brings it nearer to closing its channel |
| EnsureGate.WaiterIsFreed | orchestrator/container_manager.go:261-268 | from any reachable state, six steps of one other caller suffice to free a waiter |
| EnsureGate.SingleNext | orchestrator/container_manager.go:145-231 | a step that neither removes nor stops the container, nor is an erring inspection of it, keeps the one-container invariant |
| EnsureGate.OneContainer | orchestrator/container_manager.go:135-250 | while the container is neither removed nor stopped and no inspection of it errs, overlapping calls create at most one, and all successes return it, still up |
| EnsureAnswers.AnswersExplained | orchestrator/container_manager.go:135-282 | over every run an error is answered only by a cancelled waiter or a caller whose own creation just failed, and a container only by one that found it up or created and stored it, for the project it was called for |
| EnsureAnswers.HealthyIsReturned | orchestrator/container_manager.go:145-158 | while a cached container is up and undisturbed, every caller that leaves answers with it and none is created |
| EnsureAnswers.FoundUp | orchestrator/container_manager.go:135-158 | a call that finds the container up answers with it and changes nothing else |
| EnsureAnswers.FoundNone | orchestrator/container_manager.go:135-250 | a call that finds none, or one not up, creates one: the new one is cached and returned, a failure is an error and leaves nothing cached |
| EnsureAnswers.StepsAreForced | orchestrator/container_manager.go:135-282 | a caller that has begun has no choice but the service's answers |
| EnsureGate.ErringInspectionEvicts | orchestrator/container_manager.go:153-165 | a run in which an inspection errs, the container that is up is dropped from the cache and a second one is created and returned |
| RequestRow.HumanRequestManager.Resolve | orchestrator/human_request.go:130-151 | settles a pending row with its reply; success exactly when the row was pending |
| RequestRow.HumanRequestManager.Cancel | orchestrator/human_request.go:154-174 | cancels a pending row; success exactly when the row was pending |
| RequestRow.HumanRequestManager.CheckExpired | orchestrator/human_request.go:264-276 | expires exactly the pending rows with a positive timeout that has run out |
| RequestRow.HumanRequestManager.Poll | orchestrator/human_request.go:285-309 | one round of waiting: missing row, settled row, deadline passed, or wait on |
| RequestRow.HumanRequestManager.GiveUp | orchestrator/human_request.go:295-302 | expires the row if it is still pending, and reports expired in any case |
| RequestRow.ApprovalManager.Approve | orchestrator/approval.go:108-124 | approves a pending row and always reports success |
| RequestRow.ApprovalManager.Reject | orchestrator/approval.go:127-143 | rejects a pending row and always reports success |
| RequestRow.ApprovalManager.CheckTimeout | orchestrator/approval.go:177-188 | times out exactly the pending rows whose timeout has run out, zero included |
| RequestRow.ApprovalManager.Poll | orchestrator/approval.go:192-224 | one round of waiting: missing row, settled row, deadline passed, or wait on |
| RequestRow.ApprovalManager.GiveUp | orchestrator/approval.go:207-215 | times the row out if it is still pending, and reports a timeout in any case |
| RequestRow.SettledRowsAreFrozen | orchestrator/human_request.go:130-310 | over every interleaving a row leaves pending at most once and is then frozen |
| RequestRow.OneWinnerEver | orchestrator/human_request.go:130-174 | at most one call per request takes effect, and the row shows that call's write |
| RequestRow.WaitersAreTruthful | orchestrator/human_request.go:280-310 | a waiter never returns a pending row, and anything but overdue is the stored row |
| RequestRow.ApprovedForEver | orchestrator/approval.go:192-224 | what a waiter was told is approved stays stored so for ever |
| RequestRow.GivingUpAgrees | orchestrator/human_request.go:295-302 | an overdue report agrees with the row exactly when the row was pending or overdue at the update |
| RequestRow.ExpiredThoughResolved | orchestrator/human_request.go:280-310 | a run in which the reply is stored and the waiter reports expired |
| RequestRow.AcceptedIsNotWon | orchestrator/approval.go:108-143 | the row carries the reported verdict exactly when it was pending or carried it already |
| RequestRow.ApprovedThoughRejected | orchestrator/approval.go:108-143 | a run in which a rejection is stored, a later approval reports success, and the row stays rejected |
| RequestRow.AcceptedIsWon | orchestrator/human_request.go:130-174 | success means the reply is stored for ever, failure that nothing changed |
| RequestRow.NoTimeoutNoSweep | orchestrator/human_request.go:264-276 | a request without a timeout is never swept |
| RequestRow.SweepMeans | orchestrator/approval.go:177-188 | a sweep changes a row exactly when it is pending and its minutes have passed, and to what |
| RequestRow.CreatedThenSwept | orchestrator/human_request.go:70-98 | a created request is pending, and a later sweep makes it overdue exactly if its minutes have passed in between |
| RequestRow.NeverOverdueEarly | orchestrator/human_request.go:264-276 | over every run without a waiter giving up, no row is overdue before its time |
| RequestRow.UpdateMeans | orchestrator/human_request.go:130-174 | an update settles the one pending row it names and sets the columns it mentions |
| RequestRow.WaiterComesBack | orchestrator/human_request.go:280-310 | when a waiter asks again, and with what it comes back |
| FanOut.Splice | sdk/daemon.go:214-219 | the loop removes the first occurrence |
| FanOut.SplicedRemoves | sdk/daemon.go:214-219 | from a list without repetitions that removes exactly the subscriber |
| FanOut.TrySend | sdk/daemon.go:246-250 | one channel is offered the message: queued, or dropped if its 64 slots are full |
| FanOut.SendTo | sdk/daemon.go:243-252 | every listed channel is offered the message once, and no other |
| FanOut.SendRunDispatches | orchestrator/blackboard.go:192-213 | beginning, serving each listener in any order and ending amounts to one dispatch to all of them, even while others are in the middle of theirs |
| FanOut.DaemonClient.Subscribe | sdk/daemon.go:203-209 | registers a new open channel |
| FanOut.DaemonClient.Unsubscribe | sdk/daemon.go:212-221 | removes the subscriber and closes nothing |
| FanOut.DaemonClient.FanOut | sdk/daemon.go:243-252 | performs an undisturbed send to exactly the registered channels |
| FanOut.DaemonClient.Shutdown | sdk/daemon.go:166-182 | closes every registered channel once and registers none |
| FanOut.Blackboard.Subscribe | orchestrator/blackboard.go:167-172 | registers a new channel under its phase |
| FanOut.Blackboard.Cancel | orchestrator/blackboard.go:174-184 | removes the channel, leaving its owner to close it |
| FanOut.Blackboard.Close | orchestrator/blackboard.go:185 | closes the owner's channel |
| FanOut.Blackboard.Notify | orchestrator/blackboard.go:192-213 | performs the send of one notifier to the channels of its phase and then the wildcard ones, while other notifiers may be half way |
| FanOut.RecipientsAreListeners | orchestrator/blackboard.go:167-213 | the two lists together hold each interested registered channel once, and no other |
| FanOut.SSEHub.Register | orchestrator/module_sse_hub.go:86-90 | registers a new client channel |
| FanOut.SSEHub.Unregister | orchestrator/module_sse_hub.go:92-100 | removes the client, and tells whether the handler has to close the channel |
| FanOut.SSEHub.Close | orchestrator/module_sse_hub.go:97-99 | the handler closes its channel |
| FanOut.SSEHub.Stop | orchestrator/module_sse_hub.go:52-60 | closes every client once and registers none |
| FanOut.SSEHub.Broadcast | orchestrator/module_sse_hub.go:128-138 | performs the send of one broadcaster to the registered clients in some order, while other broadcasters may be half way |
| FanOut.GoodNext | sdk/daemon.go:166-252 | every step, of any of several senders, keeps every channel safe and each message due to it offered once or still to be served |
| FanOut.EveryRunKeeps | sdk/daemon.go:166-252 | so does every run, over all interleavings of senders, receivers and removals |
| FanOut.SafeAndFaithful | orchestrator/module_sse_hub.go:52-138 | for all three: no send after close, no second close, each wanted message sent while subscribed offered once as soon as its sender is done, a later send before an earlier one only if they overlapped, and gaps only where 64 messages were waiting |
| FanOut.DaemonDeliversInOrder | sdk/daemon.go:203-252 | between sends, a subscriber of the daemon has been offered exactly the messages since it subscribed, each in its place |
| FanOutSteps.RemovedIsSilent | orchestrator/module_sse_hub.go:92-138 | a channel once removed is never offered anything again |
| FanOutSteps.ListStepsMean | orchestrator/blackboard.go:167-186 | joining, leaving and closing concern the one channel, and how |
| FanOutSteps.CloseAllMeans | sdk/daemon.go:166-182 | shutting down closes and removes exactly the subscribed channels |
| FanOutSteps.MessageStepsMean | orchestrator/blackboard.go:192-213 | whom a send is for, and what serving a channel and receiving from it do |
| FanOut.ClientsCanDisagree | orchestrator/module_sse_hub.go:128-138 | a run of two overlapping broadcasts that two clients hold in opposite orders |
| Ranking.SumOfSquares | orchestrator/memory.go:378-384 | the quadratic form behind Cauchy–Schwarz is never negative |
| Ranking.CauchySchwarz | orchestrator/memory.go:378-384 | the squared dot product is at most the product of the squared norms |
| Ranking.CosineInRange | orchestrator/memory.go:370-389 | cosine similarity lies in [-1, 1] |
| Ranking.CosineOfItself | orchestrator/memory.go:370-389 | a non-zero vector has similarity 1 with itself |
| SearchResults.CosineMeans | orchestrator/memory.go:370-389 | the similarity times both lengths is the dot product, and it is 0 for a zero vector |
| SearchResults.CosineOpposed | orchestrator/memory.go:370-389 | negating a vector negates the similarity, exchanging the two keeps it |
| SearchResults.DotAppends | orchestrator/memory.go:378-384 | the dot product grows by the product of the next components |
| Ranking.CosineSimilarity | orchestrator/memory.go:370-389 | the loop over the common prefix computes it, 0 for a zero vector |
| Ranking.Range | orchestrator/memory.go:229-238 | finds the least and the greatest raw score |
| Ranking.NormaliseScores | orchestrator/memory.go:227-246 | the full-text scores, normalised between the extreme raw scores |
| Ranking.NormalReversesOrder | orchestrator/memory.go:239-245 | normalising reverses the order strictly; the best gets 1 and the worst 0 |
| Ranking.NormalisedWithin | orchestrator/memory.go:239-246 | exactly the ids of the full-text rows get scores, all within [0, 1] |
| SearchResults.NormalMeans | orchestrator/memory.go:239-245 | the normalised score falls linearly from the least raw score to the greatest, and is one half if all are equal |
| SearchResults.TextScoreOf | orchestrator/memory.go:239-246 | each id has the normalised score of its last row |
| Ranking.CosineOutweighs | orchestrator/memory.go:249-254 | one candidate outranks another exactly when seven times its cosine lead exceeds three times the other's text lead; whatever the text says, exactly when its cosine lead is over three sevenths |
| Ranking.ScoresInRange | orchestrator/memory.go:249-254 | combined scores lie between -0.7 and 1 |
| Sorting.SortOrders | orchestrator/memory.go:420-430 | inserting the elements one by one leaves an ordered permutation, for any strict ranking |
| Ranking.MoveDown | orchestrator/memory.go:422-428 | the inner loop inserts one element behind all that do not score less |
| Ranking.SortScoredEntries | orchestrator/memory.go:420-430 | sorts in place |
| Ranking.SortDescSorts | orchestrator/memory.go:420-430 | the result is descending, a permutation, and keeps the order of equal scores |
| Ranking.StableSortIsUnique | orchestrator/memory.go:420-430 | no other list is descending with equal scores in the same order |
| Ranking.TopIsBest | orchestrator/memory.go:256-268 | no omitted candidate outscores a returned one |
| Ranking.SearchHybrid | orchestrator/memory.go:188-269 | returns the top entries of the stable descending order of combined scores, 5 if no limit is given |
| SearchResults.ResultsAreBest | orchestrator/memory.go:188-269 | as many embedded entries as there are up to the limit, in descending order of seven parts similarity and three parts text, and none left out outscores one returned |
| Paginator.PagesInRangeAreShown | orchestrator/response_paginator.go:78-97 | a page from 1 to the last is shown with its lines, its number, the total and its neighbours |
| Paginator.RefusedOutsideRange | orchestrator/response_paginator.go:78-107 | pages in range show their lines and neighbours; a page outside is refused exactly when its offset fits a machine integer or wraps past the lines |
| Paginator.FarPagesAreServed | orchestrator/response_paginator.go:82-97 | two pages far out of range, one served and one panicking |
| Paginator.FarFloatPagePanics | orchestrator/response_paginator.go:58-97 | page 1e18, given as the float that JSON yields, panics at ten lines a page |
| Paginator.FirstPagesArePrefix | orchestrator/response_paginator.go:78-107 | the first n pages are a prefix of the lines, and all pages are all lines |
| Paginator.LinesJoin | orchestrator/response_paginator.go:51 | splitting at newlines loses nothing |
| Paginator.PagesPartitionTheResult | orchestrator/response_paginator.go:43-107 | the pages, concatenated and joined, are the stored result |
| Paginator.SortStringsOrders | orchestrator/response_paginator.go:117 | sorting gives an ordered permutation |
| Paginator.OrderedIsUnique | orchestrator/response_paginator.go:117 | an ordered permutation is unique |
| Paginator.SameShownSameKey | orchestrator/response_paginator.go:110-119 | the key depends on the tool and the shown arguments only, not on map order nor on page and query |
| Paginator.JoinIsInjective | orchestrator/response_paginator.go:110-119 | comma-free non-empty parts can be read back from their join |
| Paginator.KeysTellCallsApart | orchestrator/response_paginator.go:110-119 | if tools are free of bars, names of equals signs and commas, and values of commas, two keys are equal exactly when the tools and the shown arguments are |
| Paginator.KeysCollide | orchestrator/response_paginator.go:110-119 | a value that reads like a value, a comma and a further argument gives the key of the call with that argument |
| Paginator.TwoCallsOneKey | orchestrator/response_paginator.go:110-119 | a concrete pair of different calls with one key, for every tool |
| Paginator.ResponsePaginator.constructor | orchestrator/response_paginator.go:28-38 | a page holds an eight-hundredth of the window, at least ten lines, and the limit is a fifth of it |
| Paginator.ResponsePaginator.CacheKey | orchestrator/response_paginator.go:110-119 | computes the key for one order of the arguments |
| Paginator.ResponsePaginator.Paginate | orchestrator/response_paginator.go:43-56 | small results pass through; large ones are stored and page 1 is shown |
| Paginator.ResponsePaginator.GetPage | orchestrator/response_paginator.go:58-76 | invalid page values and missing entries are reported, otherwise the page is shown |
| Paginator.PagesReadOneEntry | orchestrator/response_paginator.go:43-119 | until its key is stored again, any call showing the same arguments reads the same snapshot page by page |
| Paginator.PagesReadOneSnapshot | orchestrator/response_paginator.go:43-119 | among calls that keep off the key's punctuation, only a call of the same tool with the same arguments replaces the snapshot |
| PageService.PagesComeBack | orchestrator/response_paginator.go:43-107 | asking for page n, as an integer or a float, shows lines (n-1)*size up to n*size of the first result, whatever other calls stored |
| PageService.PageNumberMeans | orchestrator/response_paginator.go:58-68 | whole numbers are themselves as integers and floats, fractions are dropped towards zero, and other values are refused |
| PageService.FirstAnswer | orchestrator/response_paginator.go:43-56 | a short result passes unchanged, a long one is kept and its first page shown, and no other entry is touched |
| PageService.PageAnswer | orchestrator/response_paginator.go:58-76 | asking for a page stores nothing; what is no number is refused, then what is not kept, then a page below 1 |
| ProviderCache.ProviderRegistry.CreateAndCache | orchestrator/provider_registry.go:261-311 | rechecks the cache, resolves the secret, builds and stores; failures are not stored |
| ProviderCache.BuildMeans | orchestrator/provider_registry.go:272-305 | a provider is built exactly if the factory yields one for the row and its key, which is the named secret, or empty if none is named or there is no provider of secrets |
| ProviderCache.ProviderRegistry.GetByAlias | orchestrator/provider_registry.go:128-144 | the cached provider, or one built from the row |
| ProviderCache.ProviderRegistry.GetDefault | orchestrator/provider_registry.go:147-167 | the same for the default row |
| ProviderCache.ProviderRegistry.UpdateSecretsProvider | orchestrator/provider_registry.go:172-177 | swaps the secrets and empties the cache |
| ProviderCache.ProviderRegistry.InvalidateCache | orchestrator/provider_registry.go:180-184 | empties the cache |
| ProviderCache.ProviderRegistry.InvalidateCacheAlias | orchestrator/provider_registry.go:187-191 | drops one alias |
| ProviderCache.ProviderRegistry.InvalidateCacheBySecret | orchestrator/provider_registry.go:194-213 | drops exactly the aliases whose rows use the secret |
| ProviderCache.EveryRunKeeps | orchestrator/provider_registry.go:128-311 | over every interleaving, a cached provider that is not dirty is what would be built now |
| ProviderCache.CreationIsSingleFlight | orchestrator/provider_registry.go:262-305 | one creation per alias at a time, failing ones included, and whoever waits has a leader |
| ProviderCache.AnswersAreFresh | orchestrator/provider_registry.go:128-311 | every answer, a leader's or a waiter's, a provider or an error, is what would be built at that moment, except after an edit without invalidation or one that overtook the creation |
| ProviderCache.AloneAsInTheRegistry | orchestrator/provider_registry.go:128-144 | run without interruption, the steps of a call do what the registry's method promises |
| ProviderCache.OperationsAreFresh | orchestrator/provider_registry.go:128-213 | one disciplined operation keeps the cache true and answers freshly |
| ProviderCache.DisciplineKeepsTheCacheTrue | orchestrator/provider_registry.go:128-213 | any sequence of them does |
| ProviderCache.StaleProviderReturns | orchestrator/provider_registry.go:261-311 | an edit and its invalidation during a creation leave the old provider in the cache |

## Left out

- Docker, SQL, files, networks and processes: containers, rows and channels are values in maps, each SQL
  statement or lock section one atomic step; database errors are not modelled.
- The message wording and JSON of prompts, results and events: only the fields that branches test are kept.
- Floating point: scores and the compaction threshold are exact, a page number given as a float beyond the
  integers becomes the least integer.
- Invalid UTF-8: strings are sequences of code points; the code counts bytes in places where only lengths matter.
- Hashes, path globs, number formatting, lower-casing and square roots are parameters.
- Executor.Execute: the conversation the executor keeps (compaction, redaction of messages, inbox,
  transcript, extraction into memory) is not part of its trace; `Inbox.DrainInbox` and
  `AgentLoop.ContextManager` model two of these on their own.
- AgentLoop.Execute: guardrails, tools, gates and the loop detector enter as outcomes of each tool call;
  transcript, memory extraction, sub-agent cancellation and SSE notices are left out.
- AgentLoop.DeltasAddUp: assumes that redacting twice changes nothing more, and does not speak of the
  summariser's own Chat calls.
- AgentLoop.ContextManager.NeedsCompaction: the product of window and threshold is exact, not rounded to a float.
- ContextLimit.LookupContextLimit: the table is a parameter, the built-in one in `ContextLimit.TwoAnswers`; changing it
  is not modelled.
- EnsureGate.OneContainer: image pull, mount checks, creation and start are one step that succeeds or fails;
  the availability and image checks before the gate only return errors.
- RequestRow.HumanRequestManager.Poll: the two-second ticker is the interleaving of other steps between rounds.
- FanOut.SafeAndFaithful: in the state machine a sender serves its channels in any order, also where the code
  follows a list; slices that share memory after splicing are not modelled.
- ProviderCache.ProviderRegistry.InvalidateCacheBySecret: the query and the lock section after it are one step.
- Ranking.SearchHybrid: the rows fetched, the full-text scores and the search without an embedding are inputs.
- The orchestrator's copy of the loop detector and the executor's copy of the context manager: the same code.
- Tool policy, guardrails and sub-agent limits: the deny-wins and counter shapes proved here, only simpler.
- Command analysis over a shell parser, screen scraping of terminals, model provider bindings, plugin wiring,
  webhooks, vault configuration and security audit: plumbing, or rules without a crisp specification.
