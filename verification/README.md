# Verified model of the agent runtime

A Dafny 4.11 model of the parts of the runtime that carry state machines and algorithms, and proofs
about them. `dafny verify dfyconfig.toml` checks everything.

What is modelled, by module:

- **Run and turn kernel.** `ToolGuards` and `ToolExecutors` (the guards stacked around the host's
  executor), `ToolChecks` and `HostTools` (declaration, safety policy, input schema, repeat policies),
  `TurnKernel` (one turn as a function of the model's events, the token's answers and the executor's
  behaviour), `TurnGrammar`, `TurnKeys` and `TurnFacts` (the events of a turn), `RunKernel` (the loop over
  turns), `RunBounds`, `RunStops`, `RunTranscript` and `RunEvents` (what holds of whole runs), `Transcript` (messages,
  pairing, conversion to OpenAI messages), `TurnRunner` and `RunRunner` (the same kernel as classes and
  loops that change the token, the guards, the executor and the log, proved equal to the functions), and
  `KernelOnClients` (the kernel on the two stream clients).
- **Event log.** `EventLog` (the in-memory log) and `SqliteEventLog` (the SQLite log refines it).
- **Stream parsers.** `StandardEvents`, `AnthropicParser`, `AnthropicStreams`, `AnthropicSession`,
  `OpenAIParser`, `OpenAISession`, `LegacyTranslation`, and `TypedStreams` (tool inputs are dicts).
- **Continuation.** `ContinuationQueue` and `ContinuationWorker` (the SQLite job queue and the reference
  worker), `RunPersistence`, `KeyOrder` and `ContinuationState` (the state handed over as JSON), `JsonText`
  (a text that can be read back, for every tree), `ContinuationRunner` (both runners around the kernel),
  `KernelRuns` and `ContinuationChain` (chains of runs, with attempts that fail and are repeated).
- **Install order.** `InstallOrder` (the depth-first topological sort).
- **Relational checks.** `JsonSchema` (the input validator against a declarative relation), `SchemaStandard`
  (the same against the published standard) and `WriteScope` (the pairwise overlap test against
  intersection of path sets).
- Small tools: `Options`, `SeqFacts`, `IntSets`, `StringOrder`.

How surroundings appear in the model:

- The model behind a run is a finite script of turns, each a list of stream events that ends well or
  raises; after the script it raises. All results are for every script, so for models that react as well.
- The host's executor is any function of all calls it has had (`Behaviour`); `GuardState.calls` records
  the calls that really reach it. `metadata.executed` is kept as written: a call that a guard refuses is
  still reported as executed (run.py:287, run.py:340, turn.py:783), so the reported
  count only bounds the calls from above (`ReportedExecutedIff` says by which calls).
- The cancellation token is any function from the number of the poll to an answer; results that need a
  token that stays cancelled say so (`Monotone`), and `StaysStoppedIffMonotone` shows that no weaker
  condition on the token will do.
- Clocks, fresh ids, the digest of a tool input, JSON text and the texts of denial messages are
  parameters. Idempotency keys and signatures are structured values, not strings.
- A JSON number with a fraction is a `Double`, a finite 64-bit IEEE 754 number in lowest terms.
- `json.loads` gives dicts, which hold no key twice (`ReadsDicts`); then all that a run or chain hands on
  are dicts. Where the state is handed over, what `json.dumps` or `json.loads` raises on (depth, digits) is
  a None of the parameter; in the parsers a None of `loads` is an error they catch.
  `Faithful` asks that what is written can be read back; `PlainCodecIsFaithful` gives a codec that does
  this for every tree.
- `IdFaithful` says that the executor puts no id into a result but the request's, or none.
  `build_messages_after_turn` accepts some results that break this; `StrayResultIsAccepted` gives one.

Where the code and what one might expect of it differ, the model follows the code. Each time one lemma
gives the exact condition and another an input:

| what differs | exactly when | an input |
|---|---|---|
| a turn's results are accepted and one of them is lost | `Transcript.AcceptedPairsIff` | `Transcript.StrayResultIsAccepted` |
| the path normaliser is not idempotent | `WriteScope.NormalizedIsFixedIff` | `WriteScope.EmptySegmentStopsTheLoop` |
| scopes clash and share no path | `WriteScope.ScopesSharePathIff` | `WriteScope.UnnormalizedScopesCanClashEmptily` |
| the validator reads a schema in another sense than the standard | `SchemaStandard.ReadingsAgreeIff` | `OpenMapTakesANumberForAString`, `RuledOutPropertyGoesThrough`, `IgnoredItemsLetNullThrough`, and `PropertiesAloneDemandAnObject` for any value that is no object |
| the validator departs from its own reading | `SchemaStandard.ValidatorDecidesItsReading` | `IntegralFloatIsNoInteger`, `TrueIsTakenForOne` |
| calls run on after a cancellation was seen | `TurnKernel.StaysStoppedIffMonotone` | `TurnKernel.ResumesIfTokenRelents` |
| a call is reported executed and never made | `TurnKernel.ReportedExecutedIff` | the same lemma, any call a guard denies |
| returned events differ from the log | `RunEvents.EventFidelityIff` | `RunEvents.TwoInvalidCallsUnderOneId` |
| a finished job moves on | `ContinuationQueue.FinishedJobMovesIff` | `ContinuationQueue.SucceededJobIsQueuedAgain` |
| a claimed job is left RUNNING | `ContinuationRunner.JobIsLeftRunningIff` | `ContinuationRunner.RefusedContinuationLeavesTheJobRunning` |
| the two logs read differently | `SqliteEventLog.ReadsAgreeIff` | `SqliteEventLog.NegativeLimitsDiffer` |
| the legacy translator does not distribute | `LegacyTranslation.TranslationSplitsIff` | `LegacyTranslation.NameAndArgumentsJoin` |

## Model

| member | source | states |
|---|---|---|
| RunBounds.ExecutorCallsAreBounded | packages/rd-agent-core/src/rd_agent_core/run.py:136-345 | over a whole run, for any model and executor, the executor is called at most max_tool_calls times, fewer than threshold times per guarded tool and input digest, and at most as often as reported; requested = executed + denied |
| RunBounds.RunsTerminate | packages/rd-agent-core/src/rd_agent_core/run.py:136-206 | with max_turns or max_tool_calls set, a run ends within the smaller bound: nothing the model would do later changes its outcome |
| RunBounds.RunsEnd | packages/rd-agent-core/src/rd_agent_core/run.py:136-223 | every run returns or raises |
| RunBounds.RunIsNumbered | packages/rd-agent-core/src/rd_agent_core/run.py:150-151 | turn k of a run has the k-th fresh id and index turn_offset + k |
| RunStops.RunStopsForAReason | packages/rd-agent-core/src/rd_agent_core/run.py:136-206 | a run goes on exactly after turns that request calls and neither pause, are cancelled nor hold a repeat denial; it stops for its last turn, a seen cancellation or the first limit reached, and says which; no turn begins once the time is up |
| RunTranscript.RequestsOfARunArePaired | packages/rd-agent-core/src/rd_agent_core/run.py:189-197 | with an id-faithful executor and a well-paired start, every message list sent to the model, that of a raising turn included, and its OpenAI conversion, answers each call once, in order, right after it |
| RunTranscript.RunSendsOneRequestPerTurn | packages/rd-agent-core/src/rd_agent_core/run.py:136-206 | the lists sent are one for every turn that returned and one more for a turn that raised |
| RunTranscript.TranscriptIsMadeOfTurns | packages/rd-agent-core/src/rd_agent_core/run.py:133-197 | the first request is the initial transcript, every later one the request before it plus the messages built from the turn between, and so is the final transcript |
| RunBounds.RunIsTallied | packages/rd-agent-core/src/rd_agent_core/run.py:186-188 | the counts a run reports are the sums over its turns |
| RunTranscript.TranscriptGrowsPaired | packages/rd-agent-core/src/rd_agent_core/run.py:189-197 | the final transcript extends the first one and is well paired |
| RunTranscript.RunExtends | packages/rd-agent-core/src/rd_agent_core/run.py:133-197 | a run only adds to its transcript, whatever model and executor do |
| RunEvents.EventFidelityIff | packages/rd-agent-core/src/rd_agent_core/run.py:184 | from an empty log, the returned events are exactly the log of the run iff turn ids are distinct and no turn repeats a block id; sequence numbers are 1, 2, ... in any case |
| RunEvents.FaithfulRunFidelityIff | packages/rd-agent-core/src/rd_agent_core/run.py:150-197 | with fresh turn ids and an id-faithful executor this holds iff no turn holds two invalid calls under one id |
| RunEvents.TwoInvalidCallsUnderOneId | packages/rd-agent-core/src/rd_agent_core/turn.py:355-366 | two invalid calls under one id make the returned events differ from the log |
| RunEvents.RunIsCompleteTurns | packages/rd-agent-core/src/rd_agent_core/run.py:168-184 | the events of a run that returns are those of complete turns, one after the other |
| RunKernel.RunsKeep | packages/rd-agent-core/src/rd_agent_core/run.py:136-206 | what every pass of the loop keeps, every run keeps |
| RunRunner.RunKernelOn | packages/rd-agent-core/src/rd_agent_core/run.py:113-223 | the loop on real objects: result, executor calls and log are those of the specified run |
| RunRunner.RunInProgress.Step | packages/rd-agent-core/src/rd_agent_core/run.py:136-206 | one pass of the loop, on objects, is the specified pass |
| RunRunner.RunInProgress.Loop | packages/rd-agent-core/src/rd_agent_core/run.py:136-206 | the whole loop, on objects, ends as specified |
| RunRunner.RunInProgress.CheckLimits | packages/rd-agent-core/src/rd_agent_core/policies.py:66-78 | the first limit reached, in the order turns, tool calls, wall clock |
| TurnKernel.NothingRunsAfterStop | packages/rd-agent-core/src/rd_agent_core/turn.py:367-395 | after a successful pause tool, or a cancellation seen by a token that stays cancelled, no later call of the turn reaches the executor |
| TurnKernel.ResumesIfTokenRelents | packages/rd-agent-core/src/rd_agent_core/turn.py:371-381 | after a seen cancellation a token that takes its answer back lets the next call run, whatever it is |
| TurnKernel.StaysStoppedIffMonotone | packages/rd-agent-core/src/rd_agent_core/turn.py:371-381 | no call runs after a seen cancellation, at any poll, exactly if the token stays cancelled |
| TurnKernel.OnlyCheckedCallsReachTheExecutor | packages/rd-agent-core/src/rd_agent_core/turn.py:583-672 | a call reaches the executor at most once, as itself, and only unpaused, uncancelled and unrefused; its result is then marked executed |
| HostTools.OnlyPermittedCallsRun | packages/rd-agent-core/src/rd_agent_core/turn.py:583-654 | on a kernel put together from the tools and policies of a host, a call that reaches the executor is declared or allowed, safe, and conforms to its schema, and it reaches it once as itself |
| HostTools.PolicyIsTheLast | packages/rd-agent-core/src/rd_agent_core/run.py:242-246 | the repeat policy of a name is that of the last tool with the name and a policy |
| ToolChecks.UnrefusedIffPermitted | packages/rd-agent-core/src/rd_agent_core/turn.py:77-144 | the checks refuse nothing exactly if the call is declared or allowed, unblocked, on the allowlist, confirmed, conforming, and there is an executor |
| ToolChecks.DeclaredIff | packages/rd-agent-core/src/rd_agent_core/turn.py:583-586 | a call is declared exactly if a tool of the turn has its name |
| TurnKernel.ReportedExecutedIff | packages/rd-agent-core/src/rd_agent_core/turn.py:583-672 | a call is reported executed iff it comes to the guards, and made iff they let it through: exactly the guard denials are reported without a call |
| TurnKernel.AnswerPassesThrough | packages/rd-agent-core/src/rd_agent_core/turn.py:634-672 | what the executor answers is what the turn keeps, through both guards; an exception becomes a failed result |
| TurnKernel.TurnEndsAsItShould | packages/rd-agent-core/src/rd_agent_core/turn.py:300-407 | a turn is cancelled if any of its polls said yes, else paused if a pause tool succeeded, else ends as its TurnDone says |
| TurnKernel.ReportedCountsBoundCalls | packages/rd-agent-core/src/rd_agent_core/turn.py:787-797 | calls made <= executed <= requested = executed + denied |
| TurnKernel.ResultsNameTheirCalls | packages/rd-agent-core/src/rd_agent_core/turn.py:367-384 | results align with the calls index by index; with a faithful executor result k names call k |
| TurnKernel.TurnAdds | packages/rd-agent-core/src/rd_agent_core/turn.py:274-439 | the counts of a turn that returns add up; one that raises has called nothing |
| TurnGrammar.TurnFollowsTheGrammar | packages/rd-agent-core/src/rd_agent_core/turn.py:280-424 | the events of a turn that returns are: started, stream events, invalid calls, (tool started, tool finished, pause)*, completed, with totals that count the events before |
| TurnGrammar.RaisingTurnStopsInTheStream | packages/rd-agent-core/src/rd_agent_core/turn.py:352-353 | a turn that raises has written its start and the stream events it read, and no tool event |
| TurnGrammar.TurnPausesAtMostOnce | packages/rd-agent-core/src/rd_agent_core/turn.py:385-398 | a turn that returns writes at most one pause |
| TurnGrammar.AtMostOnePause | packages/rd-agent-core/src/rd_agent_core/turn.py:385-398 | no grammatical sequence holds more than one pause |
| TurnKeys.TurnKeysDistinctIff | packages/rd-agent-core/src/rd_agent_core/turn.py:296-437 | all keys of a turn carry its id, and they are distinct iff no two tool calls and no two invalid calls of its content share an id |
| TurnRunner.TurnKernelObject.RunTurnOn | packages/rd-agent-core/src/rd_agent_core/turn.py:274-439 | the turn on real objects: guards, token, writes and result are those specified |
| TurnRunner.TurnKernelObject.ReadStream | packages/rd-agent-core/src/rd_agent_core/turn.py:302-326 | the stream loop consumes up to the first cancelled poll, writes its events and keeps the last TurnDone |
| TurnRunner.TurnKernelObject.HandleAllCalls | packages/rd-agent-core/src/rd_agent_core/turn.py:367-398 | the loop over the calls gives the specified results, events and guard state |
| TurnRunner.TurnKernelObject.RunTool | packages/rd-agent-core/src/rd_agent_core/turn.py:583-672 | one call through checks, guards and executor |
| TurnRunner.EventCollector.Append | packages/rd-agent-core/src/rd_agent_core/events.py:45-67 | every write goes to the log and the returned event is kept |
| ToolGuards.ExecutionKeepsGuards | packages/rd-agent-core/src/rd_agent_core/run.py:273-345 | every guarded execution keeps the cap and, per signature, the repeat bound |
| ToolGuards.ReachesTheExecutorIff | packages/rd-agent-core/src/rd_agent_core/run.py:273-345 | a request reaches the executor iff neither cap nor repeat bound is reached; a repeat is found first, and refused requests fail |
| ToolGuards.ExecutionAddsAtMostOneCall | packages/rd-agent-core/src/rd_agent_core/run.py:273-345 | a guarded execution adds at most one call, the requested one |
| ToolGuards.GuardedNamesItsCall | packages/rd-agent-core/src/rd_agent_core/run.py:277-345 | both guards keep a faithful executor faithful |
| ToolExecutors.MaxToolCallsGuard.ExecuteTool | packages/rd-agent-core/src/rd_agent_core/run.py:273-292 | the cap object does what the specification says |
| ToolExecutors.RepeatedToolCallGuard.ExecuteTool | packages/rd-agent-core/src/rd_agent_core/run.py:311-345 | the repeat guard around the cap or the host, over the shared signature list |
| ToolExecutors.RepeatedToolCallGuard.constructor | packages/rd-agent-core/src/rd_agent_core/run.py:225-254 | each turn gets a new cap that starts from the calls requested so far, over the list of signatures the turns share |
| ToolExecutors.SignatureList.CountOf | packages/rd-agent-core/src/rd_agent_core/run.py:323-325 | the number of earlier calls with a signature |
| KernelOnClients.AnthropicTurnRaisesIff | packages/rd-agent-core/src/rd_agent_core/turn.py:352-353 | on the Anthropic client an uncancelled turn raises exactly when its stream does, never for a missing TurnDone |
| KernelOnClients.OpenAITurnRaisesIff | packages/rd-agent-core/src/rd_agent_core/turn.py:352-353 | the same on the OpenAI-compatible client |
| KernelOnClients.TurnReturnsIff | packages/rd-agent-core/src/rd_agent_core/turn.py:300-353 | a turn returns exactly if cancelled, or its stream ends well and held a TurnDone |
| Transcript.BuildMessagesAfterTurn | packages/rd-agent-core/src/rd_agent_core/run.py:348-403 | the messages of a turn, or an exception exactly when the numbers of calls and results differ, a result id repeats, or a call has no result under its id |
| Transcript.AcceptedPairsIff | packages/rd-agent-core/src/rd_agent_core/run.py:357-366 | results that are accepted are those of the calls, one for each, exactly if the call ids are distinct |
| Transcript.IndexResults | packages/rd-agent-core/src/rd_agent_core/run.py:359-363 | the dict of results by id; an exception exactly when an id repeats |
| Transcript.NamedResultsAnswerIff | packages/rd-agent-core/src/rd_agent_core/run.py:357-366 | with results that name their calls, messages can be built iff call ids are distinct, and call k gets result k |
| Transcript.StrayResultIsAccepted | packages/rd-agent-core/src/rd_agent_core/run.py:357-366 | results for ids a and b are accepted for two calls a and a, and the second is lost |
| Transcript.TurnMessagesPaired | packages/rd-agent-core/src/rd_agent_core/run.py:367-403 | the messages of a turn with distinct call ids are well paired |
| Transcript.TurnMessagesCarryTheTurn | packages/rd-agent-core/src/rd_agent_core/run.py:367-403 | the messages of a turn hold its content, every call as made, and for each call in order its own result |
| Transcript.CallsAreCarried | packages/rd-llm-adapter/src/rd_llm_adapter/openai_compat.py:96-121 | an assistant message with calls becomes one OpenAI message with exactly its calls, in order |
| Transcript.ResultIsCarried | packages/rd-llm-adapter/src/rd_llm_adapter/openai_compat.py:122-133 | the answer to a call becomes one tool message with its id and content |
| Transcript.PairedConcat | packages/rd-agent-core/src/rd_agent_core/run.py:189-197 | well-paired transcripts can be joined |
| Transcript.ConversionKeepsPairing | packages/rd-agent-core/src/rd_agent_core/llm_clients.py:164-210 | conversion through adapter payloads to OpenAI messages preserves the pairing |
| Transcript.BuildOpenAIMessages | packages/rd-llm-adapter/src/rd_llm_adapter/openai_compat.py:58-141 | the loop over messages gives the specified conversion |
| Transcript.RequestsArePaired | packages/rd-llm-adapter/src/rd_llm_adapter/openai_compat.py:67-141 | with or without a system prompt the converted request is well paired |
| EventLog.LogIgnoresRepeats | packages/rd-agent-core/src/rd_agent_core/testing.py:112-133 | the log equals the log of the calls with later repeats of a key removed |
| EventLog.ReplayReturnsOriginal | packages/rd-agent-core/src/rd_agent_core/testing.py:119-121 | a replayed key returns the first event |
| EventLog.WellFormedAlways | packages/rd-agent-core/src/rd_agent_core/testing.py:123-133 | sequence numbers stay dense per run and keys name events of their run |
| EventLog.ReturnedEventsAreTheLog | packages/rd-agent-core/src/rd_agent_core/testing.py:112-133 | what a writer is given back is what the log gains iff no call repeats a key |
| EventLog.PollingReadsTheLog | packages/rd-agent-core/src/rd_agent_core/testing.py:135-147 | polling from the last sequence number, with any page sizes, reads the log in order without gap or repeat |
| EventLog.OtherRunsUntouched | packages/rd-agent-core/src/rd_agent_core/testing.py:112-133 | appends to one run leave other runs alone |
| EventLog.InMemoryEventLog.AppendEvent | packages/rd-agent-core/src/rd_agent_core/testing.py:112-133 | the method makes the specified change and returns the specified event |
| EventLog.InMemoryEventLog.StreamEvents | packages/rd-agent-core/src/rd_agent_core/testing.py:135-147 | the events after a sequence number, cut as Python slices cut |
| SqliteEventLog.SqliteRefinesInMemory | examples/reference_host/sqlite_reference_host.py:72-140 | for any calls and clock the two logs return the same events up to timestamps |
| SqliteEventLog.EmptyRefines | examples/reference_host/sqlite_reference_host.py:164-193 | the empty tables refine the empty log |
| SqliteEventLog.ReadsAgreeIff | examples/reference_host/sqlite_reference_host.py:142-162 | reads agree unless the limit is negative and there is something to read |
| SqliteEventLog.NegativeLimitsDiffer | examples/reference_host/sqlite_reference_host.py:142-162 | with limit -1 the SQLite log gives one event where the in-memory log gives none |
| SqliteEventLog.SQLiteEventLog.AppendEvent | examples/reference_host/sqlite_reference_host.py:72-140 | one transaction: the keyed row, or a new row at max(seq) + 1 |
| AnthropicStreams.RoundTrip | packages/rd-llm-adapter/src/rd_llm_adapter/anthropic_native.py:145-245 | blocks printed in any fragments and any interleaving come back as the content of the one TurnDone, in the order they stopped |
| AnthropicStreams.EachSentBlockOnce | packages/rd-llm-adapter/src/rd_llm_adapter/anthropic_native.py:218-245 | each sent block is in that content exactly once |
| AnthropicStreams.ViewFollowsProjection | packages/rd-llm-adapter/src/rd_llm_adapter/anthropic_native.py:145-245 | what the session holds for an index depends on the chunks of that index alone |
| AnthropicStreams.CutStreamsGivePrefixes | packages/rd-llm-adapter/src/rd_llm_adapter/anthropic_native.py:247-279 | after a cut, completed blocks are a prefix and recovered text, reasoning and raw arguments are prefixes of the whole |
| AnthropicSession.AnthropicNativeParserSession.Feed | packages/rd-llm-adapter/src/rd_llm_adapter/anthropic_native.py:89-124 | the method updates the session and emits events as specified |
| AnthropicSession.AnthropicNativeParserSession.FinalizeOnError | packages/rd-llm-adapter/src/rd_llm_adapter/anthropic_native.py:132-143 | recovery after a failure, as specified |
| AnthropicSession.StreamWithRecovery | packages/rd-agent-core/src/rd_agent_core/llm_clients.py:135-161 | the recovery loop around the session |
| AnthropicSession.NormalEndHasOneTurnDone | packages/rd-agent-core/src/rd_agent_core/llm_clients.py:135-161 | at most one TurnDone however the stream fails, and exactly one before a normal end |
| OpenAIParser.Confluence | packages/rd-llm-adapter/src/rd_llm_adapter/openai_compat.py:219-314 | streams with the same per-channel projections end in the same events, normally and after a failure |
| OpenAIParser.SwappedDeltas | packages/rd-llm-adapter/src/rd_llm_adapter/openai_compat.py:262-312 | deltas of different indices commute |
| OpenAIParser.SessionIsItsChannels | packages/rd-llm-adapter/src/rd_llm_adapter/openai_compat.py:219-314 | the session is the per-channel concatenations and last values |
| OpenAIParser.EmittedDeltasRebuildTheChannels | packages/rd-llm-adapter/src/rd_llm_adapter/openai_compat.py:239-314 | emitted deltas concatenate to the buffers of the final blocks and to raw_args |
| OpenAIParser.CutStreamsGivePrefixes | packages/rd-llm-adapter/src/rd_llm_adapter/openai_compat.py:336-363 | what a cut stream holds is a prefix, channel by channel |
| OpenAISession.OpenAICompatParserSession.Feed | packages/rd-llm-adapter/src/rd_llm_adapter/openai_compat.py:219-314 | the method updates the session and emits events as specified |
| OpenAISession.StreamWithRecovery | packages/rd-agent-core/src/rd_agent_core/llm_clients.py:135-161 | the recovery loop around the session |
| OpenAISession.NormalEndHasOneTurnDone | packages/rd-agent-core/src/rd_agent_core/llm_clients.py:135-161 | exactly one TurnDone before a normal end, none before an exception |
| LegacyTranslation.TranslationSplitsIff | packages/rd-llm-adapter/src/rd_llm_adapter/openai_compat.py:473-532 | the translator distributes over concatenation except exactly where a pending name meets arguments of its index |
| LegacyTranslation.NameAndArgumentsJoin | packages/rd-llm-adapter/src/rd_llm_adapter/openai_compat.py:473-532 | a name and arguments give one payload together and two apart |
| LegacyTranslation.ChunkTranslatesDirectly | packages/rd-llm-adapter/src/rd_llm_adapter/openai_compat.py:473-532 | on a chunk with distinct indices the payloads are the direct per-chunk ones |
| LegacyTranslation.OnePayloadPerDeltaIff | packages/rd-llm-adapter/src/rd_llm_adapter/openai_compat.py:473-532 | one payload per delta exactly when no lone name meets lone arguments of its index |
| LegacyTranslation.StandardEventsToLegacyDeltas | packages/rd-llm-adapter/src/rd_llm_adapter/openai_compat.py:473-532 | the loop over pending_tool gives the specified payloads |
| ContinuationQueue.QueueSafety | examples/reference_host/sqlite_reference_host.py:468-721 | over every interleaving: 0 <= attempts <= max_attempts, queued jobs have attempts left and no worker or lock, attempts never decrease |
| ContinuationQueue.NoDoubleClaim | examples/reference_host/sqlite_reference_host.py:506-544 | between two claims of a job a failure, release or reclaim has put it back |
| ContinuationQueue.ReclaimLeavesNoStaleJob | examples/reference_host/sqlite_reference_host.py:651-683 | after a reclaim no running job is older than the cutoff; other jobs are untouched |
| ContinuationQueue.FinishedJobMovesIff | examples/reference_host/sqlite_reference_host.py:583-649 | exactly which operations move a finished job |
| ContinuationQueue.SucceededJobIsQueuedAgain | examples/reference_host/sqlite_reference_host.py:599-622 | a failure reported after a success queues the job again |
| ContinuationQueue.ClaimFindsAJobIff | examples/reference_host/sqlite_reference_host.py:506-544 | a claim finds a job exactly when one is claimable |
| ContinuationQueue.NextIsUnique | examples/reference_host/sqlite_reference_host.py:514-524 | the row the claim selects is unique |
| ContinuationQueue.SelectNext | examples/reference_host/sqlite_reference_host.py:514-524 | the oldest claimable job, by creation time and id |
| ContinuationQueue.SQLiteContinuationQueue.ClaimNext | examples/reference_host/sqlite_reference_host.py:506-544 | the claim, in one transaction |
| ContinuationQueue.SQLiteContinuationQueue.EnqueueForRun | examples/reference_host/sqlite_reference_host.py:468-504 | a new queued job, or an exception for a used job id |
| ContinuationQueue.SQLiteContinuationQueue.MarkAttemptStarted | examples/reference_host/sqlite_reference_host.py:546-567 | one more attempt, or dead letter |
| ContinuationQueue.SQLiteContinuationQueue.CompleteFailure | examples/reference_host/sqlite_reference_host.py:599-622 | requeue while attempts are left, else dead letter |
| ContinuationQueue.SQLiteContinuationQueue.ReclaimStaleJobs | examples/reference_host/sqlite_reference_host.py:651-683 | the loop over the stale rows |
| ContinuationWorker.RoundTouchesOneJob | examples/reference_host/continuation_worker.py:23-35 | a round gives one queued job one attempt and leaves it queued, succeeded or dead-lettered, never running |
| ContinuationWorker.DrainingEnds | examples/reference_host/continuation_worker.py:23-35 | rounds that find a job number at most the attempts left in the queue |
| ContinuationWorker.HandlerRunsAreAttempts | examples/reference_host/continuation_worker.py:23-35 | no handler runs more than max_attempts times for a job |
| ContinuationWorker.ReferenceContinuationWorker.RunOnce | examples/reference_host/continuation_worker.py:23-35 | the method makes one specified round |
| RunPersistence.ContinuationsStayWithinLimit | examples/reference_host/sqlite_reference_host.py:238-258 | over any sequence of port calls continuation indexes stay within the limit and every continuation follows its parent |
| RunPersistence.OriginsStay | examples/reference_host/sqlite_reference_host.py:409-434 | id, scope, index, limit and budget of a run never change |
| RunPersistence.ContinuedIff | examples/reference_host/sqlite_reference_host.py:238-258 | a continuation is created iff its parent exists with one left and its id is new; nothing is found iff the parent is missing or at its limit |
| RunPersistence.ChainLength | examples/reference_host/sqlite_reference_host.py:238-258 | from a run to its root there are index + 1 <= max_continuations + 1 runs |
| RunPersistence.ContinuableIff | packages/rd-agent-contracts/src/rd_agent_contracts/run_policy.py:39-72 | a stopped run is left continuable iff it is an orchestrator of its own, out of turns, with a continuation left |
| RunPersistence.SQLiteRunPersistence.CreateContinuationRun | examples/reference_host/sqlite_reference_host.py:238-258 | the method makes the specified change |
| RunPersistence.SQLiteRunPersistence.Update | examples/reference_host/sqlite_reference_host.py:409-434 | the marking calls |
| KeyOrder.GetSorted | packages/rd-agent-core/src/rd_agent_core/continuation_state.py:17-25 | sorting keys at every depth changes no lookup |
| KeyOrder.SortedTwice | packages/rd-agent-core/src/rd_agent_core/continuation_state.py:17-25 | what was written once with sorted keys is written the same again |
| KeyOrder.SortedIsDict | packages/rd-agent-core/src/rd_agent_core/continuation_state.py:17-25 | what is written with sorted keys is a dict at every depth if it was one before |
| ContinuationState.RoundTrip | packages/rd-agent-core/src/rd_agent_core/continuation_state.py:17-75 | from_json(to_json(state)), where to_json does not raise, is the state with the keys of tool inputs sorted, if tool inputs are dicts and text can be read back |
| ContinuationState.SecondHandOverIsExact | packages/rd-agent-core/src/rd_agent_core/continuation_state.py:17-75 | a second hand-over is never refused, writes the same text and gives the same state |
| ContinuationState.SameTextAgain | packages/rd-agent-core/src/rd_agent_core/continuation_state.py:17-25 | a state and what comes back of it are written as the same text, whatever is refused or written |
| ContinuationState.PlainCodecIsFaithful | packages/rd-agent-core/src/rd_agent_core/continuation_state.py:17-31 | there is a codec that writes every state and reads all of them back |
| ContinuationRunner.LeftContinuableCanContinue | packages/rd-agent-core/src/rd_agent_core/continuation_runner.py:164-193 | a run that a runner leaves continuable can be continued under any fresh id, and a job for it gets as far as running iff the state left can be read and written again |
| ContinuationRunner.JobIsLeftRunningIff | packages/rd-agent-core/src/rd_agent_core/continuation_runner.py:106-137 | a claimed job is left RUNNING exactly when it had an attempt left and its set-up fails |
| ContinuationRunner.RefusedContinuationLeavesTheJobRunning | packages/rd-agent-core/src/rd_agent_core/continuation_runner.py:127-137 | a job that would continue a run with no continuation left stays RUNNING |
| ContinuationRunner.ClaimedJobEndsAs | packages/rd-agent-core/src/rd_agent_core/continuation_runner.py:106-259 | a claimed job uses one attempt and ends RUNNING, succeeded, queued or dead-lettered as its set-up and kernel run did |
| ContinuationRunner.SetUpRaisesIff | packages/rd-agent-core/src/rd_agent_core/continuation_runner.py:127-137 | the set-up raises iff the state cannot be read or cannot be written again, or a new continuation is refused |
| ContinuationRunner.OtherRunsStay | packages/rd-agent-core/src/rd_agent_core/continuation_runner.py:106-259 | only the next run of the job is touched |
| ContinuationRunner.ClaimedJobKeepsOk | packages/rd-agent-core/src/rd_agent_core/continuation_runner.py:106-259 | a claimed job keeps the invariants of both tables |
| ContinuationRunner.ExecutedRecord | packages/rd-agent-core/src/rd_agent_core/continuation_runner.py:176-193 | the record of an executed run: status by policy, turns counted, state handed over with the offset advanced |
| ContinuationRunner.AgentRunner.Run | packages/rd-agent-core/src/rd_agent_core/runner.py:96-206 | the root run on the run table |
| ContinuationRunner.ContinuationRunnerObject.RunClaimed | packages/rd-agent-core/src/rd_agent_core/continuation_runner.py:106-259 | the claimed job on both tables, failures included |
| ContinuationRunner.ContinuationRunnerObject.RunNext | packages/rd-agent-core/src/rd_agent_core/continuation_runner.py:96-104 | claims a job and runs it |
| KernelRuns.RunStaysTyped | packages/rd-agent-core/src/rd_agent_core/run.py:348-403 | with dicts as inputs from the model every transcript has dicts as inputs |
| TypedStreams.ClientScriptsAreTyped | packages/rd-agent-core/src/rd_agent_core/llm_clients.py:135-161 | whatever the two clients stream, cut or not, the tool inputs a run is given are dicts |
| TypedStreams.AnthropicStreamsAreTyped | packages/rd-llm-adapter/src/rd_llm_adapter/anthropic_native.py:318-331 | the tool inputs of an Anthropic stream are dicts |
| TypedStreams.OpenAIStreamsAreTyped | packages/rd-llm-adapter/src/rd_llm_adapter/openai_compat.py:366-385 | the tool inputs of an OpenAI stream are dicts |
| KernelRuns.EndHasFacts | packages/rd-agent-core/src/rd_agent_core/run.py:113-223 | a run numbers its turns on from the offset, extends its messages, and takes at most max_turns turns |
| ContinuationChain.ChainIsSeamless | packages/rd-agent-core/src/rd_agent_core/continuation_runner.py:127-193 | over any chain, whichever attempts fail or are repeated and whichever runs are run again, turn indexes are 1..n, each run takes over transcript and turn count of the one before, and there are at most max_continuations + 1 runs |
| ContinuationChain.ChainTurnsAreBounded | packages/rd-agent-core/src/rd_agent_core/continuation_runner.py:303-311 | under the budget n <= (max_continuations + 1) * max_turns |
| ContinuationChain.ChainGoesOnIff | packages/rd-agent-core/src/rd_agent_core/continuation_runner.py:261-281 | for any hand-over: a job that continues the k-th run gets as far as running iff its run was made before, or a continuation is left and the state can be written; one is left if the k-th run is continuable |
| ContinuationChain.JsonChainGoesOnIff | packages/rd-agent-core/src/rd_agent_core/continuation_runner.py:261-281 | over the JSON hand-over it does so iff its run was made before or a continuation is left, and always if the k-th run is continuable |
| ContinuationChain.LeftContinuableIsReady | packages/rd-agent-core/src/rd_agent_core/continuation_runner.py:127-193 | over the JSON hand-over a run left continuable is ready for a job under any fresh id |
| ContinuationChain.LostStateStartsAfresh | packages/rd-agent-core/src/rd_agent_core/continuation_runner.py:127-132 | a job that continues a run without a state begins with no messages and at turn offset 0 |
| ContinuationChain.ChainStaysPaired | packages/rd-agent-core/src/rd_agent_core/continuation_runner.py:127-193 | with id-faithful executors the transcript of every run is well paired at its start and its end |
| ContinuationChain.SortedStaysPaired | packages/rd-agent-core/src/rd_agent_core/continuation_state.py:17-75 | the hand-over keeps pairing |
| ContinuationChain.ClaimedJobIsAnAttempt | packages/rd-agent-core/src/rd_agent_core/continuation_runner.py:106-259 | the run table after a claimed job is that of the chain after an attempt |
| ContinuationChain.FailedAttemptCanBeRepeated | packages/rd-agent-core/src/rd_agent_core/continuation_runner.py:261-271 | a job whose run was made and failed finds that run again and gets as far as running |
| ContinuationChain.ReturnedRunCanBeRepeated | packages/rd-agent-core/src/rd_agent_core/continuation_runner.py:261-271 | so does a job whose run has returned |
| ContinuationChain.JsonHandsOver | packages/rd-agent-core/src/rd_agent_core/continuation_state.py:17-75 | for a faithful codec the JSON hand-over meets what the chain results assume |
| ContinuationChain.SomeHandOverWritesAll | packages/rd-agent-core/src/rd_agent_core/continuation_state.py:17-75 | a hand-over that writes every state meets it too, so nothing is assumed in vain |
| InstallOrder.Resolver.ResolveLocalInstallOrder | tools/scripts/verify_wheel_install.py:71-98 | the list is duplicate-free, exactly what the target reaches, dependencies first and the target last; for a known target it raises iff a cycle is reachable, at a package that lies on one |
| InstallOrder.Resolver.Visit | tools/scripts/verify_wheel_install.py:83-94 | the recursive visit keeps the finished list ordered and closed, terminates, and raises with a real cycle |
| InstallOrder.OrderedMeansAcyclic | tools/scripts/verify_wheel_install.py:83-98 | a list with dependencies first excludes a cycle below its members |
| InstallOrder.OrderedMeansClosed | tools/scripts/verify_wheel_install.py:83-98 | such a list holds all that its members reach |
| JsonSchema.NoErrorIffConforms | packages/rd-agent-core/src/rd_agent_core/turn.py:800-862 | no error exactly when the value conforms to the declarative relation |
| JsonSchema.ErrorsAreLocated | packages/rd-agent-core/src/rd_agent_core/turn.py:800-842 | a reported path leads to a sub-value that breaks the reported keyword or lacks the reported key |
| JsonSchema.FaultsAreReported | packages/rd-agent-core/src/rd_agent_core/turn.py:800-842 | a fault anywhere below is reported as an error |
| SchemaStandard.ValidatorDecidesItsReading | packages/rd-agent-core/src/rd_agent_core/turn.py:800-862 | for every schema of the standard and every value: the validator finds no error, and no truth value was taken for a number in an enum, iff the value meets the schema as the validator reads it, and no integral float stands where only an integer fits |
| SchemaStandard.ReadingsAgreeIff | packages/rd-agent-core/src/rd_agent_core/turn.py:814-842 | validator and standard read a schema alike iff at every level properties and required stand beside type object, items beside type array or is true, additionalProperties is true, or false for objects, and no property or item is ruled out by false |
| SchemaStandard.TypedSchemasFollowTheStandard | packages/rd-agent-core/src/rd_agent_core/turn.py:800-862 | on such schemas and for every value the validator follows sections 6.1.1, 6.1.2 and 6.5.3 of JSON Schema Validation and 4.2.2, 4.3.2, 10.3.1.2, 10.3.2.1 and 10.3.2.3 of JSON Schema Core, draft 2020-12, but for the two departures |
| SchemaStandard.IntegralFloatsAreReported | packages/rd-agent-core/src/rd_agent_core/turn.py:854-857 | an integral float where an integer is asked for and no other type fits is an error, at any depth and under any schema |
| SchemaStandard.PropertiesAloneDemandAnObject | packages/rd-agent-core/src/rd_agent_core/turn.py:814-827 | properties without a type still demand an object; of an object each asks what it asks of the declared properties |
| SchemaStandard.ItemsAloneAreIgnored | packages/rd-agent-core/src/rd_agent_core/turn.py:833-842 | items without type array are never looked at; the standard asks them of every element |
| SchemaStandard.OpenMapsAreIgnored | packages/rd-agent-core/src/rd_agent_core/turn.py:828-831 | a schema for additional properties is never looked at; the standard asks it of every undeclared one |
| SchemaStandard.RuledOutPropertiesGoThrough | packages/rd-agent-core/src/rd_agent_core/turn.py:822-827 | a property whose schema is false goes through; the standard refuses it |
| SchemaStandard.OpenMapTakesANumberForAString | packages/rd-agent-core/src/rd_agent_core/turn.py:828-831 | 1 gets through a map of strings |
| SchemaStandard.RuledOutPropertyGoesThrough | packages/rd-agent-core/src/rd_agent_core/turn.py:822-827 | a gets through where its schema is false |
| SchemaStandard.IgnoredItemsLetNullThrough | packages/rd-agent-core/src/rd_agent_core/turn.py:833-842 | null in an array of strings gets through |
| SchemaStandard.IntegralFloatIsNoInteger | packages/rd-agent-core/src/rd_agent_core/turn.py:854-855 | 1.0 is no integer to the validator |
| SchemaStandard.TrueIsTakenForOne | packages/rd-agent-core/src/rd_agent_core/turn.py:803-806 | True gets through where 1 is the only value |
| WriteScope.NoOverlapMeansDisjoint | packages/rd-agent-contracts/src/rd_agent_contracts/subagent.py:64-100 | if the overlap test is false no path of any spelling lies in both scopes |
| WriteScope.OverlapIffSharedPath | packages/rd-agent-contracts/src/rd_agent_contracts/subagent.py:64-100 | for normalised scopes the test decides whether some path lies in both |
| WriteScope.ScopesSharePathIff | packages/rd-agent-contracts/src/rd_agent_contracts/subagent.py:64-100 | scopes of any spelling have a path in common iff two of their paths clash and the longer is nonempty, starts with no slash and holds no backslash |
| WriteScope.SharePathIff | packages/rd-agent-contracts/src/rd_agent_contracts/subagent.py:64-71 | the same for two scope paths |
| WriteScope.UnnormalizedScopesCanClashEmptily | packages/rd-agent-contracts/src/rd_agent_contracts/subagent.py:88-100 | scopes that were not normalised can clash with no path in common |
| WriteScope.ViolationFreeTasksAreSeparate | packages/rd-agent-contracts/src/rd_agent_contracts/subagent.py:74-100 | two violation-free tasks without overlap change different files in different subtrees |
| WriteScope.NormalizedIsFixedIff | packages/rd-agent-contracts/src/rd_agent_contracts/subagent.py:57-61 | the normal form is fixed iff the trimmed path has, after its leading ./s, no slashes before another ./ with more than slashes behind it, no space after those ./s and slashes, and none before its last slashes |
| WriteScope.EmptySegmentStopsTheLoop | packages/rd-agent-contracts/src/rd_agent_contracts/subagent.py:57-61 | .//./t becomes ./t, and ./t becomes t |
| WriteScope.NormalizeSubagentScopePath | packages/rd-agent-contracts/src/rd_agent_contracts/subagent.py:57-61 | the while loop computes the normal form |
| WriteScope.NormalizeWriteScopePaths | packages/rd-agent-contracts/src/rd_agent_contracts/subagent.py:40-54 | the loop computes the scope paths |
| WriteScope.ScopePathsAreNormalizedRawPaths | packages/rd-agent-contracts/src/rd_agent_contracts/subagent.py:40-54 | a path is in the scope iff it is the normal form of a raw one, and neither empty nor "." |
| WriteScope.WriteScopesOverlap | packages/rd-agent-contracts/src/rd_agent_contracts/subagent.py:88-100 | the double loop finds a clashing pair iff there is one |

## Left out

- HTTP and SDK transports, SSE framing, provider registry, request building beyond message conversion: I/O plumbing.
- Run observers, tool observability, recorder files, redaction, summaries, timelines: effects that do not come back into the modelled state.
- Output blob writer and output limiter of the turn kernel: they change a result's content and metadata, not its id, success or `executed` flag.
- Usage totals, aggregate counters, model profiles, provider state, prompt and error texts.
- `tool_repeat_policy_from_metadata`: reading a policy from metadata is branch by branch; the model starts from the policy read.
- JSON Schema keywords the validator does not look at, such as minimum, pattern or oneOf: the standard is modelled for the keywords it does, and for schemas without prefixItems and patternProperties, on which items and additionalProperties depend.
- String forms of idempotency keys, digests and signatures, and the writer's optional key prefix: the model uses structured keys, so a collision of strings is outside it.
- Validation in dataclass constructors (limits and thresholds of at least 1, the roles, redacted reasoning blocks): the results here need no such precondition.
- Unicode, number formats and JSON text: `loads` and `text` are parameters, as said above. Infinities, NaN and negative zero are not among the numbers.
- `provider_data`, `parse_error` and `encoding` of content blocks.
- `str()` of the first argument of a raised exception, and exceptions in observers.
- The in-memory continuation queue, which can requeue an exhausted job on reclaim, and the in-memory run table: the SQLite tables are modelled.
- `claim_latest_waiting_orchestrator_run`: of the resume path only the change of status is modelled (`SetStatus`).
- Concurrency below the level of one port call: every queue, table or log operation is one atomic step, and one run's kernel is sequential.
- Changes to a chain's run records by others between two attempts, as when a waiting run is set back to running; other chains are no such change (`ContinuationRunner.OtherRunsStay`).
- Chains that go on from a run that has not returned: such a run may have left no state, and then the job begins afresh (`ContinuationChain.LostStateStartsAfresh`).
- A RecursionError of `json.loads` in the stream parsers, which they do not catch.
- ContinuationState.ReadBlock: a content dict of a type the program does not write is treated as unreadable; `from_json` keeps content as it is.
- Workspace discovery, wheel building and name canonicalisation around the install order.
- ContinuationState.ReadOffset: a turn offset that is a text or a fraction is treated as unreadable, because no state the program writes holds one.
- ToolExecutors.RepeatedToolCallGuard.ExecuteTool: the guard is also built where no threshold or policy is set; it then passes every call on, as the source does without it.
