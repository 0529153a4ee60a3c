/** A kernel run as the runners see it: a request in, an end out, and what may be relied on. */
module KernelRuns {
  import opened Options
  import opened StandardEvents
  import opened ToolGuards
  import opened Transcript
  import opened TurnKernel
  import opened RunKernel
  import opened RunBounds
  import opened RunTranscript
  import opened ContinuationState
  import R = ContinuationRunner

  // ---------- Tool inputs stay dicts ----------

  predicate TypedContent(content: seq<Block>) {
    forall k :: 0 <= k < |content| ==> TypedBlock(content[k])
  }

  predicate TypedEvent(e: StandardEvent) {
    e.TurnDone? ==> TypedContent(e.done.content)
  }

  predicate TypedEvents(events: seq<StandardEvent>) {
    forall k :: 0 <= k < |events| ==> TypedEvent(events[k])
  }

  /** A model whose parser gives tool inputs as dicts, which both stream parsers do. */
  ghost predicate TypedScript(script: seq<LlmTurn>) {
    forall k :: 0 <= k < |script| ==> TypedEvents(script[k].events)
  }

  lemma {:induction false} LastDoneTyped(events: seq<StandardEvent>)
    requires TypedEvents(events) && LastDone(events).Some?
    ensures TypedContent(LastDone(events).value.content)
  {
    assert TypedEvent(events[|events| - 1]);
    if !events[|events| - 1].TurnDone? { LastDoneTyped(events[..|events| - 1]); }
  }

  lemma DoneTyped(env: TurnEnv, llm: LlmTurn, poll: nat)
    requires TypedEvents(llm.events) && DoneOf(env, llm, poll).Some?
    ensures TypedContent(DoneOf(env, llm, poll).value.content)
  {
    LastDoneTyped(Read(env, llm, poll));
  }

  ghost predicate TypedOut(out: TurnOut) {
    out.result.Some? ==> TypedContent(out.result.value.content)
  }

  lemma EndTyped(env: TurnEnv, t: TurnInfo, e: Ending, g: GuardState)
    requires e.done.Some? ==> TypedContent(e.done.value.content)
    ensures TypedOut(EndTurn(env, t, e, g))
  {
  }

  lemma TurnTyped(env: TurnEnv, t: TurnInfo, llm: LlmTurn, poll: nat, g: GuardState)
    requires TypedEvents(llm.events)
    ensures TypedOut(RunTurn(env, t, llm, poll, g))
  {
    var e := EndingOf(env, t, llm, poll);
    TurnEnds(env, t, llm, poll, g, e);
    if e.done.Some? { DoneTyped(env, llm, poll); }
    EndTyped(env, t, e, g);
  }

  lemma {:induction false} ToolUsesTyped(content: seq<Block>)
    requires TypedContent(content)
    ensures forall k :: 0 <= k < |ToolUses(content)| ==> TypedBlock(ToolUses(content)[k]) && ToolUses(content)[k].ToolUseBlock?
  {
    if content != [] {
      ToolUsesTyped(content[1..]);
      assert TypedBlock(content[0]);
      assert ToolUses(content) == (if content[0].ToolUseBlock? then [content[0]] else []) + ToolUses(content[1..]);
    }
  }

  lemma AssistantTyped(turnId: string, messageId: string, content: seq<Block>)
    requires TypedContent(content)
    ensures TypedMessage(AssistantMessage(turnId, messageId, content))
  {
    ToolUsesTyped(content);
    var m := AssistantMessage(turnId, messageId, content);
    forall k | 0 <= k < |m.content.blocks| ensures TypedContentBlock(m.content.blocks[k]) {
      assert TypedBlock(content[k]);
    }
  }

  lemma NewMessagesTyped(
    turnId: string, assistantId: string, content: seq<Block>, results: seq<ToolResult>, ids: nat -> string, next: nat)
    requires TypedContent(content) && TurnMessages(turnId, assistantId, content, results, ids, next).Some?
    ensures Typed(TurnMessages(turnId, assistantId, content, results, ids, next).value)
  {
    AssistantTyped(turnId, assistantId, content);
  }

  ghost predicate TypedIfBuilt(ms: Option<seq<Message>>) {
    ms.Some? ==> Typed(ms.value)
  }

  lemma BuiltMessagesTyped(setup: RunSetup, s: RunState, out: TurnOut, r: TurnResult)
    requires out.result == Some(r) && TypedContent(r.content)
    ensures TypedIfBuilt(MessagesOf(setup, s, out))
  {
    var turnId, assistantId := setup.turnIds(|s.turns|), setup.messageIds(s.messageIdsUsed);
    MessagesAreTheTurns(setup, s, out, r, turnId, assistantId, s.messageIdsUsed + 1);
    if MessagesOf(setup, s, out).Some? {
      NewMessagesTyped(turnId, assistantId, r.content, r.results, setup.messageIds, s.messageIdsUsed + 1);
    }
  }

  lemma TypedConcat(a: seq<Message>, b: seq<Message>)
    requires Typed(a) && Typed(b)
    ensures Typed(a + b)
  {
  }

  lemma AfterMessagesTyped(setup: RunSetup, s: RunState, out: TurnOut, ms: Option<seq<Message>>)
    requires Typed(s.messages) && TypedIfBuilt(ms)
    ensures Typed(AfterMessages(setup, s, out, ms).state.messages)
  {
    TranscriptAfter(setup, s, out, ms);
    if out.result.Some? && ms.Some? { TypedConcat(s.messages, ms.value); }
  }

  lemma PassTyped(setup: RunSetup, s: RunState, out: TurnOut)
    requires Typed(s.messages) && TypedOut(out)
    ensures Typed(Pass(setup, s, out).state.messages)
  {
    if out.result.Some? { BuiltMessagesTyped(setup, Polled(s), out, out.result.value); }
    AfterMessagesTyped(setup, Polled(s), out, MessagesOf(setup, Polled(s), out));
  }

  lemma CallTyped(env: TurnEnv, llm: LlmTurn, c: TurnCall)
    requires TypedEvents(llm.events)
    ensures TypedOut(RunCall(env, llm, c))
  {
    TurnTyped(env, c.t, llm, c.poll, c.g);
  }

  lemma TurnForTyped(setup: RunSetup, s: RunState, llm: LlmTurn, c: TurnCall)
    requires TypedEvents(llm.events) && c == CallOf(setup, s)
    ensures TypedOut(TurnFor(setup, s, llm))
  {
    TurnForIsACall(setup, s, llm, c);
    CallTyped(setup.env, llm, c);
  }

  lemma StepTyped(setup: RunSetup, s: RunState, llm: LlmTurn)
    requires Typed(s.messages) && TypedEvents(llm.events)
    ensures Typed(RunStep(setup, s, llm).state.messages)
  {
    var out := TurnFor(setup, s, llm);
    StepIsAPass(setup, s, llm, out);
    TurnForTyped(setup, s, llm, CallOf(setup, s));
    PassTyped(setup, s, out);
  }

  lemma {:induction false} RunStaysTyped(setup: RunSetup, s: RunState, script: seq<LlmTurn>)
    requires Typed(s.messages) && TypedScript(script)
    ensures Typed(RunFrom(setup, s, script).state.messages)
    decreases |script|
  {
    if script == [] {
      StepTyped(setup, s, EXHAUSTED);
    } else {
      StepTyped(setup, s, script[0]);
      var status := RunStep(setup, s, script[0]);
      if status.Running? { RunStaysTyped(setup, status.state, script[1..]); }
    }
  }

  // ---------- The kernel behind a request ----------

  /** What a run depends on beside its request: the host's tools, ids and clock, and the model. */
  datatype Link = Link(setup: RunSetup, script: seq<LlmTurn>)

  function SetupFor(link: Link, request: R.KernelRequest): RunSetup
    requires request.turnOffset >= 0
  {
    link.setup.(
      runId := request.runId, turnOffset := request.turnOffset,
      maxTurns := request.limits.maxTurns, timeoutMs := request.limits.timeoutMs,
      env := link.setup.env.(guards := link.setup.env.guards.(maxToolCalls := request.limits.maxToolCalls)))
  }

  /** How the run ends; a negative offset is refused before it begins. */
  ghost function EndOf(link: Link, request: R.KernelRequest): Status {
    if request.turnOffset < 0 then Failed(Initial(request.messages))
    else Run(SetupFor(link, request), request.messages, link.script)
  }

  ghost function ExecutionOf(end: Status): R.Execution {
    match end
    case Stopped(s, reason) => R.Returned(reason, s.messages, |s.turns|)
    case _ => R.Raised("")
  }

  lemma ReturnedIsTheEnd(end: Status)
    ensures var e := ExecutionOf(end);
            e.Returned? ==> end.Stopped? && e.messages == end.state.messages && e.turnsCount == |end.state.turns|
  {
  }

  function TurnIndexes(s: RunState): seq<int> {
    seq(|s.turns|, k requires 0 <= k < |s.turns| => s.turns[k].info.turnIndex)
  }

  function From(offset: int, n: nat): seq<int> {
    seq(n, k => offset + k + 1)
  }

  /** What the runners may rely on of a run that has ended. */
  ghost predicate EndFacts(request: R.KernelRequest, s: RunState) {
    && TurnIndexes(s) == From(request.turnOffset, |s.turns|)
    && request.messages <= s.messages
    && (Typed(request.messages) ==> Typed(s.messages))
    && (request.limits.maxTurns.Some? ==> |s.turns| <= request.limits.maxTurns.value)
  }

  lemma IndexesFollow(setup: RunSetup, s: RunState)
    requires Numbered(setup, s)
    ensures TurnIndexes(s) == From(setup.turnOffset, |s.turns|)
  {
    forall k: nat | k < |s.turns| ensures TurnIndexes(s)[k] == From(setup.turnOffset, |s.turns|)[k] {
      assert NumberedTurn(setup, s, k);
    }
  }

  lemma PacedByTurns(setup: RunSetup, status: Status)
    requires Paced(setup, status)
    ensures setup.maxTurns.Some? ==> |status.state.turns| <= setup.maxTurns.value
  {
  }

  lemma EndHasFacts(link: Link, request: R.KernelRequest)
    requires TypedScript(link.script) && request.turnOffset >= 0
    ensures EndFacts(request, EndOf(link, request).state)
  {
    var setup := SetupFor(link, request);
    RunIsNumbered(setup, request.messages, link.script);
    IndexesFollow(setup, Run(setup, request.messages, link.script).state);
    RunIsPaced(setup, request.messages, link.script);
    PacedByTurns(setup, Run(setup, request.messages, link.script));
    RunExtends(setup, request.messages, link.script);
    if Typed(request.messages) { RunStaysTyped(setup, Initial(request.messages), link.script); }
  }

  /** With an executor that names its calls, a run begun on a well-paired transcript ends on one. */
  lemma EndIsPaired(link: Link, request: R.KernelRequest)
    requires IdFaithful(link.setup.env.guards.behaviour) && WellPaired(request.messages) && request.turnOffset >= 0
    ensures WellPaired(EndOf(link, request).state.messages)
  {
    TranscriptGrowsPaired(SetupFor(link, request), request.messages, link.script);
  }
}
