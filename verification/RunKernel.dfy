/**
 The run kernel: turn after turn until the model stops, a tool pauses, cancellation is seen, a call is
 denied as repeated, or a limit is reached. A script stands for the model: what it would do turn by
 turn, raising once the script has run out. As scripts are arbitrary, this covers models that react.
 */
module RunKernel {
  import opened Options
  import opened ToolGuards
  import opened Transcript
  import opened TurnKernel
  import opened TurnFacts

  /** The limits on tool calls and repeats are those of `env.guards`; `elapsedMs(n)` is read before turn n + 1. */
  datatype RunSetup = RunSetup(
    runId: string,
    turnOffset: nat,
    env: TurnEnv,
    maxTurns: Option<nat>,
    timeoutMs: Option<nat>,
    turnIds: nat -> string,
    messageIds: nat -> string,
    elapsedMs: nat -> int)

  datatype TurnRecord = TurnRecord(info: TurnInfo, sent: seq<Message>, result: TurnResult, writes: seq<Write>)

  /** `requests` are the message lists the model has been sent, one a turn, also for a turn that raises. */
  datatype RunState = RunState(
    messages: seq<Message>,
    requests: seq<seq<Message>>,
    turns: seq<TurnRecord>,
    requested: nat,
    executed: nat,
    denied: nat,
    guard: GuardState,
    polls: nat,
    messageIdsUsed: nat,
    writes: seq<Write>)

  datatype Status = Running(state: RunState) | Stopped(state: RunState, reason: string) | Failed(state: RunState)

  function Initial(messages: seq<Message>): RunState {
    RunState(messages, [], [], 0, 0, 0, GuardState([], 0, []), 0, 0, [])
  }

  /** The first limit reached, by name. */
  function LimitReached(setup: RunSetup, s: RunState): Option<string> {
    if setup.maxTurns.Some? && |s.turns| >= setup.maxTurns.value then Some("max_turns")
    else if setup.env.guards.maxToolCalls.Some? && s.requested >= setup.env.guards.maxToolCalls.value then Some("max_tool_calls")
    else if setup.timeoutMs.Some? && setup.elapsedMs(|s.turns|) >= setup.timeoutMs.value then Some("max_wall_clock")
    else None
  }

  predicate HasRepeatDenial(results: seq<ToolResult>) {
    exists k :: 0 <= k < |results| && results[k].error == Some(RepeatedToolCall)
  }

  function NextTurn(setup: RunSetup, s: RunState): TurnInfo {
    TurnInfo(setup.runId, setup.turnIds(|s.turns|), setup.turnOffset + |s.turns| + 1)
  }

  /** The guards are built anew for each turn, from the requested count and the run's shared signatures. */
  function TurnGuards(s: RunState): GuardState {
    s.guard.(seen := s.requested)
  }

  /** The state with what the turn did and reports. */
  function Recorded(setup: RunSetup, s: RunState, out: TurnOut, r: TurnResult): RunState {
    s.(turns := s.turns + [TurnRecord(NextTurn(setup, s), s.messages, r, out.writes)],
       requests := s.requests + [s.messages],
       requested := s.requested + r.requested, executed := s.executed + r.executed, denied := s.denied + r.denied,
       guard := out.guard, polls := out.polls, writes := s.writes + out.writes)
  }

  function Extended(s: RunState, ms: seq<Message>): RunState {
    s.(messages := s.messages + ms, messageIdsUsed := s.messageIdsUsed + |ms|)
  }

  /** Whether the run goes on after a turn. */
  function Concluded(s: RunState, r: TurnResult): Status {
    if HasRepeatDenial(r.results) then Stopped(s, "repeated_tool_call")
    else if r.stopReason == "cancelled" || r.paused || r.requested == 0 then Stopped(s, r.stopReason)
    else Running(s)
  }

  /** The state after a turn that raises. */
  function Broken(s: RunState, out: TurnOut): RunState {
    s.(guard := out.guard, polls := out.polls, writes := s.writes + out.writes, requests := s.requests + [s.messages])
  }

  /** `ms` are the messages built from the turn, None where that raises. */
  function AfterMessages(setup: RunSetup, s: RunState, out: TurnOut, ms: Option<seq<Message>>): Status {
    if out.result.None? then Failed(Broken(s, out))
    else
      var recorded := Recorded(setup, s, out, out.result.value);
      if ms.None? then Failed(recorded) else Concluded(Extended(recorded, ms.value), out.result.value)
  }

  ghost function MessagesOf(setup: RunSetup, s: RunState, out: TurnOut): Option<seq<Message>> {
    if out.result.None? then None
    else TurnMessages(setup.turnIds(|s.turns|), setup.messageIds(s.messageIdsUsed), out.result.value.content,
                      out.result.value.results, setup.messageIds, s.messageIdsUsed + 1)
  }

  ghost function AfterTurn(setup: RunSetup, s: RunState, out: TurnOut): Status {
    AfterMessages(setup, s, out, MessagesOf(setup, s, out))
  }

  function Polled(s: RunState): RunState {
    s.(polls := s.polls + 1)
  }

  /** What a pass of the loop, after its own poll of the token, runs a turn with. */
  datatype TurnCall = TurnCall(t: TurnInfo, poll: nat, g: GuardState)

  function CallOf(setup: RunSetup, s: RunState): TurnCall {
    TurnCall(NextTurn(setup, s), s.polls + 1, TurnGuards(s))
  }

  function RunCall(env: TurnEnv, llm: LlmTurn, c: TurnCall): TurnOut {
    RunTurn(env, c.t, llm, c.poll, c.g)
  }

  function TurnFor(setup: RunSetup, s: RunState, llm: LlmTurn): TurnOut {
    RunCall(setup.env, llm, CallOf(setup, s))
  }

  /** A pass of the loop whose turn, if it comes to one, does `out`. */
  ghost function Pass(setup: RunSetup, s: RunState, out: TurnOut): Status {
    if setup.env.cancel(s.polls) then Stopped(Polled(s), "cancelled")
    else if LimitReached(setup, s).Some? then Stopped(Polled(s), LimitReached(setup, s).value)
    else AfterTurn(setup, Polled(s), out)
  }

  ghost function RunStep(setup: RunSetup, s: RunState, llm: LlmTurn): Status {
    Pass(setup, s, TurnFor(setup, s, llm))
  }

  const EXHAUSTED := LlmTurn([], true)

  ghost function RunFrom(setup: RunSetup, s: RunState, script: seq<LlmTurn>): Status
    decreases |script|
  {
    if script == [] then RunStep(setup, s, EXHAUSTED)
    else match RunStep(setup, s, script[0])
         case Running(next) => RunFrom(setup, next, script[1..])
         case ended => ended
  }

  ghost function Run(setup: RunSetup, messages: seq<Message>, script: seq<LlmTurn>): Status {
    RunFrom(setup, Initial(messages), script)
  }

  lemma AfterTurnRecords(setup: RunSetup, s: RunState, out: TurnOut, ms: Option<seq<Message>>)
    ensures AfterMessages(setup, s, out, ms).state.turns == match out.result
            case None => s.turns
            case Some(r) => s.turns + [TurnRecord(NextTurn(setup, s), s.messages, r, out.writes)]
  {
  }

  lemma FailsWithoutMessages(setup: RunSetup, s: RunState, out: TurnOut, ms: Option<seq<Message>>)
    ensures AfterMessages(setup, s, out, ms).Failed? <==> out.result.None? || ms.None?
  {
  }

  // ---------- Steps, seen from outside ----------

  /** What is known of a pass of the loop, whatever the model does. */
  ghost predicate Steps(setup: RunSetup, s: RunState, status: Status) {
    || StopStep(setup, s, status)
    || (exists out, ms :: TurnStep(setup, s, out, ms, status))
  }

  /** The pass sees a cancellation, or else a limit, and runs no turn. */
  predicate StopStep(setup: RunSetup, s: RunState, status: Status) {
    && status.Stopped? && status.state == Polled(s)
    && if setup.env.cancel(s.polls) then status.reason == "cancelled" else LimitReached(setup, s) == Some(status.reason)
  }

  /** With an executor that names its calls, messages are built only for distinct call ids, and are well paired. */
  ghost predicate FactsOfMessages(setup: RunSetup, out: TurnOut, ms: Option<seq<Message>>) {
    IdFaithful(setup.env.guards.behaviour) ==>
      && PairedIfBuilt(ms)
      && (ms.Some? && out.result.Some? ==> DistinctIds(ToolUses(out.result.value.content)))
  }

  ghost predicate TurnStep(setup: RunSetup, s: RunState, out: TurnOut, ms: Option<seq<Message>>, status: Status) {
    && LimitReached(setup, s).None?
    && FactsOfTurn(setup.env, NextTurn(setup, s), TurnGuards(s), out)
    && FactsOfMessages(setup, out, ms)
    && status == AfterMessages(setup, Polled(s), out, ms)
  }

  lemma MessagesHaveFacts(setup: RunSetup, s: RunState, t: TurnInfo, g: GuardState, out: TurnOut)
    requires FactsOfTurn(setup.env, t, g, out)
    ensures FactsOfMessages(setup, out, MessagesOf(setup, s, out))
  {
    if IdFaithful(setup.env.guards.behaviour) && out.result.Some? {
      BuiltMessagesPaired(setup, s, out, out.result.value);
    }
  }

  lemma MessagesAreTheTurns(
    setup: RunSetup, s: RunState, out: TurnOut, r: TurnResult, turnId: string, assistantId: string, next: nat)
    requires out.result == Some(r) && next == s.messageIdsUsed + 1
    requires turnId == setup.turnIds(|s.turns|) && assistantId == setup.messageIds(s.messageIdsUsed)
    ensures MessagesOf(setup, s, out) == TurnMessages(turnId, assistantId, r.content, r.results, setup.messageIds, next)
  {
  }

  lemma BuiltMessagesPaired(setup: RunSetup, s: RunState, out: TurnOut, r: TurnResult)
    requires out.result == Some(r) && NameTheirCalls(ToolUses(r.content), r.results)
    ensures PairedIfBuilt(MessagesOf(setup, s, out))
    ensures MessagesOf(setup, s, out).Some? ==> DistinctIds(ToolUses(r.content))
  {
    NamedResultsAnswerIff(ToolUses(r.content), r.results);
    var turnId, assistantId := setup.turnIds(|s.turns|), setup.messageIds(s.messageIdsUsed);
    MessagesAreTheTurns(setup, s, out, r, turnId, assistantId, s.messageIdsUsed + 1);
    NamedMessagesPaired(turnId, assistantId, r.content, r.results, setup.messageIds, s.messageIdsUsed + 1);
  }

  lemma FactsMakeAStep(setup: RunSetup, s: RunState, out: TurnOut)
    requires LimitReached(setup, s).None? && FactsOfTurn(setup.env, NextTurn(setup, s), TurnGuards(s), out)
    ensures Steps(setup, s, AfterTurn(setup, Polled(s), out))
  {
    var ms := MessagesOf(setup, Polled(s), out);
    MessagesHaveFacts(setup, Polled(s), NextTurn(setup, s), TurnGuards(s), out);
    assert TurnStep(setup, s, out, ms, AfterMessages(setup, Polled(s), out, ms));
  }

  lemma PassSteps(setup: RunSetup, s: RunState, out: TurnOut)
    requires FactsOfTurn(setup.env, NextTurn(setup, s), TurnGuards(s), out)
    ensures Steps(setup, s, Pass(setup, s, out))
  {
    if !setup.env.cancel(s.polls) && LimitReached(setup, s).None? {
      FactsMakeAStep(setup, s, out);
    }
  }

  lemma TurnForIsACall(setup: RunSetup, s: RunState, llm: LlmTurn, c: TurnCall)
    requires c == CallOf(setup, s)
    ensures TurnFor(setup, s, llm) == RunCall(setup.env, llm, c)
  {
  }

  lemma CallIsATurn(env: TurnEnv, llm: LlmTurn, t: TurnInfo, poll: nat, g: GuardState)
    ensures RunCall(env, llm, TurnCall(t, poll, g)) == RunTurn(env, t, llm, poll, g)
  {
  }

  lemma CallHasFacts(env: TurnEnv, llm: LlmTurn, c: TurnCall)
    ensures FactsOfTurn(env, c.t, c.g, RunCall(env, llm, c))
  {
    TurnHasFacts(env, c.t, llm, c.poll, c.g);
  }

  lemma TurnForHasFacts(setup: RunSetup, s: RunState, llm: LlmTurn, c: TurnCall)
    requires c == CallOf(setup, s)
    ensures FactsOfTurn(setup.env, c.t, c.g, TurnFor(setup, s, llm))
  {
    TurnForIsACall(setup, s, llm, c);
    CallHasFacts(setup.env, llm, c);
  }

  lemma StepIsAPass(setup: RunSetup, s: RunState, llm: LlmTurn, out: TurnOut)
    requires out == TurnFor(setup, s, llm)
    ensures RunStep(setup, s, llm) == Pass(setup, s, out)
  {
  }

  lemma StepSteps(setup: RunSetup, s: RunState, llm: LlmTurn)
    ensures Steps(setup, s, RunStep(setup, s, llm))
  {
    var out := TurnFor(setup, s, llm);
    StepIsAPass(setup, s, llm, out);
    TurnForHasFacts(setup, s, llm, CallOf(setup, s));
    PassSteps(setup, s, out);
  }

  ghost predicate Kept(setup: RunSetup, inv: Status -> bool) {
    forall s, status :: Steps(setup, s, status) && inv(Running(s)) ==> inv(status)
  }

  /** What every step keeps, every run keeps. */
  lemma {:induction false} RunsKeep(setup: RunSetup, s: RunState, script: seq<LlmTurn>, inv: Status -> bool)
    requires Kept(setup, inv) && inv(Running(s))
    ensures inv(RunFrom(setup, s, script))
    decreases |script|
  {
    if script == [] {
      StepSteps(setup, s, EXHAUSTED);
    } else {
      StepSteps(setup, s, script[0]);
      var status := RunStep(setup, s, script[0]);
      if status.Running? { RunsKeep(setup, status.state, script[1..], inv); }
    }
  }
}
