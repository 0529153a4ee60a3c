/** A whole run, step by step, on the objects it changes. */
module RunRunner {
  import opened Options
  import opened SeqFacts
  import opened EventLog
  import opened ToolGuards
  import opened ToolExecutors
  import opened Transcript
  import opened TurnKernel
  import opened TurnRunner
  import opened RunKernel
  import opened RunBounds

  datatype RunResult = RunResult(
    stopReason: string, messages: seq<Message>, turnsCount: nat,
    requested: nat, executed: nat, denied: nat,
    toolResults: seq<ToolResult>, events: seq<Event<EventBody>>)

  function AllResults(turns: seq<TurnRecord>): seq<ToolResult> {
    if turns == [] then [] else AllResults(turns[..|turns| - 1]) + turns[|turns| - 1].result.results
  }

  /** What a caller gets of a run that has ended in `end`; None where it raises. */
  ghost predicate Reports(end: Status, events: seq<Event<EventBody>>, result: Option<RunResult>) {
    match end
    case Stopped(s, reason) =>
      result == Some(RunResult(reason, s.messages, |s.turns|, s.requested, s.executed, s.denied, AllResults(s.turns), events))
    case _ => result == None
  }

  lemma JoinLogs(
    start: LogState<Key, EventBody>, a: seq<Write>, b: seq<Write>,
    middle: (LogState<Key, EventBody>, seq<Event<EventBody>>), end: (LogState<Key, EventBody>, seq<Event<EventBody>>))
    requires middle == AppendAll(start, a) && end == AppendAll(middle.0, b)
    ensures (end.0, middle.1 + end.1) == AppendAll(start, a + b)
  {
    AppendAllConcat(start, a, b);
  }

  /** The variables of a run, and `s`, what they amount to. */
  class RunInProgress {
    const setup: RunSetup
    const host: HostToolExecutor
    const list: SignatureList
    const token: CancellationToken
    const log: InMemoryEventLog<Key, EventBody>
    ghost const start: LogState<Key, EventBody>
    var messages: seq<Message>
    var turnsCount: nat
    var toolResults: seq<ToolResult>
    var events: seq<Event<EventBody>>
    var requested: nat
    var executed: nat
    var denied: nat
    var messageIdsUsed: nat
    ghost var s: RunState

    constructor (setup: RunSetup, messages: seq<Message>, host: HostToolExecutor, token: CancellationToken, log: InMemoryEventLog<Key, EventBody>)
      requires host.behaviour == setup.env.guards.behaviour && host.calls == []
      requires token.answers == setup.env.cancel && token.polls == 0
      ensures Valid() && s == Initial(messages)
      ensures this.setup == setup && this.host == host && this.token == token && this.log == log && start == log.State()
      ensures fresh(list)
    {
      this.setup, this.host, this.token, this.log := setup, host, token, log;
      var signatures := new SignatureList();
      list := signatures;
      start := log.State();
      this.messages, turnsCount, toolResults, events := messages, 0, [], [];
      requested, executed, denied, messageIdsUsed := 0, 0, 0, 0;
      s := Initial(messages);
    }

    ghost predicate Wired()
      reads this, host, token
    {
      host.behaviour == setup.env.guards.behaviour && token.answers == setup.env.cancel
    }

    /** The run's own variables hold what `s` says. */
    ghost predicate Counted()
      reads this
    {
      && messages == s.messages && turnsCount == |s.turns| && toolResults == AllResults(s.turns)
      && requested == s.requested && executed == s.executed && denied == s.denied
      && messageIdsUsed == s.messageIdsUsed
    }

    /** The shared objects are in the state that `guard`, `polls` and `writes` describe. */
    ghost predicate Reached(guard: GuardState, polls: nat, writes: seq<Write>)
      reads this, host, list, token, log
    {
      && host.calls == guard.calls && list.signatures == guard.signatures && token.polls == polls
      && (log.State(), events) == AppendAll(start, writes)
    }

    ghost predicate Valid()
      reads this, host, list, token, log
    {
      Wired() && Counted() && Reached(s.guard, s.polls, s.writes)
    }

    method CheckLimits() returns (reached: Option<string>)
      requires Counted()
      ensures reached == LimitReached(setup, s)
    {
      if setup.maxTurns.Some? && turnsCount >= setup.maxTurns.value { return Some("max_turns"); }
      if setup.env.guards.maxToolCalls.Some? && requested >= setup.env.guards.maxToolCalls.value { return Some("max_tool_calls"); }
      if setup.timeoutMs.Some? && setup.elapsedMs(turnsCount) >= setup.timeoutMs.value { return Some("max_wall_clock"); }
      return None;
    }

    /** Builds the guards and the turn kernel, and runs the turn; `g` is what the guards start from. */
    method RunGuarded(llm: LlmTurn, t: TurnInfo, collector: EventCollector, ghost g: GuardState)
      returns (result: Option<TurnResult>, ghost out: TurnOut)
      requires Wired() && collector.Valid() && collector.log == log && collector.written == []
      requires g == GuardState(host.calls, requested, list.signatures)
      modifies host, list, token, collector, log
      ensures Wired() && collector.Valid()
      ensures host.calls == out.guard.calls && list.signatures == out.guard.signatures && token.polls == out.polls
      ensures out == RunTurn(setup.env, t, llm, old(token.polls), g)
      ensures out.result == result && out.writes == collector.written
    {
      var guard := new RepeatedToolCallGuard(setup.env.guards, host, list, requested);
      var kernel := new TurnKernelObject(setup.env, guard, token);
      result := kernel.RunTurnOn(t, llm, collector);
      out := TurnOut(guard.State(), token.polls, collector.written, result);
    }

    /** Runs the turn and keeps its events; `before` is what the run has written so far. */
    method RunTheTurn(llm: LlmTurn, t: TurnInfo, ghost g: GuardState, ghost before: seq<Write>)
      returns (result: Option<TurnResult>, ghost out: TurnOut)
      requires Wired() && g == GuardState(host.calls, requested, list.signatures)
      requires (log.State(), events) == AppendAll(start, before)
      modifies host, list, token, log, this`events
      ensures Wired() && Reached(out.guard, out.polls, before + out.writes)
      ensures out == RunCall(setup.env, llm, TurnCall(t, old(token.polls), g)) && out.result == result
    {
      CallIsATurn(setup.env, llm, t, token.polls, g);
      var collector := new EventCollector(log);
      result, out := RunGuarded(llm, t, collector, g);
      JoinLogs(start, before, collector.written, (collector.start, events), (log.State(), collector.events));
      events := events + collector.events;
    }

    /** Takes the turn's result into the run's variables. */
    method Record(result: TurnResult, ghost out: TurnOut)
      requires out.result == Some(result) && Wired() && Counted() && Reached(out.guard, out.polls, s.writes + out.writes)
      modifies this`turnsCount, this`toolResults, this`requested, this`executed, this`denied, this`s
      ensures Valid() && s == Recorded(setup, Polled(old(s)), out, result)
    {
      var record := TurnRecord(NextTurn(setup, s), s.messages, result, out.writes);
      FrontOfSnoc(s.turns, record);
      turnsCount := turnsCount + 1;
      toolResults := toolResults + result.results;
      requested, executed, denied := requested + result.requested, executed + result.executed, denied + result.denied;
      s := Recorded(setup, Polled(s), out, result);
    }

    /** Extends the transcript; false where the messages cannot be built. */
    method ExtendTranscript(turnId: string, result: TurnResult) returns (built: bool)
      requires Valid()
      modifies this`messages, this`messageIdsUsed, this`s
      ensures Valid()
      ensures var ms := TurnMessages(turnId, setup.messageIds(old(s).messageIdsUsed), result.content, result.results,
                                     setup.messageIds, old(s).messageIdsUsed + 1);
              built == ms.Some? && s == if built then Extended(old(s), ms.value) else old(s)
    {
      var ms := BuildMessagesAfterTurn(
        turnId, setup.messageIds(messageIdsUsed), result.content, result.results, setup.messageIds, messageIdsUsed + 1);
      built := ms.Some?;
      if built {
        Extend(ms.value);
      }
    }

    method Extend(ms: seq<Message>)
      requires Valid()
      modifies this`messages, this`messageIdsUsed, this`s
      ensures Valid() && s == Extended(old(s), ms)
    {
      messages, messageIdsUsed, s := messages + ms, messageIdsUsed + |ms|, Extended(s, ms);
    }

    method Settle(r: TurnResult) returns (reason: Option<string>)
      ensures StatusOf(s, reason, false) == Concluded(s, r)
    {
      var repeated := FindsRepeatDenial(r.results);
      if repeated {
        reason := Some("repeated_tool_call");
      } else if r.stopReason == "cancelled" || r.paused || r.requested == 0 {
        reason := Some(r.stopReason);
      } else {
        reason := None;
      }
    }

    method ConcludeResult(turnId: string, r: TurnResult, ghost out: TurnOut, ghost p: RunState)
      returns (reason: Option<string>, failed: bool)
      requires out.result == Some(r) && p == Polled(s)
      requires Wired() && Counted() && Reached(out.guard, out.polls, s.writes + out.writes)
      modifies this`turnsCount, this`toolResults, this`requested, this`executed, this`denied, this`messages, this`messageIdsUsed, this`s
      ensures Valid()
      ensures var ms := TurnMessages(turnId, setup.messageIds(p.messageIdsUsed), r.content, r.results, setup.messageIds, p.messageIdsUsed + 1);
              StatusOf(s, reason, failed) == AfterMessages(setup, p, out, ms)
    {
      Record(r, out);
      var built := ExtendTranscript(turnId, r);
      if !built { return None, true; }
      reason := Settle(r);
      failed := false;
    }

    /** From the turn's result to the end of the pass. */
    method Conclude(turnId: string, result: Option<TurnResult>, ghost out: TurnOut, ghost p: RunState)
      returns (reason: Option<string>, failed: bool)
      requires out.result == result && p == Polled(s) && turnId == setup.turnIds(|p.turns|)
      requires Wired() && Counted() && Reached(out.guard, out.polls, s.writes + out.writes)
      modifies this`turnsCount, this`toolResults, this`requested, this`executed, this`denied, this`messages, this`messageIdsUsed, this`s
      ensures Valid()
      ensures StatusOf(s, reason, failed) == AfterTurn(setup, p, out)
    {
      if result.None? {
        s := Broken(p, out);
        return None, true;
      }
      MessagesAreTheTurns(setup, p, out, result.value, turnId, setup.messageIds(p.messageIdsUsed), p.messageIdsUsed + 1);
      reason, failed := ConcludeResult(turnId, result.value, out, p);
    }

    /** A pass that comes to a turn; `due` is the turn the model makes of it. */
    method TakeTurn(llm: LlmTurn, ghost due: TurnOut) returns (reason: Option<string>, failed: bool)
      requires Wired() && Counted() && Reached(s.guard, s.polls + 1, s.writes)
      requires due == TurnFor(setup, s, llm)
      modifies this, host, list, token, log
      ensures Valid()
      ensures StatusOf(s, reason, failed) == AfterTurn(setup, Polled(old(s)), due)
    {
      var turnId := setup.turnIds(turnsCount);
      var t := TurnInfo(setup.runId, turnId, setup.turnOffset + turnsCount + 1);
      TurnForIsACall(setup, s, llm, TurnCall(t, s.polls + 1, TurnGuards(s)));
      var result;
      ghost var out;
      result, out := RunTheTurn(llm, t, TurnGuards(s), s.writes);
      reason, failed := Conclude(turnId, result, out, Polled(s));
    }

    /** One pass of the loop. */
    method Step(llm: LlmTurn, ghost due: TurnOut) returns (reason: Option<string>, failed: bool)
      requires Valid() && due == TurnFor(setup, s, llm)
      modifies this, host, list, token, log
      ensures Valid()
      ensures StatusOf(s, reason, failed) == Pass(setup, old(s), due)
    {
      var cancelled := token.IsCancelled();
      if cancelled {
        s := Polled(s);
        return Some("cancelled"), false;
      }
      var reached := CheckLimits();
      if reached.Some? {
        s := Polled(s);
        return reached, false;
      }
      reason, failed := TakeTurn(llm, due);
    }

    /** The loop, against a model that does `script` and then raises. */
    method Loop(script: seq<LlmTurn>) returns (reason: Option<string>, failed: bool)
      requires Valid()
      modifies this, host, list, token, log
      ensures Valid()
      ensures StatusOf(s, reason, failed) == RunFrom(setup, old(s), script)
    {
      reason, failed := None, false;
      var i := 0;
      assert script[0..] == script;
      while i < |script| && reason.None? && !failed
        invariant 0 <= i <= |script| && Valid()
        invariant RunFrom(setup, old(s), script)
                  == if reason.None? && !failed then RunFrom(setup, s, script[i..]) else StatusOf(s, reason, failed)
        decreases |script| - i
      {
        DropDrop(script, i, 1);
        ghost var due := TurnFor(setup, s, script[i]);
        ghost var before := s;
        reason, failed := Step(script[i], due);
        OnePassMore(setup, before, script[i..], due, s, reason, failed);
        i := i + 1;
      }
      if reason.None? && !failed {
        ghost var due := TurnFor(setup, s, EXHAUSTED);
        ExhaustedScript(setup, s, due);
        reason, failed := Step(EXHAUSTED, due);
      }
    }
  }

  lemma FirstOfScript(setup: RunSetup, s: RunState, script: seq<LlmTurn>, due: TurnOut)
    requires script != [] && due == TurnFor(setup, s, script[0])
    ensures RunFrom(setup, s, script) ==
            match Pass(setup, s, due) { case Running(next) => RunFrom(setup, next, script[1..]) case ended => ended }
  {
    StepIsAPass(setup, s, script[0], due);
  }

  lemma ExhaustedScript(setup: RunSetup, s: RunState, due: TurnOut)
    requires due == TurnFor(setup, s, EXHAUSTED)
    ensures RunFrom(setup, s, []) == Pass(setup, s, due)
  {
    StepIsAPass(setup, s, EXHAUSTED, due);
  }

  lemma OnePassMore(
    setup: RunSetup, s: RunState, script: seq<LlmTurn>, due: TurnOut, next: RunState, reason: Option<string>, failed: bool)
    requires script != [] && due == TurnFor(setup, s, script[0]) && StatusOf(next, reason, failed) == Pass(setup, s, due)
    ensures RunFrom(setup, s, script)
            == if reason.None? && !failed then RunFrom(setup, next, script[1..]) else StatusOf(next, reason, failed)
  {
    FirstOfScript(setup, s, script, due);
  }

  /** What a pass that leaves `s` says of the run. */
  function StatusOf(s: RunState, reason: Option<string>, failed: bool): Status {
    if failed then Failed(s) else if reason.Some? then Stopped(s, reason.value) else Running(s)
  }

  method FindsRepeatDenial(results: seq<ToolResult>) returns (found: bool)
    ensures found == HasRepeatDenial(results)
  {
    found := false;
    for i := 0 to |results|
      invariant found == exists k :: 0 <= k < i && results[k].error == Some(RepeatedToolCall)
    {
      if results[i].error == Some(RepeatedToolCall) { found := true; }
    }
  }

  /** `RunKernel.run`: the run the specification describes, its events on the log and in the result. */
  method RunKernelOn(
    setup: RunSetup, messages: seq<Message>, host: HostToolExecutor, token: CancellationToken,
    log: InMemoryEventLog<Key, EventBody>, script: seq<LlmTurn>)
    returns (result: Option<RunResult>)
    requires host.behaviour == setup.env.guards.behaviour && host.calls == []
    requires token.answers == setup.env.cancel && token.polls == 0
    modifies host, token, log
    ensures var end := Run(setup, messages, script);
            && host.calls == end.state.guard.calls
            && log.State() == AppendAll(old(log.State()), end.state.writes).0
            && Reports(end, AppendAll(old(log.State()), end.state.writes).1, result)
  {
    var run := new RunInProgress(setup, messages, host, token, log);
    var reason, failed := run.Loop(script);
    RunsEnd(setup, Initial(messages), script);
    result := None;
    if reason.Some? && !failed {
      result := Some(RunResult(
        reason.value, run.messages, run.turnsCount, run.requested, run.executed, run.denied, run.toolResults, run.events));
    }
  }
}
