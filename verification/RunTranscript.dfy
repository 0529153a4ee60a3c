/** What every model request of a run looks like: all calls answered, in order, and nothing of the past changed. */
module RunTranscript {
  import opened Options
  import opened ToolGuards
  import opened Transcript
  import opened TurnKernel
  import opened RunKernel

  /** The k-th request is well paired and a beginning of the transcript as it stands. */
  ghost predicate GoodRequest(s: RunState, k: nat)
    requires k < |s.requests|
  {
    WellPaired(s.requests[k]) && s.requests[k] <= s.messages
  }

  ghost predicate GoodTranscript(initial: seq<Message>, s: RunState) {
    && WellPaired(s.messages)
    && initial <= s.messages
    && forall k: nat :: k < |s.requests| ==> GoodRequest(s, k)
  }

  lemma SameRequestsGood(initial: seq<Message>, s: RunState, next: RunState)
    requires GoodTranscript(initial, s) && next.requests == s.requests && next.messages == s.messages
    ensures GoodTranscript(initial, next)
  {
    forall k: nat | k < |next.requests| ensures GoodRequest(next, k) {
      assert GoodRequest(s, k);
    }
  }

  lemma OneMoreGood(initial: seq<Message>, s: RunState, next: RunState, ms: seq<Message>)
    requires GoodTranscript(initial, s) && WellPaired(ms)
    requires next.requests == s.requests + [s.messages] && next.messages == s.messages + ms
    ensures GoodTranscript(initial, next)
  {
    PairedConcat(s.messages, ms);
    forall k: nat | k < |next.requests| ensures GoodRequest(next, k) {
      if k < |s.requests| { assert GoodRequest(s, k); }
    }
  }

  lemma TranscriptAfter(setup: RunSetup, s: RunState, out: TurnOut, ms: Option<seq<Message>>)
    ensures var next := AfterMessages(setup, s, out, ms).state;
            && next.messages == s.messages + (if out.result.Some? && ms.Some? then ms.value else [])
            && next.requests == s.requests + [s.messages]
  {
  }

  lemma TurnKeepsTranscript(setup: RunSetup, initial: seq<Message>, s: RunState, out: TurnOut, ms: Option<seq<Message>>, status: Status)
    requires IdFaithful(setup.env.guards.behaviour) && GoodTranscript(initial, s) && TurnStep(setup, s, out, ms, status)
    ensures GoodTranscript(initial, status.state)
  {
    TranscriptAfter(setup, Polled(s), out, ms);
    OneMoreGood(initial, s, status.state, if out.result.Some? && ms.Some? then ms.value else []);
  }

  lemma KeepsTranscript(setup: RunSetup, initial: seq<Message>, s: RunState, status: Status)
    requires IdFaithful(setup.env.guards.behaviour) && GoodTranscript(initial, s) && Steps(setup, s, status)
    ensures GoodTranscript(initial, status.state)
  {
    if out, ms :| TurnStep(setup, s, out, ms, status) {
      TurnKeepsTranscript(setup, initial, s, out, ms, status);
    } else {
      SameRequestsGood(initial, s, status.state);
    }
  }

  lemma RunKeepsTranscript(setup: RunSetup, messages: seq<Message>, script: seq<LlmTurn>)
    requires IdFaithful(setup.env.guards.behaviour) && WellPaired(messages)
    ensures GoodTranscript(messages, Run(setup, messages, script).state)
  {
    var inv := (status: Status) => GoodTranscript(messages, status.state);
    forall s, status | Steps(setup, s, status) && inv(Running(s)) ensures inv(status) {
      KeepsTranscript(setup, messages, s, status);
    }
    RunsKeep(setup, Initial(messages), script, inv);
  }

  /**
   Main result: from a well-paired transcript and with an executor that names its calls, every message
   list the model is sent, also in a turn that raises, has each tool call answered once, in order, right
   after it, and so has its conversion to OpenAI messages, whatever the model does. (Had a turn used one
   call id twice, building its messages would have raised.)
   */
  lemma RequestsOfARunArePaired(setup: RunSetup, messages: seq<Message>, script: seq<LlmTurn>, systemPrompt: string, k: nat)
    requires IdFaithful(setup.env.guards.behaviour) && WellPaired(messages)
    requires k < |Run(setup, messages, script).state.requests|
    ensures var end := Run(setup, messages, script).state;
            && WellPaired(end.requests[k])
            && OaiPaired(OpenAIMessages(systemPrompt, end.requests[k]))
            && end.requests[k] <= end.messages
  {
    var end := Run(setup, messages, script).state;
    RunKeepsTranscript(setup, messages, script);
    assert GoodRequest(end, k);
    RequestsArePaired(systemPrompt, end.requests[k]);
  }

  // ---------- Requests and turns ----------

  /** One request a turn, and one more if the run has ended in a turn that raised. */
  ghost predicate RequestPerTurn(status: Status) {
    var s := status.state;
    && (|s.requests| == |s.turns| || (status.Failed? && |s.requests| == |s.turns| + 1 && s.requests[|s.turns|] == s.messages))
    && forall k :: 0 <= k < |s.turns| ==> s.requests[k] == s.turns[k].sent
  }

  lemma TurnKeepsRequests(setup: RunSetup, s: RunState, out: TurnOut, ms: Option<seq<Message>>)
    requires RequestPerTurn(Running(s))
    ensures RequestPerTurn(AfterMessages(setup, s, out, ms))
  {
    AfterTurnRecords(setup, s, out, ms);
    TranscriptAfter(setup, s, out, ms);
    FailsWithoutMessages(setup, s, out, ms);
  }

  lemma KeepsRequests(setup: RunSetup, s: RunState, status: Status)
    requires RequestPerTurn(Running(s)) && Steps(setup, s, status)
    ensures RequestPerTurn(status)
  {
    if out, ms :| TurnStep(setup, s, out, ms, status) { TurnKeepsRequests(setup, Polled(s), out, ms); }
  }

  /** The requests of a run are those of its turns, in order, and that of a last turn that raised. */
  lemma RunSendsOneRequestPerTurn(setup: RunSetup, messages: seq<Message>, script: seq<LlmTurn>)
    ensures RequestPerTurn(Run(setup, messages, script))
  {
    var inv := (status: Status) => RequestPerTurn(status);
    forall s, status | Steps(setup, s, status) && inv(Running(s)) ensures inv(status) {
      KeepsRequests(setup, s, status);
    }
    RunsKeep(setup, Initial(messages), script, inv);
  }

  /** The transcript a run ends with extends the one it began with and is well paired. */
  lemma TranscriptGrowsPaired(setup: RunSetup, messages: seq<Message>, script: seq<LlmTurn>)
    requires IdFaithful(setup.env.guards.behaviour) && WellPaired(messages)
    ensures var end := Run(setup, messages, script).state;
            messages <= end.messages && WellPaired(end.messages)
  {
    RunKeepsTranscript(setup, messages, script);
  }

  lemma StepExtends(setup: RunSetup, initial: seq<Message>, s: RunState, status: Status)
    requires initial <= s.messages && Steps(setup, s, status)
    ensures initial <= status.state.messages
  {
    if out, ms :| TurnStep(setup, s, out, ms, status) { TranscriptAfter(setup, Polled(s), out, ms); }
  }

  /** A run only ever adds to its transcript, whatever model and executor do. */
  lemma RunExtends(setup: RunSetup, messages: seq<Message>, script: seq<LlmTurn>)
    ensures messages <= Run(setup, messages, script).state.messages
  {
    var inv := (status: Status) => messages <= status.state.messages;
    forall s, status | Steps(setup, s, status) && inv(Running(s)) ensures inv(status) {
      StepExtends(setup, messages, s, status);
    }
    RunsKeep(setup, Initial(messages), script, inv);
  }

  // ---------- The transcript is made of the turns ----------

  /** The messages after a turn are those it was sent and those built from it. */
  ghost predicate FollowsAt(setup: RunSetup, record: TurnRecord, next: nat, after: seq<Message>) {
    var ms := TurnMessages(record.info.turnId, setup.messageIds(next), record.result.content, record.result.results, setup.messageIds, next + 1);
    ms.Some? && after == record.sent + ms.value
  }

  ghost predicate Follows(setup: RunSetup, record: TurnRecord, after: seq<Message>) {
    exists next: nat :: FollowsAt(setup, record, next, after)
  }

  ghost predicate SentFollows(setup: RunSetup, turns: seq<TurnRecord>, k: nat)
    requires k + 1 < |turns|
  {
    Follows(setup, turns[k], turns[k + 1].sent)
  }

  ghost predicate MadeOfTurns(setup: RunSetup, initial: seq<Message>, status: Status) {
    var s := status.state;
    && (s.turns == [] ==> s.messages == initial)
    && (s.turns != [] ==> s.turns[0].sent == initial)
    && (forall k: nat :: k + 1 < |s.turns| ==> SentFollows(setup, s.turns, k))
    && (s.turns != [] && !status.Failed? ==> Follows(setup, s.turns[|s.turns| - 1], s.messages))
  }

  lemma OneMoreSent(setup: RunSetup, initial: seq<Message>, s: RunState, record: TurnRecord)
    requires MadeOfTurns(setup, initial, Running(s)) && record.sent == s.messages
    ensures (s.turns + [record])[0].sent == initial
    ensures forall k: nat :: k + 1 < |s.turns + [record]| ==> SentFollows(setup, s.turns + [record], k)
  {
    var turns := s.turns + [record];
    forall k: nat | k + 1 < |turns| ensures SentFollows(setup, turns, k) {
      if k + 1 < |s.turns| { assert SentFollows(setup, s.turns, k); }
    }
  }

  lemma BuiltFollows(setup: RunSetup, s: RunState, out: TurnOut, record: TurnRecord, ms: seq<Message>)
    requires out.result == Some(record.result) && record.info == NextTurn(setup, s) && record.sent == s.messages
    requires MessagesOf(setup, s, out) == Some(ms)
    ensures Follows(setup, record, s.messages + ms)
  {
    var turnId, assistantId := setup.turnIds(|s.turns|), setup.messageIds(s.messageIdsUsed);
    MessagesAreTheTurns(setup, s, out, record.result, turnId, assistantId, s.messageIdsUsed + 1);
    assert FollowsAt(setup, record, s.messageIdsUsed, s.messages + ms);
  }

  lemma AfterIsMadeOfTurns(setup: RunSetup, initial: seq<Message>, s: RunState, out: TurnOut, ms: Option<seq<Message>>)
    requires MadeOfTurns(setup, initial, Running(s)) && ms == MessagesOf(setup, s, out)
    ensures MadeOfTurns(setup, initial, AfterMessages(setup, s, out, ms))
  {
    AfterTurnRecords(setup, s, out, ms);
    TranscriptAfter(setup, s, out, ms);
    FailsWithoutMessages(setup, s, out, ms);
    if out.result.Some? {
      var record := TurnRecord(NextTurn(setup, s), s.messages, out.result.value, out.writes);
      OneMoreSent(setup, initial, s, record);
      if ms.Some? { BuiltFollows(setup, s, out, record, ms.value); }
    }
  }

  lemma PolledIsMadeOfTurns(setup: RunSetup, initial: seq<Message>, s: RunState)
    requires MadeOfTurns(setup, initial, Running(s))
    ensures MadeOfTurns(setup, initial, Running(Polled(s)))
    ensures forall reason :: MadeOfTurns(setup, initial, Stopped(Polled(s), reason))
  {
    assert forall k: nat :: k + 1 < |s.turns| ==> SentFollows(setup, s.turns, k);
  }

  lemma PassIsMadeOfTurns(setup: RunSetup, initial: seq<Message>, s: RunState, out: TurnOut)
    requires MadeOfTurns(setup, initial, Running(s))
    ensures MadeOfTurns(setup, initial, Pass(setup, s, out))
  {
    PolledIsMadeOfTurns(setup, initial, s);
    AfterIsMadeOfTurns(setup, initial, Polled(s), out, MessagesOf(setup, Polled(s), out));
  }

  lemma StepIsMadeOfTurns(setup: RunSetup, initial: seq<Message>, s: RunState, llm: LlmTurn)
    requires MadeOfTurns(setup, initial, Running(s))
    ensures MadeOfTurns(setup, initial, RunStep(setup, s, llm))
  {
    var out := TurnFor(setup, s, llm);
    StepIsAPass(setup, s, llm, out);
    PassIsMadeOfTurns(setup, initial, s, out);
  }

  lemma {:induction false} FromIsMadeOfTurns(setup: RunSetup, initial: seq<Message>, s: RunState, script: seq<LlmTurn>)
    requires MadeOfTurns(setup, initial, Running(s))
    ensures MadeOfTurns(setup, initial, RunFrom(setup, s, script))
    decreases |script|
  {
    if script == [] {
      StepIsMadeOfTurns(setup, initial, s, EXHAUSTED);
    } else {
      StepIsMadeOfTurns(setup, initial, s, script[0]);
      var status := RunStep(setup, s, script[0]);
      if status.Running? { FromIsMadeOfTurns(setup, initial, status.state, script[1..]); }
    }
  }

  /**
   Main result: the first request of a run is its initial transcript, every later one is the request
   before it and the messages built from the turn between, and so is the final transcript.
   */
  lemma TranscriptIsMadeOfTurns(setup: RunSetup, messages: seq<Message>, script: seq<LlmTurn>)
    ensures MadeOfTurns(setup, messages, Run(setup, messages, script))
  {
    FromIsMadeOfTurns(setup, messages, Initial(messages), script);
  }
}
