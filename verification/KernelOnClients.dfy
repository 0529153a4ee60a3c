/** The turn kernel fed by the two stream clients: it never finds a finished stream without its last event. */
module KernelOnClients {
  import opened StandardEvents
  import opened ToolGuards
  import opened TurnKernel
  import A = AnthropicSession
  import O = OpenAISession
  import AP = AnthropicParser
  import OP = OpenAIParser

  lemma {:induction false} UncancelledReadsAll(cancel: nat -> bool, events: seq<StandardEvent>, poll: nat)
    requires !AnyCancel(cancel, poll, Consumed(cancel, events, poll))
    ensures Consumed(cancel, events, poll) == |events|
    decreases events
  {
    if events != [] {
      AnyCancelCons(cancel, poll, Consumed(cancel, events, poll));
      if !cancel(poll) { UncancelledReadsAll(cancel, events[1..], poll + 1); }
    }
  }

  lemma {:induction false} CountedIsFound(events: seq<StandardEvent>)
    ensures LastDone(events).Some? <==> DoneCount(events) > 0
  {
    if events != [] { CountedIsFound(events[..|events| - 1]); }
  }

  lemma {:induction false} ConsumedWithin(cancel: nat -> bool, events: seq<StandardEvent>, poll: nat)
    ensures Consumed(cancel, events, poll) <= |events|
    decreases events
  {
    if events != [] { ConsumedWithin(cancel, events[1..], poll + 1); }
  }

  lemma UncancelledStream(env: TurnEnv, llm: LlmTurn, poll: nat)
    requires !StreamCancelled(env, llm, poll)
    ensures Read(env, llm, poll) == llm.events
  {
    ConsumedWithin(env.cancel, llm.events, poll + 1);
    UncancelledReadsAll(env.cancel, llm.events, poll + 1);
  }

  lemma EndReturnsIff(env: TurnEnv, t: TurnInfo, e: Ending, g: GuardState)
    ensures EndTurn(env, t, e, g).result.Some? <==> e.cancelled || e.done.Some?
  {
  }

  /** A turn raises exactly when it is not cancelled and its stream raises or holds no TurnDone. */
  lemma TurnReturnsIff(env: TurnEnv, t: TurnInfo, llm: LlmTurn, poll: nat, g: GuardState)
    ensures RunTurn(env, t, llm, poll, g).result.Some?
            <==> StreamCancelled(env, llm, poll) || (!llm.fails && DoneCount(llm.events) > 0)
  {
    var e := EndingOf(env, t, llm, poll);
    TurnEnds(env, t, llm, poll, g, e);
    EndReturnsIff(env, t, e, g);
    if !e.cancelled {
      UncancelledStream(env, llm, poll);
      CountedIsFound(llm.events);
    }
  }

  /** Main result: on the Anthropic client a turn raises only with the stream, never for want of a TurnDone. */
  lemma AnthropicTurnRaisesIff(loads: Loads, cs: seq<AP.Chunk>, transportFails: bool, env: TurnEnv, t: TurnInfo, poll: nat, g: GuardState)
    ensures var stream := A.StreamRun(loads, cs, transportFails);
            var llm := LlmTurn(stream.events, stream.raised);
            RunTurn(env, t, llm, poll, g).result.None? <==> stream.raised && !StreamCancelled(env, llm, poll)
  {
    var stream := A.StreamRun(loads, cs, transportFails);
    A.NormalEndHasOneTurnDone(loads, cs, transportFails);
    TurnReturnsIff(env, t, LlmTurn(stream.events, stream.raised), poll, g);
  }

  /** The same on the OpenAI-compatible client. */
  lemma OpenAITurnRaisesIff(loads: Loads, cs: seq<OP.Chunk>, transportFails: bool, env: TurnEnv, t: TurnInfo, poll: nat, g: GuardState)
    ensures var stream := O.StreamRun(loads, cs, transportFails);
            var llm := LlmTurn(stream.events, stream.raised);
            RunTurn(env, t, llm, poll, g).result.None? <==> stream.raised && !StreamCancelled(env, llm, poll)
  {
    var stream := O.StreamRun(loads, cs, transportFails);
    O.NormalEndHasOneTurnDone(loads, cs, transportFails);
    TurnReturnsIff(env, t, LlmTurn(stream.events, stream.raised), poll, g);
  }
}
