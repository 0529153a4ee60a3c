/** What a run relies on of each of its turns, in one place. */
module TurnFacts {
  import opened StandardEvents
  import opened ToolGuards
  import opened Transcript
  import opened TurnKernel
  import opened TurnGrammar
  import opened TurnKeys

  predicate OfRun(xs: seq<Write>, runId: string) {
    forall k :: 0 <= k < |xs| ==> xs[k].runId == runId
  }

  lemma OfRunConcat(a: seq<Write>, b: seq<Write>, runId: string)
    requires OfRun(a, runId) && OfRun(b, runId)
    ensures OfRun(a + b, runId)
  {
  }

  lemma {:induction false} StreamOfRun(t: TurnInfo, events: seq<StandardEvent>)
    ensures OfRun(StreamWrites(t, events), t.runId)
  {
    if events != [] { StreamOfRun(t, events[..|events| - 1]); }
  }

  lemma {:induction false} InvalidOfRun(t: TurnInfo, invalid: seq<Block>)
    ensures OfRun(InvalidWrites(t, invalid), t.runId)
  {
    if invalid != [] { InvalidOfRun(t, invalid[..|invalid| - 1]); }
  }

  lemma {:induction false} ToolsOfRun(env: TurnEnv, t: TurnInfo, calls: seq<Block>, results: seq<ToolResult>)
    requires |results| >= |calls|
    ensures OfRun(ToolWrites(env, t, calls, results), t.runId)
  {
    if calls != [] {
      ToolsOfRun(env, t, calls[..|calls| - 1], results);
      OfRunConcat(ToolWrites(env, t, calls[..|calls| - 1], results),
                  CallWrites(env, t, calls[|calls| - 1], results[|calls| - 1]), t.runId);
    }
  }

  lemma OpeningOfRun(env: TurnEnv, t: TurnInfo, llm: LlmTurn, poll: nat)
    ensures OfRun(Opening(env, t, llm, poll), t.runId)
  {
    StreamOfRun(t, Read(env, llm, poll));
    OfRunConcat([StartWrite(t)], StreamWrites(t, Read(env, llm, poll)), t.runId);
  }

  lemma FinishOfRun(env: TurnEnv, t: TurnInfo, done: TurnDoneData, poll: nat, g: GuardState, before: seq<Write>)
    requires OfRun(before, t.runId)
    ensures OfRun(FinishTurn(env, t, done, poll, g, before).writes, t.runId)
  {
    var calls := ToolUses(done.content);
    var results := HandleCalls(env, calls, poll, g, false).1;
    HandleCallsAligns(env, calls, poll, g, false);
    InvalidOfRun(t, InvalidCalls(done.content));
    OfRunConcat(before, InvalidWrites(t, InvalidCalls(done.content)), t.runId);
    ToolsOfRun(env, t, calls, results);
    OfRunConcat(before + InvalidWrites(t, InvalidCalls(done.content)), ToolWrites(env, t, calls, results), t.runId);
  }

  lemma TurnOfRun(env: TurnEnv, t: TurnInfo, llm: LlmTurn, poll: nat, g: GuardState)
    ensures OfRun(RunTurn(env, t, llm, poll, g).writes, t.runId)
  {
    OpeningOfRun(env, t, llm, poll);
    if !StreamCancelled(env, llm, poll) && !llm.fails && LastDone(Read(env, llm, poll)).Some? {
      var done, polls := LastDone(Read(env, llm, poll)).value, poll + 1 + |Read(env, llm, poll)|;
      TurnIsFinished(env, t, llm, poll, g, done, polls, Opening(env, t, llm, poll));
      FinishOfRun(env, t, done, polls, g, Opening(env, t, llm, poll));
    } else if StreamCancelled(env, llm, poll) {
      OfRunConcat(Opening(env, t, llm, poll), [CompletedWrite(t, CANCELLED_TURN)], t.runId);
    }
  }

  /** A turn that returns: its counts add up, its results name their calls, its events are complete and keyed. */
  ghost predicate FactsOfResult(env: TurnEnv, t: TurnInfo, g: GuardState, out: TurnOut)
    requires out.result.Some?
  {
    var r := out.result.value;
    && CountsAddUp(r)
    && |g.calls| <= |out.guard.calls| <= |g.calls| + r.executed
    && (IdFaithful(env.guards.behaviour) ==> NameTheirCalls(ToolUses(r.content), r.results))
    && Keyed(out, t.turnId)
    && Complete(env.pauseTools, out.writes)
  }

  ghost predicate FactsOfTurn(env: TurnEnv, t: TurnInfo, g: GuardState, out: TurnOut) {
    && (GuardInv(env.guards, g) ==> GuardInv(env.guards, out.guard))
    && OfRun(out.writes, t.runId)
    && (out.result.None? ==> out.guard == g)
    && (out.result.Some? ==> FactsOfResult(env, t, g, out))
  }

  lemma TurnHasFacts(env: TurnEnv, t: TurnInfo, llm: LlmTurn, poll: nat, g: GuardState)
    ensures FactsOfTurn(env, t, g, RunTurn(env, t, llm, poll, g))
  {
    TurnAdds(env, t, llm, poll, g);
    TurnOfRun(env, t, llm, poll, g);
    if GuardInv(env.guards, g) { TurnKeepsGuards(env, t, llm, poll, g); }
    if RunTurn(env, t, llm, poll, g).result.Some? {
      TurnKeysDistinctIff(env, t, llm, poll, g);
      TurnFollowsTheGrammar(env, t, llm, poll, g);
      if IdFaithful(env.guards.behaviour) { TurnNamesItsCalls(env, t, llm, poll, g); }
    }
  }
}
