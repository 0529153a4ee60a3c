/** Whole-run bounds: on calls that reach the executor, on turns, and on how far a model is listened to. */
module RunBounds {
  import opened Options
  import opened SeqFacts
  import opened ToolGuards
  import opened Transcript
  import opened TurnKernel
  import opened TurnFacts
  import opened RunKernel

  // ---------- Executor calls ----------

  ghost predicate CallsWithinCap(cfg: GuardConfig, calls: seq<ToolRequest>) {
    cfg.maxToolCalls.Some? ==> |calls| <= cfg.maxToolCalls.value
  }

  /** A guarded signature has been called less often than its threshold, or never. */
  ghost predicate RepeatsWithinThreshold(cfg: GuardConfig, calls: seq<ToolRequest>, s: Signature) {
    RepeatThreshold(s.name, cfg.policies, cfg.defaultThreshold).Some? ==>
      var threshold := RepeatThreshold(s.name, cfg.policies, cfg.defaultThreshold).value;
      CallsWith(cfg.digest, calls, s) == 0 || CallsWith(cfg.digest, calls, s) < threshold
  }

  ghost predicate CallsInBounds(setup: RunSetup, s: RunState) {
    && CallsWithinCap(setup.env.guards, s.guard.calls)
    && RepeatsBounded(setup.env.guards, s.guard)
    && |s.guard.calls| <= s.executed
    && s.requested == s.executed + s.denied
  }

  lemma TurnGuardsInBounds(setup: RunSetup, s: RunState)
    requires CallsInBounds(setup, s) && LimitReached(setup, s).None?
    ensures GuardInv(setup.env.guards, TurnGuards(s))
  {
    SeenIsNoSignature(setup.env.guards, s.guard, s.requested);
  }

  lemma SeenIsNoSignature(cfg: GuardConfig, g: GuardState, seen: nat)
    ensures RepeatsBounded(cfg, g) <==> RepeatsBounded(cfg, g.(seen := seen))
  {
  }

  lemma AfterTheTurn(setup: RunSetup, s: RunState, out: TurnOut, ms: Option<seq<Message>>)
    ensures var after := AfterMessages(setup, Polled(s), out, ms).state;
            && after.guard == out.guard
            && after.requested == s.requested + (if out.result.Some? then out.result.value.requested else 0)
            && after.executed == s.executed + (if out.result.Some? then out.result.value.executed else 0)
            && after.denied == s.denied + (if out.result.Some? then out.result.value.denied else 0)
  {
  }

  lemma TurnAddsUp(env: TurnEnv, t: TurnInfo, g: GuardState, out: TurnOut)
    requires FactsOfTurn(env, t, g, out)
    ensures out.result.None? ==> out.guard == g
    ensures out.result.Some? ==>
              && |out.guard.calls| <= |g.calls| + out.result.value.executed
              && out.result.value.requested == out.result.value.executed + out.result.value.denied
    ensures GuardInv(env.guards, g) ==> GuardInv(env.guards, out.guard)
  {
  }

  lemma TurnStaysInBounds(setup: RunSetup, s: RunState, out: TurnOut, ms: Option<seq<Message>>, status: Status)
    requires CallsInBounds(setup, s) && TurnStep(setup, s, out, ms, status)
    ensures CallsInBounds(setup, status.state)
  {
    TurnGuardsInBounds(setup, s);
    AfterTheTurn(setup, s, out, ms);
    TurnAddsUp(setup.env, NextTurn(setup, s), TurnGuards(s), out);
  }

  lemma StaysInBounds(setup: RunSetup, s: RunState, status: Status)
    requires CallsInBounds(setup, s) && Steps(setup, s, status)
    ensures CallsInBounds(setup, status.state)
  {
    if out, ms :| TurnStep(setup, s, out, ms, status) { TurnStaysInBounds(setup, s, out, ms, status); }
  }

  lemma RunStaysInBounds(setup: RunSetup, messages: seq<Message>, script: seq<LlmTurn>)
    ensures CallsInBounds(setup, Run(setup, messages, script).state)
  {
    var inv := (status: Status) => CallsInBounds(setup, status.state);
    forall s, status | Steps(setup, s, status) && inv(Running(s)) ensures inv(status) {
      StaysInBounds(setup, s, status);
    }
    RunsKeep(setup, Initial(messages), script, inv);
  }

  /**
   Main result: over a whole run, whatever model and executor do, the executor is called at most
   `max_tool_calls` times, and fewer than `threshold` times with any guarded tool and input digest,
   although the cap is rebuilt every turn; and it is called at most as often as the run reports.
   */
  lemma ExecutorCallsAreBounded(setup: RunSetup, messages: seq<Message>, script: seq<LlmTurn>, s: Signature)
    ensures var end := Run(setup, messages, script).state;
            && CallsWithinCap(setup.env.guards, end.guard.calls)
            && RepeatsWithinThreshold(setup.env.guards, end.guard.calls, s)
            && |end.guard.calls| <= end.executed <= end.requested == end.executed + end.denied
  {
    RunStaysInBounds(setup, messages, script);
  }

  // ---------- Termination ----------

  /** The smaller of the limits set on turns and on tool calls. */
  function TurnBound(setup: RunSetup): Option<nat> {
    match (setup.maxTurns, setup.env.guards.maxToolCalls)
    case (None, calls) => calls
    case (Some(turns), None) => Some(turns)
    case (Some(turns), Some(calls)) => Some(if turns <= calls then turns else calls)
  }

  /** Every turn after which the run goes on has requested at least one call. */
  ghost predicate Paced(setup: RunSetup, status: Status) {
    && (status.Running? ==> |status.state.turns| <= status.state.requested)
    && (TurnBound(setup).Some? ==> |status.state.turns| <= TurnBound(setup).value)
  }

  lemma TurnIsPaced(setup: RunSetup, s: RunState, out: TurnOut, ms: Option<seq<Message>>, status: Status)
    requires Paced(setup, Running(s)) && TurnStep(setup, s, out, ms, status)
    ensures Paced(setup, status)
  {
    assert TurnBound(setup).Some? ==> |s.turns| < TurnBound(setup).value;
    AfterTurnRecords(setup, Polled(s), out, ms);
  }

  lemma StaysPaced(setup: RunSetup, s: RunState, status: Status)
    requires Paced(setup, Running(s)) && Steps(setup, s, status)
    ensures Paced(setup, status)
  {
    if out, ms :| TurnStep(setup, s, out, ms, status) { TurnIsPaced(setup, s, out, ms, status); }
  }

  lemma RunIsPaced(setup: RunSetup, messages: seq<Message>, script: seq<LlmTurn>)
    ensures Paced(setup, Run(setup, messages, script))
  {
    var inv := (status: Status) => Paced(setup, status);
    forall s, status | Steps(setup, s, status) && inv(Running(s)) ensures inv(status) {
      StaysPaced(setup, s, status);
    }
    RunsKeep(setup, Initial(messages), script, inv);
  }

  /** With as many turns behind it as the bound allows, the run stops without asking the model. */
  lemma StopsAtTheBound(setup: RunSetup, s: RunState, llm: LlmTurn, other: LlmTurn)
    requires Paced(setup, Running(s)) && TurnBound(setup).Some? && |s.turns| >= TurnBound(setup).value
    ensures RunStep(setup, s, llm).Stopped? && RunStep(setup, s, llm) == RunStep(setup, s, other)
  {
    assert LimitReached(setup, s).Some?;
  }

  lemma GoesOnByOneTurn(setup: RunSetup, s: RunState, status: Status)
    requires Steps(setup, s, status) && status.Running?
    ensures |status.state.turns| == |s.turns| + 1
  {
    if out, ms :| TurnStep(setup, s, out, ms, status) { AfterTurnRecords(setup, Polled(s), out, ms); }
  }

  lemma StepStaysPaced(setup: RunSetup, s: RunState, llm: LlmTurn)
    requires Paced(setup, Running(s))
    ensures Paced(setup, RunStep(setup, s, llm))
  {
    StepSteps(setup, s, llm);
    StaysPaced(setup, s, RunStep(setup, s, llm));
  }

  lemma {:induction false} BoundedFrom(setup: RunSetup, s: RunState, script: seq<LlmTurn>, more: seq<LlmTurn>)
    requires Paced(setup, Running(s)) && TurnBound(setup).Some? && |s.turns| + |script| >= TurnBound(setup).value
    ensures RunFrom(setup, s, script + more) == RunFrom(setup, s, script)
    decreases |script|
  {
    if script == [] {
      ConcatEmpty(more);
      StopsAtTheBound(setup, s, EXHAUSTED, if more == [] then EXHAUSTED else more[0]);
    } else {
      assert (script + more)[0] == script[0] && (script + more)[1..] == script[1..] + more;
      var status := RunStep(setup, s, script[0]);
      if status.Running? {
        StepSteps(setup, s, script[0]);
        GoesOnByOneTurn(setup, s, status);
        StepStaysPaced(setup, s, script[0]);
        BoundedFrom(setup, status.state, script[1..], more);
      }
    }
  }

  /**
   Main result: with a limit on turns or on tool calls every run ends within that many turns: nothing
   the model would do later changes the outcome.
   */
  lemma RunsTerminate(setup: RunSetup, messages: seq<Message>, script: seq<LlmTurn>, more: seq<LlmTurn>)
    requires TurnBound(setup).Some? && |script| >= TurnBound(setup).value
    ensures Run(setup, messages, script + more) == Run(setup, messages, script)
    ensures |Run(setup, messages, script).state.turns| <= TurnBound(setup).value
  {
    BoundedFrom(setup, Initial(messages), script, more);
    RunIsPaced(setup, messages, script);
  }

  lemma ExhaustedTurnEnds(env: TurnEnv, t: TurnInfo, poll: nat, g: GuardState)
    ensures RunTurn(env, t, EXHAUSTED, poll, g).result in {None, Some(CANCELLED_TURN)}
  {
  }

  lemma ExhaustedModelRaises(setup: RunSetup, s: RunState)
    ensures !RunStep(setup, s, EXHAUSTED).Running?
  {
    ExhaustedTurnEnds(setup.env, NextTurn(setup, s), s.polls + 1, TurnGuards(s));
  }

  /** A run ends: it returns or raises. */
  lemma {:induction false} RunsEnd(setup: RunSetup, s: RunState, script: seq<LlmTurn>)
    ensures !RunFrom(setup, s, script).Running?
    decreases |script|
  {
    if script == [] {
      ExhaustedModelRaises(setup, s);
    } else {
      var status := RunStep(setup, s, script[0]);
      if status.Running? { RunsEnd(setup, status.state, script[1..]); }
    }
  }

  // ---------- Turn numbers ----------

  predicate NumberedTurn(setup: RunSetup, s: RunState, k: nat)
    requires k < |s.turns|
  {
    s.turns[k].info == TurnInfo(setup.runId, setup.turnIds(k), setup.turnOffset + k + 1)
  }

  /** Turn k + 1 of the run has the generator's k-th id and the index that follows the offset. */
  ghost predicate Numbered(setup: RunSetup, s: RunState) {
    forall k: nat :: k < |s.turns| ==> NumberedTurn(setup, s, k)
  }

  lemma OneMoreNumbered(setup: RunSetup, s: RunState, next: RunState, record: TurnRecord)
    requires Numbered(setup, s) && next.turns == s.turns + [record] && record.info == NextTurn(setup, s)
    ensures Numbered(setup, next)
  {
    forall k: nat | k < |next.turns| ensures NumberedTurn(setup, next, k) {
      if k < |s.turns| { assert NumberedTurn(setup, s, k); }
    }
  }

  lemma SameTurnsNumbered(setup: RunSetup, s: RunState, next: RunState)
    requires Numbered(setup, s) && next.turns == s.turns
    ensures Numbered(setup, next)
  {
    forall k: nat | k < |next.turns| ensures NumberedTurn(setup, next, k) {
      assert NumberedTurn(setup, s, k);
    }
  }

  lemma TurnStaysNumbered(setup: RunSetup, s: RunState, out: TurnOut, ms: Option<seq<Message>>, status: Status)
    requires Numbered(setup, s) && TurnStep(setup, s, out, ms, status)
    ensures Numbered(setup, status.state)
  {
    AfterTurnRecords(setup, Polled(s), out, ms);
    if out.result.None? {
      SameTurnsNumbered(setup, s, status.state);
    } else {
      OneMoreNumbered(setup, s, status.state, TurnRecord(NextTurn(setup, s), s.messages, out.result.value, out.writes));
    }
  }

  lemma StaysNumbered(setup: RunSetup, s: RunState, status: Status)
    requires Numbered(setup, s) && Steps(setup, s, status)
    ensures Numbered(setup, status.state)
  {
    if out, ms :| TurnStep(setup, s, out, ms, status) {
      TurnStaysNumbered(setup, s, out, ms, status);
    } else {
      SameTurnsNumbered(setup, s, status.state);
    }
  }

  lemma RunIsNumbered(setup: RunSetup, messages: seq<Message>, script: seq<LlmTurn>)
    ensures Numbered(setup, Run(setup, messages, script).state)
  {
    var inv := (status: Status) => Numbered(setup, status.state);
    forall s, status | Steps(setup, s, status) && inv(Running(s)) ensures inv(status) {
      StaysNumbered(setup, s, status);
    }
    RunsKeep(setup, Initial(messages), script, inv);
  }

  // ---------- The run's totals ----------

  function RequestedIn(turns: seq<TurnRecord>): nat {
    if turns == [] then 0 else RequestedIn(turns[..|turns| - 1]) + turns[|turns| - 1].result.requested
  }

  function ExecutedIn(turns: seq<TurnRecord>): nat {
    if turns == [] then 0 else ExecutedIn(turns[..|turns| - 1]) + turns[|turns| - 1].result.executed
  }

  /** The run's counts are the sums of its turns' counts. */
  ghost predicate Tallied(s: RunState) {
    s.requested == RequestedIn(s.turns) && s.executed == ExecutedIn(s.turns)
  }

  lemma TurnStaysTallied(setup: RunSetup, s: RunState, out: TurnOut, ms: Option<seq<Message>>)
    requires Tallied(s)
    ensures Tallied(AfterMessages(setup, s, out, ms).state)
  {
    AfterTurnRecords(setup, s, out, ms);
    if out.result.Some? {
      FrontOfSnoc(s.turns, TurnRecord(NextTurn(setup, s), s.messages, out.result.value, out.writes));
    }
  }

  lemma StaysTallied(setup: RunSetup, s: RunState, status: Status)
    requires Tallied(s) && Steps(setup, s, status)
    ensures Tallied(status.state)
  {
    if out, ms :| TurnStep(setup, s, out, ms, status) { TurnStaysTallied(setup, Polled(s), out, ms); }
  }

  /** The counts a run reports are the sums over its turns. */
  lemma RunIsTallied(setup: RunSetup, messages: seq<Message>, script: seq<LlmTurn>)
    ensures Tallied(Run(setup, messages, script).state)
  {
    var inv := (status: Status) => Tallied(status.state);
    forall s, status | Steps(setup, s, status) && inv(Running(s)) ensures inv(status) {
      StaysTallied(setup, s, status);
    }
    RunsKeep(setup, Initial(messages), script, inv);
  }
}
