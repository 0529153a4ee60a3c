/** Why a run stops, and that it goes on only for a reason. */
module RunStops {
  import opened Options
  import opened Transcript
  import opened TurnKernel
  import opened RunKernel

  /** The limit of that name is reached, and none that is asked before it. */
  predicate AtLimit(setup: RunSetup, s: RunState, reason: string) {
    var turnsLeft := setup.maxTurns.None? || |s.turns| < setup.maxTurns.value;
    var callsLeft := setup.env.guards.maxToolCalls.None? || s.requested < setup.env.guards.maxToolCalls.value;
    || (reason == "max_turns" && !turnsLeft)
    || (reason == "max_tool_calls" && turnsLeft && !callsLeft)
    || (reason == "max_wall_clock" && turnsLeft && callsLeft
        && setup.timeoutMs.Some? && setup.elapsedMs(|s.turns|) >= setup.timeoutMs.value)
  }

  /** What a turn's result must not have for the run to go on. */
  predicate EndsTheRun(r: TurnResult) {
    HasRepeatDenial(r.results) || r.stopReason == "cancelled" || r.paused || r.requested == 0
  }

  function ReasonOf(r: TurnResult): string {
    if HasRepeatDenial(r.results) then "repeated_tool_call" else r.stopReason
  }

  predicate LastTurn(s: RunState, r: TurnResult) {
    s.turns != [] && s.turns[|s.turns| - 1].result == r
  }

  /** All turns but the last let the run go on, and the last one does as long as the run is running. */
  ghost predicate GoesOnForAReason(status: Status) {
    && (forall k :: 0 <= k < |status.state.turns| - 1 ==> !EndsTheRun(status.state.turns[k].result))
    && (status.Running? && status.state.turns != [] ==> !EndsTheRun(status.state.turns[|status.state.turns| - 1].result))
  }

  /** A stop is due to a seen cancellation, to a limit, or to the last turn. */
  ghost predicate StopsForAReason(setup: RunSetup, status: Status) {
    status.Stopped? ==>
      || (status.reason == "cancelled" && status.state.polls > 0 && setup.env.cancel(status.state.polls - 1))
      || AtLimit(setup, status.state, status.reason)
      || (status.state.turns != []
          && var r := status.state.turns[|status.state.turns| - 1].result;
             EndsTheRun(r) && status.reason == ReasonOf(r))
  }

  predicate InTime(setup: RunSetup, k: nat) {
    setup.timeoutMs.Some? ==> setup.elapsedMs(k) < setup.timeoutMs.value
  }

  /** No turn begins once the time is up. */
  ghost predicate TurnsBeginInTime(setup: RunSetup, s: RunState) {
    forall k: nat :: k < |s.turns| ==> InTime(setup, k)
  }

  ghost predicate WellStopped(setup: RunSetup, status: Status) {
    GoesOnForAReason(status) && StopsForAReason(setup, status) && TurnsBeginInTime(setup, status.state)
  }

  lemma LimitHasItsName(setup: RunSetup, s: RunState)
    requires LimitReached(setup, s).Some?
    ensures AtLimit(setup, s, LimitReached(setup, s).value)
  {
  }

  lemma ConclusionHasAReason(s: RunState, r: TurnResult)
    ensures Concluded(s, r).state == s
    ensures Concluded(s, r).Running? <==> !EndsTheRun(r)
    ensures Concluded(s, r).Stopped? ==> Concluded(s, r).reason == ReasonOf(r)
    ensures !Concluded(s, r).Failed?
  {
  }

  lemma AfterTurnHasAReason(setup: RunSetup, s: RunState, out: TurnOut, ms: Option<seq<Message>>)
    requires out.result.Some?
    ensures var status := AfterMessages(setup, s, out, ms); var r := out.result.value;
            && LastTurn(status.state, r)
            && (status.Running? ==> !EndsTheRun(r))
            && (status.Stopped? ==> EndsTheRun(r) && status.reason == ReasonOf(r))
  {
    var recorded := Recorded(setup, s, out, out.result.value);
    if ms.Some? { ConclusionHasAReason(Extended(recorded, ms.value), out.result.value); }
  }

  lemma GoesOnOneMore(s: RunState, status: Status, record: TurnRecord)
    requires GoesOnForAReason(Running(s)) && status.state.turns == s.turns + [record]
    requires status.Running? ==> !EndsTheRun(record.result)
    ensures GoesOnForAReason(status)
  {
  }

  lemma InTimeOneMore(setup: RunSetup, s: RunState, next: RunState, record: TurnRecord)
    requires TurnsBeginInTime(setup, s) && next.turns == s.turns + [record] && LimitReached(setup, s).None?
    ensures TurnsBeginInTime(setup, next)
  {
    assert InTime(setup, |s.turns|);
  }

  lemma StopsWithItsTurn(setup: RunSetup, status: Status, r: TurnResult)
    requires LastTurn(status.state, r) && (status.Stopped? ==> EndsTheRun(r) && status.reason == ReasonOf(r))
    ensures StopsForAReason(setup, status)
  {
  }

  lemma RecordedTurnStopsWell(setup: RunSetup, s: RunState, out: TurnOut, ms: Option<seq<Message>>, status: Status)
    requires WellStopped(setup, Running(s)) && LimitReached(setup, s).None? && out.result.Some?
    requires status == AfterMessages(setup, Polled(s), out, ms)
    ensures WellStopped(setup, status)
  {
    var record := TurnRecord(NextTurn(setup, s), s.messages, out.result.value, out.writes);
    AfterTurnRecords(setup, Polled(s), out, ms);
    AfterTurnHasAReason(setup, Polled(s), out, ms);
    GoesOnOneMore(s, status, record);
    InTimeOneMore(setup, s, status.state, record);
    StopsWithItsTurn(setup, status, out.result.value);
  }

  lemma RaisedTurnStopsWell(setup: RunSetup, s: RunState, out: TurnOut, ms: Option<seq<Message>>, status: Status)
    requires WellStopped(setup, Running(s)) && out.result.None? && status == AfterMessages(setup, Polled(s), out, ms)
    ensures WellStopped(setup, status)
  {
    assert status.Failed? && status.state.turns == s.turns;
  }

  lemma TurnStopsWell(setup: RunSetup, s: RunState, out: TurnOut, ms: Option<seq<Message>>, status: Status)
    requires WellStopped(setup, Running(s)) && TurnStep(setup, s, out, ms, status)
    ensures WellStopped(setup, status)
  {
    if out.result.Some? {
      RecordedTurnStopsWell(setup, s, out, ms, status);
    } else {
      RaisedTurnStopsWell(setup, s, out, ms, status);
    }
  }

  lemma PassStopsWell(setup: RunSetup, s: RunState, status: Status)
    requires WellStopped(setup, Running(s)) && StopStep(setup, s, status)
    ensures WellStopped(setup, status)
  {
    if !setup.env.cancel(s.polls) { LimitHasItsName(setup, s); }
  }

  lemma StepStopsWell(setup: RunSetup, s: RunState, status: Status)
    requires WellStopped(setup, Running(s)) && Steps(setup, s, status)
    ensures WellStopped(setup, status)
  {
    if out, ms :| TurnStep(setup, s, out, ms, status) {
      TurnStopsWell(setup, s, out, ms, status);
    } else {
      PassStopsWell(setup, s, status);
    }
  }

  /**
   Main result: a run goes on exactly after turns that request calls and neither pause, are cancelled nor
   hold a repeat denial; it stops because of its last turn, a seen cancellation or the first limit
   reached, and says which; and no turn begins once the time is up.
   */
  lemma RunStopsForAReason(setup: RunSetup, messages: seq<Message>, script: seq<LlmTurn>)
    ensures WellStopped(setup, Run(setup, messages, script))
  {
    var inv := (status: Status) => WellStopped(setup, status);
    forall s, status | Steps(setup, s, status) && inv(Running(s)) ensures inv(status) {
      StepStopsWell(setup, s, status);
    }
    RunsKeep(setup, Initial(messages), script, inv);
  }
}
