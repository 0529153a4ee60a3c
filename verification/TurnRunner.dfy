/** One turn, step by step, on the objects it changes: the token, the guards, the host executor and the log. */
module TurnRunner {
  import opened Options
  import opened SeqFacts
  import opened StandardEvents
  import opened EventLog
  import opened ToolGuards
  import opened ToolExecutors
  import opened Transcript
  import opened ToolChecks
  import opened TurnKernel

  class CancellationToken {
    const answers: nat -> bool
    var polls: nat

    constructor (answers: nat -> bool)
      ensures this.answers == answers && polls == 0
    {
      this.answers := answers;
      polls := 0;
    }

    method IsCancelled() returns (cancelled: bool)
      modifies this
      ensures polls == old(polls) + 1 && cancelled == answers(old(polls))
    {
      cancelled := answers(polls);
      polls := polls + 1;
    }
  }

  /** Writes to the log and keeps the events it is given back. */
  class EventCollector {
    const log: InMemoryEventLog<Key, EventBody>
    ghost const start: LogState<Key, EventBody>
    ghost var written: seq<Write>
    var events: seq<Event<EventBody>>

    constructor (log: InMemoryEventLog<Key, EventBody>)
      ensures Valid() && this.log == log && start == log.State() && written == []
    {
      this.log := log;
      start := log.State();
      written := [];
      events := [];
    }

    ghost predicate Valid()
      reads this, log
    {
      (log.State(), events) == AppendAll(start, written)
    }

    method Append(w: Write)
      requires Valid()
      modifies this, log
      ensures Valid() && written == old(written) + [w]
    {
      AppendAllSnoc(start, written, w);
      var event := log.AppendEvent(w.runId, w.draft, w.key);
      events := events + [event];
      written := written + [w];
    }
  }

  /** What reading `read` has come to, on top of `before`. */
  ghost predicate ReadSoFar(
    t: TurnInfo, read: seq<StandardEvent>, before: seq<Write>, written: seq<Write>, done: Option<TurnDoneData>, usages: nat)
  {
    written == before + StreamWrites(t, read) && done == LastDone(read) && usages == UsageCount(read)
  }

  function Emitted(t: TurnInfo, event: StandardEvent, counted: nat): seq<Write> {
    if event.TurnDone? then [] else [StreamWrite(t, event, counted)]
  }

  lemma ReadOneMore(
    t: TurnInfo, events: seq<StandardEvent>, i: nat, before: seq<Write>, written: seq<Write>, done: Option<TurnDoneData>, usages: nat)
    requires i < |events| && ReadSoFar(t, events[..i], before, written, done, usages)
    ensures var e := events[i];
            var counted := usages + if e.UsageUpdate? then 1 else 0;
            ReadSoFar(t, events[..i + 1], before, written + Emitted(t, e, counted), if e.TurnDone? then Some(e.done) else done, counted)
  {
    assert events[..i + 1] == events[..i] + [events[i]];
    FrontOfSnoc(events[..i], events[i]);
    ConcatAssoc(before, StreamWrites(t, events[..i]), Emitted(t, events[i], UsageCount(events[..i + 1])));
  }

  lemma CallIsWritten(env: TurnEnv, t: TurnInfo, call: Block, r: ToolResult, before: seq<Write>)
    ensures before + [StartedWrite(t, call)] + [FinishedWrite(t, call, r)] + PauseWrites(env, t, call, r)
            == before + CallWrites(env, t, call, r)
  {
    ConcatAssoc(before, [StartedWrite(t, call)], [FinishedWrite(t, call, r)]);
    assert [StartedWrite(t, call)] + [FinishedWrite(t, call, r)] == [StartedWrite(t, call), FinishedWrite(t, call, r)];
    ConcatAssoc(before, [StartedWrite(t, call), FinishedWrite(t, call, r)], PauseWrites(env, t, call, r));
  }

  /** The token has been polled `n` times since `poll`, and said yes at most in its last answer, `seen`. */
  ghost predicate PolledSoFar(cancel: nat -> bool, poll: nat, n: nat, seen: bool) {
    seen == AnyCancel(cancel, poll, n) && (n > 0 ==> !AnyCancel(cancel, poll, n - 1))
  }

  lemma PolledOneMore(cancel: nat -> bool, poll: nat, n: nat)
    requires PolledSoFar(cancel, poll, n, false)
    ensures PolledSoFar(cancel, poll, n + 1, cancel(poll + n))
  {
  }

  lemma PolledThrough(cancel: nat -> bool, events: seq<StandardEvent>, poll: nat, n: nat, seen: bool)
    requires n <= |events| && PolledSoFar(cancel, poll, n, seen) && (n == |events| || seen)
    ensures Consumed(cancel, events, poll) == n && seen == AnyCancel(cancel, poll, n)
  {
    ConsumedIs(cancel, events, poll, n);
  }

  /** The calls handled so far, from guard state `g0`. */
  ghost predicate HandledSoFar(
    env: TurnEnv, calls: seq<Block>, poll: nat, g0: GuardState, g: GuardState, results: seq<ToolResult>, paused: bool)
  {
    (g, results) == HandleCalls(env, calls, poll, g0, false) && |results| == |calls| && paused == AnyPause(env, calls, results)
  }

  /** What has been written of them, on top of `before`. */
  ghost predicate WrittenSoFar(
    env: TurnEnv, t: TurnInfo, calls: seq<Block>, results: seq<ToolResult>, before: seq<Write>, written: seq<Write>)
  {
    |results| == |calls| && written == before + ToolWrites(env, t, calls, results)
  }

  ghost predicate CallsSoFar(
    env: TurnEnv, t: TurnInfo, calls: seq<Block>, poll: nat, g0: GuardState, before: seq<Write>,
    g: GuardState, results: seq<ToolResult>, cancelled: bool, paused: bool, written: seq<Write>)
  {
    && HandledSoFar(env, calls, poll, g0, g, results, paused)
    && cancelled == AnyCancel(env.cancel, poll, |calls|)
    && WrittenSoFar(env, t, calls, results, before, written)
  }

  lemma WrittenOneMore(
    env: TurnEnv, t: TurnInfo, front: seq<Block>, call: Block, results: seq<ToolResult>, r: ToolResult, before: seq<Write>, written: seq<Write>)
    requires WrittenSoFar(env, t, front, results, before, written)
    ensures WrittenSoFar(env, t, front + [call], results + [r], before, written + CallWrites(env, t, call, r))
  {
    ToolWritesSnoc(env, t, front, results, call, r);
    ConcatAssoc(before, ToolWrites(env, t, front, results), CallWrites(env, t, call, r));
  }

  lemma HandledOneMore(
    env: TurnEnv, front: seq<Block>, call: Block, poll: nat, g0: GuardState, g: GuardState, results: seq<ToolResult>, paused: bool,
    g': GuardState, r: ToolResult)
    requires HandledSoFar(env, front, poll, g0, g, results, paused) && (g', r) == HandleCall(env, call, poll + |front|, g, paused)
    ensures HandledSoFar(env, front + [call], poll, g0, g', results + [r], paused || Pauses(env, call, r))
  {
    HandleOneMore(env, front, call, poll, g0);
    AnyPauseSnoc(env, front, results, call, r);
  }

  lemma CallsSoFarSnoc(
    env: TurnEnv, t: TurnInfo, front: seq<Block>, call: Block, poll: nat, g0: GuardState, before: seq<Write>,
    g: GuardState, results: seq<ToolResult>, cancelled: bool, paused: bool, written: seq<Write>, g': GuardState, r: ToolResult)
    requires CallsSoFar(env, t, front, poll, g0, before, g, results, cancelled, paused, written)
    requires (g', r) == HandleCall(env, call, poll + |front|, g, paused)
    ensures CallsSoFar(env, t, front + [call], poll, g0, before, g', results + [r], cancelled || env.cancel(poll + |front|),
                       paused || Pauses(env, call, r), written + CallWrites(env, t, call, r))
  {
    HandledOneMore(env, front, call, poll, g0, g, results, paused, g', r);
    WrittenOneMore(env, t, front, call, results, r, before, written);
  }

  lemma CallsOneMore(
    env: TurnEnv, t: TurnInfo, calls: seq<Block>, i: nat, poll: nat, g0: GuardState, before: seq<Write>,
    g: GuardState, results: seq<ToolResult>, cancelled: bool, paused: bool, written: seq<Write>)
    requires i < |calls| && CallsSoFar(env, t, calls[..i], poll, g0, before, g, results, cancelled, paused, written)
    ensures var (g', r) := HandleCall(env, calls[i], poll + i, g, paused);
            CallsSoFar(env, t, calls[..i + 1], poll, g0, before, g', results + [r], cancelled || env.cancel(poll + i),
                       paused || Pauses(env, calls[i], r), written + CallWrites(env, t, calls[i], r))
  {
    var (g', r) := HandleCall(env, calls[i], poll + i, g, paused);
    CallsSoFarSnoc(env, t, calls[..i], calls[i], poll, g0, before, g, results, cancelled, paused, written, g', r);
    assert calls[..i + 1] == calls[..i] + [calls[i]];
  }

  lemma NoCallsYet(env: TurnEnv, t: TurnInfo, poll: nat, g: GuardState, before: seq<Write>)
    ensures CallsSoFar(env, t, [], poll, g, before, g, [], false, false, before)
  {
    ConcatEmpty(before);
  }

  class TurnKernelObject {
    const env: TurnEnv
    const executor: RepeatedToolCallGuard
    const token: CancellationToken

    constructor (env: TurnEnv, executor: RepeatedToolCallGuard, token: CancellationToken)
      requires executor.Valid() && executor.cfg == env.guards && token.answers == env.cancel
      ensures Valid() && this.env == env && this.executor == executor && this.token == token
    {
      this.env := env;
      this.executor := executor;
      this.token := token;
    }

    ghost predicate Valid()
      reads this, executor, executor.host, executor.list, executor.cap, token
    {
      executor.Valid() && executor.cfg == env.guards && token.answers == env.cancel
    }

    function Guards(): GuardState
      reads this, executor, executor.host, executor.list, executor.cap
    {
      executor.State()
    }

    /** Takes one event from the stream: writes it unless it is the last one, then polls the token. */
    method ReadOne(t: TurnInfo, event: StandardEvent, done: Option<TurnDoneData>, usages: nat, out: EventCollector)
      returns (lastDone: Option<TurnDoneData>, counted: nat, cancelled: bool)
      requires token.answers == env.cancel && out.Valid()
      modifies token, out, out.log
      ensures out.Valid()
      ensures lastDone == if event.TurnDone? then Some(event.done) else done
      ensures counted == usages + if event.UsageUpdate? then 1 else 0
      ensures out.written == old(out.written) + Emitted(t, event, counted)
      ensures cancelled == env.cancel(old(token.polls)) && token.polls == old(token.polls) + 1
    {
      lastDone, counted := done, usages;
      ConcatEmpty(out.written);
      if event.TurnDone? {
        lastDone := Some(event.done);
      } else {
        if event.UsageUpdate? { counted := counted + 1; }
        out.Append(StreamWrite(t, event, counted));
      }
      cancelled := token.IsCancelled();
    }

    /** Reads the stream and writes its events; the token is polled after each. */
    method ReadStream(t: TurnInfo, events: seq<StandardEvent>, out: EventCollector)
      returns (cancelled: bool, done: Option<TurnDoneData>, ghost count: nat)
      requires token.answers == env.cancel && out.Valid()
      modifies token, out, out.log
      ensures out.Valid()
      ensures count == Consumed(env.cancel, events, old(token.polls)) <= |events|
      ensures cancelled == AnyCancel(env.cancel, old(token.polls), count)
      ensures done == LastDone(events[..count])
      ensures token.polls == old(token.polls) + count
      ensures out.written == old(out.written) + StreamWrites(t, events[..count])
    {
      done := None;
      var usages, i := 0, 0;
      cancelled := false;
      ConcatEmpty(out.written);
      while i < |events| && !cancelled
        invariant 0 <= i <= |events| && out.Valid()
        invariant PolledSoFar(env.cancel, old(token.polls), i, cancelled)
        invariant token.polls == old(token.polls) + i
        invariant ReadSoFar(t, events[..i], old(out.written), out.written, done, usages)
      {
        PolledOneMore(env.cancel, old(token.polls), i);
        ReadOneMore(t, events, i, old(out.written), out.written, done, usages);
        done, usages, cancelled := ReadOne(t, events[i], done, usages, out);
        i := i + 1;
      }
      PolledThrough(env.cancel, events, old(token.polls), i, cancelled);
      count := i;
    }

    method WriteInvalidCalls(t: TurnInfo, invalid: seq<Block>, out: EventCollector)
      requires out.Valid()
      modifies out, out.log
      ensures out.Valid() && out.written == old(out.written) + InvalidWrites(t, invalid)
    {
      ConcatEmpty(out.written);
      for i := 0 to |invalid|
        invariant out.Valid()
        invariant out.written == old(out.written) + InvalidWrites(t, invalid[..i])
      {
        ghost var soFar := InvalidWrites(t, invalid[..i]);
        FrontOfSnoc(invalid[..i], invalid[i]);
        assert invalid[..i + 1] == invalid[..i] + [invalid[i]];
        out.Append(InvalidWrite(t, invalid[i]));
        ConcatAssoc(old(out.written), soFar, [InvalidWrite(t, invalid[i])]);
      }
      assert invalid[..|invalid|] == invalid;
    }

    method RunTool(call: Block) returns (result: ToolResult)
      requires Valid()
      modifies executor.host, executor.cap, executor.list
      ensures Valid()
      ensures (Guards(), result) == ExecuteTool(env, old(Guards()), call)
    {
      var refusal := env.refusal(call);
      if refusal.Some? {
        return ToolResult(false, "", IdOf(call), refusal, false);
      }
      var outcome := executor.ExecuteTool(RequestOf(call));
      result := Normalized(outcome, call);
    }

    method Answer(call: Block, cancelled: bool, paused: bool) returns (result: ToolResult)
      requires Valid()
      modifies executor.host, executor.cap, executor.list
      ensures Valid()
      ensures (Guards(), result) == Answered(env, call, cancelled, old(Guards()), paused)
    {
      if cancelled {
        result := Skipped(env, call, CancelledError);
      } else if paused {
        result := Skipped(env, call, SkippedAfterPause);
      } else {
        result := RunTool(call);
      }
    }

    method WriteAnswer(t: TurnInfo, call: Block, result: ToolResult, out: EventCollector)
      requires out.Valid()
      modifies out, out.log
      ensures out.Valid() && out.written == old(out.written) + [FinishedWrite(t, call, result)] + PauseWrites(env, t, call, result)
    {
      out.Append(FinishedWrite(t, call, result));
      ConcatEmpty(out.written);
      if result.ok && NameOf(call) in env.pauseTools {
        out.Append(PausedWrite(t, call));
      }
    }

    method HandleOneCall(t: TurnInfo, call: Block, paused: bool, out: EventCollector) returns (result: ToolResult, cancelled: bool)
      requires Valid() && out.Valid()
      modifies executor.host, executor.cap, executor.list, token, out, out.log
      ensures Valid() && out.Valid()
      ensures (Guards(), result) == HandleCall(env, call, old(token.polls), old(Guards()), paused)
      ensures cancelled == env.cancel(old(token.polls)) && token.polls == old(token.polls) + 1
      ensures out.written == old(out.written) + CallWrites(env, t, call, result)
    {
      cancelled := token.IsCancelled();
      out.Append(StartedWrite(t, call));
      result := Answer(call, cancelled, paused);
      WriteAnswer(t, call, result, out);
      CallIsWritten(env, t, call, result, old(out.written));
    }

    /** The body of the loop over the calls. */
    method HandleNextCall(
      t: TurnInfo, calls: seq<Block>, i: nat, results: seq<ToolResult>, cancelled: bool, paused: bool, out: EventCollector,
      ghost poll: nat, ghost g0: GuardState, ghost before: seq<Write>)
      returns (more: seq<ToolResult>, cancelledNow: bool, pausedNow: bool)
      requires Valid() && out.Valid() && i < |calls| && token.polls == poll + i
      requires CallsSoFar(env, t, calls[..i], poll, g0, before, Guards(), results, cancelled, paused, out.written)
      modifies executor.host, executor.cap, executor.list, token, out, out.log
      ensures Valid() && out.Valid() && token.polls == poll + i + 1
      ensures CallsSoFar(env, t, calls[..i + 1], poll, g0, before, Guards(), more, cancelledNow, pausedNow, out.written)
    {
      CallsOneMore(env, t, calls, i, poll, g0, before, Guards(), results, cancelled, paused, out.written);
      var result, seen := HandleOneCall(t, calls[i], paused, out);
      more := results + [result];
      cancelledNow := cancelled || seen;
      pausedNow := paused || Pauses(env, calls[i], result);
    }

    method HandleAllCalls(t: TurnInfo, calls: seq<Block>, out: EventCollector) returns (results: seq<ToolResult>, cancelled: bool, paused: bool)
      requires Valid() && out.Valid()
      modifies executor.host, executor.cap, executor.list, token, out, out.log
      ensures Valid() && out.Valid()
      ensures CallsSoFar(env, t, calls, old(token.polls), old(Guards()), old(out.written), Guards(), results, cancelled, paused, out.written)
      ensures token.polls == old(token.polls) + |calls|
    {
      ghost var poll, g0, before := token.polls, Guards(), out.written;
      results, cancelled, paused := [], false, false;
      NoCallsYet(env, t, poll, g0, before);
      assert calls[..0] == [];
      for i := 0 to |calls|
        invariant Valid() && out.Valid() && token.polls == poll + i
        invariant CallsSoFar(env, t, calls[..i], poll, g0, before, Guards(), results, cancelled, paused, out.written)
      {
        results, cancelled, paused := HandleNextCall(t, calls, i, results, cancelled, paused, out, poll, g0, before);
      }
      assert calls[..|calls|] == calls;
    }

    method CountExecutedResults(results: seq<ToolResult>) returns (executed: nat)
      ensures executed == CountExecuted(results)
    {
      executed := 0;
      for i := 0 to |results|
        invariant executed == CountExecuted(results[..i])
      {
        assert results[..i + 1][..i] == results[..i];
        if results[i].executed { executed := executed + 1; }
      }
      assert results[..|results|] == results;
    }

    method FinishWithCalls(t: TurnInfo, done: TurnDoneData, out: EventCollector) returns (result: TurnResult)
      requires Valid() && out.Valid()
      modifies executor.host, executor.cap, executor.list, token, out, out.log
      ensures Valid() && out.Valid()
      ensures TurnOut(Guards(), token.polls, out.written, Some(result))
              == FinishTurn(env, t, done, old(token.polls), old(Guards()), old(out.written))
    {
      var calls := ToolUses(done.content);
      WriteInvalidCalls(t, InvalidCalls(done.content), out);
      var results, cancelled, paused := HandleAllCalls(t, calls, out);
      var executed := CountExecutedResults(results);
      result := TurnResult(
        FinalReason(env, done, cancelled, paused), done.content, results, |calls|, executed, Denied(|calls|, executed), paused);
      out.Append(CompletedWrite(t, result));
    }

    /** Up to the end of the stream. */
    method OpenTurn(t: TurnInfo, llm: LlmTurn, out: EventCollector) returns (cancelled: bool, done: Option<TurnDoneData>)
      requires token.answers == env.cancel && out.Valid() && out.written == []
      modifies token, out, out.log
      ensures out.Valid() && out.written == Opening(env, t, llm, old(token.polls))
      ensures cancelled == StreamCancelled(env, llm, old(token.polls))
      ensures done == DoneOf(env, llm, old(token.polls))
      ensures token.polls == old(token.polls) + 1 + |Read(env, llm, old(token.polls))|
    {
      out.Append(StartWrite(t));
      done := None;
      cancelled := token.IsCancelled();
      if cancelled {
        ConcatEmpty([StartWrite(t)]);
      } else {
        ghost var count;
        cancelled, done, count := ReadStream(t, llm.events, out);
        if llm.fails { done := None; }
      }
    }

    /** From the end of the stream. */
    method EndTurnOn(t: TurnInfo, cancelled: bool, done: Option<TurnDoneData>, out: EventCollector) returns (result: Option<TurnResult>)
      requires Valid() && out.Valid()
      modifies executor.host, executor.cap, executor.list, token, out, out.log
      ensures Valid() && out.Valid()
      ensures TurnOut(Guards(), token.polls, out.written, result)
              == EndTurn(env, t, Ending(cancelled, done, old(token.polls), old(out.written)), old(Guards()))
    {
      if cancelled {
        out.Append(CompletedWrite(t, CANCELLED_TURN));
        result := Some(CANCELLED_TURN);
      } else if done.None? {
        result := None;
      } else {
        var finished := FinishWithCalls(t, done.value, out);
        result := Some(finished);
      }
    }

    /** The whole turn; `result` is None where it raises. */
    method RunTurnOn(t: TurnInfo, llm: LlmTurn, out: EventCollector) returns (result: Option<TurnResult>)
      requires Valid() && out.Valid() && out.written == []
      modifies executor.host, executor.cap, executor.list, token, out, out.log
      ensures Valid() && out.Valid()
      ensures TurnOut(Guards(), token.polls, out.written, result) == RunTurn(env, t, llm, old(token.polls), old(Guards()))
    {
      ghost var poll, g := token.polls, Guards();
      var cancelled, done := OpenTurn(t, llm, out);
      TurnEnds(env, t, llm, poll, g, Ending(cancelled, done, token.polls, out.written));
      result := EndTurnOn(t, cancelled, done, out);
    }
  }
}
