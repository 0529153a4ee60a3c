/**
 One turn of the kernel: consume the model's event stream, write the canonical events, execute the
 finished tool calls one after the other. The model, the host executor and the cancellation token are
 adversaries; `cancel(n)` is the token's n-th answer.
 */
module TurnKernel {
  import opened Options
  import opened SeqFacts
  import opened StandardEvents
  import opened EventLog
  import opened ToolGuards
  import opened Transcript
  import opened ToolChecks

  // ---------- Events and their idempotency keys ----------

  datatype Key =
    | TurnStartedKey(turnId: string)
    | UsageKey(turnId: string, n: nat)
    | InvalidKey(turnId: string, toolUseId: string)
    | ToolStartedKey(turnId: string, toolUseId: string)
    | ToolFinishedKey(turnId: string, toolUseId: string)
    | PausedKey(turnId: string, toolUseId: string)
    | TurnCompletedKey(turnId: string)

  datatype Body =
    | TurnStarted(turnIndex: int)
    | Streamed(event: StandardEvent)
    | UsageUpdated(usage: Usage, n: nat)
    | ToolCallInvalid(block: Block)
    | ToolStarted(name: string, toolUseId: string)
    | ToolFinished(name: string, toolUseId: string, result: ToolResult)
    | TurnPaused(name: string, toolUseId: string)
    | TurnCompleted(stopReason: string, requested: nat, executed: nat, denied: nat, invalid: nat, paused: bool)

  datatype EventBody = EventBody(turnId: string, body: Body)

  type Write = AppendCall<Key, EventBody>

  datatype TurnInfo = TurnInfo(runId: string, turnId: string, turnIndex: int)

  function WriteOf(t: TurnInfo, body: Body, key: Option<Key>): Write {
    AppendCall(t.runId, Draft(EventBody(t.turnId, body), None), key)
  }

  // ---------- What a turn depends on ----------

  /** `refusal` says why a call never reaches the guards, as an error type; the token is polled again and again. */
  datatype TurnEnv = TurnEnv(
    refusal: Block -> Option<ErrorType>,
    pauseTools: set<string>,
    pauseStopReason: string,
    guards: GuardConfig,
    cancel: nat -> bool)

  // ---------- One tool call ----------

  function RequestOf(call: Block): ToolRequest {
    ToolRequest(NameOf(call), InputOf(call), IdOf(call))
  }

  /** A result that reached the guards is marked executed, even where a guard refused it. */
  function Normalized(outcome: Outcome, call: Block): ToolResult {
    match outcome
    case Raised(error) => ToolResult(false, "", IdOf(call), Some(error), true)
    case Returned(r) => r.(toolUseId := if r.toolUseId != "" then r.toolUseId else IdOf(call), executed := true)
  }

  function ExecuteTool(env: TurnEnv, g: GuardState, call: Block): (GuardState, ToolResult) {
    match env.refusal(call)
    case Some(error) => (g, ToolResult(false, "", IdOf(call), Some(error), false))
    case None =>
      var (g', outcome) := ExecuteGuarded(env.guards, g, RequestOf(call));
      (g', Normalized(outcome, call))
  }

  function Skipped(env: TurnEnv, call: Block, error: ErrorType): ToolResult {
    ToolResult(false, env.guards.texts(error), IdOf(call), Some(error), false)
  }

  /** The answer to one call: skipped when cancellation was seen or a pause tool has run. */
  function Answered(env: TurnEnv, call: Block, cancelled: bool, g: GuardState, paused: bool): (GuardState, ToolResult) {
    if cancelled then (g, Skipped(env, call, CancelledError))
    else if paused then (g, Skipped(env, call, SkippedAfterPause))
    else ExecuteTool(env, g, call)
  }

  /** One call of the loop, which polls the token first. */
  function HandleCall(env: TurnEnv, call: Block, poll: nat, g: GuardState, paused: bool): (GuardState, ToolResult) {
    Answered(env, call, env.cancel(poll), g, paused)
  }

  predicate Pauses(env: TurnEnv, call: Block, r: ToolResult) {
    r.ok && NameOf(call) in env.pauseTools
  }

  /** The loop over the calls; call k polls the token as number poll + k. */
  function HandleCalls(env: TurnEnv, calls: seq<Block>, poll: nat, g: GuardState, paused: bool): (GuardState, seq<ToolResult>)
    decreases calls
  {
    if calls == [] then (g, [])
    else
      var (g1, r) := HandleCall(env, calls[0], poll, g, paused);
      var (g2, rest) := HandleCalls(env, calls[1..], poll + 1, g1, paused || Pauses(env, calls[0], r));
      (g2, [r] + rest)
  }

  predicate AnyPause(env: TurnEnv, calls: seq<Block>, results: seq<ToolResult>) {
    exists k :: 0 <= k < |calls| && k < |results| && Pauses(env, calls[k], results[k])
  }

  /** One of the `count` answers from number `poll` on is yes. */
  predicate AnyCancel(cancel: nat -> bool, poll: nat, count: nat) {
    count > 0 && (AnyCancel(cancel, poll, count - 1) || cancel(poll + count - 1))
  }

  function StartedWrite(t: TurnInfo, call: Block): Write {
    WriteOf(t, ToolStarted(NameOf(call), IdOf(call)), Some(ToolStartedKey(t.turnId, IdOf(call))))
  }

  function FinishedWrite(t: TurnInfo, call: Block, r: ToolResult): Write {
    WriteOf(t, ToolFinished(NameOf(call), IdOf(call), r), Some(ToolFinishedKey(t.turnId, IdOf(call))))
  }

  function PausedWrite(t: TurnInfo, call: Block): Write {
    WriteOf(t, TurnPaused(NameOf(call), IdOf(call)), Some(PausedKey(t.turnId, IdOf(call))))
  }

  function PauseWrites(env: TurnEnv, t: TurnInfo, call: Block, r: ToolResult): seq<Write> {
    if Pauses(env, call, r) then [PausedWrite(t, call)] else []
  }

  function CallWrites(env: TurnEnv, t: TurnInfo, call: Block, r: ToolResult): seq<Write> {
    [StartedWrite(t, call), FinishedWrite(t, call, r)] + PauseWrites(env, t, call, r)
  }

  function ToolWrites(env: TurnEnv, t: TurnInfo, calls: seq<Block>, results: seq<ToolResult>): seq<Write>
    requires |results| >= |calls|
  {
    if calls == [] then []
    else
      ToolWrites(env, t, calls[..|calls| - 1], results)
      + CallWrites(env, t, calls[|calls| - 1], results[|calls| - 1])
  }

  // ---------- The event stream ----------

  /** What a model does in one turn: events, then an end or an exception. */
  datatype LlmTurn = LlmTurn(events: seq<StandardEvent>, fails: bool)

  /** How many events are consumed; the token is polled after each. */
  function Consumed(cancel: nat -> bool, events: seq<StandardEvent>, poll: nat): nat
    decreases events
  {
    if events == [] then 0
    else 1 + if cancel(poll) then 0 else Consumed(cancel, events[1..], poll + 1)
  }

  function UsageCount(events: seq<StandardEvent>): nat {
    if events == [] then 0
    else UsageCount(events[..|events| - 1]) + if events[|events| - 1].UsageUpdate? then 1 else 0
  }

  /** The write for a stream event other than TurnDone; usage updates are numbered. */
  function StreamWrite(t: TurnInfo, e: StandardEvent, usages: nat): Write {
    match e
    case UsageUpdate(usage) => WriteOf(t, UsageUpdated(usage, usages), Some(UsageKey(t.turnId, usages)))
    case _ => WriteOf(t, Streamed(e), None)
  }

  function StreamWrites(t: TurnInfo, events: seq<StandardEvent>): seq<Write> {
    if events == [] then []
    else
      var e := events[|events| - 1];
      StreamWrites(t, events[..|events| - 1]) + if e.TurnDone? then [] else [StreamWrite(t, e, UsageCount(events))]
  }

  /** The last TurnDone seen. */
  function LastDone(events: seq<StandardEvent>): Option<TurnDoneData> {
    if events == [] then None
    else match events[|events| - 1]
         case TurnDone(done) => Some(done)
         case _ => LastDone(events[..|events| - 1])
  }

  function InvalidCalls(content: seq<Block>): seq<Block> {
    Select(content, (b: Block) => b.InvalidToolCall?)
  }

  function InvalidId(b: Block): string {
    if b.InvalidToolCall? then b.id else ""
  }

  function InvalidWrite(t: TurnInfo, b: Block): Write {
    WriteOf(t, ToolCallInvalid(b), Some(InvalidKey(t.turnId, InvalidId(b))))
  }

  function InvalidWrites(t: TurnInfo, invalid: seq<Block>): seq<Write> {
    if invalid == [] then []
    else InvalidWrites(t, invalid[..|invalid| - 1]) + [InvalidWrite(t, invalid[|invalid| - 1])]
  }

  // ---------- The turn ----------

  datatype TurnResult = TurnResult(
    stopReason: string,
    content: seq<Block>,
    results: seq<ToolResult>,
    requested: nat,
    executed: nat,
    denied: nat,
    paused: bool)

  /** `result` is None where `run_turn` raises. */
  datatype TurnOut = TurnOut(guard: GuardState, polls: nat, writes: seq<Write>, result: Option<TurnResult>)

  function CountExecuted(results: seq<ToolResult>): nat {
    if results == [] then 0
    else CountExecuted(results[..|results| - 1]) + if results[|results| - 1].executed then 1 else 0
  }

  function Denied(requested: nat, executed: nat): nat {
    if requested > executed then requested - executed else 0
  }

  function StartWrite(t: TurnInfo): Write {
    WriteOf(t, TurnStarted(t.turnIndex), Some(TurnStartedKey(t.turnId)))
  }

  function CompletedWrite(t: TurnInfo, r: TurnResult): Write {
    WriteOf(t,
      TurnCompleted(r.stopReason, r.requested, r.executed, r.denied, |InvalidCalls(r.content)|, r.paused),
      Some(TurnCompletedKey(t.turnId)))
  }

  const CANCELLED_TURN := TurnResult("cancelled", [], [], 0, 0, 0, false)

  /** The events the turn consumes: none when it starts cancelled. */
  function Read(env: TurnEnv, llm: LlmTurn, poll: nat): seq<StandardEvent> {
    if env.cancel(poll) then []
    else
      var n := Consumed(env.cancel, llm.events, poll + 1);
      if n <= |llm.events| then llm.events[..n] else llm.events
  }

  /** Cancellation was seen before the stream or after one of its events. */
  predicate StreamCancelled(env: TurnEnv, llm: LlmTurn, poll: nat) {
    env.cancel(poll) || AnyCancel(env.cancel, poll + 1, |Read(env, llm, poll)|)
  }

  function FinalReason(env: TurnEnv, done: TurnDoneData, cancelled: bool, paused: bool): string {
    if cancelled then "cancelled" else if paused then env.pauseStopReason else done.stopReason
  }

  function FinishTurn(env: TurnEnv, t: TurnInfo, done: TurnDoneData, poll: nat, g: GuardState, before: seq<Write>): TurnOut {
    var calls := ToolUses(done.content);
    var (g', results) := HandleCalls(env, calls, poll, g, false);
    HandleCallsAligns(env, calls, poll, g, false);
    var paused := AnyPause(env, calls, results);
    var executed := CountExecuted(results);
    var result := TurnResult(
      FinalReason(env, done, AnyCancel(env.cancel, poll, |calls|), paused),
      done.content, results, |calls|, executed, Denied(|calls|, executed), paused);
    TurnOut(g', poll + |calls|,
      before + InvalidWrites(t, InvalidCalls(done.content)) + ToolWrites(env, t, calls, results) + [CompletedWrite(t, result)],
      Some(result))
  }

  /** What the turn has written when the stream ends. */
  function Opening(env: TurnEnv, t: TurnInfo, llm: LlmTurn, poll: nat): seq<Write> {
    [StartWrite(t)] + StreamWrites(t, Read(env, llm, poll))
  }

  /** Where the stream leaves the turn; `done` is None where it raised or lacked its last event. */
  datatype Ending = Ending(cancelled: bool, done: Option<TurnDoneData>, polls: nat, writes: seq<Write>)

  function DoneOf(env: TurnEnv, llm: LlmTurn, poll: nat): Option<TurnDoneData> {
    if llm.fails then None else LastDone(Read(env, llm, poll))
  }

  function EndingOf(env: TurnEnv, t: TurnInfo, llm: LlmTurn, poll: nat): Ending {
    Ending(StreamCancelled(env, llm, poll), DoneOf(env, llm, poll), poll + 1 + |Read(env, llm, poll)|, Opening(env, t, llm, poll))
  }

  /** How the turn ends from there. */
  function EndTurn(env: TurnEnv, t: TurnInfo, e: Ending, g: GuardState): TurnOut {
    if e.cancelled then TurnOut(g, e.polls, e.writes + [CompletedWrite(t, CANCELLED_TURN)], Some(CANCELLED_TURN))
    else if e.done.None? then TurnOut(g, e.polls, e.writes, None)
    else FinishTurn(env, t, e.done.value, e.polls, g, e.writes)
  }

  function RunTurn(env: TurnEnv, t: TurnInfo, llm: LlmTurn, poll: nat, g: GuardState): TurnOut {
    EndTurn(env, t, EndingOf(env, t, llm, poll), g)
  }

  lemma TurnEnds(env: TurnEnv, t: TurnInfo, llm: LlmTurn, poll: nat, g: GuardState, e: Ending)
    requires e == EndingOf(env, t, llm, poll)
    ensures RunTurn(env, t, llm, poll, g) == EndTurn(env, t, e, g)
  {
  }

  lemma EndIsFinish(env: TurnEnv, t: TurnInfo, e: Ending, done: TurnDoneData, g: GuardState)
    requires !e.cancelled && e.done == Some(done)
    ensures EndTurn(env, t, e, g) == FinishTurn(env, t, done, e.polls, g, e.writes)
  {
  }

  lemma TurnIsCancelled(env: TurnEnv, t: TurnInfo, llm: LlmTurn, poll: nat, g: GuardState, polls: nat, writes: seq<Write>)
    requires StreamCancelled(env, llm, poll)
    requires polls == poll + 1 + |Read(env, llm, poll)| && writes == Opening(env, t, llm, poll)
    ensures RunTurn(env, t, llm, poll, g)
            == TurnOut(g, polls, writes + [CompletedWrite(t, CANCELLED_TURN)], Some(CANCELLED_TURN))
  {
    TurnEnds(env, t, llm, poll, g, Ending(true, DoneOf(env, llm, poll), polls, writes));
  }

  lemma TurnIsFinished(
    env: TurnEnv, t: TurnInfo, llm: LlmTurn, poll: nat, g: GuardState, done: TurnDoneData, polls: nat, writes: seq<Write>)
    requires !StreamCancelled(env, llm, poll) && DoneOf(env, llm, poll) == Some(done)
    requires polls == poll + 1 + |Read(env, llm, poll)| && writes == Opening(env, t, llm, poll)
    ensures RunTurn(env, t, llm, poll, g) == FinishTurn(env, t, done, polls, g, writes)
  {
    var e := Ending(false, Some(done), polls, writes);
    TurnEnds(env, t, llm, poll, g, e);
    EndIsFinish(env, t, e, done, g);
  }

  lemma {:induction false} HandleCallsAligns(env: TurnEnv, calls: seq<Block>, poll: nat, g: GuardState, paused: bool)
    ensures |HandleCalls(env, calls, poll, g, paused).1| == |calls|
    decreases calls
  {
    if calls != [] {
      var (g1, r) := HandleCall(env, calls[0], poll, g, paused);
      HandleCallsAligns(env, calls[1..], poll + 1, g1, paused || Pauses(env, calls[0], r));
    }
  }

  // ---------- Safety of the tool loop ----------

  /** `b` handled where `a` leaves off. */
  function HandleInTwo(env: TurnEnv, a: seq<Block>, b: seq<Block>, poll: nat, g: GuardState, paused: bool): (GuardState, seq<ToolResult>) {
    var (g1, r1) := HandleCalls(env, a, poll, g, paused);
    var (g2, r2) := HandleCalls(env, b, poll + |a|, g1, paused || AnyPause(env, a, r1));
    (g2, r1 + r2)
  }

  lemma HandleInTwoCons(env: TurnEnv, a: seq<Block>, b: seq<Block>, poll: nat, g: GuardState, paused: bool)
    requires a != []
    ensures var (g0, r) := HandleCall(env, a[0], poll, g, paused);
            var (g2, rest) := HandleInTwo(env, a[1..], b, poll + 1, g0, paused || Pauses(env, a[0], r));
            HandleInTwo(env, a, b, poll, g, paused) == (g2, [r] + rest)
  {
    var (g0, r) := HandleCall(env, a[0], poll, g, paused);
    var p := paused || Pauses(env, a[0], r);
    var (g1, rest) := HandleCalls(env, a[1..], poll + 1, g0, p);
    HandleCallsAligns(env, a[1..], poll + 1, g0, p);
    AnyPauseCons(env, a, r, rest);
    ConcatAssoc([r], rest, HandleCalls(env, b, poll + |a|, g1, p || AnyPause(env, a[1..], rest)).1);
  }

  lemma {:induction false} HandleCallsInTwo(env: TurnEnv, a: seq<Block>, b: seq<Block>, poll: nat, g: GuardState, paused: bool)
    ensures HandleCalls(env, a + b, poll, g, paused) == HandleInTwo(env, a, b, poll, g, paused)
    decreases a
  {
    if a == [] {
      ConcatEmpty(b);
      ConcatEmpty(HandleCalls(env, b, poll, g, paused).1);
    } else {
      var (g0, r) := HandleCall(env, a[0], poll, g, paused);
      HandleInTwoCons(env, a, b, poll, g, paused);
      HandleCallsInTwo(env, a[1..], b, poll + 1, g0, paused || Pauses(env, a[0], r));
      assert (a + b)[0] == a[0] && (a + b)[1..] == a[1..] + b;
    }
  }

  lemma AnyPauseCons(env: TurnEnv, calls: seq<Block>, r: ToolResult, rest: seq<ToolResult>)
    requires calls != [] && |rest| == |calls| - 1
    ensures AnyPause(env, calls, [r] + rest) <==> Pauses(env, calls[0], r) || AnyPause(env, calls[1..], rest)
  {
    if AnyPause(env, calls[1..], rest) {
      var k :| 0 <= k < |rest| && Pauses(env, calls[1..][k], rest[k]);
      assert Pauses(env, calls[k + 1], ([r] + rest)[k + 1]);
    }
    if Pauses(env, calls[0], r) { assert Pauses(env, calls[0], ([r] + rest)[0]); }
    if AnyPause(env, calls, [r] + rest) {
      var k :| 0 <= k < |calls| && k < |[r] + rest| && Pauses(env, calls[k], ([r] + rest)[k]);
      if k > 0 { assert Pauses(env, calls[1..][k - 1], rest[k - 1]); }
    }
  }

  /** A call reaches the host executor only unpaused, uncancelled and past every check, and as itself. */
  lemma OnlyCheckedCallsReachTheExecutor(env: TurnEnv, call: Block, poll: nat, g: GuardState, paused: bool)
    ensures var (g', r) := HandleCall(env, call, poll, g, paused);
            && (g'.calls == g.calls || g'.calls == g.calls + [RequestOf(call)])
            && (g'.calls != g.calls ==> !paused && !env.cancel(poll) && env.refusal(call).None? && r.executed)
  {
    ExecutionAddsAtMostOneCall(env.guards, g, RequestOf(call));
  }

  /** Once a pause tool has succeeded, no later call of the turn changes the guards or reaches the executor. */
  lemma {:induction false} NothingRunsAfterPause(env: TurnEnv, calls: seq<Block>, poll: nat, g: GuardState)
    ensures HandleCalls(env, calls, poll, g, true).0 == g
    ensures !AnyPause(env, calls, HandleCalls(env, calls, poll, g, true).1)
    decreases calls
  {
    if calls != [] {
      NothingRunsAfterPause(env, calls[1..], poll + 1, g);
      HandleCallsAligns(env, calls[1..], poll + 1, g, true);
      AnyPauseCons(env, calls, HandleCall(env, calls[0], poll, g, true).1, HandleCalls(env, calls[1..], poll + 1, g, true).1);
    }
  }

  ghost predicate Monotone(cancel: nat -> bool) {
    forall m: nat, n: nat :: m <= n && cancel(m) ==> cancel(n)
  }

  /** With a token that stays cancelled, no call after a seen cancellation reaches the executor. */
  lemma {:induction false} NothingRunsAfterCancellation(env: TurnEnv, calls: seq<Block>, poll: nat, g: GuardState, paused: bool)
    requires Monotone(env.cancel) && env.cancel(poll)
    ensures HandleCalls(env, calls, poll, g, paused).0 == g
    decreases calls
  {
    if calls != [] {
      assert env.cancel(poll + 1);
      NothingRunsAfterCancellation(env, calls[1..], poll + 1, g, paused);
    }
  }

  /** Main result: the calls after a successful pause tool, or after a seen cancellation, leave the executor untouched. */
  lemma NothingRunsAfterStop(env: TurnEnv, a: seq<Block>, b: seq<Block>, poll: nat, g: GuardState)
    requires AnyPause(env, a, HandleCalls(env, a, poll, g, false).1)
             || (Monotone(env.cancel) && env.cancel(poll + |a|))
    ensures HandleCalls(env, a + b, poll, g, false).0 == HandleCalls(env, a, poll, g, false).0
  {
    var (g1, r1) := HandleCalls(env, a, poll, g, false);
    HandleCallsInTwo(env, a, b, poll, g, false);
    if AnyPause(env, a, r1) {
      NothingRunsAfterPause(env, b, poll + |a|, g1);
    } else {
      NothingRunsAfterCancellation(env, b, poll + |a|, g1, false);
    }
  }

  /** A token that takes its answer back lets the loop resume: the second call runs. */
  lemma ResumesIfTokenRelents(env: TurnEnv, a: Block, b: Block, poll: nat, g: GuardState)
    requires env.cancel(poll) && !env.cancel(poll + 1)
    ensures HandleCalls(env, [a, b], poll, g, false).0 == ExecuteTool(env, g, b).0
  {
    var (g1, r) := HandleCall(env, a, poll, g, false);
    assert g1 == g && !r.ok;
    var second := HandleCall(env, b, poll + 1, g, false);
    assert [a, b][1..] == [b] && [b][1..] == [];
    assert HandleCalls(env, [b], poll + 1, g, false).0 == second.0 by {
      assert HandleCalls(env, [], poll + 2, second.0, Pauses(env, b, second.1)).0 == second.0;
    }
  }

  /** After a seen cancellation neither of two such calls reaches the executor. */
  predicate StaysStopped(env: TurnEnv, call: Block, poll: nat, g: GuardState) {
    env.cancel(poll) ==> HandleCalls(env, [call, call], poll, g, false).0 == g
  }

  lemma {:induction false} StaysCancelled(cancel: nat -> bool, m: nat, n: nat)
    requires m <= n && cancel(m) && forall k: nat :: cancel(k) ==> cancel(k + 1)
    ensures cancel(n)
  {
    if m < n { StaysCancelled(cancel, m, n - 1); }
  }

  /** So nothing runs after a seen cancellation, for a call that checks and guards let through, iff the token stays cancelled. */
  lemma StaysStoppedIffMonotone(env: TurnEnv, call: Block)
    requires env.refusal(call).None? && env.guards.maxToolCalls.None?
    requires RepeatThreshold(NameOf(call), env.guards.policies, env.guards.defaultThreshold).None?
    ensures (forall poll: nat, g: GuardState :: StaysStopped(env, call, poll, g)) <==> Monotone(env.cancel)
  {
    if forall poll: nat, g: GuardState :: StaysStopped(env, call, poll, g) {
      var g := GuardState([], 0, []);
      forall k: nat | env.cancel(k) ensures env.cancel(k + 1) {
        assert StaysStopped(env, call, k, g);
        if !env.cancel(k + 1) {
          ResumesIfTokenRelents(env, call, call, k, g);
          UnguardedCallRuns(env, g, call);
        }
      }
      forall m: nat, n: nat | m <= n && env.cancel(m) ensures env.cancel(n) { StaysCancelled(env.cancel, m, n); }
    }
    if Monotone(env.cancel) {
      forall poll: nat, g: GuardState ensures StaysStopped(env, call, poll, g) {
        if env.cancel(poll) { NothingRunsAfterCancellation(env, [call, call], poll, g, false); }
      }
    }
  }

  lemma UnguardedCallRuns(env: TurnEnv, g: GuardState, call: Block)
    requires env.refusal(call).None? && env.guards.maxToolCalls.None?
    requires RepeatThreshold(NameOf(call), env.guards.policies, env.guards.defaultThreshold).None?
    ensures ExecuteTool(env, g, call).0 != g
  {
    assert |g.calls + [RequestOf(call)]| != |g.calls|;
  }

  lemma {:induction false} CountExecutedCons(r: ToolResult, rest: seq<ToolResult>)
    ensures CountExecuted([r] + rest) == (if r.executed then 1 else 0) + CountExecuted(rest)
  {
    if rest == [] {
      assert [r] + rest == [r] && [r][..0] == [];
    } else {
      CountExecutedCons(r, rest[..|rest| - 1]);
      assert ([r] + rest)[..|[r] + rest| - 1] == [r] + rest[..|rest| - 1];
    }
  }

  lemma {:induction false} ExecutedAtMostAll(results: seq<ToolResult>)
    ensures CountExecuted(results) <= |results|
  {
    if results != [] { ExecutedAtMostAll(results[..|results| - 1]); }
  }

  /** Ghost calls <= executed <= requested = executed + denied. */
  lemma {:induction false} ReportedCountsBoundCalls(env: TurnEnv, calls: seq<Block>, poll: nat, g: GuardState, paused: bool)
    ensures var (g', results) := HandleCalls(env, calls, poll, g, paused);
            && |g.calls| <= |g'.calls| <= |g.calls| + CountExecuted(results)
            && CountExecuted(results) <= |calls|
            && CountExecuted(results) + Denied(|calls|, CountExecuted(results)) == |calls|
    decreases calls
  {
    HandleCallsAligns(env, calls, poll, g, paused);
    ExecutedAtMostAll(HandleCalls(env, calls, poll, g, paused).1);
    if calls != [] {
      var (g1, r) := HandleCall(env, calls[0], poll, g, paused);
      var p := paused || Pauses(env, calls[0], r);
      OnlyCheckedCallsReachTheExecutor(env, calls[0], poll, g, paused);
      ReportedCountsBoundCalls(env, calls[1..], poll + 1, g1, p);
      CountExecutedCons(r, HandleCalls(env, calls[1..], poll + 1, g1, p).1);
    }
  }

  lemma ResultNamesItsCall(env: TurnEnv, call: Block, poll: nat, g: GuardState, paused: bool)
    requires IdFaithful(env.guards.behaviour)
    ensures HandleCall(env, call, poll, g, paused).1.toolUseId == IdOf(call)
  {
    GuardedNamesItsCall(env.guards, g, RequestOf(call));
  }

  /** Results align with the calls index by index; with a faithful executor result k names call k. */
  lemma {:induction false} ResultsNameTheirCalls(env: TurnEnv, calls: seq<Block>, poll: nat, g: GuardState, paused: bool)
    requires IdFaithful(env.guards.behaviour)
    ensures NameTheirCalls(calls, HandleCalls(env, calls, poll, g, paused).1)
    decreases calls
  {
    HandleCallsAligns(env, calls, poll, g, paused);
    if calls != [] {
      var (g1, r) := HandleCall(env, calls[0], poll, g, paused);
      ResultNamesItsCall(env, calls[0], poll, g, paused);
      ResultsNameTheirCalls(env, calls[1..], poll + 1, g1, paused || Pauses(env, calls[0], r));
    }
  }

  // ---------- One call, one event at a time ----------

  lemma {:induction false} ToolWritesPrefix(env: TurnEnv, t: TurnInfo, calls: seq<Block>, r1: seq<ToolResult>, r2: seq<ToolResult>)
    requires |calls| <= |r1| && |calls| <= |r2| && forall k :: 0 <= k < |calls| ==> r1[k] == r2[k]
    ensures ToolWrites(env, t, calls, r1) == ToolWrites(env, t, calls, r2)
  {
    if calls != [] { ToolWritesPrefix(env, t, calls[..|calls| - 1], r1, r2); }
  }

  lemma HandleOneMore(env: TurnEnv, front: seq<Block>, call: Block, poll: nat, g: GuardState)
    ensures var (g1, rs) := HandleCalls(env, front, poll, g, false);
            var (g2, r) := HandleCall(env, call, poll + |front|, g1, AnyPause(env, front, rs));
            HandleCalls(env, front + [call], poll, g, false) == (g2, rs + [r])
  {
    HandleCallsInTwo(env, front, [call], poll, g, false);
    var (g1, rs) := HandleCalls(env, front, poll, g, false);
    HandleJustOne(env, call, poll + |front|, g1, AnyPause(env, front, rs));
  }

  lemma HandleJustOne(env: TurnEnv, call: Block, poll: nat, g: GuardState, paused: bool)
    ensures var (g', r) := HandleCall(env, call, poll, g, paused);
            HandleCalls(env, [call], poll, g, paused) == (g', [r])
  {
    assert [call][1..] == [];
    var (g', r) := HandleCall(env, call, poll, g, paused);
    assert HandleCalls(env, [], poll + 1, g', paused || Pauses(env, call, r)) == (g', []);
    ConcatEmpty([r]);
  }

  lemma AnyPauseSnoc(env: TurnEnv, front: seq<Block>, rs: seq<ToolResult>, call: Block, r: ToolResult)
    requires |rs| == |front|
    ensures AnyPause(env, front + [call], rs + [r]) <==> AnyPause(env, front, rs) || Pauses(env, call, r)
  {
    if AnyPause(env, front, rs) {
      var k :| 0 <= k < |front| && k < |rs| && Pauses(env, front[k], rs[k]);
      assert Pauses(env, (front + [call])[k], (rs + [r])[k]);
    }
    if Pauses(env, call, r) { assert Pauses(env, (front + [call])[|front|], (rs + [r])[|front|]); }
    if AnyPause(env, front + [call], rs + [r]) {
      var k :| 0 <= k < |front| + 1 && k < |rs + [r]| && Pauses(env, (front + [call])[k], (rs + [r])[k]);
      if k < |front| { assert Pauses(env, front[k], rs[k]); }
    }
  }

  lemma ToolWritesSnoc(env: TurnEnv, t: TurnInfo, front: seq<Block>, rs: seq<ToolResult>, call: Block, r: ToolResult)
    requires |rs| == |front|
    ensures ToolWrites(env, t, front + [call], rs + [r]) == ToolWrites(env, t, front, rs) + CallWrites(env, t, call, r)
  {
    FrontOfSnoc(front, call);
    ToolWritesPrefix(env, t, front, rs + [r], rs);
  }

  lemma {:induction false} AnyCancelCons(cancel: nat -> bool, poll: nat, count: nat)
    requires count > 0
    ensures AnyCancel(cancel, poll, count) <==> cancel(poll) || AnyCancel(cancel, poll + 1, count - 1)
  {
    if count > 1 { AnyCancelCons(cancel, poll, count - 1); }
  }

  /** The stream is read up to the first poll that answers yes, or to its end. */
  lemma {:induction false} ConsumedIs(cancel: nat -> bool, events: seq<StandardEvent>, poll: nat, n: nat)
    requires n <= |events|
    requires n > 0 ==> !AnyCancel(cancel, poll, n - 1)
    requires n == |events| || (n > 0 && cancel(poll + n - 1))
    ensures Consumed(cancel, events, poll) == n
    decreases n
  {
    if n == 1 {
      assert !cancel(poll) ==> Consumed(cancel, events[1..], poll + 1) == 0;
    } else if n > 1 {
      AnyCancelCons(cancel, poll, n - 1);
      ConsumedIs(cancel, events[1..], poll + 1, n - 1);
    }
  }

  // ---------- What a whole turn keeps ----------

  lemma {:induction false} CallsKeepGuards(env: TurnEnv, calls: seq<Block>, poll: nat, g: GuardState, paused: bool)
    requires GuardInv(env.guards, g)
    ensures GuardInv(env.guards, HandleCalls(env, calls, poll, g, paused).0)
    decreases calls
  {
    if calls != [] {
      var (g1, r) := HandleCall(env, calls[0], poll, g, paused);
      ExecutionKeepsGuards(env.guards, g, RequestOf(calls[0]));
      CallsKeepGuards(env, calls[1..], poll + 1, g1, paused || Pauses(env, calls[0], r));
    }
  }

  lemma FinishKeepsGuards(env: TurnEnv, t: TurnInfo, done: TurnDoneData, poll: nat, g: GuardState, before: seq<Write>)
    requires GuardInv(env.guards, g)
    ensures GuardInv(env.guards, FinishTurn(env, t, done, poll, g, before).guard)
  {
    CallsKeepGuards(env, ToolUses(done.content), poll, g, false);
  }

  lemma TurnKeepsGuards(env: TurnEnv, t: TurnInfo, llm: LlmTurn, poll: nat, g: GuardState)
    requires GuardInv(env.guards, g)
    ensures GuardInv(env.guards, RunTurn(env, t, llm, poll, g).guard)
  {
    if !StreamCancelled(env, llm, poll) && !llm.fails && LastDone(Read(env, llm, poll)).Some? {
      var done, polls := LastDone(Read(env, llm, poll)).value, poll + 1 + |Read(env, llm, poll)|;
      TurnIsFinished(env, t, llm, poll, g, done, polls, Opening(env, t, llm, poll));
      FinishKeepsGuards(env, t, done, polls, g, Opening(env, t, llm, poll));
    } else {
      assert RunTurn(env, t, llm, poll, g).guard == g;
    }
  }

  /** The counts a turn reports: its tool calls, split into executed and denied. */
  predicate CountsAddUp(r: TurnResult) {
    && r.requested == |ToolUses(r.content)| == |r.results|
    && r.requested == r.executed + r.denied
    && r.executed == CountExecuted(r.results)
  }

  /** The result adds up, and the executor was called at most as often as it reports. */
  ghost predicate Adds(g: GuardState, out: TurnOut) {
    match out.result
    case None => out.guard == g
    case Some(r) => CountsAddUp(r) && |g.calls| <= |out.guard.calls| <= |g.calls| + r.executed
  }

  lemma FinishAdds(env: TurnEnv, t: TurnInfo, done: TurnDoneData, poll: nat, g: GuardState, before: seq<Write>)
    ensures Adds(g, FinishTurn(env, t, done, poll, g, before))
  {
    HandleCallsAligns(env, ToolUses(done.content), poll, g, false);
    ReportedCountsBoundCalls(env, ToolUses(done.content), poll, g, false);
  }

  lemma CancelledAdds(g: GuardState, polls: nat, writes: seq<Write>)
    ensures Adds(g, TurnOut(g, polls, writes, Some(CANCELLED_TURN)))
  {
    assert ToolUses([]) == [];
  }

  lemma EndAdds(env: TurnEnv, t: TurnInfo, e: Ending, g: GuardState)
    ensures Adds(g, EndTurn(env, t, e, g))
  {
    if e.cancelled {
      CancelledAdds(g, e.polls, e.writes + [CompletedWrite(t, CANCELLED_TURN)]);
    } else if e.done.Some? {
      EndIsFinish(env, t, e, e.done.value, g);
      FinishAdds(env, t, e.done.value, e.polls, g, e.writes);
    }
  }

  /** A turn that returns adds up; one that raises made no call. */
  lemma TurnAdds(env: TurnEnv, t: TurnInfo, llm: LlmTurn, poll: nat, g: GuardState)
    ensures Adds(g, RunTurn(env, t, llm, poll, g))
  {
    var e := EndingOf(env, t, llm, poll);
    TurnEnds(env, t, llm, poll, g, e);
    EndAdds(env, t, e, g);
  }

  ghost predicate NamesItsCalls(out: TurnOut) {
    out.result.Some? ==> NameTheirCalls(ToolUses(out.result.value.content), out.result.value.results)
  }

  lemma EndNamesItsCalls(env: TurnEnv, t: TurnInfo, e: Ending, g: GuardState)
    requires IdFaithful(env.guards.behaviour)
    ensures NamesItsCalls(EndTurn(env, t, e, g))
  {
    assert ToolUses([]) == [];
    if !e.cancelled && e.done.Some? {
      ResultsNameTheirCalls(env, ToolUses(e.done.value.content), e.polls, g, false);
    }
  }

  lemma TurnNamesItsCalls(env: TurnEnv, t: TurnInfo, llm: LlmTurn, poll: nat, g: GuardState)
    requires IdFaithful(env.guards.behaviour)
    ensures NamesItsCalls(RunTurn(env, t, llm, poll, g))
  {
    var e := EndingOf(env, t, llm, poll);
    TurnEnds(env, t, llm, poll, g, e);
    EndNamesItsCalls(env, t, e, g);
  }

  /** What the executor answers is what the turn keeps, through both guards; an exception becomes a failed result. */
  lemma AnswerPassesThrough(env: TurnEnv, call: Block, poll: nat, g: GuardState, paused: bool)
    requires HandleCall(env, call, poll, g, paused).0.calls != g.calls
    ensures var (g', r) := HandleCall(env, call, poll, g, paused);
            match env.guards.behaviour(g'.calls)
            case Returned(answer) => r.ok == answer.ok && r.content == answer.content && r.error == answer.error
            case Raised(error) => !r.ok && r.error == Some(error)
  {
    ReachesTheExecutorIff(env.guards, g, RequestOf(call));
  }

  /**
   A call is reported as executed iff it comes to the guards, and reaches the executor iff the guards let it
   through as well: so exactly the calls that a guard refuses are reported without having been made.
   */
  lemma ReportedExecutedIff(env: TurnEnv, call: Block, poll: nat, g: GuardState, paused: bool)
    ensures var (g', r) := HandleCall(env, call, poll, g, paused);
            var comes := !env.cancel(poll) && !paused && env.refusal(call).None?;
            var refused := CapReached(env.guards, g) || RepeatReached(env.guards, g, RequestOf(call));
            && (r.executed <==> comes)
            && (g'.calls == g.calls + [RequestOf(call)] <==> comes && !refused)
            && (r.executed && g'.calls == g.calls <==> comes && refused)
  {
    ReachesTheExecutorIff(env.guards, g, RequestOf(call));
    ExecutionAddsAtMostOneCall(env.guards, g, RequestOf(call));
    assert |g.calls + [RequestOf(call)]| != |g.calls|;
  }

  // ---------- How a turn says it ended ----------

  lemma {:induction false} AnyCancelInTwo(cancel: nat -> bool, poll: nat, m: nat, n: nat)
    ensures AnyCancel(cancel, poll, m + n) <==> AnyCancel(cancel, poll, m) || AnyCancel(cancel, poll + m, n)
  {
    if n > 0 { AnyCancelInTwo(cancel, poll, m, n - 1); }
  }

  /** Cancelled if any poll of the turn said yes, else paused if a pause tool succeeded, else as the model says. */
  ghost predicate EndsAsItShould(env: TurnEnv, poll: nat, done: Option<TurnDoneData>, out: TurnOut) {
    out.result.Some? ==>
      && var r := out.result.value;
         && poll <= out.polls
         && r.paused == AnyPause(env, ToolUses(r.content), r.results)
         && if AnyCancel(env.cancel, poll, out.polls - poll) then r.stopReason == "cancelled"
            else done.Some? && r.content == done.value.content
                 && r.stopReason == if r.paused then env.pauseStopReason else done.value.stopReason
  }

  lemma CancelledEndsAsItShould(env: TurnEnv, poll: nat, done: Option<TurnDoneData>, g: GuardState, polls: nat, writes: seq<Write>)
    requires poll <= polls && AnyCancel(env.cancel, poll, polls - poll)
    ensures EndsAsItShould(env, poll, done, TurnOut(g, polls, writes, Some(CANCELLED_TURN)))
  {
    assert ToolUses([]) == [];
  }

  lemma FinishReports(env: TurnEnv, t: TurnInfo, done: TurnDoneData, polls: nat, g: GuardState, writes: seq<Write>)
    ensures var calls := ToolUses(done.content);
            var out := FinishTurn(env, t, done, polls, g, writes);
            && out.polls == polls + |calls| && out.result.Some?
            && var r := out.result.value;
               && r.content == done.content && r.paused == AnyPause(env, calls, r.results)
               && r.stopReason == FinalReason(env, done, AnyCancel(env.cancel, polls, |calls|), r.paused)
  {
  }

  lemma ReportEndsAsItShould(env: TurnEnv, poll: nat, polls: nat, n: nat, done: TurnDoneData, out: TurnOut, r: TurnResult)
    requires out.result == Some(r) && poll <= polls && out.polls == polls + n && !AnyCancel(env.cancel, poll, polls - poll)
    requires r.content == done.content && r.paused == AnyPause(env, ToolUses(done.content), r.results)
    requires r.stopReason == FinalReason(env, done, AnyCancel(env.cancel, polls, n), r.paused)
    ensures EndsAsItShould(env, poll, Some(done), out)
  {
    AnyCancelInTwo(env.cancel, poll, polls - poll, n);
  }

  lemma FinishEndsAsItShould(
    env: TurnEnv, t: TurnInfo, done: TurnDoneData, poll: nat, polls: nat, g: GuardState, writes: seq<Write>)
    requires poll <= polls && !AnyCancel(env.cancel, poll, polls - poll)
    ensures EndsAsItShould(env, poll, Some(done), FinishTurn(env, t, done, polls, g, writes))
  {
    var out := FinishTurn(env, t, done, polls, g, writes);
    FinishReports(env, t, done, polls, g, writes);
    ReportEndsAsItShould(env, poll, polls, |ToolUses(done.content)|, done, out, out.result.value);
  }

  /** Main result: the stop reason of a turn, over all its polls of the token: before, in the stream and between the calls. */
  lemma TurnEndsAsItShould(env: TurnEnv, t: TurnInfo, llm: LlmTurn, poll: nat, g: GuardState)
    ensures EndsAsItShould(env, poll, DoneOf(env, llm, poll), RunTurn(env, t, llm, poll, g))
  {
    var e := EndingOf(env, t, llm, poll);
    TurnEnds(env, t, llm, poll, g, e);
    AnyCancelCons(env.cancel, poll, e.polls - poll);
    if e.cancelled {
      CancelledEndsAsItShould(env, poll, e.done, g, e.polls, e.writes + [CompletedWrite(t, CANCELLED_TURN)]);
    } else if e.done.Some? {
      EndIsFinish(env, t, e, e.done.value, g);
      FinishEndsAsItShould(env, t, e.done.value, poll, e.polls, g, e.writes);
    }
  }
}
