/** Run records and their lifecycle: who may continue whom, and with which status a finished run is left. */
module RunPersistence {
  import opened Options

  datatype RunStatus =
    | Pending
    | Active
    | Completed
    | Continuable
    | WaitingUser
    | Resuming
    | Resumed
    | NeedsAttention
    | Cancelled
    | FailedRun

  datatype AgentKind = Orchestrator | Subagent

  datatype RunScope = RunScope(
    projectId: string, agentKind: AgentKind, subagentTaskId: Option<string>, parentRunId: Option<string>)

  datatype RunBudget = RunBudget(maxTurns: nat, maxToolCalls: nat, maxWallClockS: nat)

  datatype RunRecord = RunRecord(
    runId: string,
    scope: RunScope,
    status: RunStatus,
    runIndex: nat,
    continuationIndex: nat,
    maxContinuations: int,
    budget: RunBudget,
    stopReason: Option<string>,
    turnsCount: nat,
    engineState: Option<string>)

  type Runs = map<string, RunRecord>

  /** A port call may raise, find nothing, or give the record. */
  datatype Answer = Record(record: RunRecord) | Nothing | Raises

  datatype Completion = Completion(stopReason: string, status: RunStatus, turnsCount: nat, engineState: Option<string>)

  // ---------- Policies over stop reasons ----------

  predicate IsContinuableStop(reason: string) {
    reason == "max_turns" || reason == "loop_break:max_turns"
  }

  predicate NeedsAttentionStop(reason: string) {
    reason in {
      "max_turns", "max_wall_clock", "error", "loop_break:no_progress", "timeout_ms", "loop_break:max_turns",
      "loop_break:max_tool_calls", "loop_break:max_wall_clock", "loop_break:repeated_tool_call", "repeated_tool_call",
      "empty_response"}
  }

  predicate ShouldAutoContinue(enabled: bool, scope: RunScope, reason: string, index: nat, max: int) {
    enabled && scope.agentKind.Orchestrator? && scope.subagentTaskId.None? && IsContinuableStop(reason) && index < max
  }

  function CompletionStatus(reason: string, canAutoContinue: bool): RunStatus {
    if reason == "cancelled" then Cancelled
    else if reason == "ask_user" then WaitingUser
    else if canAutoContinue then Continuable
    else if NeedsAttentionStop(reason) then NeedsAttention
    else Completed
  }

  /** The status a run gets when its kernel has stopped. */
  function StatusAfter(r: RunRecord, reason: string): RunStatus {
    CompletionStatus(reason, ShouldAutoContinue(r.maxContinuations > 0, r.scope, reason, r.continuationIndex, r.maxContinuations))
  }

  /** A run is left continuable exactly when it is an orchestrator's own, ran out of turns, and has a continuation left. */
  lemma ContinuableIff(r: RunRecord, reason: string)
    ensures StatusAfter(r, reason) == Continuable <==>
            && r.scope.agentKind == Orchestrator && r.scope.subagentTaskId == None
            && IsContinuableStop(reason)
            && r.continuationIndex < r.maxContinuations
  {
  }

  // ---------- The port ----------

  datatype Op =
    | CreateRoot(scope: RunScope, budget: RunBudget, maxContinuations: int, runId: string)
    | CreateContinuation(previousId: string, engineState: string, runId: string)
    | MarkRunning(runId: string)
    | MarkCompleted(runId: string, completion: Completion)
    | MarkFailed(runId: string)
    | SetStatus(runId: string, status: RunStatus)

  function NewRecord(
    runs: Runs, scope: RunScope, budget: RunBudget, max: int, index: nat, engineState: Option<string>, runId: string): RunRecord
  {
    RunRecord(runId, scope, Pending, |runs| + 1, index, max, budget, None, 0, engineState)
  }

  function Created(
    runs: Runs, scope: RunScope, budget: RunBudget, max: int, index: nat, engineState: Option<string>, runId: string)
    : (Runs, Answer)
  {
    if max < 0 || runId in runs then (runs, Raises)
    else
      var r := NewRecord(runs, scope, budget, max, index, engineState, runId);
      (runs[runId := r], Record(r))
  }

  function Continued(runs: Runs, previousId: string, engineState: string, runId: string): (Runs, Answer) {
    if previousId !in runs then (runs, Nothing)
    else
      var p := runs[previousId];
      if p.continuationIndex + 1 > p.maxContinuations then (runs, Nothing)
      else Created(runs, p.scope.(parentRunId := Some(p.runId)), p.budget, p.maxContinuations, p.continuationIndex + 1,
                   Some(engineState), runId)
  }

  function Changed(r: RunRecord, op: Op): RunRecord {
    match op
    case MarkRunning(_) => r.(status := Active)
    case MarkCompleted(_, c) =>
      r.(status := c.status, stopReason := Some(c.stopReason), turnsCount := c.turnsCount, engineState := c.engineState)
    case MarkFailed(_) => r.(status := FailedRun)
    case SetStatus(_, status) => r.(status := status)
    case _ => r
  }

  function Apply(runs: Runs, op: Op): (Runs, Answer) {
    match op
    case CreateRoot(scope, budget, max, id) => Created(runs, scope, budget, max, 0, None, id)
    case CreateContinuation(previous, state, id) => Continued(runs, previous, state, id)
    case _ =>
      if op.runId !in runs then (runs, Nothing)
      else
        var r := Changed(runs[op.runId], op);
        (runs[op.runId := r], Record(r))
  }

  function ApplyAll(runs: Runs, ops: seq<Op>): Runs {
    if ops == [] then runs else Apply(ApplyAll(runs, ops[..|ops| - 1]), ops[|ops| - 1]).0
  }

  // ---------- What every interleaving keeps ----------

  /** What is settled when a run is created. */
  predicate SameOrigin(a: RunRecord, b: RunRecord) {
    && a.runId == b.runId && a.scope == b.scope && a.runIndex == b.runIndex
    && a.continuationIndex == b.continuationIndex && a.maxContinuations == b.maxContinuations && a.budget == b.budget
  }

  /** A continuation follows its parent by one, under the same scope, budget and limit. */
  predicate FollowsParent(runs: Runs, r: RunRecord) {
    r.continuationIndex > 0 ==>
      && r.scope.parentRunId.Some? && r.scope.parentRunId.value in runs
      && var p := runs[r.scope.parentRunId.value];
         && r.continuationIndex == p.continuationIndex + 1
         && r.maxContinuations == p.maxContinuations && r.budget == p.budget
         && r.scope == p.scope.(parentRunId := Some(p.runId))
  }

  predicate RunOk(runs: Runs, id: string)
    requires id in runs
  {
    && runs[id].runId == id
    && runs[id].continuationIndex <= runs[id].maxContinuations
    && FollowsParent(runs, runs[id])
  }

  ghost predicate Ok(runs: Runs) {
    forall id :: id in runs ==> RunOk(runs, id)
  }

  lemma NewRunKeepsOk(runs: Runs, r: RunRecord)
    requires Ok(runs) && r.runId !in runs && r.continuationIndex <= r.maxContinuations && FollowsParent(runs, r)
    ensures Ok(runs[r.runId := r])
  {
    var after := runs[r.runId := r];
    forall id | id in after ensures RunOk(after, id) {
      if id != r.runId { assert RunOk(runs, id); }
    }
  }

  lemma ChangeKeepsOk(runs: Runs, r: RunRecord)
    requires Ok(runs) && r.runId in runs && SameOrigin(runs[r.runId], r)
    ensures Ok(runs[r.runId := r])
  {
    var after := runs[r.runId := r];
    assert RunOk(runs, r.runId);
    forall id | id in after ensures RunOk(after, id) {
      assert RunOk(runs, id);
    }
  }

  lemma StepKeepsOk(runs: Runs, op: Op)
    requires Ok(runs)
    ensures Ok(Apply(runs, op).0)
  {
    match op
    case CreateRoot(scope, budget, max, id) =>
      if max >= 0 && id !in runs { NewRunKeepsOk(runs, NewRecord(runs, scope, budget, max, 0, None, id)); }
    case CreateContinuation(previous, state, id) =>
      if previous in runs && Continued(runs, previous, state, id).1.Record? {
        assert RunOk(runs, previous);
        NewRunKeepsOk(runs, Continued(runs, previous, state, id).1.record);
      }
    case _ =>
      if op.runId in runs {
        assert RunOk(runs, op.runId);
        ChangeKeepsOk(runs, Changed(runs[op.runId], op));
      }
  }

  lemma {:induction false} RunsStayOk(runs: Runs, ops: seq<Op>)
    requires Ok(runs)
    ensures Ok(ApplyAll(runs, ops))
  {
    if ops != [] {
      RunsStayOk(runs, ops[..|ops| - 1]);
      StepKeepsOk(ApplyAll(runs, ops[..|ops| - 1]), ops[|ops| - 1]);
    }
  }

  /** Main result: over any sequence of port calls, no continuation index passes its limit, and every continuation follows its parent. */
  lemma ContinuationsStayWithinLimit(ops: seq<Op>, id: string)
    requires id in ApplyAll(map[], ops)
    ensures var runs := ApplyAll(map[], ops);
            && 0 <= runs[id].continuationIndex <= runs[id].maxContinuations
            && FollowsParent(runs, runs[id])
  {
    RunsStayOk(map[], ops);
    assert RunOk(ApplyAll(map[], ops), id);
  }

  lemma {:induction false} OriginsStay(runs: Runs, ops: seq<Op>, id: string)
    requires Ok(runs) && id in runs
    ensures id in ApplyAll(runs, ops) && SameOrigin(runs[id], ApplyAll(runs, ops)[id])
  {
    if ops != [] {
      var front, op := ops[..|ops| - 1], ops[|ops| - 1];
      OriginsStay(runs, front, id);
      RunsStayOk(runs, front);
      var before := ApplyAll(runs, front);
      if !op.CreateRoot? && !op.CreateContinuation? && op.runId in before { assert RunOk(before, op.runId); }
    }
  }

  /** A continuation is created exactly when its parent exists with one left and its id is new; only a used id raises. */
  lemma ContinuedIff(runs: Runs, previousId: string, engineState: string, runId: string)
    requires Ok(runs)
    ensures var answer := Continued(runs, previousId, engineState, runId).1;
            && (answer.Record? <==> previousId in runs && runs[previousId].continuationIndex < runs[previousId].maxContinuations && runId !in runs)
            && (answer.Nothing? <==> previousId !in runs || runs[previousId].continuationIndex == runs[previousId].maxContinuations)
  {
    if previousId in runs { assert RunOk(runs, previousId); }
  }

  /** A run that its kernel left continuable can be continued under any fresh id. */
  lemma ContinuableCanContinue(runs: Runs, id: string, reason: string, engineState: string, nextId: string)
    requires Ok(runs) && id in runs && runs[id].status == StatusAfter(runs[id], reason) == Continuable && nextId !in runs
    ensures Continued(runs, id, engineState, nextId).1.Record?
  {
    ContinuableIff(runs[id], reason);
    ContinuedIff(runs, id, engineState, nextId);
  }

  /** The runs from `id` back to the root, at most `fuel` of them. */
  function Ancestors(runs: Runs, id: string, fuel: nat): seq<string>
    decreases fuel
  {
    if fuel == 0 || id !in runs then []
    else if runs[id].continuationIndex == 0 || runs[id].scope.parentRunId.None? then [id]
    else [id] + Ancestors(runs, runs[id].scope.parentRunId.value, fuel - 1)
  }

  /** From a run to its root there are as many runs as its index says, plus one: so at most `max_continuations` + 1. */
  lemma {:induction false} ChainLength(runs: Runs, id: string, fuel: nat)
    requires Ok(runs) && id in runs && fuel > runs[id].continuationIndex
    ensures |Ancestors(runs, id, fuel)| == runs[id].continuationIndex + 1 <= runs[id].maxContinuations + 1
    decreases fuel
  {
    assert RunOk(runs, id);
    if runs[id].continuationIndex > 0 {
      ChainLength(runs, runs[id].scope.parentRunId.value, fuel - 1);
    }
  }

  // ---------- The port as the SQLite host keeps it ----------

  class SQLiteRunPersistence {
    var runs: Runs

    constructor ()
      ensures runs == map[]
    {
      runs := map[];
    }

    method LoadRun(runId: string) returns (record: Option<RunRecord>)
      ensures record == if runId in runs then Some(runs[runId]) else None
    {
      record := if runId in runs then Some(runs[runId]) else None;
    }

    method Create(scope: RunScope, budget: RunBudget, max: int, index: nat, engineState: Option<string>, runId: string) returns (answer: Answer)
      modifies this
      ensures (runs, answer) == Created(old(runs), scope, budget, max, index, engineState, runId)
    {
      if max < 0 { return Raises; }
      var existing := LoadRun(runId);
      if existing.Some? { return Raises; }
      var record := RunRecord(runId, scope, Pending, |runs| + 1, index, max, budget, None, 0, engineState);
      runs := runs[runId := record];
      return Record(record);
    }

    method CreateRootRun(scope: RunScope, budget: RunBudget, max: int, runId: string) returns (answer: Answer)
      modifies this
      ensures (runs, answer) == Apply(old(runs), CreateRoot(scope, budget, max, runId))
    {
      answer := Create(scope, budget, max, 0, None, runId);
    }

    method CreateContinuationRun(previousId: string, engineState: string, runId: string) returns (answer: Answer)
      modifies this
      ensures (runs, answer) == Apply(old(runs), CreateContinuation(previousId, engineState, runId))
    {
      var previous := LoadRun(previousId);
      if previous.None? { return Nothing; }
      var next := previous.value.continuationIndex + 1;
      if next > previous.value.maxContinuations { return Nothing; }
      answer := Create(previous.value.scope.(parentRunId := Some(previous.value.runId)), previous.value.budget,
                       previous.value.maxContinuations, next, Some(engineState), runId);
    }

    /** `_update`, with the changes of one of the marking calls. */
    method Update(op: Op) returns (answer: Answer)
      requires !op.CreateRoot? && !op.CreateContinuation?
      modifies this
      ensures (runs, answer) == Apply(old(runs), op)
    {
      if op.runId !in runs { return Nothing; }
      var record := Changed(runs[op.runId], op);
      runs := runs[op.runId := record];
      return Record(record);
    }
  }
}
