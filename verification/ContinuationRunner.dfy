/**
 The two runners around the kernel: the root run of a request, and the claimed job that continues an
 earlier run. The kernel and the form of the handed-over state are parameters here.
 */
module ContinuationRunner {
  import opened Options
  import opened Transcript
  import opened ContinuationState
  import P = RunPersistence
  import Q = ContinuationQueue

  datatype Limits = Limits(maxTurns: Option<nat>, maxToolCalls: Option<nat>, timeoutMs: Option<nat>)

  function LimitsOf(b: P.RunBudget): Limits {
    Limits(Some(b.maxTurns), Some(b.maxToolCalls), Some(b.maxWallClockS * 1000))
  }

  datatype KernelRequest = KernelRequest(runId: string, messages: seq<Message>, limits: Limits, turnOffset: int)

  /** How the kernel's run ends: it returns, raises, or its task is cancelled from outside. */
  datatype Execution = Returned(stopReason: string, messages: seq<Message>, turnsCount: nat) | Raised(error: string) | TaskCancelled

  type Kernel = KernelRequest -> Execution

  /** `to_json` and `from_json` of the state; None where they raise. */
  datatype HandOver = HandOver(write: State -> Option<string>, read: Option<string> -> Option<State>)

  datatype Host = Host(runs: P.Runs, jobs: Q.Jobs)

  datatype Times = Times(startMs: int, heartbeatMs: int, doneMs: int, nowMs: int, retryAtMs: Option<int>)

  // ---------- What both runners do with a finished kernel ----------

  /** A kernel run whose state cannot be written raises after all, inside the runner's failure handling. */
  function Settled(e: Execution, offset: int, h: HandOver): Execution {
    if e.Returned? && h.write(State(e.messages, offset + e.turnsCount)).None? then Raised("") else e
  }

  function CompletionOf(run: P.RunRecord, e: Execution, offset: int, h: HandOver): P.Op {
    match e
    case Returned(reason, messages, n) =>
      P.MarkCompleted(run.runId, P.Completion(reason, P.StatusAfter(run, reason), n, h.write(State(messages, offset + n))))
    case Raised(_) => P.MarkFailed(run.runId)
    case TaskCancelled => P.MarkCompleted(run.runId, P.Completion("cancelled", P.Cancelled, 0, None))
  }

  /** The runs once `run` has been marked running, has run, and has been marked as its kernel ended. */
  function Executed(runs: P.Runs, run: P.RunRecord, e: Execution, offset: int, h: HandOver): P.Runs {
    P.Apply(P.Apply(runs, P.MarkRunning(run.runId)).0, CompletionOf(run, e, offset, h)).0
  }

  function JobEnd(id: string, e: Execution, t: Times): Q.Op {
    match e
    case Returned(_, _, _) => Q.Succeed(id, t.doneMs, t.nowMs)
    case Raised(error) => Q.Fail(id, error, t.retryAtMs, t.doneMs, t.nowMs)
    case TaskCancelled => Q.Fail(id, "cancelled", t.retryAtMs, t.doneMs, t.nowMs)
  }

  function Chosen(limits: Option<Limits>, budget: P.RunBudget): Limits {
    if limits.Some? then limits.value else LimitsOf(budget)
  }

  // ---------- AgentRunner.run ----------

  datatype RootRequest = RootRequest(
    scope: P.RunScope, budget: P.RunBudget, maxContinuations: int, runId: string, messages: seq<Message>, limits: Option<Limits>)

  function RootKernelRequest(r: RootRequest): KernelRequest {
    KernelRequest(r.runId, r.messages, Chosen(r.limits, r.budget), 0)
  }

  /** None where creating the run raises. */
  function RootRun(runs: P.Runs, r: RootRequest, kernel: Kernel, h: HandOver): Option<P.Runs> {
    var (created, answer) := P.Apply(runs, P.CreateRoot(r.scope, r.budget, r.maxContinuations, r.runId));
    if answer.Record? then Some(Executed(created, answer.record, Settled(kernel(RootKernelRequest(r)), 0, h), 0, h)) else None
  }

  // ---------- ContinuationRunner.run_claimed_job ----------

  /** What the set-up before the kernel comes to. */
  datatype Setup = NoPrevious | SetupRaises | Ready(run: P.RunRecord, state: State)

  /** The run to continue into: the one a former attempt has made, or a new one. */
  function EnsuredRun(runs: P.Runs, previousId: string, nextId: string, text: Option<string>): (P.Runs, P.Answer) {
    if nextId in runs then (runs, P.Record(runs[nextId]))
    else if text.None? then (runs, P.Raises)
    else P.Apply(runs, P.CreateContinuation(previousId, text.value, nextId))
  }

  function SetUp(runs: P.Runs, spec: Q.JobSpec, h: HandOver): (P.Runs, Setup) {
    if spec.previousRunId !in runs then (runs, NoPrevious)
    else
      var state := h.read(runs[spec.previousRunId].engineState);
      if state.None? || (spec.nextRunId !in runs && h.write(state.value).None?) then (runs, SetupRaises)
      else
        var (ensured, answer) := EnsuredRun(runs, spec.previousRunId, spec.nextRunId, h.write(state.value));
        if answer.Record? then (ensured, Ready(answer.record, state.value)) else (ensured, SetupRaises)
  }

  function JobKernelRequest(run: P.RunRecord, state: State, limits: Option<Limits>): KernelRequest {
    KernelRequest(run.runId, state.messages, Chosen(limits, run.budget), state.turnOffset)
  }

  ghost function RunClaimedJob(host: Host, job: Q.Job, t: Times, limits: Option<Limits>, kernel: Kernel, h: HandOver): (Host, Setup) {
    var started := Q.Apply(host.jobs, Q.Start(job.jobId, t.heartbeatMs, t.startMs));
    var (runs, setup) := SetUp(host.runs, job.spec, h);
    match setup
    case NoPrevious =>
      (Host(runs, Q.Apply(started, Q.Fail(job.jobId, "previous run not found", t.retryAtMs, t.doneMs, t.nowMs))), setup)
    case SetupRaises => (Host(runs, started), setup)
    case Ready(run, state) =>
      var e := Settled(kernel(JobKernelRequest(run, state, limits)), state.turnOffset, h);
      var executed := Executed(runs, run, e, state.turnOffset, h);
      // A job that has disappeared raises once its run is marked completed, and the run is marked failed after all.
      (Host(if e.Returned? && job.jobId !in host.jobs then P.Apply(executed, P.MarkFailed(run.runId)).0 else executed,
            Q.Apply(started, JobEnd(job.jobId, e, t))), setup)
  }

  // ---------- Properties ----------

  lemma SettledReturns(e: Execution, offset: int, h: HandOver)
    ensures Settled(e, offset, h).Returned? ==>
              Settled(e, offset, h) == e && h.write(State(e.messages, offset + e.turnsCount)).Some?
  {
  }

  lemma SetUpKeepsOk(runs: P.Runs, spec: Q.JobSpec, h: HandOver)
    requires P.Ok(runs)
    ensures P.Ok(SetUp(runs, spec, h).0)
  {
    if spec.previousRunId in runs && h.read(runs[spec.previousRunId].engineState).Some? && spec.nextRunId !in runs {
      var text := h.write(h.read(runs[spec.previousRunId].engineState).value);
      if text.Some? { P.StepKeepsOk(runs, P.CreateContinuation(spec.previousRunId, text.value, spec.nextRunId)); }
    }
  }

  lemma ExecutedKeepsOk(runs: P.Runs, run: P.RunRecord, e: Execution, offset: int, h: HandOver)
    requires P.Ok(runs)
    ensures P.Ok(Executed(runs, run, e, offset, h))
  {
    P.StepKeepsOk(runs, P.MarkRunning(run.runId));
    P.StepKeepsOk(P.Apply(runs, P.MarkRunning(run.runId)).0, CompletionOf(run, e, offset, h));
  }

  /** A claimed job keeps what both tables keep. */
  lemma ClaimedJobKeepsOk(host: Host, job: Q.Job, t: Times, limits: Option<Limits>, kernel: Kernel, h: HandOver)
    requires P.Ok(host.runs) && Q.Ok(host.jobs)
    ensures var after := RunClaimedJob(host, job, t, limits, kernel, h).0;
            P.Ok(after.runs) && Q.Ok(after.jobs)
  {
    var start := Q.Start(job.jobId, t.heartbeatMs, t.startMs);
    var started := Q.Apply(host.jobs, start);
    Q.StepKeepsOk(host.jobs, start);
    SetUpKeepsOk(host.runs, job.spec, h);
    var (runs, setup) := SetUp(host.runs, job.spec, h);
    match setup
    case NoPrevious => Q.StepKeepsOk(started, Q.Fail(job.jobId, "previous run not found", t.retryAtMs, t.doneMs, t.nowMs));
    case SetupRaises =>
    case Ready(run, state) =>
      var e := Settled(kernel(JobKernelRequest(run, state, limits)), state.turnOffset, h);
      ExecutedKeepsOk(runs, run, e, state.turnOffset, h);
      P.StepKeepsOk(Executed(runs, run, e, state.turnOffset, h), P.MarkFailed(run.runId));
      Q.StepKeepsOk(started, JobEnd(job.jobId, e, t));
  }

  /** The set-up raises outside any failure handling when the state cannot be read or written again, or a new continuation is refused. */
  predicate SetUpFails(runs: P.Runs, spec: Q.JobSpec, h: HandOver) {
    && spec.previousRunId in runs
    && (h.read(runs[spec.previousRunId].engineState).None?
        || (spec.nextRunId !in runs && h.write(h.read(runs[spec.previousRunId].engineState).value).None?)
        || (spec.nextRunId !in runs
            && runs[spec.previousRunId].continuationIndex >= runs[spec.previousRunId].maxContinuations))
  }

  lemma SetUpRaisesIff(runs: P.Runs, spec: Q.JobSpec, h: HandOver)
    requires P.Ok(runs)
    ensures SetUp(runs, spec, h).1.SetupRaises? <==> SetUpFails(runs, spec, h)
  {
    if spec.previousRunId in runs { assert P.RunOk(runs, spec.previousRunId); }
  }

  /**
   A claimed job is left RUNNING, for a reclaim to find, exactly when it had an attempt left and its
   set-up fails; otherwise it is requeued, succeeded or dead-lettered.
   */
  lemma JobIsLeftRunningIff(host: Host, job: Q.Job, t: Times, limits: Option<Limits>, kernel: Kernel, h: HandOver)
    requires P.Ok(host.runs) && job.jobId in host.jobs && host.jobs[job.jobId] == job && job.status == Q.Running
    ensures var after := RunClaimedJob(host, job, t, limits, kernel, h).0.jobs;
            && job.jobId in after
            && (after[job.jobId].status == Q.Running <==> !Q.Exhausted(job) && SetUpFails(host.runs, job.spec, h))
  {
    SetUpRaisesIff(host.runs, job.spec, h);
  }

  /** One input: a job that would continue a run with no continuation left stays RUNNING. */
  lemma RefusedContinuationLeavesTheJobRunning(job: Q.Job, r: P.RunRecord, t: Times, limits: Option<Limits>, kernel: Kernel, h: HandOver)
    requires r.runId == "a" && r.continuationIndex == 0 && r.maxContinuations == 0
    requires job.jobId == "j" && job.status == Q.Running && job.attempts == 0 && job.spec.maxAttempts == 1
    requires job.spec.previousRunId == "a" && job.spec.nextRunId == "b"
    ensures var host := Host(map["a" := r], map["j" := job]);
            var after := RunClaimedJob(host, job, t, limits, kernel, h).0.jobs;
            "j" in after && after["j"].status == Q.Running
  {
    var host := Host(map["a" := r], map["j" := job]);
    assert forall id :: id in host.runs ==> id == "a";
    assert P.RunOk(host.runs, "a");
    assert "b" !in host.runs by { assert "a"[0] != "b"[0]; }
    JobIsLeftRunningIff(host, job, t, limits, kernel, h);
  }

  /** The status a job ends in, given the attempts it has had by then. */
  function EndStatus(job: Q.Job, attempts: nat, setup: Setup, limits: Option<Limits>, kernel: Kernel, h: HandOver): Q.Status {
    if setup.SetupRaises? then Q.Running
    else if setup.Ready? && Settled(kernel(JobKernelRequest(setup.run, setup.state, limits)), setup.state.turnOffset, h).Returned?
    then Q.Succeeded
    else if attempts < job.spec.maxAttempts then Q.Queued
    else Q.DeadLetter
  }

  /** A claimed job with an attempt left uses one, and ends as its set-up and its kernel run did. */
  lemma ClaimedJobEndsAs(host: Host, job: Q.Job, t: Times, limits: Option<Limits>, kernel: Kernel, h: HandOver)
    requires job.jobId in host.jobs && host.jobs[job.jobId] == job && job.status == Q.Running && !Q.Exhausted(job)
    ensures var (after, setup) := RunClaimedJob(host, job, t, limits, kernel, h);
            && job.jobId in after.jobs
            && after.jobs[job.jobId].attempts == job.attempts + 1
            && after.jobs[job.jobId].status == EndStatus(job, job.attempts + 1, setup, limits, kernel, h)
  {
  }

  lemma SetUpLeavesOthers(runs: P.Runs, spec: Q.JobSpec, h: HandOver, id: string)
    requires id in runs && id != spec.nextRunId
    ensures var (after, setup) := SetUp(runs, spec, h);
            && id in after && after[id] == runs[id]
            && (P.Ok(runs) && setup.Ready? ==> setup.run.runId == spec.nextRunId)
  {
    if P.Ok(runs) && spec.nextRunId in runs { assert P.RunOk(runs, spec.nextRunId); }
  }

  lemma ExecutedLeavesOthers(runs: P.Runs, run: P.RunRecord, e: Execution, offset: int, h: HandOver, id: string)
    requires id in runs && id != run.runId
    ensures var after := Executed(runs, run, e, offset, h); id in after && after[id] == runs[id]
  {
  }

  /** No run but the job's next run is touched. */
  lemma OtherRunsStay(host: Host, job: Q.Job, t: Times, limits: Option<Limits>, kernel: Kernel, h: HandOver, id: string)
    requires P.Ok(host.runs) && id in host.runs && id != job.spec.nextRunId
    ensures var after := RunClaimedJob(host, job, t, limits, kernel, h).0.runs;
            id in after && after[id] == host.runs[id]
  {
    var (runs, setup) := SetUp(host.runs, job.spec, h);
    SetUpLeavesOthers(host.runs, job.spec, h, id);
    if setup.Ready? {
      var e := Settled(kernel(JobKernelRequest(setup.run, setup.state, limits)), setup.state.turnOffset, h);
      ExecutedLeavesOthers(runs, setup.run, e, setup.state.turnOffset, h, id);
    }
  }

  /** How the record of an executed run reads. */
  lemma ExecutedRecord(runs: P.Runs, run: P.RunRecord, e: Execution, offset: int, h: HandOver)
    requires run.runId in runs && runs[run.runId] == run && e.Returned?
    ensures var after := Executed(runs, run, e, offset, h);
            && run.runId in after
            && P.SameOrigin(after[run.runId], run)
            && after[run.runId].status == P.StatusAfter(run, e.stopReason)
            && after[run.runId].turnsCount == e.turnsCount
            && after[run.runId].engineState == h.write(State(e.messages, offset + e.turnsCount))
  {
  }

  lemma SameOriginSameStatus(a: P.RunRecord, b: P.RunRecord, reason: string)
    requires P.SameOrigin(a, b)
    ensures P.StatusAfter(a, reason) == P.StatusAfter(b, reason)
  {
  }

  /**
   Main result: a run that either runner leaves continuable can be continued under any fresh id, and a job
   for it gets as far as running iff the state the run has left can be read and written again.
   */
  lemma LeftContinuableCanContinue(runs: P.Runs, run: P.RunRecord, e: Execution, offset: int, h: HandOver, spec: Q.JobSpec, text: string)
    requires P.Ok(runs) && run.runId in runs && runs[run.runId] == run && e.Returned?
    requires Executed(runs, run, e, offset, h)[run.runId].status == P.Continuable
    requires spec.previousRunId == run.runId && spec.nextRunId !in Executed(runs, run, e, offset, h)
    ensures P.Continued(Executed(runs, run, e, offset, h), run.runId, text, spec.nextRunId).1.Record?
    ensures var state := h.read(h.write(State(e.messages, offset + e.turnsCount)));
            SetUp(Executed(runs, run, e, offset, h), spec, h).1.Ready? <==> state.Some? && h.write(state.value).Some?
  {
    var after := Executed(runs, run, e, offset, h);
    ExecutedKeepsOk(runs, run, e, offset, h);
    ExecutedRecord(runs, run, e, offset, h);
    P.ContinuableCanContinue(after, run.runId, e.stopReason, text, spec.nextRunId);
    SetUpRaisesIff(after, spec, h);
  }

  // ---------- The runners as objects ----------

  class AgentRunner {
    const persistence: P.SQLiteRunPersistence
    const kernel: Kernel
    const handOver: HandOver

    constructor (persistence: P.SQLiteRunPersistence, kernel: Kernel, handOver: HandOver)
      ensures this.persistence == persistence && this.kernel == kernel && this.handOver == handOver
    {
      this.persistence, this.kernel, this.handOver := persistence, kernel, handOver;
    }

    /** False where creating the run raises. */
    method Run(request: RootRequest) returns (created: bool)
      modifies persistence
      ensures var after := RootRun(old(persistence.runs), request, kernel, handOver);
              created == after.Some? && persistence.runs == if created then after.value else old(persistence.runs)
    {
      var answer := persistence.CreateRootRun(request.scope, request.budget, request.maxContinuations, request.runId);
      if !answer.Record? { return false; }
      var run := answer.record;
      var running := persistence.Update(P.MarkRunning(run.runId));
      var e := Settled(kernel(RootKernelRequest(request)), 0, handOver);
      var done := persistence.Update(CompletionOf(run, e, 0, handOver));
      return true;
    }
  }

  class ContinuationRunnerObject {
    const queue: Q.SQLiteContinuationQueue
    const persistence: P.SQLiteRunPersistence
    const kernel: Kernel
    const handOver: HandOver

    constructor (queue: Q.SQLiteContinuationQueue, persistence: P.SQLiteRunPersistence, kernel: Kernel, handOver: HandOver)
      ensures this.queue == queue && this.persistence == persistence && this.kernel == kernel && this.handOver == handOver
    {
      this.queue, this.persistence, this.kernel, this.handOver := queue, persistence, kernel, handOver;
    }

    method EnsureContinuationRun(previousId: string, nextId: string, state: State) returns (answer: P.Answer)
      modifies persistence
      ensures (persistence.runs, answer) == EnsuredRun(old(persistence.runs), previousId, nextId, handOver.write(state))
    {
      var existing := persistence.LoadRun(nextId);
      if existing.Some? { return P.Record(existing.value); }
      var text := handOver.write(state);
      if text.None? { return P.Raises; }
      answer := persistence.CreateContinuationRun(previousId, text.value, nextId);
    }

    /** From a run that is ready to the end of the job. */
    method Execute(run: P.RunRecord, state: State, job: Q.Job, t: Times, limits: Option<Limits>)
      modifies queue, persistence
      ensures var e := Settled(kernel(JobKernelRequest(run, state, limits)), state.turnOffset, handOver);
              var executed := Executed(old(persistence.runs), run, e, state.turnOffset, handOver);
              && persistence.runs == (if e.Returned? && job.jobId !in old(queue.jobs) then P.Apply(executed, P.MarkFailed(run.runId)).0 else executed)
              && queue.jobs == Q.Apply(old(queue.jobs), JobEnd(job.jobId, e, t))
    {
      var running := persistence.Update(P.MarkRunning(run.runId));
      var e := Settled(kernel(JobKernelRequest(run, state, limits)), state.turnOffset, handOver);
      var done := persistence.Update(CompletionOf(run, e, state.turnOffset, handOver));
      match e {
        case Returned(_, _, _) =>
          var completed := queue.CompleteSuccess(job.jobId, t.doneMs, t.nowMs);
          if completed.None? {
            var failed := persistence.Update(P.MarkFailed(run.runId));
            var missing := queue.CompleteFailure(job.jobId, "", t.retryAtMs, t.doneMs, t.nowMs);
          }
        case Raised(error) =>
          var failed := queue.CompleteFailure(job.jobId, error, t.retryAtMs, t.doneMs, t.nowMs);
        case TaskCancelled =>
          var failed := queue.CompleteFailure(job.jobId, "cancelled", t.retryAtMs, t.doneMs, t.nowMs);
      }
    }

    method RunClaimed(job: Q.Job, t: Times, limits: Option<Limits>) returns (setup: Setup)
      modifies queue, persistence
      ensures (Host(persistence.runs, queue.jobs), setup)
              == RunClaimedJob(Host(old(persistence.runs), old(queue.jobs)), job, t, limits, kernel, handOver)
    {
      var attempted := queue.MarkAttemptStarted(job.jobId, t.heartbeatMs, t.startMs);
      var previous := persistence.LoadRun(job.spec.previousRunId);
      if previous.None? {
        var failed := queue.CompleteFailure(job.jobId, "previous run not found", t.retryAtMs, t.doneMs, t.nowMs);
        return NoPrevious;
      }
      var state := handOver.read(previous.value.engineState);
      if state.None? { return SetupRaises; }
      var answer := EnsureContinuationRun(job.spec.previousRunId, job.spec.nextRunId, state.value);
      if !answer.Record? { return SetupRaises; }
      Execute(answer.record, state.value, job, t, limits);
      return Ready(answer.record, state.value);
    }

    /** `run_next`: claims a job and runs it; None when nothing is queued. */
    method RunNext(worker: string, cutoffMs: int, claimMs: int, t: Times, limits: Option<Limits>) returns (setup: Option<Setup>)
      requires Q.Ok(queue.jobs)
      modifies queue, persistence
      ensures match Q.NextJob(old(queue.jobs), cutoffMs)
              case None => setup == None && queue.jobs == old(queue.jobs) && persistence.runs == old(persistence.runs)
              case Some(id) =>
                && id in old(queue.jobs)
                && var claimed := Q.Apply(old(queue.jobs), Q.Claim(worker, cutoffMs, claimMs));
                   id in claimed && setup.Some?
                   && (Host(persistence.runs, queue.jobs), setup.value)
                      == RunClaimedJob(Host(old(persistence.runs), claimed), claimed[id], t, limits, kernel, handOver)
    {
      Q.NextIsNext(queue.jobs, cutoffMs);
      var claimed := queue.ClaimNext(worker, cutoffMs, claimMs);
      if claimed.None? { return None; }
      var result := RunClaimed(queue.jobs[claimed.value], t, limits);
      return Some(result);
    }
  }
}
