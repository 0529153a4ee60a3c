/**
 The continuation queue of the SQLite reference host: a table of jobs, and operations that are one
 transaction each. Every clock reading is an input.
 */
module ContinuationQueue {
  import opened Options
  import opened StringOrder

  datatype Status = Queued | Running | Succeeded | DeadLetter

  /** `max_attempts` below 1 is refused when a spec is built. */
  datatype JobSpec = JobSpec(
    userRequestId: string, projectId: string, previousRunId: string, nextRunId: string,
    maxAttempts: nat, availableAtMs: Option<int>)

  datatype Job = Job(
    jobId: string,
    spec: JobSpec,
    status: Status,
    attempts: nat,
    workerId: Option<string>,
    lastError: Option<string>,
    availableAtMs: Option<int>,
    lockedAtMs: Option<int>,
    heartbeatAtMs: Option<int>,
    completedAtMs: Option<int>,
    createdAtMs: int,
    updatedAtMs: int)

  type Jobs = map<string, Job>

  predicate Exhausted(j: Job) {
    j.attempts >= j.spec.maxAttempts
  }

  // ---------- ORDER BY created_at_ms, job_id ----------

  predicate NotAfter(a: Job, b: Job) {
    a.createdAtMs < b.createdAtMs || (a.createdAtMs == b.createdAtMs && LexLeq(a.jobId, b.jobId))
  }

  lemma NotAfterTransitive(a: Job, b: Job, c: Job)
    requires NotAfter(a, b) && NotAfter(b, c)
    ensures NotAfter(a, c)
  {
    if a.createdAtMs == b.createdAtMs == c.createdAtMs { LexTransitive(a.jobId, b.jobId, c.jobId); }
  }

  lemma NotAfterTotal(a: Job, b: Job)
    ensures NotAfter(a, b) || NotAfter(b, a)
    ensures NotAfter(a, b) && NotAfter(b, a) ==> a.jobId == b.jobId
  {
    LexTotal(a.jobId, b.jobId);
  }

  // ---------- One job ----------

  function NewJob(id: string, spec: JobSpec, nowMs: int): Job {
    Job(id, spec, Queued, 0, None, None, spec.availableAtMs, None, None, None, nowMs, nowMs)
  }

  function Claimed(j: Job, worker: string, nowMs: int): Job {
    j.(status := Running, workerId := Some(worker), lockedAtMs := Some(nowMs), heartbeatAtMs := Some(nowMs), updatedAtMs := nowMs)
  }

  function Started(j: Job, heartbeatMs: int, nowMs: int): Job {
    if j.status != Running then j
    else if Exhausted(j) then j.(status := DeadLetter, completedAtMs := Some(nowMs), updatedAtMs := nowMs)
    else j.(attempts := j.attempts + 1, heartbeatAtMs := Some(heartbeatMs), updatedAtMs := nowMs)
  }

  function Beaten(j: Job, heartbeatMs: int, nowMs: int): Job {
    j.(heartbeatAtMs := Some(heartbeatMs), updatedAtMs := nowMs)
  }

  function Successful(j: Job, completedMs: int, nowMs: int): Job {
    j.(status := Succeeded, completedAtMs := Some(completedMs), updatedAtMs := nowMs)
  }

  function Released(j: Job, error: string, availableAtMs: Option<int>, nowMs: int): Job {
    if Exhausted(j) then
      j.(status := DeadLetter, lastError := Some(error), completedAtMs := Some(nowMs), updatedAtMs := nowMs)
    else
      j.(status := Queued, workerId := None, lastError := Some(error), availableAtMs := availableAtMs,
         lockedAtMs := None, heartbeatAtMs := None, updatedAtMs := nowMs)
  }

  function Failed(j: Job, error: string, retryAtMs: Option<int>, completedMs: int, nowMs: int): Job {
    if !Exhausted(j) then Released(j, error, retryAtMs, nowMs)
    else j.(status := DeadLetter, lastError := Some(error), completedAtMs := Some(completedMs), updatedAtMs := nowMs)
  }

  /** COALESCE(heartbeat_at_ms, locked_at_ms, created_at_ms, 0) */
  function LastSign(j: Job): int {
    if j.heartbeatAtMs.Some? then j.heartbeatAtMs.value
    else if j.lockedAtMs.Some? then j.lockedAtMs.value
    else j.createdAtMs
  }

  predicate Stale(j: Job, staleBeforeMs: int) {
    j.status == Running && LastSign(j) < staleBeforeMs
  }

  function Reclaimed(j: Job, nowMs: int): Job {
    if Exhausted(j) then
      j.(status := DeadLetter, lastError := Some("stale continuation job exceeded max attempts"),
         completedAtMs := Some(nowMs), updatedAtMs := nowMs)
    else
      j.(status := Queued, workerId := None, lastError := Some("stale continuation job reclaimed"),
         lockedAtMs := None, heartbeatAtMs := None, updatedAtMs := nowMs)
  }

  // ---------- The operations ----------

  datatype Op =
    | Enqueue(id: string, spec: JobSpec, nowMs: int)
    | Claim(worker: string, cutoffMs: int, nowMs: int)
    | Start(id: string, heartbeatMs: int, nowMs: int)
    | Heartbeat(id: string, heartbeatMs: int, nowMs: int)
    | Succeed(id: string, completedMs: int, nowMs: int)
    | Fail(id: string, error: string, retryAtMs: Option<int>, completedMs: int, nowMs: int)
    | Release(id: string, error: string, availableAtMs: Option<int>, nowMs: int)
    | ReclaimStale(staleBeforeMs: int, nowMs: int)

  predicate Claimable(j: Job, cutoffMs: int) {
    j.status == Queued && (j.availableAtMs.None? || j.availableAtMs.value <= cutoffMs)
  }

  /** `id` is the row the claim query selects. */
  ghost predicate IsNext(jobs: Jobs, cutoffMs: int, id: string) {
    && id in jobs && Claimable(jobs[id], cutoffMs)
    && forall k :: k in jobs && Claimable(jobs[k], cutoffMs) ==> NotAfter(jobs[id], jobs[k])
  }

  ghost function NextJob(jobs: Jobs, cutoffMs: int): Option<string> {
    if id :| IsNext(jobs, cutoffMs, id) then Some(id) else None
  }

  function ReclaimAll(jobs: Jobs, staleBeforeMs: int, nowMs: int): Jobs {
    map id | id in jobs :: if Stale(jobs[id], staleBeforeMs) then Reclaimed(jobs[id], nowMs) else jobs[id]
  }

  ghost function Apply(jobs: Jobs, op: Op): Jobs {
    match op
    // A second insert under a job id breaks the primary key and changes nothing.
    case Enqueue(id, spec, now) => if id in jobs then jobs else jobs[id := NewJob(id, spec, now)]
    case Claim(worker, cutoff, now) =>
      (match NextJob(jobs, cutoff)
       case None => jobs
       case Some(id) => if id in jobs then jobs[id := Claimed(jobs[id], worker, now)] else jobs)
    case Start(id, heartbeat, now) => if id in jobs then jobs[id := Started(jobs[id], heartbeat, now)] else jobs
    case Heartbeat(id, heartbeat, now) => if id in jobs then jobs[id := Beaten(jobs[id], heartbeat, now)] else jobs
    case Succeed(id, completed, now) => if id in jobs then jobs[id := Successful(jobs[id], completed, now)] else jobs
    case Fail(id, error, retryAt, completed, now) =>
      if id in jobs then jobs[id := Failed(jobs[id], error, retryAt, completed, now)] else jobs
    case Release(id, error, availableAt, now) =>
      if id in jobs then jobs[id := Released(jobs[id], error, availableAt, now)] else jobs
    case ReclaimStale(staleBefore, now) => ReclaimAll(jobs, staleBefore, now)
  }

  // ---------- What every operation keeps ----------

  ghost predicate JobOk(j: Job) {
    && j.spec.maxAttempts >= 1 && j.attempts <= j.spec.maxAttempts
    && (j.status == Queued ==> j.attempts < j.spec.maxAttempts && j.workerId.None? && j.lockedAtMs.None?)
    && (j.status == Running ==> j.workerId.Some? && j.lockedAtMs.Some?)
  }

  ghost predicate Ok(jobs: Jobs) {
    forall id :: id in jobs ==> jobs[id].jobId == id && JobOk(jobs[id])
  }

  ghost predicate ValidOp(op: Op) {
    op.Enqueue? ==> op.spec.maxAttempts >= 1
  }

  /** From one state of a job to a later one: attempts only grow, and never past what the spec allows. */
  ghost predicate Progressed(a: Job, b: Job) {
    a.jobId == b.jobId && a.spec == b.spec && a.createdAtMs == b.createdAtMs && a.attempts <= b.attempts
  }

  lemma NextIsNext(jobs: Jobs, cutoffMs: int)
    ensures NextJob(jobs, cutoffMs).Some? ==> IsNext(jobs, cutoffMs, NextJob(jobs, cutoffMs).value)
  {
  }

  lemma ClaimKeepsOk(jobs: Jobs, op: Op)
    requires Ok(jobs) && op.Claim?
    ensures Ok(Apply(jobs, op))
  {
    NextIsNext(jobs, op.cutoffMs);
  }

  lemma StepKeepsOk(jobs: Jobs, op: Op)
    requires Ok(jobs) && ValidOp(op)
    ensures Ok(Apply(jobs, op))
  {
    if op.Claim? {
      ClaimKeepsOk(jobs, op);
    } else if op.ReclaimStale? {
      assert forall id :: id in jobs ==> JobOk(Reclaimed(jobs[id], op.nowMs));
    } else if op.id in jobs {
      var j := Apply(jobs, op)[op.id];
      assert JobOk(jobs[op.id]);
      assert JobOk(j) && j.jobId == op.id;
    }
  }

  lemma StepProgresses(jobs: Jobs, op: Op, id: string)
    requires id in jobs
    ensures id in Apply(jobs, op) && Progressed(jobs[id], Apply(jobs, op)[id])
  {
  }

  ghost function Run(jobs: Jobs, ops: seq<Op>): Jobs {
    if ops == [] then jobs else Apply(Run(jobs, ops[..|ops| - 1]), ops[|ops| - 1])
  }

  /** Safety over every interleaving of operations by any number of workers. */
  lemma {:induction false} QueueSafety(jobs: Jobs, ops: seq<Op>)
    requires Ok(jobs) && forall k :: 0 <= k < |ops| ==> ValidOp(ops[k])
    ensures Ok(Run(jobs, ops))
    ensures forall id :: id in jobs ==> id in Run(jobs, ops) && Progressed(jobs[id], Run(jobs, ops)[id])
  {
    if ops != [] {
      var before := Run(jobs, ops[..|ops| - 1]);
      QueueSafety(jobs, ops[..|ops| - 1]);
      StepKeepsOk(before, ops[|ops| - 1]);
      forall id | id in jobs ensures id in Run(jobs, ops) && Progressed(jobs[id], Run(jobs, ops)[id]) {
        StepProgresses(before, ops[|ops| - 1], id);
      }
    }
  }

  // ---------- Claims ----------

  /** The job a claim hands out. */
  ghost function HandedOut(jobs: Jobs, op: Op): Option<string> {
    if op.Claim? then NextJob(jobs, op.cutoffMs) else None
  }

  /** Operations that may put a job back into the queue. */
  predicate PutsBack(op: Op, id: string) {
    ((op.Fail? || op.Release?) && op.id == id) || op.ReclaimStale?
  }

  lemma ClaimedIsRunning(jobs: Jobs, op: Op, id: string)
    requires HandedOut(jobs, op) == Some(id)
    ensures id in jobs && jobs[id].status == Queued
    ensures id in Apply(jobs, op) && Apply(jobs, op)[id] == Claimed(jobs[id], op.worker, op.nowMs)
  {
    NextIsNext(jobs, op.cutoffMs);
  }

  lemma StaysOutOfTheQueue(jobs: Jobs, op: Op, id: string)
    requires id in jobs && jobs[id].status != Queued && !PutsBack(op, id)
    ensures id in Apply(jobs, op) && Apply(jobs, op)[id].status != Queued
  {
    if op.Claim? { NextIsNext(jobs, op.cutoffMs); }
  }

  /** Operation k of a run takes the job from outside the queue back into it. */
  ghost predicate PutBackAt(jobs: Jobs, ops: seq<Op>, id: string, k: nat)
    requires k < |ops|
  {
    && PutsBack(ops[k], id)
    && var before, after := Run(jobs, ops[..k]), Run(jobs, ops[..k + 1]);
       id in before && before[id].status != Queued && id in after && after[id].status == Queued
  }

  lemma {:induction false} QueuedAgainMeansPutBack(jobs: Jobs, ops: seq<Op>, id: string)
    requires id in jobs && jobs[id].status != Queued
    ensures id in Run(jobs, ops)
    ensures Run(jobs, ops)[id].status == Queued ==> exists k: nat :: k < |ops| && PutBackAt(jobs, ops, id, k)
  {
    if ops != [] {
      var front, last := ops[..|ops| - 1], |ops| - 1;
      QueuedAgainMeansPutBack(jobs, front, id);
      StepProgresses(Run(jobs, front), ops[last], id);
      if Run(jobs, ops)[id].status == Queued {
        if Run(jobs, front)[id].status == Queued {
          var k: nat :| k < |front| && PutBackAt(jobs, front, id, k);
          assert front[..k] == ops[..k] && front[..k + 1] == ops[..k + 1];
          assert PutBackAt(jobs, ops, id, k);
        } else {
          if !PutsBack(ops[last], id) { StaysOutOfTheQueue(Run(jobs, front), ops[last], id); }
          assert ops[..last + 1] == ops;
          assert PutBackAt(jobs, ops, id, last);
        }
      }
    }
  }

  /** Main result: between two claims of one job a failure, a release or a reclaim put it back into the queue. */
  lemma NoDoubleClaim(jobs: Jobs, first: Op, between: seq<Op>, second: Op, id: string)
    requires HandedOut(jobs, first) == Some(id)
    requires HandedOut(Run(Apply(jobs, first), between), second) == Some(id)
    ensures exists k: nat :: k < |between| && PutBackAt(Apply(jobs, first), between, id, k)
  {
    ClaimedIsRunning(jobs, first, id);
    ClaimedIsRunning(Run(Apply(jobs, first), between), second, id);
    QueuedAgainMeansPutBack(Apply(jobs, first), between, id);
  }

  /** After a reclaim no running job is older than the cutoff, and jobs that were not stale are as before. */
  lemma ReclaimLeavesNoStaleJob(jobs: Jobs, staleBeforeMs: int, nowMs: int, id: string)
    requires id in jobs
    ensures var after := Apply(jobs, ReclaimStale(staleBeforeMs, nowMs));
            && id in after && !Stale(after[id], staleBeforeMs)
            && (Stale(jobs[id], staleBeforeMs) ==>
                  after[id].status == if Exhausted(jobs[id]) then DeadLetter else Queued)
            && (!Stale(jobs[id], staleBeforeMs) ==> after[id] == jobs[id])
  {
  }

  /**
   Terminal statuses are not absorbing. Exactly these operations move a finished job: success of a
   dead-lettered one, and failure or release of any job with attempts left or of a succeeded one.
   */
  lemma FinishedJobMovesIff(jobs: Jobs, op: Op, id: string)
    requires id in jobs && jobs[id].status in {Succeeded, DeadLetter}
    ensures id in Apply(jobs, op)
    ensures Apply(jobs, op)[id].status != jobs[id].status <==>
            || (op.Succeed? && op.id == id && jobs[id].status == DeadLetter)
            || ((op.Fail? || op.Release?) && op.id == id && (!Exhausted(jobs[id]) || jobs[id].status == Succeeded))
  {
    if op.Claim? { NextIsNext(jobs, op.cutoffMs); }
  }

  /** One input: a job that has succeeded at its first of two attempts is queued again by a failure. */
  lemma SucceededJobIsQueuedAgain(spec: JobSpec, jobs: Jobs, error: string, nowMs: int)
    requires spec.maxAttempts == 2 && "j" in jobs && jobs["j"] == NewJob("j", spec, nowMs).(status := Succeeded, attempts := 1)
    ensures var after := Apply(jobs, Fail("j", error, None, nowMs, nowMs));
            "j" in after && after["j"].status == Queued
  {
  }

  predicate Least(jobs: Jobs, ids: set<string>, id: string)
    requires ids <= jobs.Keys
  {
    id in ids && forall k :: k in ids ==> NotAfter(jobs[id], jobs[k])
  }

  lemma LeastOfOneMore(jobs: Jobs, ids: set<string>, best: string, id: string)
    requires ids + {id} <= jobs.Keys && Least(jobs, ids, best)
    ensures Least(jobs, ids + {id}, if NotAfter(jobs[best], jobs[id]) then best else id)
  {
    NotAfterTotal(jobs[best], jobs[id]);
    NotAfterTotal(jobs[id], jobs[id]);
    if !NotAfter(jobs[best], jobs[id]) {
      forall k | k in ids ensures NotAfter(jobs[id], jobs[k]) {
        NotAfterTransitive(jobs[id], jobs[best], jobs[k]);
      }
    }
  }

  lemma {:induction false} LeastExists(jobs: Jobs, ids: set<string>)
    requires ids != {} && ids <= jobs.Keys
    ensures exists id :: Least(jobs, ids, id)
    decreases |ids|
  {
    var x :| x in ids;
    var rest := ids - {x};
    assert ids == rest + {x};
    if rest == {} {
      NotAfterTotal(jobs[x], jobs[x]);
      assert Least(jobs, ids, x);
    } else {
      LeastExists(jobs, rest);
      var y :| Least(jobs, rest, y);
      LeastOfOneMore(jobs, rest, y, x);
    }
  }

  /** A claim finds a job whenever one is claimable. */
  lemma ClaimFindsAJobIff(jobs: Jobs, cutoffMs: int)
    ensures NextJob(jobs, cutoffMs).Some? <==> exists id :: id in jobs && Claimable(jobs[id], cutoffMs)
  {
    NextIsNext(jobs, cutoffMs);
    var ids := set id | id in jobs && Claimable(jobs[id], cutoffMs);
    if id :| id in jobs && Claimable(jobs[id], cutoffMs) {
      assert id in ids;
      LeastExists(jobs, ids);
      var least :| Least(jobs, ids, least);
      assert IsNext(jobs, cutoffMs, least);
    }
  }

  lemma NextIsUnique(jobs: Jobs, cutoffMs: int, a: string, b: string)
    requires Ok(jobs) && IsNext(jobs, cutoffMs, a) && IsNext(jobs, cutoffMs, b)
    ensures a == b
  {
    NotAfterTotal(jobs[a], jobs[b]);
  }

  // ---------- The host class ----------

  /** SELECT ... WHERE claimable ORDER BY created_at_ms, job_id LIMIT 1 */
  method SelectNext(jobs: Jobs, cutoffMs: int) returns (selected: Option<string>)
    requires Ok(jobs)
    ensures selected == NextJob(jobs, cutoffMs)
  {
    ClaimFindsAJobIff(jobs, cutoffMs);
    NextIsNext(jobs, cutoffMs);
    var candidates := set id | id in jobs && Claimable(jobs[id], cutoffMs);
    if candidates == {} {
      assert forall id :: id in jobs && Claimable(jobs[id], cutoffMs) ==> id in candidates;
      return None;
    }
    var best :| best in candidates;
    var seen := {best};
    NotAfterTotal(jobs[best], jobs[best]);
    while seen != candidates
      invariant seen <= candidates && Least(jobs, seen, best)
      decreases candidates - seen
    {
      assert candidates == seen + (candidates - seen);
      var id :| id in candidates - seen;
      LeastOfOneMore(jobs, seen, best, id);
      if !NotAfter(jobs[best], jobs[id]) {
        best := id;
      }
      seen := seen + {id};
    }
    assert IsNext(jobs, cutoffMs, best);
    NextIsUnique(jobs, cutoffMs, best, NextJob(jobs, cutoffMs).value);
    return Some(best);
  }

  class SQLiteContinuationQueue {
    var jobs: Jobs

    constructor ()
      ensures jobs == map[]
    {
      jobs := map[];
    }

    method EnqueueForRun(id: string, spec: JobSpec, nowMs: int) returns (raised: bool)
      modifies this
      ensures jobs == Apply(old(jobs), Enqueue(id, spec, nowMs)) && raised == (id in old(jobs))
    {
      if id in jobs {
        return true;
      }
      jobs := jobs[id := Job(id, spec, Queued, 0, None, None, spec.availableAtMs, None, None, None, nowMs, nowMs)];
      return false;
    }

    /** The claim's SELECT and UPDATE, in one transaction. */
    method ClaimNext(worker: string, cutoffMs: int, nowMs: int) returns (claimed: Option<string>)
      requires Ok(jobs)
      modifies this
      ensures claimed == NextJob(old(jobs), cutoffMs)
      ensures jobs == Apply(old(jobs), Claim(worker, cutoffMs, nowMs))
    {
      claimed := SelectNext(jobs, cutoffMs);
      NextIsNext(jobs, cutoffMs);
      if claimed.Some? {
        var row := jobs[claimed.value];
        jobs := jobs[claimed.value := row.(status := Running, workerId := Some(worker), lockedAtMs := Some(nowMs),
                                           heartbeatAtMs := Some(nowMs), updatedAtMs := nowMs)];
      }
    }

    method MarkAttemptStarted(id: string, heartbeatMs: int, nowMs: int) returns (record: Option<Job>)
      modifies this
      ensures jobs == Apply(old(jobs), Start(id, heartbeatMs, nowMs))
      ensures record == if id in old(jobs) then Some(jobs[id]) else None
    {
      if id !in jobs {
        return None;
      }
      var j := jobs[id];
      if j.status != Running {
        return Some(j);
      }
      if j.attempts >= j.spec.maxAttempts {
        jobs := jobs[id := j.(status := DeadLetter, completedAtMs := Some(nowMs), updatedAtMs := nowMs)];
      } else {
        jobs := jobs[id := j.(attempts := j.attempts + 1, heartbeatAtMs := Some(heartbeatMs), updatedAtMs := nowMs)];
      }
      return Some(jobs[id]);
    }

    method CompleteSuccess(id: string, completedMs: int, nowMs: int) returns (record: Option<Job>)
      modifies this
      ensures jobs == Apply(old(jobs), Succeed(id, completedMs, nowMs))
      ensures record == if id in old(jobs) then Some(jobs[id]) else None
    {
      if id !in jobs {
        return None;
      }
      jobs := jobs[id := jobs[id].(status := Succeeded, completedAtMs := Some(completedMs), updatedAtMs := nowMs)];
      return Some(jobs[id]);
    }

    method ReleaseForRetry(id: string, error: string, availableAtMs: Option<int>, nowMs: int) returns (record: Option<Job>)
      modifies this
      ensures jobs == Apply(old(jobs), Release(id, error, availableAtMs, nowMs))
      ensures record == if id in old(jobs) then Some(jobs[id]) else None
    {
      if id !in jobs {
        return None;
      }
      var j := jobs[id];
      if j.attempts >= j.spec.maxAttempts {
        jobs := jobs[id := j.(status := DeadLetter, lastError := Some(error), completedAtMs := Some(nowMs), updatedAtMs := nowMs)];
      } else {
        jobs := jobs[id := j.(status := Queued, workerId := None, lastError := Some(error), availableAtMs := availableAtMs,
                              lockedAtMs := None, heartbeatAtMs := None, updatedAtMs := nowMs)];
      }
      return Some(jobs[id]);
    }

    method CompleteFailure(id: string, error: string, retryAtMs: Option<int>, completedMs: int, nowMs: int)
      returns (record: Option<Job>)
      modifies this
      ensures jobs == Apply(old(jobs), Fail(id, error, retryAtMs, completedMs, nowMs))
      ensures record == if id in old(jobs) then Some(jobs[id]) else None
    {
      if id !in jobs {
        return None;
      }
      var j := jobs[id];
      if j.attempts < j.spec.maxAttempts {
        record := ReleaseForRetry(id, error, retryAtMs, nowMs);
        return;
      }
      jobs := jobs[id := j.(status := DeadLetter, lastError := Some(error), completedAtMs := Some(completedMs), updatedAtMs := nowMs)];
      return Some(jobs[id]);
    }

    method ReclaimStaleJobs(staleBeforeMs: int, nowMs: int) returns (count: nat)
      modifies this
      ensures jobs == Apply(old(jobs), ReclaimStale(staleBeforeMs, nowMs))
      ensures count == |set id | id in old(jobs) && Stale(old(jobs)[id], staleBeforeMs)|
    {
      var rows := set id | id in jobs && Stale(jobs[id], staleBeforeMs);
      ghost var before := jobs;
      var pending := rows;
      while pending != {}
        invariant pending <= rows && jobs.Keys == before.Keys
        invariant forall id :: id in jobs ==>
          jobs[id] == if id in rows && id !in pending then Reclaimed(before[id], nowMs) else before[id]
        decreases pending
      {
        var id :| id in pending;
        var j := jobs[id];
        if j.attempts >= j.spec.maxAttempts {
          jobs := jobs[id := j.(status := DeadLetter, lastError := Some("stale continuation job exceeded max attempts"),
                                completedAtMs := Some(nowMs), updatedAtMs := nowMs)];
        } else {
          jobs := jobs[id := j.(status := Queued, workerId := None, lastError := Some("stale continuation job reclaimed"),
                                lockedAtMs := None, heartbeatAtMs := None, updatedAtMs := nowMs)];
        }
        pending := pending - {id};
      }
      assert jobs == ReclaimAll(before, staleBeforeMs, nowMs);
      return |rows|;
    }
  }
}
