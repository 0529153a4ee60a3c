/** The reference worker: claim, start an attempt, run the handler, record the outcome. */
module ContinuationWorker {
  import opened Options
  import opened ContinuationQueue

  datatype Handled = Returned | Raised(error: string)

  /** What one `run_once` reads from its surroundings: the clock, call by call, and the handler's outcome. */
  datatype Round = Round(cutoffMs: int, claimMs: int, startMs: int, doneMs: int, outcome: Handled)

  function FinishOp(id: string, round: Round): Op {
    match round.outcome
    case Returned => Succeed(id, round.doneMs, round.doneMs)
    case Raised(error) => Fail(id, error, None, round.doneMs, round.doneMs)
  }

  /** The queue after one round and the job it handled. */
  ghost function Rounded(jobs: Jobs, worker: string, round: Round): (Jobs, Option<string>) {
    match NextJob(jobs, round.cutoffMs)
    case None => (jobs, None)
    case Some(id) => (Run(jobs, RoundOps(id, worker, round)), Some(id))
  }

  function RoundOps(id: string, worker: string, round: Round): seq<Op> {
    [Claim(worker, round.cutoffMs, round.claimMs), Start(id, round.startMs, round.startMs), FinishOp(id, round)]
  }

  class ReferenceContinuationWorker {
    const queue: SQLiteContinuationQueue
    const workerId: string

    constructor (queue: SQLiteContinuationQueue, workerId: string)
      ensures this.queue == queue && this.workerId == workerId
    {
      this.queue, this.workerId := queue, workerId;
    }

    /** `handled` is the record the handler was given. */
    method RunOnce(round: Round) returns (record: Option<Job>, handled: Option<Job>)
      requires Ok(queue.jobs)
      modifies queue
      ensures queue.jobs == Rounded(old(queue.jobs), workerId, round).0
      ensures record.Some? <==> Rounded(old(queue.jobs), workerId, round).1.Some?
      ensures handled.Some? <==> record.Some?
      ensures record.Some? ==>
        && var id := Rounded(old(queue.jobs), workerId, round).1.value;
           id in queue.jobs && record.value == queue.jobs[id]
           && id in old(queue.jobs) && handled.value.status == Running
           && handled.value.attempts == old(queue.jobs)[id].attempts + 1
    {
      ghost var before := queue.jobs;
      var claimed := queue.ClaimNext(workerId, round.cutoffMs, round.claimMs);
      if claimed.None? {
        return None, None;
      }
      var id := claimed.value;
      ClaimedIsRunning(before, Claim(workerId, round.cutoffMs, round.claimMs), id);
      assert JobOk(before[id]);
      handled := queue.MarkAttemptStarted(id, round.startMs, round.startMs);
      ghost var started := queue.jobs;
      if round.outcome.Returned? {
        record := queue.CompleteSuccess(id, round.doneMs, round.doneMs);
      } else {
        record := queue.CompleteFailure(id, round.outcome.error, None, round.doneMs, round.doneMs);
      }
      assert queue.jobs == Apply(started, FinishOp(id, round));
      UnfoldRound(before, id, workerId, round);
    }
  }

  lemma UnfoldRound(jobs: Jobs, id: string, worker: string, round: Round)
    ensures Run(jobs, RoundOps(id, worker, round)) ==
            Apply(Apply(Apply(jobs, Claim(worker, round.cutoffMs, round.claimMs)),
                        Start(id, round.startMs, round.startMs)), FinishOp(id, round))
  {
    var ops := RoundOps(id, worker, round);
    assert ops[..2] == [ops[0], ops[1]] && ops[..2][..1] == [ops[0]] && [ops[0]][..0] == [];
    assert Run(jobs, []) == jobs;
    assert Run(jobs, [ops[0]]) == Apply(jobs, ops[0]);
    assert Run(jobs, ops[..2]) == Apply(Run(jobs, ops[..2][..1]), ops[1]);
  }

  // ---------- One round ----------

  /** The handled job, from claim to record. */
  function RoundJob(j: Job, worker: string, round: Round): Job {
    var running := Started(Claimed(j, worker, round.claimMs), round.startMs, round.startMs);
    match round.outcome
    case Returned => Successful(running, round.doneMs, round.doneMs)
    case Raised(error) => Failed(running, error, None, round.doneMs, round.doneMs)
  }

  /** A round changes one queued job: one attempt more, and never left running; every other job is untouched. */
  lemma RoundTouchesOneJob(jobs: Jobs, worker: string, round: Round)
    requires Ok(jobs) && Rounded(jobs, worker, round).1.Some?
    ensures var (after, id) := Rounded(jobs, worker, round);
            && id.value in jobs && jobs[id.value].status == Queued
            && after == jobs[id.value := RoundJob(jobs[id.value], worker, round)]
            && after[id.value].attempts == jobs[id.value].attempts + 1
            && after[id.value].status == (if round.outcome.Returned? then Succeeded
                                          else if Exhausted(after[id.value]) then DeadLetter else Queued)
  {
    var id := NextJob(jobs, round.cutoffMs).value;
    ClaimedIsRunning(jobs, Claim(worker, round.cutoffMs, round.claimMs), id);
    UnfoldRound(jobs, id, worker, round);
    assert JobOk(jobs[id]);
  }

  lemma RoundKeepsOk(jobs: Jobs, worker: string, round: Round)
    requires Ok(jobs)
    ensures Ok(Rounded(jobs, worker, round).0)
  {
    var id := NextJob(jobs, round.cutoffMs);
    if id.Some? { QueueSafety(jobs, RoundOps(id.value, worker, round)); }
  }

  // ---------- Draining ----------

  /** Attempts a queued job still has. */
  function Left(j: Job): nat {
    if j.status == Queued && !Exhausted(j) then j.spec.maxAttempts - j.attempts else 0
  }

  ghost function LeftOver(jobs: Jobs, ids: set<string>): nat
    requires ids <= jobs.Keys
    decreases |ids|
  {
    if ids == {} then 0
    else
      var id :| id in ids;
      Left(jobs[id]) + LeftOver(jobs, ids - {id})
  }

  ghost function Potential(jobs: Jobs): nat {
    LeftOver(jobs, jobs.Keys)
  }

  lemma {:induction false} LeftOverWithout(jobs: Jobs, ids: set<string>, id: string)
    requires ids <= jobs.Keys && id in ids
    ensures LeftOver(jobs, ids) == Left(jobs[id]) + LeftOver(jobs, ids - {id})
    decreases |ids|
  {
    var picked :| picked in ids && LeftOver(jobs, ids) == Left(jobs[picked]) + LeftOver(jobs, ids - {picked});
    if picked != id {
      LeftOverWithout(jobs, ids - {picked}, id);
      LeftOverWithout(jobs, ids - {id}, picked);
      assert ids - {picked} - {id} == ids - {id} - {picked};
    }
  }

  lemma {:induction false} LeftOverAgrees(jobs: Jobs, other: Jobs, ids: set<string>)
    requires ids <= jobs.Keys && ids <= other.Keys
    requires forall id :: id in ids ==> jobs[id] == other[id]
    ensures LeftOver(jobs, ids) == LeftOver(other, ids)
    decreases |ids|
  {
    if ids != {} {
      var id :| id in ids;
      LeftOverWithout(jobs, ids, id);
      LeftOverWithout(other, ids, id);
      LeftOverAgrees(jobs, other, ids - {id});
    }
  }

  lemma OneJobChanges(jobs: Jobs, id: string, j: Job)
    requires id in jobs
    ensures Potential(jobs[id := j]) + Left(jobs[id]) == Potential(jobs) + Left(j)
  {
    var after := jobs[id := j];
    assert after.Keys == jobs.Keys;
    LeftOverWithout(jobs, jobs.Keys, id);
    LeftOverWithout(after, jobs.Keys, id);
    LeftOverAgrees(jobs, after, jobs.Keys - {id});
  }

  lemma RoundUsesAnAttempt(jobs: Jobs, worker: string, round: Round)
    requires Ok(jobs) && Rounded(jobs, worker, round).1.Some?
    ensures Potential(Rounded(jobs, worker, round).0) < Potential(jobs)
  {
    RoundTouchesOneJob(jobs, worker, round);
    var id := Rounded(jobs, worker, round).1.value;
    assert JobOk(jobs[id]);
    OneJobChanges(jobs, id, RoundJob(jobs[id], worker, round));
  }

  /** The queue after a sequence of rounds, and the jobs they handled in order. */
  ghost function Drain(jobs: Jobs, worker: string, rounds: seq<Round>): (Jobs, seq<string>) {
    if rounds == [] then (jobs, [])
    else
      var (before, handled) := Drain(jobs, worker, rounds[..|rounds| - 1]);
      var (after, id) := Rounded(before, worker, rounds[|rounds| - 1]);
      (after, handled + if id.Some? then [id.value] else [])
  }

  /** Main result: with one worker the rounds that find a job number at most the attempts left in the queue. */
  lemma {:induction false} DrainingEnds(jobs: Jobs, worker: string, rounds: seq<Round>)
    requires Ok(jobs)
    ensures Ok(Drain(jobs, worker, rounds).0)
    ensures |Drain(jobs, worker, rounds).1| + Potential(Drain(jobs, worker, rounds).0) <= Potential(jobs)
  {
    if rounds != [] {
      var front, last := rounds[..|rounds| - 1], rounds[|rounds| - 1];
      DrainingEnds(jobs, worker, front);
      var before := Drain(jobs, worker, front).0;
      RoundKeepsOk(before, worker, last);
      if Rounded(before, worker, last).1.Some? { RoundUsesAnAttempt(before, worker, last); }
    }
  }

  /** Every handler run of a job is one of its attempts, so there are at most `max_attempts` of them. */
  lemma {:induction false} HandlerRunsAreAttempts(jobs: Jobs, worker: string, rounds: seq<Round>, id: string)
    requires Ok(jobs) && id in jobs
    ensures var (after, handled) := Drain(jobs, worker, rounds);
            && id in after && after[id].spec == jobs[id].spec
            && multiset(handled)[id] + jobs[id].attempts == after[id].attempts <= jobs[id].spec.maxAttempts
            && (id in handled ==> after[id].status != Running)
  {
    DrainingEnds(jobs, worker, rounds);
    if rounds != [] {
      var front, last := rounds[..|rounds| - 1], rounds[|rounds| - 1];
      HandlerRunsAreAttempts(jobs, worker, front, id);
      DrainingEnds(jobs, worker, front);
      var (before, handled) := Drain(jobs, worker, front);
      if Rounded(before, worker, last).1.Some? {
        RoundTouchesOneJob(before, worker, last);
      }
    }
    assert JobOk(Drain(jobs, worker, rounds).0[id]);
  }
}
