/**
 A request carried over several runs: a root run and the claimed jobs that continue it, one after the
 other, on the tables of the host. An attempt at a job may fail and be made again, and a job may run
 once more after its run has returned. What is proved is about the whole chain.
 */
module ContinuationChain {
  import opened Options
  import opened SeqFacts
  import opened Transcript
  import opened ToolGuards
  import opened RunKernel
  import opened ContinuationState
  import opened KernelRuns
  import opened JsonSchema
  import R = ContinuationRunner
  import P = RunPersistence
  import Q = ContinuationQueue

  /** `cancelled`: the task is cancelled from outside while the kernel runs. */
  ghost function KernelOf(link: Link, cancelled: bool): R.Kernel {
    request => if cancelled then R.TaskCancelled else ExecutionOf(EndOf(link, request))
  }

  /**
   One attempt at a claimed job: which run of the chain it continues, the id of its next run, limits that
   replace the budget's, and what it runs on.
   */
  datatype Step = Step(after: nat, nextId: string, limits: Option<R.Limits>, link: Link, cancelled: bool)

  /** A run of the chain that has returned: what the kernel was asked and the state it ended in. */
  datatype Part = Part(request: R.KernelRequest, end: RunState)

  datatype Chain = Chain(runs: P.Runs, lastId: string, parts: seq<Part>)

  /** None where the root run is not created or does not return: no job continues it then. */
  ghost function RootChain(runs: P.Runs, root: R.RootRequest, link: Link, h: R.HandOver): Option<Chain> {
    var request := R.RootKernelRequest(root);
    var after := R.RootRun(runs, root, KernelOf(link, false), h);
    if after.None? || !R.Settled(KernelOf(link, false)(request), 0, h).Returned? then None
    else Some(Chain(after.value, root.runId, [Part(request, EndOf(link, request).state)]))
  }

  /** The chain up to its k-th run. */
  function Cut(c: Chain, k: nat): Chain
    requires 0 < k <= |c.parts|
  {
    Chain(c.runs, c.parts[k - 1].request.runId, c.parts[..k])
  }

  function SpecOf(c: Chain, nextId: string): Q.JobSpec {
    Q.JobSpec("", "", c.lastId, nextId, 1, None)
  }

  /** The record was made as a continuation of that run. */
  predicate Continues(r: P.RunRecord, lastId: string) {
    r.continuationIndex > 0 && r.scope.parentRunId == Some(lastId)
  }

  /** A job of the chain names a new run, or the one an earlier attempt has made. */
  predicate MayRun(c: Chain, nextId: string) {
    nextId in c.runs ==> Continues(c.runs[nextId], c.lastId)
  }

  ghost function OutcomeOf(step: Step, run: P.RunRecord, state: State, h: R.HandOver): R.Execution {
    R.Settled(KernelOf(step.link, step.cancelled)(R.JobKernelRequest(run, state, step.limits)), state.turnOffset, h)
  }

  /** The part a run that returns adds to the chain. */
  ghost function PartOf(step: Step, run: P.RunRecord, state: State): Part {
    var request := R.JobKernelRequest(run, state, step.limits);
    Part(request, EndOf(step.link, request).state)
  }

  /** The chain after an attempt that came so far, one run longer if that run returns. */
  ghost function Tried(c: Chain, step: Step, runs: P.Runs, setup: R.Setup, h: R.HandOver): Chain {
    if !setup.Ready? then c.(runs := runs)
    else
      var e := OutcomeOf(step, setup.run, setup.state, h);
      var after := R.Executed(runs, setup.run, e, setup.state.turnOffset, h);
      if e.Returned? then Chain(after, step.nextId, c.parts + [PartOf(step, setup.run, setup.state)])
      else c.(runs := after)
  }

  /** None where the job's run is another's. */
  ghost function Attempt(c: Chain, step: Step, h: R.HandOver): Option<Chain> {
    var (runs, setup) := R.SetUp(c.runs, SpecOf(c, step.nextId), h);
    if MayRun(c, step.nextId) then Some(Tried(c, step, runs, setup, h)) else None
  }

  ghost function ChainOf(runs: P.Runs, root: R.RootRequest, first: Link, steps: seq<Step>, h: R.HandOver): Option<Chain> {
    if steps == [] then RootChain(runs, root, first, h)
    else match ChainOf(runs, root, first, steps[..|steps| - 1], h)
         case None => None
         case Some(c) => Continued(c, steps[|steps| - 1], h)
  }

  /** A step goes on from the run it names, the last one or one before; what followed that one leaves the chain. */
  ghost function Continued(c: Chain, step: Step, h: R.HandOver): Option<Chain> {
    if 0 < step.after <= |c.parts| then Attempt(Cut(c, step.after), step, h) else None
  }

  /** The runs after a claimed job are those of the attempt. */
  lemma ClaimedJobIsAnAttempt(host: R.Host, c: Chain, job: Q.Job, t: R.Times, step: Step, h: R.HandOver)
    requires host.runs == c.runs && c.lastId in c.runs && job.jobId in host.jobs && MayRun(c, step.nextId)
    requires job.spec.previousRunId == c.lastId && job.spec.nextRunId == step.nextId
    ensures Attempt(c, step, h).Some?
    ensures R.RunClaimedJob(host, job, t, step.limits, KernelOf(step.link, step.cancelled), h).0.runs == Attempt(c, step, h).value.runs
  {
    assert R.SetUp(host.runs, job.spec, h) == R.SetUp(c.runs, SpecOf(c, step.nextId), h);
  }

  // ---------- What holds of a chain ----------

  function Total(parts: seq<Part>): nat {
    if parts == [] then 0 else Total(parts[..|parts| - 1]) + |parts[|parts| - 1].end.turns|
  }

  function AllIndexes(parts: seq<Part>): seq<int> {
    if parts == [] then [] else AllIndexes(parts[..|parts| - 1]) + TurnIndexes(parts[|parts| - 1].end)
  }

  /** What is written of a typed state, if it can be, is what is read back, but for the order of keys. */
  ghost predicate HandsOver(h: R.HandOver) {
    forall s: State :: Typed(s.messages) ==> ComesBack(h, s)
  }

  predicate ComesBack(h: R.HandOver, s: State) {
    h.write(s).Some? ==> h.read(h.write(s)) == Some(State(SortedMessages(s.messages), s.turnOffset))
  }

  function Last(c: Chain): RunState
    requires c.parts != []
  {
    c.parts[|c.parts| - 1].end
  }

  /** The k-th part begins where the part before it has ended. */
  ghost predicate TakesOver(parts: seq<Part>, k: nat)
    requires 0 < k < |parts|
  {
    && parts[k].request.messages == SortedMessages(parts[k - 1].end.messages)
    && parts[k].request.turnOffset == Total(parts[..k])
  }

  ghost predicate PartsOk(parts: seq<Part>) {
    && (forall k: nat :: k < |parts| ==> EndFacts(parts[k].request, parts[k].end))
    && (forall k: nat :: 0 < k < |parts| ==> TakesOver(parts, k))
    && AllIndexes(parts) == From(0, Total(parts))
  }

  /** The state the last run hands over. */
  function StateAfter(parts: seq<Part>): State
    requires parts != []
  {
    State(parts[|parts| - 1].end.messages, Total(parts))
  }

  /** The record of the chain's last run. */
  ghost predicate RecordOk(root: R.RootRequest, c: Chain, h: R.HandOver) {
    && P.Ok(c.runs) && c.lastId in c.runs && c.parts != []
    && var r := c.runs[c.lastId];
       && r.runId == c.lastId
       && r.continuationIndex == |c.parts| - 1
       && r.maxContinuations == root.maxContinuations && r.budget == root.budget
       && r.engineState.Some? && r.engineState == h.write(StateAfter(c.parts))
       && LeftAtSomeStop(r)
  }

  ghost predicate LeftAtSomeStop(r: P.RunRecord) {
    exists reason :: LeftAt(r, reason)
  }

  predicate LeftAt(r: P.RunRecord, reason: string) {
    r.status == P.StatusAfter(r, reason)
  }

  ghost predicate ChainOk(root: R.RootRequest, c: Chain, h: R.HandOver) {
    RecordOk(root, c, h) && PartsOk(c.parts) && Typed(Last(c).messages)
  }

  lemma FromConcat(m: nat, n: nat)
    ensures From(0, m) + From(m, n) == From(0, m + n)
  {
  }

  lemma TotalSnoc(parts: seq<Part>, part: Part)
    ensures Total(parts + [part]) == Total(parts) + |part.end.turns|
    ensures AllIndexes(parts + [part]) == AllIndexes(parts) + TurnIndexes(part.end)
  {
    FrontOfSnoc(parts, part);
  }

  lemma StillTakesOver(parts: seq<Part>, part: Part, k: nat)
    requires 0 < k < |parts| && TakesOver(parts, k)
    ensures TakesOver(parts + [part], k)
  {
    assert (parts + [part])[..k] == parts[..k];
  }

  lemma NowTakesOver(parts: seq<Part>, part: Part)
    requires parts != [] && part.request.turnOffset == Total(parts)
    requires part.request.messages == SortedMessages(parts[|parts| - 1].end.messages)
    ensures TakesOver(parts + [part], |parts|)
  {
    assert (parts + [part])[..|parts|] == parts;
  }

  lemma OnePartMore(parts: seq<Part>, part: Part)
    requires PartsOk(parts) && parts != [] && EndFacts(part.request, part.end)
    requires part.request.messages == SortedMessages(parts[|parts| - 1].end.messages) && part.request.turnOffset == Total(parts)
    ensures PartsOk(parts + [part])
  {
    TotalSnoc(parts, part);
    FromConcat(Total(parts), |part.end.turns|);
    forall k: nat | 0 < k < |parts + [part]| ensures TakesOver(parts + [part], k) {
      if k < |parts| { StillTakesOver(parts, part, k); } else { NowTakesOver(parts, part); }
    }
  }

  lemma FirstPart(part: Part)
    requires EndFacts(part.request, part.end) && part.request.turnOffset == 0
    ensures PartsOk([part]) && Total([part]) == |part.end.turns|
  {
    TotalSnoc([], part);
    assert [] + [part] == [part];
    ConcatEmpty(TurnIndexes(part.end));
  }

  lemma RootChainOk(runs: P.Runs, root: R.RootRequest, link: Link, h: R.HandOver)
    requires P.Ok(runs) && Typed(root.messages) && TypedScript(link.script)
    requires RootChain(runs, root, link, h).Some?
    ensures ChainOk(root, RootChain(runs, root, link, h).value, h)
  {
    var c := RootChain(runs, root, link, h).value;
    var request := R.RootKernelRequest(root);
    EndHasFacts(link, request);
    FirstPart(c.parts[0]);
    assert c.parts == [c.parts[0]];
    RootRecordOk(runs, root, link, h, c, c.parts[0]);
  }

  /** The tables an executed run leaves, as the record of a chain that it completes. */
  lemma ExecutedIsRecorded(
    root: R.RootRequest, runs: P.Runs, run: P.RunRecord, e: R.Execution, offset: int, h: R.HandOver, parts: seq<Part>)
    requires P.Ok(runs) && run.runId in runs && runs[run.runId] == run && parts != []
    requires e.Returned? && h.write(StateAfter(parts)).Some?
    requires run.continuationIndex == |parts| - 1 && run.maxContinuations == root.maxContinuations && run.budget == root.budget
    requires StateAfter(parts) == State(e.messages, offset + e.turnsCount)
    ensures RecordOk(root, Chain(R.Executed(runs, run, e, offset, h), run.runId, parts), h)
  {
    var after := R.Executed(runs, run, e, offset, h);
    R.ExecutedKeepsOk(runs, run, e, offset, h);
    R.ExecutedRecord(runs, run, e, offset, h);
    R.SameOriginSameStatus(after[run.runId], run, e.stopReason);
    RecordIs(root, after, run, parts, e.stopReason, h, after[run.runId]);
  }

  lemma RecordIs(
    root: R.RootRequest, after: P.Runs, run: P.RunRecord, parts: seq<Part>, reason: string, h: R.HandOver, r: P.RunRecord)
    requires P.Ok(after) && run.runId in after && after[run.runId] == r && P.SameOrigin(r, run) && LeftAt(r, reason) && parts != []
    requires run.continuationIndex == |parts| - 1 && run.maxContinuations == root.maxContinuations && run.budget == root.budget
    requires r.engineState.Some? && r.engineState == h.write(StateAfter(parts))
    ensures RecordOk(root, Chain(after, run.runId, parts), h)
  {
  }

  lemma RootRecordOk(runs: P.Runs, root: R.RootRequest, link: Link, h: R.HandOver, c: Chain, part: Part)
    requires P.Ok(runs) && RootChain(runs, root, link, h) == Some(c) && c.parts == [part] && Total([part]) == |part.end.turns|
    ensures RecordOk(root, c, h)
  {
    var create := P.CreateRoot(root.scope, root.budget, root.maxContinuations, root.runId);
    var (created, answer) := P.Apply(runs, create);
    P.StepKeepsOk(runs, create);
    ExecutedIsRecorded(root, created, answer.record, KernelOf(link, false)(R.RootKernelRequest(root)), 0, h, c.parts);
  }

  lemma ReadBack(c: Chain, root: R.RootRequest, h: R.HandOver)
    requires HandsOver(h) && ChainOk(root, c, h)
    ensures h.read(c.runs[c.lastId].engineState) == Some(State(SortedMessages(Last(c).messages), Total(c.parts)))
  {
    assert ComesBack(h, StateAfter(c.parts));
  }

  /** The run a job of the chain may run follows the last one. */
  lemma NextRunFollows(root: R.RootRequest, c: Chain, nextId: string, h: R.HandOver)
    requires ChainOk(root, c, h) && MayRun(c, nextId)
    ensures nextId != c.lastId
    ensures nextId in c.runs ==>
      && c.runs[nextId].runId == nextId && c.runs[nextId].continuationIndex == |c.parts|
      && c.runs[nextId].maxContinuations == root.maxContinuations && c.runs[nextId].budget == root.budget
  {
    assert P.RunOk(c.runs, c.lastId);
    if nextId in c.runs { assert P.RunOk(c.runs, nextId); }
  }

  /** What the set-up of a chain's job comes to. */
  ghost predicate SetUpWell(root: R.RootRequest, c: Chain, nextId: string, runs: P.Runs, setup: R.Setup) {
    && c.parts != [] && c.lastId in c.runs
    && P.Ok(runs)
    && (forall id :: id in c.runs && id != nextId ==> id in runs && runs[id] == c.runs[id])
    && (setup.Ready? ==>
          && setup.state == State(SortedMessages(Last(c).messages), Total(c.parts))
          && setup.run.runId == nextId && nextId in runs && runs[nextId] == setup.run
          && setup.run.continuationIndex == |c.parts|
          && setup.run.maxContinuations == root.maxContinuations && setup.run.budget == root.budget
          && Continues(setup.run, c.lastId))
  }

  lemma SetUpOfChain(root: R.RootRequest, c: Chain, nextId: string, h: R.HandOver)
    requires HandsOver(h) && ChainOk(root, c, h) && MayRun(c, nextId)
    ensures var (runs, setup) := R.SetUp(c.runs, SpecOf(c, nextId), h);
            var state := State(SortedMessages(Last(c).messages), Total(c.parts));
            && SetUpWell(root, c, nextId, runs, setup)
            && (setup.Ready? <==> nextId in c.runs || (h.write(state).Some? && |c.parts| <= root.maxContinuations))
  {
    ReadBack(c, root, h);
    NextRunFollows(root, c, nextId, h);
    assert P.RunOk(c.runs, c.lastId);
    R.SetUpKeepsOk(c.runs, SpecOf(c, nextId), h);
  }

  lemma StateAfterOneMore(parts: seq<Part>, part: Part)
    ensures Total(parts + [part]) == Total(parts) + |part.end.turns|
    ensures StateAfter(parts + [part]) == State(part.end.messages, Total(parts) + |part.end.turns|)
  {
    TotalSnoc(parts, part);
  }

  lemma LongerRecordOk(root: R.RootRequest, c: Chain, step: Step, h: R.HandOver, runs: P.Runs, setup: R.Setup)
    requires SetUpWell(root, c, step.nextId, runs, setup) && setup.Ready? && c.parts != []
    requires OutcomeOf(step, setup.run, setup.state, h).Returned?
    ensures var e := OutcomeOf(step, setup.run, setup.state, h);
            RecordOk(root, Chain(R.Executed(runs, setup.run, e, setup.state.turnOffset, h), step.nextId,
                                 c.parts + [PartOf(step, setup.run, setup.state)]), h)
  {
    var e := OutcomeOf(step, setup.run, setup.state, h);
    var part := PartOf(step, setup.run, setup.state);
    StateAfterOneMore(c.parts, part);
    OutcomeIsTheEnd(step, setup.run, setup.state, h);
    ExecutedIsRecorded(root, runs, setup.run, e, setup.state.turnOffset, h, c.parts + [part]);
  }

  lemma OutcomeIsSettled(step: Step, run: P.RunRecord, state: State, h: R.HandOver, end: Status)
    requires end == EndOf(step.link, R.JobKernelRequest(run, state, step.limits))
    ensures OutcomeOf(step, run, state, h) == R.Settled(if step.cancelled then R.TaskCancelled else ExecutionOf(end), state.turnOffset, h)
    ensures PartOf(step, run, state).end == end.state
  {
  }

  lemma SettledIsTheEnd(end: Status, cancelled: bool, offset: int, h: R.HandOver)
    requires R.Settled(if cancelled then R.TaskCancelled else ExecutionOf(end), offset, h).Returned?
    ensures var e := R.Settled(if cancelled then R.TaskCancelled else ExecutionOf(end), offset, h);
            && e.messages == end.state.messages && e.turnsCount == |end.state.turns|
            && h.write(State(end.state.messages, offset + |end.state.turns|)).Some?
  {
    R.SettledReturns(if cancelled then R.TaskCancelled else ExecutionOf(end), offset, h);
    ReturnedIsTheEnd(end);
  }

  lemma OutcomeIsTheEnd(step: Step, run: P.RunRecord, state: State, h: R.HandOver)
    requires OutcomeOf(step, run, state, h).Returned?
    ensures var e := OutcomeOf(step, run, state, h); var end := PartOf(step, run, state).end;
            && e.messages == end.messages && e.turnsCount == |end.turns|
            && h.write(State(end.messages, state.turnOffset + |end.turns|)).Some?
  {
    var end := EndOf(step.link, R.JobKernelRequest(run, state, step.limits));
    OutcomeIsSettled(step, run, state, h, end);
    SettledIsTheEnd(end, step.cancelled, state.turnOffset, h);
  }

  /** An attempt that does not return touches the record of its own run only. */
  lemma FailedRecordOk(root: R.RootRequest, c: Chain, nextId: string, h: R.HandOver, runs: P.Runs, setup: R.Setup, e: R.Execution)
    requires RecordOk(root, c, h) && SetUpWell(root, c, nextId, runs, setup) && setup.Ready? && nextId != c.lastId
    ensures RecordOk(root, c.(runs := R.Executed(runs, setup.run, e, setup.state.turnOffset, h)), h)
  {
    R.ExecutedKeepsOk(runs, setup.run, e, setup.state.turnOffset, h);
    OnlyItsOwnRecord(runs, setup.run, e, setup.state.turnOffset, h, c.lastId);
  }

  lemma OnlyItsOwnRecord(runs: P.Runs, run: P.RunRecord, e: R.Execution, offset: int, h: R.HandOver, id: string)
    requires run.runId in runs && runs[run.runId] == run
    ensures var after := R.Executed(runs, run, e, offset, h);
            && (id in runs && id != run.runId ==> id in after && after[id] == runs[id])
            && run.runId in after && P.SameOrigin(after[run.runId], run)
  {
  }

  lemma LongerOk(root: R.RootRequest, c: Chain, step: Step, h: R.HandOver, runs: P.Runs, setup: R.Setup)
    requires ChainOk(root, c, h) && TypedScript(step.link.script) && SetUpWell(root, c, step.nextId, runs, setup) && setup.Ready?
    requires OutcomeOf(step, setup.run, setup.state, h).Returned?
    ensures var e := OutcomeOf(step, setup.run, setup.state, h);
            ChainOk(root, Chain(R.Executed(runs, setup.run, e, setup.state.turnOffset, h), step.nextId,
                                c.parts + [PartOf(step, setup.run, setup.state)]), h)
  {
    var part := PartOf(step, setup.run, setup.state);
    EndHasFacts(step.link, part.request);
    SortedMessagesStay(Last(c).messages);
    OnePartMore(c.parts, part);
    LongerRecordOk(root, c, step, h, runs, setup);
  }

  lemma TriedOk(root: R.RootRequest, c: Chain, step: Step, h: R.HandOver, runs: P.Runs, setup: R.Setup)
    requires ChainOk(root, c, h) && TypedScript(step.link.script) && SetUpWell(root, c, step.nextId, runs, setup)
    requires step.nextId != c.lastId
    ensures ChainOk(root, Tried(c, step, runs, setup, h), h)
  {
    if setup.Ready? {
      var e := OutcomeOf(step, setup.run, setup.state, h);
      if e.Returned? { LongerOk(root, c, step, h, runs, setup); } else { FailedRecordOk(root, c, step.nextId, h, runs, setup, e); }
    }
  }

  lemma AttemptIsTried(root: R.RootRequest, c: Chain, step: Step, h: R.HandOver, after: Chain) returns (runs: P.Runs, setup: R.Setup)
    requires HandsOver(h) && ChainOk(root, c, h) && Attempt(c, step, h) == Some(after)
    ensures SetUpWell(root, c, step.nextId, runs, setup) && MayRun(c, step.nextId)
    ensures after == Tried(c, step, runs, setup, h)
  {
    runs, setup := R.SetUp(c.runs, SpecOf(c, step.nextId), h).0, R.SetUp(c.runs, SpecOf(c, step.nextId), h).1;
    SetUpOfChain(root, c, step.nextId, h);
  }

  /** A job whose attempt came to a run and failed can be attempted again: it finds that run and gets as far. */
  lemma FailedAttemptCanBeRepeated(root: R.RootRequest, c: Chain, step: Step, h: R.HandOver)
    requires HandsOver(h) && ChainOk(root, c, h) && MayRun(c, step.nextId)
    requires R.SetUp(c.runs, SpecOf(c, step.nextId), h).1.Ready? && Attempt(c, step, h).value.parts == c.parts
    ensures var again := Attempt(c, step, h).value;
            && step.nextId in again.runs && MayRun(again, step.nextId)
            && R.SetUp(again.runs, SpecOf(again, step.nextId), h).1.Ready?
  {
    var (runs, setup) := R.SetUp(c.runs, SpecOf(c, step.nextId), h);
    SetUpOfChain(root, c, step.nextId, h);
    NextRunFollows(root, c, step.nextId, h);
    var e := OutcomeOf(step, setup.run, setup.state, h);
    assert !e.Returned?;
    OnlyItsOwnRecord(runs, setup.run, e, setup.state.turnOffset, h, c.lastId);
    ReadBack(c, root, h);
  }

  // ---------- Every run of the chain keeps its record ----------

  ghost predicate CutOk(root: R.RootRequest, c: Chain, h: R.HandOver, k: nat)
    requires 0 < k <= |c.parts|
  {
    ChainOk(root, Cut(c, k), h)
  }

  /** The record of the k-th run was made as a continuation of the run before it. */
  ghost predicate LinkOk(c: Chain, k: nat)
    requires 1 < k <= |c.parts|
  {
    && c.parts[k - 1].request.runId in c.runs
    && Continues(c.runs[c.parts[k - 1].request.runId], c.parts[k - 2].request.runId)
  }

  ghost predicate WholeOk(root: R.RootRequest, c: Chain, h: R.HandOver) {
    && c.parts != [] && c.lastId == c.parts[|c.parts| - 1].request.runId
    && (forall k: nat :: 0 < k <= |c.parts| ==> CutOk(root, c, h, k))
    && (forall k: nat :: 1 < k <= |c.parts| ==> LinkOk(c, k))
  }

  lemma LastCut(c: Chain)
    requires c.parts != [] && c.lastId == c.parts[|c.parts| - 1].request.runId
    ensures Cut(c, |c.parts|) == c
  {
    assert c.parts[..|c.parts|] == c.parts;
  }

  predicate RunIsReady(runs: P.Runs, setup: R.Setup, nextId: string) {
    setup.Ready? ==> setup.run.runId == nextId && nextId in runs && runs[nextId] == setup.run
  }

  /** A try changes no record but that of its own run, and that is a continuation. */
  lemma TriedLeavesOthers(c: Chain, step: Step, h: R.HandOver, runs: P.Runs, setup: R.Setup, id: string)
    requires RunIsReady(runs, setup, step.nextId) && id in runs && id != step.nextId
    ensures var after := Tried(c, step, runs, setup, h).runs; id in after && after[id] == runs[id]
  {
    if setup.Ready? {
      OnlyItsOwnRecord(runs, setup.run, OutcomeOf(step, setup.run, setup.state, h), setup.state.turnOffset, h, id);
    }
  }

  lemma TriedContinues(c: Chain, step: Step, h: R.HandOver, runs: P.Runs, setup: R.Setup)
    requires setup.Ready? && RunIsReady(runs, setup, step.nextId) && Continues(setup.run, c.lastId)
    ensures var after := Tried(c, step, runs, setup, h).runs; step.nextId in after && Continues(after[step.nextId], c.lastId)
  {
    OnlyItsOwnRecord(runs, setup.run, OutcomeOf(step, setup.run, setup.state, h), setup.state.turnOffset, h, c.lastId);
  }

  predicate Follows(c: Chain, nextId: string, after: Chain) {
    || (after.parts == c.parts && after.lastId == c.lastId)
    || (&& after.parts != [] && after.parts[..|after.parts| - 1] == c.parts
        && after.lastId == nextId == after.parts[|after.parts| - 1].request.runId)
  }

  /** The chain is as it was, or one run longer, and other runs keep their records. */
  ghost predicate Moved(root: R.RootRequest, c: Chain, nextId: string, h: R.HandOver, after: Chain) {
    && ChainOk(root, after, h) && Follows(c, nextId, after)
    && (forall id :: id in c.runs && id != nextId ==> id in after.runs && after.runs[id] == c.runs[id])
    && (after.parts != c.parts ==> nextId in after.runs && Continues(after.runs[nextId], c.lastId))
    && (nextId in c.runs ==> c.runs[nextId].continuationIndex == |c.parts|)
  }

  lemma TriedLeavesAllOthers(root: R.RootRequest, c: Chain, step: Step, h: R.HandOver, runs: P.Runs, setup: R.Setup, after: Chain)
    requires SetUpWell(root, c, step.nextId, runs, setup) && after == Tried(c, step, runs, setup, h)
    ensures forall id :: id in c.runs && id != step.nextId ==> id in after.runs && after.runs[id] == c.runs[id]
  {
    forall id | id in c.runs && id != step.nextId ensures id in after.runs && after.runs[id] == c.runs[id] {
      TriedLeavesOthers(c, step, h, runs, setup, id);
    }
  }

  lemma TriedFollows(c: Chain, step: Step, h: R.HandOver, runs: P.Runs, setup: R.Setup, after: Chain)
    requires after == Tried(c, step, runs, setup, h) && RunIsReady(runs, setup, step.nextId)
    requires setup.Ready? ==> Continues(setup.run, c.lastId)
    ensures Follows(c, step.nextId, after)
    ensures after.parts != c.parts ==> step.nextId in after.runs && Continues(after.runs[step.nextId], c.lastId)
  {
    if setup.Ready? { TriedContinues(c, step, h, runs, setup); }
  }

  lemma TriedMoves(root: R.RootRequest, c: Chain, step: Step, h: R.HandOver, runs: P.Runs, setup: R.Setup, after: Chain)
    requires ChainOk(root, c, h) && TypedScript(step.link.script) && SetUpWell(root, c, step.nextId, runs, setup)
    requires MayRun(c, step.nextId) && after == Tried(c, step, runs, setup, h)
    ensures Moved(root, c, step.nextId, h, after)
  {
    NextRunFollows(root, c, step.nextId, h);
    TriedOk(root, c, step, h, runs, setup);
    TriedFollows(c, step, h, runs, setup, after);
    TriedLeavesAllOthers(root, c, step, h, runs, setup, after);
  }

  /** The k-th run and its record are the same in both, and so are the runs before it. */
  predicate Kept(c: Chain, after: Chain, k: nat) {
    && 0 < k <= |c.parts| && k <= |after.parts| && after.parts[..k] == c.parts[..k]
    && var id := c.parts[k - 1].request.runId;
       && after.parts[k - 1].request.runId == id
       && id in c.runs && id in after.runs && after.runs[id] == c.runs[id]
  }

  lemma PartsKept(c: Chain, n: nat, nextId: string, after: Chain, k: nat)
    requires 0 < k <= n <= |c.parts| && Follows(Cut(c, n), nextId, after)
    ensures n <= |after.parts| <= n + 1 && after.parts[..k] == c.parts[..k] && after.parts[k - 1] == c.parts[k - 1]
  {
    assert after.parts[..n] == c.parts[..n];
    assert after.parts[..k] == after.parts[..n][..k] && c.parts[..k] == c.parts[..n][..k];
    assert after.parts[..k][k - 1] == c.parts[..k][k - 1];
  }

  /** The runs up to the one continued are kept. */
  lemma EarlierRunsAreKept(root: R.RootRequest, c: Chain, n: nat, nextId: string, h: R.HandOver, after: Chain, k: nat)
    requires WholeOk(root, c, h) && 0 < k <= n <= |c.parts| && Moved(root, Cut(c, n), nextId, h, after)
    ensures Kept(c, after, k)
  {
    assert CutOk(root, c, h, k);
    PartsKept(c, n, nextId, after, k);
  }

  lemma KeptCutOk(root: R.RootRequest, c: Chain, after: Chain, h: R.HandOver, k: nat)
    requires Kept(c, after, k) && CutOk(root, c, h, k) && P.Ok(after.runs)
    ensures CutOk(root, after, h, k)
  {
    assert Cut(after, k) == Cut(c, k).(runs := after.runs);
  }

  ghost predicate KeptUpTo(c: Chain, after: Chain, n: nat) {
    && n <= |c.parts| && n <= |after.parts| <= n + 1
    && forall k: nat :: 0 < k <= n ==> Kept(c, after, k)
  }

  lemma AllAreKept(root: R.RootRequest, c: Chain, n: nat, nextId: string, h: R.HandOver, after: Chain)
    requires WholeOk(root, c, h) && 0 < n <= |c.parts| && Moved(root, Cut(c, n), nextId, h, after)
    ensures KeptUpTo(c, after, n)
  {
    forall k: nat | 0 < k <= n ensures Kept(c, after, k) {
      EarlierRunsAreKept(root, c, n, nextId, h, after, k);
    }
    PartsKept(c, n, nextId, after, n);
  }

  lemma CutsStayOk(root: R.RootRequest, c: Chain, h: R.HandOver, after: Chain, n: nat)
    requires WholeOk(root, c, h) && KeptUpTo(c, after, n)
    requires P.Ok(after.runs) && after.parts != [] && CutOk(root, after, h, |after.parts|)
    ensures forall k: nat :: 0 < k <= |after.parts| ==> CutOk(root, after, h, k)
  {
    forall k: nat | 0 < k < |after.parts| ensures CutOk(root, after, h, k) {
      assert Kept(c, after, k) && CutOk(root, c, h, k);
      KeptCutOk(root, c, after, h, k);
    }
  }

  lemma LinksStayOk(root: R.RootRequest, c: Chain, h: R.HandOver, after: Chain, n: nat)
    requires WholeOk(root, c, h) && KeptUpTo(c, after, n)
    requires n > 0 && (|after.parts| == n + 1 ==> LinkOk(after, n + 1))
    ensures forall k: nat :: 1 < k <= |after.parts| ==> LinkOk(after, k)
  {
    forall k: nat | 1 < k <= |after.parts| ensures LinkOk(after, k) {
      if k <= n {
        assert Kept(c, after, k) && Kept(c, after, k - 1) && LinkOk(c, k);
        KeptLinkOk(c, after, k);
      }
    }
  }

  lemma KeptLinkOk(c: Chain, after: Chain, k: nat)
    requires 1 < k && Kept(c, after, k) && Kept(c, after, k - 1) && LinkOk(c, k)
    ensures LinkOk(after, k)
  {
  }

  lemma NewLinkOk(root: R.RootRequest, c: Chain, n: nat, nextId: string, h: R.HandOver, after: Chain)
    requires 0 < n <= |c.parts| && Moved(root, Cut(c, n), nextId, h, after)
    ensures |after.parts| == n + 1 ==> LinkOk(after, n + 1)
  {
    PartsKept(c, n, nextId, after, n);
  }

  lemma MovedOk(root: R.RootRequest, c: Chain, n: nat, nextId: string, h: R.HandOver, after: Chain)
    requires WholeOk(root, c, h) && 0 < n <= |c.parts| && Moved(root, Cut(c, n), nextId, h, after)
    ensures WholeOk(root, after, h)
  {
    AllAreKept(root, c, n, nextId, h, after);
    NewLinkOk(root, c, n, nextId, h, after);
    PartsKept(c, n, nextId, after, n);
    LastCut(after);
    CutsStayOk(root, c, h, after, n);
    LinksStayOk(root, c, h, after, n);
  }

  lemma ContinuedMoves(root: R.RootRequest, c: Chain, step: Step, h: R.HandOver, after: Chain)
    requires HandsOver(h) && WholeOk(root, c, h) && TypedScript(step.link.script) && Continued(c, step, h) == Some(after)
    ensures 0 < step.after <= |c.parts| && Moved(root, Cut(c, step.after), step.nextId, h, after)
  {
    assert CutOk(root, c, h, step.after);
    var runs, setup := AttemptIsTried(root, Cut(c, step.after), step, h, after);
    TriedMoves(root, Cut(c, step.after), step, h, runs, setup, after);
  }

  lemma ContinuedOk(root: R.RootRequest, c: Chain, step: Step, h: R.HandOver, after: Chain)
    requires HandsOver(h) && WholeOk(root, c, h) && TypedScript(step.link.script) && Continued(c, step, h) == Some(after)
    ensures WholeOk(root, after, h) && ChainOk(root, after, h) && |after.parts| <= |c.parts| + 1
  {
    ContinuedMoves(root, c, step, h, after);
    MovedOk(root, c, step.after, step.nextId, h, after);
    PartsKept(c, step.after, step.nextId, after, step.after);
  }

  ghost predicate TypedSteps(steps: seq<Step>) {
    forall k :: 0 <= k < |steps| ==> TypedScript(steps[k].link.script)
  }

  lemma {:induction false} ChainStaysOk(runs: P.Runs, root: R.RootRequest, first: Link, steps: seq<Step>, h: R.HandOver)
    requires P.Ok(runs) && Typed(root.messages) && TypedScript(first.script) && TypedSteps(steps) && HandsOver(h)
    requires ChainOf(runs, root, first, steps, h).Some?
    ensures var c := ChainOf(runs, root, first, steps, h).value;
            WholeOk(root, c, h) && ChainOk(root, c, h) && |c.parts| <= |steps| + 1
  {
    var c := ChainOf(runs, root, first, steps, h).value;
    if steps == [] {
      RootChainOk(runs, root, first, h);
      FirstIsWhole(root, c, h);
    } else {
      var front := steps[..|steps| - 1];
      ChainStaysOk(runs, root, first, front, h);
      ContinuedOk(root, ChainOf(runs, root, first, front, h).value, steps[|steps| - 1], h, c);
    }
  }

  /** A run of the chain that has returned can be run again from the run before it, by a job that names it. */
  lemma ReturnedRunCanBeRepeated(root: R.RootRequest, c: Chain, h: R.HandOver, k: nat)
    requires HandsOver(h) && WholeOk(root, c, h) && 1 < k <= |c.parts|
    ensures var before, id := Cut(c, k - 1), c.parts[k - 1].request.runId;
            MayRun(before, id) && R.SetUp(before.runs, SpecOf(before, id), h).1.Ready?
  {
    assert CutOk(root, c, h, k - 1) && LinkOk(c, k);
    SetUpOfChain(root, Cut(c, k - 1), c.parts[k - 1].request.runId, h);
  }

  lemma FirstIsWhole(root: R.RootRequest, c: Chain, h: R.HandOver)
    requires ChainOk(root, c, h) && |c.parts| == 1 && c.lastId == c.parts[0].request.runId
    ensures WholeOk(root, c, h)
  {
    LastCut(c);
  }

  // ---------- Main results ----------

  /**
   Main result: over any chain, whatever attempts fail and are made again, the turn indexes of the runs
   that return are 1, 2, ..., n without gap or repeat, each of these runs takes over the transcript and
   the turn count of the one before it, and there are at most `max_continuations` + 1 of them.
   */
  lemma ChainIsSeamless(runs: P.Runs, root: R.RootRequest, first: Link, steps: seq<Step>, h: R.HandOver)
    requires P.Ok(runs) && Typed(root.messages) && TypedScript(first.script) && TypedSteps(steps) && HandsOver(h)
    requires ChainOf(runs, root, first, steps, h).Some?
    ensures var parts := ChainOf(runs, root, first, steps, h).value.parts;
            && AllIndexes(parts) == From(0, Total(parts))
            && (forall k: nat :: 0 < k < |parts| ==> TakesOver(parts, k))
            && (forall k: nat :: k < |parts| ==> parts[k].request.messages <= parts[k].end.messages)
            && 1 <= |parts| <= |steps| + 1 && |parts| <= root.maxContinuations + 1
  {
    ChainStaysOk(runs, root, first, steps, h);
    var c := ChainOf(runs, root, first, steps, h).value;
    assert P.RunOk(c.runs, c.lastId);
    forall k: nat | k < |c.parts| ensures c.parts[k].request.messages <= c.parts[k].end.messages {
      assert EndFacts(c.parts[k].request, c.parts[k].end);
    }
  }

  predicate LimitedBy(part: Part, maxTurns: nat) {
    part.request.limits.maxTurns == Some(maxTurns)
  }

  predicate AllLimited(parts: seq<Part>, maxTurns: nat) {
    forall k :: 0 <= k < |parts| ==> LimitedBy(parts[k], maxTurns)
  }

  predicate DefaultLimits(steps: seq<Step>) {
    forall k :: 0 <= k < |steps| ==> steps[k].limits.None?
  }

  lemma TriedLimited(root: R.RootRequest, c: Chain, step: Step, h: R.HandOver, runs: P.Runs, setup: R.Setup)
    requires SetUpWell(root, c, step.nextId, runs, setup) && step.limits.None? && AllLimited(c.parts, root.budget.maxTurns)
    ensures AllLimited(Tried(c, step, runs, setup, h).parts, root.budget.maxTurns)
  {
  }

  lemma ContinuedLimited(root: R.RootRequest, c: Chain, step: Step, h: R.HandOver, after: Chain, maxTurns: nat)
    requires HandsOver(h) && WholeOk(root, c, h) && Continued(c, step, h) == Some(after) && step.limits.None?
    requires AllLimited(c.parts, maxTurns) && maxTurns == root.budget.maxTurns
    ensures AllLimited(after.parts, maxTurns)
  {
    assert CutOk(root, c, h, step.after);
    var runs, setup := AttemptIsTried(root, Cut(c, step.after), step, h, after);
    TriedLimited(root, Cut(c, step.after), step, h, runs, setup);
  }

  lemma {:induction false} ChainLimited(runs: P.Runs, root: R.RootRequest, first: Link, steps: seq<Step>, h: R.HandOver, maxTurns: nat)
    requires P.Ok(runs) && Typed(root.messages) && TypedScript(first.script) && TypedSteps(steps) && HandsOver(h)
    requires root.limits.None? && DefaultLimits(steps) && ChainOf(runs, root, first, steps, h).Some?
    requires maxTurns == root.budget.maxTurns
    ensures AllLimited(ChainOf(runs, root, first, steps, h).value.parts, maxTurns)
  {
    if steps != [] {
      var front := steps[..|steps| - 1];
      ChainLimited(runs, root, first, front, h, maxTurns);
      ChainStaysOk(runs, root, first, front, h);
      ContinuedLimited(root, ChainOf(runs, root, first, front, h).value, steps[|steps| - 1], h,
                       ChainOf(runs, root, first, steps, h).value, maxTurns);
    }
  }

  lemma {:induction false} TotalBounded(parts: seq<Part>, maxTurns: nat)
    requires AllLimited(parts, maxTurns) && forall k: nat :: k < |parts| ==> EndFacts(parts[k].request, parts[k].end)
    ensures Total(parts) <= |parts| * maxTurns
  {
    if parts != [] {
      var last := parts[|parts| - 1];
      TotalBounded(parts[..|parts| - 1], maxTurns);
      assert EndFacts(last.request, last.end) && LimitedBy(last, maxTurns);
      assert |parts| * maxTurns == (|parts| - 1) * maxTurns + maxTurns;
    }
  }

  lemma Scaled(a: nat, b: nat, m: nat)
    requires a <= b
    ensures a * m <= b * m
  {
  }

  lemma TurnsOfChain(root: R.RootRequest, c: Chain, h: R.HandOver, maxTurns: nat)
    requires ChainOk(root, c, h) && AllLimited(c.parts, maxTurns)
    ensures Total(c.parts) <= (root.maxContinuations + 1) * maxTurns
  {
    assert P.RunOk(c.runs, c.lastId);
    TotalBounded(c.parts, maxTurns);
    Scaled(|c.parts|, root.maxContinuations + 1, maxTurns);
  }

  /** Main result: under the budget's limits a chain has at most (`max_continuations` + 1) * `max_turns` turns. */
  lemma ChainTurnsAreBounded(runs: P.Runs, root: R.RootRequest, first: Link, steps: seq<Step>, h: R.HandOver)
    requires P.Ok(runs) && Typed(root.messages) && TypedScript(first.script) && TypedSteps(steps) && HandsOver(h)
    requires root.limits.None? && DefaultLimits(steps) && ChainOf(runs, root, first, steps, h).Some?
    ensures Total(ChainOf(runs, root, first, steps, h).value.parts) <= (root.maxContinuations + 1) * root.budget.maxTurns
  {
    ChainStaysOk(runs, root, first, steps, h);
    ChainLimited(runs, root, first, steps, h, root.budget.maxTurns);
    TurnsOfChain(root, ChainOf(runs, root, first, steps, h).value, h, root.budget.maxTurns);
  }

  /**
   A job that continues the k-th run gets as far as running iff an earlier attempt has made its run, or a
   continuation is left and the state can be written again; one is left if the k-th run is continuable.
   */
  lemma ChainGoesOnIff(runs: P.Runs, root: R.RootRequest, first: Link, steps: seq<Step>, h: R.HandOver, k: nat, nextId: string)
    requires P.Ok(runs) && Typed(root.messages) && TypedScript(first.script) && TypedSteps(steps) && HandsOver(h)
    requires ChainOf(runs, root, first, steps, h).Some?
    requires var c := ChainOf(runs, root, first, steps, h).value; 0 < k <= |c.parts| && MayRun(Cut(c, k), nextId)
    ensures var c := Cut(ChainOf(runs, root, first, steps, h).value, k);
            && c.lastId in c.runs
            && (R.SetUp(c.runs, SpecOf(c, nextId), h).1.Ready? <==>
                  nextId in c.runs
                  || (k <= root.maxContinuations && h.write(State(SortedMessages(Last(c).messages), Total(c.parts))).Some?))
            && (c.runs[c.lastId].status == P.Continuable ==> k <= root.maxContinuations)
  {
    ChainStaysOk(runs, root, first, steps, h);
    assert CutOk(root, ChainOf(runs, root, first, steps, h).value, h, k);
    GoesOnIff(root, Cut(ChainOf(runs, root, first, steps, h).value, k), h, nextId);
  }

  lemma GoesOnIff(root: R.RootRequest, c: Chain, h: R.HandOver, nextId: string)
    requires HandsOver(h) && ChainOk(root, c, h) && MayRun(c, nextId)
    ensures c.lastId in c.runs
    ensures R.SetUp(c.runs, SpecOf(c, nextId), h).1.Ready? <==>
              nextId in c.runs
              || (|c.parts| <= root.maxContinuations && h.write(State(SortedMessages(Last(c).messages), Total(c.parts))).Some?)
    ensures c.runs[c.lastId].status == P.Continuable ==> |c.parts| <= root.maxContinuations
  {
    SetUpOfChain(root, c, nextId, h);
    var r := c.runs[c.lastId];
    if r.status == P.Continuable {
      var reason :| LeftAt(r, reason);
      P.ContinuableIff(r, reason);
    }
  }

  // ---------- Pairing through the hand-over ----------

  lemma {:induction false} SortedUseIds(blocks: seq<ContentBlock>, sorted: seq<ContentBlock>)
    requires |sorted| == |blocks| && forall k :: 0 <= k < |blocks| ==> sorted[k] == SortedBlock(blocks[k])
    ensures UseIds(sorted) == UseIds(blocks)
    ensures NoResultDicts(blocks) ==> NoResultDicts(sorted)
  {
    if blocks != [] { SortedUseIds(blocks[1..], sorted[1..]); }
  }

  lemma SortedSilent(m: Message)
    requires Silent(m)
    ensures Silent(SortedMessage(m))
  {
    if m.content.Blocks? { SortedUseIds(m.content.blocks, SortedMessage(m).content.blocks); }
  }

  lemma SortedCalling(m: Message)
    requires Calling(m)
    ensures Calling(SortedMessage(m))
  {
    var s := SortedMessage(m);
    SortedUseIds(m.content.blocks, s.content.blocks);
    assert CallIds(s.toolCalls) == CallIds(m.toolCalls);
    forall j: nat, k: nat | j < k < |s.toolCalls| ensures OtherCall(s.toolCalls, j, k) {
      assert OtherCall(m.toolCalls, j, k);
    }
  }

  lemma SortedAnswers(ms: seq<Message>, n: nat)
    requires ms != [] && n == |ms[0].toolCalls| < |ms|
    requires forall k :: 0 <= k < n ==> AnswersCall(ms[1..], ms[0].toolCalls, k)
    ensures var s := SortedMessages(ms);
            |s[0].toolCalls| == n && forall k :: 0 <= k < n ==> AnswersCall(s[1..], s[0].toolCalls, k)
  {
    var s := SortedMessages(ms);
    forall k | 0 <= k < n ensures AnswersCall(s[1..], s[0].toolCalls, k) {
      assert AnswersCall(ms[1..], ms[0].toolCalls, k);
    }
  }

  lemma SortedDrop(ms: seq<Message>, n: nat)
    requires n <= |ms|
    ensures SortedMessages(ms)[n..] == SortedMessages(ms[n..])
  {
  }

  lemma SortedGroup(ms: seq<Message>)
    requires WellPaired(ms) && ms != []
    ensures var s := SortedMessages(ms); var n := |ms[0].toolCalls|;
            && |s[0].toolCalls| == n < |s|
            && (if n == 0 then Silent(s[0])
                else Calling(s[0]) && forall k :: 0 <= k < n ==> AnswersCall(s[1..], s[0].toolCalls, k))
            && WellPaired(ms[1 + n..])
  {
    if ms[0].toolCalls == [] {
      SortedSilent(ms[0]);
    } else {
      SortedCalling(ms[0]);
      SortedAnswers(ms, |ms[0].toolCalls|);
    }
  }

  lemma GroupPairs(s: seq<Message>, n: nat)
    requires s != [] && |s[0].toolCalls| == n < |s| && WellPaired(s[1 + n..])
    requires if n == 0 then Silent(s[0])
             else Calling(s[0]) && forall k :: 0 <= k < n ==> AnswersCall(s[1..], s[0].toolCalls, k)
    ensures WellPaired(s)
  {
  }

  /** Sorting the keys of tool inputs keeps a transcript well paired. */
  lemma {:induction false} SortedStaysPaired(ms: seq<Message>)
    requires WellPaired(ms)
    ensures WellPaired(SortedMessages(ms))
    decreases |ms|
  {
    if ms != [] {
      var n := |ms[0].toolCalls|;
      SortedGroup(ms);
      SortedStaysPaired(ms[1 + n..]);
      SortedDrop(ms, 1 + n);
      GroupPairs(SortedMessages(ms), n);
    }
  }

  ghost predicate FaithfulSteps(steps: seq<Step>) {
    forall k :: 0 <= k < |steps| ==> IdFaithful(steps[k].link.setup.env.guards.behaviour)
  }

  predicate PartPaired(part: Part) {
    WellPaired(part.request.messages) && WellPaired(part.end.messages)
  }

  predicate PartsPaired(parts: seq<Part>) {
    forall k :: 0 <= k < |parts| ==> PartPaired(parts[k])
  }

  /** With executors that name their calls, the transcript stays well paired through every run and hand-over. */
  lemma {:induction false} ChainStaysPaired(runs: P.Runs, root: R.RootRequest, first: Link, steps: seq<Step>, h: R.HandOver)
    requires P.Ok(runs) && Typed(root.messages) && TypedScript(first.script) && TypedSteps(steps) && HandsOver(h)
    requires IdFaithful(first.setup.env.guards.behaviour) && FaithfulSteps(steps) && WellPaired(root.messages)
    requires ChainOf(runs, root, first, steps, h).Some?
    ensures PartsPaired(ChainOf(runs, root, first, steps, h).value.parts)
  {
    if steps == [] {
      EndIsPaired(first, R.RootKernelRequest(root));
    } else {
      var front := steps[..|steps| - 1];
      ChainStaysPaired(runs, root, first, front, h);
      ChainStaysOk(runs, root, first, front, h);
      ContinuedPaired(root, ChainOf(runs, root, first, front, h).value, steps[|steps| - 1], h,
                      ChainOf(runs, root, first, steps, h).value);
    }
  }

  lemma NextPartPaired(c: Chain, step: Step, run: P.RunRecord, state: State)
    requires c.parts != [] && PartsPaired(c.parts)
    requires state.turnOffset >= 0 && state.messages == SortedMessages(Last(c).messages)
    requires IdFaithful(step.link.setup.env.guards.behaviour)
    ensures PartsPaired(c.parts + [PartOf(step, run, state)])
  {
    assert PartPaired(c.parts[|c.parts| - 1]);
    SortedStaysPaired(Last(c).messages);
    EndIsPaired(step.link, R.JobKernelRequest(run, state, step.limits));
  }

  lemma TriedPaired(root: R.RootRequest, c: Chain, step: Step, h: R.HandOver, runs: P.Runs, setup: R.Setup)
    requires ChainOk(root, c, h) && SetUpWell(root, c, step.nextId, runs, setup) && PartsPaired(c.parts)
    requires IdFaithful(step.link.setup.env.guards.behaviour)
    ensures PartsPaired(Tried(c, step, runs, setup, h).parts)
  {
    if setup.Ready? { NextPartPaired(c, step, setup.run, setup.state); }
  }

  lemma ContinuedPaired(root: R.RootRequest, c: Chain, step: Step, h: R.HandOver, after: Chain)
    requires HandsOver(h) && WholeOk(root, c, h) && Continued(c, step, h) == Some(after) && PartsPaired(c.parts)
    requires IdFaithful(step.link.setup.env.guards.behaviour)
    ensures PartsPaired(after.parts)
  {
    assert CutOk(root, c, h, step.after);
    var runs, setup := AttemptIsTried(root, Cut(c, step.after), step, h, after);
    TriedPaired(root, Cut(c, step.after), step, h, runs, setup);
  }

  // ---------- The hand-over through JSON ----------

  function JsonHandOver(codec: Codec): R.HandOver {
    R.HandOver((s: State) => ToText(codec, s), (raw: Option<string>) => FromText(codec, raw))
  }

  /** For a faithful codec the program's hand-over is one that the results above are about. */
  lemma JsonHandsOver(codec: Codec)
    requires Faithful(codec)
    ensures HandsOver(JsonHandOver(codec))
  {
    forall s: State | Typed(s.messages) ensures ComesBack(JsonHandOver(codec), s) {
      RoundTrip(codec, s);
    }
  }

  /**
   Main result: over the JSON hand-over a job that continues the k-th run of a chain gets as far as running
   iff its run has been made before or a continuation is left. If the k-th run is continuable, it does.
   */
  lemma JsonChainGoesOnIff(
    runs: P.Runs, root: R.RootRequest, first: Link, steps: seq<Step>, codec: Codec, k: nat, nextId: string)
    requires P.Ok(runs) && Typed(root.messages) && TypedScript(first.script) && TypedSteps(steps) && Faithful(codec)
    requires ChainOf(runs, root, first, steps, JsonHandOver(codec)).Some?
    requires var c := ChainOf(runs, root, first, steps, JsonHandOver(codec)).value; 0 < k <= |c.parts| && MayRun(Cut(c, k), nextId)
    ensures var c := Cut(ChainOf(runs, root, first, steps, JsonHandOver(codec)).value, k);
            var ready := R.SetUp(c.runs, SpecOf(c, nextId), JsonHandOver(codec)).1.Ready?;
            && c.lastId in c.runs
            && (ready <==> nextId in c.runs || k <= root.maxContinuations)
            && (c.runs[c.lastId].status == P.Continuable ==> ready)
  {
    var h := JsonHandOver(codec);
    JsonHandsOver(codec);
    ChainStaysOk(runs, root, first, steps, h);
    assert CutOk(root, ChainOf(runs, root, first, steps, h).value, h, k);
    var c := Cut(ChainOf(runs, root, first, steps, h).value, k);
    GoesOnIff(root, c, h, nextId);
    SameTextAgain(codec, StateAfter(c.parts));
  }

  /** What a runner leaves continuable over the JSON hand-over is ready for a job under any fresh id. */
  lemma LeftContinuableIsReady(runs: P.Runs, run: P.RunRecord, e: R.Execution, offset: int, codec: Codec, spec: Q.JobSpec)
    requires P.Ok(runs) && run.runId in runs && runs[run.runId] == run && e.Returned?
    requires Faithful(codec) && Typed(e.messages) && ToText(codec, State(e.messages, offset + e.turnsCount)).Some?
    requires var after := R.Executed(runs, run, e, offset, JsonHandOver(codec));
             && after[run.runId].status == P.Continuable
             && spec.previousRunId == run.runId && spec.nextRunId !in after
    ensures R.SetUp(R.Executed(runs, run, e, offset, JsonHandOver(codec)), spec, JsonHandOver(codec)).1.Ready?
  {
    R.LeftContinuableCanContinue(runs, run, e, offset, JsonHandOver(codec), spec, "");
    RoundTrip(codec, State(e.messages, offset + e.turnsCount));
    SameTextAgain(codec, State(e.messages, offset + e.turnsCount));
  }

  /** A job that continues a run which has left no state begins with no messages and at turn 1. */
  lemma LostStateStartsAfresh(runs: P.Runs, spec: Q.JobSpec, codec: Codec)
    requires spec.previousRunId in runs && runs[spec.previousRunId].engineState.None?
    ensures var setup := R.SetUp(runs, spec, JsonHandOver(codec)).1;
            setup.Ready? ==> setup.state == State([], 0)
  {
  }

  /** There is one that writes every state. */
  lemma SomeHandOverWritesAll(render: Render)
    ensures var h := JsonHandOver(PlainCodec(render));
            HandsOver(h) && forall s: State :: h.write(s).Some?
  {
    PlainCodecIsFaithful(render);
    JsonHandsOver(PlainCodec(render));
  }
}
