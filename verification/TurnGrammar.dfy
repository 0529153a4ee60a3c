/**
 What a reader of one turn's events may rely on: their grammar, stated as an automaton that knows
 nothing of the kernel, and which of their idempotency keys can clash.
 */
module TurnGrammar {
  import opened Options
  import opened SeqFacts
  import opened StandardEvents
  import opened ToolGuards
  import opened Transcript
  import opened ToolChecks
  import opened TurnKernel

  // ---------- The grammar ----------

  datatype Stage =
    | Unstarted
    | Streaming
    | Listing
    | BetweenCalls
    | InCall(name: string, toolUseId: string)
    | MustPause(name: string, toolUseId: string)
    | Completed

  datatype Progress = Progress(stage: Stage, usages: nat, invalid: nat, requested: nat, executed: nat, paused: bool)

  const START := Progress(Unstarted, 0, 0, 0, 0, false)

  predicate Resting(s: Stage) {
    s.Streaming? || s.Listing? || s.BetweenCalls?
  }

  /**
   started, stream events, invalid calls, (tool started, tool finished, pause)*, completed. A pause
   follows exactly a finished call of a pause tool that succeeded, happens once, and no later call is
   executed or succeeds; the totals of the last event count the events before it.
   */
  function Step(pauseTools: set<string>, p: Progress, body: Body): Option<Progress> {
    match body
    case TurnStarted(_) =>
      if p.stage.Unstarted? then Some(p.(stage := Streaming)) else None
    case Streamed(e) =>
      if p.stage.Streaming? && !e.TurnDone? && !e.UsageUpdate? then Some(p) else None
    case UsageUpdated(_, n) =>
      if p.stage.Streaming? && n == p.usages + 1 then Some(p.(usages := n)) else None
    case ToolCallInvalid(b) =>
      if (p.stage.Streaming? || p.stage.Listing?) && b.InvalidToolCall?
      then Some(p.(stage := Listing, invalid := p.invalid + 1)) else None
    case ToolStarted(name, id) =>
      if Resting(p.stage) then Some(p.(stage := InCall(name, id), requested := p.requested + 1)) else None
    case ToolFinished(name, id, r) =>
      if p.stage == InCall(name, id) && (p.paused ==> !r.ok && !r.executed)
      then Some(p.(stage := if r.ok && name in pauseTools then MustPause(name, id) else BetweenCalls,
                   executed := p.executed + if r.executed then 1 else 0))
      else None
    case TurnPaused(name, id) =>
      if p.stage == MustPause(name, id) && !p.paused then Some(p.(stage := BetweenCalls, paused := true)) else None
    case TurnCompleted(_, requested, executed, denied, invalid, paused) =>
      if Resting(p.stage) && requested == p.requested && executed == p.executed && denied + executed == requested
         && invalid == p.invalid && paused == p.paused
      then Some(p.(stage := Completed)) else None
  }

  function Parse(pauseTools: set<string>, p: Progress, writes: seq<Write>): Option<Progress> {
    if writes == [] then Some(p)
    else match Parse(pauseTools, p, writes[..|writes| - 1])
         case None => None
         case Some(q) => Step(pauseTools, q, writes[|writes| - 1].draft.body.body)
  }

  lemma {:induction false} ParseConcat(pauseTools: set<string>, p: Progress, a: seq<Write>, b: seq<Write>)
    ensures Parse(pauseTools, p, a + b) ==
            match Parse(pauseTools, p, a) { case None => None case Some(q) => Parse(pauseTools, q, b) }
  {
    if b == [] {
      ConcatEmpty(a);
    } else {
      var front, w := b[..|b| - 1], b[|b| - 1];
      ParseConcat(pauseTools, p, a, front);
      SplitLast(b);
      ConcatAssoc(a, front, [w]);
      FrontOfSnoc(a + front, w);
    }
  }

  /** The writes take a reader from `p` to `q`. */
  predicate Leads(pauseTools: set<string>, p: Progress, writes: seq<Write>, q: Progress) {
    Parse(pauseTools, p, writes) == Some(q)
  }

  lemma LeadsOn(pauseTools: set<string>, p: Progress, a: seq<Write>, q: Progress, b: seq<Write>, r: Progress)
    requires Leads(pauseTools, p, a, q) && Leads(pauseTools, q, b, r)
    ensures Leads(pauseTools, p, a + b, r)
  {
    ParseConcat(pauseTools, p, a, b);
  }

  lemma LeadsOneFurther(pauseTools: set<string>, p: Progress, a: seq<Write>, q: Progress, w: Write, r: Progress)
    requires Leads(pauseTools, p, a, q) && Step(pauseTools, q, w.draft.body.body) == Some(r)
    ensures Leads(pauseTools, p, a + [w], r)
  {
    FrontOfSnoc(a, w);
  }

  lemma StaysPut(pauseTools: set<string>, p: Progress)
    ensures Leads(pauseTools, p, [], p)
  {
  }

  function PauseCount(writes: seq<Write>): nat {
    if writes == [] then 0
    else PauseCount(writes[..|writes| - 1]) + if writes[|writes| - 1].draft.body.body.TurnPaused? then 1 else 0
  }

  /** No grammatical turn holds more than one pause. */
  lemma {:induction false} AtMostOnePause(pauseTools: set<string>, writes: seq<Write>)
    requires Parse(pauseTools, START, writes).Some?
    ensures PauseCount(writes) == if Parse(pauseTools, START, writes).value.paused then 1 else 0
  {
    if writes != [] { AtMostOnePause(pauseTools, writes[..|writes| - 1]); }
  }

  // ---------- A turn follows it ----------

  function Streamed(events: seq<StandardEvent>): Progress {
    START.(stage := Streaming, usages := UsageCount(events))
  }

  lemma StreamStep(pauseTools: set<string>, t: TurnInfo, events: seq<StandardEvent>)
    requires events != [] && !events[|events| - 1].TurnDone?
    ensures var w := StreamWrite(t, events[|events| - 1], UsageCount(events));
            Step(pauseTools, Streamed(events[..|events| - 1]), w.draft.body.body) == Some(Streamed(events))
  {
  }

  lemma {:induction false} StreamLeads(pauseTools: set<string>, t: TurnInfo, events: seq<StandardEvent>)
    ensures Leads(pauseTools, Streamed([]), StreamWrites(t, events), Streamed(events))
  {
    if events == [] {
      StaysPut(pauseTools, Streamed([]));
    } else {
      var front, e := events[..|events| - 1], events[|events| - 1];
      StreamLeads(pauseTools, t, front);
      if e.TurnDone? {
        ConcatEmpty(StreamWrites(t, front));
      } else {
        StreamStep(pauseTools, t, events);
        LeadsOneFurther(pauseTools, Streamed([]), StreamWrites(t, front), Streamed(front),
                        StreamWrite(t, e, UsageCount(events)), Streamed(events));
      }
    }
  }

  function Listed(p: Progress, invalid: seq<Block>): Progress {
    p.(stage := if invalid == [] then Streaming else Listing, invalid := |invalid|)
  }

  lemma ListingStep(pauseTools: set<string>, t: TurnInfo, p: Progress, invalid: seq<Block>)
    requires invalid != [] && invalid[|invalid| - 1].InvalidToolCall?
    ensures Step(pauseTools, Listed(p, invalid[..|invalid| - 1]), ToolCallInvalid(invalid[|invalid| - 1])) == Some(Listed(p, invalid))
  {
  }

  lemma {:induction false} InvalidLeads(pauseTools: set<string>, t: TurnInfo, p: Progress, invalid: seq<Block>)
    requires p.stage == Streaming && p.invalid == 0 && forall k :: 0 <= k < |invalid| ==> invalid[k].InvalidToolCall?
    ensures Leads(pauseTools, p, InvalidWrites(t, invalid), Listed(p, invalid))
  {
    if invalid == [] {
      StaysPut(pauseTools, p);
    } else {
      var front := invalid[..|invalid| - 1];
      InvalidLeads(pauseTools, t, p, front);
      ListingStep(pauseTools, t, p, invalid);
      LeadsOneFurther(pauseTools, p, InvalidWrites(t, front), Listed(p, front),
                      InvalidWrite(t, invalid[|invalid| - 1]), Listed(p, invalid));
    }
  }

  lemma InvalidCallsAreInvalid(content: seq<Block>)
    ensures forall k :: 0 <= k < |InvalidCalls(content)| ==> InvalidCalls(content)[k].InvalidToolCall?
  {
    SelectedAreKept(content, (b: Block) => b.InvalidToolCall?);
  }

  lemma {:induction false} SelectedAreKept(content: seq<Block>, keep: Block -> bool)
    ensures forall k :: 0 <= k < |Select(content, keep)| ==> keep(Select(content, keep)[k])
  {
    if content != [] {
      SelectedAreKept(content[1..], keep);
    }
  }

  function AfterCall(env: TurnEnv, p: Progress, call: Block, r: ToolResult): Progress {
    p.(stage := BetweenCalls, requested := p.requested + 1,
       executed := p.executed + (if r.executed then 1 else 0), paused := p.paused || Pauses(env, call, r))
  }

  function InTheCall(p: Progress, call: Block): Progress {
    p.(stage := InCall(NameOf(call), IdOf(call)), requested := p.requested + 1)
  }

  function FinishedCall(env: TurnEnv, p: Progress, call: Block, r: ToolResult): Progress {
    p.(stage := if Pauses(env, call, r) then MustPause(NameOf(call), IdOf(call)) else BetweenCalls,
       requested := p.requested + 1, executed := p.executed + if r.executed then 1 else 0)
  }

  lemma FinishedLeads(env: TurnEnv, t: TurnInfo, p: Progress, call: Block, r: ToolResult)
    requires Resting(p.stage) && (p.paused ==> !r.ok && !r.executed)
    ensures Leads(env.pauseTools, p, [StartedWrite(t, call), FinishedWrite(t, call, r)], FinishedCall(env, p, call, r))
  {
    var tools := env.pauseTools;
    StaysPut(tools, p);
    LeadsOneFurther(tools, p, [], p, StartedWrite(t, call), InTheCall(p, call));
    ConcatEmpty([StartedWrite(t, call)]);
    LeadsOneFurther(tools, p, [StartedWrite(t, call)], InTheCall(p, call), FinishedWrite(t, call, r), FinishedCall(env, p, call, r));
    assert [StartedWrite(t, call)] + [FinishedWrite(t, call, r)] == [StartedWrite(t, call), FinishedWrite(t, call, r)];
  }

  lemma CallLeads(env: TurnEnv, t: TurnInfo, p: Progress, call: Block, r: ToolResult)
    requires Resting(p.stage) && (p.paused ==> !r.ok && !r.executed)
    ensures Leads(env.pauseTools, p, CallWrites(env, t, call, r), AfterCall(env, p, call, r))
  {
    var written := [StartedWrite(t, call), FinishedWrite(t, call, r)];
    FinishedLeads(env, t, p, call, r);
    if Pauses(env, call, r) {
      LeadsOneFurther(env.pauseTools, p, written, FinishedCall(env, p, call, r), PausedWrite(t, call), AfterCall(env, p, call, r));
    } else {
      ConcatEmpty(written);
    }
  }

  function AfterCalls(env: TurnEnv, p: Progress, calls: seq<Block>, results: seq<ToolResult>): Progress {
    Progress(if calls == [] then p.stage else BetweenCalls, p.usages, p.invalid,
             p.requested + |calls|, p.executed + CountExecuted(results), p.paused || AnyPause(env, calls, results))
  }

  lemma AfterCallsCons(env: TurnEnv, p: Progress, calls: seq<Block>, r: ToolResult, rest: seq<ToolResult>)
    requires calls != [] && |rest| == |calls| - 1
    ensures AfterCalls(env, AfterCall(env, p, calls[0], r), calls[1..], rest) == AfterCalls(env, p, calls, [r] + rest)
  {
    AnyPauseCons(env, calls, r, rest);
    CountExecutedCons(r, rest);
  }

  lemma SkippedWhilePaused(env: TurnEnv, call: Block, poll: nat, g: GuardState)
    ensures var r := HandleCall(env, call, poll, g, true).1; !r.ok && !r.executed
  {
  }

  /** The calls are handled as `paused` and the token say, so the pieces of the grammar repeat. */
  lemma {:induction false} CallsLead(env: TurnEnv, t: TurnInfo, p: Progress, calls: seq<Block>, poll: nat, g: GuardState)
    requires Resting(p.stage)
    ensures var results := HandleCalls(env, calls, poll, g, p.paused).1;
            && |results| == |calls|
            && Leads(env.pauseTools, p, ToolWrites(env, t, calls, results), AfterCalls(env, p, calls, results))
    decreases calls
  {
    HandleCallsAligns(env, calls, poll, g, p.paused);
    if calls == [] {
      StaysPut(env.pauseTools, p);
    } else {
      var (g1, r) := HandleCall(env, calls[0], poll, g, p.paused);
      var p1 := AfterCall(env, p, calls[0], r);
      var rest := HandleCalls(env, calls[1..], poll + 1, g1, p1.paused).1;
      SkippedWhilePaused(env, calls[0], poll, g);
      CallLeads(env, t, p, calls[0], r);
      CallsLead(env, t, p1, calls[1..], poll + 1, g1);
      ToolWritesCons(env, t, calls, r, rest);
      AfterCallsCons(env, p, calls, r, rest);
      LeadsOn(env.pauseTools, p, CallWrites(env, t, calls[0], r), p1,
              ToolWrites(env, t, calls[1..], rest), AfterCalls(env, p1, calls[1..], rest));
    }
  }

  lemma {:induction false} ToolWritesCons(env: TurnEnv, t: TurnInfo, calls: seq<Block>, r: ToolResult, rest: seq<ToolResult>)
    requires calls != [] && |rest| == |calls| - 1
    ensures ToolWrites(env, t, calls, [r] + rest) == CallWrites(env, t, calls[0], r) + ToolWrites(env, t, calls[1..], rest)
    decreases |calls|
  {
    if |calls| == 1 {
      assert calls[1..] == [] && calls[..0] == [];
      ConcatEmpty(CallWrites(env, t, calls[0], r));
    } else {
      var n := |calls|;
      var front := rest[..n - 2];
      ToolWritesCons(env, t, calls[..n - 1], r, front);
      ToolWritesPrefix(env, t, calls[..n - 1], [r] + rest, [r] + front);
      ToolWritesPrefix(env, t, calls[1..][..n - 2], rest, front);
      assert calls[..n - 1][1..] == calls[1..][..n - 2];
      ConcatAssoc(CallWrites(env, t, calls[0], r), ToolWrites(env, t, calls[1..][..n - 2], rest),
                  CallWrites(env, t, calls[n - 1], rest[n - 2]));
    }
  }

  lemma StartLeads(pauseTools: set<string>, t: TurnInfo, events: seq<StandardEvent>)
    ensures Leads(pauseTools, START, [StartWrite(t)] + StreamWrites(t, events), Streamed(events))
  {
    StaysPut(pauseTools, START);
    LeadsOneFurther(pauseTools, START, [], START, StartWrite(t), Streamed([]));
    ConcatEmpty([StartWrite(t)]);
    StreamLeads(pauseTools, t, events);
    LeadsOn(pauseTools, START, [StartWrite(t)], Streamed([]), StreamWrites(t, events), Streamed(events));
  }

  /** The last event's totals are those the reader has counted. */
  lemma CompletedStep(pauseTools: set<string>, t: TurnInfo, p: Progress, r: TurnResult)
    requires Resting(p.stage) && r.requested == p.requested && r.executed == p.executed && r.denied + r.executed == r.requested
    requires |InvalidCalls(r.content)| == p.invalid && r.paused == p.paused
    ensures Step(pauseTools, p, CompletedWrite(t, r).draft.body.body) == Some(p.(stage := Completed))
  {
  }

  lemma FinishLeads(env: TurnEnv, t: TurnInfo, done: TurnDoneData, poll: nat, g: GuardState, before: seq<Write>, p: Progress)
    requires Leads(env.pauseTools, START, before, p)
    requires p.stage == Streaming && p.invalid == p.requested == p.executed == 0 && !p.paused
    ensures var results := HandleCalls(env, ToolUses(done.content), poll, g, false).1;
            && |results| == |ToolUses(done.content)|
            && Leads(env.pauseTools, START,
                     before + InvalidWrites(t, InvalidCalls(done.content)) + ToolWrites(env, t, ToolUses(done.content), results),
                     AfterCalls(env, Listed(p, InvalidCalls(done.content)), ToolUses(done.content), results))
  {
    var tools := env.pauseTools;
    var invalid, calls := InvalidCalls(done.content), ToolUses(done.content);
    var p1 := Listed(p, invalid);
    InvalidCallsAreInvalid(done.content);
    InvalidLeads(tools, t, p, invalid);
    LeadsOn(tools, START, before, p, InvalidWrites(t, invalid), p1);
    CallsLead(env, t, p1, calls, poll, g);
    var results := HandleCalls(env, calls, poll, g, false).1;
    LeadsOn(tools, START, before + InvalidWrites(t, invalid), p1, ToolWrites(env, t, calls, results), AfterCalls(env, p1, calls, results));
  }

  /** A reader that has come to the end of a turn. */
  predicate Complete(pauseTools: set<string>, writes: seq<Write>) {
    var q := Parse(pauseTools, START, writes);
    q.Some? && q.value.stage == Completed
  }

  lemma FinishCompletes(env: TurnEnv, t: TurnInfo, done: TurnDoneData, poll: nat, g: GuardState, before: seq<Write>, p: Progress)
    requires Leads(env.pauseTools, START, before, p)
    requires p.stage == Streaming && p.invalid == p.requested == p.executed == 0 && !p.paused
    ensures Complete(env.pauseTools, FinishTurn(env, t, done, poll, g, before).writes)
  {
    var calls := ToolUses(done.content);
    var results := HandleCalls(env, calls, poll, g, false).1;
    FinishLeads(env, t, done, poll, g, before, p);
    ReportedCountsBoundCalls(env, calls, poll, g, false);
    var written := before + InvalidWrites(t, InvalidCalls(done.content)) + ToolWrites(env, t, calls, results);
    var q := AfterCalls(env, Listed(p, InvalidCalls(done.content)), calls, results);
    var r := FinishTurn(env, t, done, poll, g, before).result.value;
    CompletedStep(env.pauseTools, t, q, r);
    LeadsOneFurther(env.pauseTools, START, written, q, CompletedWrite(t, r), q.(stage := Completed));
  }

  lemma CancelledCompletes(pauseTools: set<string>, t: TurnInfo, before: seq<Write>, events: seq<StandardEvent>)
    requires Leads(pauseTools, START, before, Streamed(events))
    ensures Complete(pauseTools, before + [CompletedWrite(t, CANCELLED_TURN)])
  {
    var p := Streamed(events);
    CompletedStep(pauseTools, t, p, CANCELLED_TURN);
    LeadsOneFurther(pauseTools, START, before, p, CompletedWrite(t, CANCELLED_TURN), p.(stage := Completed));
  }

  /** Main result: whatever model, executor and token do, a turn that returns has written a complete turn. */
  lemma TurnFollowsTheGrammar(env: TurnEnv, t: TurnInfo, llm: LlmTurn, poll: nat, g: GuardState)
    requires RunTurn(env, t, llm, poll, g).result.Some?
    ensures Complete(env.pauseTools, RunTurn(env, t, llm, poll, g).writes)
  {
    var read, before := Read(env, llm, poll), Opening(env, t, llm, poll);
    var polls := poll + 1 + |read|;
    StartLeads(env.pauseTools, t, read);
    if StreamCancelled(env, llm, poll) {
      TurnIsCancelled(env, t, llm, poll, g, polls, before);
      CancelledCompletes(env.pauseTools, t, before, read);
    } else {
      var done := LastDone(read).value;
      TurnIsFinished(env, t, llm, poll, g, done, polls, before);
      FinishCompletes(env, t, done, polls, g, before, Streamed(read));
    }
  }

  /** So a turn writes at most one pause. */
  lemma TurnPausesAtMostOnce(env: TurnEnv, t: TurnInfo, llm: LlmTurn, poll: nat, g: GuardState)
    requires RunTurn(env, t, llm, poll, g).result.Some?
    ensures PauseCount(RunTurn(env, t, llm, poll, g).writes) <= 1
  {
    TurnFollowsTheGrammar(env, t, llm, poll, g);
    AtMostOnePause(env.pauseTools, RunTurn(env, t, llm, poll, g).writes);
  }

  /** A turn that raises has written its start and the stream events it read, and nothing of a tool. */
  lemma RaisingTurnStopsInTheStream(env: TurnEnv, t: TurnInfo, llm: LlmTurn, poll: nat, g: GuardState)
    requires RunTurn(env, t, llm, poll, g).result.None?
    ensures Leads(env.pauseTools, START, RunTurn(env, t, llm, poll, g).writes, Streamed(Read(env, llm, poll)))
  {
    StartLeads(env.pauseTools, t, Read(env, llm, poll));
  }
}
