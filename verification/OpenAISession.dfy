/** The stateful OpenAI-compatible session, and the client loop that drives it over a transport. */
module OpenAISession {
  import opened Options
  import opened SeqFacts
  import opened StandardEvents
  import Parser = OpenAIParser

  class OpenAICompatParserSession {
    var textBuffer: string
    var reasoningBuffer: string
    var toolCallsByIndex: map<int, Parser.ToolCall>
    var usage: Option<Usage>
    var finishReason: string
    var turnDoneEmitted: bool

    constructor ()
      ensures State() == Parser.NEW_SESSION
    {
      textBuffer, reasoningBuffer, toolCallsByIndex := "", "", map[];
      usage, finishReason, turnDoneEmitted := None, "", false;
    }

    function State(): Parser.Session
      reads this
    {
      Parser.Session(textBuffer, reasoningBuffer, toolCallsByIndex, usage, finishReason, turnDoneEmitted)
    }

    method TakeDelta(d: Parser.ToolCallDelta) returns (events: seq<StandardEvent>)
      modifies this`toolCallsByIndex
      ensures toolCallsByIndex ==
              old(toolCallsByIndex)[Parser.Slot(d) := Parser.Updated(old(toolCallsByIndex), d)]
      ensures events == Parser.DeltaEvents(old(toolCallsByIndex), d)
    {
      var index := if d.index.Some? then d.index.value else 0;
      ghost var calls := toolCallsByIndex;
      events := [];
      if index !in toolCallsByIndex {
        toolCallsByIndex := toolCallsByIndex[index := Parser.ToolCall(d.id, Parser.NameIn(d), "")];
        events := events + [ToolCallStart(index, d.id, Parser.NameIn(d))];
      }
      assert events == Parser.StartEvents(calls, d);
      var entry := toolCallsByIndex[index];
      if d.id != "" {
        entry := entry.(id := d.id);
        events := events + [ToolCallIdDelta(index, d.id)];
      }
      assert events == Parser.StartEvents(calls, d) + Parser.IdEvents(d);
      assert entry.id == Parser.Updated(calls, d).id;
      if d.fn.Some? {
        if d.fn.value.name != "" {
          entry := entry.(name := d.fn.value.name);
          events := events + [ToolCallNameDelta(index, d.fn.value.name, entry.id)];
        }
        assert events == Parser.StartEvents(calls, d) + Parser.IdEvents(d) + Parser.NameEvents(d, entry.id);
        if d.fn.value.arguments != "" {
          entry := entry.(arguments := entry.arguments + d.fn.value.arguments);
          events := events + [ToolCallArgsDelta(index, d.fn.value.arguments, entry.id)];
        }
      }
      assert entry == Parser.Updated(calls, d);
      toolCallsByIndex := toolCallsByIndex[index := entry];
      assert toolCallsByIndex == calls[index := entry];
    }

    method TakeDeltas(deltas: seq<Parser.ToolCallDelta>) returns (events: seq<StandardEvent>)
      modifies this`toolCallsByIndex
      ensures (toolCallsByIndex, events) == Parser.TakeDeltas(old(toolCallsByIndex), deltas)
    {
      events := [];
      for i := 0 to |deltas|
        invariant (toolCallsByIndex, events) == Parser.TakeDeltas(old(toolCallsByIndex), deltas[..i])
      {
        var more := TakeDelta(deltas[i]);
        assert deltas[..i + 1][..i] == deltas[..i];
        events := events + more;
      }
      assert deltas[..|deltas|] == deltas;
    }

    method Feed(chunk: Parser.Chunk) returns (events: seq<StandardEvent>)
      modifies this
      ensures (State(), events) == Parser.Feed(old(State()), chunk)
    {
      events := [];
      if chunk.usage.Some? {
        usage := chunk.usage;
        events := [UsageUpdate(chunk.usage.value)];
      }
      if chunk.choice.None? {
        return;
      }
      var choice := chunk.choice.value;
      ConcatEmpty(reasoningBuffer);
      ConcatEmpty(textBuffer);
      if choice.finishReason != "" {
        finishReason := choice.finishReason;
      }
      if choice.reasoning != "" {
        reasoningBuffer := reasoningBuffer + choice.reasoning;
        events := events + [ReasoningDelta(choice.reasoning, 0)];
      }
      if choice.content != "" {
        textBuffer := textBuffer + choice.content;
        events := events + [TextDelta(choice.content, 0)];
      }
      assert events == Parser.UsageEvents(chunk) + Parser.ReasoningEvents(choice) + Parser.TextEvents(choice);
      var more := TakeDeltas(choice.toolCalls);
      events := events + more;
    }

    method Finalize(loads: Loads) returns (events: seq<StandardEvent>)
      modifies this`turnDoneEmitted
      ensures events == Parser.Finalize(loads, old(State())) && turnDoneEmitted
    {
      if turnDoneEmitted {
        return [];
      }
      events := Parser.Finalize(loads, State());
      turnDoneEmitted := true;
    }

    method FinalizeOnError(loads: Loads) returns (events: seq<StandardEvent>)
      modifies this`turnDoneEmitted
      ensures events == Parser.FinalizeOnError(loads, old(State()))
      ensures turnDoneEmitted == (old(turnDoneEmitted) || events != [])
    {
      if turnDoneEmitted || !Parser.HasPartialOutput(State()) {
        return [];
      }
      events := Parser.FinalizeOnError(loads, State());
      turnDoneEmitted := true;
    }
  }

  /** What the consumer of a client sees: events, then a normal end or an exception. */
  datatype Run = Run(events: seq<StandardEvent>, raised: bool)

  /** A stream whose transport gives `cs` and then ends, or fails. */
  function StreamRun(loads: Loads, cs: seq<Parser.Chunk>, transportFails: bool): Run {
    var (s, events) := Parser.FeedAll(cs);
    if transportFails then
      var recovered := Parser.FinalizeOnError(loads, s);
      Run(events + recovered, recovered == [])
    else
      Run(events + Parser.Finalize(loads, s), false)
  }

  method StreamWithRecovery(loads: Loads, cs: seq<Parser.Chunk>, transportFails: bool) returns (run: Run)
    ensures run == StreamRun(loads, cs, transportFails)
  {
    var session := new OpenAICompatParserSession();
    var events := [];
    for i := 0 to |cs|
      invariant (session.State(), events) == Parser.FeedAll(cs[..i])
    {
      var more := session.Feed(cs[i]);
      events := events + more;
      assert cs[..i + 1][..i] == cs[..i];
    }
    assert cs[..|cs|] == cs;
    if transportFails {
      var recovered := session.FinalizeOnError(loads);
      return Run(events + recovered, recovered == []);
    }
    var last := session.Finalize(loads);
    return Run(events + last, false);
  }

  lemma DeltaIsNotDone(calls: map<int, Parser.ToolCall>, d: Parser.ToolCallDelta)
    ensures DoneCount(Parser.DeltaEvents(calls, d)) == 0
  {
    NoDoneNoCount(Parser.DeltaEvents(calls, d));
  }

  lemma {:induction false} DeltasAreNotDone(calls: map<int, Parser.ToolCall>, ds: seq<Parser.ToolCallDelta>)
    ensures DoneCount(Parser.TakeDeltas(calls, ds).1) == 0
  {
    if ds != [] {
      DeltasAreNotDone(calls, ds[..|ds| - 1]);
      var (before, events) := Parser.TakeDeltas(calls, ds[..|ds| - 1]);
      DeltaIsNotDone(before, ds[|ds| - 1]);
      DoneCountConcat(events, Parser.DeltaEvents(before, ds[|ds| - 1]));
    }
  }

  lemma ChunkIsNotDone(s: Parser.Session, c: Parser.Chunk)
    ensures DoneCount(Parser.Feed(s, c).1) == 0
  {
    NoDoneNoCount(Parser.UsageEvents(c));
    if c.choice.Some? {
      var choice := c.choice.value;
      var head := Parser.UsageEvents(c) + Parser.ReasoningEvents(choice) + Parser.TextEvents(choice);
      NoDoneNoCount(head);
      DeltasAreNotDone(s.toolCalls, choice.toolCalls);
      DoneCountConcat(head, Parser.TakeDeltas(s.toolCalls, choice.toolCalls).1);
    }
  }

  lemma {:induction false} FeedingIsNeverDone(cs: seq<Parser.Chunk>)
    ensures DoneCount(Parser.FeedAll(cs).1) == 0 && !Parser.FeedAll(cs).0.turnDoneEmitted
  {
    if cs != [] {
      var front, c := cs[..|cs| - 1], cs[|cs| - 1];
      FeedingIsNeverDone(front);
      var (before, events) := Parser.FeedAll(front);
      ChunkIsNotDone(before, c);
      DoneCountConcat(events, Parser.Feed(before, c).1);
    }
  }

  lemma FinalEventsEndInDone(loads: Loads, s: Parser.Session, stop: string, raw: string)
    ensures DoneCount(Parser.FinalEvents(loads, s, stop, raw)) == 1
  {
    var es := Parser.FinalEvents(loads, s, stop, raw);
    NoDoneNoCount(es[..|es| - 1]);
  }

  /**
   Main result: whenever the consumer sees a normal end it has seen exactly one TurnDone, and before an
   exception it has seen none. So the kernel never meets a finished stream without TurnDone.
   */
  lemma NormalEndHasOneTurnDone(loads: Loads, cs: seq<Parser.Chunk>, transportFails: bool)
    ensures var run := StreamRun(loads, cs, transportFails); DoneCount(run.events) == if run.raised then 0 else 1
    ensures !transportFails ==> !StreamRun(loads, cs, transportFails).raised
  {
    var (s, events) := Parser.FeedAll(cs);
    FeedingIsNeverDone(cs);
    EndingsEndInDone(loads, s);
    DoneCountConcat(events, Parser.Finalize(loads, s));
    DoneCountConcat(events, Parser.FinalizeOnError(loads, s));
  }

  lemma EndingsEndInDone(loads: Loads, s: Parser.Session)
    requires !s.turnDoneEmitted
    ensures DoneCount(Parser.Finalize(loads, s)) == 1
    ensures DoneCount(Parser.FinalizeOnError(loads, s)) == if Parser.FinalizeOnError(loads, s) == [] then 0 else 1
  {
    FinalEventsEndInDone(loads, s, Parser.MapFinishReason(s.finishReason), s.finishReason);
    FinalEventsEndInDone(loads, s, "error", "error");
  }
}
