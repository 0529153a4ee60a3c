/** The stateful Anthropic session, and the client loop that drives it over a transport. */
module AnthropicSession {
  import opened Options
  import opened SeqFacts
  import opened StandardEvents
  import Parser = AnthropicParser

  class AnthropicNativeParserSession {
    var blockKinds: map<int, Parser.Kind>
    var textBuffers: map<int, string>
    var reasoningState: map<int, Parser.Reasoning>
    var toolState: map<int, Parser.ToolState>
    var completedBlocks: seq<Block>
    var completedIndices: set<int>
    var usage: Option<Usage>
    var rawStopReason: string
    var turnDoneEmitted: bool

    constructor ()
      ensures State() == Parser.NEW_SESSION
    {
      blockKinds, textBuffers, reasoningState, toolState := map[], map[], map[], map[];
      completedBlocks, completedIndices := [], {};
      usage, rawStopReason, turnDoneEmitted := None, "", false;
    }

    function State(): Parser.Session
      reads this
    {
      Parser.Session(blockKinds, textBuffers, reasoningState, toolState, completedBlocks, completedIndices,
                     usage, rawStopReason, turnDoneEmitted)
    }

    method OnStart(index: int, start: Parser.StartBlock) returns (events: seq<StandardEvent>)
      modifies this
      ensures Parser.Fed(State(), events, false) == Parser.OnStart(old(State()), index, start)
    {
      events := [];
      match start
      case StartText =>
        blockKinds := blockKinds[index := Parser.TextKind];
        textBuffers := textBuffers[index := ""];
      case StartThinking(signature) =>
        blockKinds := blockKinds[index := Parser.ThinkingKind];
        reasoningState := reasoningState[index := Parser.Reasoning("", signature, false, None)];
      case StartRedacted(data) =>
        blockKinds := blockKinds[index := Parser.RedactedKind];
        reasoningState := reasoningState[index := Parser.Reasoning("", None, true, data)];
      case StartTool(id, name) =>
        blockKinds := blockKinds[index := Parser.ToolKind];
        toolState := toolState[index := Parser.ToolState(id, name, "")];
        events := [ToolCallStart(index, id, name)];
      case StartOther =>
        blockKinds := blockKinds[index := Parser.OtherKind];
    }

    method OnDelta(index: int, delta: Parser.Delta) returns (events: seq<StandardEvent>)
      requires Parser.Valid(State())
      modifies this
      ensures Parser.Fed(State(), events, false) == Parser.OnDelta(old(State()), index, delta)
    {
      events := [];
      if index in blockKinds {
        assert Parser.ValidAt(State(), index);
        match (blockKinds[index], delta)
        case (TextKind, TextPiece(text)) =>
          textBuffers := textBuffers[index := textBuffers[index] + text];
          events := [TextDelta(text, index)];
        case (ThinkingKind, ThinkingPiece(text)) =>
          var state := reasoningState[index];
          reasoningState := reasoningState[index := state.(text := state.text + text)];
          events := [ReasoningDelta(text, index)];
        case (ThinkingKind, SignaturePiece(signature)) =>
          reasoningState := reasoningState[index := reasoningState[index].(signature := signature)];
        case (ToolKind, JsonPiece(json)) =>
          var state := toolState[index];
          toolState := toolState[index := state.(args := state.args + json)];
          events := [ToolCallArgsDelta(index, json, state.id)];
        case _ =>
      }
    }

    method Complete(index: int, block: Block)
      modifies this`completedBlocks, this`completedIndices
      ensures completedBlocks == old(completedBlocks) + [block]
      ensures completedIndices == old(completedIndices) + {index}
    {
      completedBlocks := completedBlocks + [block];
      completedIndices := completedIndices + {index};
    }

    method OnStop(loads: Loads, index: int) returns (events: seq<StandardEvent>, raised: bool)
      requires Parser.Valid(State())
      modifies this
      ensures Parser.Fed(State(), events, raised) == Parser.OnStop(loads, old(State()), index)
    {
      events, raised := [], false;
      if index in blockKinds {
        assert Parser.ValidAt(State(), index);
        match blockKinds[index]
        case TextKind =>
          Complete(index, TextBlock(textBuffers[index]));
        case ToolKind =>
          var state := toolState[index];
          Complete(index, ToolBlock(loads, state.id, state.name, state.args, index));
          events := [ToolEnd(loads, state.id, state.name, state.args, index)];
        case OtherKind =>
        case _ =>
          var state := reasoningState[index];
          if state.redacted && !Parser.NonEmpty(state.data) {
            raised := true;
          } else {
            Complete(index, ReasoningBlock(state.text, state.signature, state.redacted, state.data));
          }
      }
    }

    method Feed(loads: Loads, chunk: Parser.Chunk) returns (events: seq<StandardEvent>, raised: bool)
      requires Parser.Valid(State())
      modifies this
      ensures Parser.Fed(State(), events, raised) == Parser.Feed(loads, old(State()), chunk)
      ensures Parser.Valid(State())
    {
      Parser.FeedKeepsValid(loads, State(), chunk);
      events, raised := [], false;
      match chunk
      case MessageStart(rawUsage) =>
        usage := Parser.MergeUsage(usage, rawUsage);
        events := Parser.UsageEvents(usage);
      case BlockStart(index, start) =>
        events := OnStart(index, start);
      case BlockDelta(index, delta) =>
        events := OnDelta(index, delta);
      case BlockStop(index) =>
        events, raised := OnStop(loads, index);
      case MessageDelta(stopReason, rawUsage) =>
        if stopReason != "" {
          rawStopReason := stopReason;
        }
        usage := Parser.MergeUsage(usage, rawUsage);
        events := Parser.UsageEvents(usage);
      case MessageStop =>
        if !turnDoneEmitted {
          events := [Parser.DoneEvent(State(), completedBlocks, rawStopReason)];
          turnDoneEmitted := true;
        }
      case StreamError =>
        raised := true;
      case OtherChunk =>
    }

    method Finalize() returns (events: seq<StandardEvent>)
      modifies this`turnDoneEmitted
      ensures events == Parser.Finalize(old(State())) && turnDoneEmitted
    {
      events := [];
      if !turnDoneEmitted {
        events := [Parser.DoneEvent(State(), completedBlocks, rawStopReason)];
        turnDoneEmitted := true;
      }
    }

    /** The loop over the open blocks in order of index. */
    method PartialErrorOutput(loads: Loads) returns (events: seq<StandardEvent>, blocks: seq<Block>)
      requires Parser.Valid(State())
      ensures events == Parser.PartialEvents(loads, State(), Parser.OpenIndices(State()))
      ensures blocks == Parser.RecoveredContent(loads, State())
    {
      var indices := Parser.OpenIndices(State());
      events, blocks := [], completedBlocks;
      for k := 0 to |indices|
        invariant events + Parser.PartialEvents(loads, State(), indices[k..]) == Parser.PartialEvents(loads, State(), indices)
        invariant blocks + Parser.PartialBlocks(loads, State(), indices[k..])
               == completedBlocks + Parser.PartialBlocks(loads, State(), indices)
      {
        var index := indices[k];
        DropDrop(indices, k, 1);
        ghost var moreEvents := Parser.PartialEvents(loads, State(), indices[k + 1..]);
        ghost var moreBlocks := Parser.PartialBlocks(loads, State(), indices[k + 1..]);
        var newEvents := [];
        if Parser.KindAt(State(), index) == Parser.ToolKind {
          assert Parser.ValidAt(State(), index);
          var state := toolState[index];
          newEvents := [ToolEnd(loads, state.id, state.name, state.args, index)];
        }
        var block := Parser.PartialBlock(loads, State(), index);
        var newBlocks := if block.Some? then [block.value] else [];
        ConcatAssoc(events, newEvents, moreEvents);
        ConcatAssoc(blocks, newBlocks, moreBlocks);
        events := events + newEvents;
        blocks := blocks + newBlocks;
      }
      ConcatEmpty(events);
      ConcatEmpty(blocks);
    }

    method FinalizeOnError(loads: Loads) returns (events: seq<StandardEvent>)
      requires Parser.Valid(State())
      modifies this`turnDoneEmitted
      ensures events == Parser.FinalizeOnError(loads, old(State()))
      ensures turnDoneEmitted == (old(turnDoneEmitted) || events != [])
    {
      if turnDoneEmitted {
        return [];
      }
      var partialEvents, partialBlocks := PartialErrorOutput(loads);
      if partialBlocks == [] {
        return [];
      }
      events := partialEvents + [Parser.DoneEvent(State(), partialBlocks, "error")];
      turnDoneEmitted := true;
    }
  }

  /** What the consumer of a client sees: events, then a normal end or an exception. */
  datatype Run = Run(events: seq<StandardEvent>, raised: bool)

  /** A stream whose transport gives `cs` and then ends, or fails; a chunk may make the parser raise earlier. */
  function StreamRun(loads: Loads, cs: seq<Parser.Chunk>, transportFails: bool): Run {
    var fed := Parser.FeedAll(loads, cs);
    if fed.raised || transportFails then
      var recovered := Parser.FinalizeOnError(loads, fed.session);
      Run(fed.events + recovered, recovered == [])
    else
      Run(fed.events + Parser.Finalize(fed.session), false)
  }

  lemma {:induction false} RaisedStaysRaised(loads: Loads, cs: seq<Parser.Chunk>, n: nat)
    requires n <= |cs| && Parser.FeedAll(loads, cs[..n]).raised
    ensures Parser.FeedAll(loads, cs) == Parser.FeedAll(loads, cs[..n])
  {
    if n == |cs| {
      assert cs[..n] == cs;
    } else {
      assert cs[..|cs| - 1][..n] == cs[..n];
      RaisedStaysRaised(loads, cs[..|cs| - 1], n);
    }
  }

  method StreamWithRecovery(loads: Loads, cs: seq<Parser.Chunk>, transportFails: bool) returns (run: Run)
    ensures run == StreamRun(loads, cs, transportFails)
  {
    var session := new AnthropicNativeParserSession();
    var events, raised, i := [], false, 0;
    while i < |cs| && !raised
      invariant i <= |cs| && Parser.Valid(session.State())
      invariant Parser.Fed(session.State(), events, raised) == Parser.FeedAll(loads, cs[..i])
    {
      var more;
      more, raised := session.Feed(loads, cs[i]);
      events := events + more;
      assert cs[..i + 1][..i] == cs[..i];
      i := i + 1;
    }
    if raised { RaisedStaysRaised(loads, cs, i); } else { assert cs[..i] == cs; }
    if raised || transportFails {
      var recovered := session.FinalizeOnError(loads);
      return Run(events + recovered, recovered == []);
    }
    var last := session.Finalize();
    return Run(events + last, false);
  }

  lemma FeedCountsDone(loads: Loads, s: Parser.Session, c: Parser.Chunk)
    requires Parser.Valid(s)
    ensures var fed := Parser.Feed(loads, s, c);
            DoneCount(fed.events) + (if s.turnDoneEmitted then 1 else 0) == if fed.session.turnDoneEmitted then 1 else 0
  {
    var fed := Parser.Feed(loads, s, c);
    assert |fed.events| <= 1;
    if fed.events != [] { assert fed.events[..0] == []; }
  }

  lemma {:induction false} DoneIsCounted(loads: Loads, cs: seq<Parser.Chunk>)
    ensures var fed := Parser.FeedAll(loads, cs);
            DoneCount(fed.events) == if fed.session.turnDoneEmitted then 1 else 0
  {
    if cs != [] {
      var before := Parser.FeedAll(loads, cs[..|cs| - 1]);
      DoneIsCounted(loads, cs[..|cs| - 1]);
      if !before.raised {
        var next := Parser.Feed(loads, before.session, cs[|cs| - 1]);
        FeedCountsDone(loads, before.session, cs[|cs| - 1]);
        DoneCountConcat(before.events, next.events);
      }
    }
  }

  lemma RecoveryAddsOneDone(loads: Loads, s: Parser.Session)
    requires Parser.Valid(s)
    ensures var es := Parser.FinalizeOnError(loads, s);
            DoneCount(es) == (if es == [] then 0 else 1) && (s.turnDoneEmitted ==> es == [])
  {
    var es := Parser.FinalizeOnError(loads, s);
    if es != [] {
      var partial := Parser.PartialEvents(loads, s, Parser.OpenIndices(s));
      assert es[..|es| - 1] == partial;
      NoDoneNoCount(partial);
    }
  }

  /**
   Main result: however the stream fails, at most one TurnDone is seen; a normal end is preceded by
   exactly one. So the kernel never meets a finished stream without TurnDone.
   */
  lemma NormalEndHasOneTurnDone(loads: Loads, cs: seq<Parser.Chunk>, transportFails: bool)
    ensures var run := StreamRun(loads, cs, transportFails);
            DoneCount(run.events) <= 1 && (!run.raised ==> DoneCount(run.events) == 1)
    ensures !transportFails && !Parser.FeedAll(loads, cs).raised ==> !StreamRun(loads, cs, transportFails).raised
  {
    var fed := Parser.FeedAll(loads, cs);
    DoneIsCounted(loads, cs);
    RecoveryAddsOneDone(loads, fed.session);
    DoneCountConcat(fed.events, Parser.FinalizeOnError(loads, fed.session));
    DoneCountConcat(fed.events, Parser.Finalize(fed.session));
    if !fed.session.turnDoneEmitted { assert Parser.Finalize(fed.session)[..0] == []; }
  }
}
