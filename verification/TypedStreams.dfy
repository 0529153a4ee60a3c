/** Both stream parsers give tool inputs as dicts, so scripts made of their streams are typed. */
module TypedStreams {
  import opened IntSets
  import opened KeyOrder
  import opened StandardEvents
  import opened TurnKernel
  import opened ContinuationState
  import opened KernelRuns
  import A = AnthropicSession
  import AP = AnthropicParser
  import O = OpenAISession
  import OP = OpenAIParser

  predicate ReadsADict(loads: Loads, s: string) {
    loads(s).Some? ==> IsDict(loads(s).value)
  }

  /** `json.loads` gives dicts: of a repeated key it keeps the last value. */
  ghost predicate ReadsDicts(loads: Loads) {
    forall s: string :: ReadsADict(loads, s)
  }

  lemma ToolBlockTyped(loads: Loads, id: string, name: string, rawArgs: string, index: int)
    requires ReadsDicts(loads)
    ensures TypedBlock(ToolBlock(loads, id, name, rawArgs, index))
  {
    assert ReadsADict(loads, rawArgs);
  }

  lemma TypedContentConcat(a: seq<Block>, b: seq<Block>)
    requires TypedContent(a) && TypedContent(b)
    ensures TypedContent(a + b)
  {
  }

  lemma TypedEventsConcat(a: seq<StandardEvent>, b: seq<StandardEvent>)
    requires TypedEvents(a) && TypedEvents(b)
    ensures TypedEvents(a + b)
  {
  }

  // ---------- Anthropic ----------

  lemma StopTyped(loads: Loads, s: AP.Session, i: int)
    requires ReadsDicts(loads) && AP.Valid(s) && TypedContent(s.completedBlocks)
    ensures TypedContent(AP.OnStop(loads, s, i).session.completedBlocks) && TypedEvents(AP.OnStop(loads, s, i).events)
  {
    if AP.KindAt(s, i) == AP.ToolKind {
      var t := s.toolState[i];
      ToolBlockTyped(loads, t.id, t.name, t.args, i);
    }
  }

  lemma FeedTyped(loads: Loads, s: AP.Session, c: AP.Chunk)
    requires ReadsDicts(loads) && AP.Valid(s) && TypedContent(s.completedBlocks)
    ensures TypedContent(AP.Feed(loads, s, c).session.completedBlocks) && TypedEvents(AP.Feed(loads, s, c).events)
  {
    if c.BlockStop? { StopTyped(loads, s, c.index); }
  }

  lemma {:induction false} FeedAllTyped(loads: Loads, cs: seq<AP.Chunk>)
    requires ReadsDicts(loads)
    ensures TypedContent(AP.FeedAll(loads, cs).session.completedBlocks) && TypedEvents(AP.FeedAll(loads, cs).events)
  {
    if cs != [] {
      var front, c := cs[..|cs| - 1], cs[|cs| - 1];
      FeedAllTyped(loads, front);
      var before := AP.FeedAll(loads, front);
      if !before.raised {
        FeedTyped(loads, before.session, c);
        TypedEventsConcat(before.events, AP.Feed(loads, before.session, c).events);
      }
    }
  }

  lemma PartialBlockTyped(loads: Loads, s: AP.Session, i: int)
    requires ReadsDicts(loads) && AP.Valid(s)
    ensures AP.PartialBlock(loads, s, i).Some? ==> TypedBlock(AP.PartialBlock(loads, s, i).value)
  {
    if AP.KindAt(s, i) == AP.ToolKind {
      var t := s.toolState[i];
      ToolBlockTyped(loads, t.id, t.name, t.args, i);
    }
  }

  lemma {:induction false} PartialBlocksTyped(loads: Loads, s: AP.Session, indices: seq<int>)
    requires ReadsDicts(loads) && AP.Valid(s)
    ensures TypedContent(AP.PartialBlocks(loads, s, indices))
  {
    if indices != [] {
      PartialBlockTyped(loads, s, indices[0]);
      PartialBlocksTyped(loads, s, indices[1..]);
    }
  }

  lemma RecoveryTyped(loads: Loads, s: AP.Session)
    requires ReadsDicts(loads) && AP.Valid(s) && TypedContent(s.completedBlocks)
    ensures TypedEvents(AP.FinalizeOnError(loads, s)) && TypedEvents(AP.Finalize(s))
  {
    PartialBlocksTyped(loads, s, AP.OpenIndices(s));
    TypedContentConcat(s.completedBlocks, AP.PartialBlocks(loads, s, AP.OpenIndices(s)));
  }

  /** Whatever the chunks and however the stream fails. */
  lemma AnthropicStreamsAreTyped(loads: Loads, cs: seq<AP.Chunk>, transportFails: bool)
    requires ReadsDicts(loads)
    ensures TypedEvents(A.StreamRun(loads, cs, transportFails).events)
  {
    var fed := AP.FeedAll(loads, cs);
    FeedAllTyped(loads, cs);
    RecoveryTyped(loads, fed.session);
    TypedEventsConcat(fed.events, AP.FinalizeOnError(loads, fed.session));
    TypedEventsConcat(fed.events, AP.Finalize(fed.session));
  }

  // ---------- OpenAI ----------

  lemma {:induction false} NoDoneIsTyped(events: seq<StandardEvent>)
    requires DoneCount(events) == 0
    ensures TypedEvents(events)
  {
    if events != [] {
      NoDoneIsTyped(events[..|events| - 1]);
      assert events == events[..|events| - 1] + [events[|events| - 1]];
    }
  }

  lemma {:induction false} CallBlocksTyped(loads: Loads, calls: map<int, OP.ToolCall>, indices: seq<int>)
    requires ReadsDicts(loads) && forall k :: 0 <= k < |indices| ==> indices[k] in calls
    ensures TypedContent(OP.CallBlocks(loads, calls, indices))
  {
    if indices != [] {
      var call := calls[indices[0]];
      ToolBlockTyped(loads, call.id, call.name, call.arguments, indices[0]);
      CallBlocksTyped(loads, calls, indices[1..]);
    }
  }

  lemma FinalEventsTyped(loads: Loads, s: OP.Session, stop: string, raw: string)
    requires ReadsDicts(loads)
    ensures TypedEvents(OP.FinalEvents(loads, s, stop, raw))
  {
    SortedIsSorted(s.toolCalls.Keys);
    var indices := Sorted(s.toolCalls.Keys);
    CallBlocksTyped(loads, s.toolCalls, indices);
    TypedContentConcat(OP.BufferBlocks(s), OP.CallBlocks(loads, s.toolCalls, indices));
  }

  /** Whatever the chunks and however the stream fails. */
  lemma OpenAIStreamsAreTyped(loads: Loads, cs: seq<OP.Chunk>, transportFails: bool)
    requires ReadsDicts(loads)
    ensures TypedEvents(O.StreamRun(loads, cs, transportFails).events)
  {
    var (s, events) := OP.FeedAll(cs);
    O.FeedingIsNeverDone(cs);
    NoDoneIsTyped(events);
    FinalEventsTyped(loads, s, OP.MapFinishReason(s.finishReason), s.finishReason);
    FinalEventsTyped(loads, s, "error", "error");
    TypedEventsConcat(events, OP.FinalizeOnError(loads, s));
    TypedEventsConcat(events, OP.Finalize(loads, s));
  }

  // ---------- Scripts ----------

  /** One turn of a model behind either client. */
  datatype ClientTurn =
    | AnthropicTurn(anthropic: seq<AP.Chunk>, transportFails: bool)
    | OpenAITurn(openai: seq<OP.Chunk>, transportFails: bool)

  function TurnOfClient(loads: Loads, t: ClientTurn): LlmTurn {
    match t
    case AnthropicTurn(cs, fails) => var r := A.StreamRun(loads, cs, fails); LlmTurn(r.events, r.raised)
    case OpenAITurn(cs, fails) => var r := O.StreamRun(loads, cs, fails); LlmTurn(r.events, r.raised)
  }

  function ScriptOf(loads: Loads, turns: seq<ClientTurn>): seq<LlmTurn> {
    seq(|turns|, k requires 0 <= k < |turns| => TurnOfClient(loads, turns[k]))
  }

  /** Main result: any model behind these clients makes a typed script, as the results on chains of runs need. */
  lemma ClientScriptsAreTyped(loads: Loads, turns: seq<ClientTurn>)
    requires ReadsDicts(loads)
    ensures TypedScript(ScriptOf(loads, turns))
  {
    forall k | 0 <= k < |turns| ensures TypedEvents(ScriptOf(loads, turns)[k].events) {
      match turns[k]
      case AnthropicTurn(cs, fails) => AnthropicStreamsAreTyped(loads, cs, fails);
      case OpenAITurn(cs, fails) => OpenAIStreamsAreTyped(loads, cs, fails);
    }
  }
}
