/**
 The parser of Anthropic native streams: content blocks arrive as start, delta and stop events, keyed
 by index and freely interleaved.
 */
module AnthropicParser {
  import opened Options
  import opened IntSets
  import opened StandardEvents

  datatype StartBlock =
    | StartText
    | StartThinking(signature: Option<string>)
    | StartRedacted(data: Option<string>)
    | StartTool(id: string, name: string)
    | StartOther

  datatype Delta =
    | TextPiece(text: string)
    | ThinkingPiece(text: string)
    | SignaturePiece(signature: Option<string>)
    | JsonPiece(json: string)
    | OtherPiece

  datatype RawUsage = RawUsage(input: int, output: int, cacheRead: int, cacheCreation: int, cached: int)

  /** An absent stop reason is the empty string. */
  datatype Chunk =
    | MessageStart(usage: Option<RawUsage>)
    | BlockStart(index: int, start: StartBlock)
    | BlockDelta(index: int, delta: Delta)
    | BlockStop(index: int)
    | MessageDelta(stopReason: string, usage: Option<RawUsage>)
    | MessageStop
    | StreamError
    | OtherChunk

  datatype Kind = TextKind | ThinkingKind | RedactedKind | ToolKind | OtherKind

  datatype Reasoning = Reasoning(text: string, signature: Option<string>, redacted: bool, data: Option<string>)

  datatype ToolState = ToolState(id: string, name: string, args: string)

  datatype Session = Session(
    blockKinds: map<int, Kind>,
    textBuffers: map<int, string>,
    reasoningState: map<int, Reasoning>,
    toolState: map<int, ToolState>,
    completedBlocks: seq<Block>,
    completedIndices: set<int>,
    usage: Option<Usage>,
    rawStopReason: string,
    turnDoneEmitted: bool)

  const NEW_SESSION := Session(map[], map[], map[], map[], [], {}, None, "", false)

  predicate ValidAt(s: Session, i: int)
    requires i in s.blockKinds
  {
    match s.blockKinds[i]
    case TextKind => i in s.textBuffers
    case ThinkingKind => i in s.reasoningState && !s.reasoningState[i].redacted && s.reasoningState[i].data.None?
    case RedactedKind => i in s.reasoningState && s.reasoningState[i].redacted
    case ToolKind => i in s.toolState
    case OtherKind => true
  }

  /** The dictionaries hold an entry wherever the parser indexes them. */
  predicate Valid(s: Session) {
    forall i :: i in s.blockKinds ==> ValidAt(s, i)
  }

  predicate NonEmpty(data: Option<string>) {
    data.Some? && data.value != ""
  }

  function KindAt(s: Session, i: int): Kind {
    if i in s.blockKinds then s.blockKinds[i] else OtherKind
  }

  // ---------- Usage and stop reasons ----------

  function OrElse(a: int, b: int): int {
    if a != 0 then a else b
  }

  function MergeUsage(existing: Option<Usage>, raw: Option<RawUsage>): Option<Usage> {
    if raw.None? then existing
    else
      var r := raw.value;
      var read := if r.cached != 0 && r.cacheRead == 0 && r.cacheCreation == 0 then r.cached else r.cacheRead;
      var prior := if existing.Some? then existing.value else Usage(0, 0, 0, 0, 0, 0);
      var input, output := OrElse(r.input, prior.inputTokens), OrElse(r.output, prior.outputTokens);
      Some(Usage(input, output, input + output, OrElse(read, prior.cacheRead), OrElse(r.cacheCreation, prior.cacheCreation), 0))
  }

  function MapStopReason(raw: string): string {
    match raw
    case "" => "stop"
    case "end_turn" => "stop"
    case "stop_sequence" => "stop"
    case "max_tokens" => "length"
    case "refusal" => "content_filter"
    case _ => raw
  }

  function UsageEvents(usage: Option<Usage>): seq<StandardEvent> {
    if usage.Some? then [UsageUpdate(usage.value)] else []
  }

  // ---------- One chunk ----------

  datatype Fed = Fed(session: Session, events: seq<StandardEvent>, raised: bool)

  function OnStart(s: Session, i: int, start: StartBlock): Fed {
    match start
    case StartText =>
      Fed(s.(blockKinds := s.blockKinds[i := TextKind], textBuffers := s.textBuffers[i := ""]), [], false)
    case StartThinking(signature) =>
      Fed(s.(blockKinds := s.blockKinds[i := ThinkingKind],
             reasoningState := s.reasoningState[i := Reasoning("", signature, false, None)]), [], false)
    case StartRedacted(data) =>
      Fed(s.(blockKinds := s.blockKinds[i := RedactedKind],
             reasoningState := s.reasoningState[i := Reasoning("", None, true, data)]), [], false)
    case StartTool(id, name) =>
      Fed(s.(blockKinds := s.blockKinds[i := ToolKind], toolState := s.toolState[i := ToolState(id, name, "")]),
          [ToolCallStart(i, id, name)], false)
    case StartOther =>
      Fed(s.(blockKinds := s.blockKinds[i := OtherKind]), [], false)
  }

  function OnDelta(s: Session, i: int, delta: Delta): Fed
    requires Valid(s)
  {
    match (KindAt(s, i), delta)
    case (TextKind, TextPiece(text)) =>
      Fed(s.(textBuffers := s.textBuffers[i := s.textBuffers[i] + text]), [TextDelta(text, i)], false)
    case (ThinkingKind, ThinkingPiece(text)) =>
      var r := s.reasoningState[i];
      Fed(s.(reasoningState := s.reasoningState[i := r.(text := r.text + text)]), [ReasoningDelta(text, i)], false)
    case (ThinkingKind, SignaturePiece(signature)) =>
      Fed(s.(reasoningState := s.reasoningState[i := s.reasoningState[i].(signature := signature)]), [], false)
    case (ToolKind, JsonPiece(json)) =>
      var t := s.toolState[i];
      Fed(s.(toolState := s.toolState[i := t.(args := t.args + json)]), [ToolCallArgsDelta(i, json, t.id)], false)
    case _ => Fed(s, [], false)
  }

  function Completed(s: Session, i: int, block: Block, events: seq<StandardEvent>): Fed {
    Fed(s.(completedBlocks := s.completedBlocks + [block], completedIndices := s.completedIndices + {i}), events, false)
  }

  function OnStop(loads: Loads, s: Session, i: int): Fed
    requires Valid(s)
  {
    match KindAt(s, i)
    case TextKind => Completed(s, i, TextBlock(s.textBuffers[i]), [])
    case ToolKind =>
      var t := s.toolState[i];
      Completed(s, i, ToolBlock(loads, t.id, t.name, t.args, i), [ToolEnd(loads, t.id, t.name, t.args, i)])
    case OtherKind => Fed(s, [], false)
    case _ =>
      var r := s.reasoningState[i];
      // A redacted reasoning block without data cannot be built.
      if r.redacted && !NonEmpty(r.data) then Fed(s, [], true)
      else Completed(s, i, ReasoningBlock(r.text, r.signature, r.redacted, r.data), [])
  }

  function DoneEvent(s: Session, content: seq<Block>, rawReason: string): StandardEvent {
    TurnDone(TurnDoneOf(content, MapStopReason(rawReason), rawReason, s.usage))
  }

  function Feed(loads: Loads, s: Session, c: Chunk): Fed
    requires Valid(s)
  {
    match c
    case MessageStart(usage) =>
      var merged := MergeUsage(s.usage, usage);
      Fed(s.(usage := merged), UsageEvents(merged), false)
    case BlockStart(i, start) => OnStart(s, i, start)
    case BlockDelta(i, delta) => OnDelta(s, i, delta)
    case BlockStop(i) => OnStop(loads, s, i)
    case MessageDelta(stopReason, usage) =>
      var merged := MergeUsage(s.usage, usage);
      Fed(s.(usage := merged, rawStopReason := if stopReason != "" then stopReason else s.rawStopReason),
          UsageEvents(merged), false)
    case MessageStop =>
      if s.turnDoneEmitted then Fed(s, [], false)
      else Fed(s.(turnDoneEmitted := true), [DoneEvent(s, s.completedBlocks, s.rawStopReason)], false)
    case StreamError => Fed(s, [], true)
    case OtherChunk => Fed(s, [], false)
  }

  lemma StartKeepsValid(s: Session, j: int, start: StartBlock)
    requires Valid(s)
    ensures Valid(OnStart(s, j, start).session)
  {
    var s' := OnStart(s, j, start).session;
    forall i | i in s'.blockKinds ensures ValidAt(s', i) {
      if i != j { assert ValidAt(s, i); }
    }
  }

  lemma DeltaKeepsValid(s: Session, j: int, delta: Delta)
    requires Valid(s)
    ensures Valid(OnDelta(s, j, delta).session)
  {
    var s' := OnDelta(s, j, delta).session;
    assert s'.blockKinds == s.blockKinds;
    forall i | i in s'.blockKinds ensures ValidAt(s', i) {
      assert ValidAt(s, i);
    }
  }

  lemma StopKeepsValid(loads: Loads, s: Session, j: int)
    requires Valid(s)
    ensures Valid(OnStop(loads, s, j).session)
  {
    var s' := OnStop(loads, s, j).session;
    assert s'.blockKinds == s.blockKinds && s'.textBuffers == s.textBuffers;
    assert s'.reasoningState == s.reasoningState && s'.toolState == s.toolState;
    assert forall i :: i in s'.blockKinds ==> (ValidAt(s', i) <==> ValidAt(s, i));
  }

  lemma FeedKeepsValid(loads: Loads, s: Session, c: Chunk)
    requires Valid(s)
    ensures Valid(Feed(loads, s, c).session)
  {
    match c
    case BlockStart(i, start) => StartKeepsValid(s, i, start);
    case BlockDelta(i, delta) => DeltaKeepsValid(s, i, delta);
    case BlockStop(i) => StopKeepsValid(loads, s, i);
    case _ =>
      var s' := Feed(loads, s, c).session;
      assert forall i :: i in s'.blockKinds ==> (ValidAt(s', i) <==> ValidAt(s, i));
  }

  // ---------- The end of a stream ----------

  function Finalize(s: Session): seq<StandardEvent> {
    if s.turnDoneEmitted then [] else [DoneEvent(s, s.completedBlocks, s.rawStopReason)]
  }

  /** What an unfinished block still gives after a failure. */
  function PartialBlock(loads: Loads, s: Session, i: int): Option<Block>
    requires Valid(s)
  {
    match KindAt(s, i)
    case TextKind => if s.textBuffers[i] != "" then Some(TextBlock(s.textBuffers[i])) else None
    case ThinkingKind =>
      var r := s.reasoningState[i];
      if r.text != "" || NonEmpty(r.signature)
      then Some(ReasoningBlock(r.text, r.signature, false, None)) else None
    case RedactedKind =>
      var r := s.reasoningState[i];
      if NonEmpty(r.data) then Some(ReasoningBlock("", None, true, r.data)) else None
    case ToolKind =>
      var t := s.toolState[i];
      Some(ToolBlock(loads, t.id, t.name, t.args, i))
    case OtherKind => None
  }

  function PartialBlocks(loads: Loads, s: Session, indices: seq<int>): seq<Block>
    requires Valid(s)
  {
    if indices == [] then []
    else
      (if PartialBlock(loads, s, indices[0]).Some? then [PartialBlock(loads, s, indices[0]).value] else [])
      + PartialBlocks(loads, s, indices[1..])
  }

  function PartialEvents(loads: Loads, s: Session, indices: seq<int>): (es: seq<StandardEvent>)
    requires Valid(s)
    ensures forall k :: 0 <= k < |es| ==> es[k].ToolCallEnd?
  {
    if indices == [] then []
    else
      (if KindAt(s, indices[0]) == ToolKind
       then var t := s.toolState[indices[0]]; [ToolEnd(loads, t.id, t.name, t.args, indices[0])] else [])
      + PartialEvents(loads, s, indices[1..])
  }

  /** The started blocks that have not stopped, in order of index. */
  function OpenIndices(s: Session): seq<int> {
    Sorted(s.blockKinds.Keys - s.completedIndices)
  }

  function RecoveredContent(loads: Loads, s: Session): seq<Block>
    requires Valid(s)
  {
    s.completedBlocks + PartialBlocks(loads, s, OpenIndices(s))
  }

  function FinalizeOnError(loads: Loads, s: Session): seq<StandardEvent>
    requires Valid(s)
  {
    if s.turnDoneEmitted || RecoveredContent(loads, s) == [] then []
    else PartialEvents(loads, s, OpenIndices(s)) + [DoneEvent(s, RecoveredContent(loads, s), "error")]
  }

  // ---------- A whole stream ----------

  /** Feeding stops at the first chunk that raises. */
  function FeedAll(loads: Loads, cs: seq<Chunk>): (r: Fed)
    ensures Valid(r.session)
  {
    if cs == [] then Fed(NEW_SESSION, [], false)
    else
      var before := FeedAll(loads, cs[..|cs| - 1]);
      if before.raised then before
      else
        var next := Feed(loads, before.session, cs[|cs| - 1]);
        FeedKeepsValid(loads, before.session, cs[|cs| - 1]);
        Fed(next.session, before.events + next.events, next.raised)
  }
}
