/** The parser of OpenAI-compatible streams: text, reasoning and indexed tool call deltas share the chunks. */
module OpenAIParser {
  import opened Options
  import opened IntSets
  import opened SeqFacts
  import opened StandardEvents

  datatype FunctionDelta = FunctionDelta(name: string, arguments: string)

  datatype ToolCallDelta = ToolCallDelta(index: Option<int>, id: string, fn: Option<FunctionDelta>)

  /** `usage` is None where every count is zero. */
  datatype Chunk = Chunk(usage: Option<Usage>, choice: Option<Choice>)

  datatype Choice = Choice(finishReason: string, reasoning: string, content: string, toolCalls: seq<ToolCallDelta>)

  datatype ToolCall = ToolCall(id: string, name: string, arguments: string)

  datatype Session = Session(
    textBuffer: string,
    reasoningBuffer: string,
    toolCalls: map<int, ToolCall>,
    usage: Option<Usage>,
    finishReason: string,
    turnDoneEmitted: bool)

  const NEW_SESSION := Session("", "", map[], None, "", false)

  function OrElse(a: string, b: string): string {
    if a != "" then a else b
  }

  // ---------- One chunk ----------

  function Slot(d: ToolCallDelta): int {
    if d.index.Some? then d.index.value else 0
  }

  function NameIn(d: ToolCallDelta): string {
    if d.fn.Some? then d.fn.value.name else ""
  }

  function ArgumentsIn(d: ToolCallDelta): string {
    if d.fn.Some? then d.fn.value.arguments else ""
  }

  /** The call an index has once a delta is taken in; the first delta creates it. */
  function Updated(calls: map<int, ToolCall>, d: ToolCallDelta): ToolCall {
    var entry := if Slot(d) in calls then calls[Slot(d)] else ToolCall("", "", "");
    ToolCall(OrElse(d.id, entry.id), OrElse(NameIn(d), entry.name), entry.arguments + ArgumentsIn(d))
  }

  function When(emit: bool, e: StandardEvent): seq<StandardEvent> {
    if emit then [e] else []
  }

  function StartEvents(calls: map<int, ToolCall>, d: ToolCallDelta): seq<StandardEvent> {
    When(Slot(d) !in calls, ToolCallStart(Slot(d), d.id, NameIn(d)))
  }

  function IdEvents(d: ToolCallDelta): seq<StandardEvent> {
    When(d.id != "", ToolCallIdDelta(Slot(d), d.id))
  }

  /** Name and argument events carry the id the call has by then. */
  function NameEvents(d: ToolCallDelta, id: string): seq<StandardEvent> {
    When(NameIn(d) != "", ToolCallNameDelta(Slot(d), NameIn(d), id))
  }

  function ArgumentEvents(d: ToolCallDelta, id: string): seq<StandardEvent> {
    When(ArgumentsIn(d) != "", ToolCallArgsDelta(Slot(d), ArgumentsIn(d), id))
  }

  function DeltaEvents(calls: map<int, ToolCall>, d: ToolCallDelta): seq<StandardEvent> {
    var id := Updated(calls, d).id;
    StartEvents(calls, d) + IdEvents(d) + NameEvents(d, id) + ArgumentEvents(d, id)
  }

  /** The calls and the events after a list of deltas. */
  function TakeDeltas(calls: map<int, ToolCall>, ds: seq<ToolCallDelta>): (map<int, ToolCall>, seq<StandardEvent>) {
    if ds == [] then (calls, [])
    else
      var (before, events) := TakeDeltas(calls, ds[..|ds| - 1]);
      var d := ds[|ds| - 1];
      (before[Slot(d) := Updated(before, d)], events + DeltaEvents(before, d))
  }

  function UsageEvents(c: Chunk): seq<StandardEvent> {
    if c.usage.Some? then [UsageUpdate(c.usage.value)] else []
  }

  function ReasoningEvents(choice: Choice): seq<StandardEvent> {
    When(choice.reasoning != "", ReasoningDelta(choice.reasoning, 0))
  }

  function TextEvents(choice: Choice): seq<StandardEvent> {
    When(choice.content != "", TextDelta(choice.content, 0))
  }

  function Feed(s: Session, c: Chunk): (Session, seq<StandardEvent>) {
    var usage := if c.usage.Some? then c.usage else s.usage;
    match c.choice
    case None => (s.(usage := usage), UsageEvents(c))
    case Some(choice) =>
      var (calls, toolEvents) := TakeDeltas(s.toolCalls, choice.toolCalls);
      (s.(usage := usage,
          finishReason := OrElse(choice.finishReason, s.finishReason),
          reasoningBuffer := s.reasoningBuffer + choice.reasoning,
          textBuffer := s.textBuffer + choice.content,
          toolCalls := calls),
       UsageEvents(c) + ReasoningEvents(choice) + TextEvents(choice) + toolEvents)
  }

  // ---------- The end of a stream ----------

  function MapFinishReason(reason: string): string {
    if reason == "tool_calls" then "tool_use" else OrElse(reason, "end_turn")
  }

  function BufferBlocks(s: Session): seq<Block> {
    (if s.reasoningBuffer != "" then [ReasoningBlock(s.reasoningBuffer, None, false, None)] else [])
    + (if s.textBuffer != "" then [TextBlock(s.textBuffer)] else [])
  }

  function CallBlocks(loads: Loads, calls: map<int, ToolCall>, indices: seq<int>): seq<Block>
    requires forall k :: 0 <= k < |indices| ==> indices[k] in calls
  {
    if indices == [] then []
    else
      var i, call := indices[0], calls[indices[0]];
      [ToolBlock(loads, call.id, call.name, call.arguments, i)] + CallBlocks(loads, calls, indices[1..])
  }

  function CallEnds(loads: Loads, calls: map<int, ToolCall>, indices: seq<int>): (es: seq<StandardEvent>)
    requires forall k :: 0 <= k < |indices| ==> indices[k] in calls
    ensures forall k :: 0 <= k < |es| ==> es[k].ToolCallEnd?
  {
    if indices == [] then []
    else
      var i, call := indices[0], calls[indices[0]];
      [ToolEnd(loads, call.id, call.name, call.arguments, i)] + CallEnds(loads, calls, indices[1..])
  }

  function FinalEvents(loads: Loads, s: Session, stopReason: string, rawStopReason: string): seq<StandardEvent> {
    SortedIsSorted(s.toolCalls.Keys);
    var indices := Sorted(s.toolCalls.Keys);
    var content := BufferBlocks(s) + CallBlocks(loads, s.toolCalls, indices);
    CallEnds(loads, s.toolCalls, indices) + [TurnDone(TurnDoneOf(content, stopReason, rawStopReason, s.usage))]
  }

  function Finalize(loads: Loads, s: Session): seq<StandardEvent> {
    if s.turnDoneEmitted then []
    else FinalEvents(loads, s, MapFinishReason(s.finishReason), s.finishReason)
  }

  predicate HasPartialOutput(s: Session) {
    s.textBuffer != "" || s.reasoningBuffer != "" || s.toolCalls != map[]
  }

  function FinalizeOnError(loads: Loads, s: Session): seq<StandardEvent> {
    if s.turnDoneEmitted || !HasPartialOutput(s) then [] else FinalEvents(loads, s, "error", "error")
  }

  function FeedAll(cs: seq<Chunk>): (Session, seq<StandardEvent>) {
    if cs == [] then (NEW_SESSION, [])
    else
      var (before, events) := FeedAll(cs[..|cs| - 1]);
      var (after, more) := Feed(before, cs[|cs| - 1]);
      (after, events + more)
  }

  // ---------- The channels of a stream ----------

  function TextOf(cs: seq<Chunk>): string {
    if cs == [] then ""
    else TextOf(cs[..|cs| - 1]) + if cs[|cs| - 1].choice.Some? then cs[|cs| - 1].choice.value.content else ""
  }

  function ReasoningOf(cs: seq<Chunk>): string {
    if cs == [] then ""
    else ReasoningOf(cs[..|cs| - 1]) + if cs[|cs| - 1].choice.Some? then cs[|cs| - 1].choice.value.reasoning else ""
  }

  /** The last finish reason given. */
  function FinishOf(cs: seq<Chunk>): string {
    if cs == [] then ""
    else OrElse(if cs[|cs| - 1].choice.Some? then cs[|cs| - 1].choice.value.finishReason else "", FinishOf(cs[..|cs| - 1]))
  }

  /** The last usage given. */
  function UsageOf(cs: seq<Chunk>): Option<Usage> {
    if cs == [] then None
    else if cs[|cs| - 1].usage.Some? then cs[|cs| - 1].usage
    else UsageOf(cs[..|cs| - 1])
  }

  /** All tool call deltas, chunk boundaries forgotten. */
  function DeltasOf(cs: seq<Chunk>): seq<ToolCallDelta> {
    if cs == [] then []
    else DeltasOf(cs[..|cs| - 1]) + if cs[|cs| - 1].choice.Some? then cs[|cs| - 1].choice.value.toolCalls else []
  }

  function SlotsOf(ds: seq<ToolCallDelta>): set<int> {
    if ds == [] then {} else SlotsOf(ds[..|ds| - 1]) + {Slot(ds[|ds| - 1])}
  }

  function ArgumentsOf(ds: seq<ToolCallDelta>, i: int): string {
    if ds == [] then ""
    else ArgumentsOf(ds[..|ds| - 1], i) + if Slot(ds[|ds| - 1]) == i then ArgumentsIn(ds[|ds| - 1]) else ""
  }

  function IdOf(ds: seq<ToolCallDelta>, i: int): string {
    if ds == [] then ""
    else OrElse(if Slot(ds[|ds| - 1]) == i then ds[|ds| - 1].id else "", IdOf(ds[..|ds| - 1], i))
  }

  function NameOf(ds: seq<ToolCallDelta>, i: int): string {
    if ds == [] then ""
    else OrElse(if Slot(ds[|ds| - 1]) == i then NameIn(ds[|ds| - 1]) else "", NameOf(ds[..|ds| - 1], i))
  }

  function CallsOf(ds: seq<ToolCallDelta>): map<int, ToolCall> {
    map i | i in SlotsOf(ds) :: ToolCall(IdOf(ds, i), NameOf(ds, i), ArgumentsOf(ds, i))
  }

  lemma {:induction false} UnseenSlotIsBlank(ds: seq<ToolCallDelta>, i: int)
    requires i !in SlotsOf(ds)
    ensures IdOf(ds, i) == "" && NameOf(ds, i) == "" && ArgumentsOf(ds, i) == ""
  {
    if ds != [] { UnseenSlotIsBlank(ds[..|ds| - 1], i); }
  }

  lemma ChannelsSnoc(ds: seq<ToolCallDelta>, d: ToolCallDelta, i: int)
    ensures SlotsOf(ds + [d]) == SlotsOf(ds) + {Slot(d)}
    ensures IdOf(ds + [d], i) == if Slot(d) == i then OrElse(d.id, IdOf(ds, i)) else IdOf(ds, i)
    ensures NameOf(ds + [d], i) == if Slot(d) == i then OrElse(NameIn(d), NameOf(ds, i)) else NameOf(ds, i)
    ensures ArgumentsOf(ds + [d], i) == if Slot(d) == i then ArgumentsOf(ds, i) + ArgumentsIn(d) else ArgumentsOf(ds, i)
  {
    FrontOfSnoc(ds, d);
    ConcatEmpty(ArgumentsOf(ds, i));
  }

  lemma CallsOfSnoc(ds: seq<ToolCallDelta>, d: ToolCallDelta)
    ensures CallsOf(ds + [d]) == CallsOf(ds)[Slot(d) := Updated(CallsOf(ds), d)]
  {
    ChannelsSnoc(ds, d, Slot(d));
    if Slot(d) !in SlotsOf(ds) { UnseenSlotIsBlank(ds, Slot(d)); }
    var after := CallsOf(ds)[Slot(d) := Updated(CallsOf(ds), d)];
    assert CallsOf(ds + [d]).Keys == after.Keys;
    forall i | i in after ensures CallsOf(ds + [d])[i] == after[i] {
      ChannelsSnoc(ds, d, i);
    }
  }

  lemma {:induction false} CallsAreGathered(before: seq<ToolCallDelta>, ds: seq<ToolCallDelta>)
    ensures TakeDeltas(CallsOf(before), ds).0 == CallsOf(before + ds)
  {
    if ds == [] {
      ConcatEmpty(before);
    } else {
      var front, d := ds[..|ds| - 1], ds[|ds| - 1];
      CallsAreGathered(before, front);
      CallsOfSnoc(before + front, d);
      SplitLast(ds);
      ConcatAssoc(before, front, [d]);
    }
  }

  /** The session a stream leaves, computed channel by channel. */
  function SessionOf(cs: seq<Chunk>): Session {
    Session(TextOf(cs), ReasoningOf(cs), CallsOf(DeltasOf(cs)), UsageOf(cs), FinishOf(cs), false)
  }

  lemma {:induction false} SessionIsItsChannels(cs: seq<Chunk>)
    ensures FeedAll(cs).0 == SessionOf(cs)
  {
    if cs == [] {
      assert CallsOf([]) == map[];
    } else {
      var front, c := cs[..|cs| - 1], cs[|cs| - 1];
      SessionIsItsChannels(front);
      if c.choice.Some? {
        CallsAreGathered(DeltasOf(front), c.choice.value.toolCalls);
      } else {
        ConcatEmpty(DeltasOf(front));
        ConcatEmpty(TextOf(front));
        ConcatEmpty(ReasoningOf(front));
      }
    }
  }

  /** Two streams that agree channel by channel: fragments, chunk borders and the order across indices are free. */
  ghost predicate SameChannels(cs: seq<Chunk>, ds: seq<Chunk>) {
    && TextOf(cs) == TextOf(ds)
    && ReasoningOf(cs) == ReasoningOf(ds)
    && FinishOf(cs) == FinishOf(ds)
    && UsageOf(cs) == UsageOf(ds)
    && SlotsOf(DeltasOf(cs)) == SlotsOf(DeltasOf(ds))
    && forall i :: i in SlotsOf(DeltasOf(cs)) ==>
         && IdOf(DeltasOf(cs), i) == IdOf(DeltasOf(ds), i)
         && NameOf(DeltasOf(cs), i) == NameOf(DeltasOf(ds), i)
         && ArgumentsOf(DeltasOf(cs), i) == ArgumentsOf(DeltasOf(ds), i)
  }

  /** Main result (confluence): such streams end in the same events, normally and after a failure. */
  lemma Confluence(loads: Loads, cs: seq<Chunk>, ds: seq<Chunk>)
    requires SameChannels(cs, ds)
    ensures Finalize(loads, FeedAll(cs).0) == Finalize(loads, FeedAll(ds).0)
    ensures FinalizeOnError(loads, FeedAll(cs).0) == FinalizeOnError(loads, FeedAll(ds).0)
  {
    SessionIsItsChannels(cs);
    SessionIsItsChannels(ds);
    assert CallsOf(DeltasOf(cs)) == CallsOf(DeltasOf(ds));
  }

  /** Deltas of different indices commute. */
  lemma SwappedDeltas(before: seq<ToolCallDelta>, a: ToolCallDelta, b: ToolCallDelta, i: int)
    requires Slot(a) != Slot(b)
    ensures SlotsOf(before + [a] + [b]) == SlotsOf(before + [b] + [a])
    ensures IdOf(before + [a] + [b], i) == IdOf(before + [b] + [a], i)
    ensures NameOf(before + [a] + [b], i) == NameOf(before + [b] + [a], i)
    ensures ArgumentsOf(before + [a] + [b], i) == ArgumentsOf(before + [b] + [a], i)
  {
    ChannelsSnoc(before, a, i);
    ChannelsSnoc(before, b, i);
    ChannelsSnoc(before + [a], b, i);
    ChannelsSnoc(before + [b], a, i);
  }

  // ---------- The emitted deltas ----------

  function EmittedText(es: seq<StandardEvent>): string {
    if es == [] then "" else EmittedText(es[..|es| - 1]) + if es[|es| - 1].TextDelta? then es[|es| - 1].text else ""
  }

  function EmittedReasoning(es: seq<StandardEvent>): string {
    if es == [] then "" else EmittedReasoning(es[..|es| - 1]) + if es[|es| - 1].ReasoningDelta? then es[|es| - 1].text else ""
  }

  function EmittedArguments(es: seq<StandardEvent>, i: int): string {
    if es == [] then ""
    else EmittedArguments(es[..|es| - 1], i)
         + if es[|es| - 1].ToolCallArgsDelta? && es[|es| - 1].index == i then es[|es| - 1].delta else ""
  }

  lemma EmittedSnoc(es: seq<StandardEvent>, e: StandardEvent, i: int)
    ensures EmittedText(es + [e]) == EmittedText(es) + if e.TextDelta? then e.text else ""
    ensures EmittedReasoning(es + [e]) == EmittedReasoning(es) + if e.ReasoningDelta? then e.text else ""
    ensures EmittedArguments(es + [e], i) ==
            EmittedArguments(es, i) + if e.ToolCallArgsDelta? && e.index == i then e.delta else ""
  {
    FrontOfSnoc(es, e);
  }

  /** The three channels of some events. */
  datatype Emitted = Emitted(text: string, reasoning: string, arguments: string)

  function EmittedBy(es: seq<StandardEvent>, i: int): Emitted {
    Emitted(EmittedText(es), EmittedReasoning(es), EmittedArguments(es, i))
  }

  function Join(a: Emitted, b: Emitted): Emitted {
    Emitted(a.text + b.text, a.reasoning + b.reasoning, a.arguments + b.arguments)
  }

  lemma JoinAssoc(a: Emitted, b: Emitted, c: Emitted)
    ensures Join(Join(a, b), c) == Join(a, Join(b, c))
  {
    ConcatAssoc(a.text, b.text, c.text);
    ConcatAssoc(a.reasoning, b.reasoning, c.reasoning);
    ConcatAssoc(a.arguments, b.arguments, c.arguments);
  }

  function EmittedByOne(e: StandardEvent, i: int): Emitted {
    Emitted(if e.TextDelta? then e.text else "",
            if e.ReasoningDelta? then e.text else "",
            if e.ToolCallArgsDelta? && e.index == i then e.delta else "")
  }

  lemma EmittedBySnoc(es: seq<StandardEvent>, e: StandardEvent, i: int)
    ensures EmittedBy(es + [e], i) == Join(EmittedBy(es, i), EmittedByOne(e, i))
  {
    EmittedSnoc(es, e, i);
  }

  lemma {:induction false} EmittedConcat(a: seq<StandardEvent>, b: seq<StandardEvent>, i: int)
    ensures EmittedBy(a + b, i) == Join(EmittedBy(a, i), EmittedBy(b, i))
  {
    if b == [] {
      ConcatEmpty(a);
      ConcatEmpty(EmittedText(a));
      ConcatEmpty(EmittedReasoning(a));
      ConcatEmpty(EmittedArguments(a, i));
    } else {
      var front, e := b[..|b| - 1], b[|b| - 1];
      EmittedConcat(a, front, i);
      SplitLast(b);
      ConcatAssoc(a, front, [e]);
      EmittedBySnoc(a + front, e, i);
      EmittedBySnoc(front, e, i);
      JoinAssoc(EmittedBy(a, i), EmittedBy(front, i), EmittedByOne(e, i));
    }
  }

  const BLANK := Emitted("", "", "")

  lemma WhenEmits(emit: bool, e: StandardEvent, i: int)
    ensures EmittedBy(When(emit, e), i) == if emit then EmittedByOne(e, i) else BLANK
  {
    if emit {
      assert [e] == [] + [e];
      EmittedBySnoc([], e, i);
    }
  }

  lemma EmittedByFour(a: seq<StandardEvent>, b: seq<StandardEvent>, c: seq<StandardEvent>, d: seq<StandardEvent>, i: int)
    ensures EmittedBy(a + b + c + d, i) ==
            Join(Join(Join(EmittedBy(a, i), EmittedBy(b, i)), EmittedBy(c, i)), EmittedBy(d, i))
  {
    EmittedConcat(a, b, i);
    EmittedConcat(a + b, c, i);
    EmittedConcat(a + b + c, d, i);
  }

  lemma PartsEmit(calls: map<int, ToolCall>, d: ToolCallDelta, id: string, i: int)
    ensures EmittedBy(StartEvents(calls, d), i) == BLANK
    ensures EmittedBy(IdEvents(d), i) == BLANK
    ensures EmittedBy(NameEvents(d, id), i) == BLANK
    ensures EmittedBy(ArgumentEvents(d, id), i) == Emitted("", "", if Slot(d) == i then ArgumentsIn(d) else "")
  {
    WhenEmits(Slot(d) !in calls, ToolCallStart(Slot(d), d.id, NameIn(d)), i);
    WhenEmits(d.id != "", ToolCallIdDelta(Slot(d), d.id), i);
    WhenEmits(NameIn(d) != "", ToolCallNameDelta(Slot(d), NameIn(d), id), i);
    WhenEmits(ArgumentsIn(d) != "", ToolCallArgsDelta(Slot(d), ArgumentsIn(d), id), i);
  }

  lemma DeltaEventsEmit(calls: map<int, ToolCall>, d: ToolCallDelta, i: int)
    ensures EmittedBy(DeltaEvents(calls, d), i) == Emitted("", "", if Slot(d) == i then ArgumentsIn(d) else "")
  {
    var id := Updated(calls, d).id;
    PartsEmit(calls, d, id, i);
    EmittedByFour(StartEvents(calls, d), IdEvents(d), NameEvents(d, id), ArgumentEvents(d, id), i);
    BlankJoins(EmittedBy(ArgumentEvents(d, id), i));
  }

  lemma BlankJoins(e: Emitted)
    ensures Join(BLANK, e) == e && Join(e, BLANK) == e
  {
  }

  lemma {:induction false} TakeDeltasEmit(calls: map<int, ToolCall>, ds: seq<ToolCallDelta>, i: int)
    ensures EmittedBy(TakeDeltas(calls, ds).1, i) == Emitted("", "", ArgumentsOf(ds, i))
  {
    if ds != [] {
      var front, d := ds[..|ds| - 1], ds[|ds| - 1];
      TakeDeltasEmit(calls, front, i);
      var (before, events) := TakeDeltas(calls, front);
      DeltaEventsEmit(before, d, i);
      EmittedConcat(events, DeltaEvents(before, d), i);
    }
  }

  lemma FeedEmits(s: Session, c: Chunk, i: int)
    ensures EmittedBy(Feed(s, c).1, i) ==
            match c.choice
            case None => Emitted("", "", "")
            case Some(choice) => Emitted(choice.content, choice.reasoning, ArgumentsOf(choice.toolCalls, i))
  {
    if c.usage.Some? { WhenEmits(true, UsageUpdate(c.usage.value), i); }
    assert EmittedBy(UsageEvents(c), i) == BLANK;
    if c.choice.Some? { ChoiceEmits(s, c, c.choice.value, i); }
  }

  lemma ChoiceEmits(s: Session, c: Chunk, choice: Choice, i: int)
    requires EmittedBy(UsageEvents(c), i) == BLANK
    ensures EmittedBy(UsageEvents(c) + ReasoningEvents(choice) + TextEvents(choice) + TakeDeltas(s.toolCalls, choice.toolCalls).1, i)
            == Emitted(choice.content, choice.reasoning, ArgumentsOf(choice.toolCalls, i))
  {
    BuffersEmit(choice, i);
    TakeDeltasEmit(s.toolCalls, choice.toolCalls, i);
    EmittedByFour(UsageEvents(c), ReasoningEvents(choice), TextEvents(choice), TakeDeltas(s.toolCalls, choice.toolCalls).1, i);
    JoinChannels(choice.content, choice.reasoning, ArgumentsOf(choice.toolCalls, i));
  }

  lemma BuffersEmit(choice: Choice, i: int)
    ensures EmittedBy(ReasoningEvents(choice), i) == Emitted("", choice.reasoning, "")
    ensures EmittedBy(TextEvents(choice), i) == Emitted(choice.content, "", "")
  {
    WhenEmits(choice.reasoning != "", ReasoningDelta(choice.reasoning, 0), i);
    WhenEmits(choice.content != "", TextDelta(choice.content, 0), i);
  }

  lemma JoinChannels(text: string, reasoning: string, arguments: string)
    ensures Join(Join(Join(BLANK, Emitted("", reasoning, "")), Emitted(text, "", "")), Emitted("", "", arguments))
            == Emitted(text, reasoning, arguments)
  {
  }

  lemma {:induction false} ArgumentsConcat(a: seq<ToolCallDelta>, b: seq<ToolCallDelta>, i: int)
    ensures ArgumentsOf(a + b, i) == ArgumentsOf(a, i) + ArgumentsOf(b, i)
  {
    if b == [] {
      ConcatEmpty(a);
      ConcatEmpty(ArgumentsOf(a, i));
    } else {
      var front, d := b[..|b| - 1], b[|b| - 1];
      ArgumentsConcat(a, front, i);
      SplitLast(b);
      ConcatAssoc(a, front, [d]);
      ChannelsSnoc(a + front, d, i);
      ChannelsSnoc(front, d, i);
      ConcatAssoc(ArgumentsOf(a, i), ArgumentsOf(front, i), ArgumentsIn(d));
    }
  }

  /** The deltas emitted while the stream runs concatenate to the buffers its final blocks are made of. */
  lemma {:induction false} EmittedDeltasRebuildTheChannels(cs: seq<Chunk>, i: int)
    ensures EmittedBy(FeedAll(cs).1, i) == Emitted(TextOf(cs), ReasoningOf(cs), ArgumentsOf(DeltasOf(cs), i))
  {
    if cs != [] {
      var front, c := cs[..|cs| - 1], cs[|cs| - 1];
      EmittedDeltasRebuildTheChannels(front, i);
      var (before, events) := FeedAll(front);
      FeedEmits(before, c, i);
      EmittedConcat(events, Feed(before, c).1, i);
      ArgumentsConcat(DeltasOf(front), if c.choice.Some? then c.choice.value.toolCalls else [], i);
    }
  }

  // ---------- Streams cut short ----------

  lemma {:induction false} ArgumentsGrow(cs: seq<Chunk>, n: nat, i: int)
    requires n <= |cs|
    ensures TextOf(cs[..n]) <= TextOf(cs)
    ensures ReasoningOf(cs[..n]) <= ReasoningOf(cs)
    ensures ArgumentsOf(DeltasOf(cs[..n]), i) <= ArgumentsOf(DeltasOf(cs), i)
    ensures SlotsOf(DeltasOf(cs[..n])) <= SlotsOf(DeltasOf(cs))
  {
    if n == |cs| {
      assert cs[..n] == cs;
    } else {
      var front, c := cs[..|cs| - 1], cs[|cs| - 1];
      ArgumentsGrow(front, n, i);
      assert front[..n] == cs[..n];
      ArgumentsConcat(DeltasOf(front), if c.choice.Some? then c.choice.value.toolCalls else [], i);
      SlotsConcat(DeltasOf(front), if c.choice.Some? then c.choice.value.toolCalls else []);
    }
  }

  lemma {:induction false} SlotsConcat(a: seq<ToolCallDelta>, b: seq<ToolCallDelta>)
    ensures SlotsOf(a + b) == SlotsOf(a) + SlotsOf(b)
  {
    if b == [] {
      ConcatEmpty(a);
    } else {
      var front, d := b[..|b| - 1], b[|b| - 1];
      SlotsConcat(a, front);
      SplitLast(b);
      ConcatAssoc(a, front, [d]);
      FrontOfSnoc(a + front, d);
    }
  }

  /** What a stream cut after n chunks holds is, channel by channel, a prefix of what the whole stream gives. */
  lemma CutStreamsGivePrefixes(cs: seq<Chunk>, n: nat, i: int)
    requires n <= |cs|
    ensures var cut, whole := FeedAll(cs[..n]).0, FeedAll(cs).0;
            && cut.textBuffer <= whole.textBuffer
            && cut.reasoningBuffer <= whole.reasoningBuffer
            && (i in cut.toolCalls ==> i in whole.toolCalls && cut.toolCalls[i].arguments <= whole.toolCalls[i].arguments)
  {
    SessionIsItsChannels(cs[..n]);
    SessionIsItsChannels(cs);
    ArgumentsGrow(cs, n, i);
  }
}
