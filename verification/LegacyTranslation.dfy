/**
 The shim that turns the standard events of one OpenAI-compatible chunk back into the legacy payloads,
 joining a tool name with the arguments that follow it.
 */
module LegacyTranslation {
  import opened Options
  import opened SeqFacts
  import opened StandardEvents
  import opened OpenAIParser

  datatype Legacy =
    | LegacyText(text: string)
    | LegacyReasoning(text: string)
    | LegacyTool(toolUseId: string, index: int, nameDelta: Option<string>, argumentsDelta: Option<string>)

  function Flush(pending: Option<Legacy>): seq<Legacy> {
    if pending.Some? then [pending.value] else []
  }

  /** A pending payload with the arguments that follow joined in. */
  function Joined(pending: Legacy, e: StandardEvent): Legacy
    requires pending.LegacyTool? && e.ToolCallArgsDelta?
  {
    LegacyTool(OrElse(e.callId, pending.toolUseId), pending.index, pending.nameDelta, Some(e.delta))
  }

  type Pending = p: Option<Legacy> | p.Some? ==> p.value.LegacyTool? witness None

  predicate Meets(pending: Pending, e: StandardEvent) {
    pending.Some? && e.ToolCallArgsDelta? && pending.value.index == e.index
  }

  /** What one event adds to the output, given the pending payload. */
  function Added(pending: Pending, e: StandardEvent): seq<Legacy> {
    match e
    case TextDelta(text, _) => Flush(pending) + [LegacyText(text)]
    case ReasoningDelta(text, _) => Flush(pending) + [LegacyReasoning(text)]
    case ToolCallNameDelta(_, _, _) => Flush(pending)
    case ToolCallArgsDelta(index, delta, callId) =>
      if Meets(pending, e) then [Joined(pending.value, e)]
      else Flush(pending) + [LegacyTool(callId, index, None, Some(delta))]
    case _ => []
  }

  predicate Visible(e: StandardEvent) {
    e.TextDelta? || e.ReasoningDelta? || e.ToolCallNameDelta? || e.ToolCallArgsDelta?
  }

  function PendingAfterOne(pending: Pending, e: StandardEvent): Pending {
    match e
    case ToolCallNameDelta(index, name, callId) => Some(LegacyTool(callId, index, Some(name), None))
    case _ => if Visible(e) then None else pending
  }

  function Output(pending: Pending, es: seq<StandardEvent>): seq<Legacy>
    decreases es
  {
    if es == [] then Flush(pending)
    else Added(pending, es[0]) + Output(PendingAfterOne(pending, es[0]), es[1..])
  }

  function Translated(es: seq<StandardEvent>): seq<Legacy> {
    Output(None, es)
  }

  method StandardEventsToLegacyDeltas(events: seq<StandardEvent>) returns (legacy: seq<Legacy>)
    ensures legacy == Translated(events)
  {
    legacy := [];
    var pendingTool: Pending := None;
    for i := 0 to |events|
      invariant legacy + Output(pendingTool, events[i..]) == Translated(events)
    {
      var event := events[i];
      ghost var next := PendingAfterOne(pendingTool, event);
      ConcatAssoc(legacy, Added(pendingTool, event), Output(next, events[i + 1..]));
      assert events[i..][1..] == events[i + 1..];
      match event
      case TextDelta(text, _) =>
        legacy := legacy + (Flush(pendingTool) + [LegacyText(text)]);
        pendingTool := None;
      case ReasoningDelta(text, _) =>
        legacy := legacy + (Flush(pendingTool) + [LegacyReasoning(text)]);
        pendingTool := None;
      case ToolCallNameDelta(index, name, callId) =>
        legacy := legacy + Flush(pendingTool);
        pendingTool := Some(LegacyTool(callId, index, Some(name), None));
      case ToolCallArgsDelta(index, delta, callId) =>
        if pendingTool.Some? && pendingTool.value.index == index {
          var joined := pendingTool.value;
          if callId != "" {
            joined := joined.(toolUseId := callId);
          }
          legacy := legacy + [joined.(argumentsDelta := Some(delta))];
        } else {
          legacy := legacy + (Flush(pendingTool) + [LegacyTool(callId, index, None, Some(delta))]);
        }
        pendingTool := None;
      case _ =>
        ConcatEmpty(legacy);
    }
    legacy := legacy + Flush(pendingTool);
  }

  // ---------- Translating in two parts ----------

  function PendingAfter(pending: Pending, es: seq<StandardEvent>): Pending
    decreases es
  {
    if es == [] then pending else PendingAfter(PendingAfterOne(pending, es[0]), es[1..])
  }

  /** The output without the final flush. */
  function Emitted(pending: Pending, es: seq<StandardEvent>): seq<Legacy>
    decreases es
  {
    if es == [] then [] else Added(pending, es[0]) + Emitted(PendingAfterOne(pending, es[0]), es[1..])
  }

  lemma {:induction false} OutputInTwo(pending: Pending, a: seq<StandardEvent>, b: seq<StandardEvent>)
    ensures Output(pending, a + b) == Emitted(pending, a) + Output(PendingAfter(pending, a), b)
    decreases a
  {
    if a == [] {
      ConcatEmpty(b);
      ConcatEmpty(Output(pending, b));
    } else {
      var next := PendingAfterOne(pending, a[0]);
      OutputInTwo(next, a[1..], b);
      assert (a + b)[1..] == a[1..] + b && (a + b)[0] == a[0];
      ConcatAssoc(Added(pending, a[0]), Emitted(next, a[1..]), Output(PendingAfter(next, a[1..]), b));
    }
  }

  lemma {:induction false} PendingInTwo(pending: Pending, a: seq<StandardEvent>, b: seq<StandardEvent>)
    ensures PendingAfter(pending, a + b) == PendingAfter(PendingAfter(pending, a), b)
    decreases a
  {
    if a == [] {
      ConcatEmpty(b);
    } else {
      PendingInTwo(PendingAfterOne(pending, a[0]), a[1..], b);
      assert (a + b)[1..] == a[1..] + b && (a + b)[0] == a[0];
    }
  }

  /** `es` starts, after events without legacy payload, with arguments for the pending index. */
  predicate MeetsFirst(pending: Pending, es: seq<StandardEvent>) {
    es != [] && if Visible(es[0]) then Meets(pending, es[0]) else MeetsFirst(pending, es[1..])
  }

  /** The pending payload goes out before `es` unless `es` joins it; joining saves one payload. */
  lemma {:induction false} PendingGoesFirst(pending: Pending, es: seq<StandardEvent>)
    ensures !MeetsFirst(pending, es) ==> Output(pending, es) == Flush(pending) + Translated(es)
    ensures MeetsFirst(pending, es) ==> |Output(pending, es)| + 1 == |Flush(pending) + Translated(es)|
  {
    if es == [] {
      ConcatEmpty(Flush(pending));
    } else if !Visible(es[0]) {
      PendingGoesFirst(pending, es[1..]);
      ConcatEmpty(Output(pending, es[1..]));
      ConcatEmpty(Translated(es[1..]));
    } else if !Meets(pending, es[0]) {
      ConcatEmpty(Added(None, es[0]));
      ConcatAssoc(Flush(pending), Added(None, es[0]), Output(PendingAfterOne(None, es[0]), es[1..]));
      AddedAfterFlush(pending, es[0]);
    }
  }

  lemma AddedAfterFlush(pending: Pending, e: StandardEvent)
    requires Visible(e) && !Meets(pending, e)
    ensures Added(pending, e) == Flush(pending) + Added(None, e)
  {
  }

  /** Main result: the translator splits at a point exactly unless a pending name meets arguments of its index there. */
  lemma TranslationSplitsIff(a: seq<StandardEvent>, b: seq<StandardEvent>)
    ensures Translated(a + b) == Translated(a) + Translated(b) <==> !MeetsFirst(PendingAfter(None, a), b)
    ensures |Translated(a + b)| == |Translated(a)| + |Translated(b)| - if MeetsFirst(PendingAfter(None, a), b) then 1 else 0
  {
    var pending := PendingAfter(None, a);
    OutputInTwo(None, a, b);
    OutputInTwo(None, a, []);
    ConcatEmpty(a);
    PendingGoesFirst(pending, b);
    ConcatAssoc(Emitted(None, a), Flush(pending), Translated(b));
  }

  /** One input: a name and arguments of one index give one payload together and two apart. */
  lemma NameAndArgumentsJoin(index: int, name: string, args: string, id: string)
    ensures var a, b := [ToolCallNameDelta(index, name, id)], [ToolCallArgsDelta(index, args, id)];
            |Translated(a + b)| == 1 && |Translated(a)| == 1 && |Translated(b)| == 1
  {
    var a, b := [ToolCallNameDelta(index, name, id)], [ToolCallArgsDelta(index, args, id)];
    assert a[1..] == [] && b[1..] == [];
    assert PendingAfter(None, a) == Some(LegacyTool(id, index, Some(name), None));
    assert Translated(a) == Added(None, a[0]) + Output(PendingAfterOne(None, a[0]), []);
    assert Translated(b) == Added(None, b[0]) + Output(PendingAfterOne(None, b[0]), []);
    TranslationSplitsIff(a, b);
  }

  // ---------- One payload per tool call delta ----------

  predicate Bearing(d: ToolCallDelta) {
    NameIn(d) != "" || ArgumentsIn(d) != ""
  }

  function Text(s: string): Option<string> {
    if s != "" then Some(s) else None
  }

  /** The combined payload of a delta for a call with the given id. */
  function Payload(d: ToolCallDelta, id: string): seq<Legacy> {
    if Bearing(d) then [LegacyTool(id, Slot(d), Text(NameIn(d)), Text(ArgumentsIn(d)))] else []
  }

  function Payloads(calls: map<int, ToolCall>, ds: seq<ToolCallDelta>): seq<Legacy> {
    if ds == [] then []
    else
      var before := TakeDeltas(calls, ds[..|ds| - 1]).0;
      var d := ds[|ds| - 1];
      Payloads(calls, ds[..|ds| - 1]) + Payload(d, Updated(before, d).id)
  }

  /** The index of the last delta that bears anything, when that is a name alone. */
  function LoneName(ds: seq<ToolCallDelta>): Option<int> {
    if ds == [] then None
    else
      var d := ds[|ds| - 1];
      if !Bearing(d) then LoneName(ds[..|ds| - 1])
      else if ArgumentsIn(d) == "" then Some(Slot(d)) else None
  }

  /** How often a lone name is followed by lone arguments of its index. */
  function Meetings(ds: seq<ToolCallDelta>): nat {
    if ds == [] then 0
    else
      var front, d := ds[..|ds| - 1], ds[|ds| - 1];
      Meetings(front) + if LoneName(front) == Some(Slot(d)) && NameIn(d) == "" && ArgumentsIn(d) != "" then 1 else 0
  }

  lemma DeltaTranslates(calls: map<int, ToolCall>, d: ToolCallDelta)
    ensures Translated(DeltaEvents(calls, d)) == Payload(d, Updated(calls, d).id)
  {
    var id := Updated(calls, d).id;
    var head := StartEvents(calls, d) + IdEvents(d);
    InvisibleHead(head, None);
    OutputInTwo(None, head, NameEvents(d, id) + ArgumentEvents(d, id));
    assert DeltaEvents(calls, d) == head + (NameEvents(d, id) + ArgumentEvents(d, id));
    BearingTranslates(d, id);
  }

  lemma {:induction false} InvisibleHead(es: seq<StandardEvent>, pending: Pending)
    requires forall k :: 0 <= k < |es| ==> !Visible(es[k])
    ensures Emitted(pending, es) == [] && PendingAfter(pending, es) == pending
  {
    if es != [] { InvisibleHead(es[1..], pending); }
  }

  lemma BearingTranslates(d: ToolCallDelta, id: string)
    ensures Translated(NameEvents(d, id) + ArgumentEvents(d, id)) == Payload(d, id)
    ensures Bearing(d) ==> PendingAfter(None, NameEvents(d, id) + ArgumentEvents(d, id)) ==
                           if ArgumentsIn(d) == "" then Some(LegacyTool(id, Slot(d), Some(NameIn(d)), None)) else None
  {
    var name, arguments := ToolCallNameDelta(Slot(d), NameIn(d), id), ToolCallArgsDelta(Slot(d), ArgumentsIn(d), id);
    var es := NameEvents(d, id) + ArgumentEvents(d, id);
    if NameIn(d) != "" && ArgumentsIn(d) != "" {
      assert es == [name, arguments] && es[1..] == [arguments];
      OneEvent(Some(LegacyTool(id, Slot(d), Some(NameIn(d)), None)), arguments);
    } else if NameIn(d) != "" {
      assert es == [name];
      OneEvent(None, name);
    } else if ArgumentsIn(d) != "" {
      assert es == [arguments];
      OneEvent(None, arguments);
    }
  }

  lemma OneEvent(pending: Pending, e: StandardEvent)
    ensures Output(pending, [e]) == Added(pending, e) + Flush(PendingAfterOne(pending, e))
    ensures PendingAfter(pending, [e]) == PendingAfterOne(pending, e)
  {
    assert [e][1..] == [];
  }

  /** The events of a delta, seen from a pending payload. */
  lemma DeltaMeetsIff(pending: Pending, calls: map<int, ToolCall>, d: ToolCallDelta)
    ensures MeetsFirst(pending, DeltaEvents(calls, d)) <==>
            pending.Some? && pending.value.index == Slot(d) && NameIn(d) == "" && ArgumentsIn(d) != ""
  {
    var id := Updated(calls, d).id;
    var head, tail := StartEvents(calls, d) + IdEvents(d), NameEvents(d, id) + ArgumentEvents(d, id);
    assert DeltaEvents(calls, d) == head + tail;
    MeetsAfterHead(pending, head, tail);
    if NameIn(d) == "" && ArgumentsIn(d) != "" {
      assert tail == [ToolCallArgsDelta(Slot(d), ArgumentsIn(d), id)];
    }
  }

  lemma {:induction false} MeetsAfterHead(pending: Pending, head: seq<StandardEvent>, tail: seq<StandardEvent>)
    requires forall k :: 0 <= k < |head| ==> !Visible(head[k])
    ensures MeetsFirst(pending, head + tail) == MeetsFirst(pending, tail)
  {
    if head == [] {
      ConcatEmpty(tail);
    } else {
      assert (head + tail)[1..] == head[1..] + tail && (head + tail)[0] == head[0];
      MeetsAfterHead(pending, head[1..], tail);
    }
  }

  lemma {:induction false} VisibleForgetsPending(p: Pending, q: Pending, es: seq<StandardEvent>)
    requires exists k :: 0 <= k < |es| && Visible(es[k])
    ensures PendingAfter(p, es) == PendingAfter(q, es)
    decreases es
  {
    if !Visible(es[0]) {
      var k :| 0 <= k < |es| && Visible(es[k]);
      assert es[1..][k - 1] == es[k];
      VisibleForgetsPending(p, q, es[1..]);
    }
  }

  lemma PendingAfterDelta(pending: Pending, calls: map<int, ToolCall>, d: ToolCallDelta)
    ensures PendingAfter(pending, DeltaEvents(calls, d)) ==
            if !Bearing(d) then pending
            else if ArgumentsIn(d) == "" then Some(LegacyTool(Updated(calls, d).id, Slot(d), Some(NameIn(d)), None))
            else None
  {
    var id := Updated(calls, d).id;
    var head, tail := StartEvents(calls, d) + IdEvents(d), NameEvents(d, id) + ArgumentEvents(d, id);
    assert DeltaEvents(calls, d) == head + tail;
    InvisibleHead(head, pending);
    PendingInTwo(pending, head, tail);
    BearingTranslates(d, id);
    if Bearing(d) {
      assert Visible(tail[0]);
      VisibleForgetsPending(pending, None, tail);
    }
  }

  lemma {:induction false} PendingIsLoneName(calls: map<int, ToolCall>, ds: seq<ToolCallDelta>)
    ensures var pending := PendingAfter(None, TakeDeltas(calls, ds).1);
            && (pending.Some? <==> LoneName(ds).Some?)
            && (pending.Some? ==> pending.value.index == LoneName(ds).value)
  {
    if ds != [] {
      var (before, events) := TakeDeltas(calls, ds[..|ds| - 1]);
      PendingIsLoneName(calls, ds[..|ds| - 1]);
      PendingInTwo(None, events, DeltaEvents(before, ds[|ds| - 1]));
      PendingAfterDelta(PendingAfter(None, events), before, ds[|ds| - 1]);
    }
  }

  lemma {:induction false} MeetingsSavePayloads(calls: map<int, ToolCall>, ds: seq<ToolCallDelta>)
    ensures |Translated(TakeDeltas(calls, ds).1)| + Meetings(ds) == |Payloads(calls, ds)|
    ensures Meetings(ds) == 0 ==> Translated(TakeDeltas(calls, ds).1) == Payloads(calls, ds)
  {
    if ds != [] {
      var front, d := ds[..|ds| - 1], ds[|ds| - 1];
      var (before, events) := TakeDeltas(calls, front);
      MeetingsSavePayloads(calls, front);
      PendingIsLoneName(calls, front);
      DeltaMeetsIff(PendingAfter(None, events), before, d);
      TranslationSplitsIff(events, DeltaEvents(before, d));
      DeltaTranslates(before, d);
    }
  }

  /** The shim gives one payload per bearing delta exactly when no lone name meets lone arguments of its index. */
  lemma OnePayloadPerDeltaIff(calls: map<int, ToolCall>, ds: seq<ToolCallDelta>)
    ensures Translated(TakeDeltas(calls, ds).1) == Payloads(calls, ds) <==> Meetings(ds) == 0
  {
    MeetingsSavePayloads(calls, ds);
  }

  // ---------- Chunks whose deltas have different indices ----------

  ghost predicate DistinctSlots(ds: seq<ToolCallDelta>) {
    forall j, k :: 0 <= j < k < |ds| ==> Slot(ds[j]) != Slot(ds[k])
  }

  /** The payload of each delta against the calls known before the chunk. */
  function DirectPayloads(calls: map<int, ToolCall>, ds: seq<ToolCallDelta>): seq<Legacy> {
    if ds == [] then []
    else DirectPayloads(calls, ds[..|ds| - 1]) + Payload(ds[|ds| - 1], Updated(calls, ds[|ds| - 1]).id)
  }

  lemma {:induction false} UntouchedSlot(calls: map<int, ToolCall>, ds: seq<ToolCallDelta>, i: int)
    requires forall k :: 0 <= k < |ds| ==> Slot(ds[k]) != i
    ensures var after := TakeDeltas(calls, ds).0;
            (i in after <==> i in calls) && (i in calls ==> after[i] == calls[i])
    ensures LoneName(ds) != Some(i)
  {
    if ds != [] { UntouchedSlot(calls, ds[..|ds| - 1], i); }
  }

  lemma {:induction false} DistinctSlotsNeverMeet(calls: map<int, ToolCall>, ds: seq<ToolCallDelta>)
    requires DistinctSlots(ds)
    ensures Meetings(ds) == 0 && Payloads(calls, ds) == DirectPayloads(calls, ds)
  {
    if ds != [] {
      DistinctSlotsNeverMeet(calls, ds[..|ds| - 1]);
      UntouchedSlot(calls, ds[..|ds| - 1], Slot(ds[|ds| - 1]));
    }
  }

  function DirectBuffers(choice: Choice): seq<Legacy> {
    (if choice.reasoning != "" then [LegacyReasoning(choice.reasoning)] else [])
    + (if choice.content != "" then [LegacyText(choice.content)] else [])
  }

  lemma BuffersTranslate(c: Chunk, choice: Choice)
    ensures var es := UsageEvents(c) + ReasoningEvents(choice) + TextEvents(choice);
            Translated(es) == DirectBuffers(choice) && PendingAfter(None, es) == None
  {
    var usage, reasoning, text := UsageEvents(c), ReasoningEvents(choice), TextEvents(choice);
    InvisibleHead(usage, None);
    OutputInTwo(None, usage, reasoning + text);
    PendingInTwo(None, usage, reasoning + text);
    ConcatAssoc(usage, reasoning, text);
    var r, t := ReasoningDelta(choice.reasoning, 0), TextDelta(choice.content, 0);
    OneEvent(None, r);
    OneEvent(None, t);
    if choice.reasoning != "" && choice.content != "" {
      assert reasoning + text == [r, t] && [r, t][1..] == [t];
    } else {
      assert reasoning + text == if choice.reasoning != "" then [r] else if choice.content != "" then [t] else [];
    }
  }

  /** Main result: on a chunk with distinct tool indices the shim gives the legacy payloads, read off the chunk directly. */
  lemma ChunkTranslatesDirectly(s: Session, c: Chunk)
    requires c.choice.Some? && DistinctSlots(c.choice.value.toolCalls)
    ensures Translated(Feed(s, c).1) ==
            DirectBuffers(c.choice.value) + DirectPayloads(s.toolCalls, c.choice.value.toolCalls)
  {
    var choice := c.choice.value;
    var head := UsageEvents(c) + ReasoningEvents(choice) + TextEvents(choice);
    var tools := TakeDeltas(s.toolCalls, choice.toolCalls).1;
    BuffersTranslate(c, choice);
    NothingMeetsNone(tools);
    TranslationSplitsIff(head, tools);
    DistinctSlotsNeverMeet(s.toolCalls, choice.toolCalls);
    OnePayloadPerDeltaIff(s.toolCalls, choice.toolCalls);
  }

  lemma {:induction false} NothingMeetsNone(es: seq<StandardEvent>)
    ensures !MeetsFirst(None, es)
  {
    if es != [] { NothingMeetsNone(es[1..]); }
  }
}
