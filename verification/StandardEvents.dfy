/** Transcript content blocks and the provider-neutral events the stream parsers emit. */
module StandardEvents {
  import opened Options
  import opened JsonSchema

  /** Absent ids and names are the empty string, as the parsers treat both alike. */
  datatype Block =
    | TextBlock(text: string)
    | ReasoningBlock(reasoning: string, signature: Option<string>, redacted: bool, data: Option<string>)
    | ToolUseBlock(id: string, name: string, input: Json)
    | InvalidToolCall(id: string, name: string, rawArgs: string, index: int)

  datatype Usage = Usage(
    inputTokens: int, outputTokens: int, totalTokens: int,
    cacheRead: int, cacheCreation: int, reasoningTokens: int)

  datatype TurnDoneData = TurnDoneData(
    stopReason: string,
    content: seq<Block>,
    textBlocks: seq<Block>,
    reasoningBlocks: seq<Block>,
    toolCalls: seq<Block>,
    invalidToolCalls: seq<Block>,
    usage: Option<Usage>,
    rawStopReason: string)

  datatype StandardEvent =
    | TextDelta(text: string, blockIndex: int)
    | ReasoningDelta(text: string, blockIndex: int)
    | ToolCallStart(index: int, callId: string, name: string)
    | ToolCallIdDelta(index: int, callId: string)
    | ToolCallNameDelta(index: int, nameDelta: string, callId: string)
    | ToolCallArgsDelta(index: int, delta: string, callId: string)
    | ToolCallEnd(callId: string, name: string, index: int, rawArgs: string, parsedInput: Option<Json>)
    | UsageUpdate(usage: Usage)
    | TurnDone(done: TurnDoneData)

  function Select(blocks: seq<Block>, keep: Block -> bool): seq<Block> {
    if blocks == [] then []
    else (if keep(blocks[0]) then [blocks[0]] else []) + Select(blocks[1..], keep)
  }

  /** The terminal event of a turn: the ordered content and its views by block type. */
  function TurnDoneOf(content: seq<Block>, stopReason: string, rawStopReason: string, usage: Option<Usage>): TurnDoneData {
    TurnDoneData(
      stopReason, content,
      Select(content, (b: Block) => b.TextBlock?),
      Select(content, (b: Block) => b.ReasoningBlock?),
      Select(content, (b: Block) => b.ToolUseBlock?),
      Select(content, (b: Block) => b.InvalidToolCall?),
      usage, rawStopReason)
  }

  /** `json.loads`, None where it raises. */
  type Loads = string -> Option<Json>

  /** Tool arguments must be a JSON object; no text at all stands for `{}`. */
  function ParseArguments(loads: Loads, rawArgs: string): Option<Json> {
    if rawArgs == "" then Some(Obj([]))
    else if loads(rawArgs).Some? && loads(rawArgs).value.Obj? then loads(rawArgs)
    else None
  }

  function ToolBlock(loads: Loads, id: string, name: string, rawArgs: string, index: int): Block {
    match ParseArguments(loads, rawArgs)
    case Some(input) => ToolUseBlock(id, name, input)
    case None => InvalidToolCall(id, name, rawArgs, index)
  }

  function ToolEnd(loads: Loads, id: string, name: string, rawArgs: string, index: int): StandardEvent {
    ToolCallEnd(id, name, index, rawArgs, ParseArguments(loads, rawArgs))
  }

  function DoneCount(events: seq<StandardEvent>): nat {
    if events == [] then 0
    else DoneCount(events[..|events| - 1]) + if events[|events| - 1].TurnDone? then 1 else 0
  }

  lemma {:induction false} DoneCountConcat(a: seq<StandardEvent>, b: seq<StandardEvent>)
    ensures DoneCount(a + b) == DoneCount(a) + DoneCount(b)
  {
    if b == [] {
      assert a + b == a;
    } else {
      DoneCountConcat(a, b[..|b| - 1]);
      assert (a + b)[..|a + b| - 1] == a + b[..|b| - 1];
    }
  }

  lemma {:induction false} NoDoneNoCount(events: seq<StandardEvent>)
    requires forall i :: 0 <= i < |events| ==> !events[i].TurnDone?
    ensures DoneCount(events) == 0
  {
    if events != [] { NoDoneNoCount(events[..|events| - 1]); }
  }
}
