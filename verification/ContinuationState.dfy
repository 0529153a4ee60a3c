/**
 The state one run hands to the next: messages and turn offset, as JSON and back. The text is written
 with sorted keys, so what comes back is the same up to the order of keys in tool inputs.
 */
module ContinuationState {
  import opened Options
  import opened JsonSchema
  import opened StandardEvents
  import opened ToolGuards
  import opened Transcript
  import opened KeyOrder
  import opened JsonText

  datatype State = State(messages: seq<Message>, turnOffset: int)

  // ---------- To JSON ----------

  function OptionalText(s: Option<string>): Json {
    if s.Some? then Str(s.value) else Null
  }

  const TEXT_FIELDS := ["text", "type"]
  const REASONING_FIELDS := ["text", "type", "signature", "redacted", "data"]
  const TOOL_USE_FIELDS := ["id", "name", "input", "type"]
  const INVALID_FIELDS := ["id", "name", "raw_args", "index", "type"]
  const RESULT_FIELDS := ["type", "tool_use_id", "content"]
  const CALL_FIELDS := ["tool_use_id", "tool_name", "input", "status"]
  const ANSWER_FIELDS := ["tool_use_id", "ok", "content", "error"]
  const MESSAGE_FIELDS := ["message_id", "role", "content", "turn_id", "tool_calls", "tool_results"]
  const STATE_FIELDS := ["messages", "turn_offset"]

  function BlockJson(b: ContentBlock): Json {
    match b
    case ToolResultDict(id, content) => Record(RESULT_FIELDS, [Str("tool_result"), Str(id), Str(content)])
    case Standard(TextBlock(text)) => Record(TEXT_FIELDS, [Str(text), Str("text")])
    case Standard(ReasoningBlock(text, signature, redacted, data)) =>
      Record(REASONING_FIELDS, [Str(text), Str("reasoning"), OptionalText(signature), Bool(redacted), OptionalText(data)])
    case Standard(ToolUseBlock(id, name, input)) =>
      Record(TOOL_USE_FIELDS, [Str(id), Str(name), input, Str("tool_use")])
    case Standard(InvalidToolCall(id, name, rawArgs, index)) =>
      Record(INVALID_FIELDS, [Str(id), Str(name), Str(rawArgs), Int(index), Str("invalid_tool_call")])
  }

  function CallJson(c: Call): Json {
    Record(CALL_FIELDS, [Str(c.toolUseId), Str(c.toolName), c.input, Str("complete")])
  }

  /** JSON text and the dicts kept as they are, as parameters; `text` is None where writing raises, as on too deep a tree. */
  datatype Codec = Codec(
    text: Json -> Option<string>,
    loads: Loads,
    render: Render,
    errorJson: Option<ErrorType> -> Json,
    readError: Json -> Option<ErrorType>)

  function AnswerValues(codec: Codec, a: Answer): (values: seq<Json>)
    ensures |values| == |ANSWER_FIELDS|
  {
    [Str(a.toolUseId), Bool(a.ok), Str(a.content), codec.errorJson(a.error)]
  }

  function AnswerJson(codec: Codec, a: Answer): Json {
    Record(ANSWER_FIELDS, AnswerValues(codec, a))
  }

  function RoleName(r: Role): string {
    match r
    case User => "user"
    case Assistant => "assistant"
    case System => "system"
    case Tool => "tool"
  }

  function ContentJson(c: Content): Json {
    match c
    case Plain(text) => Str(text)
    case Blocks(blocks) => Arr(seq(|blocks|, k requires 0 <= k < |blocks| => BlockJson(blocks[k])))
  }

  function CallsJson(m: Message): seq<Json> {
    seq(|m.toolCalls|, k requires 0 <= k < |m.toolCalls| => CallJson(m.toolCalls[k]))
  }

  function AnswersJson(codec: Codec, m: Message): seq<Json> {
    seq(|m.toolResults|, k requires 0 <= k < |m.toolResults| => AnswerJson(codec, m.toolResults[k]))
  }

  function MessageValues(codec: Codec, m: Message): (values: seq<Json>)
    ensures |values| == |MESSAGE_FIELDS|
  {
    [Str(m.messageId), Str(RoleName(m.role)), ContentJson(m.content), Str(m.turnId), Arr(CallsJson(m)), Arr(AnswersJson(codec, m))]
  }

  function MessageJson(codec: Codec, m: Message): Json {
    Record(MESSAGE_FIELDS, MessageValues(codec, m))
  }

  function MessagesJson(codec: Codec, ms: seq<Message>): seq<Json> {
    seq(|ms|, k requires 0 <= k < |ms| => MessageJson(codec, ms[k]))
  }

  function StateJson(codec: Codec, s: State): Json {
    Record(STATE_FIELDS, [Arr(MessagesJson(codec, s.messages)), Int(s.turnOffset)])
  }

  /** `ContinuationState.to_json`; None where it raises. */
  function ToText(codec: Codec, s: State): Option<string> {
    codec.text(SortKeys(StateJson(codec, s)))
  }

  // ---------- From JSON; None where reading raises ----------

  function ReadAll<T>(read: Json -> Option<T>, items: seq<Json>): Option<seq<T>> {
    if items == [] then Some([])
    else if read(items[0]).None? || ReadAll(read, items[1..]).None? then None
    else Some([read(items[0]).value] + ReadAll(read, items[1..]).value)
  }

  function TextOf(j: Json): string {
    if j.Str? then j.s else ""
  }

  function OptionalTextOf(j: Json): Option<string> {
    if j.Str? then Some(j.s) else None
  }

  /** A content dict, which the program keeps unread, as the block it stands for. */
  function ReadBlock(j: Json): Option<ContentBlock> {
    var tag := TextOf(Get(j, "type"));
    if tag == "text" then Some(Standard(TextBlock(TextOf(Get(j, "text")))))
    else if tag == "reasoning" then
      Some(Standard(ReasoningBlock(TextOf(Get(j, "text")), OptionalTextOf(Get(j, "signature")), Get(j, "redacted") == Bool(true),
                                   OptionalTextOf(Get(j, "data")))))
    else if tag == "tool_use" then
      Some(Standard(ToolUseBlock(TextOf(Get(j, "id")), TextOf(Get(j, "name")), Get(j, "input"))))
    else if tag == "invalid_tool_call" then
      Some(Standard(InvalidToolCall(TextOf(Get(j, "id")), TextOf(Get(j, "name")), TextOf(Get(j, "raw_args")),
                                    if Get(j, "index").Int? then Get(j, "index").n else 0)))
    else if tag == "tool_result" then Some(ToolResultDict(TextOf(Get(j, "tool_use_id")), TextOf(Get(j, "content"))))
    else None
  }

  function ReadContent(j: Json): Option<Content> {
    if j.Str? then Some(Plain(j.s))
    else if j.Arr? then
      var blocks := ReadAll(ReadBlock, j.items);
      if blocks.Some? then Some(Blocks(blocks.value)) else None
    else None
  }

  function ReadRole(name: string): Option<Role> {
    if name == "user" then Some(User)
    else if name == "assistant" then Some(Assistant)
    else if name == "system" then Some(System)
    else if name == "tool" then Some(Tool)
    else None
  }

  function ReadCall(codec: Codec, j: Json): Option<Call> {
    var input := if Truthy(Get(j, "input")) then Get(j, "input") else Obj([]);
    if HasKey(j, "tool_use_id") && HasKey(j, "tool_name") && HasKey(j, "status") && input.Obj?
       && KeyText(codec.render, Get(j, "status")) in {"partial", "complete", "invalid"}
    then Some(Call(KeyText(codec.render, Get(j, "tool_use_id")), KeyText(codec.render, Get(j, "tool_name")), input))
    else None
  }

  function AnswerOf(codec: Codec, id: Json, ok: Json, content: Json, error: Json): Answer {
    Answer(KeyText(codec.render, id), Truthy(ok), if Truthy(content) then KeyText(codec.render, content) else "", codec.readError(error))
  }

  function ReadAnswer(codec: Codec, j: Json): Option<Answer> {
    if HasKey(j, "tool_use_id") && HasKey(j, "ok")
    then Some(AnswerOf(codec, Get(j, "tool_use_id"), Get(j, "ok"), Get(j, "content"), Get(j, "error")))
    else None
  }

  function CallReader(codec: Codec): Json -> Option<Call> {
    c => ReadCall(codec, c)
  }

  function AnswerReader(codec: Codec): Json -> Option<Answer> {
    a => ReadAnswer(codec, a)
  }

  /** The elements of a list entry that may be missing or empty. */
  function ItemsOf(j: Json, key: string): Option<seq<Json>> {
    if HasKey(j, key) then Elements(Get(j, key)) else Some([])
  }

  function Elements(j: Json): Option<seq<Json>> {
    if j.Arr? then Some(j.items) else if j in {Obj([]), Str("")} then Some([]) else None
  }

  function MessageOf(
    codec: Codec, id: Json, role: Json, content: Json, turnId: Json, calls: Option<seq<Json>>, results: Option<seq<Json>>)
    : Option<Message>
  {
    if ReadRole(TextOf(role)).None? || ReadContent(content).None? || calls.None? || results.None? then None
    else
      var read, answers := ReadAll(CallReader(codec), calls.value), ReadAll(AnswerReader(codec), results.value);
      if read.None? || answers.None? then None
      else Some(Message(KeyText(codec.render, id), ReadRole(TextOf(role)).value, ReadContent(content).value,
                        KeyText(codec.render, turnId), read.value, answers.value))
  }

  function ReadMessage(codec: Codec, j: Json): Option<Message> {
    if HasKey(j, "message_id") && HasKey(j, "turn_id")
    then MessageOf(codec, Get(j, "message_id"), Get(j, "role"), Get(j, "content"), Get(j, "turn_id"),
                   ItemsOf(j, "tool_calls"), ItemsOf(j, "tool_results"))
    else None
  }

  function MessageReader(codec: Codec): Json -> Option<Message> {
    m => ReadMessage(codec, m)
  }

  /** `int(offset or 0)`; of texts and fractions no state is made that this model follows. */
  function ReadOffset(j: Json): Option<int> {
    if !Truthy(j) then Some(0)
    else if j.Int? then Some(j.n)
    else if j.Bool? then Some(1)
    else None
  }

  function StateOf(codec: Codec, messages: Option<seq<Json>>, offset: Json): Option<State> {
    if messages.None? || ReadAll(MessageReader(codec), messages.value).None? || ReadOffset(offset).None? then None
    else Some(State(ReadAll(MessageReader(codec), messages.value).value, ReadOffset(offset).value))
  }

  function FromJson(codec: Codec, j: Json): Option<State> {
    if j.Obj? then StateOf(codec, ItemsOf(j, "messages"), Get(j, "turn_offset")) else None
  }

  /** `ContinuationState.from_json`: no text at all is the empty state. */
  function FromText(codec: Codec, raw: Option<string>): Option<State> {
    if raw.None? || raw.value == "" then Some(State([], 0))
    else if codec.loads(raw.value).None? then None
    else FromJson(codec, codec.loads(raw.value).value)
  }

  // ---------- What comes back ----------

  function SortedBlock(b: ContentBlock): ContentBlock {
    match b
    case Standard(ToolUseBlock(id, name, input)) => Standard(ToolUseBlock(id, name, SortKeys(input)))
    case _ => b
  }

  function SortedContent(c: Content): Content {
    match c
    case Plain(_) => c
    case Blocks(blocks) => Blocks(seq(|blocks|, k requires 0 <= k < |blocks| => SortedBlock(blocks[k])))
  }

  function SortedCall(c: Call): Call {
    c.(input := SortKeys(c.input))
  }

  /** The message with the keys of its tool inputs sorted. */
  function SortedMessage(m: Message): Message {
    m.(content := SortedContent(m.content),
       toolCalls := seq(|m.toolCalls|, k requires 0 <= k < |m.toolCalls| => SortedCall(m.toolCalls[k])))
  }

  function SortedMessages(ms: seq<Message>): seq<Message> {
    seq(|ms|, k requires 0 <= k < |ms| => SortedMessage(ms[k]))
  }

  predicate DictInput(j: Json) {
    j.Obj? && IsDict(j)
  }

  predicate TypedBlock(b: Block) {
    b.ToolUseBlock? ==> DictInput(b.input)
  }

  predicate TypedContentBlock(b: ContentBlock) {
    b.Standard? ==> TypedBlock(b.block)
  }

  predicate TypedBlocks(c: Content) {
    c.Blocks? ==> forall k :: 0 <= k < |c.blocks| ==> TypedContentBlock(c.blocks[k])
  }

  predicate TypedCalls(calls: seq<Call>) {
    forall k :: 0 <= k < |calls| ==> DictInput(calls[k].input)
  }

  /** Tool inputs are dicts, as the program's types say. */
  predicate TypedMessage(m: Message) {
    TypedBlocks(m.content) && TypedCalls(m.toolCalls)
  }

  ghost predicate Typed(ms: seq<Message>) {
    forall k :: 0 <= k < |ms| ==> TypedMessage(ms[k])
  }

  /** What is written of a tree of dicts, if it can be written, is read back as that tree. */
  predicate TextComesBack(codec: Codec, j: Json) {
    IsDict(j) && codec.text(j).Some? ==> codec.text(j).value != "" && codec.loads(codec.text(j).value) == Some(j)
  }

  predicate ErrorComesBack(codec: Codec, e: Option<ErrorType>) {
    IsDict(codec.errorJson(e)) && codec.readError(SortKeys(codec.errorJson(e))) == e
  }

  /** JSON text reads back as the tree it was written from, and error dicts as the errors they stand for. */
  ghost predicate Faithful(codec: Codec) {
    (forall j: Json :: TextComesBack(codec, j)) && forall e: Option<ErrorType> :: ErrorComesBack(codec, e)
  }

  lemma {:induction false} ReadsAll<T>(read: Json -> Option<T>, items: seq<Json>, ts: seq<T>)
    requires |items| == |ts| && forall k :: 0 <= k < |items| ==> read(items[k]) == Some(ts[k])
    ensures ReadAll(read, items) == Some(ts)
  {
    if items != [] {
      forall k | 0 <= k < |items[1..]| ensures read(items[1..][k]) == Some(ts[1..][k]) {
        assert items[1..][k] == items[k + 1];
      }
      ReadsAll(read, items[1..], ts[1..]);
      assert [ts[0]] + ts[1..] == ts;
    }
  }

  lemma BlockNamesDiffer()
    ensures DistinctNames(TEXT_FIELDS) && DistinctNames(REASONING_FIELDS) && DistinctNames(TOOL_USE_FIELDS)
    ensures DistinctNames(INVALID_FIELDS) && DistinctNames(RESULT_FIELDS)
  {
  }

  lemma MessageNamesDiffer()
    ensures DistinctNames(CALL_FIELDS) && DistinctNames(ANSWER_FIELDS) && DistinctNames(MESSAGE_FIELDS) && DistinctNames(STATE_FIELDS)
  {
  }

  // ---------- The round trip ----------

  lemma TextBlockBack(text: string)
    ensures ReadBlock(SortKeys(BlockJson(Standard(TextBlock(text))))) == Some(Standard(TextBlock(text)))
  {
    var values := [Str(text), Str("text")];
    BlockNamesDiffer();
    GetSortedRecord(TEXT_FIELDS, values, 0);
    GetSortedRecord(TEXT_FIELDS, values, 1);
  }

  lemma ReasoningBlockBack(text: string, signature: Option<string>, redacted: bool, data: Option<string>)
    ensures var b := Standard(ReasoningBlock(text, signature, redacted, data));
            ReadBlock(SortKeys(BlockJson(b))) == Some(b)
  {
    var values := [Str(text), Str("reasoning"), OptionalText(signature), Bool(redacted), OptionalText(data)];
    BlockNamesDiffer();
    GetSortedRecord(REASONING_FIELDS, values, 0);
    GetSortedRecord(REASONING_FIELDS, values, 1);
    GetSortedRecord(REASONING_FIELDS, values, 2);
    GetSortedRecord(REASONING_FIELDS, values, 3);
    GetSortedRecord(REASONING_FIELDS, values, 4);
  }

  lemma ToolUseBlockBack(id: string, name: string, input: Json)
    ensures ReadBlock(SortKeys(BlockJson(Standard(ToolUseBlock(id, name, input)))))
            == Some(Standard(ToolUseBlock(id, name, SortKeys(input))))
  {
    var values := [Str(id), Str(name), input, Str("tool_use")];
    BlockNamesDiffer();
    GetSortedRecord(TOOL_USE_FIELDS, values, 0);
    GetSortedRecord(TOOL_USE_FIELDS, values, 1);
    GetSortedRecord(TOOL_USE_FIELDS, values, 2);
    GetSortedRecord(TOOL_USE_FIELDS, values, 3);
  }

  lemma InvalidBlockBack(id: string, name: string, rawArgs: string, index: int)
    ensures var b := Standard(InvalidToolCall(id, name, rawArgs, index));
            ReadBlock(SortKeys(BlockJson(b))) == Some(b)
  {
    var values := [Str(id), Str(name), Str(rawArgs), Int(index), Str("invalid_tool_call")];
    BlockNamesDiffer();
    GetSortedRecord(INVALID_FIELDS, values, 0);
    GetSortedRecord(INVALID_FIELDS, values, 1);
    GetSortedRecord(INVALID_FIELDS, values, 2);
    GetSortedRecord(INVALID_FIELDS, values, 3);
    GetSortedRecord(INVALID_FIELDS, values, 4);
  }

  lemma ResultDictBack(id: string, content: string)
    ensures ReadBlock(SortKeys(BlockJson(ToolResultDict(id, content)))) == Some(ToolResultDict(id, content))
  {
    var values := [Str("tool_result"), Str(id), Str(content)];
    BlockNamesDiffer();
    GetSortedRecord(RESULT_FIELDS, values, 0);
    GetSortedRecord(RESULT_FIELDS, values, 1);
    GetSortedRecord(RESULT_FIELDS, values, 2);
  }

  lemma BlockBack(b: ContentBlock)
    ensures ReadBlock(SortKeys(BlockJson(b))) == Some(SortedBlock(b))
  {
    match b
    case ToolResultDict(id, content) => ResultDictBack(id, content);
    case Standard(TextBlock(text)) => TextBlockBack(text);
    case Standard(ReasoningBlock(text, signature, redacted, data)) => ReasoningBlockBack(text, signature, redacted, data);
    case Standard(ToolUseBlock(id, name, input)) => ToolUseBlockBack(id, name, input);
    case Standard(InvalidToolCall(id, name, rawArgs, index)) => InvalidBlockBack(id, name, rawArgs, index);
  }

  lemma ContentBack(c: Content)
    ensures ReadContent(SortKeys(ContentJson(c))) == Some(SortedContent(c))
  {
    if c.Blocks? {
      var items := SortKeys(ContentJson(c)).items;
      forall k | 0 <= k < |items| ensures ReadBlock(items[k]) == Some(SortedContent(c).blocks[k]) {
        BlockBack(c.blocks[k]);
      }
      ReadsAll(ReadBlock, items, SortedContent(c).blocks);
    }
  }

  lemma CallBack(codec: Codec, c: Call)
    requires c.input.Obj?
    ensures ReadCall(codec, SortKeys(CallJson(c))) == Some(SortedCall(c))
  {
    var values := [Str(c.toolUseId), Str(c.toolName), c.input, Str("complete")];
    MessageNamesDiffer();
    GetSortedRecord(CALL_FIELDS, values, 0);
    GetSortedRecord(CALL_FIELDS, values, 1);
    GetSortedRecord(CALL_FIELDS, values, 2);
    GetSortedRecord(CALL_FIELDS, values, 3);
  }

  lemma AnswerFieldsBack(codec: Codec, a: Answer)
    ensures var j := SortKeys(AnswerJson(codec, a));
            && HasKey(j, "tool_use_id") && HasKey(j, "ok")
            && Get(j, "tool_use_id") == Str(a.toolUseId) && Get(j, "ok") == Bool(a.ok)
            && Get(j, "content") == Str(a.content) && Get(j, "error") == SortKeys(codec.errorJson(a.error))
  {
    MessageNamesDiffer();
    GetSortedRecord(ANSWER_FIELDS, AnswerValues(codec, a), 0);
    GetSortedRecord(ANSWER_FIELDS, AnswerValues(codec, a), 1);
    GetSortedRecord(ANSWER_FIELDS, AnswerValues(codec, a), 2);
    GetSortedRecord(ANSWER_FIELDS, AnswerValues(codec, a), 3);
  }

  lemma AnswerBack(codec: Codec, a: Answer)
    requires ErrorComesBack(codec, a.error)
    ensures ReadAnswer(codec, SortKeys(AnswerJson(codec, a))) == Some(a)
  {
    AnswerFieldsBack(codec, a);
    assert AnswerOf(codec, Str(a.toolUseId), Bool(a.ok), Str(a.content), SortKeys(codec.errorJson(a.error))) == a;
  }

  lemma RoleBack(r: Role)
    ensures ReadRole(RoleName(r)) == Some(r)
  {
  }

  lemma CallsBack(codec: Codec, m: Message, items: seq<Json>)
    requires TypedCalls(m.toolCalls) && |items| == |m.toolCalls|
    requires forall k :: 0 <= k < |items| ==> items[k] == SortKeys(CallJson(m.toolCalls[k]))
    ensures ReadAll(CallReader(codec), items) == Some(SortedMessage(m).toolCalls)
  {
    forall k | 0 <= k < |items| ensures CallReader(codec)(items[k]) == Some(SortedMessage(m).toolCalls[k]) {
      CallBack(codec, m.toolCalls[k]);
    }
    ReadsAll(CallReader(codec), items, SortedMessage(m).toolCalls);
  }

  lemma AnswersBack(codec: Codec, m: Message, items: seq<Json>)
    requires Faithful(codec) && |items| == |m.toolResults|
    requires forall k :: 0 <= k < |items| ==> items[k] == SortKeys(AnswerJson(codec, m.toolResults[k]))
    ensures ReadAll(AnswerReader(codec), items) == Some(m.toolResults)
  {
    forall k | 0 <= k < |items| ensures AnswerReader(codec)(items[k]) == Some(m.toolResults[k]) {
      assert ErrorComesBack(codec, m.toolResults[k].error);
      AnswerBack(codec, m.toolResults[k]);
    }
    ReadsAll(AnswerReader(codec), items, m.toolResults);
  }

  lemma MessageFieldBack(codec: Codec, m: Message, i: nat)
    requires i < |MESSAGE_FIELDS|
    ensures HasKey(SortKeys(MessageJson(codec, m)), MESSAGE_FIELDS[i])
    ensures Get(SortKeys(MessageJson(codec, m)), MESSAGE_FIELDS[i]) == SortKeys(MessageValues(codec, m)[i])
  {
    MessageNamesDiffer();
    GetSortedRecord(MESSAGE_FIELDS, MessageValues(codec, m), i);
  }

  lemma MessagePartsBack(codec: Codec, m: Message, calls: seq<Json>, results: seq<Json>)
    requires Faithful(codec) && TypedMessage(m)
    requires SortKeys(Arr(CallsJson(m))) == Arr(calls) && SortKeys(Arr(AnswersJson(codec, m))) == Arr(results)
    ensures MessageOf(codec, Str(m.messageId), Str(RoleName(m.role)), SortKeys(ContentJson(m.content)), Str(m.turnId),
                      Some(calls), Some(results))
            == Some(SortedMessage(m))
  {
    RoleBack(m.role);
    ContentBack(m.content);
    CallsBack(codec, m, calls);
    AnswersBack(codec, m, results);
  }

  lemma ListsBack(codec: Codec, m: Message, j: Json, calls: seq<Json>, results: seq<Json>)
    requires j == SortKeys(MessageJson(codec, m))
    requires SortKeys(Arr(CallsJson(m))) == Arr(calls) && SortKeys(Arr(AnswersJson(codec, m))) == Arr(results)
    ensures ItemsOf(j, "tool_calls") == Some(calls) && ItemsOf(j, "tool_results") == Some(results)
  {
    MessageFieldBack(codec, m, 4);
    MessageFieldBack(codec, m, 5);
  }

  lemma TextsBack(codec: Codec, m: Message, j: Json)
    requires j == SortKeys(MessageJson(codec, m))
    ensures HasKey(j, "message_id") && HasKey(j, "turn_id")
    ensures Get(j, "message_id") == Str(m.messageId) && Get(j, "role") == Str(RoleName(m.role))
    ensures Get(j, "content") == SortKeys(ContentJson(m.content)) && Get(j, "turn_id") == Str(m.turnId)
  {
    MessageFieldBack(codec, m, 0);
    MessageFieldBack(codec, m, 1);
    MessageFieldBack(codec, m, 2);
    MessageFieldBack(codec, m, 3);
  }

  lemma ReadMessageIs(
    codec: Codec, j: Json, id: Json, role: Json, content: Json, turnId: Json, calls: Option<seq<Json>>, results: Option<seq<Json>>)
    requires HasKey(j, "message_id") && HasKey(j, "turn_id")
    requires Get(j, "message_id") == id && Get(j, "role") == role && Get(j, "content") == content && Get(j, "turn_id") == turnId
    requires ItemsOf(j, "tool_calls") == calls && ItemsOf(j, "tool_results") == results
    ensures ReadMessage(codec, j) == MessageOf(codec, id, role, content, turnId, calls, results)
  {
  }

  lemma MessageBack(codec: Codec, m: Message)
    requires Faithful(codec) && TypedMessage(m)
    ensures ReadMessage(codec, SortKeys(MessageJson(codec, m))) == Some(SortedMessage(m))
  {
    var j := SortKeys(MessageJson(codec, m));
    var calls, results := SortKeys(Arr(CallsJson(m))).items, SortKeys(Arr(AnswersJson(codec, m))).items;
    TextsBack(codec, m, j);
    ListsBack(codec, m, j, calls, results);
    MessagePartsBack(codec, m, calls, results);
    ReadMessageIs(codec, j, Str(m.messageId), Str(RoleName(m.role)), SortKeys(ContentJson(m.content)), Str(m.turnId),
                  Some(calls), Some(results));
  }

  lemma MessagesBack(codec: Codec, ms: seq<Message>, items: seq<Json>)
    requires Faithful(codec) && Typed(ms) && SortKeys(Arr(MessagesJson(codec, ms))) == Arr(items)
    ensures ReadAll(MessageReader(codec), items) == Some(SortedMessages(ms))
  {
    forall k | 0 <= k < |items| ensures MessageReader(codec)(items[k]) == Some(SortedMessages(ms)[k]) {
      MessageBack(codec, ms[k]);
    }
    ReadsAll(MessageReader(codec), items, SortedMessages(ms));
  }

  lemma StateFieldsBack(codec: Codec, s: State, j: Json, items: seq<Json>)
    requires j == SortKeys(StateJson(codec, s)) && SortKeys(Arr(MessagesJson(codec, s.messages))) == Arr(items)
    ensures j.Obj? && ItemsOf(j, "messages") == Some(items) && Get(j, "turn_offset") == Int(s.turnOffset)
  {
    var values := [Arr(MessagesJson(codec, s.messages)), Int(s.turnOffset)];
    MessageNamesDiffer();
    GetSortedRecord(STATE_FIELDS, values, 0);
    GetSortedRecord(STATE_FIELDS, values, 1);
  }

  lemma FromJsonIs(codec: Codec, j: Json, items: seq<Json>, n: int, ms: seq<Message>)
    requires j.Obj? && ItemsOf(j, "messages") == Some(items) && Get(j, "turn_offset") == Int(n)
    requires ReadAll(MessageReader(codec), items) == Some(ms)
    ensures FromJson(codec, j) == Some(State(ms, n))
  {
  }

  lemma StateBack(codec: Codec, s: State)
    requires Faithful(codec) && Typed(s.messages)
    ensures FromJson(codec, SortKeys(StateJson(codec, s))) == Some(State(SortedMessages(s.messages), s.turnOffset))
  {
    var items := SortKeys(Arr(MessagesJson(codec, s.messages))).items;
    StateFieldsBack(codec, s, SortKeys(StateJson(codec, s)), items);
    MessagesBack(codec, s.messages, items);
    FromJsonIs(codec, SortKeys(StateJson(codec, s)), items, s.turnOffset, SortedMessages(s.messages));
  }

  // ---------- What is written is a tree of dicts ----------

  lemma BlockIsDict(b: ContentBlock)
    requires TypedContentBlock(b)
    ensures IsDict(BlockJson(b))
  {
    BlockNamesDiffer();
    match b
    case ToolResultDict(id, content) => RecordIsDict(RESULT_FIELDS, [Str("tool_result"), Str(id), Str(content)]);
    case Standard(TextBlock(text)) => RecordIsDict(TEXT_FIELDS, [Str(text), Str("text")]);
    case Standard(ReasoningBlock(text, signature, redacted, data)) =>
      RecordIsDict(REASONING_FIELDS, [Str(text), Str("reasoning"), OptionalText(signature), Bool(redacted), OptionalText(data)]);
    case Standard(ToolUseBlock(id, name, input)) =>
      RecordIsDict(TOOL_USE_FIELDS, [Str(id), Str(name), input, Str("tool_use")]);
    case Standard(InvalidToolCall(id, name, rawArgs, index)) =>
      RecordIsDict(INVALID_FIELDS, [Str(id), Str(name), Str(rawArgs), Int(index), Str("invalid_tool_call")]);
  }

  lemma ContentIsDict(c: Content)
    requires TypedBlocks(c)
    ensures IsDict(ContentJson(c))
  {
    if c.Blocks? {
      forall k | 0 <= k < |c.blocks| ensures IsDict(BlockJson(c.blocks[k])) { BlockIsDict(c.blocks[k]); }
    }
  }

  lemma CallIsDict(c: Call)
    requires DictInput(c.input)
    ensures IsDict(CallJson(c))
  {
    MessageNamesDiffer();
    RecordIsDict(CALL_FIELDS, [Str(c.toolUseId), Str(c.toolName), c.input, Str("complete")]);
  }

  lemma AnswerIsDict(codec: Codec, a: Answer)
    requires ErrorComesBack(codec, a.error)
    ensures IsDict(AnswerJson(codec, a))
  {
    MessageNamesDiffer();
    RecordIsDict(ANSWER_FIELDS, AnswerValues(codec, a));
  }

  lemma MessageIsDict(codec: Codec, m: Message)
    requires Faithful(codec) && TypedMessage(m)
    ensures IsDict(MessageJson(codec, m))
  {
    ContentIsDict(m.content);
    forall k | 0 <= k < |m.toolCalls| ensures IsDict(CallsJson(m)[k]) { CallIsDict(m.toolCalls[k]); }
    forall k | 0 <= k < |m.toolResults| ensures IsDict(AnswersJson(codec, m)[k]) {
      assert ErrorComesBack(codec, m.toolResults[k].error);
      AnswerIsDict(codec, m.toolResults[k]);
    }
    MessageNamesDiffer();
    RecordIsDict(MESSAGE_FIELDS, MessageValues(codec, m));
  }

  lemma StateIsDict(codec: Codec, s: State)
    requires Faithful(codec) && Typed(s.messages)
    ensures IsDict(StateJson(codec, s))
  {
    forall k | 0 <= k < |s.messages| ensures IsDict(MessagesJson(codec, s.messages)[k]) { MessageIsDict(codec, s.messages[k]); }
    MessageNamesDiffer();
    RecordIsDict(STATE_FIELDS, [Arr(MessagesJson(codec, s.messages)), Int(s.turnOffset)]);
  }

  /** Main result: what is read back, if it could be written, is the state that was written, with the keys of tool inputs sorted. */
  lemma RoundTrip(codec: Codec, s: State)
    requires Faithful(codec) && Typed(s.messages)
    ensures ToText(codec, s).Some? ==>
              FromText(codec, ToText(codec, s)) == Some(State(SortedMessages(s.messages), s.turnOffset))
  {
    StateIsDict(codec, s);
    SortedIsDict(StateJson(codec, s));
    assert TextComesBack(codec, SortKeys(StateJson(codec, s)));
    StateBack(codec, s);
  }

  lemma SortedInputStays(j: Json)
    requires DictInput(j)
    ensures DictInput(SortKeys(j))
  {
    SortedIsDict(j);
  }

  lemma SortedBlocksStayTyped(c: Content)
    requires TypedBlocks(c)
    ensures TypedBlocks(SortedContent(c))
  {
    if c.Blocks? {
      forall k | 0 <= k < |c.blocks| ensures TypedContentBlock(SortedContent(c).blocks[k]) {
        assert TypedContentBlock(c.blocks[k]);
        if c.blocks[k].Standard? && c.blocks[k].block.ToolUseBlock? { SortedInputStays(c.blocks[k].block.input); }
      }
    }
  }

  lemma SortedMessageIsTyped(m: Message)
    requires TypedMessage(m)
    ensures TypedMessage(SortedMessage(m))
  {
    SortedBlocksStayTyped(m.content);
    forall k | 0 <= k < |m.toolCalls| ensures DictInput(SortedMessage(m).toolCalls[k].input) {
      SortedInputStays(m.toolCalls[k].input);
    }
  }

  /** Handing a state on a second time changes nothing more. */
  lemma SortedMessageStays(m: Message)
    ensures SortedMessage(SortedMessage(m)) == SortedMessage(m)
  {
    var once := SortedMessage(m);
    if m.content.Blocks? {
      forall k | 0 <= k < |once.content.blocks| ensures SortedBlock(once.content.blocks[k]) == once.content.blocks[k] {
        if m.content.blocks[k].Standard? && m.content.blocks[k].block.ToolUseBlock? {
          SortedTwice(m.content.blocks[k].block.input);
        }
      }
    }
    forall k | 0 <= k < |once.toolCalls| ensures SortedCall(once.toolCalls[k]) == once.toolCalls[k] {
      SortedTwice(m.toolCalls[k].input);
    }
  }

  lemma SortedMessagesStay(ms: seq<Message>)
    ensures SortedMessages(SortedMessages(ms)) == SortedMessages(ms)
    ensures Typed(ms) ==> Typed(SortedMessages(ms))
  {
    forall k | 0 <= k < |ms| ensures SortedMessage(SortedMessages(ms)[k]) == SortedMessages(ms)[k] {
      SortedMessageStays(ms[k]);
    }
    if Typed(ms) {
      forall k | 0 <= k < |ms| ensures TypedMessage(SortedMessages(ms)[k]) { SortedMessageIsTyped(ms[k]); }
    }
  }

  // ---------- The text of a second hand-over ----------

  lemma BlockSortsAlike(b: ContentBlock)
    ensures SortAlike(BlockJson(SortedBlock(b)), BlockJson(b))
  {
    if b.Standard? && b.block.ToolUseBlock? {
      var u := b.block;
      SortedTwice(u.input);
      RecordsSortAlike(TOOL_USE_FIELDS, [Str(u.id), Str(u.name), SortKeys(u.input), Str("tool_use")],
                       [Str(u.id), Str(u.name), u.input, Str("tool_use")]);
    }
  }

  lemma ContentSortsAlike(c: Content)
    ensures SortAlike(ContentJson(SortedContent(c)), ContentJson(c))
  {
    if c.Blocks? {
      var items, items' := ContentJson(SortedContent(c)).items, ContentJson(c).items;
      forall k | 0 <= k < |items| ensures SortAlike(items[k], items'[k]) { BlockSortsAlike(c.blocks[k]); }
      ListsSortAlike(items, items');
    }
  }

  lemma CallSortsAlike(c: Call)
    ensures SortAlike(CallJson(SortedCall(c)), CallJson(c))
  {
    SortedTwice(c.input);
    RecordsSortAlike(CALL_FIELDS, [Str(c.toolUseId), Str(c.toolName), SortKeys(c.input), Str("complete")],
                     [Str(c.toolUseId), Str(c.toolName), c.input, Str("complete")]);
  }

  lemma CallsSortAlike(m: Message)
    ensures SortAlike(Arr(CallsJson(SortedMessage(m))), Arr(CallsJson(m)))
  {
    forall k | 0 <= k < |m.toolCalls| ensures SortAlike(CallsJson(SortedMessage(m))[k], CallsJson(m)[k]) {
      CallSortsAlike(m.toolCalls[k]);
    }
    ListsSortAlike(CallsJson(SortedMessage(m)), CallsJson(m));
  }

  lemma MessageSortsAlike(codec: Codec, m: Message)
    ensures SortAlike(MessageJson(codec, SortedMessage(m)), MessageJson(codec, m))
  {
    ContentSortsAlike(m.content);
    CallsSortAlike(m);
    RecordsSortAlike(MESSAGE_FIELDS, MessageValues(codec, SortedMessage(m)), MessageValues(codec, m));
  }

  /** A state and what comes back of it are written as the same text, whatever the codec. */
  lemma SameTextAgain(codec: Codec, s: State)
    ensures ToText(codec, State(SortedMessages(s.messages), s.turnOffset)) == ToText(codec, s)
  {
    var items, items' := MessagesJson(codec, SortedMessages(s.messages)), MessagesJson(codec, s.messages);
    forall k | 0 <= k < |s.messages| ensures SortAlike(items[k], items'[k]) { MessageSortsAlike(codec, s.messages[k]); }
    ListsSortAlike(items, items');
    RecordsSortAlike(STATE_FIELDS, [Arr(items), Int(s.turnOffset)], [Arr(items'), Int(s.turnOffset)]);
  }

  /** Main result: handing over what was handed over writes the same text and gives the same state. */
  lemma SecondHandOverIsExact(codec: Codec, s: State)
    requires Faithful(codec) && Typed(s.messages) && ToText(codec, s).Some?
    ensures var once := FromText(codec, ToText(codec, s));
            once.Some? && ToText(codec, once.value) == ToText(codec, s) && FromText(codec, ToText(codec, once.value)) == once
  {
    RoundTrip(codec, s);
    SameTextAgain(codec, s);
  }

  // ---------- The assumptions can be met ----------

  function NumberedError(e: Option<ErrorType>): Json {
    match e
    case None => Null
    case Some(OtherError(name)) => Str(name)
    case Some(CancelledError) => Int(0)
    case Some(SkippedAfterPause) => Int(1)
    case Some(RepeatedToolCall) => Int(2)
    case Some(MaxToolCalls) => Int(3)
    case Some(ToolNotDeclared) => Int(4)
    case Some(ToolBlocked) => Int(5)
    case Some(ToolNotAllowed) => Int(6)
    case Some(ConfirmationRequired) => Int(7)
    case Some(ToolInputInvalid) => Int(8)
    case Some(ExecutorMissing) => Int(9)
  }

  function ErrorNumbered(j: Json): Option<ErrorType> {
    match j
    case Str(name) => Some(OtherError(name))
    case Int(n) =>
      if n == 0 then Some(CancelledError) else if n == 1 then Some(SkippedAfterPause)
      else if n == 2 then Some(RepeatedToolCall) else if n == 3 then Some(MaxToolCalls)
      else if n == 4 then Some(ToolNotDeclared) else if n == 5 then Some(ToolBlocked)
      else if n == 6 then Some(ToolNotAllowed) else if n == 7 then Some(ConfirmationRequired)
      else if n == 8 then Some(ToolInputInvalid) else Some(ExecutorMissing)
    case _ => None
  }

  /** A codec that writes every tree. */
  ghost function PlainCodec(render: Render): Codec {
    Codec((j: Json) => Some(Text(j)), (s: string) => Reading(s), render,
          (e: Option<ErrorType>) => NumberedError(e), (j: Json) => ErrorNumbered(j))
  }

  /** It is faithful, so what is assumed of codecs can be met without refusing to write anything. */
  lemma PlainCodecIsFaithful(render: Render)
    ensures Faithful(PlainCodec(render))
    ensures forall s: State :: ToText(PlainCodec(render), s).Some?
  {
    var codec := PlainCodec(render);
    forall j: Json ensures TextComesBack(codec, j) { ReadsBack(j); }
    forall e: Option<ErrorType> ensures ErrorComesBack(codec, e) {
      assert ErrorNumbered(NumberedError(e)) == e;
    }
  }
}
