/**
 The transcript: the messages a turn adds, the pairing of tool calls with their results, and the
 conversion to OpenAI messages.
 */
module Transcript {
  import opened Options
  import opened SeqFacts
  import opened JsonSchema
  import opened StandardEvents
  import opened ToolGuards

  datatype Role = User | Assistant | System | Tool

  /** A content dict: a standard block, or the `tool_result` dict of the adapters. */
  datatype ContentBlock = Standard(block: Block) | ToolResultDict(toolUseId: string, content: string)

  datatype Content = Plain(text: string) | Blocks(blocks: seq<ContentBlock>)

  datatype Call = Call(toolUseId: string, toolName: string, input: Json)

  datatype Answer = Answer(toolUseId: string, ok: bool, content: string, error: Option<ErrorType>)

  datatype Message = Message(
    messageId: string,
    role: Role,
    content: Content,
    turnId: string,
    toolCalls: seq<Call>,
    toolResults: seq<Answer>)

  // ---------- The messages of a turn ----------

  function ToolUses(content: seq<Block>): seq<Block> {
    Select(content, (b: Block) => b.ToolUseBlock?)
  }

  lemma {:induction false} ToolUsesAreToolUses(content: seq<Block>)
    ensures forall k :: 0 <= k < |ToolUses(content)| ==> ToolUses(content)[k].ToolUseBlock?
  {
    if content != [] {
      ToolUsesAreToolUses(content[1..]);
      assert ToolUses(content) == (if content[0].ToolUseBlock? then [content[0]] else []) + ToolUses(content[1..]);
    }
  }

  function IdOf(b: Block): string {
    if b.ToolUseBlock? then b.id else ""
  }

  predicate OtherResult(results: seq<ToolResult>, j: nat, k: nat)
    requires j < |results| && k < |results|
  {
    results[j].toolUseId != results[k].toolUseId
  }

  ghost predicate DistinctResults(results: seq<ToolResult>) {
    forall j: nat, k: nat :: j < k < |results| ==> OtherResult(results, j, k)
  }

  predicate HasResult(results: seq<ToolResult>, id: string) {
    exists k :: 0 <= k < |results| && results[k].toolUseId == id
  }

  function ResultFor(results: seq<ToolResult>, id: string): (r: ToolResult)
    requires HasResult(results, id)
    ensures r in results && r.toolUseId == id
  {
    if results[0].toolUseId == id then results[0] else ResultFor(results[1..], id)
  }

  /** The three tests of the builder: as many results as calls, no result id twice, a result under every call id. */
  ghost predicate Answers(calls: seq<Block>, results: seq<ToolResult>) {
    && |calls| == |results|
    && DistinctResults(results)
    && forall k :: 0 <= k < |calls| ==> HasResult(results, IdOf(calls[k]))
  }

  function AssistantMessage(turnId: string, messageId: string, content: seq<Block>): Message {
    var calls := ToolUses(content);
    Message(
      messageId, Assistant,
      Blocks(seq(|content|, k requires 0 <= k < |content| => Standard(content[k]))),
      turnId,
      seq(|calls|, k requires 0 <= k < |calls| =>
        if calls[k].ToolUseBlock? then Call(calls[k].id, calls[k].name, calls[k].input) else Call("", "", Null)),
      [])
  }

  function AnswerMessage(turnId: string, messageId: string, call: Block, result: ToolResult): Message {
    Message(messageId, Tool, Plain(result.content), turnId, [],
            [Answer(IdOf(call), result.ok, result.content, result.error)])
  }

  /** The answers to `calls` in order; message ids are drawn from number `next` on. */
  function AnswerMessages(turnId: string, calls: seq<Block>, results: seq<ToolResult>, ids: nat -> string, next: nat): seq<Message>
    requires forall k :: 0 <= k < |calls| ==> HasResult(results, IdOf(calls[k]))
  {
    seq(|calls|, k requires 0 <= k < |calls| =>
      AnswerMessage(turnId, ids(next + k), calls[k], ResultFor(results, IdOf(calls[k]))))
  }

  /** `build_messages_after_turn`; None where it raises. */
  ghost function TurnMessages(
    turnId: string, assistantId: string, content: seq<Block>, results: seq<ToolResult>, ids: nat -> string, next: nat)
    : Option<seq<Message>>
  {
    if !Answers(ToolUses(content), results) then None
    else Some([AssistantMessage(turnId, assistantId, content)] + AnswerMessages(turnId, ToolUses(content), results, ids, next))
  }

  /** The dict of results by id; None where an id repeats. */
  method IndexResults(results: seq<ToolResult>) returns (resultsById: Option<map<string, ToolResult>>)
    ensures resultsById.Some? <==> DistinctResults(results)
    ensures resultsById.Some? ==> Indexes(resultsById.value, results, |results|)
  {
    var byId: map<string, ToolResult> := map[];
    for i := 0 to |results|
      invariant Indexes(byId, results, i)
    {
      if results[i].toolUseId in byId {
        RepeatedResult(byId, results, i);
        return None;
      }
      IndexOneMore(byId, results, i);
      byId := byId[results[i].toolUseId := results[i]];
    }
    return Some(byId);
  }

  method BuildMessagesAfterTurn(
    turnId: string, assistantId: string, content: seq<Block>, results: seq<ToolResult>, ids: nat -> string, next: nat)
    returns (messages: Option<seq<Message>>)
    ensures messages == TurnMessages(turnId, assistantId, content, results, ids, next)
  {
    var calls := ToolUses(content);
    if |calls| != |results| {
      return None;
    }
    var indexed := IndexResults(results);
    if indexed.None? {
      return None;
    }
    var resultsById := indexed.value;
    var answers := [];
    for i := 0 to |calls|
      invariant forall k :: 0 <= k < i ==> HasResult(results, IdOf(calls[k]))
      invariant answers == AnswerMessages(turnId, calls[..i], results, ids, next)
    {
      IndexedResult(resultsById, results, IdOf(calls[i]));
      if IdOf(calls[i]) !in resultsById {
        return None;
      }
      answers := answers + [AnswerMessage(turnId, ids(next + i), calls[i], resultsById[IdOf(calls[i])])];
      AnswersSnoc(turnId, calls, results, ids, next, i);
    }
    assert calls[..|calls|] == calls;
    return Some([AssistantMessage(turnId, assistantId, content)] + answers);
  }

  lemma AnswersSnoc(turnId: string, calls: seq<Block>, results: seq<ToolResult>, ids: nat -> string, next: nat, i: nat)
    requires i < |calls| && forall k :: 0 <= k <= i ==> HasResult(results, IdOf(calls[k]))
    ensures AnswerMessages(turnId, calls[..i + 1], results, ids, next) ==
            AnswerMessages(turnId, calls[..i], results, ids, next)
            + [AnswerMessage(turnId, ids(next + i), calls[i], ResultFor(results, IdOf(calls[i])))]
  {
  }

  lemma OneMoreResult(results: seq<ToolResult>, i: nat, id: string)
    requires i < |results|
    ensures HasResult(results[..i + 1], id) <==> HasResult(results[..i], id) || id == results[i].toolUseId
  {
    if HasResult(results[..i], id) {
      var k :| 0 <= k < i && results[..i][k].toolUseId == id;
      assert results[..i + 1][k].toolUseId == id;
    }
    if HasResult(results[..i + 1], id) {
      var k :| 0 <= k < i + 1 && results[..i + 1][k].toolUseId == id;
      if k < i { assert results[..i][k].toolUseId == id; }
    }
    assert results[..i + 1][i] == results[i];
  }

  /** `resultsById` maps the ids of the first `i` results, all different, to those results. */
  ghost predicate Indexes(resultsById: map<string, ToolResult>, results: seq<ToolResult>, i: nat)
    requires i <= |results|
  {
    && (forall id :: id in resultsById <==> HasResult(results[..i], id))
    && (forall k :: 0 <= k < i ==> results[k].toolUseId in resultsById && resultsById[results[k].toolUseId] == results[k])
    && (forall j: nat, k: nat :: j < k < i ==> OtherResult(results, j, k))
  }

  lemma IndexOneMore(resultsById: map<string, ToolResult>, results: seq<ToolResult>, i: nat)
    requires i < |results| && Indexes(resultsById, results, i) && results[i].toolUseId !in resultsById
    ensures Indexes(resultsById[results[i].toolUseId := results[i]], results, i + 1)
  {
    var more := resultsById[results[i].toolUseId := results[i]];
    forall id ensures id in more <==> HasResult(results[..i + 1], id) {
      OneMoreResult(results, i, id);
    }
  }

  lemma RepeatedResult(resultsById: map<string, ToolResult>, results: seq<ToolResult>, i: nat)
    requires i < |results| && Indexes(resultsById, results, i) && results[i].toolUseId in resultsById
    ensures !DistinctResults(results)
  {
    var j :| 0 <= j < i && results[..i][j].toolUseId == results[i].toolUseId;
    assert !OtherResult(results, j, i);
  }

  lemma IndexedResult(resultsById: map<string, ToolResult>, results: seq<ToolResult>, id: string)
    requires Indexes(resultsById, results, |results|)
    ensures DistinctResults(results)
    ensures id in resultsById <==> HasResult(results, id)
    ensures id in resultsById ==> resultsById[id] == ResultFor(results, id)
  {
    assert results[..|results|] == results;
  }

  lemma OnlyThatResult(results: seq<ToolResult>, k: nat)
    requires DistinctResults(results) && k < |results|
    ensures forall i :: 0 <= i < |results| && results[i].toolUseId == results[k].toolUseId ==> results[i] == results[k]
  {
    forall i: nat | i < |results| && i != k ensures results[i].toolUseId != results[k].toolUseId {
      assert if i < k then OtherResult(results, i, k) else OtherResult(results, k, i);
    }
  }

  lemma TheResult(results: seq<ToolResult>, id: string, result: ToolResult)
    requires DistinctResults(results) && HasResult(results, id)
    requires forall k :: 0 <= k < |results| && results[k].toolUseId == id ==> results[k] == result
    ensures ResultFor(results, id) == result
  {
  }

  // ---------- Results that name their call ----------

  /** Result k carries the id of call k. */
  ghost predicate NameTheirCalls(calls: seq<Block>, results: seq<ToolResult>) {
    |calls| == |results| && forall k :: 0 <= k < |calls| ==> results[k].toolUseId == IdOf(calls[k])
  }

  predicate OtherId(calls: seq<Block>, j: nat, k: nat)
    requires j < |calls| && k < |calls|
  {
    IdOf(calls[j]) != IdOf(calls[k])
  }

  ghost predicate DistinctIds(calls: seq<Block>) {
    forall j: nat, k: nat :: j < k < |calls| ==> OtherId(calls, j, k)
  }

  /** With such results the messages can be built exactly when no call id is used twice, and call k gets result k. */
  lemma NamedResultsAnswerIff(calls: seq<Block>, results: seq<ToolResult>)
    requires NameTheirCalls(calls, results)
    ensures Answers(calls, results) <==> DistinctIds(calls)
    ensures Answers(calls, results) ==> forall k :: 0 <= k < |calls| ==> ResultFor(results, IdOf(calls[k])) == results[k]
  {
    forall k | 0 <= k < |calls| ensures HasResult(results, IdOf(calls[k])) {
      assert results[k].toolUseId == IdOf(calls[k]);
    }
    if DistinctIds(calls) {
      forall j: nat, k: nat | j < k < |results| ensures OtherResult(results, j, k) {
        assert OtherId(calls, j, k);
      }
      forall k | 0 <= k < |calls| ensures ResultFor(results, IdOf(calls[k])) == results[k] {
        OnlyThatResult(results, k);
        TheResult(results, IdOf(calls[k]), results[k]);
      }
    }
    if DistinctResults(results) {
      forall j: nat, k: nat | j < k < |calls| ensures OtherId(calls, j, k) {
        assert OtherResult(results, j, k);
      }
    }
  }

  /** Without: two calls under one id and results for that id and a stray one are accepted; the stray result is lost. */
  lemma StrayResultIsAccepted(a: string, b: string, name: string, ra: ToolResult, rb: ToolResult)
    requires a != b && ra.toolUseId == a && rb.toolUseId == b
    ensures var call := ToolUseBlock(a, name, Obj([]));
            && Answers([call, call], [ra, rb])
            && ResultFor([ra, rb], IdOf([call, call][1])) == ra
  {
    var call := ToolUseBlock(a, name, Obj([]));
    assert [ra, rb][0].toolUseId == a && OtherResult([ra, rb], 0, 1);
    assert HasResult([ra, rb], a);
  }

  // ---------- Accepted results, whatever ids they carry ----------

  function CallIdsOf(calls: seq<Block>): seq<string> {
    seq(|calls|, k requires 0 <= k < |calls| => IdOf(calls[k]))
  }

  function ResultIdsOf(results: seq<ToolResult>): seq<string> {
    seq(|results|, k requires 0 <= k < |results| => results[k].toolUseId)
  }

  predicate OtherString(ids: seq<string>, j: nat, k: nat)
    requires j < |ids| && k < |ids|
  {
    ids[j] != ids[k]
  }

  ghost predicate AllDiffer(ids: seq<string>) {
    forall j: nat, k: nat :: j < k < |ids| ==> OtherString(ids, j, k)
  }

  lemma {:induction false} DifferIffOnce(ids: seq<string>)
    ensures AllDiffer(ids) <==> forall id :: id in ids ==> multiset(ids)[id] == 1
  {
    if ids != [] {
      var front, last := ids[..|ids| - 1], ids[|ids| - 1];
      DifferIffOnce(front);
      assert ids == front + [last];
      if AllDiffer(ids) {
        forall j: nat, k: nat | j < k < |front| ensures OtherString(front, j, k) { assert OtherString(ids, j, k); }
        forall j: nat | j < |front| ensures front[j] != last { assert OtherString(ids, j, |front|); }
        assert multiset(front)[last] == 0;
      }
      if forall id :: id in ids ==> multiset(ids)[id] == 1 {
        assert multiset(ids)[last] == 1;
        assert last !in front;
        forall id | id in front ensures multiset(front)[id] == 1 { assert multiset(ids)[id] == 1; }
        forall j: nat, k: nat | j < k < |ids| ensures OtherString(ids, j, k) {
          if k < |front| { assert OtherString(front, j, k); }
        }
      }
    }
  }

  lemma {:induction false} SetOfDiffering(ids: seq<string>)
    requires AllDiffer(ids)
    ensures |set id | id in ids| == |ids|
  {
    if ids != [] {
      var front, last := ids[..|ids| - 1], ids[|ids| - 1];
      forall j: nat, k: nat | j < k < |front| ensures OtherString(front, j, k) { assert OtherString(ids, j, k); }
      SetOfDiffering(front);
      forall j: nat | j < |front| ensures front[j] != last { assert OtherString(ids, j, |front|); }
      assert (set id | id in ids) == (set id | id in front) + {last};
    }
  }

  lemma SubsetOfSameSize(a: set<string>, b: set<string>)
    requires a <= b && |a| == |b|
    ensures a == b
  {
    var more := b - a;
    assert b == a + more && |a + more| == |a| + |more|;
    assert |more| == 0;
    assert more == {};
  }

  /** Pigeonhole: of two lists of the same length, all of one among the other, both without repeats, each is a permutation. */
  lemma SameIdsWhenAllDiffer(calls: seq<string>, results: seq<string>)
    requires |calls| == |results| && AllDiffer(calls) && AllDiffer(results)
    requires forall id :: id in calls ==> id in results
    ensures multiset(calls) == multiset(results)
  {
    SetOfDiffering(calls);
    SetOfDiffering(results);
    var called, answered := set id | id in calls, set id | id in results;
    SubsetOfSameSize(called, answered);
    DifferIffOnce(calls);
    DifferIffOnce(results);
    forall id ensures multiset(calls)[id] == multiset(results)[id] {
      assert (id in calls <==> id in called) && (id in results <==> id in answered);
      if id in calls {
        assert multiset(calls)[id] == 1 && multiset(results)[id] == 1;
      } else {
        assert id !in multiset(calls) && id !in multiset(results);
      }
    }
  }

  lemma DifferingIds(calls: seq<Block>, results: seq<ToolResult>)
    ensures DistinctIds(calls) <==> AllDiffer(CallIdsOf(calls))
    ensures DistinctResults(results) <==> AllDiffer(ResultIdsOf(results))
  {
    if DistinctIds(calls) {
      forall j: nat, k: nat | j < k < |calls| ensures OtherString(CallIdsOf(calls), j, k) { assert OtherId(calls, j, k); }
    }
    if AllDiffer(CallIdsOf(calls)) {
      forall j: nat, k: nat | j < k < |calls| ensures OtherId(calls, j, k) { assert OtherString(CallIdsOf(calls), j, k); }
    }
    if DistinctResults(results) {
      forall j: nat, k: nat | j < k < |results| ensures OtherString(ResultIdsOf(results), j, k) { assert OtherResult(results, j, k); }
    }
    if AllDiffer(ResultIdsOf(results)) {
      forall j: nat, k: nat | j < k < |results| ensures OtherResult(results, j, k) { assert OtherString(ResultIdsOf(results), j, k); }
    }
  }

  lemma CalledIdsAreAnswered(calls: seq<Block>, results: seq<ToolResult>)
    requires Answers(calls, results)
    ensures forall id :: id in CallIdsOf(calls) ==> id in ResultIdsOf(results)
  {
    forall id | id in CallIdsOf(calls) ensures id in ResultIdsOf(results) {
      var k :| 0 <= k < |calls| && IdOf(calls[k]) == id;
      var j :| 0 <= j < |results| && results[j].toolUseId == IdOf(calls[k]);
      assert ResultIdsOf(results)[j] == id;
    }
  }

  /** Results the builder accepts answer the calls one to one, by id, exactly when no call id is used twice. */
  lemma AcceptedPairsIff(calls: seq<Block>, results: seq<ToolResult>)
    requires Answers(calls, results)
    ensures multiset(ResultIdsOf(results)) == multiset(CallIdsOf(calls)) <==> DistinctIds(calls)
  {
    var called, answered := CallIdsOf(calls), ResultIdsOf(results);
    DifferingIds(calls, results);
    CalledIdsAreAnswered(calls, results);
    if DistinctIds(calls) { SameIdsWhenAllDiffer(called, answered); }
    if multiset(answered) == multiset(called) {
      DifferIffOnce(answered);
      DifferIffOnce(called);
      forall id | id in called ensures multiset(called)[id] == 1 { assert multiset(answered)[id] == 1; }
    }
  }

  /** The messages of a turn: its content with every call as made, then for each call, in order, its own result. */
  ghost predicate CarriesTheTurn(ms: seq<Message>, content: seq<Block>, results: seq<ToolResult>) {
    var calls := ToolUses(content);
    && |ms| == 1 + |calls| == 1 + |results|
    && ms[0].content.Blocks? && |ms[0].content.blocks| == |content| && |ms[0].toolCalls| == |calls|
    && (forall k :: 0 <= k < |content| ==> ms[0].content.blocks[k] == Standard(content[k]))
    && (forall k :: 0 <= k < |calls| ==> SameCall(ms[0].toolCalls[k], calls[k]))
    && (forall k :: 0 <= k < |calls| ==> CarriesResult(ms[1 + k], results[k]))
  }

  predicate SameCall(c: Call, b: Block) {
    b == ToolUseBlock(c.toolUseId, c.toolName, c.input)
  }

  predicate CarriesResult(m: Message, r: ToolResult) {
    m.role == Tool && m.content == Plain(r.content) && m.toolResults == [Answer(r.toolUseId, r.ok, r.content, r.error)]
  }

  lemma AnswersCarryResults(turnId: string, calls: seq<Block>, results: seq<ToolResult>, ids: nat -> string, next: nat)
    requires NameTheirCalls(calls, results) && Answers(calls, results)
    ensures forall k :: 0 <= k < |calls| ==> CarriesResult(AnswerMessages(turnId, calls, results, ids, next)[k], results[k])
  {
    NamedResultsAnswerIff(calls, results);
  }

  lemma TurnMessagesCarryTheTurn(
    turnId: string, assistantId: string, content: seq<Block>, results: seq<ToolResult>, ids: nat -> string, next: nat)
    requires NameTheirCalls(ToolUses(content), results)
    requires TurnMessages(turnId, assistantId, content, results, ids, next).Some?
    ensures CarriesTheTurn(TurnMessages(turnId, assistantId, content, results, ids, next).value, content, results)
  {
    AnswersCarryResults(turnId, ToolUses(content), results, ids, next);
    ToolUsesAreToolUses(content);
  }

  // ---------- Pairing ----------

  function UseIds(blocks: seq<ContentBlock>): seq<string> {
    if blocks == [] then []
    else (if blocks[0].Standard? && blocks[0].block.ToolUseBlock? then [blocks[0].block.id] else []) + UseIds(blocks[1..])
  }

  predicate NoResultDicts(blocks: seq<ContentBlock>) {
    forall k :: 0 <= k < |blocks| ==> blocks[k].Standard?
  }

  /** A message that neither calls tools nor answers calls. */
  predicate Silent(m: Message) {
    && m.toolCalls == [] && m.toolResults == []
    && (m.content.Blocks? ==> UseIds(m.content.blocks) == [] && NoResultDicts(m.content.blocks))
  }

  function CallIds(calls: seq<Call>): seq<string> {
    seq(|calls|, k requires 0 <= k < |calls| => calls[k].toolUseId)
  }

  predicate OtherCall(calls: seq<Call>, j: nat, k: nat)
    requires j < |calls| && k < |calls|
  {
    calls[j].toolUseId != calls[k].toolUseId
  }

  predicate DistinctCalls(calls: seq<Call>) {
    forall j: nat, k: nat :: j < |calls| && j < k < |calls| ==> OtherCall(calls, j, k)
  }

  /** An assistant message whose content blocks make exactly its calls, under distinct ids. */
  predicate Calling(m: Message) {
    && m.role == Assistant && m.toolCalls != [] && m.toolResults == [] && m.content.Blocks?
    && UseIds(m.content.blocks) == CallIds(m.toolCalls) && NoResultDicts(m.content.blocks)
    && DistinctCalls(m.toolCalls)
  }

  predicate AnswersId(m: Message, id: string) {
    m.role == Tool && m.toolCalls == [] && |m.toolResults| == 1 && m.toolResults[0].toolUseId == id
  }

  /** The k-th message of `ms` answers the k-th call. */
  predicate AnswersCall(ms: seq<Message>, calls: seq<Call>, k: int)
    requires 0 <= k < |calls| && k < |ms|
  {
    AnswersId(ms[k], calls[k].toolUseId)
  }

  /** Every call is answered once, in order, immediately after the message that makes it; nothing else is answered. */
  predicate WellPaired(ms: seq<Message>)
    decreases |ms|
  {
    if ms == [] then true
    else if ms[0].toolCalls == [] then Silent(ms[0]) && WellPaired(ms[1..])
    else
      var n := |ms[0].toolCalls|;
      && Calling(ms[0]) && n < |ms|
      && (forall k :: 0 <= k < n ==> AnswersCall(ms[1..], ms[0].toolCalls, k))
      && WellPaired(ms[1 + n..])
  }

  lemma {:induction false} PairedConcat(a: seq<Message>, b: seq<Message>)
    requires WellPaired(a) && WellPaired(b)
    ensures WellPaired(a + b)
    decreases |a|
  {
    if a == [] {
      ConcatEmpty(b);
    } else {
      var n := GroupSize(a);
      PairedConcat(a[n..], b);
      assert (a + b)[n..] == a[n..] + b;
      assert (a + b)[0] == a[0];
      forall k | 0 <= k < |a[0].toolCalls| ensures AnswersCall((a + b)[1..], a[0].toolCalls, k) {
        assert AnswersCall(a[1..], a[0].toolCalls, k);
        assert (a + b)[1..][k] == a[1..][k];
      }
    }
  }

  /** How many messages the first group has. */
  function GroupSize(ms: seq<Message>): nat
    requires ms != []
  {
    if ms[0].toolCalls == [] then 1 else 1 + |ms[0].toolCalls|
  }

  lemma {:induction false} ContentMakesItsCalls(content: seq<Block>, blocks: seq<ContentBlock>)
    requires |blocks| == |content| && forall k :: 0 <= k < |blocks| ==> blocks[k] == Standard(content[k])
    ensures |UseIds(blocks)| == |ToolUses(content)|
    ensures forall k :: 0 <= k < |ToolUses(content)| ==> UseIds(blocks)[k] == IdOf(ToolUses(content)[k])
  {
    if content != [] {
      ContentMakesItsCalls(content[1..], blocks[1..]);
      assert ToolUses(content) == (if content[0].ToolUseBlock? then [content[0]] else []) + ToolUses(content[1..]);
    }
  }

  lemma AssistantCalls(turnId: string, messageId: string, content: seq<Block>)
    requires DistinctIds(ToolUses(content))
    ensures var m := AssistantMessage(turnId, messageId, content);
            && |m.toolCalls| == |ToolUses(content)|
            && (forall k :: 0 <= k < |m.toolCalls| ==> m.toolCalls[k].toolUseId == IdOf(ToolUses(content)[k]))
            && (if m.toolCalls == [] then Silent(m) else Calling(m))
  {
    var m := AssistantMessage(turnId, messageId, content);
    ContentMakesItsCalls(content, m.content.blocks);
    ToolUsesAreToolUses(content);
    assert UseIds(m.content.blocks) == CallIds(m.toolCalls);
    forall j: nat, k: nat | j < k < |m.toolCalls| ensures OtherCall(m.toolCalls, j, k) {
      assert OtherId(ToolUses(content), j, k);
    }
  }

  /** The messages of a turn with distinct call ids are well paired. */
  lemma TurnMessagesPaired(
    turnId: string, assistantId: string, content: seq<Block>, results: seq<ToolResult>, ids: nat -> string, next: nat)
    requires TurnMessages(turnId, assistantId, content, results, ids, next).Some? && DistinctIds(ToolUses(content))
    ensures WellPaired(TurnMessages(turnId, assistantId, content, results, ids, next).value)
  {
    var ms := TurnMessages(turnId, assistantId, content, results, ids, next).value;
    AssistantCalls(turnId, assistantId, content);
    assert ms[1 + |ToolUses(content)|..] == [];
    if ToolUses(content) == [] { assert ms[1..] == []; }
  }

  ghost predicate PairedIfBuilt(ms: Option<seq<Message>>) {
    ms.Some? ==> WellPaired(ms.value)
  }

  /** Results that name their calls make well-paired messages, where they make any. */
  lemma NamedMessagesPaired(
    turnId: string, assistantId: string, content: seq<Block>, results: seq<ToolResult>, ids: nat -> string, next: nat)
    requires NameTheirCalls(ToolUses(content), results)
    ensures PairedIfBuilt(TurnMessages(turnId, assistantId, content, results, ids, next))
  {
    NamedResultsAnswerIff(ToolUses(content), results);
    if TurnMessages(turnId, assistantId, content, results, ids, next).Some? {
      TurnMessagesPaired(turnId, assistantId, content, results, ids, next);
    }
  }

  // ---------- Conversion to OpenAI messages ----------

  /** A payload of the adapters; `reasoning` is `reasoning_content` where present. */
  datatype AdapterMessage = AdapterMessage(role: Role, content: Content, reasoning: Option<string>)

  function ResultDicts(results: seq<Answer>): seq<ContentBlock> {
    seq(|results|, k requires 0 <= k < |results| => ToolResultDict(results[k].toolUseId, results[k].content))
  }

  predicate IsReasoning(b: ContentBlock) {
    b.Standard? && b.block.ReasoningBlock?
  }

  function VisibleBlocks(blocks: seq<ContentBlock>): seq<ContentBlock> {
    if blocks == [] then []
    else (if IsReasoning(blocks[0]) then [] else [blocks[0]]) + VisibleBlocks(blocks[1..])
  }

  function ReasoningText(blocks: seq<ContentBlock>): Option<string> {
    if blocks == [] then None
    else
      var rest := ReasoningText(blocks[1..]);
      if !IsReasoning(blocks[0]) then rest
      else Some(blocks[0].block.reasoning + if rest.Some? then rest.value else "")
  }

  function ToAdapterMessage(m: Message): AdapterMessage {
    if m.toolResults != [] then AdapterMessage(User, Blocks(ResultDicts(m.toolResults)), None)
    else match m.content
         case Plain(_) => AdapterMessage(m.role, m.content, None)
         case Blocks(blocks) => AdapterMessage(m.role, Blocks(VisibleBlocks(blocks)), ReasoningText(blocks))
  }

  datatype OaiCall = OaiCall(id: string, name: string, input: Json)

  datatype OaiMessage =
    | OaiPlain(role: Role, content: string, reasoning: Option<string>)
    | OaiCalls(text: Option<string>, calls: seq<OaiCall>, reasoning: Option<string>)
    | OaiTool(toolCallId: string, content: string)

  function TextsOf(blocks: seq<ContentBlock>): seq<string> {
    if blocks == [] then []
    else (if blocks[0].Standard? && blocks[0].block.TextBlock? then [blocks[0].block.text] else []) + TextsOf(blocks[1..])
  }

  function CallsOf(blocks: seq<ContentBlock>): seq<OaiCall> {
    if blocks == [] then []
    else
      (match blocks[0]
       case Standard(ToolUseBlock(id, name, input)) => [OaiCall(id, name, input)]
       case _ => [])
      + CallsOf(blocks[1..])
  }

  function ToolMessagesOf(blocks: seq<ContentBlock>): seq<OaiMessage> {
    if blocks == [] then []
    else (if blocks[0].ToolResultDict? then [OaiTool(blocks[0].toolUseId, blocks[0].content)] else [])
         + ToolMessagesOf(blocks[1..])
  }

  function JoinWithSpaces(texts: seq<string>): string {
    if texts == [] then "" else if |texts| == 1 then texts[0] else texts[0] + " " + JoinWithSpaces(texts[1..])
  }

  /** One message per text block; the reasoning goes with the first. */
  function TextMessages(role: Role, texts: seq<string>, reasoning: Option<string>): seq<OaiMessage> {
    if texts == [] then [] else [OaiPlain(role, texts[0], reasoning)] + TextMessages(role, texts[1..], None)
  }

  function ToOpenAI(m: AdapterMessage): seq<OaiMessage> {
    var reasoning := if m.role == Assistant then m.reasoning else None;
    match m.content
    case Plain(text) => [OaiPlain(m.role, text, reasoning)]
    case Blocks(blocks) =>
      if CallsOf(blocks) != [] && m.role == Assistant then
        var text := JoinWithSpaces(TextsOf(blocks));
        [OaiCalls(if text == "" then None else Some(text), CallsOf(blocks), reasoning)]
      else if ToolMessagesOf(blocks) != [] then ToolMessagesOf(blocks)
      else TextMessages(m.role, TextsOf(blocks), reasoning)
  }

  function AllToOpenAI(ms: seq<Message>): seq<OaiMessage> {
    if ms == [] then [] else AllToOpenAI(ms[..|ms| - 1]) + ToOpenAI(ToAdapterMessage(ms[|ms| - 1]))
  }

  function OpenAIMessages(systemPrompt: string, ms: seq<Message>): seq<OaiMessage> {
    (if systemPrompt != "" then [OaiPlain(System, systemPrompt, None)] else []) + AllToOpenAI(ms)
  }

  method BuildOpenAIMessages(systemPrompt: string, messages: seq<Message>) returns (oai: seq<OaiMessage>)
    ensures oai == OpenAIMessages(systemPrompt, messages)
  {
    oai := if systemPrompt != "" then [OaiPlain(System, systemPrompt, None)] else [];
    ghost var head := oai;
    for i := 0 to |messages|
      invariant oai == head + AllToOpenAI(messages[..i])
    {
      var payload := ToAdapterMessage(messages[i]);
      assert messages[..i + 1][..i] == messages[..i];
      ConcatAssoc(head, AllToOpenAI(messages[..i]), ToOpenAI(payload));
      oai := oai + ToOpenAI(payload);
    }
    assert messages[..|messages|] == messages;
  }

  predicate OaiAnswersCall(ms: seq<OaiMessage>, calls: seq<OaiCall>, k: int)
    requires 0 <= k < |calls| && k < |ms|
  {
    ms[k].OaiTool? && ms[k].toolCallId == calls[k].id
  }

  /** OpenAI's rule: a message with tool calls is followed at once by their tool messages, in order; no others occur. */
  predicate OaiPaired(ms: seq<OaiMessage>)
    decreases |ms|
  {
    if ms == [] then true
    else match ms[0]
         case OaiPlain(_, _, _) => OaiPaired(ms[1..])
         case OaiTool(_, _) => false
         case OaiCalls(_, calls, _) =>
           && |calls| < |ms|
           && (forall k :: 0 <= k < |calls| ==> OaiAnswersCall(ms[1..], calls, k))
           && OaiPaired(ms[1 + |calls|..])
  }

  lemma {:induction false} AllToOpenAIConcat(a: seq<Message>, b: seq<Message>)
    ensures AllToOpenAI(a + b) == AllToOpenAI(a) + AllToOpenAI(b)
  {
    if b == [] {
      ConcatEmpty(a);
      ConcatEmpty(AllToOpenAI(a));
    } else {
      var front, m := b[..|b| - 1], b[|b| - 1];
      AllToOpenAIConcat(a, front);
      SplitLast(b);
      ConcatAssoc(a, front, [m]);
      FrontOfSnoc(a + front, m);
      ConcatAssoc(AllToOpenAI(a), AllToOpenAI(front), ToOpenAI(ToAdapterMessage(m)));
    }
  }

  lemma {:induction false} OaiPairedConcat(a: seq<OaiMessage>, b: seq<OaiMessage>)
    requires OaiPaired(a) && OaiPaired(b)
    ensures OaiPaired(a + b)
    decreases |a|
  {
    if a == [] {
      ConcatEmpty(b);
    } else if a[0].OaiPlain? {
      OaiPairedConcat(a[1..], b);
      assert (a + b)[1..] == a[1..] + b;
    } else {
      var calls := a[0].calls;
      OaiPairedConcat(a[1 + |calls|..], b);
      assert (a + b)[1 + |calls|..] == a[1 + |calls|..] + b;
      forall k | 0 <= k < |calls| ensures OaiAnswersCall((a + b)[1..], calls, k) {
        assert OaiAnswersCall(a[1..], calls, k);
        assert (a + b)[1..][k] == a[1..][k];
      }
    }
  }

  function IdsOf(calls: seq<OaiCall>): seq<string> {
    if calls == [] then [] else [calls[0].id] + IdsOf(calls[1..])
  }

  lemma {:induction false} IdsOfConcat(a: seq<OaiCall>, b: seq<OaiCall>)
    ensures IdsOf(a + b) == IdsOf(a) + IdsOf(b)
  {
    if a == [] {
      ConcatEmpty(b);
    } else {
      IdsOfConcat(a[1..], b);
      assert (a + b)[1..] == a[1..] + b;
    }
  }

  lemma {:induction false} IdsOfAt(calls: seq<OaiCall>, k: nat)
    requires k < |calls|
    ensures |IdsOf(calls)| == |calls| && IdsOf(calls)[k] == calls[k].id
  {
    if |calls| > 1 { IdsOfAt(calls[1..], if k > 0 then k - 1 else 0); }
  }

  lemma {:induction false} VisibleKeepsCalls(blocks: seq<ContentBlock>)
    requires NoResultDicts(blocks)
    ensures ToolMessagesOf(VisibleBlocks(blocks)) == []
    ensures IdsOf(CallsOf(VisibleBlocks(blocks))) == UseIds(blocks)
  {
    if blocks != [] {
      VisibleKeepsCalls(blocks[1..]);
      var rest := VisibleBlocks(blocks[1..]);
      if IsReasoning(blocks[0]) {
        ConcatEmpty(rest);
      } else {
        assert VisibleBlocks(blocks) == [blocks[0]] + rest;
        assert ([blocks[0]] + rest)[1..] == rest;
        FirstBlockCalls(blocks[0], rest);
      }
    }
  }

  lemma FirstBlockCalls(b: ContentBlock, rest: seq<ContentBlock>)
    ensures IdsOf(CallsOf([b] + rest)) ==
            (if b.Standard? && b.block.ToolUseBlock? then [b.block.id] else []) + IdsOf(CallsOf(rest))
  {
    assert ([b] + rest)[1..] == rest;
    match b
    case Standard(ToolUseBlock(id, name, input)) =>
      var call := OaiCall(id, name, input);
      assert [call][1..] == [];
      IdsOfConcat([call], CallsOf(rest));
    case _ =>
      ConcatEmpty(CallsOf(rest));
      ConcatEmpty(IdsOf(CallsOf(rest)));
  }

  lemma {:induction false} TextMessagesPaired(role: Role, texts: seq<string>, reasoning: Option<string>)
    ensures OaiPaired(TextMessages(role, texts, reasoning))
    decreases |texts|
  {
    if texts != [] {
      TextMessagesPaired(role, texts[1..], None);
      assert TextMessages(role, texts, reasoning)[1..] == TextMessages(role, texts[1..], None);
    }
  }

  lemma SilentConverts(m: Message)
    requires Silent(m)
    ensures OaiPaired(ToOpenAI(ToAdapterMessage(m)))
  {
    match m.content
    case Plain(_) => assert ToOpenAI(ToAdapterMessage(m))[1..] == [];
    case Blocks(blocks) =>
      VisibleKeepsCalls(blocks);
      TextMessagesPaired(m.role, TextsOf(VisibleBlocks(blocks)), if m.role == Assistant then ReasoningText(blocks) else None);
  }

  lemma AnswerConverts(m: Message, id: string)
    requires AnswersId(m, id)
    ensures ToOpenAI(ToAdapterMessage(m)) == [OaiTool(id, m.toolResults[0].content)]
  {
    var dicts := ResultDicts(m.toolResults);
    assert dicts[0] == ToolResultDict(id, m.toolResults[0].content);
    assert dicts == [ToolResultDict(id, m.toolResults[0].content)] && dicts[1..] == [];
    assert CallsOf(dicts) == [] + CallsOf(dicts[1..]);
    assert ToolMessagesOf(dicts) == [OaiTool(id, m.toolResults[0].content)] + ToolMessagesOf(dicts[1..]);
  }

  lemma {:induction false} AnswersConvert(ms: seq<Message>, calls: seq<Call>)
    requires |ms| == |calls| && forall k :: 0 <= k < |calls| ==> AnswersCall(ms, calls, k)
    ensures |AllToOpenAI(ms)| == |ms|
    ensures forall k :: 0 <= k < |ms| ==> AllToOpenAI(ms)[k].OaiTool? && AllToOpenAI(ms)[k].toolCallId == calls[k].toolUseId
  {
    if ms != [] {
      var front, earlier := ms[..|ms| - 1], calls[..|ms| - 1];
      forall k | 0 <= k < |earlier| ensures AnswersCall(front, earlier, k) {
        assert AnswersCall(ms, calls, k);
      }
      AnswersConvert(front, earlier);
      assert AnswersCall(ms, calls, |ms| - 1);
      AnswerConverts(ms[|ms| - 1], calls[|ms| - 1].toolUseId);
    }
  }

  lemma CallingConverts(m: Message)
    requires Calling(m)
    ensures var oai := ToOpenAI(ToAdapterMessage(m));
            && |oai| == 1 && oai[0].OaiCalls? && |oai[0].calls| == |m.toolCalls|
            && forall k :: 0 <= k < |m.toolCalls| ==> oai[0].calls[k].id == m.toolCalls[k].toolUseId
  {
    var calls := CallsOf(VisibleBlocks(m.content.blocks));
    VisibleKeepsCalls(m.content.blocks);
    SameIds(calls, m.toolCalls);
  }

  lemma {:induction false} SameIds(calls: seq<OaiCall>, made: seq<Call>)
    requires IdsOf(calls) == CallIds(made)
    ensures |calls| == |made| && forall k :: 0 <= k < |made| ==> calls[k].id == made[k].toolUseId
  {
    if calls == [] {
      assert |CallIds(made)| == 0;
    } else {
      IdsOfAt(calls, 0);
      forall k | 0 <= k < |made| ensures calls[k].id == made[k].toolUseId {
        IdsOfAt(calls, k);
      }
    }
  }

  lemma {:induction false} GroupOfCallsIsPaired(first: OaiMessage, answers: seq<OaiMessage>, made: seq<Call>)
    requires first.OaiCalls? && |answers| == |first.calls| == |made|
    requires forall k :: 0 <= k < |made| ==> first.calls[k].id == made[k].toolUseId
    requires forall k :: 0 <= k < |answers| ==> answers[k].OaiTool? && answers[k].toolCallId == made[k].toolUseId
    ensures OaiPaired([first] + answers)
  {
    assert ([first] + answers)[1..] == answers;
    assert ([first] + answers)[1 + |answers|..] == [];
  }

  lemma GroupConverts(m: Message, answers: seq<Message>)
    requires Calling(m) && |answers| == |m.toolCalls|
    requires forall k :: 0 <= k < |m.toolCalls| ==> AnswersCall(answers, m.toolCalls, k)
    ensures OaiPaired(ToOpenAI(ToAdapterMessage(m)) + AllToOpenAI(answers))
  {
    var oai := ToOpenAI(ToAdapterMessage(m));
    CallingConverts(m);
    AnswersConvert(answers, m.toolCalls);
    GroupOfCallsIsPaired(oai[0], AllToOpenAI(answers), m.toolCalls);
    assert oai == [oai[0]];
  }

  lemma OneConverts(m: Message)
    ensures AllToOpenAI([m]) == ToOpenAI(ToAdapterMessage(m))
  {
    assert [m][..0] == [];
    ConcatEmpty(ToOpenAI(ToAdapterMessage(m)));
  }

  lemma HeadConverts(ms: seq<Message>)
    requires ms != []
    ensures AllToOpenAI(ms) == ToOpenAI(ToAdapterMessage(ms[0])) + AllToOpenAI(ms[1..])
    ensures AllToOpenAI(ms[..1]) == ToOpenAI(ToAdapterMessage(ms[0]))
  {
    assert ms[..1] == [ms[0]] && ms == [ms[0]] + ms[1..];
    OneConverts(ms[0]);
    AllToOpenAIConcat([ms[0]], ms[1..]);
  }

  lemma {:induction false} FirstGroupConverts(ms: seq<Message>)
    requires WellPaired(ms) && ms != []
    ensures GroupSize(ms) <= |ms| && WellPaired(ms[GroupSize(ms)..])
    ensures OaiPaired(AllToOpenAI(ms[..GroupSize(ms)]))
  {
    if ms[0].toolCalls == [] {
      SilentConverts(ms[0]);
      HeadConverts(ms);
    } else {
      var group := ms[..GroupSize(ms)];
      assert group[0] == ms[0];
      forall k | 0 <= k < |ms[0].toolCalls| ensures AnswersCall(group[1..], ms[0].toolCalls, k) {
        assert AnswersCall(ms[1..], ms[0].toolCalls, k);
        assert group[1..][k] == ms[1..][k];
      }
      GroupConverts(ms[0], group[1..]);
      HeadConverts(group);
    }
  }

  /** Main result: conversion to OpenAI messages preserves the pairing. */
  lemma {:induction false} ConversionKeepsPairing(ms: seq<Message>)
    requires WellPaired(ms)
    ensures OaiPaired(AllToOpenAI(ms))
    decreases |ms|
  {
    if ms != [] {
      var n := GroupSize(ms);
      FirstGroupConverts(ms);
      ConversionKeepsPairing(ms[n..]);
      ConvertsInTwo(ms, n);
    }
  }

  lemma PartsConvert(whole: seq<Message>, a: seq<Message>, b: seq<Message>)
    requires whole == a + b && OaiPaired(AllToOpenAI(a)) && OaiPaired(AllToOpenAI(b))
    ensures OaiPaired(AllToOpenAI(whole))
  {
    OaiPairedConcat(AllToOpenAI(a), AllToOpenAI(b));
    AllToOpenAIConcat(a, b);
  }

  lemma ConvertsInTwo(ms: seq<Message>, n: nat)
    requires n <= |ms| && OaiPaired(AllToOpenAI(ms[..n])) && OaiPaired(AllToOpenAI(ms[n..]))
    ensures OaiPaired(AllToOpenAI(ms))
  {
    PartsConvert(ms, ms[..n], ms[n..]);
  }

  lemma RequestsArePaired(systemPrompt: string, ms: seq<Message>)
    requires WellPaired(ms)
    ensures OaiPaired(OpenAIMessages(systemPrompt, ms))
  {
    ConversionKeepsPairing(ms);
    var head := if systemPrompt != "" then [OaiPlain(System, systemPrompt, None)] else [];
    if systemPrompt != "" { assert head[1..] == []; }
    OaiPairedConcat(head, AllToOpenAI(ms));
  }

  // ---------- What the conversion carries ----------

  ghost predicate MadeCalls(calls: seq<OaiCall>, uses: seq<Block>) {
    |calls| == |uses| && forall k :: 0 <= k < |calls| ==> uses[k] == ToolUseBlock(calls[k].id, calls[k].name, calls[k].input)
  }

  function StandardBlocks(content: seq<Block>): seq<ContentBlock> {
    seq(|content|, k requires 0 <= k < |content| => Standard(content[k]))
  }

  lemma OneMoreMade(calls: seq<OaiCall>, uses: seq<Block>, call: OaiCall, use: Block)
    requires MadeCalls(calls, uses) && use == ToolUseBlock(call.id, call.name, call.input)
    ensures MadeCalls([call] + calls, [use] + uses)
  {
  }

  lemma {:induction false} CallsAreMade(content: seq<Block>)
    ensures MadeCalls(CallsOf(VisibleBlocks(StandardBlocks(content))), ToolUses(content))
  {
    if content != [] {
      var b, rest := content[0], content[1..];
      CallsAreMade(rest);
      assert StandardBlocks(content)[1..] == StandardBlocks(rest);
      var visible := VisibleBlocks(StandardBlocks(rest));
      assert ToolUses(content) == (if b.ToolUseBlock? then [b] else []) + ToolUses(rest);
      if b.ReasoningBlock? {
        ConcatEmpty(visible);
        ConcatEmpty(ToolUses(rest));
      } else {
        assert ([Standard(b)] + visible)[1..] == visible;
        if b.ToolUseBlock? {
          OneMoreMade(CallsOf(visible), ToolUses(rest), OaiCall(b.id, b.name, b.input), b);
        } else {
          ConcatEmpty(CallsOf(visible));
          ConcatEmpty(ToolUses(rest));
        }
      }
    }
  }

  /** An assistant message that calls tools becomes one OpenAI message with exactly its calls: id, name and input, in order. */
  lemma CallsAreCarried(turnId: string, messageId: string, content: seq<Block>)
    requires ToolUses(content) != []
    ensures var oai := ToOpenAI(ToAdapterMessage(AssistantMessage(turnId, messageId, content)));
            |oai| == 1 && oai[0].OaiCalls? && MadeCalls(oai[0].calls, ToolUses(content))
  {
    CallsAreMade(content);
    assert AssistantMessage(turnId, messageId, content).content.blocks == StandardBlocks(content);
  }

  /** The answer to a call becomes one tool message with the call's id and the result's content. */
  lemma ResultIsCarried(m: Message, r: ToolResult)
    requires CarriesResult(m, r)
    ensures ToOpenAI(ToAdapterMessage(m)) == [OaiTool(r.toolUseId, r.content)]
  {
    var dicts := ResultDicts(m.toolResults);
    assert dicts == [ToolResultDict(r.toolUseId, r.content)] && dicts[1..] == [];
    assert CallsOf(dicts) == [] + CallsOf(dicts[1..]);
    assert ToolMessagesOf(dicts) == [OaiTool(r.toolUseId, r.content)] + ToolMessagesOf(dicts[1..]);
  }
}
