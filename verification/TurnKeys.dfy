/** Which idempotency keys of a turn's writes can clash: exactly those of tool calls or invalid calls under one id. */
module TurnKeys {
  import opened Options
  import opened SeqFacts
  import opened StandardEvents
  import opened ToolGuards
  import opened Transcript
  import opened TurnKernel

  function KeySet(key: Option<Key>): set<Key> {
    if key.Some? then {key.value} else {}
  }

  function Keys(xs: seq<Write>): set<Key> {
    if xs == [] then {} else Keys(xs[..|xs| - 1]) + KeySet(xs[|xs| - 1].key)
  }

  /** No key is used twice. */
  predicate DistinctKeys(xs: seq<Write>) {
    if xs == [] then true
    else DistinctKeys(xs[..|xs| - 1]) && KeySet(xs[|xs| - 1].key) !! Keys(xs[..|xs| - 1])
  }

  lemma SnocKeys(a: seq<Write>, x: Write)
    ensures Keys(a + [x]) == Keys(a) + KeySet(x.key)
    ensures DistinctKeys(a + [x]) <==> DistinctKeys(a) && KeySet(x.key) !! Keys(a)
  {
    FrontOfSnoc(a, x);
  }

  lemma {:induction false} ConcatKeys(a: seq<Write>, b: seq<Write>)
    ensures Keys(a + b) == Keys(a) + Keys(b)
    ensures DistinctKeys(a + b) <==> DistinctKeys(a) && DistinctKeys(b) && Keys(a) !! Keys(b)
  {
    if b == [] {
      ConcatEmpty(a);
    } else {
      var front, x := b[..|b| - 1], b[|b| - 1];
      ConcatKeys(a, front);
      SplitLast(b);
      ConcatAssoc(a, front, [x]);
      SnocKeys(a + front, x);
      SnocKeys(front, x);
    }
  }

  lemma OneKey(x: Write)
    ensures Keys([x]) == KeySet(x.key) && DistinctKeys([x])
  {
    SnocKeys([], x);
    ConcatEmpty([x]);
  }

  // ---------- The keys of the parts of a turn ----------

  ghost predicate UsageKeysUpTo(keys: set<Key>, turnId: string, n: nat) {
    forall k :: k in keys ==> k.UsageKey? && k.turnId == turnId && k.n <= n
  }

  lemma {:induction false} StreamKeys(t: TurnInfo, events: seq<StandardEvent>)
    ensures DistinctKeys(StreamWrites(t, events))
    ensures UsageKeysUpTo(Keys(StreamWrites(t, events)), t.turnId, UsageCount(events))
  {
    if events != [] {
      var front, e := events[..|events| - 1], events[|events| - 1];
      StreamKeys(t, front);
      if e.TurnDone? {
        ConcatEmpty(StreamWrites(t, front));
      } else {
        SnocKeys(StreamWrites(t, front), StreamWrite(t, e, UsageCount(events)));
      }
    }
  }

  predicate DistinctStrings(ids: seq<string>) {
    if ids == [] then true else DistinctStrings(ids[..|ids| - 1]) && ids[|ids| - 1] !in ids[..|ids| - 1]
  }

  function InvalidIds(invalid: seq<Block>): seq<string> {
    if invalid == [] then [] else InvalidIds(invalid[..|invalid| - 1]) + [InvalidId(invalid[|invalid| - 1])]
  }

  function ToolIds(calls: seq<Block>): seq<string> {
    if calls == [] then [] else ToolIds(calls[..|calls| - 1]) + [IdOf(calls[|calls| - 1])]
  }

  /** The keys are exactly those of the invalid calls `ids`. */
  ghost predicate KeysOfInvalid(keys: set<Key>, turnId: string, ids: seq<string>) {
    && (forall k :: k in keys ==> k.InvalidKey? && k.turnId == turnId && k.toolUseId in ids)
    && (forall id :: id in ids ==> InvalidKey(turnId, id) in keys)
  }

  lemma {:induction false} InvalidCallKeys(t: TurnInfo, invalid: seq<Block>)
    ensures KeysOfInvalid(Keys(InvalidWrites(t, invalid)), t.turnId, InvalidIds(invalid))
    ensures DistinctKeys(InvalidWrites(t, invalid)) <==> DistinctStrings(InvalidIds(invalid))
  {
    if invalid != [] {
      var front, b := invalid[..|invalid| - 1], invalid[|invalid| - 1];
      InvalidCallKeys(t, front);
      SnocKeys(InvalidWrites(t, front), InvalidWrite(t, b));
      FrontOfSnoc(InvalidIds(front), InvalidId(b));
    }
  }

  /** The keys belong to the tool calls `ids`, and every call's start has its key. */
  ghost predicate KeysOfTools(keys: set<Key>, turnId: string, ids: seq<string>) {
    && (forall k :: k in keys ==>
          (k.ToolStartedKey? || k.ToolFinishedKey? || k.PausedKey?) && k.turnId == turnId && k.toolUseId in ids)
    && (forall id :: id in ids ==> ToolStartedKey(turnId, id) in keys)
  }

  lemma CallKeys(env: TurnEnv, t: TurnInfo, call: Block, r: ToolResult)
    ensures DistinctKeys(CallWrites(env, t, call, r))
    ensures KeysOfTools(Keys(CallWrites(env, t, call, r)), t.turnId, [IdOf(call)])
  {
    OneKey(StartedWrite(t, call));
    SnocKeys([StartedWrite(t, call)], FinishedWrite(t, call, r));
    var written := [StartedWrite(t, call), FinishedWrite(t, call, r)];
    assert [StartedWrite(t, call)] + [FinishedWrite(t, call, r)] == written;
    if Pauses(env, call, r) {
      SnocKeys(written, PausedWrite(t, call));
    } else {
      ConcatEmpty(written);
    }
  }

  lemma {:induction false} ToolCallKeys(env: TurnEnv, t: TurnInfo, calls: seq<Block>, results: seq<ToolResult>)
    requires |results| >= |calls|
    ensures KeysOfTools(Keys(ToolWrites(env, t, calls, results)), t.turnId, ToolIds(calls))
    ensures DistinctKeys(ToolWrites(env, t, calls, results)) <==> DistinctStrings(ToolIds(calls))
  {
    if calls != [] {
      var front, call, r := calls[..|calls| - 1], calls[|calls| - 1], results[|calls| - 1];
      ToolCallKeys(env, t, front, results);
      CallKeys(env, t, call, r);
      ConcatKeys(ToolWrites(env, t, front, results), CallWrites(env, t, call, r));
      FrontOfSnoc(ToolIds(front), IdOf(call));
      JoinToolKeys(Keys(ToolWrites(env, t, front, results)), Keys(CallWrites(env, t, call, r)), t.turnId, ToolIds(front), IdOf(call));
    }
  }

  lemma JoinToolKeys(keys: set<Key>, more: set<Key>, turnId: string, ids: seq<string>, id: string)
    requires KeysOfTools(keys, turnId, ids) && KeysOfTools(more, turnId, [id])
    ensures KeysOfTools(keys + more, turnId, ids + [id])
    ensures keys !! more <==> id !in ids
  {
    assert id in [id];
    if id in ids {
      assert ToolStartedKey(turnId, id) in keys && ToolStartedKey(turnId, id) in more;
    }
  }

  lemma {:induction false} ToolIdsAre(calls: seq<Block>)
    ensures |ToolIds(calls)| == |calls|
    ensures forall k :: 0 <= k < |calls| ==> ToolIds(calls)[k] == IdOf(calls[k])
  {
    if calls != [] { ToolIdsAre(calls[..|calls| - 1]); }
  }

  lemma {:induction false} DistinctStringsIff(ids: seq<string>)
    ensures DistinctStrings(ids) <==> forall j, k :: 0 <= j < k < |ids| ==> ids[j] != ids[k]
  {
    if ids != [] {
      var front, last := ids[..|ids| - 1], ids[|ids| - 1];
      DistinctStringsIff(front);
      if last in front {
        var j :| 0 <= j < |front| && front[j] == last;
        assert ids[j] == ids[|ids| - 1];
      }
    }
  }

  lemma DistinctToolIds(calls: seq<Block>)
    ensures DistinctStrings(ToolIds(calls)) <==> DistinctIds(calls)
  {
    ToolIdsAre(calls);
    DistinctStringsIff(ToolIds(calls));
    if DistinctIds(calls) {
      forall j: nat, k: nat | j < k < |calls| ensures ToolIds(calls)[j] != ToolIds(calls)[k] {
        assert OtherId(calls, j, k);
      }
    }
  }

  // ---------- The keys of a turn ----------

  ghost predicate OfTurn(keys: set<Key>, turnId: string) {
    forall k :: k in keys ==> k.turnId == turnId
  }

  ghost predicate HeadKeysOnly(keys: set<Key>, turnId: string) {
    forall k :: k in keys ==> k.turnId == turnId && (k.TurnStartedKey? || k.UsageKey?)
  }

  lemma HeadKeys(t: TurnInfo, events: seq<StandardEvent>)
    ensures var before := [StartWrite(t)] + StreamWrites(t, events);
            && DistinctKeys(before)
            && TurnStartedKey(t.turnId) in Keys(before)
            && HeadKeysOnly(Keys(before), t.turnId)
  {
    OneKey(StartWrite(t));
    StreamKeys(t, events);
    ConcatKeys([StartWrite(t)], StreamWrites(t, events));
  }

  /** No two calls of the content share an id, and no two invalid calls do. */
  predicate DistinctBlockIds(content: seq<Block>) {
    DistinctStrings(ToolIds(ToolUses(content))) && DistinctStrings(InvalidIds(InvalidCalls(content)))
  }

  ghost predicate KeysBeforeTools(keys: set<Key>, turnId: string) {
    forall k :: k in keys ==> k.turnId == turnId && (k.TurnStartedKey? || k.UsageKey? || k.InvalidKey?)
  }

  lemma ListedKeys(t: TurnInfo, before: seq<Write>, invalid: seq<Block>)
    requires DistinctKeys(before) && HeadKeysOnly(Keys(before), t.turnId)
    ensures var xs := before + InvalidWrites(t, invalid);
            && (DistinctKeys(xs) <==> DistinctStrings(InvalidIds(invalid)))
            && KeysBeforeTools(Keys(xs), t.turnId)
            && Keys(before) <= Keys(xs)
  {
    InvalidCallKeys(t, invalid);
    ConcatKeys(before, InvalidWrites(t, invalid));
  }

  lemma CalledKeys(env: TurnEnv, t: TurnInfo, before: seq<Write>, calls: seq<Block>, results: seq<ToolResult>)
    requires |results| >= |calls| && KeysBeforeTools(Keys(before), t.turnId)
    ensures var xs := before + ToolWrites(env, t, calls, results);
            && (DistinctKeys(xs) <==> DistinctKeys(before) && DistinctStrings(ToolIds(calls)))
            && OfTurn(Keys(xs), t.turnId)
            && Keys(before) <= Keys(xs)
            && TurnCompletedKey(t.turnId) !in Keys(xs)
  {
    ToolCallKeys(env, t, calls, results);
    ConcatKeys(before, ToolWrites(env, t, calls, results));
  }

  lemma LastKey(t: TurnInfo, before: seq<Write>, r: TurnResult)
    requires OfTurn(Keys(before), t.turnId) && TurnCompletedKey(t.turnId) !in Keys(before)
    ensures var xs := before + [CompletedWrite(t, r)];
            && (DistinctKeys(xs) <==> DistinctKeys(before))
            && OfTurn(Keys(xs), t.turnId)
            && Keys(before) <= Keys(xs)
  {
    SnocKeys(before, CompletedWrite(t, r));
  }

  lemma FinishKeys(env: TurnEnv, t: TurnInfo, done: TurnDoneData, poll: nat, g: GuardState, before: seq<Write>)
    requires DistinctKeys(before) && HeadKeysOnly(Keys(before), t.turnId)
    ensures var out := FinishTurn(env, t, done, poll, g, before);
            && OfTurn(Keys(out.writes), t.turnId)
            && Keys(before) <= Keys(out.writes)
            && (DistinctKeys(out.writes) <==> DistinctBlockIds(done.content))
  {
    var calls := ToolUses(done.content);
    var results := HandleCalls(env, calls, poll, g, false).1;
    HandleCallsAligns(env, calls, poll, g, false);
    var listed := before + InvalidWrites(t, InvalidCalls(done.content));
    ListedKeys(t, before, InvalidCalls(done.content));
    CalledKeys(env, t, listed, calls, results);
    LastKey(t, listed + ToolWrites(env, t, calls, results), FinishTurn(env, t, done, poll, g, before).result.value);
  }

  lemma NoBlocksNoClash()
    ensures DistinctBlockIds([])
  {
    assert ToolUses([]) == [] && InvalidCalls([]) == [];
  }

  /** All keys carry the turn's id, its start has one, and they are distinct if and only if the content's ids are. */
  ghost predicate KeyedWrites(xs: seq<Write>, turnId: string, content: seq<Block>) {
    && OfTurn(Keys(xs), turnId)
    && TurnStartedKey(turnId) in Keys(xs)
    && (DistinctKeys(xs) <==> DistinctBlockIds(content))
  }

  ghost predicate Keyed(out: TurnOut, turnId: string) {
    out.result.Some? && KeyedWrites(out.writes, turnId, out.result.value.content)
  }

  lemma CancelledKeyed(env: TurnEnv, t: TurnInfo, llm: LlmTurn, poll: nat, g: GuardState, polls: nat)
    ensures Keyed(TurnOut(g, polls, Opening(env, t, llm, poll) + [CompletedWrite(t, CANCELLED_TURN)], Some(CANCELLED_TURN)), t.turnId)
  {
    HeadKeys(t, Read(env, llm, poll));
    LastKey(t, Opening(env, t, llm, poll), CANCELLED_TURN);
    NoBlocksNoClash();
  }

  lemma FinishedKeyed(env: TurnEnv, t: TurnInfo, llm: LlmTurn, poll: nat, g: GuardState, done: TurnDoneData, polls: nat)
    ensures Keyed(FinishTurn(env, t, done, polls, g, Opening(env, t, llm, poll)), t.turnId)
  {
    HeadKeys(t, Read(env, llm, poll));
    FinishKeys(env, t, done, polls, g, Opening(env, t, llm, poll));
  }

  /** Main result: only two tool calls, or two invalid calls, of one content can make a turn use a key twice, and they do. */
  lemma TurnKeysDistinctIff(env: TurnEnv, t: TurnInfo, llm: LlmTurn, poll: nat, g: GuardState)
    requires RunTurn(env, t, llm, poll, g).result.Some?
    ensures Keyed(RunTurn(env, t, llm, poll, g), t.turnId)
  {
    var polls := poll + 1 + |Read(env, llm, poll)|;
    if StreamCancelled(env, llm, poll) {
      TurnIsCancelled(env, t, llm, poll, g, polls, Opening(env, t, llm, poll));
      CancelledKeyed(env, t, llm, poll, g, polls);
    } else {
      var done := LastDone(Read(env, llm, poll)).value;
      TurnIsFinished(env, t, llm, poll, g, done, polls, Opening(env, t, llm, poll));
      FinishedKeyed(env, t, llm, poll, g, done, polls);
    }
  }
}
