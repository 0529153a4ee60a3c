/** The events of a whole run: complete turns one after the other, and when the log holds exactly what was returned. */
module RunEvents {
  import opened Options
  import opened SeqFacts
  import opened StandardEvents
  import opened EventLog
  import opened ToolGuards
  import opened Transcript
  import opened TurnKernel
  import opened TurnGrammar
  import opened TurnKeys
  import opened TurnFacts
  import opened RunKernel
  import opened RunBounds

  function AllWrites(turns: seq<TurnRecord>): seq<Write> {
    if turns == [] then [] else AllWrites(turns[..|turns| - 1]) + turns[|turns| - 1].writes
  }

  ghost predicate GoodRecord(setup: RunSetup, record: TurnRecord) {
    && OfRun(record.writes, setup.runId)
    && Complete(setup.env.pauseTools, record.writes)
    && KeyedWrites(record.writes, record.info.turnId, record.result.content)
  }

  ghost predicate GoodRecords(setup: RunSetup, turns: seq<TurnRecord>) {
    forall k :: 0 <= k < |turns| ==> GoodRecord(setup, turns[k])
  }

  /** Every turn recorded is complete, and unless the run has failed its writes are those of its turns. */
  ghost predicate GoodEvents(setup: RunSetup, status: Status) {
    && GoodRecords(setup, status.state.turns)
    && (!status.Failed? ==> status.state.writes == AllWrites(status.state.turns))
  }

  lemma OneMoreRecord(setup: RunSetup, turns: seq<TurnRecord>, record: TurnRecord)
    requires GoodRecords(setup, turns) && GoodRecord(setup, record)
    ensures GoodRecords(setup, turns + [record])
    ensures AllWrites(turns + [record]) == AllWrites(turns) + record.writes
  {
    FrontOfSnoc(turns, record);
  }

  lemma WritesAfter(setup: RunSetup, s: RunState, out: TurnOut, ms: Option<seq<Message>>)
    ensures var status := AfterMessages(setup, s, out, ms);
            && status.state.writes == s.writes + out.writes
            && (out.result.None? ==> status.Failed?)
  {
  }

  lemma RecordIsGood(setup: RunSetup, s: RunState, out: TurnOut, record: TurnRecord)
    requires FactsOfTurn(setup.env, NextTurn(setup, s), TurnGuards(s), out) && out.result.Some?
    requires record.info == NextTurn(setup, s) && record.result == out.result.value && record.writes == out.writes
    ensures GoodRecord(setup, record)
  {
  }

  lemma TurnKeepsEvents(setup: RunSetup, s: RunState, out: TurnOut, ms: Option<seq<Message>>, status: Status)
    requires GoodEvents(setup, Running(s)) && TurnStep(setup, s, out, ms, status)
    ensures GoodEvents(setup, status)
  {
    AfterTurnRecords(setup, Polled(s), out, ms);
    WritesAfter(setup, Polled(s), out, ms);
    if out.result.Some? {
      var record := TurnRecord(NextTurn(setup, s), s.messages, out.result.value, out.writes);
      RecordIsGood(setup, s, out, record);
      OneMoreRecord(setup, s.turns, record);
    }
  }

  lemma KeepsEvents(setup: RunSetup, s: RunState, status: Status)
    requires GoodEvents(setup, Running(s)) && Steps(setup, s, status)
    ensures GoodEvents(setup, status)
  {
    if out, ms :| TurnStep(setup, s, out, ms, status) { TurnKeepsEvents(setup, s, out, ms, status); }
  }

  lemma RunKeepsEvents(setup: RunSetup, messages: seq<Message>, script: seq<LlmTurn>)
    ensures GoodEvents(setup, Run(setup, messages, script))
  {
    var inv := (status: Status) => GoodEvents(setup, status);
    forall s, status | Steps(setup, s, status) && inv(Running(s)) ensures inv(status) {
      KeepsEvents(setup, s, status);
    }
    RunsKeep(setup, Initial(messages), script, inv);
  }

  // ---------- Keys over a whole run ----------

  function TurnIdsOf(turns: seq<TurnRecord>): seq<string> {
    if turns == [] then [] else TurnIdsOf(turns[..|turns| - 1]) + [turns[|turns| - 1].info.turnId]
  }

  predicate DistinctBlockIdsPerTurn(turns: seq<TurnRecord>) {
    forall k :: 0 <= k < |turns| ==> DistinctBlockIds(turns[k].result.content)
  }

  /** The keys name turns among `ids`, and each of these has one for its start. */
  ghost predicate KeysOfTurns(keys: set<Key>, ids: seq<string>) {
    && (forall k :: k in keys ==> k.turnId in ids)
    && (forall id :: id in ids ==> TurnStartedKey(id) in keys)
  }

  lemma JoinTurnKeys(keys: set<Key>, more: set<Key>, ids: seq<string>, id: string)
    requires KeysOfTurns(keys, ids) && OfTurn(more, id) && TurnStartedKey(id) in more
    ensures KeysOfTurns(keys + more, ids + [id])
    ensures keys !! more <==> id !in ids
  {
    if id in ids { assert TurnStartedKey(id) in keys && TurnStartedKey(id) in more; }
  }

  lemma LastTurnDistinct(turns: seq<TurnRecord>)
    requires turns != []
    ensures DistinctBlockIdsPerTurn(turns) <==>
            DistinctBlockIdsPerTurn(turns[..|turns| - 1]) && DistinctBlockIds(turns[|turns| - 1].result.content)
  {
  }

  /** The run's keys are distinct exactly when its turn ids are and no turn's content repeats a block id. */
  lemma {:induction false} RunKeysDistinctIff(setup: RunSetup, turns: seq<TurnRecord>)
    requires GoodRecords(setup, turns)
    ensures KeysOfTurns(Keys(AllWrites(turns)), TurnIdsOf(turns))
    ensures DistinctKeys(AllWrites(turns)) <==> DistinctStrings(TurnIdsOf(turns)) && DistinctBlockIdsPerTurn(turns)
  {
    if turns != [] {
      var front, last := turns[..|turns| - 1], turns[|turns| - 1];
      RunKeysDistinctIff(setup, front);
      assert GoodRecord(setup, last);
      ConcatKeys(AllWrites(front), last.writes);
      JoinTurnKeys(Keys(AllWrites(front)), Keys(last.writes), TurnIdsOf(front), last.info.turnId);
      FrontOfSnoc(TurnIdsOf(front), last.info.turnId);
      LastTurnDistinct(turns);
    }
  }

  lemma {:induction false} AllOfRun(setup: RunSetup, turns: seq<TurnRecord>)
    requires GoodRecords(setup, turns)
    ensures OfRun(AllWrites(turns), setup.runId)
  {
    if turns != [] {
      AllOfRun(setup, turns[..|turns| - 1]);
      assert GoodRecord(setup, turns[|turns| - 1]);
      OfRunConcat(AllWrites(turns[..|turns| - 1]), turns[|turns| - 1].writes, setup.runId);
    }
  }

  // ---------- Fidelity ----------

  lemma {:induction false} KeyIsUsed(xs: seq<Write>, key: Key)
    ensures key in Keys(xs) <==> exists k :: 0 <= k < |xs| && xs[k].key == Some(key)
  {
    if xs != [] {
      var front := xs[..|xs| - 1];
      KeyIsUsed(front, key);
      if k :| 0 <= k < |xs| && xs[k].key == Some(key) {
        if k < |front| { assert front[k].key == Some(key); }
      }
      if k :| 0 <= k < |front| && front[k].key == Some(key) { assert xs[k].key == Some(key); }
      if key in KeySet(xs[|xs| - 1].key) { assert xs[|xs| - 1].key == Some(key); }
    }
  }

  lemma RepeatsIffUsed(base: int, xs: seq<Write>, x: Write, runId: string)
    requires OfRun(xs, runId) && x.runId == runId
    ensures Repeats(EmptyLog(base), xs, x) <==> !(KeySet(x.key) !! Keys(xs))
  {
    if x.key.Some? { KeyIsUsed(xs, x.key.value); }
  }

  /** On an empty log the writes of one run repeat no key exactly when their keys are distinct. */
  lemma {:induction false} DistinctIffNoRepeats(base: int, xs: seq<Write>, runId: string)
    requires OfRun(xs, runId)
    ensures DistinctKeys(xs) <==> |WithoutRepeats(EmptyLog<Key, EventBody>(base), xs)| == |xs|
  {
    if xs != [] {
      var front, x := xs[..|xs| - 1], xs[|xs| - 1];
      DistinctIffNoRepeats(base, front, runId);
      RepeatsIffUsed(base, front, x, runId);
    }
  }

  /** The log a run leaves and the events it returns, for a run that starts on an empty log. */
  function Logged(base: int, s: RunState): (LogState<Key, EventBody>, seq<Event<EventBody>>) {
    AppendAll(EmptyLog(base), s.writes)
  }

  lemma ReturnedIffDistinct(base: int, xs: seq<Write>, runId: string)
    requires OfRun(xs, runId)
    ensures var r := AppendAll(EmptyLog<Key, EventBody>(base), xs);
            EventsOf(r.0, runId) == r.1 <==> DistinctKeys(xs)
  {
    var log := EmptyLog<Key, EventBody>(base);
    forall x | x in xs ensures x.runId == runId {
      var k :| 0 <= k < |xs| && xs[k] == x;
    }
    ReturnedEventsAreTheLog(log, runId, xs);
    FreshKeysIffNoRepeats(log, xs);
    DistinctIffNoRepeats(base, xs, runId);
    assert EventsOf(log, runId) + AppendAll(log, xs).1 == AppendAll(log, xs).1;
  }

  lemma TwoInvalidIds(a: Block, b: Block)
    requires a.InvalidToolCall? && b.InvalidToolCall? && a.id == b.id
    ensures !DistinctStrings(InvalidIds([a, b]))
  {
    assert [a, b][..1] == [a] && [a][..0] == [];
    assert InvalidIds([]) == [];
    assert InvalidIds([a]) == [] + [a.id];
    assert InvalidIds([a, b]) == InvalidIds([a]) + [b.id];
    FrontOfSnoc(InvalidIds([a]), b.id);
  }

  /** One input: two invalid calls under one id. The second is given the first one's event back, which the log holds once. */
  lemma TwoInvalidCallsUnderOneId(base: int, t: TurnInfo, a: Block, b: Block)
    requires a.InvalidToolCall? && b.InvalidToolCall? && a.id == b.id
    ensures var r := AppendAll(EmptyLog<Key, EventBody>(base), InvalidWrites(t, [a, b]));
            EventsOf(r.0, t.runId) != r.1
  {
    var xs := InvalidWrites(t, [a, b]);
    InvalidOfRun(t, [a, b]);
    InvalidCallKeys(t, [a, b]);
    TwoInvalidIds(a, b);
    ReturnedIffDistinct(base, xs, t.runId);
  }

  /**
   Main result: for a run that returns, started on an empty log, the events it returns are exactly the
   log's events of the run if and only if its turn ids are distinct and no turn repeats a block id; the
   log's events are numbered 1, 2, 3, ... in any case.
   */
  lemma EventFidelityIff(setup: RunSetup, messages: seq<Message>, script: seq<LlmTurn>, base: int)
    requires Run(setup, messages, script).Stopped?
    ensures var end := Run(setup, messages, script).state;
            var logged := Logged(base, end);
            && (EventsOf(logged.0, setup.runId) == logged.1
                <==> DistinctStrings(TurnIdsOf(end.turns)) && DistinctBlockIdsPerTurn(end.turns))
            && Dense(logged.0)
  {
    var end := Run(setup, messages, script).state;
    RunKeepsEvents(setup, messages, script);
    AllOfRun(setup, end.turns);
    RunKeysDistinctIff(setup, end.turns);
    ReturnedIffDistinct(base, end.writes, setup.runId);
    EmptyIsWellFormed(base);
    WellFormedAlways(EmptyLog<Key, EventBody>(base), end.writes);
  }

  lemma EmptyIsWellFormed(base: int)
    ensures WellFormed(EmptyLog<Key, EventBody>(base))
  {
  }

  /** Each turn of a run that returns has written one complete turn; together these are the run's writes. */
  lemma RunIsCompleteTurns(setup: RunSetup, messages: seq<Message>, script: seq<LlmTurn>)
    requires Run(setup, messages, script).Stopped?
    ensures var end := Run(setup, messages, script).state;
            && end.writes == AllWrites(end.turns)
            && forall k :: 0 <= k < |end.turns| ==> Complete(setup.env.pauseTools, end.turns[k].writes)
  {
    RunKeepsEvents(setup, messages, script);
    var end := Run(setup, messages, script).state;
    forall k | 0 <= k < |end.turns| ensures Complete(setup.env.pauseTools, end.turns[k].writes) {
      assert GoodRecord(setup, end.turns[k]);
    }
  }

  // ---------- Faithful executors and fresh turn ids ----------

  predicate DistinctInvalidIds(turns: seq<TurnRecord>) {
    forall k :: 0 <= k < |turns| ==> DistinctStrings(InvalidIds(InvalidCalls(turns[k].result.content)))
  }

  ghost predicate DistinctCallsIn(record: TurnRecord) {
    DistinctIds(ToolUses(record.result.content))
  }

  /** As long as the run has not failed, no turn has used a call id twice. */
  ghost predicate DistinctCallsSoFar(status: Status) {
    !status.Failed? ==> forall k :: 0 <= k < |status.state.turns| ==> DistinctCallsIn(status.state.turns[k])
  }

  lemma TurnKeepsDistinctCalls(setup: RunSetup, s: RunState, out: TurnOut, ms: Option<seq<Message>>, status: Status)
    requires IdFaithful(setup.env.guards.behaviour)
    requires DistinctCallsSoFar(Running(s)) && TurnStep(setup, s, out, ms, status)
    ensures DistinctCallsSoFar(status)
  {
    AfterTurnRecords(setup, Polled(s), out, ms);
    FailsWithoutMessages(setup, Polled(s), out, ms);
  }

  lemma KeepsDistinctCalls(setup: RunSetup, s: RunState, status: Status)
    requires IdFaithful(setup.env.guards.behaviour)
    requires DistinctCallsSoFar(Running(s)) && Steps(setup, s, status)
    ensures DistinctCallsSoFar(status)
  {
    if out, ms :| TurnStep(setup, s, out, ms, status) { TurnKeepsDistinctCalls(setup, s, out, ms, status); }
  }

  lemma RunKeepsDistinctCalls(setup: RunSetup, messages: seq<Message>, script: seq<LlmTurn>)
    requires IdFaithful(setup.env.guards.behaviour)
    ensures DistinctCallsSoFar(Run(setup, messages, script))
  {
    var inv := (status: Status) => DistinctCallsSoFar(status);
    forall s, status | Steps(setup, s, status) && inv(Running(s)) ensures inv(status) {
      KeepsDistinctCalls(setup, s, status);
    }
    RunsKeep(setup, Initial(messages), script, inv);
  }

  lemma {:induction false} TurnIdsAre(turns: seq<TurnRecord>)
    ensures |TurnIdsOf(turns)| == |turns|
    ensures forall k :: 0 <= k < |turns| ==> TurnIdsOf(turns)[k] == turns[k].info.turnId
  {
    if turns != [] { TurnIdsAre(turns[..|turns| - 1]); }
  }

  ghost predicate FreshIds(ids: nat -> string) {
    forall m: nat, n: nat :: m < n ==> ids(m) != ids(n)
  }

  lemma FreshTurnIdsAreDistinct(setup: RunSetup, s: RunState)
    requires FreshIds(setup.turnIds) && Numbered(setup, s)
    ensures DistinctStrings(TurnIdsOf(s.turns))
  {
    var ids := TurnIdsOf(s.turns);
    TurnIdsAre(s.turns);
    DistinctStringsIff(ids);
    forall j: nat, k: nat | j < k < |ids| ensures ids[j] != ids[k] {
      assert NumberedTurn(setup, s, j) && NumberedTurn(setup, s, k);
    }
  }

  lemma CallsAreDistinct(record: TurnRecord)
    requires DistinctCallsIn(record)
    ensures DistinctBlockIds(record.result.content) <==> DistinctStrings(InvalidIds(InvalidCalls(record.result.content)))
  {
    DistinctToolIds(ToolUses(record.result.content));
  }

  /**
   Main result: with fresh turn ids and an executor that names its calls, the returned events are the
   log's if and only if no turn holds two invalid calls under one id.
   */
  lemma FaithfulRunFidelityIff(setup: RunSetup, messages: seq<Message>, script: seq<LlmTurn>, base: int)
    requires Run(setup, messages, script).Stopped?
    requires IdFaithful(setup.env.guards.behaviour) && FreshIds(setup.turnIds)
    ensures var end := Run(setup, messages, script).state;
            var logged := Logged(base, end);
            EventsOf(logged.0, setup.runId) == logged.1 <==> DistinctInvalidIds(end.turns)
  {
    var turns := Run(setup, messages, script).state.turns;
    EventFidelityIff(setup, messages, script, base);
    RunIsNumbered(setup, messages, script);
    FreshTurnIdsAreDistinct(setup, Run(setup, messages, script).state);
    RunKeepsDistinctCalls(setup, messages, script);
    forall k | 0 <= k < |turns|
      ensures DistinctBlockIds(turns[k].result.content) <==> DistinctStrings(InvalidIds(InvalidCalls(turns[k].result.content)))
    {
      CallsAreDistinct(turns[k]);
    }
  }
}
