/**
 The event log of the SQLite reference host. Rows are keyed by (run, seq), idempotency keys point
 at a seq, and a new row takes MAX(seq) + 1. It refines the in-memory log up to timestamps.
 */
module SqliteEventLog {
  import opened Options
  import opened SeqFacts
  import opened EventLog
  import opened IntSets

  /** The rows of one run by seq. */
  type Rows<D> = map<nat, Event<D>>

  /** `reference_events` by its primary key (run_id, seq); `reference_event_idempotency` by (run_id, key). */
  datatype Tables<K(==), D> = Tables(
    rows: map<string, Rows<D>>,
    keys: map<(string, K), nat>)

  function RowsOf<K(==), D>(t: Tables<K, D>, run: string): Rows<D> {
    if run in t.rows then t.rows[run] else map[]
  }

  /** COALESCE(MAX(seq), 0) */
  function MaxSeq(s: set<nat>): nat {
    if s == {} then 0 else MaxOf(s)
  }

  function Existing<K(==), D>(t: Tables<K, D>, a: AppendCall<K, D>): Option<Event<D>> {
    if a.key.None? || (a.runId, a.key.value) !in t.keys then None
    else
      var n := t.keys[(a.runId, a.key.value)];
      if n in RowsOf(t, a.runId) then Some(RowsOf(t, a.runId)[n]) else None
  }

  function Inserted<K(==), D>(t: Tables<K, D>, a: AppendCall<K, D>, nowMs: int): (Tables<K, D>, Event<D>) {
    match Existing(t, a)
    case Some(existing) => (t, existing)
    case None =>
      var n := MaxSeq(RowsOf(t, a.runId).Keys) + 1;
      var stamp := if a.draft.timestampMs.Some? then a.draft.timestampMs.value else nowMs;
      var row := Event(a.runId, n, stamp, a.draft.body);
      (Tables(
         t.rows[a.runId := RowsOf(t, a.runId)[n := row]],
         if a.key.Some? then t.keys[(a.runId, a.key.value) := n] else t.keys),
       row)
  }

  /** ORDER BY seq ASC over the chosen rows of a run. */
  function Ordered<D>(rows: Rows<D>, seqs: set<nat>): seq<Event<D>>
    requires seqs <= rows.Keys
    decreases seqs
  {
    if seqs == {} then []
    else
      var m := MinOf(seqs);
      [rows[m]] + Ordered(rows, seqs - {m})
  }

  function Later<D>(rows: Rows<D>, fromSeq: int): (r: set<nat>)
    ensures r <= rows.Keys
  {
    set n | n in rows && n > fromSeq
  }

  /** SQLite reads a negative LIMIT as no limit. */
  function Limited<D>(es: seq<Event<D>>, limit: Option<int>): seq<Event<D>> {
    if limit.None? || limit.value < 0 || limit.value >= |es| then es else es[..limit.value]
  }

  function Selected<K(==), D>(t: Tables<K, D>, run: string, fromSeq: int, limit: Option<int>): seq<Event<D>> {
    Limited(Ordered(RowsOf(t, run), Later(RowsOf(t, run), fromSeq)), limit)
  }

  // ---------- Refinement ----------

  ghost predicate SameButTime<D(!new)>(a: Event<D>, b: Event<D>) {
    a.runId == b.runId && a.seqNo == b.seqNo && a.body == b.body
  }

  ghost predicate AllSameButTime<D(!new)>(xs: seq<Event<D>>, ys: seq<Event<D>>) {
    |xs| == |ys| && forall i :: 0 <= i < |xs| ==> SameButTime(xs[i], ys[i])
  }

  /** Rows 1..n, as many as the in-memory list has events and equal to them up to timestamps. */
  ghost predicate RowsMatch<D(!new)>(rows: Rows<D>, es: seq<Event<D>>) {
    && (forall n :: n in rows <==> 1 <= n <= |es|)
    && (forall n :: n in rows ==> SameButTime(rows[n], es[n - 1]))
  }

  ghost predicate SameRows<K(!new), D(!new)>(t: Tables<K, D>, log: LogState<K, D>) {
    forall run :: RowsMatch(RowsOf(t, run), EventsOf(log, run))
  }

  /** The same keys, naming the same events. */
  ghost predicate NamesMatch<K(!new), D(!new)>(keys: map<(string, K), nat>, log: LogState<K, D>) {
    && keys.Keys == log.idempotency.Keys
    && (forall k :: k in keys ==> Names(log, k, keys[k]))
  }

  /** Row `n` of the key's run is the event the key stands for. */
  ghost predicate Names<K(!new), D(!new)>(log: LogState<K, D>, k: (string, K), n: nat) {
    && k in log.idempotency
    && 1 <= n <= |EventsOf(log, k.0)| && EventsOf(log, k.0)[n - 1] == log.idempotency[k]
  }

  ghost predicate Refines<K(!new), D(!new)>(t: Tables<K, D>, log: LogState<K, D>) {
    WellFormed(log) && SameRows(t, log) && NamesMatch(t.keys, log)
  }

  lemma MaxSeqIsLength<D(!new)>(rows: Rows<D>, es: seq<Event<D>>)
    requires RowsMatch(rows, es)
    ensures MaxSeq(rows.Keys) == |es|
  {
    assert |es| > 0 ==> |es| in rows.Keys;
  }

  lemma ExistingMatches<K(!new), D(!new)>(t: Tables<K, D>, log: LogState<K, D>, a: AppendCall<K, D>)
    requires RowsMatch(RowsOf(t, a.runId), EventsOf(log, a.runId)) && NamesMatch(t.keys, log)
    ensures Existing(t, a).Some? <==> Lookup(log, a).Some?
    ensures Existing(t, a).Some? ==> SameButTime(Existing(t, a).value, Lookup(log, a).value)
  {
    if a.key.Some? && (a.runId, a.key.value) in t.keys {
      var n := t.keys[(a.runId, a.key.value)];
      assert Names(log, (a.runId, a.key.value), n) && n in RowsOf(t, a.runId);
    }
  }

  lemma InsertKeepsRows<K(!new), D(!new)>(t: Tables<K, D>, log: LogState<K, D>, a: AppendCall<K, D>, nowMs: int)
    requires Dense(log) && SameRows(t, log) && Existing(t, a).None? && Lookup(log, a).None?
    ensures SameRows(Inserted(t, a, nowMs).0, Appended(log, a).0)
    ensures SameButTime(Inserted(t, a, nowMs).1, Appended(log, a).1)
  {
    var rows, es := RowsOf(t, a.runId), EventsOf(log, a.runId);
    assert RowsMatch(rows, es);
    MaxSeqIsLength(rows, es);
    var (t', row) := Inserted(t, a, nowMs);
    var (log', e) := Appended(log, a);
    assert RowsMatch(rows[|es| + 1 := row], es + [e]);
    forall run ensures RowsMatch(RowsOf(t', run), EventsOf(log', run)) {
      if run != a.runId {
        assert RowsMatch(RowsOf(t, run), EventsOf(log, run));
        assert RowsOf(t', run) == RowsOf(t, run) && EventsOf(log', run) == EventsOf(log, run);
      }
    }
  }

  lemma InsertKeepsKeys<K(!new), D(!new)>(t: Tables<K, D>, log: LogState<K, D>, a: AppendCall<K, D>, nowMs: int)
    requires RowsMatch(RowsOf(t, a.runId), EventsOf(log, a.runId)) && NamesMatch(t.keys, log)
    requires Existing(t, a).None? && Lookup(log, a).None?
    ensures NamesMatch(Inserted(t, a, nowMs).0.keys, Appended(log, a).0)
  {
    MaxSeqIsLength(RowsOf(t, a.runId), EventsOf(log, a.runId));
    LongerLogKeepsNames(t.keys, log, a);
  }

  lemma LongerLogKeepsNames<K(!new), D(!new)>(keys: map<(string, K), nat>, log: LogState<K, D>, a: AppendCall<K, D>)
    requires NamesMatch(keys, log) && Lookup(log, a).None?
    ensures NamesMatch(
              if a.key.Some? then keys[(a.runId, a.key.value) := |EventsOf(log, a.runId)| + 1] else keys,
              Appended(log, a).0)
  {
    var es, after := EventsOf(log, a.runId), Appended(log, a).0;
    assert EventsOf(after, a.runId) == es + [NewEvent(log, a)];
    forall k, n | Names(log, k, n) && !(a.key.Some? && k == (a.runId, a.key.value)) ensures Names(after, k, n) {
      if k.0 != a.runId { assert EventsOf(after, k.0) == EventsOf(log, k.0); }
    }
    if a.key.Some? { assert Names(after, (a.runId, a.key.value), |es| + 1); }
  }

  /** One append on both hosts: the same event up to its timestamp, and related states. */
  lemma AppendSimulates<K(!new), D(!new)>(t: Tables<K, D>, log: LogState<K, D>, a: AppendCall<K, D>, nowMs: int)
    requires Refines(t, log)
    ensures Refines(Inserted(t, a, nowMs).0, Appended(log, a).0)
    ensures SameButTime(Inserted(t, a, nowMs).1, Appended(log, a).1)
  {
    assert RowsMatch(RowsOf(t, a.runId), EventsOf(log, a.runId));
    ExistingMatches(t, log, a);
    if Existing(t, a).None? {
      InsertKeepsRows(t, log, a, nowMs);
      InsertKeepsKeys(t, log, a, nowMs);
      AppendAllSnoc(log, [], a);
      WellFormedAlways(log, [] + [a]);
    }
  }

  function InsertAll<K(==), D>(t: Tables<K, D>, xs: seq<AppendCall<K, D>>, clock: nat -> int): (Tables<K, D>, seq<Event<D>>) {
    if xs == [] then (t, [])
    else
      var (before, es) := InsertAll(t, xs[..|xs| - 1], clock);
      var (after, e) := Inserted(before, xs[|xs| - 1], clock(|xs| - 1));
      (after, es + [e])
  }

  /** Main result: over any calls and any clock the two hosts return the same events up to timestamps. */
  lemma {:induction false} SqliteRefinesInMemory<K(!new), D(!new)>(
    t: Tables<K, D>, log: LogState<K, D>, xs: seq<AppendCall<K, D>>, clock: nat -> int)
    requires Refines(t, log)
    ensures Refines(InsertAll(t, xs, clock).0, AppendAll(log, xs).0)
    ensures AllSameButTime(InsertAll(t, xs, clock).1, AppendAll(log, xs).1)
  {
    if xs != [] {
      var front := xs[..|xs| - 1];
      SqliteRefinesInMemory(t, log, front, clock);
      AppendSimulates(InsertAll(t, front, clock).0, AppendAll(log, front).0, xs[|xs| - 1], clock(|xs| - 1));
    }
  }

  lemma EmptyRefines<K(!new), D(!new)>(base: int)
    ensures Refines(Tables<K, D>.Tables(map[], map[]), EmptyLog(base))
  {
  }

  lemma {:induction false} OrderedMatches<D(!new)>(rows: Rows<D>, es: seq<Event<D>>, from: nat)
    requires RowsMatch(rows, es) && from <= |es|
    ensures AllSameButTime(Ordered(rows, Later(rows, from)), es[from..])
    decreases |es| - from
  {
    var later := Later(rows, from);
    if from == |es| {
      assert later == {};
    } else {
      assert from + 1 in later;
      assert later - {from + 1} == Later(rows, from + 1);
      OrderedMatches(rows, es, from + 1);
      assert MinOf(later) == from + 1;
      assert es[from..] == [es[from]] + es[from + 1..];
    }
  }

  lemma LimitsAgreeIff<D(!new)>(xs: seq<Event<D>>, ys: seq<Event<D>>, limit: Option<int>)
    requires AllSameButTime(xs, ys)
    ensures AllSameButTime(Limited(xs, limit), Slice(ys, limit)) <==> limit.None? || limit.value >= 0 || ys == []
  {
  }

  /**
   Reading: the two hosts agree up to timestamps for every start, unless the limit is negative and there
   is something to read. The in-memory list then drops events from its end; SQLite returns them all.
   */
  lemma ReadsAgreeIff<K(!new), D(!new)>(t: Tables<K, D>, log: LogState<K, D>, run: string, fromSeq: int, limit: Option<int>)
    requires Refines(t, log)
    ensures AllSameButTime(Selected(t, run, fromSeq, limit), Streamed(log, run, fromSeq, limit))
            <==> limit.None? || limit.value >= 0 || EventsOf(log, run) == [] || fromSeq >= |EventsOf(log, run)|
  {
    var rows, es := RowsOf(t, run), EventsOf(log, run);
    assert RowsMatch(rows, es);
    var from: nat := if fromSeq < 0 then 0 else if fromSeq > |es| then |es| else fromSeq;
    AfterIsSuffix(es, 0, fromSeq);
    assert After(es, fromSeq) == es[from..];
    OrderedMatches(rows, es, from);
    assert Later(rows, fromSeq) == Later(rows, from);
    LimitsAgreeIff(Ordered(rows, Later(rows, from)), es[from..], limit);
    assert es[from..] == [] <==> es == [] || fromSeq >= |es|;
  }

  /** One input: after one append, a limit of -1 reads nothing from memory and the event from SQLite. */
  lemma NegativeLimitsDiffer<K(!new), D(!new)>(a: AppendCall<K, D>, base: int, nowMs: int)
    ensures var t, log := Inserted(Tables<K, D>.Tables(map[], map[]), a, nowMs).0, Appended(EmptyLog(base), a).0;
            !AllSameButTime(Selected(t, a.runId, 0, Some(-1)), Streamed(log, a.runId, 0, Some(-1)))
  {
    var empty, none := Tables<K, D>.Tables(map[], map[]), EmptyLog<K, D>(base);
    EmptyRefines<K, D>(base);
    AppendSimulates(empty, none, a, nowMs);
    assert EventsOf(Appended(none, a).0, a.runId) == [] + [NewEvent(none, a)];
    ReadsAgreeIff(Inserted(empty, a, nowMs).0, Appended(none, a).0, a.runId, 0, Some(-1));
  }

  // ---------- The host class ----------

  class SQLiteEventLog<K(==), D> {
    var rows: map<string, Rows<D>>
    var keys: map<(string, K), nat>

    constructor ()
      ensures State() == Tables(map[], map[])
    {
      rows, keys := map[], map[];
    }

    function State(): Tables<K, D>
      reads this
    {
      Tables(rows, keys)
    }

    /** One transaction: SELECT the key's row, else INSERT at MAX(seq) + 1 and remember the key. */
    method AppendEvent(runId: string, draft: Draft<D>, key: Option<K>, nowMs: int) returns (event: Event<D>)
      modifies this
      ensures State() == Inserted(old(State()), AppendCall(runId, draft, key), nowMs).0
      ensures event == Inserted(old(State()), AppendCall(runId, draft, key), nowMs).1
    {
      var ofRun := if runId in rows then rows[runId] else map[];
      if key.Some? && (runId, key.value) in keys && keys[(runId, key.value)] in ofRun {
        return ofRun[keys[(runId, key.value)]];
      }
      var nextSeq := MaxSeq(ofRun.Keys) + 1;
      var timestampMs := nowMs;
      if draft.timestampMs.Some? {
        timestampMs := draft.timestampMs.value;
      }
      event := Event(runId, nextSeq, timestampMs, draft.body);
      rows := rows[runId := ofRun[nextSeq := event]];
      if key.Some? {
        keys := keys[(runId, key.value) := nextSeq];
      }
    }

    method StreamEvents(runId: string, fromSeq: int, limit: Option<int>) returns (events: seq<Event<D>>)
      ensures events == Selected(State(), runId, fromSeq, limit)
    {
      var ofRun := if runId in rows then rows[runId] else map[];
      var pending := Later(ofRun, fromSeq);
      events := [];
      while pending != {}
        invariant pending <= ofRun.Keys
        invariant events + Ordered(ofRun, pending) == Ordered(ofRun, Later(ofRun, fromSeq))
        decreases pending
      {
        var first := MinOf(pending);
        ConcatAssoc(events, [ofRun[first]], Ordered(ofRun, pending - {first}));
        events := events + [ofRun[first]];
        pending := pending - {first};
      }
      ConcatEmpty(events);
      events := Limited(events, limit);
    }
  }
}
