/**
 The append-only event log: per-run sequence numbers and idempotency keys, as held in memory.
 `K` is the type of idempotency keys; `D` is everything of an event the log copies unread
 (type, payload, turn id, schema version, message and action ids).
 */
module EventLog {
  import opened Options
  import opened SeqFacts

  datatype Draft<D> = Draft(body: D, timestampMs: Option<int>)

  datatype Event<D> = Event(runId: string, seqNo: nat, timestampMs: int, body: D)

  /** One call of `append_event`. */
  datatype AppendCall<K, D> = AppendCall(runId: string, draft: Draft<D>, key: Option<K>)

  datatype LogState<K(==), D> = LogState(
    base: int,
    eventsByRun: map<string, seq<Event<D>>>,
    idempotency: map<(string, K), Event<D>>)

  function EmptyLog<K(==), D>(base: int): LogState<K, D> {
    LogState(base, map[], map[])
  }

  function EventsOf<K(==), D>(log: LogState<K, D>, run: string): seq<Event<D>> {
    if run in log.eventsByRun then log.eventsByRun[run] else []
  }

  function Lookup<K(==), D>(log: LogState<K, D>, a: AppendCall<K, D>): Option<Event<D>> {
    if a.key.Some? && (a.runId, a.key.value) in log.idempotency
    then Some(log.idempotency[(a.runId, a.key.value)])
    else None
  }

  function NewEvent<K(==), D>(log: LogState<K, D>, a: AppendCall<K, D>): Event<D> {
    var n := |EventsOf(log, a.runId)|;
    Event(a.runId, n + 1, log.base + n, a.draft.body)
  }

  function Appended<K(==), D>(log: LogState<K, D>, a: AppendCall<K, D>): (LogState<K, D>, Event<D>) {
    match Lookup(log, a)
    case Some(existing) => (log, existing)
    case None =>
      var e := NewEvent(log, a);
      (LogState(
         log.base,
         log.eventsByRun[a.runId := EventsOf(log, a.runId) + [e]],
         if a.key.Some? then log.idempotency[(a.runId, a.key.value) := e] else log.idempotency),
       e)
  }

  /** A whole sequence of calls: the log they leave and the events they return. */
  function AppendAll<K(==), D>(log: LogState<K, D>, xs: seq<AppendCall<K, D>>): (LogState<K, D>, seq<Event<D>>) {
    if xs == [] then (log, [])
    else
      var (before, es) := AppendAll(log, xs[..|xs| - 1]);
      var (after, e) := Appended(before, xs[|xs| - 1]);
      (after, es + [e])
  }

  lemma AppendAllSnoc<K, D>(log: LogState<K, D>, xs: seq<AppendCall<K, D>>, x: AppendCall<K, D>)
    ensures AppendAll(log, xs + [x]) ==
            (var r := AppendAll(log, xs); var s := Appended(r.0, x); (s.0, r.1 + [s.1]))
  {
    assert (xs + [x])[..|xs|] == xs;
  }

  lemma {:induction false} AppendAllConcat<K, D>(log: LogState<K, D>, xs: seq<AppendCall<K, D>>, ys: seq<AppendCall<K, D>>)
    ensures AppendAll(log, xs + ys) ==
            (var r := AppendAll(log, xs); var s := AppendAll(r.0, ys); (s.0, r.1 + s.1))
  {
    if ys == [] {
      ConcatEmpty(xs);
      ConcatEmpty(AppendAll(log, xs).1);
    } else {
      var front, y := ys[..|ys| - 1], ys[|ys| - 1];
      AppendAllConcat(log, xs, front);
      SplitLast(ys);
      ConcatAssoc(xs, front, [y]);
      AppendAllSnoc(log, xs + front, y);
      var (middle, es) := AppendAll(AppendAll(log, xs).0, front);
      ConcatAssoc(AppendAll(log, xs).1, es, [Appended(middle, y).1]);
    }
  }

  lemma {:induction false} AppendAllLength<K, D>(log: LogState<K, D>, xs: seq<AppendCall<K, D>>)
    ensures |AppendAll(log, xs).1| == |xs|
  {
    if xs != [] { AppendAllLength(log, xs[..|xs| - 1]); }
  }

  // ---------- What every log keeps ----------

  /** Per run the sequence numbers are 1, 2, 3, ... */
  ghost predicate Dense<K(!new), D>(log: LogState<K, D>) {
    forall run, i :: run in log.eventsByRun && 0 <= i < |log.eventsByRun[run]| ==>
      log.eventsByRun[run][i].runId == run && log.eventsByRun[run][i].seqNo == i + 1
  }

  /** Every key names an event of its run's list. */
  ghost predicate KeysNameEvents<K(!new), D>(log: LogState<K, D>) {
    forall k :: k in log.idempotency ==> log.idempotency[k] in EventsOf(log, k.0)
  }

  ghost predicate WellFormed<K(!new), D>(log: LogState<K, D>) {
    Dense(log) && KeysNameEvents(log)
  }

  lemma OneCallKeepsWellFormed<K(!new), D>(log: LogState<K, D>, x: AppendCall<K, D>)
    requires WellFormed(log)
    ensures WellFormed(Appended(log, x).0)
  {
    var (after, e) := Appended(log, x);
    if Lookup(log, x).None? {
      var es := EventsOf(log, x.runId);
      assert EventsOf(after, x.runId) == es + [e];
      assert e in es + [e] by { assert (es + [e])[|es|] == e; }
      forall k | k in after.idempotency ensures after.idempotency[k] in EventsOf(after, k.0) {
        if x.key.None? || k != (x.runId, x.key.value) {
          assert after.idempotency[k] in EventsOf(log, k.0);
        }
      }
    }
  }

  lemma {:induction false} WellFormedAlways<K(!new), D>(log: LogState<K, D>, xs: seq<AppendCall<K, D>>)
    requires WellFormed(log)
    ensures WellFormed(AppendAll(log, xs).0)
  {
    if xs != [] {
      WellFormedAlways(log, xs[..|xs| - 1]);
      OneCallKeepsWellFormed(AppendAll(log, xs[..|xs| - 1]).0, xs[|xs| - 1]);
    }
  }

  // ---------- Idempotency ----------

  ghost predicate SameKey<K, D>(a: AppendCall<K, D>, b: AppendCall<K, D>) {
    a.key.Some? && a.key == b.key && a.runId == b.runId
  }

  /** The call repeats a key that `log` or an earlier call of `xs` has used. */
  predicate Repeats<K(==), D>(log: LogState<K, D>, xs: seq<AppendCall<K, D>>, x: AppendCall<K, D>) {
    && x.key.Some?
    && ((x.runId, x.key.value) in log.idempotency
        || exists i :: 0 <= i < |xs| && xs[i].key == x.key && xs[i].runId == x.runId)
  }

  /** `xs` with every repeat of a key removed. */
  function WithoutRepeats<K(==), D>(log: LogState<K, D>, xs: seq<AppendCall<K, D>>): (r: seq<AppendCall<K, D>>)
    ensures |r| <= |xs|
  {
    if xs == [] then []
    else
      var front, x := xs[..|xs| - 1], xs[|xs| - 1];
      WithoutRepeats(log, front) + if Repeats(log, front, x) then [] else [x]
  }

  lemma {:induction false} KeysAfter<K, D>(log: LogState<K, D>, xs: seq<AppendCall<K, D>>, x: AppendCall<K, D>)
    ensures Repeats(log, xs, x) <==> Lookup(AppendAll(log, xs).0, x).Some?
  {
    if xs != [] {
      var front, y := xs[..|xs| - 1], xs[|xs| - 1];
      KeysAfter(log, front, x);
      KeysAfter(log, front, y);
      if x.key.Some? {
        if i :| 0 <= i < |xs| && xs[i].key == x.key && xs[i].runId == x.runId {
          if i < |front| { assert front[i] == xs[i]; }
        }
      }
    }
  }

  /** Main result: the log is the log of the calls with later repeats of a key removed. */
  lemma {:induction false} LogIgnoresRepeats<K, D>(log: LogState<K, D>, xs: seq<AppendCall<K, D>>)
    ensures AppendAll(log, xs).0 == AppendAll(log, WithoutRepeats(log, xs)).0
  {
    if xs != [] {
      var front, x := xs[..|xs| - 1], xs[|xs| - 1];
      LogIgnoresRepeats(log, front);
      KeysAfter(log, front, x);
      if !Repeats(log, front, x) {
        AppendAllSnoc(log, WithoutRepeats(log, front), x);
      } else {
        assert WithoutRepeats(log, front) + [] == WithoutRepeats(log, front);
      }
    }
  }

  /** A replayed call returns the event the first call with its key returned. */
  lemma {:induction false} ReplayReturnsOriginal<K, D>(log: LogState<K, D>, xs: seq<AppendCall<K, D>>, i: nat, j: nat)
    requires i < j < |xs| && SameKey(xs[i], xs[j])
    ensures |AppendAll(log, xs).1| == |xs|
    ensures AppendAll(log, xs).1[i] == AppendAll(log, xs).1[j]
  {
    AppendAllLength(log, xs);
    var front := xs[..|xs| - 1];
    AppendAllLength(log, front);
    if j < |front| {
      ReplayReturnsOriginal(log, front, i, j);
    } else {
      KeyHoldsReturned(log, front, i);
    }
  }

  lemma {:induction false} KeyHoldsReturned<K, D>(log: LogState<K, D>, xs: seq<AppendCall<K, D>>, i: nat)
    requires i < |xs| && xs[i].key.Some?
    ensures |AppendAll(log, xs).1| == |xs|
    ensures Lookup(AppendAll(log, xs).0, xs[i]) == Some(AppendAll(log, xs).1[i])
  {
    AppendAllLength(log, xs);
    var front := xs[..|xs| - 1];
    AppendAllLength(log, front);
    if i < |front| { KeyHoldsReturned(log, front, i); }
  }

  /** Calls that share no key with each other or with the log. */
  ghost predicate FreshKeys<K, D>(log: LogState<K, D>, xs: seq<AppendCall<K, D>>) {
    && (forall i :: 0 <= i < |xs| && xs[i].key.Some? ==> (xs[i].runId, xs[i].key.value) !in log.idempotency)
    && (forall i, j :: 0 <= i < j < |xs| ==> !SameKey(xs[i], xs[j]))
  }

  lemma {:induction false} FreshKeysIffNoRepeats<K, D>(log: LogState<K, D>, xs: seq<AppendCall<K, D>>)
    ensures FreshKeys(log, xs) <==> |WithoutRepeats(log, xs)| == |xs|
  {
    if xs != [] {
      var front, x := xs[..|xs| - 1], xs[|xs| - 1];
      FreshKeysIffNoRepeats(log, front);
      if FreshKeys(log, xs) {
        assert FreshKeys(log, front);
        forall i | 0 <= i < |front| ensures x.key.None? || front[i].key != x.key || front[i].runId != x.runId {
          assert !SameKey(xs[i], xs[|xs| - 1]);
        }
      }
      if |WithoutRepeats(log, xs)| == |xs| {
        forall i, j | 0 <= i < j < |xs| ensures !SameKey(xs[i], xs[j]) {
          if j < |front| { assert !SameKey(front[i], front[j]); } else { assert front[i] == xs[i]; }
        }
        forall i | 0 <= i < |xs| && xs[i].key.Some? ensures (xs[i].runId, xs[i].key.value) !in log.idempotency {
          if i < |front| { assert front[i] == xs[i]; }
        }
      }
    }
  }

  lemma OneCallGrows<K, D>(log: LogState<K, D>, x: AppendCall<K, D>)
    ensures EventsOf(Appended(log, x).0, x.runId) ==
            EventsOf(log, x.runId) + if Lookup(log, x).Some? then [] else [Appended(log, x).1]
  {
  }

  /** The log of one run grows by what the calls that are no repeats return. */
  lemma {:induction false} RunGrowsByFirstUses<K, D>(log: LogState<K, D>, run: string, xs: seq<AppendCall<K, D>>)
    requires forall x :: x in xs ==> x.runId == run
    ensures EventsOf(AppendAll(log, xs).0, run) == EventsOf(log, run) + AppendAll(log, WithoutRepeats(log, xs)).1
  {
    if xs != [] {
      var front, x := xs[..|xs| - 1], xs[|xs| - 1];
      var firsts := WithoutRepeats(log, front);
      RunGrowsByFirstUses(log, run, front);
      LogIgnoresRepeats(log, front);
      KeysAfter(log, front, x);
      var before := AppendAll(log, front).0;
      OneCallGrows(before, x);
      if !Repeats(log, front, x) {
        AppendAllSnoc(log, firsts, x);
        ConcatAssoc(EventsOf(log, run), AppendAll(log, firsts).1, [Appended(before, x).1]);
      } else {
        ConcatEmpty(firsts);
        ConcatEmpty(EventsOf(before, run));
      }
    }
  }

  lemma {:induction false} NothingRemoved<K, D>(log: LogState<K, D>, xs: seq<AppendCall<K, D>>)
    requires |WithoutRepeats(log, xs)| == |xs|
    ensures WithoutRepeats(log, xs) == xs
  {
    if xs != [] { NothingRemoved(log, xs[..|xs| - 1]); }
  }

  /**
   Fidelity of a writer that keeps the events it was given back: they are the run's new log entries,
   in order and none twice, exactly when no call repeats a key.
   */
  lemma ReturnedEventsAreTheLog<K, D>(log: LogState<K, D>, run: string, xs: seq<AppendCall<K, D>>)
    requires forall x :: x in xs ==> x.runId == run
    ensures EventsOf(AppendAll(log, xs).0, run) == EventsOf(log, run) + AppendAll(log, xs).1
            <==> FreshKeys(log, xs)
  {
    RunGrowsByFirstUses(log, run, xs);
    FreshKeysIffNoRepeats(log, xs);
    AppendAllLength(log, xs);
    AppendAllLength(log, WithoutRepeats(log, xs));
    if FreshKeys(log, xs) { NothingRemoved(log, xs); }
  }

  /** Calls for one run leave every other run alone. */
  lemma {:induction false} OtherRunsUntouched<K, D>(log: LogState<K, D>, run: string, other: string, xs: seq<AppendCall<K, D>>)
    requires (forall x :: x in xs ==> x.runId == run) && other != run
    ensures EventsOf(AppendAll(log, xs).0, other) == EventsOf(log, other)
  {
    if xs != [] { OtherRunsUntouched(log, run, other, xs[..|xs| - 1]); }
  }

  // ---------- Reading ----------

  function After<D>(es: seq<Event<D>>, fromSeq: int): seq<Event<D>> {
    if es == [] then []
    else (if es[0].seqNo > fromSeq then [es[0]] else []) + After(es[1..], fromSeq)
  }

  /** Python's `events[:limit]`: a negative limit counts from the end. */
  function Slice<D>(es: seq<Event<D>>, limit: Option<int>): seq<Event<D>> {
    match limit
    case None => es
    case Some(n) =>
      if n >= |es| then es else if n >= 0 then es[..n] else if |es| + n > 0 then es[..|es| + n] else []
  }

  function Streamed<K(==), D>(log: LogState<K, D>, run: string, fromSeq: int, limit: Option<int>): seq<Event<D>> {
    Slice(After(EventsOf(log, run), fromSeq), limit)
  }

  lemma {:induction false} AfterIsSuffix<D>(es: seq<Event<D>>, first: nat, fromSeq: int)
    requires forall i :: 0 <= i < |es| ==> es[i].seqNo == first + i + 1
    ensures After(es, fromSeq) ==
            if fromSeq <= first then es else if fromSeq - first >= |es| then [] else es[fromSeq - first..]
  {
    if es != [] {
      AfterIsSuffix(es[1..], first + 1, fromSeq);
    }
  }

  /** A reader that polls a run from the last sequence number it saw, page by page. */
  function Poll<D>(read: (nat, nat) -> seq<Event<D>>, fromSeq: nat, limits: seq<nat>): seq<Event<D>>
    decreases |limits|
  {
    if limits == [] then []
    else
      var page := read(fromSeq, limits[0]);
      page + Poll(read, if page == [] then fromSeq else page[|page| - 1].seqNo, limits[1..])
  }

  function Sum(ns: seq<nat>): nat {
    if ns == [] then 0 else ns[0] + Sum(ns[1..])
  }

  function Take<T>(s: seq<T>, n: nat): seq<T> {
    if n >= |s| then s else s[..n]
  }

  lemma TakeInTwo<T>(s: seq<T>, m: nat, n: nat)
    ensures Take(s, m + n) == Take(s, m) + Take(s[|Take(s, m)|..], n)
  {
  }

  /** The page of `n` events after number `k`. */
  ghost predicate ServesPage<D>(read: (nat, nat) -> seq<Event<D>>, es: seq<Event<D>>, k: nat, n: nat) {
    k <= |es| ==>
      && read(k, n) == Take(es[k..], n)
      && (read(k, n) != [] ==> read(k, n)[|read(k, n)| - 1].seqNo == k + |read(k, n)|)
  }

  /** `read` serves the pages of `es`. */
  ghost predicate Serves<D>(read: (nat, nat) -> seq<Event<D>>, es: seq<Event<D>>) {
    forall k: nat, n: nat :: ServesPage(read, es, k, n)
  }

  lemma PollStep<D>(read: (nat, nat) -> seq<Event<D>>, es: seq<Event<D>>, fromSeq: nat, limits: seq<nat>)
    requires Serves(read, es) && fromSeq <= |es| && limits != []
    ensures var page := Take(es[fromSeq..], limits[0]);
            Poll(read, fromSeq, limits) == page + Poll(read, fromSeq + |page|, limits[1..])
  {
    assert ServesPage(read, es, fromSeq, limits[0]);
  }

  lemma JoinPages<T>(es: seq<T>, fromSeq: nat, m: nat, n: nat)
    requires fromSeq <= |es|
    ensures var page := Take(es[fromSeq..], m);
            && fromSeq + |page| <= |es|
            && page + Take(es[fromSeq + |page|..], n) == Take(es[fromSeq..], m + n)
  {
    TakeInTwo(es[fromSeq..], m, n);
    DropDrop(es, fromSeq, |Take(es[fromSeq..], m)|);
  }

  lemma {:induction false} PollingReads<D>(read: (nat, nat) -> seq<Event<D>>, es: seq<Event<D>>, fromSeq: nat, limits: seq<nat>)
    requires Serves(read, es) && fromSeq <= |es|
    ensures Poll(read, fromSeq, limits) == Take(es[fromSeq..], Sum(limits))
    decreases |limits|
  {
    if limits == [] {
      assert Poll(read, fromSeq, limits) == [] && Sum(limits) == 0;
    } else {
      var n, rest := limits[0], limits[1..];
      var page := Take(es[fromSeq..], n);
      PollStep(read, es, fromSeq, limits);
      JoinPages(es, fromSeq, n, Sum(rest));
      PollingReads(read, es, fromSeq + |page|, rest);
      assert Sum(limits) == n + Sum(rest);
    }
  }

  lemma PageIsNextStretch<D>(es: seq<Event<D>>, fromSeq: nat, limit: nat)
    requires (forall i :: 0 <= i < |es| ==> es[i].seqNo == i + 1) && fromSeq <= |es|
    ensures var page := Slice(After(es, fromSeq), Some(limit));
            && page == Take(es[fromSeq..], limit)
            && (page != [] ==> page[|page| - 1].seqNo == fromSeq + |page|)
  {
    AfterIsSuffix(es, 0, fromSeq);
  }

  /** Whatever the page sizes, polling yields the log in order, without gap or repeat, as far as the pages reach. */
  lemma PollingReadsTheLog<K(!new), D>(log: LogState<K, D>, run: string, limits: seq<nat>)
    requires WellFormed(log)
    ensures Poll((k: nat, n: nat) => Streamed(log, run, k, Some(n)), 0, limits) == Take(EventsOf(log, run), Sum(limits))
  {
    var es := EventsOf(log, run);
    var read := (k: nat, n: nat) => Streamed(log, run, k, Some(n));
    assert Serves(read, es) by {
      forall k: nat, n: nat ensures ServesPage(read, es, k, n) {
        if k <= |es| { PageIsNextStretch(es, k, n); }
      }
    }
    PollingReads(read, es, 0, limits);
    assert es[0..] == es;
  }

  // ---------- The log as the in-memory host keeps it ----------

  class InMemoryEventLog<K(==), D> {
    const timestampMs: int
    var eventsByRun: map<string, seq<Event<D>>>
    var idempotency: map<(string, K), Event<D>>

    constructor (timestampMs: int)
      ensures State() == EmptyLog(timestampMs)
    {
      this.timestampMs := timestampMs;
      eventsByRun, idempotency := map[], map[];
    }

    function State(): LogState<K, D>
      reads this
    {
      LogState(timestampMs, eventsByRun, idempotency)
    }

    method AppendEvent(runId: string, draft: Draft<D>, key: Option<K>) returns (event: Event<D>)
      modifies this
      ensures State() == Appended(old(State()), AppendCall(runId, draft, key)).0
      ensures event == Appended(old(State()), AppendCall(runId, draft, key)).1
    {
      if key.Some? && (runId, key.value) in idempotency {
        return idempotency[(runId, key.value)];
      }
      if runId !in eventsByRun {
        eventsByRun := eventsByRun[runId := []];
      }
      var events := eventsByRun[runId];
      event := Event(runId, |events| + 1, timestampMs + |events|, draft.body);
      eventsByRun := eventsByRun[runId := events + [event]];
      if key.Some? {
        idempotency := idempotency[(runId, key.value) := event];
      }
    }

    method StreamEvents(runId: string, fromSeq: int, limit: Option<int>) returns (events: seq<Event<D>>)
      ensures events == Streamed(State(), runId, fromSeq, limit)
    {
      var all := if runId in eventsByRun then eventsByRun[runId] else [];
      events := [];
      for i := 0 to |all|
        invariant events + After(all[i..], fromSeq) == After(all, fromSeq)
      {
        DropDrop(all, i, 1);
        ghost var before, later := events, After(all[i + 1..], fromSeq);
        if all[i].seqNo > fromSeq {
          events := events + [all[i]];
          ConcatAssoc(before, [all[i]], later);
        } else {
          ConcatEmpty(later);
        }
      }
      ConcatEmpty(events);
      events := Slice(events, limit);
    }
  }
}
