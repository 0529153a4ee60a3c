/**
 What the Anthropic parser gives for whole streams: printed blocks come back, whatever the fragments
 and the interleaving, and a stream cut short gives prefixes of what it would have given.
 */
module AnthropicStreams {
  import opened Options
  import opened SeqFacts
  import opened StandardEvents
  import opened AnthropicParser

  // ---------- The parser seen through one index ----------

  /** What the session holds for an index. */
  datatype Open =
    | NotOpen
    | OpenText(text: string)
    | OpenReasoning(reasoning: Reasoning)
    | OpenTool(tool: ToolState)

  function ViewAt(s: Session, i: int): Open
    requires Valid(s)
  {
    match KindAt(s, i)
    case TextKind => OpenText(s.textBuffers[i])
    case ThinkingKind => OpenReasoning(s.reasoningState[i])
    case RedactedKind => OpenReasoning(s.reasoningState[i])
    case ToolKind => OpenTool(s.toolState[i])
    case OtherKind => NotOpen
  }

  function Opened(start: StartBlock): Open {
    match start
    case StartText => OpenText("")
    case StartThinking(signature) => OpenReasoning(Reasoning("", signature, false, None))
    case StartRedacted(data) => OpenReasoning(Reasoning("", None, true, data))
    case StartTool(id, name) => OpenTool(ToolState(id, name, ""))
    case StartOther => NotOpen
  }

  function Extended(o: Open, d: Delta): Open {
    match (o, d)
    case (OpenText(text), TextPiece(t)) => OpenText(text + t)
    case (OpenReasoning(r), ThinkingPiece(t)) => if r.redacted then o else OpenReasoning(r.(text := r.text + t))
    case (OpenReasoning(r), SignaturePiece(g)) => if r.redacted then o else OpenReasoning(r.(signature := g))
    case (OpenTool(t), JsonPiece(j)) => OpenTool(t.(args := t.args + j))
    case _ => o
  }

  function Stepped(o: Open, c: Chunk): Open {
    match c
    case BlockStart(_, start) => Opened(start)
    case BlockDelta(_, d) => Extended(o, d)
    case _ => o
  }

  predicate Touches(c: Chunk, i: int) {
    (c.BlockStart? || c.BlockDelta? || c.BlockStop?) && c.index == i
  }

  /** The chunks of one index, in order. */
  function Only(cs: seq<Chunk>, i: int): seq<Chunk> {
    if cs == [] then []
    else Only(cs[..|cs| - 1], i) + if Touches(cs[|cs| - 1], i) then [cs[|cs| - 1]] else []
  }

  function OpenAfter(cs: seq<Chunk>): Open {
    if cs == [] then NotOpen else Stepped(OpenAfter(cs[..|cs| - 1]), cs[|cs| - 1])
  }

  lemma StartIsLocal(s: Session, j: int, start: StartBlock, i: int)
    requires Valid(s)
    ensures Valid(OnStart(s, j, start).session)
    ensures ViewAt(OnStart(s, j, start).session, i) == if i == j then Opened(start) else ViewAt(s, i)
  {
    StartKeepsValid(s, j, start);
    if i in s.blockKinds { assert ValidAt(s, i); }
  }

  lemma DeltaIsLocal(s: Session, j: int, d: Delta, i: int)
    requires Valid(s)
    ensures Valid(OnDelta(s, j, d).session)
    ensures ViewAt(OnDelta(s, j, d).session, i) == if i == j then Extended(ViewAt(s, i), d) else ViewAt(s, i)
  {
    DeltaKeepsValid(s, j, d);
    if i in s.blockKinds { assert ValidAt(s, i); }
  }

  lemma StopIsLocal(loads: Loads, s: Session, j: int, i: int)
    requires Valid(s)
    ensures Valid(OnStop(loads, s, j).session)
    ensures ViewAt(OnStop(loads, s, j).session, i) == ViewAt(s, i)
  {
    StopKeepsValid(loads, s, j);
    var s' := OnStop(loads, s, j).session;
    assert s'.blockKinds == s.blockKinds && s'.textBuffers == s.textBuffers;
    assert s'.reasoningState == s.reasoningState && s'.toolState == s.toolState;
  }

  /** Feeding a chunk changes what the session holds for the chunk's index and for no other. */
  lemma FeedIsLocal(loads: Loads, s: Session, c: Chunk, i: int)
    requires Valid(s)
    ensures Valid(Feed(loads, s, c).session)
    ensures ViewAt(Feed(loads, s, c).session, i) == if Touches(c, i) then Stepped(ViewAt(s, i), c) else ViewAt(s, i)
  {
    FeedKeepsValid(loads, s, c);
    match c
    case BlockStart(j, start) => StartIsLocal(s, j, start, i);
    case BlockDelta(j, d) => DeltaIsLocal(s, j, d, i);
    case BlockStop(j) => StopIsLocal(loads, s, j, i);
    case _ =>
  }

  /** So what it holds for an index is decided by that index's chunks alone. */
  lemma {:induction false} ViewFollowsProjection(loads: Loads, cs: seq<Chunk>, i: int)
    requires !FeedAll(loads, cs).raised
    ensures ViewAt(FeedAll(loads, cs).session, i) == OpenAfter(Only(cs, i))
  {
    if cs != [] {
      var front, c := cs[..|cs| - 1], cs[|cs| - 1];
      ViewFollowsProjection(loads, front, i);
      FeedIsLocal(loads, FeedAll(loads, front).session, c, i);
      if Touches(c, i) { FrontOfSnoc(Only(front, i), c); } else { ConcatEmpty(Only(front, i)); }
    }
  }

  // ---------- Printing blocks ----------

  datatype SentBlock =
    | SentText(text: string)
    | SentThinking(text: string, signature: Option<string>)
    | SentRedacted(data: string)
    | SentTool(id: string, name: string, rawArgs: string)

  function TextOf(ds: seq<Chunk>): string {
    if ds == [] then ""
    else TextOf(ds[..|ds| - 1]) + match ds[|ds| - 1] case BlockDelta(_, TextPiece(t)) => t case _ => ""
  }

  function ThinkingOf(ds: seq<Chunk>): string {
    if ds == [] then ""
    else ThinkingOf(ds[..|ds| - 1]) + match ds[|ds| - 1] case BlockDelta(_, ThinkingPiece(t)) => t case _ => ""
  }

  function JsonOf(ds: seq<Chunk>): string {
    if ds == [] then ""
    else JsonOf(ds[..|ds| - 1]) + match ds[|ds| - 1] case BlockDelta(_, JsonPiece(j)) => j case _ => ""
  }

  function SignatureOf(first: Option<string>, ds: seq<Chunk>): Option<string> {
    if ds == [] then first
    else match ds[|ds| - 1]
         case BlockDelta(_, SignaturePiece(g)) => g
         case _ => SignatureOf(first, ds[..|ds| - 1])
  }

  /** `ds` is a fragmentation of the block that `start` opens. */
  ghost predicate Fragments(b: SentBlock, start: StartBlock, ds: seq<Chunk>) {
    match b
    case SentText(text) => start == StartText && TextOf(ds) == text
    case SentThinking(text, signature) =>
      start.StartThinking? && ThinkingOf(ds) == text && SignatureOf(start.signature, ds) == signature
    case SentRedacted(data) => start == StartRedacted(Some(data)) && data != ""
    case SentTool(id, name, rawArgs) => start == StartTool(id, name) && JsonOf(ds) == rawArgs
  }

  /** One start, fragments of the block, one stop. */
  ghost predicate Prints(b: SentBlock, cs: seq<Chunk>) {
    && |cs| >= 2
    && cs[0].BlockStart? && cs[|cs| - 1].BlockStop?
    && (forall k :: 0 < k < |cs| - 1 ==> cs[k].BlockDelta?)
    && Fragments(b, cs[0].start, cs[1..|cs| - 1])
  }

  /** The content block a sent block stands for. */
  function BlockOf(loads: Loads, i: int, b: SentBlock): Block {
    match b
    case SentText(text) => TextBlock(text)
    case SentThinking(text, signature) => ReasoningBlock(text, signature, false, None)
    case SentRedacted(data) => ReasoningBlock("", None, true, Some(data))
    case SentTool(id, name, rawArgs) => ToolBlock(loads, id, name, rawArgs, i)
  }

  function Gathered(start: StartBlock, ds: seq<Chunk>): Open {
    match start
    case StartText => OpenText(TextOf(ds))
    case StartThinking(signature) => OpenReasoning(Reasoning(ThinkingOf(ds), SignatureOf(signature, ds), false, None))
    case StartRedacted(data) => OpenReasoning(Reasoning("", None, true, data))
    case StartTool(id, name) => OpenTool(ToolState(id, name, JsonOf(ds)))
    case StartOther => NotOpen
  }

  lemma {:induction false} DeltasGather(c: Chunk, ds: seq<Chunk>)
    requires c.BlockStart? && forall k :: 0 <= k < |ds| ==> ds[k].BlockDelta?
    ensures OpenAfter([c] + ds) == Gathered(c.start, ds)
  {
    if ds == [] {
      assert [c] + ds == [c] && [c][..0] == [];
    } else {
      var front, d := ds[..|ds| - 1], ds[|ds| - 1];
      DeltasGather(c, front);
      assert ([c] + ds)[..|[c] + ds| - 1] == [c] + front;
      assert OpenAfter([c] + ds) == Extended(Gathered(c.start, front), d.delta);
    }
  }

  /** Just before its stop a printed block is fully gathered. */
  lemma PrintedIsGathered(b: SentBlock, cs: seq<Chunk>)
    requires Prints(b, cs)
    ensures OpenAfter(cs[..|cs| - 1]) == Gathered(cs[0].start, cs[1..|cs| - 1])
  {
    DeltasGather(cs[0], cs[1..|cs| - 1]);
    assert cs[..|cs| - 1] == [cs[0]] + cs[1..|cs| - 1];
  }

  /** Stopping an index whose printed block is gathered appends that block. */
  lemma StopAppends(loads: Loads, s: Session, i: int, b: SentBlock, start: StartBlock, ds: seq<Chunk>)
    requires Valid(s) && Fragments(b, start, ds) && ViewAt(s, i) == Gathered(start, ds)
    ensures !OnStop(loads, s, i).raised
    ensures OnStop(loads, s, i).session.completedBlocks == s.completedBlocks + [BlockOf(loads, i, b)]
  {
    if i in s.blockKinds { assert ValidAt(s, i); }
  }

  // ---------- The round trip ----------

  /** The indices of the stop chunks, in order. */
  function StopOrder(cs: seq<Chunk>): seq<int> {
    if cs == [] then []
    else StopOrder(cs[..|cs| - 1]) + if cs[|cs| - 1].BlockStop? then [cs[|cs| - 1].index] else []
  }

  function BlocksInOrder(loads: Loads, sent: map<int, SentBlock>, order: seq<int>): seq<Block>
    requires forall k :: 0 <= k < |order| ==> order[k] in sent
  {
    if order == [] then []
    else BlocksInOrder(loads, sent, order[..|order| - 1]) + [BlockOf(loads, order[|order| - 1], sent[order[|order| - 1]])]
  }

  /** A stream that prints the blocks of `sent`: any fragments, any interleaving, any other chunks but errors and the end. */
  ghost predicate Carries(cs: seq<Chunk>, sent: map<int, SentBlock>) {
    && (forall i :: i in sent ==> Prints(sent[i], Only(cs, i)))
    && (forall k :: 0 <= k < |cs| ==> !cs[k].StreamError? && !cs[k].MessageStop?)
    && (forall k :: 0 <= k < |cs| && (cs[k].BlockStart? || cs[k].BlockDelta? || cs[k].BlockStop?) ==> cs[k].index in sent)
  }

  lemma {:induction false} OnlyPrefix(cs: seq<Chunk>, n: nat, i: int)
    requires n <= |cs|
    ensures Only(cs[..n], i) <= Only(cs, i)
  {
    if n == |cs| {
      assert cs[..n] == cs;
    } else {
      var front := cs[..|cs| - 1];
      OnlyPrefix(front, n, i);
      assert front[..n] == cs[..n];
    }
  }

  lemma OnlySnoc(cs: seq<Chunk>, n: nat, i: int)
    requires n < |cs|
    ensures Only(cs[..n + 1], i) == Only(cs[..n], i) + if Touches(cs[n], i) then [cs[n]] else []
  {
    assert cs[..n + 1][..n] == cs[..n];
  }

  lemma FeedAllSnoc(loads: Loads, cs: seq<Chunk>, n: nat)
    requires n < |cs| && !FeedAll(loads, cs[..n]).raised
    ensures FeedAll(loads, cs[..n + 1]).session == Feed(loads, FeedAll(loads, cs[..n]).session, cs[n]).session
    ensures FeedAll(loads, cs[..n + 1]).raised == Feed(loads, FeedAll(loads, cs[..n]).session, cs[n]).raised
  {
    assert cs[..n + 1][..n] == cs[..n];
  }

  lemma StopOrderSnoc(cs: seq<Chunk>, n: nat)
    requires n < |cs|
    ensures StopOrder(cs[..n + 1]) == StopOrder(cs[..n]) + if cs[n].BlockStop? then [cs[n].index] else []
  {
    assert cs[..n + 1][..n] == cs[..n];
  }

  lemma BlocksSnoc(loads: Loads, sent: map<int, SentBlock>, order: seq<int>, i: int)
    requires (forall k :: 0 <= k < |order| ==> order[k] in sent) && i in sent
    ensures BlocksInOrder(loads, sent, order + [i]) == BlocksInOrder(loads, sent, order) + [BlockOf(loads, i, sent[i])]
  {
    assert (order + [i])[..|order|] == order;
  }

  /** The stop chunk in the middle of a carrying stream is the last one of its index. */
  lemma StopIsLast(cs: seq<Chunk>, sent: map<int, SentBlock>, n: nat)
    requires Carries(cs, sent) && n < |cs| && cs[n].BlockStop?
    ensures var whole := Only(cs, cs[n].index); Only(cs[..n], cs[n].index) == whole[..|whole| - 1]
  {
    var i := cs[n].index;
    var whole, before := Only(cs, i), Only(cs[..n], i);
    OnlySnoc(cs, n, i);
    OnlyPrefix(cs, n + 1, i);
    assert before + [cs[n]] <= whole;
    assert whole[|before|] == cs[n];
    assert Prints(sent[i], whole);
  }

  lemma OtherChunksAddNoBlock(loads: Loads, s: Session, c: Chunk)
    requires Valid(s) && !c.BlockStop? && !c.StreamError?
    ensures !Feed(loads, s, c).raised && Feed(loads, s, c).session.completedBlocks == s.completedBlocks
  {
  }

  /** After `n` chunks the completed blocks are those sent, in the order they stopped. */
  ghost predicate CompletedSoFar(loads: Loads, cs: seq<Chunk>, sent: map<int, SentBlock>, n: nat)
    requires n <= |cs|
  {
    && !FeedAll(loads, cs[..n]).raised
    && (forall k :: 0 <= k < |StopOrder(cs[..n])| ==> StopOrder(cs[..n])[k] in sent)
    && FeedAll(loads, cs[..n]).session.completedBlocks == BlocksInOrder(loads, sent, StopOrder(cs[..n]))
  }

  lemma StopCompletesOneMore(loads: Loads, cs: seq<Chunk>, sent: map<int, SentBlock>, n: nat)
    requires Carries(cs, sent) && n < |cs| && cs[n].BlockStop? && CompletedSoFar(loads, cs, sent, n)
    ensures CompletedSoFar(loads, cs, sent, n + 1)
  {
    FeedAllSnoc(loads, cs, n);
    StopOrderSnoc(cs, n);
    StopCompletes(loads, cs, sent, n);
    BlocksSnoc(loads, sent, StopOrder(cs[..n]), cs[n].index);
  }

  lemma OthersCompleteNoMore(loads: Loads, cs: seq<Chunk>, sent: map<int, SentBlock>, n: nat)
    requires Carries(cs, sent) && n < |cs| && !cs[n].BlockStop? && CompletedSoFar(loads, cs, sent, n)
    ensures CompletedSoFar(loads, cs, sent, n + 1)
  {
    FeedAllSnoc(loads, cs, n);
    StopOrderSnoc(cs, n);
    OtherChunksAddNoBlock(loads, FeedAll(loads, cs[..n]).session, cs[n]);
    ConcatEmpty(StopOrder(cs[..n]));
  }

  lemma {:induction false} CompletedBlocksSoFar(loads: Loads, cs: seq<Chunk>, sent: map<int, SentBlock>, n: nat)
    requires Carries(cs, sent) && n <= |cs|
    ensures CompletedSoFar(loads, cs, sent, n)
  {
    if n > 0 {
      CompletedBlocksSoFar(loads, cs, sent, n - 1);
      if cs[n - 1].BlockStop? { StopCompletesOneMore(loads, cs, sent, n - 1); } else { OthersCompleteNoMore(loads, cs, sent, n - 1); }
    }
  }

  lemma StopCompletes(loads: Loads, cs: seq<Chunk>, sent: map<int, SentBlock>, n: nat)
    requires Carries(cs, sent) && n < |cs| && cs[n].BlockStop? && !FeedAll(loads, cs[..n]).raised
    ensures var s := FeedAll(loads, cs[..n]).session;
            var i := cs[n].index;
            && i in sent && !Feed(loads, s, cs[n]).raised
            && Feed(loads, s, cs[n]).session.completedBlocks == s.completedBlocks + [BlockOf(loads, i, sent[i])]
  {
    var i := cs[n].index;
    var whole := Only(cs, i);
    StopIsLast(cs, sent, n);
    ViewFollowsProjection(loads, cs[..n], i);
    PrintedIsGathered(sent[i], whole);
    StopAppends(loads, FeedAll(loads, cs[..n]).session, i, sent[i], whole[0].start, whole[1..|whole| - 1]);
  }

  lemma OnlyMessageStopIsDone(loads: Loads, s: Session, c: Chunk)
    requires Valid(s) && !c.MessageStop?
    ensures Feed(loads, s, c).session.turnDoneEmitted == s.turnDoneEmitted
    ensures forall k :: 0 <= k < |Feed(loads, s, c).events| ==> !Feed(loads, s, c).events[k].TurnDone?
  {
  }

  lemma {:induction false} NotDoneBeforeStop(loads: Loads, cs: seq<Chunk>)
    requires forall k :: 0 <= k < |cs| ==> !cs[k].MessageStop?
    ensures !FeedAll(loads, cs).session.turnDoneEmitted
  {
    if cs != [] {
      var front, c := cs[..|cs| - 1], cs[|cs| - 1];
      NotDoneBeforeStop(loads, front);
      OnlyMessageStopIsDone(loads, FeedAll(loads, front).session, c);
    }
  }

  /**
   Main result: a stream that carries the sent blocks, in any fragments and any interleaving, ends in one
   TurnDone whose content is exactly those blocks in the order they stopped; a `message_stop` chunk and
   the end of the stream give the same event.
   */
  lemma RoundTrip(loads: Loads, cs: seq<Chunk>, sent: map<int, SentBlock>)
    requires Carries(cs, sent)
    ensures var fed := FeedAll(loads, cs);
            && !fed.raised
            && (forall k :: 0 <= k < |StopOrder(cs)| ==> StopOrder(cs)[k] in sent)
            && Finalize(fed.session) == [DoneEvent(fed.session, BlocksInOrder(loads, sent, StopOrder(cs)), fed.session.rawStopReason)]
            && Feed(loads, fed.session, MessageStop).events == Finalize(fed.session)
  {
    CompletedBlocksSoFar(loads, cs, sent, |cs|);
    assert cs[..|cs|] == cs;
    NotDoneBeforeStop(loads, cs);
  }

  /** Every sent block is in that order exactly once. */
  lemma {:induction false} StopOrderCounts(cs: seq<Chunk>, i: int)
    ensures multiset(StopOrder(cs))[i] == |StopsOf(Only(cs, i))|
  {
    if cs != [] {
      var front, c := cs[..|cs| - 1], cs[|cs| - 1];
      StopOrderCounts(front, i);
      if Touches(c, i) { FrontOfSnoc(Only(front, i), c); } else { ConcatEmpty(Only(front, i)); }
    }
  }

  function StopsOf(cs: seq<Chunk>): seq<Chunk> {
    if cs == [] then []
    else StopsOf(cs[..|cs| - 1]) + if cs[|cs| - 1].BlockStop? then [cs[|cs| - 1]] else []
  }

  lemma {:induction false} NoStops(cs: seq<Chunk>)
    requires forall k :: 0 <= k < |cs| ==> !cs[k].BlockStop?
    ensures StopsOf(cs) == []
  {
    if cs != [] { NoStops(cs[..|cs| - 1]); }
  }

  lemma EachSentBlockOnce(cs: seq<Chunk>, sent: map<int, SentBlock>, i: int)
    requires Carries(cs, sent) && i in sent
    ensures multiset(StopOrder(cs))[i] == 1
  {
    var whole := Only(cs, i);
    StopOrderCounts(cs, i);
    NoStops(whole[..|whole| - 1]);
  }

  // ---------- Streams cut short ----------

  /** No index is started twice. */
  ghost predicate StartsOnce(cs: seq<Chunk>) {
    forall j, k :: 0 <= j < k < |cs| && cs[j].BlockStart? && cs[k].BlockStart? ==> cs[j].index != cs[k].index
  }

  /** The text, the reasoning or the raw arguments gathered so far. */
  function Payload(o: Open): string {
    match o
    case NotOpen => ""
    case OpenText(text) => text
    case OpenReasoning(r) => r.text
    case OpenTool(t) => t.args
  }

  lemma {:induction false} OpenNeedsStart(cs: seq<Chunk>)
    requires forall k :: 0 <= k < |cs| ==> !cs[k].BlockStart?
    ensures OpenAfter(cs) == NotOpen
  {
    if cs != [] { OpenNeedsStart(cs[..|cs| - 1]); }
  }

  lemma {:induction false} OnlyOf(cs: seq<Chunk>, i: int)
    ensures forall k :: 0 <= k < |Only(cs, i)| ==> Only(cs, i)[k] in cs && Touches(Only(cs, i)[k], i)
  {
    if cs != [] {
      OnlyOf(cs[..|cs| - 1], i);
      assert forall c :: c in cs[..|cs| - 1] ==> c in cs;
    }
  }

  /** One more chunk of a stream that starts no index twice only adds to an index's payload. */
  lemma PayloadStep(cs: seq<Chunk>, n: nat, i: int)
    requires StartsOnce(cs) && n < |cs|
    ensures Payload(OpenAfter(Only(cs[..n], i))) <= Payload(OpenAfter(Only(cs[..n + 1], i)))
  {
    var before := Only(cs[..n], i);
    OnlySnoc(cs, n, i);
    if Touches(cs[n], i) {
      FrontOfSnoc(before, cs[n]);
      if cs[n].BlockStart? {
        OnlyOf(cs[..n], i);
        forall k | 0 <= k < |before| ensures !before[k].BlockStart? {
          var j :| 0 <= j < n && cs[..n][j] == before[k];
          assert cs[j] == before[k];
        }
        OpenNeedsStart(before);
      }
    } else {
      ConcatEmpty(before);
    }
  }

  lemma {:induction false} PayloadsGrow(cs: seq<Chunk>, m: nat, n: nat, i: int)
    requires StartsOnce(cs) && m <= n <= |cs|
    ensures Payload(OpenAfter(Only(cs[..m], i))) <= Payload(OpenAfter(Only(cs[..n], i)))
  {
    if m < n {
      PayloadsGrow(cs, m, n - 1, i);
      PayloadStep(cs, n - 1, i);
    }
  }

  lemma {:induction false} CompletedBlocksGrow(loads: Loads, cs: seq<Chunk>, n: nat)
    requires n <= |cs| && !FeedAll(loads, cs).raised
    ensures !FeedAll(loads, cs[..n]).raised
    ensures FeedAll(loads, cs[..n]).session.completedBlocks <= FeedAll(loads, cs).session.completedBlocks
  {
    if n == |cs| {
      assert cs[..n] == cs;
    } else {
      var front := cs[..|cs| - 1];
      CompletedBlocksGrow(loads, front, n);
      assert front[..n] == cs[..n];
      FeedOnlyAddsBlocks(loads, FeedAll(loads, front).session, cs[|cs| - 1]);
    }
  }

  lemma FeedOnlyAddsBlocks(loads: Loads, s: Session, c: Chunk)
    requires Valid(s)
    ensures s.completedBlocks <= Feed(loads, s, c).session.completedBlocks
  {
  }

  /** The block recovered for an open index carries that index's payload. */
  ghost predicate Carried(loads: Loads, i: int, block: Block, payload: string) {
    match block
    case TextBlock(text) => text == payload
    case ReasoningBlock(text, _, _, _) => text == payload
    case ToolUseBlock(_, _, input) => ParseArguments(loads, payload) == Some(input)
    case InvalidToolCall(_, _, rawArgs, index) => rawArgs == payload && index == i && ParseArguments(loads, payload).None?
  }

  /**
   A stream that starts no index twice and is cut after n chunks: every block completed by then is also
   the next block of the whole stream, and what is recovered for an open block carries a prefix of the
   text, reasoning or raw arguments the whole stream gathers for it.
   */
  lemma CutStreamsGivePrefixes(loads: Loads, cs: seq<Chunk>, n: nat, i: int)
    requires StartsOnce(cs) && n <= |cs| && !FeedAll(loads, cs).raised
    ensures var cut, whole := FeedAll(loads, cs[..n]), FeedAll(loads, cs);
            && !cut.raised
            && cut.session.completedBlocks <= whole.session.completedBlocks
            && Payload(ViewAt(cut.session, i)) <= Payload(ViewAt(whole.session, i))
            && (PartialBlock(loads, cut.session, i).Some? ==>
                  Carried(loads, i, PartialBlock(loads, cut.session, i).value, Payload(ViewAt(cut.session, i))))
  {
    CompletedBlocksGrow(loads, cs, n);
    PayloadsGrow(cs, n, |cs|, i);
    assert cs[..|cs|] == cs;
    ViewFollowsProjection(loads, cs[..n], i);
    ViewFollowsProjection(loads, cs, i);
    RecoveredIsCarried(loads, FeedAll(loads, cs[..n]).session, i, Only(cs[..n], i));
  }

  lemma {:induction false} RedactedStaysBlank(cs: seq<Chunk>)
    ensures OpenAfter(cs).OpenReasoning? && OpenAfter(cs).reasoning.redacted ==> OpenAfter(cs).reasoning.text == ""
  {
    if cs != [] { RedactedStaysBlank(cs[..|cs| - 1]); }
  }

  lemma RecoveredIsCarried(loads: Loads, s: Session, i: int, cs: seq<Chunk>)
    requires Valid(s) && ViewAt(s, i) == OpenAfter(cs)
    ensures PartialBlock(loads, s, i).Some? ==>
              Carried(loads, i, PartialBlock(loads, s, i).value, Payload(ViewAt(s, i)))
  {
    RedactedStaysBlank(cs);
    if i in s.blockKinds { assert ValidAt(s, i); }
  }
}
