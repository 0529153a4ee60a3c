/**
 The guards stacked around the host's tool executor: a cap on calls per run and a cap on repeats of
 one (tool, input) signature. The executor is an adversary: its answer may depend on all its calls.
 */
module ToolGuards {
  import opened Options
  import opened JsonSchema

  datatype ToolRequest = ToolRequest(name: string, input: Json, toolUseId: string)

  /** The `type` entry of an error; an executor may put any of them into its results. */
  datatype ErrorType =
    | CancelledError
    | SkippedAfterPause
    | RepeatedToolCall
    | MaxToolCalls
    | ToolNotDeclared
    | ToolBlocked
    | ToolNotAllowed
    | ConfirmationRequired
    | ToolInputInvalid
    | ExecutorMissing
    | OtherError(name: string)

  /** `executed` is the flag kept in the result's metadata. */
  datatype ToolResult = ToolResult(ok: bool, content: string, toolUseId: string, error: Option<ErrorType>, executed: bool)

  datatype Outcome = Returned(result: ToolResult) | Raised(error: ErrorType)

  /** What the host executor answers, given every call it has had, the present one last. */
  type Behaviour = seq<ToolRequest> -> Outcome

  /** The digest of a tool input. Nothing is assumed of it: equal digests count as equal inputs. */
  type Digest = Json -> string

  datatype Signature = Signature(name: string, digest: string)

  datatype RepeatPolicy = RepeatPolicy(disabled: bool, threshold: Option<nat>)

  function RepeatThreshold(name: string, policies: map<string, RepeatPolicy>, default: Option<nat>): Option<nat> {
    if name !in policies then default
    else if policies[name].disabled then None
    else if policies[name].threshold.Some? then policies[name].threshold
    else default
  }

  /** `texts` are the messages put into the results of calls the kernel does not run. */
  datatype GuardConfig = GuardConfig(
    maxToolCalls: Option<nat>,
    defaultThreshold: Option<nat>,
    policies: map<string, RepeatPolicy>,
    digest: Digest,
    behaviour: Behaviour,
    texts: ErrorType -> string)

  /** `calls` are the calls that reached the host executor. */
  datatype GuardState = GuardState(calls: seq<ToolRequest>, seen: nat, signatures: seq<Signature>)

  function SignatureOf(digest: Digest, req: ToolRequest): Signature {
    Signature(req.name, digest(req.input))
  }

  function Occurrences(signatures: seq<Signature>, s: Signature): nat {
    multiset(signatures)[s]
  }

  function Denial(cfg: GuardConfig, req: ToolRequest, error: ErrorType): ToolResult {
    ToolResult(false, cfg.texts(error), req.toolUseId, Some(error), false)
  }

  function ExecuteDirect(behaviour: Behaviour, g: GuardState, req: ToolRequest): (GuardState, Outcome) {
    var calls := g.calls + [req];
    (g.(calls := calls), behaviour(calls))
  }

  function ExecuteCapped(cfg: GuardConfig, g: GuardState, req: ToolRequest): (GuardState, Outcome) {
    match cfg.maxToolCalls
    case None => ExecuteDirect(cfg.behaviour, g, req)
    case Some(max) =>
      if g.seen >= max then (g, Returned(Denial(cfg, req, MaxToolCalls)))
      else ExecuteDirect(cfg.behaviour, g.(seen := g.seen + 1), req)
  }

  function ExecuteGuarded(cfg: GuardConfig, g: GuardState, req: ToolRequest): (GuardState, Outcome) {
    match RepeatThreshold(req.name, cfg.policies, cfg.defaultThreshold)
    case None => ExecuteCapped(cfg, g, req)
    case Some(threshold) =>
      var candidate := SignatureOf(cfg.digest, req);
      if Occurrences(g.signatures, candidate) + 1 >= threshold
      then (g, Returned(Denial(cfg, req, RepeatedToolCall)))
      else ExecuteCapped(cfg, g.(signatures := g.signatures + [candidate]), req)
  }

  // ---------- What the guards keep ----------

  /** Calls that reached the executor with a given signature. */
  function CallsWith(digest: Digest, calls: seq<ToolRequest>, s: Signature): nat {
    if calls == [] then 0
    else CallsWith(digest, calls[..|calls| - 1], s) + if SignatureOf(digest, calls[|calls| - 1]) == s then 1 else 0
  }

  /** The repeat guard's count of a guarded signature bounds the calls made with it and stays below its threshold. */
  ghost predicate RepeatsBounded(cfg: GuardConfig, g: GuardState) {
    forall s: Signature :: RepeatThreshold(s.name, cfg.policies, cfg.defaultThreshold).Some? ==>
      var threshold := RepeatThreshold(s.name, cfg.policies, cfg.defaultThreshold).value;
      CallsWith(cfg.digest, g.calls, s) <= Occurrences(g.signatures, s)
      && (Occurrences(g.signatures, s) == 0 || Occurrences(g.signatures, s) < threshold)
  }

  /** The cap's count bounds the calls made. */
  ghost predicate CallsBounded(cfg: GuardConfig, g: GuardState) {
    cfg.maxToolCalls.Some? ==> |g.calls| <= g.seen <= cfg.maxToolCalls.value
  }

  ghost predicate GuardInv(cfg: GuardConfig, g: GuardState) {
    CallsBounded(cfg, g) && RepeatsBounded(cfg, g)
  }

  lemma CappedExtendsCalls(cfg: GuardConfig, g: GuardState, req: ToolRequest)
    ensures var g' := ExecuteCapped(cfg, g, req).0;
            g'.signatures == g.signatures && (g'.calls == g.calls || g'.calls == g.calls + [req])
  {
  }

  lemma CallsWithSnoc(digest: Digest, calls: seq<ToolRequest>, req: ToolRequest, s: Signature)
    ensures CallsWith(digest, calls + [req], s) ==
            CallsWith(digest, calls, s) + if SignatureOf(digest, req) == s then 1 else 0
  {
    assert (calls + [req])[..|calls|] == calls;
  }

  lemma ExecutionKeepsRepeatsBounded(cfg: GuardConfig, g: GuardState, req: ToolRequest)
    requires RepeatsBounded(cfg, g)
    ensures RepeatsBounded(cfg, ExecuteGuarded(cfg, g, req).0)
  {
    var threshold := RepeatThreshold(req.name, cfg.policies, cfg.defaultThreshold);
    var candidate := SignatureOf(cfg.digest, req);
    var g' := ExecuteGuarded(cfg, g, req).0;
    CappedExtendsCalls(cfg, g, req);
    CappedExtendsCalls(cfg, g.(signatures := g.signatures + [candidate]), req);
    forall s: Signature | RepeatThreshold(s.name, cfg.policies, cfg.defaultThreshold).Some?
      ensures CallsWith(cfg.digest, g'.calls, s) <= Occurrences(g'.signatures, s)
      ensures Occurrences(g'.signatures, s) == 0
              || Occurrences(g'.signatures, s) < RepeatThreshold(s.name, cfg.policies, cfg.defaultThreshold).value
    {
      CallsWithSnoc(cfg.digest, g.calls, req, s);
    }
  }

  /** Main result: every guarded execution, whatever the executor answers, keeps both bounds. */
  lemma ExecutionKeepsGuards(cfg: GuardConfig, g: GuardState, req: ToolRequest)
    requires GuardInv(cfg, g)
    ensures GuardInv(cfg, ExecuteGuarded(cfg, g, req).0)
  {
    ExecutionKeepsRepeatsBounded(cfg, g, req);
  }

  /** An execution adds at most one call, this request's, and counts it if there is a cap. */
  lemma ExecutionAddsAtMostOneCall(cfg: GuardConfig, g: GuardState, req: ToolRequest)
    ensures var g' := ExecuteGuarded(cfg, g, req).0;
            && (g'.calls == g.calls || g'.calls == g.calls + [req])
            && g.seen <= g'.seen <= g.seen + 1
  {
  }

  // ---------- Executors that name the call they answer ----------

  predicate Names(outcome: Outcome, id: string) {
    outcome.Returned? ==> outcome.result.toolUseId == "" || outcome.result.toolUseId == id
  }

  predicate NamesLast(behaviour: Behaviour, calls: seq<ToolRequest>) {
    calls != [] ==> Names(behaviour(calls), calls[|calls| - 1].toolUseId)
  }

  /** The host executor puts no other id into a result than the request's, or none. */
  ghost predicate IdFaithful(behaviour: Behaviour) {
    forall calls: seq<ToolRequest> :: NamesLast(behaviour, calls)
  }

  lemma DirectNamesItsCall(behaviour: Behaviour, g: GuardState, req: ToolRequest)
    requires IdFaithful(behaviour)
    ensures Names(ExecuteDirect(behaviour, g, req).1, req.toolUseId)
  {
    assert NamesLast(behaviour, g.calls + [req]);
  }

  lemma CappedNamesItsCall(cfg: GuardConfig, g: GuardState, req: ToolRequest)
    requires IdFaithful(cfg.behaviour)
    ensures Names(ExecuteCapped(cfg, g, req).1, req.toolUseId)
  {
    DirectNamesItsCall(cfg.behaviour, g, req);
    DirectNamesItsCall(cfg.behaviour, g.(seen := g.seen + 1), req);
  }

  /** Both guards keep a faithful executor faithful. */
  lemma GuardedNamesItsCall(cfg: GuardConfig, g: GuardState, req: ToolRequest)
    requires IdFaithful(cfg.behaviour)
    ensures Names(ExecuteGuarded(cfg, g, req).1, req.toolUseId)
  {
    CappedNamesItsCall(cfg, g, req);
    CappedNamesItsCall(cfg, g.(signatures := g.signatures + [SignatureOf(cfg.digest, req)]), req);
  }

  // ---------- What the guards let through ----------

  predicate CapReached(cfg: GuardConfig, g: GuardState) {
    cfg.maxToolCalls.Some? && g.seen >= cfg.maxToolCalls.value
  }

  predicate RepeatReached(cfg: GuardConfig, g: GuardState, req: ToolRequest) {
    var threshold := RepeatThreshold(req.name, cfg.policies, cfg.defaultThreshold);
    threshold.Some? && Occurrences(g.signatures, SignatureOf(cfg.digest, req)) + 1 >= threshold.value
  }

  /** A request reaches the executor iff neither bound is reached; a repeat is found first, and refused requests fail. */
  lemma ReachesTheExecutorIff(cfg: GuardConfig, g: GuardState, req: ToolRequest)
    ensures var (g', outcome) := ExecuteGuarded(cfg, g, req);
            && (g'.calls == g.calls + [req] <==> !CapReached(cfg, g) && !RepeatReached(cfg, g, req))
            && (RepeatReached(cfg, g, req) ==> outcome == Returned(Denial(cfg, req, RepeatedToolCall)))
            && (!RepeatReached(cfg, g, req) && CapReached(cfg, g) ==> outcome == Returned(Denial(cfg, req, MaxToolCalls)))
            && (g'.calls != g.calls ==> outcome == cfg.behaviour(g'.calls))
  {
    assert |g.calls + [req]| != |g.calls|;
  }
}
