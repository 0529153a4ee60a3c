/** The kernel's surroundings as a host puts them together: its tools and their policies. */
module HostTools {
  import opened Options
  import opened StandardEvents
  import opened ToolGuards
  import opened ToolChecks
  import opened TurnKernel

  /** The repeat policies by tool name; of two tools with one name and a policy each, the later counts. */
  function RepeatPolicies(tools: seq<ToolDefinition>): map<string, RepeatPolicy> {
    if tools == [] then map[]
    else
      var before, last := RepeatPolicies(tools[..|tools| - 1]), tools[|tools| - 1];
      if last.repeatPolicy.Some? then before[last.name := last.repeatPolicy.value] else before
  }

  /** Tool `k` is the last with this name and a policy. */
  predicate LastPolicy(tools: seq<ToolDefinition>, k: nat, name: string)
    requires k < |tools|
  {
    && tools[k].name == name && tools[k].repeatPolicy.Some?
    && forall j :: k < j < |tools| && tools[j].name == name ==> tools[j].repeatPolicy.None?
  }

  lemma {:induction false} PolicyIsTheLast(tools: seq<ToolDefinition>, name: string)
    ensures name in RepeatPolicies(tools) <==> exists k: nat :: k < |tools| && LastPolicy(tools, k, name)
    ensures forall k: nat :: k < |tools| && LastPolicy(tools, k, name) ==>
              name in RepeatPolicies(tools) && RepeatPolicies(tools)[name] == tools[k].repeatPolicy.value
  {
    if tools != [] {
      var n := |tools| - 1;
      PolicyIsTheLast(tools[..n], name);
      if tools[n].name == name && tools[n].repeatPolicy.Some? {
        assert LastPolicy(tools, n, name);
      } else {
        forall k: nat | k < n ensures LastPolicy(tools, k, name) <==> LastPolicy(tools[..n], k, name) {
          assert forall j :: k < j < n ==> tools[..n][j] == tools[j];
        }
        if k: nat :| k < |tools[..n]| && LastPolicy(tools[..n], k, name) { assert LastPolicy(tools, k, name); }
        if k: nat :| k < |tools| && LastPolicy(tools, k, name) { assert k < n && LastPolicy(tools[..n], k, name); }
      }
    }
  }

  /** A host's tools, policies, executor and token. */
  datatype HostConfig = HostConfig(
    checks: Checks, maxToolCalls: Option<nat>, repeatThreshold: Option<nat>, digest: Digest, behaviour: Behaviour,
    texts: ErrorType -> string, pauseTools: set<string>, pauseStopReason: string, cancel: nat -> bool)

  /** What a turn on this host depends on. */
  function EnvOf(host: HostConfig): TurnEnv {
    TurnEnv(
      (call: Block) => Refusal(host.checks, call), host.pauseTools, host.pauseStopReason,
      GuardConfig(host.maxToolCalls, host.repeatThreshold, RepeatPolicies(host.checks.tools), host.digest, host.behaviour, host.texts),
      host.cancel)
  }

  lemma ReachesUnrefused(env: TurnEnv, call: Block, poll: nat, g: GuardState, paused: bool)
    requires HandleCall(env, call, poll, g, paused).0.calls != g.calls
    ensures env.refusal(call).None? && HandleCall(env, call, poll, g, paused).0.calls == g.calls + [RequestOf(call)]
  {
    OnlyCheckedCallsReachTheExecutor(env, call, poll, g, paused);
  }

  /** On any host a call that reaches the executor is declared or allowed undeclared, safe, and of a conforming input. */
  lemma OnlyPermittedCallsRun(host: HostConfig, call: Block, poll: nat, g: GuardState, paused: bool)
    requires HandleCall(EnvOf(host), call, poll, g, paused).0.calls != g.calls
    ensures Permitted(host.checks, call)
    ensures HandleCall(EnvOf(host), call, poll, g, paused).0.calls == g.calls + [RequestOf(call)]
  {
    ReachesUnrefused(EnvOf(host), call, poll, g, paused);
    assert EnvOf(host).refusal(call) == Refusal(host.checks, call);
    UnrefusedIffPermitted(host.checks, call);
  }
}
