/** The executors as objects: the host's own, and the two guards a run stacks around it. */
module ToolExecutors {
  import opened ToolGuards

  /** The host's tools; remembers every call. */
  class HostToolExecutor {
    const behaviour: Behaviour
    var calls: seq<ToolRequest>

    constructor (behaviour: Behaviour)
      ensures this.behaviour == behaviour && calls == []
    {
      this.behaviour := behaviour;
      calls := [];
    }

    method ExecuteTool(request: ToolRequest) returns (outcome: Outcome)
      modifies this
      ensures calls == old(calls) + [request]
      ensures outcome == behaviour(calls)
    {
      calls := calls + [request];
      outcome := behaviour(calls);
    }
  }

  /** The list of signatures that the guards of all turns of a run share. */
  class SignatureList {
    var signatures: seq<Signature>

    constructor ()
      ensures signatures == []
    {
      signatures := [];
    }

    method CountOf(candidate: Signature) returns (count: nat)
      ensures count == Occurrences(signatures, candidate)
    {
      count := 0;
      for i := 0 to |signatures|
        invariant count == Occurrences(signatures[..i], candidate)
      {
        assert signatures[..i + 1] == signatures[..i] + [signatures[i]];
        if signatures[i] == candidate { count := count + 1; }
      }
      assert signatures[..|signatures|] == signatures;
    }
  }

  class MaxToolCallsGuard {
    const cfg: GuardConfig
    const executor: HostToolExecutor
    var toolCallsSeen: nat

    constructor (cfg: GuardConfig, executor: HostToolExecutor, toolCallsUsed: nat)
      ensures this.cfg == cfg && this.executor == executor && toolCallsSeen == toolCallsUsed
    {
      this.cfg := cfg;
      this.executor := executor;
      toolCallsSeen := toolCallsUsed;
    }

    ghost predicate Valid()
      reads this, executor
    {
      cfg.maxToolCalls.Some? && executor.behaviour == cfg.behaviour
    }

    /** The state of the guard and of what it guards, beside the signatures. */
    function State(signatures: seq<Signature>): GuardState
      reads this, executor
    {
      GuardState(executor.calls, toolCallsSeen, signatures)
    }

    method ExecuteTool(request: ToolRequest, ghost signatures: seq<Signature>) returns (outcome: Outcome)
      requires Valid()
      modifies this, executor
      ensures Valid()
      ensures (State(signatures), outcome) == ExecuteCapped(cfg, old(State(signatures)), request)
    {
      if toolCallsSeen >= cfg.maxToolCalls.value {
        return Returned(Denial(cfg, request, MaxToolCalls));
      }
      toolCallsSeen := toolCallsSeen + 1;
      outcome := executor.ExecuteTool(request);
    }
  }

  /** Outermost: the repeat guard around the cap, or around the host where no cap is set. */
  class RepeatedToolCallGuard {
    const cfg: GuardConfig
    const host: HostToolExecutor
    const cap: MaxToolCallsGuard?
    const list: SignatureList
    const toolCallsUsed: nat

    /** The stack of one turn: a new cap that starts from the calls the run has used, over the run's shared list. */
    constructor (cfg: GuardConfig, host: HostToolExecutor, list: SignatureList, toolCallsUsed: nat)
      requires host.behaviour == cfg.behaviour
      ensures Valid() && this.cfg == cfg && this.host == host && this.list == list
      ensures cap != null ==> fresh(cap)
      ensures State() == GuardState(host.calls, toolCallsUsed, list.signatures)
    {
      this.cfg := cfg;
      this.host := host;
      this.list := list;
      this.toolCallsUsed := toolCallsUsed;
      if cfg.maxToolCalls.Some? {
        var guard := new MaxToolCallsGuard(cfg, host, toolCallsUsed);
        cap := guard;
      } else {
        cap := null;
      }
    }

    ghost predicate Valid()
      reads this, host, list, cap
    {
      && host.behaviour == cfg.behaviour
      && (cap == null <==> cfg.maxToolCalls.None?)
      && (cap != null ==> cap.executor == host && cap.cfg == cfg && cap.Valid())
    }

    function State(): GuardState
      reads this, host, list, cap
    {
      GuardState(host.calls, if cap != null then cap.toolCallsSeen else toolCallsUsed, list.signatures)
    }

    method ExecuteInner(request: ToolRequest) returns (outcome: Outcome)
      requires Valid()
      modifies host, cap
      ensures Valid()
      ensures (State(), outcome) == ExecuteCapped(cfg, old(State()), request)
    {
      if cap == null {
        outcome := host.ExecuteTool(request);
      } else {
        outcome := cap.ExecuteTool(request, list.signatures);
      }
    }

    method ExecuteTool(request: ToolRequest) returns (outcome: Outcome)
      requires Valid()
      modifies host, cap, list
      ensures Valid()
      ensures (State(), outcome) == ExecuteGuarded(cfg, old(State()), request)
    {
      var threshold := RepeatThreshold(request.name, cfg.policies, cfg.defaultThreshold);
      if threshold.None? {
        outcome := ExecuteInner(request);
        return;
      }
      var candidate := SignatureOf(cfg.digest, request);
      var count := list.CountOf(candidate);
      if count + 1 >= threshold.value {
        return Returned(Denial(cfg, request, RepeatedToolCall));
      }
      list.signatures := list.signatures + [candidate];
      outcome := ExecuteInner(request);
    }
  }
}
