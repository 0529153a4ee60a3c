/** The checks a tool call passes before it reaches the guards and the executor. */
module ToolChecks {
  import opened Options
  import opened JsonSchema
  import opened StandardEvents
  import opened ToolGuards
  import opened Transcript

  datatype ToolDefinition = ToolDefinition(
    name: string, inputSchema: Json, mutatesWorkspace: bool, repeatPolicy: Option<RepeatPolicy>)

  datatype SafetyPolicy = SafetyPolicy(
    allowUndeclared: bool, allowed: Option<set<string>>, blocked: set<string>,
    confirmMutating: bool, confirmed: set<string>)

  datatype Checks = Checks(
    tools: seq<ToolDefinition>, safety: SafetyPolicy, validateInputs: bool, hasExecutor: bool, render: Render)

  function NameOf(b: Block): string {
    if b.ToolUseBlock? then b.name else ""
  }

  function InputOf(b: Block): Json {
    if b.ToolUseBlock? then b.input else Null
  }

  /** The first definition under the name. */
  function Declared(tools: seq<ToolDefinition>, name: string): Option<ToolDefinition> {
    if tools == [] then None
    else if tools[0].name == name then Some(tools[0])
    else Declared(tools[1..], name)
  }

  function SafetyDenial(p: SafetyPolicy, tools: seq<ToolDefinition>, call: Block): Option<ErrorType> {
    if NameOf(call) in p.blocked then Some(ToolBlocked)
    else if p.allowed.Some? && NameOf(call) !in p.allowed.value then Some(ToolNotAllowed)
    else
      var declared := Declared(tools, NameOf(call));
      if declared.Some? && declared.value.mutatesWorkspace && p.confirmMutating && IdOf(call) !in p.confirmed
      then Some(ConfirmationRequired)
      else None
  }

  /** Why a call is refused before the guards, as an error type. */
  function Refusal(c: Checks, call: Block): Option<ErrorType> {
    var declared := Declared(c.tools, NameOf(call));
    var denial := SafetyDenial(c.safety, c.tools, call);
    if declared.None? && !c.safety.allowUndeclared then Some(ToolNotDeclared)
    else if denial.Some? then denial
    else if c.validateInputs && declared.Some?
            && SchemaErrorOf(c.render, InputOf(call), declared.value.inputSchema).Some? then Some(ToolInputInvalid)
    else if !c.hasExecutor then Some(ExecutorMissing)
    else None
  }

  /** Declared, or undeclared calls are allowed; not blocked; on the allowlist if there is one; confirmed where it
   must be; its input conforms to its schema; and there is an executor. */
  ghost predicate Permitted(c: Checks, call: Block) {
    var declared := Declared(c.tools, NameOf(call));
    && (declared.None? ==> c.safety.allowUndeclared)
    && NameOf(call) !in c.safety.blocked
    && (c.safety.allowed.Some? ==> NameOf(call) in c.safety.allowed.value)
    && (declared.Some? && declared.value.mutatesWorkspace && c.safety.confirmMutating ==> IdOf(call) in c.safety.confirmed)
    && (declared.Some? && c.validateInputs ==> Conforms(c.render, InputOf(call), declared.value.inputSchema))
    && c.hasExecutor
  }

  lemma UnrefusedIffPermitted(c: Checks, call: Block)
    ensures Refusal(c, call).None? <==> Permitted(c, call)
  {
    var declared := Declared(c.tools, NameOf(call));
    if declared.Some? {
      NoErrorIffConforms(c.render, InputOf(call), declared.value.inputSchema);
    }
  }

  /** A call is declared exactly if some tool of the turn has its name. */
  lemma {:induction false} DeclaredIff(tools: seq<ToolDefinition>, name: string)
    ensures Declared(tools, name).Some? <==> exists k :: 0 <= k < |tools| && tools[k].name == name
    ensures Declared(tools, name).Some? ==> Declared(tools, name).value in tools && Declared(tools, name).value.name == name
  {
    if tools != [] {
      DeclaredIff(tools[1..], name);
      if k :| 0 <= k < |tools| && tools[k].name == name {
        if k > 0 { assert tools[1..][k - 1].name == name; }
      }
    }
  }
}
