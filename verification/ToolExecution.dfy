/** Running the tool calls of one model response, with approvals and guardrails. */
module ToolExecution {
  import opened Items

  const REJECTION_MESSAGE := "Tool execution was not approved."

  datatype ToolCallRequest = ToolCallRequest(id: string, name: string, arguments: string, namespace: Option<string>)

  /** `Broken`: the guardrail itself failed. */
  datatype Behavior = Allow | RejectContent(message: string) | RaiseException | Broken

  /** `invoke` and `onError` are the tool and the error formatter; None means that they failed. */
  datatype FunctionTool = FunctionTool(name: string, namespace: Option<string>, needsApproval: bool,
                                       inputGuardrails: seq<ToolCallRequest -> Behavior>,
                                       invoke: ToolCallRequest -> Option<OutputItem>,
                                       onError: ToolCallRequest -> Option<string>,
                                       outputGuardrails: seq<(ToolCallRequest, OutputItem) -> Behavior>)

  datatype Interruption = Interruption(kind: Option<InterruptionKind>, approvalId: Option<string>,
                                       callId: Option<string>, toolName: Option<string>, namespace: Option<string>)

  datatype InterruptionKind = ToolApproval | OtherKind

  datatype ApprovalRecord = ApprovalRecord(approved: bool, reason: Option<string>, approvalId: Option<string>,
                                           callId: Option<string>, toolName: Option<string>, namespace: Option<string>)

  type Decision = (Interruption, ApprovalRecord)

  datatype ToolResult = ToolResult(toolName: string, callId: Option<string>, arguments: Option<string>,
    output: OutputItem, runItem: RunItem)

  datatype Execution = Execution(newItems: seq<RunItem>, results: seq<ToolResult>, invoked: seq<ToolCallRequest>,
                                 interruption: Option<Interruption>)

  datatype ToolError = UnknownTool(name: string) | GuardrailTripped | ToolFailed

  datatype Outcome = Done(execution: Execution) | Failed(error: ToolError)

  // ---- lookups ----

  function FindTool(tools: seq<FunctionTool>, call: ToolCallRequest): (r: Option<FunctionTool>)
    ensures r.Some? ==> r.value in tools && r.value.name == call.name && r.value.namespace == call.namespace
  {
    if tools == [] then None
    else if tools[0].name == call.name && tools[0].namespace == call.namespace then Some(tools[0])
    else FindTool(tools[1..], call)
  }

  predicate ApprovalMatchesToolCall(d: Decision, call: ToolCallRequest) {
    && d.1.approved
    && d.1.approvalId == d.0.approvalId
    && d.1.callId == Some(call.id) && d.1.toolName == Some(call.name) && d.1.namespace == call.namespace
    && d.0.callId == Some(call.id) && d.0.toolName == Some(call.name) && d.0.namespace == call.namespace
  }

  function ExtractToolCall(render: Json -> string): OutputItem -> Option<ToolCallRequest> {
    (o: OutputItem) => match o
      case OutToolCall(callId, toolName, arguments, namespace) =>
        Some(ToolCallRequest(callId, toolName, render(arguments), namespace))
      case _ => None
  }

  function ExtractToolCalls(output: seq<OutputItem>, render: Json -> string): seq<ToolCallRequest> {
    FilterMap(ExtractToolCall(render), output)
  }

  /** The latest recorded call with the id. */
  function FindPendingToolCall(generated: seq<RunItem>, id: string, render: Json -> string): Option<ToolCallRequest> {
    if generated == [] then None
    else match generated[|generated| - 1]
      case ToolCall(toolName, arguments, Some(callId), namespace) =>
        if callId == id then Some(ToolCallRequest(callId, toolName, render(arguments), namespace))
        else FindPendingToolCall(generated[..|generated| - 1], id, render)
      case _ => FindPendingToolCall(generated[..|generated| - 1], id, render)
  }

  // ---- one call ----

  /** Runs the guardrails in order; the last rejection counts. */
  datatype Screening = Passed | Rejected(message: string) | Tripped | ScreeningFailed

  function ScreenStep(before: Screening, b: Behavior): Screening {
    if before.Tripped? || before.ScreeningFailed? then before
    else match b
      case Allow => before
      case RejectContent(message) => Rejected(message)
      case RaiseException => Tripped
      case Broken => ScreeningFailed
  }

  function ScreenInput(guardrails: seq<ToolCallRequest -> Behavior>, call: ToolCallRequest): Screening {
    if guardrails == [] then Passed
    else ScreenStep(ScreenInput(guardrails[..|guardrails| - 1], call), guardrails[|guardrails| - 1](call))
  }

  datatype Produced = Output(item: OutputItem) | Stopped(error: ToolError)

  /** Every output guardrail sees the output as the ones before it left it. */
  function ScreenOutput(guardrails: seq<(ToolCallRequest, OutputItem) -> Behavior>, call: ToolCallRequest,
                        output: OutputItem): Produced {
    if guardrails == [] then Output(output)
    else match ScreenOutput(guardrails[..|guardrails| - 1], call, output)
      case Stopped(error) => Stopped(error)
      case Output(item) =>
        match guardrails[|guardrails| - 1](call, item)
        case Allow => Output(item)
        case RejectContent(message) => Output(OutText(message))
        case RaiseException => Stopped(GuardrailTripped)
        case Broken => Stopped(ToolFailed)
  }

  function Invoke(tool: FunctionTool, call: ToolCallRequest): Produced {
    match tool.invoke(call)
    case Some(output) => Output(output)
    case None =>
      match tool.onError(call)
      case Some(message) => Output(OutText(message))
      case None => Stopped(ToolFailed)
  }

  /** What the tool, its guardrails and the error formatter make of a call. */
  function RunTool(tool: FunctionTool, call: ToolCallRequest): Produced {
    match ScreenInput(tool.inputGuardrails, call)
    case Tripped => Stopped(GuardrailTripped)
    case ScreeningFailed => Stopped(ToolFailed)
    case Rejected(message) => ScreenOutput(tool.outputGuardrails, call, OutText(message))
    case Passed =>
      match Invoke(tool, call)
      case Stopped(error) => Stopped(error)
      case Output(output) => ScreenOutput(tool.outputGuardrails, call, output)
  }

  function OutputRunItem(call: ToolCallRequest, output: OutputItem): RunItem {
    ToolCallOutput(call.name, output, Some(call.id), call.namespace)
  }

  function ResultOf(call: ToolCallRequest, output: OutputItem): ToolResult {
    ToolResult(call.name, Some(call.id), Some(call.arguments), output, OutputRunItem(call, output))
  }

  function RejectionText(approval: ApprovalRecord): string {
    match approval.reason
    case Some(reason) => reason
    case None => REJECTION_MESSAGE
  }

  datatype Step = Ran(output: OutputItem, invoked: bool) | Interrupts(interruption: Interruption)
    | Fails(error: ToolError)

  function InterruptionFor(call: ToolCallRequest, freshId: string): Interruption {
    Interruption(Some(ToolApproval), Some(freshId), Some(call.id), Some(call.name), call.namespace)
  }

  function ExecuteOne(tools: seq<FunctionTool>, call: ToolCallRequest, decision: Option<Decision>,
                      freshId: string): Step {
    match FindTool(tools, call)
    case None => Fails(UnknownTool(call.name))
    case Some(tool) =>
      if tool.needsApproval && !(decision.Some? && ApprovalMatchesToolCall(decision.value, call)) then
        if decision.Some? && !decision.value.1.approved then Ran(OutText(RejectionText(decision.value.1)), false)
        else Interrupts(InterruptionFor(call, freshId))
      else match RunTool(tool, call)
        case Stopped(error) => Fails(error)
        case Output(output) => Ran(output, ScreenInput(tool.inputGuardrails, call).Passed?)
  }

  // ---- all calls of a response ----

  function Prepend(call: ToolCallRequest, output: OutputItem, invoked: bool, rest: Outcome): Outcome {
    match rest
    case Failed(error) => Failed(error)
    case Done(e) => Done(Execution([OutputRunItem(call, output)] + e.newItems, [ResultOf(call, output)] + e.results,
                                   (if invoked then [call] else []) + e.invoked, e.interruption))
  }

  /** The calls run in order until one of them needs an approval it does not have. */
  function Execute(tools: seq<FunctionTool>, calls: seq<ToolCallRequest>, decision: Option<Decision>,
                   freshId: string): Outcome {
    if calls == [] then Done(Execution([], [], [], None))
    else match ExecuteOne(tools, calls[0], decision, freshId)
      case Fails(error) => Failed(error)
      case Interrupts(interruption) => Done(Execution([], [], [], Some(interruption)))
      case Ran(output, invoked) => Prepend(calls[0], output, invoked, Execute(tools, calls[1..], decision, freshId))
  }

  function After(done: Execution, rest: Outcome): Outcome {
    match rest
    case Failed(error) => Failed(error)
    case Done(e) => Done(Execution(done.newItems + e.newItems, done.results + e.results, done.invoked + e.invoked,
      e.interruption))
  }

  method RunInputGuardrails(guardrails: seq<ToolCallRequest -> Behavior>, call: ToolCallRequest) returns (r: Screening)
    ensures r == ScreenInput(guardrails, call)
  {
    r := Passed;
    for i := 0 to |guardrails|
      invariant r == ScreenInput(guardrails[..i], call) && !r.Tripped? && !r.ScreeningFailed?
    {
      assert guardrails[..i + 1][..i] == guardrails[..i];
      match guardrails[i](call)
      case Allow =>
      case RejectContent(message) => r := Rejected(message);
      case RaiseException => TrippedStays(guardrails, call, i + 1); return Tripped;
      case Broken => TrippedStays(guardrails, call, i + 1); return ScreeningFailed;
    }
    assert guardrails[..|guardrails|] == guardrails;
  }

  lemma {:induction false} TrippedStays(guardrails: seq<ToolCallRequest -> Behavior>, call: ToolCallRequest, n: nat)
    requires n <= |guardrails|
    requires ScreenInput(guardrails[..n], call).Tripped? || ScreenInput(guardrails[..n], call).ScreeningFailed?
    ensures ScreenInput(guardrails, call) == ScreenInput(guardrails[..n], call)
  {
    if n < |guardrails| {
      assert guardrails[..|guardrails| - 1][..n] == guardrails[..n];
      TrippedStays(guardrails[..|guardrails| - 1], call, n);
    } else {
      assert guardrails[..n] == guardrails;
    }
  }

  method RunOutputGuardrails(guardrails: seq<(ToolCallRequest, OutputItem) -> Behavior>, call: ToolCallRequest,
                             output: OutputItem)
    returns (r: Produced)
    ensures r == ScreenOutput(guardrails, call, output)
  {
    var current := output;
    for i := 0 to |guardrails|
      invariant ScreenOutput(guardrails[..i], call, output) == Output(current)
    {
      assert guardrails[..i + 1][..i] == guardrails[..i];
      match guardrails[i](call, current)
      case Allow =>
      case RejectContent(message) => current := OutText(message);
      case RaiseException => StoppedStays(guardrails, call, output, i + 1); return Stopped(GuardrailTripped);
      case Broken => StoppedStays(guardrails, call, output, i + 1); return Stopped(ToolFailed);
    }
    assert guardrails[..|guardrails|] == guardrails;
    r := Output(current);
  }

  lemma {:induction false} StoppedStays(guardrails: seq<(ToolCallRequest, OutputItem) -> Behavior>,
                                        call: ToolCallRequest, output: OutputItem, n: nat)
    requires n <= |guardrails| && ScreenOutput(guardrails[..n], call, output).Stopped?
    ensures ScreenOutput(guardrails, call, output) == ScreenOutput(guardrails[..n], call, output)
  {
    if n < |guardrails| {
      assert guardrails[..|guardrails| - 1][..n] == guardrails[..n];
      StoppedStays(guardrails[..|guardrails| - 1], call, output, n);
    } else {
      assert guardrails[..n] == guardrails;
    }
  }

  /** One tool between its guardrails; `passed` says whether it was invoked. */
  method RunWithGuardrails(tool: FunctionTool, call: ToolCallRequest) returns (produced: Produced, passed: bool)
    ensures produced == RunTool(tool, call) && passed == ScreenInput(tool.inputGuardrails, call).Passed?
  {
    var screening := RunInputGuardrails(tool.inputGuardrails, call);
    passed := screening.Passed?;
    if screening.Tripped? { return Stopped(GuardrailTripped), passed; }
    if screening.ScreeningFailed? { return Stopped(ToolFailed), passed; }
    var output: OutputItem;
    if screening.Rejected? {
      output := OutText(screening.message);
    } else {
      var attempt := Invoke(tool, call);
      if attempt.Stopped? { return attempt, passed; }
      output := attempt.item;
    }
    produced := RunOutputGuardrails(tool.outputGuardrails, call, output);
  }

  method ExecuteLocalFunctionTools(tools: seq<FunctionTool>, calls: seq<ToolCallRequest>, decision: Option<Decision>,
                                   freshId: string)
    returns (r: Outcome)
    ensures r == Execute(tools, calls, decision, freshId)
  {
    hide FindTool, ApprovalMatchesToolCall, RunTool, ScreenInput;
    var newItems: seq<RunItem>, results: seq<ToolResult>, invoked: seq<ToolCallRequest> := [], [], [];
    var interruption: Option<Interruption> := None;
    var i := 0;
    while i < |calls|
      invariant i <= |calls| && interruption == None
      invariant Execute(tools, calls, decision, freshId)
             == After(Execution(newItems, results, invoked, None), Execute(tools, calls[i..], decision, freshId))
      decreases |calls| - i
    {
      var call := calls[i];
      assert calls[i..][0] == call && calls[i..][1..] == calls[i + 1..];
      var tool := FindTool(tools, call);
      if tool.None? { return Failed(UnknownTool(call.name)); }
      if tool.value.needsApproval {
        if decision.Some? && ApprovalMatchesToolCall(decision.value, call) {
        } else if decision.Some? && !decision.value.1.approved {
          var text := OutText(RejectionText(decision.value.1));
          Advance(tools, calls, decision, freshId, i, Execution(newItems, results, invoked, None), text, false);
          newItems := newItems + [OutputRunItem(call, text)];
          results := results + [ResultOf(call, text)];
          i := i + 1;
          continue;
        } else {
          interruption := Some(InterruptionFor(call, freshId));
          break;
        }
      }
      var produced, passed := RunWithGuardrails(tool.value, call);
      if produced.Stopped? { return Failed(produced.error); }
      Advance(tools, calls, decision, freshId, i, Execution(newItems, results, invoked, None), produced.item, passed);
      newItems := newItems + [OutputRunItem(call, produced.item)];
      results := results + [ResultOf(call, produced.item)];
      if passed { invoked := invoked + [call]; }
      i := i + 1;
    }
    r := Done(Execution(newItems, results, invoked, interruption));
  }

  lemma Advance(tools: seq<FunctionTool>, calls: seq<ToolCallRequest>, decision: Option<Decision>, freshId: string,
                i: nat, done: Execution, output: OutputItem, invoked: bool)
    requires i < |calls| && ExecuteOne(tools, calls[i], decision, freshId) == Ran(output, invoked)
    ensures After(done, Execute(tools, calls[i..], decision, freshId))
         == After(Execution(done.newItems + [OutputRunItem(calls[i], output)],
                            done.results + [ResultOf(calls[i], output)],
                            if invoked then done.invoked + [calls[i]] else done.invoked, None),
                  Execute(tools, calls[i + 1..], decision, freshId))
  {
    assert calls[i..][0] == calls[i] && calls[i..][1..] == calls[i + 1..];
    var rest := Execute(tools, calls[i + 1..], decision, freshId);
    if rest.Done? {
      var e := rest.execution;
      assert done.newItems + ([OutputRunItem(calls[i], output)] + e.newItems)
        == done.newItems + [OutputRunItem(calls[i], output)] + e.newItems;
      assert done.results + ([ResultOf(calls[i], output)] + e.results)
        == done.results + [ResultOf(calls[i], output)] + e.results;
      assert done.invoked + ([calls[i]] + e.invoked) == done.invoked + [calls[i]] + e.invoked;
      assert [] + e.invoked == e.invoked;
    }
  }

  // ---- the prefix law ----

  /** Output `i` answers call `i`. */
  ghost predicate Answers(item: RunItem, result: ToolResult, call: ToolCallRequest) {
    && item.ToolCallOutput? && item.toolName == call.name && item.callId == Some(call.id)
    && item.namespace == call.namespace
    && result.runItem == item && result.output == item.output
    && result.toolName == call.name && result.callId == Some(call.id) && result.arguments == Some(call.arguments)
  }

  /** The outputs and the results answer, one to one and in order, a prefix of the calls; an interruption
      names the first call after it, and there is none exactly if every call was answered. */
  lemma {:induction false} PrefixLaw(tools: seq<FunctionTool>, calls: seq<ToolCallRequest>, decision: Option<Decision>,
                                     freshId: string)
    ensures match Execute(tools, calls, decision, freshId)
      case Failed(_) => true
      case Done(e) =>
        && |e.newItems| == |e.results| <= |calls|
        && (forall i :: 0 <= i < |e.newItems| ==> Answers(e.newItems[i], e.results[i], calls[i]))
        && (e.interruption.None? <==> |e.newItems| == |calls|)
        && (e.interruption.Some? ==> e.interruption.value == InterruptionFor(calls[|e.newItems|], freshId))
  {
    hide ExecuteOne, Answers;
    if calls != [] {
      PrefixLaw(tools, calls[1..], decision, freshId);
      InterruptsForCall(tools, calls[0], decision, freshId);
      var step := ExecuteOne(tools, calls[0], decision, freshId);
      if step.Ran? { AnswersCall(calls[0], step.output); }
    }
  }

  lemma InterruptsForCall(tools: seq<FunctionTool>, call: ToolCallRequest, decision: Option<Decision>, freshId: string)
    ensures var step := ExecuteOne(tools, call, decision, freshId);
      step.Interrupts? ==> step.interruption == InterruptionFor(call, freshId)
  {}

  lemma AnswersCall(call: ToolCallRequest, output: OutputItem)
    ensures Answers(OutputRunItem(call, output), ResultOf(call, output), call)
  {}

  ghost predicate Sanctioned(tools: seq<FunctionTool>, call: ToolCallRequest, decision: Option<Decision>) {
    && FindTool(tools, call).Some?
    && (FindTool(tools, call).value.needsApproval ==> decision.Some? && ApprovalMatchesToolCall(decision.value, call))
  }

  /** A tool that needs approval is invoked only under an approving record that matches the call in
      every respect; and the invoked calls are among the answered ones, in their order. */
  lemma {:induction false} InvokedOnlyWhenSanctioned(tools: seq<FunctionTool>, calls: seq<ToolCallRequest>,
      decision: Option<Decision>, freshId: string)
    ensures match Execute(tools, calls, decision, freshId)
      case Failed(_) => true
      case Done(e) =>
        |e.newItems| <= |calls| && forall call ::
          call in e.invoked ==> call in calls[..|e.newItems|] && Sanctioned(tools, call, decision)
  {
    hide ExecuteOne, Sanctioned, Answers;
    if calls != [] {
      InvokedOnlyWhenSanctioned(tools, calls[1..], decision, freshId);
      InvokedIsSanctioned(tools, calls[0], decision, freshId);
      var step := ExecuteOne(tools, calls[0], decision, freshId);
      var rest := Execute(tools, calls[1..], decision, freshId);
      if step.Ran? && rest.Done? {
        var n := |rest.execution.newItems|;
        PrefixLaw(tools, calls[1..], decision, freshId);
        assert calls[..n + 1] == [calls[0]] + calls[1..][..n];
      }
    }
  }

  lemma InvokedIsSanctioned(tools: seq<FunctionTool>, call: ToolCallRequest, decision: Option<Decision>,
                            freshId: string)
    ensures var step := ExecuteOne(tools, call, decision, freshId);
      step.Ran? && step.invoked ==> Sanctioned(tools, call, decision)
  {}

  /** Without a decision the run pauses at the first call that needs approval, and nowhere else. */
  lemma {:induction false} PausesAtFirstUnapproved(tools: seq<FunctionTool>, calls: seq<ToolCallRequest>,
                                                   freshId: string)
    ensures match Execute(tools, calls, None, freshId)
      case Failed(_) => true
      case Done(e) =>
        && |e.newItems| <= |calls|
        && (forall i :: 0 <= i < |e.newItems| ==>
          FindTool(tools, calls[i]).Some? && !FindTool(tools, calls[i]).value.needsApproval)
        && (|e.newItems| < |calls| ==>
              FindTool(tools, calls[|e.newItems|]).Some? && FindTool(tools, calls[|e.newItems|]).value.needsApproval)
  {
    if calls != [] { PausesAtFirstUnapproved(tools, calls[1..], freshId); }
  }
}
