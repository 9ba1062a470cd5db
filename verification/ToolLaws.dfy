/** What one tool call comes to, told by the positions of the tools and guardrails alone. */
module ToolLaws {
  import opened Items
  import opened ToolExecution

  // ---- which tool, and whether it may run ----

  /** The first tool with the call's name and namespace. */
  ghost predicate FirstTool(tools: seq<FunctionTool>, call: ToolCallRequest, k: nat) {
    && k < |tools| && tools[k].name == call.name && tools[k].namespace == call.namespace
    && forall j :: 0 <= j < k ==> !(tools[j].name == call.name && tools[j].namespace == call.namespace)
  }

  ghost predicate NoTool(tools: seq<FunctionTool>, call: ToolCallRequest) {
    forall j :: 0 <= j < |tools| ==> !(tools[j].name == call.name && tools[j].namespace == call.namespace)
  }

  /** The decision approves this very call: its id, its tool and its namespace, under the interruption it answers. */
  ghost predicate ApprovesCall(interruption: Interruption, record: ApprovalRecord, call: ToolCallRequest) {
    && record.approved && record.approvalId == interruption.approvalId
    && record.callId == interruption.callId == Some(call.id)
    && record.toolName == interruption.toolName == Some(call.name)
    && record.namespace == interruption.namespace == call.namespace
  }

  // ---- guardrails by position ----

  ghost predicate AllAllow(guardrails: seq<ToolCallRequest -> Behavior>, call: ToolCallRequest) {
    forall i :: 0 <= i < |guardrails| ==> guardrails[i](call) == Allow
  }

  /** The first `n` guardrails allow or reject. */
  ghost predicate NoneStops(guardrails: seq<ToolCallRequest -> Behavior>, call: ToolCallRequest, n: nat) {
    forall i :: 0 <= i < n && i < |guardrails| ==> guardrails[i](call).Allow? || guardrails[i](call).RejectContent?
  }

  /** The last guardrail that does not allow the call rejects it with this message. */
  ghost predicate LastRejects(guardrails: seq<ToolCallRequest -> Behavior>, call: ToolCallRequest, message: string) {
    exists i :: 0 <= i < |guardrails| && guardrails[i](call) == RejectContent(message)
      && forall j :: i < j < |guardrails| ==> guardrails[j](call) == Allow
  }

  /** The first guardrail that neither allows nor rejects raises this error. */
  ghost predicate FirstStops(guardrails: seq<ToolCallRequest -> Behavior>, call: ToolCallRequest, error: ToolError) {
    exists i :: 0 <= i < |guardrails| && NoneStops(guardrails, call, i)
      && (if guardrails[i](call) == RaiseException then error == GuardrailTripped
          else guardrails[i](call) == Broken && error == ToolFailed)
  }

  /** A guardrail keeps an output, or puts its message in its place. */
  predicate Replaces(verdict: Behavior, output: OutputItem, next: OutputItem) {
    (verdict == Allow && next == output) || (verdict.RejectContent? && next == OutText(verdict.message))
  }

  /** `outs[i]` is what the output guardrail `i` is asked about. */
  ghost predicate Passes(guardrails: seq<(ToolCallRequest, OutputItem) -> Behavior>, call: ToolCallRequest,
                         raw: OutputItem, outs: seq<OutputItem>) {
    && 1 <= |outs| <= |guardrails| + 1 && outs[0] == raw
    && forall i :: 0 <= i < |outs| - 1 ==> Replaces(guardrails[i](call, outs[i]), outs[i], outs[i + 1])
  }

  ghost predicate PassesAll(guardrails: seq<(ToolCallRequest, OutputItem) -> Behavior>, call: ToolCallRequest,
                            raw: OutputItem, output: OutputItem) {
    exists outs :: Passes(guardrails, call, raw, outs) && |outs| == |guardrails| + 1 && outs[|outs| - 1] == output
  }

  ghost predicate StopsIn(guardrails: seq<(ToolCallRequest, OutputItem) -> Behavior>, call: ToolCallRequest,
                          raw: OutputItem, error: ToolError) {
    exists outs :: Passes(guardrails, call, raw, outs) && |outs| <= |guardrails|
      && (if guardrails[|outs| - 1](call, outs[|outs| - 1]) == RaiseException then error == GuardrailTripped
          else guardrails[|outs| - 1](call, outs[|outs| - 1]) == Broken && error == ToolFailed)
  }

  // ---- one call ----

  /** What the tool answers by itself: its output, or else what the error formatter makes of its failure. */
  ghost predicate Answers(tool: FunctionTool, call: ToolCallRequest, raw: OutputItem) {
    || tool.invoke(call) == Some(raw)
    || (tool.invoke(call) == None && exists message :: tool.onError(call) == Some(message) && raw == OutText(message))
  }

  /** The output before the output guardrails, and whether the tool was invoked for it. */
  ghost predicate RawOutput(tool: FunctionTool, call: ToolCallRequest, raw: OutputItem, invoked: bool) {
    if invoked then AllAllow(tool.inputGuardrails, call) && Answers(tool, call, raw)
    else
      && NoneStops(tool.inputGuardrails, call, |tool.inputGuardrails|)
      && exists message :: LastRejects(tool.inputGuardrails, call, message) && raw == OutText(message)
  }

  ghost predicate RunsTo(tool: FunctionTool, call: ToolCallRequest, output: OutputItem, invoked: bool) {
    exists raw :: RawOutput(tool, call, raw, invoked) && PassesAll(tool.outputGuardrails, call, raw, output)
  }

  ghost predicate FailsWith(tool: FunctionTool, call: ToolCallRequest, error: ToolError) {
    || FirstStops(tool.inputGuardrails, call, error)
    || (AllAllow(tool.inputGuardrails, call) && tool.invoke(call) == None && tool.onError(call) == None
        && error == ToolFailed)
    || exists raw, invoked :: RawOutput(tool, call, raw, invoked) && StopsIn(tool.outputGuardrails, call, raw, error)
  }

  ghost predicate ToolRuns(tool: FunctionTool, call: ToolCallRequest, step: Step) {
    && !step.Interrupts? && (step.Ran? ==> RunsTo(tool, call, step.output, step.invoked))
    && (step.Fails? ==> FailsWith(tool, call, step.error))
  }

  /** Without the approval it needs, a call is answered by the reason of a rejection, or pauses the run. */
  ghost predicate NotApproved(call: ToolCallRequest, decision: Option<Decision>, freshId: string, step: Step) {
    if decision.Some? && !decision.value.1.approved then
      step == Ran(OutText(if decision.value.1.reason.Some? then decision.value.1.reason.value
                          else "Tool execution was not approved."), false)
    else step == Interrupts(Interruption(Some(ToolApproval), Some(freshId), Some(call.id), Some(call.name),
                                         call.namespace))
  }

  ghost predicate ToolLaw(tool: FunctionTool, call: ToolCallRequest, decision: Option<Decision>, freshId: string,
                          step: Step) {
    if tool.needsApproval && !(decision.Some? && ApprovesCall(decision.value.0, decision.value.1, call))
      then NotApproved(call, decision, freshId, step) else ToolRuns(tool, call, step)
  }

  ghost predicate CallLaw(tools: seq<FunctionTool>, call: ToolCallRequest, decision: Option<Decision>,
                          freshId: string, step: Step) {
    || (NoTool(tools, call) && step == Fails(UnknownTool(call.name)))
    || exists k: nat :: k < |tools| && FirstTool(tools, call, k) && ToolLaw(tools[k], call, decision, freshId, step)
  }

  // ---- the model obeys the law ----

  ghost predicate FirstIs(tools: seq<FunctionTool>, call: ToolCallRequest, tool: FunctionTool) {
    exists k: nat :: k < |tools| && FirstTool(tools, call, k) && tools[k] == tool
  }

  lemma FirstLater(tools: seq<FunctionTool>, call: ToolCallRequest, k: nat)
    requires tools != [] && !(tools[0].name == call.name && tools[0].namespace == call.namespace)
    requires FirstTool(tools[1..], call, k)
    ensures FirstTool(tools, call, k + 1) && tools[k + 1] == tools[1..][k]
  {
    forall j | 0 <= j < k + 1 ensures !(tools[j].name == call.name && tools[j].namespace == call.namespace) {
      if j > 0 { assert tools[j] == tools[1..][j - 1]; }
    }
  }

  lemma {:induction false} FindsFirst(tools: seq<FunctionTool>, call: ToolCallRequest)
    ensures match FindTool(tools, call)
      case None => NoTool(tools, call)
      case Some(tool) => FirstIs(tools, call, tool)
  {
    if tools != [] {
      if tools[0].name == call.name && tools[0].namespace == call.namespace {
        assert FirstTool(tools, call, 0);
      } else {
        FindsFirst(tools[1..], call);
        match FindTool(tools[1..], call)
        case None => assert forall j :: 0 < j < |tools| ==> tools[j] == tools[1..][j - 1];
        case Some(tool) =>
          var k: nat :| k < |tools[1..]| && FirstTool(tools[1..], call, k) && tools[1..][k] == tool;
          FirstLater(tools, call, k);
      }
    }
  }

  ghost predicate InputLaw(guardrails: seq<ToolCallRequest -> Behavior>, call: ToolCallRequest, r: Screening) {
    && (r.Passed? ==> AllAllow(guardrails, call))
    && (r.Rejected? ==> NoneStops(guardrails, call, |guardrails|) && LastRejects(guardrails, call, r.message))
    && (r.Tripped? ==> FirstStops(guardrails, call, GuardrailTripped))
    && (r.ScreeningFailed? ==> FirstStops(guardrails, call, ToolFailed))
  }

  ghost predicate OutputLaw(guardrails: seq<(ToolCallRequest, OutputItem) -> Behavior>, call: ToolCallRequest,
                            raw: OutputItem, r: Produced) {
    && (r.Output? ==> PassesAll(guardrails, call, raw, r.item))
    && (r.Stopped? ==> StopsIn(guardrails, call, raw, r.error))
  }

  lemma {:induction false} ScreenLaw(guardrails: seq<ToolCallRequest -> Behavior>, call: ToolCallRequest)
    ensures InputLaw(guardrails, call, ScreenInput(guardrails, call))
  {
    if guardrails != [] {
      var n := |guardrails| - 1;
      var init := guardrails[..n];
      ScreenLaw(init, call);
      ScreenLast(guardrails, call, ScreenInput(init, call));
    }
  }

  lemma ScreenLast(guardrails: seq<ToolCallRequest -> Behavior>, call: ToolCallRequest, before: Screening)
    requires guardrails != [] && ScreenInput(guardrails[..|guardrails| - 1], call) == before
    requires InputLaw(guardrails[..|guardrails| - 1], call, before)
    ensures InputLaw(guardrails, call, ScreenInput(guardrails, call))
  {
    var n := |guardrails| - 1;
    var init, last := guardrails[..n], guardrails[n](call);
    assert forall i :: 0 <= i < n ==> guardrails[i] == init[i];
    match before
    case Tripped => StopsEarlier(guardrails, call, GuardrailTripped);
    case ScreeningFailed => StopsEarlier(guardrails, call, ToolFailed);
    case Rejected(message) =>
      assert NoneStops(guardrails, call, n);
      if last == Allow {
        var i :| 0 <= i < |init| && init[i](call) == RejectContent(message)
          && forall j :: i < j < |init| ==> init[j](call) == Allow;
        assert guardrails[i](call) == RejectContent(message);
      }
    case Passed => assert NoneStops(guardrails, call, n);
  }

  lemma StopsEarlier(guardrails: seq<ToolCallRequest -> Behavior>, call: ToolCallRequest, error: ToolError)
    requires guardrails != [] && FirstStops(guardrails[..|guardrails| - 1], call, error)
    ensures FirstStops(guardrails, call, error)
  {
    var init := guardrails[..|guardrails| - 1];
    assert forall i :: 0 <= i < |init| ==> guardrails[i] == init[i];
    var i :| 0 <= i < |init| && NoneStops(init, call, i)
      && (if init[i](call) == RaiseException then error == GuardrailTripped
          else init[i](call) == Broken && error == ToolFailed);
    assert NoneStops(guardrails, call, i) && guardrails[i](call) == init[i](call);
  }

  lemma {:induction false} ScreenOutputLaw(guardrails: seq<(ToolCallRequest, OutputItem) -> Behavior>,
                                           call: ToolCallRequest, raw: OutputItem)
    ensures OutputLaw(guardrails, call, raw, ScreenOutput(guardrails, call, raw))
  {
    if guardrails == [] {
      assert Passes(guardrails, call, raw, [raw]);
    } else {
      var init := guardrails[..|guardrails| - 1];
      ScreenOutputLaw(init, call, raw);
      match ScreenOutput(init, call, raw)
      case Output(output) =>
        var outs :| Passes(init, call, raw, outs) && |outs| == |init| + 1 && outs[|outs| - 1] == output;
        LastOutput(guardrails, call, raw, outs);
      case Stopped(error) => OutputStopsEarlier(guardrails, call, raw, error);
    }
  }

  lemma PassesMore(guardrails: seq<(ToolCallRequest, OutputItem) -> Behavior>, call: ToolCallRequest,
                   raw: OutputItem, outs: seq<OutputItem>)
    requires guardrails != [] && Passes(guardrails[..|guardrails| - 1], call, raw, outs)
    ensures Passes(guardrails, call, raw, outs)
  {
    var init := guardrails[..|guardrails| - 1];
    forall i | 0 <= i < |outs| - 1 ensures Replaces(guardrails[i](call, outs[i]), outs[i], outs[i + 1]) {
      assert guardrails[i] == init[i];
    }
  }

  lemma LastOutput(guardrails: seq<(ToolCallRequest, OutputItem) -> Behavior>, call: ToolCallRequest,
                   raw: OutputItem, outs: seq<OutputItem>)
    requires guardrails != [] && Passes(guardrails[..|guardrails| - 1], call, raw, outs) && |outs| == |guardrails|
    requires ScreenOutput(guardrails[..|guardrails| - 1], call, raw) == Output(outs[|outs| - 1])
    ensures OutputLaw(guardrails, call, raw, ScreenOutput(guardrails, call, raw))
  {
    var n := |guardrails| - 1;
    PassesMore(guardrails, call, raw, outs);
    match guardrails[n](call, outs[n])
    case Allow => OneMoreOutput(guardrails, call, raw, outs, outs[n]);
    case RejectContent(message) => OneMoreOutput(guardrails, call, raw, outs, OutText(message));
    case RaiseException =>
    case Broken =>
  }

  lemma OneMoreOutput(guardrails: seq<(ToolCallRequest, OutputItem) -> Behavior>, call: ToolCallRequest,
                      raw: OutputItem, outs: seq<OutputItem>, last: OutputItem)
    requires guardrails != [] && Passes(guardrails, call, raw, outs) && |outs| == |guardrails|
    requires Replaces(guardrails[|outs| - 1](call, outs[|outs| - 1]), outs[|outs| - 1], last)
    ensures PassesAll(guardrails, call, raw, last)
  {
    var more := outs + [last];
    forall i | 0 <= i < |more| - 1 ensures Replaces(guardrails[i](call, more[i]), more[i], more[i + 1]) {
      if i < |outs| - 1 { assert more[i] == outs[i] && more[i + 1] == outs[i + 1]; }
    }
    assert Passes(guardrails, call, raw, more);
  }

  lemma OutputStopsEarlier(guardrails: seq<(ToolCallRequest, OutputItem) -> Behavior>, call: ToolCallRequest,
                           raw: OutputItem, error: ToolError)
    requires guardrails != [] && StopsIn(guardrails[..|guardrails| - 1], call, raw, error)
    ensures StopsIn(guardrails, call, raw, error)
  {
    var init := guardrails[..|guardrails| - 1];
    var outs :| Passes(init, call, raw, outs) && |outs| <= |init|
      && (if init[|outs| - 1](call, outs[|outs| - 1]) == RaiseException then error == GuardrailTripped
          else init[|outs| - 1](call, outs[|outs| - 1]) == Broken && error == ToolFailed);
    PassesMore(guardrails, call, raw, outs);
    assert guardrails[|outs| - 1] == init[|outs| - 1];
  }

  function RunStep(tool: FunctionTool, call: ToolCallRequest): Step {
    match RunTool(tool, call)
    case Stopped(error) => Fails(error)
    case Output(output) => Ran(output, ScreenInput(tool.inputGuardrails, call).Passed?)
  }

  lemma RunToolLaw(tool: FunctionTool, call: ToolCallRequest)
    ensures ToolRuns(tool, call, RunStep(tool, call))
  {
    hide ScreenInput, ScreenOutput, AllAllow, NoneStops, LastRejects, FirstStops, PassesAll, StopsIn;
    ScreenLaw(tool.inputGuardrails, call);
    match ScreenInput(tool.inputGuardrails, call)
    case Tripped =>
    case ScreeningFailed =>
    case Rejected(message) =>
      ScreenOutputLaw(tool.outputGuardrails, call, OutText(message));
      assert RawOutput(tool, call, OutText(message), false);
    case Passed =>
      match Invoke(tool, call)
      case Stopped(_) =>
      case Output(raw) =>
        ScreenOutputLaw(tool.outputGuardrails, call, raw);
        assert RawOutput(tool, call, raw, true);
  }

  lemma ApprovalLaw(d: Decision, call: ToolCallRequest)
    ensures ApprovalMatchesToolCall(d, call) <==> ApprovesCall(d.0, d.1, call)
  {}

  /** One call, with or without a decision. */
  lemma OneCallLaw(tools: seq<FunctionTool>, call: ToolCallRequest, decision: Option<Decision>, freshId: string)
    ensures CallLaw(tools, call, decision, freshId, ExecuteOne(tools, call, decision, freshId))
  {
    hide FindTool, RunTool, ScreenInput, ToolRuns, NoTool, FirstTool, ApprovalMatchesToolCall, ApprovesCall;
    FindsFirst(tools, call);
    if decision.Some? { ApprovalLaw(decision.value, call); }
    match FindTool(tools, call)
    case None =>
    case Some(tool) =>
      var k: nat :| k < |tools| && FirstTool(tools, call, k) && tools[k] == tool;
      RunToolLaw(tool, call);
  }

  // ---- all calls of a response ----

  /** The calls with a mark, in order. */
  function Marked(calls: seq<ToolCallRequest>, marks: seq<bool>): seq<ToolCallRequest>
    requires |marks| <= |calls|
  {
    if marks == [] then []
    else (if marks[0] then [calls[0]] else []) + Marked(calls[1..], marks[1..])
  }

  /** Call `i` runs with the i-th output. */
  ghost predicate CallRan(tools: seq<FunctionTool>, call: ToolCallRequest, decision: Option<Decision>,
                          freshId: string, result: ToolResult, invoked: bool) {
    CallLaw(tools, call, decision, freshId, Ran(result.output, invoked))
  }

  /** Each call obeys the law, in order, up to the first that pauses or fails; the invoked calls are the marked ones. */
  lemma {:induction false} CallsLaw(tools: seq<FunctionTool>, calls: seq<ToolCallRequest>,
                                    decision: Option<Decision>, freshId: string) returns (marks: seq<bool>)
    ensures |marks| <= |calls|
    ensures match Execute(tools, calls, decision, freshId)
      case Done(e) =>
        && |e.results| == |marks| && e.invoked == Marked(calls, marks)
        && (forall i :: 0 <= i < |marks| ==> CallRan(tools, calls[i], decision, freshId, e.results[i], marks[i]))
        && (match e.interruption
            case None => |marks| == |calls|
            case Some(x) =>
              |marks| < |calls| && CallLaw(tools, calls[|marks|], decision, freshId, Interrupts(x)))
      case Failed(error) =>
        |marks| < |calls| && CallLaw(tools, calls[|marks|], decision, freshId, Fails(error))
  {
    hide ExecuteOne, CallLaw;
    marks := [];
    if calls != [] {
      OneCallLaw(tools, calls[0], decision, freshId);
      var step := ExecuteOne(tools, calls[0], decision, freshId);
      if step.Ran? {
        var rest := CallsLaw(tools, calls[1..], decision, freshId);
        marks := [step.invoked] + rest;
        assert marks[1..] == rest;
        FirstRan(tools, calls, decision, freshId, marks);
      }
    }
  }

  lemma FirstRan(tools: seq<FunctionTool>, calls: seq<ToolCallRequest>, decision: Option<Decision>, freshId: string,
                 marks: seq<bool>)
    requires calls != [] && 0 < |marks| <= |calls|
    requires ExecuteOne(tools, calls[0], decision, freshId).Ran?
    requires marks[0] == ExecuteOne(tools, calls[0], decision, freshId).invoked
    requires CallLaw(tools, calls[0], decision, freshId, ExecuteOne(tools, calls[0], decision, freshId))
    requires match Execute(tools, calls[1..], decision, freshId)
      case Failed(_) => true
      case Done(e) =>
        && |e.results| == |marks| - 1 && e.invoked == Marked(calls[1..], marks[1..])
        && forall i :: 0 <= i < |marks| - 1 ==>
          CallRan(tools, calls[1..][i], decision, freshId, e.results[i], marks[1..][i])
    ensures match Execute(tools, calls, decision, freshId)
      case Failed(_) => true
      case Done(e) =>
        && |e.results| == |marks| && e.invoked == Marked(calls, marks)
        && forall i :: 0 <= i < |marks| ==> CallRan(tools, calls[i], decision, freshId, e.results[i], marks[i])
  {
    hide ExecuteOne, CallLaw;
    var all, rest := Execute(tools, calls, decision, freshId), Execute(tools, calls[1..], decision, freshId);
    if rest.Done? {
      var e, f := all.execution, rest.execution;
      assert e.results[1..] == f.results;
      forall i | 0 <= i < |marks| ensures CallRan(tools, calls[i], decision, freshId, e.results[i], marks[i]) {
        if i > 0 {
          assert CallRan(tools, calls[1..][i - 1], decision, freshId, f.results[i - 1], marks[1..][i - 1]);
        }
      }
    }
  }

  lemma {:induction false} MarkedIs(calls: seq<ToolCallRequest>, marks: seq<bool>, k: nat) returns (i: nat)
    requires |marks| <= |calls| && k < |Marked(calls, marks)|
    ensures i < |marks| && marks[i] && calls[i] == Marked(calls, marks)[k]
  {
    if marks[0] && k == 0 {
      i := 0;
    } else {
      var j := MarkedIs(calls[1..], marks[1..], if marks[0] then k - 1 else k);
      i := j + 1;
    }
  }

  /** A tool is invoked only for a call that all its input guardrails allow and, if the tool needs an approval, that
      the decision approves. */
  lemma InvokedWasAllowed(tools: seq<FunctionTool>, calls: seq<ToolCallRequest>, decision: Option<Decision>,
                          freshId: string, e: Execution, k: nat)
    requires Execute(tools, calls, decision, freshId) == Done(e) && k < |e.invoked|
    ensures e.invoked[k] in calls
    ensures exists t: nat ::
      && t < |tools| && FirstTool(tools, e.invoked[k], t) && AllAllow(tools[t].inputGuardrails, e.invoked[k])
      && (tools[t].needsApproval ==>
            decision.Some? && ApprovesCall(decision.value.0, decision.value.1, e.invoked[k]))
  {
    hide Execute, ApprovesCall, FirstTool, AllAllow, PassesAll;
    var marks := CallsLaw(tools, calls, decision, freshId);
    var i := MarkedIs(calls, marks, k);
    assert CallRan(tools, calls[i], decision, freshId, e.results[i], marks[i]);
    var t: nat :| t < |tools| && FirstTool(tools, calls[i], t)
      && ToolLaw(tools[t], calls[i], decision, freshId, Ran(e.results[i].output, true));
  }

  /** A call that may run, and that some input guardrail rejects while none raises or breaks, is answered by the
      message of the last of them, as the output guardrails leave it. */
  lemma RejectionAnswers(tools: seq<FunctionTool>, calls: seq<ToolCallRequest>, decision: Option<Decision>,
                         freshId: string, e: Execution, i: nat, t: nat, message: string)
    requires Execute(tools, calls, decision, freshId) == Done(e) && i < |e.results| && i < |calls|
    requires FirstTool(tools, calls[i], t) && !tools[t].needsApproval
    requires NoneStops(tools[t].inputGuardrails, calls[i], |tools[t].inputGuardrails|)
    requires LastRejects(tools[t].inputGuardrails, calls[i], message)
    ensures PassesAll(tools[t].outputGuardrails, calls[i], OutText(message), e.results[i].output)
  {
    hide Execute, PassesAll, NoneStops;
    var marks := CallsLaw(tools, calls, decision, freshId);
    assert CallRan(tools, calls[i], decision, freshId, e.results[i], marks[i]);
    var u: nat :| u < |tools| && FirstTool(tools, calls[i], u)
      && ToolLaw(tools[u], calls[i], decision, freshId, Ran(e.results[i].output, marks[i]));
    OnlyFirst(tools, calls[i], t, u);
    assert RunsTo(tools[t], calls[i], e.results[i].output, marks[i]);
    var raw :| RawOutput(tools[t], calls[i], raw, marks[i])
      && PassesAll(tools[t].outputGuardrails, calls[i], raw, e.results[i].output);
    OneRejection(tools[t].inputGuardrails, calls[i], message);
  }

  lemma OnlyFirst(tools: seq<FunctionTool>, call: ToolCallRequest, t: nat, u: nat)
    requires FirstTool(tools, call, t) && FirstTool(tools, call, u)
    ensures t == u
  {}

  lemma OneRejection(guardrails: seq<ToolCallRequest -> Behavior>, call: ToolCallRequest, message: string)
    requires LastRejects(guardrails, call, message)
    ensures !AllAllow(guardrails, call)
    ensures forall other :: LastRejects(guardrails, call, other) ==> other == message
  {}
}
