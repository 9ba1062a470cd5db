/** The turn loop of a run, pausing for an approval, and resuming. */
module RunLoop {
  import opened Items
  import T = ToolExecution
  import opened ReplayItems
  import opened RunState

  type Request = T.ToolCallRequest

  /** The model answers the k-th call of a session; `ids` are the approval ids it would be given. */
  datatype Env = Env(model: (nat, seq<InputItem>) -> seq<OutputItem>, tools: seq<T.FunctionTool>, ids: nat -> string,
                     render: Json -> string, policy: ReasoningPolicy)

  datatype RunError =
    | MaxTurnsExceeded | UnknownHandoffTarget | ToolFailure(error: T.ToolError)
    | NoApprovalId | NoCallId | NoPendingCall | NoDecision | DecisionNotBound | InterruptedAgain

  datatype Ending = Final(output: seq<OutputItem>) | Paused(interruption: T.Interruption) | Failed(error: RunError)

  /** What a run gave the model, what it got, and what it recorded. */
  datatype Record = Record(inputs: seq<seq<InputItem>>, responses: seq<seq<OutputItem>>, generated: seq<RunItem>,
    end: Ending)

  // ---- one turn ----

  function CallsOf(env: Env, output: seq<OutputItem>): seq<Request> {
    T.ExtractToolCalls(output, env.render)
  }

  /** A response's calls are its tool calls, in order. */
  lemma CallsPush(env: Env, init: seq<OutputItem>, last: OutputItem)
    ensures CallsOf(env, init + [last])
         == CallsOf(env, init)
           + (if last.OutToolCall?
             then [T.ToolCallRequest(last.callId, last.toolName, env.render(last.arguments), last.namespace)] else [])
  {
    FilterMapAppend(T.ExtractToolCall(env.render), init, [last]);
    FilterMapOne(T.ExtractToolCall(env.render), last);
  }

  predicate HasHandoff(output: seq<OutputItem>) {
    exists i :: 0 <= i < |output| && output[i].OutHandoff?
  }

  function ModelInput(env: Env, history: seq<InputItem>, generated: seq<RunItem>): seq<InputItem> {
    history + RunItemsToInputItems(generated, env.policy)
  }

  datatype Turn = Continues(generated: seq<RunItem>) | Ends(generated: seq<RunItem>, end: Ending)

  /** What the run does with a response.  An empty response ends the loop without an output, which is
      reported like an exhausted budget. */
  function TakeResponse(env: Env, generated: seq<RunItem>, call: nat, output: seq<OutputItem>): Turn {
    if HasHandoff(output) then Ends(generated, Failed(UnknownHandoffTarget))
    else
      var items := generated + BuildMessageOutputItems(output);
      if CallsOf(env, output) == [] then Ends(items, if output == [] then Failed(MaxTurnsExceeded) else Final(output))
      else match T.Execute(env.tools, CallsOf(env, output), None, env.ids(call))
        case Failed(error) => Ends(items, Failed(ToolFailure(error)))
        case Done(e) =>
          if e.interruption.Some? then Ends(items + e.newItems, Paused(e.interruption.value))
            else Continues(items + e.newItems)
  }

  // ---- the loop ----

  function Then(input: seq<InputItem>, output: seq<OutputItem>, r: Record): Record {
    Record([input] + r.inputs, [output] + r.responses, r.generated, r.end)
  }

  function Loop(env: Env, history: seq<InputItem>, generated: seq<RunItem>, call: nat, budget: nat): Record
    decreases budget
  {
    if budget == 0 then Record([], [], generated, Failed(MaxTurnsExceeded))
    else
      var input := ModelInput(env, history, generated);
      var output := env.model(call, input);
      match TakeResponse(env, generated, call, output)
      case Ends(items, end) => Record([input], [output], items, end)
      case Continues(items) => Then(input, output, Loop(env, history, items, call + 1, budget - 1))
  }

  function Append(a: Record, b: Record): Record {
    Record(a.inputs + b.inputs, a.responses + b.responses, b.generated, b.end)
  }

  method RunTurn(env: Env, before: seq<RunItem>, call: nat, output: seq<OutputItem>) returns (turn: Turn)
    ensures turn == TakeResponse(env, before, call, output)
  {
    if HasHandoff(output) { return Ends(before, Failed(UnknownHandoffTarget)); }
    var generated := before + BuildMessageOutputItems(output);
    var calls := CallsOf(env, output);
    if calls == [] { return Ends(generated, if output == [] then Failed(MaxTurnsExceeded) else Final(output)); }
    var outcome := T.ExecuteLocalFunctionTools(env.tools, calls, None, env.ids(call));
    if outcome.Failed? { return Ends(generated, Failed(ToolFailure(outcome.error))); }
    generated := generated + outcome.execution.newItems;
    if outcome.execution.interruption.Some? { return Ends(generated, Paused(outcome.execution.interruption.value)); }
    turn := Continues(generated);
  }

  method RunItems(env: Env, history: seq<InputItem>, firstCall: nat, budget: nat) returns (r: Record)
    ensures r == Loop(env, history, [], firstCall, budget)
  {
    hide ModelInput, TakeResponse;
    var inputs: seq<seq<InputItem>>, responses: seq<seq<OutputItem>>, generated: seq<RunItem> := [], [], [];
    var turn, call := 0, firstCall;
    while turn < budget
      invariant turn <= budget && call == firstCall + turn
      invariant Append(Record(inputs, responses, generated, Failed(MaxTurnsExceeded)),
        Loop(env, history, generated, call, budget - turn))
             == Loop(env, history, [], firstCall, budget)
      decreases budget - turn
    {
      var input := ModelInput(env, history, generated);
      var output := env.model(call, input);
      var taken := RunTurn(env, generated, call, output);
      ghost var before := Record(inputs, responses, generated, Failed(MaxTurnsExceeded));
      inputs := inputs + [input];
      responses := responses + [output];
      if taken.Ends? { return Record(inputs, responses, taken.generated, taken.end); }
      generated := taken.generated;
      AppendThen(before, input, output, Loop(env, history, generated, call + 1, budget - turn - 1));
      turn, call := turn + 1, call + 1;
    }
    r := Record(inputs, responses, generated, Failed(MaxTurnsExceeded));
  }

  lemma AppendThen(a: Record, input: seq<InputItem>, output: seq<OutputItem>, b: Record)
    ensures Append(a, Then(input, output, b))
      == Append(Record(a.inputs + [input], a.responses + [output], a.generated, a.end), b)
  {
    assert a.inputs + ([input] + b.inputs) == a.inputs + [input] + b.inputs;
    assert a.responses + ([output] + b.responses) == a.responses + [output] + b.responses;
  }

  // ---- pausing and resuming ----

  function SnapshotOf(r: Record, input: seq<InputItem>, budget: nat): Snapshot {
    Snapshot(|r.responses|, budget, input, None, r.responses, r.generated, Preserve,
             if r.end.Paused? then Some(r.end.interruption) else None, map[])
  }

  datatype ResumeOutcome = Resumed(record: Record, state: Snapshot) | Refused(error: RunError)

  /** Runs on with the turns that are left, on the replayed items as a fresh input. */
  function RunOn(env: Env, s: Snapshot): ResumeOutcome {
    var r := Loop(env, ResumeInput(s), [], |s.responses|, RemainingTurns(s));
    if r.end.Failed? then Refused(r.end.error)
    else Resumed(r, Merged(s, SnapshotOf(r, ResumeInput(s), RemainingTurns(s))))
  }

  predicate Bound(approval: T.ApprovalRecord, callId: string, call: Request) {
    approval.callId == Some(callId) && approval.toolName == Some(call.name) && approval.namespace == call.namespace
  }

  function ResumePending(env: Env, s: Snapshot, step: T.Interruption): ResumeOutcome {
    if step.approvalId.None? then Refused(NoApprovalId)
    else if step.callId.None? then Refused(NoCallId)
    else match T.FindPendingToolCall(s.generated, step.callId.value, env.render)
      case None => Refused(NoPendingCall)
      case Some(call) =>
        match Approval(s, step.approvalId.value)
        case None => Refused(NoDecision)
        case Some(approval) =>
          if !Bound(approval, step.callId.value, call) then Refused(DecisionNotBound)
          else match T.Execute(env.tools, [call], Some((step, approval)), env.ids(|s.responses|))
            case Failed(error) => Refused(ToolFailure(error))
            case Done(e) =>
              if e.interruption.Some? then Refused(InterruptedAgain)
              else RunOn(env, s.(step := None, approvals := s.approvals - {step.approvalId.value},
                generated := s.generated + e.newItems))
  }

  function Resume(env: Env, s: Snapshot): ResumeOutcome {
    if RemainingTurns(s) == 0 then Refused(MaxTurnsExceeded)
    else if s.step.Some? && s.step.value.kind == Some(T.ToolApproval) then ResumePending(env, s, s.step.value)
    else RunOn(env, s)
  }

  // ---- the same on run states ----

  /** What a successful run leaves behind. */
  method SaveState(r: Record, input: seq<InputItem>, budget: nat) returns (state: RunState)
    requires !r.end.Failed?
    ensures fresh(state) && state.Current() == SnapshotOf(r, input, budget)
  {
    state := new RunState(input, budget);
    state.currentTurn := |r.responses|;
    state.ExtendGeneratedItems(r.generated);
    state.responses := r.responses;
    if r.end.Paused? { state.currentStep := Some(r.end.interruption); }
    assert [] + r.generated == r.generated;
  }

  method RunOnFrom(env: Env, state: RunState) returns (r: Record, next: RunState?)
    ensures match RunOn(env, state.Current())
      case Refused(error) => next == null && r.end == Failed(error)
      case Resumed(record, after) => r == record && next != null && fresh(next) && next.Current() == after
  {
    var left := RemainingTurns(state.Current());
    var input := ResumeInput(state.Current());
    r := RunItems(env, input, |state.responses|, left);
    next := null;
    if !r.end.Failed? {
      next := SaveState(r, input, left);
      next.MergePrevious(state);
    }
  }

  /** Resuming works on a copy: the paused state stays as it was. */
  method ResumeRun(env: Env, state: RunState) returns (r: Record, next: RunState?)
    ensures state.Current() == old(state.Current())
    ensures match Resume(env, state.Current())
      case Refused(error) => next == null && r.end == Failed(error)
      case Resumed(record, after) => r == record && next != null && fresh(next) && next.Current() == after
  {
    var s := state.Current();
    r, next := Record([], [], [], Failed(MaxTurnsExceeded)), null;
    if RemainingTurns(s) == 0 { return; }
    if s.step.None? || s.step.value.kind != Some(T.ToolApproval) {
      r, next := RunOnFrom(env, state);
      return;
    }
    var step := s.step.value;
    if step.approvalId.None? { r := r.(end := Failed(NoApprovalId)); return; }
    if step.callId.None? { r := r.(end := Failed(NoCallId)); return; }
    var call := T.FindPendingToolCall(s.generated, step.callId.value, env.render);
    if call.None? { r := r.(end := Failed(NoPendingCall)); return; }
    var approval := Approval(s, step.approvalId.value);
    if approval.None? { r := r.(end := Failed(NoDecision)); return; }
    if !Bound(approval.value, step.callId.value, call.value) { r := r.(end := Failed(DecisionNotBound)); return; }
    var outcome := T.ExecuteLocalFunctionTools(env.tools, [call.value], Some((step, approval.value)),
      env.ids(|s.responses|));
    if outcome.Failed? { r := r.(end := Failed(ToolFailure(outcome.error))); return; }
    if outcome.execution.interruption.Some? { r := r.(end := Failed(InterruptedAgain)); return; }
    var continued := Copy(state);
    continued.ClearInterruption();
    continued.RemoveApproval(step.approvalId.value);
    continued.ExtendGeneratedItems(outcome.execution.newItems);
    r, next := RunOnFrom(env, continued);
  }

  method Copy(state: RunState) returns (copy: RunState)
    ensures fresh(copy) && copy.Current() == state.Current()
  {
    copy := new RunState(state.originalInput, state.maxTurns);
    copy.currentTurn, copy.normalizedInput, copy.responses := state.currentTurn, state.normalizedInput, state.responses;
    copy.generated, copy.policy, copy.currentStep, copy.approvals := state.generated, state.policy, state.currentStep,
      state.approvals;
  }

  // ---- turn budgets ----

  lemma {:induction false} LoopCounts(env: Env, history: seq<InputItem>, generated: seq<RunItem>, call: nat,
                                      budget: nat)
    ensures var r := Loop(env, history, generated, call, budget);
      |r.inputs| == |r.responses| <= budget && (!r.end.Failed? ==> |r.responses| >= 1)
    decreases budget
  {
    hide TakeResponse, ModelInput;
    if budget > 0 {
      var output := env.model(call, ModelInput(env, history, generated));
      var turn := TakeResponse(env, generated, call, output);
      if turn.Continues? { LoopCounts(env, history, turn.generated, call + 1, budget - 1); }
    }
  }

  /** The recorded turn is the number of recorded responses. */
  ghost predicate Counted(s: Snapshot) { s.currentTurn == |s.responses| }

  lemma RunOnCounts(env: Env, s: Snapshot)
    requires Counted(s)
    ensures match RunOn(env, s)
      case Refused(_) => true
      case Resumed(r, t) =>
        && Counted(t) && t.currentTurn == s.currentTurn + |r.responses| && 1 <= |r.responses| <= RemainingTurns(s)
        && t.maxTurns == RemainingTurns(s)
  {
    LoopCounts(env, ResumeInput(s), [], |s.responses|, RemainingTurns(s));
  }

  /** A successful resume adds at least one turn and at most those that were left. */
  lemma ResumeCounts(env: Env, s: Snapshot)
    requires Counted(s)
    ensures match Resume(env, s)
      case Refused(_) => true
      case Resumed(r, t) =>
        && Counted(t) && t.currentTurn == s.currentTurn + |r.responses| && 1 <= |r.responses| <= RemainingTurns(s)
        && t.maxTurns == RemainingTurns(s) && s.currentTurn < s.maxTurns
  {
    hide RunOn, T.Execute, T.FindPendingToolCall;
    forall continued: Snapshot | Counted(continued) ensures match RunOn(env, continued)
      case Refused(_) => true
      case Resumed(r, t) =>
        && Counted(t) && t.currentTurn == continued.currentTurn + |r.responses|
        && 1 <= |r.responses| <= RemainingTurns(continued)
        && t.maxTurns == RemainingTurns(continued) { RunOnCounts(env, continued); }
  }

  /** Resuming after any decision, in any environment. */
  ghost predicate Follows(s: Snapshot, t: Snapshot) {
    exists env: Env, approvals: Approvals, r: Record :: Resume(env, s.(approvals := approvals)) == Resumed(r, t)
  }

  /** A first run with its resumes. */
  ghost predicate Chain(states: seq<Snapshot>, maxTurns: nat) {
    && states != [] && states[0].maxTurns == maxTurns && Counted(states[0]) && 1 <= states[0].currentTurn <= maxTurns
    && forall i :: 0 <= i < |states| - 1 ==> Follows(states[i], states[i + 1])
  }

  /** The turns recorded by the states before the last one, added up. */
  function Spent(states: seq<Snapshot>): nat {
    if |states| <= 1 then 0 else Spent(states[..|states| - 1]) + states[|states| - 2].currentTurn
  }

  lemma FollowsCounts(s: Snapshot, t: Snapshot)
    requires Follows(s, t) && Counted(s)
    ensures Counted(t) && s.currentTurn < t.currentTurn <= s.maxTurns && t.maxTurns == s.maxTurns - s.currentTurn
  {
    hide Resume;
    var env: Env, approvals: Approvals, r: Record :| Resume(env, s.(approvals := approvals)) == Resumed(r, t);
    ResumeCounts(env, s.(approvals := approvals));
  }

  /** Along a chain the recorded turns are the recorded responses and never exceed the first budget.
      Each resume takes all turns recorded so far off the budget, so that `k` resumes need a budget of
      more than k(k+1)/2. */
  lemma {:induction false} ChainBudget(states: seq<Snapshot>, maxTurns: nat)
    requires Chain(states, maxTurns)
    ensures var last := states[|states| - 1];
      && last.currentTurn == |last.responses| <= maxTurns
      && last.maxTurns == maxTurns - Spent(states) && |states| <= last.currentTurn
    ensures |states| * (|states| - 1) <= 2 * Spent(states)
    ensures |states| > 1 ==> Spent(states) < maxTurns
  {
    hide Follows;
    if |states| > 1 {
      var before, n := states[..|states| - 1], |states|;
      ChainPrefix(states, maxTurns);
      ChainBudget(before, maxTurns);
      assert Follows(states[n - 2], states[n - 2 + 1]);
      FollowsCounts(states[n - 2], states[n - 1]);
      Triangle(n);
    }
  }

  lemma ChainPrefix(states: seq<Snapshot>, maxTurns: nat)
    requires Chain(states, maxTurns) && |states| > 1
    ensures Chain(states[..|states| - 1], maxTurns)
  {
    hide Follows;
    var before := states[..|states| - 1];
    forall i | 0 <= i < |before| - 1 ensures Follows(before[i], before[i + 1]) {
      assert Follows(states[i], states[i + 1]);
    }
  }

  lemma Triangle(n: nat)
    requires n > 0
    ensures n * (n - 1) == (n - 1) * (n - 2) + 2 * (n - 1)
  {}

  lemma FirstRunCounts(env: Env, input: seq<InputItem>, budget: nat)
    requires !Loop(env, input, [], 0, budget).end.Failed?
    ensures Chain([SnapshotOf(Loop(env, input, [], 0, budget), input, budget)], budget)
  {
    LoopCounts(env, input, [], 0, budget);
  }

  /** What is left after a resume: the earlier turns are taken off a second time.  That loses turns unless
      nothing had been spent before, or nothing is left anyway. */
  lemma RemainingAfterResume(env: Env, s: Snapshot)
    requires Counted(s)
    ensures match Resume(env, s)
      case Refused(_) => true
      case Resumed(_, t) =>
        && RemainingTurns(t) == Max(0, s.maxTurns - s.currentTurn - t.currentTurn)
        && (RemainingTurns(t) == s.maxTurns - t.currentTurn <==> s.currentTurn == 0 || t.currentTurn == s.maxTurns)
  {
    hide Resume;
    ResumeCounts(env, s);
  }
}
