/** The state a paused run leaves behind, and the decisions recorded in it. */
module RunState {
  import opened Items
  import opened ToolExecution
  import opened ReplayItems

  type Approvals = map<string, ApprovalRecord>

  datatype Snapshot = Snapshot(currentTurn: nat, maxTurns: nat, originalInput: seq<InputItem>,
                               normalizedInput: Option<seq<InputItem>>, responses: seq<seq<OutputItem>>,
                               generated: seq<RunItem>, policy: ReasoningPolicy, step: Option<Interruption>,
                               approvals: Approvals)

  function RemainingTurns(s: Snapshot): nat {
    if s.maxTurns <= s.currentTurn then 0 else s.maxTurns - s.currentTurn
  }

  /** A pending call may be named by its call id instead of its approval id. */
  function ResolveApprovalKey(step: Option<Interruption>, id: string): string {
    if step.Some? && step.value.kind == Some(ToolApproval) && step.value.approvalId.Some?
       && (step.value.callId == Some(id) || step.value.approvalId == Some(id))
    then step.value.approvalId.value else id
  }

  function Decided(s: Snapshot, id: string, approved: bool, toolName: Option<string>,
                   reason: Option<string>): Snapshot {
    var key := ResolveApprovalKey(s.step, id);
    s.(approvals := s.approvals[key := ApprovalRecord(approved, reason, Some(key),
                                                      if s.step.Some? then s.step.value.callId else None, toolName,
                                                      if s.step.Some? then s.step.value.namespace else None)])
  }

  function Approval(s: Snapshot, id: string): Option<ApprovalRecord> {
    var key := ResolveApprovalKey(s.step, id);
    if key in s.approvals then Some(s.approvals[key]) else None
  }

  function ResumeInput(s: Snapshot): seq<InputItem> {
    ComposeReplay(if s.normalizedInput.Some? then s.normalizedInput.value else s.originalInput, s.generated, s.policy)
  }

  /** `merge_run_states`: the turns add up, but the budget stays the one of the later run. */
  function Merged(previous: Snapshot, next: Snapshot): Snapshot {
    Snapshot(previous.currentTurn + next.currentTurn, next.maxTurns, previous.originalInput,
             if previous.normalizedInput.Some? then previous.normalizedInput else next.normalizedInput,
             previous.responses + next.responses, previous.generated + next.generated, previous.policy, next.step,
             previous.approvals + next.approvals)
  }

  /** Either name of the pending call finds the same record, and a later decision replaces it. */
  lemma DecisionFound(s: Snapshot, id: string, other: string, approved: bool, toolName: Option<string>,
                      reason: Option<string>)
    requires s.step.Some? && s.step.value.kind == Some(ToolApproval) && s.step.value.approvalId.Some?
    requires id == s.step.value.approvalId.value || Some(id) == s.step.value.callId
    requires other == s.step.value.approvalId.value || Some(other) == s.step.value.callId
    ensures Approval(Decided(s, id, approved, toolName, reason), other)
         == Some(ApprovalRecord(approved, reason, s.step.value.approvalId, s.step.value.callId, toolName,
           s.step.value.namespace))
  {}

  class RunState {
    var currentTurn: nat
    var maxTurns: nat
    var originalInput: seq<InputItem>
    var normalizedInput: Option<seq<InputItem>>
    var responses: seq<seq<OutputItem>>
    var generated: seq<RunItem>
    var policy: ReasoningPolicy
    var currentStep: Option<Interruption>
    var approvals: Approvals

    function Current(): Snapshot
      reads this
    {
      Snapshot(currentTurn, maxTurns, originalInput, normalizedInput, responses, generated, policy, currentStep,
        approvals)
    }

    constructor (input: seq<InputItem>, turns: nat)
      ensures Current() == Snapshot(0, turns, input, None, [], [], Preserve, None, map[])
    {
      currentTurn, maxTurns, originalInput, normalizedInput := 0, turns, input, None;
      responses, generated, policy, currentStep, approvals := [], [], Preserve, None, map[];
    }

    method ApproveForTool(id: string, toolName: Option<string>, reason: Option<string>)
      modifies this
      ensures Current() == Decided(old(Current()), id, true, toolName, reason)
    {
      var key := ResolveApprovalKey(currentStep, id);
      var callId, namespace: Option<string> := None, None;
      if currentStep.Some? { callId, namespace := currentStep.value.callId, currentStep.value.namespace; }
      approvals := approvals[key := ApprovalRecord(true, reason, Some(key), callId, toolName, namespace)];
    }

    method RejectForTool(id: string, toolName: Option<string>, reason: Option<string>)
      modifies this
      ensures Current() == Decided(old(Current()), id, false, toolName, reason)
    {
      var key := ResolveApprovalKey(currentStep, id);
      var callId, namespace: Option<string> := None, None;
      if currentStep.Some? { callId, namespace := currentStep.value.callId, currentStep.value.namespace; }
      approvals := approvals[key := ApprovalRecord(false, reason, Some(key), callId, toolName, namespace)];
    }

    method ClearInterruption()
      modifies this
      ensures Current() == old(Current()).(step := None)
    {
      currentStep := None;
    }

    method ExtendGeneratedItems(items: seq<RunItem>)
      modifies this
      ensures Current() == old(Current()).(generated := old(generated) + items)
    {
      generated := generated + items;
    }

    method RemoveApproval(id: string)
      modifies this
      ensures Current() == old(Current()).(approvals := old(approvals) - {id})
    {
      approvals := approvals - {id};
    }

    /** Puts what an earlier state recorded before what this one did. */
    method MergePrevious(previous: RunState)
      requires previous != this
      modifies this
      ensures Current() == Merged(previous.Current(), old(Current()))
    {
      currentTurn := currentTurn + previous.currentTurn;
      originalInput := previous.originalInput;
      if previous.normalizedInput.Some? { normalizedInput := previous.normalizedInput; }
      responses := previous.responses + responses;
      generated := previous.generated + generated;
      policy := previous.policy;
      approvals := previous.approvals + approvals;
    }
  }
}
