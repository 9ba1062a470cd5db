/** What a run gives the model, records and leaves behind, told turn by turn. */
module RunLaws {
  import opened Items
  import T = ToolExecution
  import opened ReplayItems
  import opened RunState
  import opened RunLoop
  import L = ToolLaws
  import R = ReplayLaws

  // ---- the turns of a run ----

  /** What was recorded of the first `n` responses: each one converted, followed by its tool outputs. */
  function Recorded(responses: seq<seq<OutputItem>>, outs: seq<seq<RunItem>>, n: nat): seq<RunItem>
    requires n <= |responses| == |outs|
  {
    if n == 0 then []
    else Recorded(responses, outs, n - 1) + BuildMessageOutputItems(responses[n - 1]) + outs[n - 1]
  }

  ghost predicate AsksHandoff(output: seq<OutputItem>) { exists o :: o in output && o.OutHandoff? }

  ghost predicate AsksTools(output: seq<OutputItem>) { exists o :: o in output && o.OutToolCall? }

  /** All calls of the response ran, with these outputs. */
  ghost predicate GoesOn(env: Env, call: nat, output: seq<OutputItem>, outs: seq<RunItem>) {
    && !AsksHandoff(output) && AsksTools(output)
    && var r := T.Execute(env.tools, CallsOf(env, output), None, env.ids(call));
      r.Done? && r.execution.interruption == None && r.execution.newItems == outs
  }

  ghost predicate Pauses(env: Env, call: nat, output: seq<OutputItem>, outs: seq<RunItem>, x: T.Interruption) {
    && !AsksHandoff(output) && AsksTools(output)
    && var r := T.Execute(env.tools, CallsOf(env, output), None, env.ids(call));
      r.Done? && r.execution.interruption == Some(x) && r.execution.newItems == outs
  }

  ghost predicate ToolFails(env: Env, call: nat, output: seq<OutputItem>, error: T.ToolError) {
    !AsksHandoff(output) && AsksTools(output)
    && T.Execute(env.tools, CallsOf(env, output), None, env.ids(call)) == T.Failed(error)
  }

  /** What the last response of a run comes to. */
  ghost predicate EndsWith(env: Env, call: nat, output: seq<OutputItem>, outs: seq<RunItem>, end: Ending) {
    match end
    case Final(o) => o == output && output != [] && !AsksHandoff(output) && !AsksTools(output) && outs == []
    case Paused(x) => Pauses(env, call, output, outs, x)
    case Failed(UnknownHandoffTarget) => AsksHandoff(output)
    case Failed(MaxTurnsExceeded) => output == [] && outs == []
    case Failed(ToolFailure(error)) => ToolFails(env, call, output, error) && outs == []
    case Failed(_) => false
  }

  /** The items that a run has recorded at its end: a response that asks for a handoff is not recorded. */
  function RecordedAtEnd(r: Record, outs: seq<seq<RunItem>>): seq<RunItem>
    requires |r.responses| == |outs|
  {
    Recorded(r.responses, outs, if r.end == Failed(UnknownHandoffTarget) && outs != [] then |outs| - 1 else |outs|)
  }

  /** The k-th model call: its input is the history and everything recorded before. */
  ghost predicate AsksModel(env: Env, history: seq<InputItem>, before: seq<RunItem>, call: nat, r: Record,
                            outs: seq<seq<RunItem>>, k: nat)
    requires k < |r.responses| == |outs| && |r.inputs| == |r.responses|
  {
    && r.inputs[k] == history + RunItemsToInputItems(before + Recorded(r.responses, outs, k), env.policy)
    && r.responses[k] == env.model(call + k, r.inputs[k])
  }

  ghost predicate RunLaw(env: Env, history: seq<InputItem>, before: seq<RunItem>, call: nat, budget: nat, r: Record,
                         outs: seq<seq<RunItem>>) {
    var n := |r.responses|;
    && |r.inputs| == n == |outs| <= budget
    && (forall k :: 0 <= k < n ==> AsksModel(env, history, before, call, r, outs, k))
    && (forall k :: 0 <= k < n - 1 ==> GoesOn(env, call + k, r.responses[k], outs[k]))
    && r.generated == before + RecordedAtEnd(r, outs)
    && (if n == budget && r.end == Failed(MaxTurnsExceeded)
          && (n > 0 ==> GoesOn(env, call + (n - 1), r.responses[n - 1], outs[n - 1])) then true
        else n > 0 && EndsWith(env, call + (n - 1), r.responses[n - 1], outs[n - 1], r.end))
  }

  // ---- the loop obeys the law ----

  lemma HandoffAsked(output: seq<OutputItem>)
    ensures HasHandoff(output) <==> AsksHandoff(output)
  {
    if AsksHandoff(output) {
      var o :| o in output && o.OutHandoff?;
      var i :| 0 <= i < |output| && output[i] == o;
    }
  }

  lemma {:induction false} ToolsAsked(env: Env, output: seq<OutputItem>)
    ensures CallsOf(env, output) != [] <==> AsksTools(output)
  {
    if output == [] {
    } else {
      var init, last := output[..|output| - 1], output[|output| - 1];
      assert output == init + [last];
      ToolsAsked(env, init);
      CallsPush(env, init, last);
      hide CallsOf;
      if o :| o in init && o.OutToolCall? { assert o in output; }
      if o :| o in output && o.OutToolCall? { assert o in init || o == last; }
    }
  }

  lemma {:induction false} RecordedFirst(output: seq<OutputItem>, out: seq<RunItem>, responses: seq<seq<OutputItem>>,
                                         outs: seq<seq<RunItem>>, n: nat)
    requires n <= |responses| == |outs|
    ensures Recorded([output] + responses, [out] + outs, n + 1)
         == BuildMessageOutputItems(output) + out + Recorded(responses, outs, n)
  {
    var first := BuildMessageOutputItems(output) + out;
    var all, allOuts := [output] + responses, [out] + outs;
    hide BuildMessageOutputItems;
    if n == 0 {
      assert Recorded(all, allOuts, 0) == [];
      assert Recorded(all, allOuts, 1) == [] + BuildMessageOutputItems(output) + out == first;
    } else {
      RecordedFirst(output, out, responses, outs, n - 1);
      var before, more := Recorded(responses, outs, n - 1), BuildMessageOutputItems(responses[n - 1]);
      assert all[n] == responses[n - 1] && allOuts[n] == outs[n - 1];
      assert Recorded(all, allOuts, n + 1) == first + before + more + outs[n - 1];
      assert first + before + more + outs[n - 1] == first + (before + more + outs[n - 1]);
    }
  }

  lemma NothingRecorded(responses: seq<seq<OutputItem>>, outs: seq<seq<RunItem>>, before: seq<RunItem>)
    requires |responses| == |outs|
    ensures Recorded(responses, outs, 0) == [] && before + Recorded(responses, outs, 0) == before
  {}

  /** A turn that goes on, and the rest of the run. */
  lemma LawThen(env: Env, history: seq<InputItem>, before: seq<RunItem>, call: nat, budget: nat,
                input: seq<InputItem>, output: seq<OutputItem>, out: seq<RunItem>, rest: Record,
                outs: seq<seq<RunItem>>)
    requires budget > 0 && GoesOn(env, call, output, out)
    requires input == history + RunItemsToInputItems(before, env.policy) && output == env.model(call, input)
    requires RunLaw(env, history, before + (BuildMessageOutputItems(output) + out), call + 1, budget - 1, rest, outs)
    ensures RunLaw(env, history, before, call, budget, Then(input, output, rest), [out] + outs)
  {
    hide GoesOn, EndsWith, BuildMessageOutputItems, RunItemsToInputItems, Recorded;
    var r, all := Then(input, output, rest), [out] + outs;
    var first := BuildMessageOutputItems(output) + out;
    var n := |rest.responses|;
    NothingRecorded(r.responses, all, before);
    forall k | 0 <= k < n + 1 ensures AsksModel(env, history, before, call, r, all, k) {
      if k > 0 {
        assert AsksModel(env, history, before + first, call + 1, rest, outs, k - 1);
        RecordedFirst(output, out, rest.responses, outs, k - 1);
        assert before + first + Recorded(rest.responses, outs, k - 1)
          == before + (first + Recorded(rest.responses, outs, k - 1));
      }
    }
    forall k | 0 <= k < n ensures GoesOn(env, call + k, r.responses[k], all[k]) {
      if k > 0 { assert GoesOn(env, call + 1 + (k - 1), rest.responses[k - 1], outs[k - 1]); }
    }
    RecordedAtEndFirst(output, out, rest, outs, input, before);
  }

  lemma RecordedAtEndFirst(output: seq<OutputItem>, out: seq<RunItem>, rest: Record, outs: seq<seq<RunItem>>,
                           input: seq<InputItem>, before: seq<RunItem>)
    requires |rest.responses| == |outs| && (rest.end == Failed(UnknownHandoffTarget) ==> outs != [])
    requires rest.generated == before + (BuildMessageOutputItems(output) + out) + RecordedAtEnd(rest, outs)
    ensures rest.generated == before + RecordedAtEnd(Then(input, output, rest), [out] + outs)
  {
    hide BuildMessageOutputItems, Recorded;
    var n := if rest.end == Failed(UnknownHandoffTarget) then |outs| - 1 else |outs|;
    RecordedFirst(output, out, rest.responses, outs, n);
    var first := BuildMessageOutputItems(output) + out;
    assert before + first + Recorded(rest.responses, outs, n) == before + (first + Recorded(rest.responses, outs, n));
  }

  lemma OneRecorded(output: seq<OutputItem>, out: seq<RunItem>)
    ensures Recorded([output], [out], 1) == BuildMessageOutputItems(output) + out
  {
    hide BuildMessageOutputItems;
    assert Recorded([output], [out], 0) == [];
    assert [] + BuildMessageOutputItems(output) == BuildMessageOutputItems(output);
  }

  /** A turn that ends the run. */
  lemma LawEnds(env: Env, history: seq<InputItem>, before: seq<RunItem>, call: nat, budget: nat,
                input: seq<InputItem>, output: seq<OutputItem>, out: seq<RunItem>, items: seq<RunItem>, end: Ending)
    requires budget > 0 && EndsWith(env, call, output, out, end)
    requires input == history + RunItemsToInputItems(before, env.policy) && output == env.model(call, input)
    requires items == if end == Failed(UnknownHandoffTarget) then before
      else before + (BuildMessageOutputItems(output) + out)
    ensures RunLaw(env, history, before, call, budget, Record([input], [output], items, end), [out])
  {
    hide GoesOn, EndsWith, BuildMessageOutputItems, RunItemsToInputItems, Recorded;
    NothingRecorded([output], [out], before);
    OneRecorded(output, out);
    assert AsksModel(env, history, before, call, Record([input], [output], items, end), [out], 0);
  }

  /** What a turn adds, and how it ends or goes on. */
  lemma TurnLaw(env: Env, before: seq<RunItem>, call: nat, output: seq<OutputItem>) returns (out: seq<RunItem>)
    ensures var turn := TakeResponse(env, before, call, output);
      && (turn.Continues? ==> GoesOn(env, call, output, out))
      && (turn.Ends? ==> EndsWith(env, call, output, out, turn.end))
      && turn.generated == if turn.Ends? && turn.end == Failed(UnknownHandoffTarget) then before
                           else before + (BuildMessageOutputItems(output) + out)
  {
    HandoffAsked(output);
    ToolsAsked(env, output);
    hide CallsOf, BuildMessageOutputItems, AsksHandoff, AsksTools, T.Execute, HasHandoff;
    var message := BuildMessageOutputItems(output);
    assert message + [] == message;
    out := [];
    if !HasHandoff(output) && CallsOf(env, output) != [] {
      var r := T.Execute(env.tools, CallsOf(env, output), None, env.ids(call));
      if r.Done? {
        out := r.execution.newItems;
        assert before + message + out == before + (message + out);
      }
    }
  }

  /** Every run obeys the law: what it gave the model, what it did with the responses, what it recorded and why it
      ended. */
  lemma {:induction false} LoopLaw(env: Env, history: seq<InputItem>, before: seq<RunItem>, call: nat, budget: nat)
    returns (outs: seq<seq<RunItem>>)
    ensures RunLaw(env, history, before, call, budget, Loop(env, history, before, call, budget), outs)
    decreases budget
  {
    hide RunLaw, TakeResponse, GoesOn, EndsWith, BuildMessageOutputItems, RunItemsToInputItems;
    if budget == 0 {
      outs := [];
      NoTurns(env, history, before, call);
    } else {
      var input := ModelInput(env, history, before);
      var output := env.model(call, input);
      var out := TurnLaw(env, before, call, output);
      match TakeResponse(env, before, call, output)
      case Ends(items, end) =>
        outs := [out];
        LawEnds(env, history, before, call, budget, input, output, out, items, end);
      case Continues(items) =>
        var rest := LoopLaw(env, history, items, call + 1, budget - 1);
        outs := [out] + rest;
        LawThen(env, history, before, call, budget, input, output, out,
                Loop(env, history, items, call + 1, budget - 1), rest);
    }
  }

  lemma NoTurns(env: Env, history: seq<InputItem>, before: seq<RunItem>, call: nat)
    ensures RunLaw(env, history, before, call, 0, Record([], [], before, Failed(MaxTurnsExceeded)), [])
  {}

  // ---- the state a run leaves ----

  function TurnsLeft(s: Snapshot): nat { if s.currentTurn < s.maxTurns then s.maxTurns - s.currentTurn else 0 }

  /** A resumed run starts from the normalised input if there is one, else from the original one, and from what was
      recorded. */
  lemma ResumeInputLaw(s: Snapshot, base: seq<InputItem>) returns (k: nat)
    requires s.normalizedInput == Some(base) || (s.normalizedInput == None && s.originalInput == base)
    ensures var generated := RunItemsToInputItems(s.generated, s.policy);
      && k <= |generated| && ResumeInput(s) == R.Staying(base, |base|) + generated[k..]
      && (k > 0 ==> R.Repeats(base, generated, k)) && forall j: nat :: R.Repeats(base, generated, j) ==> j <= k
  {
    k := R.ReplayLaw(base, s.generated, s.policy);
  }

  /** The state of a resumed run: both halves in order, the normalised input of the earlier half if it has one, the
      later decisions before the earlier ones, and the rest from the half that has it. */
  lemma MergedLaw(previous: Snapshot, next: Snapshot)
    ensures var s := Merged(previous, next);
      && s.responses == previous.responses + next.responses && s.generated == previous.generated + next.generated
      && s.currentTurn == previous.currentTurn + next.currentTurn && s.maxTurns == next.maxTurns
      && s.originalInput == previous.originalInput && s.policy == previous.policy && s.step == next.step
      && (previous.normalizedInput.Some? ==> s.normalizedInput == previous.normalizedInput)
      && (previous.normalizedInput.None? ==> s.normalizedInput == next.normalizedInput)
      && (forall id :: id in s.approvals <==> id in previous.approvals || id in next.approvals)
      && (forall id :: id in s.approvals ==>
            s.approvals[id] == if id in next.approvals then next.approvals[id] else previous.approvals[id])
  {}

  /** Running on puts what the rest of the run adds behind what was recorded; only the budget is the rest's. */
  lemma RunOnLaw(env: Env, s: Snapshot)
    ensures var r := Loop(env, ResumeInput(s), [], |s.responses|, TurnsLeft(s));
      RunOn(env, s) ==
      if r.end.Failed? then Refused(r.end.error)
      else Resumed(r, Snapshot(s.currentTurn + |r.responses|, TurnsLeft(s), s.originalInput, s.normalizedInput,
                               s.responses + r.responses, s.generated + r.generated, s.policy,
                               if r.end.Paused? then Some(r.end.interruption) else None, s.approvals))
  {
    hide Loop, ResumeInput;
    var none: Approvals := map[];
    assert s.approvals + none == s.approvals;
  }

  /** A decision about the pending call, by either of its ids, is recorded under its approval id, any other under
      the id given; nothing else changes. */
  lemma DecidedLaw(s: Snapshot, id: string, approved: bool, toolName: Option<string>, reason: Option<string>)
    ensures var t := Decided(s, id, approved, toolName, reason);
      var pending := s.step.Some? && s.step.value.kind == Some(T.ToolApproval) && s.step.value.approvalId.Some?
                     && Some(id) in {s.step.value.callId, s.step.value.approvalId};
      var key := if pending then s.step.value.approvalId.value else id;
      && t.(approvals := s.approvals) == s && t.approvals.Keys == s.approvals.Keys + {key}
      && (forall other :: other in s.approvals && other != key ==> t.approvals[other] == s.approvals[other])
      && t.approvals[key] == T.ApprovalRecord(approved, reason, Some(key),
                                             if s.step.Some? then s.step.value.callId else None, toolName,
                                             if s.step.Some? then s.step.value.namespace else None)
  {}

  // ---- resuming ----

  /** The latest recorded call with the id. */
  ghost predicate LatestCall(generated: seq<RunItem>, id: string, k: nat) {
    && k < |generated| && generated[k].ToolCall? && generated[k].callId == Some(id)
    && forall j :: k < j < |generated| ==> !(generated[j].ToolCall? && generated[j].callId == Some(id))
  }

  ghost predicate NoCallWith(generated: seq<RunItem>, id: string) {
    forall j :: 0 <= j < |generated| ==> !(generated[j].ToolCall? && generated[j].callId == Some(id))
  }

  ghost predicate IsPending(env: Env, generated: seq<RunItem>, id: string, call: Request) {
    exists k: nat ::
      LatestCall(generated, id, k)
      && call == T.ToolCallRequest(id, generated[k].toolName, env.render(generated[k].arguments),
                                   generated[k].namespace)
  }

  ghost predicate AwaitsApproval(s: Snapshot) {
    s.currentTurn < s.maxTurns && s.step.Some? && s.step.value.kind == Some(T.ToolApproval)
  }

  /** The pending call, and the record of a decision about it that names its id, its tool and its namespace. */
  ghost predicate IsDecided(env: Env, s: Snapshot, call: Request, record: T.ApprovalRecord) {
    && AwaitsApproval(s) && s.step.value.approvalId.Some? && s.step.value.callId.Some?
    && IsPending(env, s.generated, s.step.value.callId.value, call)
    && s.step.value.approvalId.value in s.approvals && record == s.approvals[s.step.value.approvalId.value]
    && record.callId == s.step.value.callId && record.toolName == Some(call.name) && record.namespace == call.namespace
  }

  /** The same with a record that does not name all of that. */
  ghost predicate IsUnbound(env: Env, s: Snapshot, call: Request, record: T.ApprovalRecord) {
    && AwaitsApproval(s) && s.step.value.approvalId.Some? && s.step.value.callId.Some?
    && IsPending(env, s.generated, s.step.value.callId.value, call)
    && s.step.value.approvalId.value in s.approvals && record == s.approvals[s.step.value.approvalId.value]
    && !(record.callId == s.step.value.callId && record.toolName == Some(call.name)
         && record.namespace == call.namespace)
  }

  /** What the pending call comes to under the decision. */
  ghost predicate Comes(env: Env, s: Snapshot, call: Request, record: T.ApprovalRecord, step: T.Step)
    requires s.step.Some?
  {
    L.CallLaw(env.tools, call, Some((s.step.value, record)), env.ids(|s.responses|), step)
  }

  ghost predicate ComesTo(env: Env, s: Snapshot, step: T.Step) {
    exists call, record :: IsDecided(env, s, call, record) && Comes(env, s, call, record, step)
  }

  /** Why a resume is refused before the model is asked again. */
  ghost predicate RefusedBefore(env: Env, s: Snapshot, error: RunError) {
    match error
    case MaxTurnsExceeded => s.maxTurns <= s.currentTurn
    case NoApprovalId => AwaitsApproval(s) && s.step.value.approvalId == None
    case NoCallId => AwaitsApproval(s) && s.step.value.approvalId.Some? && s.step.value.callId == None
    case NoPendingCall =>
      && AwaitsApproval(s) && s.step.value.approvalId.Some? && s.step.value.callId.Some?
      && NoCallWith(s.generated, s.step.value.callId.value)
    case NoDecision =>
      && AwaitsApproval(s) && s.step.value.approvalId.Some? && s.step.value.callId.Some?
      && !NoCallWith(s.generated, s.step.value.callId.value) && s.step.value.approvalId.value !in s.approvals
    case DecisionNotBound => exists call, record :: IsUnbound(env, s, call, record)
    case ToolFailure(failure) => ComesTo(env, s, T.Fails(failure))
    case InterruptedAgain => exists x :: ComesTo(env, s, T.Interrupts(x))
    case UnknownHandoffTarget => false
  }

  /** The pending call is answered, and the run goes on from there. */
  ghost predicate Answered(env: Env, s: Snapshot, output: OutputItem, invoked: bool, next: Snapshot) {
    exists call, record :: IsDecided(env, s, call, record) && Comes(env, s, call, record, T.Ran(output, invoked))
      && next == s.(step := None, approvals := s.approvals - {s.step.value.approvalId.value},
                    generated := s.generated + [ToolCallOutput(call.name, output, Some(call.id), call.namespace)])
  }

  lemma {:induction false} PendingLaw(env: Env, generated: seq<RunItem>, id: string)
    ensures match T.FindPendingToolCall(generated, id, env.render)
      case None => NoCallWith(generated, id)
      case Some(call) => IsPending(env, generated, id, call)
  {
    if generated != [] {
      var n := |generated| - 1;
      if generated[n].ToolCall? && generated[n].callId == Some(id) {
        assert LatestCall(generated, id, n);
      } else {
        PendingLaw(env, generated[..n], id);
        var found := T.FindPendingToolCall(generated, id, env.render);
        if found.Some? { PendingEarlier(env, generated, generated[..n], id, found.value); }
      }
    }
  }

  lemma PendingEarlier(env: Env, generated: seq<RunItem>, init: seq<RunItem>, id: string, call: Request)
    requires generated != [] && init == generated[..|generated| - 1] && IsPending(env, init, id, call)
    requires !(generated[|generated| - 1].ToolCall? && generated[|generated| - 1].callId == Some(id))
    ensures IsPending(env, generated, id, call)
  {
    var k: nat :| LatestCall(init, id, k)
      && call == T.ToolCallRequest(id, init[k].toolName, env.render(init[k].arguments), init[k].namespace);
    assert generated[k] == init[k];
    forall j | k < j < |generated| ensures !(generated[j].ToolCall? && generated[j].callId == Some(id)) {
      if j < |init| { assert generated[j] == init[j]; }
    }
    assert LatestCall(generated, id, k);
  }

  lemma NotBoth(env: Env, generated: seq<RunItem>, id: string, call: Request)
    requires IsPending(env, generated, id, call)
    ensures !NoCallWith(generated, id) && call.id == id
  {}

  lemma OneCall(env: Env, call: Request, decision: T.Decision, freshId: string)
    ensures var step := T.ExecuteOne(env.tools, call, Some(decision), freshId);
      T.Execute(env.tools, [call], Some(decision), freshId)
      == match step
         case Fails(error) => T.Failed(error)
         case Interrupts(x) => T.Done(T.Execution([], [], [], Some(x)))
         case Ran(output, invoked) =>
           T.Done(T.Execution([T.OutputRunItem(call, output)], [T.ResultOf(call, output)],
                              if invoked then [call] else [], None))
  {
    hide T.ExecuteOne;
    assert [call][1..] == [];
    assert T.Execute(env.tools, [], Some(decision), freshId) == T.Done(T.Execution([], [], [], None));
    var none: seq<Request> := [];
    assert [call] + none == [call] && none + none == none;
  }

  /** A resume is refused for the first reason that applies; otherwise the pending call is answered as the decision
      says, if there is one, and the run goes on. */
  lemma ResumeLaw(env: Env, s: Snapshot)
    ensures var r := Resume(env, s);
      || (r.Refused? && RefusedBefore(env, s, r.error))
      || (s.currentTurn < s.maxTurns && !AwaitsApproval(s) && r == RunOn(env, s))
      || exists output, invoked, next :: Answered(env, s, output, invoked, next) && r == RunOn(env, next)
  {
    hide RunOn, T.Execute, T.ExecuteOne, T.FindPendingToolCall, LatestCall, NoCallWith, IsPending, L.CallLaw;
    if AwaitsApproval(s) && s.step.value.approvalId.Some? && s.step.value.callId.Some? {
      PendingLaw(env, s.generated, s.step.value.callId.value);
      var found := T.FindPendingToolCall(s.generated, s.step.value.callId.value, env.render);
      if found.Some? { ResumePendingLaw(env, s, found.value); }
    }
  }

  lemma ResumePendingLaw(env: Env, s: Snapshot, call: Request)
    requires AwaitsApproval(s) && s.step.value.approvalId.Some? && s.step.value.callId.Some?
    requires T.FindPendingToolCall(s.generated, s.step.value.callId.value, env.render) == Some(call)
    requires IsPending(env, s.generated, s.step.value.callId.value, call)
    ensures var r := Resume(env, s);
      || (r.Refused? && RefusedBefore(env, s, r.error))
      || exists output, invoked, next :: Answered(env, s, output, invoked, next) && r == RunOn(env, next)
  {
    hide RunOn, T.Execute, T.ExecuteOne, T.FindPendingToolCall, LatestCall, NoCallWith, IsPending, L.CallLaw;
    var step := s.step.value;
    NotBoth(env, s.generated, step.callId.value, call);
    if step.approvalId.value in s.approvals {
      var record := s.approvals[step.approvalId.value];
      assert Approval(s, step.approvalId.value) == Some(record);
      if Bound(record, step.callId.value, call) {
        assert IsDecided(env, s, call, record);
        OneCall(env, call, (step, record), env.ids(|s.responses|));
        L.OneCallLaw(env.tools, call, Some((step, record)), env.ids(|s.responses|));
        var result := T.ExecuteOne(env.tools, call, Some((step, record)), env.ids(|s.responses|));
        assert Comes(env, s, call, record, result);
        match result
        case Fails(error) => assert ComesTo(env, s, T.Fails(error));
        case Interrupts(x) => assert ComesTo(env, s, T.Interrupts(x));
        case Ran(output, invoked) =>
          var next := s.(step := None, approvals := s.approvals - {step.approvalId.value},
                         generated := s.generated + [T.OutputRunItem(call, output)]);
          assert Answered(env, s, output, invoked, next);
      } else {
        assert IsUnbound(env, s, call, record);
      }
    }
  }
}
