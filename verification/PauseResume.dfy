/** A run that pauses for approvals and is resumed gives the model what an uninterrupted run would. */
module PauseResume {
  import opened Items
  import T = ToolExecution
  import opened ReplayItems
  import opened RunState
  import opened RunLoop

  // ---- the run without approvals ----

  function Trusting(tools: seq<T.FunctionTool>): (r: seq<T.FunctionTool>)
    ensures |r| == |tools| && forall i :: 0 <= i < |r| ==> r[i] == tools[i].(needsApproval := false)
  {
    seq(|tools|, i requires 0 <= i < |tools| => tools[i].(needsApproval := false))
  }

  /** The same session with tools that need no approval. */
  function Uninterrupted(env: Env): Env {
    env.(tools := Trusting(env.tools))
  }

  predicate NeedsApproval(env: Env, call: Request) {
    T.FindTool(env.tools, call).Some? && T.FindTool(env.tools, call).value.needsApproval
  }

  /** Of the calls in a response only the last one may need an approval. */
  ghost predicate OnlyLastNeedsApproval(env: Env, calls: seq<Request>) {
    forall i :: 0 <= i < |calls| - 1 ==> !NeedsApproval(env, calls[i])
  }

  ghost predicate PausesLastIn(env: Env, responses: seq<seq<OutputItem>>) {
    forall i :: 0 <= i < |responses| ==> OnlyLastNeedsApproval(env, CallsOf(env, responses[i]))
  }

  lemma {:induction false} FindTrusting(tools: seq<T.FunctionTool>, call: Request)
    ensures T.FindTool(Trusting(tools), call)
         == (match T.FindTool(tools, call) case None => None case Some(tool) => Some(tool.(needsApproval := false)))
  {
    if tools != [] {
      assert Trusting(tools)[1..] == Trusting(tools[1..]);
      FindTrusting(tools[1..], call);
    }
  }

  /** What a call gives once it may run. */
  function Allowed(env: Env, call: Request): Option<RunItem> {
    match T.FindTool(env.tools, call)
    case None => None
    case Some(tool) =>
      match T.RunTool(tool, call)
      case Stopped(_) => None
      case Output(output) => Some(T.OutputRunItem(call, output))
  }

  /** Why an approved call gives nothing. */
  function AllowedError(env: Env, call: Request): T.ToolError
    requires Allowed(env, call).None?
  {
    match T.FindTool(env.tools, call)
    case None => T.UnknownTool(call.name)
    case Some(tool) => T.RunTool(tool, call).error
  }

  lemma OneAllowed(env: Env, call: Request, decision: Option<T.Decision>, freshId: string)
    requires NeedsApproval(env, call) ==> decision.Some? && T.ApprovalMatchesToolCall(decision.value, call)
    ensures match Allowed(env, call)
      case Some(item) =>
        var step := T.ExecuteOne(env.tools, call, decision, freshId);
          step.Ran? && item == T.OutputRunItem(call, step.output)
      case None => T.ExecuteOne(env.tools, call, decision, freshId) == T.Fails(AllowedError(env, call))
  {}

  lemma OneTrusting(env: Env, call: Request, freshId: string)
    ensures match Allowed(env, call)
      case Some(item) =>
        var step := T.ExecuteOne(Trusting(env.tools), call, None, freshId);
          step.Ran? && item == T.OutputRunItem(call, step.output)
      case None => T.ExecuteOne(Trusting(env.tools), call, None, freshId).Fails?
    ensures !NeedsApproval(env, call) ==>
      T.ExecuteOne(Trusting(env.tools), call, None, freshId) == T.ExecuteOne(env.tools, call, None, freshId)
  {
    FindTrusting(env.tools, call);
  }

  /** How the calls of a response run with and without approvals, when only the last may need one. */
  lemma {:induction false} ExecutionsAgree(env: Env, calls: seq<Request>, freshId: string)
    requires OnlyLastNeedsApproval(env, calls)
    ensures match T.Execute(env.tools, calls, None, freshId)
      case Failed(error) => T.Execute(Trusting(env.tools), calls, None, freshId) == T.Failed(error)
      case Done(e) =>
        if e.interruption.None? then
          && T.Execute(Trusting(env.tools), calls, None, freshId) == T.Done(e)
          && (calls != [] ==> !NeedsApproval(env, calls[|calls| - 1]))
        else
          && calls != [] && e.interruption.value == T.InterruptionFor(calls[|calls| - 1], freshId)
          && NeedsApproval(env, calls[|calls| - 1])
          && (match Allowed(env, calls[|calls| - 1])
              case None => T.Execute(Trusting(env.tools), calls, None, freshId).Failed?
              case Some(item) =>
                && T.Execute(Trusting(env.tools), calls, None, freshId).Done?
                && T.Execute(Trusting(env.tools), calls, None, freshId).execution.newItems == e.newItems + [item]
                && T.Execute(Trusting(env.tools), calls, None, freshId).execution.interruption == None)
  {
    hide T.ExecuteOne, Trusting, Allowed, NeedsApproval, T.OutputRunItem;
    if calls != [] {
      OneTrusting(env, calls[0], freshId);
      if |calls| == 1 {
        assert calls[1..] == [];
        LastAgrees(env, calls[0], freshId);
      } else {
        assert !NeedsApproval(env, calls[0]);
        assert forall i :: 0 <= i < |calls[1..]| - 1 ==> calls[1..][i] == calls[i + 1];
        T.InterruptsForCall(env.tools, calls[0], None, freshId);
        FreeCallRuns(env, calls[0], freshId);
        ExecutionsAgree(env, calls[1..], freshId);
      }
    }
  }

  lemma FreeCallRuns(env: Env, call: Request, freshId: string)
    requires !NeedsApproval(env, call)
    ensures !T.ExecuteOne(env.tools, call, None, freshId).Interrupts?
  {}

  lemma LastAgrees(env: Env, call: Request, freshId: string)
    ensures var step := T.ExecuteOne(env.tools, call, None, freshId);
      if NeedsApproval(env, call) then step == T.Interrupts(T.InterruptionFor(call, freshId))
      else step == T.ExecuteOne(Trusting(env.tools), call, None, freshId) && !step.Interrupts?
  {
    OneTrusting(env, call, freshId);
  }

  // ---- one turn, and the loop, with and without approvals ----

  function LastCall(env: Env, output: seq<OutputItem>): Request
    requires CallsOf(env, output) != []
  {
    CallsOf(env, output)[|CallsOf(env, output)| - 1]
  }

  /** A response at which a run stops for an approval, if it stops for approvals at last calls only. */
  predicate AsksApproval(env: Env, output: seq<OutputItem>) {
    CallsOf(env, output) != [] && NeedsApproval(env, LastCall(env, output))
  }

  /** The run paused at the last call of its last response. */
  ghost predicate PausedAtLastCall(env: Env, output: seq<OutputItem>, end: Ending, call: nat) {
    && end.Paused? && CallsOf(env, output) != [] && AsksApproval(env, output)
    && end.interruption == T.InterruptionFor(LastCall(env, output), env.ids(call))
  }

  predicate FailsAtOnce(turn: Turn) { turn.Ends? && turn.end.Failed? }

  lemma TurnsAgree(env: Env, generated: seq<RunItem>, call: nat, output: seq<OutputItem>)
    requires OnlyLastNeedsApproval(env, CallsOf(env, output))
    ensures match TakeResponse(env, generated, call, output)
      case Continues(items) => TakeResponse(Uninterrupted(env), generated, call, output) == Continues(items)
      case Ends(items, Final(o)) => TakeResponse(Uninterrupted(env), generated, call, output) == Ends(items, Final(o))
      case Ends(items, Paused(x)) =>
        && PausedAtLastCall(env, output, Paused(x), call)
        && (match Allowed(env, LastCall(env, output))
            case Some(item) => TakeResponse(Uninterrupted(env), generated, call, output) == Continues(items + [item])
            case None => FailsAtOnce(TakeResponse(Uninterrupted(env), generated, call, output)))
      case Ends(items, Failed(error)) =>
        TakeResponse(Uninterrupted(env), generated, call, output) == Ends(items, Failed(error))
    ensures TakeResponse(env, generated, call, output).Continues? ==> !AsksApproval(env, output)
  {
    var items := generated + BuildMessageOutputItems(output);
    ExecutionsAgree(env, CallsOf(env, output), env.ids(call));
    var e := T.Execute(env.tools, CallsOf(env, output), None, env.ids(call));
    if e.Done? && e.execution.interruption.Some? {
      var item := Allowed(env, LastCall(env, output));
      if item.Some? {
        assert items + (e.execution.newItems + [item.value]) == items + e.execution.newItems + [item.value];
      }
    }
  }

  /** What the uninterrupted run does after the point where this one paused. */
  function Onward(env: Env, history: seq<InputItem>, r: Record, call: nat, budget: nat): Record
    requires r.end.Paused? && r.responses != [] && CallsOf(env, r.responses[|r.responses| - 1]) != []
      && |r.responses| <= budget
  {
    match Allowed(env, LastCall(env, r.responses[|r.responses| - 1]))
    case None => r
    case Some(item) =>
      Append(r, Loop(Uninterrupted(env), history, r.generated + [item], call + |r.responses|, budget - |r.responses|))
  }

  /** The first response of a run, and those of the rest. */
  lemma PausesLastNext(env: Env, history: seq<InputItem>, generated: seq<RunItem>, call: nat, more: nat)
    requires more > 0 && PausesLastIn(env, Loop(Uninterrupted(env), history, generated, call, more).responses)
    ensures var output := env.model(call, ModelInput(Uninterrupted(env), history, generated));
      && OnlyLastNeedsApproval(env, CallsOf(env, output))
      && match TakeResponse(Uninterrupted(env), generated, call, output)
        case Ends(_, _) => true
        case Continues(items) =>
          PausesLastIn(env, Loop(Uninterrupted(env), history, items, call + 1, more - 1).responses)
  {
    hide TakeResponse, CallsOf, ModelInput, OnlyLastNeedsApproval;
    var responses := Loop(Uninterrupted(env), history, generated, call, more).responses;
    var output := env.model(call, ModelInput(Uninterrupted(env), history, generated));
    assert responses[0] == output;
    var turn := TakeResponse(Uninterrupted(env), generated, call, output);
    if turn.Continues? {
      var rest := Loop(Uninterrupted(env), history, turn.generated, call + 1, more - 1).responses;
      assert forall i :: 0 <= i < |rest| ==> rest[i] == responses[i + 1];
    }
  }

  /** Until it pauses, a run is the uninterrupted run. */
  ghost predicate RunsAgree(env: Env, history: seq<InputItem>, r: Record, u: Record, call: nat, budget: nat, more: nat)
    requires budget <= more
  {
    match r.end
    case Final(_) => u == r
    case Failed(_) => r.inputs <= u.inputs && (budget == more ==> u == r)
    case Paused(_) =>
      && r.responses != [] && |r.responses| <= budget
      && PausedAtLastCall(env, r.responses[|r.responses| - 1], r.end, call + |r.responses| - 1)
      && (if Allowed(env, LastCall(env, r.responses[|r.responses| - 1])).Some?
          then u == Onward(env, history, r, call, more)
          else u.inputs == r.inputs && u.end.Failed?)
  }

  lemma {:induction false} LoopsAgree(env: Env, history: seq<InputItem>, generated: seq<RunItem>, call: nat,
                                      budget: nat, more: nat)
    requires budget <= more && PausesLastIn(env, Loop(Uninterrupted(env), history, generated, call, more).responses)
    ensures RunsAgree(env, history, Loop(env, history, generated, call, budget),
      Loop(Uninterrupted(env), history, generated, call, more), call, budget, more)
    decreases budget
  {
    hide TakeResponse, CallsOf, ModelInput, LastCall, Allowed, OnlyLastNeedsApproval, PausesLastIn, AsksApproval;
    if budget > 0 {
      hide RunsAgree;
      var input := ModelInput(env, history, generated);
      InputsAgree(env, history, generated);
      var output := env.model(call, input);
      PausesLastNext(env, history, generated, call, more);
      TurnsAgree(env, generated, call, output);
      var turn := TakeResponse(env, generated, call, output);
      match turn
      case Continues(items) =>
        LoopsAgree(env, history, items, call + 1, budget - 1, more - 1);
        ThenAgrees(env, history, input, output, Loop(env, history, items, call + 1, budget - 1),
                   Loop(Uninterrupted(env), history, items, call + 1, more - 1), call, budget, more);
      case Ends(items, end) =>
        EndAgrees(env, history, input, output, items, end, generated, call, budget, more);
    }
  }

  lemma InputsAgree(env: Env, history: seq<InputItem>, generated: seq<RunItem>)
    ensures ModelInput(Uninterrupted(env), history, generated) == ModelInput(env, history, generated)
  {}

  lemma EndAgrees(env: Env, history: seq<InputItem>, input: seq<InputItem>, output: seq<OutputItem>,
                  items: seq<RunItem>, end: Ending, generated: seq<RunItem>, call: nat, budget: nat, more: nat)
    requires 0 < budget <= more
    requires input == ModelInput(Uninterrupted(env), history, generated) && output == env.model(call, input)
    requires if !end.Paused? then TakeResponse(Uninterrupted(env), generated, call, output) == Ends(items, end)
      else
        && PausedAtLastCall(env, output, end, call)
        && match Allowed(env, LastCall(env, output))
          case Some(item) => TakeResponse(Uninterrupted(env), generated, call, output) == Continues(items + [item])
          case None => FailsAtOnce(TakeResponse(Uninterrupted(env), generated, call, output))
    ensures RunsAgree(env, history, Record([input], [output], items, end),
      Loop(Uninterrupted(env), history, generated, call, more), call, budget, more)
  {
    hide TakeResponse, CallsOf, ModelInput, LastCall, Allowed, AsksApproval;
  }

  lemma ThenAgrees(env: Env, history: seq<InputItem>, input: seq<InputItem>, output: seq<OutputItem>,
                   r: Record, u: Record, call: nat, budget: nat, more: nat)
    requires 0 < budget <= more && RunsAgree(env, history, r, u, call + 1, budget - 1, more - 1)
    ensures RunsAgree(env, history, Then(input, output, r), Then(input, output, u), call, budget, more)
  {
    hide Loop, CallsOf, LastCall, Allowed, AsksApproval;
    if r.end.Paused? {
      var longer := Then(input, output, r);
      assert longer.responses[|longer.responses| - 1] == r.responses[|r.responses| - 1];
    }
  }

  // ---- a history that already holds what was generated ----

  /** Items generated before may as well be part of the input. */
  lemma {:induction false} LoopShift(env: Env, history: seq<InputItem>, before: seq<RunItem>, generated: seq<RunItem>,
                                     call: nat, budget: nat)
    ensures var r := Loop(env, history + RunItemsToInputItems(before, env.policy), generated, call, budget);
      Loop(env, history, before + generated, call, budget) == r.(generated := before + r.generated)
    decreases budget
  {
    hide CallsOf, TakeResponse, ModelInput, RunItemsToInputItems;
    if budget > 0 {
      ShiftedInput(env, history, before, generated);
      var input := ModelInput(env, history, before + generated);
      var output := env.model(call, input);
      TakeShifted(env, before, generated, call, output);
      var turn := TakeResponse(env, generated, call, output);
      if turn.Continues? { LoopShift(env, history, before, turn.generated, call + 1, budget - 1); }
    }
  }

  lemma ShiftedInput(env: Env, history: seq<InputItem>, before: seq<RunItem>, generated: seq<RunItem>)
    ensures ModelInput(env, history, before + generated)
         == ModelInput(env, history + RunItemsToInputItems(before, env.policy), generated)
  {
    RunItemsToInputItemsAppend(before, generated, env.policy);
    assert history + (RunItemsToInputItems(before, env.policy) + RunItemsToInputItems(generated, env.policy))
        == history + RunItemsToInputItems(before, env.policy) + RunItemsToInputItems(generated, env.policy);
  }

  lemma TakeShifted(env: Env, before: seq<RunItem>, generated: seq<RunItem>, call: nat, output: seq<OutputItem>)
    ensures TakeResponse(env, before + generated, call, output)
         == match TakeResponse(env, generated, call, output)
            case Continues(items) => Continues(before + items)
            case Ends(items, end) => Ends(before + items, end)
  {
    hide CallsOf;
    var more := BuildMessageOutputItems(output);
    assert before + generated + more == before + (generated + more);
    var e := T.Execute(env.tools, CallsOf(env, output), None, env.ids(call));
    if e.Done? {
      assert before + (generated + more) + e.execution.newItems == before + (generated + more + e.execution.newItems);
    }
  }

  // ---- the input of a resumed run ----

  /** The input needs no cleaning and does not end with keyed items that were generated again. */
  ghost predicate ReplaysExactly(base: seq<InputItem>, generated: seq<RunItem>, policy: ReasoningPolicy) {
    Clean(base) && TrailingGeneratedOverlap(base, RunItemsToInputItems(generated, policy)) == 0
  }

  predicate PlainInput(items: seq<InputItem>) {
    forall i :: 0 <= i < |items| ==> !Hosted(items[i]) && StableReplayDedupeKey(items[i]).None?
  }

  lemma SplicePrefix(base: seq<InputItem>, generated: seq<InputItem>)
    ensures Splice(base, generated) == base + generated
       <==> Clean(base) && TrailingGeneratedOverlap(base, generated) == 0
  {
    SanitizeCleans(base);
    OverlapIsLargest(base, generated);
    KeptShort(base, |base|);
    var k := TrailingGeneratedOverlap(base, generated);
    assert |Splice(base, generated)| == |Sanitize(base)| + |generated| - k;
    if k == 0 && Sanitize(base) == base {
      assert generated[0..] == generated;
    } else if |Sanitize(base)| == |base| && k == 0 {
      assert Splice(base, generated)[..|base|] == Sanitize(base);
      assert (base + generated)[..|base|] == base;
    }
  }

  /** Resuming replays the original input and everything recorded exactly if the input has no orphaned
      hosted items and does not end with keyed items that were generated again. */
  lemma ReplayIsExact(s: Snapshot)
    requires s.normalizedInput.None?
    ensures ResumeInput(s) == s.originalInput + RunItemsToInputItems(s.generated, s.policy)
       <==> ReplaysExactly(s.originalInput, s.generated, s.policy)
  {
    SplicePrefix(s.originalInput, RunItemsToInputItems(s.generated, s.policy));
  }

  /** Input without hosted and keyed items qualifies whatever is generated. */
  lemma PlainReplaysExactly(base: seq<InputItem>, generated: seq<RunItem>, policy: ReasoningPolicy)
    requires PlainInput(base)
    ensures ReplaysExactly(base, generated, policy)
  {
    NoHostedIsClean(base);
    OverlapIsLargest(base, RunItemsToInputItems(generated, policy));
    var k := TrailingGeneratedOverlap(base, RunItemsToInputItems(generated, policy));
  }

  /** What does not overlap in the end did not overlap before. */
  lemma EarlierReplaysExactly(base: seq<InputItem>, generated: seq<RunItem>, all: seq<RunItem>, policy: ReasoningPolicy)
    requires generated <= all && ReplaysExactly(base, all, policy)
    ensures ReplaysExactly(base, generated, policy)
  {
    RunItemsToInputItemsAppend(generated, all[|generated|..], policy);
    assert all == generated + all[|generated|..];
    ShorterOverlap(base, RunItemsToInputItems(generated, policy), RunItemsToInputItems(all, policy));
  }

  lemma ShorterOverlap(base: seq<InputItem>, some: seq<InputItem>, all: seq<InputItem>)
    requires some <= all && TrailingGeneratedOverlap(base, all) == 0
    ensures TrailingGeneratedOverlap(base, some) == 0
  {
    OverlapIsLargest(base, some);
    OverlapIsLargest(base, all);
    OverlapsLonger(base, some, all, TrailingGeneratedOverlap(base, some));
  }

  lemma OverlapsLonger(base: seq<InputItem>, some: seq<InputItem>, all: seq<InputItem>, k: nat)
    requires some <= all && k <= |base| && k <= |some|
    ensures Overlaps(base, some, k) == Overlaps(base, all, k)
  {
    assert some[..k] == all[..k];
  }

  lemma TakeExtends(env: Env, generated: seq<RunItem>, call: nat, output: seq<OutputItem>)
    ensures generated <= TakeResponse(env, generated, call, output).generated
  {}

  /** A run only adds to the items it starts with. */
  lemma {:induction false} LoopExtends(env: Env, history: seq<InputItem>, generated: seq<RunItem>, call: nat,
                                       budget: nat)
    ensures generated <= Loop(env, history, generated, call, budget).generated
    decreases budget
  {
    hide TakeResponse, ModelInput;
    if budget > 0 {
      var output := env.model(call, ModelInput(env, history, generated));
      TakeExtends(env, generated, call, output);
      var turn := TakeResponse(env, generated, call, output);
      if turn.Continues? { LoopExtends(env, history, turn.generated, call + 1, budget - 1); }
    }
  }

  // ---- resuming an approved call ----

  lemma {:induction false} FindPendingSkips(generated: seq<RunItem>, outputs: seq<RunItem>, id: string,
                                            render: Json -> string)
    requires forall i :: 0 <= i < |outputs| ==> outputs[i].ToolCallOutput?
    ensures T.FindPendingToolCall(generated + outputs, id, render) == T.FindPendingToolCall(generated, id, render)
  {
    if outputs == [] {
      assert generated + outputs == generated;
    } else {
      var init := outputs[..|outputs| - 1];
      assert (generated + outputs)[..|generated + outputs| - 1] == generated + init;
      FindPendingSkips(generated, init, id, render);
    }
  }

  lemma {:induction false} BuildAppend(a: seq<OutputItem>, b: seq<OutputItem>)
    ensures BuildMessageOutputItems(a + b) == BuildMessageOutputItems(a) + BuildMessageOutputItems(b)
  {
    if a == [] {
      assert a + b == b;
    } else {
      var both := a + b;
      assert both[0] == a[0] && both[1..] == a[1..] + b;
      BuildAppend(a[1..], b);
      var first := [MessageOutputItem(a[0])];
      var x, y := BuildMessageOutputItems(a[1..]), BuildMessageOutputItems(b);
      hide MessageOutputItem;
      assert BuildMessageOutputItems(both) == first + (x + y) == first + x + y;
    }
  }

  lemma BuildPush(init: seq<OutputItem>, last: OutputItem)
    ensures BuildMessageOutputItems(init + [last]) == BuildMessageOutputItems(init) + [MessageOutputItem(last)]
  {
    BuildAppend(init, [last]);
    assert [last][1..] == [];
  }

  /** The last call of a response is the one found by its id. */
  lemma {:induction false} FindsLastCall(env: Env, generated: seq<RunItem>, output: seq<OutputItem>)
    requires CallsOf(env, output) != []
    ensures T.FindPendingToolCall(generated + BuildMessageOutputItems(output), LastCall(env, output).id, env.render)
         == Some(LastCall(env, output))
  {
    var init, last := output[..|output| - 1], output[|output| - 1];
    assert output == init + [last];
    CallsPush(env, init, last);
    BuildPush(init, last);
    var items := generated + BuildMessageOutputItems(output);
    assert items[..|items| - 1] == generated + BuildMessageOutputItems(init);
    if !last.OutToolCall? { FindsLastCall(env, generated, init); }
  }

  /** A run that paused can find the call it paused at. */
  lemma {:induction false} FindsPausedCall(env: Env, history: seq<InputItem>, generated: seq<RunItem>, call: nat,
                                           budget: nat)
    requires Loop(env, history, generated, call, budget).end.Paused?
    ensures var r := Loop(env, history, generated, call, budget);
      && r.responses != [] && CallsOf(env, r.responses[|r.responses| - 1]) != []
      && T.FindPendingToolCall(r.generated, LastCall(env, r.responses[|r.responses| - 1]).id, env.render)
         == Some(LastCall(env, r.responses[|r.responses| - 1]))
    decreases budget
  {
    hide TakeResponse, CallsOf, LastCall, ModelInput;
    var output := env.model(call, ModelInput(env, history, generated));
    var turn := TakeResponse(env, generated, call, output);
    if turn.Continues? {
      FindsPausedCall(env, history, turn.generated, call + 1, budget - 1);
    } else {
      FindsPausedInTurn(env, generated, call, output);
    }
  }

  lemma FindsPausedInTurn(env: Env, generated: seq<RunItem>, call: nat, output: seq<OutputItem>)
    requires TakeResponse(env, generated, call, output).Ends? && TakeResponse(env, generated, call, output).end.Paused?
    ensures CallsOf(env, output) != []
    ensures T.FindPendingToolCall(TakeResponse(env, generated, call, output).generated, LastCall(env, output).id,
      env.render)
         == Some(LastCall(env, output))
  {
    T.PrefixLaw(env.tools, CallsOf(env, output), None, env.ids(call));
    FindsLastCall(env, generated, output);
    var e := T.Execute(env.tools, CallsOf(env, output), None, env.ids(call)).execution;
    FindPendingSkips(generated + BuildMessageOutputItems(output), e.newItems, LastCall(env, output).id, env.render);
  }

  /** The pending call is approved by its approval id, for its own tool. */
  function ApprovedBy(s: Snapshot): Snapshot {
    if s.step.Some? && s.step.value.approvalId.Some?
      then Decided(s, s.step.value.approvalId.value, true, s.step.value.toolName, None) else s
  }

  /** The state is paused at `call`, which it can find again. */
  ghost predicate PausedAt(env: Env, s: Snapshot, call: Request, id: string) {
    && s.step == Some(T.InterruptionFor(call, id))
    && T.FindPendingToolCall(s.generated, call.id, env.render) == Some(call)
  }

  /** Resuming an approved call runs it, and then runs on. */
  lemma ResumeApproved(env: Env, s: Snapshot, call: Request, id: string)
    requires PausedAt(env, s, call, id) && RemainingTurns(s) > 0
    ensures match Allowed(env, call)
      case None => Resume(env, ApprovedBy(s)) == Refused(ToolFailure(AllowedError(env, call)))
      case Some(item) =>
        Resume(env, ApprovedBy(s))
        == RunOn(env, s.(step := None, approvals := ApprovedBy(s).approvals - {id}, generated := s.generated + [item]))
  {
    hide RunOn, T.Execute, T.FindPendingToolCall, Allowed, AllowedError;
    var approved := ApprovedBy(s);
    var decision := (s.step.value, Approval(approved, id).value);
    assert T.ApprovalMatchesToolCall(decision, call);
    ExecuteApproved(env, call, decision, env.ids(|s.responses|));
  }

  lemma ExecuteApproved(env: Env, call: Request, decision: T.Decision, freshId: string)
    requires T.ApprovalMatchesToolCall(decision, call)
    ensures var r := T.Execute(env.tools, [call], Some(decision), freshId);
      match Allowed(env, call)
      case None => r == T.Failed(AllowedError(env, call))
      case Some(item) => r.Done? && r.execution.newItems == [item] && r.execution.interruption == None
  {
    hide Allowed, AllowedError;
    OneAllowed(env, call, Some(decision), freshId);
    assert [call][1..] == [];
    assert T.Execute(env.tools, [], Some(decision), freshId) == T.Done(T.Execution([], [], [], None));
  }

  /** The loop itself never reports that error. */
  lemma {:induction false} LoopNeverUnbound(env: Env, history: seq<InputItem>, generated: seq<RunItem>, call: nat,
                                            budget: nat)
    ensures Loop(env, history, generated, call, budget).end != Failed(DecisionNotBound)
    decreases budget
  {
    hide ModelInput;
    if budget > 0 {
      var output := env.model(call, ModelInput(env, history, generated));
      var turn := TakeResponse(env, generated, call, output);
      if turn.Continues? { LoopNeverUnbound(env, history, turn.generated, call + 1, budget - 1); }
    }
  }

  lemma RunOnNeverUnbound(env: Env, s: Snapshot)
    ensures RunOn(env, s) != Refused(DecisionNotBound)
  {
    hide Loop, ResumeInput;
    LoopNeverUnbound(env, ResumeInput(s), [], |s.responses|, RemainingTurns(s));
  }

  /** A decision about the pending call, under either of its ids, is refused as not bound to it exactly
      if it does not carry the name of the call's tool; a decision without a name never does. */
  lemma DecisionNeedsToolName(env: Env, s: Snapshot, call: Request, id: string, named: string, approved: bool,
                              toolName: Option<string>, reason: Option<string>)
    requires PausedAt(env, s, call, id) && RemainingTurns(s) > 0 && (named == id || named == call.id)
    ensures Resume(env, Decided(s, named, approved, toolName, reason)) == Refused(DecisionNotBound)
       <==> toolName != Some(call.name)
  {
    hide RunOn, T.Execute, T.FindPendingToolCall;
    var decided := Decided(s, named, approved, toolName, reason);
    assert Approval(decided, id).value.toolName == toolName;
    if toolName == Some(call.name) {
      var outcome := T.Execute(env.tools, [call], Some((s.step.value, Approval(decided, id).value)),
        env.ids(|s.responses|));
      if outcome.Done? {
        RunOnNeverUnbound(env, decided.(step := None, approvals := decided.approvals - {id},
                                        generated := s.generated + outcome.execution.newItems));
      }
    }
  }

  /** Resuming a rejected call gives the model the reason as the call's output, and runs on. */
  lemma ResumeRejected(env: Env, s: Snapshot, call: Request, id: string, reason: Option<string>)
    requires PausedAt(env, s, call, id) && RemainingTurns(s) > 0 && NeedsApproval(env, call)
    ensures var rejected := Decided(s, id, false, Some(call.name), reason);
      var answer := if reason.Some? then reason.value else T.REJECTION_MESSAGE;
      Resume(env, rejected)
      == RunOn(env, s.(step := None, approvals := rejected.approvals - {id},
                       generated := s.generated + [T.OutputRunItem(call, OutText(answer))]))
  {
    hide RunOn, T.Execute, T.FindPendingToolCall;
    var rejected := Decided(s, id, false, Some(call.name), reason);
    var decision := (s.step.value, Approval(rejected, id).value);
    ExecuteRejected(env, call, decision, env.ids(|s.responses|));
  }

  lemma ExecuteRejected(env: Env, call: Request, decision: T.Decision, freshId: string)
    requires NeedsApproval(env, call) && !decision.1.approved
    ensures T.Execute(env.tools, [call], Some(decision), freshId).Done?
    ensures var e := T.Execute(env.tools, [call], Some(decision), freshId).execution;
      e.newItems == [T.OutputRunItem(call, OutText(T.RejectionText(decision.1)))] && e.interruption == None
        && e.invoked == []
  {
    assert [call][1..] == [];
    assert T.Execute(env.tools, [], Some(decision), freshId) == T.Done(T.Execution([], [], [], None));
  }

  // ---- when the turns suffice ----

  /** How many responses there have been, counted from `taken` on, whenever one asks for an approval. */
  function PauseTurns(env: Env, responses: seq<seq<OutputItem>>, taken: nat): seq<nat> {
    if responses == [] then []
    else (if AsksApproval(env, responses[0]) then [taken + 1] else []) + PauseTurns(env, responses[1..], taken + 1)
  }

  /** The j-th leg of a session runs from a pause to the next one, or to the last turn. */
  function LegEnd(pauses: seq<nat>, total: nat, j: nat): nat {
    if j < |pauses| then pauses[j] else total
  }

  function LegStart(pauses: seq<nat>, taken: nat, j: nat): nat
    requires j <= |pauses|
  {
    if j == 0 then taken else pauses[j - 1]
  }

  function Sum(turns: seq<nat>): nat {
    if turns == [] then 0 else turns[0] + Sum(turns[1..])
  }

  /** Every resume takes all turns so far off the budget, and what is left has to cover the leg. */
  ghost predicate BudgetCovers(pauses: seq<nat>, taken: nat, total: nat, left: int) {
    forall j :: 0 <= j <= |pauses| ==>
      LegEnd(pauses, total, j) - LegStart(pauses, taken, j) <= left - Sum(pauses[..j])
  }

  /** The same, leg by leg, with an approval for each pause. */
  predicate Lasts(pauses: seq<nat>, taken: nat, total: nat, left: int, approvals: nat) {
    if pauses == [] then total - taken <= left
    else
      && pauses[0] - taken <= left && approvals > 0
      && Lasts(pauses[1..], pauses[0], total, left - pauses[0], approvals - 1)
  }

  lemma {:induction false} LastsMeans(pauses: seq<nat>, taken: nat, total: nat, left: int, approvals: nat)
    ensures Lasts(pauses, taken, total, left, approvals)
       <==> |pauses| <= approvals && BudgetCovers(pauses, taken, total, left)
  {
    if pauses == [] {
      assert pauses[..0] == [];
      assert LegEnd(pauses, total, 0) - LegStart(pauses, taken, 0) == total - taken;
    } else {
      FirstLegCovered(pauses, taken, total, left);
      if approvals > 0 { LastsMeans(pauses[1..], pauses[0], total, left - pauses[0], approvals - 1); }
    }
  }

  lemma FirstLegCovered(pauses: seq<nat>, taken: nat, total: nat, left: int)
    requires pauses != []
    ensures BudgetCovers(pauses, taken, total, left)
       <==> pauses[0] - taken <= left && BudgetCovers(pauses[1..], pauses[0], total, left - pauses[0])
  {
    assert pauses[..0] == [];
    forall j | 0 <= j < |pauses|
      ensures LegEnd(pauses, total, j + 1) == LegEnd(pauses[1..], total, j)
        && LegStart(pauses, taken, j + 1) == LegStart(pauses[1..], pauses[0], j)
        && Sum(pauses[..j + 1]) == pauses[0] + Sum(pauses[1..][..j]) {
      assert pauses[..j + 1][1..] == pauses[1..][..j];
    }
    if BudgetCovers(pauses, taken, total, left) {
      assert LegEnd(pauses, total, 0) - LegStart(pauses, taken, 0) <= left - Sum(pauses[..0]);
      forall j | 0 <= j <= |pauses[1..]|
        ensures LegEnd(pauses[1..], total, j) - LegStart(pauses[1..], pauses[0], j)
          <= left - pauses[0] - Sum(pauses[1..][..j]) {
        assert LegEnd(pauses, total, j + 1) - LegStart(pauses, taken, j + 1) <= left - Sum(pauses[..j + 1]);
      }
    }
    if pauses[0] - taken <= left && BudgetCovers(pauses[1..], pauses[0], total, left - pauses[0]) {
      forall j | 0 <= j <= |pauses|
        ensures LegEnd(pauses, total, j) - LegStart(pauses, taken, j) <= left - Sum(pauses[..j]) {
        if j > 0 {
          assert LegEnd(pauses[1..], total, j - 1) - LegStart(pauses[1..], pauses[0], j - 1)
              <= left - pauses[0] - Sum(pauses[1..][..j - 1]);
          assert LegEnd(pauses, total, j - 1 + 1) == LegEnd(pauses[1..], total, j - 1);
        }
      }
    }
  }

  lemma {:induction false} PausesLater(env: Env, responses: seq<seq<OutputItem>>, taken: nat)
    ensures PauseTurns(env, responses, taken) != [] ==> PauseTurns(env, responses, taken)[0] > taken
  {
    if responses != [] { PausesLater(env, responses[1..], taken + 1); }
  }

  /** Where a run is in the uninterrupted run when it pauses, and that it ends before the first pause
      only if its budget does. */
  ghost predicate LegOf(env: Env, r: Record, u: Record, call: nat, budget: nat) {
    var pauses := PauseTurns(env, u.responses, call);
    match r.end
    case Final(_) => pauses == []
    case Failed(_) => u.end.Final? ==> budget < LegEnd(pauses, call + |u.responses|, 0) - call
    case Paused(_) =>
      && |r.responses| <= |u.responses|
      && pauses == [call + |r.responses|] + PauseTurns(env, u.responses[|r.responses|..], call + |r.responses|)
  }

  lemma {:induction false} FirstLeg(env: Env, history: seq<InputItem>, generated: seq<RunItem>, call: nat,
                                    budget: nat, more: nat)
    requires budget <= more && PausesLastIn(env, Loop(Uninterrupted(env), history, generated, call, more).responses)
    ensures LegOf(env, Loop(env, history, generated, call, budget),
      Loop(Uninterrupted(env), history, generated, call, more), call, budget)
    decreases budget
  {
    hide TakeResponse, CallsOf, ModelInput, LastCall, Allowed, OnlyLastNeedsApproval, PausesLastIn, AsksApproval;
    var u := Loop(Uninterrupted(env), history, generated, call, more);
    if budget == 0 {
      LoopCounts(Uninterrupted(env), history, generated, call, more);
      PausesLater(env, u.responses, call);
    } else {
      hide LegOf;
      var input := ModelInput(env, history, generated);
      var output := env.model(call, input);
      InputsAgree(env, history, generated);
      PausesLastNext(env, history, generated, call, more);
      TurnsAgree(env, generated, call, output);
      var turn := TakeResponse(env, generated, call, output);
      match turn
      case Continues(items) =>
        FirstLeg(env, history, items, call + 1, budget - 1, more - 1);
        LegThen(env, input, output, Loop(env, history, items, call + 1, budget - 1),
                Loop(Uninterrupted(env), history, items, call + 1, more - 1), call, budget);
      case Ends(items, end) =>
        if end.Final? { FinalAsksNothing(env, generated, call, output); }
        LegEnds(env, Record([input], [output], items, end), u, call, budget);
    }
  }

  lemma LegEnds(env: Env, r: Record, u: Record, call: nat, budget: nat)
    requires |r.responses| == 1 && |u.responses| >= 1 && u.responses[0] == r.responses[0]
    requires match r.end
      case Final(_) => |u.responses| == 1 && !AsksApproval(env, r.responses[0])
      case Failed(_) => u.end.Failed?
      case Paused(_) => AsksApproval(env, r.responses[0])
    ensures LegOf(env, r, u, call, budget)
  {
    hide AsksApproval;
    if r.end.Final? {
      assert u.responses[1..] == [];
      assert PauseTurns(env, u.responses, call) == [];
    } else if r.end.Paused? {
      assert PauseTurns(env, u.responses, call) == [call + 1] + PauseTurns(env, u.responses[1..], call + 1);
    }
  }

  lemma LegThen(env: Env, input: seq<InputItem>, output: seq<OutputItem>, r: Record, u: Record, call: nat, budget: nat)
    requires budget > 0 && !AsksApproval(env, output) && LegOf(env, r, u, call + 1, budget - 1)
    ensures LegOf(env, Then(input, output, r), Then(input, output, u), call, budget)
  {
    hide AsksApproval;
    var longer := Then(input, output, u).responses;
    assert longer[1..] == u.responses;
    if r.end.Paused? { assert longer[|r.responses| + 1..] == u.responses[|r.responses|..]; }
  }

  lemma FinalAsksNothing(env: Env, generated: seq<RunItem>, call: nat, output: seq<OutputItem>)
    requires FinalTurn(TakeResponse(env, generated, call, output))
    ensures !AsksApproval(env, output)
  {}

  predicate FinalTurn(turn: Turn) { turn.Ends? && turn.end.Final? }

  // ---- the whole session ----

  /** Approves the pending call, resumes, and does so again at most `more` times. */
  function RunApproved(env: Env, s: Snapshot, more: nat): Record
    decreases more
  {
    match Resume(env, ApprovedBy(s))
    case Refused(error) => Record([], [], s.generated, Failed(error))
    case Resumed(r, t) => if more > 0 && r.end.Paused? then Append(r, RunApproved(env, t, more - 1))
      else r.(generated := t.generated)
  }

  /** A paused state as the theorem below follows it. */
  ghost predicate Followed(env: Env, s: Snapshot) {
    Counted(s) && s.normalizedInput.None? && s.policy == Preserve && s.step.Some?
  }

  /** What the uninterrupted run makes of a paused state. */
  function Continued(env: Env, s: Snapshot, item: RunItem, budget: nat): Record {
    Loop(Uninterrupted(env), s.originalInput, s.generated + [item], |s.responses|, budget)
  }

  /** What is asked of the uninterrupted run: its responses need approvals for last calls only, and what
      it generates does not repeat the end of its input. */
  ghost predicate Replayable(env: Env, input: seq<InputItem>, u: Record) {
    env.policy == Preserve && PausesLastIn(env, u.responses) && ReplaysExactly(input, u.generated, Preserve)
  }

  /** The rest of a resumed run, on everything recorded. */
  function Rest(env: Env, s: Snapshot, item: RunItem): Record {
    Loop(env, s.originalInput, s.generated + [item], |s.responses|, RemainingTurns(s))
  }

  /** The state that a resumed run leaves is the run's own, on top of what was recorded. */
  lemma ResumedState(env: Env, s: Snapshot, item: RunItem, approvals: Approvals)
    requires env.policy == Preserve && Followed(env, s)
    requires ReplaysExactly(s.originalInput, s.generated + [item], Preserve)
    ensures match RunOn(env, s.(step := None, approvals := approvals, generated := s.generated + [item]))
      case Refused(error) => Rest(env, s, item).end == Failed(error)
      case Resumed(r, t) =>
        && r.(generated := t.generated) == Rest(env, s, item) && !r.end.Failed?
        && t.responses == s.responses + r.responses
        && t.originalInput == s.originalInput
        && t.maxTurns - t.currentTurn == s.maxTurns - s.currentTurn - |t.responses|
        && (r.end.Paused? ==> Followed(env, t) && t.step == Some(r.end.interruption))
  {
    hide Loop, ReplaysExactly;
    var before := s.generated + [item];
    var continued := s.(step := None, approvals := approvals, generated := before);
    ReplayIsExact(continued);
    RunOnCounts(env, continued);
    LoopShift(env, s.originalInput, before, [], |s.responses|, RemainingTurns(s));
    assert before + [] == before;
  }

  /** Whether a session started from a state with `taken` turns and `left` turns of budget completes. */
  predicate Completes(env: Env, u: Record, taken: nat, left: int, approvals: nat) {
    u.end.Final? && Lasts(PauseTurns(env, u.responses, taken), taken, taken + |u.responses|, left, approvals)
  }

  ghost predicate FollowsRun(env: Env, d: Record, u: Record, taken: nat, left: int, approvals: nat) {
    && d.inputs <= u.inputs && (d.end.Final? ==> d == u)
    && (d.end.Final? <==> Completes(env, u, taken, left, approvals))
  }

  lemma {:induction false} ApprovedRunFollows(env: Env, s: Snapshot, call: Request, id: string, more: nat, budget: nat)
    requires Followed(env, s) && PausedAt(env, s, call, id) && RemainingTurns(s) <= budget
    requires match Allowed(env, call)
      case None => true
      case Some(item) => Replayable(env, s.originalInput, Continued(env, s, item, budget))
    ensures var d := RunApproved(env, s, more);
      match Allowed(env, call)
      case None => d.inputs == [] && d.end.Failed?
      case Some(item) =>
        FollowsRun(env, d, Continued(env, s, item, budget), |s.responses|, s.maxTurns - s.currentTurn, more)
    decreases more, 1
  {
    hide Resume, RunOn, Loop, Allowed, ApprovedBy, T.FindPendingToolCall, ReplaysExactly, Replayable, FollowsRun,
      Continued;
    if RemainingTurns(s) == 0 {
      ResumeExhausted(env, s);
      match Allowed(env, call)
      case None =>
      case Some(item) => ExhaustedFollows(env, s, item, more, budget);
    } else {
      ResumeApproved(env, s, call, id);
      match Allowed(env, call)
      case None =>
      case Some(item) => FollowsOn(env, s, call, id, item, more, budget);
    }
  }

  lemma ResumeExhausted(env: Env, s: Snapshot)
    requires RemainingTurns(s) == 0
    ensures Resume(env, ApprovedBy(s)).Refused?
  {}

  lemma ExhaustedFollows(env: Env, s: Snapshot, item: RunItem, more: nat, budget: nat)
    requires RemainingTurns(s) == 0 && Resume(env, ApprovedBy(s)).Refused?
    requires Replayable(env, s.originalInput, Continued(env, s, item, budget))
    ensures FollowsRun(env, RunApproved(env, s, more), Continued(env, s, item, budget), |s.responses|,
      s.maxTurns - s.currentTurn, more)
  {
    hide Resume, ApprovedBy, ReplaysExactly, PausesLastIn;
    FirstLeg(env, s.originalInput, s.generated + [item], |s.responses|, 0, budget);
  }

  /** A pause leaves the rest of the uninterrupted run to do. */
  lemma PauseContinues(env: Env, history: seq<InputItem>, before: seq<RunItem>, n: nat, left: nat, budget: nat,
                       t: Snapshot, next: RunItem)
    requires left <= budget && Loop(env, history, before, n, left).end.Paused?
    requires Replayable(env, history, Loop(Uninterrupted(env), history, before, n, budget))
    requires var whole := Loop(env, history, before, n, left);
      && t.originalInput == history && t.generated == whole.generated && |t.responses| == n + |whole.responses|
      && whole.responses != [] && |whole.responses| <= budget
      && CallsOf(env, whole.responses[|whole.responses| - 1]) != []
      && Allowed(env, LastCall(env, whole.responses[|whole.responses| - 1])) == Some(next)
    ensures var whole, u := Loop(env, history, before, n, left), Loop(Uninterrupted(env), history, before, n, budget);
      var rest := Continued(env, t, next, budget - |whole.responses|);
      u == Append(whole, rest) && Replayable(env, history, rest) && u.responses[|whole.responses|..] == rest.responses
  {
    hide Loop, Allowed, CallsOf, LastCall, OnlyLastNeedsApproval, ReplaysExactly;
    LoopsAgree(env, history, before, n, left, budget);
    var u, whole := Loop(Uninterrupted(env), history, before, n, budget), Loop(env, history, before, n, left);
    var rest := Continued(env, t, next, budget - |whole.responses|);
    assert u == Append(whole, rest);
    forall i | 0 <= i < |rest.responses| ensures OnlyLastNeedsApproval(env, CallsOf(env, rest.responses[i])) {
      assert rest.responses[i] == u.responses[|whole.responses| + i];
    }
  }

  /** One leg less. */
  lemma LegFollows(env: Env, r: Record, rest: Record, d: Record, taken: nat, left: int, more: nat)
    requires PauseTurns(env, (r.responses + rest.responses), taken)
          == [taken + |r.responses|] + PauseTurns(env, rest.responses, taken + |r.responses|)
    requires |r.responses| <= left
      && FollowsRun(env, d, rest, taken + |r.responses|, left - taken - |r.responses|, more)
    ensures FollowsRun(env, Append(r, d), Append(r, rest), taken, left, more + 1)
  {
    hide AsksApproval, PauseTurns;
    var u := Append(r, rest);
    var pauses := PauseTurns(env, u.responses, taken);
    assert pauses[1..] == PauseTurns(env, rest.responses, taken + |r.responses|);
  }

  lemma {:induction false} FollowsOn(env: Env, s: Snapshot, call: Request, id: string, item: RunItem, more: nat,
                                     budget: nat)
    requires Followed(env, s) && 0 < RemainingTurns(s) <= budget
    requires Resume(env, ApprovedBy(s)) == RunOn(env, s.(step := None, approvals := ApprovedBy(s).approvals - {id},
      generated := s.generated + [item]))
    requires Replayable(env, s.originalInput, Continued(env, s, item, budget))
    ensures FollowsRun(env, RunApproved(env, s, more), Continued(env, s, item, budget), |s.responses|,
      s.maxTurns - s.currentTurn, more)
    decreases more, 0
  {
    hide Resume, RunOn, Loop, Allowed, ApprovedBy, T.FindPendingToolCall, CallsOf, LastCall, ReplaysExactly,
      PausesLastIn, AsksApproval;
    var before, n, left, history := s.generated + [item], |s.responses|, RemainingTurns(s), s.originalInput;
    var u := Continued(env, s, item, budget);
    LoopExtends(Uninterrupted(env), history, before, n, budget);
    EarlierReplaysExactly(history, before, u.generated, Preserve);
    ResumedState(env, s, item, ApprovedBy(s).approvals - {id});
    LoopsAgree(env, history, before, n, left, budget);
    FirstLeg(env, history, before, n, left, budget);
    LoopCounts(env, history, before, n, left);
    var whole := Rest(env, s, item);
    if whole.end.Paused? {
      var t := Resume(env, ApprovedBy(s)).state;
      FindsPausedCall(env, history, before, n, left);
      var next, nextId := LastCall(env, whole.responses[|whole.responses| - 1]), env.ids(n + |whole.responses| - 1);
      var f := |whole.responses|;
      match Allowed(env, next)
      case None =>
        if more > 0 { ApprovedRunFollows(env, t, next, nextId, more - 1, budget - f); }
      case Some(output) =>
        PauseContinues(env, history, before, n, left, budget, t, output);
        var rest := Continued(env, t, output, budget - f);
        if more > 0 {
          ApprovedRunFollows(env, t, next, nextId, more - 1, budget - f);
          LegFollows(env, whole, rest, RunApproved(env, t, more - 1), n, s.maxTurns - s.currentTurn, more - 1);
        }
    }
  }

  /** Everything a paused state still gives the model, one approval after the other, are the first inputs
      of what the uninterrupted run gives the model from there; and it ends with an output, which is then
      the same output after the same inputs, exactly if the uninterrupted run does and there are enough
      approvals and turns. */
  lemma ApprovedRunIsUninterrupted(env: Env, s: Snapshot, call: Request, id: string, item: RunItem, more: nat,
                                   budget: nat)
    requires Followed(env, s) && PausedAt(env, s, call, id) && RemainingTurns(s) <= budget
    requires Allowed(env, call) == Some(item) && Replayable(env, s.originalInput, Continued(env, s, item, budget))
    ensures var d, u := RunApproved(env, s, more), Continued(env, s, item, budget);
      var taken := |s.responses|;
      var pauses := PauseTurns(env, u.responses, taken);
      && d.inputs <= u.inputs && (d.end.Final? ==> d == u)
      && (d.end.Final? <==>
          && u.end.Final? && |pauses| <= more
          && BudgetCovers(pauses, taken, taken + |u.responses|, s.maxTurns - s.currentTurn))
  {
    hide Allowed, PausedAt, Replayable, BudgetCovers, Lasts, RunApproved, PauseTurns, Continued;
    ApprovedRunFollows(env, s, call, id, more, budget);
    var u, taken := Continued(env, s, item, budget), |s.responses|;
    LastsMeans(PauseTurns(env, u.responses, taken), taken, taken + |u.responses|, s.maxTurns - s.currentTurn, more);
  }

  /** A session: the first run, and up to `approvals` approvals and resumes. */
  function Session(env: Env, input: seq<InputItem>, maxTurns: nat, approvals: nat): Record {
    var first := Loop(env, input, [], 0, maxTurns);
    if first.end.Paused? && approvals > 0
      then Append(first, RunApproved(env, SnapshotOf(first, input, maxTurns), approvals - 1)) else first
  }

  /** However often a session pauses at the last call of a response, is approved and resumed: the inputs
      it gives the model are the first inputs of the uninterrupted run.  It ends with an output, and has
      then given, received and recorded exactly the same, if and only if the uninterrupted run does,
      every pause has its approval, and on each leg the first budget less the turn counts of all pauses so
      far covers the turns to the next pause or to the end. */
  lemma SessionIsUninterrupted(env: Env, input: seq<InputItem>, maxTurns: nat, approvals: nat)
    requires Replayable(env, input, Loop(Uninterrupted(env), input, [], 0, maxTurns))
    ensures var session, u := Session(env, input, maxTurns, approvals),
      Loop(Uninterrupted(env), input, [], 0, maxTurns);
      var pauses := PauseTurns(env, u.responses, 0);
      && session.inputs <= u.inputs && (session.end.Final? ==> session == u)
      && (session.end.Final? <==>
          u.end.Final? && |pauses| <= approvals && BudgetCovers(pauses, 0, |u.responses|, maxTurns))
  {
    hide Loop, Replayable, BudgetCovers, Lasts, PauseTurns, Session;
    SessionFollows(env, input, maxTurns, approvals);
    var u := Loop(Uninterrupted(env), input, [], 0, maxTurns);
    LastsMeans(PauseTurns(env, u.responses, 0), 0, |u.responses|, maxTurns, approvals);
  }

  lemma SessionFollows(env: Env, input: seq<InputItem>, maxTurns: nat, approvals: nat)
    requires Replayable(env, input, Loop(Uninterrupted(env), input, [], 0, maxTurns))
    ensures FollowsRun(env, Session(env, input, maxTurns, approvals),
      Loop(Uninterrupted(env), input, [], 0, maxTurns), 0, maxTurns, approvals)
  {
    hide Loop, Allowed, CallsOf, LastCall, RunApproved, ReplaysExactly, PausesLastIn, AsksApproval,
      T.FindPendingToolCall;
    var u, first := Loop(Uninterrupted(env), input, [], 0, maxTurns), Loop(env, input, [], 0, maxTurns);
    LoopsAgree(env, input, [], 0, maxTurns, maxTurns);
    FirstLeg(env, input, [], 0, maxTurns, maxTurns);
    if first.end.Paused? {
      LoopCounts(env, input, [], 0, maxTurns);
      if approvals > 0 { PausedSessionFollows(env, input, maxTurns, approvals - 1); }
    } else if first.end.Final? {
      LoopCounts(env, input, [], 0, maxTurns);
    }
  }

  lemma PausedSessionFollows(env: Env, input: seq<InputItem>, maxTurns: nat, more: nat)
    requires Replayable(env, input, Loop(Uninterrupted(env), input, [], 0, maxTurns))
    requires Loop(env, input, [], 0, maxTurns).end.Paused?
    ensures var first := Loop(env, input, [], 0, maxTurns);
      FollowsRun(env, Append(first, RunApproved(env, SnapshotOf(first, input, maxTurns), more)),
        Loop(Uninterrupted(env), input, [], 0, maxTurns), 0, maxTurns, more + 1)
  {
    hide Loop, Allowed, CallsOf, LastCall, RunApproved, ReplaysExactly, PausesLastIn, AsksApproval, PausedAt,
      T.FindPendingToolCall, Followed;
    var u, first := Loop(Uninterrupted(env), input, [], 0, maxTurns), Loop(env, input, [], 0, maxTurns);
    var s := SnapshotOf(first, input, maxTurns);
    LoopsAgree(env, input, [], 0, maxTurns, maxTurns);
    FirstLeg(env, input, [], 0, maxTurns, maxTurns);
    FirstPause(env, input, maxTurns);
    var call, id := LastCall(env, first.responses[|first.responses| - 1]), env.ids(|first.responses| - 1);
    match Allowed(env, call)
    case None => ApprovedRunFollows(env, s, call, id, more, maxTurns - |first.responses|);
    case Some(item) =>
      var f := |first.responses|;
      PauseContinues(env, input, [], 0, maxTurns, maxTurns, s, item);
      ApprovedRunFollows(env, s, call, id, more, maxTurns - f);
      LegFollows(env, first, Continued(env, s, item, maxTurns - f), RunApproved(env, s, more), 0, maxTurns, more);
  }

  /** A first run that pauses leaves a state as it is followed above. */
  lemma FirstPause(env: Env, input: seq<InputItem>, maxTurns: nat)
    requires PausesLastIn(env, Loop(Uninterrupted(env), input, [], 0, maxTurns).responses)
    requires Loop(env, input, [], 0, maxTurns).end.Paused?
    ensures var first := Loop(env, input, [], 0, maxTurns);
      var s := SnapshotOf(first, input, maxTurns);
      && first.responses != [] && |first.responses| <= maxTurns
      && CallsOf(env, first.responses[|first.responses| - 1]) != []
      && Followed(env, s) && RemainingTurns(s) == maxTurns - |first.responses|
      && PausedAt(env, s, LastCall(env, first.responses[|first.responses| - 1]), env.ids(|first.responses| - 1))
  {
    hide Loop, Allowed, T.FindPendingToolCall, CallsOf, LastCall;
    LoopsAgree(env, input, [], 0, maxTurns, maxTurns);
    FindsPausedCall(env, input, [], 0, maxTurns);
  }

  /** Three turns, of which the first two ask for an approval, do not fit into a budget of three. */
  lemma ThirdTurnIsLost(env: Env, input: seq<InputItem>, approvals: nat)
    requires Replayable(env, input, Loop(Uninterrupted(env), input, [], 0, 3))
    requires |Loop(Uninterrupted(env), input, [], 0, 3).responses| == 3
    requires PauseTurns(env, Loop(Uninterrupted(env), input, [], 0, 3).responses, 0) == [1, 2]
    ensures !Session(env, input, 3, approvals).end.Final?
  {
    hide Loop, Replayable, PauseTurns, Session;
    SessionIsUninterrupted(env, input, 3, approvals);
    assert [1, 2][..2] == [1, 2] && [1, 2][1..] == [2] && [2][1..] == [];
    assert Sum([1, 2]) == 3;
    assert LegEnd([1, 2], 3, 2) - LegStart([1, 2], 0, 2) == 1;
  }

  /** A model that calls a tool twice and then answers, and the tool, which needs an approval. */
  function TwoCalls(): Env {
    Env((k: nat, input: seq<InputItem>) =>
          if k < 2 then [OutToolCall("id", "tool", Null, None)] else [OutText("done")],
        [T.FunctionTool("tool", None, true, [], (call: Request) => Some(OutText("out")), (call: Request) => None, [])],
        (k: nat) => "approval", (j: Json) => "", Preserve)
  }

  lemma TwoCallsTurn(generated: seq<RunItem>, call: nat, input: seq<InputItem>)
    ensures var env := TwoCalls();
      var output := env.model(call, input);
      var turn := TakeResponse(Uninterrupted(env), generated, call, output);
      && (call < 2 ==> turn.Continues?) && (call >= 2 ==> FinalTurn(turn))
      && (AsksApproval(env, output) <==> call < 2) && OnlyLastNeedsApproval(env, CallsOf(env, output))
  {
    var env := TwoCalls();
    var output := env.model(call, input);
    assert output == [] + [output[0]];
    CallsPush(env, [], output[0]);
    assert CallsOf(env, []) == [];
    assert HasHandoff(output) <==> output[0].OutHandoff?;
    if call < 2 {
      var request := T.ToolCallRequest("id", "tool", "", None);
      assert CallsOf(env, output) == [request];
      assert [request][1..] == [];
      assert T.Execute(Trusting(env.tools), [], None, env.ids(call)) == T.Done(T.Execution([], [], [], None));
      FindTrusting(env.tools, request);
    }
  }

  lemma TwoCallsThen(input: seq<InputItem>, output: seq<OutputItem>, rest: Record, call: nat)
    requires AsksApproval(TwoCalls(), output) && OnlyLastNeedsApproval(TwoCalls(), CallsOf(TwoCalls(), output))
    requires PausesLastIn(TwoCalls(), rest.responses)
    ensures var u := Then(input, output, rest);
      && PausesLastIn(TwoCalls(), u.responses)
      && PauseTurns(TwoCalls(), u.responses, call) == [call + 1] + PauseTurns(TwoCalls(), rest.responses, call + 1)
  {
    hide TwoCalls, AsksApproval, OnlyLastNeedsApproval, CallsOf;
    assert Then(input, output, rest).responses[1..] == rest.responses;
  }

  lemma {:induction false} TwoCallsRun(history: seq<InputItem>, generated: seq<RunItem>, call: nat)
    requires call <= 2
    ensures var env := TwoCalls();
      var u := Loop(Uninterrupted(env), history, generated, call, 3 - call);
      && u.end.Final? && |u.responses| == 3 - call && PausesLastIn(env, u.responses)
      && PauseTurns(env, u.responses, call) == (if call == 0 then [1, 2] else if call == 1 then [2] else [])
    decreases 3 - call
  {
    hide TwoCalls, TakeResponse, AsksApproval, OnlyLastNeedsApproval, CallsOf, ModelInput;
    var env := TwoCalls();
    var trusting := Uninterrupted(env);
    var input := ModelInput(trusting, history, generated);
    var output := env.model(call, input);
    TwoCallsTurn(generated, call, input);
    var turn := TakeResponse(trusting, generated, call, output);
    var u := Loop(trusting, history, generated, call, 3 - call);
    if call < 2 {
      TwoCallsRun(history, turn.generated, call + 1);
      var rest := Loop(trusting, history, turn.generated, call + 1, 2 - call);
      assert u == Then(input, output, rest);
      TwoCallsThen(input, output, rest, call);
    } else {
      assert u.responses[1..] == [];
    }
  }

  /** So with a budget of three turns the uninterrupted run ends, and no number of approvals ends the session. */
  lemma ApprovalsCanCostTheEnd(input: seq<InputItem>, approvals: nat)
    requires PlainInput(input)
    ensures Loop(Uninterrupted(TwoCalls()), input, [], 0, 3).end.Final?
    ensures !Session(TwoCalls(), input, 3, approvals).end.Final?
  {
    hide Loop, ReplaysExactly, PauseTurns, Session, PausesLastIn;
    TwoCallsRun(input, [], 0);
    PlainReplaysExactly(input, Loop(Uninterrupted(TwoCalls()), input, [], 0, 3).generated, Preserve);
    ThirdTurnIsLost(TwoCalls(), input, approvals);
  }

  // ---- pausing earlier in a response ----

  /** The calls before the pending one run alike with and without approvals. */
  lemma {:induction false} PrefixesAgree(env: Env, calls: seq<Request>, freshId: string, e: T.Execution, f: T.Execution)
    requires T.Execute(env.tools, calls, None, freshId) == T.Done(e)
      && T.Execute(Trusting(env.tools), calls, None, freshId) == T.Done(f)
    ensures |f.newItems| == |calls| && |e.newItems| <= |calls| && e.newItems <= f.newItems
    ensures |e.newItems| < |calls| ==> Allowed(env, calls[|e.newItems|]) == Some(f.newItems[|e.newItems|])
  {
    hide T.ExecuteOne, Allowed;
    if calls != [] {
      OneTrusting(env, calls[0], freshId);
      NeverInterrupted(env, calls, freshId);
      if T.ExecuteOne(env.tools, calls[0], None, freshId).Ran? {
        StepsAgree(env, calls[0], freshId);
        PrefixesAgree(env, calls[1..], freshId, T.Execute(env.tools, calls[1..], None, freshId).execution,
                      T.Execute(Trusting(env.tools), calls[1..], None, freshId).execution);
      }
    }
  }

  lemma StepsAgree(env: Env, call: Request, freshId: string)
    requires T.ExecuteOne(env.tools, call, None, freshId).Ran?
    ensures T.ExecuteOne(Trusting(env.tools), call, None, freshId) == T.ExecuteOne(env.tools, call, None, freshId)
  {
    OneTrusting(env, call, freshId);
  }

  lemma {:induction false} NeverInterrupted(env: Env, calls: seq<Request>, freshId: string)
    requires T.Execute(Trusting(env.tools), calls, None, freshId).Done?
    ensures |T.Execute(Trusting(env.tools), calls, None, freshId).execution.newItems| == |calls|
    ensures T.Execute(Trusting(env.tools), calls, None, freshId).execution.interruption == None
  {
    if calls != [] {
      OneTrusting(env, calls[0], freshId);
      NeverInterrupted(env, calls[1..], freshId);
    }
  }

  lemma {:induction false} OutputsGiveInputs(items: seq<RunItem>)
    requires forall i :: 0 <= i < |items| ==> items[i].ToolCallOutput?
    ensures |RunItemsToInputItems(items, Preserve)| == |items|
  {
    if items != [] { OutputsGiveInputs(items[1..]); }
  }

  /** What a paused and approved turn leaves for the next model call is what the uninterrupted turn
      leaves exactly if the pending call was the last one: the calls after it are never run. */
  lemma PendingMustBeLast(env: Env, history: seq<InputItem>, before: seq<RunItem>, calls: seq<Request>,
                          freshId: string, e: T.Execution, f: T.Execution)
    requires env.policy == Preserve && e.interruption.Some?
    requires T.Execute(env.tools, calls, None, freshId) == T.Done(e)
      && T.Execute(Trusting(env.tools), calls, None, freshId) == T.Done(f)
    ensures |e.newItems| < |calls| && Allowed(env, calls[|e.newItems|]).Some?
    ensures ModelInput(env, history, before + (e.newItems + [Allowed(env, calls[|e.newItems|]).value]))
         == ModelInput(env, history, before + f.newItems)
       <==> |e.newItems| == |calls| - 1
  {
    hide T.Execute, Allowed;
    PrefixesAgree(env, calls, freshId, e, f);
    T.PrefixLaw(env.tools, calls, None, freshId);
    ExecutesOutputs(Trusting(env.tools), calls, freshId, f);
    var some := e.newItems + [Allowed(env, calls[|e.newItems|]).value];
    assert some == f.newItems[..|some|];
    PrefixInput(env, history, before, some, f.newItems);
  }

  lemma ExecutesOutputs(tools: seq<T.FunctionTool>, calls: seq<Request>, freshId: string, f: T.Execution)
    requires T.Execute(tools, calls, None, freshId) == T.Done(f)
    ensures forall i :: 0 <= i < |f.newItems| ==> f.newItems[i].ToolCallOutput?
  {
    hide T.Execute;
    T.PrefixLaw(tools, calls, None, freshId);
    forall i | 0 <= i < |f.newItems| ensures f.newItems[i].ToolCallOutput? {
      assert T.Answers(f.newItems[i], f.results[i], calls[i]);
    }
  }

  lemma PrefixInput(env: Env, history: seq<InputItem>, before: seq<RunItem>, some: seq<RunItem>, all: seq<RunItem>)
    requires env.policy == Preserve && some <= all && forall i :: 0 <= i < |all| ==> all[i].ToolCallOutput?
    ensures ModelInput(env, history, before + some) == ModelInput(env, history, before + all) <==> |some| == |all|
  {
    InputLength(env, history, before, some);
    InputLength(env, history, before, all);
    if |some| == |all| { assert some == all; }
  }

  lemma InputLength(env: Env, history: seq<InputItem>, before: seq<RunItem>, items: seq<RunItem>)
    requires env.policy == Preserve && forall i :: 0 <= i < |items| ==> items[i].ToolCallOutput?
    ensures |ModelInput(env, history, before + items)| == |history| + |RunItemsToInputItems(before, Preserve)| + |items|
  {
    OutputsGiveInputs(items);
    RunItemsToInputItemsAppend(before, items, Preserve);
  }
}
