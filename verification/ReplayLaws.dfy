/** Which items a replay keeps and repeats, in terms of their JSON members. */
module ReplayLaws {
  import opened Items
  import opened ReplayItems

  // ---- items by their members ----

  predicate Says(item: InputItem, name: string, text: string) {
    item.JsonItem? && item.value.Obj? && name in item.value.fields && item.value.fields[name] == Str(text)
  }

  predicate Has(item: InputItem, name: string) {
    item.JsonItem? && item.value.Obj? && name in item.value.fields
  }

  /** "call_id" names the item if it is there at all, otherwise "id" does; an empty name is none. */
  predicate Named(item: InputItem, id: string) {
    id != "" && (Says(item, "call_id", id) || (!Has(item, "call_id") && Says(item, "id", id)))
  }

  ghost predicate Nameless(item: InputItem) { forall id: string :: !Named(item, id) }

  predicate Completed(item: InputItem) { Says(item, "status", "completed") }

  /** A call or output of one of the two hosted tools. */
  predicate IsA(item: InputItem, kind: string) { Says(item, "type", kind) }

  ghost predicate LooseCall(item: InputItem) { IsA(item, "tool_search_call") && Nameless(item) }

  ghost predicate LooseOutput(item: InputItem) { IsA(item, "tool_search_output") && Nameless(item) }

  ghost function Calls(items: seq<InputItem>): nat {
    if items == [] then 0
    else Calls(items[..|items| - 1]) + (if LooseCall(items[|items| - 1]) then 1 else 0)
  }

  ghost function Outputs(items: seq<InputItem>): nat {
    if items == [] then 0
    else Outputs(items[..|items| - 1]) + (if LooseOutput(items[|items| - 1]) then 1 else 0)
  }

  /** As many loose outputs as calls, and never more of them so far. */
  ghost predicate Balanced(items: seq<InputItem>) {
    Calls(items) == Outputs(items) && forall k :: 0 <= k <= |items| ==> Outputs(items[..k]) <= Calls(items[..k])
  }

  /** A loose output answers the loose call before it that nothing in between leaves open or answers. */
  ghost predicate Partners(items: seq<InputItem>, i: nat, j: nat)
    requires i < |items| && j < |items|
  {
    i < j && LooseCall(items[i]) && LooseOutput(items[j]) && Balanced(items[i + 1..j])
  }

  ghost predicate HasPartner(items: seq<InputItem>, i: nat)
    requires i < |items|
  {
    exists j :: 0 <= j < |items| && (Partners(items, i, j) || Partners(items, j, i))
  }

  /** Some item of that kind has the same name. */
  ghost predicate NamedToo(items: seq<InputItem>, i: nat, kind: string)
    requires i < |items|
  {
    exists j, id :: 0 <= j < |items| && IsA(items[j], kind) && Named(items[i], id) && Named(items[j], id)
  }

  /** A completed call needs its output and an output its call; all else stays. */
  ghost predicate Stays(items: seq<InputItem>, i: nat)
    requires i < |items|
  {
    if IsA(items[i], "shell_call") then !Completed(items[i]) || NamedToo(items, i, "shell_call_output")
    else if IsA(items[i], "shell_call_output") then NamedToo(items, i, "shell_call")
    else if IsA(items[i], "tool_search_call") then
      || !Completed(items[i])
      || (if Nameless(items[i]) then HasPartner(items, i) else NamedToo(items, i, "tool_search_output"))
    else if IsA(items[i], "tool_search_output") then
      if Nameless(items[i]) then HasPartner(items, i) else NamedToo(items, i, "tool_search_call")
    else true
  }

  /** The items among the first `n` that stay, in order. */
  ghost function Staying(items: seq<InputItem>, n: nat): seq<InputItem>
    requires n <= |items|
  {
    if n == 0 then [] else Staying(items, n - 1) + (if Stays(items, n - 1) then [items[n - 1]] else [])
  }

  /** An item that may be recognised again: typed, no message, with an id of its own or a call id. */
  ghost predicate Recognisable(item: InputItem) {
    && !Has(item, "role") && (exists kind :: Says(item, "type", kind) && kind != "message")
    && ((exists id :: Says(item, "id", id) && id != "__fake_id__") || (exists id :: Says(item, "call_id", id)))
  }

  /** The base ends with the first `k` generated items, one of which is recognisable. */
  ghost predicate Repeats(base: seq<InputItem>, generated: seq<InputItem>, k: nat) {
    && k <= |base| && k <= |generated| && base[|base| - k..] == generated[..k]
    && exists i :: 0 <= i < k && Recognisable(generated[i])
  }

  // ---- the roles ----

  lemma RoleLaw(item: InputItem)
    ensures match RoleOf(item)
      case HostedCall(Shell, _, completed) => IsA(item, "shell_call") && (completed <==> Completed(item))
      case HostedOutput(Shell, _) => IsA(item, "shell_call_output")
      case HostedCall(ToolSearch, _, completed) => IsA(item, "tool_search_call") && (completed <==> Completed(item))
      case HostedOutput(ToolSearch, _) => IsA(item, "tool_search_output")
      case Plain =>
        && !IsA(item, "shell_call") && !IsA(item, "shell_call_output")
        && !IsA(item, "tool_search_call") && !IsA(item, "tool_search_output")
    ensures !RoleOf(item).Plain? ==> forall id: string :: RoleOf(item).id == Some(id) <==> Named(item, id)
    ensures !RoleOf(item).Plain? ==> (RoleOf(item).id == None <==> Nameless(item))
  {
    assert |"shell_call"| == 10 && |"shell_call_output"| == 17 && |"tool_search_call"| == 16
        && |"tool_search_output"| == 18;
    if !RoleOf(item).Plain? { IdLaw(item); }
  }

  lemma IdLaw(item: InputItem)
    requires item.JsonItem?
    ensures forall id: string :: CallId(item.value) == Some(id) <==> Named(item, id)
  {
    forall id: string ensures CallId(item.value) == Some(id) <==> Named(item, id) {}
  }

  lemma LooseLaw(item: InputItem)
    ensures AnonymousCall(item) <==> LooseCall(item)
    ensures AnonymousOutput(item) <==> LooseOutput(item)
  {
    hide RoleOf, Nameless;
    RoleLaw(item);
    assert |"shell_call"| == 10 && |"shell_call_output"| == 17 && |"tool_search_call"| == 16
        && |"tool_search_output"| == 18;
  }

  // ---- counting ----

  lemma {:induction false} BalanceCounts(items: seq<InputItem>)
    ensures Open(items) - Need(items) == Calls(items) - Outputs(items)
    ensures Need(items) == 0 <==> forall k :: 0 <= k <= |items| ==> Outputs(items[..k]) <= Calls(items[..k])
  {
    hide AnonymousCall, AnonymousOutput, LooseCall, LooseOutput;
    if items == [] {
      assert items[..0] == [];
    } else {
      var init, last := items[..|items| - 1], items[|items| - 1];
      BalanceCounts(init);
      LooseLaw(last);
      OneKindOnly(last);
      assert forall k :: 0 <= k <= |init| ==> items[..k] == init[..k];
      assert items[..|items|] == items && init[..|init|] == init;
    }
  }

  lemma OneKindOnly(item: InputItem)
    ensures !(LooseCall(item) && LooseOutput(item))
  {
    assert |"tool_search_call"| == 16 && |"tool_search_output"| == 18;
  }

  lemma BalancedLaw(items: seq<InputItem>)
    ensures BalanceOf(items) == Balance(0, 0) <==> Balanced(items)
  {
    BalanceCounts(items);
  }

  // ---- matched calls and outputs ----

  /** The `m`-th open call from the end. */
  ghost predicate OpenAt(items: seq<InputItem>, i: nat, m: nat) {
    i < |items| && AnonymousCall(items[i]) && BalanceOf(items[i + 1..]) == Balance(m, 0)
  }

  lemma OpenAtPush(init: seq<InputItem>, last: InputItem, i: nat, m: nat)
    requires i < |init|
    ensures OpenAt(init + [last], i, m)
      <==> AnonymousCall(init[i]) && Step(BalanceOf(init[i + 1..]), last) == Balance(m, 0)
  {
    assert (init + [last])[i + 1..] == init[i + 1..] + [last];
    BalancePush(init[i + 1..], last);
  }

  lemma OpenAtLast(init: seq<InputItem>, last: InputItem, m: nat)
    ensures OpenAt(init + [last], |init|, m) <==> AnonymousCall(last) && m == 0
  {
    assert (init + [last])[|init| + 1..] == [];
  }

  /** What the item behind `init` changes about the open calls. */
  lemma OpenAtStep(init: seq<InputItem>, last: InputItem, i: nat, m: nat)
    requires i < |init|
    ensures AnonymousCall(last) ==> (OpenAt(init + [last], i, m) <==> m > 0 && OpenAt(init, i, m - 1))
    ensures AnonymousOutput(last) ==> (OpenAt(init + [last], i, m) <==> OpenAt(init, i, m + 1))
    ensures !AnonymousCall(last) && !AnonymousOutput(last) ==> (OpenAt(init + [last], i, m) <==> OpenAt(init, i, m))
  {
    hide AnonymousCall, AnonymousOutput, BalanceOf;
    OpenAtPush(init, last, i, m);
    NotBoth(last);
  }

  ghost predicate OpenSomewhere(items: seq<InputItem>, m: nat) { exists i: nat :: OpenAt(items, i, m) }

  lemma OpenInside(init: seq<InputItem>, last: InputItem, m: nat)
    ensures OpenSomewhere(init + [last], m)
      <==> OpenAt(init + [last], |init|, m) || exists i: nat :: i < |init| && OpenAt(init + [last], i, m)
  {
    hide AnonymousCall, BalanceOf;
    assert forall i: nat :: OpenAt(init + [last], i, m) ==> i < |init| || i == |init|;
  }

  /** Depth `m` behind `last` is depth `before` in front of it. */
  lemma OpenElsewhere(init: seq<InputItem>, last: InputItem, m: nat, before: nat)
    requires forall i: nat :: i < |init| ==> (OpenAt(init + [last], i, m) <==> OpenAt(init, i, before))
    requires !OpenAt(init + [last], |init|, m)
    ensures OpenSomewhere(init + [last], m) <==> OpenSomewhere(init, before)
  {
    OpenInside(init, last, m);
    assert forall i: nat :: OpenAt(init, i, before) ==> i < |init|;
    hide OpenAt;
    if OpenSomewhere(init, before) {
      var i: nat :| OpenAt(init, i, before);
      assert OpenAt(init + [last], i, m);
    }
  }

  lemma OpenSomewherePush(init: seq<InputItem>, last: InputItem, m: nat)
    ensures AnonymousCall(last) ==>
              (OpenSomewhere(init + [last], m) <==> m == 0 || OpenSomewhere(init, m - 1))
    ensures AnonymousOutput(last) ==> (OpenSomewhere(init + [last], m) <==> OpenSomewhere(init, m + 1))
    ensures !AnonymousCall(last) && !AnonymousOutput(last) ==>
              (OpenSomewhere(init + [last], m) <==> OpenSomewhere(init, m))
  {
    hide AnonymousCall, AnonymousOutput, OpenAt;
    NotBoth(last);
    OpenAtLast(init, last, m);
    forall i: nat | i < |init|
      ensures AnonymousCall(last) ==> (OpenAt(init + [last], i, m) <==> m > 0 && OpenAt(init, i, m - 1))
      ensures AnonymousOutput(last) ==> (OpenAt(init + [last], i, m) <==> OpenAt(init, i, m + 1))
      ensures !AnonymousCall(last) && !AnonymousOutput(last) ==> (OpenAt(init + [last], i, m) <==> OpenAt(init, i, m))
    {
      OpenAtStep(init, last, i, m);
    }
    if AnonymousCall(last) {
      if m > 0 { OpenElsewhere(init, last, m, m - 1); }
    } else {
      OpenElsewhere(init, last, m, if AnonymousOutput(last) then m + 1 else m);
    }
  }

  lemma {:induction false} OpenDepth(items: seq<InputItem>, m: nat)
    ensures m < Open(items) <==> OpenSomewhere(items, m)
  {
    hide AnonymousCall, AnonymousOutput, OpenSomewhere;
    if items == [] {
      NoneOpen(m);
    } else {
      var init, last := items[..|items| - 1], items[|items| - 1];
      assert items == init + [last];
      NotBoth(last);
      OpenSomewherePush(init, last, m);
      OpenDepth(init, m);
      OpenDepth(init, m + 1);
      if m > 0 { OpenDepth(init, m - 1); }
    }
  }

  lemma NoneOpen(m: nat)
    ensures !OpenSomewhere([], m)
  {}

  /** An output that no call before it waits for. */
  ghost predicate NeededAt(items: seq<InputItem>, j: nat) {
    j < |items| && AnonymousOutput(items[j]) && BalanceOf(items[..j]) == Balance(0, 0)
  }

  lemma {:induction false} NeedFirst(items: seq<InputItem>)
    ensures Need(items) > 0 <==> exists j: nat :: NeededAt(items, j)
  {
    hide AnonymousCall, AnonymousOutput;
    if items == [] {
    } else {
      var init, last := items[..|items| - 1], items[|items| - 1];
      NeedFirst(init);
      NotBoth(last);
      forall j: nat | j < |init| ensures NeededAt(items, j) <==> NeededAt(init, j) {
        assert items[..j] == init[..j];
      }
      if Need(init) > 0 {
        var j: nat :| NeededAt(init, j);
        assert NeededAt(items, j);
      } else if Need(items) > 0 {
        assert NeededAt(items, |init|);
      }
    }
  }

  // ---- matched calls and outputs ----

  lemma PartnersFrom(items: seq<InputItem>, i: nat, j: nat)
    requires i < |items| && j < |items|
    ensures Partners(items, i, j)
      <==> i < j && AnonymousCall(items[i]) && NeededAt(items[i + 1..], j - i - 1)
  {
    hide AnonymousCall, AnonymousOutput, LooseCall, LooseOutput, Balanced;
    LooseLaw(items[i]);
    LooseLaw(items[j]);
    if i < j {
      assert items[i + 1..][..j - i - 1] == items[i + 1..j];
      BalancedLaw(items[i + 1..j]);
    }
  }

  lemma PartnersTo(items: seq<InputItem>, i: nat, j: nat)
    requires i < |items| && j < |items|
    ensures Partners(items, i, j) <==> AnonymousOutput(items[j]) && OpenAt(items[..j], i, 0)
  {
    hide AnonymousCall, AnonymousOutput, LooseCall, LooseOutput, Balanced;
    LooseLaw(items[i]);
    LooseLaw(items[j]);
    if i < j {
      assert items[..j][i + 1..] == items[i + 1..j];
      BalancedLaw(items[i + 1..j]);
    }
  }

  lemma CallPartner(items: seq<InputItem>, i: nat)
    requires i < |items| && AnonymousCall(items[i])
    ensures Need(items[i + 1..]) > 0 <==> HasPartner(items, i)
  {
    hide AnonymousCall, AnonymousOutput, Partners, Need;
    NotBoth(items[i]);
    var rest := items[i + 1..];
    NeedFirst(rest);
    forall j: nat | j < |items|
      ensures Partners(items, i, j) <==> i < j && NeededAt(rest, j - i - 1)
      ensures !Partners(items, j, i)
    {
      PartnersFrom(items, i, j);
      PartnersTo(items, j, i);
    }
    if Need(rest) > 0 {
      var k: nat :| NeededAt(rest, k);
      assert Partners(items, i, i + 1 + k);
    }
  }

  lemma OutputPartner(items: seq<InputItem>, i: nat)
    requires i < |items| && AnonymousOutput(items[i])
    ensures Open(items[..i]) > 0 <==> HasPartner(items, i)
  {
    hide AnonymousCall, AnonymousOutput, Partners, Open;
    NotBoth(items[i]);
    OpenDepth(items[..i], 0);
    forall j: nat | j < |items|
      ensures Partners(items, j, i) <==> OpenAt(items[..i], j, 0)
      ensures !Partners(items, i, j)
    {
      PartnersTo(items, j, i);
      PartnersFrom(items, i, j);
    }
    if OpenSomewhere(items[..i], 0) {
      var j: nat :| OpenAt(items[..i], j, 0);
      assert Partners(items, j, i);
    }
  }

  lemma MatchedLaw(items: seq<InputItem>, i: nat)
    requires i < |items| && (AnonymousCall(items[i]) || AnonymousOutput(items[i]))
    ensures Matched(items, i) <==> HasPartner(items, i)
  {
    hide AnonymousCall, AnonymousOutput, HasPartner, Need, Open;
    NotBoth(items[i]);
    if AnonymousCall(items[i]) { CallPartner(items, i); } else { OutputPartner(items, i); }
  }

  // ---- which items stay ----

  function CallType(kind: Kind): string { if kind == Shell then "shell_call" else "tool_search_call" }

  function OutputType(kind: Kind): string { if kind == Shell then "shell_call_output" else "tool_search_output" }

  lemma CallIdsLaw(items: seq<InputItem>, i: nat, kind: Kind, id: string)
    requires i < |items| && Named(items[i], id) && (forall other: string :: Named(items[i], other) ==> other == id)
    ensures id in CallIds(items, kind) <==> NamedToo(items, i, CallType(kind))
  {
    hide RoleOf, Named;
    CallIdsMember(items, kind, id);
    forall j | 0 <= j < |items|
      ensures RoleOf(items[j]).HostedCall? && RoleOf(items[j]).kind == kind && RoleOf(items[j]).id == Some(id)
        <==> IsA(items[j], CallType(kind)) && Named(items[j], id)
    {
      TypeLaw(items[j], kind);
      RoleLaw(items[j]);
    }
  }

  lemma OutputIdsLaw(items: seq<InputItem>, i: nat, kind: Kind, id: string)
    requires i < |items| && Named(items[i], id) && (forall other: string :: Named(items[i], other) ==> other == id)
    ensures id in OutputIds(items, kind) <==> NamedToo(items, i, OutputType(kind))
  {
    hide RoleOf, Named;
    OutputIdsMember(items, kind, id);
    forall j | 0 <= j < |items|
      ensures RoleOf(items[j]).HostedOutput? && RoleOf(items[j]).kind == kind && RoleOf(items[j]).id == Some(id)
        <==> IsA(items[j], OutputType(kind)) && Named(items[j], id)
    {
      TypeLaw(items[j], kind);
      RoleLaw(items[j]);
    }
  }

  lemma TypeLaw(item: InputItem, kind: Kind)
    ensures RoleOf(item).HostedCall? && RoleOf(item).kind == kind <==> IsA(item, CallType(kind))
    ensures RoleOf(item).HostedOutput? && RoleOf(item).kind == kind <==> IsA(item, OutputType(kind))
  {
    assert |"shell_call"| == 10 && |"shell_call_output"| == 17 && |"tool_search_call"| == 16
        && |"tool_search_output"| == 18;
  }

  lemma AnonymousShape(item: InputItem)
    ensures RoleOf(item).HostedCall? && RoleOf(item).kind == ToolSearch && RoleOf(item).id == None ==>
      AnonymousCall(item)
    ensures RoleOf(item).HostedOutput? && RoleOf(item).kind == ToolSearch && RoleOf(item).id == None
      ==> AnonymousOutput(item)
    ensures !RoleOf(item).Plain? && RoleOf(item).kind == Shell ==> !AnonymousCall(item) && !AnonymousOutput(item)
  {}

  lemma NamedNever(items: seq<InputItem>, i: nat, kind: string)
    requires i < |items| && Nameless(items[i])
    ensures !NamedToo(items, i, kind)
  {}

  /** Which items a replay keeps. */
  lemma KeepLaw(items: seq<InputItem>, i: nat)
    requires i < |items|
    ensures Keep(items, i) <==> Stays(items, i)
  {
    hide RoleOf, Matched, HasPartner, NamedToo, Named, AnonymousCall, AnonymousOutput, Completed, CallIds, OutputIds;
    var item, role := items[i], RoleOf(items[i]);
    RoleLaw(item);
    TypeLaw(item, Shell);
    TypeLaw(item, ToolSearch);
    AnonymousShape(item);
    if !role.Plain? {
      if role.id.Some? {
        assert Named(item, role.id.value);
        CallIdsLaw(items, i, role.kind, role.id.value);
        OutputIdsLaw(items, i, role.kind, role.id.value);
      } else if role.kind == Shell {
        NotMatched(items, i);
        NamedNever(items, i, "shell_call");
        NamedNever(items, i, "shell_call_output");
      } else {
        MatchedLaw(items, i);
      }
    }
  }

  lemma NotMatched(items: seq<InputItem>, i: nat)
    requires i < |items| && !AnonymousCall(items[i]) && !AnonymousOutput(items[i])
    ensures !Matched(items, i)
  {}

  lemma {:induction false} StayingIsKept(items: seq<InputItem>, n: nat)
    requires n <= |items|
    ensures Kept(items, 0, n) == Staying(items, n)
  {
    hide Keep, Stays;
    if n > 0 {
      StayingIsKept(items, n - 1);
      KeepLaw(items, n - 1);
    }
  }

  // ---- what is repeated ----

  lemma KeyLaw(item: InputItem)
    ensures StableReplayDedupeKey(item).Some? <==> Recognisable(item)
  {
    if StableReplayDedupeKey(item).Some? {
      assert Says(item, "type", GetStr(item.value, "type").value);
      if GetStr(item.value, "id").Some? && GetStr(item.value, "id") != Some("__fake_id__") {
        assert Says(item, "id", GetStr(item.value, "id").value);
      } else {
        assert Says(item, "call_id", GetStr(item.value, "call_id").value);
      }
    }
  }

  lemma OverlapsLaw(base: seq<InputItem>, generated: seq<InputItem>, k: nat)
    requires k <= |base| && k <= |generated|
    ensures Overlaps(base, generated, k) <==> Repeats(base, generated, k)
  {
    hide Recognisable;
    forall i | 0 <= i < k ensures StableReplayDedupeKey(generated[i]).Some? <==> Recognisable(generated[i]) {
      KeyLaw(generated[i]);
    }
    assert forall i :: 0 <= i < k ==> generated[..k][i] == generated[i];
  }

  /** A replay is the base without the hosted calls and outputs that lost their partner, followed by the
      generated items that the base does not already end with. */
  lemma ReplayLaw(base: seq<InputItem>, items: seq<RunItem>, policy: ReasoningPolicy) returns (k: nat)
    ensures var generated := RunItemsToInputItems(items, policy);
      && k <= |generated| && ComposeReplay(base, items, policy) == Staying(base, |base|) + generated[k..]
      && (k > 0 ==> Repeats(base, generated, k))
      && forall j: nat :: Repeats(base, generated, j) ==> j <= k
  {
    var generated := RunItemsToInputItems(items, policy);
    hide Repeats, Overlaps, OverlapUpTo, Kept, Staying;
    k := TrailingGeneratedOverlap(base, generated);
    OverlapIsLargest(base, generated);
    StayingIsKept(base, |base|);
    forall j: nat | j <= |base| && j <= |generated| ensures Overlaps(base, generated, j) <==>
      Repeats(base, generated, j)
    {
      OverlapsLaw(base, generated, j);
    }
    forall j: nat | Repeats(base, generated, j) ensures j <= k { RepeatsFits(base, generated, j); }
  }

  lemma RepeatsFits(base: seq<InputItem>, generated: seq<InputItem>, j: nat)
    requires Repeats(base, generated, j)
    ensures j <= |base| && j <= |generated|
  {}
}
