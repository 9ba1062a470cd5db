/** Replaying earlier items to the model: hosted calls that lost their partner are dropped, and
    generated items the base already ends with are not repeated. */
module ReplayItems {
  import opened Items

  datatype Kind = Shell | ToolSearch

  datatype Role =
    | Plain
    | HostedCall(kind: Kind, id: Option<string>, completed: bool)
    | HostedOutput(kind: Kind, id: Option<string>)

  function NonEmpty(s: Option<string>): Option<string> {
    if s == Some("") then None else s
  }

  /** A `call_id` member that is not a string hides the `id` member. */
  function CallId(value: Json): Option<string> {
    NonEmpty(if Get(value, "call_id").Some? then GetStr(value, "call_id") else GetStr(value, "id"))
  }

  function JsonRole(value: Json): Role {
    var completed := GetStr(value, "status") == Some("completed");
    match GetStr(value, "type")
    case None => Plain
    case Some(t) =>
      if t == "shell_call" then HostedCall(Shell, CallId(value), completed)
      else if t == "shell_call_output" then HostedOutput(Shell, CallId(value))
      else if t == "tool_search_call" then HostedCall(ToolSearch, CallId(value), completed)
      else if t == "tool_search_output" then HostedOutput(ToolSearch, CallId(value))
      else Plain
  }

  function RoleOf(item: InputItem): Role {
    if item.Text? then Plain else JsonRole(item.value)
  }

  /** Calls and outputs without an id are paired by position; shell items always need an id. */
  predicate AnonymousCall(item: InputItem) {
    var r := RoleOf(item);
    r.HostedCall? && r.kind == ToolSearch && r.id == None
  }

  predicate AnonymousOutput(item: InputItem) {
    var r := RoleOf(item);
    r.HostedOutput? && r.kind == ToolSearch && r.id == None
  }

  function CallIds(items: seq<InputItem>, kind: Kind): set<string> {
    if items == [] then {}
    else
      var r := RoleOf(items[|items| - 1]);
      CallIds(items[..|items| - 1], kind) + (if r.HostedCall? && r.kind == kind && r.id.Some? then {r.id.value} else {})
  }

  function OutputIds(items: seq<InputItem>, kind: Kind): set<string> {
    if items == [] then {}
    else
      var r := RoleOf(items[|items| - 1]);
      OutputIds(items[..|items| - 1], kind) + (if r.HostedOutput? && r.kind == kind && r.id.Some? then {r.id.value}
        else {})
  }

  lemma {:induction false} CallIdsMember(items: seq<InputItem>, kind: Kind, id: string)
    ensures id in CallIds(items, kind) <==>
      exists i :: 0 <= i < |items| && RoleOf(items[i]).HostedCall? && RoleOf(items[i]).kind == kind
        && RoleOf(items[i]).id == Some(id)
  {
    if items != [] {
      var init := items[..|items| - 1];
      CallIdsMember(init, kind, id);
      assert forall i :: 0 <= i < |init| ==> init[i] == items[i];
    }
  }

  lemma {:induction false} OutputIdsMember(items: seq<InputItem>, kind: Kind, id: string)
    ensures id in OutputIds(items, kind) <==>
      exists i :: 0 <= i < |items| && RoleOf(items[i]).HostedOutput? && RoleOf(items[i]).kind == kind
        && RoleOf(items[i]).id == Some(id)
  {
    if items != [] {
      var init := items[..|items| - 1];
      OutputIdsMember(init, kind, id);
      assert forall i :: 0 <= i < |init| ==> init[i] == items[i];
    }
  }

  // ---- anonymous pairs, as brackets ----

  /** Calls still open after the items, and outputs that found no open call. */
  datatype Balance = Balance(open: nat, need: nat)

  function Step(b: Balance, item: InputItem): Balance {
    if AnonymousCall(item) then b.(open := b.open + 1)
    else if AnonymousOutput(item) then (if b.open > 0 then b.(open := b.open - 1) else b.(need := b.need + 1))
    else b
  }

  function BalanceOf(items: seq<InputItem>): Balance {
    if items == [] then Balance(0, 0) else Step(BalanceOf(items[..|items| - 1]), items[|items| - 1])
  }

  function Open(items: seq<InputItem>): nat { BalanceOf(items).open }

  function Need(items: seq<InputItem>): nat { BalanceOf(items).need }

  lemma BalancePush(items: seq<InputItem>, item: InputItem)
    ensures BalanceOf(items + [item]) == Step(BalanceOf(items), item)
  {
    assert (items + [item])[..|items|] == items;
  }

  lemma {:induction false} BalanceAppend(a: seq<InputItem>, b: seq<InputItem>)
    ensures BalanceOf(a + b)
         == Balance(Open(a) - Min(Open(a), Need(b)) + Open(b), Need(a) + Need(b) - Min(Open(a), Need(b)))
  {
    if b == [] {
      assert a + b == a;
    } else {
      var init, last := b[..|b| - 1], b[|b| - 1];
      BalanceAppend(a, init);
      BalancePush(a + init, last);
      assert a + b == a + init + [last];
      hide AnonymousCall, AnonymousOutput;
    }
  }

  lemma BalanceOne(item: InputItem)
    ensures BalanceOf([item]) == Step(Balance(0, 0), item)
  {
    assert [item] == [] + [item];
    BalancePush([], item);
  }

  lemma BalanceCons(item: InputItem, items: seq<InputItem>)
    ensures Need([item] + items) == if AnonymousCall(item) then Need(items) - Min(1, Need(items))
                                    else if AnonymousOutput(item) then Need(items) + 1 else Need(items)
  {
    BalanceOne(item);
    BalanceAppend([item], items);
  }

  /** The pairing that a stack of open calls computes. */
  predicate Matched(items: seq<InputItem>, i: nat)
    requires i < |items|
  {
    || (AnonymousCall(items[i]) && Need(items[i + 1..]) > 0)
    || (AnonymousOutput(items[i]) && Open(items[..i]) > 0)
  }

  // ---- which items stay ----

  predicate Keep(items: seq<InputItem>, i: nat)
    requires i < |items|
  {
    match RoleOf(items[i])
    case Plain => true
    case HostedCall(kind, id, completed) =>
      !completed || (if id.Some? then id.value in OutputIds(items, kind) else Matched(items, i))
    case HostedOutput(kind, id) =>
      if id.Some? then id.value in CallIds(items, kind) else Matched(items, i)
  }

  function Kept(items: seq<InputItem>, from: nat, to: nat): seq<InputItem>
    requires from <= to <= |items|
  {
    if from == to then []
    else if Keep(items, to - 1) then Kept(items, from, to - 1) + [items[to - 1]]
    else Kept(items, from, to - 1)
  }

  function Sanitize(items: seq<InputItem>): seq<InputItem> {
    Kept(items, 0, |items|)
  }

  // ---- the pairing loop ----

  datatype Pairing = Pairing(shellCalls: set<string>, shellOutputs: set<string>, searchCalls: set<string>,
                             searchOutputs: set<string>, matchedCalls: set<nat>, matchedOutputs: set<nat>)

  /** What items `i + 1` up to `n` do to the call at `i`. */
  function Since(items: seq<InputItem>, i: nat, n: nat): Balance
    requires i < n <= |items|
  {
    BalanceOf(items[i + 1..n])
  }

  lemma SinceStep(items: seq<InputItem>, i: nat, n: nat)
    requires i < n < |items|
    ensures Since(items, i, n + 1) == Step(Since(items, i, n), items[n])
  {
    assert items[i + 1..n + 1] == items[i + 1..n] + [items[n]];
    BalancePush(items[i + 1..n], items[n]);
  }

  lemma PrefixStep(items: seq<InputItem>, n: nat)
    requires n < |items|
    ensures BalanceOf(items[..n + 1]) == Step(BalanceOf(items[..n]), items[n])
  {
    assert items[..n + 1] == items[..n] + [items[n]];
    BalancePush(items[..n], items[n]);
  }

  /** The indexes on the stack are the calls of the first `n` items that nothing has answered yet. */
  ghost predicate StackInvariant(items: seq<InputItem>, n: nat, stack: seq<nat>)
    requires n <= |items|
  {
    && (forall k :: 0 <= k < |stack| ==> stack[k] < n && AnonymousCall(items[stack[k]]))
    && (forall k :: 0 <= k < |stack| ==> Since(items, stack[k], n) == Balance(|stack| - 1 - k, 0))
    && (forall i: nat :: i < n && AnonymousCall(items[i]) && i !in stack ==> Since(items, i, n).need > 0)
  }

  lemma PushCall(items: seq<InputItem>, n: nat, stack: seq<nat>)
    requires n < |items| && AnonymousCall(items[n]) && StackInvariant(items, n, stack)
    ensures StackInvariant(items, n + 1, stack + [n])
  {
    var pushed := stack + [n];
    assert Since(items, n, n + 1) == Balance(0, 0);
    hide Since;
    forall k | 0 <= k < |pushed| ensures Since(items, pushed[k], n + 1) == Balance(|pushed| - 1 - k, 0) {
      if k < |stack| { SinceStep(items, stack[k], n); }
    }
    forall i: nat | i < n + 1 && AnonymousCall(items[i]) && i !in pushed ensures Since(items, i, n + 1).need > 0 {
      assert n == pushed[|stack|];
      assert forall k :: 0 <= k < |stack| ==> stack[k] == pushed[k];
      SinceStep(items, i, n);
    }
  }

  lemma NotBoth(item: InputItem)
    ensures !(AnonymousCall(item) && AnonymousOutput(item))
  {}

  lemma SinceOutput(items: seq<InputItem>, i: nat, n: nat)
    requires i < n < |items| && AnonymousOutput(items[n])
    ensures var b := Since(items, i, n);
      Since(items, i, n + 1) == if b.open > 0 then b.(open := b.open - 1) else b.(need := b.need + 1)
  {
    SinceStep(items, i, n);
  }

  lemma PopCall(items: seq<InputItem>, n: nat, stack: seq<nat>)
    requires n < |items| && AnonymousOutput(items[n]) && stack != [] && StackInvariant(items, n, stack)
    ensures StackInvariant(items, n + 1, stack[..|stack| - 1])
  {
    hide Since, AnonymousCall, AnonymousOutput, Step;
    var popped := stack[..|stack| - 1];
    forall k | 0 <= k < |popped| ensures Since(items, popped[k], n + 1) == Balance(|popped| - 1 - k, 0) {
      SinceOutput(items, stack[k], n);
    }
    NotBoth(items[n]);
    forall i: nat | i < n + 1 && AnonymousCall(items[i]) && i !in popped ensures Since(items, i, n + 1).need > 0 {
      SinceOutput(items, i, n);
      if i in stack {
        assert forall k :: 0 <= k < |popped| ==> popped[k] == stack[k];
        assert i == stack[|stack| - 1];
      }
    }
  }

  lemma PassItem(items: seq<InputItem>, n: nat, stack: seq<nat>)
    requires n < |items| && !AnonymousCall(items[n]) && (AnonymousOutput(items[n]) ==> stack == [])
      && StackInvariant(items, n, stack)
    ensures StackInvariant(items, n + 1, stack)
  {
    forall k | 0 <= k < |stack| ensures Since(items, stack[k], n + 1) == Balance(|stack| - 1 - k, 0) {
      SinceStep(items, stack[k], n);
    }
    forall i: nat | i < n + 1 && AnonymousCall(items[i]) && i !in stack ensures Since(items, i, n + 1).need > 0 {
      SinceStep(items, i, n);
    }
  }

  /** The part of the pairing that the stack decides, after `n` items. */
  ghost predicate PairedSoFar(items: seq<InputItem>, n: nat, stack: seq<nat>, calls: set<nat>, outputs: set<nat>)
    requires n <= |items|
  {
    && StackInvariant(items, n, stack) && |stack| == Open(items[..n])
    && CallsPaired(items, n, stack, calls) && OutputsPaired(items, n, outputs)
  }

  ghost predicate CallsPaired(items: seq<InputItem>, n: nat, stack: seq<nat>, calls: set<nat>)
    requires n <= |items|
  {
    forall i: nat :: i in calls <==> i < n && AnonymousCall(items[i]) && i !in stack
  }

  ghost predicate OutputsPaired(items: seq<InputItem>, n: nat, outputs: set<nat>)
    requires n <= |items|
  {
    forall i: nat :: i in outputs <==> i < n && AnonymousOutput(items[i]) && Open(items[..i]) > 0
  }

  lemma PairCall(items: seq<InputItem>, n: nat, stack: seq<nat>, calls: set<nat>, outputs: set<nat>)
    requires n < |items| && AnonymousCall(items[n]) && PairedSoFar(items, n, stack, calls, outputs)
    ensures PairedSoFar(items, n + 1, stack + [n], calls, outputs)
  {
    PrefixStep(items, n);
    PushCall(items, n, stack);
  }

  lemma TopOnce(items: seq<InputItem>, n: nat, stack: seq<nat>)
    requires n <= |items| && stack != [] && StackInvariant(items, n, stack)
    ensures stack[|stack| - 1] !in stack[..|stack| - 1]
  {
    forall k | 0 <= k < |stack| - 1 ensures stack[k] != stack[|stack| - 1] {
      assert Since(items, stack[k], n) != Since(items, stack[|stack| - 1], n);
    }
  }

  lemma CallsPop(items: seq<InputItem>, n: nat, stack: seq<nat>, calls: set<nat>)
    requires n < |items| && !AnonymousCall(items[n]) && stack != [] && StackInvariant(items, n, stack)
    requires CallsPaired(items, n, stack, calls)
    ensures CallsPaired(items, n + 1, stack[..|stack| - 1], calls + {stack[|stack| - 1]})
  {
    TopOnce(items, n, stack);
    assert stack == stack[..|stack| - 1] + [stack[|stack| - 1]];
  }

  lemma PairOutput(items: seq<InputItem>, n: nat, stack: seq<nat>, calls: set<nat>, outputs: set<nat>)
    requires n < |items| && AnonymousOutput(items[n]) && stack != [] && PairedSoFar(items, n, stack, calls, outputs)
    ensures PairedSoFar(items, n + 1, stack[..|stack| - 1], calls + {stack[|stack| - 1]}, outputs + {n})
  {
    PrefixStep(items, n);
    PopCall(items, n, stack);
    CallsPop(items, n, stack, calls);
    assert OutputsPaired(items, n + 1, outputs + {n});
  }

  lemma PairOther(items: seq<InputItem>, n: nat, stack: seq<nat>, calls: set<nat>, outputs: set<nat>)
    requires n < |items| && !AnonymousCall(items[n]) && (AnonymousOutput(items[n]) ==> stack == [])
    requires PairedSoFar(items, n, stack, calls, outputs)
    ensures PairedSoFar(items, n + 1, stack, calls, outputs)
  {
    PrefixStep(items, n);
    PassItem(items, n, stack);
  }

  lemma PairedAtStart(items: seq<InputItem>)
    ensures PairedSoFar(items, 0, [], {}, {})
  {}

  lemma PairedKinds(items: seq<InputItem>, stack: seq<nat>, calls: set<nat>, outputs: set<nat>)
    requires PairedSoFar(items, |items|, stack, calls, outputs)
    ensures forall i: nat :: i in calls ==> i < |items| && AnonymousCall(items[i])
    ensures forall i: nat :: i in outputs ==> i < |items| && AnonymousOutput(items[i])
  {}

  lemma PairedAtEnd(items: seq<InputItem>, stack: seq<nat>, calls: set<nat>, outputs: set<nat>, i: nat)
    requires PairedSoFar(items, |items|, stack, calls, outputs) && i < |items|
    ensures Matched(items, i) <==> i in calls || i in outputs
  {
    if AnonymousCall(items[i]) {
      assert items[i + 1..|items|] == items[i + 1..];
      if i in stack {
        var k :| 0 <= k < |stack| && stack[k] == i;
        assert Since(items, stack[k], |items|).need == 0;
      }
    }
  }

  /** One pass with sets of ids and a stack of anonymous calls computes the pairing. */
  method HostedPairingInfo(items: seq<InputItem>) returns (info: Pairing)
    ensures info.shellCalls == CallIds(items, Shell) && info.shellOutputs == OutputIds(items, Shell)
    ensures info.searchCalls == CallIds(items, ToolSearch) && info.searchOutputs == OutputIds(items, ToolSearch)
    ensures forall i: nat :: i < |items| ==> (Matched(items, i) <==> i in info.matchedCalls || i in info.matchedOutputs)
    ensures forall i: nat :: i in info.matchedCalls ==> i < |items| && AnonymousCall(items[i])
    ensures forall i: nat :: i in info.matchedOutputs ==> i < |items| && AnonymousOutput(items[i])
  {
    var shellCalls, shellOutputs, searchCalls, searchOutputs: set<string> := {}, {}, {}, {};
    var matchedCalls, matchedOutputs: set<nat> := {}, {};
    var anonymous: seq<nat> := [];
    hide PairedSoFar, CallId, JsonRole, Open;
    PairedAtStart(items);
    var n := 0;
    while n < |items|
      invariant n <= |items|
      invariant shellCalls == CallIds(items[..n], Shell) && shellOutputs == OutputIds(items[..n], Shell)
      invariant searchCalls == CallIds(items[..n], ToolSearch) && searchOutputs == OutputIds(items[..n], ToolSearch)
      invariant PairedSoFar(items, n, anonymous, matchedCalls, matchedOutputs)
    {
      assert items[..n + 1][..n] == items[..n];
      match RoleOf(items[n]) {
        case HostedCall(Shell, id, _) =>
          PairOther(items, n, anonymous, matchedCalls, matchedOutputs);
          if id.Some? { shellCalls := shellCalls + {id.value}; }
        case HostedOutput(Shell, id) =>
          PairOther(items, n, anonymous, matchedCalls, matchedOutputs);
          if id.Some? { shellOutputs := shellOutputs + {id.value}; }
        case HostedCall(ToolSearch, id, _) =>
          if id.Some? {
            PairOther(items, n, anonymous, matchedCalls, matchedOutputs);
            searchCalls := searchCalls + {id.value};
          } else {
            PairCall(items, n, anonymous, matchedCalls, matchedOutputs);
            anonymous := anonymous + [n];
          }
        case HostedOutput(ToolSearch, id) =>
          if id.Some? {
            PairOther(items, n, anonymous, matchedCalls, matchedOutputs);
            searchOutputs := searchOutputs + {id.value};
          } else if anonymous != [] {
            PairOutput(items, n, anonymous, matchedCalls, matchedOutputs);
            matchedCalls := matchedCalls + {anonymous[|anonymous| - 1]};
            matchedOutputs := matchedOutputs + {n};
            anonymous := anonymous[..|anonymous| - 1];
          } else {
            PairOther(items, n, anonymous, matchedCalls, matchedOutputs);
          }
        case Plain =>
          PairOther(items, n, anonymous, matchedCalls, matchedOutputs);
      }
      n := n + 1;
    }
    assert items[..n] == items;
    forall i: nat | i < |items| ensures Matched(items, i) <==> i in matchedCalls || i in matchedOutputs {
      PairedAtEnd(items, anonymous, matchedCalls, matchedOutputs, i);
    }
    PairedKinds(items, anonymous, matchedCalls, matchedOutputs);
    info := Pairing(shellCalls, shellOutputs, searchCalls, searchOutputs, matchedCalls, matchedOutputs);
  }

  method SanitizeHostedToolReplayItems(items: seq<InputItem>) returns (kept: seq<InputItem>)
    ensures kept == Sanitize(items)
  {
    var pairing := HostedPairingInfo(items);
    kept := [];
    for n := 0 to |items|
      invariant kept == Kept(items, 0, n)
    {
      if ShouldKeepHostedReplayItem(n, items[n], pairing) {
        kept := kept + [items[n]];
      }
    }
  }

  predicate ShouldKeepHostedReplayItem(index: nat, item: InputItem, pairing: Pairing) {
    match RoleOf(item)
    case HostedCall(Shell, id, completed) => !completed || (id.Some? && id.value in pairing.shellOutputs)
    case HostedOutput(Shell, id) => id.Some? && id.value in pairing.shellCalls
    case HostedCall(ToolSearch, id, completed) =>
      !completed || (if id.Some? then id.value in pairing.searchOutputs else index in pairing.matchedCalls)
    case HostedOutput(ToolSearch, id) => if id.Some? then id.value in pairing.searchCalls
      else index in pairing.matchedOutputs
    case Plain => true
  }

  // ---- dropping the orphans leaves the pairing of the rest as it was ----

  lemma {:induction false} KeptSplit(items: seq<InputItem>, from: nat, middle: nat, to: nat)
    requires from <= middle <= to <= |items|
    ensures Kept(items, from, to) == Kept(items, from, middle) + Kept(items, middle, to)
  {
    hide Keep;
    if middle < to { KeptSplit(items, from, middle, to - 1); }
  }

  lemma KeptFirst(items: seq<InputItem>, n: nat)
    requires n < |items|
    ensures Kept(items, n, |items|)
         == if Keep(items, n) then [items[n]] + Kept(items, n + 1, |items|) else Kept(items, n + 1, |items|)
  {
    KeptSplit(items, n, n + 1, |items|);
    assert Kept(items, n, n) == [];
  }

  lemma SuffixStep(items: seq<InputItem>, n: nat)
    requires n < |items|
    ensures Need(items[n..]) == if AnonymousCall(items[n]) then Need(items[n + 1..]) - Min(1, Need(items[n + 1..]))
                                else if AnonymousOutput(items[n]) then Need(items[n + 1..]) + 1
                                  else Need(items[n + 1..])
  {
    assert items[n..] == [items[n]] + items[n + 1..];
    BalanceCons(items[n], items[n + 1..]);
  }

  lemma KeepAnonymous(items: seq<InputItem>, n: nat)
    requires n < |items|
    ensures AnonymousCall(items[n]) && Need(items[n + 1..]) > 0 ==> Keep(items, n)
    ensures AnonymousOutput(items[n]) ==> (Keep(items, n) <==> Open(items[..n]) > 0)
  {}

  /** After an item, what is kept needs exactly the calls that both sides of the cut agree on. */
  lemma {:induction false} KeptNeed(items: seq<InputItem>, n: nat)
    requires n <= |items|
    ensures Need(Kept(items, n, |items|)) == Min(Open(items[..n]), Need(items[n..]))
    decreases |items| - n
  {
    if n < |items| {
      KeptNeed(items, n + 1);
      KeptFirst(items, n);
      KeepAnonymous(items, n);
      PrefixStep(items, n);
      SuffixStep(items, n);
      BalanceCons(items[n], Kept(items, n + 1, |items|));
    }
  }

  lemma KeptOpenStep(items: seq<InputItem>, n: nat)
    requires n < |items| && Open(Kept(items, 0, n)) >= Min(Open(items[..n]), Need(items[n..]))
    ensures Open(Kept(items, 0, n + 1)) >= Min(Open(items[..n + 1]), Need(items[n + 1..]))
  {
    var before, item := Kept(items, 0, n), items[n];
    assert Kept(items, 0, n + 1) == if Keep(items, n) then before + [item] else before;
    BalancePush(before, item);
    KeepAnonymous(items, n);
    PrefixStep(items, n);
    SuffixStep(items, n);
  }

  /** Before an item, what is kept leaves at least those calls open. */
  lemma {:induction false} KeptOpen(items: seq<InputItem>, n: nat)
    requires n <= |items|
    ensures Open(Kept(items, 0, n)) >= Min(Open(items[..n]), Need(items[n..]))
  {
    if n > 0 {
      KeptOpen(items, n - 1);
      KeptOpenStep(items, n - 1);
    }
  }

  lemma SanitizeCut(items: seq<InputItem>, n: nat)
    requires n < |items| && Keep(items, n)
    ensures Sanitize(items) == Kept(items, 0, n) + [items[n]] + Kept(items, n + 1, |items|)
    ensures Sanitize(items)[..|Kept(items, 0, n)|] == Kept(items, 0, n)
    ensures Sanitize(items)[|Kept(items, 0, n)|] == items[n]
    ensures Sanitize(items)[|Kept(items, 0, n)| + 1..] == Kept(items, n + 1, |items|)
  {
    KeptSplit(items, 0, n, |items|);
    KeptFirst(items, n);
  }

  /** A kept item is paired in what remains exactly if it was paired before. */
  lemma PairingStays(items: seq<InputItem>, n: nat)
    requires n < |items| && Keep(items, n)
    ensures |Kept(items, 0, n)| < |Sanitize(items)|
    ensures Matched(Sanitize(items), |Kept(items, 0, n)|) <==> Matched(items, n)
  {
    SanitizeCut(items, n);
    PrefixStep(items, n);
    SuffixStep(items, n);
    KeptNeed(items, n + 1);
    KeptOpen(items, n);
  }

  lemma KeptIndex(items: seq<InputItem>, n: nat)
    requires n < |items| && Keep(items, n)
    ensures items[n] in Sanitize(items)
  {
    SanitizeCut(items, n);
  }

  /** An id that pairs a kept item still does. */
  lemma IdsStay(items: seq<InputItem>, n: nat)
    requires n < |items| && Keep(items, n)
    ensures match RoleOf(items[n])
      case HostedCall(kind, Some(id), true) => id in OutputIds(Sanitize(items), kind)
      case HostedOutput(kind, Some(id)) => id in CallIds(Sanitize(items), kind)
      case _ => true
  {
    match RoleOf(items[n])
    case HostedCall(kind, Some(id), true) =>
      OutputIdsMember(items, kind, id);
      var m :| 0 <= m < |items| && RoleOf(items[m]) == HostedOutput(kind, Some(id));
      CallIdsMember(items, kind, id);
      KeptIndex(items, m);
      OutputIdsMember(Sanitize(items), kind, id);
    case HostedOutput(kind, Some(id)) =>
      CallIdsMember(items, kind, id);
      var m :| 0 <= m < |items| && RoleOf(items[m]).HostedCall? && RoleOf(items[m]).kind == kind
        && RoleOf(items[m]).id == Some(id);
      OutputIdsMember(items, kind, id);
      KeptIndex(items, m);
      CallIdsMember(Sanitize(items), kind, id);
    case _ =>
  }

  lemma KeepStays(items: seq<InputItem>, n: nat)
    requires n < |items| && Keep(items, n)
    ensures |Kept(items, 0, n)| < |Sanitize(items)| && Keep(Sanitize(items), |Kept(items, 0, n)|)
  {
    SanitizeCut(items, n);
    PairingStays(items, n);
    IdsStay(items, n);
  }

  lemma {:induction false} KeptAgain(items: seq<InputItem>, n: nat)
    requires n <= |items|
    ensures |Kept(items, 0, n)| <= |Sanitize(items)|
    ensures Kept(Sanitize(items), 0, |Kept(items, 0, n)|) == Kept(items, 0, n)
  {
    KeptSplit(items, 0, n, |items|);
    if n > 0 {
      KeptAgain(items, n - 1);
      if Keep(items, n - 1) {
        KeepStays(items, n - 1);
        SanitizeCut(items, n - 1);
      }
    }
  }

  /** Cleaning twice is cleaning once. */
  lemma SanitizeTwice(items: seq<InputItem>)
    ensures Sanitize(Sanitize(items)) == Sanitize(items)
  {
    KeptAgain(items, |items|);
  }

  predicate Hosted(item: InputItem) { !RoleOf(item).Plain? }

  /** Nothing but hosted items is ever dropped. */
  lemma {:induction false} PlainItemsStay(items: seq<InputItem>, to: nat)
    requires to <= |items|
    ensures Plains(Kept(items, 0, to)) == Plains(items[..to])
  {
    if to > 0 {
      PlainItemsStay(items, to - 1);
      assert items[..to] == items[..to - 1] + [items[to - 1]];
      PlainsPush(items[..to - 1], items[to - 1]);
      PlainsPush(Kept(items, 0, to - 1), items[to - 1]);
    }
  }

  function Plains(items: seq<InputItem>): seq<InputItem> {
    if items == [] then []
    else if Hosted(items[|items| - 1]) then Plains(items[..|items| - 1])
    else Plains(items[..|items| - 1]) + [items[|items| - 1]]
  }

  lemma PlainsPush(items: seq<InputItem>, item: InputItem)
    ensures Plains(items + [item]) == if Hosted(item) then Plains(items) else Plains(items) + [item]
  {
    assert (items + [item])[..|items|] == items;
  }

  /** A completed call has its output, an output has its call. */
  predicate Settled(items: seq<InputItem>, i: nat)
    requires i < |items|
  {
    match RoleOf(items[i])
    case Plain => true
    case HostedCall(kind, Some(id), completed) => completed ==> id in OutputIds(items, kind)
    case HostedCall(kind, None, completed) => completed ==> Matched(items, i)
    case HostedOutput(kind, Some(id)) => id in CallIds(items, kind)
    case HostedOutput(kind, None) => Matched(items, i)
  }

  ghost predicate Clean(items: seq<InputItem>) {
    forall i :: 0 <= i < |items| ==> Settled(items, i)
  }

  lemma {:induction false} CleanKeepsAll(items: seq<InputItem>, to: nat)
    requires to <= |items| && Clean(items)
    ensures Kept(items, 0, to) == items[..to]
  {
    if to > 0 {
      assert Settled(items, to - 1);
      CleanKeepsAll(items, to - 1);
      assert items[..to] == items[..to - 1] + [items[to - 1]];
    }
  }

  lemma {:induction false} KeptShort(items: seq<InputItem>, to: nat)
    requires to <= |items|
    ensures |Kept(items, 0, to)| <= to
    ensures |Kept(items, 0, to)| == to ==> forall i :: 0 <= i < to ==> Keep(items, i)
  {
    if to > 0 { KeptShort(items, to - 1); }
  }

  lemma KeptAllIsClean(items: seq<InputItem>)
    requires forall i :: 0 <= i < |items| ==> Keep(items, i)
    ensures Clean(items)
  {
    forall i | 0 <= i < |items| ensures Settled(items, i) { assert Keep(items, i); }
  }

  /** The consistent lists are exactly the ones that cleaning leaves alone; and it makes every list
      consistent. */
  lemma SanitizeCleans(items: seq<InputItem>)
    ensures Clean(Sanitize(items))
    ensures Clean(items) <==> Sanitize(items) == items
  {
    SanitizeTwice(items);
    KeptShort(Sanitize(items), |Sanitize(items)|);
    KeptAllIsClean(Sanitize(items));
    if Clean(items) {
      CleanKeepsAll(items, |items|);
      assert items[..|items|] == items;
    }
  }

  // ---- splicing the generated items in ----

  function ItemKind(value: Json): Option<string> {
    if GetStr(value, "type").Some? then GetStr(value, "type") else GetStr(value, "role")
  }

  /** Messages never have a key, and neither do items without an id of their own. */
  function StableReplayDedupeKey(item: InputItem): Option<string> {
    if item.Text? then None
    else
      var value := item.value;
      match ItemKind(value)
      case None => None
      case Some(kind) =>
        if Get(value, "role").Some? || kind == "message" then None
        else if GetStr(value, "id").Some? && GetStr(value, "id") != Some("__fake_id__") then
          Some("id:" + kind + ":" + GetStr(value, "id").value)
        else match GetStr(value, "call_id")
          case None => None
          case Some(id) => Some("call:" + kind + ":" + id)
  }

  predicate Keyed(items: seq<InputItem>) {
    exists i :: 0 <= i < |items| && StableReplayDedupeKey(items[i]).Some?
  }

  /** The base ends with the first `k` generated items, and one of them has a key. */
  predicate Overlaps(base: seq<InputItem>, generated: seq<InputItem>, k: nat)
    requires k <= |base| && k <= |generated|
  {
    base[|base| - k..] == generated[..k] && Keyed(generated[..k])
  }

  /** The largest overlap of at most `k` items, or none. */
  function OverlapUpTo(base: seq<InputItem>, generated: seq<InputItem>, k: nat): nat
    requires k <= |base| && k <= |generated|
  {
    if k == 0 then 0 else if Overlaps(base, generated, k) then k else OverlapUpTo(base, generated, k - 1)
  }

  function TrailingGeneratedOverlap(base: seq<InputItem>, generated: seq<InputItem>): nat {
    OverlapUpTo(base, generated, Min(|base|, |generated|))
  }

  lemma {:induction false} OverlapUpToIsLargest(base: seq<InputItem>, generated: seq<InputItem>, k: nat)
    requires k <= |base| && k <= |generated|
    ensures OverlapUpTo(base, generated, k) <= k
    ensures OverlapUpTo(base, generated, k) > 0 ==> Overlaps(base, generated, OverlapUpTo(base, generated, k))
    ensures forall j: nat :: OverlapUpTo(base, generated, k) < j <= k ==> !Overlaps(base, generated, j)
  {
    if k > 0 && !Overlaps(base, generated, k) { OverlapUpToIsLargest(base, generated, k - 1); }
  }

  /** The overlap is the largest one with a key; without a key nothing is taken for a repetition. */
  lemma OverlapIsLargest(base: seq<InputItem>, generated: seq<InputItem>)
    ensures TrailingGeneratedOverlap(base, generated) <= |base|
      && TrailingGeneratedOverlap(base, generated) <= |generated|
    ensures var k := TrailingGeneratedOverlap(base, generated); k > 0 ==> Overlaps(base, generated, k)
    ensures forall j: nat :: TrailingGeneratedOverlap(base, generated) < j <= |base| && j <= |generated| ==>
      !Overlaps(base, generated, j)
    ensures !Keyed(generated) ==> TrailingGeneratedOverlap(base, generated) == 0
  {
    OverlapUpToIsLargest(base, generated, Min(|base|, |generated|));
  }

  function Splice(base: seq<InputItem>, generated: seq<InputItem>): seq<InputItem> {
    var k := TrailingGeneratedOverlap(base, generated);
    OverlapUpToIsLargest(base, generated, Min(|base|, |generated|));
    Sanitize(base) + generated[k..]
  }

  function ComposeReplay(base: seq<InputItem>, generated: seq<RunItem>, policy: ReasoningPolicy): seq<InputItem> {
    Splice(base, RunItemsToInputItems(generated, policy))
  }

  method ComposeReplayInputItems(base: seq<InputItem>, generated: seq<RunItem>, policy: ReasoningPolicy)
    returns (replay: seq<InputItem>)
    ensures replay == ComposeReplay(base, generated, policy)
  {
    replay := SanitizeHostedToolReplayItems(base);
    var generatedInputs := RunItemsToInputItems(generated, policy);
    var overlap := TrailingGeneratedOverlap(base, generatedInputs);
    OverlapIsLargest(base, generatedInputs);
    replay := replay + generatedInputs[overlap..];
  }

  predicate EndsWith(items: seq<InputItem>, ending: seq<InputItem>) {
    |ending| <= |items| && items[|items| - |ending|..] == ending
  }

  /** The replay starts with what is left of the base.  It ends with all generated items exactly if what is
      left of the base still ends as the base does where it overlaps with them: the overlap is measured
      before the base is cleaned. */
  lemma SpliceKeepsGenerated(base: seq<InputItem>, generated: seq<InputItem>)
    ensures Sanitize(base) <= Splice(base, generated)
    ensures var k := TrailingGeneratedOverlap(base, generated);
      && k <= |base|
      && (EndsWith(Splice(base, generated), generated) <==> EndsWith(Sanitize(base), base[|base| - k..]))
  {
    OverlapIsLargest(base, generated);
    var k := TrailingGeneratedOverlap(base, generated);
    EndsWithRest(Sanitize(base), generated, k);
    assert k == 0 ==> base[|base|..] == generated[..0];
  }

  /** What follows the first part of a list is followed by the whole list exactly if that part was there. */
  lemma EndsWithRest(items: seq<InputItem>, ending: seq<InputItem>, k: nat)
    requires k <= |ending|
    ensures EndsWith(items + ending[k..], ending) <==> EndsWith(items, ending[..k])
  {
    var whole := items + ending[k..];
    assert ending == ending[..k] + ending[k..];
    if EndsWith(items, ending[..k]) {
      assert whole[|whole| - |ending|..] == items[|items| - k..] + ending[k..];
    }
    if EndsWith(whole, ending) {
      assert items[|items| - k..] == whole[|whole| - |ending|..][..k];
    }
  }

  /** A generated item can be lost: an orphaned output that the base ends with counts as a repetition of
      the generated one, and then the base loses its own. */
  lemma SpliceCanLose()
    ensures Overlaps([ORPHAN], [ORPHAN], 1) && Splice([ORPHAN], [ORPHAN]) == []
  {
    OrphanGoes();
    assert [ORPHAN][..1] == [ORPHAN] && [ORPHAN][0..] == [ORPHAN];
    assert StableReplayDedupeKey([ORPHAN][0]).Some?;
    OverlapIsLargest([ORPHAN], [ORPHAN]);
  }

  /** A shell output without its call: it has a key, and it is dropped. */
  const ORPHAN_VALUE := Obj(map["type" := Str("shell_call_output"), "call_id" := Str("c")])

  const ORPHAN := JsonItem(ORPHAN_VALUE)

  lemma OrphanGoes()
    ensures RoleOf(ORPHAN) == HostedOutput(Shell, Some("c")) && Keyed([ORPHAN])
    ensures Sanitize([ORPHAN]) == []
  {
    assert StableReplayDedupeKey([ORPHAN][0]).Some?;
    NoCallsAlone(ORPHAN);
    KeptAlone(ORPHAN);
  }

  lemma NoCallsAlone(item: InputItem)
    requires RoleOf(item).HostedOutput?
    ensures CallIds([item], Shell) == {}
  {
    assert [item][..0] == [];
  }

  lemma KeptAlone(item: InputItem)
    ensures Sanitize([item]) == if Keep([item], 0) then [item] else []
  {
    assert Kept([item], 0, 0) == [];
  }

  /** A consistent base is a prefix of the replay, and the generated items are a suffix of it. */
  lemma SpliceKeepsBoth(base: seq<InputItem>, generated: seq<InputItem>)
    requires Clean(base)
    ensures base <= Splice(base, generated) && EndsWith(Splice(base, generated), generated)
  {
    SanitizeCleans(base);
    SpliceKeepsGenerated(base, generated);
  }

  /** A list without hosted items is consistent. */
  lemma NoHostedIsClean(items: seq<InputItem>)
    requires forall i :: 0 <= i < |items| ==> !Hosted(items[i])
    ensures Clean(items)
  {}

  /** Splicing the same items in again: with a key among them nothing is repeated, only what the
      generated items left unpaired goes; without one everything is repeated. */
  lemma SpliceTwice(base: seq<InputItem>, generated: seq<InputItem>)
    requires Clean(base)
    ensures var once := Splice(base, generated);
      Splice(once, generated) == if Keyed(generated) then Sanitize(once) else Sanitize(once) + generated
  {
    var once := Splice(base, generated);
    SpliceKeepsBoth(base, generated);
    OverlapIsLargest(once, generated);
    assert generated[..|generated|] == generated;
    if Keyed(generated) {
      assert Overlaps(once, generated, |generated|);
      assert TrailingGeneratedOverlap(once, generated) == |generated|;
    }
  }

  /** Composing twice changes nothing exactly if the replay is consistent, given a keyed item among the
      generated ones; without one, exactly if the replay is the base and items that are dropped again. */
  lemma ComposeTwice(base: seq<InputItem>, generated: seq<RunItem>, policy: ReasoningPolicy)
    requires Clean(base)
    ensures var once, inputs := ComposeReplay(base, generated, policy), RunItemsToInputItems(generated, policy);
      ComposeReplay(once, generated, policy) == once <==> if Keyed(inputs) then Clean(once) else Sanitize(once) == base
  {
    var once, inputs := ComposeReplay(base, generated, policy), RunItemsToInputItems(generated, policy);
    SpliceTwice(base, inputs);
    SanitizeCleans(once);
    if !Keyed(inputs) {
      SanitizeCleans(base);
      OverlapIsLargest(base, inputs);
      assert once == base + inputs;
      SameEnding(Sanitize(once), base, inputs);
    }
  }

  lemma SameEnding(a: seq<InputItem>, b: seq<InputItem>, ending: seq<InputItem>)
    ensures a + ending == b + ending <==> a == b
  {
    if a + ending == b + ending {
      assert a == (a + ending)[..|a|] && b == (b + ending)[..|b|];
    }
  }

  /** A keyed item does not make it harmless: this one is gone the second time. */
  lemma KeyedCanVanish()
    ensures var generated := [MessageOutput(OutJson(ORPHAN_VALUE))];
      && Keyed(RunItemsToInputItems(generated, Preserve))
      && ComposeReplay([], generated, Preserve) == [ORPHAN]
      && ComposeReplay([ORPHAN], generated, Preserve) == []
  {
    var generated := [MessageOutput(OutJson(ORPHAN_VALUE))];
    FilterMapOne(item => RunItemToInputItem(item, Preserve), generated[0]);
    assert RunItemsToInputItems(generated, Preserve) == [ORPHAN];
    OrphanGoes();
    SpliceCanLose();
  }

  /** And it can be harmless without a key: this item is dropped and added again. */
  lemma UnkeyedCanStay()
    ensures var generated := [MessageOutput(OutJson(LOOSE_VALUE))];
      && !Keyed(RunItemsToInputItems(generated, Preserve))
      && ComposeReplay([], generated, Preserve) == [LOOSE]
      && ComposeReplay([LOOSE], generated, Preserve) == [LOOSE]
  {
    var generated := [MessageOutput(OutJson(LOOSE_VALUE))];
    FilterMapOne(item => RunItemToInputItem(item, Preserve), generated[0]);
    assert RunItemsToInputItems(generated, Preserve) == [LOOSE];
    LooseGoes();
    SpliceUnkeyed([], [LOOSE]);
    SpliceUnkeyed([LOOSE], [LOOSE]);
    assert Sanitize([]) == [];
  }

  lemma SpliceUnkeyed(base: seq<InputItem>, generated: seq<InputItem>)
    requires !Keyed(generated)
    ensures Splice(base, generated) == Sanitize(base) + generated
  {
    OverlapIsLargest(base, generated);
    assert generated[0..] == generated;
  }

  /** A tool search output without an id and without a call before it. */
  const LOOSE_VALUE := Obj(map["type" := Str("tool_search_output")])

  const LOOSE := JsonItem(LOOSE_VALUE)

  lemma LooseGoes()
    ensures !Keyed([LOOSE]) && Sanitize([LOOSE]) == []
  {
    assert RoleOf(LOOSE) == HostedOutput(ToolSearch, None);
    KeptAlone(LOOSE);
    assert [LOOSE][..0] == [];
  }
}
