/** When the strict rewrite of a schema fails, and with which error: the first fault in the order of its visits. */
module SchemaFaults {
  import opened Items
  import opened StrictSchema
  import opened SchemaLaws

  // ---- the visits ----

  /** The values of an object in the order of their names. */
  function InOrder(fields: Fields, names: seq<string>): seq<Json>
    requires forall name :: name in names ==> name in fields
  {
    if names == [] then []
    else
      assert forall name :: name in names[..|names| - 1] ==> name in names;
      InOrder(fields, names[..|names| - 1]) + [fields[names[|names| - 1]]]
  }

  /** The subschemas under one name. */
  function Under(f: Fields, name: string): seq<Json> {
    if name in {"$defs", "definitions", "properties"} then
      if name in f && f[name].Obj? then InOrder(f[name].fields, SortedKeys(f[name].fields.Keys)) else []
    else if name == "items" then
      if name in f then [f[name]] else []
    else ListAt(f, name)
  }

  function Visited(f: Fields, names: seq<string>): seq<Json> {
    if names == [] then [] else Visited(f, names[..|names| - 1]) + Under(f, names[|names| - 1])
  }

  datatype Fault = Fine | Wrong(error: Error) | TooDeep

  function FaultOf<T>(o: Outcome<T>): Fault {
    match o
    case Ok(_) => Fine
    case Failed(error) => Wrong(error)
    case OutOfFuel => TooDeep
  }

  function Rewrites(node: Json, root: Json, fuel: nat): Fault { FaultOf(EnsureNode(node, root, fuel)) }

  ghost predicate AllFine(nodes: seq<Json>, root: Json, fuel: nat) {
    forall i :: 0 <= i < |nodes| ==> Rewrites(nodes[i], root, fuel) == Fine
  }

  ghost predicate FirstFault(nodes: seq<Json>, fault: Fault, root: Json, fuel: nat) {
    fault != Fine && exists i: nat :: i < |nodes| && Rewrites(nodes[i], root, fuel) == fault
                                      && AllFine(nodes[..i], root, fuel)
  }

  // ---- a node ----

  /** The node that the rewrite starts again with costs one of the depth. */
  ghost predicate StartsAgain(n: Fields, fault: Fault, root: Json, fuel: nat) {
    fault == if fuel == 0 then TooDeep else Rewrites(Obj(n), root, fuel - 1)
  }

  ghost predicate RefersNowhere(g: Fields, root: Json) {
    "$ref" in g && g["$ref"].Str? && |g| > 1 && ResolveRef(root, g["$ref"].s) == None
  }

  ghost predicate Completes(f: Fields, g: Fields, root: Json, fuel: nat) {
    Filled(f, g, root, fuel) && Finishes(f, g, root, fuel)
  }

  /** What becomes of a node all of whose subschemas are fine. */
  ghost predicate FaultAfter(f: Fields, fault: Fault, root: Json, fuel: nat) {
    if HasOneAllOf(f) then exists n: Fields :: TakesIn(f, n, root, fuel) && StartsAgain(n, fault, root, fuel)
    else exists g: Fields :: Completes(f, g, root, fuel) && FaultOfReference(g, fault, root, fuel)
  }

  ghost predicate FaultOfReference(g: Fields, fault: Fault, root: Json, fuel: nat) {
    if KeepsReference(g, root) then fault == Fine
    else if RefersNowhere(g, root) then fault == Wrong(UnresolvedReference(g["$ref"].s))
    else exists n: Fields :: Replaces(g, n, root) && StartsAgain(n, fault, root, fuel)
  }

  ghost predicate NodeFault(f: Fields, fault: Fault, root: Json, fuel: nat) {
    var early := Visited(f, ["$defs", "definitions"]);
    var late := Visited(f, ["properties", "items", "anyOf", "oneOf", "allOf"]);
    if !AllFine(early, root, fuel) then FirstFault(early, fault, root, fuel)
    else if At(f, "type") == Some(Str("object")) && At(f, "additionalProperties") == Some(Bool(true)) then
      fault == Wrong(AdditionalPropertiesOpen)
    else if !AllFine(late, root, fuel) then FirstFault(late, fault, root, fuel)
    else FaultAfter(f, fault, root, fuel)
  }

  // ---- the visits find the first fault ----

  ghost predicate FaultIs(nodes: seq<Json>, fault: Fault, root: Json, fuel: nat) {
    if fault == Fine then AllFine(nodes, root, fuel) else FirstFault(nodes, fault, root, fuel)
  }

  lemma FaultAppend(a: seq<Json>, b: seq<Json>, x: Fault, y: Fault, root: Json, fuel: nat)
    requires FaultIs(a, x, root, fuel) && (x == Fine ==> FaultIs(b, y, root, fuel))
    ensures FaultIs(a + b, if x == Fine then y else x, root, fuel)
  {
    hide Rewrites;
    if x != Fine {
      var i: nat :| i < |a| && Rewrites(a[i], root, fuel) == x && AllFine(a[..i], root, fuel);
      assert (a + b)[..i] == a[..i] && (a + b)[i] == a[i];
    } else if y != Fine {
      var i: nat :| i < |b| && Rewrites(b[i], root, fuel) == y && AllFine(b[..i], root, fuel);
      assert (a + b)[..|a| + i] == a + b[..i] && (a + b)[|a| + i] == b[i];
    }
  }

  lemma FaultOne(node: Json, root: Json, fuel: nat)
    ensures FaultIs([node], Rewrites(node, root, fuel), root, fuel)
  {
    hide Rewrites;
    assert [node][..0] == [];
    assert [node][0] == node;
  }

  lemma FaultNone(root: Json, fuel: nat)
    ensures FaultIs([], Fine, root, fuel)
  {}

  lemma {:induction false} ElementsFault(member: Json, elems: seq<Json>, root: Json, fuel: nat)
    requires member.Arr? && elems <= member.elems
    ensures FaultIs(elems, FaultOf(EnsureElements(member, elems, root, fuel)), root, fuel)
  {
    hide FaultIs, EnsureNode;
    if elems == [] {
      FaultNone(root, fuel);
    } else {
      var init, last := elems[..|elems| - 1], elems[|elems| - 1];
      assert last == member.elems[|elems| - 1];
      ElementsFault(member, init, root, fuel);
      FaultOne(last, root, fuel);
      FaultAppend(init, [last], FaultOf(EnsureElements(member, init, root, fuel)), Rewrites(last, root, fuel), root,
        fuel);
      assert elems == init + [last];
    }
  }

  lemma {:induction false} ValuesFault(member: Json, keys: seq<string>, root: Json, fuel: nat)
    requires member.Obj? && forall key :: key in keys ==> key in member.fields
    ensures FaultIs(InOrder(member.fields, keys), FaultOf(EnsureValues(member, keys, root, fuel)), root, fuel)
  {
    hide FaultIs, EnsureNode;
    if keys == [] {
      FaultNone(root, fuel);
    } else {
      var init, last := keys[..|keys| - 1], keys[|keys| - 1];
      assert forall key :: key in init ==> key in keys;
      ValuesFault(member, init, root, fuel);
      FaultOne(member.fields[last], root, fuel);
      FaultAppend(InOrder(member.fields, init), [member.fields[last]], FaultOf(EnsureValues(member, init, root, fuel)),
                  Rewrites(member.fields[last], root, fuel), root, fuel);
    }
  }

  function Inside(member: Json, shape: Shape): seq<Json>
    requires Fits(member, shape)
  {
    match shape
    case Whole => [member]
    case Values => InOrder(member.fields, SortedKeys(member.fields.Keys))
    case Elements => member.elems
  }

  /** What is visited under a keyword. */
  lemma UnderIs(f: Fields, k: Keyword)
    requires !ShapeOf(k).Opaque?
    ensures Under(f, Name(k)) == if Holds(f, k) then Inside(f[Name(k)], ShapeOf(k)) else []
  {
    hide SortedKeys, InOrder;
    assert |"$defs"| == 5 && |"definitions"| == 11 && |"properties"| == 10 && |"items"| == 5 && |"anyOf"| == 5
        && |"oneOf"| == 5 && |"allOf"| == 5;
    assert "$defs"[0] != "items"[0] && "$defs"[0] != "anyOf"[0] && "$defs"[0] != "oneOf"[0] && "items"[0] != "anyOf"[0]
        && "items"[0] != "oneOf"[0];
  }

  lemma ValuesInside(member: Json, root: Json, fuel: nat)
    requires member.Obj?
    ensures FaultOf(EnsureMember(member, Values, root, fuel))
         == FaultOf(EnsureValues(member, SortedKeys(member.fields.Keys), root, fuel))
  {
    hide EnsureValues, SortedKeys;
  }

  lemma ElementsInside(member: Json, root: Json, fuel: nat)
    requires member.Arr?
    ensures FaultOf(EnsureMember(member, Elements, root, fuel))
         == FaultOf(EnsureElements(member, member.elems, root, fuel))
  {
    hide EnsureElements;
  }

  lemma InsideFault(member: Json, shape: Shape, root: Json, fuel: nat)
    requires Fits(member, shape)
    ensures FaultIs(Inside(member, shape), FaultOf(EnsureMember(member, shape, root, fuel)), root, fuel)
  {
    hide FaultIs, EnsureNode, EnsureValues, EnsureElements, SortedKeys, InOrder, FaultOf;
    match shape
    case Whole =>
      hide Rewrites;
      FaultOne(member, root, fuel);
      WholeInside(member, root, fuel);
    case Values =>
      ValuesFault(member, SortedKeys(member.fields.Keys), root, fuel);
      ValuesInside(member, root, fuel);
    case Elements =>
      ElementsFault(member, member.elems, root, fuel);
      ElementsInside(member, root, fuel);
  }

  lemma WholeInside(member: Json, root: Json, fuel: nat)
    ensures FaultOf(EnsureMember(member, Whole, root, fuel)) == Rewrites(member, root, fuel)
  {
    hide EnsureNode;
  }

  function Names(ks: seq<Keyword>): seq<string> {
    seq(|ks|, i requires 0 <= i < |ks| => Name(ks[i]))
  }

  lemma MembersStep(f: Fields, ks: seq<Keyword>, root: Json, fuel: nat)
    requires ks != []
    ensures var init, last := ks[..|ks| - 1], ks[|ks| - 1];
      var before := FaultOf(EnsureMembers(Obj(f), init, root, fuel));
      FaultOf(EnsureMembers(Obj(f), ks, root, fuel))
      == if before != Fine then before
         else if Holds(f, last) then FaultOf(EnsureMember(f[Name(last)], ShapeOf(last), root, fuel)) else Fine
  {
    hide EnsureMember, Name;
  }

  lemma {:induction false} MembersFault(f: Fields, ks: seq<Keyword>, root: Json, fuel: nat)
    requires forall k :: k in ks ==> !ShapeOf(k).Opaque?
    ensures FaultIs(Visited(f, Names(ks)), FaultOf(EnsureMembers(Obj(f), ks, root, fuel)), root, fuel)
  {
    hide FaultIs, EnsureMembers, EnsureMember, Under, Name, FaultOf, Fits;
    if ks == [] {
      NothingVisited(f, root, fuel);
      assert Names(ks) == [];
    } else {
      var init, last := ks[..|ks| - 1], ks[|ks| - 1];
      var names := Names(init);
      MembersFault(f, init, root, fuel);
      assert Names(ks) == names + [Name(last)];
      VisitedPush(f, names, Name(last));
      UnderIs(f, last);
      MembersStep(f, ks, root, fuel);
      var before := FaultOf(EnsureMembers(Obj(f), init, root, fuel));
      if Holds(f, last) {
        InsideFault(f[Name(last)], ShapeOf(last), root, fuel);
        FaultAppend(Visited(f, names), Under(f, Name(last)), before,
                    FaultOf(EnsureMember(f[Name(last)], ShapeOf(last), root, fuel)), root, fuel);
      } else {
        assert Visited(f, names) + [] == Visited(f, names);
      }
    }
  }

  lemma NothingVisited(f: Fields, root: Json, fuel: nat)
    ensures FaultIs(Visited(f, []), FaultOf(EnsureMembers(Obj(f), [], root, fuel)), root, fuel)
  {}

  lemma VisitedPush(f: Fields, names: seq<string>, last: string)
    ensures Visited(f, names + [last]) == Visited(f, names) + Under(f, last)
  {
    hide Under;
    assert (names + [last])[..|names|] == names;
  }

  lemma PartsStep(f: Fields, root: Json, fuel: nat)
    ensures FaultOf(EnsureParts(Obj(f), root, fuel))
      == if FaultOf(EnsureMembers(Obj(f), EARLY, root, fuel)) != Fine then
           FaultOf(EnsureMembers(Obj(f), EARLY, root, fuel))
         else if Refused(f) then Wrong(AdditionalPropertiesOpen)
         else FaultOf(EnsureMembers(Obj(f), LATE, root, fuel))
  {
    hide EnsureMembers, Refused;
  }

  lemma VisitedNames(f: Fields)
    ensures Visited(f, Names(EARLY)) == Visited(f, ["$defs", "definitions"])
    ensures Visited(f, Names(LATE)) == Visited(f, ["properties", "items", "anyOf", "oneOf", "allOf"])
  {
    hide Visited;
    assert Names(EARLY) == ["$defs", "definitions"];
    assert Names(LATE) == ["properties", "items", "anyOf", "oneOf", "allOf"];
  }

  lemma PartsFault(f: Fields, root: Json, fuel: nat)
    ensures var early := Visited(f, ["$defs", "definitions"]);
      var late := Visited(f, ["properties", "items", "anyOf", "oneOf", "allOf"]);
      var fault := FaultOf(EnsureParts(Obj(f), root, fuel));
      if !AllFine(early, root, fuel) then FirstFault(early, fault, root, fuel)
      else if Refused(f) then fault == Wrong(AdditionalPropertiesOpen)
      else FaultIs(late, fault, root, fuel)
  {
    hide EnsureMembers, EnsureParts, Refused, AllFine, FirstFault, FaultOf, Visited, Names;
    MembersFault(f, EARLY, root, fuel);
    MembersFault(f, LATE, root, fuel);
    VisitedNames(f);
    PartsStep(f, root, fuel);
    NoFirstFault(Visited(f, ["$defs", "definitions"]), root, fuel);
  }

  lemma NoFirstFault(nodes: seq<Json>, root: Json, fuel: nat)
    ensures AllFine(nodes, root, fuel) ==> forall fault :: !FirstFault(nodes, fault, root, fuel)
    ensures !FirstFault(nodes, Fine, root, fuel)
  {}

  // ---- after the visits ----

  lemma SettleFault(node: Json, verdict: Verdict, root: Json, fuel: nat)
    requires verdict.Again? ==> verdict.node.Obj?
    ensures match verdict
      case Done(_) => FaultOf(Settle(node, verdict, root, fuel)) == Fine
      case Unresolved(reference) => FaultOf(Settle(node, verdict, root, fuel)) == Wrong(UnresolvedReference(reference))
      case Again(again) => StartsAgain(again.fields, FaultOf(Settle(node, verdict, root, fuel)), root, fuel)
  {
    hide EnsureNode;
  }

  lemma NowhereIs(g: Fields, root: Json)
    ensures match Expand(g, root)
      case Done(_) => KeepsReference(g, root)
      case Unresolved(reference) =>
        !KeepsReference(g, root) && RefersNowhere(g, root) && reference == g["$ref"].s
      case Again(n) =>
        n.Obj? && !KeepsReference(g, root) && !RefersNowhere(g, root) && Replaces(g, n.fields, root)
  {
    hide ResolveRef;
    ExpansionIs(g, root);
  }

  lemma AfterFault(f: Fields, root: Json, fuel: nat)
    requires EnsureParts(Obj(f), root, fuel).Ok?
    ensures FaultAfter(f, Rewrites(Obj(f), root, fuel), root, fuel)
  {
    hide EnsureParts, Assemble, Completed, Filled, Finishes, TakesIn, Replaces, KeepsReference, Expand, Settle;
    hide RefersNowhere, StartsAgain;
    var parts := EnsureParts(Obj(f), root, fuel).value;
    var verdict := Next(f, parts, root);
    MergesOne(f, root, fuel);
    if HasOneAllOf(f) {
      MergeTakesIn(f, root, fuel);
    } else {
      var g := Completed(f, parts);
      BothLookAssembled(f, parts);
      AssembledFills(f, g, root, fuel);
      CompletedFinishes(f, root, fuel);
      assert Completes(f, g, root, fuel);
      NowhereIs(g, root);
    }
    SettleFault(Obj(f), verdict, root, fuel);
  }

  /** How the rewrite of a node ends: with the first fault among the definitions, then because its own properties are
      left open, then with the first fault among its other subschemas, then with the fault of what the node becomes when
      a one-element "allOf" is taken in or its reference is expanded, or because the reference leads nowhere;
        else well. */
  lemma FaultLaw(f: Fields, root: Json, fuel: nat)
    ensures NodeFault(f, Rewrites(Obj(f), root, fuel), root, fuel)
  {
    hide EnsureParts, AllFine, FirstFault, FaultAfter, Rewrites, Refused, Visited;
    PartsFault(f, root, fuel);
    RefusedIs(f);
    NoFirstFault(Visited(f, ["properties", "items", "anyOf", "oneOf", "allOf"]), root, fuel);
    NoFirstFault(Visited(f, ["$defs", "definitions"]), root, fuel);
    if EnsureParts(Obj(f), root, fuel).Ok? { AfterFault(f, root, fuel); } else { PartsFail(f, root, fuel); }
  }

  lemma RefusedIs(f: Fields)
    ensures Refused(f) <==> At(f, "type") == Some(Str("object")) && At(f, "additionalProperties") == Some(Bool(true))
  {}

  lemma PartsFail(f: Fields, root: Json, fuel: nat)
    requires !EnsureParts(Obj(f), root, fuel).Ok?
    ensures Rewrites(Obj(f), root, fuel) == FaultOf(EnsureParts(Obj(f), root, fuel))
  {
    hide EnsureParts;
  }

  /** Nodes that are no objects are schemas already. */
  lemma OtherNodes(node: Json, root: Json, fuel: nat)
    requires !node.Obj?
    ensures EnsureNode(node, root, fuel) == Ok(node)
  {}

  // ---- references ----

  function Slashed(segments: seq<string>): string {
    if segments == [] then "" else if |segments| == 1 then segments[0] else segments[0] + "/" + Slashed(segments[1..])
  }

  ghost predicate Segments(segments: seq<string>) {
    segments != [] && forall i :: 0 <= i < |segments| ==> '/' !in segments[i]
  }

  /** `at` is the way from the root by these names. */
  ghost predicate Leads(at: seq<Json>, segments: seq<string>) {
    && |at| == |segments| + 1
    && forall i :: 0 <= i < |segments| ==>
      at[i].Obj? && segments[i] in at[i].fields && at[i + 1] == at[i].fields[segments[i]]
  }

  lemma {:induction false} SplitSlashed(path: string)
    ensures Segments(Split(path)) && Slashed(Split(path)) == path
  {
    if path == "" {
    } else {
      SplitSlashed(path[1..]);
      var rest, all := Split(path[1..]), Split(path);
      if path[0] == '/' {
        assert all == [""] + rest && all[1..] == rest;
        assert "" + "/" + Slashed(rest) == path;
      } else {
        var first := [path[0]] + rest[0];
        assert all == [first] + rest[1..] && all[1..] == rest[1..];
        forall i | 0 <= i < |all| ensures '/' !in all[i] { if i > 0 { assert all[i] == rest[i]; } }
        if |rest| > 1 {
          assert first + "/" + Slashed(rest[1..]) == [path[0]] + (rest[0] + "/" + Slashed(rest[1..]));
        }
      }
    }
  }

  lemma {:induction false} SlashedSplit(segments: seq<string>)
    requires Segments(segments)
    ensures Split(Slashed(segments)) == segments
  {
    if |segments| == 1 {
      SplitPlain(segments[0]);
      assert segments == [segments[0]];
    } else {
      SlashedSplit(segments[1..]);
      SplitFirst(segments[0], Slashed(segments[1..]));
      assert segments == [segments[0]] + segments[1..];
    }
  }

  lemma {:induction false} WalkLeads(at: seq<Json>, segments: seq<string>)
    requires Leads(at, segments)
    ensures Walk(at[0], segments) == Some(at[|segments|])
  {
    if segments != [] { WalkLeads(at[1..], segments[1..]); }
  }

  lemma {:induction false} WalkFinds(root: Json, segments: seq<string>) returns (at: seq<Json>)
    requires Walk(root, segments).Some?
    ensures Leads(at, segments) && at[0] == root
  {
    at := [root];
    if segments != [] {
      var rest := WalkFinds(root.fields[segments[0]], segments[1..]);
      at := [root] + rest;
      forall i | 0 <= i < |segments|
        ensures at[i].Obj? && segments[i] in at[i].fields && at[i + 1] == at[i].fields[segments[i]] {
        if i > 0 { assert at[i] == rest[i - 1] && at[i + 1] == rest[i] && segments[i] == segments[1..][i - 1]; }
      }
    }
  }

  ghost predicate RefersTo(root: Json, reference: string, segments: seq<string>, at: seq<Json>, target: Json) {
    && Segments(segments) && reference == "#/" + Slashed(segments)
    && Leads(at, segments) && at[0] == root && at[|segments|] == target
  }

  /** A reference leads to what the names behind "#/", cut at the slashes, lead to from the root, one object after the
      other; any other reference leads nowhere. */
  lemma RefLaw(root: Json, reference: string, target: Json)
    ensures ResolveRef(root, reference) == Some(target)
      <==> exists segments, at :: RefersTo(root, reference, segments, at, target)
  {
    if ResolveRef(root, reference) == Some(target) {
      var path := reference[2..];
      SplitSlashed(path);
      var at := WalkFinds(root, Split(path));
      WalkLeads(at, Split(path));
      assert reference == "#/" + path;
      assert RefersTo(root, reference, Split(path), at, target);
    }
    if segments, at :| RefersTo(root, reference, segments, at, target) {
      assert reference[2..] == Slashed(segments);
      SlashedSplit(segments);
      WalkLeads(at, segments);
    }
  }
}
