/** Schemas whose references have siblings but do not lead back to themselves. */
module ReferenceRanks {
  import opened Items
  import opened StrictSchema

  /** Some references, with a rank each. */
  type Rank = map<string, nat>

  predicate LeadsToObject(root: Json, reference: string) {
    ResolveRef(root, reference).Some? && ResolveRef(root, reference).value.Obj?
  }

  /** A `$ref` member that leads to an object has a rank below `k`. */
  predicate Low(member: Option<Json>, root: Json, rank: Rank, k: nat) {
    member.Some? && member.value.Str? && LeadsToObject(root, member.value.s) ==>
      member.value.s in rank && rank[member.value.s] < k
  }

  function ReferenceOf(j: Json): Option<Json> {
    if j.Obj? then Look(j.fields, Ref) else None
  }

  /** References that will be expanded at this node rank below `k`: one with siblings, and one that is the only
      element of an `allOf` list and so gets siblings. */
  predicate ExpandsLow(f: Fields, root: Json, rank: Rank, k: nat) {
    && (|f| > 1 ==> Low(Look(f, Ref), root, rank, k))
    && (OneElement(Look(f, AllOf)) ==> Low(ReferenceOf(Look(f, AllOf).value.elems[0]), root, rank, k))
  }

  function Under(root: Json, rank: Rank, k: nat): Fields -> bool {
    f => ExpandsLow(f, root, rank, k)
  }

  /** Within the target of a reference, only references of lower rank will be expanded. */
  ghost predicate Ranked(root: Json, rank: Rank) {
    forall reference :: reference in rank && LeadsToObject(root, reference) ==>
      All(Under(root, rank, rank[reference]), ResolveRef(root, reference).value)
  }

  // ---- what is strict expands nothing ----

  lemma StrictExpandsNothing(f: Fields, root: Json, rank: Rank, k: nat)
    requires StrictFields(f, root)
    ensures ExpandsLow(f, root, rank, k)
  {
    hide RequiredNames, ResolveRef;
  }

  lemma StrictIsUnder(member: Json, shape: Shape, root: Json, rank: Rank, k: nat)
    requires AllIn(StrictAt(root), member, shape)
    ensures AllIn(Under(root, rank, k), member, shape)
  {
    hide StrictFields, ExpandsLow;
    forall f: Fields | StrictAt(root)(f) ensures Under(root, rank, k)(f) { StrictExpandsNothing(f, root, rank, k); }
    AllInWeaker(StrictAt(root), Under(root, rank, k), member, shape);
  }

  // ---- enough fuel ----

  /** With this fuel the rewrite of the node ends; and if the result is a reference again, the node was that
      reference or it ranks below `k`. */
  ghost predicate EndsUnder(node: Json, root: Json, rank: Rank, k: nat, fuel: nat) {
    var r := EnsureNode(node, root, fuel);
    && !r.OutOfFuel?
    && (r.Ok? ==> ReferenceOf(r.value) == ReferenceOf(node) || Low(ReferenceOf(r.value), root, rank, k))
  }

  lemma EndsWithMore(node: Json, root: Json, rank: Rank, k: nat, fuel: nat, more: nat)
    requires EndsUnder(node, root, rank, k, fuel) && fuel <= more
    ensures EndsUnder(node, root, rank, k, more) && EnsureNode(node, root, more) == EnsureNode(node, root, fuel)
  {
    hide EnsureNode;
    NodeMonotone(node, root, fuel, more);
  }

  // ---- one expansion ----

  /** The references expanded in a target that takes a link's place are the target's own. */
  lemma ExpansionUnder(f: Fields, parts: Parts, t: Fields, root: Json, rank: Rank, k: nat)
    requires PartsHold(StrictAt(root), f, parts, EARLY + LATE) && !Merges(parts)
    requires All(Under(root, rank, k), Obj(t))
    ensures All(Under(root, rank, k), Obj((t + Completed(f, parts)) - {Name(Ref)}))
    ensures ReferenceOf(Obj((t + Completed(f, parts)) - {Name(Ref)})) == None
  {
    hide Completed, AllIn, ExpandsLow, PartsHold, Name;
    var e := (t + Completed(f, parts)) - {Name(Ref)};
    forall key: Keyword ensures Look(e, key) == if key == Ref then None
      else if Look(Completed(f, parts), key).Some? then Look(Completed(f, parts), key) else Look(t, key) {
      ExpansionLooks(f, parts, t, key);
    }
    ExpansionExpandsLow(f, parts, t, e, root, rank, k);
    forall key | Holds(e, key) ensures AllIn(Under(root, rank, k), e[Name(key)], ShapeOf(key)) {
      if Look(Completed(f, parts), key).Some? {
        CompletedMember(f, parts, key, root);
        StrictIsUnder(e[Name(key)], ShapeOf(key), root, rank, k);
      } else {
        assert Holds(t, key) && e[Name(key)] == t[Name(key)];
      }
    }
  }

  lemma ExpansionLooks(f: Fields, parts: Parts, t: Fields, key: Keyword)
    ensures Look((t + Completed(f, parts)) - {Name(Ref)}, key) == if key == Ref then None
      else if Look(Completed(f, parts), key).Some? then Look(Completed(f, parts), key) else Look(t, key)
  {
    hide Completed;
    NamesDiffer();
  }

  lemma CompletedMember(f: Fields, parts: Parts, key: Keyword, root: Json)
    requires PartsHold(StrictAt(root), f, parts, EARLY + LATE) && Holds(Completed(f, parts), key)
    ensures AllIn(StrictAt(root), Completed(f, parts)[Name(key)], ShapeOf(key))
  {
    hide Completed;
    CompletedLooks(f, parts, key);
    EveryMember(key);
    EveryMember(AnyOf);
    FoldedHolds(StrictAt(root), f, parts, EARLY + LATE);
  }

  lemma ExpansionExpandsLow(f: Fields, parts: Parts, t: Fields, e: Fields, root: Json, rank: Rank, k: nat)
    requires PartsHold(StrictAt(root), f, parts, EARLY + LATE) && !Merges(parts) && ExpandsLow(t, root, rank, k)
    requires forall key: Keyword :: Look(e, key) == if key == Ref then None
      else if Look(Completed(f, parts), key).Some? then Look(Completed(f, parts), key) else Look(t, key)
    ensures ExpandsLow(e, root, rank, k)
  {
    hide Completed, AllIn, Name;
    CompletedLooks(f, parts, AllOf);
    assert Look(e, Ref) == None && Look(e, AllOf).Some? ==>
      Look(e, AllOf) in {Look(t, AllOf), Finished(f, parts, AllOf)};
  }

  /** An expansion goes on below the rank of its reference. */
  lemma Expansion(f: Fields, parts: Parts, again: Json, root: Json, rank: Rank, k: nat) returns (j: nat)
    requires PartsHold(StrictAt(root), f, parts, EARLY + LATE) && !Merges(parts) && Ranked(root, rank)
    requires Next(f, parts, root) == Again(again)
    requires Low(Look(f, Ref), root, rank, k)
    ensures j < k && All(Under(root, rank, j), again) && ReferenceOf(again) == None
  {
    hide Completed, AllIn, All, PartsHold, ResolveRef, Name;
    CompletedLooks(f, parts, Ref);
    var reference := Look(f, Ref).value.s;
    j := rank[reference];
    assert LeadsToObject(root, reference);
    ExpansionUnder(f, parts, ResolveRef(root, reference).value.fields, root, rank, j);
  }

  // ---- a node that took in its one-element `allOf` ----

  /** Everything below it is strict, so that only its own reference can still be expanded. */
  ghost predicate Merged(n: Fields, root: Json, rank: Rank, k: nat) {
    MembersStrict(n, root) && !OneElement(Look(n, AllOf)) && Low(Look(n, Ref), root, rank, k)
  }

  lemma MergeIsMerged(f: Fields, parts: Parts, root: Json, rank: Rank, k: nat)
    requires PartsHold(StrictAt(root), f, parts, EARLY + LATE) && Merges(parts)
    requires Low(Look(f, Ref), root, rank, k) && Low(ReferenceOf(parts[AllOf].elems[0]), root, rank, k)
    ensures Merged(Merge(Assemble(f, parts), parts[AllOf].elems[0]), root, rank, k)
  {
    hide Assemble, Merge, StrictFields, Low;
    var m := parts[AllOf].elems[0];
    var n := Merge(Assemble(f, parts), m);
    EveryMember(AllOf);
    assert AllIn(StrictAt(root), parts[AllOf], Elements);
    assert All(StrictAt(root), m);
    forall key | Holds(n, key) ensures AllIn(StrictAt(root), n[Name(key)], ShapeOf(key)) {
      MergedHolds(StrictAt(root), f, parts, m, key);
    }
    MergedLooks(f, parts, m, root);
  }

  lemma MergedLooks(f: Fields, parts: Parts, m: Json, root: Json)
    requires All(StrictAt(root), m)
    ensures var n := Merge(Assemble(f, parts), m);
      Look(n, Ref) in {Look(f, Ref), ReferenceOf(m)} && !OneElement(Look(n, AllOf))
  {
    hide Assemble, Merge, ResolveRef, RequiredNames;
    MergeLooks(Assemble(f, parts), m, Ref);
    MergeLooks(Assemble(f, parts), m, AllOf);
    AssembleLooks(f, parts, Ref);
    AssembleLooks(f, parts, AllOf);
  }

  lemma UnchangedParts(n: Fields, root: Json, fuel: nat)
    requires MembersStrict(n, root) && !Refused(n)
    ensures var parts := EnsureParts(Obj(n), root, fuel);
      parts.Ok? && PartsHold(StrictAt(root), n, parts.value, EARLY + LATE) && Unchanged(n, parts.value, EARLY + LATE)
  {
    hide Refused, StrictFields;
    MembersFixed(Obj(n), EARLY, root, fuel);
    MembersFixed(Obj(n), LATE, root, fuel);
    PartsStrict(Obj(n), root, fuel);
    hide EnsureMembers;
    assert Unchanged(n, EnsureParts(Obj(n), root, fuel).value, EARLY + LATE);
  }

  lemma RefusedParts(node: Json, root: Json, fuel: nat)
    requires node.Obj? && Refused(node.fields) && !EnsureMembers(node, EARLY, root, fuel).OutOfFuel?
    ensures EnsureNode(node, root, fuel).Failed?
  {
    hide EnsureMembers, Refused, Next;
  }

  // ---- the rewrite ends ----

  /** What settling a node with rewritten parts comes to, with enough fuel for what it starts again with. */
  lemma Settled(f: Fields, parts: Parts, root: Json, rank: Rank, k: nat, fuel: nat)
    requires EnsureParts(Obj(f), root, fuel) == Ok(parts)
    requires match Next(f, parts, root)
      case Done(g) => Look(g, Ref) == Look(f, Ref)
      case Unresolved(_) => true
      case Again(again) =>
        fuel > 0 && EndsUnder(again, root, rank, k, fuel - 1) && Low(ReferenceOf(again), root, rank, k)
    ensures EndsUnder(Obj(f), root, rank, k, fuel)
  {
    hide EnsureParts, Next, Low;
    NodeSettles(Obj(f), root, fuel);
  }

  lemma DoneKeepsReference(f: Fields, parts: Parts, root: Json)
    requires Next(f, parts, root).Done?
    ensures Look(Next(f, parts, root).fields, Ref) == Look(f, Ref)
  {
    hide Next;
    DoneLooks(f, parts, root, Ref);
  }

  lemma LowBelow(j: Json, root: Json, rank: Rank, a: nat, b: nat, fuel: nat)
    requires a <= b && EndsUnder(j, root, rank, a, fuel)
    ensures EndsUnder(j, root, rank, b, fuel)
  {
    hide EnsureNode;
  }

  lemma {:induction false} MergedEnds(n: Fields, root: Json, rank: Rank, k: nat) returns (fuel: nat)
    requires Ranked(root, rank) && Merged(n, root, rank, k)
    ensures EndsUnder(Obj(n), root, rank, k, fuel)
    decreases k, 0
  {
    hide EnsureNode, EnsureParts, EnsureMembers, Next, Ranked, EndsUnder, Refused, PartsHold, Low;
    if Refused(n) {
      fuel := 0;
      MembersFixed(Obj(n), EARLY, root, 0);
      RefusedParts(Obj(n), root, 0);
      FailedEnds(Obj(n), root, rank, k, 0);
    } else {
      UnchangedParts(n, root, 0);
      var parts := EnsureParts(Obj(n), root, 0).value;
      fuel := 0;
      if Next(n, parts, root).Again? {
        var again := Next(n, parts, root).node;
        NotMerging(n, parts, root);
        var j := Expansion(n, parts, again, root, rank, k);
        fuel := RankedNodeEnds(again, root, rank, j);
        LowBelow(again, root, rank, j, k, fuel);
        NoReferenceIsLow(again, root, rank, k);
        fuel := fuel + 1;
      } else if Next(n, parts, root).Done? {
        DoneKeepsReference(n, parts, root);
      }
      PartsMonotone(Obj(n), root, 0, fuel);
      Settled(n, parts, root, rank, k, fuel);
    }
  }

  lemma FailedEnds(node: Json, root: Json, rank: Rank, k: nat, fuel: nat)
    requires EnsureNode(node, root, fuel).Failed?
    ensures EndsUnder(node, root, rank, k, fuel)
  {
    hide EnsureNode;
  }

  lemma NoReferenceIsLow(j: Json, root: Json, rank: Rank, k: nat)
    requires ReferenceOf(j) == None
    ensures Low(ReferenceOf(j), root, rank, k)
  {}

  lemma NotMerging(n: Fields, parts: Parts, root: Json)
    requires Unchanged(n, parts, EARLY + LATE) && !OneElement(Look(n, AllOf))
    ensures !Merges(parts)
  {
    EveryMember(AllOf);
  }

  /** The element of the list that is merged into the node ended under the same rank. */
  lemma MergedElement(node: Json, parts: Parts, root: Json, rank: Rank, k: nat, fuel: nat)
    requires node.Obj? && ExpandsLow(node.fields, root, rank, k)
    requires EnsureParts(node, root, fuel) == Ok(parts) && Merges(parts)
    requires OneElement(Look(node.fields, AllOf)) ==>
      EndsUnder(Look(node.fields, AllOf).value.elems[0], root, rank, k, fuel)
    ensures Low(Look(node.fields, Ref), root, rank, k) && Low(ReferenceOf(parts[AllOf].elems[0]), root, rank, k)
  {
    hide EnsureParts, EnsureNode, EnsureMember, Low;
    var f := node.fields;
    PartsStrict(node, root, fuel);
    EveryMember(AllOf);
    assert Holds(f, AllOf);
    PartIs(node, AllOf, root, fuel);
    ElementIs(f[Name(AllOf)], parts[AllOf], root, fuel);
    if Look(f, Ref).Some? {
      NamesDiffer();
      TwoKeys(f, Name(AllOf), Name(Ref));
    } else {
      NothingIsLow(root, rank, k);
    }
  }

  lemma NothingIsLow(root: Json, rank: Rank, k: nat)
    ensures Low(None, root, rank, k)
  {}

  lemma ElementIs(list: Json, part: Json, root: Json, fuel: nat)
    requires list.Arr? && EnsureMember(list, Elements, root, fuel) == Ok(part) && part.Arr? && |part.elems| == 1
    ensures |list.elems| == 1 && EnsureNode(list.elems[0], root, fuel) == Ok(part.elems[0])
  {
    hide EnsureNode, EnsureElements;
    if list.elems == [] { NoElements(list, root, fuel); } else { ElementSucceeds(list, list.elems, 0, root, fuel); }
  }

  lemma NoElements(list: Json, root: Json, fuel: nat)
    requires list.Arr? && list.elems == []
    ensures EnsureElements(list, list.elems, root, fuel) == Ok([])
  {}

  lemma {:induction false} RankedNodeEnds(node: Json, root: Json, rank: Rank, k: nat) returns (fuel: nat)
    requires Ranked(root, rank) && All(Under(root, rank, k), node)
    ensures EndsUnder(node, root, rank, k, fuel)
    decreases k, 1, node, 2, 0
  {
    hide EnsureNode, EnsureParts, EnsureMembers, Next, Ranked, EndsUnder, Refused, ExpandsLow, Low;
    fuel := 0;
    if !node.Obj? {
      NoObjectEnds(node, root, rank, k);
    } else {
      var early := RankedMembersEnd(node, EARLY, root, rank, k);
      var late := RankedMembersEnd(node, LATE, root, rank, k);
      var element := RankedElementEnds(node, root, rank, k);
      fuel := if early > late then early else late;
      fuel := if element > fuel then element else fuel;
      MembersMonotone(node, EARLY, root, early, fuel);
      MembersMonotone(node, LATE, root, late, fuel);
      if OneElement(Look(node.fields, AllOf)) {
        EndsWithMore(Look(node.fields, AllOf).value.elems[0], root, rank, k, element, fuel);
      }
      fuel := RankedPartsSettle(node, root, rank, k, fuel);
    }
  }

  lemma NoObjectEnds(node: Json, root: Json, rank: Rank, k: nat)
    requires !node.Obj?
    ensures EndsUnder(node, root, rank, k, 0)
  {
    NoNodeStays(node, root, 0);
  }

  lemma {:induction false} RankedElementEnds(node: Json, root: Json, rank: Rank, k: nat) returns (fuel: nat)
    requires node.Obj? && Ranked(root, rank) && All(Under(root, rank, k), node)
    ensures OneElement(Look(node.fields, AllOf)) ==>
      EndsUnder(Look(node.fields, AllOf).value.elems[0], root, rank, k, fuel)
    decreases k, 1, node, 1, 1
  {
    hide Ranked, EndsUnder, ExpandsLow;
    fuel := 0;
    if OneElement(Look(node.fields, AllOf)) {
      var list := node.fields[Name(AllOf)];
      assert Holds(node.fields, AllOf);
      assert AllIn(Under(root, rank, k), list, Elements);
      fuel := RankedNodeEnds(list.elems[0], root, rank, k);
    }
  }

  lemma PartsEnd(node: Json, root: Json, fuel: nat)
    requires node.Obj?
    requires !EnsureMembers(node, EARLY, root, fuel).OutOfFuel? && !EnsureMembers(node, LATE, root, fuel).OutOfFuel?
    ensures !EnsureParts(node, root, fuel).OutOfFuel?
    ensures EnsureParts(node, root, fuel).Failed? ==> EnsureNode(node, root, fuel).Failed?
  {
    hide EnsureMembers, Refused, Next;
  }

  /** The node's members are rewritten; with this much fuel it is settled too. */
  lemma {:induction false} RankedPartsSettle(node: Json, root: Json, rank: Rank, k: nat, enough: nat)
    returns (fuel: nat)
    requires node.Obj? && Ranked(root, rank) && ExpandsLow(node.fields, root, rank, k)
    requires !EnsureMembers(node, EARLY, root, enough).OutOfFuel? && !EnsureMembers(node, LATE, root, enough).OutOfFuel?
    requires OneElement(Look(node.fields, AllOf)) ==>
      EndsUnder(Look(node.fields, AllOf).value.elems[0], root, rank, k, enough)
    ensures EndsUnder(node, root, rank, k, fuel)
    decreases k, 1, node, 1, 0
  {
    hide EnsureNode, EnsureParts, EnsureMembers, Next, Ranked, EndsUnder, Low, PartsHold, ExpandsLow;
    var f := node.fields;
    fuel := enough;
    PartsEnd(node, root, enough);
    match EnsureParts(node, root, enough)
    case Failed(_) => FailedEnds(node, root, rank, k, enough);
    case Ok(parts) =>
      match Next(f, parts, root)
      case Done(_) =>
        DoneKeepsReference(f, parts, root);
        Settled(f, parts, root, rank, k, enough);
      case Unresolved(_) => Settled(f, parts, root, rank, k, enough);
      case Again(again) =>
        var more := RankedAgainEnds(node, parts, again, root, rank, k, enough);
        fuel := if more + 1 > enough then more + 1 else enough;
        PartsMonotone(node, root, enough, fuel);
        EndsWithMore(again, root, rank, k, more, fuel - 1);
        Settled(f, parts, root, rank, k, fuel);
  }

  /** What it starts again with ends. */
  lemma {:induction false} RankedAgainEnds(node: Json, parts: Parts, again: Json, root: Json, rank: Rank,
                                           k: nat, fuel: nat) returns (more: nat)
    requires node.Obj? && Ranked(root, rank) && ExpandsLow(node.fields, root, rank, k)
    requires EnsureParts(node, root, fuel) == Ok(parts) && Next(node.fields, parts, root) == Again(again)
    requires OneElement(Look(node.fields, AllOf)) ==>
      EndsUnder(Look(node.fields, AllOf).value.elems[0], root, rank, k, fuel)
    ensures EndsUnder(again, root, rank, k, more) && Low(ReferenceOf(again), root, rank, k)
    decreases k, 1, node, 0, 0
  {
    hide EnsureNode, EnsureParts, EnsureMembers, Ranked, EndsUnder, Low, PartsHold, Assemble, Completed, Merge,
      ExpandsLow;
    var f := node.fields;
    PartsStrict(node, root, fuel);
    if Merges(parts) {
      MergedElement(node, parts, root, rank, k, fuel);
      MergeIsMerged(f, parts, root, rank, k);
      more := MergedEnds(again.fields, root, rank, k);
    } else {
      AgainReference(f, parts, root, rank, k);
      var j := Expansion(f, parts, again, root, rank, k);
      more := RankedNodeEnds(again, root, rank, j);
      LowBelow(again, root, rank, j, k, more);
      NoReferenceIsLow(again, root, rank, k);
    }
  }

  /** A reference that is expanded had siblings before. */
  lemma AgainReference(f: Fields, parts: Parts, root: Json, rank: Rank, k: nat)
    requires PartsHold(StrictAt(root), f, parts, EARLY + LATE) && ExpandsLow(f, root, rank, k)
    requires Next(f, parts, root).Again? && !Merges(parts)
    ensures Low(Look(f, Ref), root, rank, k)
  {
    hide Completed, PartsHold, Low;
    if Look(f, Ref).Some? {
      if |f| == 1 { ReferenceStays(StrictAt(root), f, parts, root); } else { HasKey(f, Name(Ref)); }
    } else {
      NothingIsLow(root, rank, k);
    }
  }

  lemma HasKey(f: Fields, name: string)
    requires name in f
    ensures |f| > 0
  {
    assert name in f.Keys;
  }

  lemma {:induction false} RankedMembersEnd(node: Json, ks: seq<Keyword>, root: Json, rank: Rank, k: nat)
    returns (fuel: nat)
    requires node.Obj? && Ranked(root, rank) && All(Under(root, rank, k), node)
    ensures !EnsureMembers(node, ks, root, fuel).OutOfFuel?
    decreases k, 1, node, 1, 0, |ks|
  {
    hide EnsureMember, Ranked, ExpandsLow;
    fuel := 0;
    if ks != [] {
      var key, init := ks[|ks| - 1], ks[..|ks| - 1];
      fuel := RankedMembersEnd(node, init, root, rank, k);
      if Holds(node.fields, key) {
        var more := RankedMemberEnds(node.fields[Name(key)], ShapeOf(key), root, rank, k);
        var both := if more > fuel then more else fuel;
        MembersMonotone(node, init, root, fuel, both);
        MemberMonotone(node.fields[Name(key)], ShapeOf(key), root, more, both);
        fuel := both;
      }
      hide EnsureMembers;
      MembersNext(node, ks, root, fuel);
    }
  }

  lemma {:induction false} RankedMemberEnds(member: Json, shape: Shape, root: Json, rank: Rank, k: nat)
    returns (fuel: nat)
    requires Fits(member, shape) && Ranked(root, rank) && AllIn(Under(root, rank, k), member, shape)
    ensures !EnsureMember(member, shape, root, fuel).OutOfFuel?
    decreases k, 1, member, 3, 0
  {
    hide EnsureNode, Ranked, ExpandsLow;
    match shape
    case Whole => fuel := RankedNodeEnds(member, root, rank, k);
    case Values => fuel := RankedValuesEnd(member, SortedKeys(member.fields.Keys), root, rank, k);
    case Elements => fuel := RankedElementsEnd(member, member.elems, root, rank, k);
  }

  lemma {:induction false} RankedValuesEnd(member: Json, keys: seq<string>, root: Json, rank: Rank, k: nat)
    returns (fuel: nat)
    requires member.Obj? && Ranked(root, rank) && AllIn(Under(root, rank, k), member, Values)
    requires forall key :: key in keys ==> key in member.fields
    ensures !EnsureValues(member, keys, root, fuel).OutOfFuel?
    decreases k, 1, member, 1, |keys|
  {
    hide EnsureNode, Ranked, ExpandsLow;
    fuel := 0;
    if keys != [] {
      var key, init := keys[|keys| - 1], keys[..|keys| - 1];
      fuel := RankedValuesEnd(member, init, root, rank, k);
      var more := RankedNodeEnds(member.fields[key], root, rank, k);
      var both := if more > fuel then more else fuel;
      ValuesMonotone(member, init, root, fuel, both);
      NodeMonotone(member.fields[key], root, more, both);
      fuel := both;
    }
  }

  lemma {:induction false} RankedElementsEnd(member: Json, elems: seq<Json>, root: Json, rank: Rank, k: nat)
    returns (fuel: nat)
    requires member.Arr? && Ranked(root, rank) && AllIn(Under(root, rank, k), member, Elements)
    requires elems <= member.elems
    ensures !EnsureElements(member, elems, root, fuel).OutOfFuel?
    decreases k, 1, member, 1, |elems|
  {
    hide EnsureNode, Ranked, ExpandsLow;
    fuel := 0;
    if elems != [] {
      var last, init := elems[|elems| - 1], elems[..|elems| - 1];
      fuel := RankedElementsEnd(member, init, root, rank, k);
      assert last == member.elems[|elems| - 1];
      var more := RankedNodeEnds(last, root, rank, k);
      var both := if more > fuel then more else fuel;
      ElementsMonotone(member, init, root, fuel, both);
      NodeMonotone(last, root, more, both);
      fuel := both;
    }
  }

  /** If references can be ranked so that within the target of each only lower ones are expanded, the rewrite of
      every node that expands ranked references only ends; and from some fuel on with the same outcome. */
  lemma RankedEnds(node: Json, root: Json, rank: Rank, top: nat)
    requires Ranked(root, rank) && All(Under(root, rank, top), node)
    ensures exists fuel: nat :: Finishes(node, root, fuel)
  {
    hide EnsureNode, ExpandsLow;
    var fuel := RankedNodeEnds(node, root, rank, top);
    forall more: nat | more >= fuel ensures EnsureNode(node, root, more) == EnsureNode(node, root, fuel) {
      NodeMonotone(node, root, fuel, more);
    }
    assert Finishes(node, root, fuel);
  }

  ghost predicate Finishes(node: Json, root: Json, fuel: nat) {
    && !EnsureNode(node, root, fuel).OutOfFuel?
    && forall more: nat :: more >= fuel ==> EnsureNode(node, root, more) == EnsureNode(node, root, fuel)
  }

  /** A whole schema of this kind is made strict or refused, never left unfinished. */
  lemma RankedSchemaIsStrict(schema: Json, rank: Rank, top: nat) returns (fuel: nat)
    requires Ranked(schema, rank) && All(Under(schema, rank, top), schema)
    ensures match EnsureStrictJsonSchema(schema, fuel)
      case Ok(result) => All(StrictAt(schema), result)
      case Failed(_) => true
      case OutOfFuel => false
  {
    hide EnsureNode, ExpandsLow;
    RankedEnds(schema, schema, rank, top);
    fuel :| Finishes(schema, schema, fuel);
    EmptySchemaIsStrict(schema);
    NodeStrict(schema, schema, fuel);
  }

  // ---- one such schema ----

  /** A node with no subschemas, whose reference is low enough. */
  lemma Leaf(f: Fields, root: Json, rank: Rank, k: nat)
    requires forall key: Keyword :: Look(f, key).Some? ==> ShapeOf(key).Opaque?
    requires Low(Look(f, Ref), root, rank, k)
    ensures All(Under(root, rank, k), Obj(f))
  {
    hide Low, Name;
    forall key: Keyword ensures !Holds(f, key) { assert Look(f, key).Some? ==> ShapeOf(key).Opaque?; }
    assert Look(f, AllOf) == None;
  }

  lemma OneValue(p: Fields -> bool, name: string, node: Json)
    requires All(p, node)
    ensures AllIn(p, Obj(map[name := node]), Values)
  {}

  /** A schema with one property and one definition. */
  lemma OneOfEach(f: Fields, property: Json, definition: Json, a: string, b: string, root: Json, rank: Rank, k: nat)
    requires Look(f, Properties) == Some(Obj(map[a := property]))
      && Look(f, Definitions) == Some(Obj(map[b := definition]))
    requires forall key: Keyword :: key != Properties && key != Definitions && Look(f, key).Some? ==>
      ShapeOf(key).Opaque? && key != Ref
    requires All(Under(root, rank, k), property) && All(Under(root, rank, k), definition)
    ensures All(Under(root, rank, k), Obj(f))
  {
    hide Low, Name, All, AllIn;
    OneValue(Under(root, rank, k), a, property);
    OneValue(Under(root, rank, k), b, definition);
    forall key | Holds(f, key) ensures AllIn(Under(root, rank, k), f[Name(key)], ShapeOf(key)) {
      assert Look(f, key) == Some(f[Name(key)]);
    }
    assert Look(f, Ref) == None && Look(f, AllOf) == None;
    NothingIsLow(root, rank, k);
    Together(Under(root, rank, k), f);
  }

  lemma Together(p: Fields -> bool, f: Fields)
    requires p(f) && forall key: Keyword :: Holds(f, key) ==> AllIn(p, f[Name(key)], ShapeOf(key))
    ensures All(p, Obj(f))
  {}

  /** A schema of that kind whose property refers to its definition, beside something else. */
  lemma OneReferenceEnds(schema: Fields, described: Fields, defined: Fields, a: string, b: string, reference: string)
    returns (fuel: nat)
    requires Look(schema, Properties) == Some(Obj(map[a := Obj(described)]))
      && Look(schema, Definitions) == Some(Obj(map[b := Obj(defined)]))
    requires forall key: Keyword :: key != Properties && key != Definitions && Look(schema, key).Some? ==>
      ShapeOf(key).Opaque? && key != Ref
    requires forall k: Keyword :: Look(described, k) == if k == Ref then Some(Str(reference)) else None
    requires forall k: Keyword :: Look(defined, k).Some? ==> ShapeOf(k).Opaque? && k != Ref
    requires ResolveRef(Obj(schema), reference) == Some(Obj(defined))
    ensures !EnsureStrictJsonSchema(Obj(schema), fuel).OutOfFuel?
  {
    hide EnsureStrictJsonSchema, EnsureNode, ResolveRef, All, AllIn, Name;
    var root, rank := Obj(schema), map[reference := 0];
    assert Look(defined, Ref) == None;
    Leaf(defined, root, rank, 0);
    Leaf(defined, root, rank, 1);
    Leaf(described, root, rank, 1);
    OneOfEach(schema, Obj(described), Obj(defined), a, b, root, rank, 1);
    fuel := RankedSchemaIsStrict(root, rank, 1);
  }

  /** For instance with a description beside the reference. */
  lemma DescribedReferenceEnds(schema: Fields, described: Fields, defined: Fields) returns (fuel: nat)
    requires forall k: Keyword :: Look(schema, k) == match k
      case Definitions => Some(Obj(map["refObj" := Obj(defined)]))
      case Type => Some(Str("object"))
      case Properties => Some(Obj(map["value" := Obj(described)]))
      case _ => None
    requires forall k: Keyword :: Look(described, k) == if k == Ref then Some(Str("#/definitions/refObj")) else None
    requires forall k: Keyword ::
      Look(defined, k) == if k == Type then Some(Str("string")) else if k == Default then Some(Null) else None
    ensures !EnsureStrictJsonSchema(Obj(schema), fuel).OutOfFuel?
  {
    hide EnsureStrictJsonSchema, ResolveRef, Name;
    var definitions := Obj(map["refObj" := Obj(defined)]);
    DefinitionsOf(schema, definitions);
    assert "#/definitions/refObj" == "#/" + ("definitions" + "/" + "refObj");
    TwoSteps(Obj(schema), "definitions", "refObj", definitions, Obj(defined));
    fuel := OneReferenceEnds(schema, described, defined, "value", "refObj", "#/definitions/refObj");
  }

  lemma DefinitionsOf(f: Fields, definitions: Json)
    requires Look(f, Definitions) == Some(definitions)
    ensures Get(Obj(f), "definitions") == Some(definitions)
  {}
}
