/** What the strict rewrite makes of a node, member by member and in terms of the names in the schema. */
module SchemaLaws {
  import opened Items
  import opened StrictSchema

  // ---- members ----

  /** `b` is what `a` is rewritten to. */
  ghost predicate Becomes(a: Json, b: Json, root: Json, fuel: nat) { EnsureNode(a, root, fuel) == Ok(b) }

  ghost predicate ListBecomes(a: seq<Json>, b: seq<Json>, root: Json, fuel: nat) {
    |a| == |b| && forall i :: 0 <= i < |a| ==> Becomes(a[i], b[i], root, fuel)
  }

  ghost predicate ValuesBecome(a: Fields, b: Fields, root: Json, fuel: nat) {
    a.Keys == b.Keys && forall key :: key in a ==> Becomes(a[key], b[key], root, fuel)
  }

  function At(f: Fields, name: string): Option<Json> { if name in f then Some(f[name]) else None }

  function ListAt(f: Fields, name: string): seq<Json> {
    if name in f && f[name].Arr? then f[name].elems else []
  }

  /** Subschemas under names: all are rewritten; a member that is no object stays. */
  ghost predicate NamedRewritten(f: Fields, g: Fields, name: string, root: Json, fuel: nat) {
    && (name in f <==> name in g)
    && (name in f ==> if f[name].Obj? then g[name].Obj? && ValuesBecome(f[name].fields, g[name].fields, root, fuel)
        else g[name] == f[name])
  }

  ghost predicate ItemsRewritten(f: Fields, g: Fields, root: Json, fuel: nat) {
    ("items" in f <==> "items" in g) && ("items" in f ==> Becomes(f["items"], g["items"], root, fuel))
  }

  /** The alternatives of "anyOf" and then those of "oneOf", all rewritten. */
  ghost predicate AlternativesRewritten(f: Fields, g: Fields, root: Json, fuel: nat) {
    && "oneOf" !in g
    && if "anyOf" in f && !f["anyOf"].Arr? then At(g, "anyOf") == At(f, "anyOf")
       else if "anyOf" in f || ("oneOf" in f && f["oneOf"].Arr?) then
         && "anyOf" in g && g["anyOf"].Arr?
         && ListBecomes(ListAt(f, "anyOf") + ListAt(f, "oneOf"), g["anyOf"].elems, root, fuel)
       else "anyOf" !in g
  }

  /** The node's own members: closed, and requiring all its properties. */
  ghost predicate ClosedFrom(f: Fields, g: Fields) {
    && At(g, "additionalProperties")
       == (if At(f, "type") == Some(Str("object")) && "additionalProperties" !in f then Some(Bool(false))
           else At(f, "additionalProperties"))
    && (if "properties" in f then NamesAll(At(g, "required"), f["properties"])
        else At(g, "required") == At(f, "required"))
  }

  predicate IsSpecial(name: string) {
    name in {"$defs", "definitions", "properties", "items", "anyOf", "oneOf", "allOf", "additionalProperties",
             "required", "default"}
  }

  /** All members but "allOf" and "default". */
  ghost predicate Filled(f: Fields, g: Fields, root: Json, fuel: nat) {
    && NamedRewritten(f, g, "$defs", root, fuel) && NamedRewritten(f, g, "definitions", root, fuel)
    && NamedRewritten(f, g, "properties", root, fuel) && ItemsRewritten(f, g, root, fuel)
    && AlternativesRewritten(f, g, root, fuel) && ClosedFrom(f, g)
    && forall name: string :: !IsSpecial(name) ==> At(g, name) == At(f, name)
  }

  /** The "allOf" list is rewritten, one that is no list goes, and so does a null default. */
  ghost predicate Finishes(f: Fields, g: Fields, root: Json, fuel: nat) {
    && (if "allOf" in f && f["allOf"].Arr? then
          "allOf" in g && g["allOf"].Arr? && ListBecomes(f["allOf"].elems, g["allOf"].elems, root, fuel)
        else "allOf" !in g)
    && At(g, "default") == (if At(f, "default") == Some(Null) then None else At(f, "default"))
  }

  // ---- a whole node ----

  predicate HasOneAllOf(f: Fields) { "allOf" in f && f["allOf"].Arr? && |f["allOf"].elems| == 1 }

  /** The node with its only "allOf" element taken in, the element's members winning. */
  ghost predicate TakesIn(f: Fields, n: Fields, root: Json, fuel: nat)
    requires HasOneAllOf(f)
  {
    exists g: Fields, m: Json ::
      && Filled(f, g, root, fuel) && "allOf" !in g && At(g, "default") == At(f, "default")
      && Becomes(ListAt(f, "allOf")[0], m, root, fuel)
      && n == (if m.Obj? then g + m.fields else g)
  }

  /** The node in the place of its reference: its own members win over the target's. */
  ghost predicate Replaces(g: Fields, n: Fields, root: Json) {
    exists target: Fields ::
      && "$ref" in g && g["$ref"].Str? && |g| > 1 && ResolveRef(root, g["$ref"].s) == Some(Obj(target))
      && n == (target + g) - {"$ref"}
  }

  /** Its reference stays: there is none, or it stands alone, or it leads to no object. */
  ghost predicate KeepsReference(g: Fields, root: Json) {
    "$ref" in g && g["$ref"].Str? && |g| > 1 ==>
      ResolveRef(root, g["$ref"].s).Some? && !ResolveRef(root, g["$ref"].s).value.Obj?
  }

  ghost predicate NodeBecomes(f: Fields, r: Json, root: Json, fuel: nat) {
    if HasOneAllOf(f) then
      fuel > 0 && exists n: Fields :: TakesIn(f, n, root, fuel) && Becomes(Obj(n), r, root, fuel - 1)
    else
      exists g: Fields :: Filled(f, g, root, fuel) && Finishes(f, g, root, fuel)
        && if KeepsReference(g, root) then r == Obj(g)
           else fuel > 0 && exists n: Fields :: Replaces(g, n, root) && Becomes(Obj(n), r, root, fuel - 1)
  }

  // ---- the parts of a rewritten node ----

  lemma {:induction false} ValuesGive(member: Json, keys: seq<string>, root: Json, fuel: nat)
    requires member.Obj? && Sorted(keys) && forall k :: k in keys ==> k in member.fields
    requires EnsureValues(member, keys, root, fuel).Ok?
    ensures var r := EnsureValues(member, keys, root, fuel).value;
      r.Keys == member.fields.Keys && forall key ::
        key in keys ==> EnsureNode(member.fields[key], root, fuel) == Ok(r[key])
  {
    hide EnsureNode;
    if keys != [] {
      var init, last := keys[..|keys| - 1], keys[|keys| - 1];
      assert keys == init + [last];
      ValuesGive(member, init, root, fuel);
      LastKeyNew(keys);
    }
  }

  lemma {:induction false} ElementsGive(member: Json, elems: seq<Json>, root: Json, fuel: nat)
    requires member.Arr? && elems <= member.elems && EnsureElements(member, elems, root, fuel).Ok?
    ensures ListBecomes(elems, EnsureElements(member, elems, root, fuel).value, root, fuel)
  {
    hide EnsureNode;
    if elems != [] {
      ElementsGive(member, elems[..|elems| - 1], root, fuel);
      assert elems[|elems| - 1] == member.elems[|elems| - 1];
    }
  }

  /** What a part is, by the shape of its member. */
  lemma PartGives(f: Fields, k: Keyword, root: Json, fuel: nat)
    requires EnsureParts(Obj(f), root, fuel).Ok? && !ShapeOf(k).Opaque?
    ensures var parts := EnsureParts(Obj(f), root, fuel).value;
      && (k in parts <==> Holds(f, k))
      && (k in parts && ShapeOf(k).Whole? ==> Becomes(f[Name(k)], parts[k], root, fuel))
      && (k in parts && ShapeOf(k).Values? ==>
            parts[k].Obj? && ValuesBecome(f[Name(k)].fields, parts[k].fields, root, fuel))
      && (k in parts && ShapeOf(k).Elements? ==>
            parts[k].Arr? && ListBecomes(f[Name(k)].elems, parts[k].elems, root, fuel))
  {
    hide EnsureParts, EnsureNode, EnsureValues, EnsureElements, Name;
    PartsStrict(Obj(f), root, fuel);
    EveryMember(k);
    if Holds(f, k) {
      PartIs(Obj(f), k, root, fuel);
      var member := f[Name(k)];
      match ShapeOf(k)
      case Whole =>
      case Values => ValuesGive(member, SortedKeys(member.fields.Keys), root, fuel);
      case Elements => ElementsGive(member, member.elems, root, fuel);
    }
  }

  // ---- the assembled node ----

  /** All members but `allOf` and `default` as the assembly leaves them. */
  ghost predicate LooksAssembled(f: Fields, parts: Parts, g: Fields) {
    && (forall k: Keyword :: k != AllOf && k != Default ==> Look(g, k) == Assembled(f, parts, k))
    && (forall name: string :: NoKeyword(name) ==> At(g, name) == At(f, name))
  }

  lemma PutAt(f: Fields, parts: Parts, k: Keyword, name: string)
    requires NoKeyword(name)
    ensures At(Put(f, parts, k), name) == At(f, name) && At(f - {Name(k)}, name) == At(f, name)
  {
    hide Name;
  }

  lemma CloseAt(f: Fields, name: string)
    requires NoKeyword(name)
    ensures At(RequireAll(Close(f)), name) == At(f, name)
  {
    hide Name, RequiredNames;
  }

  lemma FoldAt(f: Fields, parts: Parts, name: string)
    requires NoKeyword(name)
    ensures At(FoldOneOf(f, parts), name) == At(f, name)
  {
    hide Name;
  }

  lemma AssembleAt(f: Fields, parts: Parts, name: string)
    requires NoKeyword(name)
    ensures At(Assemble(f, parts), name) == At(f, name)
  {
    hide Name, NoKeyword, Put, Close, RequireAll, FoldOneOf;
    var f1 := Put(f, parts, Defs);
    var f2 := Put(f1, parts, Definitions);
    var f4 := RequireAll(Close(f2));
    var f5 := Put(f4, parts, Properties);
    var f6 := Put(f5, parts, Items);
    var f7 := Put(f6, parts, AnyOf);
    PutAt(f, parts, Defs, name);
    PutAt(f1, parts, Definitions, name);
    CloseAt(f2, name);
    PutAt(f4, parts, Properties, name);
    PutAt(f5, parts, Items, name);
    PutAt(f6, parts, AnyOf, name);
    FoldAt(f7, parts, name);
    PutAt(FoldOneOf(f7, parts), parts, AllOf, name);
  }

  lemma CompletedAt(f: Fields, parts: Parts, name: string)
    requires NoKeyword(name)
    ensures At(Completed(f, parts), name) == At(f, name)
  {
    hide Name, NoKeyword, Put, Assemble;
    AssembleAt(f, parts, name);
    var g := Put(Assemble(f, parts), parts, AllOf);
    PutAt(Assemble(f, parts), parts, AllOf, name);
    PutAt(g, parts, Default, name);
  }

  lemma BothLookAssembled(f: Fields, parts: Parts)
    ensures LooksAssembled(f, parts, Assemble(f, parts)) && LooksAssembled(f, parts, Completed(f, parts))
  {
    hide Assemble, Completed, Assembled, NoKeyword;
    forall k: Keyword | k != AllOf && k != Default
      ensures Look(Assemble(f, parts), k) == Assembled(f, parts, k)
        && Look(Completed(f, parts), k) == Assembled(f, parts, k) {
      AssembleLooks(f, parts, k);
      CompletedLooks(f, parts, k);
    }
    forall name: string | NoKeyword(name)
      ensures At(Assemble(f, parts), name) == At(f, name) && At(Completed(f, parts), name) == At(f, name) {
      AssembleAt(f, parts, name);
      CompletedAt(f, parts, name);
    }
  }

  lemma NamedGives(f: Fields, g: Fields, k: Keyword, root: Json, fuel: nat)
    requires EnsureParts(Obj(f), root, fuel).Ok? && ShapeOf(k).Values?
    requires Look(g, k) == Part(f, EnsureParts(Obj(f), root, fuel).value, k)
    ensures NamedRewritten(f, g, Name(k), root, fuel)
  {
    hide EnsureParts, Name, ValuesBecome;
    PartGives(f, k, root, fuel);
  }

  lemma ItemsGive(f: Fields, g: Fields, root: Json, fuel: nat)
    requires EnsureParts(Obj(f), root, fuel).Ok?
    requires Look(g, Items) == Part(f, EnsureParts(Obj(f), root, fuel).value, Items)
    ensures ItemsRewritten(f, g, root, fuel)
  {
    hide EnsureParts, Becomes;
    PartGives(f, Items, root, fuel);
  }

  lemma ListsTogether(a: seq<Json>, b: seq<Json>, c: seq<Json>, d: seq<Json>, root: Json, fuel: nat)
    requires ListBecomes(a, b, root, fuel) && ListBecomes(c, d, root, fuel)
    ensures ListBecomes(a + c, b + d, root, fuel)
  {
    hide Becomes;
    forall i | 0 <= i < |a + c| ensures Becomes((a + c)[i], (b + d)[i], root, fuel) {
      if i < |a| { assert Becomes(a[i], b[i], root, fuel); }
      else { assert Becomes(c[i - |a|], d[i - |a|], root, fuel); }
    }
  }

  lemma NoList(root: Json, fuel: nat)
    ensures ListBecomes([], [], root, fuel)
  {}

  lemma AlternativesGive(f: Fields, g: Fields, root: Json, fuel: nat)
    requires EnsureParts(Obj(f), root, fuel).Ok?
    requires Look(g, OneOf) == None
      && Look(g, AnyOf) == Assembled(f, EnsureParts(Obj(f), root, fuel).value, AnyOf)
    ensures AlternativesRewritten(f, g, root, fuel)
  {
    hide EnsureParts, ListBecomes;
    var parts := EnsureParts(Obj(f), root, fuel).value;
    PartGives(f, AnyOf, root, fuel);
    PartGives(f, OneOf, root, fuel);
    NoList(root, fuel);
    var any, one := ListAt(f, "anyOf"), ListAt(f, "oneOf");
    var a := if AnyOf in parts then parts[AnyOf].elems else [];
    var o := if OneOf in parts then parts[OneOf].elems else [];
    assert ListBecomes(any, a, root, fuel) && ListBecomes(one, o, root, fuel);
    ListsTogether(any, a, one, o, root, fuel);
    assert a + [] == a && [] + o == o;
  }

  lemma ClosedGives(f: Fields, parts: Parts, g: Fields)
    requires Look(g, AdditionalProperties) == Assembled(f, parts, AdditionalProperties)
    requires Look(g, Required) == Assembled(f, parts, Required)
    ensures ClosedFrom(f, g)
  {
    hide RequiredNames;
    if "properties" in f { RequiredNamesAre(f["properties"]); }
  }

  /** A name is special, or one of the two keywords the rewrite leaves alone, or no keyword. */
  lemma SpecialOrNot(name: string)
    ensures IsSpecial(name) || name == Name(Type) || name == Name(Ref) || NoKeyword(name)
  {
    if k: Keyword :| Name(k) == name {}
  }

  lemma AssembledFills(f: Fields, g: Fields, root: Json, fuel: nat)
    requires EnsureParts(Obj(f), root, fuel).Ok? && LooksAssembled(f, EnsureParts(Obj(f), root, fuel).value, g)
    ensures Filled(f, g, root, fuel)
  {
    hide EnsureParts, NamedRewritten, ItemsRewritten, AlternativesRewritten, ClosedFrom, NoKeyword, IsSpecial,
      PartsHold;
    var parts := EnsureParts(Obj(f), root, fuel).value;
    assert Look(g, Defs) == Part(f, parts, Defs) && Look(g, Definitions) == Part(f, parts, Definitions);
    assert Look(g, Properties) == Part(f, parts, Properties) && Look(g, Items) == Part(f, parts, Items);
    NamedGives(f, g, Defs, root, fuel);
    NamedGives(f, g, Definitions, root, fuel);
    NamedGives(f, g, Properties, root, fuel);
    ItemsGive(f, g, root, fuel);
    AlternativesGive(f, g, root, fuel);
    ClosedGives(f, parts, g);
    OthersKept(f, parts, g);
  }

  lemma OthersKept(f: Fields, parts: Parts, g: Fields)
    requires LooksAssembled(f, parts, g)
    ensures forall name: string :: !IsSpecial(name) ==> At(g, name) == At(f, name)
  {
    hide NoKeyword, IsSpecial, Part;
    assert Look(g, Type) == Look(f, Type) && Look(g, Ref) == Look(f, Ref);
    forall name: string | !IsSpecial(name) ensures At(g, name) == At(f, name) { SpecialOrNot(name); }
  }

  lemma CompletedFinishes(f: Fields, root: Json, fuel: nat)
    requires EnsureParts(Obj(f), root, fuel).Ok?
    ensures Finishes(f, Completed(f, EnsureParts(Obj(f), root, fuel).value), root, fuel)
  {
    hide EnsureParts, Completed, ListBecomes;
    var parts := EnsureParts(Obj(f), root, fuel).value;
    PartGives(f, AllOf, root, fuel);
    CompletedLooks(f, parts, AllOf);
    CompletedLooks(f, parts, Default);
  }

  lemma ExpansionIs(g: Fields, root: Json)
    ensures match Expand(g, root)
      case Done(h) => h == g && KeepsReference(g, root)
      case Unresolved(_) => true
      case Again(n) => n.Obj? && Replaces(g, n.fields, root) && !KeepsReference(g, root)
  {
    hide ResolveRef;
  }

  lemma MergesOne(f: Fields, root: Json, fuel: nat)
    requires EnsureParts(Obj(f), root, fuel).Ok?
    ensures var parts := EnsureParts(Obj(f), root, fuel).value;
      && (Merges(parts) <==> HasOneAllOf(f))
      && (HasOneAllOf(f) ==> Becomes(f["allOf"].elems[0], parts[AllOf].elems[0], root, fuel))
  {
    hide EnsureParts, Becomes;
    PartGives(f, AllOf, root, fuel);
  }

  lemma MergeTakesIn(f: Fields, root: Json, fuel: nat)
    requires EnsureParts(Obj(f), root, fuel).Ok? && HasOneAllOf(f)
    ensures var parts := EnsureParts(Obj(f), root, fuel).value;
      Merges(parts) && TakesIn(f, Merge(Assemble(f, parts), parts[AllOf].elems[0]), root, fuel)
  {
    hide EnsureParts, Assemble, Filled, Becomes;
    var parts := EnsureParts(Obj(f), root, fuel).value;
    var g := Assemble(f, parts);
    MergesOne(f, root, fuel);
    BothLookAssembled(f, parts);
    AssembledFills(f, g, root, fuel);
    AssembleLooks(f, parts, AllOf);
    AssembleLooks(f, parts, Default);
    assert At(g, "default") == Look(g, Default);
  }

  /** What a successful rewrite makes of a node: its subschemas are rewritten in place, the node is closed and
      requires all its properties, and a one-element "allOf" or an expanded reference starts it again. */
  lemma NodeLaw(f: Fields, root: Json, fuel: nat)
    requires EnsureNode(Obj(f), root, fuel).Ok?
    ensures NodeBecomes(f, EnsureNode(Obj(f), root, fuel).value, root, fuel)
    ensures !(At(f, "type") == Some(Str("object")) && At(f, "additionalProperties") == Some(Bool(true)))
  {
    hide EnsureNode, EnsureParts, Assemble, Completed, Filled, Finishes, TakesIn, Replaces, KeepsReference, PartsHold;
    NodeNext(Obj(f), root, fuel);
    PartsStrict(Obj(f), root, fuel);
    var parts := EnsureParts(Obj(f), root, fuel).value;
    MergesOne(f, root, fuel);
    if HasOneAllOf(f) {
      MergeTakesIn(f, root, fuel);
    } else {
      var g := Completed(f, parts);
      BothLookAssembled(f, parts);
      AssembledFills(f, g, root, fuel);
      CompletedFinishes(f, root, fuel);
      ExpansionIs(g, root);
    }
  }

  // ---- the order of names ----

  /** The texts agree up to `k`, where `a` ends or has the smaller character. */
  predicate SmallerAt(a: string, b: string, k: nat) {
    k <= |a| && k < |b| && a[..k] == b[..k] && (k == |a| || a[k] < b[k])
  }

  lemma SmallerLater(a: string, b: string, k: nat)
    requires a != [] && b != [] && a[0] == b[0]
    ensures SmallerAt(a[1..], b[1..], k) <==> SmallerAt(a, b, k + 1)
  {
    if k < |a| && k < |b| {
      assert a[..k + 1] == [a[0]] + a[1..][..k] && b[..k + 1] == [b[0]] + b[1..][..k];
      assert a[..k + 1][1..] == a[1..][..k] && b[..k + 1][1..] == b[1..][..k];
    }
  }

  lemma DifferAtOnce(a: string, b: string, k: nat)
    requires k > 0 && b != [] && (a == [] || a[0] != b[0])
    ensures !SmallerAt(a, b, k)
  {
    if k <= |a| && k < |b| { assert a[..k][0] == a[0] && b[..k][0] == b[0]; }
  }

  /** One name comes before another by the first character in which they differ, or by being its beginning. */
  lemma {:induction false} BeforeLaw(a: string, b: string)
    ensures Before(a, b) <==> exists k: nat :: SmallerAt(a, b, k)
  {
    if b == [] {
    } else if a == [] || a[0] != b[0] {
      assert SmallerAt(a, b, 0) <==> a == [] || a[0] < b[0];
      forall k: nat | k > 0 ensures !SmallerAt(a, b, k) { DifferAtOnce(a, b, k); }
    } else {
      BeforeLaw(a[1..], b[1..]);
      if k: nat :| SmallerAt(a[1..], b[1..], k) { SmallerLater(a, b, k); }
      if k: nat :| SmallerAt(a, b, k) { SmallerLater(a, b, k - 1); }
    }
  }
}
