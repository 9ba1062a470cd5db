/** Rewriting a JSON schema into the strict form that structured outputs need. */
module StrictSchema {
  import opened Items

  // ---- keys in order ----

  /** Text order: the first differing character decides, and a prefix comes first. */
  predicate Before(a: string, b: string) {
    if b == [] then false
    else if a == [] then true
    else if a[0] == b[0] then Before(a[1..], b[1..])
    else a[0] < b[0]
  }

  lemma {:induction false} BeforeTotal(a: string, b: string)
    ensures a == b || Before(a, b) || Before(b, a)
    ensures !(Before(a, b) && Before(b, a)) && !Before(a, a)
  {
    if a != [] && b != [] && a[0] == b[0] {
      BeforeTotal(a[1..], b[1..]);
      assert a == [a[0]] + a[1..] && b == [b[0]] + b[1..];
    }
    if a != [] { BeforeTotal(a[1..], a[1..]); }
  }

  lemma {:induction false} BeforeTransitive(a: string, b: string, c: string)
    requires Before(a, b) && Before(b, c)
    ensures Before(a, c)
  {
    if a != [] && a[0] == b[0] == c[0] { BeforeTransitive(a[1..], b[1..], c[1..]); }
  }

  predicate IsFirst(keys: set<string>, key: string) {
    key in keys && forall other :: other in keys && other != key ==> Before(key, other)
  }

  lemma {:induction false} FirstExists(keys: set<string>)
    requires keys != {}
    ensures exists key :: IsFirst(keys, key)
  {
    var some :| some in keys;
    if keys == {some} {
      assert IsFirst(keys, some);
    } else {
      FirstExists(keys - {some});
      var first :| IsFirst(keys - {some}, first);
      BeforeTotal(some, first);
      if Before(some, first) {
        forall other | other in keys && other != some ensures Before(some, other) {
          if other != first { BeforeTransitive(some, first, other); }
        }
        assert IsFirst(keys, some);
      } else {
        assert IsFirst(keys, first);
      }
    }
  }

  lemma FirstUnique(keys: set<string>)
    ensures forall a, b :: IsFirst(keys, a) && IsFirst(keys, b) ==> a == b
  {
    forall a, b | IsFirst(keys, a) && IsFirst(keys, b) ensures a == b { BeforeTotal(a, b); }
  }

  predicate Sorted(keys: seq<string>) {
    forall i, j :: 0 <= i < j < |keys| ==> Before(keys[i], keys[j])
  }

  /** The keys of an object, as iterating over it yields them. */
  function SortedKeys(keys: set<string>): (r: seq<string>)
    ensures Sorted(r) && |r| == |keys| && forall key :: key in r <==> key in keys
  {
    if keys == {} then []
    else
      FirstExists(keys);
      FirstUnique(keys);
      var first :| IsFirst(keys, first);
      [first] + SortedKeys(keys - {first})
  }

  // ---- the members a schema node can have ----

  datatype Keyword =
    | Defs | Definitions | Type | AdditionalProperties | Properties | Required
    | Items | AnyOf | OneOf | AllOf | Default | Ref

  function Name(k: Keyword): string {
    match k
    case Defs => "$defs"
    case Definitions => "definitions"
    case Type => "type"
    case AdditionalProperties => "additionalProperties"
    case Properties => "properties"
    case Required => "required"
    case Items => "items"
    case AnyOf => "anyOf"
    case OneOf => "oneOf"
    case AllOf => "allOf"
    case Default => "default"
    case Ref => "$ref"
  }

  lemma NamesDiffer()
    ensures forall a: Keyword, b: Keyword :: Name(a) == Name(b) ==> a == b
  {
    forall a: Keyword, b: Keyword | Name(a) == Name(b) ensures a == b {
      assert |Name(a)| == |Name(b)| && Name(a)[0] == Name(b)[0];
    }
  }

  type Fields = map<string, Json>

  function Look(f: Fields, k: Keyword): Option<Json> {
    if Name(k) in f then Some(f[Name(k)]) else None
  }

  /** How schemas sit inside a member: directly, as the values of an object, or in an array. */
  datatype Shape = Whole | Values | Elements | Opaque

  function ShapeOf(k: Keyword): Shape {
    match k
    case Defs => Values
    case Definitions => Values
    case Properties => Values
    case Items => Whole
    case AnyOf => Elements
    case OneOf => Elements
    case AllOf => Elements
    case _ => Opaque
  }

  predicate Fits(member: Json, shape: Shape) {
    match shape
    case Whole => true
    case Values => member.Obj?
    case Elements => member.Arr?
    case Opaque => false
  }

  /** The node has subschemas under `k`. */
  predicate Holds(f: Fields, k: Keyword) {
    Name(k) in f && Fits(f[Name(k)], ShapeOf(k))
  }

  // ---- outcomes ----

  datatype Error = AdditionalPropertiesOpen | UnresolvedReference(reference: string)

  /** `OutOfFuel` says only that the rewrite re-entered itself more often than the fuel allowed. */
  datatype Outcome<+T> = Ok(value: T) | Failed(error: Error) | OutOfFuel {
    predicate IsFailure() { !Ok? }

    function PropagateFailure<U>(): Outcome<U>
      requires IsFailure()
    {
      if Failed? then Failed(error) else OutOfFuel
    }

    function Extract(): T
      requires Ok?
    {
      value
    }
  }

  // ---- one node, given its rewritten members ----

  type Parts = map<Keyword, Json>

  function Put(f: Fields, parts: Parts, k: Keyword): Fields {
    if k in parts then f[Name(k) := parts[k]] else f
  }

  predicate IsObjectType(f: Fields) {
    Look(f, Type) == Some(Str("object"))
  }

  predicate Refused(f: Fields) {
    IsObjectType(f) && Look(f, AdditionalProperties) == Some(Bool(true))
  }

  function Close(f: Fields): Fields {
    if IsObjectType(f) && Look(f, AdditionalProperties) == None then f[Name(AdditionalProperties) := Bool(false)] else f
  }

  function Texts(names: seq<string>): seq<Json> {
    seq(|names|, i requires 0 <= i < |names| => Str(names[i]))
  }

  /** The names a strict node requires: all of its properties. */
  function RequiredNames(properties: Json): Json {
    if properties.Obj? then Arr(Texts(SortedKeys(properties.fields.Keys))) else Arr([])
  }

  function RequireAll(f: Fields): Fields {
    match Look(f, Properties)
    case None => f
    case Some(properties) => f[Name(Required) := RequiredNames(properties)]
  }

  /** `oneOf` alternatives move to the end of `anyOf`; they are lost when `anyOf` is not an array. */
  function FoldOneOf(f: Fields, parts: Parts): Fields {
    var g := f - {Name(OneOf)};
    if OneOf in parts && parts[OneOf].Arr? then
      match Look(g, AnyOf)
      case None => g[Name(AnyOf) := parts[OneOf]]
      case Some(Arr(elems)) => g[Name(AnyOf) := Arr(elems + parts[OneOf].elems)]
      case Some(_) => g
    else g
  }

  function Assemble(f: Fields, parts: Parts): Fields {
    var closed := Close(Put(Put(f, parts, Defs), parts, Definitions));
    var filled := Put(Put(Put(RequireAll(closed), parts, Properties), parts, Items), parts, AnyOf);
    FoldOneOf(filled, parts) - {Name(AllOf)}
  }

  function DropNullDefault(f: Fields): Fields {
    if Look(f, Default) == Some(Null) then f - {Name(Default)} else f
  }

  datatype Verdict = Done(fields: Fields) | Unresolved(reference: string) | Again(node: Json)

  function Split(path: string): (r: seq<string>)
    ensures r != []
  {
    if path == "" then [""]
    else
      var rest := Split(path[1..]);
      if path[0] == '/' then [""] + rest else [[path[0]] + rest[0]] + rest[1..]
  }

  function Walk(at: Json, segments: seq<string>): Option<Json> {
    if segments == [] then Some(at)
    else match Get(at, segments[0])
      case None => None
      case Some(next) => Walk(next, segments[1..])
  }

  function ResolveRef(root: Json, reference: string): Option<Json> {
    if "#/" <= reference then Walk(root, Split(reference[2..])) else None
  }

  /** A reference that stands alone stays; one with siblings is replaced by its target, siblings first. */
  function Expand(f: Fields, root: Json): Verdict {
    match Look(f, Ref)
    case Some(Str(reference)) =>
      if |f| > 1 then
        match ResolveRef(root, reference)
        case None => Unresolved(reference)
        case Some(Obj(target)) => Again(Obj((target + f) - {Name(Ref)}))
        case Some(_) => Done(f)
      else Done(f)
    case _ => Done(f)
  }

  function Merge(f: Fields, merged: Json): Fields {
    if merged.Obj? then f + merged.fields else f
  }

  /** A node with all its members back, before its reference is looked at. */
  function Completed(f: Fields, parts: Parts): Fields {
    DropNullDefault(Put(Assemble(f, parts), parts, AllOf))
  }

  predicate Merges(parts: Parts) {
    AllOf in parts && parts[AllOf].Arr? && |parts[AllOf].elems| == 1
  }

  function Next(f: Fields, parts: Parts, root: Json): Verdict {
    if Merges(parts) then Again(Obj(Merge(Assemble(f, parts), parts[AllOf].elems[0])))
    else Expand(Completed(f, parts), root)
  }

  // ---- the rewrite ----

  const EARLY := [Defs, Definitions]
  const LATE := [Properties, Items, AnyOf, OneOf, AllOf]

  /** The rewrite of a node.  Re-entering the node after a merge or an expansion costs fuel. */
  function EnsureNode(node: Json, root: Json, fuel: nat): Outcome<Json>
    decreases fuel, node, 2, 0
  {
    if !node.Obj? then Ok(node)
    else
      var parts :- EnsureParts(node, root, fuel);
      Settle(node, Next(node.fields, parts, root), root, fuel)
  }

  function Settle(node: Json, verdict: Verdict, root: Json, fuel: nat): Outcome<Json>
    decreases fuel, node, 1, 2
  {
    match verdict
    case Done(fields) => Ok(Obj(fields))
    case Unresolved(reference) => Failed(UnresolvedReference(reference))
    case Again(again) => if fuel == 0 then OutOfFuel else EnsureNode(again, root, fuel - 1)
  }

  function EnsureParts(node: Json, root: Json, fuel: nat): Outcome<Parts>
    requires node.Obj?
    decreases fuel, node, 1, 1
  {
    var early :- EnsureMembers(node, EARLY, root, fuel);
    if Refused(node.fields) then Failed(AdditionalPropertiesOpen)
    else
      var late :- EnsureMembers(node, LATE, root, fuel);
      Ok(early + late)
  }

  function EnsureMembers(node: Json, ks: seq<Keyword>, root: Json, fuel: nat): Outcome<Parts>
    requires node.Obj?
    decreases fuel, node, 1, 0, |ks|
  {
    if ks == [] then Ok(map[])
    else
      var k := ks[|ks| - 1];
      var parts :- EnsureMembers(node, ks[..|ks| - 1], root, fuel);
      if Holds(node.fields, k) then
        var part :- EnsureMember(node.fields[Name(k)], ShapeOf(k), root, fuel);
        Ok(parts[k := part])
      else Ok(parts)
  }

  function EnsureMember(member: Json, shape: Shape, root: Json, fuel: nat): Outcome<Json>
    requires Fits(member, shape)
    decreases fuel, member, 3, 0
  {
    match shape
    case Whole => EnsureNode(member, root, fuel)
    case Values =>
      var fields :- EnsureValues(member, SortedKeys(member.fields.Keys), root, fuel);
      Ok(Obj(fields))
    case Elements =>
      var elems :- EnsureElements(member, member.elems, root, fuel);
      Ok(Arr(elems))
  }

  function EnsureValues(member: Json, keys: seq<string>, root: Json, fuel: nat): Outcome<Fields>
    requires member.Obj? && forall key :: key in keys ==> key in member.fields
    decreases fuel, member, 1, |keys|
  {
    if keys == [] then Ok(member.fields)
    else
      var key := keys[|keys| - 1];
      assert forall k :: k in keys[..|keys| - 1] ==> k in keys;
      var done :- EnsureValues(member, keys[..|keys| - 1], root, fuel);
      var value :- EnsureNode(member.fields[key], root, fuel);
      Ok(done[key := value])
  }

  function EnsureElements(member: Json, elems: seq<Json>, root: Json, fuel: nat): Outcome<seq<Json>>
    requires member.Arr? && elems <= member.elems
    decreases fuel, member, 1, |elems|
  {
    if elems == [] then Ok([])
    else
      var done :- EnsureElements(member, elems[..|elems| - 1], root, fuel);
      assert elems[|elems| - 1] == member.elems[|elems| - 1];
      var element :- EnsureNode(elems[|elems| - 1], root, fuel);
      Ok(done + [element])
  }

  const EMPTY_SCHEMA := Obj(map[Name(Type) := Str("object"), Name(Properties) := Obj(map[]), Name(Required) := Arr([]),
                                Name(AdditionalProperties) := Bool(false)])

  function EnsureStrictJsonSchema(schema: Json, fuel: nat): Outcome<Json> {
    if schema == Obj(map[]) then Ok(EMPTY_SCHEMA) else EnsureNode(schema, schema, fuel)
  }

  // ---- more fuel changes nothing ----

  lemma {:induction false} NodeMonotone(node: Json, root: Json, fuel: nat, more: nat)
    requires fuel <= more
    ensures EnsureNode(node, root, fuel).OutOfFuel? || EnsureNode(node, root, more) == EnsureNode(node, root, fuel)
    decreases fuel, node, 2, 0
  {
    if node.Obj? {
      PartsMonotone(node, root, fuel, more);
      var parts := EnsureParts(node, root, fuel);
      if parts.Ok? { SettleMonotone(node, Next(node.fields, parts.value, root), root, fuel, more); }
    }
  }

  lemma {:induction false} SettleMonotone(node: Json, verdict: Verdict, root: Json, fuel: nat, more: nat)
    requires fuel <= more
    ensures Settle(node, verdict, root, fuel).OutOfFuel?
      || Settle(node, verdict, root, more) == Settle(node, verdict, root, fuel)
    decreases fuel, node, 1, 2
  {
    hide EnsureParts, EnsureNode, Next;
    match verdict
    case Done(_) =>
    case Unresolved(_) =>
    case Again(again) =>
      if fuel > 0 {
        var less, enough := EnsureNode(again, root, fuel - 1), EnsureNode(again, root, more - 1);
        assert less.OutOfFuel? || enough == less by { NodeMonotone(again, root, fuel - 1, more - 1); }
        assert Settle(node, verdict, root, fuel) == less;
        assert Settle(node, verdict, root, more) == enough;
      }
  }

  lemma {:induction false} PartsMonotone(node: Json, root: Json, fuel: nat, more: nat)
    requires fuel <= more
    requires node.Obj?
    ensures EnsureParts(node, root, fuel).OutOfFuel? || EnsureParts(node, root, more) == EnsureParts(node, root, fuel)
    decreases fuel, node, 1, 1
  {
    MembersMonotone(node, EARLY, root, fuel, more);
    MembersMonotone(node, LATE, root, fuel, more);
  }

  lemma {:induction false} MembersMonotone(node: Json, ks: seq<Keyword>, root: Json, fuel: nat, more: nat)
    requires fuel <= more
    requires node.Obj?
    ensures EnsureMembers(node, ks, root, fuel).OutOfFuel?
      || EnsureMembers(node, ks, root, more) == EnsureMembers(node, ks, root, fuel)
    decreases fuel, node, 1, 0, |ks|
  {
    if ks != [] {
      var k := ks[|ks| - 1];
      MembersMonotone(node, ks[..|ks| - 1], root, fuel, more);
      if Holds(node.fields, k) { MemberMonotone(node.fields[Name(k)], ShapeOf(k), root, fuel, more); }
    }
  }

  lemma {:induction false} MemberMonotone(member: Json, shape: Shape, root: Json, fuel: nat, more: nat)
    requires fuel <= more
    requires Fits(member, shape)
    ensures EnsureMember(member, shape, root, fuel).OutOfFuel?
      || EnsureMember(member, shape, root, more) == EnsureMember(member, shape, root, fuel)
    decreases fuel, member, 3, 0
  {
    match shape
    case Whole => NodeMonotone(member, root, fuel, more);
    case Values => ValuesMonotone(member, SortedKeys(member.fields.Keys), root, fuel, more);
    case Elements => ElementsMonotone(member, member.elems, root, fuel, more);
  }

  lemma {:induction false} ValuesMonotone(member: Json, keys: seq<string>, root: Json, fuel: nat, more: nat)
    requires fuel <= more
    requires member.Obj? && forall key :: key in keys ==> key in member.fields
    ensures EnsureValues(member, keys, root, fuel).OutOfFuel?
      || EnsureValues(member, keys, root, more) == EnsureValues(member, keys, root, fuel)
    decreases fuel, member, 1, |keys|
  {
    if keys != [] {
      ValuesMonotone(member, keys[..|keys| - 1], root, fuel, more);
      NodeMonotone(member.fields[keys[|keys| - 1]], root, fuel, more);
    }
  }

  lemma {:induction false} ElementsMonotone(member: Json, elems: seq<Json>, root: Json, fuel: nat, more: nat)
    requires fuel <= more
    requires member.Arr? && elems <= member.elems
    ensures EnsureElements(member, elems, root, fuel).OutOfFuel?
         || EnsureElements(member, elems, root, more) == EnsureElements(member, elems, root, fuel)
    decreases fuel, member, 1, |elems|
  {
    if elems != [] {
      ElementsMonotone(member, elems[..|elems| - 1], root, fuel, more);
      assert elems[|elems| - 1] == member.elems[|elems| - 1];
      NodeMonotone(elems[|elems| - 1], root, fuel, more);
    }
  }

  // ---- properties of every node the rewrite visits ----

  ghost predicate All(p: Fields -> bool, j: Json)
    decreases j, 0
  {
    j.Obj? ==> p(j.fields) && forall k: Keyword :: Holds(j.fields, k) ==> AllIn(p, j.fields[Name(k)], ShapeOf(k))
  }

  ghost predicate AllIn(p: Fields -> bool, member: Json, shape: Shape)
    decreases member, 1
  {
    match shape
    case Whole => All(p, member)
    case Values => member.Obj? ==> forall key :: key in member.fields ==> All(p, member.fields[key])
    case Elements => member.Arr? ==> forall i :: 0 <= i < |member.elems| ==> All(p, member.elems[i])
    case Opaque => true
  }

  lemma {:induction false} AllWeaker(p: Fields -> bool, q: Fields -> bool, j: Json)
    requires All(p, j) && forall f :: p(f) ==> q(f)
    ensures All(q, j)
    decreases j, 0
  {
    if j.Obj? {
      forall k | Holds(j.fields, k) ensures AllIn(q, j.fields[Name(k)], ShapeOf(k)) {
        AllInWeaker(p, q, j.fields[Name(k)], ShapeOf(k));
      }
    }
  }

  lemma {:induction false} AllInWeaker(p: Fields -> bool, q: Fields -> bool, member: Json, shape: Shape)
    requires AllIn(p, member, shape) && forall f :: p(f) ==> q(f)
    ensures AllIn(q, member, shape)
    decreases member, 1
  {
    match shape
    case Whole => AllWeaker(p, q, member);
    case Values =>
      if member.Obj? {
        forall key | key in member.fields ensures All(q, member.fields[key]) { AllWeaker(p, q, member.fields[key]); }
      }
    case Elements =>
      if member.Arr? {
        forall i | 0 <= i < |member.elems| ensures All(q, member.elems[i]) { AllWeaker(p, q, member.elems[i]); }
      }
    case Opaque =>
  }

  /** A list of texts, in ascending order, that names exactly the properties. */
  ghost predicate NamesAll(required: Option<Json>, properties: Json) {
    && required.Some? && required.value.Arr? && AscendingTexts(required.value.elems)
    && forall name: string :: Str(name) in required.value.elems <==> properties.Obj? && name in properties.fields
  }

  predicate AscendingTexts(elems: seq<Json>) {
    && (forall i :: 0 <= i < |elems| ==> elems[i].Str?)
    && (forall i, j :: 0 <= i < j < |elems| ==> Before(elems[i].s, elems[j].s))
  }

  /** There is only one such list. */
  lemma {:induction false} AscendingOnce(a: seq<Json>, b: seq<Json>)
    requires AscendingTexts(a) && AscendingTexts(b)
    requires forall name: string :: Str(name) in a <==> Str(name) in b
    ensures a == b
  {
    if a == [] {
      SomeText(b);
    } else {
      assert Str(a[0].s) in a;
      SmallestFirst(a, b);
      SmallestFirst(b, a);
      BeforeTotal(a[0].s, b[0].s);
      forall name: string ensures Str(name) in a[1..] <==> Str(name) in b[1..] {
        LaterText(a, name);
        LaterText(b, name);
      }
      AscendingOnce(a[1..], b[1..]);
    }
  }

  lemma SomeText(elems: seq<Json>)
    requires AscendingTexts(elems)
    ensures elems != [] ==> exists name: string :: Str(name) in elems
  {
    if elems != [] { assert Str(elems[0].s) in elems; }
  }

  lemma SmallestFirst(a: seq<Json>, b: seq<Json>)
    requires AscendingTexts(a) && AscendingTexts(b) && a != []
    requires forall name: string :: Str(name) in a <==> Str(name) in b
    ensures b != [] && (a[0] == b[0] || Before(b[0].s, a[0].s))
  {
    assert Str(a[0].s) in a;
    var k :| 0 <= k < |b| && b[k] == Str(a[0].s);
  }

  lemma LaterText(a: seq<Json>, name: string)
    requires AscendingTexts(a) && a != []
    ensures Str(name) in a[1..] <==> Str(name) in a && Str(name) != a[0]
  {
    if Str(name) in a[1..] {
      var k :| 0 <= k < |a[1..]| && a[1..][k] == Str(name);
      assert a[k + 1] == Str(name);
      BeforeTotal(name, name);
    }
  }

  lemma RequiredNamesAre(properties: Json)
    ensures NamesAll(Some(RequiredNames(properties)), properties)
  {
    hide SortedKeys;
    var keys := if properties.Obj? then SortedKeys(properties.fields.Keys) else [];
    var elems := RequiredNames(properties).elems;
    assert |elems| == |keys|;
    forall name: string ensures Str(name) in elems <==> properties.Obj? && name in properties.fields {
      if properties.Obj? && name in properties.fields {
        var k :| 0 <= k < |keys| && keys[k] == name;
        assert elems[k] == Str(name);
      }
    }
  }

  lemma NamesAllIs(required: Option<Json>, properties: Json)
    ensures NamesAll(required, properties) <==> required == Some(RequiredNames(properties))
  {
    hide RequiredNames;
    RequiredNamesAre(properties);
    if NamesAll(required, properties) { AscendingOnce(required.value.elems, RequiredNames(properties).elems); }
  }

  /** The strict form, at one node. */
  ghost predicate StrictFields(f: Fields, root: Json) {
    && (IsObjectType(f) ==> Look(f, AdditionalProperties).Some? && Look(f, AdditionalProperties) != Some(Bool(true)))
    && (Look(f, Properties).Some? ==> NamesAll(Look(f, Required), Look(f, Properties).value))
    && Look(f, OneOf) == None
    && (Look(f, AllOf).Some? ==> Look(f, AllOf).value.Arr? && |Look(f, AllOf).value.elems| != 1)
    && Look(f, Default) != Some(Null)
    && (match Look(f, Ref)
        case Some(Str(reference)) =>
          |f| > 1 ==> ResolveRef(root, reference).Some? && !ResolveRef(root, reference).value.Obj?
        case _ => true)
  }

  ghost function StrictAt(root: Json): Fields -> bool {
    f => StrictFields(f, root)
  }

  /** A rewritten member has the shape of the original and, as an object, its keys. */
  predicate SameShape(member: Json, part: Json, shape: Shape) {
    match shape
    case Values => member.Obj? && part.Obj? && part.fields.Keys == member.fields.Keys
    case Elements => member.Arr? && part.Arr? && |part.elems| == |member.elems|
    case _ => true
  }

  /** The parts are the node's members, each rewritten so that `p` holds throughout. */
  ghost predicate PartsHold(p: Fields -> bool, f: Fields, parts: Parts, ks: seq<Keyword>) {
    && (forall k :: k in parts <==> k in ks && Holds(f, k))
    && (forall k :: k in parts ==> SameShape(f[Name(k)], parts[k], ShapeOf(k)) && AllIn(p, parts[k], ShapeOf(k)))
  }

  lemma EveryMember(k: Keyword)
    ensures k in EARLY + LATE <==> !ShapeOf(k).Opaque?
  {
    assert EARLY + LATE == [Defs, Definitions, Properties, Items, AnyOf, OneOf, AllOf];
  }

  // ---- what a successful rewrite returns is strict ----

  lemma PutLooks(f: Fields, parts: Parts, k: Keyword, other: Keyword)
    ensures Look(Put(f, parts, k), other) == if other == k && k in parts then Some(parts[k]) else Look(f, other)
  {
    NamesDiffer();
  }

  lemma CloseLooks(f: Fields, k: Keyword)
    ensures Look(Close(f), k)
         == if k == AdditionalProperties && IsObjectType(f) && Look(f, k) == None then Some(Bool(false)) else Look(f, k)
  {
    NamesDiffer();
  }

  lemma RequireLooks(f: Fields, k: Keyword)
    ensures Look(RequireAll(f), k)
         == if k == Required && Look(f, Properties).Some? then Some(RequiredNames(Look(f, Properties).value))
           else Look(f, k)
  {
    NamesDiffer();
  }

  lemma RemoveLooks(f: Fields, k: Keyword, other: Keyword)
    ensures Look(f - {Name(k)}, other) == if other == k then None else Look(f, other)
  {
    NamesDiffer();
  }

  function FoldedAnyOf(any: Option<Json>, parts: Parts): Option<Json> {
    if OneOf in parts && parts[OneOf].Arr? then
      match any
      case None => Some(parts[OneOf])
      case Some(Arr(elems)) => Some(Arr(elems + parts[OneOf].elems))
      case other => other
    else any
  }

  lemma FoldLooks(f: Fields, parts: Parts, k: Keyword)
    ensures Look(FoldOneOf(f, parts), k)
         == if k == OneOf then None else if k == AnyOf then FoldedAnyOf(Look(f, AnyOf), parts) else Look(f, k)
  {
    NamesDiffer();
  }

  function Part(f: Fields, parts: Parts, k: Keyword): Option<Json> {
    if k in parts then Some(parts[k]) else Look(f, k)
  }

  /** What each member holds before the `allOf` list is put back. */
  function Assembled(f: Fields, parts: Parts, k: Keyword): Option<Json> {
    match k
    case OneOf => None
    case AllOf => None
    case AnyOf => FoldedAnyOf(Part(f, parts, AnyOf), parts)
    case AdditionalProperties =>
      if IsObjectType(f) && Look(f, k) == None then Some(Bool(false)) else Look(f, k)
    case Required =>
      if Look(f, Properties).Some? then Some(RequiredNames(Look(f, Properties).value)) else Look(f, k)
    case _ => if ShapeOf(k).Opaque? then Look(f, k) else Part(f, parts, k)
  }

  lemma AssembleLooks(f: Fields, parts: Parts, k: Keyword)
    ensures Look(Assemble(f, parts), k) == Assembled(f, parts, k)
  {
    var f1 := Put(f, parts, Defs);
    var f2 := Put(f1, parts, Definitions);
    var f3 := Close(f2);
    var f4 := RequireAll(f3);
    var f5 := Put(f4, parts, Properties);
    var f6 := Put(f5, parts, Items);
    var f7 := Put(f6, parts, AnyOf);
    forall j: Keyword ensures Look(f4, j) == match j
      case Defs => Part(f, parts, j)
      case Definitions => Part(f, parts, j)
      case AdditionalProperties => Assembled(f, parts, j)
      case Required => Assembled(f, parts, j)
      case _ => Look(f, j) {
      PutLooks(f, parts, Defs, j);
      PutLooks(f1, parts, Definitions, j);
      PutLooks(f, parts, Defs, Type);
      PutLooks(f1, parts, Definitions, Type);
      PutLooks(f, parts, Defs, Properties);
      PutLooks(f1, parts, Definitions, Properties);
      CloseLooks(f2, j);
      CloseLooks(f2, Properties);
      RequireLooks(f3, j);
    }
    forall j: Keyword ensures Look(f7, j) == if j in {Properties, Items, AnyOf} then Part(f4, parts, j)
      else Look(f4, j) {
      PutLooks(f4, parts, Properties, j);
      PutLooks(f5, parts, Items, j);
      PutLooks(f6, parts, AnyOf, j);
    }
    PutLooks(f, parts, AnyOf, AnyOf);
    FoldLooks(f7, parts, k);
    RemoveLooks(FoldOneOf(f7, parts), AllOf, k);
  }

  /** What each member of a finished node holds. */
  function Finished(f: Fields, parts: Parts, k: Keyword): Option<Json> {
    if k == AllOf then (if AllOf in parts then Some(parts[AllOf]) else None)
    else if k == Default && Look(f, Default) == Some(Null) then None
    else Assembled(f, parts, k)
  }

  lemma DoneLooks(f: Fields, parts: Parts, root: Json, k: Keyword)
    requires Next(f, parts, root).Done?
    ensures Look(Next(f, parts, root).fields, k) == Finished(f, parts, k)
  {
    CompletedLooks(f, parts, k);
  }

  lemma CompletedLooks(f: Fields, parts: Parts, k: Keyword)
    ensures Look(Completed(f, parts), k) == Finished(f, parts, k)
  {
    AssembleLooks(f, parts, k);
    AssembleLooks(f, parts, Default);
    var g := Put(Assemble(f, parts), parts, AllOf);
    PutLooks(Assemble(f, parts), parts, AllOf, k);
    PutLooks(Assemble(f, parts), parts, AllOf, Default);
    RemoveLooks(g, Default, k);
  }

  lemma AllAppend(p: Fields -> bool, a: seq<Json>, b: seq<Json>)
    requires AllIn(p, Arr(a), Elements) && AllIn(p, Arr(b), Elements)
    ensures AllIn(p, Arr(a + b), Elements)
  {
    forall i | 0 <= i < |a + b| ensures All(p, (a + b)[i]) {
      if i < |a| { assert All(p, Arr(a).elems[i]); } else { assert All(p, Arr(b).elems[i - |a|]); }
    }
  }

  lemma FoldedHolds(p: Fields -> bool, f: Fields, parts: Parts, ks: seq<Keyword>)
    requires PartsHold(p, f, parts, ks) && AnyOf in ks
    ensures var any := FoldedAnyOf(Part(f, parts, AnyOf), parts);
      any.Some? && any.value.Arr? ==> AllIn(p, any.value, Elements)
  {
    if AnyOf in parts && OneOf in parts { AllAppend(p, parts[AnyOf].elems, parts[OneOf].elems); }
  }

  /** The members of a finished node are the rewritten parts. */
  lemma DoneMembers(p: Fields -> bool, f: Fields, parts: Parts, root: Json, k: Keyword)
    requires PartsHold(p, f, parts, EARLY + LATE) && Next(f, parts, root).Done?
    requires Holds(Next(f, parts, root).fields, k)
    ensures AllIn(p, Next(f, parts, root).fields[Name(k)], ShapeOf(k))
  {
    DoneLooks(f, parts, root, k);
    EveryMember(k);
    EveryMember(AnyOf);
    FoldedHolds(p, f, parts, EARLY + LATE);
  }

  lemma SameNames(f: Fields, parts: Parts, p: Fields -> bool)
    requires PartsHold(p, f, parts, EARLY + LATE) && Look(f, Properties).Some?
    ensures Part(f, parts, Properties).Some?
    ensures RequiredNames(Part(f, parts, Properties).value) == RequiredNames(Look(f, Properties).value)
  {
    EveryMember(Properties);
  }

  /** A finished node is itself strict, if it was not refused. */
  lemma DoneStrict(p: Fields -> bool, f: Fields, parts: Parts, root: Json)
    requires PartsHold(p, f, parts, EARLY + LATE) && Next(f, parts, root).Done? && !Refused(f)
    ensures StrictFields(Next(f, parts, root).fields, root)
  {
    hide Next, RequiredNames, Expand;
    DoneLooks(f, parts, root, Type);
    DoneLooks(f, parts, root, AdditionalProperties);
    DoneLooks(f, parts, root, Properties);
    DoneLooks(f, parts, root, Required);
    DoneLooks(f, parts, root, OneOf);
    DoneLooks(f, parts, root, AllOf);
    DoneLooks(f, parts, root, Default);
    if Look(f, Properties).Some? { SameNames(f, parts, p); }
    if Look(Next(f, parts, root).fields, Properties).Some? {
      RequiredNamesAre(Look(Next(f, parts, root).fields, Properties).value);
    }
    EveryMember(AllOf);
    DoneReference(f, parts, root);
    ExpandStays(Next(f, parts, root).fields, root);
  }

  lemma ExpandStays(g: Fields, root: Json)
    requires Expand(g, root) == Done(g)
    ensures match Look(g, Ref)
      case Some(Str(reference)) =>
        |g| > 1 ==> ResolveRef(root, reference).Some? && !ResolveRef(root, reference).value.Obj?
      case _ => true
  {}

  lemma DoneReference(f: Fields, parts: Parts, root: Json)
    requires Next(f, parts, root).Done?
    ensures var g := Next(f, parts, root).fields; Expand(g, root) == Done(g)
    ensures !(AllOf in parts && parts[AllOf].Arr? && |parts[AllOf].elems| == 1)
  {}

  lemma {:induction false} NodeStrict(node: Json, root: Json, fuel: nat)
    ensures EnsureNode(node, root, fuel).Ok? ==> All(StrictAt(root), EnsureNode(node, root, fuel).value)
    decreases fuel, node, 2, 0
  {
    if node.Obj? {
      PartsStrict(node, root, fuel);
      var parts := EnsureParts(node, root, fuel);
      if parts.Ok? { SettleStrict(node, parts.value, root, fuel); }
    }
  }

  lemma {:induction false} SettleStrict(node: Json, parts: Parts, root: Json, fuel: nat)
    requires node.Obj? && PartsHold(StrictAt(root), node.fields, parts, EARLY + LATE) && !Refused(node.fields)
    ensures var r := Settle(node, Next(node.fields, parts, root), root, fuel); r.Ok? ==> All(StrictAt(root), r.value)
    decreases fuel, node, 1, 2
  {
    hide EnsureParts, EnsureNode, Next, StrictFields;
    var next := Next(node.fields, parts, root);
    match next
    case Done(fields) =>
      DoneStrict(StrictAt(root), node.fields, parts, root);
      forall k | Holds(fields, k) ensures AllIn(StrictAt(root), fields[Name(k)], ShapeOf(k)) {
        DoneMembers(StrictAt(root), node.fields, parts, root, k);
      }
    case Unresolved(_) =>
    case Again(again) =>
      if fuel > 0 { NodeStrict(again, root, fuel - 1); }
  }

  lemma {:induction false} PartsStrict(node: Json, root: Json, fuel: nat)
    requires node.Obj?
    ensures var r := EnsureParts(node, root, fuel);
      r.Ok? ==> !Refused(node.fields) && PartsHold(StrictAt(root), node.fields, r.value, EARLY + LATE)
    decreases fuel, node, 1, 1
  {
    MembersAreStrict(node, EARLY, root, fuel);
    MembersAreStrict(node, LATE, root, fuel);
  }

  lemma {:induction false} MembersAreStrict(node: Json, ks: seq<Keyword>, root: Json, fuel: nat)
    requires node.Obj?
    ensures var r := EnsureMembers(node, ks, root, fuel); r.Ok? ==> PartsHold(StrictAt(root), node.fields, r.value, ks)
    decreases fuel, node, 1, 0, |ks|
  {
    if ks != [] {
      var k := ks[|ks| - 1];
      assert ks == ks[..|ks| - 1] + [k];
      MembersAreStrict(node, ks[..|ks| - 1], root, fuel);
      if Holds(node.fields, k) { MemberStrict(node.fields[Name(k)], ShapeOf(k), root, fuel); }
    }
  }

  lemma {:induction false} MemberStrict(member: Json, shape: Shape, root: Json, fuel: nat)
    requires Fits(member, shape)
    ensures var r := EnsureMember(member, shape, root, fuel);
      r.Ok? ==> SameShape(member, r.value, shape) && AllIn(StrictAt(root), r.value, shape)
    decreases fuel, member, 3, 0
  {
    match shape
    case Whole => NodeStrict(member, root, fuel);
    case Values => ValuesStrict(member, SortedKeys(member.fields.Keys), root, fuel);
    case Elements => ElementsStrict(member, member.elems, root, fuel);
  }

  lemma {:induction false} ValuesStrict(member: Json, keys: seq<string>, root: Json, fuel: nat)
    requires member.Obj? && forall key :: key in keys ==> key in member.fields
    ensures var r := EnsureValues(member, keys, root, fuel);
      r.Ok? ==> r.value.Keys == member.fields.Keys && forall key :: key in keys ==> All(StrictAt(root), r.value[key])
    decreases fuel, member, 1, |keys|
  {
    if keys != [] {
      assert keys == keys[..|keys| - 1] + [keys[|keys| - 1]];
      ValuesStrict(member, keys[..|keys| - 1], root, fuel);
      NodeStrict(member.fields[keys[|keys| - 1]], root, fuel);
    }
  }

  lemma {:induction false} ElementsStrict(member: Json, elems: seq<Json>, root: Json, fuel: nat)
    requires member.Arr? && elems <= member.elems
    ensures var r := EnsureElements(member, elems, root, fuel);
      r.Ok? ==> |r.value| == |elems| && forall i :: 0 <= i < |elems| ==> All(StrictAt(root), r.value[i])
    decreases fuel, member, 1, |elems|
  {
    if elems != [] {
      ElementsStrict(member, elems[..|elems| - 1], root, fuel);
      assert elems[|elems| - 1] == member.elems[|elems| - 1];
      NodeStrict(elems[|elems| - 1], root, fuel);
    }
  }

  // ---- the strict form is a fixed point ----

  ghost predicate Unchanged(f: Fields, parts: Parts, ks: seq<Keyword>) {
    && (forall k :: k in parts <==> k in ks && Holds(f, k))
    && (forall k :: k in parts ==> parts[k] == f[Name(k)])
  }

  lemma PutUnchanged(f: Fields, parts: Parts, ks: seq<Keyword>, k: Keyword)
    requires Unchanged(f, parts, ks)
    ensures Put(f, parts, k) == f
  {}

  lemma AssembleFixed(f: Fields, parts: Parts, ks: seq<Keyword>, root: Json)
    requires Unchanged(f, parts, ks) && StrictFields(f, root)
    ensures Assemble(f, parts) == f - {Name(AllOf)}
  {
    hide RequiredNames, ResolveRef;
    PutUnchanged(f, parts, ks, Defs);
    PutUnchanged(f, parts, ks, Definitions);
    assert Close(f) == f;
    if Look(f, Properties).Some? { NamesAllIs(Look(f, Required), Look(f, Properties).value); }
    assert RequireAll(f) == f;
    PutUnchanged(f, parts, ks, Properties);
    PutUnchanged(f, parts, ks, Items);
    PutUnchanged(f, parts, ks, AnyOf);
    assert FoldOneOf(f, parts) == f;
  }

  lemma FinishFixed(f: Fields, root: Json)
    requires StrictFields(f, root)
    ensures Expand(DropNullDefault(f), root) == Done(f)
  {
    hide RequiredNames, ResolveRef;
  }

  lemma ListBack(f: Fields, parts: Parts, root: Json)
    requires Unchanged(f, parts, EARLY + LATE) && StrictFields(f, root)
    ensures Put(f - {Name(AllOf)}, parts, AllOf) == f
    ensures AllOf in parts && parts[AllOf].Arr? ==> |parts[AllOf].elems| != 1
  {
    hide RequiredNames, ResolveRef;
    EveryMember(AllOf);
  }

  lemma NextFixed(f: Fields, parts: Parts, root: Json)
    requires Unchanged(f, parts, EARLY + LATE) && StrictFields(f, root)
    ensures Next(f, parts, root) == Done(f)
  {
    hide Assemble, Put, Expand, DropNullDefault, StrictFields;
    AssembleFixed(f, parts, EARLY + LATE, root);
    ListBack(f, parts, root);
    FinishFixed(f, root);
  }

  /** Everything below the node is strict. */
  ghost predicate MembersStrict(f: Fields, root: Json) {
    forall k: Keyword :: Holds(f, k) ==> AllIn(StrictAt(root), f[Name(k)], ShapeOf(k))
  }

  /** The rewrite leaves every strict node as it is. */
  lemma {:induction false} NodeFixed(node: Json, root: Json, fuel: nat)
    requires All(StrictAt(root), node)
    ensures EnsureNode(node, root, fuel) == Ok(node)
    decreases fuel, node, 2, 0
  {
    if node.Obj? {
      MembersFixed(node, EARLY, root, fuel);
      MembersFixed(node, LATE, root, fuel);
      PartsFixed(node, root, fuel);
    }
  }

  lemma PartsFixed(node: Json, root: Json, fuel: nat)
    requires node.Obj? && StrictFields(node.fields, root)
    requires EnsureMembers(node, EARLY, root, fuel).Ok? && EnsureMembers(node, LATE, root, fuel).Ok?
    requires Unchanged(node.fields, EnsureMembers(node, EARLY, root, fuel).value, EARLY)
    requires Unchanged(node.fields, EnsureMembers(node, LATE, root, fuel).value, LATE)
    ensures EnsureNode(node, root, fuel) == Ok(node)
  {
    hide Next, EnsureMembers;
    var parts := EnsureParts(node, root, fuel).value;
    assert Unchanged(node.fields, parts, EARLY + LATE);
    NextFixed(node.fields, parts, root);
  }

  lemma {:induction false} MembersFixed(node: Json, ks: seq<Keyword>, root: Json, fuel: nat)
    requires node.Obj? && MembersStrict(node.fields, root)
    ensures EnsureMembers(node, ks, root, fuel).Ok?
      && Unchanged(node.fields, EnsureMembers(node, ks, root, fuel).value, ks)
    decreases fuel, node, 1, 0, |ks|
  {
    if ks != [] {
      var k := ks[|ks| - 1];
      assert ks == ks[..|ks| - 1] + [k];
      MembersFixed(node, ks[..|ks| - 1], root, fuel);
      if Holds(node.fields, k) { MemberFixed(node.fields[Name(k)], ShapeOf(k), root, fuel); }
    }
  }

  lemma {:induction false} MemberFixed(member: Json, shape: Shape, root: Json, fuel: nat)
    requires Fits(member, shape) && AllIn(StrictAt(root), member, shape)
    ensures EnsureMember(member, shape, root, fuel) == Ok(member)
    decreases fuel, member, 3, 0
  {
    match shape
    case Whole => NodeFixed(member, root, fuel);
    case Values => ValuesFixed(member, SortedKeys(member.fields.Keys), root, fuel);
    case Elements => ElementsFixed(member, member.elems, root, fuel);
  }

  lemma {:induction false} ValuesFixed(member: Json, keys: seq<string>, root: Json, fuel: nat)
    requires member.Obj? && AllIn(StrictAt(root), member, Values) && forall key :: key in keys ==> key in member.fields
    ensures EnsureValues(member, keys, root, fuel) == Ok(member.fields)
    decreases fuel, member, 1, |keys|
  {
    hide EnsureNode, StrictFields;
    if keys != [] {
      ValuesFixed(member, keys[..|keys| - 1], root, fuel);
      assert member.fields[keys[|keys| - 1] := member.fields[keys[|keys| - 1]]] == member.fields;
      NodeFixed(member.fields[keys[|keys| - 1]], root, fuel);
    }
  }

  lemma {:induction false} ElementsFixed(member: Json, elems: seq<Json>, root: Json, fuel: nat)
    requires member.Arr? && AllIn(StrictAt(root), member, Elements) && elems <= member.elems
    ensures EnsureElements(member, elems, root, fuel) == Ok(elems)
    decreases fuel, member, 1, |elems|
  {
    hide EnsureNode, StrictFields;
    if elems != [] {
      ElementsFixed(member, elems[..|elems| - 1], root, fuel);
      assert elems == elems[..|elems| - 1] + [elems[|elems| - 1]];
      assert elems[|elems| - 1] == member.elems[|elems| - 1];
      NodeFixed(elems[|elems| - 1], root, fuel);
    }
  }

  /** Rewriting is idempotent wherever it succeeds, and the nodes it leaves alone are exactly the
      strict ones. */
  lemma EnsureTwice(node: Json, root: Json, fuel: nat, again: nat)
    ensures var once := EnsureNode(node, root, fuel); once.Ok? ==> EnsureNode(once.value, root, again) == once
    ensures EnsureNode(node, root, fuel) == Ok(node) <==> All(StrictAt(root), node)
  {
    NodeStrict(node, root, fuel);
    if EnsureNode(node, root, fuel).Ok? { NodeFixed(EnsureNode(node, root, fuel).value, root, again); }
    if All(StrictAt(root), node) { NodeFixed(node, root, fuel); }
  }

  // ---- when references stand alone the rewrite ends ----

  predicate HasReference(f: Fields) {
    Look(f, Ref).Some? && Look(f, Ref).value.Str?
  }

  predicate IsReference(j: Json) { j.Obj? && HasReference(j.fields) }

  predicate OneElement(allOf: Option<Json>) {
    allOf.Some? && allOf.value.Arr? && |allOf.value.elems| == 1
  }

  /** A reference has no siblings, and none is about to be merged into other members. */
  predicate ReferenceAlone(f: Fields) {
    && (HasReference(f) ==> |f| == 1)
    && (OneElement(Look(f, AllOf)) ==> !IsReference(Look(f, AllOf).value.elems[0]))
  }

  function LoneReferences(): Fields -> bool {
    f => ReferenceAlone(f)
  }

  /** How many `allOf` lists the visited nodes have. */
  ghost function Weight(j: Json): nat
    decreases j, 2, 0
  {
    if j.Obj? then
      ListWeight(Look(j.fields, AllOf)) + HeldWeight(j, Defs) + HeldWeight(j, Definitions) + HeldWeight(j, Properties)
      + HeldWeight(j, Items) + HeldWeight(j, AnyOf) + HeldWeight(j, OneOf) + HeldWeight(j, AllOf)
    else 0
  }

  function ListWeight(allOf: Option<Json>): nat {
    if allOf.Some? && allOf.value.Arr? then 1 else 0
  }

  ghost function HeldWeight(j: Json, k: Keyword): nat
    requires j.Obj?
    decreases j, 1, 0
  {
    if Holds(j.fields, k) then MemberWeight(j.fields[Name(k)], ShapeOf(k)) else 0
  }

  ghost function MemberWeight(member: Json, shape: Shape): nat
    requires Fits(member, shape)
    decreases member, 3, 0
  {
    match shape
    case Whole => Weight(member)
    case Values => ValuesWeight(member, SortedKeys(member.fields.Keys))
    case Elements => ElementsWeight(member, member.elems)
  }

  ghost function ValuesWeight(member: Json, keys: seq<string>): nat
    requires member.Obj? && forall key :: key in keys ==> key in member.fields
    decreases member, 1, |keys|
  {
    if keys == [] then 0
    else
      assert forall k :: k in keys[..|keys| - 1] ==> k in keys;
      ValuesWeight(member, keys[..|keys| - 1]) + Weight(member.fields[keys[|keys| - 1]])
  }

  ghost function ElementsWeight(member: Json, elems: seq<Json>): nat
    requires member.Arr? && elems <= member.elems
    decreases member, 1, |elems|
  {
    if elems == [] then 0
    else
      assert elems[|elems| - 1] == member.elems[|elems| - 1];
      ElementsWeight(member, elems[..|elems| - 1]) + Weight(elems[|elems| - 1])
  }

  ghost function PartWeight(parts: Parts, k: Keyword): nat {
    if k in parts && Fits(parts[k], ShapeOf(k)) then MemberWeight(parts[k], ShapeOf(k)) else 0
  }

  /** No part weighs more than the member it came from. */
  ghost predicate Lighter(f: Fields, parts: Parts) {
    forall k :: PartWeight(parts, k) <= HeldWeight(Obj(f), k)
  }

  lemma {:induction false} ElementsWeightAppend(a: seq<Json>, b: seq<Json>, n: nat)
    requires n <= |b|
    ensures ElementsWeight(Arr(a + b), (a + b)[..|a| + n]) == ElementsWeight(Arr(a), a) + ElementsWeight(Arr(b), b[..n])
  {
    var member := Arr(a + b);
    if n == 0 {
      assert (a + b)[..|a|] == a;
      ElementsWeightOf(member, Arr(a), a);
    } else {
      ElementsWeightAppend(a, b, n - 1);
      assert (a + b)[..|a| + n][..|a| + n - 1] == (a + b)[..|a| + n - 1];
      assert b[..n][..n - 1] == b[..n - 1];
    }
  }

  lemma {:induction false} ElementsWeightOf(a: Json, b: Json, elems: seq<Json>)
    requires a.Arr? && b.Arr? && elems <= a.elems && elems <= b.elems
    ensures ElementsWeight(a, elems) == ElementsWeight(b, elems)
  {
    if elems != [] { ElementsWeightOf(a, b, elems[..|elems| - 1]); }
  }

  ghost function LookWeight(member: Option<Json>, k: Keyword): nat {
    if member.Some? && Fits(member.value, ShapeOf(k)) then MemberWeight(member.value, ShapeOf(k)) else 0
  }

  lemma HeldIsLooked(f: Fields, k: Keyword)
    ensures HeldWeight(Obj(f), k) == LookWeight(Look(f, k), k)
  {}

  lemma FoldedElements(a: seq<Json>, b: seq<Json>)
    ensures MemberWeight(Arr(a + b), Elements) == MemberWeight(Arr(a), Elements) + MemberWeight(Arr(b), Elements)
  {
    hide Weight;
    ElementsWeightAppend(a, b, |b|);
    assert (a + b)[..|a| + |b|] == a + b && b[..|b|] == b;
  }

  /** Folding `oneOf` into `anyOf` adds no weight. */
  lemma FoldedWeight(p: Fields -> bool, f: Fields, parts: Parts)
    requires PartsHold(p, f, parts, EARLY + LATE)
    ensures LookWeight(FoldedAnyOf(Part(f, parts, AnyOf), parts), AnyOf)
      <= PartWeight(parts, AnyOf) + PartWeight(parts, OneOf)
  {
    hide MemberWeight, PartsHold, Name;
    PartsFit(p, f, parts, AnyOf);
    PartsFit(p, f, parts, OneOf);
    if AnyOf in parts && OneOf in parts {
      FoldedElements(parts[AnyOf].elems, parts[OneOf].elems);
    } else if AnyOf !in parts {
      assert Look(f, AnyOf).Some? ==> !Look(f, AnyOf).value.Arr?;
    }
  }

  lemma PartsFit(p: Fields -> bool, f: Fields, parts: Parts, k: Keyword)
    requires PartsHold(p, f, parts, EARLY + LATE)
    ensures k in parts <==> Holds(f, k)
    ensures k in parts ==> Fits(parts[k], ShapeOf(k))
  {
    EveryMember(k);
  }

  lemma AssembledWeight(p: Fields -> bool, f: Fields, parts: Parts, k: Keyword)
    requires PartsHold(p, f, parts, EARLY + LATE)
    ensures HeldWeight(Obj(Assemble(f, parts)), k)
         <= if k == AnyOf then PartWeight(parts, AnyOf) + PartWeight(parts, OneOf)
            else if k == OneOf || k == AllOf then 0 else PartWeight(parts, k)
  {
    hide Assemble, MemberWeight;
    HeldIsLooked(Assemble(f, parts), k);
    AssembleLooks(f, parts, k);
    FoldedWeight(p, f, parts);
    EveryMember(k);
  }

  lemma LookOnly(f: Fields, k: Keyword)
    requires Look(f, k).Some? && |f| == 1
    ensures forall other: Keyword :: other != k ==> Look(f, other) == None
  {
    NamesDiffer();
    var rest := f.Keys - {Name(k)};
    assert |rest| == 0;
    forall other: Keyword | other != k ensures Look(f, other) == None {
      assert Name(other) in f ==> Name(other) in rest;
    }
  }

  /** A node with no member that the rewrite looks into. */
  ghost predicate Bare(f: Fields) {
    forall k: Keyword :: k != Ref && k != Default ==> Look(f, k) == None
  }

  lemma BareAssembles(f: Fields)
    requires Bare(f)
    ensures Assemble(f, map[]) == f
  {
    hide Name;
    forall k: Keyword | k != Ref && k != Default ensures Name(k) !in f { assert Look(f, k) == None; }
  }

  /** A reference that stands alone is left alone. */
  lemma ReferenceStays(p: Fields -> bool, f: Fields, parts: Parts, root: Json)
    requires Look(f, Ref).Some? && |f| == 1 && PartsHold(p, f, parts, EARLY + LATE)
    ensures Next(f, parts, root) == Done(f) && Look(f, AllOf) == None && AllOf !in parts
  {
    hide Assemble, Name, ResolveRef, PartsHold;
    LookOnly(f, Ref);
    BareHasNoParts(p, f, parts);
    BareAssembles(f);
    assert Look(f, Default) == None;
  }

  lemma BareHasNoParts(p: Fields -> bool, f: Fields, parts: Parts)
    requires Bare(f) && PartsHold(p, f, parts, EARLY + LATE)
    ensures parts == map[]
  {
    hide Name;
    forall k ensures k !in parts { EveryMember(k); assert !ShapeOf(k).Opaque? ==> Look(f, k) == None; }
  }

  lemma NoneStays(f: Fields, parts: Parts, root: Json)
    requires !HasReference(f)
    ensures !HasReference(Assemble(f, parts))
    ensures !Next(f, parts, root).Unresolved?
    ensures Next(f, parts, root).Done? ==> !HasReference(Next(f, parts, root).fields)
    ensures Next(f, parts, root).Again? ==> AllOf in parts && parts[AllOf].Arr? && |parts[AllOf].elems| == 1
  {
    AssembleLooks(f, parts, Ref);
    var g := Put(Assemble(f, parts), parts, AllOf);
    PutLooks(Assemble(f, parts), parts, AllOf, Ref);
    RemoveLooks(g, Default, Ref);
    hide Assemble, Put;
  }

  lemma LoneReferenceStays(f: Fields, parts: Parts, root: Json)
    requires ReferenceAlone(f) && PartsHold(LoneReferences(), f, parts, EARLY + LATE)
    ensures !Next(f, parts, root).Unresolved?
    ensures var next := Next(f, parts, root);
      next.Done? ==> ReferenceAlone(next.fields) && (HasReference(next.fields) ==> HasReference(f))
    ensures Next(f, parts, root).Again? ==> AllOf in parts && parts[AllOf].Arr? && |parts[AllOf].elems| == 1
  {
    hide Next, PartsHold;
    if HasReference(f) {
      ReferenceStays(LoneReferences(), f, parts, root);
    } else {
      NoneStays(f, parts, root);
      if Next(f, parts, root).Done? {
        DoneLooks(f, parts, root, AllOf);
        DoneReference(f, parts, root);
      }
    }
  }

  lemma DoneWeights(p: Fields -> bool, f: Fields, parts: Parts, root: Json, k: Keyword)
    requires PartsHold(p, f, parts, EARLY + LATE) && Next(f, parts, root).Done?
    ensures HeldWeight(Obj(Next(f, parts, root).fields), k)
         <= if k == AnyOf then PartWeight(parts, AnyOf) + PartWeight(parts, OneOf)
            else if k == OneOf then 0 else PartWeight(parts, k)
  {
    hide Next, MemberWeight;
    HeldIsLooked(Next(f, parts, root).fields, k);
    DoneLooks(f, parts, root, k);
    FoldedWeight(p, f, parts);
    EveryMember(k);
  }

  lemma DoneLighter(f: Fields, parts: Parts, root: Json)
    requires PartsHold(LoneReferences(), f, parts, EARLY + LATE) && Lighter(f, parts)
    requires ReferenceAlone(f) && Next(f, parts, root).Done?
    ensures var g := Obj(Next(f, parts, root).fields);
      All(LoneReferences(), g) && Weight(g) <= Weight(Obj(f)) && (IsReference(g) ==> HasReference(f))
  {
    hide Next, Weight, PartsHold, HasReference;
    var p, g := LoneReferences(), Next(f, parts, root).fields;
    LoneReferenceStays(f, parts, root);
    forall k | Holds(g, k) ensures AllIn(p, g[Name(k)], ShapeOf(k)) { DoneMembers(p, f, parts, root, k); }
    DoneWeighs(f, parts, root);
  }

  lemma DoneWeighs(f: Fields, parts: Parts, root: Json)
    requires PartsHold(LoneReferences(), f, parts, EARLY + LATE) && Lighter(f, parts) && Next(f, parts, root).Done?
    ensures Weight(Obj(Next(f, parts, root).fields)) <= Weight(Obj(f))
  {
    hide Next, MemberWeight, HeldWeight, PartWeight;
    var g := Next(f, parts, root).fields;
    forall k ensures HeldWeight(Obj(g), k)
         <= if k == AnyOf then PartWeight(parts, AnyOf) + PartWeight(parts, OneOf)
            else if k == OneOf then 0 else PartWeight(parts, k) { DoneWeights(LoneReferences(), f, parts, root, k); }
    DoneLooks(f, parts, root, AllOf);
    EveryMember(AllOf);
  }

  lemma MergeLooks(g: Fields, m: Json, k: Keyword)
    ensures Look(Merge(g, m), k) == if m.Obj? && Look(m.fields, k).Some? then Look(m.fields, k) else Look(g, k)
  {}

  lemma MergeWeight(g: Fields, m: Json, k: Keyword)
    ensures HeldWeight(Obj(Merge(g, m)), k) <= HeldWeight(Obj(g), k) + (if m.Obj? then HeldWeight(m, k) else 0)
  {
    hide MemberWeight;
    MergeLooks(g, m, k);
    HeldIsLooked(Merge(g, m), k);
    HeldIsLooked(g, k);
    if m.Obj? { HeldIsLooked(m.fields, k); }
  }

  lemma MergedHolds(p: Fields -> bool, f: Fields, parts: Parts, m: Json, k: Keyword)
    requires PartsHold(p, f, parts, EARLY + LATE) && All(p, m)
    requires Holds(Merge(Assemble(f, parts), m), k)
    ensures AllIn(p, Merge(Assemble(f, parts), m)[Name(k)], ShapeOf(k))
  {
    hide Assemble;
    MergeLooks(Assemble(f, parts), m, k);
    AssembleLooks(f, parts, k);
    EveryMember(k);
    EveryMember(AnyOf);
    FoldedHolds(p, f, parts, EARLY + LATE);
  }

  lemma AgainHolds(f: Fields, parts: Parts, m: Json)
    requires PartsHold(LoneReferences(), f, parts, EARLY + LATE) && LoneReferences()(f)
    requires AllOf in parts && parts[AllOf] == Arr([m]) && !IsReference(m)
    ensures All(LoneReferences(), m) && All(LoneReferences(), Obj(Merge(Assemble(f, parts), m)))
    ensures !HasReference(Merge(Assemble(f, parts), m))
  {
    hide Next, Assemble, Merge;
    var p, n := LoneReferences(), Merge(Assemble(f, parts), m);
    EveryMember(AllOf);
    assert All(p, Arr([m]).elems[0]);
    if HasReference(f) { LookOnly(f, Ref); }
    NoneStays(f, parts, Null);
    MergeLooks(Assemble(f, parts), m, Ref);
    MergeLooks(Assemble(f, parts), m, AllOf);
    AssembleLooks(f, parts, AllOf);
    forall k | Holds(n, k) ensures AllIn(p, n[Name(k)], ShapeOf(k)) { MergedHolds(p, f, parts, m, k); }
  }

  /** Merging a one-element `allOf` list into its node takes that list away. */
  lemma AgainLighter(f: Fields, parts: Parts, m: Json)
    requires PartsHold(LoneReferences(), f, parts, EARLY + LATE) && Lighter(f, parts)
    requires AllOf in parts && parts[AllOf] == Arr([m])
    ensures Weight(Obj(Merge(Assemble(f, parts), m))) < Weight(Obj(f))
  {
    hide Next, MemberWeight, HeldWeight, PartWeight, Assemble, Merge;
    var p, g := LoneReferences(), Assemble(f, parts);
    var n := Merge(g, m);
    EveryMember(AllOf);
    forall k ensures HeldWeight(Obj(n), k) <= HeldWeight(Obj(g), k) + (if m.Obj? then HeldWeight(m, k) else 0) {
      MergeWeight(g, m, k);
    }
    forall k ensures HeldWeight(Obj(g), k)
         <= if k == AnyOf then PartWeight(parts, AnyOf) + PartWeight(parts, OneOf)
            else if k == OneOf || k == AllOf then 0 else PartWeight(parts, k) { AssembledWeight(p, f, parts, k); }
    MergeLooks(g, m, AllOf);
    AssembleLooks(f, parts, AllOf);
    OneElementWeight(parts, m);
  }

  lemma OneElementWeight(parts: Parts, m: Json)
    requires AllOf in parts && parts[AllOf] == Arr([m])
    ensures PartWeight(parts, AllOf) == Weight(m)
  {
    assert [m][..|[m]| - 1] == [];
    assert ElementsWeight(Arr([m]), [m]) == ElementsWeight(Arr([m]), []) + Weight(m);
  }

  /** The rewrite ended; references still stand alone, the node is no heavier, and it is itself a reference
      only if it was one. */
  ghost predicate Ends(before: nat, reference: bool, r: Outcome<Json>) {
    match r
    case Ok(after) => All(LoneReferences(), after) && Weight(after) <= before && (IsReference(after) ==> reference)
    case Failed(error) => error == AdditionalPropertiesOpen
    case OutOfFuel => false
  }

  /** On a schema whose references stand alone the rewrite ends, whatever is nested in it and whatever the
      references lead to: one unit of fuel for each `allOf` list is enough. */
  lemma {:induction false} NodeEnds(node: Json, root: Json, fuel: nat)
    requires All(LoneReferences(), node) && Weight(node) <= fuel
    ensures Ends(Weight(node), IsReference(node), EnsureNode(node, root, fuel))
    decreases fuel, node, 2, 0
  {
    if node.Obj? {
      PartsEnd(node, root, fuel);
      var parts := EnsureParts(node, root, fuel);
      if parts.Ok? { SettleEnds(node, parts.value, root, fuel); }
    }
  }

  lemma AgainMerges(f: Fields, parts: Parts, root: Json)
    requires AllOf in parts && parts[AllOf].Arr? && |parts[AllOf].elems| == 1
    ensures Next(f, parts, root) == Again(Obj(Merge(Assemble(f, parts), parts[AllOf].elems[0])))
  {}

  /** The rewritten elements of an `allOf` list are references only where the originals were. */
  ghost predicate NoNewReferences(f: Fields, parts: Parts) {
    AllOf in parts && Holds(f, AllOf) && parts[AllOf].Arr? && |parts[AllOf].elems| == |f[Name(AllOf)].elems| ==>
      forall i :: 0 <= i < |parts[AllOf].elems| ==>
        (IsReference(parts[AllOf].elems[i]) ==> IsReference(f[Name(AllOf)].elems[i]))
  }

  lemma {:induction false} SettleEnds(node: Json, parts: Parts, root: Json, fuel: nat)
    requires node.Obj? && ReferenceAlone(node.fields) && Weight(node) <= fuel
    requires PartsHold(LoneReferences(), node.fields, parts, EARLY + LATE) && Lighter(node.fields, parts)
    requires NoNewReferences(node.fields, parts)
    ensures Ends(Weight(node), IsReference(node), Settle(node, Next(node.fields, parts, root), root, fuel))
    decreases fuel, node, 1, 2
  {
    hide EnsureParts, EnsureNode, Assemble, Weight, Next, Merge, HeldWeight, Ends, PartsHold, Lighter;
    LoneReferenceStays(node.fields, parts, root);
    match Next(node.fields, parts, root)
    case Done(fields) =>
      DoneLighter(node.fields, parts, root);
      EndsOk(Weight(node), IsReference(node), Obj(fields));
    case Unresolved(_) =>
    case Again(again) =>
      var m := parts[AllOf].elems[0];
      AgainMerges(node.fields, parts, root);
      MergedNoReference(node.fields, parts);
      AgainHolds(node.fields, parts, m);
      AgainLighter(node.fields, parts, m);
      NodeEnds(again, root, fuel - 1);
      EndsWithin(Weight(again), IsReference(again), Weight(node), IsReference(node), EnsureNode(again, root, fuel - 1));
  }

  lemma MergedNoReference(f: Fields, parts: Parts)
    requires ReferenceAlone(f) && PartsHold(LoneReferences(), f, parts, EARLY + LATE) && NoNewReferences(f, parts)
    requires AllOf in parts && parts[AllOf].Arr? && |parts[AllOf].elems| == 1
    ensures !IsReference(parts[AllOf].elems[0])
  {
    EveryMember(AllOf);
    assert OneElement(Look(f, AllOf));
  }

  lemma EndsOk(before: nat, reference: bool, after: Json)
    requires All(LoneReferences(), after) && Weight(after) <= before && (IsReference(after) ==> reference)
    ensures Ends(before, reference, Ok(after))
  {}

  lemma EndsWithin(a: nat, before: bool, b: nat, reference: bool, r: Outcome<Json>)
    requires Ends(a, before, r) && a <= b && (before ==> reference)
    ensures Ends(b, reference, r)
  {}

  ghost predicate PartsEnded(f: Fields, ks: seq<Keyword>, r: Outcome<Parts>) {
    match r
    case Ok(parts) => PartsHold(LoneReferences(), f, parts, ks) && Lighter(f, parts) && NoNewReferences(f, parts)
    case Failed(error) => error == AdditionalPropertiesOpen
    case OutOfFuel => false
  }

  lemma {:induction false} PartsEnd(node: Json, root: Json, fuel: nat)
    requires node.Obj? && All(LoneReferences(), node) && Weight(node) <= fuel
    ensures PartsEnded(node.fields, EARLY + LATE, EnsureParts(node, root, fuel))
    decreases fuel, node, 1, 1
  {
    MembersEnd(node, EARLY, root, fuel);
    MembersEnd(node, LATE, root, fuel);
    var early, late := EnsureMembers(node, EARLY, root, fuel), EnsureMembers(node, LATE, root, fuel);
    if early.Ok? && late.Ok? { LighterTogether(node.fields, early.value, late.value); }
  }

  lemma LighterTogether(f: Fields, early: Parts, late: Parts)
    requires Lighter(f, early) && Lighter(f, late)
    ensures Lighter(f, early + late)
  {
    hide HeldWeight, MemberWeight;
    forall k ensures PartWeight(early + late, k) <= HeldWeight(Obj(f), k) {
      assert PartWeight(early, k) <= HeldWeight(Obj(f), k) && PartWeight(late, k) <= HeldWeight(Obj(f), k);
    }
  }

  lemma HeldWithin(j: Json, k: Keyword)
    requires j.Obj?
    ensures HeldWeight(j, k) <= Weight(j)
  {
    EveryMember(k);
  }

  lemma {:induction false} MembersEnd(node: Json, ks: seq<Keyword>, root: Json, fuel: nat)
    requires node.Obj? && All(LoneReferences(), node) && Weight(node) <= fuel
    ensures PartsEnded(node.fields, ks, EnsureMembers(node, ks, root, fuel))
    decreases fuel, node, 1, 0, |ks|
  {
    if ks != [] {
      var k, init := ks[|ks| - 1], ks[..|ks| - 1];
      MembersEnd(node, init, root, fuel);
      HeldWithin(node, k);
      if Holds(node.fields, k) { MemberEnds(node.fields[Name(k)], ShapeOf(k), root, fuel); }
      LastPart(node, ks, k, root, fuel);
    }
  }

  lemma LastPart(node: Json, ks: seq<Keyword>, k: Keyword, root: Json, fuel: nat)
    requires node.Obj? && ks != [] && k == ks[|ks| - 1]
    requires PartsEnded(node.fields, ks[..|ks| - 1], EnsureMembers(node, ks[..|ks| - 1], root, fuel))
    requires Holds(node.fields, k) ==>
      MemberEnded(node.fields[Name(k)], ShapeOf(k), EnsureMember(node.fields[Name(k)], ShapeOf(k), root, fuel))
    ensures PartsEnded(node.fields, ks, EnsureMembers(node, ks, root, fuel))
  {
    hide EnsureMembers, EnsureMember, MemberWeight, Lighter, PartsHold, NoNewReferences, MemberEnded;
    MembersNext(node, ks, root, fuel);
    var before := EnsureMembers(node, ks[..|ks| - 1], root, fuel);
    if Holds(node.fields, k) {
      var part := EnsureMember(node.fields[Name(k)], ShapeOf(k), root, fuel);
      EndedError(node.fields[Name(k)], ShapeOf(k), part);
      if before.Ok? && part.Ok? { OneMorePart(node.fields, before.value, ks, k, part.value); }
    } else if before.Ok? {
      NoMorePart(node.fields, before.value, ks, k);
    }
  }

  lemma MembersNext(node: Json, ks: seq<Keyword>, root: Json, fuel: nat)
    requires node.Obj? && ks != []
    ensures var k, before := ks[|ks| - 1], EnsureMembers(node, ks[..|ks| - 1], root, fuel);
      EnsureMembers(node, ks, root, fuel) ==
      if !before.Ok? || !Holds(node.fields, k) then before
      else match EnsureMember(node.fields[Name(k)], ShapeOf(k), root, fuel)
        case Ok(part) => Ok(before.value[k := part])
        case Failed(error) => Failed(error)
        case OutOfFuel => OutOfFuel
  {
    hide EnsureMember, Holds;
  }

  lemma EndedError(member: Json, shape: Shape, r: Outcome<Json>)
    requires Fits(member, shape) && MemberEnded(member, shape, r)
    ensures !r.OutOfFuel? && (r.Failed? ==> r.error == AdditionalPropertiesOpen)
  {}

  lemma OneMorePart(f: Fields, parts: Parts, ks: seq<Keyword>, k: Keyword, part: Json)
    requires ks != [] && k == ks[|ks| - 1] && Holds(f, k) && MemberEnded(f[Name(k)], ShapeOf(k), Ok(part))
    requires PartsEnded(f, ks[..|ks| - 1], Ok(parts))
    ensures PartsEnded(f, ks, Ok(parts[k := part]))
  {
    hide MemberWeight, Lighter, HasReference;
    assert ks == ks[..|ks| - 1] + [k];
    LighterWith(f, parts, k, part);
    OneMoreReference(f, parts, k, part);
  }

  lemma OneMoreReference(f: Fields, parts: Parts, k: Keyword, part: Json)
    requires Holds(f, k) && MemberEnded(f[Name(k)], ShapeOf(k), Ok(part)) && NoNewReferences(f, parts)
    ensures NoNewReferences(f, parts[k := part])
  {
    hide MemberWeight, HasReference;
  }

  lemma NoMorePart(f: Fields, parts: Parts, ks: seq<Keyword>, k: Keyword)
    requires ks != [] && k == ks[|ks| - 1] && !Holds(f, k) && PartsEnded(f, ks[..|ks| - 1], Ok(parts))
    ensures PartsEnded(f, ks, Ok(parts))
  {
    hide Lighter, HasReference, NoNewReferences;
    assert ks == ks[..|ks| - 1] + [k];
  }

  lemma LighterWith(f: Fields, parts: Parts, k: Keyword, part: Json)
    requires Lighter(f, parts) && Holds(f, k) && Fits(part, ShapeOf(k))
    requires MemberWeight(part, ShapeOf(k)) <= MemberWeight(f[Name(k)], ShapeOf(k))
    ensures Lighter(f, parts[k := part])
  {
    hide MemberWeight;
    forall j ensures PartWeight(parts[k := part], j) <= HeldWeight(Obj(f), j) {
      assert PartWeight(parts, j) <= HeldWeight(Obj(f), j);
    }
  }

  ghost predicate MemberEnded(member: Json, shape: Shape, r: Outcome<Json>)
    requires Fits(member, shape)
  {
    match r
    case Ok(part) =>
      && SameShape(member, part, shape) && Fits(part, shape) && AllIn(LoneReferences(), part, shape)
      && (shape == Elements ==> forall i :: 0 <= i < |part.elems| ==>
        (IsReference(part.elems[i]) ==> IsReference(member.elems[i])))
      && MemberWeight(part, shape) <= MemberWeight(member, shape)
    case Failed(error) => error == AdditionalPropertiesOpen
    case OutOfFuel => false
  }

  lemma {:induction false} MemberEnds(member: Json, shape: Shape, root: Json, fuel: nat)
    requires Fits(member, shape) && AllIn(LoneReferences(), member, shape) && MemberWeight(member, shape) <= fuel
    ensures MemberEnded(member, shape, EnsureMember(member, shape, root, fuel))
    decreases fuel, member, 3, 0
  {
    match shape
    case Whole => NodeEnds(member, root, fuel);
    case Values =>
      ValuesEnd(member, SortedKeys(member.fields.Keys), root, fuel);
      AllValuesEnded(member, root, fuel);
    case Elements =>
      ElementsEnd(member, member.elems, root, fuel);
  }

  lemma AllValuesEnded(member: Json, root: Json, fuel: nat)
    requires member.Obj?
    requires var keys := SortedKeys(member.fields.Keys);
      ValuesEnded(member, keys, EnsureValues(member, keys, root, fuel))
    ensures MemberEnded(member, Values, EnsureMember(member, Values, root, fuel))
  {}

  lemma {:induction false} ValuesEnd(member: Json, keys: seq<string>, root: Json, fuel: nat)
    requires member.Obj? && AllIn(LoneReferences(), member, Values) && forall key ::
      key in keys ==> key in member.fields
    requires Sorted(keys) && ValuesWeight(member, keys) <= fuel
    ensures ValuesEnded(member, keys, EnsureValues(member, keys, root, fuel))
    decreases fuel, member, 1, |keys|
  {
    if keys != [] {
      var key, before := keys[|keys| - 1], keys[..|keys| - 1];
      assert forall k :: k in before ==> k in keys;
      ValuesEnd(member, before, root, fuel);
      NodeEnds(member.fields[key], root, fuel);
      LastValue(member, keys, root, fuel);
    }
  }

  ghost predicate ValuesEnded(member: Json, keys: seq<string>, r: Outcome<Fields>)
    requires member.Obj? && forall key :: key in keys ==> key in member.fields
  {
    match r
    case Ok(fields) =>
      && fields.Keys == member.fields.Keys
      && (forall key :: key in fields ==> All(LoneReferences(), fields[key]))
      && ValuesWeight(Obj(fields), keys) <= ValuesWeight(member, keys)
    case Failed(error) => error == AdditionalPropertiesOpen
    case OutOfFuel => false
  }

  lemma LastValue(member: Json, keys: seq<string>, root: Json, fuel: nat)
    requires member.Obj? && keys != [] && Sorted(keys) && forall key :: key in keys ==> key in member.fields
    requires forall key :: key in keys[..|keys| - 1] ==> key in keys
    requires ValuesEnded(member, keys[..|keys| - 1], EnsureValues(member, keys[..|keys| - 1], root, fuel))
    requires var last := member.fields[keys[|keys| - 1]];
      Ends(Weight(last), IsReference(last), EnsureNode(last, root, fuel))
    ensures ValuesEnded(member, keys, EnsureValues(member, keys, root, fuel))
  {
    hide EnsureNode, HasReference, Weight;
    var key, before := keys[|keys| - 1], keys[..|keys| - 1];
    var done, value := EnsureValues(member, before, root, fuel), EnsureNode(member.fields[key], root, fuel);
    if done.Ok? && value.Ok? {
      LastKeyNew(keys);
      ValuesWeightWithout(done.value, key, value.value, before);
    }
  }

  lemma LastKeyNew(keys: seq<string>)
    requires keys != [] && Sorted(keys)
    ensures keys[|keys| - 1] !in keys[..|keys| - 1]
  {
    forall i | 0 <= i < |keys| - 1 ensures keys[i] != keys[|keys| - 1] { BeforeTotal(keys[i], keys[|keys| - 1]); }
  }

  lemma {:induction false} ValuesWeightWithout(fields: Fields, key: string, value: Json, keys: seq<string>)
    requires key !in keys && forall k :: k in keys ==> k in fields
    ensures ValuesWeight(Obj(fields[key := value]), keys) == ValuesWeight(Obj(fields), keys)
  {
    if keys != [] {
      assert forall k :: k in keys[..|keys| - 1] ==> k in keys;
      ValuesWeightWithout(fields, key, value, keys[..|keys| - 1]);
    }
  }

  lemma {:induction false} ElementsEnd(member: Json, elems: seq<Json>, root: Json, fuel: nat)
    requires member.Arr? && AllIn(LoneReferences(), member, Elements) && elems <= member.elems
    requires ElementsWeight(member, elems) <= fuel
    ensures ElementsEnded(member, elems, EnsureElements(member, elems, root, fuel))
    decreases fuel, member, 1, |elems|
  {
    if elems != [] {
      var last := elems[|elems| - 1];
      assert last == member.elems[|elems| - 1];
      ElementsEnd(member, elems[..|elems| - 1], root, fuel);
      NodeEnds(last, root, fuel);
      LastElement(member, elems, last, root, fuel);
    }
  }

  ghost predicate ElementsEnded(member: Json, elems: seq<Json>, r: Outcome<seq<Json>>)
    requires member.Arr? && elems <= member.elems
  {
    match r
    case Ok(rewritten) =>
      && |rewritten| == |elems| && AllIn(LoneReferences(), Arr(rewritten), Elements)
      && (forall i :: 0 <= i < |elems| ==> (IsReference(rewritten[i]) ==> IsReference(elems[i])))
      && ElementsWeight(Arr(rewritten), rewritten) <= ElementsWeight(member, elems)
    case Failed(error) => error == AdditionalPropertiesOpen
    case OutOfFuel => false
  }

  lemma LastElement(member: Json, elems: seq<Json>, last: Json, root: Json, fuel: nat)
    requires member.Arr? && elems != [] && elems <= member.elems && last == elems[|elems| - 1]
    requires ElementsEnded(member, elems[..|elems| - 1], EnsureElements(member, elems[..|elems| - 1], root, fuel))
    requires Ends(Weight(last), IsReference(last), EnsureNode(last, root, fuel))
    ensures ElementsEnded(member, elems, EnsureElements(member, elems, root, fuel))
  {
    hide EnsureElements, EnsureNode, ElementsEnded, Ends;
    LastElementGives(member, elems, last, root, fuel);
    OneMoreElement(member, elems, last, EnsureElements(member, elems[..|elems| - 1], root, fuel),
      EnsureNode(last, root, fuel));
  }

  lemma LastElementGives(member: Json, elems: seq<Json>, last: Json, root: Json, fuel: nat)
    requires member.Arr? && elems != [] && elems <= member.elems && last == elems[|elems| - 1]
    ensures var done, element := EnsureElements(member, elems[..|elems| - 1], root, fuel), EnsureNode(last, root, fuel);
      EnsureElements(member, elems, root, fuel)
      == if !done.Ok? then done else if element.Ok? then Ok(done.value + [element.value])
        else element.PropagateFailure()
  {
    hide EnsureNode;
    assert last == member.elems[|elems| - 1];
  }

  lemma ElementsWeightLast(member: Json, elems: seq<Json>, last: Json)
    requires member.Arr? && elems != [] && elems <= member.elems && last == elems[|elems| - 1]
    ensures ElementsWeight(member, elems) == ElementsWeight(member, elems[..|elems| - 1]) + Weight(last)
  {
    hide Weight;
  }

  lemma OneMoreElement(member: Json, elems: seq<Json>, last: Json, done: Outcome<seq<Json>>, element: Outcome<Json>)
    requires member.Arr? && elems != [] && elems <= member.elems && last == elems[|elems| - 1]
    requires ElementsEnded(member, elems[..|elems| - 1], done) && Ends(Weight(last), IsReference(last), element)
    ensures done.Ok? && element.Ok? ==> ElementsEnded(member, elems, Ok(done.value + [element.value]))
    ensures !done.Ok? ==> ElementsEnded(member, elems, done)
    ensures !element.Ok? ==> ElementsEnded(member, elems, element.PropagateFailure())
  {
    hide HasReference, ElementsWeight, Weight;
    if done.Ok? && element.Ok? {
      ElementsPush(done.value, element.value);
      ElementsWeightLast(member, elems, last);
    }
  }

  lemma ElementsPush(done: seq<Json>, element: Json)
    requires AllIn(LoneReferences(), Arr(done), Elements) && All(LoneReferences(), element)
    ensures AllIn(LoneReferences(), Arr(done + [element]), Elements)
    ensures ElementsWeight(Arr(done + [element]), done + [element]) == ElementsWeight(Arr(done), done) + Weight(element)
  {
    var longer := done + [element];
    assert longer[..|longer| - 1] == done;
    ElementsWeightOf(Arr(longer), Arr(done), done);
    forall i | 0 <= i < |longer| ensures All(LoneReferences(), longer[i]) {
      if i < |done| { assert All(LoneReferences(), Arr(done).elems[i]); }
    }
  }

  // ---- schemas of which nothing is left ----

  /** Only members that the rewrite drops: a null default, alternatives that are no list, and an `allOf` that is
      no list or has one element, which itself is no object or leaves nothing. */
  predicate Emptied(node: Json)
    decreases node
  {
    node.Obj? &&
    var f := node.fields;
    && f.Keys <= {Name(Default), Name(OneOf), Name(AllOf)}
    && (Look(f, Default).Some? ==> Look(f, Default) == Some(Null))
    && (Look(f, OneOf).Some? ==> !Look(f, OneOf).value.Arr?)
    && (match Look(f, AllOf)
        case Some(Arr(elems)) => |elems| == 1 && (elems[0].Obj? ==> Emptied(elems[0]))
        case _ => true)
  }

  predicate DropsOnly(f: Fields) {
    forall k: Keyword :: k != Default && k != OneOf && k != AllOf ==> Look(f, k) == None
  }

  predicate NoKeyword(name: string) {
    forall k: Keyword :: Name(k) != name
  }

  lemma NameOrForeign(f: Fields, name: string)
    requires (forall k: Keyword :: Look(f, k) == None) && (name in f ==> !NoKeyword(name))
    ensures name !in f
  {
    assert forall k: Keyword :: Name(k) == name ==> Look(f, k) == None;
  }

  /** An empty object holds no keyword and nothing else. */
  lemma EmptyByLooks(f: Fields)
    ensures f == map[] <==> (forall k: Keyword :: Look(f, k) == None) && (forall name :: name in f ==> !NoKeyword(name))
  {
    if (forall k: Keyword :: Look(f, k) == None) && (forall name :: name in f ==> !NoKeyword(name)) {
      hide Name;
      forall name ensures name !in f { NameOrForeign(f, name); }
    }
  }

  lemma EmptiedByLooks(f: Fields)
    ensures Emptied(Obj(f)) <==>
      && DropsOnly(f) && (forall name :: name in f ==> !NoKeyword(name))
      && (Look(f, Default).Some? ==> Look(f, Default) == Some(Null))
      && (Look(f, OneOf).Some? ==> !Look(f, OneOf).value.Arr?)
      && (match Look(f, AllOf)
          case Some(Arr(elems)) => |elems| == 1 && (elems[0].Obj? ==> Emptied(elems[0]))
          case _ => true)
  {
    KeysByLooks(f);
  }

  lemma KeysByLooks(f: Fields)
    ensures f.Keys <= {Name(Default), Name(OneOf), Name(AllOf)} <==> DropsOnly(f) && forall name ::
      name in f ==> !NoKeyword(name)
  {
    NamesDiffer();
    hide Name;
    if f.Keys <= {Name(Default), Name(OneOf), Name(AllOf)} {
      forall k: Keyword | k != Default && k != OneOf && k != AllOf ensures Look(f, k) == None {
        assert Name(k) in f ==> Name(k) in {Name(Default), Name(OneOf), Name(AllOf)};
      }
      forall name | name in f ensures !NoKeyword(name) { assert name in {Name(Default), Name(OneOf), Name(AllOf)}; }
    }
    if DropsOnly(f) && forall name :: name in f ==> !NoKeyword(name) {
      forall name | name in f ensures name in {Name(Default), Name(OneOf), Name(AllOf)} {
        assert !NoKeyword(name);
        var k: Keyword :| Name(k) == name;
        assert Look(f, k).Some?;
      }
    }
  }

  lemma PutForeign(f: Fields, parts: Parts, k: Keyword, name: string)
    requires NoKeyword(name)
    ensures name in Put(f, parts, k) <==> name in f
    ensures name in f - {Name(k)} <==> name in f
  {
    hide Name;
  }

  lemma CloseForeign(f: Fields, name: string)
    requires NoKeyword(name)
    ensures name in RequireAll(Close(f)) <==> name in f
  {
    hide Name, RequiredNames;
  }

  lemma FoldForeign(f: Fields, parts: Parts, name: string)
    requires NoKeyword(name)
    ensures name in FoldOneOf(f, parts) <==> name in f
  {
    hide Name;
  }

  /** Members that are no keyword stay where they are. */
  lemma ForeignStays(f: Fields, parts: Parts, name: string)
    requires NoKeyword(name)
    ensures name in Assemble(f, parts) <==> name in f
    ensures name in DropNullDefault(Put(Assemble(f, parts), parts, AllOf)) <==> name in f
  {
    hide Name, NoKeyword, Put, Close, RequireAll, FoldOneOf;
    var f2 := Put(Put(f, parts, Defs), parts, Definitions);
    PutForeign(f, parts, Defs, name);
    PutForeign(Put(f, parts, Defs), parts, Definitions, name);
    CloseForeign(f2, name);
    var f4 := RequireAll(Close(f2));
    var f5 := Put(f4, parts, Properties);
    var f6 := Put(f5, parts, Items);
    var f7 := Put(f6, parts, AnyOf);
    PutForeign(f4, parts, Properties, name);
    PutForeign(f5, parts, Items, name);
    PutForeign(f6, parts, AnyOf, name);
    FoldForeign(f7, parts, name);
    PutForeign(FoldOneOf(f7, parts), parts, AllOf, name);
    var g := Assemble(f, parts);
    PutForeign(g, parts, AllOf, name);
    PutForeign(Put(g, parts, AllOf), parts, Default, name);
  }

  predicate OneOfList(f: Fields) { Look(f, OneOf).Some? && Look(f, OneOf).value.Arr? }

  lemma AssembledNone(p: Fields -> bool, f: Fields, parts: Parts, k: Keyword)
    requires PartsHold(p, f, parts, EARLY + LATE) && Assembled(f, parts, k) == None && k != OneOf && k != AllOf
    ensures Look(f, k) == None && (k == AnyOf ==> !OneOfList(f))
  {
    hide RequiredNames;
    EveryMember(k);
    EveryMember(OneOf);
  }

  lemma NothingAssembled(p: Fields -> bool, f: Fields, parts: Parts, k: Keyword)
    requires PartsHold(p, f, parts, EARLY + LATE) && DropsOnly(f) && !OneOfList(f)
    ensures Assembled(f, parts, k) == if k == Default then Look(f, Default) else None
  {
    hide RequiredNames;
    assert Look(f, Type) == None && Look(f, Properties) == None && Look(f, AnyOf) == None;
    assert k != Default && k != OneOf && k != AllOf ==> Look(f, k) == None;
    EveryMember(k);
    EveryMember(AnyOf);
    EveryMember(OneOf);
  }

  lemma DoneLooksEmptied(p: Fields -> bool, f: Fields, parts: Parts, h: Fields)
    requires PartsHold(p, f, parts, EARLY + LATE) && !OneElement(Part(f, parts, AllOf))
    requires forall k: Keyword :: Look(h, k) == Finished(f, parts, k)
    ensures (forall k: Keyword :: Look(h, k) == None) <==>
      && DropsOnly(f) && !OneOfList(f) && Look(f, Default) in {None, Some(Null)}
      && (Look(f, AllOf).Some? ==> !Look(f, AllOf).value.Arr?)
  {
    hide Assembled;
    EveryMember(AllOf);
    if forall k: Keyword :: Look(h, k) == None {
      forall k: Keyword | k != Default && k != OneOf && k != AllOf ensures Look(f, k) == None {
        assert Look(h, k) == None;
        AssembledNone(p, f, parts, k);
      }
      assert Look(h, AnyOf) == None;
      AssembledNone(p, f, parts, AnyOf);
      assert Look(h, AllOf) == None && Look(h, Default) == None;
      if Look(f, Default) != Some(Null) { AssembledNone(p, f, parts, Default); }
    }
    if DropsOnly(f) && !OneOfList(f) {
      forall k: Keyword ensures Assembled(f, parts, k) == if k == Default then Look(f, Default) else None {
        NothingAssembled(p, f, parts, k);
      }
    }
  }

  /** A node without members that stay is finished with nothing, and only such a node. */
  lemma DoneEmptied(p: Fields -> bool, f: Fields, parts: Parts, root: Json)
    requires PartsHold(p, f, parts, EARLY + LATE) && Next(f, parts, root).Done?
    ensures Next(f, parts, root).fields == map[] <==> Emptied(Obj(f))
  {
    hide Next, Name, Emptied, Finished, NoKeyword, DropsOnly;
    var h := Next(f, parts, root).fields;
    forall k: Keyword ensures Look(h, k) == Finished(f, parts, k) { DoneLooks(f, parts, root, k); }
    forall name | NoKeyword(name) ensures name in h <==> name in f { DoneForeign(f, parts, root, name); }
    NotOneElement(p, f, parts, root);
    DoneLooksEmptied(p, f, parts, h);
    EmptyByLooks(h);
    EmptiedByLooks(f);
  }

  lemma DoneForeign(f: Fields, parts: Parts, root: Json, name: string)
    requires NoKeyword(name) && Next(f, parts, root).Done?
    ensures name in Next(f, parts, root).fields <==> name in f
  {
    hide Assemble, Put, DropNullDefault, NoKeyword;
    ForeignStays(f, parts, name);
  }

  lemma NotOneElement(p: Fields -> bool, f: Fields, parts: Parts, root: Json)
    requires PartsHold(p, f, parts, EARLY + LATE) && Next(f, parts, root).Done?
    ensures !OneElement(Part(f, parts, AllOf)) && !OneElement(Look(f, AllOf))
  {
    hide Next;
    DoneReference(f, parts, root);
    EveryMember(AllOf);
  }

  /** The same for a node that takes in its one-element `allOf`. */
  lemma MergedEmptied(p: Fields -> bool, f: Fields, parts: Parts, root: Json, m: Json)
    requires PartsHold(p, f, parts, EARLY + LATE) && AllOf in parts && parts[AllOf] == Arr([m])
    requires OneElement(Look(f, AllOf)) && (m.Obj? ==> StrictFields(m.fields, root))
    requires var e := Look(f, AllOf).value.elems[0];
      if e.Obj? then m.Obj? && (m == Obj(map[]) <==> Emptied(e)) else m == e
    ensures Emptied(Obj(Merge(Assemble(f, parts), m))) <==> Emptied(Obj(f))
  {
    hide Name, Emptied, Assemble, Merge, Assembled, StrictFields, NoKeyword, DropsOnly, PartsHold;
    var g := Assemble(f, parts);
    var n := Merge(g, m);
    EmptiedByLooks(n);
    EmptiedByLooks(f);
    MergedForeign(f, parts, m);
    if m.Obj? { EmptyByLooks(m.fields); }
    if Emptied(Obj(n)) { MergedNothing(p, f, parts, root, m); }
    if Emptied(Obj(f)) {
      NothingMerged(p, f, parts, m);
      assert forall k: Keyword :: Look(n, k) == if k == Default then Look(f, Default) else None;
      OnlyDefaultEmptied(n);
    }
  }

  lemma OnlyDefaultEmptied(n: Fields)
    requires forall k: Keyword :: k != Default ==> Look(n, k) == None
    requires Look(n, Default) in {None, Some(Null)} && forall name :: name in n ==> !NoKeyword(name)
    ensures Emptied(Obj(n))
  {
    hide Name, NoKeyword, Emptied;
    EmptiedByLooks(n);
  }

  lemma MergedForeign(f: Fields, parts: Parts, m: Json)
    ensures (forall name :: name in Merge(Assemble(f, parts), m) ==> !NoKeyword(name))
      <==>
        && (forall name :: name in f ==> !NoKeyword(name))
        && (m.Obj? ==> forall name :: name in m.fields ==> !NoKeyword(name))
  {
    hide Assemble, NoKeyword;
    var g := Assemble(f, parts);
    forall name | NoKeyword(name) ensures name in g <==> name in f { ForeignStays(f, parts, name); }
    assert forall name :: name in Merge(g, m) <==> name in g || (m.Obj? && name in m.fields);
  }

  lemma MergedNothing(p: Fields -> bool, f: Fields, parts: Parts, root: Json, m: Json)
    requires PartsHold(p, f, parts, EARLY + LATE) && (m.Obj? ==> StrictFields(m.fields, root))
    requires var n := Merge(Assemble(f, parts), m);
      && DropsOnly(n) && Look(n, Default) in {None, Some(Null)}
      && (Look(n, AllOf).Some? && Look(n, AllOf).value.Arr? ==> |Look(n, AllOf).value.elems| == 1)
    ensures m.Obj? ==> forall k: Keyword :: Look(m.fields, k) == None
    ensures DropsOnly(f) && !OneOfList(f) && Look(f, Default) in {None, Some(Null)}
  {
    hide Name, Assemble, Merge, Assembled, RequiredNames, ResolveRef, PartsHold;
    var g := Assemble(f, parts);
    forall k: Keyword ensures Look(Merge(g, m), k) == if m.Obj? && Look(m.fields, k).Some? then Look(m.fields, k)
      else Look(g, k) {
      MergeLooks(g, m, k);
    }
    forall k: Keyword ensures Look(g, k) == Assembled(f, parts, k) { AssembleLooks(f, parts, k); }
    if m.Obj? {
      forall k: Keyword ensures Look(m.fields, k) == None { assert Look(Merge(g, m), k) == Look(Merge(g, m), k); }
    }
    forall k: Keyword | k != Default && k != OneOf && k != AllOf ensures Look(f, k) == None {
      assert Look(Merge(g, m), k) == None;
      AssembledNone(p, f, parts, k);
    }
    assert Look(Merge(g, m), AnyOf) == None;
    AssembledNone(p, f, parts, AnyOf);
    if Look(g, Default) == None { AssembledNone(p, f, parts, Default); } else { AssembledDefault(f, parts); }
  }

  lemma AssembledDefault(f: Fields, parts: Parts)
    ensures Assembled(f, parts, Default) == Look(f, Default)
  {}

  lemma NothingMerged(p: Fields -> bool, f: Fields, parts: Parts, m: Json)
    requires PartsHold(p, f, parts, EARLY + LATE) && DropsOnly(f) && !OneOfList(f)
    requires m.Obj? ==> forall k: Keyword :: Look(m.fields, k) == None
    ensures forall k: Keyword :: Look(Merge(Assemble(f, parts), m), k) == if k == Default then Look(f, Default)
      else None
  {
    hide Assemble, Merge, Assembled, PartsHold, DropsOnly;
    forall k: Keyword ensures Look(Merge(Assemble(f, parts), m), k) == if k == Default then Look(f, Default) else None {
      MergeLooks(Assemble(f, parts), m, k);
      AssembleLooks(f, parts, k);
      NothingAssembled(p, f, parts, k);
    }
  }

  /** The node whose reference is expanded still holds it. */
  lemma ExpandedFrom(p: Fields -> bool, f: Fields, parts: Parts, root: Json)
    requires PartsHold(p, f, parts, EARLY + LATE) && Next(f, parts, root).Again? && !OneElement(Part(f, parts, AllOf))
    ensures var h := DropNullDefault(Put(Assemble(f, parts), parts, AllOf));
      && Expand(h, root) == Next(f, parts, root) && Look(h, Ref).Some? && |h| > 1 && Look(f, Ref) == Look(h, Ref)
  {
    hide Name, Assemble, ResolveRef, PartsHold, RequiredNames;
    var h := DropNullDefault(Put(Assemble(f, parts), parts, AllOf));
    EveryMember(AllOf);
    ListRestored(p, f, parts);
    assert Expand(h, root) == Next(f, parts, root);
    AssembleLooks(f, parts, Ref);
    PutLooks(Assemble(f, parts), parts, AllOf, Ref);
    RemoveLooks(Put(Assemble(f, parts), parts, AllOf), Default, Ref);
  }

  /** A reference that is expanded has a sibling, which stays. */
  lemma ExpandedKeeps(p: Fields -> bool, f: Fields, parts: Parts, root: Json)
    requires PartsHold(p, f, parts, EARLY + LATE) && Next(f, parts, root).Again? && !OneElement(Part(f, parts, AllOf))
    ensures !Emptied(Obj(f)) && !Emptied(Next(f, parts, root).node)
  {
    hide Name, Assemble, Emptied, ResolveRef, PartsHold, RequiredNames, Next, DropNullDefault, Put;
    var h := DropNullDefault(Put(Assemble(f, parts), parts, AllOf));
    ExpandedFrom(p, f, parts, root);
    ListRestored(p, f, parts);
    EmptiedByLooks(f);
    var target := ResolveRef(root, Look(h, Ref).value.s).value.fields;
    SiblingStays(h, target);
  }

  lemma ListRestored(p: Fields -> bool, f: Fields, parts: Parts)
    requires PartsHold(p, f, parts, EARLY + LATE) && !OneElement(Part(f, parts, AllOf))
    ensures var h := DropNullDefault(Put(Assemble(f, parts), parts, AllOf));
      && Look(h, Default) != Some(Null) && Look(h, OneOf) == None
      && (Look(h, AllOf).Some? ==> Look(h, AllOf).value.Arr? && |Look(h, AllOf).value.elems| != 1)
    ensures !(AllOf in parts && parts[AllOf].Arr? && |parts[AllOf].elems| == 1)
  {
    hide Name, Assemble;
    var g := Assemble(f, parts);
    var listed := Put(g, parts, AllOf);
    forall k: Keyword ensures Look(listed, k) == if k == AllOf && AllOf in parts then Some(parts[AllOf])
      else Look(g, k) {
      PutLooks(g, parts, AllOf, k);
    }
    forall k: Keyword ensures Look(listed - {Name(Default)}, k) == if k == Default then None else Look(listed, k) {
      RemoveLooks(listed, Default, k);
    }
    AssembleLooks(f, parts, OneOf);
    AssembleLooks(f, parts, AllOf);
    EveryMember(AllOf);
  }

  lemma Sibling(h: Fields) returns (name: string)
    requires Look(h, Ref).Some? && |h| > 1
    ensures name in h && name != Name(Ref)
  {
    var rest := h.Keys - {Name(Ref)};
    assert |rest| == |h.Keys| - 1;
    name :| name in rest;
  }

  lemma SiblingStays(h: Fields, target: Fields)
    requires Look(h, Ref).Some? && |h| > 1
    requires Look(h, Default) != Some(Null) && Look(h, OneOf) == None
    requires Look(h, AllOf).Some? ==> Look(h, AllOf).value.Arr? && |Look(h, AllOf).value.elems| != 1
    ensures !Emptied(Obj((target + h) - {Name(Ref)}))
  {
    hide Name, Emptied;
    var n := (target + h) - {Name(Ref)};
    var name := Sibling(h);
    assert name in n && n[name] == h[name];
    EmptiedByLooks(n);
    if !NoKeyword(name) {
      var k: Keyword :| Name(k) == name;
      assert Look(n, k) == Look(h, k);
    }
  }

  lemma NoNodeStays(node: Json, root: Json, fuel: nat)
    ensures !node.Obj? ==> EnsureNode(node, root, fuel) == Ok(node)
  {
    hide Next, EnsureParts;
  }

  lemma NodeSettles(node: Json, root: Json, fuel: nat)
    requires node.Obj? && EnsureParts(node, root, fuel).Ok?
    ensures EnsureNode(node, root, fuel) == Settle(node, Next(node.fields, EnsureParts(node, root, fuel).value, root),
      root, fuel)
  {
    hide Next, EnsureParts, Settle;
  }

  lemma NodeNext(node: Json, root: Json, fuel: nat)
    requires node.Obj? && EnsureNode(node, root, fuel).Ok?
    ensures EnsureParts(node, root, fuel).Ok?
    ensures match Next(node.fields, EnsureParts(node, root, fuel).value, root)
      case Done(fields) => EnsureNode(node, root, fuel) == Ok(Obj(fields))
      case Unresolved(_) => false
      case Again(again) => fuel > 0 && EnsureNode(node, root, fuel) == EnsureNode(again, root, fuel - 1)
  {
    hide Next, EnsureParts;
  }

  /** Nothing is left of a schema exactly if it has only such members. */
  lemma {:induction false} EmptiedExactly(node: Json, root: Json, fuel: nat)
    requires EnsureNode(node, root, fuel).Ok?
    ensures EnsureNode(node, root, fuel).value == Obj(map[]) <==> Emptied(node)
    decreases fuel, node, 1
  {
    hide Next, EnsureParts, EnsureNode, PartsHold;
    NoNodeStays(node, root, fuel);
    if node.Obj? {
      hide Emptied;
      NodeNext(node, root, fuel);
      PartsStrict(node, root, fuel);
      var f, parts := node.fields, EnsureParts(node, root, fuel).value;
      match Next(f, parts, root)
      case Done(_) => DoneEmptied(StrictAt(root), f, parts, root);
      case Unresolved(_) =>
      case Again(again) =>
        AgainAgrees(node, root, fuel);
        EmptiedExactly(again, root, fuel - 1);
    }
  }

  /** Whether nothing will be left does not change when the rewrite starts again. */
  lemma {:induction false} AgainAgrees(node: Json, root: Json, fuel: nat)
    requires node.Obj? && EnsureParts(node, root, fuel).Ok?
    requires Next(node.fields, EnsureParts(node, root, fuel).value, root).Again?
    ensures Emptied(Next(node.fields, EnsureParts(node, root, fuel).value, root).node) <==> Emptied(node)
    decreases fuel, node, 0
  {
    hide Next, Emptied, EnsureParts, EnsureNode, PartsHold;
    var f, parts := node.fields, EnsureParts(node, root, fuel).value;
    PartsStrict(node, root, fuel);
    if OneElement(Part(f, parts, AllOf)) {
      MergedElement(node, root, fuel);
      var e := Look(f, AllOf).value.elems[0];
      EmptiedExactly(e, root, fuel);
      NodeStrict(e, root, fuel);
      AgainMerges(f, parts, root);
      MergedEmptied(StrictAt(root), f, parts, root, parts[AllOf].elems[0]);
    } else {
      ExpandedKeeps(StrictAt(root), f, parts, root);
    }
  }

  /** The element merged into a node is what the rewrite made of the one that was there. */
  lemma MergedElement(node: Json, root: Json, fuel: nat)
    requires node.Obj? && EnsureParts(node, root, fuel).Ok?
      && OneElement(Part(node.fields, EnsureParts(node, root, fuel).value, AllOf))
    ensures OneElement(Look(node.fields, AllOf)) && AllOf in EnsureParts(node, root, fuel).value
    ensures var parts, e := EnsureParts(node, root, fuel).value, Look(node.fields, AllOf).value.elems[0];
      && e < node && EnsureNode(e, root, fuel).Ok?
      && parts[AllOf] == Arr([EnsureNode(e, root, fuel).value])
      && (e.Obj? ==> EnsureNode(e, root, fuel).value.Obj?) && (!e.Obj? ==> EnsureNode(e, root, fuel).value == e)
  {
    hide EnsureParts, EnsureNode;
    PartsStrict(node, root, fuel);
    EveryMember(AllOf);
    PartIs(node, AllOf, root, fuel);
    var member := node.fields[Name(AllOf)];
    ElementSucceeds(member, member.elems, 0, root, fuel);
    StaysObject(member.elems[0], root, fuel);
  }

  lemma {:induction false} StaysObject(node: Json, root: Json, fuel: nat)
    requires EnsureNode(node, root, fuel).Ok?
    ensures if node.Obj? then EnsureNode(node, root, fuel).value.Obj? else EnsureNode(node, root, fuel).value == node
    decreases fuel
  {
    hide Next, EnsureParts, EnsureNode;
    NoNodeStays(node, root, fuel);
    if node.Obj? {
      NodeNext(node, root, fuel);
      var next := Next(node.fields, EnsureParts(node, root, fuel).value, root);
      if next.Again? {
        AgainObject(node.fields, EnsureParts(node, root, fuel).value, root);
        StaysObject(next.node, root, fuel - 1);
      }
    }
  }

  lemma AgainObject(f: Fields, parts: Parts, root: Json)
    requires Next(f, parts, root).Again?
    ensures Next(f, parts, root).node.Obj?
  {
    hide Assemble, ResolveRef;
  }

  // ---- whole schemas ----

  lemma FieldsStrictUnder(f: Fields, root: Json, other: Json)
    requires StrictFields(f, root) && ReferenceAlone(f)
    ensures StrictFields(f, other)
  {}

  lemma {:induction false} StrictUnder(j: Json, root: Json, other: Json)
    requires All(StrictAt(root), j) && All(LoneReferences(), j)
    ensures All(StrictAt(other), j)
    decreases j, 0
  {
    if j.Obj? {
      FieldsStrictUnder(j.fields, root, other);
      forall k | Holds(j.fields, k) ensures AllIn(StrictAt(other), j.fields[Name(k)], ShapeOf(k)) {
        StrictUnderIn(j.fields[Name(k)], ShapeOf(k), root, other);
      }
    }
  }

  lemma {:induction false} StrictUnderIn(member: Json, shape: Shape, root: Json, other: Json)
    requires AllIn(StrictAt(root), member, shape) && AllIn(LoneReferences(), member, shape)
    ensures AllIn(StrictAt(other), member, shape)
    decreases member, 1
  {
    match shape
    case Whole => StrictUnder(member, root, other);
    case Values =>
      if member.Obj? {
        forall key | key in member.fields ensures All(StrictAt(other), member.fields[key]) {
          StrictUnder(member.fields[key], root, other);
        }
      }
    case Elements =>
      if member.Arr? {
        forall i | 0 <= i < |member.elems| ensures All(StrictAt(other), member.elems[i]) {
          StrictUnder(member.elems[i], root, other);
        }
      }
    case Opaque =>
  }

  lemma EmptyLooks(k: Keyword)
    ensures Look(EMPTY_SCHEMA.fields, k) == match k
      case Type => Some(Str("object"))
      case Properties => Some(Obj(map[]))
      case Required => Some(Arr([]))
      case AdditionalProperties => Some(Bool(false))
      case _ => None
  {
    NamesDiffer();
  }

  lemma EmptySchemaIsStrict(root: Json)
    ensures All(StrictAt(root), EMPTY_SCHEMA) && All(LoneReferences(), EMPTY_SCHEMA)
  {
    forall k: Keyword ensures Look(EMPTY_SCHEMA.fields, k) == match k
      case Type => Some(Str("object"))
      case Properties => Some(Obj(map[]))
      case Required => Some(Arr([]))
      case AdditionalProperties => Some(Bool(false))
      case _ => None { EmptyLooks(k); }
    StrictByLooks(EMPTY_SCHEMA.fields, root);
  }

  lemma StrictByLooks(f: Fields, root: Json)
    requires forall k: Keyword :: Look(f, k) == match k
      case Type => Some(Str("object"))
      case Properties => Some(Obj(map[]))
      case Required => Some(Arr([]))
      case AdditionalProperties => Some(Bool(false))
      case _ => None
    ensures All(StrictAt(root), Obj(f)) && All(LoneReferences(), Obj(f))
  {
    hide Name, ResolveRef;
    var no: map<string, Json> := map[];
    assert Texts(SortedKeys(no.Keys)) == [];
    assert StrictFields(f, root);
    forall k | Holds(f, k) ensures AllIn(StrictAt(root), f[Name(k)], ShapeOf(k))
      && AllIn(LoneReferences(), f[Name(k)], ShapeOf(k)) {
      assert Look(f, k) == Some(f[Name(k)]);
    }
  }

  /** A schema whose references stand alone is rewritten or refused, never left unfinished; the result is
      strict, and rewriting it again changes nothing, except when nothing was left of the schema, because the
      empty result would be taken for the empty schema. */
  lemma EnsureStrict(schema: Json, fuel: nat, again: nat)
    requires All(LoneReferences(), schema) && Weight(schema) <= fuel
    ensures match EnsureStrictJsonSchema(schema, fuel)
      case Ok(result) =>
        && All(StrictAt(schema), result)
        && (EnsureStrictJsonSchema(result, again) == Ok(result) <==> schema == Obj(map[]) || !Emptied(schema))
      case Failed(error) => error == AdditionalPropertiesOpen
      case OutOfFuel => false
  {
    hide Emptied;
    EmptySchemaIsStrict(schema);
    NodeEnds(schema, schema, fuel);
    NodeStrict(schema, schema, fuel);
    var r := EnsureStrictJsonSchema(schema, fuel);
    if r.Ok? {
      if schema != Obj(map[]) { EmptiedExactly(schema, schema, fuel); }
      StrictUnder(r.value, schema, r.value);
      NodeFixed(r.value, r.value, again);
      assert Name(Type) in EMPTY_SCHEMA.fields;
    }
  }

  lemma {:induction false} MembersOfNone(node: Json, ks: seq<Keyword>, root: Json, fuel: nat)
    requires node.Obj? && forall k :: k in ks ==> !Holds(node.fields, k)
    ensures EnsureMembers(node, ks, root, fuel) == Ok(map[])
  {
    if ks != [] {
      assert ks[|ks| - 1] in ks && forall k :: k in ks[..|ks| - 1] ==> k in ks;
      MembersOfNone(node, ks[..|ks| - 1], root, fuel);
    }
  }

  lemma BareParts(f: Fields, root: Json, fuel: nat)
    requires Bare(f)
    ensures EnsureParts(Obj(f), root, fuel) == Ok(map[]) && Assemble(f, map[]) == f
  {
    hide Name;
    var none: Parts := map[];
    forall k ensures k != Ref && k != Default ==> !Holds(f, k) {
      assert k != Ref && k != Default ==> Look(f, k) == None;
    }
    MembersOfNone(Obj(f), EARLY, root, fuel);
    MembersOfNone(Obj(f), LATE, root, fuel);
    assert none + none == none;
    BareAssembles(f);
  }

  lemma {:induction false} MembersNeverFail(node: Json, ks: seq<Keyword>, root: Json, fuel: nat)
    requires node.Obj?
    requires forall k :: k in ks && Holds(node.fields, k) ==>
      !EnsureMember(node.fields[Name(k)], ShapeOf(k), root, fuel).Failed?
    ensures !EnsureMembers(node, ks, root, fuel).Failed?
  {
    hide EnsureMember, Holds, ShapeOf, Name;
    if ks != [] {
      assert ks[|ks| - 1] in ks && forall k :: k in ks[..|ks| - 1] ==> k in ks;
      MembersNext(node, ks, root, fuel);
      MembersNeverFail(node, ks[..|ks| - 1], root, fuel);
    }
  }

  /** Of such a node the rewrite visits only the element of its `allOf`. */
  lemma EmptiedHolds(f: Fields, k: Keyword)
    requires Emptied(Obj(f)) && Holds(f, k)
    ensures k == AllOf && OneElement(Look(f, AllOf))
    ensures var e := Look(f, AllOf).value.elems[0]; e.Obj? ==> Emptied(e)
  {
    NamesDiffer();
    hide Name;
    assert Look(f, k).Some?;
  }

  /** Nothing in it is refused or referred to. */
  lemma {:induction false} EmptiedIsPlain(node: Json)
    requires Emptied(node)
    ensures node.Obj? && All(LoneReferences(), node) && !IsReference(node) && !Refused(node.fields)
    decreases node
  {
    var f := node.fields;
    hide Emptied;
    EmptiedByLooks(f);
    assert Look(f, Ref) == None && Look(f, Type) == None;
    forall k | Holds(f, k) ensures AllIn(LoneReferences(), f[Name(k)], ShapeOf(k)) {
      EmptiedHolds(f, k);
      var e := f[Name(AllOf)].elems[0];
      if e.Obj? { EmptiedIsPlain(e); }
    }
    if OneElement(Look(f, AllOf)) && Look(f, AllOf).value.elems[0].Obj? {
      EmptiedIsPlain(Look(f, AllOf).value.elems[0]);
    }
  }

  lemma {:induction false} EmptiedNeverFails(node: Json, root: Json, fuel: nat)
    requires node.Obj? && Emptied(node)
    ensures !EnsureNode(node, root, fuel).Failed?
    decreases fuel, node
  {
    hide Next, EnsureMembers, EnsureParts, Emptied, Refused, Weight;
    var f := node.fields;
    EmptiedIsPlain(node);
    forall k | Holds(f, k) ensures !EnsureMember(f[Name(k)], ShapeOf(k), root, fuel).Failed? {
      EmptiedHolds(f, k);
      var e := f[Name(AllOf)].elems[0];
      NoNodeStays(e, root, fuel);
      if e.Obj? { EmptiedNeverFails(e, root, fuel); }
      OneElementNeverFails(f[Name(k)], root, fuel);
    }
    PartsNeverFail(node, root, fuel);
    if EnsureParts(node, root, fuel).Ok? { EmptiedGoesOn(node, root, fuel); }
  }

  lemma OneElementNeverFails(member: Json, root: Json, fuel: nat)
    requires member.Arr? && |member.elems| == 1 && !EnsureNode(member.elems[0], root, fuel).Failed?
    ensures !EnsureMember(member, Elements, root, fuel).Failed?
  {
    hide EnsureNode;
    assert member.elems[..|member.elems| - 1] == [];
    assert EnsureElements(member, [], root, fuel) == Ok([]);
    LastElementGives(member, member.elems, member.elems[0], root, fuel);
  }

  lemma PartsNeverFail(node: Json, root: Json, fuel: nat)
    requires node.Obj? && !Refused(node.fields)
    requires forall k :: Holds(node.fields, k) ==> !EnsureMember(node.fields[Name(k)], ShapeOf(k), root, fuel).Failed?
    ensures !EnsureParts(node, root, fuel).Failed?
  {
    hide EnsureMember, EnsureMembers, Refused, Holds;
    MembersNeverFail(node, EARLY, root, fuel);
    MembersNeverFail(node, LATE, root, fuel);
  }

  lemma {:induction false} EmptiedGoesOn(node: Json, root: Json, fuel: nat)
    requires node.Obj? && Emptied(node) && EnsureParts(node, root, fuel).Ok?
    ensures !EnsureNode(node, root, fuel).Failed?
    decreases fuel, node, 0
  {
    hide Emptied, EnsureParts, EnsureNode, Next, HasReference, Refused;
    NodeSettles(node, root, fuel);
    var f, parts := node.fields, EnsureParts(node, root, fuel).value;
    EmptiedIsPlain(node);
    NoneStays(f, parts, root);
    if Next(f, parts, root).Again? && fuel > 0 {
      AgainAgrees(node, root, fuel);
      AgainObject(f, parts, root);
      EmptiedNeverFails(Next(f, parts, root).node, root, fuel - 1);
    }
  }

  /** A schema of which nothing is left is rewritten to nothing, and a second time that is not left alone. */
  lemma EmptiedSchemaIsNotKept(schema: Json, fuel: nat)
    requires Emptied(schema) && schema != Obj(map[]) && Weight(schema) <= fuel
    ensures EnsureStrictJsonSchema(schema, fuel) == Ok(Obj(map[]))
    ensures EnsureStrictJsonSchema(Obj(map[]), fuel) == Ok(EMPTY_SCHEMA) && EMPTY_SCHEMA != Obj(map[])
  {
    hide Emptied, EnsureNode, Weight;
    EmptiedIsPlain(schema);
    NodeEnds(schema, schema, fuel);
    EmptiedNeverFails(schema, schema, fuel);
    EmptiedExactly(schema, schema, fuel);
    EmptyLooks(Type);
  }

  // ---- with references it may not end ----

  lemma {:induction false} SplitPlain(path: string)
    requires '/' !in path
    ensures Split(path) == [path]
  {
    if path != "" {
      assert path == [path[0]] + path[1..];
      SplitPlain(path[1..]);
    }
  }

  lemma {:induction false} SplitFirst(first: string, rest: string)
    requires '/' !in first
    ensures Split(first + "/" + rest) == [first] + Split(rest)
  {
    var path := first + "/" + rest;
    if first == "" {
      assert path[1..] == rest;
    } else {
      assert path[1..] == first[1..] + "/" + rest && path[0] == first[0] && first[0] in first;
      SplitFirst(first[1..], rest);
      assert first == [first[0]] + first[1..];
    }
  }

  lemma TwoSteps(root: Json, a: string, b: string, definitions: Json, target: Json)
    requires '/' !in a && '/' !in b && Get(root, a) == Some(definitions) && Get(definitions, b) == Some(target)
    ensures ResolveRef(root, "#/" + (a + "/" + b)) == Some(target)
  {
    var path := a + "/" + b;
    assert ("#/" + path)[..2] == "#/" && ("#/" + path)[2..] == path;
    SplitPlain(b);
    SplitFirst(a, b);
    assert Split(path) == [a, b];
    assert [a, b][1..] == [b] && [b][1..] == [];
    assert Walk(target, []) == Some(target);
    assert Walk(definitions, [b]) == Some(target);
  }

  lemma {:induction false} MembersStop(node: Json, ks: seq<Keyword>, n: nat, root: Json, fuel: nat)
    requires node.Obj? && n <= |ks| && EnsureMembers(node, ks[..n], root, fuel).OutOfFuel?
    ensures EnsureMembers(node, ks, root, fuel).OutOfFuel?
  {
    if n < |ks| {
      assert ks[..|ks| - 1][..n] == ks[..n];
      MembersStop(node, ks[..|ks| - 1], n, root, fuel);
    } else {
      assert ks[..n] == ks;
    }
  }

  /** A reference with siblings, none of which is a schema keyword. */
  ghost predicate IsBareLink(f: Fields, reference: string) {
    && Look(f, Ref) == Some(Str(reference)) && |f| > 1
    && forall k: Keyword :: k != Ref ==> Look(f, k) == None
  }

  /** A schema whose only property leads to `link`. */
  ghost predicate LeadsTo(t: Fields, key: string, link: Fields) {
    && Look(t, Properties) == Some(Obj(map[key := Obj(link)]))
    && forall k: Keyword :: k != Properties ==> Look(t, k) == None
  }

  lemma LinkExpands(f: Fields, reference: string, root: Json, fuel: nat)
    requires IsBareLink(f, reference) && ResolveRef(root, reference).Some? && ResolveRef(root, reference).value.Obj?
    ensures var t := ResolveRef(root, reference).value.fields;
      EnsureNode(Obj(f), root, fuel) == if fuel == 0 then OutOfFuel
        else EnsureNode(Obj((t + f) - {Name(Ref)}), root, fuel - 1)
  {
    hide Name, ResolveRef, Assemble, EnsureParts;
    BareParts(f, root, fuel);
    assert Look(f, Default) == None;
  }

  lemma ExpandedLeadsTo(t: Fields, f: Fields, reference: string, key: string)
    requires IsBareLink(f, reference) && LeadsTo(t, key, f)
    ensures LeadsTo((t + f) - {Name(Ref)}, key, f)
  {
    NamesDiffer();
    hide Name;
    var expanded := (t + f) - {Name(Ref)};
    forall k: Keyword ensures Look(expanded, k) == if k == Ref then None else Look(t, k) {
      assert k != Ref ==> Look(f, k) == None;
    }
  }

  lemma LeadingStops(t: Fields, key: string, f: Fields, root: Json, fuel: nat)
    requires LeadsTo(t, key, f) && EnsureNode(Obj(f), root, fuel).OutOfFuel?
    ensures EnsureNode(Obj(t), root, fuel).OutOfFuel?
  {
    hide Name, Next;
    assert Look(t, Defs) == None && Look(t, Definitions) == None && Look(t, Type) == None && Look(t, Properties).Some?;
    MembersOfNone(Obj(t), EARLY, root, fuel);
    var properties: Json := Obj(map[key := Obj(f)]);
    var keys := SortedKeys(properties.fields.Keys);
    assert key in keys;
    OneKey(keys, key);
    assert keys[..0] == [];
    assert EnsureValues(properties, keys, root, fuel).OutOfFuel?;
    assert [Properties][..0] == [];
    assert EnsureMembers(Obj(t), [Properties], root, fuel).OutOfFuel?;
    assert LATE[..1] == [Properties];
    MembersStop(Obj(t), LATE, 1, root, fuel);
  }

  lemma OneKey(keys: seq<string>, key: string)
    requires key in keys && |keys| == 1
    ensures keys == [key]
  {}

  /** A link whose target leads back to it is expanded for ever: no amount of fuel is enough. */
  lemma {:induction false} CycleNeverEnds(f: Fields, reference: string, t: Fields, key: string, root: Json, fuel: nat)
    requires IsBareLink(f, reference) && LeadsTo(t, key, f) && ResolveRef(root, reference) == Some(Obj(t))
    ensures EnsureNode(Obj(f), root, fuel).OutOfFuel? && EnsureNode(Obj(t), root, fuel).OutOfFuel?
  {
    hide EnsureNode, ResolveRef, LeadsTo, IsBareLink;
    LinkExpands(f, reference, root, fuel);
    ExpandedLeadsTo(t, f, reference, key);
    if fuel > 0 {
      CycleNeverEnds(f, reference, t, key, root, fuel - 1);
      LeadingStops((t + f) - {Name(Ref)}, key, f, root, fuel - 1);
    }
    LeadingStops(t, key, f, root, fuel);
  }

  /** The rewrite of a node succeeds only if it succeeds on every node inside. */
  function Succeeds(root: Json, fuel: nat): Fields -> bool {
    f => EnsureNode(Obj(f), root, fuel).Ok?
  }

  lemma {:induction false} AllSucceed(node: Json, root: Json, fuel: nat)
    requires EnsureNode(node, root, fuel).Ok?
    ensures All(Succeeds(root, fuel), node)
    decreases node, 0
  {
    if node.Obj? {
      forall k | Holds(node.fields, k) ensures AllIn(Succeeds(root, fuel), node.fields[Name(k)], ShapeOf(k)) {
        MemberSucceeds(node, k, root, fuel);
        AllInSucceed(node.fields[Name(k)], ShapeOf(k), root, fuel);
      }
    }
  }

  lemma MemberSucceeds(node: Json, k: Keyword, root: Json, fuel: nat)
    requires node.Obj? && EnsureNode(node, root, fuel).Ok? && Holds(node.fields, k)
    ensures EnsureMember(node.fields[Name(k)], ShapeOf(k), root, fuel).Ok?
  {
    hide Next, Settle;
    PartIs(node, k, root, fuel);
  }

  /** What the parts hold for a member is what the rewrite made of it. */
  lemma PartIs(node: Json, k: Keyword, root: Json, fuel: nat)
    requires node.Obj? && EnsureParts(node, root, fuel).Ok? && Holds(node.fields, k)
    ensures var parts := EnsureParts(node, root, fuel).value;
      k in parts && EnsureMember(node.fields[Name(k)], ShapeOf(k), root, fuel) == Ok(parts[k])
  {
    hide EnsureMembers, EnsureMember, Refused;
    EveryMember(k);
    var early, late := EnsureMembers(node, EARLY, root, fuel).value, EnsureMembers(node, LATE, root, fuel).value;
    if k in LATE {
      VisitGives(node, LATE, k, root, fuel);
    } else {
      VisitGives(node, EARLY, k, root, fuel);
      VisitsOnly(node, LATE, k, root, fuel);
    }
  }

  lemma {:induction false} VisitGives(node: Json, ks: seq<Keyword>, k: Keyword, root: Json, fuel: nat)
    requires node.Obj? && EnsureMembers(node, ks, root, fuel).Ok? && k in ks && Holds(node.fields, k)
    ensures var parts := EnsureMembers(node, ks, root, fuel).value;
      k in parts && EnsureMember(node.fields[Name(k)], ShapeOf(k), root, fuel) == Ok(parts[k])
  {
    hide EnsureMember, Holds, ShapeOf, Name;
    var init := ks[..|ks| - 1];
    MembersNext(node, ks, root, fuel);
    if k != ks[|ks| - 1] {
      assert ks == init + [ks[|ks| - 1]];
      VisitGives(node, init, k, root, fuel);
    }
  }

  lemma {:induction false} VisitsOnly(node: Json, ks: seq<Keyword>, k: Keyword, root: Json, fuel: nat)
    requires node.Obj? && EnsureMembers(node, ks, root, fuel).Ok? && k !in ks
    ensures k !in EnsureMembers(node, ks, root, fuel).value
  {
    hide EnsureMember, Holds, ShapeOf, Name;
    if ks != [] {
      MembersNext(node, ks, root, fuel);
      VisitsOnly(node, ks[..|ks| - 1], k, root, fuel);
    }
  }

  lemma {:induction false} AllInSucceed(member: Json, shape: Shape, root: Json, fuel: nat)
    requires Fits(member, shape) && EnsureMember(member, shape, root, fuel).Ok?
    ensures AllIn(Succeeds(root, fuel), member, shape)
    decreases member, 1
  {
    match shape
    case Whole => AllSucceed(member, root, fuel);
    case Values =>
      forall key | key in member.fields ensures All(Succeeds(root, fuel), member.fields[key]) {
        ValueSucceeds(member, SortedKeys(member.fields.Keys), key, root, fuel);
        AllSucceed(member.fields[key], root, fuel);
      }
    case Elements =>
      forall i | 0 <= i < |member.elems| ensures All(Succeeds(root, fuel), member.elems[i]) {
        ElementSucceeds(member, member.elems, i, root, fuel);
        AllSucceed(member.elems[i], root, fuel);
      }
  }

  lemma {:induction false} ValueSucceeds(member: Json, keys: seq<string>, key: string, root: Json, fuel: nat)
    requires member.Obj? && forall k :: k in keys ==> k in member.fields
    requires EnsureValues(member, keys, root, fuel).Ok? && key in keys
    ensures EnsureNode(member.fields[key], root, fuel).Ok?
  {
    hide EnsureNode, EnsureValues;
    var init, last := keys[..|keys| - 1], keys[|keys| - 1];
    assert keys == init + [last];
    LastValueSucceeds(member, init, last, root, fuel);
    if key != last { ValueSucceeds(member, init, key, root, fuel); }
  }

  lemma LastValueSucceeds(member: Json, init: seq<string>, last: string, root: Json, fuel: nat)
    requires member.Obj? && last in member.fields && forall k :: k in init ==> k in member.fields
    requires EnsureValues(member, init + [last], root, fuel).Ok?
    ensures EnsureValues(member, init, root, fuel).Ok? && EnsureNode(member.fields[last], root, fuel).Ok?
  {
    hide EnsureNode;
    assert (init + [last])[..|init|] == init;
  }

  lemma {:induction false} ElementSucceeds(member: Json, elems: seq<Json>, i: nat, root: Json, fuel: nat)
    requires member.Arr? && elems <= member.elems && i < |elems| && EnsureElements(member, elems, root, fuel).Ok?
    ensures EnsureNode(member.elems[i], root, fuel).Ok?
    ensures i < |EnsureElements(member, elems, root, fuel).value|
         && EnsureNode(member.elems[i], root, fuel).value == EnsureElements(member, elems, root, fuel).value[i]
    ensures |EnsureElements(member, elems, root, fuel).value| == |elems|
  {
    hide EnsureNode;
    assert elems[|elems| - 1] == member.elems[|elems| - 1];
    if |elems| > 1 { ElementSucceeds(member, elems[..|elems| - 1], 0, root, fuel); }
    if i < |elems| - 1 { ElementSucceeds(member, elems[..|elems| - 1], i, root, fuel); }
  }

  function Differs(g: Fields): Fields -> bool {
    f => f != g
  }

  /** The node `g` sits somewhere below the node `t`, where the rewrite visits it. */
  ghost predicate Below(t: Fields, g: Fields) {
    exists k: Keyword :: Holds(t, k) && !AllIn(Differs(g), t[Name(k)], ShapeOf(k))
  }

  lemma BelowSucceeds(t: Fields, g: Fields, root: Json, fuel: nat)
    requires Below(t, g) && EnsureNode(Obj(t), root, fuel).Ok?
    ensures EnsureNode(Obj(g), root, fuel).Ok?
  {
    hide EnsureNode;
    AllSucceed(Obj(t), root, fuel);
    var k: Keyword :| Holds(t, k) && !AllIn(Differs(g), t[Name(k)], ShapeOf(k));
    if !Succeeds(root, fuel)(g) { AllInWeaker(Succeeds(root, fuel), Differs(g), t[Name(k)], ShapeOf(k)); }
  }

  /** A sibling of the reference that the rewrite keeps, perhaps as an alternative. */
  predicate Remains(f: Fields, name: string) {
    && name in f && name != Name(Ref) && name != Name(AllOf)
    && (name == Name(Default) ==> f[name] != Null) && (name == Name(OneOf) ==> f[name].Arr?)
  }

  /** A reference with siblings, and without an `allOf` list that might merge with them. */
  ghost predicate IsLink(f: Fields, reference: string) {
    Look(f, Ref) == Some(Str(reference)) && Look(f, AllOf) == None && exists name :: Remains(f, name)
  }

  /** The siblings of the reference leave the target's member `k` as it is. */
  predicate LeavesMember(f: Fields, k: Keyword) {
    && (k != OneOf ==> Look(f, k) == None)
    && (k == AnyOf ==> Look(f, OneOf).None? || !Look(f, OneOf).value.Arr?)
  }

  /** The target `t` of the link `f` holds the node `g` somewhere below, and not where the siblings replace it. */
  ghost predicate HeldBelow(f: Fields, t: Fields, g: Fields) {
    exists k: Keyword :: LeavesMember(f, k) && Holds(t, k) && !AllIn(Differs(g), t[Name(k)], ShapeOf(k))
  }

  /** A link's target holds the link `g` somewhere below. */
  ghost predicate LinksTo(f: Fields, g: Fields, root: Json) {
    exists reference: string, t: Fields ::
      IsLink(f, reference) && ResolveRef(root, reference) == Some(Obj(t)) && HeldBelow(f, t, g)
  }

  ghost predicate Cyclic(links: set<Fields>, root: Json) {
    forall f :: f in links ==> exists g :: g in links && LinksTo(f, g, root)
  }

  /** The sibling is still there when the reference is looked at. */
  lemma RemainingKept(p: Fields -> bool, f: Fields, parts: Parts, name: string)
    requires PartsHold(p, f, parts, EARLY + LATE) && Remains(f, name)
    ensures exists kept :: kept in Completed(f, parts) && kept != Name(Ref)
  {
    hide Completed, Assembled, AllIn;
    if k: Keyword :| Name(k) == name {
      KeywordKept(p, f, parts, k);
    } else {
      ForeignKept(f, parts, name);
    }
  }

  lemma KeywordKept(p: Fields -> bool, f: Fields, parts: Parts, k: Keyword)
    requires PartsHold(p, f, parts, EARLY + LATE) && Remains(f, Name(k))
    ensures exists kept :: kept in Completed(f, parts) && kept != Name(Ref)
  {
    hide Completed, AllIn, RequiredNames;
    NamesDiffer();
    var stays := if k == OneOf then AnyOf else k;
    CompletedLooks(f, parts, stays);
    EveryMember(OneOf);
    assert Look(Completed(f, parts), stays).Some?;
    assert Name(stays) in Completed(f, parts) && Name(stays) != Name(Ref);
  }

  lemma ForeignKept(f: Fields, parts: Parts, name: string)
    requires name in f && forall k: Keyword :: Name(k) != name
    ensures exists kept :: kept in Completed(f, parts) && kept != Name(Ref)
  {
    assert NoKeyword(name);
    ForeignStays(f, parts, name);
    assert name in Completed(f, parts) && name != Name(Ref);
  }

  lemma TwoKeys(f: Fields, a: string, b: string)
    requires a in f && b in f && a != b
    ensures |f| > 1
  {
    assert {a, b} <= f.Keys;
    assert |f.Keys - {a}| >= 1 by { assert b in f.Keys - {a}; }
  }

  /** Once its members are rewritten, a link is expanded, and its target's member is part of that. */
  lemma LinkExpanded(p: Fields -> bool, f: Fields, parts: Parts, reference: string, t: Fields, g: Fields, root: Json)
    requires PartsHold(p, f, parts, EARLY + LATE) && IsLink(f, reference) && HeldBelow(f, t, g)
    requires ResolveRef(root, reference) == Some(Obj(t))
    ensures var expanded := (t + Completed(f, parts)) - {Name(Ref)};
      Next(f, parts, root) == Again(Obj(expanded)) && Below(expanded, g)
  {
    hide Completed, ResolveRef, Assembled, PartsHold, HeldBelow, Below, Name;
    var name :| Remains(f, name);
    RemainingKept(p, f, parts, name);
    var kept :| kept in Completed(f, parts) && kept != Name(Ref);
    NothingMerges(p, f, parts);
    StillReference(f, parts, reference);
    TwoKeys(Completed(f, parts), Name(Ref), kept);
    ExpandedBelow(p, f, parts, t, g);
  }

  lemma NothingMerges(p: Fields -> bool, f: Fields, parts: Parts)
    requires PartsHold(p, f, parts, EARLY + LATE) && Look(f, AllOf) == None
    ensures !Merges(parts)
  {
    hide AllIn;
    EveryMember(AllOf);
  }

  lemma StillReference(f: Fields, parts: Parts, reference: string)
    requires Look(f, Ref) == Some(Str(reference))
    ensures Look(Completed(f, parts), Ref) == Some(Str(reference))
  {
    hide Completed;
    CompletedLooks(f, parts, Ref);
  }

  lemma MemberLeft(p: Fields -> bool, f: Fields, parts: Parts, k: Keyword)
    requires PartsHold(p, f, parts, EARLY + LATE) && Look(f, AllOf) == None
    requires LeavesMember(f, k) && !ShapeOf(k).Opaque?
    ensures Look(Completed(f, parts), k) == None
  {
    hide Completed, AllIn, Name;
    CompletedLooks(f, parts, k);
    EveryMember(k);
    EveryMember(OneOf);
  }

  lemma ExpandedBelow(p: Fields -> bool, f: Fields, parts: Parts, t: Fields, g: Fields)
    requires PartsHold(p, f, parts, EARLY + LATE) && HeldBelow(f, t, g) && Look(f, AllOf) == None
    ensures Below((t + Completed(f, parts)) - {Name(Ref)}, g)
  {
    hide Completed, AllIn, PartsHold;
    NamesDiffer();
    var k: Keyword :| LeavesMember(f, k) && Holds(t, k) && !AllIn(Differs(g), t[Name(k)], ShapeOf(k));
    MemberLeft(p, f, parts, k);
    var rest := Completed(f, parts);
    hide Name;
    var expanded := (t + rest) - {Name(Ref)};
    assert Name(k) in expanded && expanded[Name(k)] == t[Name(k)];
    assert Holds(expanded, k);
  }

  lemma LinkNeverSucceeds(f: Fields, g: Fields, root: Json, fuel: nat)
    requires LinksTo(f, g, root) && (fuel > 0 ==> !EnsureNode(Obj(g), root, fuel - 1).Ok?)
    ensures !EnsureNode(Obj(f), root, fuel).Ok?
  {
    hide EnsureNode, EnsureParts, ResolveRef, Below, HeldBelow, IsLink, Name, Next, PartsHold, Completed;
    var reference: string, t: Fields :| IsLink(f, reference) && ResolveRef(root, reference) == Some(Obj(t))
      && HeldBelow(f, t, g);
    if EnsureNode(Obj(f), root, fuel).Ok? {
      NodeNext(Obj(f), root, fuel);
      PartsStrict(Obj(f), root, fuel);
      var parts := EnsureParts(Obj(f), root, fuel).value;
      LinkExpanded(StrictAt(root), f, parts, reference, t, g, root);
      BelowSucceeds((t + Completed(f, parts)) - {Name(Ref)}, g, root, fuel - 1);
    }
  }

  /** Links that lead to each other, one or many, directly or through anything in between, are never
      rewritten: with any amount of fuel the rewrite is still going on, or has been refused. */
  lemma {:induction false} CyclesNeverSucceed(links: set<Fields>, root: Json, fuel: nat, f: Fields)
    requires Cyclic(links, root) && f in links
    ensures !EnsureNode(Obj(f), root, fuel).Ok?
  {
    hide EnsureNode, LinksTo, Cyclic;
    var g := NextLink(links, root, f);
    if fuel > 0 { CyclesNeverSucceed(links, root, fuel - 1, g); }
    LinkNeverSucceeds(f, g, root, fuel);
  }

  lemma NextLink(links: set<Fields>, root: Json, f: Fields) returns (g: Fields)
    requires Cyclic(links, root) && f in links
    ensures g in links && LinksTo(f, g, root)
  {
    hide LinksTo;
    g :| g in links && LinksTo(f, g, root);
  }

  // A list node whose `next` property refers to the list node, with a description beside the reference.
  const LINK := Obj(map[Name(Ref) := Str("#/$defs/n"), "description" := Str("the next node")])
  const LINKED := Obj(map[Name(Properties) := Obj(map["next" := LINK])])
  const LIST_SCHEMA := Obj(map[Name(Defs) := Obj(map["n" := LINKED])])

  lemma LinkResolves()
    ensures ResolveRef(LIST_SCHEMA, "#/$defs/n") == Some(LINKED)
  {
    hide ResolveRef;
    assert "#/$defs/n" == "#/" + ("$defs" + "/" + "n");
    TwoSteps(LIST_SCHEMA, "$defs", "n", Obj(map["n" := LINKED]), LINKED);
  }

  lemma LinkLooks(k: Keyword)
    ensures Look(LINK.fields, k) == if k == Ref then Some(Str("#/$defs/n")) else None
  {
    NamesDiffer();
    assert Name(k)[2] != "description"[2];
  }

  /** A recursive list schema is one such cycle. */
  lemma ListSchemaNeverEnds(fuel: nat)
    ensures EnsureNode(LINKED, LIST_SCHEMA, fuel).OutOfFuel?
  {
    hide EnsureNode;
    LinkResolves();
    NamesDiffer();
    forall k: Keyword ensures Look(LINK.fields, k) == if k == Ref then Some(Str("#/$defs/n")) else None {
      LinkLooks(k);
    }
    assert LINK.fields.Keys == {Name(Ref), "description"};
    hide Name;
    CycleNeverEnds(LINK.fields, "#/$defs/n", LINKED.fields, "next", LIST_SCHEMA, fuel);
  }

  // ---- the rewrite, step by step ----

  /** What one more member adds to the members rewritten so far. */
  lemma VisitNext(node: Json, ks: seq<Keyword>, n: nat, root: Json, fuel: nat)
    requires node.Obj? && n < |ks| && EnsureMembers(node, ks[..n], root, fuel).Ok?
    ensures var parts := EnsureMembers(node, ks[..n], root, fuel).value;
      EnsureMembers(node, ks[..n + 1], root, fuel) ==
      if !Holds(node.fields, ks[n]) then Ok(parts)
      else match EnsureMember(node.fields[Name(ks[n])], ShapeOf(ks[n]), root, fuel)
        case Ok(part) => Ok(parts[ks[n] := part])
        case Failed(error) => Failed(error)
        case OutOfFuel => OutOfFuel
  {
    assert ks[..n + 1][..n] == ks[..n];
  }

  lemma {:induction false} StopsHere(node: Json, ks: seq<Keyword>, n: nat, root: Json, fuel: nat)
    requires node.Obj? && n <= |ks| && !EnsureMembers(node, ks[..n], root, fuel).Ok?
    ensures EnsureMembers(node, ks, root, fuel) == EnsureMembers(node, ks[..n], root, fuel)
  {
    if n < |ks| {
      assert ks[..|ks| - 1][..n] == ks[..n];
      StopsHere(node, ks[..|ks| - 1], n, root, fuel);
    } else {
      assert ks[..n] == ks;
    }
  }

  method RewriteMembers(node: Json, ks: seq<Keyword>, root: Json, fuel: nat) returns (r: Outcome<Parts>)
    requires node.Obj?
    ensures r == EnsureMembers(node, ks, root, fuel)
    decreases fuel, node, 1, 0, |ks|
  {
    var parts: Parts := map[];
    for n := 0 to |ks|
      invariant EnsureMembers(node, ks[..n], root, fuel) == Ok(parts)
    {
      VisitNext(node, ks, n, root, fuel);
      if Holds(node.fields, ks[n]) {
        var part := RewriteMember(node.fields[Name(ks[n])], ShapeOf(ks[n]), root, fuel);
        if !part.Ok? {
          StopsHere(node, ks, n + 1, root, fuel);
          return part.PropagateFailure();
        }
        parts := parts[ks[n] := part.value];
      }
    }
    assert ks[..|ks|] == ks;
    r := Ok(parts);
  }

  method RewriteMember(member: Json, shape: Shape, root: Json, fuel: nat) returns (r: Outcome<Json>)
    requires Fits(member, shape)
    ensures r == EnsureMember(member, shape, root, fuel)
    decreases fuel, member, 3, 0
  {
    match shape
    case Whole =>
      r := RewriteNode(member, root, fuel);
    case Values =>
      var fields := RewriteValues(member, SortedKeys(member.fields.Keys), root, fuel);
      r := if fields.Ok? then Ok(Obj(fields.value)) else fields.PropagateFailure();
    case Elements =>
      var elems := RewriteElements(member, root, fuel);
      r := if elems.Ok? then Ok(Arr(elems.value)) else elems.PropagateFailure();
  }

  lemma {:induction false} ValuesStop(member: Json, keys: seq<string>, n: nat, root: Json, fuel: nat)
    requires member.Obj? && (forall key :: key in keys ==> key in member.fields) && n <= |keys|
    requires !EnsureValues(member, keys[..n], root, fuel).Ok?
    ensures EnsureValues(member, keys, root, fuel) == EnsureValues(member, keys[..n], root, fuel)
  {
    if n < |keys| {
      assert keys[..|keys| - 1][..n] == keys[..n];
      ValuesStop(member, keys[..|keys| - 1], n, root, fuel);
    } else {
      assert keys[..n] == keys;
    }
  }

  lemma ValuesNext(member: Json, keys: seq<string>, n: nat, root: Json, fuel: nat)
    requires member.Obj? && (forall key :: key in keys ==> key in member.fields) && n < |keys|
    requires EnsureValues(member, keys[..n], root, fuel).Ok?
    ensures EnsureValues(member, keys[..n + 1], root, fuel) ==
      match EnsureNode(member.fields[keys[n]], root, fuel)
      case Ok(value) => Ok(EnsureValues(member, keys[..n], root, fuel).value[keys[n] := value])
      case Failed(error) => Failed(error)
      case OutOfFuel => OutOfFuel
  {
    hide EnsureParts, Next;
    assert keys[..n + 1][..n] == keys[..n];
  }

  method RewriteValues(member: Json, keys: seq<string>, root: Json, fuel: nat) returns (r: Outcome<Fields>)
    requires member.Obj? && forall key :: key in keys ==> key in member.fields
    ensures r == EnsureValues(member, keys, root, fuel)
    decreases fuel, member, 1, |keys|
  {
    hide EnsureNode, EnsureParts, Next;
    var fields := member.fields;
    for n := 0 to |keys|
      invariant EnsureValues(member, keys[..n], root, fuel) == Ok(fields)
    {
      ValuesNext(member, keys, n, root, fuel);
      var value := RewriteNode(member.fields[keys[n]], root, fuel);
      if !value.Ok? {
        ValuesStop(member, keys, n + 1, root, fuel);
        return value.PropagateFailure();
      }
      fields := fields[keys[n] := value.value];
    }
    assert keys[..|keys|] == keys;
    r := Ok(fields);
  }

  lemma {:induction false} ElementsStop(member: Json, elems: seq<Json>, n: nat, root: Json, fuel: nat)
    requires member.Arr? && elems <= member.elems && n <= |elems|
    requires !EnsureElements(member, elems[..n], root, fuel).Ok?
    ensures EnsureElements(member, elems, root, fuel) == EnsureElements(member, elems[..n], root, fuel)
  {
    if n < |elems| {
      assert elems[..|elems| - 1][..n] == elems[..n];
      ElementsStop(member, elems[..|elems| - 1], n, root, fuel);
    } else {
      assert elems[..n] == elems;
    }
  }

  lemma ElementsNext(member: Json, n: nat, root: Json, fuel: nat)
    requires member.Arr? && n < |member.elems| && EnsureElements(member, member.elems[..n], root, fuel).Ok?
    ensures EnsureElements(member, member.elems[..n + 1], root, fuel) ==
      match EnsureNode(member.elems[n], root, fuel)
      case Ok(element) => Ok(EnsureElements(member, member.elems[..n], root, fuel).value + [element])
      case Failed(error) => Failed(error)
      case OutOfFuel => OutOfFuel
  {
    assert member.elems[..n + 1][..n] == member.elems[..n];
    hide EnsureParts, Next;
  }

  method RewriteElements(member: Json, root: Json, fuel: nat) returns (r: Outcome<seq<Json>>)
    requires member.Arr?
    ensures r == EnsureElements(member, member.elems, root, fuel)
    decreases fuel, member, 1
  {
    hide EnsureNode, EnsureParts, Next;
    var normalized: seq<Json> := [];
    for n := 0 to |member.elems|
      invariant EnsureElements(member, member.elems[..n], root, fuel) == Ok(normalized)
    {
      ElementsNext(member, n, root, fuel);
      var element := RewriteNode(member.elems[n], root, fuel);
      if !element.Ok? {
        ElementsStop(member, member.elems, n + 1, root, fuel);
        return element.PropagateFailure();
      }
      normalized := normalized + [element.value];
    }
    assert member.elems[..|member.elems|] == member.elems;
    r := Ok(normalized);
  }

  lemma {:induction false} MembersOnly(node: Json, ks: seq<Keyword>, root: Json, fuel: nat)
    requires node.Obj? && EnsureMembers(node, ks, root, fuel).Ok?
    ensures forall k :: k in EnsureMembers(node, ks, root, fuel).value ==> k in ks
  {
    if ks != [] { MembersOnly(node, ks[..|ks| - 1], root, fuel); }
  }

  method CloseNode(f: Fields, early: Parts) returns (r: Outcome<Fields>)
    ensures r == if Refused(f) then Failed(AdditionalPropertiesOpen)
                 else Ok(RequireAll(Close(Put(Put(f, early, Defs), early, Definitions))))
  {
    hide RequiredNames;
    var fields := f;
    if Defs in early { fields := fields[Name(Defs) := early[Defs]]; }
    if Definitions in early { fields := fields[Name(Definitions) := early[Definitions]]; }
    RefusedStill(f, early);
    if IsObjectType(fields) {
      if Look(fields, AdditionalProperties) == None {
        fields := fields[Name(AdditionalProperties) := Bool(false)];
      } else if Look(fields, AdditionalProperties) == Some(Bool(true)) {
        return Failed(AdditionalPropertiesOpen);
      }
    }
    if Look(fields, Properties).Some? {
      fields := fields[Name(Required) := RequiredNames(Look(fields, Properties).value)];
    }
    r := Ok(fields);
  }

  method FillNode(closed: Fields, late: Parts) returns (fields: Fields)
    ensures fields == FoldOneOf(Put(Put(Put(closed, late, Properties), late, Items), late, AnyOf), late) - {Name(AllOf)}
  {
    fields := closed;
    if Properties in late { fields := fields[Name(Properties) := late[Properties]]; }
    if Items in late { fields := fields[Name(Items) := late[Items]]; }
    if AnyOf in late { fields := fields[Name(AnyOf) := late[AnyOf]]; }
    fields := fields - {Name(OneOf)};
    if OneOf in late && late[OneOf].Arr? {
      if Look(fields, AnyOf) == None { fields := fields[Name(AnyOf) := Arr([])]; }
      if Look(fields, AnyOf).value.Arr? {
        var elems := Look(fields, AnyOf).value.elems;
        assert [] + late[OneOf].elems == late[OneOf].elems;
        fields := fields[Name(AnyOf) := Arr(elems + late[OneOf].elems)];
      }
    }
    fields := fields - {Name(AllOf)};
  }

  method ConcludeNode(filled: Fields, late: Parts, root: Json) returns (verdict: Verdict)
    ensures verdict
         == if AllOf in late && late[AllOf].Arr? && |late[AllOf].elems| == 1
            then Again(Obj(Merge(filled, late[AllOf].elems[0])))
            else Expand(DropNullDefault(Put(filled, late, AllOf)), root)
  {
    hide Expand;
    var fields := filled;
    if AllOf in late && late[AllOf].Arr? {
      if |late[AllOf].elems| == 1 {
        var merged := late[AllOf].elems[0];
        if merged.Obj? { fields := fields + merged.fields; }
        return Again(Obj(fields));
      }
    }
    if AllOf in late { fields := fields[Name(AllOf) := late[AllOf]]; }
    if Look(fields, Default) == Some(Null) { fields := fields - {Name(Default)}; }
    verdict := Expand(fields, root);
  }

  /** The node's own members change one after the other while its subschemas are rewritten. */
  method RewriteNode(node: Json, root: Json, fuel: nat) returns (r: Outcome<Json>)
    ensures r == EnsureNode(node, root, fuel)
    decreases fuel, node, 2, 0
  {
    hide EnsureMembers, Assemble, FoldOneOf, Put, Merge, Expand, DropNullDefault;
    if !node.Obj? { return Ok(node); }
    var early := RewriteMembers(node, EARLY, root, fuel);
    if !early.Ok? { return early.PropagateFailure(); }
    var closed := CloseNode(node.fields, early.value);
    if !closed.Ok? { return closed.PropagateFailure(); }
    var late := RewriteMembers(node, LATE, root, fuel);
    if !late.Ok? { return late.PropagateFailure(); }
    var filled := FillNode(closed.value, late.value);
    var verdict := ConcludeNode(filled, late.value, root);
    NextInSteps(node, early.value, late.value, filled, root, fuel);
    match verdict
    case Done(fields) => r := Ok(Obj(fields));
    case Unresolved(reference) => r := Failed(UnresolvedReference(reference));
    case Again(again) =>
      if fuel == 0 { return OutOfFuel; }
      r := RewriteNode(again, root, fuel - 1);
  }

  lemma RefusedStill(f: Fields, early: Parts)
    ensures Refused(Put(Put(f, early, Defs), early, Definitions)) == Refused(f)
  {
    PutLooks(f, early, Defs, Type);
    PutLooks(f, early, Defs, AdditionalProperties);
    PutLooks(Put(f, early, Defs), early, Definitions, Type);
    PutLooks(Put(f, early, Defs), early, Definitions, AdditionalProperties);
  }

  lemma PartsTogether(early: Parts, late: Parts, f: Fields, k: Keyword)
    requires (forall j :: j in early ==> j in EARLY) && (forall j :: j in late ==> j in LATE)
    ensures k in EARLY ==> Put(f, early + late, k) == Put(f, early, k)
    ensures k in LATE ==> Put(f, early + late, k) == Put(f, late, k) && (k in early + late <==> k in late)
    ensures k in LATE && k in late ==> (early + late)[k] == late[k]
  {
    hide Name;
    EarlyOrLate(k);
  }

  lemma EarlyOrLate(k: Keyword)
    ensures !(k in EARLY && k in LATE)
  {
    assert EARLY[0] == Defs && EARLY[1] == Definitions;
  }

  lemma NextInSteps(node: Json, early: Parts, late: Parts, filled: Fields, root: Json, fuel: nat)
    requires node.Obj?
    requires EnsureMembers(node, EARLY, root, fuel) == Ok(early) && EnsureMembers(node, LATE, root, fuel) == Ok(late)
    requires var closed := RequireAll(Close(Put(Put(node.fields, early, Defs), early, Definitions)));
      filled == FoldOneOf(Put(Put(Put(closed, late, Properties), late, Items), late, AnyOf), late) - {Name(AllOf)}
    ensures Next(node.fields, early + late, root)
         == if AllOf in late && late[AllOf].Arr? && |late[AllOf].elems| == 1
            then Again(Obj(Merge(filled, late[AllOf].elems[0])))
            else Expand(DropNullDefault(Put(filled, late, AllOf)), root)
  {
    hide EnsureMembers, Close, RequireAll, Put, Expand, DropNullDefault, Merge;
    MembersOnly(node, EARLY, root, fuel);
    MembersOnly(node, LATE, root, fuel);
    var parts := early + late;
    forall f, k ensures (k in EARLY ==> Put(f, parts, k) == Put(f, early, k))
      && (k in LATE ==> Put(f, parts, k) == Put(f, late, k)) {
      PartsTogether(early, late, f, k);
    }
    PartsTogether(early, late, filled, OneOf);
    PartsTogether(early, late, filled, AllOf);
    assert Assemble(node.fields, parts) == filled;
  }
}
