/** Which of the items a session callback returns are new and must be persisted. */
module SessionPersistence {
  import opened Items

  const SIDECAR_PREFIX := "__agents_internal_empty_object_identity_"

  /** Identities minted while seeding; each has a text of its own. */
  type SeedId = nat

  function SentinelKey(id: SeedId): string {
    SIDECAR_PREFIX + seq(id, _ => '0') + "__"
  }

  lemma SentinelKeysDiffer(a: SeedId, b: SeedId)
    requires a != b
    ensures SentinelKey(a) != SentinelKey(b)
  {
    assert |SentinelKey(a)| == |SIDECAR_PREFIX| + a + 2;
    assert |SentinelKey(b)| == |SIDECAR_PREFIX| + b + 2;
  }

  const EMPTY_OBJECT := JsonItem(Obj(map[]))

  type Sidecars = map<string, SeedId>

  datatype ItemIdentity =
    | TextHash(hash: nat)
    | JsonStringHash(hash: nat)
    | JsonArrayHash(hash: nat)
    | EmptyJsonObject(id: SeedId)
    | JsonObjectHash(hash: nat)

  // ---- seeding empty objects ----

  function Seeded(id: SeedId): InputItem {
    JsonItem(Obj(map[SentinelKey(id) := Str(SentinelKey(id))]))
  }

  datatype Seeding = Seeding(items: seq<InputItem>, sidecars: Sidecars, next: SeedId)

  /** Gives every empty object a hidden member of its own, so that copies can be told apart. */
  function SeedEmptyObjects(items: seq<InputItem>, sidecars: Sidecars, next: SeedId): (r: Seeding)
    ensures |r.items| == |items| && next <= r.next
  {
    if items == [] then Seeding([], sidecars, next)
    else
      var rest := SeedEmptyObjects(items[..|items| - 1], sidecars, next);
      var last := items[|items| - 1];
      if last == EMPTY_OBJECT then
        Seeding(rest.items + [Seeded(rest.next)], rest.sidecars[SentinelKey(rest.next) := rest.next], rest.next + 1)
      else Seeding(rest.items + [last], rest.sidecars, rest.next)
  }

  /** The seed a one-member object carries. */
  function EmptyObjectIdentity(item: InputItem, sidecars: Sidecars): Option<SeedId> {
    if item.JsonItem? && item.value.Obj? && |item.value.fields| == 1 then
      SingleMemberSeed(item.value.fields, sidecars)
    else None
  }

  function SingleMemberSeed(fields: map<string, Json>, sidecars: Sidecars): Option<SeedId>
    requires |fields| == 1
  {
    OnlyKeyUnique(fields);
    var key :| key in fields;
    if key in sidecars && fields[key] == Str(key) then Some(sidecars[key]) else None
  }

  lemma OnlyKeyUnique(fields: map<string, Json>)
    requires |fields| == 1
    ensures exists key :: key in fields
    ensures forall a, b :: a in fields && b in fields ==> a == b
  {
    var key :| key in fields.Keys;
    assert |fields.Keys - {key}| == 0;
    assert forall other :: other in fields.Keys && other != key ==> other in fields.Keys - {key};
  }

  function Strip(item: InputItem, sidecars: Sidecars): InputItem {
    if EmptyObjectIdentity(item, sidecars).Some? then EMPTY_OBJECT else item
  }

  function StripAll(items: seq<InputItem>, sidecars: Sidecars): (r: seq<InputItem>)
    ensures |r| == |items| && forall i :: 0 <= i < |r| ==> r[i] == Strip(items[i], sidecars)
  {
    seq(|items|, i requires 0 <= i < |items| => Strip(items[i], sidecars))
  }

  /** Numbers, booleans, null and unseeded empty objects have no identity. */
  function Identity(item: InputItem, sidecars: Sidecars, hash: InputItem -> nat): Option<ItemIdentity> {
    match item
    case Text(_) => Some(TextHash(hash(item)))
    case JsonItem(Str(_)) => Some(JsonStringHash(hash(item)))
    case JsonItem(Arr(_)) => Some(JsonArrayHash(hash(item)))
    case JsonItem(Obj(fields)) =>
      if EmptyObjectIdentity(item, sidecars).Some? then Some(EmptyJsonObject(EmptyObjectIdentity(item, sidecars).value))
      else if fields == map[] then None
      else Some(JsonObjectHash(hash(item)))
    case JsonItem(_) => None
  }

  predicate PrefersNewFrequencyMatch(item: InputItem) {
    match item
    case JsonItem(Null) => true
    case JsonItem(Bool(_)) => true
    case JsonItem(Num(_)) => true
    case JsonItem(Obj(fields)) => fields == map[]
    case _ => false
  }

  // ---- reference and frequency maps ----

  type References = map<InputItem, seq<ItemIdentity>>
  type Frequencies = map<InputItem, nat>

  function RefsOf(refs: References, key: InputItem): seq<ItemIdentity> {
    if key in refs then refs[key] else []
  }

  function CountOf(counts: Frequencies, key: InputItem): nat {
    if key in counts then counts[key] else 0
  }

  function AddReference(refs: References, key: InputItem, identity: Option<ItemIdentity>): References {
    match identity
    case None => refs
    case Some(id) => refs[key := RefsOf(refs, key) + [id]]
  }

  function ReferenceMap(items: seq<InputItem>, sidecars: Sidecars, hash: InputItem -> nat): References {
    if items == [] then map[]
    else
      var last := items[|items| - 1];
      AddReference(ReferenceMap(items[..|items| - 1], sidecars, hash), Strip(last, sidecars),
        Identity(last, sidecars, hash))
  }

  function FrequencyMap(items: seq<InputItem>, sidecars: Sidecars): Frequencies {
    if items == [] then map[]
    else
      var rest := FrequencyMap(items[..|items| - 1], sidecars);
      var key := Strip(items[|items| - 1], sidecars);
      rest[key := CountOf(rest, key) + 1]
  }

  function DropFirst(ids: seq<ItemIdentity>, id: ItemIdentity): seq<ItemIdentity> {
    if ids == [] then [] else if ids[0] == id then ids[1..] else [ids[0]] + DropFirst(ids[1..], id)
  }

  predicate CanConsume(refs: References, key: InputItem, identity: Option<ItemIdentity>) {
    identity.Some? && identity.value in RefsOf(refs, key)
  }

  function ConsumeReference(refs: References, key: InputItem, identity: ItemIdentity): References {
    var rest := DropFirst(RefsOf(refs, key), identity);
    if rest == [] then refs - {key} else refs[key := rest]
  }

  function DecrementCount(counts: Frequencies, key: InputItem): Frequencies {
    if key in counts then counts[key := if counts[key] == 0 then 0 else counts[key] - 1] else counts
  }

  // ---- the classification loop ----

  datatype Books = Books(newRefs: References, historyRefs: References, newCounts: Frequencies,
                         historyCounts: Frequencies, persisted: seq<InputItem>)

  /** An item taken against the new input is persisted. */
  function TakeNew(b: Books, key: InputItem): Books {
    b.(newCounts := DecrementCount(b.newCounts, key), persisted := b.persisted + [key])
  }

  function TakeHistory(b: Books, key: InputItem): Books {
    b.(historyCounts := DecrementCount(b.historyCounts, key))
  }

  /** One item: by identity against the new input, then the history; else by frequency, the new input
      first only for items that never have an identity; else it is new. */
  function File(b: Books, key: InputItem, identity: Option<ItemIdentity>, newFirst: bool): Books {
    if CanConsume(b.newRefs, key, identity) then
      TakeNew(b.(newRefs := ConsumeReference(b.newRefs, key, identity.value)), key)
    else if CanConsume(b.historyRefs, key, identity) then
      TakeHistory(b.(historyRefs := ConsumeReference(b.historyRefs, key, identity.value)), key)
    else if newFirst then
      if CountOf(b.newCounts, key) > 0 then TakeNew(b, key)
      else if CountOf(b.historyCounts, key) > 0 then TakeHistory(b, key)
      else b.(persisted := b.persisted + [key])
    else
      if CountOf(b.historyCounts, key) > 0 then TakeHistory(b, key)
      else if CountOf(b.newCounts, key) > 0 then TakeNew(b, key)
      else b.(persisted := b.persisted + [key])
  }

  function Classify(b: Books, item: InputItem, sidecars: Sidecars, hash: InputItem -> nat): Books {
    File(b, Strip(item, sidecars), Identity(item, sidecars, hash), PrefersNewFrequencyMatch(item))
  }

  function OpenBooks(history: seq<InputItem>, newItems: seq<InputItem>, sidecars: Sidecars,
                     hash: InputItem -> nat): Books {
    Books(ReferenceMap(newItems, sidecars, hash), ReferenceMap(history, sidecars, hash),
          FrequencyMap(newItems, sidecars), FrequencyMap(history, sidecars), [])
  }

  function Classifier(sidecars: Sidecars, hash: InputItem -> nat): (Books, InputItem) -> Books {
    (b, item) => Classify(b, item, sidecars, hash)
  }

  function Fold<S, A>(step: (S, A) -> S, s: S, items: seq<A>): S {
    if items == [] then s else step(Fold(step, s, items[..|items| - 1]), items[|items| - 1])
  }

  function ClassifyAll(b: Books, combined: seq<InputItem>, sidecars: Sidecars, hash: InputItem -> nat): Books {
    Fold(Classifier(sidecars, hash), b, combined)
  }

  // ---- one content at a time ----

  function Count<T(==)>(items: seq<T>, x: T): nat {
    if items == [] then 0 else Count(items[..|items| - 1], x) + (if items[|items| - 1] == x then 1 else 0)
  }

  lemma {:induction false} CountIsMultiplicity<T>(items: seq<T>, x: T)
    ensures Count(items, x) == multiset(items)[x]
  {
    if items != [] {
      CountIsMultiplicity(items[..|items| - 1], x);
      assert items == items[..|items| - 1] + [items[|items| - 1]];
    }
  }

  lemma StripOther(item: InputItem, key: InputItem, sidecars: Sidecars)
    requires key != EMPTY_OBJECT && Strip(item, sidecars) == key
    ensures item == key
  {}

  lemma AddReferenceRefs(refs: References, key: InputItem, identity: Option<ItemIdentity>, other: InputItem)
    ensures RefsOf(AddReference(refs, key, identity), other)
         == if other == key && identity.Some? then RefsOf(refs, other) + [identity.value] else RefsOf(refs, other)
  {}

  lemma {:induction false} ReferencesCounted(items: seq<InputItem>, sidecars: Sidecars, hash: InputItem -> nat,
                                             key: InputItem)
    requires key != EMPTY_OBJECT && Strip(key, sidecars) == key
    ensures Own(RefsOf(ReferenceMap(items, sidecars, hash), key), Identity(key, sidecars, hash))
    ensures |RefsOf(ReferenceMap(items, sidecars, hash), key)|
         == if Identity(key, sidecars, hash).Some? then Count(items, key) else 0
  {
    if items != [] {
      ReferencesCounted(items[..|items| - 1], sidecars, hash, key);
      var last := items[|items| - 1];
      AddReferenceRefs(ReferenceMap(items[..|items| - 1], sidecars, hash), Strip(last, sidecars),
        Identity(last, sidecars, hash), key);
      if Strip(last, sidecars) == key { StripOther(last, key, sidecars); }
    }
  }

  lemma {:induction false} FrequenciesCounted(items: seq<InputItem>, sidecars: Sidecars, key: InputItem)
    requires key != EMPTY_OBJECT && Strip(key, sidecars) == key
    ensures CountOf(FrequencyMap(items, sidecars), key) == Count(items, key)
  {
    if items != [] {
      FrequenciesCounted(items[..|items| - 1], sidecars, key);
      var last := items[|items| - 1];
      if Strip(last, sidecars) == key { StripOther(last, key, sidecars); }
    }
  }

  lemma {:induction false} DropFirstOne(ids: seq<ItemIdentity>, id: ItemIdentity)
    requires id in ids
    ensures |DropFirst(ids, id)| == |ids| - 1
    ensures forall x :: x in DropFirst(ids, id) ==> x in ids
  {
    if ids[0] != id { DropFirstOne(ids[1..], id); }
  }

  lemma CountPush(items: seq<InputItem>, x: InputItem, key: InputItem)
    ensures Count(items + [x], key) == Count(items, key) + (if x == key then 1 else 0)
  {
    assert (items + [x])[..|items|] == items;
  }

  /** How many of `c` returned copies of a content are persisted, with `n` in the new input and `h`
      in the history. */
  function ClosedForm(c: int, n: int, h: int): int {
    Min(c, n) + Max(0, c - n - h)
  }

  /** The part of the books that concerns one content. */
  datatype Page = Page(newRefs: seq<ItemIdentity>, historyRefs: seq<ItemIdentity>, newCount: nat, historyCount: nat,
    persisted: nat)

  function PageOf(b: Books, key: InputItem): Page {
    Page(RefsOf(b.newRefs, key), RefsOf(b.historyRefs, key), CountOf(b.newCounts, key), CountOf(b.historyCounts, key),
         Count(b.persisted, key))
  }

  function Less(n: nat): nat { if n == 0 then 0 else n - 1 }

  function New(p: Page): Page { p.(newCount := Less(p.newCount), persisted := p.persisted + 1) }

  function Old(p: Page): Page { p.(historyCount := Less(p.historyCount)) }

  lemma ConsumeRefs(refs: References, key: InputItem, identity: ItemIdentity, other: InputItem)
    ensures RefsOf(ConsumeReference(refs, key, identity), other)
         == if other == key then DropFirst(RefsOf(refs, key), identity) else RefsOf(refs, other)
  {}

  lemma DecrementCounts(counts: Frequencies, key: InputItem, other: InputItem)
    ensures CountOf(DecrementCount(counts, key), other)
         == if other == key then Less(CountOf(counts, key)) else CountOf(counts, other)
  {}

  lemma TakeNewPage(b: Books, key: InputItem, other: InputItem)
    ensures PageOf(TakeNew(b, key), other) == if other == key then New(PageOf(b, key)) else PageOf(b, other)
  {
    DecrementCounts(b.newCounts, key, other);
    CountPush(b.persisted, key, other);
  }

  lemma TakeHistoryPage(b: Books, key: InputItem, other: InputItem)
    ensures PageOf(TakeHistory(b, key), other) == if other == key then Old(PageOf(b, key)) else PageOf(b, other)
  {
    DecrementCounts(b.historyCounts, key, other);
  }

  /** Filing an item, seen from the page of its own content. */
  function FileOnPage(p: Page, identity: Option<ItemIdentity>, newFirst: bool): Page {
    if identity.Some? && identity.value in p.newRefs then New(p.(newRefs := DropFirst(p.newRefs, identity.value)))
    else if identity.Some? && identity.value in p.historyRefs then
      Old(p.(historyRefs := DropFirst(p.historyRefs, identity.value)))
    else if newFirst && p.newCount > 0 then New(p)
    else if p.historyCount > 0 then Old(p)
    else if p.newCount > 0 then New(p)
    else p.(persisted := p.persisted + 1)
  }

  lemma FileByIdentityPage(b: Books, key: InputItem, identity: Option<ItemIdentity>, newFirst: bool, other: InputItem)
    requires CanConsume(b.newRefs, key, identity) || CanConsume(b.historyRefs, key, identity)
    ensures PageOf(File(b, key, identity, newFirst), other)
         == if other == key then FileOnPage(PageOf(b, key), identity, newFirst) else PageOf(b, other)
  {
    if CanConsume(b.newRefs, key, identity) {
      ConsumeRefs(b.newRefs, key, identity.value, other);
      TakeNewPage(b.(newRefs := ConsumeReference(b.newRefs, key, identity.value)), key, other);
    } else {
      ConsumeRefs(b.historyRefs, key, identity.value, other);
      TakeHistoryPage(b.(historyRefs := ConsumeReference(b.historyRefs, key, identity.value)), key, other);
    }
  }

  lemma FilePage(b: Books, key: InputItem, identity: Option<ItemIdentity>, newFirst: bool, other: InputItem)
    ensures PageOf(File(b, key, identity, newFirst), other)
         == if other == key then FileOnPage(PageOf(b, key), identity, newFirst) else PageOf(b, other)
  {
    if CanConsume(b.newRefs, key, identity) || CanConsume(b.historyRefs, key, identity) {
      FileByIdentityPage(b, key, identity, newFirst, other);
    } else {
      TakeNewPage(b, key, other);
      TakeHistoryPage(b, key, other);
      CountPush(b.persisted, key, other);
    }
  }

  /** All references on a page are its own identity. */
  ghost predicate Own(ids: seq<ItemIdentity>, identity: Option<ItemIdentity>) {
    forall id :: id in ids ==> identity == Some(id)
  }

  /** Where a page stands after `c` copies of its content: `n` were new input, `h` history. */
  ghost predicate Balanced(p: Page, identity: Option<ItemIdentity>, n: nat, h: nat, c: nat) {
    && Own(p.newRefs, identity) && Own(p.historyRefs, identity)
    && p.newCount == Max(0, n - c)
    && p.historyCount == Max(0, h - Max(0, c - n))
    && |p.newRefs| == (if identity.Some? then p.newCount else 0)
    && |p.historyRefs| == (if identity.Some? then p.historyCount else 0)
    && p.persisted == ClosedForm(c, n, h)
  }

  lemma OwnPresent(ids: seq<ItemIdentity>, identity: Option<ItemIdentity>)
    requires Own(ids, identity)
    ensures identity.Some? && identity.value in ids <==> ids != []
    ensures ids != [] ==> |DropFirst(ids, identity.value)| == |ids| - 1 && Own(DropFirst(ids, identity.value), identity)
  {
    if ids != [] {
      assert ids[0] in ids;
      DropFirstOne(ids, identity.value);
    }
  }

  lemma FileOwn(p: Page, identity: Option<ItemIdentity>, n: nat, h: nat, c: nat)
    requires Balanced(p, identity, n, h, c)
    ensures Balanced(FileOnPage(p, identity, identity.None?), identity, n, h, c + 1)
  {
    OwnPresent(p.newRefs, identity);
    OwnPresent(p.historyRefs, identity);
  }

  lemma IdentityOrFrequency(key: InputItem, sidecars: Sidecars, hash: InputItem -> nat)
    requires key != EMPTY_OBJECT
    ensures PrefersNewFrequencyMatch(key) <==> Identity(key, sidecars, hash).None?
  {}

  function Repeat<V>(turn: V -> V, v: V, times: nat): V {
    if times == 0 then v else turn(Repeat(turn, v, times - 1))
  }

  /** A view that only one element changes follows from the number of its occurrences. */
  lemma {:induction false} FoldFollows<S(!new), A(!new), V>(step: (S, A) -> S, view: S -> V, turn: V -> V, key: A,
                                         s: S, items: seq<A>)
    requires forall t, a :: view(step(t, a)) == if a == key then turn(view(t)) else view(t)
    ensures view(Fold(step, s, items)) == Repeat(turn, view(s), Count(items, key))
  {
    if items != [] {
      FoldFollows(step, view, turn, key, s, items[..|items| - 1]);
    }
  }

  function Turn(identity: Option<ItemIdentity>): Page -> Page {
    p => FileOnPage(p, identity, identity.None?)
  }

  lemma ClassifyPage(b: Books, item: InputItem, sidecars: Sidecars, hash: InputItem -> nat, key: InputItem)
    requires key != EMPTY_OBJECT && Strip(key, sidecars) == key
    ensures PageOf(Classify(b, item, sidecars, hash), key)
         == if item == key then FileOnPage(PageOf(b, key), Identity(key, sidecars, hash),
           Identity(key, sidecars, hash).None?) else PageOf(b, key)
  {
    FilePage(b, Strip(item, sidecars), Identity(item, sidecars, hash), PrefersNewFrequencyMatch(item), key);
    if item == key {
      IdentityOrFrequency(key, sidecars, hash);
    } else if Strip(item, sidecars) == key {
      StripOther(item, key, sidecars);
    }
  }

  /** Only the copies of a content touch its page. */
  lemma ClassifyAllPage(b: Books, combined: seq<InputItem>, sidecars: Sidecars, hash: InputItem -> nat, key: InputItem)
    requires key != EMPTY_OBJECT && Strip(key, sidecars) == key
    ensures PageOf(ClassifyAll(b, combined, sidecars, hash), key)
         == Repeat(Turn(Identity(key, sidecars, hash)), PageOf(b, key), Count(combined, key))
  {
    var step, view, turn := Classifier(sidecars, hash), (t: Books) =>
      PageOf(t, key), Turn(Identity(key, sidecars, hash));
    forall t, item ensures view(step(t, item)) == if item == key then turn(view(t)) else view(t) {
      ClassifyPage(t, item, sidecars, hash, key);
    }
    FoldFollows(step, view, turn, key, b, combined);
  }

  lemma {:induction false} RepeatInvariant<V(!new)>(turn: V -> V, good: (V, nat) -> bool, v: V, times: nat)
    requires good(v, 0) && forall u, k: nat :: good(u, k) ==> good(turn(u), k + 1)
    ensures good(Repeat(turn, v, times), times)
  {
    if times != 0 { RepeatInvariant(turn, good, v, times - 1); }
  }

  lemma PageBalanced(p: Page, identity: Option<ItemIdentity>, n: nat, h: nat, c: nat)
    requires Balanced(p, identity, n, h, 0)
    ensures Balanced(Repeat(Turn(identity), p, c), identity, n, h, c)
  {
    var good := (q: Page, k: nat) => Balanced(q, identity, n, h, k);
    forall q: Page, k: nat | good(q, k) ensures good(Turn(identity)(q), k + 1) {
      FileOwn(q, identity, n, h, k);
    }
    RepeatInvariant(Turn(identity), good, p, c);
  }

  /** The closed form holds in whatever order the items were returned. */
  lemma PersistedCount(history: seq<InputItem>, newItems: seq<InputItem>, combined: seq<InputItem>, sidecars: Sidecars,
                       hash: InputItem -> nat, key: InputItem)
    requires key != EMPTY_OBJECT && Strip(key, sidecars) == key
    ensures multiset(ClassifyAll(OpenBooks(history, newItems, sidecars, hash), combined, sidecars, hash).persisted)[key]
         == ClosedForm(multiset(combined)[key], multiset(newItems)[key], multiset(history)[key])
  {
    var b := OpenBooks(history, newItems, sidecars, hash);
    ReferencesCounted(newItems, sidecars, hash, key);
    ReferencesCounted(history, sidecars, hash, key);
    FrequenciesCounted(newItems, sidecars, key);
    FrequenciesCounted(history, sidecars, key);
    ClassifyAllPage(b, combined, sidecars, hash, key);
    PageBalanced(PageOf(b, key), Identity(key, sidecars, hash), Count(newItems, key), Count(history, key),
      Count(combined, key));
    CountIsMultiplicity(newItems, key);
    CountIsMultiplicity(history, key);
    CountIsMultiplicity(combined, key);
    CountIsMultiplicity(ClassifyAll(b, combined, sidecars, hash).persisted, key);
  }

  // ---- what was persisted comes out of what was returned ----

  ghost predicate Subsequence<T>(a: seq<T>, b: seq<T>) {
    || a == []
    || (b != [] && Subsequence(a, b[..|b| - 1]))
    || (b != [] && a[|a| - 1] == b[|b| - 1] && Subsequence(a[..|a| - 1], b[..|b| - 1]))
  }

  lemma FilePersists(b: Books, key: InputItem, identity: Option<ItemIdentity>, newFirst: bool)
    ensures File(b, key, identity, newFirst).persisted in {b.persisted, b.persisted + [key]}
  {}

  lemma {:induction false} PersistedSubsequence(b: Books, combined: seq<InputItem>, sidecars: Sidecars,
                                                hash: InputItem -> nat)
    requires b.persisted == []
    ensures Subsequence(ClassifyAll(b, combined, sidecars, hash).persisted, StripAll(combined, sidecars))
  {
    if combined != [] {
      var init, last := combined[..|combined| - 1], combined[|combined| - 1];
      var done := ClassifyAll(b, init, sidecars, hash);
      PersistedSubsequence(b, init, sidecars, hash);
      var stripped := StripAll(combined, sidecars);
      assert stripped[..|stripped| - 1] == StripAll(init, sidecars);
      FilePersists(done, Strip(last, sidecars), Identity(last, sidecars, hash), PrefersNewFrequencyMatch(last));
      var next := ClassifyAll(b, combined, sidecars, hash).persisted;
      assert next == done.persisted + [Strip(last, sidecars)] ==> next[..|next| - 1] == done.persisted;
    }
  }

  // ---- seeded empty objects ----

  /** No item carries a seed yet: seeds are fresh. */
  ghost predicate Unseeded(items: seq<InputItem>, sidecars: Sidecars) {
    forall i :: 0 <= i < |items| ==> Strip(items[i], sidecars) == items[i]
  }

  /** The seeds the items carry, in order. */
  function Seeds(items: seq<InputItem>, sidecars: Sidecars): seq<SeedId> {
    if items == [] then []
    else
      var rest := Seeds(items[..|items| - 1], sidecars);
      match EmptyObjectIdentity(items[|items| - 1], sidecars)
      case None => rest
      case Some(id) => rest + [id]
  }

  function Identities(ids: seq<SeedId>): seq<ItemIdentity> {
    if ids == [] then [] else Identities(ids[..|ids| - 1]) + [EmptyJsonObject(ids[|ids| - 1])]
  }

  /** A seeded object carries its seed, and stripping it gives the empty object back. */
  lemma SeededCarries(id: SeedId, sidecars: Sidecars)
    requires SentinelKey(id) in sidecars && sidecars[SentinelKey(id)] == id
    ensures EmptyObjectIdentity(Seeded(id), sidecars) == Some(id)
    ensures Strip(Seeded(id), sidecars) == EMPTY_OBJECT
  {
    var key := SentinelKey(id);
    assert key in Seeded(id).value.fields;
    assert Seeded(id).value.fields.Keys == {key};
    OnlyKeyUnique(Seeded(id).value.fields);
  }

  ghost predicate Minted(sidecars: Sidecars, first: SeedId, end: SeedId) {
    forall id :: first <= id < end ==> SentinelKey(id) in sidecars && sidecars[SentinelKey(id)] == id
  }

  lemma {:induction false} SeedingMints(items: seq<InputItem>, sidecars: Sidecars, next: SeedId, first: SeedId)
    requires first <= next && Minted(sidecars, first, next)
    ensures Minted(SeedEmptyObjects(items, sidecars, next).sidecars, first,
      SeedEmptyObjects(items, sidecars, next).next)
  {
    if items != [] {
      SeedingMints(items[..|items| - 1], sidecars, next, first);
      var rest := SeedEmptyObjects(items[..|items| - 1], sidecars, next);
      forall id | first <= id < rest.next ensures SentinelKey(id) != SentinelKey(rest.next) {
        SentinelKeysDiffer(id, rest.next);
      }
    }
  }

  function Range(first: nat, end: nat): seq<nat>
    requires first <= end
  {
    if first == end then [] else Range(first, end - 1) + [end - 1]
  }

  lemma SeedsStep(items: seq<InputItem>, last: InputItem, sidecars: Sidecars)
    ensures Seeds(items + [last], sidecars) == match EmptyObjectIdentity(last, sidecars)
      case None => Seeds(items, sidecars)
      case Some(id) => Seeds(items, sidecars) + [id]
  {
    assert (items + [last])[..|items|] == items;
  }

  lemma {:induction false} SeedingStrips(items: seq<InputItem>, sidecars: Sidecars, next: SeedId, all: Sidecars)
    requires Unseeded(items, all) && Minted(all, next, SeedEmptyObjects(items, sidecars, next).next)
    ensures StripAll(SeedEmptyObjects(items, sidecars, next).items, all) == items
  {
    if items != [] {
      var init, last := items[..|items| - 1], items[|items| - 1];
      var rest := SeedEmptyObjects(init, sidecars, next);
      SeedingStrips(init, sidecars, next, all);
      assert items == init + [last];
      if last == EMPTY_OBJECT {
        SeededCarries(rest.next, all);
      } else {
        assert Strip(items[|items| - 1], all) == last;
      }
    }
  }

  /** The seeds are exactly the ones minted, in order. */
  lemma {:induction false} SeedingSeeds(items: seq<InputItem>, sidecars: Sidecars, next: SeedId, all: Sidecars)
    requires Unseeded(items, all) && Minted(all, next, SeedEmptyObjects(items, sidecars, next).next)
    ensures Seeds(SeedEmptyObjects(items, sidecars, next).items, all)
      == Range(next, SeedEmptyObjects(items, sidecars, next).next)
  {
    if items != [] {
      hide EmptyObjectIdentity;
      var init, last := items[..|items| - 1], items[|items| - 1];
      var rest := SeedEmptyObjects(init, sidecars, next);
      SeedingSeeds(init, sidecars, next, all);
      if last == EMPTY_OBJECT {
        SeededCarries(rest.next, all);
        SeedsStep(rest.items, Seeded(rest.next), all);
      } else {
        assert Strip(items[|items| - 1], all) == last;
        SeedsStep(rest.items, last, all);
      }
    }
  }

  lemma IdentityOfEmpty(item: InputItem, sidecars: Sidecars, hash: InputItem -> nat)
    ensures match EmptyObjectIdentity(item, sidecars)
      case None => Strip(item, sidecars) == EMPTY_OBJECT ==> Identity(item, sidecars, hash) == None
      case Some(id) =>
        Strip(item, sidecars) == EMPTY_OBJECT && Identity(item, sidecars, hash) == Some(EmptyJsonObject(id))
  {}

  lemma IdentitiesPush(ids: seq<SeedId>, id: SeedId)
    ensures Identities(ids + [id]) == Identities(ids) + [EmptyJsonObject(id)]
  {
    assert (ids + [id])[..|ids|] == ids;
  }

  /** The references filed under the empty object are the seeds. */
  lemma {:induction false} EmptyReferences(items: seq<InputItem>, sidecars: Sidecars, hash: InputItem -> nat)
    ensures RefsOf(ReferenceMap(items, sidecars, hash), EMPTY_OBJECT) == Identities(Seeds(items, sidecars))
  {
    if items != [] {
      var init, last := items[..|items| - 1], items[|items| - 1];
      EmptyReferences(init, sidecars, hash);
      IdentityOfEmpty(last, sidecars, hash);
      AddReferenceRefs(ReferenceMap(init, sidecars, hash), Strip(last, sidecars), Identity(last, sidecars, hash),
        EMPTY_OBJECT);
      if EmptyObjectIdentity(last, sidecars).Some? {
        IdentitiesPush(Seeds(init, sidecars), EmptyObjectIdentity(last, sidecars).value);
      }
    }
  }

  ghost predicate Distinct<T>(s: seq<T>) {
    forall i, j :: 0 <= i < j < |s| ==> s[i] != s[j]
  }

  lemma DistinctPush<T>(s: seq<T>, x: T)
    requires Distinct(s) && x !in s
    ensures Distinct(s + [x])
  {
    forall i, j | 0 <= i < j < |s + [x]| ensures (s + [x])[i] != (s + [x])[j] {
      assert s[i] in s;
    }
  }

  lemma {:induction false} RangeIsDistinct(first: nat, end: nat)
    requires first <= end
    ensures Distinct(Range(first, end)) && forall id: nat :: id in Range(first, end) <==> first <= id < end
  {
    if first < end {
      RangeIsDistinct(first, end - 1);
      DistinctPush(Range(first, end - 1), end - 1);
    }
  }

  lemma {:induction false} IdentitiesOf(ids: seq<SeedId>)
    requires Distinct(ids)
    ensures Distinct(Identities(ids)) && forall id: SeedId :: EmptyJsonObject(id) in Identities(ids) <==> id in ids
  {
    if ids != [] {
      var init, last := ids[..|ids| - 1], ids[|ids| - 1];
      IdentitiesOf(init);
      DistinctPush(Identities(init), EmptyJsonObject(last));
      assert ids == init + [last];
    }
  }

  lemma {:induction false} DropFirstDistinct(ids: seq<ItemIdentity>, id: ItemIdentity)
    requires Distinct(ids)
    ensures Distinct(DropFirst(ids, id)) && forall x :: x in DropFirst(ids, id) <==> x in ids && x != id
  {
    if ids == [] {
    } else if ids[0] == id {
      assert id !in ids[1..];
    } else {
      DropFirstDistinct(ids[1..], id);
      var rest := DropFirst(ids[1..], id);
      assert ids[0] !in ids[1..];
      forall i, j | 0 <= i < j < |rest| + 1 ensures ([ids[0]] + rest)[i] != ([ids[0]] + rest)[j] {
        assert rest[j - 1] in rest;
      }
    }
  }

  /** The references on the page are the seeds of [first, end) that have not come back yet. */
  ghost predicate Waiting(refs: seq<ItemIdentity>, first: SeedId, end: SeedId, back: seq<SeedId>) {
    && Distinct(refs)
    && forall id: SeedId :: EmptyJsonObject(id) in refs <==> first <= id < end && id !in back
  }

  lemma WaitingAtFirst(items: seq<InputItem>, sidecars: Sidecars, hash: InputItem -> nat, first: SeedId, end: SeedId)
    requires first <= end && Seeds(items, sidecars) == Range(first, end)
    ensures Waiting(RefsOf(ReferenceMap(items, sidecars, hash), EMPTY_OBJECT), first, end, [])
  {
    EmptyReferences(items, sidecars, hash);
    RangeIsDistinct(first, end);
    IdentitiesOf(Range(first, end));
  }

  lemma WaitingStep(refs: seq<ItemIdentity>, first: SeedId, end: SeedId, back: seq<SeedId>, id: SeedId)
    requires Waiting(refs, first, end, back)
    ensures Waiting(DropFirst(refs, EmptyJsonObject(id)), first, end, back + [id])
    ensures EmptyJsonObject(id) !in refs ==> Waiting(refs, first, end, back + [id])
  {
    DropFirstDistinct(refs, EmptyJsonObject(id));
  }

  function CountFrom(ids: seq<SeedId>, first: SeedId): nat {
    if ids == [] then 0 else CountFrom(ids[..|ids| - 1], first) + (if ids[|ids| - 1] >= first then 1 else 0)
  }

  ghost predicate EmptyPage(p: Page, first: SeedId, middle: SeedId, end: SeedId, back: seq<SeedId>) {
    && Waiting(p.newRefs, middle, end, back)
    && Waiting(p.historyRefs, first, middle, back)
    && p.persisted == CountFrom(back, middle)
  }

  lemma EmptyPageStep(p: Page, first: SeedId, middle: SeedId, end: SeedId, back: seq<SeedId>, id: SeedId)
    requires EmptyPage(p, first, middle, end, back) && first <= middle && first <= id < end && id !in back
    ensures EmptyPage(FileOnPage(p, Some(EmptyJsonObject(id)), false), first, middle, end, back + [id])
  {
    WaitingStep(p.newRefs, middle, end, back, id);
    WaitingStep(p.historyRefs, first, middle, back, id);
    assert (back + [id])[..|back|] == back;
  }

  /** Every empty object that comes back carries one of the seeds, and no seed comes back twice. */
  ghost predicate PassesSeedsOn(combined: seq<InputItem>, sidecars: Sidecars, first: SeedId, end: SeedId) {
    && EMPTY_OBJECT !in combined
    && Distinct(Seeds(combined, sidecars))
    && forall id :: id in Seeds(combined, sidecars) ==> first <= id < end
  }

  lemma PassesPrefix(combined: seq<InputItem>, sidecars: Sidecars, first: SeedId, end: SeedId)
    requires PassesSeedsOn(combined, sidecars, first, end) && combined != []
    ensures PassesSeedsOn(combined[..|combined| - 1], sidecars, first, end)
    ensures match EmptyObjectIdentity(combined[|combined| - 1], sidecars)
      case None => Strip(combined[|combined| - 1], sidecars) != EMPTY_OBJECT
      case Some(id) => first <= id < end && id !in Seeds(combined[..|combined| - 1], sidecars)
  {
    var init, last := combined[..|combined| - 1], combined[|combined| - 1];
    assert last in combined;
    var before, after := Seeds(init, sidecars), Seeds(combined, sidecars);
    if EmptyObjectIdentity(last, sidecars).Some? {
      assert after == before + [EmptyObjectIdentity(last, sidecars).value];
      assert forall i :: 0 <= i < |before| ==> before[i] == after[i];
      assert after[|before|] in after;
      assert forall i, j :: 0 <= i < j < |before| ==> before[i] != before[j];
      forall id | id in before ensures first <= id < end { assert id in after; }
    }
  }

  lemma SeededIsNotEmpty(item: InputItem, sidecars: Sidecars)
    requires EmptyObjectIdentity(item, sidecars).Some?
    ensures !PrefersNewFrequencyMatch(item)
  {
    assert item.value.fields != map[];
  }

  lemma ClassifySeeded(b: Books, item: InputItem, sidecars: Sidecars, hash: InputItem -> nat, id: SeedId)
    requires EmptyObjectIdentity(item, sidecars) == Some(id)
    ensures PageOf(Classify(b, item, sidecars, hash), EMPTY_OBJECT)
      == FileOnPage(PageOf(b, EMPTY_OBJECT), Some(EmptyJsonObject(id)), false)
  {
    SeededIsNotEmpty(item, sidecars);
    IdentityOfEmpty(item, sidecars, hash);
    FilePage(b, EMPTY_OBJECT, Some(EmptyJsonObject(id)), false, EMPTY_OBJECT);
  }

  lemma ClassifyNonEmpty(b: Books, item: InputItem, sidecars: Sidecars, hash: InputItem -> nat)
    requires Strip(item, sidecars) != EMPTY_OBJECT
    ensures PageOf(Classify(b, item, sidecars, hash), EMPTY_OBJECT) == PageOf(b, EMPTY_OBJECT)
  {
    FilePage(b, Strip(item, sidecars), Identity(item, sidecars, hash), PrefersNewFrequencyMatch(item), EMPTY_OBJECT);
  }

  lemma {:induction false} ClassifyAllEmpty(b: Books, combined: seq<InputItem>, sidecars: Sidecars,
                                            hash: InputItem -> nat, first: SeedId, middle: SeedId, end: SeedId)
    requires first <= middle <= end && PassesSeedsOn(combined, sidecars, first, end)
    requires EmptyPage(PageOf(b, EMPTY_OBJECT), first, middle, end, [])
    ensures EmptyPage(PageOf(ClassifyAll(b, combined, sidecars, hash), EMPTY_OBJECT), first, middle, end,
      Seeds(combined, sidecars))
  {
    if combined != [] {
      var init, last := combined[..|combined| - 1], combined[|combined| - 1];
      PassesPrefix(combined, sidecars, first, end);
      ClassifyAllEmpty(b, init, sidecars, hash, first, middle, end);
      var done := ClassifyAll(b, init, sidecars, hash);
      match EmptyObjectIdentity(last, sidecars)
      case None => ClassifyNonEmpty(done, last, sidecars, hash);
      case Some(id) =>
        ClassifySeeded(done, last, sidecars, hash, id);
        EmptyPageStep(PageOf(done, EMPTY_OBJECT), first, middle, end, Seeds(init, sidecars), id);
    }
  }

  // ---- preparing the input of a run ----

  /** None stands for a failing callback. */
  type Callback = (seq<InputItem>, seq<InputItem>) -> Option<seq<InputItem>>

  datatype PreparedInput = PreparedInput(prepared: seq<InputItem>, originalInput: seq<InputItem>,
    sessionInput: seq<InputItem>)

  /** What one run with a callback works on: both lists seeded, and what the callback made of them. */
  datatype Seedings = Seedings(history: Seeding, input: Seeding) {
    function Sidecars(): Sidecars { input.sidecars }
  }

  function SeedBoth(history: seq<InputItem>, input: seq<InputItem>, next: SeedId): (r: Seedings)
    ensures next <= r.history.next <= r.input.next
  {
    var h := SeedEmptyObjects(history, map[], next);
    Seedings(h, SeedEmptyObjects(input, h.sidecars, h.next))
  }

  function Persisted(s: Seedings, combined: seq<InputItem>, hash: InputItem -> nat): seq<InputItem> {
    ClassifyAll(OpenBooks(s.history.items, s.input.items, s.Sidecars(), hash), combined, s.Sidecars(), hash).persisted
  }

  function PrepareInputWithSession(input: seq<InputItem>, history: seq<InputItem>, callback: Option<Callback>,
                                   hash: InputItem -> nat, next: SeedId): Option<PreparedInput> {
    match callback
    case None => Some(PreparedInput(history + input, input, input))
    case Some(f) =>
      var s := SeedBoth(history, input, next);
      match f(s.history.items, s.input.items)
      case None => None
      case Some(combined) => Some(PreparedInput(StripAll(combined, s.Sidecars()), input, Persisted(s, combined, hash)))
  }

  method SeedEmptyJsonObjectIdentity(items: array<InputItem>, sidecars: Sidecars, next: SeedId)
    returns (minted: Sidecars, after: SeedId)
    modifies items
    ensures Seeding(items[..], minted, after) == SeedEmptyObjects(old(items[..]), sidecars, next)
  {
    minted, after := sidecars, next;
    var i := 0;
    while i < items.Length
      invariant 0 <= i <= items.Length
      invariant Seeding(items[..i], minted, after) == SeedEmptyObjects(old(items[..])[..i], sidecars, next)
      invariant items[i..] == old(items[i..])
    {
      assert old(items[..])[..i + 1][..i] == old(items[..])[..i];
      var item := items[i];
      assert item == items[i..][0] == old(items[..])[i];
      if item.JsonItem? && item.value.Obj? && item.value.fields == map[] {
        var key := SentinelKey(after);
        items[i] := JsonItem(Obj(item.value.fields[key := Str(key)]));
        minted := minted[key := after];
        after := after + 1;
      }
      i := i + 1;
    }
    assert items[..items.Length] == items[..] && old(items[..])[..items.Length] == old(items[..]);
  }

  method BuildReferenceMap(items: seq<InputItem>, sidecars: Sidecars, hash: InputItem -> nat) returns (refs: References)
    ensures refs == ReferenceMap(items, sidecars, hash)
  {
    refs := map[];
    for i := 0 to |items|
      invariant refs == ReferenceMap(items[..i], sidecars, hash)
    {
      assert items[..i + 1][..i] == items[..i];
      var identity := Identity(items[i], sidecars, hash);
      if identity.Some? {
        var key := Strip(items[i], sidecars);
        refs := refs[key := RefsOf(refs, key) + [identity.value]];
      }
    }
    assert items[..|items|] == items;
  }

  method BuildFrequencyMap(items: seq<InputItem>, sidecars: Sidecars) returns (counts: Frequencies)
    ensures counts == FrequencyMap(items, sidecars)
  {
    counts := map[];
    for i := 0 to |items|
      invariant counts == FrequencyMap(items[..i], sidecars)
    {
      assert items[..i + 1][..i] == items[..i];
      var key := Strip(items[i], sidecars);
      counts := counts[key := CountOf(counts, key) + 1];
    }
    assert items[..|items|] == items;
  }

  /** The classification loop over what the callback returned. */
  method ClassifyCombined(combined: seq<InputItem>, refsOfNew: References, refsOfHistory: References,
                          countsOfNew: Frequencies,
                          countsOfHistory: Frequencies, sidecars: Sidecars, hash: InputItem -> nat)
    returns (sessionInput: seq<InputItem>)
    ensures sessionInput
         == ClassifyAll(Books(refsOfNew, refsOfHistory, countsOfNew, countsOfHistory, []), combined, sidecars,
           hash).persisted
  {
    var newRefs, historyRefs, newCounts, historyCounts := refsOfNew, refsOfHistory, countsOfNew, countsOfHistory;
    ghost var start := Books(newRefs, historyRefs, newCounts, historyCounts, []);
    sessionInput := [];
    for i := 0 to |combined|
      invariant Books(newRefs, historyRefs, newCounts, historyCounts, sessionInput)
             == ClassifyAll(start, combined[..i], sidecars, hash)
    {
      assert combined[..i + 1][..i] == combined[..i];
      var item := combined[i];
      var key := Strip(item, sidecars);
      var identity := Identity(item, sidecars, hash);
      if CanConsume(newRefs, key, identity) {
        newRefs := ConsumeReference(newRefs, key, identity.value);
        newCounts := DecrementCount(newCounts, key);
        sessionInput := sessionInput + [key];
        continue;
      }
      if CanConsume(historyRefs, key, identity) {
        historyRefs := ConsumeReference(historyRefs, key, identity.value);
        historyCounts := DecrementCount(historyCounts, key);
        continue;
      }
      if PrefersNewFrequencyMatch(item) {
        if CountOf(newCounts, key) > 0 {
          newCounts := DecrementCount(newCounts, key);
          sessionInput := sessionInput + [key];
          continue;
        }
        if CountOf(historyCounts, key) > 0 {
          historyCounts := DecrementCount(historyCounts, key);
          continue;
        }
      } else {
        if CountOf(historyCounts, key) > 0 {
          historyCounts := DecrementCount(historyCounts, key);
          continue;
        }
        if CountOf(newCounts, key) > 0 {
          newCounts := DecrementCount(newCounts, key);
          sessionInput := sessionInput + [key];
          continue;
        }
      }
      sessionInput := sessionInput + [key];
    }
    assert combined[..|combined|] == combined;
  }

  method SeedClones(history: seq<InputItem>, input: seq<InputItem>, next: SeedId) returns (s: Seedings)
    ensures s == SeedBoth(history, input, next)
  {
    var h := new InputItem[|history|](i requires 0 <= i < |history| => history[i]);
    var n := new InputItem[|input|](i requires 0 <= i < |input| => input[i]);
    assert h[..] == history && n[..] == input;
    var sidecars, seed := SeedEmptyJsonObjectIdentity(h, map[], next);
    var seeded := Seeding(h[..], sidecars, seed);
    sidecars, seed := SeedEmptyJsonObjectIdentity(n, sidecars, seed);
    s := Seedings(seeded, Seeding(n[..], sidecars, seed));
  }

  method PrepareInput(input: seq<InputItem>, history: seq<InputItem>, callback: Option<Callback>,
                      hash: InputItem -> nat, next: SeedId)
    returns (r: Option<PreparedInput>)
    ensures r == PrepareInputWithSession(input, history, callback, hash, next)
  {
    var prepared, sessionInput := history + input, input;
    if callback.Some? {
      var s := SeedClones(history, input, next);
      var historyRefs := BuildReferenceMap(s.history.items, s.Sidecars(), hash);
      var newRefs := BuildReferenceMap(s.input.items, s.Sidecars(), hash);
      var historyCounts := BuildFrequencyMap(s.history.items, s.Sidecars());
      var newCounts := BuildFrequencyMap(s.input.items, s.Sidecars());
      var combined := callback.value(s.history.items, s.input.items);
      if combined.None? { return None; }
      sessionInput := ClassifyCombined(combined.value, newRefs, historyRefs, newCounts, historyCounts, s.Sidecars(),
        hash);
      prepared := StripAll(combined.value, s.Sidecars());
    }
    if prepared == [] && callback.None? {
      prepared, sessionInput := input, input;
    }
    return Some(PreparedInput(prepared, input, sessionInput));
  }

  // ---- what a run with a callback persists ----

  lemma {:induction false} StrippingKeeps(items: seq<InputItem>, sidecars: Sidecars, key: InputItem)
    requires key != EMPTY_OBJECT && Strip(key, sidecars) == key
    ensures Count(StripAll(items, sidecars), key) == Count(items, key)
  {
    if items != [] {
      StrippingKeeps(items[..|items| - 1], sidecars, key);
      assert StripAll(items, sidecars)[..|items| - 1] == StripAll(items[..|items| - 1], sidecars);
    }
  }

  /** Nothing in the run's own lists looks like one of the seeds it mints. */
  ghost predicate FreshSeeds(history: seq<InputItem>, input: seq<InputItem>, next: SeedId) {
    var sidecars := SeedBoth(history, input, next).Sidecars();
    Unseeded(history, sidecars) && Unseeded(input, sidecars)
  }

  lemma BothSeeded(history: seq<InputItem>, input: seq<InputItem>, next: SeedId)
    requires FreshSeeds(history, input, next)
    ensures var s := SeedBoth(history, input, next);
      && StripAll(s.history.items, s.Sidecars()) == history
      && StripAll(s.input.items, s.Sidecars()) == input
      && Seeds(s.history.items, s.Sidecars()) == Range(next, s.history.next)
      && Seeds(s.input.items, s.Sidecars()) == Range(s.history.next, s.input.next)
  {
    var s := SeedBoth(history, input, next);
    SeedingMints(history, map[], next, next);
    SeedingMints(input, s.history.sidecars, s.history.next, next);
    SeedingStrips(history, map[], next, s.Sidecars());
    SeedingStrips(input, s.history.sidecars, s.history.next, s.Sidecars());
    SeedingSeeds(history, map[], next, s.Sidecars());
    SeedingSeeds(input, s.history.sidecars, s.history.next, s.Sidecars());
  }

  /** For every content but the empty object, whatever the callback does: of `c` copies that come
      back, with `n` in the new input and `h` in the history, min(c, n) + max(0, c - n - h) are
      persisted. */
  lemma PersistsClosedForm(input: seq<InputItem>, history: seq<InputItem>, f: Callback, hash: InputItem -> nat,
                           next: SeedId, key: InputItem)
    requires FreshSeeds(history, input, next)
    requires key != EMPTY_OBJECT && Strip(key, SeedBoth(history, input, next).Sidecars()) == key
    ensures match PrepareInputWithSession(input, history, Some(f), hash, next)
      case None => true
      case Some(p) =>
        multiset(p.sessionInput)[key] == ClosedForm(multiset(p.prepared)[key], multiset(input)[key],
          multiset(history)[key])
  {
    var s := SeedBoth(history, input, next);
    var returned := f(s.history.items, s.input.items);
    if returned.Some? {
      PersistedCount(s.history.items, s.input.items, returned.value, s.Sidecars(), hash, key);
      BothSeeded(history, input, next);
      StrippingKeeps(s.history.items, s.Sidecars(), key);
      StrippingKeeps(s.input.items, s.Sidecars(), key);
      StrippingKeeps(returned.value, s.Sidecars(), key);
      CountIsMultiplicity(s.history.items, key);
      CountIsMultiplicity(s.input.items, key);
      CountIsMultiplicity(returned.value, key);
      CountIsMultiplicity(history, key);
      CountIsMultiplicity(input, key);
      CountIsMultiplicity(StripAll(returned.value, s.Sidecars()), key);
    }
  }

  /** What is persisted is a subsequence of what the model is given. */
  lemma PersistsInOrder(input: seq<InputItem>, history: seq<InputItem>, f: Callback, hash: InputItem -> nat,
                        next: SeedId)
    ensures match PrepareInputWithSession(input, history, Some(f), hash, next)
      case None => true
      case Some(p) => Subsequence(p.sessionInput, p.prepared)
  {
    var s := SeedBoth(history, input, next);
    var returned := f(s.history.items, s.input.items);
    if returned.Some? {
      PersistedSubsequence(OpenBooks(s.history.items, s.input.items, s.Sidecars(), hash), returned.value, s.Sidecars(),
        hash);
    }
  }

  /** Empty objects have exact provenance: one that came from the new input is persisted, one that
      came from the history is not, however the callback reorders or drops them. */
  lemma PersistsEmptyObjects(input: seq<InputItem>, history: seq<InputItem>, f: Callback, hash: InputItem -> nat,
                             next: SeedId)
    requires FreshSeeds(history, input, next)
    ensures var s := SeedBoth(history, input, next);
      match f(s.history.items, s.input.items)
      case None => true
      case Some(combined) =>
        PassesSeedsOn(combined, s.Sidecars(), next, s.input.next) ==>
        multiset(Persisted(s, combined, hash))[EMPTY_OBJECT] == CountFrom(Seeds(combined, s.Sidecars()), s.history.next)
  {
    var s := SeedBoth(history, input, next);
    var returned := f(s.history.items, s.input.items);
    if returned.Some? && PassesSeedsOn(returned.value, s.Sidecars(), next, s.input.next) {
      EmptyObjectsPersisted(input, history, returned.value, hash, next);
    }
  }

  lemma EmptyObjectsPersisted(input: seq<InputItem>, history: seq<InputItem>, combined: seq<InputItem>,
                              hash: InputItem -> nat, next: SeedId)
    requires FreshSeeds(history, input, next)
    requires var s := SeedBoth(history, input, next); PassesSeedsOn(combined, s.Sidecars(), next, s.input.next)
    ensures var s := SeedBoth(history, input, next);
      multiset(Persisted(s, combined, hash))[EMPTY_OBJECT] == CountFrom(Seeds(combined, s.Sidecars()), s.history.next)
  {
    var s := SeedBoth(history, input, next);
    var b := OpenBooks(s.history.items, s.input.items, s.Sidecars(), hash);
    BothSeeded(history, input, next);
    WaitingAtFirst(s.history.items, s.Sidecars(), hash, next, s.history.next);
    WaitingAtFirst(s.input.items, s.Sidecars(), hash, s.history.next, s.input.next);
    ClassifyAllEmpty(b, combined, s.Sidecars(), hash, next, s.history.next, s.input.next);
    CountIsMultiplicity(Persisted(s, combined, hash), EMPTY_OBJECT);
  }

  lemma {:induction false} SeedsAppend(a: seq<InputItem>, b: seq<InputItem>, sidecars: Sidecars)
    ensures Seeds(a + b, sidecars) == Seeds(a, sidecars) + Seeds(b, sidecars)
  {
    if b == [] {
      assert a + b == a;
    } else {
      SeedsAppend(a, b[..|b| - 1], sidecars);
      assert (a + b)[..|a + b| - 1] == a + b[..|b| - 1];
    }
  }

  lemma {:induction false} RangeAppend(first: nat, middle: nat, end: nat)
    requires first <= middle <= end
    ensures Range(first, middle) + Range(middle, end) == Range(first, end)
  {
    if middle < end {
      RangeAppend(first, middle, end - 1);
    }
  }

  lemma {:induction false} RangeCounted(first: nat, middle: nat, end: nat)
    requires first <= end
    ensures CountFrom(Range(first, end), middle) == Max(0, end - Max(first, middle))
  {
    if first < end {
      RangeCounted(first, middle, end - 1);
      assert Range(first, end)[..|Range(first, end)| - 1] == Range(first, end - 1);
    }
  }

  lemma {:induction false} SeedingLeavesNoEmpty(items: seq<InputItem>, sidecars: Sidecars, next: SeedId)
    ensures EMPTY_OBJECT !in SeedEmptyObjects(items, sidecars, next).items
    ensures SeedEmptyObjects(items, sidecars, next).next == next + Count(items, EMPTY_OBJECT)
  {
    if items != [] {
      SeedingLeavesNoEmpty(items[..|items| - 1], sidecars, next);
      var id := SeedEmptyObjects(items[..|items| - 1], sidecars, next).next;
      assert SentinelKey(id) in Seeded(id).value.fields;
    }
  }

  lemma {:induction false} SubsequenceMember<T>(a: seq<T>, b: seq<T>, x: T)
    requires Subsequence(a, b) && x in a
    ensures x in b
  {
    if Subsequence(a, b[..|b| - 1]) {
      SubsequenceMember(a, b[..|b| - 1], x);
    } else if x != b[|b| - 1] {
      assert a == a[..|a| - 1] + [a[|a| - 1]];
      SubsequenceMember(a[..|a| - 1], b[..|b| - 1], x);
    }
  }

  lemma HistoryThenNewEmpty(input: seq<InputItem>, history: seq<InputItem>, hash: InputItem -> nat, next: SeedId)
    requires FreshSeeds(history, input, next)
    ensures var s := SeedBoth(history, input, next);
      multiset(Persisted(s, s.history.items + s.input.items, hash))[EMPTY_OBJECT] == multiset(input)[EMPTY_OBJECT]
  {
    var s := SeedBoth(history, input, next);
    BothSeeded(history, input, next);
    SeedsAppend(s.history.items, s.input.items, s.Sidecars());
    RangeAppend(next, s.history.next, s.input.next);
    RangeCounted(next, s.history.next, s.input.next);
    RangeIsDistinct(next, s.input.next);
    SeedingLeavesNoEmpty(history, map[], next);
    SeedingLeavesNoEmpty(input, s.history.sidecars, s.history.next);
    EmptyObjectsPersisted(input, history, s.history.items + s.input.items, hash, next);
    CountIsMultiplicity(input, EMPTY_OBJECT);
  }

  function HistoryFirst(): Callback {
    (history, input) => Some(history + input)
  }

  lemma HistoryThenNewOne(input: seq<InputItem>, history: seq<InputItem>, hash: InputItem -> nat, next: SeedId,
                          key: InputItem)
    requires FreshSeeds(history, input, next)
    ensures match PrepareInputWithSession(input, history, Some(HistoryFirst()), hash, next)
      case None => false
      case Some(p) => p.prepared == history + input ==> multiset(p.sessionInput)[key] == multiset(input)[key]
  {
    var s := SeedBoth(history, input, next);
    var p := PrepareInputWithSession(input, history, Some(HistoryFirst()), hash, next).value;
    if key == EMPTY_OBJECT {
      HistoryThenNewEmpty(input, history, hash, next);
    } else if Strip(key, s.Sidecars()) == key {
      PersistsClosedForm(input, history, HistoryFirst(), hash, next, key);
    } else if p.prepared == history + input {
      PersistsInOrder(input, history, HistoryFirst(), hash, next);
      if key in p.sessionInput { SubsequenceMember(p.sessionInput, p.prepared, key); }
      assert key !in input && key !in history;
    }
  }

  lemma StripAllAppend(a: seq<InputItem>, b: seq<InputItem>, sidecars: Sidecars)
    ensures StripAll(a + b, sidecars) == StripAll(a, sidecars) + StripAll(b, sidecars)
  {}

  lemma HistoryThenNewPrepared(input: seq<InputItem>, history: seq<InputItem>, hash: InputItem -> nat, next: SeedId)
    requires FreshSeeds(history, input, next)
    ensures match PrepareInputWithSession(input, history, Some(HistoryFirst()), hash, next)
      case None => false
      case Some(p) => p.prepared == history + input
  {
    var s := SeedBoth(history, input, next);
    BothSeeded(history, input, next);
    StripAllAppend(s.history.items, s.input.items, s.Sidecars());
  }

  lemma SameBag<T>(a: seq<T>, b: seq<T>)
    requires forall x :: multiset(a)[x] == multiset(b)[x]
    ensures multiset(a) == multiset(b)
  {}

  /** A callback that returns the history and then the new input has exactly the new input persisted. */
  lemma HistoryThenNew(input: seq<InputItem>, history: seq<InputItem>, hash: InputItem -> nat, next: SeedId)
    requires FreshSeeds(history, input, next)
    ensures match PrepareInputWithSession(input, history, Some(HistoryFirst()), hash, next)
      case None => false
      case Some(p) => p.prepared == history + input && multiset(p.sessionInput) == multiset(input)
  {
    HistoryThenNewPrepared(input, history, hash, next);
    var r := PrepareInputWithSession(input, history, Some(HistoryFirst()), hash, next);
    forall key ensures multiset(r.value.sessionInput)[key] == multiset(input)[key] {
      HistoryThenNewOne(input, history, hash, next, key);
    }
    SameBag(r.value.sessionInput, input);
  }

  // ---- which copies are persisted, and in which order ----

  /** Of the copies of a content, with `n` in the new input and `h` in the history, the first `n` to come back
      are persisted, the next `h` are not, and any further ones are; an empty object is persisted if its seed was
      minted for the new input, that is, from `middle` on. */
  function Sifted(combined: seq<InputItem>, input: seq<InputItem>, history: seq<InputItem>, sidecars: Sidecars,
                  middle: SeedId)
    : seq<InputItem>
  {
    if combined == [] then []
    else
      var init, x := combined[..|combined| - 1], combined[|combined| - 1];
      var rest := Sifted(init, input, history, sidecars, middle);
      match EmptyObjectIdentity(x, sidecars)
      case Some(id) => if id >= middle then rest + [EMPTY_OBJECT] else rest
      case None => if Stays(Count(init, x), Count(input, x), Count(history, x)) then rest + [x] else rest
  }

  predicate Stays(c: nat, n: nat, h: nat) { c < n || c >= n + h }

  lemma ClosedFormStep(c: nat, n: nat, h: nat)
    ensures ClosedForm(c + 1, n, h) == ClosedForm(c, n, h) + (if Stays(c, n, h) then 1 else 0)
  {}

  /** An item is persisted exactly if the number of its persisted copies goes up. */
  lemma CountDecides(b: Books, item: InputItem, sidecars: Sidecars, hash: InputItem -> nat)
    ensures var x, after := Strip(item, sidecars), Classify(b, item, sidecars, hash);
      after.persisted == if PageOf(after, x).persisted > PageOf(b, x).persisted then b.persisted + [x] else b.persisted
  {
    var x := Strip(item, sidecars);
    FilePersists(b, x, Identity(item, sidecars, hash), PrefersNewFrequencyMatch(item));
    CountPush(b.persisted, x, x);
  }

  lemma OpeningPage(s: Seedings, hash: InputItem -> nat, key: InputItem)
    requires key != EMPTY_OBJECT && Strip(key, s.Sidecars()) == key
    ensures Balanced(PageOf(BooksOf(s, hash), key), Identity(key, s.Sidecars(), hash), Count(s.input.items, key),
                     Count(s.history.items, key), 0)
  {
    hide Identity, Strip, ReferenceMap, FrequencyMap;
    ReferencesCounted(s.input.items, s.Sidecars(), hash, key);
    ReferencesCounted(s.history.items, s.Sidecars(), hash, key);
    FrequenciesCounted(s.input.items, s.Sidecars(), key);
    FrequenciesCounted(s.history.items, s.Sidecars(), key);
  }

  /** The page of a content after some items have come back. */
  lemma PageAfter(s: Seedings, combined: seq<InputItem>, hash: InputItem -> nat, key: InputItem)
    requires key != EMPTY_OBJECT && Strip(key, s.Sidecars()) == key
    ensures var b := ClassifyAll(BooksOf(s, hash), combined, s.Sidecars(), hash);
      Balanced(PageOf(b, key), Identity(key, s.Sidecars(), hash), Count(s.input.items, key),
               Count(s.history.items, key), Count(combined, key))
  {
    hide Identity, Strip, ClassifyAll, BooksOf, PageOf, Balanced, Turn;
    var b := BooksOf(s, hash);
    OpeningPage(s, hash, key);
    ClassifyAllPage(b, combined, s.Sidecars(), hash, key);
    PageBalanced(PageOf(b, key), Identity(key, s.Sidecars(), hash), Count(s.input.items, key),
                 Count(s.history.items, key), Count(combined, key));
  }

  function BooksOf(s: Seedings, hash: InputItem -> nat): Books {
    OpenBooks(s.history.items, s.input.items, s.Sidecars(), hash)
  }

  lemma LastOther(s: Seedings, combined: seq<InputItem>, hash: InputItem -> nat)
    requires combined != [] && combined[|combined| - 1] != EMPTY_OBJECT
    requires EmptyObjectIdentity(combined[|combined| - 1], s.Sidecars()).None?
    ensures var init, x := combined[..|combined| - 1], combined[|combined| - 1];
      Persisted(s, combined, hash)
      == if Stays(Count(init, x), Count(s.input.items, x), Count(s.history.items, x))
        then Persisted(s, init, hash) + [x]
         else Persisted(s, init, hash)
  {
    hide Classify, PageOf, OpenBooks;
    var init, x := combined[..|combined| - 1], combined[|combined| - 1];
    PageAfter(s, init, hash, x);
    PageAfter(s, combined, hash, x);
    ClosedFormStep(Count(init, x), Count(s.input.items, x), Count(s.history.items, x));
    CountDecides(ClassifyAll(BooksOf(s, hash), init, s.Sidecars(), hash), x, s.Sidecars(), hash);
  }

  lemma EmptyPageAfter(input: seq<InputItem>, history: seq<InputItem>, combined: seq<InputItem>,
                       hash: InputItem -> nat, next: SeedId)
    requires FreshSeeds(history, input, next)
    requires var s := SeedBoth(history, input, next); PassesSeedsOn(combined, s.Sidecars(), next, s.input.next)
    ensures var s := SeedBoth(history, input, next);
      EmptyPage(PageOf(ClassifyAll(BooksOf(s, hash), combined, s.Sidecars(), hash), EMPTY_OBJECT), next,
                s.history.next, s.input.next, Seeds(combined, s.Sidecars()))
  {
    var s := SeedBoth(history, input, next);
    BothSeeded(history, input, next);
    WaitingAtFirst(s.history.items, s.Sidecars(), hash, next, s.history.next);
    WaitingAtFirst(s.input.items, s.Sidecars(), hash, s.history.next, s.input.next);
    ClassifyAllEmpty(BooksOf(s, hash), combined, s.Sidecars(), hash, next, s.history.next, s.input.next);
  }

  lemma LastEmpty(input: seq<InputItem>, history: seq<InputItem>, combined: seq<InputItem>, hash: InputItem -> nat,
                  next: SeedId, id: SeedId)
    requires FreshSeeds(history, input, next) && combined != []
    requires var s := SeedBoth(history, input, next);
      PassesSeedsOn(combined, s.Sidecars(), next, s.input.next)
      && EmptyObjectIdentity(combined[|combined| - 1], s.Sidecars()) == Some(id)
    ensures var s, init := SeedBoth(history, input, next), combined[..|combined| - 1];
      Persisted(s, combined, hash)
      == if id >= s.history.next then Persisted(s, init, hash) + [EMPTY_OBJECT] else Persisted(s, init, hash)
  {
    hide Classify, ClassifyAll, FreshSeeds, SeedBoth, PassesSeedsOn, OpenBooks, Seeds, PageOf, BooksOf;
    var s, init, x := SeedBoth(history, input, next), combined[..|combined| - 1], combined[|combined| - 1];
    PassesPrefix(combined, s.Sidecars(), next, s.input.next);
    EmptyPageAfter(input, history, init, hash, next);
    EmptyPageAfter(input, history, combined, hash, next);
    LastClassified(BooksOf(s, hash), combined, s.Sidecars(), hash);
    CountDecides(ClassifyAll(BooksOf(s, hash), init, s.Sidecars(), hash), x, s.Sidecars(), hash);
    LastSeed(combined, s.Sidecars(), id, s.history.next);
    PersistedOf(s, init, hash);
    PersistedOf(s, combined, hash);
  }

  lemma LastClassified(b: Books, combined: seq<InputItem>, sidecars: Sidecars, hash: InputItem -> nat)
    requires combined != []
    ensures ClassifyAll(b, combined, sidecars, hash)
         == Classify(ClassifyAll(b, combined[..|combined| - 1], sidecars, hash), combined[|combined| - 1], sidecars,
                     hash)
  {
    hide Classify;
  }

  lemma LastSeed(combined: seq<InputItem>, sidecars: Sidecars, id: SeedId, middle: SeedId)
    requires combined != [] && EmptyObjectIdentity(combined[|combined| - 1], sidecars) == Some(id)
    ensures CountFrom(Seeds(combined, sidecars), middle)
         == CountFrom(Seeds(combined[..|combined| - 1], sidecars), middle) + (if id >= middle then 1 else 0)
  {
    var before := Seeds(combined[..|combined| - 1], sidecars);
    assert Seeds(combined, sidecars) == before + [id];
    assert (before + [id])[..|before|] == before;
  }

  lemma PersistedOf(s: Seedings, combined: seq<InputItem>, hash: InputItem -> nat)
    ensures Persisted(s, combined, hash) == ClassifyAll(BooksOf(s, hash), combined, s.Sidecars(), hash).persisted
  {
    hide ClassifyAll, OpenBooks;
  }

  lemma UnseededCounts(history: seq<InputItem>, input: seq<InputItem>, next: SeedId, key: InputItem)
    requires FreshSeeds(history, input, next)
    requires var s := SeedBoth(history, input, next); key != EMPTY_OBJECT && Strip(key, s.Sidecars()) == key
    ensures var s := SeedBoth(history, input, next);
      Count(s.history.items, key) == Count(history, key) && Count(s.input.items, key) == Count(input, key)
  {
    var s := SeedBoth(history, input, next);
    BothSeeded(history, input, next);
    StrippingKeeps(s.history.items, s.Sidecars(), key);
    StrippingKeeps(s.input.items, s.Sidecars(), key);
  }

  lemma {:induction false} PersistedIsSifted(input: seq<InputItem>, history: seq<InputItem>, combined: seq<InputItem>,
                                             hash: InputItem -> nat, next: SeedId)
    requires FreshSeeds(history, input, next)
    requires var s := SeedBoth(history, input, next); PassesSeedsOn(combined, s.Sidecars(), next, s.input.next)
    ensures var s := SeedBoth(history, input, next);
      Persisted(s, combined, hash) == Sifted(combined, input, history, s.Sidecars(), s.history.next)
  {
    hide Persisted, FreshSeeds, SeedBoth, PassesSeedsOn;
    var s := SeedBoth(history, input, next);
    if combined == [] {
      NothingPersisted(s, hash);
    } else {
      var init, x := combined[..|combined| - 1], combined[|combined| - 1];
      PassesPrefix(combined, s.Sidecars(), next, s.input.next);
      PersistedIsSifted(input, history, init, hash, next);
      match EmptyObjectIdentity(x, s.Sidecars())
      case Some(id) => LastEmpty(input, history, combined, hash, next, id);
      case None =>
        LastOther(s, combined, hash);
        UnseededCounts(history, input, next, x);
    }
  }

  lemma NothingPersisted(s: Seedings, hash: InputItem -> nat)
    ensures Persisted(s, [], hash) == []
  {}

  /** Everything a callback that only passes empty objects on has persisted: which copies, and in which order. */
  lemma PersistsExactly(input: seq<InputItem>, history: seq<InputItem>, f: Callback, hash: InputItem -> nat,
                        next: SeedId)
    requires FreshSeeds(history, input, next)
    ensures var s := SeedBoth(history, input, next);
      match f(s.history.items, s.input.items)
      case None => PrepareInputWithSession(input, history, Some(f), hash, next) == None
      case Some(combined) =>
        PassesSeedsOn(combined, s.Sidecars(), next, s.input.next) ==>
        PrepareInputWithSession(input, history, Some(f), hash, next)
        == Some(PreparedInput(StripAll(combined, s.Sidecars()), input,
          Sifted(combined, input, history, s.Sidecars(), s.history.next)))
  {
    hide FreshSeeds, Sifted, PassesSeedsOn, SeedBoth;
    var s := SeedBoth(history, input, next);
    var returned := f(s.history.items, s.input.items);
    if returned.Some? && PassesSeedsOn(returned.value, s.Sidecars(), next, s.input.next) {
      PersistedIsSifted(input, history, returned.value, hash, next);
    }
  }

  /** The first copies of each content, as many as are wanted. */
  function FirstCopies(items: seq<InputItem>, wanted: seq<InputItem>): seq<InputItem> {
    if items == [] then []
    else
      var init, x := items[..|items| - 1], items[|items| - 1];
      if Count(init, x) < Count(wanted, x) then FirstCopies(init, wanted) + [x] else FirstCopies(init, wanted)
  }

  lemma {:induction false} CountAppend(a: seq<InputItem>, b: seq<InputItem>, key: InputItem)
    ensures Count(a + b, key) == Count(a, key) + Count(b, key)
  {
    if b == [] {
      assert a + b == a;
    } else {
      CountAppend(a, b[..|b| - 1], key);
      assert (a + b)[..|a + b| - 1] == a + b[..|b| - 1];
    }
  }

  lemma CountWithin(items: seq<InputItem>, k: nat)
    requires k < |items|
    ensures Count(items[..k], items[k]) < Count(items, items[k])
  {
    hide Count;
    var before, x, rest := items[..k], items[k], items[k + 1..];
    CountPush(before, x, x);
    CountAppend(before + [x], rest, x);
    assert items == before + [x] + rest;
  }

  lemma {:induction false} NoneCounted(items: seq<InputItem>, key: InputItem)
    requires key !in items
    ensures Count(items, key) == 0
  {
    if items != [] { NoneCounted(items[..|items| - 1], key); }
  }

  /** One item of history and input: what becomes of it seeded is what becomes of it plain, and only the empty
      objects of the new input are among the seeds minted for it. */
  lemma SiftsAlike(input: seq<InputItem>, history: seq<InputItem>, next: SeedId, k: nat)
    requires FreshSeeds(history, input, next) && k < |history + input|
    ensures var s := SeedBoth(history, input, next);
      var all, plain := s.history.items + s.input.items, history + input;
      && |all| == |plain| && Strip(all[k], s.Sidecars()) == plain[k]
      && (match EmptyObjectIdentity(all[k], s.Sidecars())
          case Some(id) => plain[k] == EMPTY_OBJECT && (id >= s.history.next <==> k >= |history|)
          case None =>
            && plain[k] != EMPTY_OBJECT
            && (Stays(Count(all[..k], all[k]), Count(input, all[k]), Count(history, all[k]))
                <==> Count(plain[..k], plain[k]) < Count(input, plain[k])))
  {
    hide FreshSeeds;
    var s := SeedBoth(history, input, next);
    var all, plain := s.history.items + s.input.items, history + input;
    BothSeeded(history, input, next);
    StripAllAppend(s.history.items, s.input.items, s.Sidecars());
    assert StripAll(all, s.Sidecars()) == plain && StripAll(all[..k], s.Sidecars()) == plain[..k];
    SeedingLeavesNoEmpty(history, map[], next);
    SeedingLeavesNoEmpty(input, s.history.sidecars, s.history.next);
    CountWithin(plain, k);
    CountAppend(history, input, plain[k]);
    match EmptyObjectIdentity(all[k], s.Sidecars())
    case Some(id) => SeedSide(history, input, next, k, id);
    case None => StrippingKeeps(all[..k], s.Sidecars(), all[k]);
  }

  lemma SeedSide(history: seq<InputItem>, input: seq<InputItem>, next: SeedId, k: nat, id: SeedId)
    requires FreshSeeds(history, input, next) && k < |history + input|
    requires var s := SeedBoth(history, input, next);
      |s.history.items| == |history| && |s.input.items| == |input|
      && EmptyObjectIdentity((s.history.items + s.input.items)[k], s.Sidecars()) == Some(id)
    ensures id >= SeedBoth(history, input, next).history.next <==> k >= |history|
  {
    hide FreshSeeds;
    var s := SeedBoth(history, input, next);
    BothSeeded(history, input, next);
    if k < |history| {
      SeedListed(s.history.items, s.Sidecars(), k, id);
    } else {
      SeedListed(s.input.items, s.Sidecars(), k - |history|, id);
    }
    RangeIsDistinct(next, s.history.next);
    RangeIsDistinct(s.history.next, s.input.next);
  }

  lemma {:induction false} SeedListed(items: seq<InputItem>, sidecars: Sidecars, k: nat, id: SeedId)
    requires k < |items| && EmptyObjectIdentity(items[k], sidecars) == Some(id)
    ensures id in Seeds(items, sidecars)
  {
    if k < |items| - 1 { SeedListed(items[..|items| - 1], sidecars, k, id); }
  }

  function Without<T(==)>(items: seq<T>, dropped: T): seq<T> {
    if items == [] then []
    else
      var rest, x := Without(items[..|items| - 1], dropped), items[|items| - 1];
      if x == dropped then rest else rest + [x]
  }

  lemma {:induction false} WithoutCount<T>(items: seq<T>, dropped: T, key: T)
    ensures Count(Without(items, dropped), key) == if key == dropped then 0 else Count(items, key)
  {
    if items != [] {
      var rest, x := Without(items[..|items| - 1], dropped), items[|items| - 1];
      WithoutCount(items[..|items| - 1], dropped, key);
      assert (rest + [x])[..|rest|] == rest;
    }
  }

  function WithoutEmptyObjects(items: seq<InputItem>): seq<InputItem> { Without(items, EMPTY_OBJECT) }

  /** The first `k` items of history and new input, without the empty objects of the history. */
  function Considered(history: seq<InputItem>, input: seq<InputItem>, k: nat): seq<InputItem>
    requires k <= |history + input|
  {
    if k <= |history| then WithoutEmptyObjects(history[..k])
    else WithoutEmptyObjects(history) + input[..k - |history|]
  }

  lemma ConsideredStep(history: seq<InputItem>, input: seq<InputItem>, k: nat)
    requires k < |history + input|
    ensures var x := (history + input)[k];
      Considered(history, input, k + 1)
        == if k < |history| && x == EMPTY_OBJECT then Considered(history, input, k)
           else Considered(history, input, k) + [x]
  {
    if k < |history| {
      assert history[..k + 1][..k] == history[..k];
    } else {
      assert history[..|history|] == history;
      assert input[..k + 1 - |history|] == input[..k - |history|] + [input[k - |history|]];
    }
  }

  lemma ConsideredCount(history: seq<InputItem>, input: seq<InputItem>, k: nat)
    requires k < |history + input|
    ensures var x := (history + input)[k];
      if x != EMPTY_OBJECT then Count(Considered(history, input, k), x) == Count((history + input)[..k], x)
      else k >= |history| ==> Count(Considered(history, input, k), x) < Count(input, x)
  {
    var x := (history + input)[k];
    if k <= |history| {
      assert (history + input)[..k] == history[..k];
      WithoutCount(history[..k], EMPTY_OBJECT, x);
    } else {
      assert (history + input)[..k] == history + input[..k - |history|];
      WithoutCount(history, EMPTY_OBJECT, x);
      CountAppend(history, input[..k - |history|], x);
      CountAppend(WithoutEmptyObjects(history), input[..k - |history|], x);
    }
    if k >= |history| { CountWithin(input, k - |history|); }
  }

  lemma {:induction false} SiftedFirstCopies(input: seq<InputItem>, history: seq<InputItem>, next: SeedId, k: nat)
    requires FreshSeeds(history, input, next) && k <= |history + input|
    ensures var s := SeedBoth(history, input, next);
      var all := s.history.items + s.input.items;
      && |all| == |history + input|
      && Sifted(all[..k], input, history, s.Sidecars(), s.history.next)
        == FirstCopies(Considered(history, input, k), input)
  {
    hide FreshSeeds, Stays, SeedBoth, Considered, WithoutEmptyObjects;
    var s := SeedBoth(history, input, next);
    var all := s.history.items + s.input.items;
    if k == 0 {
      SameLength(input, history, next);
      NothingConsidered(history, input);
    } else {
      SiftedFirstCopies(input, history, next, k - 1);
      SiftedFirstCopy(input, history, next, k - 1);
    }
  }

  lemma SiftedFirstCopy(input: seq<InputItem>, history: seq<InputItem>, next: SeedId, k: nat)
    requires FreshSeeds(history, input, next) && k < |history + input|
    requires var s := SeedBoth(history, input, next);
      |s.history.items + s.input.items| == |history + input|
      && Sifted((s.history.items + s.input.items)[..k], input, history, s.Sidecars(), s.history.next)
        == FirstCopies(Considered(history, input, k), input)
    ensures var s := SeedBoth(history, input, next);
      Sifted((s.history.items + s.input.items)[..k + 1], input, history, s.Sidecars(), s.history.next)
        == FirstCopies(Considered(history, input, k + 1), input)
  {
    hide FreshSeeds, Stays, SeedBoth, Considered, Count, FirstCopies, Sifted, EmptyObjectIdentity;
    var s := SeedBoth(history, input, next);
    var all := s.history.items + s.input.items;
    SiftsAlike(input, history, next, k);
    ConsideredStep(history, input, k);
    ConsideredCount(history, input, k);
    FirstCopiesPush(Considered(history, input, k), (history + input)[k], input);
    SiftedStep(all, input, history, s.Sidecars(), s.history.next, k);
  }

  lemma NothingConsidered(history: seq<InputItem>, input: seq<InputItem>)
    ensures Considered(history, input, 0) == []
  {}

  lemma SiftedStep(all: seq<InputItem>, input: seq<InputItem>, history: seq<InputItem>, sidecars: Sidecars,
                   middle: SeedId, k: nat)
    requires k < |all|
    ensures var rest := Sifted(all[..k], input, history, sidecars, middle);
      Sifted(all[..k + 1], input, history, sidecars, middle)
      == match EmptyObjectIdentity(all[k], sidecars)
         case Some(id) => if id >= middle then rest + [EMPTY_OBJECT] else rest
         case None =>
           if Stays(Count(all[..k], all[k]), Count(input, all[k]), Count(history, all[k])) then rest + [all[k]]
           else rest
  {
    assert all[..k + 1][..k] == all[..k];
  }

  lemma SameLength(input: seq<InputItem>, history: seq<InputItem>, next: SeedId)
    requires FreshSeeds(history, input, next)
    ensures var s := SeedBoth(history, input, next); |s.history.items + s.input.items| == |history + input|
  {
    BothSeeded(history, input, next);
  }

  lemma AllSeedsPassedOn(input: seq<InputItem>, history: seq<InputItem>, next: SeedId)
    requires FreshSeeds(history, input, next)
    ensures var s := SeedBoth(history, input, next);
      PassesSeedsOn(s.history.items + s.input.items, s.Sidecars(), next, s.input.next)
  {
    var s := SeedBoth(history, input, next);
    BothSeeded(history, input, next);
    SeedsAppend(s.history.items, s.input.items, s.Sidecars());
    RangeAppend(next, s.history.next, s.input.next);
    RangeIsDistinct(next, s.input.next);
    SeedingLeavesNoEmpty(history, map[], next);
    SeedingLeavesNoEmpty(input, s.history.sidecars, s.history.next);
  }

  /** In which order that happens: a content that the history has too is persisted where its first copies are. */
  lemma HistoryThenNewOrder(input: seq<InputItem>, history: seq<InputItem>, hash: InputItem -> nat, next: SeedId)
    requires FreshSeeds(history, input, next)
    ensures match PrepareInputWithSession(input, history, Some(HistoryFirst()), hash, next)
      case None => false
      case Some(p) => p.sessionInput == FirstCopies(WithoutEmptyObjects(history) + input, input)
  {
    hide FreshSeeds, Sifted, PassesSeedsOn, SeedBoth, FirstCopies;
    var s := SeedBoth(history, input, next);
    var all := s.history.items + s.input.items;
    AllSeedsPassedOn(input, history, next);
    PersistsExactly(input, history, HistoryFirst(), hash, next);
    SiftedFirstCopies(input, history, next, |history + input|);
    assert all[..|all|] == all && history[..|history|] == history && input[..|input|] == input;
    AllConsidered(history, input);
  }

  lemma AllConsidered(history: seq<InputItem>, input: seq<InputItem>)
    ensures Considered(history, input, |history + input|) == WithoutEmptyObjects(history) + input
  {
    assert history[..|history|] == history && input[..|input|] == input;
  }

  lemma {:induction false} FirstCopiesAppend(a: seq<InputItem>, b: seq<InputItem>, wanted: seq<InputItem>)
    ensures FirstCopies(a, wanted) <= FirstCopies(a + b, wanted)
  {
    if b == [] {
      assert a + b == a;
    } else {
      FirstCopiesAppend(a, b[..|b| - 1], wanted);
      assert (a + b)[..|a + b| - 1] == a + b[..|b| - 1];
    }
  }

  /** Every content that was given is kept up to the number wanted. */
  lemma {:induction false} FirstCopiesCount(items: seq<InputItem>, wanted: seq<InputItem>, key: InputItem)
    ensures Count(FirstCopies(items, wanted), key) == Min(Count(items, key), Count(wanted, key))
  {
    if items != [] {
      var init, x := items[..|items| - 1], items[|items| - 1];
      FirstCopiesCount(init, wanted, key);
      CountPush(FirstCopies(init, wanted), x, key);
    }
  }

  ghost predicate NoRepeats(items: seq<InputItem>) {
    forall x :: Count(items, x) <= 1
  }

  /** What the history left out follows in the order of the new input. */
  lemma {:induction false} PrefixStays(history: seq<InputItem>, input: seq<InputItem>, k: nat)
    requires NoRepeats(input) && k <= |input|
    requires FirstCopies(history, input) <= input
    ensures FirstCopies(history + input[..k], input) == input[..Max(k, |FirstCopies(history, input)|)]
  {
    hide FirstCopies, Count;
    var first := FirstCopies(history, input);
    if k == 0 {
      assert history + input[..0] == history;
    } else {
      var x := input[k - 1];
      PrefixStays(history, input, k - 1);
      assert history + input[..k] == history + input[..k - 1] + [x];
      FirstCopiesPush(history + input[..k - 1], x, input);
      CountAppend(history, input[..k - 1], x);
      CountWithin(input, k - 1);
      InPrefix(history, input, k - 1);
    }
  }

  /** A content of the new input is among the first copies exactly if it is in the prefix they make up. */
  lemma InPrefix(history: seq<InputItem>, input: seq<InputItem>, k: nat)
    requires NoRepeats(input) && k < |input| && FirstCopies(history, input) <= input
    ensures Count(history, input[k]) == 0 <==> k >= |FirstCopies(history, input)|
  {
    hide FirstCopies;
    var first, x := FirstCopies(history, input), input[k];
    FirstCopiesCount(history, input, x);
    CountWithin(input, k);
    if k < |first| {
      CountWithin(first, k);
    } else {
      assert input == first + input[|first|..];
      CountAppend(first, input[|first|..], x);
      CountWithin(input[|first|..], k - |first|);
    }
  }

  /** What follows the first copies in the history are first copies of the new input, as many as are left. */
  lemma {:induction false} FirstCopiesSplit(history: seq<InputItem>, input: seq<InputItem>, k: nat)
    requires FirstCopies(history, input) <= input && k <= |input|
    ensures FirstCopies(history + input[..k], input)
         == FirstCopies(history, input) + FirstCopies(input[..k], input[|FirstCopies(history, input)|..])
  {
    hide FirstCopies, Count;
    var first := FirstCopies(history, input);
    var rest := input[|first|..];
    if k == 0 {
      assert history + input[..0] == history && input[..0] == [];
      FirstOfNone(rest);
    } else {
      var x := input[k - 1];
      FirstCopiesSplit(history, input, k - 1);
      assert history + input[..k] == history + input[..k - 1] + [x] && input[..k] == input[..k - 1] + [x];
      FirstCopiesPush(history + input[..k - 1], x, input);
      FirstCopiesPush(input[..k - 1], x, rest);
      CountAppend(history, input[..k - 1], x);
      CountAppend(first, rest, x);
      FirstCopiesCount(history, input, x);
      assert input == first + rest;
    }
  }

  /** So the new input keeps its order exactly if what the history already has of it, in the order of the history,
      is its beginning, and the rest of it are first copies; without repeated contents the latter always holds. */
  lemma HistoryThenNewKeepsOrder(input: seq<InputItem>, history: seq<InputItem>, hash: InputItem -> nat, next: SeedId)
    requires FreshSeeds(history, input, next)
    ensures match PrepareInputWithSession(input, history, Some(HistoryFirst()), hash, next)
      case None => false
      case Some(p) =>
        var earlier := FirstCopies(WithoutEmptyObjects(history), input);
        && (p.sessionInput == input
            <==> earlier <= input && FirstCopies(input, input[|earlier|..]) == input[|earlier|..])
        && (NoRepeats(input) ==> (p.sessionInput == input <==> earlier <= input))
  {
    hide FreshSeeds, FirstCopies, NoRepeats, PrepareInputWithSession, WithoutEmptyObjects;
    var known := WithoutEmptyObjects(history);
    var earlier := FirstCopies(known, input);
    HistoryThenNewOrder(input, history, hash, next);
    FirstCopiesAppend(known, input, input);
    assert input[..|input|] == input;
    if earlier <= input {
      FirstCopiesSplit(known, input, |input|);
      assert input == earlier + input[|earlier|..];
      if NoRepeats(input) { PrefixStays(known, input, |input|); }
    }
  }

  lemma {:induction false} UnknownStays(history: seq<InputItem>, input: seq<InputItem>, k: nat)
    requires k <= |input| && forall i :: 0 <= i < |input| ==> Count(history, input[i]) == 0
    ensures FirstCopies(history + input[..k], input) == input[..k]
  {
    hide FirstCopies, Count;
    if k == 0 {
      assert history + input[..0] == history;
      NothingWanted(history, input, |history|);
    } else {
      var x := input[k - 1];
      UnknownStays(history, input, k - 1);
      assert history + input[..k] == history + input[..k - 1] + [x];
      FirstCopiesPush(history + input[..k - 1], x, input);
      CountAppend(history, input[..k - 1], x);
      CountWithin(input, k - 1);
    }
  }

  lemma {:induction false} NothingWanted(history: seq<InputItem>, input: seq<InputItem>, k: nat)
    requires k <= |history| && forall i :: 0 <= i < |input| ==> Count(history, input[i]) == 0
    ensures FirstCopies(history[..k], input) == []
  {
    if k > 0 {
      var x := history[k - 1];
      NothingWanted(history, input, k - 1);
      assert history[..k][..k - 1] == history[..k - 1];
      CountWithin(history, k - 1);
      assert forall i :: 0 <= i < |input| ==> input[i] != x;
      NotCounted(input, x);
    }
  }

  lemma NotCounted(items: seq<InputItem>, key: InputItem)
    ensures key !in items ==> Count(items, key) == 0
  {
    if key !in items { NoneCounted(items, key); }
  }

  /** Any new input keeps its order if the history has none of its contents other than the empty object. */
  lemma UnknownInputKeepsOrder(input: seq<InputItem>, history: seq<InputItem>, hash: InputItem -> nat, next: SeedId)
    requires FreshSeeds(history, input, next)
    requires forall x :: x in input && x != EMPTY_OBJECT ==> x !in history
    ensures match PrepareInputWithSession(input, history, Some(HistoryFirst()), hash, next)
      case None => false
      case Some(p) => p.sessionInput == input
  {
    hide FreshSeeds, FirstCopies, PrepareInputWithSession, Without, Count;
    var earlier := WithoutEmptyObjects(history);
    HistoryThenNewOrder(input, history, hash, next);
    forall i | 0 <= i < |input| ensures Count(earlier, input[i]) == 0 {
      WithoutCount(history, EMPTY_OBJECT, input[i]);
      NotCounted(history, input[i]);
    }
    UnknownStays(earlier, input, |input|);
    assert input[..|input|] == input;
  }

  lemma FirstCopiesPush(items: seq<InputItem>, x: InputItem, wanted: seq<InputItem>)
    ensures FirstCopies(items + [x], wanted)
         == if Count(items, x) < Count(wanted, x) then FirstCopies(items, wanted) + [x] else FirstCopies(items, wanted)
  {
    assert (items + [x])[..|items|] == items;
  }

  /** The order can change: what the history had comes first. */
  lemma HistoryThenNewReorders(a: string, b: string, hash: InputItem -> nat, next: SeedId)
    requires a != b
    ensures match PrepareInputWithSession([Text(a), Text(b)], [Text(b)], Some(HistoryFirst()), hash, next)
      case None => false
      case Some(p) => p.sessionInput == [Text(b), Text(a)]
  {
    hide PrepareInputWithSession, FirstCopies, Count, FreshSeeds;
    var x, y := Text(a), Text(b);
    var wanted := [x, y];
    TextsAreFresh([y], wanted, next);
    HistoryThenNewOrder(wanted, [y], hash, next);
    OneItem(y);
    CountsOfTwo(x, y);
    CountsOfTwo(y, x);
    FirstOfNone(wanted);
    FirstCopiesPush([], y, wanted);
    FirstCopiesPush([y], x, wanted);
    FirstCopiesPush([y] + [x], y, wanted);
    assert [] + [y] == [y] && [y] + [x] + [y] == [y] + wanted && [x] + [y] == wanted && [y, x] == [y] + [x];
  }

  lemma TextsAreFresh(history: seq<InputItem>, input: seq<InputItem>, next: SeedId)
    requires forall x :: x in history || x in input ==> x.Text?
    ensures FreshSeeds(history, input, next)
  {
    var sidecars := SeedBoth(history, input, next).Sidecars();
    forall x: InputItem | x.Text? ensures Strip(x, sidecars) == x {}
  }

  lemma OneItem(x: InputItem)
    ensures x != EMPTY_OBJECT ==> WithoutEmptyObjects([x]) == [x]
  {
    assert [x][..0] == [];
    assert WithoutEmptyObjects([]) == [];
  }

  lemma CountsOfTwo(x: InputItem, y: InputItem)
    requires x != y
    ensures Count([x] + [y], x) == 1 && Count([x] + [y], y) == 1 && Count([x], x) == 1 && Count([x], y) == 0
  {
    assert [] + [x] == [x];
    CountPush([], x, x);
    CountPush([], x, y);
    CountPush([x], y, x);
    CountPush([x], y, y);
  }

  lemma FirstOfNone(wanted: seq<InputItem>)
    ensures FirstCopies([], wanted) == [] && forall x :: Count<InputItem>([], x) == 0
  {}

  // ---- saving the result ----

  /** What reaches the session: nothing at all when there is nothing to add. */
  method SaveResultToSession(stored: seq<InputItem>, originalInput: seq<InputItem>, newItems: seq<RunItem>)
    returns (after: seq<InputItem>, count: nat)
    ensures after == stored + originalInput + RunItemsToInputItems(newItems, Preserve)
    ensures count == |after| - |stored|
  {
    var items := originalInput + RunItemsToInputItems(newItems, Preserve);
    count := |items|;
    after := stored;
    if count > 0 {
      after := after + items;
    }
  }

  // ---- runs without a callback ----

  /** One run of a session: its input and what it produced. */
  datatype SessionRun = SessionRun(input: seq<InputItem>, newItems: seq<RunItem>)

  /** Everything that the runs brought and produced, in order. */
  function Told(runs: seq<SessionRun>): seq<InputItem> {
    if runs == [] then []
    else
      var last := runs[|runs| - 1];
      Told(runs[..|runs| - 1]) + last.input + RunItemsToInputItems(last.newItems, Preserve)
  }

  lemma ToldMore(runs: seq<SessionRun>, k: nat)
    requires k < |runs|
    ensures Told(runs[..k + 1])
      == Told(runs[..k]) + runs[k].input + RunItemsToInputItems(runs[k].newItems, Preserve)
  {
    assert runs[..k + 1][..k] == runs[..k];
  }

  lemma NothingCalled(input: seq<InputItem>, history: seq<InputItem>, hash: InputItem -> nat, next: SeedId)
    ensures PrepareInputWithSession(input, history, None, hash, next)
      == Some(PreparedInput(history + input, input, input))
  {}

  /** Without a callback the session stores the input and the results of every run once and in order, and each run
      works on what the earlier ones stored, followed by its own input. */
  method RunWithoutCallback(runs: seq<SessionRun>, hash: InputItem -> nat, next: SeedId)
    returns (stored: seq<InputItem>, prepared: seq<seq<InputItem>>)
    ensures stored == Told(runs) && |prepared| == |runs|
    ensures forall k :: 0 <= k < |runs| ==> prepared[k] == Told(runs[..k]) + runs[k].input
  {
    hide PrepareInputWithSession, Told, RunItemsToInputItems;
    stored, prepared := [], [];
    ToldNothing();
    assert runs[..0] == [];
    for k := 0 to |runs|
      invariant stored == Told(runs[..k]) && |prepared| == k
      invariant forall j :: 0 <= j < k ==> prepared[j] == Told(runs[..j]) + runs[j].input
    {
      NothingCalled(runs[k].input, stored, hash, next);
      var p := PrepareInput(runs[k].input, stored, None, hash, next);
      prepared := prepared + [p.value.prepared];
      var count;
      stored, count := SaveResultToSession(stored, p.value.sessionInput, runs[k].newItems);
      ToldMore(runs, k);
    }
    assert runs[..|runs|] == runs;
  }

  lemma ToldNothing()
    ensures Told([]) == []
  {}

  /** Leaving the callback out works like the callback that puts the new items behind the history, except that
      the order of what is stored is the order of the input. */
  lemma NoCallback(input: seq<InputItem>, history: seq<InputItem>, hash: InputItem -> nat, next: SeedId)
    requires FreshSeeds(history, input, next)
    ensures match (PrepareInputWithSession(input, history, None, hash, next),
                   PrepareInputWithSession(input, history, Some(HistoryFirst()), hash, next))
      case (Some(p), Some(q)) =>
        && p.prepared == q.prepared && p.originalInput == q.originalInput == input
        && multiset(p.sessionInput) == multiset(q.sessionInput) && p.sessionInput == input
      case _ => false
  {
    hide FreshSeeds;
    HistoryThenNew(input, history, hash, next);
  }

  // ---- empty objects that a callback makes itself ----

  /** A seed is carried by an object with one member, whose name is a minted key and whose value is that name. */
  lemma SeedLaw(item: InputItem, sidecars: Sidecars, id: SeedId)
    ensures EmptyObjectIdentity(item, sidecars) == Some(id)
      <==> exists key :: key in sidecars && sidecars[key] == id && item == JsonItem(Obj(map[key := Str(key)]))
  {
    if item.JsonItem? && item.value.Obj? && |item.value.fields| == 1 {
      var fields := item.value.fields;
      OnlyKeyUnique(fields);
      var key :| key in fields;
      assert fields == map[key := fields[key]];
    }
    if key :| key in sidecars && sidecars[key] == id && item == JsonItem(Obj(map[key := Str(key)])) {
      OneKey(key);
    }
  }

  lemma OneKey(key: string)
    ensures var fields: map<string, Json> := map[key := Str(key)];
      |fields| == 1 && forall other :: other in fields ==> other == key
  {
    var fields: map<string, Json> := map[key := Str(key)];
    assert fields.Keys == {key};
    assert |fields| == |fields.Keys|;
  }

  ghost predicate CarriesNone(items: seq<InputItem>, sidecars: Sidecars) {
    forall x :: x in items ==> EmptyObjectIdentity(x, sidecars).None?
  }

  /** Where the page of the empty object stands after `c` copies without a seed. */
  ghost predicate Counted(p: Page, n: nat, h: nat, c: nat) {
    && p.newCount == Max(0, n - c) && p.historyCount == Max(0, h - Max(0, c - n)) && p.persisted == ClosedForm(c, n, h)
  }

  lemma {:induction false} FrequenciesStripped(items: seq<InputItem>, sidecars: Sidecars, key: InputItem)
    ensures CountOf(FrequencyMap(items, sidecars), key) == Count(StripAll(items, sidecars), key)
  {
    hide Strip;
    if items != [] {
      var init := items[..|items| - 1];
      FrequenciesStripped(init, sidecars, key);
      assert StripAll(items, sidecars)[..|items| - 1] == StripAll(init, sidecars);
    }
  }

  lemma ClassifyMade(b: Books, item: InputItem, sidecars: Sidecars, hash: InputItem -> nat, n: nat, h: nat, c: nat)
    requires EmptyObjectIdentity(item, sidecars).None? && Counted(PageOf(b, EMPTY_OBJECT), n, h, c)
    ensures Counted(PageOf(Classify(b, item, sidecars, hash), EMPTY_OBJECT), n, h,
                    c + if item == EMPTY_OBJECT then 1 else 0)
  {
    hide File, EmptyObjectIdentity, PageOf, Counted, FileOnPage;
    FilePage(b, item, Identity(item, sidecars, hash), PrefersNewFrequencyMatch(item), EMPTY_OBJECT);
    if item == EMPTY_OBJECT { CountsOneMore(PageOf(b, EMPTY_OBJECT), n, h, c); }
  }

  lemma CountsOneMore(p: Page, n: nat, h: nat, c: nat)
    requires Counted(p, n, h, c)
    ensures Counted(FileOnPage(p, None, true), n, h, c + 1)
  {}

  lemma {:induction false} ClassifyAllMade(b: Books, combined: seq<InputItem>, sidecars: Sidecars,
                                           hash: InputItem -> nat, n: nat, h: nat)
    requires CarriesNone(combined, sidecars) && Counted(PageOf(b, EMPTY_OBJECT), n, h, 0)
    ensures Counted(PageOf(ClassifyAll(b, combined, sidecars, hash), EMPTY_OBJECT), n, h, Count(combined, EMPTY_OBJECT))
  {
    hide Classify, PageOf, Counted, EmptyObjectIdentity;
    if combined != [] {
      var init, last := combined[..|combined| - 1], combined[|combined| - 1];
      ClassifyAllMade(b, init, sidecars, hash, n, h);
      assert last in combined;
      ClassifyMade(ClassifyAll(b, init, sidecars, hash), last, sidecars, hash, n, h, Count(init, EMPTY_OBJECT));
    }
  }

  lemma BooksOpened(history: seq<InputItem>, input: seq<InputItem>, hash: InputItem -> nat, next: SeedId)
    requires FreshSeeds(history, input, next)
    ensures var s := SeedBoth(history, input, next);
      Counted(PageOf(OpenBooks(s.history.items, s.input.items, s.Sidecars(), hash), EMPTY_OBJECT),
              Count(input, EMPTY_OBJECT), Count(history, EMPTY_OBJECT), 0)
  {
    hide FreshSeeds;
    var s := SeedBoth(history, input, next);
    BothSeeded(history, input, next);
    FrequenciesStripped(s.history.items, s.Sidecars(), EMPTY_OBJECT);
    FrequenciesStripped(s.input.items, s.Sidecars(), EMPTY_OBJECT);
  }

  /** If all empty objects that come back were made by the callback, the closed form holds for them as it does for
      all other contents. */
  lemma PersistsMadeEmptyObjects(input: seq<InputItem>, history: seq<InputItem>, f: Callback, hash: InputItem -> nat,
                                 next: SeedId)
    requires FreshSeeds(history, input, next)
    ensures var s := SeedBoth(history, input, next);
      match f(s.history.items, s.input.items)
      case None => true
      case Some(combined) =>
        CarriesNone(combined, s.Sidecars()) ==>
        multiset(Persisted(s, combined, hash))[EMPTY_OBJECT]
          == ClosedForm(multiset(combined)[EMPTY_OBJECT], multiset(input)[EMPTY_OBJECT],
            multiset(history)[EMPTY_OBJECT])
  {
    hide FreshSeeds, Counted;
    var s := SeedBoth(history, input, next);
    var returned := f(s.history.items, s.input.items);
    if returned.Some? && CarriesNone(returned.value, s.Sidecars()) {
      MadeCounted(input, history, returned.value, hash, next);
    }
  }

  lemma MadeCounted(input: seq<InputItem>, history: seq<InputItem>, combined: seq<InputItem>, hash: InputItem -> nat,
                    next: SeedId)
    requires FreshSeeds(history, input, next) && CarriesNone(combined, SeedBoth(history, input, next).Sidecars())
    ensures multiset(Persisted(SeedBoth(history, input, next), combined, hash))[EMPTY_OBJECT]
      == ClosedForm(multiset(combined)[EMPTY_OBJECT], multiset(input)[EMPTY_OBJECT], multiset(history)[EMPTY_OBJECT])
  {
    hide FreshSeeds, CarriesNone, SeedBoth;
    var s := SeedBoth(history, input, next);
    var b := OpenBooks(s.history.items, s.input.items, s.Sidecars(), hash);
    BooksOpened(history, input, hash, next);
    ClassifyAllMade(b, combined, s.Sidecars(), hash, Count(input, EMPTY_OBJECT), Count(history, EMPTY_OBJECT));
    CountIsMultiplicity(input, EMPTY_OBJECT);
    CountIsMultiplicity(history, EMPTY_OBJECT);
    CountIsMultiplicity(combined, EMPTY_OBJECT);
    CountIsMultiplicity(Persisted(s, combined, hash), EMPTY_OBJECT);
  }
}
