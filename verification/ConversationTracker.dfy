/** Decides what a server-managed conversation is sent each turn: every item once, nothing the
    server already holds, and what a filter dropped again later. */
module ConversationTracker {
  import opened Items
  import opened FilterMatcher

  type SourceId = nat

  // ---- what is already known to the server ----

  function ItemId(item: InputItem): Option<string> {
    if item.Text? then None else GetStr(item.value, "id")
  }

  /** The call id of a tool output; items without an output have none. */
  function OutputCallId(item: InputItem): Option<string> {
    if item.Text? || Get(item.value, "output").None? then None else GetStr(item.value, "call_id")
  }

  /** Sent contents and the ids the server has reported.  Two items have equal fingerprints exactly
      when they are equal, so the item stands for its fingerprint. */
  datatype Ledger = Ledger(sent: set<InputItem>, itemIds: set<string>, callIds: set<string>) {

    predicate Blocks(item: InputItem) {
      || (ItemId(item).Some? && ItemId(item).value in itemIds)
      || (OutputCallId(item).Some? && OutputCallId(item).value in callIds)
      || item in sent
    }

    /** The items not yet known, in order. */
    function Fresh(items: seq<InputItem>): (r: seq<InputItem>)
      ensures forall x :: x in r <==> x in items && !Blocks(x)
    {
      if items == [] then []
      else if Blocks(items[0]) then Fresh(items[1..])
      else [items[0]] + Fresh(items[1..])
    }

    ghost predicate KnowsNoneOf(items: seq<InputItem>) {
      forall x :: x in items ==> !Blocks(x)
    }

    function Sent(items: seq<InputItem>): Ledger {
      this.(sent := sent + set x | x in items)
    }

    /** `track_server_items`. */
    function Absorb(items: seq<InputItem>): Ledger {
      Ledger(sent + (set x | x in items),
             itemIds + (set x | x in items && ItemId(x).Some? :: ItemId(x).value),
             callIds + (set x | x in items && OutputCallId(x).Some? :: OutputCallId(x).value))
    }

    ghost predicate Within(later: Ledger) {
      sent <= later.sent && itemIds <= later.itemIds && callIds <= later.callIds
    }
  }

  // ---- prepared sources, abstractly ----

  /** The live prepared sources and the identities leading to them.  The list of ids kept per
      fingerprint is determined by `live`: it holds the ids of that content, oldest first. */
  datatype Sources = Sources(byIdentity: map<Identity, SourceId>, live: map<SourceId, InputItem>) {

    ghost predicate Valid() {
      forall d :: d in byIdentity ==> byIdentity[d] in live
    }

    function Register(prepared: Held, id: SourceId): Sources {
      Sources(if prepared.identity.Some? then byIdentity[prepared.identity.value := id] else byIdentity,
              live[id := prepared.item])
    }

    function Consume(id: SourceId): Sources {
      Sources(map d | d in byIdentity && byIdentity[d] != id :: byIdentity[d], live - {id})
    }

    /** By identity, else the oldest source of equal content. */
    ghost function Resolve(item: Held): Option<SourceId> {
      if item.identity.Some? && item.identity.value in byIdentity then Some(byIdentity[item.identity.value])
      else Oldest(live, item.item)
    }
  }

  ghost predicate IsOldest(live: map<SourceId, InputItem>, item: InputItem, id: SourceId) {
    id in live && live[id] == item && forall j :: j in live && live[j] == item ==> id <= j
  }

  ghost function Oldest(live: map<SourceId, InputItem>, item: InputItem): (r: Option<SourceId>)
    ensures r.Some? ==> r.value in live && live[r.value] == item
  {
    if id :| IsOldest(live, item, id) then Some(id) else None
  }

  lemma {:induction false} OldestExists(live: map<SourceId, InputItem>, item: InputItem, id: SourceId)
    requires id in live && live[id] == item
    ensures Oldest(live, item).Some?
  {
    if !IsOldest(live, item, id) {
      var j :| j in live && live[j] == item && j < id;
      OldestExists(live, item, j);
    }
  }

  /** A resolved id is live, so it can always be consumed. */
  lemma ResolvedIsLive(s: Sources, item: Held)
    requires s.Valid() && s.Resolve(item).Some?
    ensures s.Resolve(item).value in s.live
  {}

  // ---- the concrete lists per fingerprint ----

  ghost predicate Ascending(ids: seq<SourceId>) {
    forall k, l :: 0 <= k < l < |ids| ==> ids[k] < ids[l]
  }

  /** Every live id stands exactly once, in the list of its own content; no list is empty, and
      lists are in registration order. */
  ghost predicate Linked(lists: map<InputItem, seq<SourceId>>, live: map<SourceId, InputItem>) {
    ListsOrdered(lists) && ListedAreLive(lists, live) && LiveAreListed(lists, live)
  }

  ghost predicate ListsOrdered(lists: map<InputItem, seq<SourceId>>) {
    forall fp :: fp in lists ==> lists[fp] != [] && Ascending(lists[fp])
  }

  ghost predicate ListedAreLive(lists: map<InputItem, seq<SourceId>>, live: map<SourceId, InputItem>) {
    forall fp, id :: fp in lists && id in lists[fp] ==> id in live && live[id] == fp
  }

  ghost predicate LiveAreListed(lists: map<InputItem, seq<SourceId>>, live: map<SourceId, InputItem>) {
    forall id :: id in live ==> live[id] in lists && id in lists[live[id]]
  }

  function ListOf(lists: map<InputItem, seq<SourceId>>, item: InputItem): seq<SourceId> {
    if item in lists then lists[item] else []
  }

  function WithoutId(ids: seq<SourceId>, id: SourceId): (r: seq<SourceId>)
    ensures forall x :: x in r <==> x in ids && x != id
    ensures Ascending(ids) ==> Ascending(r)
  {
    if ids == [] then []
    else
      var rest := WithoutId(ids[1..], id);
      assert forall k :: 0 <= k < |rest| ==> rest[k] in rest;
      if ids[0] == id then rest else [ids[0]] + rest
  }

  /** The `retain` over the lists: the id goes, and so does a list it leaves empty. */
  function DropFromLists(lists: map<InputItem, seq<SourceId>>, id: SourceId): map<InputItem, seq<SourceId>> {
    map fp | fp in lists && WithoutId(lists[fp], id) != [] :: WithoutId(lists[fp], id)
  }

  lemma RegisterListed(lists: map<InputItem, seq<SourceId>>, live: map<SourceId, InputItem>, item: InputItem,
                       id: SourceId)
    requires ListedAreLive(lists, live) && forall j :: j in live ==> j < id
    ensures ListedAreLive(lists[item := ListOf(lists, item) + [id]], live[id := item])
  {
    var after, now := lists[item := ListOf(lists, item) + [id]], live[id := item];
    forall fp, j | fp in after && j in after[fp] && !(fp == item && j == id) ensures j in now && now[j] == fp {
      assert fp in lists;
      assert j in lists[fp];
      assert j in live;
      assert live[j] == fp;
      assert j < id;
      assert j in now;
    }
  }

  lemma RegisterLive(lists: map<InputItem, seq<SourceId>>, live: map<SourceId, InputItem>, item: InputItem,
                     id: SourceId)
    requires LiveAreListed(lists, live) && id !in live
    ensures LiveAreListed(lists[item := ListOf(lists, item) + [id]], live[id := item])
  {
    var after := lists[item := ListOf(lists, item) + [id]];
    assert after[item][|ListOf(lists, item)|] == id;
    forall j | j in live ensures live[j] in after && j in after[live[j]] {
      assert j in lists[live[j]];
    }
  }

  lemma LinkedRegister(lists: map<InputItem, seq<SourceId>>, live: map<SourceId, InputItem>, item: InputItem,
                       id: SourceId)
    requires Linked(lists, live) && forall j :: j in live ==> j < id
    ensures Linked(lists[item := ListOf(lists, item) + [id]], live[id := item])
  {
    RegisterListed(lists, live, item, id);
    RegisterLive(lists, live, item, id);
    var list := ListOf(lists, item);
    forall k | 0 <= k < |list| ensures list[k] < id {
      assert list[k] in list;
      assert item in lists && list[k] in lists[item];
      assert list[k] in live;
    }
  }

  lemma LinkedConsume(lists: map<InputItem, seq<SourceId>>, live: map<SourceId, InputItem>, id: SourceId)
    requires Linked(lists, live)
    ensures Linked(DropFromLists(lists, id), live - {id})
  {
    forall j | j in live - {id} ensures live[j] in DropFromLists(lists, id) && j in DropFromLists(lists, id)[live[j]] {
      assert j in WithoutId(lists[live[j]], id);
    }
  }

  lemma DroppedEverywhere(lists: map<InputItem, seq<SourceId>>, id: SourceId)
    ensures forall fp :: fp in DropFromLists(lists, id) ==> id !in DropFromLists(lists, id)[fp]
  {}

  /** The head of a list is the oldest source of that content. */
  lemma LinkedOldest(lists: map<InputItem, seq<SourceId>>, live: map<SourceId, InputItem>, item: InputItem)
    requires Linked(lists, live)
    ensures Oldest(live, item) == if ListOf(lists, item) != [] then Some(ListOf(lists, item)[0]) else None
  {
    if item in lists {
      var head := lists[item][0];
      assert head in lists[item];
      assert IsOldest(live, item, head);
    }
  }

  // ---- using up sources ----

  /** The source a delivered item uses up: the one named explicitly if it is still live, else the
      one the item resolves to. */
  ghost function Chosen(s: Sources, item: Held, explicit: Option<SourceId>): Option<SourceId> {
    if explicit.Some? && explicit.value in s.live then explicit else s.Resolve(item)
  }

  ghost function ChosenItem(s: Sources, item: Held, explicit: Option<SourceId>): InputItem {
    var id := Chosen(s, item, explicit);
    if id.Some? && id.value in s.live then s.live[id.value] else item.item
  }

  ghost function UseOne(s: Sources, item: Held, explicit: Option<SourceId>): Sources {
    var id := Chosen(s, item, explicit);
    if id.Some? then s.Consume(id.value) else s
  }

  function ExplicitAt(explicit: Option<seq<Option<SourceId>>>, i: nat): Option<SourceId> {
    if explicit.Some? && i < |explicit.value| then explicit.value[i] else None
  }

  /** The sources left after the first `n` delivered items. */
  ghost function UseAll(s: Sources, items: seq<Held>, explicit: Option<seq<Option<SourceId>>>, n: nat): Sources
    requires n <= |items|
  {
    if n == 0 then s else UseOne(UseAll(s, items, explicit, n - 1), items[n - 1], ExplicitAt(explicit, n - 1))
  }

  /** The contents the first `n` delivered items are accounted under. */
  ghost function UsedItems(s: Sources, items: seq<Held>, explicit: Option<seq<Option<SourceId>>>,
                           n: nat): (r: seq<InputItem>)
    requires n <= |items|
    ensures |r| == n
  {
    if n == 0 then []
    else
      var before := UseAll(s, items, explicit, n - 1);
      UsedItems(s, items, explicit, n - 1) + [ChosenItem(before, items[n - 1], ExplicitAt(explicit, n - 1))]
  }

  lemma UseOneValid(s: Sources, item: Held, explicit: Option<SourceId>)
    requires s.Valid()
    ensures UseOne(s, item, explicit).Valid()
    ensures Chosen(s, item, explicit).Some? ==> Chosen(s, item, explicit).value in s.live
    ensures UseOne(s, item, explicit).live
         == s.live - (if Chosen(s, item, explicit).Some? then {Chosen(s, item, explicit).value} else {})
  {}

  lemma {:induction false} UseAllValid(s: Sources, items: seq<Held>, explicit: Option<seq<Option<SourceId>>>, n: nat)
    requires n <= |items| && s.Valid()
    ensures UseAll(s, items, explicit, n).Valid()
  {
    if n > 0 {
      UseAllValid(s, items, explicit, n - 1);
      UseOneValid(UseAll(s, items, explicit, n - 1), items[n - 1], ExplicitAt(explicit, n - 1));
    }
  }

  // ---- what remains to be offered ----

  function RemoveFirst(items: seq<InputItem>, item: InputItem): seq<InputItem> {
    if items == [] then []
    else if items[0] == item then items[1..]
    else [items[0]] + RemoveFirst(items[1..], item)
  }

  lemma {:induction false} RemoveFirstBag(items: seq<InputItem>, item: InputItem)
    ensures multiset(RemoveFirst(items, item)) == multiset(items) - multiset{item}
  {
    if items != [] {
      assert items == [items[0]] + items[1..];
      if items[0] != item { RemoveFirstBag(items[1..], item); }
    }
  }

  /** What goes is the first equal item, wherever it is; without one nothing does. */
  lemma {:induction false} RemoveFirstLaw(before: seq<InputItem>, item: InputItem, after: seq<InputItem>)
    requires item !in before
    ensures RemoveFirst(before + [item] + after, item) == before + after && RemoveFirst(before, item) == before
  {
    if before == [] {
      assert [] + [item] + after == [item] + after && [] + after == after;
    } else {
      RemoveFirstLaw(before[1..], item, after);
      assert before == [before[0]] + before[1..];
      assert (before + [item] + after)[1..] == before[1..] + [item] + after;
      assert [before[0]] + (before[1..] + after) == before + after;
    }
  }

  function RemoveRemaining(remaining: Option<seq<InputItem>>, item: InputItem): Option<seq<InputItem>> {
    match remaining
    case None => None
    case Some(items) =>
      var rest := RemoveFirst(items, item);
      if rest == [] then None else Some(rest)
  }

  function RemoveAllRemaining(remaining: Option<seq<InputItem>>, items: seq<InputItem>): Option<seq<InputItem>> {
    if items == [] then remaining
    else RemoveRemaining(RemoveAllRemaining(remaining, items[..|items| - 1]), items[|items| - 1])
  }

  function Offered(remaining: Option<seq<InputItem>>): seq<InputItem> {
    if remaining.Some? then remaining.value else []
  }

  lemma RemoveRemainingBag(remaining: Option<seq<InputItem>>, item: InputItem)
    ensures multiset(Offered(RemoveRemaining(remaining, item))) == multiset(Offered(remaining)) - multiset{item}
  {
    RemoveFirstBag(Offered(remaining), item);
  }

  /** The contents of the sources with ids below `n`. */
  ghost function LiveItems(live: map<SourceId, InputItem>, n: nat): multiset<InputItem> {
    if n == 0 then multiset{}
    else if n - 1 in live then LiveItems(live, n - 1) + multiset{live[n - 1]}
    else LiveItems(live, n - 1)
  }

  lemma {:induction false} LiveItemsSame(a: map<SourceId, InputItem>, b: map<SourceId, InputItem>, n: nat)
    requires forall id :: id < n ==> (id in a <==> id in b) && (id in a ==> a[id] == b[id])
    ensures LiveItems(a, n) == LiveItems(b, n)
  {
    if n > 0 { LiveItemsSame(a, b, n - 1); }
  }

  lemma {:induction false} LiveItemsRemove(a: map<SourceId, InputItem>, id: SourceId, n: nat)
    requires id in a && id < n
    ensures LiveItems(a, n) == LiveItems(a - {id}, n) + multiset{a[id]}
  {
    if id == n - 1 {
      LiveItemsSame(a, a - {id}, n - 1);
    } else {
      LiveItemsRemove(a, id, n - 1);
    }
  }

  lemma LiveItemsAdd(a: map<SourceId, InputItem>, id: SourceId, item: InputItem, n: nat)
    requires id !in a && id < n
    ensures LiveItems(a[id := item], n) == LiveItems(a, n) + multiset{item}
  {
    LiveItemsRemove(a[id := item], id, n);
    assert a[id := item] - {id} == a;
  }

  lemma {:induction false} LiveItemsHold(live: map<SourceId, InputItem>, item: InputItem, n: nat)
    ensures item in LiveItems(live, n) <==> exists id :: id in live && id < n && live[id] == item
  {
    if n > 0 {
      LiveItemsHold(live, item, n - 1);
      if item in LiveItems(live, n) && item !in LiveItems(live, n - 1) {
        assert live[n - 1] == item;
      }
    }
  }

  lemma UnresolvedIsNotLive(s: Sources, item: Held, n: nat)
    requires s.Resolve(item).None?
    ensures item.item !in LiveItems(s.live, n)
  {
    LiveItemsHold(s.live, item.item, n);
    if id :| id in s.live && id < n && s.live[id] == item.item {
      OldestExists(s.live, item.item, id);
    }
  }

  ghost predicate IdsBelow(live: map<SourceId, InputItem>, n: nat) {
    forall id :: id in live ==> id < n
  }

  /** One delivered item takes as much from what is offered as from what is live. */
  lemma UseOneMirrors(s: Sources, item: Held, explicit: Option<SourceId>, remaining: Option<seq<InputItem>>, n: nat)
    requires s.Valid() && IdsBelow(s.live, n) && multiset(Offered(remaining)) == LiveItems(s.live, n)
    ensures multiset(Offered(RemoveRemaining(remaining, ChosenItem(s, item, explicit))))
         == LiveItems(UseOne(s, item, explicit).live, n)
  {
    RemoveRemainingBag(remaining, ChosenItem(s, item, explicit));
    var id := Chosen(s, item, explicit);
    if id.Some? {
      LiveItemsRemove(s.live, id.value, n);
    } else {
      UnresolvedIsNotLive(s, item, n);
    }
  }

  lemma {:induction false} UseAllIdsBelow(s: Sources, items: seq<Held>, explicit: Option<seq<Option<SourceId>>>,
                                          n: nat, bound: nat)
    requires n <= |items| && IdsBelow(s.live, bound)
    ensures IdsBelow(UseAll(s, items, explicit, n).live, bound)
  {
    if n > 0 { UseAllIdsBelow(s, items, explicit, n - 1, bound); }
  }

  lemma RemoveAllLast(remaining: Option<seq<InputItem>>, items: seq<InputItem>, item: InputItem)
    ensures RemoveAllRemaining(remaining, items + [item]) == RemoveRemaining(RemoveAllRemaining(remaining, items), item)
  {
    assert (items + [item])[..|items|] == items;
  }

  /** Whatever a filter delivers, and whichever sources it names: if what is offered is, item for
      item, what is live, it stays so. */
  lemma {:induction false} UseAllMirrors(s: Sources, items: seq<Held>, explicit: Option<seq<Option<SourceId>>>, n: nat,
                                         remaining: Option<seq<InputItem>>, bound: nat)
    requires n <= |items| && s.Valid() && IdsBelow(s.live, bound)
    requires multiset(Offered(remaining)) == LiveItems(s.live, bound)
    ensures multiset(Offered(RemoveAllRemaining(remaining, UsedItems(s, items, explicit, n))))
         == LiveItems(UseAll(s, items, explicit, n).live, bound)
  {
    hide UseOne, ChosenItem, ExplicitAt, IdsBelow, LiveItems, RemoveRemaining, Offered, Sources.Valid;
    if n > 0 {
      UseAllMirrors(s, items, explicit, n - 1, remaining, bound);
      UseAllValid(s, items, explicit, n - 1);
      UseAllIdsBelow(s, items, explicit, n - 1, bound);
      var before := UseAll(s, items, explicit, n - 1);
      var used := UsedItems(s, items, explicit, n - 1);
      var last := ChosenItem(before, items[n - 1], ExplicitAt(explicit, n - 1));
      RemoveAllLast(remaining, used, last);
      UseOneMirrors(before, items[n - 1], ExplicitAt(explicit, n - 1), RemoveAllRemaining(remaining, used), bound);
    }
  }

  // ---- registering the prepared items ----

  /** Fresh copies, the i-th one under tag `tag + i`. */
  function Clones(items: seq<InputItem>, tag: nat): (r: seq<Held>)
    ensures |r| == |items|
  {
    seq(|items|, i requires 0 <= i < |items| => Held(items[i], CloneIdentity(items[i], tag + i)))
  }

  function RegisterAll(s: Sources, prepared: seq<Held>, first: SourceId, n: nat): Sources
    requires n <= |prepared|
  {
    if n == 0 then s else RegisterAll(s, prepared, first, n - 1).Register(prepared[n - 1], first + n - 1)
  }

  const NoSources := Sources(map[], map[])

  lemma {:induction false} RegisterAllLive(s: Sources, items: seq<InputItem>, tag: nat, first: SourceId, n: nat)
    requires n <= |items|
    ensures var after := RegisterAll(s, Clones(items, tag), first, n).live;
            && (forall id :: id in after <==> id in s.live || first <= id < first + n)
            && (forall id :: first <= id < first + n ==> after[id] == items[id - first])
            && (forall id :: id in s.live && id < first ==> after[id] == s.live[id])
  {
    if n > 0 { RegisterAllLive(s, items, tag, first, n - 1); }
  }

  lemma {:induction false} RegisterAllValid(s: Sources, prepared: seq<Held>, first: SourceId, n: nat)
    requires n <= |prepared| && s.Valid()
    ensures RegisterAll(s, prepared, first, n).Valid()
  {
    if n > 0 { RegisterAllValid(s, prepared, first, n - 1); }
  }

  lemma {:induction false} RegisterAllPrefix(s: Sources, prepared: seq<Held>, more: seq<Held>, first: SourceId, n: nat)
    requires n <= |prepared|
    ensures RegisterAll(s, prepared + more, first, n) == RegisterAll(s, prepared, first, n)
  {
    if n > 0 { RegisterAllPrefix(s, prepared, more, first, n - 1); }
  }

  lemma OneMoreLive(live: map<SourceId, InputItem>, id: SourceId, item: InputItem)
    requires id in live && live[id] == item
    ensures LiveItems(live, id + 1) == LiveItems(live, id) + multiset{item}
  {}

  lemma {:induction false} LiveItemsExtend(live: map<SourceId, InputItem>, items: seq<InputItem>, first: SourceId,
                                           n: nat)
    requires n <= |items|
    requires forall id :: first <= id < first + n ==> id in live && live[id] == items[id - first]
    ensures LiveItems(live, first + n) == LiveItems(live, first) + multiset(items[..n])
  {
    if n > 0 {
      var last: SourceId := first + (n - 1);
      LiveItemsExtend(live, items, first, n - 1);
      OneMoreLive(live, last, items[n - 1]);
      BagOfPrefix(items, n);
    }
  }

  lemma BagOfPrefix<T>(items: seq<T>, n: nat)
    requires 0 < n <= |items|
    ensures multiset(items[..n]) == multiset(items[..n - 1]) + multiset{items[n - 1]}
  {
    assert items[..n] == items[..n - 1] + [items[n - 1]];
  }

  lemma {:induction false} NoLiveItems(live: map<SourceId, InputItem>, n: nat)
    requires forall id :: id in live ==> id >= n
    ensures LiveItems(live, n) == multiset{}
  {
    if n > 0 { NoLiveItems(live, n - 1); }
  }

  // ---- attribution on the first turn ----

  /** Two items whose copies can be told apart: one of them lives in a block of its own, or their
      shared addresses (or, without any address, their contents) differ. */
  predicate Distinguishable(a: InputItem, b: InputItem) {
    || OwnsBlock(a) || OwnsBlock(b)
    || CloneIdentity(a, 0) != CloneIdentity(b, 0)
    || (CloneIdentity(a, 0).None? && a != b)
  }

  ghost predicate SelfIdentifying(items: seq<InputItem>) {
    forall i, j :: 0 <= i < j < |items| ==> Distinguishable(items[i], items[j])
  }

  /** The sources a first turn has registered. */
  function FirstSources(items: seq<InputItem>, tag: nat): Sources {
    RegisterAll(NoSources, Clones(items, tag), 0, |items|)
  }

  ghost function SourceRefs(s: Sources, prepared: seq<Held>): (r: seq<Option<SourceId>>)
    ensures |r| == |prepared| && forall i :: 0 <= i < |r| ==> r[i] == s.Resolve(prepared[i])
  {
    seq(|prepared|, i requires 0 <= i < |prepared| => s.Resolve(prepared[i]))
  }

  /** The source named for each delivered item. */
  function NamedSources(slots: seq<Option<nat>>, refs: seq<Option<SourceId>>): (r: seq<Option<SourceId>>)
    ensures |r| == |slots|
    ensures forall i :: 0 <= i < |r| ==>
              r[i] == if slots[i].Some? && slots[i].value < |refs| then refs[slots[i].value] else None
  {
    seq(|slots|, i requires 0 <= i < |slots| =>
      if slots[i].Some? && slots[i].value < |refs| then refs[slots[i].value] else None)
  }

  lemma {:induction false} RegisterAllIdentity(s: Sources, items: seq<InputItem>, tag: nat, first: SourceId, n: nat,
                                               i: nat)
    requires i < n <= |items| && CloneIdentity(items[i], tag + i).Some?
    requires forall j :: i < j < n ==> CloneIdentity(items[j], tag + j) != CloneIdentity(items[i], tag + i)
    ensures var d := CloneIdentity(items[i], tag + i).value;
            var ids := RegisterAll(s, Clones(items, tag), first, n).byIdentity;
            d in ids && ids[d] == first + i
  {
    if i < n - 1 { RegisterAllIdentity(s, items, tag, first, n - 1, i); }
  }

  lemma ClonesDiffer(a: InputItem, b: InputItem, s: nat, t: nat)
    requires s != t && Distinguishable(a, b)
    ensures CloneIdentity(a, s) != CloneIdentity(b, t)
      || (CloneIdentity(a, s).None? && CloneIdentity(b, t).None? && a != b)
  {}

  lemma OwnIsOldest(items: seq<InputItem>, tag: nat, i: nat)
    requires i < |items| && forall j :: 0 <= j < |items| && j != i ==> items[j] != items[i]
    ensures Oldest(FirstSources(items, tag).live, items[i]) == Some(i)
  {
    RegisterAllLive(NoSources, items, tag, 0, |items|);
    var live := FirstSources(items, tag).live;
    assert i in live && live[i] == items[i];
    OldestExists(live, items[i], i);
  }

  /** On a self-identifying input every prepared item resolves to the source registered for it. */
  lemma RefIsOwn(items: seq<InputItem>, tag: nat, i: nat)
    requires i < |items| && SelfIdentifying(items)
    ensures FirstSources(items, tag).Resolve(Clones(items, tag)[i]) == Some(i)
  {
    forall j | 0 <= j < |items| && j != i
      ensures CloneIdentity(items[j], tag + j) != CloneIdentity(items[i], tag + i)
           || (CloneIdentity(items[i], tag + i).None? && items[j] != items[i])
    {
      if i < j { ClonesDiffer(items[i], items[j], tag + i, tag + j); }
      else { ClonesDiffer(items[j], items[i], tag + j, tag + i); }
    }
    if CloneIdentity(items[i], tag + i).Some? {
      RegisterAllIdentity(NoSources, items, tag, 0, |items|, i);
    } else {
      forall j | 0 <= j < |items| && j != i ensures items[j] != items[i] {
        NoIdentityEither(items[i], items[j], tag + i, tag + j);
      }
      OwnIsOldest(items, tag, i);
      NoIdentityRegistered(items, tag, |items|, Clones(items, tag)[i]);
    }
  }

  lemma NoIdentityEither(a: InputItem, b: InputItem, s: nat, t: nat)
    requires CloneIdentity(a, s).None?
    ensures a == b ==> CloneIdentity(b, t) == CloneIdentity(a, s)
  {}

  lemma NoIdentityRegistered(items: seq<InputItem>, tag: nat, n: nat, item: Held)
    requires n <= |items| && item.identity.None?
    ensures RegisterAll(NoSources, Clones(items, tag), 0, n).Resolve(item)
         == Oldest(RegisterAll(NoSources, Clones(items, tag), 0, n).live, item.item)
  {}

  /** One of the first `i` entries is `id`. */
  predicate Names(named: seq<Option<SourceId>>, i: nat, id: SourceId) {
    0 < i <= |named| && (named[i - 1] == Some(id) || Names(named, i - 1, id))
  }

  lemma {:induction false} NamesWitness(named: seq<Option<SourceId>>, i: nat, id: SourceId)
    requires i <= |named|
    ensures Names(named, i, id) <==> exists k :: 0 <= k < i && named[k] == Some(id)
  {
    if i > 0 { NamesWitness(named, i - 1, id); }
  }

  /** Whatever is named explicitly is no longer live once marked, and nothing new is. */
  lemma {:induction false} UseAllUsesNamed(s: Sources, items: seq<Held>, named: seq<Option<SourceId>>, n: nat,
                                           id: SourceId)
    requires n <= |items| == |named| && s.Valid() && id in UseAll(s, items, Some(named), n).live
    ensures id in s.live && UseAll(s, items, Some(named), n).live[id] == s.live[id] && !Names(named, n, id)
  {
    if n > 0 {
      UseAllValid(s, items, Some(named), n - 1);
      UseOneValid(UseAll(s, items, Some(named), n - 1), items[n - 1], named[n - 1]);
      UseAllUsesNamed(s, items, named, n - 1, id);
    }
  }

  /** While every delivered item names a live source of its own, nothing else is used up. */
  lemma {:induction false} UseAllSparesOthers(s: Sources, items: seq<Held>, named: seq<Option<SourceId>>, n: nat,
                                              id: SourceId)
    requires n <= |items| == |named| && s.Valid() && id in s.live && !Names(named, n, id)
    requires forall k :: 0 <= k < n ==> NamesAfresh(s.live, named, k)
    ensures id in UseAll(s, items, Some(named), n).live
  {
    if n > 0 {
      UseAllValid(s, items, Some(named), n - 1);
      UseOneValid(UseAll(s, items, Some(named), n - 1), items[n - 1], named[n - 1]);
      assert NamesAfresh(s.live, named, n - 1);
      UseAllSparesOthers(s, items, named, n - 1, id);
      UseAllSparesOthers(s, items, named, n - 1, named[n - 1].value);
    }
  }

  // ---- counting what was attributed ----

  /** The original items the filled slots stand for, in slot order. */
  function Attributed(items: seq<InputItem>, slots: seq<Option<nat>>): seq<InputItem> {
    if slots == [] then []
    else
      var last := slots[|slots| - 1];
      Attributed(items, slots[..|slots| - 1]) + (if last.Some? && last.value < |items| then [items[last.value]] else [])
  }

  /** `live` holds exactly the registered items no slot stands for. */
  ghost predicate Unattributed(items: seq<InputItem>, slots: seq<Option<nat>>, live: map<SourceId, InputItem>) {
    && (forall id: SourceId :: id in live <==> id < |items| && Some(id) !in slots)
    && (forall id :: id in live && id < |items| ==> live[id] == items[id])
  }

  ghost predicate DistinctSlots(slots: seq<Option<nat>>, n: nat) {
    && (forall i :: 0 <= i < |slots| && slots[i].Some? ==> slots[i].value < n)
    && (forall i, j :: 0 <= i < j < |slots| && slots[i].Some? && slots[j].Some? ==> slots[i].value != slots[j].value)
  }

  lemma {:induction false} LivePrefix(items: seq<InputItem>, live: map<SourceId, InputItem>, n: nat)
    requires n <= |items| && forall id: SourceId :: id < n ==> id in live && live[id] == items[id]
    ensures LiveItems(live, n) == multiset(items[..n])
  {
    if n > 0 {
      LivePrefix(items, live, n - 1);
      BagOfPrefix(items, n);
    }
  }

  lemma NothingAttributed(items: seq<InputItem>, live: map<SourceId, InputItem>)
    requires forall id: SourceId :: id in live <==> id < |items|
    requires forall id: SourceId :: id < |items| ==> live[id] == items[id]
    ensures LiveItems(live, |items|) == multiset(items)
  {
    LivePrefix(items, live, |items|);
    assert items[..|items|] == items;
  }

  lemma EmptySlotLast(items: seq<InputItem>, init: seq<Option<nat>>, live: map<SourceId, InputItem>)
    requires DistinctSlots(init + [None], |items|) && Unattributed(items, init + [None], live)
    ensures DistinctSlots(init, |items|) && Unattributed(items, init, live)
  {
    var slots := init + [None];
    assert forall i :: 0 <= i < |init| ==> slots[i] == init[i];
    assert forall p: nat :: Some(p) in slots <==> Some(p) in init;
  }

  /** Giving back the last slot's source. */
  lemma FilledSlotLast(items: seq<InputItem>, init: seq<Option<nat>>, p: nat, live: map<SourceId, InputItem>)
    requires DistinctSlots(init + [Some(p)], |items|) && Unattributed(items, init + [Some(p)], live)
    ensures DistinctSlots(init, |items|) && p < |items| && p !in live
    ensures Unattributed(items, init, live[p := items[p]])
  {
    var slots := init + [Some(p)];
    assert slots[|init|] == Some(p);
    assert forall i :: 0 <= i < |init| ==> slots[i] == init[i];
    assert Some(p) !in init;
    assert forall q: nat :: Some(q) in slots <==> Some(q) in init || q == p;
  }

  lemma AttributedLast(items: seq<InputItem>, init: seq<Option<nat>>, last: Option<nat>)
    requires last.Some? ==> last.value < |items|
    ensures multiset(Attributed(items, init + [last]))
         == multiset(Attributed(items, init)) + (if last.Some? then multiset{items[last.value]} else multiset{})
  {
    assert (init + [last])[..|init|] == init;
  }

  lemma BagStep<T>(left: multiset<T>, item: T, more: multiset<T>, before: multiset<T>, after: multiset<T>,
                   all: multiset<T>)
    requires more + before == all && more == left + multiset{item} && after == before + multiset{item}
    ensures left + after == all
  {}

  lemma OneMoreAttributed(items: seq<InputItem>, init: seq<Option<nat>>, p: nat, live: map<SourceId, InputItem>)
    requires p < |items| && p !in live
    requires LiveItems(live[p := items[p]], |items|) + multiset(Attributed(items, init)) == multiset(items)
    ensures LiveItems(live, |items|) + multiset(Attributed(items, init + [Some(p)])) == multiset(items)
  {
    AttributedLast(items, init, Some(p));
    LiveItemsAdd(live, p, items[p], |items|);
    BagStep(LiveItems(live, |items|), items[p], LiveItems(live[p := items[p]], |items|),
            multiset(Attributed(items, init)), multiset(Attributed(items, init + [Some(p)])), multiset(items));
  }

  /** The original items are those left over and those attributed, counted with multiplicity. */
  lemma {:induction false} AttributedAndLeft(items: seq<InputItem>, slots: seq<Option<nat>>,
                                             live: map<SourceId, InputItem>)
    requires DistinctSlots(slots, |items|) && Unattributed(items, slots, live)
    ensures LiveItems(live, |items|) + multiset(Attributed(items, slots)) == multiset(items)
    decreases |slots|, 0
  {
    if slots == [] {
      NothingAttributed(items, live);
    } else {
      var init, last := slots[..|slots| - 1], slots[|slots| - 1];
      if last.None? {
        assert slots == init + [None];
        AttributedAndLeftEmpty(items, init, live);
      } else {
        assert slots == init + [Some(last.value)];
        AttributedAndLeftFilled(items, init, last.value, live);
      }
    }
  }

  lemma {:induction false} AttributedAndLeftEmpty(items: seq<InputItem>, init: seq<Option<nat>>,
                                                  live: map<SourceId, InputItem>)
    requires DistinctSlots(init + [None], |items|) && Unattributed(items, init + [None], live)
    ensures LiveItems(live, |items|) + multiset(Attributed(items, init + [None])) == multiset(items)
    decreases |init|, 1
  {
    EmptySlotLast(items, init, live);
    AttributedAndLeft(items, init, live);
    AttributedLast(items, init, None);
  }

  lemma {:induction false} AttributedAndLeftFilled(items: seq<InputItem>, init: seq<Option<nat>>, p: nat,
                                                   live: map<SourceId, InputItem>)
    requires DistinctSlots(init + [Some(p)], |items|) && Unattributed(items, init + [Some(p)], live)
    ensures LiveItems(live, |items|) + multiset(Attributed(items, init + [Some(p)])) == multiset(items)
    decreases |init|, 1
  {
    FilledSlotLast(items, init, p, live);
    AttributedAndLeft(items, init, live[p := items[p]]);
    OneMoreAttributed(items, init, p, live);
  }

  // ---- the filtered first turn ----

  lemma {:induction false} AllFilled(slots: seq<Option<nat>>)
    requires Filled(slots) == |slots|
    ensures forall i :: 0 <= i < |slots| ==> slots[i].Some?
  {
    if slots != [] {
      FilledLast(slots);
      FilledBounds(slots[..|slots| - 1]);
      AllFilled(slots[..|slots| - 1]);
    }
  }

  lemma NoneFilled(slots: seq<Option<nat>>)
    requires forall i :: 0 <= i < |slots| ==> slots[i].None?
    ensures Filled(slots) == 0
  {
    assert (set i | 0 <= i < |slots| && slots[i].Some?) == {};
  }

  lemma {:induction false} TakenBySlots(slots: seq<Option<nat>>, n: nat)
    requires DistinctSlots(slots, n)
    ensures Taken(seq(n, p requires 0 <= p < n => Some(p) in slots)) == Filled(slots)
  {
    var taken := seq(n, p requires 0 <= p < n => Some(p) in slots);
    if slots == [] {
      assert (set p | 0 <= p < |taken| && taken[p]) == {};
      NoneFilled(slots);
    } else {
      var init, last := slots[..|slots| - 1], slots[|slots| - 1];
      assert slots == init + [last];
      assert forall i :: 0 <= i < |init| ==> slots[i] == init[i];
      TakenBySlots(init, n);
      FilledLast(slots);
      var before := seq(n, p requires 0 <= p < n => Some(p) in init);
      if last.Some? {
        assert Some(last.value) !in init;
        TakenUpdate(before, last.value);
        assert taken == before[last.value := true];
      } else {
        assert taken == before;
      }
    }
  }

  lemma AllTaken(slots: seq<Option<nat>>, n: nat, p: nat)
    requires DistinctSlots(slots, n) && Filled(slots) == n && p < n
    ensures Some(p) in slots
  {
    var taken := seq(n, q requires 0 <= q < n => Some(q) in slots);
    TakenBySlots(slots, n);
    TakenComplement(taken);
    assert taken[p] || p in Unmatched(taken);
  }

  lemma NamedIsOwn(items: seq<InputItem>, tag: nat, slots: seq<Option<nat>>, k: nat)
    requires SelfIdentifying(items) && DistinctSlots(slots, |items|) && k < |slots|
    ensures NamedSources(slots, SourceRefs(FirstSources(items, tag), Clones(items, tag)))[k]
         == if slots[k].Some? then Some(slots[k].value) else None
  {
    if slots[k].Some? { RefIsOwn(items, tag, slots[k].value); }
  }

  /** The sources named on a first turn, given the slots the matcher filled. */
  ghost function FirstNamed(items: seq<InputItem>, tag: nat, slots: seq<Option<nat>>): (r: seq<Option<SourceId>>)
    ensures |r| == |slots|
  {
    NamedSources(slots, SourceRefs(FirstSources(items, tag), Clones(items, tag)))
  }

  lemma NamedIffSlotted(items: seq<InputItem>, tag: nat, slots: seq<Option<nat>>, n: nat, id: SourceId)
    requires SelfIdentifying(items) && DistinctSlots(slots, |items|) && n <= |slots|
    ensures Names(FirstNamed(items, tag, slots), n, id) <==> Some(id) in slots[..n]
  {
    var named := FirstNamed(items, tag, slots);
    NamesWitness(named, n, id);
    forall k | 0 <= k < |slots| ensures named[k] == if slots[k].Some? then Some(slots[k].value) else None {
      NamedIsOwn(items, tag, slots, k);
    }
    if Some(id) in slots[..n] {
      var k :| 0 <= k < n && slots[..n][k] == Some(id);
      assert named[k] == Some(id);
    }
    if k :| 0 <= k < n && named[k] == Some(id) {
      assert slots[..n][k] == Some(id);
    }
  }

  lemma LiveIsUnslotted(items: seq<InputItem>, tag: nat, delivered: seq<Held>, slots: seq<Option<nat>>, id: SourceId)
    requires SelfIdentifying(items) && DistinctSlots(slots, |items|) && |slots| == |delivered|
    requires id in UseAll(FirstSources(items, tag), delivered, Some(FirstNamed(items, tag, slots)), |delivered|).live
    ensures id < |items| && Some(id) !in slots
    ensures UseAll(FirstSources(items, tag), delivered, Some(FirstNamed(items, tag, slots)), |delivered|).live[id]
         == items[id]
  {
    RegisterAllLive(NoSources, items, tag, 0, |items|);
    RegisterAllValid(NoSources, Clones(items, tag), 0, |items|);
    UseAllUsesNamed(FirstSources(items, tag), delivered, FirstNamed(items, tag, slots), |delivered|, id);
    NamedIffSlotted(items, tag, slots, |slots|, id);
    assert slots[..|slots|] == slots;
  }

  /** Every filled slot names a live source not named before. */
  ghost predicate NamesAfresh(live: map<SourceId, InputItem>, named: seq<Option<SourceId>>, k: nat)
    requires k < |named|
  {
    named[k].Some? && named[k].value in live && !Names(named, k, named[k].value)
  }

  lemma SlotsNameAfresh(items: seq<InputItem>, tag: nat, slots: seq<Option<nat>>, k: nat)
    requires SelfIdentifying(items) && DistinctSlots(slots, |items|) && k < |slots| && slots[k].Some?
    ensures NamesAfresh(FirstSources(items, tag).live, FirstNamed(items, tag, slots), k)
  {
    NamedIsOwn(items, tag, slots, k);
    NamedIffSlotted(items, tag, slots, k, slots[k].value);
    RegisterAllLive(NoSources, items, tag, 0, |items|);
  }

  lemma UnslottedWhenShort(items: seq<InputItem>, tag: nat, delivered: seq<Held>, slots: seq<Option<nat>>, p: nat)
    requires SelfIdentifying(items) && DistinctSlots(slots, |items|) && |slots| == |delivered|
    requires forall k :: 0 <= k < |slots| ==> slots[k].Some?
    requires p < |items| && Some(p) !in slots
    ensures p in UseAll(FirstSources(items, tag), delivered, Some(FirstNamed(items, tag, slots)), |delivered|).live
  {
    var s, named := FirstSources(items, tag), FirstNamed(items, tag, slots);
    forall k | 0 <= k < |named| ensures NamesAfresh(s.live, named, k) {
      SlotsNameAfresh(items, tag, slots, k);
    }
    assert slots[..|slots|] == slots;
    NamedIffSlotted(items, tag, slots, |slots|, p);
    RegisterAllLive(NoSources, items, tag, 0, |items|);
    RegisterAllValid(NoSources, Clones(items, tag), 0, |items|);
    UseAllSparesOthers(s, delivered, named, |delivered|, p);
  }

  lemma UnslottedIsLive(items: seq<InputItem>, tag: nat, delivered: seq<Held>, slots: seq<Option<nat>>, p: nat)
    requires SelfIdentifying(items) && MaximumMatching(slots, |items|, |delivered|) && p < |items|
    ensures Some(p) in slots
         || p in UseAll(FirstSources(items, tag), delivered, Some(FirstNamed(items, tag, slots)), |delivered|).live
  {
    if |items| <= |delivered| {
      AllTaken(slots, |items|, p);
    } else if Some(p) !in slots {
      AllFilled(slots);
      UnslottedWhenShort(items, tag, delivered, slots, p);
    }
  }

  /** What is live after a filtered first turn: exactly the items no slot stands for. */
  lemma FirstTurnLive(items: seq<InputItem>, tag: nat, delivered: seq<Held>, slots: seq<Option<nat>>,
                      after: map<SourceId, InputItem>)
    requires SelfIdentifying(items) && MaximumMatching(slots, |items|, |delivered|)
    requires after == UseAll(FirstSources(items, tag), delivered, Some(FirstNamed(items, tag, slots)), |delivered|).live
    ensures Unattributed(items, slots, after)
  {
    forall id | id in after ensures id < |items| && Some(id) !in slots && after[id] == items[id] {
      LiveIsUnslotted(items, tag, delivered, slots, id);
    }
    forall id: SourceId | id < |items| ensures Some(id) in slots || id in after {
      UnslottedIsLive(items, tag, delivered, slots, id);
    }
  }

  function Initially(items: seq<InputItem>): Option<seq<InputItem>> {
    if items == [] then None else Some(items)
  }

  /** What is still offered after a first turn. */
  ghost function OfferedAfter(items: seq<InputItem>, tag: nat, delivered: seq<Held>,
                              explicit: Option<seq<Option<SourceId>>>): seq<InputItem>
  {
    Offered(RemoveAllRemaining(Initially(items), UsedItems(FirstSources(items, tag), delivered, explicit, |delivered|)))
  }

  /** End to end, for any filter: after the first turn, what is still to be offered and what the
      matcher attributed make up the original input, item for item.  Dropped items are offered
      again; moved or rewritten ones are not. */
  lemma FirstTurnAttribution(items: seq<InputItem>, tag: nat, delivered: seq<Held>, slots: seq<Option<nat>>)
    requires SelfIdentifying(items) && MaximumMatching(slots, |items|, |delivered|)
    ensures multiset(OfferedAfter(items, tag, delivered, Some(FirstNamed(items, tag, slots))))
          + multiset(Attributed(items, slots)) == multiset(items)
  {
    var named := FirstNamed(items, tag, slots);
    var after := UseAll(FirstSources(items, tag), delivered, Some(named), |delivered|).live;
    FirstTurnLive(items, tag, delivered, slots, after);
    AttributedAndLeft(items, slots, after);
    FirstTurnMirrors(items, tag, delivered, Some(named), |delivered|);
  }

  lemma FirstTurnSources(items: seq<InputItem>, tag: nat)
    ensures FirstSources(items, tag).Valid()
    ensures forall id: SourceId :: id in FirstSources(items, tag).live <==> id < |items|
    ensures forall id: SourceId :: id < |items| ==> FirstSources(items, tag).live[id] == items[id]
  {
    RegisterAllLive(NoSources, items, tag, 0, |items|);
    RegisterAllValid(NoSources, Clones(items, tag), 0, |items|);
  }

  lemma FirstTurnStart(items: seq<InputItem>, tag: nat)
    ensures FirstSources(items, tag).Valid() && IdsBelow(FirstSources(items, tag).live, |items|)
    ensures multiset(Offered(Initially(items))) == LiveItems(FirstSources(items, tag).live, |items|)
  {
    hide FirstSources, LiveItems;
    FirstTurnSources(items, tag);
    NothingAttributed(items, FirstSources(items, tag).live);
  }

  lemma FirstTurnMirrors(items: seq<InputItem>, tag: nat, delivered: seq<Held>,
                         explicit: Option<seq<Option<SourceId>>>, n: nat)
    requires n <= |delivered|
    ensures multiset(Offered(RemoveAllRemaining(Initially(items),
      UsedItems(FirstSources(items, tag), delivered, explicit, n))))
         == LiveItems(UseAll(FirstSources(items, tag), delivered, explicit, n).live, |items|)
  {
    hide FirstSources, Initially, IdsBelow;
    FirstTurnStart(items, tag);
    UseAllMirrors(FirstSources(items, tag), delivered, explicit, n, Initially(items), |items|);
  }

}
