/** Filtered turns after the first: sources that earlier filters left over may still be live. */
module ConversationFilters {
  import opened Items
  import opened FilterMatcher
  import opened ConversationTracker
  import opened ConversationTurns

  // ---- the sources that a turn registers on top of what is left ----

  /** The sources after a turn has registered what it offers. */
  function Registered(s: Sources, due: seq<InputItem>, tag: nat, first: SourceId): Sources {
    RegisterAll(s, Clones(due, tag), first, |due|)
  }

  ghost function Refs(s: Sources, due: seq<InputItem>, tag: nat, first: SourceId): (r: seq<Option<SourceId>>)
    ensures |r| == |due|
  {
    SourceRefs(Registered(s, due, tag, first), Clones(due, tag))
  }

  ghost predicate Fits(s: Sources, due: seq<InputItem>, first: SourceId) {
    s.Valid() && IdsBelow(s.live, first) && SelfIdentifying(due)
  }

  /** A prepared item resolves to a live source of its own content: to its own if it has an address, and
      otherwise perhaps to one that an earlier turn left over. */
  lemma RefHasContent(s: Sources, due: seq<InputItem>, tag: nat, first: SourceId, p: nat)
    requires Fits(s, due, first) && p < |due|
    ensures var now, ref := Registered(s, due, tag, first), Refs(s, due, tag, first)[p];
      && ref.Some? && ref.value in now.live && now.live[ref.value] == due[p]
      && (CloneIdentity(due[p], tag + p).Some? ==> ref.value == first + p)
  {
    hide CloneIdentity, RegisterAll, SelfIdentifying;
    var now := Registered(s, due, tag, first);
    RegisterAllLive(s, due, tag, first, |due|);
    if CloneIdentity(due[p], tag + p).Some? {
      IdentityIsOwn(s, due, tag, first, p);
    } else {
      OldestExists(now.live, due[p], first + p);
    }
  }

  lemma IdentityIsOwn(s: Sources, due: seq<InputItem>, tag: nat, first: SourceId, p: nat)
    requires Fits(s, due, first) && p < |due| && CloneIdentity(due[p], tag + p).Some?
    ensures var d, ids := CloneIdentity(due[p], tag + p).value, Registered(s, due, tag, first).byIdentity;
      d in ids && ids[d] == first + p
  {
    hide CloneIdentity, RegisterAll;
    forall j | p < j < |due| ensures CloneIdentity(due[j], tag + j) != CloneIdentity(due[p], tag + p) {
      ClonesDiffer(due[p], due[j], tag + p, tag + j);
    }
    RegisterAllIdentity(s, due, tag, first, |due|, p);
  }

  lemma RefsDiffer(s: Sources, due: seq<InputItem>, tag: nat, first: SourceId, p: nat, q: nat)
    requires Fits(s, due, first) && p < q < |due|
    ensures Refs(s, due, tag, first)[p] != Refs(s, due, tag, first)[q]
  {
    hide Registered, Refs;
    RefHasContent(s, due, tag, first, p);
    RefHasContent(s, due, tag, first, q);
    ClonesDiffer(due[p], due[q], tag + p, tag + q);
    if CloneIdentity(due[p], tag + p).None? { NoIdentityEither(due[p], due[q], tag + p, tag + q); }
    if CloneIdentity(due[q], tag + q).None? { NoIdentityEither(due[q], due[p], tag + q, tag + p); }
  }

  /** The sources named for the delivered items. */
  ghost function Named(s: Sources, due: seq<InputItem>, tag: nat, first: SourceId, slots: seq<Option<nat>>)
    : (r: seq<Option<SourceId>>)
    ensures |r| == |slots|
  {
    NamedSources(slots, Refs(s, due, tag, first))
  }

  lemma NamedAfresh(s: Sources, due: seq<InputItem>, tag: nat, first: SourceId, slots: seq<Option<nat>>, k: nat)
    requires Fits(s, due, first) && DistinctSlots(slots, |due|) && k < |slots| && slots[k].Some?
    ensures Named(s, due, tag, first, slots)[k] == Refs(s, due, tag, first)[slots[k].value]
    ensures NamesAfresh(Registered(s, due, tag, first).live, Named(s, due, tag, first, slots), k)
  {
    hide Registered, Refs;
    var named, id := Named(s, due, tag, first, slots), Refs(s, due, tag, first)[slots[k].value];
    RefHasContent(s, due, tag, first, slots[k].value);
    NamesWitness(named, k, id.value);
    forall j | 0 <= j < k ensures named[j] != id {
      if slots[j].Some? {
        var a, b := slots[j].value, slots[k].value;
        if a < b { RefsDiffer(s, due, tag, first, a, b); } else { RefsDiffer(s, due, tag, first, b, a); }
      }
    }
  }

  // ---- when every delivered item has a slot ----

  /** Then the delivered items are accounted under exactly what their slots stand for. */
  lemma {:induction false} SlottedUse(s: Sources, due: seq<InputItem>, tag: nat, first: SourceId, delivered: seq<Held>,
                                      slots: seq<Option<nat>>, n: nat)
    requires Fits(s, due, first) && DistinctSlots(slots, |due|) && n <= |slots| == |delivered|
    requires forall k :: 0 <= k < |slots| ==> slots[k].Some?
    ensures UsedItems(Registered(s, due, tag, first), delivered, Some(Named(s, due, tag, first, slots)), n)
         == Attributed(due, slots[..n])
  {
    hide Registered, Named, Refs, ChosenItem;
    if n > 0 {
      SlottedUse(s, due, tag, first, delivered, slots, n - 1);
      SlottedChoice(s, due, tag, first, delivered, slots, n - 1);
      assert slots[..n][..n - 1] == slots[..n - 1];
    }
  }

  lemma SlottedChoice(s: Sources, due: seq<InputItem>, tag: nat, first: SourceId, delivered: seq<Held>,
                      slots: seq<Option<nat>>, k: nat)
    requires Fits(s, due, first) && DistinctSlots(slots, |due|) && k < |slots| == |delivered|
    requires forall j :: 0 <= j < |slots| ==> slots[j].Some?
    ensures var now, named := Registered(s, due, tag, first), Some(Named(s, due, tag, first, slots));
      ChosenItem(UseAll(now, delivered, named, k), delivered[k], ExplicitAt(named, k)) == due[slots[k].value]
  {
    hide Registered, Named, Refs, NamesAfresh;
    var now, named := Registered(s, due, tag, first), Named(s, due, tag, first, slots);
    RegisteredValid(s, due, tag, first);
    forall j | 0 <= j < |slots| ensures NamesAfresh(now.live, named, j) { NamedAfresh(s, due, tag, first, slots, j); }
    NamedAfresh(s, due, tag, first, slots, k);
    RefHasContent(s, due, tag, first, slots[k].value);
    var id := named[k].value;
    SpareNamed(now, delivered, named, k, id);
  }

  lemma SpareNamed(now: Sources, delivered: seq<Held>, named: seq<Option<SourceId>>, k: nat, id: SourceId)
    requires k < |delivered| == |named| && now.Valid() && named[k] == Some(id)
    requires forall j :: 0 <= j <= k ==> NamesAfresh(now.live, named, j)
    ensures var before := UseAll(now, delivered, Some(named), k).live;
      id in now.live && id in before && before[id] == now.live[id]
  {
    assert NamesAfresh(now.live, named, k);
    UseAllSparesOthers(now, delivered, named, k, id);
    UseAllUsesNamed(now, delivered, named, k, id);
  }

  lemma RegisteredValid(s: Sources, due: seq<InputItem>, tag: nat, first: SourceId)
    requires Fits(s, due, first)
    ensures Registered(s, due, tag, first).Valid() && IdsBelow(Registered(s, due, tag, first).live, first + |due|)
  {
    RegisterAllValid(s, Clones(due, tag), first, |due|);
    RegisterAllLive(s, due, tag, first, |due|);
  }

  // ---- when there are more delivered items than prepared ones ----

  /** Every source that is used up is accounted for. */
  lemma {:induction false} UsedUpIsUsed(s: Sources, items: seq<Held>, explicit: Option<seq<Option<SourceId>>>, n: nat,
                                        bound: nat)
    requires n <= |items| && s.Valid() && IdsBelow(s.live, bound)
    ensures LiveItems(s.live, bound)
         <= LiveItems(UseAll(s, items, explicit, n).live, bound) + multiset(UsedItems(s, items, explicit, n))
  {
    hide UseOne, ChosenItem, ExplicitAt, IdsBelow;
    if n > 0 {
      UsedUpIsUsed(s, items, explicit, n - 1, bound);
      UseAllValid(s, items, explicit, n - 1);
      UseAllIdsBelow(s, items, explicit, n - 1, bound);
      var before := UseAll(s, items, explicit, n - 1);
      OneUsedUp(before, items[n - 1], ExplicitAt(explicit, n - 1), bound);
      var chosen := ChosenItem(before, items[n - 1], ExplicitAt(explicit, n - 1));
      assert multiset(UsedItems(s, items, explicit, n))
        == multiset(UsedItems(s, items, explicit, n - 1)) + multiset{chosen};
    }
  }

  lemma OneUsedUp(s: Sources, item: Held, explicit: Option<SourceId>, bound: nat)
    requires s.Valid() && IdsBelow(s.live, bound)
    ensures LiveItems(s.live, bound) <= LiveItems(UseOne(s, item, explicit).live, bound)
      + multiset{ChosenItem(s, item, explicit)}
  {
    UseOneValid(s, item, explicit);
    var id := Chosen(s, item, explicit);
    if id.Some? { LiveItemsRemove(s.live, id.value, bound); }
  }

  lemma {:induction false} FewerLive(a: map<SourceId, InputItem>, b: map<SourceId, InputItem>, n: nat)
    requires forall id :: id in a ==> id in b && b[id] == a[id]
    ensures LiveItems(a, n) <= LiveItems(b, n)
  {
    if n > 0 { FewerLive(a, b, n - 1); }
  }

  /** Sources that are gone, given back one by one. */
  lemma {:induction false} GivenBack(live: map<SourceId, InputItem>, left: map<SourceId, InputItem>,
                                     refs: seq<Option<SourceId>>, items: seq<InputItem>, bound: nat)
    requires IdsBelow(live, bound) && forall id :: id in left ==> id in live && live[id] == left[id]
    requires |refs| == |items| && forall p, q :: 0 <= p < q < |refs| ==> refs[p] != refs[q]
    requires forall p :: 0 <= p < |refs| ==> GoneFrom(live, left, refs[p], items[p])
    ensures LiveItems(left, bound) + multiset(items) <= LiveItems(live, bound)
    decreases |items|
  {
    if items == [] {
      FewerLive(left, live, bound);
    } else {
      var n := |items| - 1;
      var id := refs[n].value;
      assert GoneFrom(live, left, refs[n], items[n]);
      var more := left[id := items[n]];
      forall p | 0 <= p < n ensures GoneFrom(live, more, refs[..n][p], items[..n][p]) {
        assert GoneFrom(live, left, refs[p], items[p]) && refs[p] != refs[n];
      }
      GivenBack(live, more, refs[..n], items[..n], bound);
      LiveItemsAdd(left, id, items[n], bound);
      BagOfPrefix(items, |items|);
      assert items[..|items|] == items;
    }
  }

  ghost predicate GoneFrom(live: map<SourceId, InputItem>, left: map<SourceId, InputItem>, ref: Option<SourceId>,
                           item: InputItem) {
    ref.Some? && ref.value in live && live[ref.value] == item && ref.value !in left
  }

  /** When every prepared item is attributed, all of them are accounted for. */
  lemma AllUsed(s: Sources, due: seq<InputItem>, tag: nat, first: SourceId, delivered: seq<Held>,
                slots: seq<Option<nat>>)
    requires Fits(s, due, first) && DistinctSlots(slots, |due|) && |slots| == |delivered| && Filled(slots) == |due|
    ensures multiset(due)
         <= multiset(UsedItems(Registered(s, due, tag, first), delivered, Some(Named(s, due, tag, first, slots)),
           |delivered|))
  {
    hide Registered, Named, Refs, SelfIdentifying, GoneFrom;
    var now, refs, named := Registered(s, due, tag, first), Refs(s, due, tag, first), Named(s, due, tag, first, slots);
    var left, bound := UseAll(now, delivered, Some(named), |delivered|).live, first + |due|;
    RegisteredValid(s, due, tag, first);
    UsedUpIsUsed(now, delivered, Some(named), |delivered|, bound);
    forall id | id in left ensures id in now.live && now.live[id] == left[id] {
      UseAllUsesNamed(now, delivered, named, |delivered|, id);
    }
    forall p, q | 0 <= p < q < |refs| ensures refs[p] != refs[q] { RefsDiffer(s, due, tag, first, p, q); }
    forall p | 0 <= p < |refs| ensures GoneFrom(now.live, left, refs[p], due[p]) {
      NamedIsGone(s, due, tag, first, delivered, slots, p);
    }
    GivenBack(now.live, left, refs, due, bound);
    BagCancels(LiveItems(now.live, bound), LiveItems(left, bound), multiset(due),
               multiset(UsedItems(now, delivered, Some(named), |delivered|)));
  }

  lemma BagCancels<T>(all: multiset<T>, left: multiset<T>, items: multiset<T>, used: multiset<T>)
    requires all <= left + used && left + items <= all
    ensures items <= used
  {
    forall x ensures items[x] <= used[x] {
      assert (left + items)[x] <= all[x] <= (left + used)[x];
    }
  }

  lemma NamedIsGone(s: Sources, due: seq<InputItem>, tag: nat, first: SourceId, delivered: seq<Held>,
                    slots: seq<Option<nat>>, p: nat)
    requires Fits(s, due, first) && DistinctSlots(slots, |due|) && |slots| == |delivered| && Filled(slots) == |due|
      && p < |due|
    ensures var now, named := Registered(s, due, tag, first), Named(s, due, tag, first, slots);
      GoneFrom(now.live, UseAll(now, delivered, Some(named), |delivered|).live, Refs(s, due, tag, first)[p], due[p])
  {
    hide Registered, Refs, SelfIdentifying;
    var now, named := Registered(s, due, tag, first), Named(s, due, tag, first, slots);
    RegisteredValid(s, due, tag, first);
    RefHasContent(s, due, tag, first, p);
    AllTaken(slots, |due|, p);
    var k :| 0 <= k < |slots| && slots[k] == Some(p);
    var id := Refs(s, due, tag, first)[p].value;
    assert named[k] == Some(id);
    NamesWitness(named, |named|, id);
    if id in UseAll(now, delivered, Some(named), |delivered|).live {
      UseAllUsesNamed(now, delivered, named, |delivered|, id);
    }
  }

  lemma AllAttributed(due: seq<InputItem>, slots: seq<Option<nat>>)
    requires DistinctSlots(slots, |due|) && Filled(slots) == |due|
    ensures multiset(Attributed(due, slots)) == multiset(due)
  {
    var none: map<SourceId, InputItem> := map[];
    forall id: SourceId ensures id in none <==> id < |due| && Some(id) !in slots {
      if id < |due| { AllTaken(slots, |due|, id); }
    }
    AttributedAndLeft(due, slots, none);
    NoLiveItems(none, |due|);
  }

  // ---- any turn ----

  lemma {:induction false} RemoveAllBag(remaining: Option<seq<InputItem>>, used: seq<InputItem>)
    ensures multiset(Offered(RemoveAllRemaining(remaining, used))) == multiset(Offered(remaining)) - multiset(used)
  {
    hide RemoveRemaining, Offered;
    if used != [] {
      var init, last := used[..|used| - 1], used[|used| - 1];
      RemoveAllBag(remaining, init);
      RemoveRemainingBag(RemoveAllRemaining(remaining, init), last);
      assert multiset(used) == multiset(init) + multiset{last} by { assert used == init + [last]; }
      BagMinus(multiset(Offered(remaining)), multiset(init), last);
    }
  }

  lemma BagMinus<T>(all: multiset<T>, gone: multiset<T>, x: T)
    ensures all - gone - multiset{x} == all - (gone + multiset{x})
  {}

  /** The filtered turn at its most general: whatever was left over by earlier turns, and for any filter, what
      is offered afterwards is what was offered before less what the matcher attributed.  So an item that a
      filter drops is offered until some filter lets it through, moved and rewritten ones are not offered
      again, and everything attributed is among what is marked as sent. */
  lemma TurnAttribution(s: Sources, due: seq<InputItem>, tag: nat, first: SourceId, delivered: seq<Held>,
                        slots: seq<Option<nat>>, remaining: Option<seq<InputItem>>)
    requires Fits(s, due, first) && MaximumMatching(slots, |due|, |delivered|)
    requires multiset(Offered(remaining)) <= multiset(due)
    ensures var used := UsedItems(Registered(s, due, tag, first), delivered, Some(Named(s, due, tag, first, slots)),
      |delivered|);
      && multiset(Offered(RemoveAllRemaining(remaining, used)))
        == multiset(Offered(remaining)) - multiset(Attributed(due, slots))
      && multiset(Attributed(due, slots)) <= multiset(used)
  {
    hide Registered, Named, Fits, UsedItems;
    var used := UsedItems(Registered(s, due, tag, first), delivered, Some(Named(s, due, tag, first, slots)),
      |delivered|);
    RemoveAllBag(remaining, used);
    if |delivered| <= |due| {
      AllFilled(slots);
      SlottedUse(s, due, tag, first, delivered, slots, |slots|);
      assert slots[..|slots|] == slots;
    } else {
      AllUsed(s, due, tag, first, delivered, slots);
      AllAttributed(due, slots);
    }
  }

  // ---- on the tracker ----

  /** What a turn offers of the original input. */
  function StillOffered(tracker: OpenAIServerConversationTracker, original: seq<InputItem>): seq<InputItem>
    reads tracker
  {
    if !tracker.sentInitialInput then original else Offered(tracker.remainingInitialInput)
  }

  /** The same in the tracker's own terms. */
  lemma TurnOutcome(s: Sources, prepared: seq<Held>, due: seq<InputItem>, tag: nat, first: SourceId,
                    delivered: seq<Held>,
                    slots: seq<Option<nat>>, sources: seq<Option<SourceId>>, remaining: Option<seq<InputItem>>)
    requires prepared == Clones(due, tag) && MaximumMatching(slots, |due|, |delivered|)
    requires sources == NamedSources(slots, SourceRefs(RegisterAll(s, prepared, first, |prepared|), prepared))
    requires Fits(s, due, first) && multiset(Offered(remaining)) <= multiset(due)
    ensures var used := UsedItems(RegisterAll(s, prepared, first, |prepared|), delivered, Some(sources), |delivered|);
      && multiset(Offered(RemoveAllRemaining(remaining, used)))
        == multiset(Offered(remaining)) - multiset(Attributed(due, slots))
      && forall x :: x in Attributed(due, slots) ==> x in used
  {
    hide RegisterAll, Fits, UsedItems, MaximumMatching, Attributed, RemoveAllRemaining;
    TurnAttribution(s, due, tag, first, delivered, slots, remaining);
    assert sources == Named(s, due, tag, first, slots);
    var used := UsedItems(RegisterAll(s, prepared, first, |prepared|), delivered, Some(sources), |delivered|);
    forall x | x in Attributed(due, slots) ensures x in used { MemberOfBag(Attributed(due, slots), used, x); }
  }

  /** What a turn offered, and for each delivered item which of that it stands for. */
  datatype Round = Round(due: seq<InputItem>, slots: seq<Option<nat>>) {
    function Accounted(): seq<InputItem> { Attributed(due, slots) }
  }

  /** The rest of a turn whose input has just been prepared. */
  method DeliverPrepared(tracker: OpenAIServerConversationTracker, prepared: seq<Held>,
                         filter: seq<Held> -> seq<Held>, ghost due: seq<InputItem>, ghost s: Sources, ghost tag: nat,
                         ghost first: SourceId) returns (slots: seq<Option<nat>>)
    requires tracker.Valid() && s.Valid() && IdsBelow(s.live, first) && prepared == Clones(due, tag)
    requires tracker.S() == RegisterAll(s, prepared, first, |prepared|)
    requires multiset(Offered(tracker.remainingInitialInput)) <= multiset(due)
    modifies tracker
    ensures tracker.Valid() && tracker.sentInitialInput == old(tracker.sentInitialInput)
    ensures old(tracker.Known()).Within(tracker.Known()) && DistinctSlots(slots, |due|)
    ensures SelfIdentifying(due) ==>
      && multiset(Offered(tracker.remainingInitialInput))
         == multiset(Offered(old(tracker.remainingInitialInput))) - multiset(Attributed(due, slots))
      && (forall x :: x in Attributed(due, slots) ==> x in tracker.Known().sent)
  {
    hide SelfIdentifying, Attributed, RemoveAllRemaining, UsedItems, UseAll, RegisterAll, MaximumMatching, Clones,
      Ledger.Sent, NamedSources, DistinctSlots;
    ghost var remaining := tracker.remainingInitialInput;
    var filtered, matched, sources := FilterModelInput(tracker, prepared, filter);
    slots := matched;
    var delivered := tracker.CloneItems(filtered);
    MatchingIsDistinct(slots, |due|, |delivered|);
    if SelfIdentifying(due) {
      TurnOutcome(s, prepared, due, tag, first, delivered, slots, sources, remaining);
    }
    SentKnows(tracker.Known(), UsedItems(tracker.S(), delivered, Some(sources), |delivered|));
    tracker.MarkInputAsSentWithSources(delivered, Some(sources));
  }

  /** A filtered turn of any tracker. */
  method FilteredTurn(tracker: OpenAIServerConversationTracker, original: seq<InputItem>, generated: seq<RunItem>,
                      policy: ReasoningPolicy, filter: seq<Held> -> seq<Held>) returns (round: Round)
    requires tracker.Valid()
    modifies tracker
    ensures tracker.Valid() && tracker.sentInitialInput && old(tracker.Known()).Within(tracker.Known())
    ensures round.due == old(tracker.Due(original, generated, policy)) && DistinctSlots(round.slots, |round.due|)
    ensures SelfIdentifying(round.due) ==>
      && multiset(Offered(tracker.remainingInitialInput))
         == multiset(old(StillOffered(tracker, original))) - multiset(round.Accounted())
      && (forall x :: x in round.Accounted() ==> x in tracker.Known().sent)
  {
    hide SelfIdentifying, Attributed, RegisterAll, RunItemsToInputItems, Values, Clones, DistinctSlots;
    ghost var s, first, tag := tracker.S(), tracker.nextSourceId, tracker.nextTag;
    ghost var due := tracker.Due(original, generated, policy);
    ghost var offered := StillOffered(tracker, original);
    PartOfWhole(offered, tracker.Known().Fresh(RunItemsToInputItems(generated, policy)));
    var prepared := tracker.PrepareInput(original, generated, policy);
    assert Offered(tracker.remainingInitialInput) == offered;
    var slots := DeliverPrepared(tracker, prepared, filter, due, s, tag, first);
    ValuesOfClones(due, tag);
    round := Round(Values(prepared), slots);
  }

  lemma ValuesOfClones(items: seq<InputItem>, tag: nat)
    ensures Values(Clones(items, tag)) == items
  {}

  lemma SentKnows(known: Ledger, items: seq<InputItem>)
    ensures known.Within(known.Sent(items)) && forall x :: x in items ==> x in known.Sent(items).sent
  {}

  lemma PartOfWhole<T>(a: seq<T>, b: seq<T>)
    ensures multiset(a) <= multiset(a + b)
  {}

  lemma MemberOfBag<T>(a: seq<T>, b: seq<T>, x: T)
    requires multiset(a) <= multiset(b) && x in a
    ensures x in b
  {
    assert x in multiset(a);
    assert x in multiset(b);
  }

  lemma MatchingIsDistinct(slots: seq<Option<nat>>, prepared: nat, filtered: nat)
    requires MaximumMatching(slots, prepared, filtered)
    ensures DistinctSlots(slots, prepared) && |slots| == filtered
  {}

  // ---- a chain of filtered turns ----

  /** How many copies of a content the rounds accounted for. */
  function AccountedCopies(rounds: seq<Round>, x: InputItem): nat {
    if rounds == [] then 0
    else AccountedCopies(rounds[..|rounds| - 1], x) + multiset(rounds[|rounds| - 1].Accounted())[x]
  }

  /** One of the responses to the rounds has the content. */
  predicate Answered(c: Conversation, n: nat, x: InputItem)
    requires n <= |c.responses|
  {
    n > 0 && (x in ResponseInputItems(c.responses[n - 1]) || Answered(c, n - 1, x))
  }

  /** A round accounted for a copy of the content. */
  predicate AccountedFor(rounds: seq<Round>, x: InputItem) {
    rounds != [] && (x in rounds[|rounds| - 1].Accounted() || AccountedFor(rounds[..|rounds| - 1], x))
  }

  /** How many copies of a content the original input still has to offer after these rounds. */
  function OpenCopies(c: Conversation, rounds: seq<Round>, x: InputItem): nat
    requires |rounds| <= |c.responses|
  {
    if Answered(c, |rounds|, x) then 0 else Max(0, multiset(c.original)[x] - AccountedCopies(rounds, x))
  }

  /** What is offered is what the rounds left open, and what they settled is known. */
  ghost predicate Settled(c: Conversation, rounds: seq<Round>, offered: seq<InputItem>, known: Ledger)
    requires |rounds| <= |c.responses|
  {
    && (forall x :: multiset(offered)[x] == OpenCopies(c, rounds, x))
    && (forall x :: AccountedFor(rounds, x) || Answered(c, |rounds|, x) ==> x in known.sent)
  }

  /** Nothing recorded is forgotten: what a turn does not offer is known. */
  ghost predicate Remembers(recorded: seq<InputItem>, due: seq<InputItem>, known: Ledger) {
    forall x :: x in recorded ==> x in due || known.Blocks(x)
  }

  /** A round offers a settled content as often as it is open. */
  ghost predicate OffersOpen(c: Conversation, rounds: seq<Round>, due: seq<InputItem>)
    requires |rounds| <= |c.responses|
  {
    forall x :: AccountedFor(rounds, x) || Answered(c, |rounds|, x) ==> multiset(due)[x] == OpenCopies(c, rounds, x)
  }

  ghost predicate AllSelfIdentifying(rounds: seq<Round>) {
    forall t :: 0 <= t < |rounds| ==> SelfIdentifying(rounds[t].due)
  }

  lemma SettledIsNotFresh(c: Conversation, rounds: seq<Round>, offered: seq<InputItem>, known: Ledger,
                          recorded: seq<InputItem>)
    requires |rounds| <= |c.responses| && Settled(c, rounds, offered, known)
    ensures OffersOpen(c, rounds, offered + known.Fresh(recorded))
  {
    hide OpenCopies, AccountedFor, Answered;
    forall x | AccountedFor(rounds, x) || Answered(c, |rounds|, x)
      ensures multiset(offered + known.Fresh(recorded))[x] == OpenCopies(c, rounds, x) {
      assert x !in multiset(known.Fresh(recorded));
    }
  }

  lemma {:induction false} WithoutItemsBag(remaining: Option<seq<InputItem>>, items: seq<InputItem>, x: InputItem)
    ensures multiset(Offered(WithoutItems(remaining, items)))[x]
         == if x in items then 0 else multiset(Offered(remaining))[x]
  {
    if remaining.Some? { FilteredBag(remaining.value, items, x); }
  }

  lemma {:induction false} FilteredBag(offered: seq<InputItem>, items: seq<InputItem>, x: InputItem)
    ensures multiset(FilterMap(y => if y in items then None else Some(y), offered))[x]
         == if x in items then 0 else multiset(offered)[x]
  {
    if offered != [] {
      var first, rest := offered[0], offered[1..];
      FilteredBag(rest, items, x);
      assert multiset(offered) == multiset{first} + multiset(rest) by { assert offered == [first] + rest; }
    }
  }

  /** One more round and its response. */
  lemma SettledNext(c: Conversation, rounds: seq<Round>, round: Round, before: seq<InputItem>, marked: seq<InputItem>,
                    after: seq<InputItem>, known: Ledger, later: Ledger)
    requires |rounds| < |c.responses| && Settled(c, rounds, before, known)
    requires multiset(marked) == multiset(before) - multiset(round.Accounted())
    requires forall x :: multiset(after)[x]
                      == if x in ResponseInputItems(c.responses[|rounds|]) then 0 else multiset(marked)[x]
    requires known.sent <= later.sent
    requires forall x :: x in round.Accounted() || x in ResponseInputItems(c.responses[|rounds|]) ==> x in later.sent
    ensures Settled(c, rounds + [round], after, later)
  {
    hide ResponseInputItems, Attributed;
    var more := rounds + [round];
    assert more[..|rounds|] == rounds;
    forall x ensures multiset(after)[x] == OpenCopies(c, more, x) {
      assert multiset(before)[x] == OpenCopies(c, rounds, x);
      assert multiset(marked)[x] == (multiset(before) - multiset(round.Accounted()))[x];
    }
  }

  /** One filtered turn and the response to it. */
  method AnsweredTurn(tracker: OpenAIServerConversationTracker, c: Conversation, ghost rounds: seq<Round>,
                      generated: seq<RunItem>, output: seq<OutputItem>, filter: seq<Held> -> seq<Held>)
    returns (round: Round)
    requires tracker.Valid() && |rounds| < |c.responses| && output == c.responses[|rounds|]
    modifies tracker
    ensures tracker.Valid() && tracker.sentInitialInput && old(tracker.Known()).Within(tracker.Known())
    ensures DistinctSlots(round.slots, |round.due|)
    ensures Remembers(RunItemsToInputItems(generated, c.policy), round.due, tracker.Known())
    ensures SelfIdentifying(round.due) ==>
      Settled(c, rounds, old(StillOffered(tracker, c.original)), old(tracker.Known())) ==>
      && OffersOpen(c, rounds, round.due)
      && Settled(c, rounds + [round], StillOffered(tracker, c.original), tracker.Known())
  {
    hide SelfIdentifying, Settled, OffersOpen, RunItemsToInputItems, WithoutItems, DistinctSlots;
    ghost var offered, known := StillOffered(tracker, c.original), tracker.Known();
    round := FilteredTurn(tracker, c.original, generated, c.policy, filter);
    ghost var remaining, marked := tracker.remainingInitialInput, tracker.Known();
    tracker.ApplyResponse(output, None);
    if SelfIdentifying(round.due) && Settled(c, rounds, offered, known) {
      SettledIsNotFresh(c, rounds, offered, known, RunItemsToInputItems(generated, c.policy));
      forall x ensures multiset(Offered(WithoutItems(remaining, ResponseInputItems(output))))[x]
                    == if x in ResponseInputItems(output) then 0 else multiset(Offered(remaining))[x] {
        WithoutItemsBag(remaining, ResponseInputItems(output), x);
      }
      SettledNext(c, rounds, round, offered, Offered(remaining), StillOffered(tracker, c.original), known,
                  tracker.Known());
    }
  }

  lemma RemembersLonger(recorded: seq<InputItem>, due: seq<InputItem>, known: Ledger, later: Ledger)
    requires Remembers(recorded, due, known) && known.Within(later)
    ensures Remembers(recorded, due, later)
  {
    forall x | x in recorded ensures x in due || later.Blocks(x) {
      if known.Blocks(x) { BlockedStays(known, later, x); }
    }
  }

  /** What holds after any number of rounds. */
  ghost predicate Kept(c: Conversation, rounds: seq<Round>, offered: seq<InputItem>, known: Ledger)
    requires c.Valid() && |rounds| <= |c.responses|
  {
    && (AllSelfIdentifying(rounds) ==>
          && Settled(c, rounds, offered, known)
          && forall t :: 0 <= t < |rounds| ==> OffersOpen(c, rounds[..t], rounds[t].due))
    && (forall t :: 0 <= t < |rounds| ==>
          Remembers(RunItemsToInputItems(c.Generated(t), c.policy), rounds[t].due, known))
  }

  lemma KeptNext(c: Conversation, rounds: seq<Round>, round: Round, before: seq<InputItem>, after: seq<InputItem>,
                 known: Ledger, later: Ledger)
    requires c.Valid() && |rounds| < |c.responses| && Kept(c, rounds, before, known) && known.Within(later)
    requires Remembers(RunItemsToInputItems(c.Generated(|rounds|), c.policy), round.due, later)
    requires SelfIdentifying(round.due) ==> Settled(c, rounds, before, known) ==>
      OffersOpen(c, rounds, round.due) && Settled(c, rounds + [round], after, later)
    ensures Kept(c, rounds + [round], after, later)
  {
    hide SelfIdentifying, Settled, OffersOpen, RunItemsToInputItems, Remembers;
    var more := rounds + [round];
    FewerRounds(rounds, round);
    forall t | 0 <= t < |more|
      ensures Remembers(RunItemsToInputItems(c.Generated(t), c.policy), more[t].due, later) {
      if t < |rounds| {
        RemembersLonger(RunItemsToInputItems(c.Generated(t), c.policy), rounds[t].due, known, later);
      }
    }
    if AllSelfIdentifying(more) {
      forall t | 0 <= t < |more| ensures OffersOpen(c, more[..t], more[t].due) {
        if t < |rounds| { assert more[t] == rounds[t]; }
      }
    }
  }

  /** Any number of filtered turns with their responses, over one tracker.  As long as each turn's items can
      be told apart: for every content, what is left to offer of the original input are its copies less those
      that any round accounted for, or none once a response had it; what was accounted for or answered is
      offered exactly as often as that ever after, however often it is recorded again; and what a round
      does not offer of the items recorded before it is known. */
  method FilteredConversation(c: Conversation, filters: seq<seq<Held> -> seq<Held>>)
    returns (tracker: OpenAIServerConversationTracker, rounds: seq<Round>)
    requires c.Valid() && |filters| == |c.responses|
    ensures fresh(tracker) && tracker.Valid() && |rounds| == |c.responses|
    ensures Kept(c, rounds, StillOffered(tracker, c.original), tracker.Known())
  {
    hide Kept, RunItemsToInputItems, Remembers, SelfIdentifying, Settled, OffersOpen;
    tracker := new OpenAIServerConversationTracker(Some("conversation"), None, false);
    var generated := [];
    rounds := [];
    NothingKept(c);
    for t := 0 to |filters|
      invariant fresh(tracker) && tracker.Valid() && |rounds| == t && generated == c.Generated(t)
      invariant Kept(c, rounds, StillOffered(tracker, c.original), tracker.Known())
    {
      ghost var offered, known := StillOffered(tracker, c.original), tracker.Known();
      var round := AnsweredTurn(tracker, c, rounds, generated, c.responses[t], filters[t]);
      KeptNext(c, rounds, round, offered, StillOffered(tracker, c.original), known, tracker.Known());
      rounds := rounds + [round];
      generated := generated + BuildMessageOutputItems(c.responses[t]) + c.actions[t];
    }
  }

  lemma NothingKept(c: Conversation)
    requires c.Valid()
    ensures Kept(c, [], c.original, Ledger({}, {}, {}))
  {}

  lemma FewerRounds(rounds: seq<Round>, round: Round)
    ensures AllSelfIdentifying(rounds + [round]) <==> AllSelfIdentifying(rounds) && SelfIdentifying(round.due)
    ensures forall t :: 0 <= t <= |rounds| ==> (rounds + [round])[..t] == rounds[..t]
    ensures rounds[..|rounds|] == rounds
  {
    hide SelfIdentifying;
    var more := rounds + [round];
    if AllSelfIdentifying(more) {
      assert more[|rounds|] == round;
      forall t | 0 <= t < |rounds| ensures SelfIdentifying(rounds[t].due) { assert more[t] == rounds[t]; }
    }
  }
}
