/** The tracker object and what it delivers over whole conversations. */
module ConversationTurns {
  import opened Items
  import opened FilterMatcher
  import opened ConversationTracker

  // ---- one unfiltered turn ----

  /** The address a copy of the item shares with others, if it has no block of its own. */
  function SharedAddress(item: InputItem): Option<Identity> {
    match CloneIdentity(item, 0)
    case Some(Dangling(kind, len)) => Some(Dangling(kind, len))
    case _ => None
  }

  /** The first and the last item behind any shared address are equal.  Only objects with an empty
      key can violate this: all other shared addresses determine their content. */
  ghost predicate Faithful(items: seq<InputItem>) {
    forall i, j :: 0 <= i <= j < |items| && SharedAddress(items[i]).Some?
      && SharedAddress(items[j]) == SharedAddress(items[i]) && FirstBehind(items, i) && LastBehind(items, j)
      ==> items[i] == items[j]
  }

  ghost predicate FirstBehind(items: seq<InputItem>, i: nat)
    requires i < |items|
  {
    forall k :: 0 <= k < i ==> SharedAddress(items[k]) != SharedAddress(items[i])
  }

  ghost predicate LastBehind(items: seq<InputItem>, j: nat)
    requires j < |items|
  {
    forall k :: j < k < |items| ==> SharedAddress(items[k]) != SharedAddress(items[j])
  }

  predicate EmptyKeyed(item: InputItem) {
    item.JsonItem? && item.value.Obj? && "" in item.value.fields
  }

  lemma SharedContent(a: InputItem, b: InputItem)
    requires SharedAddress(a).Some? && SharedAddress(a) == SharedAddress(b) && !EmptyKeyed(a)
    ensures a == b
  {}

  lemma NoEmptyKeysIsFaithful(items: seq<InputItem>)
    requires forall x :: x in items ==> !EmptyKeyed(x)
    ensures Faithful(items)
  {
    forall i, j | 0 <= i <= j < |items| && SharedAddress(items[i]).Some?
      && SharedAddress(items[j]) == SharedAddress(items[i])
      ensures items[i] == items[j]
    {
      SharedContent(items[i], items[j]);
    }
  }

  lemma SharedCloneIdentity(item: InputItem, tag: nat, d: Identity)
    requires CloneIdentity(item, tag) == Some(d)
    ensures d.Dangling? ==> SharedAddress(item) == Some(d)
    ensures d.Allocated? ==> d.tag == tag && SharedAddress(item).None?
  {}

  /** An identity registered last for the item at position `i`. */
  ghost predicate RegisteredLast(items: seq<InputItem>, tag: nat, n: nat, d: Identity, i: nat) {
    i < n <= |items| && CloneIdentity(items[i], tag + i) == Some(d)
    && forall k :: i < k < n ==> CloneIdentity(items[k], tag + k) != Some(d)
  }

  lemma {:induction false} RegisteredIdentities(items: seq<InputItem>, tag: nat, first: SourceId, n: nat, d: Identity)
    requires n <= |items| && d in RegisterAll(NoSources, Clones(items, tag), first, n).byIdentity
    ensures var id := RegisterAll(NoSources, Clones(items, tag), first, n).byIdentity[d];
            first <= id < first + n && RegisteredLast(items, tag, n, d, id - first)
  {
    hide CloneIdentity;
    if n > 0 && CloneIdentity(items[n - 1], tag + n - 1) != Some(d) {
      RegisteredIdentities(items, tag, first, n - 1, d);
    }
  }

  /** Identities only disappear, and one that resolved an item is gone. */
  lemma {:induction false} IdentityStillThere(s: Sources, items: seq<Held>, n: nat, d: Identity)
    requires n <= |items| && d in UseAll(s, items, None, n).byIdentity
    ensures d in s.byIdentity && UseAll(s, items, None, n).byIdentity[d] == s.byIdentity[d]
    ensures forall k :: 0 <= k < n ==> items[k].identity != Some(d)
  {
    if n > 0 { IdentityStillThere(s, items, n - 1, d); }
  }

  lemma StillLive<T>(items: seq<T>, n: nat, left: multiset<T>)
    requires n < |items| && left + multiset(items[..n]) == multiset(items)
    ensures items[n] in left
  {
    var x := items[n];
    assert items == items[..n] + [x] + items[n + 1..];
    assert multiset(items)[x] >= multiset(items[..n])[x] + 1;
    assert (left + multiset(items[..n]))[x] == left[x] + multiset(items[..n])[x];
  }

  /** The start of an unfiltered turn and where it stands after `n` delivered copies. */
  function Start(items: seq<InputItem>, tag: nat, first: SourceId): Sources {
    RegisterAll(NoSources, Clones(items, tag), first, |items|)
  }

  ghost function After(items: seq<InputItem>, tag: nat, first: SourceId, later: nat, n: nat): Sources
    requires n <= |items|
  {
    UseAll(Start(items, tag, first), Clones(items, later), None, n)
  }

  lemma AfterValid(items: seq<InputItem>, tag: nat, first: SourceId, later: nat, n: nat)
    requires n <= |items|
    ensures After(items, tag, first, later, n).Valid()
  {
    RegisterAllValid(NoSources, Clones(items, tag), first, |items|);
    UseAllValid(Start(items, tag, first), Clones(items, later), None, n);
  }

  lemma AddressHolder(items: seq<InputItem>, tag: nat, first: SourceId, later: nat, n: nat, d: Identity)
    returns (i: nat)
    requires n < |items| && tag + |items| <= later && Faithful(items)
    requires CloneIdentity(items[n], later + n) == Some(d) && d in After(items, tag, first, later, n).byIdentity
    ensures i < |items| && items[i] == items[n] && After(items, tag, first, later, n).byIdentity[d] == first + i
  {
    IdentityStillThere(Start(items, tag, first), Clones(items, later), n, d);
    RegisteredIdentities(items, tag, first, |items|, d);
    i := Start(items, tag, first).byIdentity[d] - first;
    SharedCloneIdentity(items[n], later + n, d);
    SharedCloneIdentity(items[i], tag + i, d);
    FirstAndLast(items, tag, later, n, i, d);
  }

  lemma StartHolds(items: seq<InputItem>, tag: nat, first: SourceId, i: nat)
    requires i < |items|
    ensures first + i in Start(items, tag, first).live && Start(items, tag, first).live[first + i] == items[i]
  {
    RegisterAllLive(NoSources, items, tag, first, |items|);
  }

  lemma ResolvedByAddress(items: seq<InputItem>, tag: nat, first: SourceId, later: nat, n: nat, d: Identity)
    requires n < |items| && tag + |items| <= later && Faithful(items)
    requires CloneIdentity(items[n], later + n) == Some(d) && d in After(items, tag, first, later, n).byIdentity
    ensures var s := After(items, tag, first, later, n);
            s.byIdentity[d] in s.live && s.byIdentity[d] < first + |items| && s.live[s.byIdentity[d]] == items[n]
  {
    var i := AddressHolder(items, tag, first, later, n, d);
    AfterValid(items, tag, first, later, n);
    LiveKeepsContent(Start(items, tag, first), Clones(items, later), n, first + i);
    StartHolds(items, tag, first, i);
  }

  lemma ResolvesToEqual(items: seq<InputItem>, tag: nat, first: SourceId, later: nat, n: nat)
    requires n < |items| && tag + |items| <= later && Faithful(items)
    requires items[n] in LiveItems(After(items, tag, first, later, n).live, first + |items|)
    ensures var s := After(items, tag, first, later, n);
            var id := s.Resolve(Clones(items, later)[n]);
            id.Some? && id.value in s.live && id.value < first + |items| && s.live[id.value] == items[n]
  {
    var s := After(items, tag, first, later, n);
    var identity := CloneIdentity(items[n], later + n);
    if identity.Some? && identity.value in s.byIdentity {
      ResolvedByAddress(items, tag, first, later, n, identity.value);
    } else {
      LiveItemsHold(s.live, items[n], first + |items|);
      var id :| id in s.live && id < first + |items| && s.live[id] == items[n];
      OldestExists(s.live, items[n], id);
      assert IsOldest(s.live, items[n], Oldest(s.live, items[n]).value);
    }
  }

  lemma UseExactly(s: Sources, item: Held, id: SourceId, bound: nat)
    requires s.Resolve(item) == Some(id) && id in s.live && id < bound && s.live[id] == item.item
    ensures ChosenItem(s, item, None) == item.item
    ensures LiveItems(s.live, bound) == LiveItems(UseOne(s, item, None).live, bound) + multiset{item.item}
  {
    LiveItemsRemove(s.live, id, bound);
  }

  lemma {:induction false} LiveKeepsContent(s: Sources, items: seq<Held>, n: nat, id: SourceId)
    requires n <= |items| && id in UseAll(s, items, None, n).live
    ensures id in s.live && UseAll(s, items, None, n).live[id] == s.live[id]
  {
    if n > 0 { LiveKeepsContent(s, items, n - 1, id); }
  }

  lemma FirstAndLast(items: seq<InputItem>, tag: nat, later: nat, n: nat, i: nat, d: Identity)
    requires Faithful(items) && n < |items| && RegisteredLast(items, tag, |items|, d, i)
    requires d.Dangling? && SharedAddress(items[n]) == Some(d) == SharedAddress(items[i])
    requires forall k :: 0 <= k < n ==> Clones(items, later)[k].identity != Some(d)
    ensures items[n] == items[i]
  {
    forall k | 0 <= k < |items| && SharedAddress(items[k]) == Some(d) ensures n <= k <= i {
      SharedIsCloned(items[k], later + k, d);
      SharedIsCloned(items[k], tag + k, d);
      assert Clones(items, later)[k].identity == Some(d);
    }
    assert FirstBehind(items, n) && LastBehind(items, i);
  }

  lemma SharedIsCloned(item: InputItem, tag: nat, d: Identity)
    requires SharedAddress(item) == Some(d)
    ensures CloneIdentity(item, tag) == Some(d)
  {}

  /** One more delivered item balances the books. */
  lemma BalanceStep(items: seq<InputItem>, n: nat, more: multiset<InputItem>, left: multiset<InputItem>)
    requires n < |items| && more + multiset(items[..n]) == multiset(items) && more == left + multiset{items[n]}
    ensures left + multiset(items[..n + 1]) == multiset(items)
  {
    BagOfPrefix(items, n + 1);
    BagStep(left, items[n], more, multiset(items[..n]), multiset(items[..n + 1]), multiset(items));
  }

  lemma {:induction false} PlainTurnLive(items: seq<InputItem>, tag: nat, first: SourceId, later: nat, n: nat)
    requires n <= |items| && tag + |items| <= later && Faithful(items)
    ensures LiveItems(After(items, tag, first, later, n).live, first + |items|) + multiset(items[..n])
      == multiset(items)
  {
    if n == 0 {
      StartLive(items, tag, first);
    } else {
      PlainTurnLive(items, tag, first, later, n - 1);
      PlainTurnUse(items, tag, first, later, n - 1);
      BalanceStep(items, n - 1, LiveItems(After(items, tag, first, later, n - 1).live, first + |items|),
                  LiveItems(After(items, tag, first, later, n).live, first + |items|));
    }
  }

  /** The n-th delivered copy uses up a source of equal content. */
  lemma PlainTurnUse(items: seq<InputItem>, tag: nat, first: SourceId, later: nat, n: nat)
    requires n < |items| && tag + |items| <= later && Faithful(items)
    requires LiveItems(After(items, tag, first, later, n).live, first + |items|) + multiset(items[..n])
      == multiset(items)
    ensures ChosenItem(After(items, tag, first, later, n), Clones(items, later)[n], None) == items[n]
    ensures LiveItems(After(items, tag, first, later, n).live, first + |items|)
         == LiveItems(After(items, tag, first, later, n + 1).live, first + |items|) + multiset{items[n]}
  {
    var before := After(items, tag, first, later, n);
    var item := Clones(items, later)[n];
    StillLive(items, n, LiveItems(before.live, first + |items|));
    ResolvesToEqual(items, tag, first, later, n);
    UseExactly(before, item, before.Resolve(item).value, first + |items|);
  }

  lemma PlainTurnChosen(items: seq<InputItem>, tag: nat, first: SourceId, later: nat, n: nat)
    requires n < |items| && tag + |items| <= later && Faithful(items)
    ensures ChosenItem(UseAll(Start(items, tag, first), Clones(items, later), None, n), Clones(items, later)[n], None)
      == items[n]
  {
    hide Start, ChosenItem, Faithful;
    PlainTurnLive(items, tag, first, later, n);
    PlainTurnUse(items, tag, first, later, n);
  }

  lemma {:induction false} PlainTurnUsed(items: seq<InputItem>, tag: nat, first: SourceId, later: nat, n: nat)
    requires n <= |items| && tag + |items| <= later && Faithful(items)
    ensures UsedItems(Start(items, tag, first), Clones(items, later), None, n) == items[..n]
  {
    hide Start, ChosenItem, Faithful;
    if n > 0 {
      PlainTurnUsed(items, tag, first, later, n - 1);
      PlainTurnChosen(items, tag, first, later, n - 1);
      UsedLast(Start(items, tag, first), Clones(items, later), n);
      assert items[..n] == items[..n - 1] + [items[n - 1]];
    }
  }

  lemma UsedLast(s: Sources, items: seq<Held>, n: nat)
    requires 0 < n <= |items|
    ensures UsedItems(s, items, None, n)
         == UsedItems(s, items, None, n - 1) + [ChosenItem(UseAll(s, items, None, n - 1), items[n - 1], None)]
  {}

  lemma StartLive(items: seq<InputItem>, tag: nat, first: SourceId)
    ensures LiveItems(Start(items, tag, first).live, first + |items|) + multiset(items[..0]) == multiset(items)
  {
    RegisterAllLive(NoSources, items, tag, first, |items|);
    LiveItemsExtend(Start(items, tag, first).live, items, first, |items|);
    NoLiveItems(Start(items, tag, first).live, first);
    assert items[..|items|] == items;
  }

  lemma NothingLeft(left: multiset<InputItem>, all: multiset<InputItem>)
    requires left + all == all
    ensures left == multiset{}
  {
    forall x ensures left[x] == 0 {
      assert (left + all)[x] == left[x] + all[x];
    }
  }

  lemma NothingLive(s: Sources, bound: nat)
    requires s.Valid() && IdsBelow(s.live, bound) && LiveItems(s.live, bound) == multiset{}
    ensures s == NoSources
  {
    if s.live != map[] {
      var id :| id in s.live;
      LiveItemsHold(s.live, s.live[id], bound);
      assert false;
    }
    assert s.byIdentity == map[];
  }

  lemma StartBelow(items: seq<InputItem>, tag: nat, first: SourceId)
    ensures IdsBelow(Start(items, tag, first).live, first + |items|)
  {
    RegisterAllLive(NoSources, items, tag, first, |items|);
  }

  lemma PlainTurnEmpties(items: seq<InputItem>, tag: nat, first: SourceId, later: nat)
    requires tag + |items| <= later && Faithful(items)
    ensures After(items, tag, first, later, |items|) == NoSources
  {
    PlainTurnLive(items, tag, first, later, |items|);
    assert items[..|items|] == items;
    NothingLeft(LiveItems(After(items, tag, first, later, |items|).live, first + |items|), multiset(items));
    AfterValid(items, tag, first, later, |items|);
    StartBelow(items, tag, first);
    UseAllIdsBelow(Start(items, tag, first), Clones(items, later), None, |items|, first + |items|);
    NothingLive(After(items, tag, first, later, |items|), first + |items|);
  }

  /** An unfiltered turn uses up exactly the sources it prepared and leaves the indexes empty. */
  lemma PlainTurn(items: seq<InputItem>, tag: nat, first: SourceId, later: nat)
    requires tag + |items| <= later && Faithful(items)
    ensures UsedItems(Start(items, tag, first), Clones(items, later), None, |items|) == items
    ensures UseAll(Start(items, tag, first), Clones(items, later), None, |items|) == NoSources
  {
    PlainTurnUsed(items, tag, first, later, |items|);
    PlainTurnEmpties(items, tag, first, later);
    assert items[..|items|] == items;
  }

  // ---- a whole conversation, as a ledger ----

  /** One conversation: what the caller brought, what the server answered in each turn, and what was
      produced locally after each answer. */
  datatype Conversation = Conversation(original: seq<InputItem>, responses: seq<seq<OutputItem>>,
                                       actions: seq<seq<RunItem>>, policy: ReasoningPolicy)
  {
    predicate Valid() { |responses| == |actions| }

    function Produced(t: nat): seq<InputItem>
      requires t < |actions|
    {
      RunItemsToInputItems(actions[t], policy)
    }

    /** Everything recorded before turn `t`. */
    function Generated(t: nat): seq<RunItem>
      requires Valid() && t <= |responses|
    {
      if t == 0 then [] else Generated(t - 1) + BuildMessageOutputItems(responses[t - 1]) + actions[t - 1]
    }

    /** What turn `t` delivers: first the original input, then only what was just produced locally
        and is new to the server. */
    function Delivered(t: nat): seq<InputItem>
      requires Valid() && t < |responses|
      decreases t, 1
    {
      if t == 0 then original else Known(t).Fresh(Produced(t - 1))
    }

    /** What the server knows after `t` turns. */
    function Known(t: nat): Ledger
      requires Valid() && t <= |responses|
      decreases t, 0
    {
      if t == 0 then Ledger({}, {}, {})
      else Known(t - 1).Sent(Delivered(t - 1)).Absorb(ResponseInputItems(responses[t - 1]))
    }
  }

  lemma {:induction false} KnownGrows(c: Conversation, s: nat, t: nat)
    requires c.Valid() && s <= t <= |c.responses|
    ensures c.Known(s).Within(c.Known(t))
    decreases t
  {
    if s < t {
      KnownGrows(c, s, t - 1);
      KnownOnce(c, t);
      WithinBoth(c.Known(s), c.Known(t - 1), c.Known(t));
    }
  }

  lemma KnownOnce(c: Conversation, t: nat)
    requires c.Valid() && 0 < t <= |c.responses|
    ensures c.Known(t - 1).Within(c.Known(t))
  {
    LearnsMore(c.Known(t - 1), c.Delivered(t - 1), ResponseInputItems(c.responses[t - 1]));
  }

  lemma LearnsMore(k: Ledger, sent: seq<InputItem>, answered: seq<InputItem>)
    ensures k.Within(k.Sent(sent).Absorb(answered))
  {}

  lemma WithinBoth(a: Ledger, b: Ledger, c: Ledger)
    requires a.Within(b) && b.Within(c)
    ensures a.Within(c)
  {}

  lemma BlockedStays(a: Ledger, b: Ledger, x: InputItem)
    requires a.Within(b) && a.Blocks(x)
    ensures b.Blocks(x)
  {}

  lemma {:induction false} NothingFresh(k: Ledger, items: seq<InputItem>)
    requires forall x :: x in items ==> k.Blocks(x)
    ensures k.Fresh(items) == []
  {
    if items != [] { NothingFresh(k, items[1..]); }
  }

  lemma {:induction false} FreshAppend(k: Ledger, a: seq<InputItem>, b: seq<InputItem>)
    ensures k.Fresh(a + b) == k.Fresh(a) + k.Fresh(b)
  {
    if a == [] {
      assert a + b == b;
    } else {
      FreshAppend(k, a[1..], b);
      assert (a + b)[1..] == a[1..] + b;
    }
  }

  /** Nothing the server answered, in any form the loop recorded it, is new to the server. */
  lemma AnsweredIsBlocked(c: Conversation, t: nat, x: InputItem)
    requires c.Valid() && 0 < t <= |c.responses|
    requires x in RunItemsToInputItems(BuildMessageOutputItems(c.responses[t - 1]), c.policy)
    ensures c.Known(t).Blocks(x)
  {
    ResponseConversionsAgree(c.responses[t - 1], c.policy);
  }

  lemma GeneratedSplits(c: Conversation, t: nat)
    requires c.Valid() && 0 < t <= |c.responses|
    ensures RunItemsToInputItems(c.Generated(t), c.policy)
         == RunItemsToInputItems(c.Generated(t - 1), c.policy)
          + RunItemsToInputItems(BuildMessageOutputItems(c.responses[t - 1]), c.policy) + c.Produced(t - 1)
  {
    RunItemsToInputItemsAppend(c.Generated(t - 1), BuildMessageOutputItems(c.responses[t - 1]), c.policy);
    RunItemsToInputItemsAppend(c.Generated(t - 1) + BuildMessageOutputItems(c.responses[t - 1]), c.actions[t - 1],
      c.policy);
  }

  /** All that was recorded before turn `t` is known once turn `t` is over. */
  lemma {:induction false} RecordedIsBlocked(c: Conversation, t: nat, x: InputItem)
    requires c.Valid() && t < |c.responses| && x in RunItemsToInputItems(c.Generated(t), c.policy)
    ensures c.Known(t + 1).Blocks(x)
  {
    if t > 0 {
      GeneratedSplits(c, t);
      KnownGrows(c, t, t + 1);
      if x in RunItemsToInputItems(c.Generated(t - 1), c.policy) {
        RecordedIsBlocked(c, t - 1, x);
        BlockedStays(c.Known(t), c.Known(t + 1), x);
      } else if x in RunItemsToInputItems(BuildMessageOutputItems(c.responses[t - 1]), c.policy) {
        AnsweredIsBlocked(c, t, x);
        BlockedStays(c.Known(t), c.Known(t + 1), x);
      } else if c.Known(t).Blocks(x) {
        BlockedStays(c.Known(t), c.Known(t + 1), x);
      } else {
        assert x in c.Delivered(t);
      }
    }
  }

  lemma FreshTail(k: Ledger, a: seq<InputItem>, b: seq<InputItem>)
    requires forall x :: x in a ==> k.Blocks(x)
    ensures k.Fresh(a + b) == k.Fresh(b)
  {
    NothingFresh(k, a);
    FreshAppend(k, a, b);
  }

  lemma EarlierIsBlocked(c: Conversation, t: nat, x: InputItem)
    requires c.Valid() && 0 < t < |c.responses|
    requires x in RunItemsToInputItems(c.Generated(t - 1), c.policy)
                  + RunItemsToInputItems(BuildMessageOutputItems(c.responses[t - 1]), c.policy)
    ensures c.Known(t).Blocks(x)
  {
    if x in RunItemsToInputItems(c.Generated(t - 1), c.policy) {
      RecordedIsBlocked(c, t - 1, x);
    } else {
      AnsweredIsBlocked(c, t, x);
    }
  }

  /** Scanning everything recorded so far finds nothing new but the latest local items. */
  lemma OnlyLatestIsFresh(c: Conversation, t: nat)
    requires c.Valid() && 0 < t < |c.responses|
    ensures c.Known(t).Fresh(RunItemsToInputItems(c.Generated(t), c.policy)) == c.Delivered(t)
  {
    GeneratedSplits(c, t);
    var earlier := RunItemsToInputItems(c.Generated(t - 1), c.policy)
                 + RunItemsToInputItems(BuildMessageOutputItems(c.responses[t - 1]), c.policy);
    var k := c.Known(t);
    forall x | x in earlier ensures k.Blocks(x) {
      EarlierIsBlocked(c, t, x);
    }
    FreshTail(k, earlier, c.Produced(t - 1));
  }

  // ---- what holds over every conversation ----

  /** No item the server returned is ever sent back. */
  lemma NoEcho(c: Conversation, s: nat, t: nat, x: InputItem)
    requires c.Valid() && s < t < |c.responses| && x in ResponseInputItems(c.responses[s])
    ensures x !in c.Delivered(t)
  {
    KnownGrows(c, s + 1, t);
    assert x in c.Known(s + 1).sent;
  }

  /** No content is delivered in two turns. */
  lemma AtMostOnce(c: Conversation, s: nat, t: nat, x: InputItem)
    requires c.Valid() && s < t < |c.responses| && x in c.Delivered(s)
    ensures x !in c.Delivered(t)
  {
    KnownGrows(c, s + 1, t);
    assert x in c.Known(s + 1).sent;
  }

  function Concat(c: Conversation, t: nat): seq<InputItem>
    requires c.Valid() && t <= |c.responses|
  {
    if t == 0 then [] else Concat(c, t - 1) + c.Delivered(t - 1)
  }

  /** The original input, then everything produced locally before turn `t`, in order. */
  function Owed(c: Conversation, t: nat): seq<InputItem>
    requires c.Valid() && t <= |c.responses|
  {
    if t == 0 then [] else Owed(c, t - 1) + (if t == 1 then c.original else c.Produced(t - 2))
  }

  /** No local item due before turn `t` was already known, by content or by a reported id. */
  ghost predicate NothingWithheld(c: Conversation, t: nat)
    requires c.Valid() && t <= |c.responses|
  {
    t <= 1 || (NothingWithheld(c, t - 1) && c.Known(t - 1).KnowsNoneOf(c.Produced(t - 2)))
  }

  lemma {:induction false} FreshLength(k: Ledger, items: seq<InputItem>)
    ensures |k.Fresh(items)| <= |items|
    ensures k.Fresh(items) == items <==> k.KnowsNoneOf(items)
    ensures |k.Fresh(items)| == |items| ==> k.Fresh(items) == items
  {
    if items != [] { FreshLength(k, items[1..]); }
  }

  lemma {:induction false} ConcatLength(c: Conversation, t: nat)
    requires c.Valid() && t <= |c.responses|
    ensures |Concat(c, t)| <= |Owed(c, t)|
  {
    hide Conversation.Delivered, Conversation.Produced;
    if t > 0 {
      ConcatLength(c, t - 1);
      DeliveredLength(c, t);
    }
  }

  lemma DeliveredLength(c: Conversation, t: nat)
    requires c.Valid() && 0 < t <= |c.responses|
    ensures |c.Delivered(t - 1)| <= if t == 1 then |c.original| else |c.Produced(t - 2)|
  {
    if t > 1 { FreshLength(c.Known(t - 1), c.Produced(t - 2)); }
  }

  lemma SplitEqual<T>(a: seq<T>, b: seq<T>, x: seq<T>, y: seq<T>)
    requires a + b == x + y && |a| <= |x| && |b| <= |y|
    ensures a == x && b == y
  {
    assert a == (a + b)[..|a|] && x == (x + y)[..|x|];
    assert b == (a + b)[|a|..] && y == (x + y)[|x|..];
  }

  lemma LastTurnComplete(c: Conversation, t: nat)
    requires c.Valid() && 1 < t <= |c.responses|
    ensures |c.Delivered(t - 1)| <= |c.Produced(t - 2)|
    ensures c.Delivered(t - 1) == c.Produced(t - 2) <==> c.Known(t - 1).KnowsNoneOf(c.Produced(t - 2))
  {
    FreshLength(c.Known(t - 1), c.Produced(t - 2));
  }

  /** Exactly once, and exactly when: the deliveries of all turns run together are the original input
      followed by each locally produced item, once and in order, if and only if no local item was
      already known, by content or by a reported id, when it was due. */
  lemma {:induction false} ExactlyOnce(c: Conversation, t: nat)
    requires c.Valid() && t <= |c.responses|
    ensures Concat(c, t) == Owed(c, t) <==> NothingWithheld(c, t)
  {
    if t > 1 {
      ExactlyOnce(c, t - 1);
      ConcatLength(c, t - 1);
      LastTurnComplete(c, t);
      if Concat(c, t) == Owed(c, t) {
        SplitEqual(Concat(c, t - 1), c.Delivered(t - 1), Owed(c, t - 1), c.Produced(t - 2));
      }
    } else if t == 1 {
      assert c.Delivered(0) == c.original;
    }
  }

  /** Turn `s` delivered the item or was answered with it. */
  ghost predicate SeenIn(c: Conversation, s: nat, x: InputItem)
    requires c.Valid() && s < |c.responses|
  {
    x in c.Delivered(s) || x in ResponseInputItems(c.responses[s])
  }

  ghost predicate SeenBefore(c: Conversation, t: nat, x: InputItem)
    requires c.Valid() && t <= |c.responses|
  {
    t > 0 && (SeenIn(c, t - 1, x) || SeenBefore(c, t - 1, x))
  }

  lemma KnownStep(c: Conversation, t: nat, x: InputItem)
    requires c.Valid() && 0 < t <= |c.responses|
    ensures x in c.Known(t).sent <==> x in c.Known(t - 1).sent || SeenIn(c, t - 1, x)
  {}

  lemma NothingKnown(c: Conversation)
    requires c.Valid()
    ensures c.Known(0).sent == {}
  {}

  /** What the server is taken to know by content: exactly what some earlier turn carried either way. */
  lemma {:induction false} KnownContents(c: Conversation, t: nat, x: InputItem)
    requires c.Valid() && t <= |c.responses|
    ensures x in c.Known(t).sent <==> SeenBefore(c, t, x)
  {
    hide SeenIn, Conversation.Known, Conversation.Delivered;
    if t == 0 {
      NothingKnown(c);
    } else {
      KnownContents(c, t - 1, x);
      KnownStep(c, t, x);
    }
  }

  // ---- the same, on what the caller and the server bring ----

  /** What turn `t` should deliver. */
  function Due(c: Conversation, t: nat): seq<InputItem>
    requires c.Valid() && t < |c.responses|
  {
    if t == 0 then c.original else c.Produced(t - 1)
  }

  /** The response has the item, or another one with its item id or call id. */
  ghost predicate Reports(response: seq<OutputItem>, x: InputItem) {
    exists y :: y in ResponseInputItems(response)
      && (x == y || (ItemId(x).Some? && ItemId(x) == ItemId(y))
          || (OutputCallId(x).Some? && OutputCallId(x) == OutputCallId(y)))
  }

  /** The item was due in an earlier turn, or reported by its response. */
  ghost predicate MetBefore(c: Conversation, t: nat, x: InputItem)
    requires c.Valid() && t <= |c.responses|
  {
    t > 0 && (x in Due(c, t - 1) || Reports(c.responses[t - 1], x) || MetBefore(c, t - 1, x))
  }

  ghost predicate NoneMetBefore(c: Conversation, t: nat, items: seq<InputItem>)
    requires c.Valid() && t <= |c.responses|
  {
    forall x :: x in items ==> !MetBefore(c, t, x)
  }

  /** Every locally produced item due before turn `t` is new to the conversation. */
  ghost predicate AllNew(c: Conversation, t: nat)
    requires c.Valid() && t <= |c.responses|
  {
    t <= 1 || (AllNew(c, t - 1) && NoneMetBefore(c, t - 1, c.Produced(t - 2)))
  }

  lemma AbsorbBlocks(k: Ledger, delivered: seq<InputItem>, response: seq<OutputItem>, x: InputItem)
    ensures k.Sent(delivered).Absorb(ResponseInputItems(response)).Blocks(x)
       <==> k.Blocks(x) || x in delivered || Reports(response, x)
  {
    hide ResponseInputItems, ItemId, OutputCallId;
    var after := k.Sent(delivered).Absorb(ResponseInputItems(response));
    if Reports(response, x) {
      var y :| y in ResponseInputItems(response)
        && (x == y || (ItemId(x).Some? && ItemId(x) == ItemId(y))
            || (OutputCallId(x).Some? && OutputCallId(x) == OutputCallId(y)));
      assert after.Blocks(x);
    }
  }

  lemma NothingBlocked(c: Conversation, x: InputItem)
    requires c.Valid()
    ensures !c.Known(0).Blocks(x)
  {}

  lemma WithheldEarlier(c: Conversation, t: nat)
    requires c.Valid() && 0 < t < |c.responses| && NothingWithheld(c, t)
    ensures NothingWithheld(c, t - 1) && c.Delivered(t - 1) == Due(c, t - 1)
  {
    if t > 1 { LastTurnComplete(c, t); }
  }

  lemma KnownBlocksNext(c: Conversation, t: nat, x: InputItem)
    requires c.Valid() && 0 < t <= |c.responses|
    ensures c.Known(t).Blocks(x)
       <==> c.Known(t - 1).Blocks(x) || x in c.Delivered(t - 1) || Reports(c.responses[t - 1], x)
  {
    hide Reports;
    AbsorbBlocks(c.Known(t - 1), c.Delivered(t - 1), c.responses[t - 1], x);
  }

  /** As long as nothing is withheld, what is known is what was met before. */
  lemma {:induction false} KnownIsMet(c: Conversation, t: nat, x: InputItem)
    requires c.Valid() && t < |c.responses| && NothingWithheld(c, t)
    ensures c.Known(t).Blocks(x) <==> MetBefore(c, t, x)
  {
    hide Reports, Conversation.Known, Conversation.Delivered, NothingWithheld;
    if t == 0 {
      NothingBlocked(c, x);
    } else {
      WithheldEarlier(c, t);
      KnownIsMet(c, t - 1, x);
      KnownBlocksNext(c, t, x);
    }
  }

  lemma NoneKnownIsNoneMet(c: Conversation, t: nat, items: seq<InputItem>)
    requires c.Valid() && t < |c.responses| && NothingWithheld(c, t)
    ensures c.Known(t).KnowsNoneOf(items) <==> NoneMetBefore(c, t, items)
  {
    hide MetBefore, Conversation.Known;
    forall x ensures c.Known(t).Blocks(x) <==> MetBefore(c, t, x) { KnownIsMet(c, t, x); }
  }

  lemma {:induction false} WithheldIsMet(c: Conversation, t: nat)
    requires c.Valid() && t <= |c.responses|
    ensures NothingWithheld(c, t) <==> AllNew(c, t)
  {
    hide NoneMetBefore, Conversation.Known;
    if t > 1 {
      WithheldIsMet(c, t - 1);
      if NothingWithheld(c, t - 1) { NoneKnownIsNoneMet(c, t - 1, c.Produced(t - 2)); }
    }
  }

  /** So everything is delivered exactly once and in order if and only if every locally produced item, its item id
      and its call id are new: not among the original input, not produced before, not in an earlier response. */
  lemma ExactlyOnceForNewItems(c: Conversation, t: nat)
    requires c.Valid() && t <= |c.responses|
    ensures Concat(c, t) == Owed(c, t) <==> AllNew(c, t)
  {
    ExactlyOnce(c, t);
    WithheldIsMet(c, t);
  }

  // ---- which items are withheld, in terms of their JSON members ----

  /** The item and a returned object have the same text under "id". */
  predicate SharesId(x: InputItem, returned: map<string, Json>) {
    x.JsonItem? && x.value.Obj? && HasText(x.value.fields, "id")
    && "id" in returned && returned["id"] == x.value.fields["id"]
  }

  /** Both are outputs, with the same text under "call_id". */
  predicate SharesCall(x: InputItem, returned: map<string, Json>) {
    x.JsonItem? && x.value.Obj? && HasText(x.value.fields, "call_id") && "output" in x.value.fields
    && "output" in returned && "call_id" in returned && returned["call_id"] == x.value.fields["call_id"]
  }

  predicate HasText(fields: map<string, Json>, key: string) { key in fields && fields[key].Str? }

  /** The response holds the item, or a JSON object with its id or its call id. */
  ghost predicate Returns(response: seq<OutputItem>, x: InputItem) {
    || x in ResponseInputItems(response)
    || exists m :: OutJson(Obj(m)) in response && (SharesId(x, m) || SharesCall(x, m))
  }

  lemma SharedIds(x: InputItem, y: InputItem)
    ensures (ItemId(x).Some? && ItemId(x) == ItemId(y)) <==>
      y.JsonItem? && y.value.Obj? && SharesId(x, y.value.fields)
    ensures (OutputCallId(x).Some? && OutputCallId(x) == OutputCallId(y)) <==>
      y.JsonItem? && y.value.Obj? && SharesCall(x, y.value.fields)
  {}

  /** Of what a response is converted to, only its JSON objects have an id or an output. */
  lemma OnlyJsonShares(o: OutputItem, x: InputItem)
    requires var y := ResponseInputItem(o);
      y.JsonItem? && y.value.Obj? && (SharesId(x, y.value.fields) || SharesCall(x, y.value.fields))
    ensures o.OutJson? && o.value == ResponseInputItem(o).value
  {
    assert |"id"| == 2 && |"output"| == 6;
    assert |"type"| == 4 && |"tool_name"| == 9 && |"arguments"| == 9 && |"call_id"| == 7 && |"namespace"| == 9
        && |"target_agent"| == 12 && |"text"| == 4;
  }

  lemma {:induction false} ReturnedFrom(response: seq<OutputItem>, y: InputItem) returns (o: OutputItem)
    requires y in ResponseInputItems(response)
    ensures o in response && ResponseInputItem(o) == y
  {
    if y == ResponseInputItem(response[0]) { o := response[0]; } else { o := ReturnedFrom(response[1..], y); }
  }

  lemma {:induction false} ReturnedIsConverted(response: seq<OutputItem>, o: OutputItem)
    requires o in response
    ensures ResponseInputItem(o) in ResponseInputItems(response)
  {
    if o != response[0] { ReturnedIsConverted(response[1..], o); }
  }

  lemma ReportsMeans(response: seq<OutputItem>, x: InputItem)
    ensures Reports(response, x) <==> Returns(response, x)
  {
    hide ResponseInputItems, ResponseInputItem, ItemId, OutputCallId, SharesId, SharesCall;
    if Reports(response, x) {
      var y :| y in ResponseInputItems(response)
        && (x == y || (ItemId(x).Some? && ItemId(x) == ItemId(y))
            || (OutputCallId(x).Some? && OutputCallId(x) == OutputCallId(y)));
      SharedIds(x, y);
      if x != y {
        var o := ReturnedFrom(response, y);
        OnlyJsonShares(o, x);
        ConvertedJson(o);
        assert OutJson(Obj(y.value.fields)) in response;
      }
    }
    if m :| OutJson(Obj(m)) in response && (SharesId(x, m) || SharesCall(x, m)) {
      var y := JsonItem(Obj(m));
      SharedIds(x, y);
      ConvertedJson(OutJson(Obj(m)));
      ReturnedIsConverted(response, OutJson(Obj(m)));
    }
    if x in ResponseInputItems(response) { assert Reports(response, x); }
  }

  lemma ConvertedJson(o: OutputItem)
    ensures o.OutJson? ==> ResponseInputItem(o) == JsonItem(o.value)
  {}

  /** An earlier turn delivered the item, or its response returned it. */
  ghost predicate Settled(c: Conversation, s: nat, x: InputItem)
    requires c.Valid() && s < |c.responses|
  {
    x in c.Delivered(s) || Returns(c.responses[s], x)
  }

  lemma {:induction false} BlockedIsSettled(c: Conversation, t: nat, x: InputItem)
    requires c.Valid() && t <= |c.responses|
    ensures c.Known(t).Blocks(x) <==> exists s: nat :: s < t && Settled(c, s, x)
  {
    hide Settled, Conversation.Known, Conversation.Delivered;
    if t == 0 {
      NothingBlocked(c, x);
    } else {
      BlockedIsSettled(c, t - 1, x);
      KnownBlocksNext(c, t, x);
      SettledMeans(c, t - 1, x);
      if Settled(c, t - 1, x) { assert t - 1 < t; }
    }
  }

  lemma SettledMeans(c: Conversation, s: nat, x: InputItem)
    requires c.Valid() && s < |c.responses|
    ensures Settled(c, s, x) <==> x in c.Delivered(s) || Reports(c.responses[s], x)
  {
    hide Returns, Reports;
    ReportsMeans(c.responses[s], x);
  }

  /** A local item is withheld exactly if an earlier turn delivered an equal one, or an earlier response holds it
      or a JSON object with the same text under "id", or, if both have an "output", under "call_id". */
  lemma WithheldExactly(c: Conversation, t: nat, x: InputItem)
    requires c.Valid() && 0 < t < |c.responses| && x in c.Produced(t - 1)
    ensures x !in c.Delivered(t) <==> exists s: nat :: s < t && Settled(c, s, x)
  {
    hide Settled;
    BlockedIsSettled(c, t, x);
  }

  /** The input item of a local tool output: it has no id, and answers a call. */
  lemma ToolOutputShares(toolName: string, output: OutputItem, callId: Option<string>, namespace: Option<string>,
                         m: map<string, Json>)
    ensures var x := ToInputItem(ToolCallOutput(toolName, output, callId, namespace));
      && !SharesId(x, m)
      && (SharesCall(x, m)
          <==> callId.Some? && "output" in m && "call_id" in m && m["call_id"] == Str(callId.value))
  {
    assert |"id"| == 2 && |"type"| == 4 && |"tool_name"| == 9 && |"output"| == 6 && |"call_id"| == 7
        && |"namespace"| == 9;
  }

  /** A call the model makes never makes the output that answers it known. */
  lemma ToolOutputWithheld(c: Conversation, t: nat, toolName: string, output: OutputItem, callId: Option<string>,
                           namespace: Option<string>)
    requires c.Valid() && 0 < t < |c.responses|
    requires ToInputItem(ToolCallOutput(toolName, output, callId, namespace)) in c.Produced(t - 1)
    ensures var x := ToInputItem(ToolCallOutput(toolName, output, callId, namespace));
      x !in c.Delivered(t) <==>
        || (exists s: nat :: s < t && (x in c.Delivered(s) || x in ResponseInputItems(c.responses[s])))
        || (exists s: nat, m ::
              s < t && OutJson(Obj(m)) in c.responses[s] && callId.Some? && "output" in m && "call_id" in m
              && m["call_id"] == Str(callId.value))
  {
    hide ToInputItem, SharesId, SharesCall, Conversation.Delivered, Conversation.Produced, ResponseInputItems;
    var x := ToInputItem(ToolCallOutput(toolName, output, callId, namespace));
    WithheldExactly(c, t, x);
    forall m ensures !SharesId(x, m) && (SharesCall(x, m)
          <==> callId.Some? && "output" in m && "call_id" in m && m["call_id"] == Str(callId.value)) {
      ToolOutputShares(toolName, output, callId, namespace, m);
    }
    if x !in c.Delivered(t) {
      var s: nat :| s < t && Settled(c, s, x);
      if x !in c.Delivered(s) && x !in ResponseInputItems(c.responses[s]) {
        var m :| OutJson(Obj(m)) in c.responses[s] && (SharesId(x, m) || SharesCall(x, m));
      }
    }
    if s: nat :| s < t && (x in c.Delivered(s) || x in ResponseInputItems(c.responses[s])) {
      assert Settled(c, s, x);
    }
    if s: nat, m :|
      s < t && OutJson(Obj(m)) in c.responses[s] && callId.Some? && "output" in m && "call_id" in m
      && m["call_id"] == Str(callId.value) {
      assert SharesCall(x, m);
      assert Settled(c, s, x);
    }
  }

  // ---- a conversation of calls and their outputs ----

  /** No response holds JSON of the model's own, and what is produced locally are tool outputs. */
  ghost predicate CallsAndOutputs(c: Conversation) {
    && (forall s, o :: 0 <= s < |c.responses| && o in c.responses[s] ==> !o.OutJson?)
    && (forall s, item :: 0 <= s < |c.actions| && item in c.actions[s] ==> item.ToolCallOutput?)
  }

  /** No tool output is in the original input, or produced in two turns. */
  ghost predicate OutputsDiffer(c: Conversation)
    requires c.Valid()
  {
    && (forall s, x :: 0 <= s < |c.actions| && x in c.Produced(s) ==> x !in c.original)
    && (forall s, u, x :: 0 <= s < u < |c.actions| && x in c.Produced(u) ==> x !in c.Produced(s))
  }

  lemma {:induction false} OutputsConvert(items: seq<RunItem>, policy: ReasoningPolicy, x: InputItem)
    returns (item: RunItem)
    requires x in RunItemsToInputItems(items, policy)
    ensures item in items && x == ToInputItem(item)
  {
    hide ToInputItem;
    var first := RunItemToInputItem(items[0], policy);
    if first == Some(x) {
      item := items[0];
    } else {
      item := OutputsConvert(items[1..], policy, x);
    }
  }

  lemma CallIsNoOutput(o: OutputItem, item: RunItem)
    requires !o.OutJson? && item.ToolCallOutput?
    ensures ResponseInputItem(o) != ToInputItem(item)
  {
    var x := ToInputItem(item);
    assert x.value.fields["type"] == Str("tool_call_output");
    assert |"tool_call_output"| == 16 && |"tool_call"| == 9 && |"reasoning"| == 9 && |"handoff_call"| == 12;
  }

  lemma NeverReturned(c: Conversation, s: nat, x: InputItem, item: RunItem)
    requires c.Valid() && s < |c.responses| && CallsAndOutputs(c) && item.ToolCallOutput? && x == ToInputItem(item)
    ensures !Returns(c.responses[s], x)
  {
    hide ToInputItem, ResponseInputItem, ResponseInputItems, SharesId, SharesCall;
    forall m ensures OutJson(Obj(m)) !in c.responses[s] { assert OutJson(Obj(m)).OutJson?; }
    if x in ResponseInputItems(c.responses[s]) {
      var o := ReturnedFrom(c.responses[s], x);
      CallIsNoOutput(o, item);
    }
  }

  lemma {:induction false} NeverMet(c: Conversation, u: nat, t: nat, x: InputItem)
    requires c.Valid() && CallsAndOutputs(c) && OutputsDiffer(c) && t <= u < |c.responses| && u > 0
    requires x in c.Produced(u - 1)
    ensures !MetBefore(c, t, x)
  {
    hide Conversation.Produced, Returns, Reports;
    if t > 0 {
      NeverMet(c, u, t - 1, x);
      var item := ProducedItem(c, u - 1, x);
      NeverReturned(c, t - 1, x, item);
      ReportsMeans(c.responses[t - 1], x);
    }
  }

  lemma ProducedItem(c: Conversation, s: nat, x: InputItem) returns (item: RunItem)
    requires c.Valid() && s < |c.actions| && CallsAndOutputs(c) && x in c.Produced(s)
    ensures item.ToolCallOutput? && x == ToInputItem(item)
  {
    item := OutputsConvert(c.actions[s], c.policy, x);
  }

  lemma NoOutputMet(c: Conversation, t: nat)
    requires c.Valid() && CallsAndOutputs(c) && OutputsDiffer(c) && 0 < t < |c.responses|
    ensures NoneMetBefore(c, t, c.Produced(t - 1))
  {
    hide MetBefore;
    var items := c.Produced(t - 1);
    forall x | x in items ensures !MetBefore(c, t, x) { NeverMet(c, t, t, x); }
  }

  lemma {:induction false} OutputsAreNew(c: Conversation, t: nat)
    requires c.Valid() && CallsAndOutputs(c) && OutputsDiffer(c) && t <= |c.responses|
    ensures AllNew(c, t)
  {
    hide MetBefore;
    if t > 1 {
      OutputsAreNew(c, t - 1);
      NoOutputMet(c, t - 1);
    }
  }

  /** So a run of tool calls and distinct tool outputs delivers every output exactly once, although each answers
      a call that the server itself returned. */
  lemma OutputsAreDelivered(c: Conversation, t: nat)
    requires c.Valid() && CallsAndOutputs(c) && OutputsDiffer(c) && t <= |c.responses|
    ensures Concat(c, t) == Owed(c, t)
  {
    OutputsAreNew(c, t);
    ExactlyOnceForNewItems(c, t);
  }

  // ---- the tracker object ----

  class OpenAIServerConversationTracker {
    var conversationId: Option<string>
    var previousResponseId: Option<string>
    var autoPreviousResponseId: bool
    var sentInitialInput: bool
    var remainingInitialInput: Option<seq<InputItem>>
    var sentItemFingerprints: set<InputItem>
    var serverItemIds: set<string>
    var serverToolCallIds: set<string>
    var sourceIdsByIdentity: map<Identity, SourceId>
    var sourceIdsByFingerprint: map<InputItem, seq<SourceId>>
    var sourcesById: map<SourceId, InputItem>
    /** Source ids and heap tags never handed out before. */
    var nextSourceId: SourceId
    var nextTag: nat

    ghost predicate Valid()
      reads this
    {
      && S().Valid() && IdsBelow(sourcesById, nextSourceId)
      && Linked(sourceIdsByFingerprint, sourcesById)
    }

    function S(): Sources
      reads this
    {
      Sources(sourceIdsByIdentity, sourcesById)
    }

    function Known(): Ledger
      reads this
    {
      Ledger(sentItemFingerprints, serverItemIds, serverToolCallIds)
    }

    constructor (conversationId: Option<string>, previousResponseId: Option<string>, auto: bool)
      ensures Valid() && S() == NoSources && Known() == Ledger({}, {}, {})
      ensures !sentInitialInput && remainingInitialInput == None && nextSourceId == 0 && nextTag == 0
      ensures this.conversationId == conversationId && this.previousResponseId == previousResponseId
      ensures autoPreviousResponseId == auto
    {
      this.conversationId, this.previousResponseId, this.autoPreviousResponseId := conversationId, previousResponseId,
        auto;
      sentInitialInput, remainingInitialInput := false, None;
      sentItemFingerprints, serverItemIds, serverToolCallIds := {}, {}, {};
      sourceIdsByIdentity, sourceIdsByFingerprint, sourcesById := map[], map[], map[];
      nextSourceId, nextTag := 0, 0;
    }

    /** Copies an item into a block of its own. */
    method CloneItem(item: InputItem) returns (copy: Held)
      modifies this`nextTag
      ensures copy == Held(item, CloneIdentity(item, old(nextTag))) && nextTag == old(nextTag) + 1
    {
      copy := Held(item, CloneIdentity(item, nextTag));
      nextTag := nextTag + 1;
    }

    method CloneItems(items: seq<Held>) returns (copies: seq<Held>)
      modifies this`nextTag
      ensures copies == Clones(Values(items), old(nextTag)) && nextTag == old(nextTag) + |items|
    {
      copies := [];
      for i := 0 to |items|
        invariant nextTag == old(nextTag) + i
        invariant copies == Clones(Values(items), old(nextTag))[..i]
      {
        var copy := CloneItem(items[i].item);
        copies := copies + [copy];
      }
    }

    method RegisterPreparedItemSource(prepared: Held)
      requires Valid()
      modifies this`sourceIdsByIdentity, this`sourceIdsByFingerprint, this`sourcesById, this`nextSourceId
      ensures Valid() && S() == old(S()).Register(prepared, old(nextSourceId)) && nextSourceId == old(nextSourceId) + 1
    {
      var id := nextSourceId;
      nextSourceId := nextSourceId + 1;
      LinkedRegister(sourceIdsByFingerprint, sourcesById, prepared.item, id);
      if prepared.identity.Some? {
        sourceIdsByIdentity := sourceIdsByIdentity[prepared.identity.value := id];
      }
      sourceIdsByFingerprint := sourceIdsByFingerprint[prepared.item := ListOf(sourceIdsByFingerprint, prepared.item)
        + [id]];
      sourcesById := sourcesById[id := prepared.item];
    }

    method ResolvePreparedItemSourceId(item: Held) returns (id: Option<SourceId>)
      requires Valid()
      ensures id == S().Resolve(item)
    {
      if item.identity.Some? && item.identity.value in sourceIdsByIdentity {
        return Some(sourceIdsByIdentity[item.identity.value]);
      }
      LinkedOldest(sourceIdsByFingerprint, sourcesById, item.item);
      if item.item in sourceIdsByFingerprint && sourceIdsByFingerprint[item.item] != [] {
        return Some(sourceIdsByFingerprint[item.item][0]);
      }
      return None;
    }

    method ConsumePreparedItemSourceId(id: SourceId) returns (source: Option<InputItem>)
      requires Valid()
      modifies this`sourceIdsByIdentity, this`sourceIdsByFingerprint, this`sourcesById
      ensures Valid()
      ensures id in old(sourcesById) ==> source == Some(old(sourcesById)[id]) && S() == old(S()).Consume(id)
      ensures id !in old(sourcesById) ==> source == None && S() == old(S())
      ensures id !in sourcesById && id !in sourceIdsByIdentity.Values
      ensures forall fp :: fp in sourceIdsByFingerprint ==> id !in sourceIdsByFingerprint[fp]
    {
      hide DropFromLists, Linked;
      LinkedConsume(sourceIdsByFingerprint, sourcesById, id);
      DroppedEverywhere(sourceIdsByFingerprint, id);
      sourceIdsByIdentity := map d | d in sourceIdsByIdentity && sourceIdsByIdentity[d] != id :: sourceIdsByIdentity[d];
      sourceIdsByFingerprint := DropFromLists(sourceIdsByFingerprint, id);
      source := if id in sourcesById then Some(sourcesById[id]) else None;
      sourcesById := sourcesById - {id};
      if id !in old(sourcesById) {
        assert sourceIdsByIdentity == old(sourceIdsByIdentity);
        assert sourcesById == old(sourcesById);
      }
    }

    /** Uses up the source named for a delivered item, else the one it resolves to; an item without
        a source accounts for itself. */
    method ConsumeSource(item: Held, explicit: Option<SourceId>) returns (source: InputItem)
      requires Valid()
      modifies this`sourceIdsByIdentity, this`sourceIdsByFingerprint, this`sourcesById
      ensures Valid() && S() == UseOne(old(S()), item, explicit) && source == ChosenItem(old(S()), item, explicit)
    {
      if explicit.Some? {
        var named := ConsumePreparedItemSourceId(explicit.value);
        if named.Some? { return named.value; }
      }
      var id := ResolvePreparedItemSourceId(item);
      if id.None? { return item.item; }
      var resolved := ConsumePreparedItemSourceId(id.value);
      source := if resolved.Some? then resolved.value else item.item;
    }

    method RemoveRemainingInitialItem(item: InputItem)
      modifies this`remainingInitialInput
      ensures remainingInitialInput == RemoveRemaining(old(remainingInitialInput), item)
    {
      if remainingInitialInput.None? { return; }
      var remaining := RemoveFirst(remainingInitialInput.value, item);
      remainingInitialInput := if remaining == [] then None else Some(remaining);
    }

    method MarkItemAsSent(item: Held, explicit: Option<SourceId>)
      requires Valid()
      modifies this`sourceIdsByIdentity, this`sourceIdsByFingerprint, this`sourcesById
      modifies this`remainingInitialInput, this`sentItemFingerprints
      ensures Valid() && S() == UseOne(old(S()), item, explicit)
      ensures Known() == old(Known()).Sent([ChosenItem(old(S()), item, explicit)])
      ensures remainingInitialInput == RemoveRemaining(old(remainingInitialInput), ChosenItem(old(S()), item, explicit))
    {
      hide UseOne, ChosenItem;
      var source := ConsumeSource(item, explicit);
      sentItemFingerprints := sentItemFingerprints + {source};
      RemoveRemainingInitialItem(source);
    }

    method MarkInputAsSentWithSources(items: seq<Held>, explicit: Option<seq<Option<SourceId>>>)
      requires Valid()
      modifies this`sourceIdsByIdentity, this`sourceIdsByFingerprint, this`sourcesById
      modifies this`remainingInitialInput, this`sentItemFingerprints
      ensures Valid() && S() == UseAll(old(S()), items, explicit, |items|)
      ensures Known() == old(Known()).Sent(UsedItems(old(S()), items, explicit, |items|))
      ensures remainingInitialInput
           == RemoveAllRemaining(old(remainingInitialInput), UsedItems(old(S()), items, explicit, |items|))
    {
      ghost var start, known, offered := S(), Known(), remainingInitialInput;
      SentNothing(known);
      for i := 0 to |items|
        invariant Valid() && S() == UseAll(start, items, explicit, i)
        invariant Known() == known.Sent(UsedItems(start, items, explicit, i))
        invariant remainingInitialInput == RemoveAllRemaining(offered, UsedItems(start, items, explicit, i))
      {
        MarkedOneMore(start, known, offered, items, explicit, i);
        MarkItemAsSent(items[i], if explicit.Some? && i < |explicit.value| then explicit.value[i] else None);
      }
    }

    method TrackServerItems(output: seq<OutputItem>)
      modifies this`sentItemFingerprints, this`serverItemIds, this`serverToolCallIds, this`remainingInitialInput
      ensures Known() == old(Known()).Absorb(ResponseInputItems(output))
      ensures remainingInitialInput == WithoutItems(old(remainingInitialInput), ResponseInputItems(output))
    {
      hide ItemId, OutputCallId, WithoutItems, Ledger.Absorb;
      var items := ResponseInputItems(output);
      AbsorbNone(Known());
      for i := 0 to |items|
        invariant Known() == old(Known()).Absorb(items[..i])
        invariant remainingInitialInput == old(remainingInitialInput)
      {
        assert items[..i + 1] == items[..i] + [items[i]];
        if ItemId(items[i]).Some? { serverItemIds := serverItemIds + {ItemId(items[i]).value}; }
        if OutputCallId(items[i]).Some? { serverToolCallIds := serverToolCallIds + {OutputCallId(items[i]).value}; }
        sentItemFingerprints := sentItemFingerprints + {items[i]};
        AbsorbLast(old(Known()), items[..i], items[i]);
      }
      assert items[..|items|] == items;
      remainingInitialInput := WithoutItems(remainingInitialInput, items);
    }

    method ApplyResponse(output: seq<OutputItem>, responseId: Option<string>)
      modifies this`sentItemFingerprints, this`serverItemIds, this`serverToolCallIds, this`remainingInitialInput
      modifies this`previousResponseId
      ensures Known() == old(Known()).Absorb(ResponseInputItems(output))
      ensures remainingInitialInput == WithoutItems(old(remainingInitialInput), ResponseInputItems(output))
      ensures previousResponseId
           == if (autoPreviousResponseId || old(previousResponseId).Some?) && responseId.Some? then responseId
              else old(previousResponseId)
    {
      TrackServerItems(output);
      if (autoPreviousResponseId || previousResponseId.Some?) && responseId.Some? {
        previousResponseId := responseId;
      }
    }

    /** The items registered since a turn began at `start`, and the copies made of them. */
    ghost predicate Preparing(start: Sources, first: SourceId, tag: nat, items: seq<InputItem>, prepared: seq<Held>)
      reads this
    {
      && Valid() && prepared == Clones(items, tag) && nextTag == tag + |items| && nextSourceId == first + |items|
      && S() == RegisterAll(start, prepared, first, |prepared|)
    }

    method PrepareItem(item: InputItem, prepared: seq<Held>, ghost items: seq<InputItem>,
                       ghost start: Sources, ghost first: SourceId, ghost tag: nat) returns (more: seq<Held>)
      requires Preparing(start, first, tag, items, prepared)
      modifies this`sourceIdsByIdentity, this`sourceIdsByFingerprint, this`sourcesById, this`nextSourceId, this`nextTag
      ensures Preparing(start, first, tag, items + [item], more)
    {
      var copy := CloneItem(item);
      RegisterPreparedItemSource(copy);
      more := prepared + [copy];
      RegisterAllPrefix(start, prepared, [copy], first, |prepared|);
      assert more == Clones(items + [item], tag);
    }

    /** The items a turn offers, before they are copied. */
    ghost function Due(original: seq<InputItem>, generated: seq<RunItem>, policy: ReasoningPolicy): seq<InputItem>
      reads this
    {
      (if !sentInitialInput then original else Offered(remainingInitialInput))
      + Known().Fresh(RunItemsToInputItems(generated, policy))
    }

    method PrepareOffered(offered: seq<InputItem>, ghost start: Sources, ghost first: SourceId, ghost tag: nat)
      returns (prepared: seq<Held>)
      requires Preparing(start, first, tag, [], [])
      modifies this`sourceIdsByIdentity, this`sourceIdsByFingerprint, this`sourcesById, this`nextSourceId, this`nextTag
      ensures Preparing(start, first, tag, offered, prepared)
    {
      prepared := [];
      for i := 0 to |offered|
        invariant Preparing(start, first, tag, offered[..i], prepared)
      {
        prepared := PrepareItem(offered[i], prepared, offered[..i], start, first, tag);
        assert offered[..i] + [offered[i]] == offered[..i + 1];
      }
      assert offered[..|offered|] == offered;
    }

    method PrepareGenerated(generated: seq<RunItem>, policy: ReasoningPolicy, before: seq<Held>,
                            ghost offered: seq<InputItem>,
                            ghost start: Sources, ghost first: SourceId, ghost tag: nat) returns (prepared: seq<Held>)
      requires Preparing(start, first, tag, offered, before)
      modifies this`sourceIdsByIdentity, this`sourceIdsByFingerprint, this`sourcesById, this`nextSourceId, this`nextTag
      ensures Preparing(start, first, tag, offered + Known().Fresh(RunItemsToInputItems(generated, policy)), prepared)
    {
      prepared := before;
      ghost var items := offered;
      assert items == offered + Known().Fresh(RunItemsToInputItems(generated[..0], policy));
      hide RunItemToInputItem, RunItemsToInputItems, RegisterAll, ItemId, OutputCallId, Clones;
      for i := 0 to |generated|
        invariant items == offered + Known().Fresh(RunItemsToInputItems(generated[..i], policy))
        invariant Preparing(start, first, tag, items, prepared)
      {
        FreshStep(Known(), generated, i, policy);
        FreshOne(Known(), generated[i], policy);
        var item := RunItemToInputItem(generated[i], policy);
        if item.None? { continue; }
        if ItemId(item.value).Some? && ItemId(item.value).value in serverItemIds { continue; }
        if OutputCallId(item.value).Some? && OutputCallId(item.value).value in serverToolCallIds { continue; }
        if item.value in sentItemFingerprints { continue; }
        prepared := PrepareItem(item.value, prepared, items, start, first, tag);
        items := items + [item.value];
      }
      assert generated[..|generated|] == generated;
    }

    method PrepareInput(original: seq<InputItem>, generated: seq<RunItem>, policy: ReasoningPolicy)
      returns (prepared: seq<Held>)
      requires Valid()
      modifies this`sourceIdsByIdentity, this`sourceIdsByFingerprint, this`sourcesById, this`nextSourceId, this`nextTag
      modifies this`sentInitialInput, this`remainingInitialInput
      ensures Valid() && prepared == Clones(old(Due(original, generated, policy)), old(nextTag))
      ensures nextTag == old(nextTag) + |prepared| && nextSourceId == old(nextSourceId) + |prepared|
      ensures S() == RegisterAll(old(S()), prepared, old(nextSourceId), |prepared|)
      ensures sentInitialInput
      ensures remainingInitialInput == if old(sentInitialInput) then old(remainingInitialInput) else Initially(original)
    {
      ghost var start, first, tag := S(), nextSourceId, nextTag;
      var offered := if !sentInitialInput then original else Offered(remainingInitialInput);
      prepared := PrepareOffered(offered, start, first, tag);
      if !sentInitialInput {
        remainingInitialInput := if original == [] then None else Some(original);
        sentInitialInput := true;
      }
      prepared := PrepareGenerated(generated, policy, prepared, offered, start, first, tag);
    }

    method PreparedSourceRefs(items: seq<Held>) returns (refs: seq<Option<SourceId>>)
      requires Valid()
      ensures refs == SourceRefs(S(), items)
    {
      refs := [];
      for i := 0 to |items|
        invariant |refs| == i && forall k :: 0 <= k < i ==> refs[k] == S().Resolve(items[k])
      {
        var id := ResolvePreparedItemSourceId(items[i]);
        refs := refs + [id];
      }
    }
  }

  function WithoutItems(remaining: Option<seq<InputItem>>, items: seq<InputItem>): Option<seq<InputItem>> {
    match remaining
    case None => None
    case Some(offered) =>
      var rest := FilterMap(x => if x in items then None else Some(x), offered);
      if rest == [] then None else Some(rest)
  }

  lemma SentNothing(k: Ledger)
    ensures k.Sent([]) == k
  {}

  lemma MarkedOneMore(start: Sources, known: Ledger, offered: Option<seq<InputItem>>, items: seq<Held>,
                      explicit: Option<seq<Option<SourceId>>>, i: nat)
    requires i < |items|
    ensures UseAll(start, items, explicit, i + 1)
      == UseOne(UseAll(start, items, explicit, i), items[i], ExplicitAt(explicit, i))
    ensures var source := ChosenItem(UseAll(start, items, explicit, i), items[i], ExplicitAt(explicit, i));
            && known.Sent(UsedItems(start, items, explicit, i + 1))
              == known.Sent(UsedItems(start, items, explicit, i)).Sent([source])
            && RemoveAllRemaining(offered, UsedItems(start, items, explicit, i + 1))
            == RemoveRemaining(RemoveAllRemaining(offered, UsedItems(start, items, explicit, i)), source)
  {
    var used := UsedItems(start, items, explicit, i);
    var source := ChosenItem(UseAll(start, items, explicit, i), items[i], ExplicitAt(explicit, i));
    assert UsedItems(start, items, explicit, i + 1) == used + [source];
    RemoveAllLast(offered, used, source);
    assert forall x :: x in used + [source] <==> x in used || x == source;
  }

  lemma AbsorbNone(k: Ledger)
    ensures k.Absorb([]) == k
  {}

  lemma AbsorbLast(k: Ledger, items: seq<InputItem>, x: InputItem)
    ensures k.Absorb(items + [x]).sent == k.Absorb(items).sent + {x}
    ensures k.Absorb(items + [x]).itemIds == k.Absorb(items).itemIds
      + (if ItemId(x).Some? then {ItemId(x).value} else {})
    ensures k.Absorb(items + [x]).callIds
         == k.Absorb(items).callIds + (if OutputCallId(x).Some? then {OutputCallId(x).value} else {})
  {
    assert forall y :: y in items + [x] <==> y in items || y == x;
  }

  lemma FreshSingle(k: Ledger, x: InputItem)
    ensures k.Fresh([x]) == if k.Blocks(x) then [] else [x]
  {
    assert [x][1..] == [];
  }

  lemma FreshOne(k: Ledger, item: RunItem, policy: ReasoningPolicy)
    ensures k.Fresh(RunItemsToInputItems([item], policy))
         == if RunItemToInputItem(item, policy).Some? && !k.Blocks(RunItemToInputItem(item, policy).value)
            then [RunItemToInputItem(item, policy).value] else []
  {
    FilterMapOne(x => RunItemToInputItem(x, policy), item);
    if RunItemToInputItem(item, policy).Some? { FreshSingle(k, RunItemToInputItem(item, policy).value); }
  }

  lemma FreshStep(k: Ledger, generated: seq<RunItem>, i: nat, policy: ReasoningPolicy)
    requires i < |generated|
    ensures k.Fresh(RunItemsToInputItems(generated[..i + 1], policy))
         == k.Fresh(RunItemsToInputItems(generated[..i], policy))
           + k.Fresh(RunItemsToInputItems([generated[i]], policy))
  {
    assert generated[..i + 1] == generated[..i] + [generated[i]];
    RunItemsToInputItemsAppend(generated[..i], [generated[i]], policy);
    FreshAppend(k, RunItemsToInputItems(generated[..i], policy), RunItemsToInputItems([generated[i]], policy));
  }

  // ---- the turn loop over the tracker ----

  /** Nothing left over between unfiltered turns. */
  ghost predicate AtRest(tracker: OpenAIServerConversationTracker)
    reads tracker
  {
    tracker.Valid() && tracker.S() == NoSources
  }

  lemma PlainMark(s: Sources, items: seq<InputItem>, prepared: seq<Held>, copies: seq<Held>, tag: nat, first: SourceId,
                  later: nat)
    requires Faithful(items) && tag + |items| <= later
    requires prepared == Clones(items, tag) && copies == Clones(items, later)
    requires s == RegisterAll(NoSources, prepared, first, |prepared|)
    ensures UseAll(s, copies, None, |copies|) == NoSources && UsedItems(s, copies, None, |copies|) == items
  {
    PlainTurn(items, tag, first, later);
  }

  /** One unfiltered turn: the prepared input is copied for the model call, delivered and marked. */
  method DeliverTurn(tracker: OpenAIServerConversationTracker, original: seq<InputItem>, generated: seq<RunItem>,
                     policy: ReasoningPolicy) returns (delivered: seq<InputItem>)
    requires AtRest(tracker) && Faithful(tracker.Due(original, generated, policy))
    modifies tracker
    ensures AtRest(tracker) && delivered == old(tracker.Due(original, generated, policy))
    ensures tracker.Known() == old(tracker.Known()).Sent(delivered) && tracker.sentInitialInput
    ensures tracker.remainingInitialInput
         == RemoveAllRemaining(if old(tracker.sentInitialInput) then old(tracker.remainingInitialInput)
           else Initially(original), delivered)
    ensures tracker.previousResponseId == old(tracker.previousResponseId)
  {
    hide Faithful, RemoveAllRemaining, RunItemsToInputItems, RegisterAll, UseAll, UsedItems, Ledger.Sent;
    var prepared := tracker.PrepareInput(original, generated, policy);
    delivered := Values(prepared);
    assert delivered == old(tracker.Due(original, generated, policy));
    ghost var later := tracker.nextTag;
    var copies := tracker.CloneItems(prepared);
    PlainMark(tracker.S(), delivered, prepared, copies, old(tracker.nextTag), old(tracker.nextSourceId), later);
    tracker.MarkInputAsSentWithSources(copies, None);
  }

  /** Nothing more is offered once everything offered was delivered. */
  lemma {:induction false} DeliveredAll(items: seq<InputItem>, n: nat)
    requires n <= |items|
    ensures RemoveAllRemaining(Initially(items), items[..n]) == Initially(items[n..])
  {
    if n == 0 {
      assert items[..0] == [] && items[0..] == items;
    } else {
      DeliveredAll(items, n - 1);
      assert items[..n] == items[..n - 1] + [items[n - 1]];
      RemoveAllLast(Initially(items), items[..n - 1], items[n - 1]);
      assert items[n - 1..][0] == items[n - 1] && items[n - 1..][1..] == items[n..];
    }
  }

  lemma {:induction false} NoneStaysNone(items: seq<InputItem>)
    ensures RemoveAllRemaining(None, items) == None
  {
    if items != [] { NoneStaysNone(items[..|items| - 1]); }
  }

  /** The tracker and the recorded items just before turn `t`. */
  ghost predicate BeforeTurn(tracker: OpenAIServerConversationTracker, c: Conversation, t: nat)
    reads tracker
  {
    && c.Valid() && t <= |c.responses| && AtRest(tracker)
    && tracker.remainingInitialInput == None && tracker.Known() == c.Known(t) && tracker.sentInitialInput == (t > 0)
  }

  lemma BeforeFirstTurn(tracker: OpenAIServerConversationTracker, c: Conversation)
    requires c.Valid() && AtRest(tracker) && tracker.remainingInitialInput == None && !tracker.sentInitialInput
    requires tracker.Known() == Ledger({}, {}, {})
    ensures BeforeTurn(tracker, c, 0)
  {}

  lemma DueIsDelivered(tracker: OpenAIServerConversationTracker, c: Conversation, t: nat)
    requires BeforeTurn(tracker, c, t) && t < |c.responses|
    ensures tracker.Due(c.original, c.Generated(t), c.policy) == c.Delivered(t)
  {
    if t > 0 { OnlyLatestIsFresh(c, t); }
  }

  lemma OfferedAllDelivered(c: Conversation, t: nat)
    requires c.Valid() && t < |c.responses|
    ensures RemoveAllRemaining(if t > 0 then None else Initially(c.original), c.Delivered(t)) == None
  {
    if t > 0 {
      NoneStaysNone(c.Delivered(t));
    } else {
      DeliveredAll(c.original, |c.original|);
      assert c.original[..|c.original|] == c.original;
    }
  }

  method ConversationTurn(tracker: OpenAIServerConversationTracker, c: Conversation, t: nat, generated: seq<RunItem>)
    returns (delivered: seq<InputItem>)
    requires BeforeTurn(tracker, c, t) && t < |c.responses| && generated == c.Generated(t) && Faithful(c.Delivered(t))
    modifies tracker
    ensures BeforeTurn(tracker, c, t + 1) && delivered == c.Delivered(t)
  {
    DueIsDelivered(tracker, c, t);
    OfferedAllDelivered(c, t);
    delivered := DeliverTurn(tracker, c.original, generated, c.policy);
    tracker.ApplyResponse(c.responses[t], None);
  }

  /** The turns of a run without filter, handoff rewriting or rewinding, under an active tracker:
      turn by turn it delivers what the ledger account says, for all responses and local results. */
  method RunConversation(c: Conversation, conversationId: Option<string>, previousResponseId: Option<string>,
                         auto: bool)
    returns (deliveries: seq<seq<InputItem>>)
    requires c.Valid() && forall t :: 0 <= t < |c.responses| ==> Faithful(c.Delivered(t))
    ensures |deliveries| == |c.responses| && forall t :: 0 <= t < |c.responses| ==> deliveries[t] == c.Delivered(t)
  {
    hide BeforeTurn, Faithful, Conversation.Delivered;
    var tracker := new OpenAIServerConversationTracker(conversationId, previousResponseId, auto);
    var generated := [];
    deliveries := [];
    BeforeFirstTurn(tracker, c);
    for t := 0 to |c.responses|
      invariant fresh(tracker) && BeforeTurn(tracker, c, t)
      invariant generated == c.Generated(t)
      invariant |deliveries| == t && forall u :: 0 <= u < t ==> deliveries[u] == c.Delivered(u)
    {
      var delivered := ConversationTurn(tracker, c, t, generated);
      deliveries := deliveries + [delivered];
      generated := generated + BuildMessageOutputItems(c.responses[t]) + c.actions[t];
    }
  }

  /** The model input a filter returns and the source named for each of its items. */
  method FilterModelInput(tracker: OpenAIServerConversationTracker, prepared: seq<Held>, filter: seq<Held> -> seq<Held>)
    returns (filtered: seq<Held>, slots: seq<Option<nat>>, sources: seq<Option<SourceId>>)
    requires tracker.Valid()
    modifies tracker`nextTag
    ensures MaximumMatching(slots, |prepared|, |filtered|)
      && sources == NamedSources(slots, SourceRefs(tracker.S(), prepared))
    ensures tracker.Valid()
  {
    var refs := tracker.PreparedSourceRefs(prepared);
    var input := tracker.CloneItems(prepared);
    var exact := BuildFilteredInputIdentityIndex(input);
    IdentityIndexCorrect(input);
    filtered := filter(input);
    slots := DeriveFilteredInputSourceIndices(prepared, filtered, exact);
    SourceIndicesAreMaximum(prepared, filtered, exact);
    sources := NamedSources(slots, refs);
  }

  /** The rest of a first turn whose input has just been prepared. */
  method DeliverFiltered(tracker: OpenAIServerConversationTracker, ghost items: seq<InputItem>, prepared: seq<Held>,
                         filter: seq<Held> -> seq<Held>) returns (slots: seq<Option<nat>>)
    requires tracker.Valid() && prepared == Clones(items, 0) && tracker.S() == FirstSources(items, 0)
    requires tracker.remainingInitialInput == Initially(items)
    modifies tracker
    ensures tracker.Valid() && DistinctSlots(slots, |items|)
    ensures SelfIdentifying(items) ==>
              multiset(Offered(tracker.remainingInitialInput)) + multiset(Attributed(items, slots)) == multiset(items)
  {
    hide SelfIdentifying, Attributed, RemoveAllRemaining, UsedItems, UseAll, FirstSources, MaximumMatching;
    var filtered, matched, sources := FilterModelInput(tracker, prepared, filter);
    slots := matched;
    var delivered := tracker.CloneItems(filtered);
    if SelfIdentifying(items) {
      FirstTurnAttribution(items, 0, delivered, slots);
    }
    tracker.MarkInputAsSentWithSources(delivered, Some(sources));
  }

  /** The first turn of a run with an arbitrary filter over the model input. */
  method FilteredFirstTurn(items: seq<InputItem>, filter: seq<Held> -> seq<Held>)
    returns (tracker: OpenAIServerConversationTracker, slots: seq<Option<nat>>)
    ensures fresh(tracker) && tracker.Valid() && DistinctSlots(slots, |items|)
    ensures SelfIdentifying(items) ==>
              multiset(Offered(tracker.remainingInitialInput)) + multiset(Attributed(items, slots)) == multiset(items)
  {
    tracker := new OpenAIServerConversationTracker(Some("conversation"), None, false);
    var prepared := tracker.PrepareInput(items, [], Preserve);
    assert prepared == Clones(items, 0);
    slots := DeliverFiltered(tracker, items, prepared, filter);
  }

}
