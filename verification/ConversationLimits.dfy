/** Exactly when the tracker's guarantees hold: which inputs break them, and why only those. */
module ConversationLimits {
  import opened Items
  import opened FilterMatcher
  import opened ConversationTracker
  import opened ConversationTurns

  // ---- attribution needs distinguishable items ----

  /** Neither the address nor the content of any source of this turn. */
  predicate Foreign(s: Sources, items: seq<InputItem>, x: Held) {
    (x.identity.Some? ==> x.identity.value !in s.byIdentity) && x.item !in items
  }

  lemma {:induction false} OnlyShrinks(s: Sources, items: seq<Held>, explicit: Option<seq<Option<SourceId>>>, n: nat)
    requires n <= |items|
    ensures forall d :: d in UseAll(s, items, explicit, n).byIdentity ==> d in s.byIdentity
    ensures forall id :: id in UseAll(s, items, explicit, n).live ==>
              id in s.live && UseAll(s, items, explicit, n).live[id] == s.live[id]
  {
    if n > 0 { OnlyShrinks(s, items, explicit, n - 1); }
  }

  lemma ForeignResolvesToNothing(s: Sources, after: Sources, items: seq<InputItem>, x: Held)
    requires Foreign(s, items, x)
    requires forall d :: d in after.byIdentity ==> d in s.byIdentity
    requires forall id :: id in after.live ==> after.live[id] in items
    ensures after.Resolve(x).None?
  {}

  /** Delivering foreign items, only named sources are used up. */
  lemma {:induction false} UnnamedStaysLive(s: Sources, items: seq<InputItem>, delivered: seq<Held>,
                                            named: seq<Option<SourceId>>, n: nat, id: SourceId)
    requires n <= |delivered| == |named| && id in s.live && !Names(named, n, id)
    requires forall j :: j in s.live ==> s.live[j] in items
    requires forall x :: x in delivered ==> Foreign(s, items, x)
    ensures id in UseAll(s, delivered, Some(named), n).live
  {
    if n > 0 {
      UnnamedStaysLive(s, items, delivered, named, n - 1, id);
      OnlyShrinks(s, delivered, Some(named), n - 1);
      ForeignResolvesToNothing(s, UseAll(s, delivered, Some(named), n - 1), items, delivered[n - 1]);
    }
  }

  predicate SameHandle(a: Held, b: Held) {
    a.identity == b.identity && (a.identity.None? ==> a.item == b.item)
  }

  lemma {:induction false} IdentityPresent(items: seq<InputItem>, n: nat, p: nat)
    requires p < n <= |items| && CloneIdentity(items[p], p).Some?
    ensures CloneIdentity(items[p], p).value in RegisterAll(NoSources, Clones(items, 0), 0, n).byIdentity
  {
    if p < n - 1 { IdentityPresent(items, n - 1, p); }
  }

  /** Items with the same handle resolve to the same source. */
  lemma SameRef(items: seq<InputItem>, p: nat, q: nat)
    requires p < |items| && q < |items| && SameHandle(Clones(items, 0)[p], Clones(items, 0)[q])
    ensures FirstSources(items, 0).Resolve(Clones(items, 0)[p]) == FirstSources(items, 0).Resolve(Clones(items, 0)[q])
  {
    if CloneIdentity(items[p], p).Some? { IdentityPresent(items, |items|, p); }
  }

  /** An item resolves to a source with its own handle. */
  lemma RefHasHandle(items: seq<InputItem>, p: nat, q: nat)
    requires p < |items| && FirstSources(items, 0).Resolve(Clones(items, 0)[p]) == Some(q)
    ensures q < |items| && SameHandle(Clones(items, 0)[p], Clones(items, 0)[q])
  {
    if CloneIdentity(items[p], p).Some? {
      IdentityPresent(items, |items|, p);
      RegisteredIdentities(items, 0, 0, |items|, CloneIdentity(items[p], p).value);
    } else {
      RegisterAllLive(NoSources, items, 0, 0, |items|);
      NoIdentityEither(items[p], items[q], p, q);
    }
  }

  lemma IndistinguishableHandles(items: seq<InputItem>, i: nat, j: nat)
    requires i < j < |items| && !Distinguishable(items[i], items[j])
    ensures SameHandle(Clones(items, 0)[i], Clones(items, 0)[j])
  {}

  /** Of two indistinguishable items, one is never anybody's source. */
  lemma OneIsNeverNamed(items: seq<InputItem>, i: nat, j: nat) returns (x: nat)
    requires i < j < |items| && !Distinguishable(items[i], items[j])
    ensures x < |items|
    ensures forall p :: 0 <= p < |items| ==> FirstSources(items, 0).Resolve(Clones(items, 0)[p]) != Some(x)
  {
    IndistinguishableHandles(items, i, j);
    SameRef(items, i, j);
    x := if FirstSources(items, 0).Resolve(Clones(items, 0)[i]) == Some(i) then j else i;
    forall p | 0 <= p < |items| && FirstSources(items, 0).Resolve(Clones(items, 0)[p]) == Some(x) ensures false {
      RefHasHandle(items, p, x);
      SameRef(items, p, x);
    }
  }

  lemma RegisteredContents(items: seq<InputItem>)
    ensures forall id :: id in FirstSources(items, 0).live ==> id < |items| && FirstSources(items, 0).live[id] in items
    ensures forall id: SourceId :: id < |items| ==> id in FirstSources(items, 0).live
  {
    RegisterAllLive(NoSources, items, 0, 0, |items|);
  }

  /** The never-named item is still offered. */
  lemma NeverNamedIsOffered(items: seq<InputItem>, delivered: seq<Held>, slots: seq<Option<nat>>, x: nat)
    requires |delivered| == |slots| && x < |items|
    requires forall y :: y in delivered ==> Foreign(FirstSources(items, 0), items, y)
    requires forall p :: 0 <= p < |items| ==> FirstSources(items, 0).Resolve(Clones(items, 0)[p]) != Some(x)
    ensures OfferedAfter(items, 0, delivered, Some(FirstNamed(items, 0, slots))) != []
  {
    var s, named := FirstSources(items, 0), FirstNamed(items, 0, slots);
    RegisteredContents(items);
    NamesWitness(named, |named|, x);
    UnnamedStaysLive(s, items, delivered, named, |delivered|, x);
    var after := UseAll(s, delivered, Some(named), |delivered|).live;
    FirstTurnMirrors(items, 0, delivered, Some(named), |delivered|);
    LiveItemsHold(after, after[x], |items|);
    assert after[x] in multiset(OfferedAfter(items, 0, delivered, Some(named)));
  }

  lemma AllSlotted(items: seq<InputItem>, delivered: seq<Held>, slots: seq<Option<nat>>)
    requires SelfIdentifying(items) && MaximumMatching(slots, |items|, |delivered|) && |items| <= |delivered|
    ensures OfferedAfter(items, 0, delivered, Some(FirstNamed(items, 0, slots))) == []
  {
    var named := FirstNamed(items, 0, slots);
    var after := UseAll(FirstSources(items, 0), delivered, Some(named), |delivered|).live;
    FirstTurnLive(items, 0, delivered, slots, after);
    forall id: SourceId ensures id !in after {
      if id < |items| { AllTaken(slots, |items|, id); }
    }
    NoLiveItems(after, |items|);
    FirstTurnMirrors(items, 0, delivered, Some(named), |delivered|);
    assert |multiset(OfferedAfter(items, 0, delivered, Some(named)))| == 0;
  }

  /** When a filter rewrites every item into something new, nothing should be offered again; that
      holds exactly for inputs whose items can be told apart. */
  lemma RewritingEverything(items: seq<InputItem>, delivered: seq<Held>, slots: seq<Option<nat>>)
    requires MaximumMatching(slots, |items|, |delivered|) && |items| <= |delivered|
    requires forall y :: y in delivered ==> Foreign(FirstSources(items, 0), items, y)
    ensures OfferedAfter(items, 0, delivered, Some(FirstNamed(items, 0, slots))) == [] <==> SelfIdentifying(items)
  {
    if SelfIdentifying(items) {
      AllSlotted(items, delivered, slots);
    } else {
      var i, j :| 0 <= i < j < |items| && !Distinguishable(items[i], items[j]);
      var x := OneIsNeverNamed(items, i, j);
      NeverNamedIsOffered(items, delivered, slots, x);
    }
  }

  // ---- unfiltered delivery needs faithful addresses ----

  /** The first and the last item behind a shared address, differing. */
  ghost predicate Misled(items: seq<InputItem>, i: nat, j: nat, d: Identity) {
    && i <= j < |items| && SharedAddress(items[i]) == Some(d) == SharedAddress(items[j])
    && FirstBehind(items, i) && LastBehind(items, j) && items[i] != items[j]
  }

  lemma LastHolds(items: seq<InputItem>, tag: nat, i: nat, j: nat, d: Identity)
    requires Misled(items, i, j, d)
    ensures d in Start(items, tag, 0).byIdentity && Start(items, tag, 0).byIdentity[d] == j
  {
    SharedIsCloned(items[j], tag + j, d);
    forall k | j < k < |items| ensures CloneIdentity(items[k], tag + k) != CloneIdentity(items[j], tag + j) {
      if CloneIdentity(items[k], tag + k) == Some(d) { SharedCloneIdentity(items[k], tag + k, d); }
    }
    RegisterAllIdentity(NoSources, items, tag, 0, |items|, j);
  }

  lemma HandleByAddress(items: seq<InputItem>, tag: nat, later: nat, n: nat, d: Identity)
    requires n < |items| && tag + |items| <= later
    requires CloneIdentity(items[n], later + n) == Some(d) && d in After(items, tag, 0, later, n).byIdentity
    ensures After(items, tag, 0, later, n).byIdentity[d] < |items|
    ensures SharedAddress(items[n]) == Some(d) == SharedAddress(items[After(items, tag, 0, later, n).byIdentity[d]])
  {
    IdentityStillThere(Start(items, tag, 0), Clones(items, later), n, d);
    RegisteredIdentities(items, tag, 0, |items|, d);
    hide CloneIdentity;
    var id := After(items, tag, 0, later, n).byIdentity[d];
    SharedCloneIdentity(items[n], later + n, d);
    SharedCloneIdentity(items[id], tag + id, d);
  }

  lemma HandleByContent(items: seq<InputItem>, tag: nat, later: nat, n: nat, id: SourceId)
    requires n < |items| && id in After(items, tag, 0, later, n).live
      && After(items, tag, 0, later, n).live[id] == items[n]
    ensures id < |items| && items[id] == items[n]
  {
    LiveKeepsContent(Start(items, tag, 0), Clones(items, later), n, id);
    RegisterAllLive(NoSources, items, tag, 0, |items|);
  }

  /** What a resolved source has in common with the delivered copy. */
  lemma ResolvedHandle(items: seq<InputItem>, tag: nat, later: nat, n: nat, id: SourceId)
    requires n < |items| && tag + |items| <= later
    requires After(items, tag, 0, later, n).Resolve(Clones(items, later)[n]) == Some(id)
    ensures id < |items|
    ensures
      || items[id] == items[n]
      || (SharedAddress(items[n]).Some? && SharedAddress(items[id]) == SharedAddress(items[n])
          && SharedAddress(items[n]).value in After(items, tag, 0, later, n).byIdentity)
  {
    hide After, CloneIdentity, SharedAddress;
    var identity := CloneIdentity(items[n], later + n);
    if identity.Some? && identity.value in After(items, tag, 0, later, n).byIdentity {
      HandleByAddress(items, tag, later, n, identity.value);
    } else {
      HandleByContent(items, tag, later, n, id);
    }
  }

  /** Until the first item behind the address is delivered, the address leads to the last one. */
  lemma {:induction false} AddressKept(items: seq<InputItem>, tag: nat, later: nat, i: nat, j: nat, d: Identity, n: nat)
    requires Misled(items, i, j, d) && n <= i && tag + |items| <= later
    ensures d in After(items, tag, 0, later, n).byIdentity && After(items, tag, 0, later, n).byIdentity[d] == j
  {
    if n == 0 {
      LastHolds(items, tag, i, j, d);
    } else {
      AddressKept(items, tag, later, i, j, d, n - 1);
      var id := After(items, tag, 0, later, n - 1).Resolve(Clones(items, later)[n - 1]);
      if id == Some(j) {
        ResolvedHandle(items, tag, later, n - 1, j);
        assert false;
      }
    }
  }

  /** The copies of the first item still live, after `n` deliveries: one more than accounted for once
      that item itself was delivered. */
  ghost predicate OneTooMany(items: seq<InputItem>, tag: nat, later: nat, i: nat, n: nat)
    requires i < |items| && n <= |items|
  {
    LiveItems(After(items, tag, 0, later, n).live, |items|)[items[i]] + multiset(items[..n])[items[i]]
      >= multiset(items)[items[i]] + (if n > i then 1 else 0)
  }

  lemma StepUses(items: seq<InputItem>, tag: nat, later: nat, n: nat, v: InputItem)
    requires n < |items|
    ensures var s := After(items, tag, 0, later, n);
            var after := LiveItems(After(items, tag, 0, later, n + 1).live, |items|);
            && LiveItems(s.live, |items|)[v] <= after[v] + 1
            && (LiveItems(s.live, |items|)[v] > after[v] ==>
                  s.Resolve(Clones(items, later)[n]).Some? && s.Resolve(Clones(items, later)[n]).value in s.live
                  && s.live[s.Resolve(Clones(items, later)[n]).value] == v)
  {
    var s := After(items, tag, 0, later, n);
    AfterValid(items, tag, 0, later, n);
    var id := s.Resolve(Clones(items, later)[n]);
    StartBelow(items, tag, 0);
    UseAllIdsBelow(Start(items, tag, 0), Clones(items, later), None, n, |items|);
    if id.Some? { LiveItemsRemove(s.live, id.value, |items|); }
  }

  lemma NoneMisled(items: seq<InputItem>, tag: nat, later: nat, i: nat)
    requires i < |items|
    ensures OneTooMany(items, tag, later, i, 0)
  {
    StartLive(items, tag, 0);
  }

  lemma {:induction false} MisledKeepsOne(items: seq<InputItem>, tag: nat, later: nat, i: nat, j: nat, d: Identity,
                                          n: nat)
    requires Misled(items, i, j, d) && n <= |items| && tag + |items| <= later
    ensures OneTooMany(items, tag, later, i, n)
  {
    assert i < |items|;
    hide Misled, After, Clones;
    if n == 0 {
      NoneMisled(items, tag, later, i);
    } else {
      MisledKeepsOne(items, tag, later, i, j, d, n - 1);
      StepUses(items, tag, later, n - 1, items[i]);
      BagOfPrefix(items, n);
      var s := After(items, tag, 0, later, n - 1);
      var id := s.Resolve(Clones(items, later)[n - 1]);
      if id.Some? && id.value in s.live && s.live[id.value] == items[i] {
        MisledUse(items, tag, later, i, j, d, n - 1, id.value);
      }
    }
  }

  /** A copy of the first item's content is only ever used by an equal item, and not by the first. */
  lemma MisledUse(items: seq<InputItem>, tag: nat, later: nat, i: nat, j: nat, d: Identity, n: nat, id: SourceId)
    requires Misled(items, i, j, d) && n < |items| && tag + |items| <= later
    requires var s := After(items, tag, 0, later, n);
             s.Resolve(Clones(items, later)[n]) == Some(id) && id in s.live && s.live[id] == items[i]
    ensures n != i && items[n] == items[i]
  {
    ResolvedHandle(items, tag, later, n, id);
    LiveKeepsContent(Start(items, tag, 0), Clones(items, later), n, id);
    RegisterAllLive(NoSources, items, tag, 0, |items|);
    var s := After(items, tag, 0, later, n);
    if d in s.byIdentity && SharedAddress(items[n]) == Some(d) {
      IdentityStillThere(Start(items, tag, 0), Clones(items, later), n, d);
      LastHolds(items, tag, i, j, d);
      SharedIsCloned(items[n], later + n, d);
      assert false;
    }
    if n == i { AddressKept(items, tag, later, i, j, d, n); }
  }

  /** After an unfiltered first turn nothing is left to offer exactly when, behind every shared
      address, the first and the last item are equal. */
  lemma FirstTurnComplete(items: seq<InputItem>, later: nat)
    requires |items| <= later
    ensures OfferedAfter(items, 0, Clones(items, later), None) == [] <==> Faithful(items)
  {
    if Faithful(items) {
      PlainTurn(items, 0, 0, later);
      DeliveredAll(items, |items|);
      assert items[..|items|] == items;
    } else {
      var i, j :| 0 <= i <= j < |items| && SharedAddress(items[i]).Some?
        && SharedAddress(items[j]) == SharedAddress(items[i]) && FirstBehind(items, i) && LastBehind(items, j)
        && items[i] != items[j];
      MisledKeepsOne(items, 0, later, i, j, SharedAddress(items[i]).value, |items|);
      assert items[..|items|] == items;
      FirstTurnMirrors(items, 0, Clones(items, later), None, |items|);
      assert items[i] in multiset(OfferedAfter(items, 0, Clones(items, later), None));
    }
  }

  /** Two objects with an empty key are told apart by neither address nor size: the first is delivered
      but stays on offer. */
  lemma EmptyKeysMislead(later: nat)
    requires 2 <= later
    ensures var items := [JsonItem(Obj(map["" := Num(1)])), JsonItem(Obj(map["" := Num(2)]))];
            OfferedAfter(items, 0, Clones(items, later), None) != []
  {
    var a, b := JsonItem(Obj(map["" := Num(1)])), JsonItem(Obj(map["" := Num(2)]));
    assert a.value.fields[""] != b.value.fields[""];
    var items := [a, b];
    assert SharedAddress(items[0]) == Some(Dangling(ObjectKind, 1)) == SharedAddress(items[1]);
    assert FirstBehind(items, 0) && LastBehind(items, 1);
    FirstTurnComplete(items, later);
  }

}
