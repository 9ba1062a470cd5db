/** What a compaction leaves of the stored items, in terms of their JSON members and their places. */
module CompactionLaws {
  import opened Items
  import opened Compaction

  // ---- items by their members ----

  predicate Says(item: InputItem, name: string, text: string) {
    item.JsonItem? && item.value.Obj? && name in item.value.fields && item.value.fields[name] == Str(text)
  }

  /** What the user said, and the markers of earlier compactions. */
  predicate Stays(item: InputItem) { item.Text? || Says(item, "role", "user") || Says(item, "type", "compaction") }

  predicate SessionMember(name: string) {
    name == "tool_call_session_description" || name == "tool_call_session_title"
  }

  /** The same item, less its two session members. */
  ghost predicate Stripped(before: InputItem, after: InputItem) {
    if before.JsonItem? && before.value.Obj? then
      && after.JsonItem? && after.value.Obj?
      && (forall name :: name in after.value.fields <==> name in before.value.fields && !SessionMember(name))
      && (forall name :: name in after.value.fields ==> after.value.fields[name] == before.value.fields[name])
    else after == before
  }

  /** Items that differ at most in their session members. */
  ghost predicate Alike(a: InputItem, b: InputItem) {
    if a.JsonItem? && a.value.Obj? && b.JsonItem? && b.value.Obj? then
      && (forall name :: !SessionMember(name) ==> (name in a.value.fields <==> name in b.value.fields))
      && (forall name :: !SessionMember(name) && name in a.value.fields ==>
        a.value.fields[name] == b.value.fields[name])
    else a == b
  }

  ghost predicate AllStripped(before: seq<InputItem>, after: seq<InputItem>) {
    |before| == |after| && forall i :: 0 <= i < |after| ==> Stripped(before[i], after[i])
  }

  ghost predicate AllAlike(a: seq<InputItem>, b: seq<InputItem>) {
    |a| == |b| && forall i :: 0 <= i < |a| ==> Alike(a[i], b[i])
  }

  /** How many items may be dropped. */
  function Loose(items: seq<InputItem>): nat {
    if items == [] then 0 else (if Stays(items[0]) then 0 else 1) + Loose(items[1..])
  }

  /** What is left if all but the last `keep` loose items go: an item stays for good, or because fewer than
      `keep` loose items follow it. */
  function Survivors(items: seq<InputItem>, keep: nat): seq<InputItem> {
    if items == [] then []
    else if Stays(items[0]) || Loose(items[1..]) < keep then [items[0]] + Survivors(items[1..], keep)
    else Survivors(items[1..], keep)
  }

  // ---- the two descriptions agree ----

  lemma ProtectedLaw(item: InputItem)
    ensures Protected(item) <==> Stays(item)
  {}

  lemma StrippedLaw(item: InputItem)
    ensures Stripped(item, Compaction.Sanitize(item))
  {}

  lemma {:induction false} LoosePush(items: seq<InputItem>, last: InputItem)
    ensures Loose(items + [last]) == Loose(items) + if Stays(last) then 0 else 1
  {
    hide Stays;
    if items == [] {
      assert [last][1..] == [];
    } else {
      LoosePush(items[1..], last);
      assert (items + [last])[1..] == items[1..] + [last];
    }
  }

  lemma {:induction false} LooseCount(items: seq<InputItem>)
    ensures CandidateCount(items) == Loose(items)
  {
    hide Stays, Protected;
    if items != [] {
      var init, last := items[..|items| - 1], items[|items| - 1];
      LooseCount(init);
      ProtectedLaw(last);
      LoosePush(init, last);
      assert items == init + [last];
    }
  }

  lemma {:induction false} WithoutFirst(first: InputItem, rest: seq<InputItem>, dropped: nat)
    ensures WithoutOldest([first] + rest, dropped)
         == if Protected(first) then [first] + WithoutOldest(rest, dropped)
           else if dropped == 0 then [first] + rest
           else WithoutOldest(rest, dropped - 1)
  {
    hide Protected;
    var items := [first] + rest;
    if rest == [] {
      assert items[..0] == [] && items == [] + [first];
      WithoutPush([], first, dropped);
      assert [first] + WithoutOldest(rest, dropped) == [first];
    } else if dropped == 0 {
      WithoutNone(items);
      WithoutNone(rest);
    } else {
      var init, last := rest[..|rest| - 1], rest[|rest| - 1];
      WithoutFirst(first, init, dropped);
      CountFirst(first, init);
      assert items == ([first] + init) + [last] && rest == init + [last];
      WithoutPush([first] + init, last, dropped);
      WithoutPush(init, last, dropped);
      WithoutPush(init, last, dropped - 1);
      assert ([first] + WithoutOldest(init, dropped)) + [last] == [first] + (WithoutOldest(init, dropped) + [last]);
    }
  }

  lemma CountFirst(first: InputItem, rest: seq<InputItem>)
    ensures CandidateCount([first] + rest) == CandidateCount(rest) + if Protected(first) then 0 else 1
  {
    hide Protected, CandidateCount, Stays;
    LooseCount([first] + rest);
    LooseCount(rest);
    ProtectedLaw(first);
    assert ([first] + rest)[1..] == rest;
  }

  lemma {:induction false} AllSurvive(items: seq<InputItem>, keep: nat)
    requires Loose(items) <= keep
    ensures Survivors(items, keep) == items
  {
    hide Stays;
    if items != [] {
      AllSurvive(items[1..], keep);
      assert items == [items[0]] + items[1..];
    }
  }

  lemma {:induction false} WithoutIsSurvivors(items: seq<InputItem>, dropped: nat)
    requires dropped <= Loose(items)
    ensures WithoutOldest(items, dropped) == Survivors(items, Loose(items) - dropped)
  {
    hide Protected, Stays, WithoutOldest;
    if items == [] {
      WithoutNone(items);
    } else {
      var first, rest := items[0], items[1..];
      assert items == [first] + rest;
      ProtectedLaw(first);
      WithoutFirst(first, rest, dropped);
      if dropped == 0 {
        AllSurvive(items, Loose(items));
        WithoutNone(items);
      } else if Stays(first) {
        WithoutIsSurvivors(rest, dropped);
      } else {
        WithoutIsSurvivors(rest, dropped - 1);
      }
    }
  }

  lemma {:induction false} SurvivorsSanitized(items: seq<InputItem>, keep: nat)
    ensures Loose(SanitizeAll(items)) == Loose(items)
    ensures Survivors(SanitizeAll(items), keep) == SanitizeAll(Survivors(items, keep))
  {
    hide Stays, Protected, Compaction.Sanitize;
    if items != [] {
      SurvivorsSanitized(items[1..], keep);
      assert SanitizeAll(items)[1..] == SanitizeAll(items[1..]);
      SanitizeKeepsKind(items[0]);
      ProtectedLaw(items[0]);
      ProtectedLaw(Compaction.Sanitize(items[0]));
    }
  }

  lemma SanitizeAllStrips(items: seq<InputItem>)
    ensures AllStripped(items, SanitizeAll(items))
  {
    hide Stripped, Compaction.Sanitize;
    forall i | 0 <= i < |items| ensures Stripped(items[i], SanitizeAll(items)[i]) { StrippedLaw(items[i]); }
  }

  lemma AlikeLaw(a: InputItem, b: InputItem)
    requires Compaction.Sanitize(a) == Compaction.Sanitize(b)
    ensures Alike(a, b)
  {
    if a.JsonItem? && a.value.Obj? && b.JsonItem? && b.value.Obj? {
      var s := a.value.fields - {DESCRIPTION_KEY, TITLE_KEY};
      assert forall name :: name in s <==> name in a.value.fields && !SessionMember(name);
      assert forall name :: name in s <==> name in b.value.fields && !SessionMember(name);
    }
  }

  // ---- one compaction, and any sequence of additions ----

  /** Above the threshold, half of it, and never fewer than one, of the latest loose items stay behind all
      that stays for good; every item left loses its session members. */
  lemma CompactionLaw(items: seq<InputItem>, threshold: nat, force: bool)
    ensures Loose(items) <= threshold && !force ==> Compacted(items, threshold, force) == items
    ensures Loose(items) <= threshold && force ==> AllStripped(items, Compacted(items, threshold, force))
    ensures Loose(items) > threshold ==>
      AllStripped(Survivors(items, if threshold <= 3 then 1 else threshold / 2), Compacted(items, threshold, force))
  {
    hide WithoutOldest, Protected, Stays, Compaction.Sanitize, Survivors;
    LooseCount(items);
    SanitizeAllStrips(items);
    if Loose(items) > threshold {
      var keep := if threshold <= 3 then 1 else threshold / 2;
      assert KeepCount(threshold) == keep;
      SurvivorsSanitized(items, keep);
      WithoutIsSurvivors(SanitizeAll(items), Loose(items) - keep);
      SanitizeAllStrips(Survivors(items, keep));
    }
  }

  /** One addition: a session that does not compact, or has no more loose items than the threshold, holds all. */
  lemma AddLaw(items: seq<InputItem>, more: seq<InputItem>, threshold: nat, compacts: bool)
    ensures !compacts || Loose(items + more) <= threshold ==> Added(items, more, threshold, compacts) == items + more
    ensures compacts && Loose(items + more) > threshold ==>
      AllStripped(Survivors(items + more, if threshold <= 3 then 1 else threshold / 2),
                  Added(items, more, threshold, compacts))
  {
    hide Compacted, Loose, Survivors, AllStripped, CandidateCount;
    CompactionLaw(items + more, threshold, false);
    LooseCount(items + more);
  }

  /** After any additions the store holds everything that stays for good and the latest loose items, in order,
      and no more loose ones than the threshold, or one. */
  lemma AdditionsLaw(batches: seq<seq<InputItem>>, threshold: nat)
    ensures var items, all := AddAll(batches, threshold), Everything(batches);
      && Loose(items) <= (if threshold == 0 then 1 else threshold)
      && AllAlike(items, Survivors(all, Loose(items)))
  {
    hide WithoutOldest, Protected, Stays, Compaction.Sanitize, Survivors, AddAll, Everything, Alike;
    var items, all := AddAll(batches, threshold), Everything(batches);
    AdditionsBounded(batches, threshold);
    LooseCount(items);
    LooseCount(all);
    SurvivorsSanitized(all, Loose(items));
    WithoutIsSurvivors(SanitizeAll(all), Loose(all) - Loose(items));
    var kept := Survivors(all, Loose(items));
    assert SanitizeAll(items) == SanitizeAll(kept);
    forall i | 0 <= i < |items| ensures |kept| == |items| && Alike(items[i], kept[i]) {
      assert SanitizeAll(items)[i] == SanitizeAll(kept)[i];
      AlikeLaw(items[i], kept[i]);
    }
    assert |SanitizeAll(kept)| == |kept|;
  }

  /** A compaction by response id leaves what stays for good. */
  lemma MarkedLaw(items: seq<InputItem>)
    ensures AllStripped(Survivors(items, 0), ProtectedItems(SanitizeAll(items)))
  {
    hide WithoutOldest, Protected, Stays, Compaction.Sanitize, Survivors;
    LooseCount(SanitizeAll(items));
    SurvivorsSanitized(items, 0);
    WithoutAll(SanitizeAll(items), Loose(items));
    WithoutIsSurvivors(SanitizeAll(items), Loose(items));
    SanitizeAllStrips(Survivors(items, 0));
  }

  lemma MarkerLaw(model: string, responseId: string, summary: string)
    ensures var marker := Marker(model, responseId, summary);
      && Says(marker, "type", "compaction") && Says(marker, "mode", "previous_response_id")
      && Says(marker, "model", model) && Says(marker, "previous_response_id", responseId)
      && Says(marker, "summary", summary) && |marker.value.fields| == 5
  {
    assert |"type"| == 4 && |"mode"| == 4 && |"model"| == 5 && |"previous_response_id"| == 20 && |"summary"| == 7;
    assert "type"[0] != "mode"[0];
  }

  // ---- how a request is read ----

  /** Which way of compacting a request asks for, and which response a later automatic one will not go by. */
  lemma RequestLaw(mode: Mode, args: CompactionArgs, last: Option<string>, later: string)
    ensures match args.mode
      case None => RequestedMode(mode, args.mode) == Some(mode)
      case Some(name) =>
        && (RequestedMode(mode, args.mode) == None <==> name !in {"auto", "input", "previous_response_id"})
        && (name == "auto" ==> RequestedMode(mode, args.mode) == Some(mode))
        && (name == "input" ==> RequestedMode(mode, args.mode) == Some(Input))
        && (name == "previous_response_id" ==> RequestedMode(mode, args.mode) == Some(PreviousResponseId))
    ensures ResolveMode(Auto, Some(later), None, UnstoredAfter(args, last)) == Input
      <==> if args.responseId.None? || args.store.None? then last == Some(later)
           else args.store == Some(false) && args.responseId == Some(later)
  {
    assert |"auto"| == 4 && |"input"| == 5 && |"previous_response_id"| == 20;
    match args.store
    case None =>
    case Some(on) => if on { assert args.store == Some(true); } else { assert args.store == Some(false); }
  }
}
