/** The session that drops old model items and keeps what the user said. */
module Compaction {
  import opened Items

  const DESCRIPTION_KEY := "tool_call_session_description"
  const TITLE_KEY := "tool_call_session_title"

  predicate UserLike(item: InputItem) {
    item.Text? || GetStr(item.value, "role") == Some("user")
  }

  predicate CompactionMarker(item: InputItem) {
    item.JsonItem? && GetStr(item.value, "type") == Some("compaction")
  }

  /** User items and markers of earlier compactions are never dropped; all others are candidates. */
  predicate Protected(item: InputItem) { UserLike(item) || CompactionMarker(item) }

  function Sanitize(item: InputItem): InputItem {
    if item.JsonItem? && item.value.Obj? then JsonItem(Obj(item.value.fields - {DESCRIPTION_KEY, TITLE_KEY})) else item
  }

  function SanitizeAll(items: seq<InputItem>): (r: seq<InputItem>)
    ensures |r| == |items| && forall i :: 0 <= i < |r| ==> r[i] == Sanitize(items[i])
  {
    seq(|items|, i requires 0 <= i < |items| => Sanitize(items[i]))
  }

  lemma SanitizeKeepsKind(item: InputItem)
    ensures Protected(Sanitize(item)) == Protected(item) && Sanitize(Sanitize(item)) == Sanitize(item)
  {
    assert "role" !in {DESCRIPTION_KEY, TITLE_KEY} && "type" !in {DESCRIPTION_KEY, TITLE_KEY} by {
      assert |"role"| == 4 && |"type"| == 4 && |DESCRIPTION_KEY| > 4 && |TITLE_KEY| > 4;
    }
  }

  function Candidates(items: seq<InputItem>): seq<InputItem> {
    if items == [] then []
    else if Protected(items[|items| - 1]) then Candidates(items[..|items| - 1])
    else Candidates(items[..|items| - 1]) + [items[|items| - 1]]
  }

  function ProtectedItems(items: seq<InputItem>): seq<InputItem> {
    if items == [] then []
    else if Protected(items[|items| - 1]) then ProtectedItems(items[..|items| - 1]) + [items[|items| - 1]]
    else ProtectedItems(items[..|items| - 1])
  }

  function CandidateCount(items: seq<InputItem>): nat { |Candidates(items)| }

  // ---- dropping the oldest candidates ----

  /** All items but the first `dropped` candidates. */
  function WithoutOldest(items: seq<InputItem>, dropped: nat): seq<InputItem> {
    if items == [] then []
    else
      var init, last := items[..|items| - 1], items[|items| - 1];
      if Protected(last) || CandidateCount(init) >= dropped then WithoutOldest(init, dropped) + [last]
        else WithoutOldest(init, dropped)
  }

  lemma WithoutPush(items: seq<InputItem>, last: InputItem, dropped: nat)
    ensures WithoutOldest(items + [last], dropped)
         == if Protected(last) || CandidateCount(items) >= dropped then WithoutOldest(items, dropped) + [last]
           else WithoutOldest(items, dropped)
    ensures CandidateCount(items + [last]) == if Protected(last) then CandidateCount(items)
      else CandidateCount(items) + 1
  {
    assert (items + [last])[..|items|] == items;
  }

  function Less(a: nat, b: nat): nat { if a < b then 0 else a - b }

  lemma {:induction false} WithoutParts(items: seq<InputItem>, dropped: nat)
    ensures ProtectedItems(WithoutOldest(items, dropped)) == ProtectedItems(items)
    ensures CandidateCount(WithoutOldest(items, dropped)) == Less(CandidateCount(items), dropped)
    ensures Candidates(WithoutOldest(items, dropped))
      == Candidates(items)[CandidateCount(items) - Less(CandidateCount(items), dropped)..]
  {
    hide Protected;
    if items != [] {
      var init, last := items[..|items| - 1], items[|items| - 1];
      WithoutParts(init, dropped);
      var kept := WithoutOldest(init, dropped);
      assert (kept + [last])[..|kept|] == kept;
    }
  }

  lemma {:induction false} WithoutNone(items: seq<InputItem>)
    ensures WithoutOldest(items, 0) == items
  {
    if items != [] {
      WithoutNone(items[..|items| - 1]);
      assert items == items[..|items| - 1] + [items[|items| - 1]];
    }
  }

  /** What was dropped before is dropped from the longer list. */
  lemma {:induction false} WithoutExtend(items: seq<InputItem>, more: seq<InputItem>, dropped: nat)
    requires dropped <= CandidateCount(items)
    ensures WithoutOldest(items + more, dropped) == WithoutOldest(items, dropped) + more
      && dropped <= CandidateCount(items + more)
    ensures CandidateCount(items + more) >= CandidateCount(items)
  {
    if more == [] {
      assert items + more == items;
      assert WithoutOldest(items, dropped) + more == WithoutOldest(items, dropped);
    } else {
      var init, last := more[..|more| - 1], more[|more| - 1];
      WithoutExtend(items, init, dropped);
      assert items + more == items + init + [last];
      WithoutPush(items + init, last, dropped);
      assert WithoutOldest(items, dropped) + init + [last] == WithoutOldest(items, dropped) + more;
    }
  }

  lemma {:induction false} WithoutTwice(items: seq<InputItem>, first: nat, second: nat)
    ensures WithoutOldest(WithoutOldest(items, first), second) == WithoutOldest(items, first + second)
  {
    if items != [] {
      var init, last := items[..|items| - 1], items[|items| - 1];
      WithoutTwice(init, first, second);
      WithoutParts(init, first);
      if Protected(last) || CandidateCount(init) >= first { WithoutPush(WithoutOldest(init, first), last, second); }
    }
  }

  lemma {:induction false} WithoutAll(items: seq<InputItem>, dropped: nat)
    requires CandidateCount(items) <= dropped
    ensures WithoutOldest(items, dropped) == ProtectedItems(items)
  {
    if items != [] { WithoutAll(items[..|items| - 1], dropped); }
  }

  lemma {:induction false} SanitizeAllKeeps(items: seq<InputItem>)
    ensures Candidates(SanitizeAll(items)) == SanitizeAll(Candidates(items))
    ensures ProtectedItems(SanitizeAll(items)) == SanitizeAll(ProtectedItems(items))
    ensures CandidateCount(SanitizeAll(items)) == CandidateCount(items)
  {
    if items != [] {
      var init, last := items[..|items| - 1], items[|items| - 1];
      SanitizeAllKeeps(init);
      SanitizeKeepsKind(last);
      assert SanitizeAll(items)[..|items| - 1] == SanitizeAll(init);
    }
  }

  lemma SanitizeTwice(items: seq<InputItem>)
    ensures SanitizeAll(SanitizeAll(items)) == SanitizeAll(items)
  {
    forall i | 0 <= i < |items| ensures Sanitize(Sanitize(items[i])) == Sanitize(items[i]) {
      SanitizeKeepsKind(items[i]);
    }
  }

  lemma SanitizeAppend(a: seq<InputItem>, b: seq<InputItem>)
    ensures SanitizeAll(a + b) == SanitizeAll(a) + SanitizeAll(b)
  {}

  lemma {:induction false} WithoutSanitized(items: seq<InputItem>, dropped: nat)
    ensures SanitizeAll(WithoutOldest(SanitizeAll(items), dropped)) == WithoutOldest(SanitizeAll(items), dropped)
  {
    if items != [] {
      var init, last := items[..|items| - 1], items[|items| - 1];
      WithoutSanitized(init, dropped);
      SanitizeKeepsKind(last);
      assert SanitizeAll(items) == SanitizeAll(init) + [Sanitize(last)];
      WithoutPush(SanitizeAll(init), Sanitize(last), dropped);
    }
  }

  // ---- compacting ----

  function KeepCount(threshold: nat): nat { Max(Max(threshold, 2) / 2, 1) }

  lemma KeepCountBounds(threshold: nat)
    ensures 1 <= KeepCount(threshold) <= Max(threshold, 1)
  {}

  /** Nothing happens up to the threshold; above it only the latest candidates are kept. */
  function Compacted(items: seq<InputItem>, threshold: nat, force: bool): seq<InputItem> {
    if CandidateCount(items) <= threshold then (if force then SanitizeAll(items) else items)
    else WithoutOldest(SanitizeAll(items), CandidateCount(items) - KeepCount(threshold))
  }

  function Added(items: seq<InputItem>, more: seq<InputItem>, threshold: nat, compacts: bool): seq<InputItem> {
    if CandidateCount(items + more) >= threshold && compacts then Compacted(items + more, threshold, false)
      else items + more
  }

  /** The stored items are all that was ever added, less the oldest candidates, up to sanitising. */
  ghost predicate Retains(items: seq<InputItem>, added: seq<InputItem>, dropped: nat) {
    dropped <= CandidateCount(added) && SanitizeAll(items) == WithoutOldest(SanitizeAll(added), dropped)
  }

  /** So every user item and every marker is still there, in order, and the candidates that are left
      are the latest ones. */
  lemma RetainsMeans(items: seq<InputItem>, added: seq<InputItem>, dropped: nat)
    requires Retains(items, added, dropped)
    ensures SanitizeAll(ProtectedItems(items)) == SanitizeAll(ProtectedItems(added))
    ensures CandidateCount(items) == CandidateCount(added) - dropped
    ensures SanitizeAll(Candidates(items)) == SanitizeAll(Candidates(added))[dropped..]
  {
    WithoutParts(SanitizeAll(added), dropped);
    SanitizeAllKeeps(items);
    SanitizeAllKeeps(added);
  }

  lemma RetainsMore(items: seq<InputItem>, added: seq<InputItem>, dropped: nat, more: seq<InputItem>)
    requires Retains(items, added, dropped)
    ensures Retains(items + more, added + more, dropped)
  {
    SanitizeAppend(items, more);
    SanitizeAppend(added, more);
    SanitizeAllKeeps(added);
    SanitizeAllKeeps(added + more);
    WithoutExtend(SanitizeAll(added), SanitizeAll(more), dropped);
  }

  lemma DropsMore(items: seq<InputItem>, added: seq<InputItem>, dropped: nat, more: nat)
    requires Retains(items, added, dropped) && more <= CandidateCount(items)
    ensures Retains(WithoutOldest(SanitizeAll(items), more), added, dropped + more)
    ensures CandidateCount(WithoutOldest(SanitizeAll(items), more)) == CandidateCount(items) - more
  {
    hide Protected, Sanitize;
    RetainsMeans(items, added, dropped);
    WithoutSanitized(items, more);
    WithoutTwice(SanitizeAll(added), dropped, more);
    SanitizeAllKeeps(items);
    WithoutParts(SanitizeAll(items), more);
  }

  lemma SanitizedRetains(items: seq<InputItem>, added: seq<InputItem>, dropped: nat)
    requires Retains(items, added, dropped)
    ensures Retains(SanitizeAll(items), added, dropped) && CandidateCount(SanitizeAll(items)) == CandidateCount(items)
  {
    SanitizeTwice(items);
    SanitizeAllKeeps(items);
  }

  lemma CompactedIs(items: seq<InputItem>, threshold: nat, force: bool)
    ensures CandidateCount(items) <= threshold ==>
      Compacted(items, threshold, force) == if force then SanitizeAll(items) else items
    ensures CandidateCount(items) > threshold ==>
      1 <= KeepCount(threshold) <= CandidateCount(items)
      && Compacted(items, threshold, force) == WithoutOldest(SanitizeAll(items), CandidateCount(items)
        - KeepCount(threshold))
  {
    hide CandidateCount, SanitizeAll, WithoutOldest;
  }

  /** Compacting drops exactly the candidates above the number to keep. */
  lemma CompactedRetains(items: seq<InputItem>, added: seq<InputItem>, dropped: nat, threshold: nat, force: bool)
    requires Retains(items, added, dropped)
    ensures CandidateCount(items) > threshold ==> KeepCount(threshold) <= CandidateCount(items)
    ensures Retains(Compacted(items, threshold, force), added,
                    if CandidateCount(items) <= threshold then dropped
                      else dropped + (CandidateCount(items) - KeepCount(threshold)))
    ensures CandidateCount(Compacted(items, threshold, force)) == if CandidateCount(items) <= threshold
      then CandidateCount(items) else KeepCount(threshold)
  {
    hide Retains, KeepCount, SanitizeAll, CandidateCount, Compacted;
    CompactedIs(items, threshold, force);
    SanitizedRetains(items, added, dropped);
    if CandidateCount(items) > threshold {
      DropsMore(items, added, dropped, CandidateCount(items) - KeepCount(threshold));
    }
  }

  // ---- any sequence of additions ----

  function AddAll(batches: seq<seq<InputItem>>, threshold: nat): seq<InputItem> {
    if batches == [] then []
    else Added(AddAll(batches[..|batches| - 1], threshold), batches[|batches| - 1], threshold, true)
  }

  function Everything(batches: seq<seq<InputItem>>): seq<InputItem> {
    if batches == [] then [] else Everything(batches[..|batches| - 1]) + batches[|batches| - 1]
  }

  lemma AddedRetains(items: seq<InputItem>, added: seq<InputItem>, dropped: nat, more: seq<InputItem>, threshold: nat)
    requires Retains(items, added, dropped) && CandidateCount(items) <= Max(threshold, 1)
    ensures var after := Added(items, more, threshold, true);
      CandidateCount(after) <= Max(threshold, 1) && CandidateCount(after) <= CandidateCount(added + more)
        && Retains(after, added + more, CandidateCount(added + more) - CandidateCount(after))
  {
    hide Retains, KeepCount, SanitizeAll, CandidateCount, Compacted;
    RetainsMore(items, added, dropped, more);
    RetainsMeans(items + more, added + more, dropped);
    KeepCountBounds(threshold);
    CompactedRetains(items + more, added + more, dropped, threshold, false);
  }

  lemma NothingRetained()
    ensures Retains([], [], 0) && CandidateCount([]) == 0
  {}

  /** After any additions at most max(threshold, 1) candidates are stored, the latest ones, and every
      user item and marker ever added is. */
  lemma {:induction false} AdditionsBounded(batches: seq<seq<InputItem>>, threshold: nat)
    ensures var items, all := AddAll(batches, threshold), Everything(batches);
      CandidateCount(items) <= Max(threshold, 1) && CandidateCount(items) <= CandidateCount(all)
        && Retains(items, all, CandidateCount(all) - CandidateCount(items))
  {
    hide Retains, CandidateCount, Added, Protected, Sanitize;
    if batches == [] {
      NothingRetained();
    } else {
      var before, more := batches[..|batches| - 1], batches[|batches| - 1];
      AdditionsBounded(before, threshold);
      var items, all := AddAll(before, threshold), Everything(before);
      AddedRetains(items, all, CandidateCount(all) - CandidateCount(items), more, threshold);
    }
  }

  // ---- the session ----

  datatype Mode = PreviousResponseId | Input | Auto

  datatype ConversationState = ConversationState(previousResponseId: Option<string>, autoPreviousResponseId: bool)

  datatype CompactionArgs = CompactionArgs(mode: Option<string>, force: bool, responseId: Option<string>,
    store: Option<bool>)

  datatype CompactionError = UnsupportedMode(mode: string) | NoResponseId

  function Marker(model: string, responseId: string, summary: string): InputItem {
    JsonItem(Obj(map["type" := Str("compaction"), "mode" := Str("previous_response_id"), "model" := Str(model),
                     "previous_response_id" := Str(responseId), "summary" := Str(summary)]))
  }

  lemma MarkerIsMarker(model: string, responseId: string, summary: string)
    ensures CompactionMarker(Marker(model, responseId, summary)) && Protected(Marker(model, responseId, summary))
    ensures Sanitize(Marker(model, responseId, summary)) == Marker(model, responseId, summary)
  {
    var fields := Marker(model, responseId, summary).value.fields;
    assert DESCRIPTION_KEY !in fields && TITLE_KEY !in fields by {
      assert |DESCRIPTION_KEY| > 20 && |TITLE_KEY| > 20;
    }
    assert fields - {DESCRIPTION_KEY, TITLE_KEY} == fields;
  }

  function RequestedMode(mode: Mode, requested: Option<string>): Option<Mode> {
    match requested
    case None => Some(mode)
    case Some(name) =>
      if name == "previous_response_id" then Some(PreviousResponseId)
      else if name == "input" then Some(Input)
      else if name == "auto" then Some(mode)
      else None
  }

  /** The automatic mode goes by the response id only if the server still has that response. */
  function ResolveMode(requested: Mode, responseId: Option<string>, store: Option<bool>,
                       lastUnstored: Option<string>): (r: Mode)
    ensures !r.Auto? && (!requested.Auto? ==> r == requested)
    ensures requested.Auto? ==>
      (r == PreviousResponseId <==> store != Some(false) && responseId.Some? && responseId != lastUnstored)
  {
    if !requested.Auto? then requested
    else if store == Some(false) || responseId.None? || responseId == lastUnstored then Input
    else PreviousResponseId
  }

  /** A response named with its storing on or off decides which response was the last one not stored. */
  function UnstoredAfter(args: CompactionArgs, last: Option<string>): Option<string> {
    if args.responseId.Some? && args.store == Some(false) then args.responseId
    else if args.responseId.Some? && args.store == Some(true) then None
    else last
  }

  // ---- the compaction loop ----

  lemma CountPrefix(items: seq<InputItem>, i: nat)
    requires i < |items|
    ensures CandidateCount(items[..i + 1]) == if Protected(items[i]) then CandidateCount(items[..i])
      else CandidateCount(items[..i]) + 1
    ensures WithoutOldest(items[..i + 1], 0) == items[..i + 1]
  {
    assert items[..i + 1] == items[..i] + [items[i]];
    WithoutPush(items[..i], items[i], 0);
    WithoutNone(items[..i + 1]);
  }

  /** The indexes of the candidates, in order. */
  method CandidateIndices(items: seq<InputItem>) returns (indices: seq<nat>)
    ensures |indices| == CandidateCount(items)
    ensures forall k :: 0 <= k < |indices| ==>
      indices[k] < |items| && !Protected(items[indices[k]]) && CandidateCount(items[..indices[k]]) == k
  {
    indices := [];
    for i := 0 to |items|
      invariant |indices| == CandidateCount(items[..i])
      invariant forall k :: 0 <= k < |indices| ==>
        indices[k] < i && !Protected(items[indices[k]]) && CandidateCount(items[..indices[k]]) == k
    {
      CountPrefix(items, i);
      if !Protected(items[i]) { indices := indices + [i]; }
    }
    assert items[..|items|] == items;
  }

  method DropOldest(items: seq<InputItem>, keep: nat) returns (compacted: seq<InputItem>)
    requires keep <= CandidateCount(items)
    ensures compacted == WithoutOldest(items, CandidateCount(items) - keep)
  {
    var indices := CandidateIndices(items);
    var kept := set k | |indices| - keep <= k < |indices| :: indices[k];
    compacted := [];
    for i := 0 to |items|
      invariant compacted == WithoutOldest(items[..i], CandidateCount(items) - keep)
    {
      assert items[..i + 1] == items[..i] + [items[i]];
      WithoutPush(items[..i], items[i], CandidateCount(items) - keep);
      KeptIndex(items, indices, keep, i);
      if Protected(items[i]) || i in kept { compacted := compacted + [items[i]]; }
    }
    assert items[..|items|] == items;
  }

  lemma {:induction false} CountMonotone(items: seq<InputItem>, i: nat, j: nat)
    requires i <= j <= |items|
    ensures CandidateCount(items[..i]) <= CandidateCount(items[..j])
    decreases j
  {
    if i < j {
      CountMonotone(items, i, j - 1);
      CountPrefix(items, j - 1);
    }
  }

  lemma KeptIndex(items: seq<InputItem>, indices: seq<nat>, keep: nat, i: nat)
    requires |indices| == CandidateCount(items) && keep <= |indices| && i < |items|
    requires forall k :: 0 <= k < |indices| ==>
      indices[k] < |items| && !Protected(items[indices[k]]) && CandidateCount(items[..indices[k]]) == k
    ensures !Protected(items[i]) ==>
      (CandidateCount(items[..i]) >= |indices| - keep <==> exists k ::
        |indices| - keep <= k < |indices| && indices[k] == i)
  {
    if !Protected(items[i]) {
      var k := CandidateCount(items[..i]);
      CountPrefix(items, i);
      CountMonotone(items, i + 1, |items|);
      assert items[..|items|] == items;
      if indices[k] < i {
        CountPrefix(items, indices[k]);
        CountMonotone(items, indices[k] + 1, i);
      } else if indices[k] > i {
        CountMonotone(items, i + 1, indices[k]);
      }
      assert indices[k] == i;
    }
  }

  class CompactionSession {
    var items: seq<InputItem>
    var mode: Mode
    var threshold: nat
    var model: string
    var responseId: Option<string>
    var deferredResponseId: Option<string>
    var lastUnstoredResponseId: Option<string>
    ghost var added: seq<InputItem>
    ghost var dropped: nat

    ghost predicate Valid()
      reads this
    {
      Retains(items, added, dropped)
    }

    constructor (mode: Mode, threshold: nat, model: string)
      ensures Valid() && items == [] && added == [] && this.mode == mode && this.threshold == threshold
      ensures responseId == None && deferredResponseId == None && lastUnstoredResponseId == None
    {
      this.items, this.mode, this.threshold, this.model := [], mode, threshold, model;
      responseId, deferredResponseId, lastUnstoredResponseId := None, None, None;
      added, dropped := [], 0;
      NothingRetained();
    }

    method CompactWithForce(force: bool)
      requires Valid()
      modifies this`items, this`dropped
      ensures Valid() && items == Compacted(old(items), threshold, force)
    {
      hide Retains, WithoutOldest, Compacted;
      CompactedRetains(items, added, dropped, threshold, force);
      CompactedIs(items, threshold, force);
      var sanitized := SanitizeAll(items);
      SanitizeAllKeeps(items);
      var count := CandidateCount(sanitized);
      if count <= threshold {
        if force { items := sanitized; }
        return;
      }
      ghost var more := count - KeepCount(threshold);
      items := DropOldest(sanitized, KeepCount(threshold));
      dropped := dropped + more;
    }

    /** Adding may compact, unless the session compacts by response id. */
    method AddItems(more: seq<InputItem>)
      requires Valid()
      modifies this`items, this`added, this`dropped
      ensures Valid() && added == old(added) + more
      ensures items == Added(old(items), more, threshold, mode != PreviousResponseId)
      ensures mode != PreviousResponseId && CandidateCount(old(items)) <= Max(threshold, 1) ==>
        CandidateCount(items) <= Max(threshold, 1)
    {
      RetainsMore(items, added, dropped, more);
      if mode != PreviousResponseId && CandidateCount(items) <= Max(threshold, 1) {
        AddedRetains(items, added, dropped, more, threshold);
      }
      items := items + more;
      added := added + more;
      if CandidateCount(items) >= threshold && mode != PreviousResponseId {
        CompactWithForce(false);
      }
    }

    /** All candidates go; a marker that names the response takes their place. */
    method CompactToPreviousResponseId(previous: string, force: bool, summary: string)
      requires Valid()
      modifies this
      ensures Valid() && mode == old(mode) && threshold == old(threshold) && model == old(model)
      ensures !force && CandidateCount(old(items)) < threshold ==>
        items == old(items) && added == old(added) && responseId == old(responseId)
        && deferredResponseId == old(deferredResponseId) && lastUnstoredResponseId == old(lastUnstoredResponseId)
      ensures force || CandidateCount(old(items)) >= threshold ==>
        && items == ProtectedItems(SanitizeAll(old(items))) + [Marker(model, previous, summary)]
        && added == old(added) + [Marker(model, previous, summary)] && CandidateCount(items) == 0
        && responseId == Some(previous) && deferredResponseId == None && lastUnstoredResponseId == None
    {
      hide Retains, Sanitize, Protected, Marker, CandidateCount, SanitizeAll, ProtectedItems;
      SanitizeAllKeeps(items);
      if !force && CandidateCount(items) < threshold { return; }
      ghost var before := items;
      var marker := Marker(model, previous, summary);
      var kept := KeepProtected(SanitizeAll(items));
      items := kept + [marker];
      MarkerStored(before, added, dropped, marker, model, previous, summary);
      added := added + [marker];
      dropped := dropped + CandidateCount(before);
      responseId, deferredResponseId, lastUnstoredResponseId := Some(previous), None, None;
    }

    method RunCompaction(args: CompactionArgs, summary: string) returns (error: Option<CompactionError>)
      requires Valid()
      modifies this
      ensures Valid() && mode == old(mode) && threshold == old(threshold) && model == old(model)
      ensures old(added) <= added
      ensures RequestedMode(mode, args.mode).None? ==>
        && error == Some(UnsupportedMode(args.mode.value)) && items == old(items)
        && responseId == old(responseId) && deferredResponseId == old(deferredResponseId)
        && lastUnstoredResponseId == old(lastUnstoredResponseId)
      ensures RequestedMode(mode, args.mode).Some? ==>
        var requested, id := RequestedMode(mode, args.mode).value,
          Or(args.responseId, Or(old(deferredResponseId), old(responseId)));
        var unstored := UnstoredAfter(args, old(lastUnstoredResponseId));
        if ResolveMode(requested, id, args.store, unstored) == Input then
          && error == None && items == Compacted(old(items), threshold, args.force) && added == old(added)
          && responseId == Or(args.responseId, old(responseId)) && deferredResponseId == old(deferredResponseId)
          && lastUnstoredResponseId == unstored
        else if id.None? then error == Some(NoResponseId) && items == old(items)
        else if !args.force && CandidateCount(old(items)) < threshold then
          && error == None && items == old(items) && added == old(added)
          && responseId == Or(args.responseId, old(responseId)) && deferredResponseId == old(deferredResponseId)
          && lastUnstoredResponseId == unstored
        else
          && error == None && CandidateCount(items) == 0
          && items == ProtectedItems(SanitizeAll(old(items))) + [Marker(model, id.value, summary)]
          && responseId == id && deferredResponseId == None && lastUnstoredResponseId == None
    {
      hide Retains, Sanitize, Protected, Marker, Compacted;
      var requested := RequestedMode(mode, args.mode);
      if requested.None? { return Some(UnsupportedMode(args.mode.value)); }
      if args.responseId.Some? {
        responseId := args.responseId;
        if args.store == Some(false) {
          lastUnstoredResponseId := args.responseId;
        } else if args.store == Some(true) {
          lastUnstoredResponseId := None;
        }
      }
      var id := Or(args.responseId, Or(deferredResponseId, responseId));
      var resolved := ResolveMode(requested.value, id, args.store, lastUnstoredResponseId);
      error := None;
      if resolved == Input {
        CompactWithForce(args.force);
      } else if id.None? {
        error := Some(NoResponseId);
      } else {
        CompactToPreviousResponseId(id.value, args.force, summary);
      }
    }

    /** The state to continue from: never a response that the server did not store. */
    function LoadConversationState(): (r: ConversationState)
      reads this
      ensures forall id :: r.previousResponseId == Some(id) <==>
        mode != Input && Or(deferredResponseId, responseId) == Some(id) && lastUnstoredResponseId != Some(id)
      ensures mode == Input ==> r.previousResponseId == None && !r.autoPreviousResponseId
      ensures r.previousResponseId.Some? ==> r.previousResponseId != lastUnstoredResponseId
    {
      var candidate := Or(deferredResponseId, responseId);
      ConversationState(if mode == Input || candidate == lastUnstoredResponseId then None else candidate, mode != Input)
    }

    /** What was saved is loaded again, unless the session works on inputs alone. */
    method SaveConversationState(state: ConversationState)
      modifies this`responseId, this`deferredResponseId, this`lastUnstoredResponseId
      ensures LoadConversationState().previousResponseId == if mode == Input then None else state.previousResponseId
      ensures deferredResponseId == None && lastUnstoredResponseId == None
    {
      responseId := if mode == Input then None else state.previousResponseId;
      deferredResponseId, lastUnstoredResponseId := None, None;
    }
  }

  method KeepProtected(items: seq<InputItem>) returns (kept: seq<InputItem>)
    ensures kept == ProtectedItems(items)
  {
    kept := [];
    for i := 0 to |items|
      invariant kept == ProtectedItems(items[..i])
    {
      assert items[..i + 1][..i] == items[..i];
      if Protected(items[i]) { kept := kept + [items[i]]; }
    }
    assert items[..|items|] == items;
  }

  lemma MarkerStored(before: seq<InputItem>, added: seq<InputItem>, dropped: nat, marker: InputItem, model: string,
                     previous: string, summary: string)
    requires Retains(before, added, dropped) && marker == Marker(model, previous, summary)
    ensures Retains(ProtectedItems(SanitizeAll(before)) + [marker], added + [marker], dropped + CandidateCount(before))
    ensures CandidateCount(ProtectedItems(SanitizeAll(before)) + [marker]) == 0
  {
    hide Retains, Sanitize, Protected;
    DropsMore(before, added, dropped, CandidateCount(before));
    SanitizeAllKeeps(before);
    WithoutAll(SanitizeAll(before), CandidateCount(before));
    var kept := ProtectedItems(SanitizeAll(before));
    RetainsMore(kept, added, dropped + CandidateCount(before), [marker]);
    MarkerIsMarker(model, previous, summary);
    WithoutPush(kept, marker, 0);
  }
}
