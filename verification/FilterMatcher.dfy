/** Attribution of filtered model input back to the prepared items it came from. */
module FilterMatcher {
  import opened Items

  /** Where an item lives.  Values with their own heap block get a tag that is never reused while
      the run lasts; zero-length blocks all share one address, told apart by kind (and, for
      objects whose smallest key is empty, by size). */
  datatype Kind = TextKind | StringKind | ArrayKind | ObjectKind
  datatype Identity = Allocated(tag: nat) | Dangling(kind: Kind, len: nat)

  /** An item together with its identity; numbers, booleans, null and `{}` have none. */
  datatype Held = Held(item: InputItem, identity: Option<Identity>)

  /** The identity a fresh copy of `item` receives when the allocator hands out `tag`. */
  function CloneIdentity(item: InputItem, tag: nat): Option<Identity> {
    match item
    case Text(text) => Some(if text == "" then Dangling(TextKind, 0) else Allocated(tag))
    case JsonItem(Str(s)) => Some(if s == "" then Dangling(StringKind, 0) else Allocated(tag))
    case JsonItem(Arr(elems)) => Some(if elems == [] then Dangling(ArrayKind, 0) else Allocated(tag))
    case JsonItem(Obj(fields)) =>
      if fields == map[] then None
      else if "" in fields then Some(Dangling(ObjectKind, |fields|))
      else Some(Allocated(tag))
    case JsonItem(_) => None
  }

  predicate OwnsBlock(item: InputItem) {
    CloneIdentity(item, 0) == Some(Allocated(0))
  }

  /** Numbers, booleans, null and the empty object live inside the item itself. */
  predicate Inline(item: InputItem) {
    item.JsonItem? && (item.value.Num? || item.value.Bool? || item.value.Null? || item.value == Obj(map[]))
  }

  /** Items without a block that cannot be told apart by their addresses. */
  predicate SharesEmptyBlock(a: InputItem, b: InputItem) {
    || (a == Text("") && b == a) || (a == JsonItem(Str("")) && b == a) || (a == JsonItem(Arr([])) && b == a)
    || (a.JsonItem? && b.JsonItem? && a.value.Obj? && b.value.Obj? && "" in a.value.fields && "" in b.value.fields
        && |a.value.fields| == |b.value.fields|)
  }

  /** Two copies have the same identity if they are one copy, or share an empty block. */
  lemma AddressLaw(a: InputItem, s: nat, b: InputItem, t: nat)
    ensures CloneIdentity(a, s).None? <==> Inline(a)
    ensures !Inline(a) && !Inline(b) && (SharesEmptyBlock(a, a) || SharesEmptyBlock(b, b)) ==>
      (CloneIdentity(a, s) == CloneIdentity(b, t) <==> SharesEmptyBlock(a, b))
    ensures !Inline(a) && !Inline(b) && !SharesEmptyBlock(a, a) && !SharesEmptyBlock(b, b) ==>
      (CloneIdentity(a, s) == CloneIdentity(b, t) <==> s == t)
  {}

  function Values(items: seq<Held>): (r: seq<InputItem>)
    ensures |r| == |items| && forall i :: 0 <= i < |items| ==> r[i] == items[i].item
  {
    seq(|items|, i requires 0 <= i < |items| => items[i].item)
  }

  // ---- the identity index ----

  /** `list` holds, in order, positions of items with identity `d`. */
  ghost predicate PositionsOf(list: seq<nat>, items: seq<Held>, d: Identity) {
    && (forall k :: 0 <= k < |list| ==> list[k] < |items| && items[list[k]].identity == Some(d))
    && (forall k, l :: 0 <= k < l < |list| ==> list[k] < list[l])
  }

  /** Every list holds positions of items with its identity. */
  ghost predicate IndexOf(index: map<Identity, seq<nat>>, items: seq<Held>) {
    forall d :: d in index ==> PositionsOf(index[d], items, d)
  }

  /** The positions of the items, grouped by identity. */
  function IdentityIndex(items: seq<Held>): map<Identity, seq<nat>> {
    if items == [] then map[]
    else
      var n := |items| - 1;
      IndexStep(IdentityIndex(items[..n]), items[n], n)
  }

  function IndexStep(index: map<Identity, seq<nat>>, item: Held, n: nat): map<Identity, seq<nat>> {
    if item.identity.None? then index
    else if item.identity.value in index then index[item.identity.value := index[item.identity.value] + [n]]
    else index[item.identity.value := [n]]
  }

  method BuildFilteredInputIdentityIndex(items: seq<Held>) returns (index: map<Identity, seq<nat>>)
    ensures index == IdentityIndex(items)
  {
    index := map[];
    for n := 0 to |items|
      invariant index == IdentityIndex(items[..n])
    {
      assert items[..n + 1][..n] == items[..n];
      assert IdentityIndex(items[..n + 1]) == IndexStep(IdentityIndex(items[..n]), items[n], n);
      if items[n].identity.Some? {
        var d := items[n].identity.value;
        index := index[d := if d in index then index[d] + [n] else [n]];
      }
    }
    assert items[..|items|] == items;
  }

  lemma AppendPosition(list: seq<nat>, items: seq<Held>, item: Held, d: Identity)
    requires PositionsOf(list, items, d)
    ensures PositionsOf(list, items + [item], d)
    ensures item.identity == Some(d) ==> PositionsOf(list + [|items|], items + [item], d)
  {}

  lemma {:induction false} IdentityIndexCorrect(items: seq<Held>)
    ensures IndexOf(IdentityIndex(items), items) && InRange(IdentityIndex(items), |items|)
  {
    if items != [] {
      var n := |items| - 1;
      IdentityIndexCorrect(items[..n]);
      assert items == items[..n] + [items[n]];
      var before := IdentityIndex(items[..n]);
      forall d | d in IdentityIndex(items) ensures PositionsOf(IdentityIndex(items)[d], items, d) {
        if d in before { AppendPosition(before[d], items[..n], items[n], d); }
      }
      forall d, k | d in IdentityIndex(items) && 0 <= k < |IdentityIndex(items)[d]|
        ensures IdentityIndex(items)[d][k] < |items|
      {
        assert PositionsOf(IdentityIndex(items)[d], items, d);
      }
    }
  }

  lemma {:induction false} IdentityIndexComplete(items: seq<Held>, i: nat)
    requires i < |items| && items[i].identity.Some?
    ensures items[i].identity.value in IdentityIndex(items) && i in IdentityIndex(items)[items[i].identity.value]
  {
    var n := |items| - 1;
    if i < n {
      IdentityIndexComplete(items[..n], i);
    } else {
      var d := items[n].identity.value;
      assert IdentityIndex(items)[d][|IdentityIndex(items)[d]| - 1] == n;
    }
  }

  // ---- counting ----

  ghost function Filled(matches: seq<Option<nat>>): nat {
    |set i | 0 <= i < |matches| && matches[i].Some?|
  }

  ghost function Taken(matched: seq<bool>): nat {
    |set p | 0 <= p < |matched| && matched[p]|
  }

  lemma FilledUpdate(matches: seq<Option<nat>>, i: nat, p: nat)
    requires i < |matches| && matches[i].None?
    ensures Filled(matches[i := Some(p)]) == Filled(matches) + 1
  {
    var after := matches[i := Some(p)];
    assert (set j | 0 <= j < |after| && after[j].Some?) == (set j | 0 <= j < |matches| && matches[j].Some?) + {i};
  }

  lemma TakenUpdate(matched: seq<bool>, p: nat)
    requires p < |matched| && !matched[p]
    ensures Taken(matched[p := true]) == Taken(matched) + 1
  {
    var after := matched[p := true];
    assert (set q | 0 <= q < |after| && after[q]) == (set q | 0 <= q < |matched| && matched[q]) + {p};
  }

  lemma FilledLast(matches: seq<Option<nat>>)
    requires matches != []
    ensures Filled(matches) == Filled(matches[..|matches| - 1]) + (if matches[|matches| - 1].Some? then 1 else 0)
  {
    var n := |matches| - 1;
    var before := set i | 0 <= i < n && matches[..n][i].Some?;
    assert (set i | 0 <= i < |matches| && matches[i].Some?) == before + (if matches[n].Some? then {n} else {});
  }

  lemma {:induction false} FilledBounds(matches: seq<Option<nat>>)
    ensures Filled(matches) <= |matches|
    ensures (forall i :: 0 <= i < |matches| ==> matches[i].Some?) ==> Filled(matches) == |matches|
  {
    if matches != [] {
      FilledLast(matches);
      FilledBounds(matches[..|matches| - 1]);
    }
  }

  lemma {:induction false} TakenComplement(matched: seq<bool>)
    ensures |Unmatched(matched)| + Taken(matched) == |matched|
  {
    if matched != [] {
      var n := |matched| - 1;
      TakenComplement(matched[..n]);
      TakenLast(matched);
    }
  }

  lemma TakenLast(matched: seq<bool>)
    requires matched != []
    ensures Taken(matched) == Taken(matched[..|matched| - 1]) + (if matched[|matched| - 1] then 1 else 0)
  {
    var n := |matched| - 1;
    var before := set q | 0 <= q < n && matched[..n][q];
    var all := set q | 0 <= q < |matched| && matched[q];
    assert all == before + (if matched[n] then {n} else {});
  }

  // ---- unmatched positions and the candidates pass three considers ----

  /** Positions still free, in order. */
  function Unmatched(matched: seq<bool>): (r: seq<nat>)
    ensures forall p :: p in r <==> 0 <= p < |matched| && !matched[p]
    ensures forall k, l :: 0 <= k < l < |r| ==> r[k] < r[l]
  {
    if matched == [] then []
    else
      var n := |matched| - 1;
      var before := Unmatched(matched[..n]);
      assert forall k :: 0 <= k < |before| ==> before[k] in before;
      if matched[n] then before else before + [n]
  }

  function KeepBetween(xs: seq<nat>, above: int, below: int): (r: seq<nat>)
    ensures forall x :: x in r <==> x in xs && above < x < below
  {
    if xs == [] then []
    else if above < xs[0] < below then [xs[0]] + KeepBetween(xs[1..], above, below)
    else KeepBetween(xs[1..], above, below)
  }

  function OrElse(preferred: seq<nat>, fallback: seq<nat>): seq<nat> {
    if preferred == [] then fallback else preferred
  }

  /** Strictly between the neighbouring matches, or strictly on the open side of the only one. */
  ghost predicate InGap(p: nat, previous: Option<nat>, next: Option<nat>) {
    match (previous, next)
    case (Some(a), Some(b)) => a < p < b || b < p < a
    case (Some(a), None) => a < p
    case (None, Some(b)) => p < b
    case (None, None) => true
  }

  /** The free positions in the gap if there are any, else all free positions. */
  function UnmatchedPreparedCandidates(matched: seq<bool>, previous: Option<nat>, next: Option<nat>): (r: seq<nat>)
    ensures (exists p: nat :: p < |matched| && !matched[p] && InGap(p, previous, next)) ==>
              forall p: nat :: p in r <==> p < |matched| && !matched[p] && InGap(p, previous, next)
    ensures (forall p: nat :: p < |matched| && !matched[p] ==> !InGap(p, previous, next)) ==>
              forall p: nat :: p in r <==> p < |matched| && !matched[p]
  {
    var unmatched := Unmatched(matched);
    var inGap := match (previous, next)
      case (Some(a), Some(b)) => KeepBetween(unmatched, if a < b then a else b, if a < b then b else a)
      case (Some(a), None) => KeepBetween(unmatched, a, |matched|)
      case (None, Some(b)) => KeepBetween(unmatched, -1, b)
      case (None, None) => unmatched;
    assert forall p: nat :: p in inGap <==> p in unmatched && InGap(p, previous, next);
    assert inGap != [] ==> inGap[0] in inGap;
    assert inGap == [] <==> forall p: nat :: p < |matched| && !matched[p] ==> !InGap(p, previous, next);
    OrElse(inGap, unmatched)
  }

  /** The nearest slot filled before position `i`. */
  function PreviousMatch(matches: seq<Option<nat>>, i: nat): Option<nat>
    requires i <= |matches|
  {
    if i == 0 then None else if matches[i - 1].Some? then matches[i - 1] else PreviousMatch(matches, i - 1)
  }

  /** The nearest slot filled at or after position `i`. */
  function NextMatch(matches: seq<Option<nat>>, i: nat): Option<nat>
    requires i <= |matches|
    decreases |matches| - i
  {
    if i == |matches| then None else if matches[i].Some? then matches[i] else NextMatch(matches, i + 1)
  }

  function SameFingerprint(prepared: seq<Held>, matched: seq<bool>, item: InputItem): (r: seq<nat>)
    requires |prepared| == |matched|
    ensures forall p :: p in r <==> 0 <= p < |prepared| && !matched[p] && prepared[p].item == item
  {
    if prepared == [] then []
    else
      var n := |prepared| - 1;
      var before := SameFingerprint(prepared[..n], matched[..n], item);
      if !matched[n] && prepared[n].item == item then before + [n] else before
  }

  // ---- the four passes ----

  /** The slots of the filtered items and the flags of the prepared ones. */
  datatype Marks = Marks(matches: seq<Option<nat>>, matched: seq<bool>) {

    /** A partial injection: filled slots hold distinct taken positions, and as many are taken. */
    ghost predicate Valid() {
      && (forall i :: 0 <= i < |matches| && matches[i].Some? ==>
            matches[i].value < |matched| && matched[matches[i].value])
      && (forall i, j :: 0 <= i < j < |matches| && matches[i].Some? && matches[j].Some? ==>
            matches[i].value != matches[j].value)
      && Filled(matches) == Taken(matched)
    }

    function Assign(i: nat, p: nat): (m: Marks)
      requires i < |matches| && p < |matched|
      ensures |m.matches| == |matches| && |m.matched| == |matched|
    {
      Marks(matches[i := Some(p)], matched[p := true])
    }
  }

  lemma AssignKeepsValid(m: Marks, i: nat, p: nat)
    requires m.Valid() && i < |m.matches| && m.matches[i].None? && p < |m.matched| && !m.matched[p]
    ensures m.Assign(i, p).Valid()
  {
    FilledUpdate(m.matches, i, p);
    TakenUpdate(m.matched, p);
  }

  function NoMarks(filtered: nat, prepared: nat): (m: Marks) {
    Marks(seq(filtered, _ => None), seq(prepared, _ => false))
  }

  // Pass one: identity.

  function FirstFree(list: seq<nat>, matched: seq<bool>, from: nat): (r: Option<nat>)
    requires from <= |list| && forall k :: 0 <= k < |list| ==> list[k] < |matched|
    ensures r.None? ==> forall k :: from <= k < |list| ==> matched[list[k]]
    ensures r.Some? ==> from <= r.value < |list| && !matched[list[r.value]]
    ensures r.Some? ==> forall k :: from <= k < r.value ==> matched[list[k]]
    decreases |list| - from
  {
    if from == |list| then None
    else if !matched[list[from]] then Some(from)
    else FirstFree(list, matched, from + 1)
  }

  ghost predicate InRange(exact: map<Identity, seq<nat>>, n: nat) {
    forall d, k :: d in exact && 0 <= k < |exact[d]| ==> exact[d][k] < n
  }

  datatype Scan = Scan(marks: Marks, remaining: map<Identity, seq<nat>>)

  function IdentityStep(s: Scan, item: Held, i: nat): (r: Scan)
    requires i < |s.marks.matches| && InRange(s.remaining, |s.marks.matched|)
    ensures |r.marks.matches| == |s.marks.matches| && |r.marks.matched| == |s.marks.matched|
    ensures InRange(r.remaining, |r.marks.matched|)
  {
    if item.identity.None? || item.identity.value !in s.remaining then s
    else
      var list := s.remaining[item.identity.value];
      match FirstFree(list, s.marks.matched, 0)
      case None => s
      case Some(k) =>
        var rest := list[..k] + list[k + 1..];
        assert forall x :: x in rest ==> x in list;
        Scan(s.marks.Assign(i, list[k]), s.remaining[item.identity.value := rest])
  }

  /** Pass one after the first `n` filtered items. */
  function IdentityPass(filtered: seq<Held>, prepared: nat, exact: map<Identity, seq<nat>>, n: nat): (r: Scan)
    requires n <= |filtered| && InRange(exact, prepared)
    ensures |r.marks.matches| == |filtered| && |r.marks.matched| == prepared
    ensures InRange(r.remaining, prepared)
  {
    if n == 0 then Scan(NoMarks(|filtered|, prepared), exact)
    else IdentityStep(IdentityPass(filtered, prepared, exact, n - 1), filtered[n - 1], n - 1)
  }

  // Pass two: a unique free item of equal content.

  function FingerprintStep(prepared: seq<Held>, m: Marks, item: Held, i: nat): (r: Marks)
    requires i < |m.matches| && |m.matched| == |prepared|
    ensures |r.matches| == |m.matches| && |r.matched| == |m.matched|
  {
    if m.matches[i].Some? then m
    else
      var same := SameFingerprint(prepared, m.matched, item.item);
      if |same| != 1 then m else (assert same[0] in same; m.Assign(i, same[0]))
  }

  function FingerprintPass(prepared: seq<Held>, filtered: seq<Held>, m: Marks, n: nat): (r: Marks)
    requires n <= |filtered| == |m.matches| && |m.matched| == |prepared|
    ensures |r.matches| == |m.matches| && |r.matched| == |m.matched|
  {
    if n == 0 then m
    else FingerprintStep(prepared, FingerprintPass(prepared, filtered, m, n - 1), filtered[n - 1], n - 1)
  }

  // Pass three: the only free position in the gap.

  function GapStep(m: Marks, i: nat): (r: Marks)
    requires i < |m.matches|
    ensures |r.matches| == |m.matches| && |r.matched| == |m.matched|
  {
    if m.matches[i].Some? then m
    else
      var candidates := UnmatchedPreparedCandidates(m.matched, PreviousMatch(m.matches, i),
        NextMatch(m.matches, i + 1));
      if |candidates| != 1 then m else (assert candidates[0] in candidates; m.Assign(i, candidates[0]))
  }

  function GapPass(m: Marks, n: nat): (r: Marks)
    requires n <= |m.matches|
    ensures |r.matches| == |m.matches| && |r.matched| == |m.matched|
  {
    if n == 0 then m else GapStep(GapPass(m, n - 1), n - 1)
  }

  // Pass four: whatever is left, in order.

  /** The slots after position `n`, the free positions being handed out from the front of `free`;
      also how many were handed out. */
  function LeftoverPass(matches: seq<Option<nat>>, free: seq<nat>, n: nat): (r: (seq<Option<nat>>, nat))
    requires n <= |matches|
    ensures |r.0| == |matches| && r.1 <= |free|
  {
    if n == 0 then (matches, 0)
    else
      var (before, used) := LeftoverPass(matches, free, n - 1);
      if before[n - 1].Some? || used == |free| then (before, used)
      else (before[n - 1 := Some(free[used])], used + 1)
  }

  /** The whole attribution. */
  function SourceIndices(prepared: seq<Held>, filtered: seq<Held>,
                         exact: map<Identity, seq<nat>>): (r: seq<Option<nat>>)
    requires InRange(exact, |prepared|)
    ensures |r| == |filtered|
  {
    var one := IdentityPass(filtered, |prepared|, exact, |filtered|).marks;
    var two := FingerprintPass(prepared, filtered, one, |filtered|);
    var three := GapPass(two, |filtered|);
    LeftoverPass(three.matches, Unmatched(three.matched), |filtered|).0
  }

  method MatchByIdentity(filtered: seq<Held>, exact: map<Identity, seq<nat>>,
                         matches: array<Option<nat>>, matched: array<bool>)
    requires InRange(exact, matched.Length) && matches.Length == |filtered|
    requires Marks(matches[..], matched[..]) == NoMarks(matches.Length, matched.Length)
    modifies matches, matched
    ensures Marks(matches[..], matched[..]) == IdentityPass(filtered, matched.Length, exact, |filtered|).marks
  {
    var remaining := exact;
    for i := 0 to |filtered|
      invariant Scan(Marks(matches[..], matched[..]), remaining) == IdentityPass(filtered, matched.Length, exact, i)
    {
      ghost var before := Marks(matches[..], matched[..]);
      var item := filtered[i];
      if item.identity.None? || item.identity.value !in remaining { continue; }
      var list := remaining[item.identity.value];
      var position := FirstFree(list, matched[..], 0);
      if position.None? { continue; }
      var p := list[position.value];
      remaining := remaining[item.identity.value := list[..position.value] + list[position.value + 1..]];
      matched[p] := true;
      matches[i] := Some(p);
      assert Marks(matches[..], matched[..]) == before.Assign(i, p);
    }
  }

  method MatchByFingerprint(prepared: seq<Held>, filtered: seq<Held>,
                            matches: array<Option<nat>>, matched: array<bool>)
    requires matched.Length == |prepared| && matches.Length == |filtered|
    modifies matches, matched
    ensures Marks(matches[..], matched[..])
         == FingerprintPass(prepared, filtered, old(Marks(matches[..], matched[..])), |filtered|)
  {
    for i := 0 to |filtered|
      invariant Marks(matches[..], matched[..])
             == FingerprintPass(prepared, filtered, old(Marks(matches[..], matched[..])), i)
    {
      ghost var before := Marks(matches[..], matched[..]);
      if matches[i].Some? { continue; }
      var same := SameFingerprint(prepared, matched[..], filtered[i].item);
      if |same| == 1 {
        assert same[0] in same;
        matched[same[0]] := true;
        matches[i] := Some(same[0]);
        assert Marks(matches[..], matched[..]) == before.Assign(i, same[0]);
      }
    }
  }

  method MatchByGap(matches: array<Option<nat>>, matched: array<bool>)
    modifies matches, matched
    ensures Marks(matches[..], matched[..]) == GapPass(old(Marks(matches[..], matched[..])), matches.Length)
  {
    for i := 0 to matches.Length
      invariant Marks(matches[..], matched[..]) == GapPass(old(Marks(matches[..], matched[..])), i)
    {
      ghost var before := Marks(matches[..], matched[..]);
      if matches[i].Some? { continue; }
      var previous := PreviousMatch(matches[..], i);
      var next := NextMatch(matches[..], i + 1);
      var candidates := UnmatchedPreparedCandidates(matched[..], previous, next);
      if |candidates| == 1 {
        assert candidates[0] in candidates;
        matched[candidates[0]] := true;
        matches[i] := Some(candidates[0]);
        assert Marks(matches[..], matched[..]) == before.Assign(i, candidates[0]);
      }
    }
  }

  method MatchLeftovers(matches: array<Option<nat>>, matched: array<bool>)
    modifies matches
    ensures matches[..] == LeftoverPass(old(matches[..]), Unmatched(matched[..]), matches.Length).0
  {
    var free := Unmatched(matched[..]);
    var used := 0;
    for i := 0 to matches.Length
      invariant used <= |free|
      invariant (matches[..], used) == LeftoverPass(old(matches[..]), free, i)
    {
      if matches[i].None? && used < |free| {
        matches[i] := Some(free[used]);
        used := used + 1;
      }
    }
  }

  method DeriveFilteredInputSourceIndices(prepared: seq<Held>, filtered: seq<Held>, exact: map<Identity, seq<nat>>)
    returns (result: seq<Option<nat>>)
    requires InRange(exact, |prepared|)
    ensures result == SourceIndices(prepared, filtered, exact)
  {
    var matches := new Option<nat>[|filtered|](_ => None);
    var matched := new bool[|prepared|](_ => false);
    MatchByIdentity(filtered, exact, matches, matched);
    MatchByFingerprint(prepared, filtered, matches, matched);
    MatchByGap(matches, matched);
    MatchLeftovers(matches, matched);
    result := matches[..];
  }

  // ---- what the four passes guarantee ----

  /** Slots filled in `a` are filled alike in `b`. */
  ghost predicate Extends(a: seq<Option<nat>>, b: seq<Option<nat>>) {
    |a| == |b| && forall i :: 0 <= i < |a| && a[i].Some? ==> b[i] == a[i]
  }

  lemma IdentityStepValid(s: Scan, item: Held, i: nat)
    requires i < |s.marks.matches| && InRange(s.remaining, |s.marks.matched|)
    requires s.marks.Valid() && s.marks.matches[i].None?
    ensures IdentityStep(s, item, i).marks.Valid()
    ensures forall j :: 0 <= j < |s.marks.matches| && j != i ==>
      IdentityStep(s, item, i).marks.matches[j] == s.marks.matches[j]
  {
    if item.identity.Some? && item.identity.value in s.remaining {
      var list := s.remaining[item.identity.value];
      var k := FirstFree(list, s.marks.matched, 0);
      if k.Some? { AssignKeepsValid(s.marks, i, list[k.value]); }
    }
  }

  lemma {:induction false} IdentityPassValid(filtered: seq<Held>, prepared: nat, exact: map<Identity, seq<nat>>, n: nat)
    requires n <= |filtered| && InRange(exact, prepared)
    ensures IdentityPass(filtered, prepared, exact, n).marks.Valid()
    ensures forall i :: n <= i < |filtered| ==> IdentityPass(filtered, prepared, exact, n).marks.matches[i].None?
  {
    if n == 0 {
      var m := NoMarks(|filtered|, prepared);
      assert (set i | 0 <= i < |m.matches| && m.matches[i].Some?) == {};
      assert (set p | 0 <= p < |m.matched| && m.matched[p]) == {};
    } else {
      IdentityPassValid(filtered, prepared, exact, n - 1);
      IdentityStepValid(IdentityPass(filtered, prepared, exact, n - 1), filtered[n - 1], n - 1);
    }
  }

  lemma FingerprintStepValid(prepared: seq<Held>, m: Marks, item: Held, i: nat)
    requires i < |m.matches| && |m.matched| == |prepared| && m.Valid()
    ensures FingerprintStep(prepared, m, item, i).Valid()
    ensures Extends(m.matches, FingerprintStep(prepared, m, item, i).matches)
  {
    var same := SameFingerprint(prepared, m.matched, item.item);
    if m.matches[i].None? && |same| == 1 {
      assert same[0] in same;
      AssignKeepsValid(m, i, same[0]);
    }
  }

  lemma {:induction false} FingerprintPassValid(prepared: seq<Held>, filtered: seq<Held>, m: Marks, n: nat)
    requires n <= |filtered| == |m.matches| && |m.matched| == |prepared| && m.Valid()
    ensures FingerprintPass(prepared, filtered, m, n).Valid()
    ensures Extends(m.matches, FingerprintPass(prepared, filtered, m, n).matches)
  {
    if n > 0 {
      hide FingerprintStep, Marks.Valid;
      FingerprintPassValid(prepared, filtered, m, n - 1);
      FingerprintStepValid(prepared, FingerprintPass(prepared, filtered, m, n - 1), filtered[n - 1], n - 1);
    }
  }

  lemma GapStepValid(m: Marks, i: nat)
    requires i < |m.matches| && m.Valid()
    ensures GapStep(m, i).Valid() && Extends(m.matches, GapStep(m, i).matches)
  {
    var candidates := UnmatchedPreparedCandidates(m.matched, PreviousMatch(m.matches, i), NextMatch(m.matches, i + 1));
    if m.matches[i].None? && |candidates| == 1 {
      assert candidates[0] in candidates;
      AssignKeepsValid(m, i, candidates[0]);
    }
  }

  lemma {:induction false} GapPassValid(m: Marks, n: nat)
    requires n <= |m.matches| && m.Valid()
    ensures GapPass(m, n).Valid()
  {
    hide GapStep;
    if n > 0 {
      GapPassValid(m, n - 1);
      GapStepValid(GapPass(m, n - 1), n - 1);
    }
  }

  lemma {:induction false} GapPassExtends(m: Marks, n: nat)
    requires n <= |m.matches|
    ensures Extends(m.matches, GapPass(m, n).matches)
  {
    if n > 0 { GapPassExtends(m, n - 1); }
  }

  /** Slots that pass four filled. */
  ghost predicate Handed(matches: seq<Option<nat>>, r: seq<Option<nat>>, i: nat)
    requires i < |matches| == |r|
  {
    matches[i].None? && r[i].Some?
  }

  lemma {:induction false} LeftoverPassFills(matches: seq<Option<nat>>, free: seq<nat>, n: nat)
    requires n <= |matches|
    requires forall k, l :: 0 <= k < l < |free| ==> free[k] < free[l]
    ensures var (r, used) := LeftoverPass(matches, free, n);
      && Extends(matches, r) && Filled(r) == Filled(matches) + used
      && (forall i :: 0 <= i < |matches| && Handed(matches, r, i) ==> i < n && r[i].value in free[..used])
      && (forall i, j :: 0 <= i < j < |matches| && Handed(matches, r, i) && Handed(matches, r, j) ==>
            r[i].value < r[j].value)
      && (forall i :: 0 <= i < n && r[i].None? ==> used == |free|)
  {
    if n > 0 {
      LeftoverPassFills(matches, free, n - 1);
      var (before, used) := LeftoverPass(matches, free, n - 1);
      if before[n - 1].None? && used < |free| { HandsOneMore(matches, before, free, used, n); }
    }
  }

  /** Handing out the next free position keeps the positions handed out in order. */
  lemma HandsOneMore(matches: seq<Option<nat>>, before: seq<Option<nat>>, free: seq<nat>, used: nat, n: nat)
    requires 0 < n <= |matches| == |before| && before[n - 1].None? && used < |free| && Extends(matches, before)
    requires forall k, l :: 0 <= k < l < |free| ==> free[k] < free[l]
    requires forall i :: 0 <= i < |matches| && Handed(matches, before, i) ==>
      i < n - 1 && before[i].value in free[..used]
    ensures var after := before[n - 1 := Some(free[used])];
      && Extends(matches, after) && Filled(after) == Filled(before) + 1
      && (forall i :: 0 <= i < |matches| && Handed(matches, after, i) ==> i < n && after[i].value in free[..used + 1])
      && (forall i :: 0 <= i < n - 1 && Handed(matches, after, i) ==>
        Handed(matches, before, i) && after[i].value < free[used])
  {
    hide Filled;
    var after := before[n - 1 := Some(free[used])];
    FilledUpdate(before, n - 1, free[used]);
    assert free[..used + 1][used] == free[used];
    forall i | 0 <= i < |matches| && Handed(matches, after, i)
      ensures i < n && after[i].value in free[..used + 1]
      ensures i < n - 1 ==> Handed(matches, before, i) && after[i].value < free[used]
    {
      if i != n - 1 {
        assert Handed(matches, before, i);
        var k :| 0 <= k < used && free[..used][k] == before[i].value;
        assert free[..used + 1][k] == before[i].value;
      }
    }
  }

  /** One slot per filtered item, in-range and pairwise distinct prepared positions, and exactly
      as many filled slots as the shorter of the two inputs allows. */
  ghost predicate MaximumMatching(r: seq<Option<nat>>, prepared: nat, filtered: nat) {
    && |r| == filtered
    && (forall i :: 0 <= i < |r| && r[i].Some? ==> r[i].value < prepared)
    && (forall i, j :: 0 <= i < j < |r| && r[i].Some? && r[j].Some? ==> r[i].value != r[j].value)
    && Filled(r) == Min(prepared, filtered)
  }

  /** The first three passes, and that they only ever extend one another. */
  lemma PassesExtend(prepared: seq<Held>, filtered: seq<Held>, exact: map<Identity, seq<nat>>)
    requires InRange(exact, |prepared|)
    ensures var one := IdentityPass(filtered, |prepared|, exact, |filtered|).marks;
            var two := FingerprintPass(prepared, filtered, one, |filtered|);
            var three := GapPass(two, |filtered|);
            && one.Valid() && two.Valid() && three.Valid()
            && Extends(one.matches, SourceIndices(prepared, filtered, exact))
            && Extends(two.matches, SourceIndices(prepared, filtered, exact))
  {
    var one := IdentityPass(filtered, |prepared|, exact, |filtered|).marks;
    IdentityPassValid(filtered, |prepared|, exact, |filtered|);
    FingerprintPassValid(prepared, filtered, one, |filtered|);
    var two := FingerprintPass(prepared, filtered, one, |filtered|);
    GapPassValid(two, |filtered|);
    GapPassExtends(two, |filtered|);
    var three := GapPass(two, |filtered|);
    LeftoverPassFills(three.matches, Unmatched(three.matched), |filtered|);
  }

  /** Pass four hands out free positions only, so distinct slots stay distinct. */
  lemma LeftoverPassMatches(m: Marks, i: nat)
    requires m.Valid() && i < |m.matches|
    ensures var r := LeftoverPass(m.matches, Unmatched(m.matched), |m.matches|).0;
            r[i].Some? ==> r[i].value < |m.matched| && (m.matched[r[i].value] <==> m.matches[i].Some?)
  {
    LeftoverPassFills(m.matches, Unmatched(m.matched), |m.matches|);
    var r := LeftoverPass(m.matches, Unmatched(m.matched), |m.matches|).0;
    if Handed(m.matches, r, i) {
      assert r[i].value in Unmatched(m.matched);
    }
  }

  lemma LeftoverPassDistinct(m: Marks, i: nat, j: nat)
    requires m.Valid() && i < j < |m.matches|
    ensures var r := LeftoverPass(m.matches, Unmatched(m.matched), |m.matches|).0;
            r[i].Some? && r[j].Some? ==> r[i].value != r[j].value
  {
    LeftoverPassMatches(m, i);
    LeftoverPassMatches(m, j);
    LeftoverPassFills(m.matches, Unmatched(m.matched), |m.matches|);
  }

  lemma LeftoverPassCounts(m: Marks)
    requires m.Valid()
    ensures Filled(LeftoverPass(m.matches, Unmatched(m.matched), |m.matches|).0) == Min(|m.matched|, |m.matches|)
  {
    var free := Unmatched(m.matched);
    LeftoverPassFills(m.matches, free, |m.matches|);
    TakenComplement(m.matched);
    FilledBounds(LeftoverPass(m.matches, free, |m.matches|).0);
  }

  lemma SourceIndicesAreMaximum(prepared: seq<Held>, filtered: seq<Held>, exact: map<Identity, seq<nat>>)
    requires InRange(exact, |prepared|)
    ensures MaximumMatching(SourceIndices(prepared, filtered, exact), |prepared|, |filtered|)
  {
    PassesExtend(prepared, filtered, exact);
    var three := GapPass(FingerprintPass(prepared, filtered,
      IdentityPass(filtered, |prepared|, exact, |filtered|).marks, |filtered|), |filtered|);
    var r := LeftoverPass(three.matches, Unmatched(three.matched), |filtered|).0;
    assert r == SourceIndices(prepared, filtered, exact);
    LeftoverPassCounts(three);
    forall i | 0 <= i < |r| && r[i].Some? ensures r[i].value < |prepared| {
      LeftoverPassMatches(three, i);
    }
    forall i, j | 0 <= i < j < |r| && r[i].Some? && r[j].Some? ensures r[i].value != r[j].value {
      LeftoverPassDistinct(three, i, j);
    }
  }

  // ---- pass one finds the item behind an identity ----

  /** How many of `items` carry `identity`. */
  ghost function Occurrences(items: seq<Held>, identity: Identity): nat {
    if items == [] then 0
    else (if items[|items| - 1].identity == Some(identity) then 1 else 0) + Occurrences(items[..|items| - 1], identity)
  }

  /** The position the identity of filtered item `i` entitles it to: the r-th prepared item with
      that identity, when r earlier filtered items carry it too. */
  ghost function IdentityClaim(filtered: seq<Held>, exact: map<Identity, seq<nat>>, i: nat): Option<nat>
    requires i < |filtered|
  {
    if filtered[i].identity.None? || filtered[i].identity.value !in exact then None
    else
      var list := exact[filtered[i].identity.value];
      var earlier := Occurrences(filtered[..i], filtered[i].identity.value);
      if earlier < |list| then Some(list[earlier]) else None
  }

  ghost predicate ListsAfter(exact: map<Identity, seq<nat>>, remaining: map<Identity, seq<nat>>, seen: seq<Held>) {
    && remaining.Keys == exact.Keys
    && forall d :: d in exact ==> remaining[d] == exact[d][Min(Occurrences(seen, d), |exact[d]|)..]
  }

  /** Positions still listed are free. */
  ghost predicate ListedAreFree(remaining: map<Identity, seq<nat>>, matched: seq<bool>) {
    forall d, k :: d in remaining && 0 <= k < |remaining[d]| && remaining[d][k] < |matched| ==>
      !matched[remaining[d][k]]
  }

  lemma ListsAfterStep(exact: map<Identity, seq<nat>>, remaining: map<Identity, seq<nat>>, filtered: seq<Held>, n: nat)
    requires n < |filtered| && ListsAfter(exact, remaining, filtered[..n])
    ensures var identity := filtered[n].identity;
            if identity.Some? && identity.value in remaining && remaining[identity.value] != [] then
              && ListsAfter(exact, remaining[identity.value := remaining[identity.value][1..]], filtered[..n + 1])
              && IdentityClaim(filtered, exact, n) == Some(remaining[identity.value][0])
            else
              ListsAfter(exact, remaining, filtered[..n + 1]) && IdentityClaim(filtered, exact, n) == None
  {
    assert filtered[..n + 1][..n] == filtered[..n];
  }

  /** Handing out the head of one list leaves lists of free positions. */
  lemma HeadHandedOut(remaining: map<Identity, seq<nat>>, items: seq<Held>, matched: seq<bool>, d: Identity)
    requires IndexOf(remaining, items) && |matched| == |items| && ListedAreFree(remaining, matched)
    requires d in remaining && remaining[d] != []
    ensures PositionsOf(remaining[d], items, d) && remaining[d][0] < |matched|
    ensures IndexOf(remaining[d := remaining[d][1..]], items)
    ensures ListedAreFree(remaining[d := remaining[d][1..]], matched[remaining[d][0] := true])
  {
    assert PositionsOf(remaining[d], items, d);
    var after := remaining[d := remaining[d][1..]];
    forall e, k | e in after && 0 <= k < |after[e]|
      ensures after[e][k] < |matched| && !matched[after[e][k]] && after[e][k] != remaining[d][0]
    {
      assert PositionsOf(remaining[e], items, e);
      if e == d { assert after[e][k] == remaining[d][k + 1]; }
    }
  }

  /** Where pass one stands after `n` filtered items. */
  ghost predicate Scanned(s: Scan, filtered: seq<Held>, items: seq<Held>, exact: map<Identity, seq<nat>>, n: nat) {
    && n <= |filtered| == |s.marks.matches| && |s.marks.matched| == |items|
    && ListsAfter(exact, s.remaining, filtered[..n])
    && IndexOf(s.remaining, items)
    && ListedAreFree(s.remaining, s.marks.matched)
  }

  lemma HeadIsFree(remaining: map<Identity, seq<nat>>, matched: seq<bool>, d: Identity)
    requires ListedAreFree(remaining, matched) && InRange(remaining, |matched|) && d in remaining && remaining[d] != []
    ensures FirstFree(remaining[d], matched, 0) == Some(0)
  {}

  lemma IdentityStepScans(s: Scan, filtered: seq<Held>, items: seq<Held>, exact: map<Identity, seq<nat>>, n: nat)
    requires n < |filtered| && Scanned(s, filtered, items, exact, n) && InRange(s.remaining, |items|)
    requires s.marks.matches[n].None?
    ensures Scanned(IdentityStep(s, filtered[n], n), filtered, items, exact, n + 1)
    ensures IdentityStep(s, filtered[n], n).marks.matches[n] == IdentityClaim(filtered, exact, n)
  {
    hide ListsAfter, IndexOf, ListedAreFree, IdentityClaim, FirstFree;
    ListsAfterStep(exact, s.remaining, filtered, n);
    var item := filtered[n];
    if item.identity.Some? && item.identity.value in s.remaining {
      var d := item.identity.value;
      var list := s.remaining[d];
      if list != [] {
        HeadHandedOut(s.remaining, items, s.marks.matched, d);
        HeadIsFree(s.remaining, s.marks.matched, d);
        assert list[..0] + list[1..] == list[1..];
      }
    }
  }

  lemma {:induction false} IdentityPassScans(filtered: seq<Held>, items: seq<Held>, exact: map<Identity, seq<nat>>,
                                             n: nat)
    requires n <= |filtered| && InRange(exact, |items|) && IndexOf(exact, items)
    ensures Scanned(IdentityPass(filtered, |items|, exact, n), filtered, items, exact, n)
    ensures n > 0 ==>
      IdentityPass(filtered, |items|, exact, n).marks.matches[n - 1] == IdentityClaim(filtered, exact, n - 1)
  {
    if n > 0 {
      IdentityPassScans(filtered, items, exact, n - 1);
      IdentityPassValid(filtered, |items|, exact, n - 1);
      IdentityStepScans(IdentityPass(filtered, |items|, exact, n - 1), filtered, items, exact, n - 1);
    }
  }

  lemma {:induction false} IdentityPassStable(filtered: seq<Held>, prepared: nat, exact: map<Identity, seq<nat>>,
                                              i: nat, n: nat)
    requires i < n <= |filtered| && InRange(exact, prepared)
    ensures IdentityPass(filtered, prepared, exact, n).marks.matches[i]
         == IdentityPass(filtered, prepared, exact, i + 1).marks.matches[i]
    decreases n
  {
    if i + 1 < n {
      IdentityPassStable(filtered, prepared, exact, i, n - 1);
      IdentityPassValid(filtered, prepared, exact, n - 1);
      IdentityStepValid(IdentityPass(filtered, prepared, exact, n - 1), filtered[n - 1], n - 1);
    }
  }

  /** An item that kept its identity through the filter, however rewritten and wherever moved, is
      attributed to the item it was: the next unclaimed one with that identity. */
  lemma IdentityDecides(prepared: seq<Held>, filtered: seq<Held>, items: seq<Held>, exact: map<Identity, seq<nat>>,
                        i: nat)
    requires |prepared| == |items| && IndexOf(exact, items) && InRange(exact, |items|) && i < |filtered|
    requires IdentityClaim(filtered, exact, i).Some?
    ensures SourceIndices(prepared, filtered, exact)[i] == IdentityClaim(filtered, exact, i)
  {
    IdentityPassScans(filtered, items, exact, i + 1);
    IdentityPassStable(filtered, |items|, exact, i, |filtered|);
    PassesExtend(prepared, filtered, exact);
  }

  // ---- pass two finds unchanged content ----

  lemma {:induction false} OtherContentTaken(prepared: seq<Held>, matched: seq<bool>, item: InputItem, q: nat)
    requires |prepared| == |matched| && q < |prepared| && prepared[q].item != item
    ensures SameFingerprint(prepared, matched[q := true], item) == SameFingerprint(prepared, matched, item)
  {
    var n := |prepared| - 1;
    if q < n {
      OtherContentTaken(prepared[..n], matched[..n], item, q);
      assert matched[q := true][..n] == matched[..n][q := true];
    } else {
      assert matched[q := true][..n] == matched[..n];
    }
  }

  lemma {:induction false} FingerprintPassReaches(prepared: seq<Held>, filtered: seq<Held>, m: Marks, i: nat, n: nat)
    requires n <= i < |filtered| == |m.matches| && |m.matched| == |prepared| && m.matches[i].None?
    requires forall j :: 0 <= j < n && m.matches[j].None? ==> filtered[j].item != filtered[i].item
    ensures var after := FingerprintPass(prepared, filtered, m, n);
            && (forall j :: n <= j < |m.matches| ==> after.matches[j] == m.matches[j])
            && SameFingerprint(prepared, after.matched, filtered[i].item)
              == SameFingerprint(prepared, m.matched, filtered[i].item)
  {
    if n > 0 {
      FingerprintPassReaches(prepared, filtered, m, i, n - 1);
      var before := FingerprintPass(prepared, filtered, m, n - 1);
      var same := SameFingerprint(prepared, before.matched, filtered[n - 1].item);
      if before.matches[n - 1].None? && |same| == 1 {
        assert same[0] in same;
        OtherContentTaken(prepared, before.matched, filtered[i].item, same[0]);
      }
    }
  }

  lemma {:induction false} FingerprintPassStable(prepared: seq<Held>, filtered: seq<Held>, m: Marks, i: nat, n: nat)
    requires i < n <= |filtered| == |m.matches| && |m.matched| == |prepared|
    ensures FingerprintPass(prepared, filtered, m, n).matches[i]
      == FingerprintPass(prepared, filtered, m, i + 1).matches[i]
    decreases n
  {
    if i + 1 < n { FingerprintPassStable(prepared, filtered, m, i, n - 1); }
  }

  /** A filtered item that no identity accounts for, but whose content occurs exactly once among the
      prepared items pass one left free, is attributed to that occurrence. */
  lemma FingerprintDecides(prepared: seq<Held>, filtered: seq<Held>, exact: map<Identity, seq<nat>>, i: nat, p: nat)
    requires InRange(exact, |prepared|) && i < |filtered|
    requires var one := IdentityPass(filtered, |prepared|, exact, |filtered|).marks;
             && one.matches[i].None?
             && SameFingerprint(prepared, one.matched, filtered[i].item) == [p]
             && forall j :: 0 <= j < i && one.matches[j].None? ==> filtered[j].item != filtered[i].item
    ensures SourceIndices(prepared, filtered, exact)[i] == Some(p)
  {
    var one := IdentityPass(filtered, |prepared|, exact, |filtered|).marks;
    FingerprintPassReaches(prepared, filtered, one, i, i);
    assert p in SameFingerprint(prepared, one.matched, filtered[i].item);
    FingerprintPassStable(prepared, filtered, one, i, |filtered|);
    PassesExtend(prepared, filtered, exact);
  }

}
