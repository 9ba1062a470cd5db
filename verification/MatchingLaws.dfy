/** The attribution of filtered items, told by the slots alone: what each of the four passes assigns, and why. */
module MatchingLaws {
  import opened Items
  import opened FilterMatcher

  type Slots = seq<Option<nat>>

  // ---- what decides a slot ----

  /** Of `n` prepared positions, one that no slot holds. */
  ghost predicate Free(slots: Slots, n: nat, p: nat) { p < n && Some(p) !in slots }

  ghost predicate LastBefore(slots: Slots, i: nat, j: nat) {
    j < i < |slots| && slots[j].Some? && forall k :: j < k < i ==> slots[k].None?
  }

  ghost predicate FirstAfter(slots: Slots, i: nat, j: nat) {
    i < j < |slots| && slots[j].Some? && forall k :: i < k < j ==> slots[k].None?
  }

  ghost predicate NoneBefore(slots: Slots, i: nat) { forall j :: 0 <= j < i && j < |slots| ==> slots[j].None? }

  ghost predicate NoneAfter(slots: Slots, i: nat) { forall j :: i < j < |slots| ==> slots[j].None? }

  /** The position lies between those of the nearest filled slots on both sides of `i`, or beyond that of the only
      one. */
  ghost predicate Between(slots: Slots, i: nat, p: nat) {
    && (forall j: nat, k: nat :: LastBefore(slots, i, j) && FirstAfter(slots, i, k) ==>
          slots[j].value < p < slots[k].value || slots[k].value < p < slots[j].value)
    && (forall j: nat :: LastBefore(slots, i, j) && NoneAfter(slots, i) ==> slots[j].value < p)
    && (forall k: nat :: FirstAfter(slots, i, k) && NoneBefore(slots, i) ==> p < slots[k].value)
  }

  /** A free position in the gap at `i`, or any free one if the gap has none. */
  ghost predicate Candidate(slots: Slots, n: nat, i: nat, p: nat) {
    Free(slots, n, p) && (Between(slots, i, p) || forall q: nat :: Free(slots, n, q) ==> !Between(slots, i, q))
  }

  ghost predicate OnlyCandidate(slots: Slots, n: nat, i: nat, p: nat) {
    Candidate(slots, n, i, p) && forall q: nat :: Candidate(slots, n, i, q) ==> q == p
  }

  ghost predicate OnlyEqual(slots: Slots, prepared: seq<Held>, item: InputItem, p: nat) {
    && Free(slots, |prepared|, p) && prepared[p].item == item
    && forall q: nat :: Free(slots, |prepared|, q) && prepared[q].item == item ==> q == p
  }

  ghost predicate FirstFreeOne(slots: Slots, n: nat, p: nat) {
    Free(slots, n, p) && forall q: nat :: q < p ==> !Free(slots, n, q)
  }

  // ---- what a pass assigns ----

  /** The slots when a pass gets to item `i`: before it as the pass left them, from it on as it found them. */
  function At(before: Slots, after: Slots, i: nat): Slots
    requires i <= |before| == |after|
  {
    after[..i] + before[i..]
  }

  /** An item without a slot gets the only position equal to it. */
  ghost predicate FingerprintLaw(prepared: seq<Held>, filtered: seq<Held>, before: Slots, after: Slots, i: nat)
    requires i < |before| == |after| == |filtered|
  {
    if before[i].Some? then after[i] == before[i]
    else forall p: nat :: after[i] == Some(p) <==> OnlyEqual(At(before, after, i), prepared, filtered[i].item, p)
  }

  /** An item without a slot gets the only candidate of its gap. */
  ghost predicate GapLaw(n: nat, before: Slots, after: Slots, i: nat)
    requires i < |before| == |after|
  {
    if before[i].Some? then after[i] == before[i]
    else forall p: nat :: after[i] == Some(p) <==> OnlyCandidate(At(before, after, i), n, i, p)
  }

  /** An item without a slot gets the first free position. */
  ghost predicate LeftoverLaw(n: nat, before: Slots, after: Slots, i: nat)
    requires i < |before| == |after|
  {
    if before[i].Some? then after[i] == before[i]
    else forall p: nat :: after[i] == Some(p) <==> FirstFreeOne(At(before, after, i), n, p)
  }

  /** The slots after each pass. */
  datatype Trail = Trail(one: Slots, two: Slots, three: Slots, four: Slots)

  ghost predicate FollowsLaws(prepared: seq<Held>, filtered: seq<Held>, exact: map<Identity, seq<nat>>, t: Trail) {
    && |t.one| == |t.two| == |t.three| == |t.four| == |filtered|
    && (forall i :: 0 <= i < |filtered| ==> t.one[i] == IdentityClaim(filtered, exact, i))
    && (forall i :: 0 <= i < |filtered| ==> FingerprintLaw(prepared, filtered, t.one, t.two, i))
    && (forall i :: 0 <= i < |filtered| ==> GapLaw(|prepared|, t.two, t.three, i))
    && (forall i :: 0 <= i < |filtered| ==> LeftoverLaw(|prepared|, t.three, t.four, i))
  }

  // ---- the flags say which positions are held ----

  ghost predicate Exact(m: Marks) {
    forall p :: 0 <= p < |m.matched| ==> (m.matched[p] <==> Some(p) in m.matches)
  }

  lemma ExactFree(m: Marks, p: nat)
    requires Exact(m)
    ensures Free(m.matches, |m.matched|, p) <==> p < |m.matched| && !m.matched[p]
  {}

  lemma ExactAssign(m: Marks, i: nat, p: nat)
    requires Exact(m) && i < |m.matches| && m.matches[i].None? && p < |m.matched|
    ensures Exact(m.Assign(i, p))
  {
    var after := m.Assign(i, p);
    forall q | 0 <= q < |m.matched| ensures after.matched[q] <==> Some(q) in after.matches {
      if Some(q) in m.matches {
        var k :| 0 <= k < |m.matches| && m.matches[k] == Some(q);
        assert after.matches[k] == Some(q);
      }
      assert after.matches[i] == Some(p);
    }
  }

  lemma ExactNone(filtered: nat, prepared: nat)
    ensures Exact(NoMarks(filtered, prepared))
  {}

  lemma IdentityStepExact(s: Scan, item: Held, i: nat)
    requires i < |s.marks.matches| && InRange(s.remaining, |s.marks.matched|)
    requires Exact(s.marks) && s.marks.matches[i].None?
    ensures Exact(IdentityStep(s, item, i).marks)
  {
    hide Exact;
    if item.identity.Some? && item.identity.value in s.remaining {
      var list := s.remaining[item.identity.value];
      var k := FirstFree(list, s.marks.matched, 0);
      if k.Some? { ExactAssign(s.marks, i, list[k.value]); }
    }
  }

  lemma {:induction false} IdentityPassExact(filtered: seq<Held>, prepared: nat, exact: map<Identity, seq<nat>>, n: nat)
    requires n <= |filtered| && InRange(exact, prepared)
    ensures Exact(IdentityPass(filtered, prepared, exact, n).marks)
  {
    hide Exact, IdentityStep;
    if n == 0 {
      ExactNone(|filtered|, prepared);
    } else {
      IdentityPassExact(filtered, prepared, exact, n - 1);
      IdentityPassValid(filtered, prepared, exact, n - 1);
      IdentityStepExact(IdentityPass(filtered, prepared, exact, n - 1), filtered[n - 1], n - 1);
    }
  }

  // ---- lists without repetition ----

  predicate Ascending(xs: seq<nat>) { forall k, l :: 0 <= k < l < |xs| ==> xs[k] < xs[l] }

  lemma OneMember(xs: seq<nat>, p: nat)
    requires Ascending(xs)
    ensures xs == [p] <==> p in xs && forall q :: q in xs ==> q == p
  {
    if |xs| > 1 { TwoMembers(xs); }
  }

  lemma TwoMembers(xs: seq<nat>)
    requires Ascending(xs) && |xs| > 1
    ensures xs[0] in xs && xs[1] in xs && xs[0] != xs[1]
  {}

  lemma {:induction false} KeepBetweenAscends(xs: seq<nat>, above: int, below: int)
    requires Ascending(xs)
    ensures Ascending(KeepBetween(xs, above, below))
  {
    if xs != [] {
      KeepBetweenAscends(xs[1..], above, below);
      var rest := KeepBetween(xs[1..], above, below);
      forall k | 0 <= k < |rest| ensures xs[0] < rest[k] { assert rest[k] in rest; }
    }
  }

  lemma CandidatesAscend(matched: seq<bool>, previous: Option<nat>, next: Option<nat>)
    ensures Ascending(UnmatchedPreparedCandidates(matched, previous, next))
  {
    var unmatched := Unmatched(matched);
    match (previous, next)
    case (Some(a), Some(b)) => KeepBetweenAscends(unmatched, if a < b then a else b, if a < b then b else a);
    case (Some(a), None) => KeepBetweenAscends(unmatched, a, |matched|);
    case (None, Some(b)) => KeepBetweenAscends(unmatched, -1, b);
    case (None, None) =>
  }

  lemma {:induction false} SameFingerprintAscends(prepared: seq<Held>, matched: seq<bool>, item: InputItem)
    requires |prepared| == |matched|
    ensures Ascending(SameFingerprint(prepared, matched, item))
  {
    if prepared != [] {
      var n := |prepared| - 1;
      SameFingerprintAscends(prepared[..n], matched[..n], item);
      var before := SameFingerprint(prepared[..n], matched[..n], item);
      forall k | 0 <= k < |before| ensures before[k] < n { assert before[k] in before; }
    }
  }

  // ---- the neighbours ----

  lemma {:induction false} PreviousIs(slots: Slots, i: nat, n: nat)
    requires n <= i < |slots| && forall k :: n <= k < i ==> slots[k].None?
    ensures match PreviousMatch(slots, n)
      case None => NoneBefore(slots, i)
      case Some(v) => exists j: nat :: LastBefore(slots, i, j) && slots[j].value == v
  {
    if n > 0 {
      if slots[n - 1].Some? { assert LastBefore(slots, i, n - 1); } else { PreviousIs(slots, i, n - 1); }
    }
  }

  lemma {:induction false} NextIs(slots: Slots, i: nat, n: nat)
    requires i < n <= |slots| && forall k :: i < k < n ==> slots[k].None?
    ensures match NextMatch(slots, n)
      case None => NoneAfter(slots, i)
      case Some(v) => exists j: nat :: FirstAfter(slots, i, j) && slots[j].value == v
    decreases |slots| - n
  {
    if n < |slots| {
      if slots[n].Some? { assert FirstAfter(slots, i, n); } else { NextIs(slots, i, n + 1); }
    }
  }

  lemma OneLastBefore(slots: Slots, i: nat, j: nat, k: nat)
    requires LastBefore(slots, i, j) && LastBefore(slots, i, k)
    ensures j == k
  {}

  lemma OneFirstAfter(slots: Slots, i: nat, j: nat, k: nat)
    requires FirstAfter(slots, i, j) && FirstAfter(slots, i, k)
    ensures j == k
  {}

  lemma GapIsBetween(slots: Slots, i: nat, p: nat)
    requires i < |slots|
    ensures InGap(p, PreviousMatch(slots, i), NextMatch(slots, i + 1)) <==> Between(slots, i, p)
  {
    hide PreviousMatch, NextMatch;
    PreviousIs(slots, i, i);
    NextIs(slots, i, i + 1);
    var previous, next := PreviousMatch(slots, i), NextMatch(slots, i + 1);
    match (previous, next)
    case (Some(a), Some(b)) =>
      var j: nat :| LastBefore(slots, i, j) && slots[j].value == a;
      var k: nat :| FirstAfter(slots, i, k) && slots[k].value == b;
      OnlyNeighbours(slots, i, j, k);
      assert slots[j].Some? && slots[k].Some?;
    case (Some(a), None) =>
      var j: nat :| LastBefore(slots, i, j) && slots[j].value == a;
      assert slots[j].Some?;
      forall l: nat | LastBefore(slots, i, l) ensures l == j { OneLastBefore(slots, i, l, j); }
    case (None, Some(b)) =>
      var k: nat :| FirstAfter(slots, i, k) && slots[k].value == b;
      assert slots[k].Some?;
      forall l: nat | FirstAfter(slots, i, l) ensures l == k { OneFirstAfter(slots, i, l, k); }
    case (None, None) => NoNeighbours(slots, i);
  }

  lemma NoNeighbours(slots: Slots, i: nat)
    requires NoneBefore(slots, i) && NoneAfter(slots, i)
    ensures forall j: nat :: !LastBefore(slots, i, j) && !FirstAfter(slots, i, j)
  {}

  lemma OnlyNeighbours(slots: Slots, i: nat, j: nat, k: nat)
    requires LastBefore(slots, i, j) && FirstAfter(slots, i, k)
    ensures forall a: nat, b: nat :: LastBefore(slots, i, a) && FirstAfter(slots, i, b) ==> a == j && b == k
  {
    forall a: nat, b: nat | LastBefore(slots, i, a) && FirstAfter(slots, i, b) ensures a == j && b == k {
      OneLastBefore(slots, i, a, j);
      OneFirstAfter(slots, i, b, k);
    }
  }

  // ---- pass two ----

  lemma FingerprintChoice(prepared: seq<Held>, m: Marks, item: Held, i: nat)
    requires i < |m.matches| && |m.matched| == |prepared| && Exact(m) && m.matches[i].None?
    ensures Exact(FingerprintStep(prepared, m, item, i))
    ensures var after := FingerprintStep(prepared, m, item, i).matches;
      && (forall j :: 0 <= j < |m.matches| && j != i ==> after[j] == m.matches[j])
      && (forall p: nat :: after[i] == Some(p) <==> OnlyEqual(m.matches, prepared, item.item, p))
  {
    hide SameFingerprint, Exact, Free;
    var same := SameFingerprint(prepared, m.matched, item.item);
    SameFingerprintAscends(prepared, m.matched, item.item);
    forall p: nat ensures Free(m.matches, |prepared|, p) <==> p < |m.matched| && !m.matched[p] { ExactFree(m, p); }
    FreeIsPosition(m.matches, |prepared|);
    forall p: nat ensures same == [p] <==> OnlyEqual(m.matches, prepared, item.item, p) { OneMember(same, p); }
    if |same| == 1 {
      assert same[0] in same && same == [same[0]];
      ExactAssign(m, i, same[0]);
    }
  }

  lemma FreeIsPosition(slots: Slots, n: nat)
    ensures forall p: nat :: Free(slots, n, p) ==> p < n
  {}

  lemma {:induction false} FingerprintPassLaws(prepared: seq<Held>, filtered: seq<Held>, m: Marks, n: nat)
    requires n <= |filtered| == |m.matches| && |m.matched| == |prepared| && Exact(m)
    ensures var r := FingerprintPass(prepared, filtered, m, n);
      && Exact(r) && (forall i :: n <= i < |filtered| ==> r.matches[i] == m.matches[i])
      && (forall i :: 0 <= i < n ==> FingerprintLaw(prepared, filtered, m.matches, r.matches, i))
  {
    hide Exact, FingerprintStep, OnlyEqual;
    if n > 0 {
      FingerprintPassLaws(prepared, filtered, m, n - 1);
      var before := FingerprintPass(prepared, filtered, m, n - 1);
      var after := FingerprintPass(prepared, filtered, m, n);
      if before.matches[n - 1].None? {
        FingerprintChoice(prepared, before, filtered[n - 1], n - 1);
      } else {
        FilledStays(prepared, before, filtered[n - 1], n - 1);
      }
      assert At(m.matches, after.matches, n - 1) == before.matches;
      forall i | 0 <= i < n - 1 ensures FingerprintLaw(prepared, filtered, m.matches, after.matches, i) {
        assert FingerprintLaw(prepared, filtered, m.matches, before.matches, i);
        assert At(m.matches, after.matches, i) == At(m.matches, before.matches, i);
      }
    }
  }

  lemma FilledStays(prepared: seq<Held>, m: Marks, item: Held, i: nat)
    requires i < |m.matches| && |m.matched| == |prepared| && m.matches[i].Some?
    ensures FingerprintStep(prepared, m, item, i) == m
  {}

  // ---- pass three ----

  lemma GapChoice(m: Marks, i: nat)
    requires i < |m.matches| && Exact(m) && m.matches[i].None?
    ensures Exact(GapStep(m, i))
    ensures var after := GapStep(m, i).matches;
      && (forall j :: 0 <= j < |m.matches| && j != i ==> after[j] == m.matches[j])
      && (forall p: nat :: after[i] == Some(p) <==> OnlyCandidate(m.matches, |m.matched|, i, p))
  {
    hide UnmatchedPreparedCandidates, PreviousMatch, NextMatch, Exact, Free, Between, InGap;
    var previous, next := PreviousMatch(m.matches, i), NextMatch(m.matches, i + 1);
    var candidates := UnmatchedPreparedCandidates(m.matched, previous, next);
    CandidatesAscend(m.matched, previous, next);
    forall p: nat ensures Free(m.matches, |m.matched|, p) <==> p < |m.matched| && !m.matched[p] { ExactFree(m, p); }
    forall p: nat ensures InGap(p, previous, next) <==> Between(m.matches, i, p) { GapIsBetween(m.matches, i, p); }
    CandidatesMean(m, i, candidates);
    forall p: nat ensures candidates == [p] <==> OnlyCandidate(m.matches, |m.matched|, i, p) {
      OneMember(candidates, p);
    }
    if |candidates| == 1 {
      assert candidates[0] in candidates && candidates == [candidates[0]];
      ExactAssign(m, i, candidates[0]);
    }
  }

  lemma CandidatesMean(m: Marks, i: nat, candidates: seq<nat>)
    requires i < |m.matches|
    requires candidates
      == UnmatchedPreparedCandidates(m.matched, PreviousMatch(m.matches, i), NextMatch(m.matches, i + 1))
    requires forall p: nat :: Free(m.matches, |m.matched|, p) <==> p < |m.matched| && !m.matched[p]
    requires forall p: nat :: InGap(p, PreviousMatch(m.matches, i), NextMatch(m.matches, i + 1))
                         <==> Between(m.matches, i, p)
    ensures forall p: nat :: p in candidates <==> Candidate(m.matches, |m.matched|, i, p)
  {
    hide UnmatchedPreparedCandidates, PreviousMatch, NextMatch, Free, Between, InGap;
    var previous, next := PreviousMatch(m.matches, i), NextMatch(m.matches, i + 1);
    if p: nat :| p < |m.matched| && !m.matched[p] && InGap(p, previous, next) {
      assert Free(m.matches, |m.matched|, p) && Between(m.matches, i, p);
    }
  }

  lemma {:induction false} GapPassLaws(m: Marks, n: nat)
    requires n <= |m.matches| && Exact(m)
    ensures var r := GapPass(m, n);
      && Exact(r) && (forall i :: n <= i < |m.matches| ==> r.matches[i] == m.matches[i])
      && (forall i :: 0 <= i < n ==> GapLaw(|m.matched|, m.matches, r.matches, i))
  {
    hide Exact, GapStep, OnlyCandidate;
    if n > 0 {
      GapPassLaws(m, n - 1);
      var before, after := GapPass(m, n - 1), GapPass(m, n);
      if before.matches[n - 1].None? { GapChoice(before, n - 1); } else { GapFilledStays(before, n - 1); }
      assert At(m.matches, after.matches, n - 1) == before.matches;
      forall i | 0 <= i < n - 1 ensures GapLaw(|m.matched|, m.matches, after.matches, i) {
        assert GapLaw(|m.matched|, m.matches, before.matches, i);
        assert At(m.matches, after.matches, i) == At(m.matches, before.matches, i);
      }
    }
  }

  lemma GapFilledStays(m: Marks, i: nat)
    requires i < |m.matches| && m.matches[i].Some?
    ensures GapStep(m, i) == m
  {}

  // ---- pass four ----

  /** The positions handed out are the first ones that were free. */
  ghost predicate HandsOut(m: Marks, slots: Slots, used: nat) {
    var free := Unmatched(m.matched);
    && |slots| == |m.matches| && used <= |free|
    && forall p: nat :: Free(slots, |m.matched|, p) <==> p in free[used..]
  }

  lemma HandOut(m: Marks, slots: Slots, used: nat, i: nat)
    requires HandsOut(m, slots, used) && i < |slots| && slots[i].None?
    ensures var free := Unmatched(m.matched);
      if used == |free| then forall p: nat :: !FirstFreeOne(slots, |m.matched|, p)
      else
        && HandsOut(m, slots[i := Some(free[used])], used + 1)
        && forall p: nat :: p == free[used] <==> FirstFreeOne(slots, |m.matched|, p)
  {
    var free := Unmatched(m.matched);
    if used < |free| {
      var next, after := free[used], slots[i := Some(free[used])];
      assert free[used..] == [next] + free[used + 1..];
      assert Free(slots, |m.matched|, next);
      var rest := free[used + 1..];
      forall q | q in rest ensures q > next {
        var k :| 0 <= k < |rest| && rest[k] == q;
        assert free[used + 1 + k] == q;
      }
      forall p: nat ensures Free(after, |m.matched|, p) <==> p in free[used + 1..] {
        AssignFree(slots, i, next, |m.matched|, p);
        assert p in free[used..] <==> p == next || p in free[used + 1..];
      }
    }
  }

  lemma AssignFree(slots: Slots, i: nat, q: nat, n: nat, p: nat)
    requires i < |slots| && slots[i].None?
    ensures Free(slots[i := Some(q)], n, p) <==> Free(slots, n, p) && p != q
  {
    var after := slots[i := Some(q)];
    assert after[i] == Some(q);
    if Some(p) in slots {
      var k :| 0 <= k < |slots| && slots[k] == Some(p);
      assert after[k] == Some(p);
    }
  }

  lemma HandsOutAtFirst(m: Marks)
    requires Exact(m)
    ensures HandsOut(m, m.matches, 0)
  {
    var free := Unmatched(m.matched);
    assert free[0..] == free;
  }

  lemma {:induction false} LeftoverPassLaws(m: Marks, n: nat)
    requires n <= |m.matches| && Exact(m)
    ensures var (r, used) := LeftoverPass(m.matches, Unmatched(m.matched), n);
      && HandsOut(m, r, used) && (forall i :: n <= i < |m.matches| ==> r[i] == m.matches[i])
      && (forall i :: 0 <= i < n ==> LeftoverLaw(|m.matched|, m.matches, r, i))
  {
    hide Exact, Unmatched, FirstFreeOne, HandsOut;
    if n == 0 {
      HandsOutAtFirst(m);
    } else {
      LeftoverPassLaws(m, n - 1);
      var free := Unmatched(m.matched);
      var (before, used) := LeftoverPass(m.matches, free, n - 1);
      var after := LeftoverPass(m.matches, free, n).0;
      if before[n - 1].None? { HandOut(m, before, used, n - 1); }
      assert At(m.matches, after, n - 1) == before;
      forall i | 0 <= i < n - 1 ensures LeftoverLaw(|m.matched|, m.matches, after, i) {
        assert LeftoverLaw(|m.matched|, m.matches, before, i);
        assert At(m.matches, after, i) == At(m.matches, before, i);
      }
    }
  }

  // ---- all four ----

  /** The slots that the four passes leave one after the other obey the laws, the last ones being the attribution. */
  lemma PassesFollowLaws(prepared: seq<Held>, filtered: seq<Held>, items: seq<Held>, exact: map<Identity, seq<nat>>)
    returns (t: Trail)
    requires |prepared| == |items| && IndexOf(exact, items) && InRange(exact, |items|)
    ensures FollowsLaws(prepared, filtered, exact, t) && t.four == SourceIndices(prepared, filtered, exact)
  {
    hide Exact, IdentityClaim, FingerprintLaw, GapLaw, LeftoverLaw, IndexOf;
    var one := IdentityPass(filtered, |prepared|, exact, |filtered|).marks;
    IdentityPassExact(filtered, |prepared|, exact, |filtered|);
    forall i | 0 <= i < |filtered| ensures one.matches[i] == IdentityClaim(filtered, exact, i) {
      IdentityPassScans(filtered, items, exact, i + 1);
      IdentityPassStable(filtered, |items|, exact, i, |filtered|);
    }
    var two := FingerprintPass(prepared, filtered, one, |filtered|);
    FingerprintPassLaws(prepared, filtered, one, |filtered|);
    var three := GapPass(two, |filtered|);
    GapPassLaws(two, |filtered|);
    LeftoverPassLaws(three, |filtered|);
    var four := LeftoverPass(three.matches, Unmatched(three.matched), |filtered|).0;
    t := Trail(one.matches, two.matches, three.matches, four);
  }

  // ---- the laws leave no choice ----

  lemma {:induction false} FingerprintLawDecides(prepared: seq<Held>, filtered: seq<Held>, before: Slots, a: Slots,
                                                 b: Slots, n: nat)
    requires n <= |before| == |a| == |b| == |filtered|
    requires forall i :: 0 <= i < |before| ==>
      FingerprintLaw(prepared, filtered, before, a, i) && FingerprintLaw(prepared, filtered, before, b, i)
    ensures a[..n] == b[..n]
  {
    hide OnlyEqual;
    if n > 0 {
      FingerprintLawDecides(prepared, filtered, before, a, b, n - 1);
      assert FingerprintLaw(prepared, filtered, before, a, n - 1)
        && FingerprintLaw(prepared, filtered, before, b, n - 1);
      assert At(before, a, n - 1) == At(before, b, n - 1);
      SameChoice(a, b, n);
    }
  }

  lemma SameChoice(a: Slots, b: Slots, n: nat)
    requires 0 < n <= |a| == |b| && a[..n - 1] == b[..n - 1]
    requires forall p: nat :: a[n - 1] == Some(p) <==> b[n - 1] == Some(p)
    ensures a[..n] == b[..n]
  {
    assert a[n - 1].Some? ==> b[n - 1] == Some(a[n - 1].value);
    assert b[n - 1].Some? ==> a[n - 1] == Some(b[n - 1].value);
    assert a[..n] == a[..n - 1] + [a[n - 1]] && b[..n] == b[..n - 1] + [b[n - 1]];
  }

  lemma {:induction false} GapLawDecides(size: nat, before: Slots, a: Slots, b: Slots, n: nat)
    requires n <= |before| == |a| == |b|
    requires forall i :: 0 <= i < |before| ==> GapLaw(size, before, a, i) && GapLaw(size, before, b, i)
    ensures a[..n] == b[..n]
  {
    hide OnlyCandidate;
    if n > 0 {
      GapLawDecides(size, before, a, b, n - 1);
      assert GapLaw(size, before, a, n - 1) && GapLaw(size, before, b, n - 1);
      assert At(before, a, n - 1) == At(before, b, n - 1);
      SameChoice(a, b, n);
    }
  }

  lemma {:induction false} LeftoverLawDecides(size: nat, before: Slots, a: Slots, b: Slots, n: nat)
    requires n <= |before| == |a| == |b|
    requires forall i :: 0 <= i < |before| ==> LeftoverLaw(size, before, a, i) && LeftoverLaw(size, before, b, i)
    ensures a[..n] == b[..n]
  {
    hide FirstFreeOne;
    if n > 0 {
      LeftoverLawDecides(size, before, a, b, n - 1);
      assert LeftoverLaw(size, before, a, n - 1) && LeftoverLaw(size, before, b, n - 1);
      assert At(before, a, n - 1) == At(before, b, n - 1);
      SameChoice(a, b, n);
    }
  }

  /** Slots that obey the laws are the attribution. */
  lemma LawsDecide(prepared: seq<Held>, filtered: seq<Held>, items: seq<Held>, exact: map<Identity, seq<nat>>,
                   t: Trail)
    requires |prepared| == |items| && IndexOf(exact, items) && InRange(exact, |items|)
    requires FollowsLaws(prepared, filtered, exact, t)
    ensures t.four == SourceIndices(prepared, filtered, exact)
  {
    hide SourceIndices, IdentityClaim, IndexOf, FingerprintLaw, GapLaw, LeftoverLaw;
    var u := PassesFollowLaws(prepared, filtered, items, exact);
    var n := |filtered|;
    assert t.one == u.one;
    FingerprintLawDecides(prepared, filtered, t.one, t.two, u.two, n);
    assert t.two[..n] == t.two && u.two[..n] == u.two;
    GapLawDecides(|prepared|, t.two, t.three, u.three, n);
    assert t.three[..n] == t.three && u.three[..n] == u.three;
    LeftoverLawDecides(|prepared|, t.three, t.four, u.four, n);
    assert t.four[..n] == t.four && u.four[..n] == u.four;
  }

  // ---- a kept neighbour decides for a rewritten item ----

  lemma ClaimOfKept(items: seq<Held>, filtered: seq<Held>, i: nat, p: nat)
    requires i < |filtered| && p < |items| && filtered[i] == items[p] && items[p].identity.Some?
    requires forall q :: 0 <= q < |items| && items[q].identity == items[p].identity ==> q == p
    requires forall j :: 0 <= j < i ==> filtered[j].identity != filtered[i].identity
    ensures IdentityClaim(filtered, IdentityIndex(items), i) == Some(p)
  {
    var d := items[p].identity.value;
    IdentityIndexCorrect(items);
    IdentityIndexComplete(items, p);
    assert PositionsOf(IdentityIndex(items)[d], items, d);
    OneMember(IdentityIndex(items)[d], p);
    NoOccurrence(filtered[..i], d);
  }

  lemma {:induction false} NoOccurrence(items: seq<Held>, d: Identity)
    requires forall j :: 0 <= j < |items| ==> items[j].identity != Some(d)
    ensures Occurrences(items, d) == 0
  {
    if items != [] { NoOccurrence(items[..|items| - 1], d); }
  }

  lemma ListedHasIdentity(list: seq<nat>, items: seq<Held>, d: Identity)
    requires PositionsOf(list, items, d)
    ensures list != [] ==> exists q :: 0 <= q < |items| && items[q].identity == Some(d)
  {
    if list != [] { assert items[list[0]].identity == Some(d); }
  }

  lemma NoClaim(items: seq<Held>, filtered: seq<Held>, i: nat)
    requires i < |filtered| && forall q :: 0 <= q < |items| ==> items[q].identity != filtered[i].identity
    ensures IdentityClaim(filtered, IdentityIndex(items), i) == None
  {
    var d := filtered[i].identity;
    if d.Some? && d.value in IdentityIndex(items) {
      IdentityIndexCorrect(items);
      var list := IdentityIndex(items)[d.value];
      assert PositionsOf(list, items, d.value);
      ListedHasIdentity(list, items, d.value);
    }
  }

  /** Of three items the filter dropped the first, kept the second and rewrote the third: the rewritten item is
      attributed to the third, and the first stays unattributed. */
  lemma RewrittenAfterKept(prepared: seq<Held>, items: seq<Held>, rewritten: Held)
    requires |prepared| == |items| == 3
    requires items[1].identity.Some? && items[1].identity !in {items[0].identity, items[2].identity}
    requires forall q :: 0 <= q < 3 ==> items[q].identity != rewritten.identity && prepared[q].item != rewritten.item
    ensures InRange(IdentityIndex(items), 3)
    ensures SourceIndices(prepared, [items[1], rewritten], IdentityIndex(items)) == [Some(1), Some(2)]
  {
    hide IdentityClaim, IndexOf, SourceIndices;
    var filtered, exact := [items[1], rewritten], IdentityIndex(items);
    IdentityIndexCorrect(items);
    ClaimOfKept(items, filtered, 0, 1);
    NoClaim(items, filtered, 1);
    var t := PassesFollowLaws(prepared, filtered, items, exact);
    assert t.one == [Some(1), None];
    assert FingerprintLaw(prepared, filtered, t.one, t.two, 0) && FingerprintLaw(prepared, filtered, t.one, t.two, 1);
    NothingEqual(prepared, rewritten.item);
    assert t.two == [Some(1), None];
    assert GapLaw(3, t.two, t.three, 0) && GapLaw(3, t.two, t.three, 1);
    assert At(t.two, t.three, 1) == [Some(1), None];
    BeyondKept();
    assert t.three == [Some(1), Some(2)];
    assert LeftoverLaw(3, t.three, t.four, 0) && LeftoverLaw(3, t.three, t.four, 1);
  }

  lemma NothingEqual(prepared: seq<Held>, item: InputItem)
    requires forall q :: 0 <= q < |prepared| ==> prepared[q].item != item
    ensures forall slots: Slots, p: nat :: !OnlyEqual(slots, prepared, item, p)
  {}

  lemma BeyondKept()
    ensures OnlyCandidate([Some(1), None], 3, 1, 2)
  {
    var slots: Slots := [Some(1), None];
    assert slots[0] == Some(1) && slots[1] == None;
    assert LastBefore(slots, 1, 0) && NoneAfter(slots, 1) && !NoneBefore(slots, 1);
    forall j: nat | LastBefore(slots, 1, j) ensures j == 0 {}
    forall p: nat ensures Free(slots, 3, p) <==> p == 0 || p == 2 {}
    assert Between(slots, 1, 2) && !Between(slots, 1, 0);
    assert Candidate(slots, 3, 1, 2);
  }
}
