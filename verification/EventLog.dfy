/** The live event log of a run: writers append and notify, readers follow and park.  A machine whose
    steps are the atomic operations of the original, for any number of writers and readers. */
module EventLog {
  import opened Items

  /** Between two announcements a writer is idle. */
  datatype Writer = Idle | Changed | Announced

  /** `Look`: about to ask for the next event; `AskDone`: about to ask for the completion; `Load`: about to
      load the revision; `Enlist(r)`: about to take a ticket for the next wake-up; `Recheck(r, t)`: about
      to compare the revision; `Parked(r, t)`: waiting with that ticket; `Woken(r)`: about to compare again. */
  datatype Pc =
    | Look | AskDone | Load | Enlist(revision: nat) | Recheck(revision: nat, ticket: nat)
    | Parked(revision: nat, ticket: nat) | Woken(revision: nat) | Finished

  /** `checkedAt` is not part of the original: the revision at the moment the reader last found no event. */
  datatype Reader<E> = Reader(pc: Pc, index: nat, output: seq<E>, checkedAt: nat)

  /** `calls` counts the calls of `notify_waiters`; a ticket is the count when it was taken. */
  datatype State<E> = State(log: seq<E>, complete: bool, revision: nat, calls: nat, writers: seq<Writer>,
    readers: seq<Reader<E>>)

  datatype Action<E> = Append(w: nat, event: E) | Complete(w: nat) | Bump(w: nat) | Notify(w: nat) | Read(r: nat)

  // ---- the steps ----

  function ReaderStep<E>(s: State<E>, r: Reader<E>): Reader<E> {
    match r.pc
    case Look =>
      if r.index < |s.log| then r.(index := r.index + 1, output := r.output + [s.log[r.index]])
      else r.(pc := AskDone, checkedAt := s.revision)
    case AskDone => r.(pc := if s.complete then Finished else Load)
    case Load => r.(pc := Enlist(s.revision))
    case Enlist(revision) => r.(pc := Recheck(revision, s.calls))
    case Recheck(revision, ticket) => r.(pc := if s.revision != revision then Look else Parked(revision, ticket))
    case Parked(revision, ticket) => if s.calls > ticket then r.(pc := Woken(revision)) else r
    case Woken(revision) => r.(pc := if s.revision != revision then Look else Enlist(revision))
    case Finished => r
  }

  /** One step of one task; an action that is not enabled changes nothing. */
  function Do<E>(s: State<E>, a: Action<E>): State<E> {
    match a
    case Append(w, event) =>
      if w < |s.writers| && s.writers[w] == Idle then s.(log := s.log + [event], writers := s.writers[w := Changed])
        else s
    case Complete(w) =>
      if w < |s.writers| && s.writers[w] == Idle then s.(complete := true, writers := s.writers[w := Changed]) else s
    case Bump(w) =>
      if w < |s.writers| && s.writers[w] == Changed
        then s.(revision := s.revision + 1, writers := s.writers[w := Announced]) else s
    case Notify(w) =>
      if w < |s.writers| && s.writers[w] == Announced then s.(calls := s.calls + 1, writers := s.writers[w := Idle])
        else s
    case Read(r) =>
      if r < |s.readers| then s.(readers := s.readers[r := ReaderStep(s, s.readers[r])]) else s
  }

  function Init<E>(writers: nat, readers: nat): State<E> {
    State([], false, 0, 0, seq(writers, _ => Idle), seq(readers, _ => Reader(Look, 0, [], 0)))
  }

  function Run<E>(writers: nat, readers: nat, actions: seq<Action<E>>): State<E> {
    if actions == [] then Init(writers, readers)
      else Do(Run(writers, readers, actions[..|actions| - 1]), actions[|actions| - 1])
  }

  // ---- what every reachable state keeps ----

  ghost predicate AnyWriter<E>(s: State<E>, w: Writer) {
    exists i :: 0 <= i < |s.writers| && s.writers[i] == w
  }

  /** The reader has put out the first `index` events, once each and in order. */
  ghost predicate InOrder<E>(s: State<E>, r: Reader<E>) {
    r.index <= |s.log| && r.output == s.log[..r.index]
  }

  /** A change that a waiting reader has not seen is on its way to it. */
  ghost predicate WillWake<E>(s: State<E>, r: Reader<E>) {
    match r.pc
    case Recheck(_, ticket) => ticket <= s.calls
    case Parked(revision, ticket) =>
      ticket <= s.calls && (s.revision != revision ==> s.calls > ticket || AnyWriter(s, Announced))
    case _ => true
  }

  predicate PastDone(pc: Pc) { pc.Load? || pc.Enlist? || pc.Recheck? || pc.Parked? || pc.Woken? }

  /** Everything that happened since the reader looked shows in the revision, or is about to. */
  ghost predicate Accounted<E>(s: State<E>, r: Reader<E>) {
    && r.checkedAt <= s.revision
    && (!r.pc.Look? && !r.pc.Finished? && r.index < |s.log| ==> s.revision > r.checkedAt || AnyWriter(s, Changed))
    && (PastDone(r.pc) && s.complete ==> s.revision > r.checkedAt || AnyWriter(s, Changed))
  }

  ghost predicate ReaderInv<E>(s: State<E>, r: Reader<E>) {
    InOrder(s, r) && WillWake(s, r) && Accounted(s, r)
  }

  ghost predicate Inv<E>(s: State<E>) {
    forall i :: 0 <= i < |s.readers| ==> ReaderInv(s, s.readers[i])
  }

  lemma WriterKeeps<E>(s: State<E>, a: Action<E>, r: Reader<E>)
    requires ReaderInv(s, r) && !a.Read?
    ensures ReaderInv(Do(s, a), r)
  {
    var t := Do(s, a);
    if t != s {
      assert t.writers[a.w] == if a.Append? || a.Complete? then Changed else if a.Bump? then Announced else Idle;
      OthersStay(s, t, a.w, Announced);
      OthersStay(s, t, a.w, Changed);
      assert a.Append? ==> t.log[..r.index] == s.log[..r.index];
    }
  }

  /** A writer's step leaves the other writers where they are. */
  lemma OthersStay<E>(s: State<E>, t: State<E>, w: nat, kind: Writer)
    requires w < |s.writers| == |t.writers| && t.writers == s.writers[w := t.writers[w]]
    ensures AnyWriter(s, kind) && s.writers[w] != kind ==> AnyWriter(t, kind)
    ensures t.writers[w] == kind ==> AnyWriter(t, kind)
  {
    if AnyWriter(s, kind) && s.writers[w] != kind {
      var i :| 0 <= i < |s.writers| && s.writers[i] == kind;
      assert t.writers[i] == kind;
    }
  }

  lemma ReaderKeeps<E>(s: State<E>, r: Reader<E>)
    requires ReaderInv(s, r)
    ensures ReaderInv(s, ReaderStep(s, r))
  {
    if r.pc.Look? && r.index < |s.log| { assert s.log[..r.index + 1] == s.log[..r.index] + [s.log[r.index]]; }
  }

  lemma StepKeeps<E>(s: State<E>, a: Action<E>)
    requires Inv(s)
    ensures Inv(Do(s, a))
  {
    hide ReaderInv, ReaderStep;
    var t := Do(s, a);
    forall i | 0 <= i < |t.readers| ensures ReaderInv(t, t.readers[i]) {
      if a.Read? {
        if a.r == i { ReaderKeeps(s, s.readers[i]); }
        SameShared(s, t, t.readers[i]);
      } else {
        WriterKeeps(s, a, s.readers[i]);
      }
    }
  }

  lemma SameShared<E>(s: State<E>, t: State<E>, r: Reader<E>)
    requires t == s.(readers := t.readers)
    ensures ReaderInv(s, r) <==> ReaderInv(t, r)
  {}

  /** The invariant holds after any interleaving. */
  lemma {:induction false} RunKeeps<E>(writers: nat, readers: nat, actions: seq<Action<E>>)
    ensures Inv(Run(writers, readers, actions))
    ensures |Run(writers, readers, actions).readers| == readers
  {
    if actions != [] {
      RunKeeps(writers, readers, actions[..|actions| - 1]);
      StepKeeps(Run(writers, readers, actions[..|actions| - 1]), actions[|actions| - 1]);
    }
  }

  /** Every reader's output is a prefix of the log: no gap, no repetition, nothing out of order. */
  lemma OutputsArePrefixes<E>(writers: nat, readers: nat, actions: seq<Action<E>>, r: nat)
    requires r < readers
    ensures |Run(writers, readers, actions).readers| == readers
    ensures Run(writers, readers, actions).readers[r].output <= Run(writers, readers, actions).log
  {
    RunKeeps(writers, readers, actions);
    var s := Run(writers, readers, actions);
    assert ReaderInv(s, s.readers[r]);
  }

  /** No wake-up is lost: a reader parked on an old revision has been woken or is about to be. */
  lemma ParkedWillWake<E>(writers: nat, readers: nat, actions: seq<Action<E>>, r: nat)
    requires r < readers
    ensures var s := Run(writers, readers, actions);
      && |s.readers| == readers
      && (s.readers[r].pc.Parked? && s.revision != s.readers[r].pc.revision ==>
            s.calls > s.readers[r].pc.ticket || AnyWriter(s, Announced))
  {
    RunKeeps(writers, readers, actions);
    var s := Run(writers, readers, actions);
    assert ReaderInv(s, s.readers[r]);
  }

  ghost predicate Quiet<E>(s: State<E>) {
    forall i :: 0 <= i < |s.writers| ==> s.writers[i] == Idle
  }

  /** When the writers are done, a reader that stays parked has read everything, and the run is not
      complete, provided that the revision it waits on is the one at which it looked. */
  lemma ParkedHasReadAll<E>(writers: nat, readers: nat, actions: seq<Action<E>>, r: nat)
    requires r < readers
    ensures var s := Run(writers, readers, actions);
      && |s.readers| == readers
      && (Quiet(s) && s.readers[r].pc.Parked? && s.calls == s.readers[r].pc.ticket
          && s.readers[r].pc.revision == s.readers[r].checkedAt ==>
            s.readers[r].output == s.log && !s.complete)
  {
    RunKeeps(writers, readers, actions);
    var s := Run(writers, readers, actions);
    assert ReaderInv(s, s.readers[r]);
  }

  // ---- what a reader has when it is past its look ----

  /** The reader's next step finds no event. */
  predicate LooksInVain<E>(s: State<E>, r: nat) {
    r < |s.readers| && s.readers[r].pc.Look? && s.readers[r].index >= |s.log|
  }

  /** The position of the reader's last look that found no event. */
  ghost function LastLook<E>(writers: nat, readers: nat, actions: seq<Action<E>>, r: nat): (k: Option<nat>)
    ensures k.Some? ==> k.value < |actions| && actions[k.value] == Read(r)
                        && LooksInVain(Run(writers, readers, actions[..k.value]), r)
  {
    if actions == [] then None
    else
      var init := actions[..|actions| - 1];
      if actions[|actions| - 1] == Read(r) && LooksInVain(Run(writers, readers, init), r) then Some(|init|)
      else
        var k := LastLook(writers, readers, init, r);
        assert k.Some? ==> init[..k.value] == actions[..k.value];
        k
  }

  lemma RunPush<E>(writers: nat, readers: nat, actions: seq<Action<E>>, a: Action<E>)
    ensures Run(writers, readers, actions + [a]) == Do(Run(writers, readers, actions), a)
  {
    assert (actions + [a])[..|actions|] == actions;
  }

  lemma LogGrows<E>(s: State<E>, a: Action<E>)
    ensures s.log <= Do(s, a).log && (s.complete ==> Do(s, a).complete)
  {}

  lemma {:induction false} RunGrows<E>(writers: nat, readers: nat, actions: seq<Action<E>>, k: nat)
    requires k <= |actions|
    ensures Run(writers, readers, actions[..k]).log <= Run(writers, readers, actions).log
    ensures Run(writers, readers, actions[..k]).complete ==> Run(writers, readers, actions).complete
    decreases |actions|
  {
    if k == |actions| {
      assert actions[..k] == actions;
    } else {
      var init := actions[..|actions| - 1];
      assert init[..k] == actions[..k];
      RunGrows(writers, readers, init, k);
      LogGrows(Run(writers, readers, init), actions[|actions| - 1]);
    }
  }

  /** A reader gets past its look only by finding no event, and then it puts nothing out until it looks again. */
  lemma PastLookStep<E>(s: State<E>, a: Action<E>, r: nat)
    requires Inv(s) && r < |s.readers|
    ensures var t := Do(s, a);
      && |t.readers| == |s.readers|
      && (a == Read(r) && LooksInVain(s, r) ==> t.readers[r].output == s.log)
      && (!(a == Read(r) && LooksInVain(s, r)) && !t.readers[r].pc.Look? ==>
            !s.readers[r].pc.Look? && t.readers[r].output == s.readers[r].output)
  {
    assert ReaderInv(s, s.readers[r]);
  }

  /** A reader that is past its look, waiting or finished, has put out the log as that look found it.  So
      what it has put out is everything exactly if no event was appended after that look. */
  lemma {:induction false} PastLookHasRead<E>(writers: nat, readers: nat, actions: seq<Action<E>>, r: nat)
    requires r < readers
    ensures var s, look := Run(writers, readers, actions), LastLook(writers, readers, actions, r);
      && |s.readers| == readers
      && (!s.readers[r].pc.Look? ==>
            && look.Some? && s.readers[r].output == Run(writers, readers, actions[..look.value]).log
            && (s.readers[r].output == s.log <==> |s.log| == |Run(writers, readers, actions[..look.value]).log|))
  {
    hide Do, Inv, LooksInVain;
    RunKeeps(writers, readers, actions);
    if actions != [] {
      var init := actions[..|actions| - 1];
      PastLookHasRead(writers, readers, init, r);
      RunKeeps(writers, readers, init);
      PastLookStep(Run(writers, readers, init), actions[|actions| - 1], r);
      var look := LastLook(writers, readers, actions, r);
      if look.Some? {
        RunGrows(writers, readers, actions, look.value);
        assert init[..look.value] == actions[..look.value];
      }
    }
  }

  /** A reader finishes only when the run is complete. */
  lemma {:induction false} FinishedOnlyWhenComplete<E>(writers: nat, readers: nat, actions: seq<Action<E>>, r: nat)
    requires r < readers
    ensures var s := Run(writers, readers, actions);
      |s.readers| == readers && (s.readers[r].pc.Finished? ==> s.complete)
  {
    RunKeeps(writers, readers, actions);
    if actions != [] {
      var init := actions[..|actions| - 1];
      FinishedOnlyWhenComplete(writers, readers, init, r);
      LogGrows(Run(writers, readers, init), actions[|actions| - 1]);
    }
  }

  ghost predicate CaughtUp<E>(s: State<E>, r: nat) {
    r < |s.readers| && (!s.readers[r].pc.Look? ==> s.readers[r].output == s.log)
  }

  lemma CaughtUpStep<E>(s: State<E>, a: Action<E>, r: nat)
    requires Inv(s) && CaughtUp(s, r) && Do(s, a).log == s.log
    ensures CaughtUp(Do(s, a), r)
  {
    hide Do, Inv, LooksInVain;
    PastLookStep(s, a, r);
  }

  /** A reader that has still to look when the last event is there, and so at the latest when the run is
      complete, has the whole log whenever it is past a look, waiting or finished, whatever happens in
      between. */
  lemma {:induction false} LookAfterLastEvent<E>(writers: nat, readers: nat, before: seq<Action<E>>,
                                                 after: seq<Action<E>>, r: nat)
    requires r < readers
    requires var s := Run(writers, readers, before); r < |s.readers| && s.readers[r].pc.Look?
    requires Run(writers, readers, before + after).log == Run(writers, readers, before).log
    ensures CaughtUp(Run(writers, readers, before + after), r)
  {
    hide Do;
    if after == [] {
      assert before + after == before;
    } else {
      var init, a := after[..|after| - 1], after[|after| - 1];
      assert before + after == before + init + [a];
      RunPush(writers, readers, before + init, a);
      LogGrows(Run(writers, readers, before + init), a);
      RunGrows(writers, readers, before + init, |before|);
      assert (before + init)[..|before|] == before;
      LookAfterLastEvent(writers, readers, before, init, r);
      RunKeeps(writers, readers, before + init);
      CaughtUpStep(Run(writers, readers, before + init), a, r);
    }
  }

  // ---- a reader that the writers leave alone catches up ----

  /** `n` steps of reader `r`. */
  function Reads<E>(s: State<E>, r: nat, n: nat): State<E> {
    if n == 0 then s else Do(Reads(s, r, n - 1), Read(r))
  }

  lemma {:induction false} ReadsSplit<E>(s: State<E>, r: nat, m: nat, n: nat)
    ensures Reads(s, r, m + n) == Reads(Reads(s, r, m), r, n)
  {
    hide Do;
    if n > 0 { ReadsSplit(s, r, m, n - 1); }
  }

  lemma ReadOnce<E>(s: State<E>, r: nat)
    requires r < |s.readers|
    ensures Reads(s, r, 1) == s.(readers := s.readers[r := ReaderStep(s, s.readers[r])])
  {
    assert Reads(s, r, 0) == s;
  }

  /** The reader is about to look, or waits on a revision that is over. */
  ghost predicate Behind<E>(s: State<E>, r: Reader<E>) {
    r.pc.Look? || ((r.pc.Enlist? || r.pc.Recheck? || r.pc.Parked? || r.pc.Woken?) && r.pc.revision != s.revision)
  }

  /** Everything is put out, and the reader is through exactly if the run is, and otherwise waits for the next
      change. */
  ghost predicate UpToDate<E>(s: State<E>, r: Reader<E>) {
    r.output == s.log && r.pc == if s.complete then Finished else Parked(s.revision, s.calls)
  }

  ghost predicate CatchesUp<E>(s: State<E>, r: nat)
    requires r < |s.readers|
  {
    exists n: nat :: CatchesUpIn(s, r, n)
  }

  ghost predicate CatchesUpIn<E>(s: State<E>, r: nat, n: nat)
    requires r < |s.readers|
  {
    var t := Reads(s, r, n);
    r < |t.readers| && t == s.(readers := s.readers[r := t.readers[r]]) && UpToDate(t, t.readers[r])
  }

  lemma OneStepSooner<E>(s: State<E>, r: nat)
    requires r < |s.readers| && CatchesUp(s.(readers := s.readers[r := ReaderStep(s, s.readers[r])]), r)
    ensures CatchesUp(s, r)
  {
    hide ReaderStep, UpToDate, Do;
    var next := s.(readers := s.readers[r := ReaderStep(s, s.readers[r])]);
    var n: nat :| CatchesUpIn(next, r, n);
    ReadOnce(s, r);
    ReadsSplit(s, r, 1, n);
    assert CatchesUpIn(s, r, 1 + n);
  }

  lemma AlreadyUpToDate<E>(s: State<E>, r: nat)
    requires r < |s.readers| && UpToDate(s, s.readers[r])
    ensures CatchesUp(s, r)
  {
    assert s.readers[r := s.readers[r]] == s.readers;
    assert Reads(s, r, 0) == s;
    assert CatchesUpIn(s, r, 0);
  }

  /** How many steps a reader is from being up to date at most. */
  function Distance<E>(s: State<E>, r: Reader<E>): nat {
    match r.pc
    case Finished => 0
    case Parked(revision, _) => if revision == s.revision then 0 else |s.log| + 8
    case Recheck(revision, _) => if revision == s.revision then 1 else |s.log| + 6
    case Enlist(revision) => if revision == s.revision then 2 else |s.log| + 7
    case Load => 3
    case AskDone => 4
    case Look => 5 + (if r.index < |s.log| then |s.log| - r.index else 0)
    case Woken(revision) => if revision == s.revision then 3 else |s.log| + 6
  }

  /** On its way to being up to date: what it has read is all there is if it is past its look. */
  ghost predicate OnItsWay<E>(s: State<E>, r: Reader<E>) {
    && InOrder(s, r)
    && (Behind(s, r) || (r.output == s.log && (r.pc.Finished? ==> s.complete) && (PastDone(r.pc) ==> !s.complete)))
    && (match r.pc
        case Recheck(_, ticket) => r.pc.revision == s.revision ==> ticket == s.calls
        case Parked(_, ticket) => if r.pc.revision == s.revision then ticket == s.calls else ticket < s.calls
        case Woken(_) => r.pc.revision != s.revision
        case _ => true)
  }

  lemma WayStep<E>(s: State<E>, r: Reader<E>)
    requires OnItsWay(s, r) && !UpToDate(s, r)
    ensures OnItsWay(s, ReaderStep(s, r)) && Distance(s, ReaderStep(s, r)) < Distance(s, r)
  {
    if r.pc.Look? && r.index < |s.log| { assert s.log[..r.index + 1] == s.log[..r.index] + [s.log[r.index]]; }
    assert s.log[..|s.log|] == s.log;
  }

  lemma WaySame<E>(s: State<E>, t: State<E>, r: Reader<E>)
    requires t == s.(readers := t.readers)
    ensures OnItsWay(s, r) <==> OnItsWay(t, r)
    ensures Distance(s, r) == Distance(t, r)
  {}

  lemma {:induction false} WayEnds<E>(s: State<E>, r: nat)
    requires r < |s.readers| && OnItsWay(s, s.readers[r])
    ensures CatchesUp(s, r)
    decreases Distance(s, s.readers[r])
  {
    hide OnItsWay, UpToDate, ReaderStep, CatchesUp, Distance;
    if UpToDate(s, s.readers[r]) {
      AlreadyUpToDate(s, r);
    } else {
      var next := s.(readers := s.readers[r := ReaderStep(s, s.readers[r])]);
      WayStep(s, s.readers[r]);
      WaySame(s, next, ReaderStep(s, s.readers[r]));
      WayEnds(next, r);
      OneStepSooner(s, r);
    }
  }

  /** In any reachable state in which the writers are idle, a reader that is about to look, or that waits on a
      revision that is over, has after some steps of its own put out the whole log; then it is finished if
      the run is complete, and waits for the next change if not. */
  lemma ReaderCatchesUp<E>(writers: nat, readers: nat, actions: seq<Action<E>>, r: nat)
    requires r < readers
    ensures var s := Run(writers, readers, actions);
      |s.readers| == readers && (Quiet(s) && Behind(s, s.readers[r]) ==> CatchesUp(s, r))
  {
    hide CatchesUp;
    RunKeeps(writers, readers, actions);
    var s := Run(writers, readers, actions);
    assert ReaderInv(s, s.readers[r]);
    if Quiet(s) && Behind(s, s.readers[r]) { WayEnds(s, r); }
  }

  // ---- what the order of the reader's checks does not give ----

  ghost predicate Announces<E>(s: State<E>, change: Action<E>, t: State<E>) {
    && t.log == (if change.Append? then s.log + [change.event] else s.log)
    && t.complete == (s.complete || change.Complete?)
    && t.revision == s.revision + 1 && t.calls == s.calls + 1 && t.writers == [Idle] && t.readers == s.readers
  }

  lemma AnnounceSteps<E>(s: State<E>, change: Action<E>)
    requires change == Complete(0) || (change.Append? && change.w == 0)
    requires s.writers == [Idle]
    ensures Announces(s, change, Do(Do(Do(s, change), Bump(0)), Notify(0)))
  {
    assert [Idle][0 := Changed] == [Changed];
    var changed := Do(s, change);
    assert changed.writers == [Changed];
    var bumped := Do(changed, Bump(0));
    assert bumped.writers == [Announced];
  }

  /** One announced change by the only writer. */
  lemma Announce<E>(actions: seq<Action<E>>, change: Action<E>)
    requires change == Complete(0) || (change.Append? && change.w == 0)
    requires Run(1, 1, actions).writers == [Idle]
    ensures Announces(Run(1, 1, actions), change, Run(1, 1, actions + [change, Bump(0), Notify(0)]))
  {
    hide Do, Announces;
    AnnounceSteps(Run(1, 1, actions), change);
    RunPush(1, 1, actions, change);
    RunPush(1, 1, actions + [change], Bump(0));
    RunPush(1, 1, actions + [change] + [Bump(0)], Notify(0));
    assert actions + [change] + [Bump(0)] + [Notify(0)] == actions + [change, Bump(0), Notify(0)];
  }

  /** The reader looks and asks, and then the run appends its last event and completes. */
  function LateEnd<E>(event: E, asks: seq<Action<E>>): seq<Action<E>> {
    asks + [Append(0, event), Bump(0), Notify(0)] + [Complete(0), Bump(0), Notify(0)]
  }

  lemma LateEndState<E>(event: E, asks: seq<Action<E>>)
    requires asks == [Read(0)] || asks == [Read(0), Read(0)]
    ensures var s := Run(1, 1, LateEnd(event, asks));
      && s.complete && s.log == [event] && s.revision == 2 && s.calls == 2 && s.writers == [Idle]
      && s.readers == [Reader(if asks == [Read(0)] then AskDone else Load, 0, [], 0)]
  {
    var none: seq<Action<E>> := [];
    var look: seq<Action<E>> := [Read(0)];
    RunPush(1, 1, none, Read(0));
    assert none + [Read(0)] == look;
    RunPush(1, 1, look, Read(0));
    assert look + [Read(0)] == [Read(0), Read(0)];
    Announce(asks, Append(0, event));
    Announce(asks + [Append(0, event), Bump(0), Notify(0)], Complete(0));
  }

  /** The revision is loaded after the checks.  A run that ends in between leaves the reader parked on
      the last revision, with an event unread; no step changes anything any more. */
  lemma ReaderCanMissTheEnd<E>(event: E)
    ensures var s := Run(1, 1, LateEnd(event, [Read(0), Read(0)]) + [Read(0), Read(0), Read(0)]);
      && s.complete && s.log == [event] && Quiet(s) && |s.readers| == 1
      && s.readers[0].output == [] && s.readers[0].pc == Parked(2, 2) && s.revision == 2 && s.calls == 2
      && Do(s, Read(0)) == s
  {
    var end := LateEnd(event, [Read(0), Read(0)]);
    LateEndState(event, [Read(0), Read(0)]);
    RunPush(1, 1, end, Read(0));
    RunPush(1, 1, end + [Read(0)], Read(0));
    RunPush(1, 1, end + [Read(0)] + [Read(0)], Read(0));
    assert end + [Read(0)] + [Read(0)] + [Read(0)] == end + [Read(0), Read(0), Read(0)];
  }

  /** A run that ends between the two checks makes the reader finish without its last event. */
  lemma ReaderCanFinishEarly<E>(event: E)
    ensures var s := Run(1, 1, LateEnd(event, [Read(0)]) + [Read(0)]);
      s.complete && s.log == [event] && |s.readers| == 1 && s.readers[0].pc.Finished? && s.readers[0].output == []
  {
    LateEndState(event, [Read(0)]);
    RunPush(1, 1, LateEnd(event, [Read(0)]), Read(0));
  }
}
