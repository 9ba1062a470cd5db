# What an agent run sends, keeps and replays

A model, in Dafny, of the bookkeeping inside an agent runtime written in Rust: which items a model call
is given, which items a session stores, what a paused run leaves behind, and what concurrent readers of
a run get to see. Model, tools, guardrails, filters, session callbacks and history mappers are arbitrary
functions, so every theorem holds for all of them.

| file | what it models |
|---|---|
| `Items.dfy` | JSON values, input, output and run items, and the two conversions between them |
| `FilterMatcher.dfy` | the four-pass attribution of filtered items to prepared ones |
| `ConversationTracker.dfy` | the three source indexes, marking, and attribution on a first turn |
| `ConversationTurns.dfy` | the tracker object and whole conversations over it |
| `ConversationFilters.dfy` | filtered turns after the first, on top of what earlier filters left over |
| `ConversationLimits.dfy` | the exact conditions of the tracker's guarantees, with the inputs that fail them |
| `SessionPersistence.dfy` | which of the items a session callback returns are new |
| `ReplayItems.dfy` | dropping orphaned hosted calls, splicing in generated items |
| `StrictSchema.dfy`, `ReferenceRanks.dfy` | the rewrite of a JSON schema into strict form |
| `RealtimeSettings.dfy`, `RealtimeSession.dfy` | merging settings, and the two copies of them |
| `HandoffHistory.dfy` | the history summary of a handoff, printed and read back |
| `ToolExecution.dfy`, `RunState.dfy`, `RunLoop.dfy`, `PauseResume.dfy` | tool calls, approvals, the turn loop, pausing and resuming |
| `Compaction.dfy` | the session that drops old model items |
| `EventLog.dfy` | the live event log with its revisions and wake-ups |
| `ItemLaws.dfy`, `MatchingLaws.dfy`, `ReplayLaws.dfy`, `SchemaLaws.dfy`, `SchemaFaults.dfy`, `ToolLaws.dfy`, `RunLaws.dfy`, `RealtimeLaws.dfy`, `HandoffLaws.dfy`, `CompactionLaws.dfy` | what those modules come to, said of JSON members, fields and positions alone |

Code that changes things step by step is a method or a class here, and its contract ties the result or
the new state to a specification function; the theorems are lemmas about those functions. The modules whose
names end in `Laws` or `Faults` describe the same behaviour a second time, without those functions, by JSON
members, record fields and positions. `dafny verify dfyconfig.toml` checks everything.

## What turned out to be conditional

These promises of the code hold only under a condition. For each there is a theorem with the exact
condition, or the inputs on which it fails:

- Delivering every local item exactly once needs items whose contents and ids differ from everything
  already sent or received (`ExactlyOnce`, `ExactlyOnceForNewItems`); otherwise an item is withheld.
- An item's identity is the address of its first string or first key, and an empty string has no block
  of its own. Different items can therefore share an identity (`EmptyKeysMislead`); attribution is
  complete exactly for items that can be told apart (`RewritingEverything`, `FirstTurnComplete`).
- Composing a replay again is harmless, given a keyed item, exactly if the replay is consistent, and without
  one exactly if cleaning takes the replay back to the base (`ComposeTwice`, `KeyedCanVanish`,
  `UnkeyedCanStay`). A base with orphaned hosted items can cost a generated item (`SpliceKeepsGenerated`,
  `SpliceCanLose`).
- A callback that puts the new items behind the history has them persisted, but perhaps in another order
  (`HistoryThenNewKeepsOrder`, `UnknownInputKeepsOrder`, `HistoryThenNewReorders`).
- The strict rewrite is idempotent node by node, but the entry point replaces an empty result
  (`EnsureStrict`, `EmptiedExactly`, `EmptiedSchemaIsNotKept`); references that stand alone are harmless
  (`NodeEnds`), so are those with siblings that do not lead back to themselves (`RankedEnds`), and those with
  siblings in a cycle are never rewritten (`CyclesNeverSucceed`, `CycleNeverEnds`).
- Reading a nested history back cannot fail with the default markers, and fails for some text exactly with markers
  that can overlap (`PanicsExactly`, `MarkersCanOverlap`).
- A flat input format does not win over an earlier one, a flat voice does (`FlatInputFormatWins`,
  `FlatVoiceWins`).
- Resuming runs the pending call only, so a run is continued faithfully exactly if that call was the last
  of its response (`PendingMustBeLast`), and if the input does not overlap with what was generated
  (`ReplayIsExact`); a decision is accepted exactly with the tool's name (`DecisionNeedsToolName`). A resumed
  state keeps only the budget that was left when it was resumed, and all earlier turns are taken off that again,
  so a session ends as the run without interruption does exactly if what is left covers every leg
  (`SessionIsUninterrupted`, `ApprovalsCanCostTheEnd`, `RemainingAfterResume`, `ChainBudget`).
- A reader of the event log looks at the revision after its checks, so it can miss the end or the last
  event (`ReaderCanMissTheEnd`, `ReaderCanFinishEarly`); what it has read is always the log up to its last
  look, and it misses nothing exactly if nothing was appended since (`PastLookHasRead`, `LookAfterLastEvent`).

## Model

| member | source | states |
|---|---|---|
| ConversationTurns.ExactlyOnce | crates/agents-core/src/internal/oai_conversation.rs:76-128 | for every conversation (any responses, any locally produced items): the deliveries of the first t turns, run together, are the original input followed by every locally produced item once and in order, exactly if no local item was already known by content, item id or call id when it was due |
| ConversationTurns.ExactlyOnceForNewItems | crates/agents-core/src/internal/oai_conversation.rs:76-128 | the same on what the caller and the server bring: exactly if every locally produced item, its item id and its call id are neither in the original input, nor produced earlier, nor in an earlier response |
| ConversationTurns.KnownIsMet | crates/agents-core/src/internal/oai_conversation.rs:221-242 | as long as nothing is withheld, an item is known before a turn exactly if it was due in an earlier turn or an earlier response reported it, its item id or its call id |
| ConversationTurns.WithheldExactly | crates/agents-core/src/internal/oai_conversation.rs:104-124 | in terms of the JSON members alone: a locally produced item is withheld from a turn exactly if an earlier turn delivered it or an earlier response held it, or held a JSON object with the same text under "id", or one with an "output" member and the same text under "call_id" where the item has an output too |
| ConversationTurns.ToolOutputWithheld | crates/agents-core/src/internal/oai_conversation.rs:350-367 | so a tool output is withheld exactly if it was carried before or an earlier response answered its call with an object that has an output itself; the call that the model made does not withhold it |
| ConversationTurns.OutputsAreDelivered | crates/agents-core/src/internal/oai_conversation.rs:76-128 | runs without JSON objects in their responses whose local items are distinct tool outputs that the original input lacks: every output is delivered once and in order, although each answers a call that the server returned |
| ConversationTurns.NoEcho | crates/agents-core/src/internal/oai_conversation.rs:221-242 | nothing a response contained is ever delivered in a later turn |
| ConversationTurns.AtMostOnce | crates/agents-core/src/internal/oai_conversation.rs:104-124 | nothing a turn delivered is delivered again in a later turn |
| ConversationTurns.OnlyLatestIsFresh | crates/agents-core/src/internal/oai_conversation.rs:104-128 | although each turn offers all generated items so far, what is left after the known ones are removed is what the latest turn added |
| ConversationTurns.KnownContents | crates/agents-core/src/internal/oai_conversation.rs:221-242 | the sent contents before a turn are exactly those that some earlier turn delivered or received |
| ConversationTurns.RunConversation | crates/agents-core/src/run.rs:567-629 | a whole run over the tracker object, without a filter: its k-th delivery is what the account of sent and received items says, for all responses and local results, provided that no delivery holds different objects behind one empty-key address (`Faithful`) |
| ConversationTurns.ConversationTurn | crates/agents-core/src/run.rs:567-629 | one turn of that run: prepare, copy, deliver, mark, record the response; nothing is left registered or remaining afterwards |
| ConversationTurns.DeliverTurn | crates/agents-core/src/run.rs:567-621 | one unfiltered delivery: the delivered items are those due, they are recorded as sent, every source they registered is used up |
| ConversationTurns.PlainTurn | crates/agents-core/src/internal/oai_conversation.rs:287-349 | marking copies of the prepared items, in order, uses up each registered source once and in order, although the copies may share addresses |
| ConversationTurns.NoEmptyKeysIsFaithful | crates/agents-core/src/internal/oai_conversation.rs:530-555 | inputs in which no object has an empty key satisfy the condition under which copies resolve to their own content |
| ConversationTurns.OpenAIServerConversationTracker.constructor | crates/agents-core/src/internal/oai_conversation.rs:27-41 | a new tracker knows nothing, has nothing registered and satisfies the representation invariant |
| ConversationTurns.OpenAIServerConversationTracker.PrepareInput | crates/agents-core/src/internal/oai_conversation.rs:76-128 | the prepared items are copies of the original (or remaining) input and the unknown generated items, each registered under a new source id; the remaining input is set on the first turn only |
| ConversationTurns.OpenAIServerConversationTracker.PrepareGenerated | crates/agents-core/src/internal/oai_conversation.rs:96-127 | of the generated items exactly those without a known id, call id or content are prepared and registered |
| ConversationTurns.OpenAIServerConversationTracker.MarkInputAsSentWithSources | crates/agents-core/src/internal/oai_conversation.rs:134-149 | sent contents, remaining input and the three source indexes afterwards, for any list of explicit sources, of any length |
| ConversationTurns.OpenAIServerConversationTracker.RegisterPreparedItemSource | crates/agents-core/src/internal/oai_conversation.rs:268-285 | keeps the three indexes linked and adds one live source under a fresh id |
| ConversationTurns.OpenAIServerConversationTracker.ResolvePreparedItemSourceId | crates/agents-core/src/internal/oai_conversation.rs:322-333 | the id for the identity if there is one, else the oldest live source of equal content |
| ConversationTurns.OpenAIServerConversationTracker.ConsumePreparedItemSourceId | crates/agents-core/src/internal/oai_conversation.rs:299-311 | the id disappears from all three indexes, its source is returned, nothing else changes; an unknown id changes nothing |
| ConversationTurns.OpenAIServerConversationTracker.ConsumeSource | crates/agents-core/src/internal/oai_conversation.rs:136-147 | the explicit source if it is live, else the resolved one, else the item itself |
| ConversationTurns.OpenAIServerConversationTracker.RemoveRemainingInitialItem | crates/agents-core/src/internal/oai_conversation.rs:335-349 | removes the first equal remaining item; an emptied list becomes none |
| ConversationTurns.OpenAIServerConversationTracker.TrackServerItems | crates/agents-core/src/internal/oai_conversation.rs:221-242 | contents, item ids and call ids of the response become known and equal remaining items go |
| ConversationTurns.OpenAIServerConversationTracker.ApplyResponse | crates/agents-core/src/internal/oai_conversation.rs:67-74 | also moves the previous response id on, if it is tracked |
| ConversationTurns.OpenAIServerConversationTracker.PreparedSourceRefs | crates/agents-core/src/internal/oai_conversation.rs:258-266 | the source each prepared item resolves to |
| ConversationTracker.LinkedRegister | crates/agents-core/src/internal/oai_conversation.rs:268-285 | registering keeps the index invariant: the list of a content holds its live ids, oldest first, each once, and no list is empty |
| ConversationTracker.LinkedConsume | crates/agents-core/src/internal/oai_conversation.rs:299-311 | consuming keeps the index invariant |
| ConversationTracker.LinkedOldest | crates/agents-core/src/internal/oai_conversation.rs:322-333 | the first entry of a content list is the oldest live source with that content |
| ConversationTracker.ResolvedIsLive | crates/agents-core/src/internal/oai_conversation.rs:322-333 | a resolved id can always be consumed |
| ConversationTracker.RemoveFirstLaw | crates/agents-core/src/internal/oai_conversation.rs:335-349 | of the remaining items the first equal one goes and the order of the others stays |
| ConversationTracker.UseAllMirrors | crates/agents-core/src/internal/oai_conversation.rs:134-149 | remaining input and live sources stay equal as multisets through any marking |
| ConversationTracker.UseAllUsesNamed | crates/agents-core/src/internal/oai_conversation.rs:134-149 | a source named explicitly is no longer live after marking |
| ConversationTracker.UseAllSparesOthers | crates/agents-core/src/internal/oai_conversation.rs:134-149 | a source not named stays live, provided every delivered item names a source of its own |
| ConversationTracker.RefIsOwn | crates/agents-core/src/internal/oai_conversation.rs:258-266 | on a first turn whose items can be told apart each prepared item resolves to its own source |
| ConversationTracker.AttributedAndLeft | crates/agents-core/src/internal/oai_conversation.rs:134-149 | attributed items and items left make up the original input as a multiset |
| ConversationTracker.FirstTurnAttribution | crates/agents-core/src/internal/turn_preparation.rs:36-49 | for any filter: after marking, what is still offered together with what the matcher attributed is the original input, as multisets; dropped items are offered again, moved and rewritten ones are not |
| ConversationTracker.FirstTurnMirrors | crates/agents-core/src/internal/oai_conversation.rs:134-149 | on the first turn the remaining input is what the live sources say after any number of marked items |
| ConversationTurns.FilterModelInput | crates/agents-core/src/internal/turn_preparation.rs:14-54 | for an arbitrary filter the source slots are a maximum matching and name the sources of the prepared items |
| ConversationTurns.FilteredFirstTurn | crates/agents-core/src/run.rs:567-621 | the same attribution, over the tracker object and an arbitrary filter |
| ConversationFilters.TurnAttribution | crates/agents-core/src/internal/turn_preparation.rs:36-49 | any turn whose items can be told apart, whatever sources earlier filters left over, and any filter: what is offered afterwards is what was offered before less what the matcher attributed, and everything attributed is accounted as sent |
| ConversationFilters.RefHasContent | crates/agents-core/src/internal/oai_conversation.rs:258-266 | on any turn a prepared item resolves to a live source of its own content, which may be one an earlier turn left over only if the item has no address |
| ConversationFilters.SlottedUse | crates/agents-core/src/internal/oai_conversation.rs:134-149 | when every delivered item has a slot, the items accounted for are exactly those the slots stand for, in order |
| ConversationFilters.AllUsed | crates/agents-core/src/internal/oai_conversation.rs:134-149 | when a filter delivers more than was prepared, everything prepared is accounted for, in whatever order sources are used up |
| ConversationFilters.FilteredTurn | crates/agents-core/src/run.rs:567-621 | the same over any tracker object: what the turn offers, and offered items and sent contents after it |
| ConversationFilters.FilteredConversation | crates/agents-core/src/run.rs:567-629 | any number of filtered turns with their responses, whose items can be told apart: for every content the original input has left to offer its copies less those any round accounted for, or none once a response had it; what was accounted for or answered is offered exactly as often in every later round; what a round does not offer of the recorded items is known |
| ConversationFilters.SettledNext | crates/agents-core/src/run.rs:567-629 | one round and its response keep that account |
| ConversationFilters.AnsweredTurn | crates/agents-core/src/run.rs:567-629 | one filtered turn and its response over any tracker object keep that account |
| ConversationLimits.RewritingEverything | crates/agents-core/src/internal/oai_conversation.rs:530-555 | when a filter replaces everything by new items, nothing is offered again exactly if the prepared items can be told apart |
| ConversationLimits.FirstTurnComplete | crates/agents-core/src/internal/oai_conversation.rs:287-349 | an unfiltered first turn leaves nothing to offer exactly if copies resolve to their own content |
| ConversationLimits.EmptyKeysMislead | crates/agents-core/src/internal/oai_conversation.rs:539-555 | two different objects with an empty first key are mistaken for each other, so one is offered again although both were delivered |
| FilterMatcher.SourceIndicesAreMaximum | crates/agents-core/src/internal/oai_conversation.rs:375-506 | one slot per filtered item; filled slots are in range and pairwise distinct, and exactly min(prepared, filtered) are filled, through all four passes |
| FilterMatcher.IdentityDecides | crates/agents-core/src/internal/oai_conversation.rs:384-400 | an item that the filter kept is attributed to the next prepared item with its identity, whatever the later passes do |
| FilterMatcher.FingerprintDecides | crates/agents-core/src/internal/oai_conversation.rs:402-421 | an item equal to exactly one unmatched prepared item, and first of its content, is attributed to it |
| MatchingLaws.PassesFollowLaws | crates/agents-core/src/internal/oai_conversation.rs:375-506 | the slots after each of the four passes, told by positions alone: an open item equal to exactly one free prepared item, and first of its content, gets it; then an open item for which exactly one free position lies between the positions of its nearest filled neighbours gets that, given what earlier items got; then the free positions are handed out in order |
| MatchingLaws.LawsDecide | crates/agents-core/src/internal/oai_conversation.rs:375-506 | there is only one list of slots that obeys those laws, so any other order, choice or omission of a pass breaks them |
| MatchingLaws.RewrittenAfterKept | crates/agents-core/src/internal/oai_conversation.rs:423-443 | three prepared items of which the filter drops the first, keeps the second and rewrites the third: the new item is attributed to the third, and the first is the one offered again |
| FilterMatcher.AddressLaw | crates/agents-core/src/internal/oai_conversation.rs:530-555 | which items have no address, which have a block of their own, and which share an empty block |
| FilterMatcher.UnmatchedPreparedCandidates | crates/agents-core/src/internal/oai_conversation.rs:462-506 | the unmatched items strictly between the neighbours, or all unmatched items if there are none between |
| FilterMatcher.DeriveFilteredInputSourceIndices | crates/agents-core/src/internal/oai_conversation.rs:375-460 | the in-place four-pass loop computes the specified slots |
| FilterMatcher.MatchByIdentity | crates/agents-core/src/internal/oai_conversation.rs:384-400 | first pass, in place |
| FilterMatcher.MatchByFingerprint | crates/agents-core/src/internal/oai_conversation.rs:402-421 | second pass, in place |
| FilterMatcher.MatchByGap | crates/agents-core/src/internal/oai_conversation.rs:423-443 | third pass, in place: it looks at neighbours already decided in this pass |
| FilterMatcher.MatchLeftovers | crates/agents-core/src/internal/oai_conversation.rs:445-457 | fourth pass, in place |
| FilterMatcher.BuildFilteredInputIdentityIndex | crates/agents-core/src/internal/oai_conversation.rs:508-520 | the index the loop builds is the specified one |
| FilterMatcher.IdentityIndexCorrect | crates/agents-core/src/internal/oai_conversation.rs:508-520 | every listed position has the identity it is listed under and is listed once, in order |
| FilterMatcher.IdentityIndexComplete | crates/agents-core/src/internal/oai_conversation.rs:508-520 | every item with an identity is listed under it |
| Items.ResponseConversionsAgree | crates/agents-core/src/models/interface.rs:66-104 | converting a response directly and converting its run items gives the same input items when reasoning is preserved, and a part of them when it is omitted |
| Items.ItemConversionsAgree | crates/agents-core/src/models/interface.rs:66-104 | the same for one output item of each kind |
| Items.RunItemsToInputItemsAppend | crates/agents-core/src/internal/items.rs:22-30 | conversion distributes over appending, so turns can be converted separately |
| ItemLaws.SentLaw | crates/agents-core/src/items.rs:186-270 | what is sent for each kind of run item: exactly which JSON members with which values, a tool output with the embedded item; only reasoning can be left out, and only under Omit |
| SessionPersistence.PersistsClosedForm | crates/agents-core/src/internal/session_persistence.rs:50-105 | for every content other than an empty object, with c copies in the callback result, n in the new input and h in the history, exactly min(c, n) + max(0, c - n - h) are persisted, for any callback, any order and any hash |
| SessionPersistence.PersistsInOrder | crates/agents-core/src/internal/session_persistence.rs:50-105 | the persisted items are a subsequence of the prepared items |
| SessionPersistence.PersistsEmptyObjects | crates/agents-core/src/internal/session_persistence.rs:292-357 | if a callback only passes on empty objects it was given, each at most once, as many are persisted as it passed on from the new input |
| SessionPersistence.PersistsMadeEmptyObjects | crates/agents-core/src/internal/session_persistence.rs:50-105 | if instead the callback made all of the empty objects it returns itself, the closed form of `PersistsClosedForm` holds for them too |
| SessionPersistence.HistoryThenNew | crates/agents-core/src/internal/session_persistence.rs:50-105 | a callback that puts the new items behind the history persists the new input as a multiset, empty objects included |
| SessionPersistence.PersistsExactly | crates/agents-core/src/internal/session_persistence.rs:50-105 | which copies are persisted and in which order, for any callback that passes each empty object on at most once: of each content the first n to come back, not the next h, then all others; of the empty objects those of the new input |
| SessionPersistence.HistoryThenNewOrder | crates/agents-core/src/internal/session_persistence.rs:50-105 | in which order: that callback persists the first copies of each content in the history and the new input, as many as the new input has; empty objects of the history do not count |
| SessionPersistence.HistoryThenNewKeepsOrder | crates/agents-core/src/internal/session_persistence.rs:50-105 | new input keeps its order exactly if what the history already has of it, in the order of the history, is its beginning, and the rest of it consists of first copies; without repeated contents exactly if the former holds |
| SessionPersistence.UnknownInputKeepsOrder | crates/agents-core/src/internal/session_persistence.rs:50-105 | any new input keeps its order if the history has none of its contents, other than the empty object |
| SessionPersistence.HistoryThenNewReorders | crates/agents-core/src/internal/session_persistence.rs:50-105 | the order can change: preparing the new input [a, b] on the history [b] persists [b, a] |
| SessionPersistence.PersistedCount | crates/agents-core/src/internal/session_persistence.rs:61-97 | the closed form for the classification loop alone |
| SessionPersistence.ClassifyAllPage | crates/agents-core/src/internal/session_persistence.rs:61-97 | what the four books say about one content depends only on how often it occurs, not on what lies between |
| SessionPersistence.SeedingStrips | crates/agents-core/src/internal/session_persistence.rs:292-357 | stripping undoes seeding |
| SessionPersistence.SeedingSeeds | crates/agents-core/src/internal/session_persistence.rs:292-335 | seeding gives every empty object an identity of its own, in order |
| SessionPersistence.SeedEmptyJsonObjectIdentity | crates/agents-core/src/internal/session_persistence.rs:292-315 | the in-place loop mints the specified identities |
| SessionPersistence.BuildReferenceMap | crates/agents-core/src/internal/session_persistence.rs:164-178 | the loop builds the specified reference queues |
| SessionPersistence.BuildFrequencyMap | crates/agents-core/src/internal/session_persistence.rs:205-215 | the loop builds the specified counts |
| SessionPersistence.ClassifyCombined | crates/agents-core/src/internal/session_persistence.rs:61-97 | the loop over both reference maps and both counters persists the specified items |
| SessionPersistence.PrepareInput | crates/agents-core/src/internal/session_persistence.rs:13-117 | the whole preparation, with and without a callback, including a failing callback |
| SessionPersistence.SaveResultToSession | crates/agents-core/src/internal/session_persistence.rs:119-141 | the session grows by the original input and the converted new items, and the count is what was added |
| SessionPersistence.RunWithoutCallback | crates/agents-core/src/internal/session_persistence.rs:106-119 | any number of runs without a callback, each prepared from what the earlier ones stored and then saved: the store is the input and the results of every run, once and in order, and each run works on the store before it followed by its own input |
| SessionPersistence.NoCallback | crates/agents-core/src/internal/session_persistence.rs:50-119 | leaving the callback out prepares what the history-then-new callback prepares and persists the same items, in the order of the input |
| ReplayItems.SanitizeTwice | crates/agents-core/src/internal/items.rs:57-161 | removing orphaned hosted items a second time removes nothing |
| ReplayItems.SanitizeCleans | crates/agents-core/src/internal/items.rs:57-161 | afterwards every output has its call and every completed call its output; and only such a list is left unchanged |
| ReplayItems.PairingStays | crates/agents-core/src/internal/items.rs:77-121 | deleting what is not kept leaves the stack matching of the anonymous items that are kept as it was |
| ReplayItems.IdsStay | crates/agents-core/src/internal/items.rs:123-161 | what a kept item with a call id needs is kept too |
| ReplayItems.PlainItemsStay | crates/agents-core/src/internal/items.rs:57-161 | all items that are not hosted stay, in order |
| ReplayItems.HostedPairingInfo | crates/agents-core/src/internal/items.rs:77-121 | the stack loop finds the call ids, the output ids, and the anonymous items that a balanced stretch pairs up |
| ReplayItems.SanitizeHostedToolReplayItems | crates/agents-core/src/internal/items.rs:57-65 | the filter over the pairing keeps the specified items |
| ReplayItems.OverlapIsLargest | crates/agents-core/src/internal/items.rs:186-206 | the overlap is the longest suffix of the base that is a prefix of the generated items and carries a stable key; without a key it is empty |
| ReplayItems.SpliceKeepsBoth | crates/agents-core/src/internal/items.rs:45-55 | for a consistent base the base is a prefix and the generated items are a suffix of the replay |
| ReplayItems.SpliceKeepsGenerated | crates/agents-core/src/internal/items.rs:45-55 | for every base: what is left of it is a prefix, and the generated items are a suffix exactly if what is left of the base still ends as the base does where the two overlap |
| ReplayItems.SpliceCanLose | crates/agents-core/src/internal/items.rs:45-55 | base and generated items [orphaned shell output]: the generated item is lost |
| ReplayItems.SpliceTwice | crates/agents-core/src/internal/items.rs:45-55 | splicing the same items again repeats nothing if one of them is keyed, and repeats all of them if none is |
| ReplayItems.ComposeTwice | crates/agents-core/src/internal/items.rs:45-55 | for a consistent base, composing again changes nothing exactly if the replay is consistent, given a keyed item among the generated ones, and otherwise exactly if cleaning takes the replay back to the base |
| ReplayItems.KeyedCanVanish | crates/agents-core/src/internal/items.rs:45-55 | an orphaned shell output has a key, and composing it again removes it |
| ReplayItems.UnkeyedCanStay | crates/agents-core/src/internal/items.rs:45-55 | a loose tool search output has no key, and composing it again changes nothing |
| ReplayItems.ComposeReplayInputItems | crates/agents-core/src/internal/items.rs:45-55 | the method builds the specified replay |
| ReplayLaws.ReplayLaw | crates/agents-core/src/internal/items.rs:45-243 | the replay in terms of JSON members and positions: all items of the base but completed calls and outputs that have no partner, then the generated items behind the longest beginning the base already ends with, provided that one of those is typed, no message, and has an id or a call id |
| ReplayLaws.KeepLaw | crates/agents-core/src/internal/items.rs:123-184 | which item stays, by its members: every item but a completed call that no output shares its name with, an output that no call shares its name with, and of the search items without a name those without a partner, which is an output behind a call with a balanced stretch between them |
| StrictSchema.NodeStrict | crates/agents-core/src/strict_schema.rs:26-145 | every object inside a successful result: `required` is the sorted property names, objects are closed, no `oneOf`, no one-element `allOf`, no null default, no `$ref` beside other keys that could still be expanded |
| StrictSchema.EnsureTwice | crates/agents-core/src/strict_schema.rs:26-145 | the rewrite is idempotent wherever it succeeds, and it leaves a node unchanged exactly if the node is strict |
| SchemaLaws.NodeLaw | crates/agents-core/src/strict_schema.rs:26-145 | what a successful rewrite makes of any node, member by member: definitions, properties, items and alternatives rewritten in turn, `oneOf` behind `anyOf`, objects closed, all properties required, a null default dropped, a one-element `allOf` taken in with its members winning, a reference with siblings replaced by its target with the siblings winning, everything else kept |
| SchemaFaults.FaultLaw | crates/agents-core/src/strict_schema.rs:26-145 | how the rewrite of any node ends, error by error: with the first fault among its definitions in the order of their names, then because it is left open, then with the first fault among properties, items, `anyOf`, `oneOf` and `allOf`, then with the fault of the node it becomes, or because its reference leads nowhere; and without a fault otherwise |
| SchemaFaults.OtherNodes | crates/agents-core/src/strict_schema.rs:26-29 | a schema that is no object is left as it is |
| SchemaFaults.RefLaw | crates/agents-core/src/strict_schema.rs:147-154 | a reference leads to what its names, cut at the slashes behind "#/", lead to from the root, one object after the other, and any other text leads nowhere |
| StrictSchema.NamesAllIs | crates/agents-core/src/strict_schema.rs:58-68 | only one list is an ascending list of exactly the property names |
| SchemaLaws.BeforeLaw | crates/agents-core/src/strict_schema.rs:58-68 | ascending by the first character in which two names differ, or by being its beginning |
| StrictSchema.NodeFixed | crates/agents-core/src/strict_schema.rs:26-145 | a strict node is a fixed point at every depth |
| StrictSchema.NodeEnds | crates/agents-core/src/strict_schema.rs:26-145 | when every `$ref` stands alone and is not the only element of an `allOf`, the rewrite ends, whatever the references lead to, within a bound computed from the schema; references still stand alone and the result weighs no more |
| StrictSchema.AgainLighter | crates/agents-core/src/strict_schema.rs:100-111 | re-entering after a one-element `allOf` was merged strictly lowers the measure |
| StrictSchema.NodeMonotone | crates/agents-core/src/strict_schema.rs:26-145 | a result does not depend on how deep the recursion was allowed to go |
| StrictSchema.EnsureStrict | crates/agents-core/src/strict_schema.rs:14-24 | the entry point on such schemas: a strict result or the open-object error; and repeating it is harmless exactly if the schema was empty or has a member that the rewrite does not drop |
| ReferenceRanks.RankedEnds | crates/agents-core/src/strict_schema.rs:26-145 | references with siblings too: if references have ranks such that within the target of each only references of lower rank are expanded, by siblings or by a one-element `allOf`, the rewrite of every node that expands ranked references only ends, with the same outcome from some depth on |
| ReferenceRanks.RankedSchemaIsStrict | crates/agents-core/src/strict_schema.rs:14-24 | a whole schema of this kind becomes strict or is refused |
| ReferenceRanks.Expansion | crates/agents-core/src/strict_schema.rs:125-142 | an expanded reference goes on with a node that expands only references below its rank, and is no reference itself |
| ReferenceRanks.MergeIsMerged | crates/agents-core/src/strict_schema.rs:99-111 | a node that took in its one-element `allOf` has strict members only, so that nothing but its own reference can still be expanded |
| ReferenceRanks.DescribedReferenceEnds | crates/agents-core/src/strict_schema.rs:197-222 | the schema of a property that refers to a definition and has a sibling is such a schema |
| StrictSchema.EmptiedExactly | crates/agents-core/src/strict_schema.rs:26-145 | nothing is left of a schema that is rewritten exactly if it has only a null default, a `oneOf` that is no list, and an `allOf` that is no list or has one element which is no object or leaves nothing itself; with or without references |
| StrictSchema.EmptiedSchemaIsNotKept | crates/agents-core/src/strict_schema.rs:15-24 | each of these non-empty schemas is rewritten to the empty object, which the next call replaces by the empty object schema |
| StrictSchema.CycleNeverEnds | crates/agents-core/src/strict_schema.rs:125-142 | a `$ref` with siblings, none of them a schema keyword, whose target has one property only, leading back to it, is never finished |
| StrictSchema.CyclesNeverSucceed | crates/agents-core/src/strict_schema.rs:125-142 | any set of `$ref` nodes with a sibling that the rewrite keeps, schema keywords included, and without `allOf`, in which the target of each holds one of the set anywhere below a member that the siblings do not replace, is never rewritten: at every depth the rewrite is still going on or has been refused |
| StrictSchema.LinkExpanded | crates/agents-core/src/strict_schema.rs:120-142 | once its members are rewritten such a node is expanded, and the members of the target that its siblings do not replace are part of the result |
| StrictSchema.ListSchemaNeverEnds | crates/agents-core/src/strict_schema.rs:125-154 | a concrete such schema: a linked list |
| StrictSchema.LinkResolves | crates/agents-core/src/strict_schema.rs:147-154 | the reference of that schema resolves to the node that holds it |
| StrictSchema.SplitFirst | crates/agents-core/src/strict_schema.rs:147-154 | splitting a reference at its slashes, segment by segment |
| StrictSchema.RewriteNode | crates/agents-core/src/strict_schema.rs:26-145 | the recursive in-place rewrite computes the specified outcome |
| StrictSchema.RewriteMembers | crates/agents-core/src/strict_schema.rs:31-116 | the visits to the members, in order, stopping at the first error |
| StrictSchema.RewriteValues | crates/agents-core/src/strict_schema.rs:31-41 | the loop over a map of schemas |
| StrictSchema.RewriteElements | crates/agents-core/src/strict_schema.rs:80-98 | the loop over a list of schemas |
| StrictSchema.CloseNode | crates/agents-core/src/strict_schema.rs:43-68 | closing an object and requiring all its properties |
| StrictSchema.FillNode | crates/agents-core/src/strict_schema.rs:70-98 | putting rewritten members back and folding `oneOf` into `anyOf` |
| StrictSchema.ConcludeNode | crates/agents-core/src/strict_schema.rs:100-142 | merge and start again, or drop the null default and expand the reference |
| RealtimeSession.CopiesAgree | crates/agents-realtime/src/session.rs:262-293 | after every history of updates and newly attached drivers from the start: session and driver copies are in step, the session copy is settled, and after an update with a driver both copies are equal |
| RealtimeSession.UpdateKeepsStep | crates/agents-realtime/src/session.rs:262-293 | one update keeps them in step, although the driver merges a value that is already merged |
| RealtimeSession.SessionIgnoresDrivers | crates/agents-realtime/src/session.rs:262-293 | the session copy depends on the updates alone, not on when drivers came |
| RealtimeLaws.HistoryLaw | crates/agents-realtime/src/session.rs:262-293 | any history: what one more update makes of every single setting, flat and nested, marker or value, field by field of every record; the driver then holds the same as the session, and without settings in the update nothing that is held changes |
| RealtimeLaws.MergeLaw | crates/agents-realtime/src/config.rs:382-518 | merging any two settings, settled or not, member by member: flat and nested values and markers, and how flat output members reach the nested ones |
| RealtimeSession.Session.UpdateAgent | crates/agents-realtime/src/session.rs:262-293 | the update through both objects |
| RealtimeSession.Session.AttachModelDriver | crates/agents-realtime/src/session.rs:135-137 | a new driver replaces the old one and the session copy stays |
| RealtimeSession.ModelDriver.UpdateSession | crates/agents-realtime/src/openai_realtime.rs:395-412 | the driver merges, normalises, drops the clear markers and takes the model name |
| RealtimeSettings.MergeAbsorbs | crates/agents-realtime/src/config.rs:382-639 | merging the normalised merge again changes nothing, for any update and any settled settings: the law the two copies rest on |
| RealtimeSettings.NormalizeTwice | crates/agents-realtime/src/config.rs:520-623 | normalising is idempotent |
| RealtimeSettings.PersistSettles | crates/agents-realtime/src/config.rs:520-639 | what is persisted has equal flat and nested values and no clear marker |
| RealtimeSettings.SettledStays | crates/agents-realtime/src/config.rs:520-639 | settled settings are a fixed point of persisting |
| RealtimeSettings.MergeSelf | crates/agents-realtime/src/config.rs:382-639 | settled settings absorb themselves |
| RealtimeSettings.MergeSettings | crates/agents-realtime/src/config.rs:382-518 | the field-by-field method computes the specified merge |
| RealtimeSettings.NormalizeSettings | crates/agents-realtime/src/config.rs:520-623 | the field-by-field method computes the specified normal form |
| RealtimeSettings.FlatVoiceWins | crates/agents-realtime/src/config.rs:478-515 | a flat voice in an update wins over every earlier value |
| RealtimeSettings.FlatInputFormatWins | crates/agents-realtime/src/config.rs:478-515 | a flat input format in an update wins exactly if the update does not clear it and its nested value, or else the earlier value, is none or the same: input fields are not mirrored as output fields are |
| RealtimeSettings.InputFormatMerges | crates/agents-realtime/src/config.rs:382-623 | the effect of an update on an input channel, case by case |
| RealtimeSettings.VoiceMerges | crates/agents-realtime/src/config.rs:382-623 | the effect of an update on an output channel |
| HandoffHistory.SummaryRoundTrip | crates/agents-core/src/handoff/history.rs:96-203 | extracting from the built summary gives back the transcript with text items as messages, for every transcript of readable entries, the empty one included |
| HandoffHistory.LineRoundTrips | crates/agents-core/src/handoff/history.rs:125-203 | a printed line is read back as it was exactly if the role has no colon and role and content are trimmed and the content is not empty |
| HandoffHistory.LineReads | crates/agents-core/src/handoff/history.rs:187-203 | what a printed line without a colon in its role is read back as: nothing if the content is blank, else role and content trimmed |
| HandoffHistory.EntriesPrintAlike | crates/agents-core/src/handoff/history.rs:96-148 | the transcript that was read back prints the same summary again |
| HandoffHistory.RenestingFlattens | crates/agents-core/src/handoff/history.rs:54-94 | nesting a history that starts with a summary extends the flat transcript instead of nesting the summary, and with nothing new reproduces it |
| HandoffHistory.DefaultExtractNeverPanics | crates/agents-core/src/handoff/history.rs:166-177 | with the default wrappers no item makes the extraction slice out of range |
| HandoffHistory.PanicsExactly | crates/agents-core/src/handoff/history.rs:166-177 | for any wrappers: some text makes the slice run backwards exactly if the end marker fits into the start marker, or continues it, from some later character on without fitting at its beginning |
| HandoffHistory.MarkersCanOverlap | crates/agents-core/src/handoff/history.rs:166-177 | a pair of wrappers and a text for which it does |
| HandoffHistory.TextNeverPanics | crates/agents-core/src/handoff/history.rs:166-177 | a simple sufficient check: the end marker is not empty and starts with a character that the start marker has only in first place, if at all |
| HandoffHistory.BuildNeverPanics | crates/agents-core/src/handoff/history.rs:54-94 | so nesting always returns, for any mapper |
| HandoffHistory.DecimalParses | crates/agents-core/src/handoff/history.rs:187-203 | line numbers are read back as they were written |
| HandoffLaws.NestLaw | crates/agents-core/src/handoff/history.rs:54-94 | what the next agent gets: the mapped transcript or one summary of it, where the transcript is the unfolded history and all converted items; the earlier and new items without tool calls, tool outputs and reasoning; or nothing if reading the history fails |
| HandoffLaws.PrintLaw | crates/agents-core/src/handoff/history.rs:125-156 | how each kind of item is written |
| HandoffLaws.SummaryLaw | crates/agents-core/src/handoff/history.rs:96-123 | the text of a summary: the markers, and between them one numbered line for each item or the line that there are none |
| HandoffLaws.ParseLaw | crates/agents-core/src/handoff/history.rs:187-203 | how any line is read, printed or not: behind its number if it starts with one and a full stop, up to its first colon, and not at all without one or with nothing behind it |
| HandoffLaws.NumberLaw | crates/agents-core/src/handoff/history.rs:187-191 | which texts count as a line number: digits with an optional plus sign that fit into 64 bits |
| HandoffLaws.ParseLinesLaw | crates/agents-core/src/handoff/history.rs:178-184 | of several lines those are read that can be, in order |
| HandoffLaws.LinesLaw | crates/agents-core/src/handoff/history.rs:178-184 | the lines of a text joined give the text again, up to a final line break |
| HandoffLaws.TrimLaw | crates/agents-core/src/handoff/history.rs:178-203 | trimming takes the white space off both ends and nothing else |
| HandoffLaws.ReadLaw | crates/agents-core/src/handoff/history.rs:178-184 | a line is read as it is when trimmed |
| HandoffLaws.ExtractLaw | crates/agents-core/src/handoff/history.rs:166-184 | which items hold a summary, and which part of their content is read: between the first start marker and the first end marker, if that is behind it |
| ToolExecution.PrefixLaw | crates/agents-core/src/internal/tool_execution.rs:42-341 | outputs and results answer a prefix of the calls, one to one and in order; there is an interruption exactly if a call is left, and it names the first of those |
| ToolExecution.InvokedOnlyWhenSanctioned | crates/agents-core/src/internal/tool_execution.rs:91-151 | a tool is invoked only for a call of that prefix, and one that needs approval only under an approved record matching in call id, tool name, arguments and namespace |
| ToolExecution.PausesAtFirstUnapproved | crates/agents-core/src/internal/tool_execution.rs:91-151 | without a decision the prefix ends at the first call whose tool needs approval |
| ToolExecution.ExecuteLocalFunctionTools | crates/agents-core/src/internal/tool_execution.rs:27-341 | the loop with its breaks, continues and errors computes the specified outcome |
| ToolExecution.RunWithGuardrails | crates/agents-core/src/internal/tool_execution.rs:153-256 | one tool between its guardrails computes the specified output |
| ToolExecution.RunInputGuardrails | crates/agents-core/src/internal/tool_execution.rs:153-180 | the guardrail loop: the last rejection counts, a trip or an error ends it |
| ToolExecution.RunOutputGuardrails | crates/agents-core/src/internal/tool_execution.rs:226-256 | the guardrail loop over the output, which a rejection replaces |
| ToolLaws.CallsLaw | crates/agents-core/src/internal/tool_execution.rs:42-341 | what every call of a response comes to, by index into the lists of tools and guardrails: the first tool with its name and namespace; the rejection text, a pause or the approval that names this call; the last rejecting input guardrail or the tool; each output guardrail asked about what the ones before it left; the first guardrail that raises or breaks fails the run |
| ToolLaws.InvokedWasAllowed | crates/agents-core/src/internal/tool_execution.rs:91-183 | a tool is invoked only for a call that every one of its input guardrails allows and, if it needs an approval, that the decision approves |
| ToolLaws.RejectionAnswers | crates/agents-core/src/internal/tool_execution.rs:153-256 | if some input guardrail rejects and none raises or breaks, the call is answered by the message of the last one that rejects, as the output guardrails leave it |
| RunState.DecisionFound | crates/agents-core/src/run_state.rs:332-348 | a decision recorded under the approval id or the call id is found under either |
| RunState.RunState.ApproveForTool | crates/agents-core/src/run_state.rs:223-243 | the recorded approval and nothing else changes |
| RunState.RunState.RejectForTool | crates/agents-core/src/run_state.rs:249-269 | the recorded rejection and nothing else changes |
| RunState.RunState.ClearInterruption | crates/agents-core/src/run_state.rs:294-296 | only the pending step goes |
| RunState.RunState.ExtendGeneratedItems | crates/agents-core/src/run_state.rs:196-201 | items are appended |
| RunState.RunState.MergePrevious | crates/agents-core/src/run.rs:1721-1795 | the previous state in front, and the budget of the resumed part kept |
| RunLoop.ChainBudget | crates/agents-core/src/run.rs:1214-1231 | along every chain of a run and its resumes the recorded turn is the number of responses and never exceeds the first budget, each state adds a turn, and the budget shrinks by the turns of all earlier states, so that k resumes need k(k+1)/2 turns |
| RunLoop.ResumeCounts | crates/agents-core/src/run.rs:1009-1106 | one resume: at least one and at most the remaining number of model calls, and the recorded budget becomes the remaining one |
| RunLoop.LoopCounts | crates/agents-core/src/run.rs:555-841 | a run makes at most as many model calls as its budget, and at least one if it does not fail |
| RunLoop.FirstRunCounts | crates/agents-core/src/run.rs:938-971 | a first run starts such a chain |
| RunLoop.RemainingAfterResume | crates/agents-core/src/run.rs:1721-1735 | how many turns a resume leaves: the budget less the turns taken before it and once more less all turns taken; so a resume loses turns unless none are left |
| RunLoop.RunTurn | crates/agents-core/src/run.rs:631-828 | what follows one response: final output, pause, error, or another turn |
| RunLoop.RunItems | crates/agents-core/src/run.rs:555-841 | the turn loop computes the specified record of inputs, responses and items |
| RunLoop.ResumeRun | crates/agents-core/src/run.rs:1009-1281 | resuming with every refusal, the pending call, the rest of the run and the merged state |
| RunLoop.RunOnFrom | crates/agents-core/src/run.rs:1214-1281 | the run that follows a resumed call |
| RunLoop.SaveState | crates/agents-core/src/run.rs:938-971 | the state a run leaves |
| RunLaws.LoopLaw | crates/agents-core/src/run.rs:555-841 | a run told turn by turn: the k-th input is the history and all that was recorded before, the k-th response is the model's answer to it, recorded are the conversions of the responses in order, each followed by its tool outputs, and the run ends for the one reason that its last response gives, or because its budget is spent |
| RunLoop.CallsPush | crates/agents-core/src/internal/tool_execution.rs:358-376 | the calls of a response are its tool calls, in order |
| RunLaws.ResumeLaw | crates/agents-core/src/run.rs:1009-1231 | a resume is refused for the first reason that applies, each with its condition; otherwise the latest recorded call with the pending id is answered as the decision says and the run goes on |
| RunLaws.RunOnLaw | crates/agents-core/src/run.rs:1214-1281 | the state after the rest of the run: turns, responses and items behind the earlier ones, and the budget of the rest |
| RunLaws.MergedLaw | crates/agents-core/src/run.rs:1721-1795 | every field of the state that two halves of a run are merged to |
| RunLaws.ResumeInputLaw | crates/agents-core/src/run_state.rs:314-322 | what a resumed run starts from |
| RunLaws.DecidedLaw | crates/agents-core/src/run_state.rs:223-269 | a decision by either id of the pending call is recorded under its approval id, any other under the id given, and nothing else changes |
| PauseResume.SessionIsUninterrupted | crates/agents-core/src/run.rs:1009-1281 | under the Preserve policy, for consistent input that does not end with keyed items which the run generates again, when the responses of the run without interruption need approvals for last calls only: a session with any number of pauses, each approved and resumed, gives the model the first inputs of the run without interruption; it ends with an output, and then in all respects as that run does, exactly if that run does, there is an approval for every pause, and on each leg the first budget less the turn counts of all pauses so far covers the turns to the next pause or the end |
| PauseResume.ApprovedRunIsUninterrupted | crates/agents-core/src/run.rs:1144-1281 | the same from any paused state, with the first inputs from there on and the same exact condition on approvals and turns |
| PauseResume.ApprovalsCanCostTheEnd | crates/agents-core/src/run.rs:1721-1754 | with three turns of which the first two ask for an approval and a budget of three, the run without interruption ends, and no number of approvals ends the session |
| PauseResume.FirstLeg | crates/agents-core/src/run.rs:555-841 | where a run pauses in the run without interruption, and that it ends before only if its budget does |
| PauseResume.LastsMeans | crates/agents-core/src/run.rs:1721-1754 | taking the budget leg by leg comes to the sums of the turn counts of the pauses |
| PauseResume.ResumeApproved | crates/agents-core/src/run.rs:1144-1231 | resuming an approved call is running it and continuing with its output, or failing with the error of the tool |
| PauseResume.ResumeRejected | crates/agents-core/src/run.rs:1144-1231 | resuming a rejected call is continuing with the reason as its output, without running the tool |
| PauseResume.LoopsAgree | crates/agents-core/src/run.rs:555-841 | until it pauses a run is the uninterrupted run |
| PauseResume.LoopShift | crates/agents-core/src/run.rs:574-578 | a run that starts from earlier items as history equals one that starts from them as generated items |
| PauseResume.ReplayIsExact | crates/agents-core/src/run_state.rs:314-322 | the input of a resumed run is the original input followed by all generated items exactly if the original input is consistent and overlaps with nothing generated |
| PauseResume.EarlierReplaysExactly | crates/agents-core/src/run_state.rs:314-322 | what holds of all generated items in this respect held of the earlier ones |
| PauseResume.PlainReplaysExactly | crates/agents-core/src/run_state.rs:314-322 | the condition holds for input without hosted or keyed items, whatever is generated |
| PauseResume.PendingMustBeLast | crates/agents-core/src/run.rs:1159-1188 | resuming gives the next call the uninterrupted input exactly if the pending call was the last of its response: later calls are never run |
| PauseResume.ExecutionsAgree | crates/agents-core/src/internal/tool_execution.rs:42-341 | pausing at the last call and then allowing it gives the items of running all calls |
| PauseResume.FindsLastCall | crates/agents-core/src/internal/tool_execution.rs:410-429 | the pending call is found again among the generated items |
| PauseResume.DecisionNeedsToolName | crates/agents-core/src/run.rs:1170-1183 | a decision about the pending call, under either of its ids, approving or not, is refused as not bound exactly if it does not carry the name of the call's tool; one recorded without a name never does |
| Compaction.AdditionsBounded | crates/agents-openai/src/memory.rs:390-401 | after every sequence of additions at most max(threshold, 1) candidates are left, and the stored items are everything ever added less the oldest candidates, up to sanitising |
| Compaction.RetainsMeans | crates/agents-openai/src/memory.rs:277-318 | so every user item and every marker ever added is there in order, and the candidates left are the latest ones |
| Compaction.CompactedRetains | crates/agents-openai/src/memory.rs:277-318 | one compaction keeps that relation and says how many more candidates go |
| CompactionLaws.CompactionLaw | crates/agents-openai/src/memory.rs:277-318 | one compaction by JSON members and positions: texts, items with the user role and earlier markers stay, and of the other items the last half of the threshold, at least one; every item that is left loses exactly the two session members |
| CompactionLaws.AddLaw | crates/agents-openai/src/memory.rs:390-401 | one addition: all items, or the compaction of all of them, exactly when |
| CompactionLaws.AdditionsLaw | crates/agents-openai/src/memory.rs:390-401 | after any additions the store holds, in order, everything that stays for good and the latest other items, up to those two members |
| CompactionLaws.MarkedLaw | crates/agents-openai/src/memory.rs:320-335 | a compaction by response id leaves exactly what stays for good, without its session members |
| CompactionLaws.MarkerLaw | crates/agents-openai/src/memory.rs:336-344 | the five members of the marker it adds |
| CompactionLaws.RequestLaw | crates/agents-openai/src/memory.rs:471-494 | which mode a request names, which names are refused, and which response a later automatic compaction will not go by |
| Compaction.DropOldest | crates/agents-openai/src/memory.rs:294-314 | the rebuild drops the oldest candidates and nothing else |
| Compaction.CandidateIndices | crates/agents-openai/src/memory.rs:279-285 | the positions of all candidates, in order |
| Compaction.ResolveMode | crates/agents-openai/src/memory.rs:353-373 | Auto becomes a previous-response compaction exactly if there is a response id, storing is not off, and the response was not the last unstored one |
| Compaction.MarkerIsMarker | crates/agents-openai/src/memory.rs:320-351 | the marker that a compaction writes is recognised and protected, and sanitising leaves it as it is |
| Compaction.CompactionSession.AddItems | crates/agents-openai/src/memory.rs:390-401 | adding keeps the invariant and, outside previous-response mode, the bound |
| Compaction.CompactionSession.CompactWithForce | crates/agents-openai/src/memory.rs:277-318 | compacting in place |
| Compaction.CompactionSession.CompactToPreviousResponseId | crates/agents-openai/src/memory.rs:320-351 | nothing below the threshold; otherwise the protected items and one marker |
| Compaction.CompactionSession.RunCompaction | crates/agents-openai/src/memory.rs:471-522 | both errors exactly when they arise, which mode is taken, and items, markers and the three response ids afterwards in every case, forced or not |
| Compaction.CompactionSession.LoadConversationState | crates/agents-openai/src/memory.rs:426-446 | which response id is loaded: the deferred or else the current one, never in Input mode and never the unstored one |
| Compaction.CompactionSession.SaveConversationState | crates/agents-openai/src/memory.rs:448-466 | what is saved is what is loaded next |
| EventLog.RunKeeps | crates/agents-core/src/internal/streaming.rs:48-143 | the invariant holds after every interleaving of any number of writers and readers |
| EventLog.OutputsArePrefixes | crates/agents-core/src/result.rs:212-231 | every reader has put out a prefix of the log: nothing is skipped, repeated or reordered |
| EventLog.ParkedWillWake | crates/agents-core/src/internal/streaming.rs:48-59 | a reader parked on an old revision has a wake-up delivered, or a writer is about to notify |
| EventLog.ParkedHasReadAll | crates/agents-core/src/result.rs:212-231 | when all writers are idle, a reader parked on the revision of its last look has read the whole log and the run is not complete |
| EventLog.PastLookHasRead | crates/agents-core/src/result.rs:212-231 | after every interleaving, a reader past its look, waiting or finished, has put out the log as its last look found it; so it has everything exactly if nothing was appended after that look |
| EventLog.LookAfterLastEvent | crates/agents-core/src/result.rs:212-231 | a reader that has still to look when the last event is there has the whole log whenever it is past a look, whatever happens in between |
| EventLog.FinishedOnlyWhenComplete | crates/agents-core/src/result.rs:212-231 | a reader finishes only when the run is complete |
| EventLog.ReaderCatchesUp | crates/agents-core/src/result.rs:212-231 | from any reachable state with idle writers, a reader that is about to look or waits on an old revision comes by its own steps to have put out the whole log, finished exactly if the run is complete and else waiting for the next change |
| EventLog.ReaderCanMissTheEnd | crates/agents-core/src/result.rs:216-225 | an interleaving after which the run is complete and announced, and a reader is parked for good with nothing read |
| EventLog.ReaderCanFinishEarly | crates/agents-core/src/result.rs:216-225 | an interleaving after which a reader finishes without the last event |

## Left out

Not modelled:

- Network, HTTP, SQLite, sandbox, MCP, audio, hooks, tracing, usage counters, model providers.
- Handoffs inside the turn loop, input and output guardrails of a whole run, the handler for an exhausted
  budget, and the input filter, session and tracker inside the turn loop: the tracker's turns, the session's
  preparation and the replay are modelled on their own.
- Tool-use behaviour other than running the model again; resuming does not consult it.
- Guardrail result records, and the model calls of a resume that ends in an error.
- Rewinding, registering filtered sources and marking without sources in the tracker: only the
  repository's own tests call them.
- The payloads that the realtime driver sends, connecting, and events other than settings.
- Popping and clearing sessions, storage errors, the HTTP request of a compaction (its summary text is a parameter).
- What a schema accepts: merging a one-element `allOf` overwrites keys of the parent.
- Liveness of stream readers, which does not hold (`ReaderCanMissTheEnd`).

Represented differently:

- Addresses of heap blocks are tags that are never reused; the original could reuse the address of a freed block.
- Fingerprints and serialised keys are the items themselves; the hash in the session bookkeeping is an
  arbitrary function; UUIDs are fresh numbers.
- JSON objects are maps, as the original keeps their keys sorted; the order of keys is modelled where it
  shows, in `required` and in an item's first key.
- JSON text is an arbitrary function `render`; the history wrappers are a parameter instead of a global.
- Speeds and thresholds are real numbers, never NaN; revision and turn counters do not wrap.
- The schema rewrite takes a depth bound, because a `$ref` cycle would not end; `NodeMonotone`, `NodeEnds` and
  `RankedEnds` say when the bound does not matter.
- The event log is a state machine over atomic steps instead of a class; locks that guard a single step are that step.
- A state's reasoning policy is always Preserve after a run, because the original never copies it there.

Stated weaker than one might wish:

- SessionPersistence.PersistsClosedForm: leaves out empty objects, whose provenance is a minted identity; `PersistsEmptyObjects` covers callbacks that pass them on and `PersistsMadeEmptyObjects` those that make them anew, but no theorem covers a callback that does both.
- StrictSchema.NodeEnds: not for a `$ref` with siblings, of which some never end by `CycleNeverEnds`, nor for one that is the only element of an `allOf`, because merging it may give it siblings; `RankedEnds` covers both, without the bound on the depth.
- PauseResume.SessionIsUninterrupted: only for runs in whose responses no other than the last call needs an approval, by `PendingMustBeLast`, and for input that is consistent and not generated again, by `ReplayIsExact`.
- StrictSchema.CyclesNeverSucceed: says that such a schema never succeeds, not that it never ends, because another part of it may be refused first; and leaves out cycles through a one-element `allOf`.
- ConversationTurns.RunConversation: only for deliveries whose copies resolve to their own content, by `FirstTurnComplete`; with no tracked response ids.
- RunState.DecisionFound: reasons are carried along but nothing depends on them.
