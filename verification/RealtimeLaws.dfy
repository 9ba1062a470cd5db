/** What the session holds after any history of updates, setting by setting. */
module RealtimeLaws {
  import opened Items
  import opened RealtimeSettings
  import opened RealtimeSession

  // ---- one setting ----

  predicate Latest<T(==)>(before: Option<T>, update: Option<T>, after: Option<T>) {
    if update.Some? then after == update else after == before
  }

  function InputGiven(s: Settings): Option<AudioInput> { if s.audio.Some? then s.audio.value.input else None }

  function OutputGiven(s: Settings): Option<AudioOutput> { if s.audio.Some? then s.audio.value.output else None }

  /** An input setting: clearing counts most, then the nested value of the update, then what was in effect, and
      the flat value of the update only where there was nothing. */
  predicate InputChosen<T(==)>(cleared: bool, nested: Option<T>, flat: Option<T>, before: Option<T>, after: Option<T>) {
    && (cleared ==> after == None)
    && (!cleared && nested.Some? && before.None? ==> after == nested)
    && (!cleared && nested.None? && before.Some? ==> after == before)
    && (!cleared && nested.None? && before.None? ==> after == flat)
    && (!cleared && nested.Some? && before.Some? ==> after.Some?)
  }

  /** An output setting: the flat member of the update counts before the nested one. */
  predicate OutputChosen<T(==)>(clearFlat: bool, flat: Option<T>, clearNested: bool, nested: Option<T>,
                                before: Option<T>, after: Option<T>) {
    && (clearFlat ==> after == None)
    && (!clearFlat && flat.Some? ==> after == flat)
    && (!clearFlat && flat.None? && clearNested ==> after == None)
    && (!clearFlat && flat.None? && !clearNested && nested.Some? ==> after == nested)
    && (!clearFlat && flat.None? && !clearNested && nested.None? ==> after == before)
  }

  predicate TranscriptionUpdated(before: Transcription, update: Transcription, after: Transcription) {
    && Latest(before.language, update.language, after.language) && Latest(before.model, update.model, after.model)
    && Latest(before.prompt, update.prompt, after.prompt)
  }

  predicate TurnDetectionUpdated(before: TurnDetection, update: TurnDetection, after: TurnDetection) {
    && Latest(before.kind, update.kind, after.kind)
    && Latest(before.createResponse, update.createResponse, after.createResponse)
    && Latest(before.eagerness, update.eagerness, after.eagerness)
    && Latest(before.interruptResponse, update.interruptResponse, after.interruptResponse)
    && Latest(before.prefixPaddingMs, update.prefixPaddingMs, after.prefixPaddingMs)
    && Latest(before.silenceDurationMs, update.silenceDurationMs, after.silenceDurationMs)
    && Latest(before.threshold, update.threshold, after.threshold)
    && Latest(before.idleTimeoutMs, update.idleTimeoutMs, after.idleTimeoutMs)
    && Latest(before.modelVersion, update.modelVersion, after.modelVersion)
  }

  predicate TracingUpdated(before: Option<Tracing>, update: Option<Tracing>, after: Option<Tracing>) {
    if before.None? || update.None? then Latest(before, update, after)
    else
      && after.Some? && Latest(before.value.workflowName, update.value.workflowName, after.value.workflowName)
      && Latest(before.value.groupId, update.value.groupId, after.value.groupId)
      && Latest(before.value.metadata, update.value.metadata, after.value.metadata)
  }

  // ---- all settings ----

  /** Both places of every setting hold the same, there are no markers and no empty records. */
  predicate Agrees(s: Settings) {
    && !s.clearVoice && !s.clearSpeed && !s.clearInputFormat && !s.clearOutputFormat
    && !s.clearTranscription && !s.clearNoiseReduction && !s.clearTurnDetection
    && (InputGiven(s).None? <==>
          s.inputFormat.None? && s.transcription.None? && s.noiseReduction.None? && s.turnDetection.None?)
    && (OutputGiven(s).None? <==> s.outputFormat.None? && s.voice.None? && s.speed.None?)
    && (s.audio.Some? ==> InputGiven(s).Some? || OutputGiven(s).Some?)
    && (InputGiven(s).Some? ==>
          var i := InputGiven(s).value;
          && i.format == s.inputFormat && i.transcription == s.transcription
          && i.noiseReduction == s.noiseReduction && i.turnDetection == s.turnDetection
          && !i.clearFormat && !i.clearTranscription && !i.clearNoiseReduction && !i.clearTurnDetection)
    && (OutputGiven(s).Some? ==>
          var o := OutputGiven(s).value;
          && o.format == s.outputFormat && o.voice == s.voice && o.speed == s.speed
          && !o.clearFormat && !o.clearVoice && !o.clearSpeed)
  }

  predicate PlainUpdated(before: Settings, u: Settings, after: Settings) {
    && Latest(before.modelName, u.modelName, after.modelName)
    && Latest(before.instructions, u.instructions, after.instructions)
    && Latest(before.modalities, u.modalities, after.modalities)
    && Latest(before.outputModalities, u.outputModalities, after.outputModalities)
    && Latest(before.toolChoice, u.toolChoice, after.toolChoice)
    && TracingUpdated(before.tracing, u.tracing, after.tracing)
  }

  predicate InputFormatMerged(before: Settings, u: Settings, nested: AudioInput, after: Settings) {
    && InputChosen(u.clearInputFormat || nested.clearFormat, nested.format, u.inputFormat, before.inputFormat,
      after.inputFormat)
    && (before.inputFormat.Some? && nested.format.Some? && after.inputFormat.Some? ==>
          after.inputFormat == nested.format)
  }

  predicate TranscriptionMerged(before: Settings, u: Settings, nested: AudioInput, after: Settings) {
    && InputChosen(u.clearTranscription || nested.clearTranscription, nested.transcription, u.transcription,
      before.transcription, after.transcription)
    && (before.transcription.Some? && nested.transcription.Some? && after.transcription.Some? ==>
          TranscriptionUpdated(before.transcription.value, nested.transcription.value, after.transcription.value))
  }

  predicate NoiseReductionMerged(before: Settings, u: Settings, nested: AudioInput, after: Settings) {
    && InputChosen(u.clearNoiseReduction || nested.clearNoiseReduction, nested.noiseReduction, u.noiseReduction,
      before.noiseReduction, after.noiseReduction)
    && (before.noiseReduction.Some? && nested.noiseReduction.Some? && after.noiseReduction.Some? ==>
          Latest(before.noiseReduction.value.kind, nested.noiseReduction.value.kind, after.noiseReduction.value.kind))
  }

  predicate TurnDetectionMerged(before: Settings, u: Settings, nested: AudioInput, after: Settings) {
    && InputChosen(u.clearTurnDetection || nested.clearTurnDetection, nested.turnDetection, u.turnDetection,
      before.turnDetection, after.turnDetection)
    && (before.turnDetection.Some? && nested.turnDetection.Some? && after.turnDetection.Some? ==>
          TurnDetectionUpdated(before.turnDetection.value, nested.turnDetection.value, after.turnDetection.value))
  }

  predicate InputUpdated(before: Settings, u: Settings, nested: AudioInput, after: Settings) {
    && InputFormatMerged(before, u, nested, after) && TranscriptionMerged(before, u, nested, after)
    && NoiseReductionMerged(before, u, nested, after) && TurnDetectionMerged(before, u, nested, after)
  }

  predicate OutputUpdated(before: Settings, u: Settings, nested: AudioOutput, after: Settings) {
    && OutputChosen(u.clearOutputFormat, u.outputFormat, nested.clearFormat, nested.format, before.outputFormat,
                    after.outputFormat)
    && OutputChosen(u.clearVoice, u.voice, nested.clearVoice, nested.voice, before.voice, after.voice)
    && OutputChosen(u.clearSpeed, u.speed, nested.clearSpeed, nested.speed, before.speed, after.speed)
  }

  /** Settings that take an update in. */
  predicate TakesIn(before: Settings, u: Settings, after: Settings) {
    && Agrees(after) && PlainUpdated(before, u, after)
    && InputUpdated(before, u, if InputGiven(u).Some? then InputGiven(u).value else NOTHING_IN, after)
    && OutputUpdated(before, u, if OutputGiven(u).Some? then OutputGiven(u).value else NOTHING_OUT, after)
  }

  const NOTHING_IN := AudioInput(None, None, None, None, false, false, false, false)
  const NOTHING_OUT := AudioOutput(None, None, None, false, false, false)

  predicate Nested<T(==)>(cleared: bool, nested: Option<T>, flat: Option<T>, after: Option<T>) {
    if cleared then after == None else if nested.Some? then after == nested else after == flat
  }

  predicate PlainTaken(u: Settings, after: Settings) {
    && after.modelName == u.modelName && after.instructions == u.instructions && after.modalities == u.modalities
    && after.outputModalities == u.outputModalities && after.toolChoice == u.toolChoice && after.tracing == u.tracing
  }

  predicate InputTaken(u: Settings, i: AudioInput, after: Settings) {
    && Nested(u.clearInputFormat || i.clearFormat, i.format, u.inputFormat, after.inputFormat)
    && Nested(u.clearTranscription || i.clearTranscription, i.transcription, u.transcription, after.transcription)
    && Nested(u.clearNoiseReduction || i.clearNoiseReduction, i.noiseReduction, u.noiseReduction, after.noiseReduction)
    && Nested(u.clearTurnDetection || i.clearTurnDetection, i.turnDetection, u.turnDetection, after.turnDetection)
  }

  predicate OutputTaken(u: Settings, o: AudioOutput, after: Settings) {
    && Nested(u.clearOutputFormat || o.clearFormat, o.format, u.outputFormat, after.outputFormat)
    && Nested(u.clearVoice || o.clearVoice, o.voice, u.voice, after.voice)
    && Nested(u.clearSpeed || o.clearSpeed, o.speed, u.speed, after.speed)
  }

  /** The first settings of a session: the nested member counts before the flat one. */
  predicate StartsWith(u: Settings, after: Settings) {
    && Agrees(after) && PlainTaken(u, after)
    && InputTaken(u, if InputGiven(u).Some? then InputGiven(u).value else NOTHING_IN, after)
    && OutputTaken(u, if OutputGiven(u).Some? then OutputGiven(u).value else NOTHING_OUT, after)
  }

  // ---- the laws hold ----

  lemma SettledAgrees(s: Settings)
    requires Settled(s)
    ensures Agrees(s)
  {}

  lemma StartInput(u: Settings)
    ensures InputTaken(u, if InputGiven(u).Some? then InputGiven(u).value else NOTHING_IN, Persist(u))
  {
    hide WithoutClearMarkers, NormalizeEffective, Persist;
    InputFormatAligns(u);
    TranscriptionAligns(u);
    NoiseReductionAligns(u);
    TurnDetectionAligns(u);
  }

  lemma StartOutput(u: Settings)
    ensures OutputTaken(u, if OutputGiven(u).Some? then OutputGiven(u).value else NOTHING_OUT, Persist(u))
  {
    hide WithoutClearMarkers, NormalizeEffective, Persist;
    OutputFormatAligns(u);
    VoiceAligns(u);
    SpeedAligns(u);
  }

  lemma StartLaw(u: Settings)
    ensures StartsWith(u, Persist(u))
  {
    hide Agrees, Settled, WithoutClearMarkers, NormalizeEffective, Persist, InputTaken, OutputTaken;
    PersistSettles(u);
    SettledAgrees(Persist(u));
    PlainStays(u);
    StartInput(u);
    StartOutput(u);
  }

  lemma PlainLaw(s: Settings, u: Settings)
    ensures PlainUpdated(s, u, Persist(Merge(s, u)))
  {
    hide Merge, Persist, NormalizeEffective, WithoutClearMarkers;
    PlainMerges(s, u);
    PlainStays(Merge(s, u));
  }

  lemma InputFormatLaw(s: Settings, u: Settings)
    requires Settled(s)
    ensures InputFormatMerged(s, u, if InputGiven(u).Some? then InputGiven(u).value else NOTHING_IN,
      Persist(Merge(s, u)))
  {
    hide Merge, Persist, NormalizeEffective, WithoutClearMarkers, Settled;
    InputFormatMerges(s, u);
    InputFormatAligns(Merge(s, u));
  }

  lemma TranscriptionLaw(s: Settings, u: Settings)
    requires Settled(s)
    ensures TranscriptionMerged(s, u, if InputGiven(u).Some? then InputGiven(u).value else NOTHING_IN,
      Persist(Merge(s, u)))
  {
    hide Merge, Persist, NormalizeEffective, WithoutClearMarkers, Settled;
    TranscriptionMerges(s, u);
    TranscriptionAligns(Merge(s, u));
  }

  lemma NoiseReductionLaw(s: Settings, u: Settings)
    requires Settled(s)
    ensures NoiseReductionMerged(s, u, if InputGiven(u).Some? then InputGiven(u).value else NOTHING_IN,
      Persist(Merge(s, u)))
  {
    hide Merge, Persist, NormalizeEffective, WithoutClearMarkers, Settled;
    NoiseReductionMerges(s, u);
    NoiseReductionAligns(Merge(s, u));
  }

  lemma TurnDetectionLaw(s: Settings, u: Settings)
    requires Settled(s)
    ensures TurnDetectionMerged(s, u, if InputGiven(u).Some? then InputGiven(u).value else NOTHING_IN,
      Persist(Merge(s, u)))
  {
    hide Merge, Persist, NormalizeEffective, WithoutClearMarkers, Settled;
    TurnDetectionMerges(s, u);
    TurnDetectionAligns(Merge(s, u));
  }

  lemma InputLaw(s: Settings, u: Settings)
    requires Settled(s)
    ensures InputUpdated(s, u, if InputGiven(u).Some? then InputGiven(u).value else NOTHING_IN, Persist(Merge(s, u)))
  {
    hide Merge, Persist, Settled, InputFormatMerged, TranscriptionMerged, NoiseReductionMerged, TurnDetectionMerged;
    InputFormatLaw(s, u);
    TranscriptionLaw(s, u);
    NoiseReductionLaw(s, u);
    TurnDetectionLaw(s, u);
  }

  lemma OutputLaw(s: Settings, u: Settings)
    requires Settled(s)
    ensures OutputUpdated(s, u, if OutputGiven(u).Some? then OutputGiven(u).value else NOTHING_OUT,
                          Persist(Merge(s, u)))
  {
    hide Merge, Persist, NormalizeEffective, WithoutClearMarkers, Settled;
    OutputFormatMerges(s, u);
    OutputFormatAligns(Merge(s, u));
    VoiceMerges(s, u);
    VoiceAligns(Merge(s, u));
    SpeedMerges(s, u);
    SpeedAligns(Merge(s, u));
  }

  lemma UpdateLaw(s: Settings, u: Settings)
    requires Settled(s)
    ensures TakesIn(s, u, Persist(Merge(s, u)))
  {
    hide Agrees, Settled, Persist, Merge, PlainUpdated, InputUpdated, OutputUpdated;
    PersistSettles(Merge(s, u));
    SettledAgrees(Persist(Merge(s, u)));
    PlainLaw(s, u);
    InputLaw(s, u);
    OutputLaw(s, u);
  }

  /** What one more event makes of the session and of its driver: an update is taken in by both, an event
      without settings changes nothing that is held, and a new driver holds nothing yet. */
  lemma HistoryLaw(history: seq<Event>)
    requires history != []
    ensures var before, last, after := Run(history[..|history| - 1]), history[|history| - 1], Run(history);
      match last
      case Attach => after.session == before.session && after.driver == Some(None)
      case Update(None) =>
        && after.session == before.session && (after.driver.None? <==> before.driver.None?)
        && (after.session.Some? && after.driver.Some? ==> after.driver.value == after.session)
      case Update(Some(u)) =>
        && after.session.Some? && (after.driver.None? <==> before.driver.None?)
        && (before.session.None? ==> StartsWith(u, after.session.value))
        && (before.session.Some? ==> TakesIn(before.session.value, u, after.session.value))
        && (after.driver.Some? ==> after.driver.value == after.session)
  {
    hide Settled, StartsWith, TakesIn, Merge, NormalizeEffective, WithoutClearMarkers;
    var before, last := Run(history[..|history| - 1]), history[|history| - 1];
    CopiesAgree(history);
    CopiesAgree(history[..|history| - 1]);
    match last
    case Attach =>
    case Update(None) => if before.session.Some? { SettledStays(before.session.value); }
    case Update(Some(u)) =>
      if before.session.Some? { UpdateLaw(before.session.value, u); } else { StartLaw(u); }
  }

  // ---- merging any two settings ----

  predicate Overwritten<T(==)>(cleared: bool, before: Option<T>, update: Option<T>, after: Option<T>) {
    if cleared then after == None else Latest(before, update, after)
  }

  predicate TranscriptionTaken(cleared: bool, before: Option<Transcription>, update: Option<Transcription>,
                               after: Option<Transcription>) {
    if cleared || before.None? || update.None? then Overwritten(cleared, before, update, after)
    else after.Some? && TranscriptionUpdated(before.value, update.value, after.value)
  }

  predicate NoiseReductionTaken(cleared: bool, before: Option<NoiseReduction>, update: Option<NoiseReduction>,
                                after: Option<NoiseReduction>) {
    if cleared || before.None? || update.None? then Overwritten(cleared, before, update, after)
    else after.Some? && Latest(before.value.kind, update.value.kind, after.value.kind)
  }

  predicate TurnDetectionTaken(cleared: bool, before: Option<TurnDetection>, update: Option<TurnDetection>,
                               after: Option<TurnDetection>) {
    if cleared || before.None? || update.None? then Overwritten(cleared, before, update, after)
    else after.Some? && TurnDetectionUpdated(before.value, update.value, after.value)
  }

  /** The flat members. */
  predicate FlatMerged(a: Settings, b: Settings, m: Settings) {
    && PlainUpdated(a, b, m)
    && Overwritten(b.clearVoice, a.voice, b.voice, m.voice) && Overwritten(b.clearSpeed, a.speed, b.speed, m.speed)
    && Overwritten(b.clearInputFormat, a.inputFormat, b.inputFormat, m.inputFormat)
    && Overwritten(b.clearOutputFormat, a.outputFormat, b.outputFormat, m.outputFormat)
    && TranscriptionTaken(b.clearTranscription, a.transcription, b.transcription, m.transcription)
    && NoiseReductionTaken(b.clearNoiseReduction, a.noiseReduction, b.noiseReduction, m.noiseReduction)
    && TurnDetectionTaken(b.clearTurnDetection, a.turnDetection, b.turnDetection, m.turnDetection)
    && m.clearVoice == b.clearVoice && m.clearSpeed == b.clearSpeed && m.clearInputFormat == b.clearInputFormat
    && m.clearOutputFormat == b.clearOutputFormat && m.clearTranscription == b.clearTranscription
    && m.clearNoiseReduction == b.clearNoiseReduction && m.clearTurnDetection == b.clearTurnDetection
  }

  /** The nested input members: merged if both sides have them, else those of the side that has. */
  predicate InputMerged(a: Option<AudioInput>, b: Option<AudioInput>, m: Option<AudioInput>) {
    if a.None? || b.None? then Latest(a, b, m)
    else
      && m.Some? && Overwritten(b.value.clearFormat, a.value.format, b.value.format, m.value.format)
      && TranscriptionTaken(b.value.clearTranscription, a.value.transcription, b.value.transcription,
                            m.value.transcription)
      && NoiseReductionTaken(b.value.clearNoiseReduction, a.value.noiseReduction, b.value.noiseReduction,
                             m.value.noiseReduction)
      && TurnDetectionTaken(b.value.clearTurnDetection, a.value.turnDetection, b.value.turnDetection,
                            m.value.turnDetection)
      && m.value.clearFormat == b.value.clearFormat && m.value.clearTranscription == b.value.clearTranscription
      && m.value.clearNoiseReduction == b.value.clearNoiseReduction
      && m.value.clearTurnDetection == b.value.clearTurnDetection
  }

  /** A nested output member: the flat member of the update counts most, and moves the marker with it. */
  predicate OutputMember<T(==)>(clear: bool, flat: Option<T>, before: Option<T>, nested: Option<T>, nestedClear: bool,
                                beforeClear: bool, given: bool, had: bool, after: Option<T>, afterClear: bool) {
    if clear then after == None && afterClear
    else if flat.Some? then after == flat && !afterClear
    else if given then Overwritten(had && nestedClear, before, nested, after) && afterClear == nestedClear
    else after == before && afterClear == beforeClear
  }

  predicate OutputMerged(a: Option<AudioOutput>, b: Settings, m: Option<AudioOutput>) {
    var given := OutputGiven(b);
    var touched := b.clearOutputFormat || b.outputFormat.Some? || b.clearVoice || b.voice.Some? || b.clearSpeed
                   || b.speed.Some?;
    var o := if a.Some? then a.value else NOTHING_OUT;
    var u := if given.Some? then given.value else NOTHING_OUT;
    && (m.Some? <==> a.Some? || given.Some? || touched)
    && (m.Some? ==>
          && OutputMember(b.clearOutputFormat, b.outputFormat, o.format, u.format, u.clearFormat, o.clearFormat,
                          given.Some?, a.Some?, m.value.format, m.value.clearFormat)
          && OutputMember(b.clearVoice, b.voice, o.voice, u.voice, u.clearVoice, o.clearVoice, given.Some?,
                          a.Some?, m.value.voice, m.value.clearVoice)
          && OutputMember(b.clearSpeed, b.speed, o.speed, u.speed, u.clearSpeed, o.clearSpeed, given.Some?,
                          a.Some?, m.value.speed, m.value.clearSpeed))
  }

  lemma FlatLaw(a: Settings, b: Settings)
    ensures FlatMerged(a, b, Merge(a, b))
  {
    hide MirrorAudio, MergeAudio;
  }

  lemma NestedInputLaw(a: Settings, b: Settings)
    ensures InputMerged(InputGiven(a), InputGiven(b), InputGiven(Merge(a, b)))
  {
    hide MirrorOutput, MergeOutput;
  }

  lemma NestedOutputLaw(a: Settings, b: Settings)
    ensures OutputMerged(OutputGiven(a), b, OutputGiven(Merge(a, b)))
  {
    hide MergeInput;
  }

  /** Merging any two settings, member by member, markers included. */
  lemma MergeLaw(a: Settings, b: Settings)
    ensures FlatMerged(a, b, Merge(a, b))
    ensures InputMerged(InputGiven(a), InputGiven(b), InputGiven(Merge(a, b)))
    ensures OutputMerged(OutputGiven(a), b, OutputGiven(Merge(a, b)))
  {
    hide Merge, FlatMerged, InputMerged, OutputMerged;
    FlatLaw(a, b);
    NestedInputLaw(a, b);
    NestedOutputLaw(a, b);
  }
}
