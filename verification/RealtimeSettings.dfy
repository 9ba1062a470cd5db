/** Realtime session settings: merging updates, aligning the flat and the nested copy of each audio
    setting, and the two copies that the session and the model driver keep. */
module RealtimeSettings {
  import opened Items

  /** Speeds and thresholds are only stored and compared. */
  type Number = real

  datatype Transcription = Transcription(language: Option<string>, model: Option<string>, prompt: Option<string>)

  datatype NoiseReduction = NoiseReduction(kind: Option<string>)

  datatype TurnDetection = TurnDetection(kind: Option<string>, createResponse: Option<bool>, eagerness: Option<string>,
                                         interruptResponse: Option<bool>, prefixPaddingMs: Option<nat>,
                                         silenceDurationMs: Option<nat>, threshold: Option<Number>,
                                         idleTimeoutMs: Option<nat>, modelVersion: Option<string>)

  datatype AudioInput = AudioInput(format: Option<string>, noiseReduction: Option<NoiseReduction>,
                                   transcription: Option<Transcription>, turnDetection: Option<TurnDetection>,
                                   clearFormat: bool, clearNoiseReduction: bool, clearTranscription: bool,
                                   clearTurnDetection: bool)

  datatype AudioOutput = AudioOutput(format: Option<string>, voice: Option<string>, speed: Option<Number>,
                                     clearFormat: bool, clearVoice: bool, clearSpeed: bool)

  datatype Audio = Audio(input: Option<AudioInput>, output: Option<AudioOutput>)

  datatype Tracing = Tracing(workflowName: Option<string>, groupId: Option<string>, metadata: Option<map<string, Json>>)

  datatype Settings = Settings(modelName: Option<string>, instructions: Option<string>, modalities: Option<seq<string>>,
                               outputModalities: Option<seq<string>>, audio: Option<Audio>, voice: Option<string>,
                               speed: Option<Number>, inputFormat: Option<string>, outputFormat: Option<string>,
                               transcription: Option<Transcription>, noiseReduction: Option<NoiseReduction>,
                               turnDetection: Option<TurnDetection>, toolChoice: Option<string>,
                               tracing: Option<Tracing>, clearVoice: bool, clearSpeed: bool, clearInputFormat: bool,
                               clearOutputFormat: bool, clearTranscription: bool, clearNoiseReduction: bool,
                               clearTurnDetection: bool)

  const NO_INPUT := AudioInput(None, None, None, None, false, false, false, false)
  const NO_OUTPUT := AudioOutput(None, None, None, false, false, false)

  // ---- merging ----

  /** Two records are merged, one alone is kept; elsewhere the update wins where it says something. */
  function Blend<T>(merge: (T, T) -> T, current: Option<T>, update: Option<T>): Option<T> {
    if current.Some? && update.Some? then Some(merge(current.value, update.value)) else Or(update, current)
  }

  function MergeTranscription(a: Transcription, b: Transcription): Transcription {
    Transcription(Or(b.language, a.language), Or(b.model, a.model), Or(b.prompt, a.prompt))
  }

  function MergeNoiseReduction(a: NoiseReduction, b: NoiseReduction): NoiseReduction {
    NoiseReduction(Or(b.kind, a.kind))
  }

  function MergeTurnDetection(a: TurnDetection, b: TurnDetection): TurnDetection {
    TurnDetection(Or(b.kind, a.kind), Or(b.createResponse, a.createResponse), Or(b.eagerness, a.eagerness),
                  Or(b.interruptResponse, a.interruptResponse), Or(b.prefixPaddingMs, a.prefixPaddingMs),
                  Or(b.silenceDurationMs, a.silenceDurationMs), Or(b.threshold, a.threshold),
                  Or(b.idleTimeoutMs, a.idleTimeoutMs), Or(b.modelVersion, a.modelVersion))
  }

  function MergeTracing(a: Tracing, b: Tracing): Tracing {
    Tracing(Or(b.workflowName, a.workflowName), Or(b.groupId, a.groupId), Or(b.metadata, a.metadata))
  }

  function MergeInput(a: AudioInput, b: AudioInput): AudioInput {
    AudioInput(if b.clearFormat then None else Or(b.format, a.format),
               if b.clearNoiseReduction then None else Blend(MergeNoiseReduction, a.noiseReduction, b.noiseReduction),
               if b.clearTranscription then None else Blend(MergeTranscription, a.transcription, b.transcription),
               if b.clearTurnDetection then None else Blend(MergeTurnDetection, a.turnDetection, b.turnDetection),
               b.clearFormat, b.clearNoiseReduction, b.clearTranscription, b.clearTurnDetection)
  }

  function MergeOutput(a: AudioOutput, b: AudioOutput): AudioOutput {
    AudioOutput(if b.clearFormat then None else Or(b.format, a.format),
                if b.clearVoice then None else Or(b.voice, a.voice),
                if b.clearSpeed then None else Or(b.speed, a.speed),
                b.clearFormat, b.clearVoice, b.clearSpeed)
  }

  function MergeAudio(a: Audio, b: Audio): Audio {
    Audio(Blend(MergeInput, a.input, b.input), Blend(MergeOutput, a.output, b.output))
  }

  function MergeFields(a: Settings, b: Settings): Settings {
    Settings(Or(b.modelName, a.modelName), Or(b.instructions, a.instructions), Or(b.modalities, a.modalities),
             Or(b.outputModalities, a.outputModalities), Blend(MergeAudio, a.audio, b.audio),
             if b.clearVoice then None else Or(b.voice, a.voice),
             if b.clearSpeed then None else Or(b.speed, a.speed),
             if b.clearInputFormat then None else Or(b.inputFormat, a.inputFormat),
             if b.clearOutputFormat then None else Or(b.outputFormat, a.outputFormat),
             if b.clearTranscription then None else Blend(MergeTranscription, a.transcription, b.transcription),
             if b.clearNoiseReduction then None else Blend(MergeNoiseReduction, a.noiseReduction, b.noiseReduction),
             if b.clearTurnDetection then None else Blend(MergeTurnDetection, a.turnDetection, b.turnDetection),
             Or(b.toolChoice, a.toolChoice), Blend(MergeTracing, a.tracing, b.tracing),
             b.clearVoice, b.clearSpeed, b.clearInputFormat, b.clearOutputFormat, b.clearTranscription,
             b.clearNoiseReduction, b.clearTurnDetection)
  }

  /** One output setting as an update leaves it: cleared, replaced by the flat value, or untouched. */
  function Mirror<T>(clear: bool, flat: Option<T>, nested: Option<T>): Option<T> {
    if clear then None else Or(flat, nested)
  }

  function MirrorMark<T>(clear: bool, flat: Option<T>, mark: bool): bool {
    clear || (flat.None? && mark)
  }

  predicate TouchesOutput(b: Settings) {
    b.clearOutputFormat || b.outputFormat.Some? || b.clearVoice || b.voice.Some? || b.clearSpeed || b.speed.Some?
  }

  function InputIn(audio: Option<Audio>): AudioInput {
    if audio.Some? && audio.value.input.Some? then audio.value.input.value else NO_INPUT
  }

  function OutputIn(audio: Option<Audio>): AudioOutput {
    if audio.Some? && audio.value.output.Some? then audio.value.output.value else NO_OUTPUT
  }

  function InputOf(s: Settings): AudioInput { InputIn(s.audio) }

  function OutputOf(s: Settings): AudioOutput { OutputIn(s.audio) }

  function MirrorOutput(o: AudioOutput, b: Settings): AudioOutput {
    AudioOutput(Mirror(b.clearOutputFormat, b.outputFormat, o.format), Mirror(b.clearVoice, b.voice, o.voice),
                Mirror(b.clearSpeed, b.speed, o.speed), MirrorMark(b.clearOutputFormat, b.outputFormat, o.clearFormat),
                MirrorMark(b.clearVoice, b.voice, o.clearVoice), MirrorMark(b.clearSpeed, b.speed, o.clearSpeed))
  }

  function MirrorAudio(merged: Option<Audio>, b: Settings): Option<Audio> {
    if TouchesOutput(b) then
      Some(Audio(if merged.Some? then merged.value.input else None, Some(MirrorOutput(OutputIn(merged), b))))
    else merged
  }

  /** Merging mirrors the flat output settings of the update into the nested ones; the flat input
      settings are not mirrored. */
  function Merge(a: Settings, b: Settings): Settings {
    var merged := MergeFields(a, b);
    merged.(audio := MirrorAudio(merged.audio, b))
  }

  // ---- normalising ----

  /** One setting in its two places, with the markers that clear it. */
  datatype Channel<T> = Channel(flat: Option<T>, nested: Option<T>, clearFlat: bool, clearNested: bool) {
    predicate Cleared() { clearFlat || clearNested }

    function Value(): Option<T> { if Cleared() then None else Or(nested, flat) }
  }

  function InputFormat(s: Settings): Channel<string> {
    Channel(s.inputFormat, InputOf(s).format, s.clearInputFormat, InputOf(s).clearFormat)
  }

  function TranscriptionOf(s: Settings): Channel<Transcription> {
    Channel(s.transcription, InputOf(s).transcription, s.clearTranscription, InputOf(s).clearTranscription)
  }

  function NoiseReductionOf(s: Settings): Channel<NoiseReduction> {
    Channel(s.noiseReduction, InputOf(s).noiseReduction, s.clearNoiseReduction, InputOf(s).clearNoiseReduction)
  }

  function TurnDetectionOf(s: Settings): Channel<TurnDetection> {
    Channel(s.turnDetection, InputOf(s).turnDetection, s.clearTurnDetection, InputOf(s).clearTurnDetection)
  }

  function OutputFormat(s: Settings): Channel<string> {
    Channel(s.outputFormat, OutputOf(s).format, s.clearOutputFormat, OutputOf(s).clearFormat)
  }

  function Voice(s: Settings): Channel<string> {
    Channel(s.voice, OutputOf(s).voice, s.clearVoice, OutputOf(s).clearVoice)
  }

  function Speed(s: Settings): Channel<Number> {
    Channel(s.speed, OutputOf(s).speed, s.clearSpeed, OutputOf(s).clearSpeed)
  }

  predicate InputSpeaks(i: AudioInput) { i != NO_INPUT }

  predicate OutputSpeaks(o: AudioOutput) { o != NO_OUTPUT }

  function Pack(i: AudioInput, o: AudioOutput): Option<Audio> {
    var input := if InputSpeaks(i) then Some(i) else None;
    var output := if OutputSpeaks(o) then Some(o) else None;
    if input.Some? || output.Some? then Some(Audio(input, output)) else None
  }

  /** Both places of every setting hold its effective value, and both markers agree. */
  function NormalizeEffective(s: Settings): Settings {
    var f, t, n, d := InputFormat(s), TranscriptionOf(s), NoiseReductionOf(s), TurnDetectionOf(s);
    var g, v, p := OutputFormat(s), Voice(s), Speed(s);
    var input := AudioInput(f.Value(), n.Value(), t.Value(), d.Value(), f.Cleared(), n.Cleared(), t.Cleared(),
      d.Cleared());
    var output := AudioOutput(g.Value(), v.Value(), p.Value(), g.Cleared(), v.Cleared(), p.Cleared());
    s.(audio := Pack(input, output), inputFormat := f.Value(), transcription := t.Value(), noiseReduction := n.Value(),
       turnDetection := d.Value(), outputFormat := g.Value(), voice := v.Value(), speed := p.Value(),
       clearInputFormat := f.Cleared(), clearTranscription := t.Cleared(), clearNoiseReduction := n.Cleared(),
       clearTurnDetection := d.Cleared(), clearOutputFormat := g.Cleared(), clearVoice := v.Cleared(),
       clearSpeed := p.Cleared())
  }

  // ---- dropping the markers ----

  function UnmarkInput(i: AudioInput): Option<AudioInput> {
    var cleaned := i.(clearFormat := false, clearNoiseReduction := false, clearTranscription := false,
      clearTurnDetection := false);
    if cleaned.format.Some? || cleaned.noiseReduction.Some? || cleaned.transcription.Some?
      || cleaned.turnDetection.Some?
    then Some(cleaned) else None
  }

  function UnmarkOutput(o: AudioOutput): Option<AudioOutput> {
    var cleaned := o.(clearFormat := false, clearVoice := false, clearSpeed := false);
    if cleaned.format.Some? || cleaned.voice.Some? || cleaned.speed.Some? then Some(cleaned) else None
  }

  function UnmarkAudio(a: Audio): Option<Audio> {
    var input := if a.input.Some? then UnmarkInput(a.input.value) else None;
    var output := if a.output.Some? then UnmarkOutput(a.output.value) else None;
    if input.Some? || output.Some? then Some(Audio(input, output)) else None
  }

  function WithoutClearMarkers(s: Settings): Settings {
    s.(clearVoice := false, clearSpeed := false, clearInputFormat := false, clearOutputFormat := false,
       clearTranscription := false, clearNoiseReduction := false, clearTurnDetection := false,
       audio := if s.audio.Some? then UnmarkAudio(s.audio.value) else None)
  }

  // ---- the algebra ----

  /** Settings as they are persisted: both places agree, no markers, and no empty records. */
  predicate Settled(s: Settings) {
    && !s.clearVoice && !s.clearSpeed && !s.clearInputFormat && !s.clearOutputFormat
    && !s.clearTranscription && !s.clearNoiseReduction && !s.clearTurnDetection
    && s.audio == Pack(AudioInput(s.inputFormat, s.noiseReduction, s.transcription, s.turnDetection,
                                  false, false, false, false),
                       AudioOutput(s.outputFormat, s.voice, s.speed, false, false, false))
  }

  /** What is persisted of an update. */
  function Persist(s: Settings): Settings {
    WithoutClearMarkers(NormalizeEffective(s))
  }

  lemma PersistSettles(s: Settings)
    ensures Settled(Persist(s))
  {}

  lemma NormalizeTwice(s: Settings)
    ensures NormalizeEffective(NormalizeEffective(s)) == NormalizeEffective(s)
  {}

  lemma SettledStays(s: Settings)
    requires Settled(s)
    ensures Persist(s) == s && WithoutClearMarkers(s) == s
  {}

  /** The settings that live in one place only. */
  predicate SamePlain(a: Settings, b: Settings) {
    && a.modelName == b.modelName && a.instructions == b.instructions && a.modalities == b.modalities
    && a.outputModalities == b.outputModalities && a.toolChoice == b.toolChoice && a.tracing == b.tracing
  }

  lemma SettledEqual(a: Settings, b: Settings)
    requires Settled(a) && Settled(b) && SamePlain(a, b)
    requires a.inputFormat == b.inputFormat && a.transcription == b.transcription
      && a.noiseReduction == b.noiseReduction
    requires a.turnDetection == b.turnDetection && a.outputFormat == b.outputFormat && a.voice == b.voice
      && a.speed == b.speed
    ensures a == b
  {}

  lemma AbsorbsPlain(s: Settings, u: Settings)
    ensures SamePlain(Persist(Merge(s, NormalizeEffective(Merge(s, u)))), Persist(Merge(s, u)))
  {
    PlainMerges(s, u);
    PlainMerges(s, NormalizeEffective(Merge(s, u)));
    PlainStays(Merge(s, u));
    PlainStays(Merge(s, NormalizeEffective(Merge(s, u))));
    hide Merge, NormalizeEffective, WithoutClearMarkers;
  }

  lemma PlainStays(s: Settings)
    ensures SamePlain(NormalizeEffective(s), s) && SamePlain(Persist(s), s)
  {}

  lemma PlainMerges(s: Settings, u: Settings)
    ensures var m := Merge(s, u);
      && m.modelName == Or(u.modelName, s.modelName) && m.instructions == Or(u.instructions, s.instructions)
      && m.modalities == Or(u.modalities, s.modalities)
      && m.outputModalities == Or(u.outputModalities, s.outputModalities)
      && m.toolChoice == Or(u.toolChoice, s.toolChoice) && m.tracing == Blend(MergeTracing, s.tracing, u.tracing)
  {
    hide Merge, MergeAudio, MergeInput, MergeOutput;
    MergedFlat(s, u);
  }

  /** What becomes of an input setting when an update is merged into settled settings. */
  datatype Effect<T> = Effect(value: Option<T>, cleared: bool)

  function EffectOf<T>(c: Channel<T>): Effect<T> {
    Effect(c.Value(), c.Cleared())
  }

  function InputEffect<T>(merge: (T, T) -> T, current: Option<T>, u: Channel<T>): Effect<T> {
    if u.Cleared() then Effect(None, true)
    else Effect(Or(Blend(merge, current, u.nested), Blend(merge, current, u.flat)), false)
  }

  /** For an output setting the flat value of the update counts before everything nested. */
  function OutputEffect<T>(current: Option<T>, u: Channel<T>): Effect<T> {
    if u.clearFlat || (u.flat.None? && u.clearNested) then Effect(None, true)
    else Effect(Or(u.flat, Or(u.nested, current)), false)
  }

  /** A setting as it stands after normalising. */
  predicate Aligned<T(==)>(c: Channel<T>, e: Effect<T>) {
    c == Channel(e.value, e.value, e.cleared, e.cleared) && (e.cleared ==> e.value == None)
  }

  /** Merging the same update, or the same record, again changes nothing. */
  ghost predicate Absorbing<T(!new)>(merge: (T, T) -> T) {
    && (forall a, b :: merge(a, merge(a, b)) == merge(a, b))
    && (forall a :: merge(a, a) == a)
  }

  lemma InputEffectAbsorbs<T(!new)>(merge: (T, T) -> T, current: Option<T>, u: Channel<T>, again: Channel<T>)
    requires Absorbing(merge) && Aligned(again, InputEffect(merge, current, u))
    ensures InputEffect(merge, current, again).value == InputEffect(merge, current, u).value
  {}

  lemma OutputEffectAbsorbs<T>(current: Option<T>, u: Channel<T>, again: Channel<T>)
    requires Aligned(again, OutputEffect(current, u))
    ensures OutputEffect(current, again).value == OutputEffect(current, u).value
  {}

  function Later<T>(): (T, T) -> T {
    (a, b) => b
  }

  lemma RecordsAbsorb()
    ensures Absorbing(Later<string>()) && Absorbing(MergeTranscription) && Absorbing(MergeNoiseReduction)
      && Absorbing(MergeTurnDetection)
  {}

  predicate HasInput(s: Settings) { s.audio.Some? && s.audio.value.input.Some? }

  predicate HasOutput(s: Settings) { s.audio.Some? && s.audio.value.output.Some? }

  lemma MergedInput(s: Settings, u: Settings)
    ensures InputOf(Merge(s, u)) == if HasInput(s) && HasInput(u) then MergeInput(InputOf(s), InputOf(u))
                                    else if HasInput(u) then InputOf(u) else InputOf(s)
  {
    hide MirrorOutput, MergeOutput, OutputIn, MergeInput;
  }

  lemma MergedOutput(s: Settings, u: Settings)
    ensures OutputOf(Merge(s, u))
         == MirrorOutput(if HasOutput(s) && HasOutput(u) then MergeOutput(OutputOf(s), OutputOf(u))
                         else if HasOutput(u) then OutputOf(u) else OutputOf(s), u)
  {
    hide MergeInput, InputIn, MergeOutput;
  }

  /** The flat members are merged as they are. */
  lemma MergedFlat(s: Settings, u: Settings)
    ensures Merge(s, u) == MergeFields(s, u).(audio := Merge(s, u).audio)
  {
    hide MergeFields, MirrorAudio;
  }

  lemma SettledParts(s: Settings)
    requires Settled(s)
    ensures InputOf(s) == AudioInput(s.inputFormat, s.noiseReduction, s.transcription, s.turnDetection, false, false,
      false, false)
    ensures OutputOf(s) == AudioOutput(s.outputFormat, s.voice, s.speed, false, false, false)
    ensures !HasInput(s) ==> InputOf(s) == NO_INPUT
    ensures !HasOutput(s) ==> OutputOf(s) == NO_OUTPUT
  {}

  lemma NoInputSaysNothing(u: Settings)
    ensures !HasInput(u) ==> InputOf(u) == NO_INPUT
    ensures !HasOutput(u) ==> OutputOf(u) == NO_OUTPUT
  {}

  lemma InputFormatMerges(s: Settings, u: Settings)
    requires Settled(s)
    ensures EffectOf(InputFormat(Merge(s, u))) == InputEffect(Later<string>(), s.inputFormat, InputFormat(u))
  {
    hide Merge, InputIn, Settled;
    SettledParts(s);
    MergedFlat(s, u);
    MergedInput(s, u);
    NoInputSaysNothing(u);
  }

  lemma TranscriptionMerges(s: Settings, u: Settings)
    requires Settled(s)
    ensures EffectOf(TranscriptionOf(Merge(s, u)))
      == InputEffect(MergeTranscription, s.transcription, TranscriptionOf(u))
  {
    hide Merge, InputIn, Settled;
    SettledParts(s);
    MergedFlat(s, u);
    MergedInput(s, u);
    NoInputSaysNothing(u);
  }

  lemma NoiseReductionMerges(s: Settings, u: Settings)
    requires Settled(s)
    ensures EffectOf(NoiseReductionOf(Merge(s, u)))
      == InputEffect(MergeNoiseReduction, s.noiseReduction, NoiseReductionOf(u))
  {
    hide Merge, InputIn, Settled;
    SettledParts(s);
    MergedFlat(s, u);
    MergedInput(s, u);
    NoInputSaysNothing(u);
  }

  lemma TurnDetectionMerges(s: Settings, u: Settings)
    requires Settled(s)
    ensures EffectOf(TurnDetectionOf(Merge(s, u)))
      == InputEffect(MergeTurnDetection, s.turnDetection, TurnDetectionOf(u))
  {
    hide Merge, InputIn, Settled;
    SettledParts(s);
    MergedFlat(s, u);
    MergedInput(s, u);
    NoInputSaysNothing(u);
  }

  lemma OutputFormatMerges(s: Settings, u: Settings)
    requires Settled(s)
    ensures EffectOf(OutputFormat(Merge(s, u))) == OutputEffect(s.outputFormat, OutputFormat(u))
  {
    hide Merge, OutputIn, Settled;
    SettledParts(s);
    MergedFlat(s, u);
    MergedOutput(s, u);
    NoInputSaysNothing(u);
  }

  lemma VoiceMerges(s: Settings, u: Settings)
    requires Settled(s)
    ensures EffectOf(Voice(Merge(s, u))) == OutputEffect(s.voice, Voice(u))
  {
    hide Merge, OutputIn, Settled;
    SettledParts(s);
    MergedFlat(s, u);
    MergedOutput(s, u);
    NoInputSaysNothing(u);
  }

  lemma SpeedMerges(s: Settings, u: Settings)
    requires Settled(s)
    ensures EffectOf(Speed(Merge(s, u))) == OutputEffect(s.speed, Speed(u))
  {
    hide Merge, OutputIn, Settled;
    SettledParts(s);
    MergedFlat(s, u);
    MergedOutput(s, u);
    NoInputSaysNothing(u);
  }

  lemma InputFormatAligns(s: Settings)
    ensures Aligned(InputFormat(NormalizeEffective(s)), EffectOf(InputFormat(s)))
      && Persist(s).inputFormat == EffectOf(InputFormat(s)).value
  {}

  lemma TranscriptionAligns(s: Settings)
    ensures Aligned(TranscriptionOf(NormalizeEffective(s)), EffectOf(TranscriptionOf(s)))
      && Persist(s).transcription == EffectOf(TranscriptionOf(s)).value
  {}

  lemma NoiseReductionAligns(s: Settings)
    ensures Aligned(NoiseReductionOf(NormalizeEffective(s)), EffectOf(NoiseReductionOf(s)))
      && Persist(s).noiseReduction == EffectOf(NoiseReductionOf(s)).value
  {}

  lemma TurnDetectionAligns(s: Settings)
    ensures Aligned(TurnDetectionOf(NormalizeEffective(s)), EffectOf(TurnDetectionOf(s)))
      && Persist(s).turnDetection == EffectOf(TurnDetectionOf(s)).value
  {}

  lemma OutputFormatAligns(s: Settings)
    ensures Aligned(OutputFormat(NormalizeEffective(s)), EffectOf(OutputFormat(s)))
      && Persist(s).outputFormat == EffectOf(OutputFormat(s)).value
  {}

  lemma VoiceAligns(s: Settings)
    ensures Aligned(Voice(NormalizeEffective(s)), EffectOf(Voice(s))) && Persist(s).voice == EffectOf(Voice(s)).value
  {}

  lemma SpeedAligns(s: Settings)
    ensures Aligned(Speed(NormalizeEffective(s)), EffectOf(Speed(s))) && Persist(s).speed == EffectOf(Speed(s)).value
  {}

  lemma AbsorbsInputFormat(s: Settings, u: Settings)
    requires Settled(s)
    ensures Persist(Merge(s, NormalizeEffective(Merge(s, u)))).inputFormat == Persist(Merge(s, u)).inputFormat
  {
    hide Merge, NormalizeEffective, InputEffect, EffectOf, Persist, InputFormat, Settled;
    var m := NormalizeEffective(Merge(s, u));
    RecordsAbsorb();
    InputFormatMerges(s, u);
    InputFormatMerges(s, m);
    InputFormatAligns(Merge(s, u));
    InputFormatAligns(Merge(s, m));
    InputEffectAbsorbs(Later<string>(), s.inputFormat, InputFormat(u), InputFormat(m));
  }

  lemma AbsorbsTranscription(s: Settings, u: Settings)
    requires Settled(s)
    ensures Persist(Merge(s, NormalizeEffective(Merge(s, u)))).transcription == Persist(Merge(s, u)).transcription
  {
    hide Merge, NormalizeEffective, InputEffect, EffectOf, Persist, TranscriptionOf, Settled;
    var m := NormalizeEffective(Merge(s, u));
    RecordsAbsorb();
    TranscriptionMerges(s, u);
    TranscriptionMerges(s, m);
    TranscriptionAligns(Merge(s, u));
    TranscriptionAligns(Merge(s, m));
    InputEffectAbsorbs(MergeTranscription, s.transcription, TranscriptionOf(u), TranscriptionOf(m));
  }

  lemma AbsorbsNoiseReduction(s: Settings, u: Settings)
    requires Settled(s)
    ensures Persist(Merge(s, NormalizeEffective(Merge(s, u)))).noiseReduction == Persist(Merge(s, u)).noiseReduction
  {
    hide Merge, NormalizeEffective, InputEffect, EffectOf, Persist, NoiseReductionOf, Settled;
    var m := NormalizeEffective(Merge(s, u));
    RecordsAbsorb();
    NoiseReductionMerges(s, u);
    NoiseReductionMerges(s, m);
    NoiseReductionAligns(Merge(s, u));
    NoiseReductionAligns(Merge(s, m));
    InputEffectAbsorbs(MergeNoiseReduction, s.noiseReduction, NoiseReductionOf(u), NoiseReductionOf(m));
  }

  lemma AbsorbsTurnDetection(s: Settings, u: Settings)
    requires Settled(s)
    ensures Persist(Merge(s, NormalizeEffective(Merge(s, u)))).turnDetection == Persist(Merge(s, u)).turnDetection
  {
    hide Merge, NormalizeEffective, InputEffect, EffectOf, Persist, TurnDetectionOf, Settled;
    var m := NormalizeEffective(Merge(s, u));
    RecordsAbsorb();
    TurnDetectionMerges(s, u);
    TurnDetectionMerges(s, m);
    TurnDetectionAligns(Merge(s, u));
    TurnDetectionAligns(Merge(s, m));
    InputEffectAbsorbs(MergeTurnDetection, s.turnDetection, TurnDetectionOf(u), TurnDetectionOf(m));
  }

  lemma AbsorbsOutputFormat(s: Settings, u: Settings)
    requires Settled(s)
    ensures Persist(Merge(s, NormalizeEffective(Merge(s, u)))).outputFormat == Persist(Merge(s, u)).outputFormat
  {
    hide Merge, NormalizeEffective, OutputEffect, EffectOf, Persist, OutputFormat, Settled;
    var m := NormalizeEffective(Merge(s, u));
    OutputFormatMerges(s, u);
    OutputFormatMerges(s, m);
    OutputFormatAligns(Merge(s, u));
    OutputFormatAligns(Merge(s, m));
    OutputEffectAbsorbs(s.outputFormat, OutputFormat(u), OutputFormat(m));
  }

  lemma AbsorbsVoice(s: Settings, u: Settings)
    requires Settled(s)
    ensures Persist(Merge(s, NormalizeEffective(Merge(s, u)))).voice == Persist(Merge(s, u)).voice
  {
    hide Merge, NormalizeEffective, OutputEffect, EffectOf, Persist, Voice, Settled;
    var m := NormalizeEffective(Merge(s, u));
    VoiceMerges(s, u);
    VoiceMerges(s, m);
    VoiceAligns(Merge(s, u));
    VoiceAligns(Merge(s, m));
    OutputEffectAbsorbs(s.voice, Voice(u), Voice(m));
  }

  lemma AbsorbsSpeed(s: Settings, u: Settings)
    requires Settled(s)
    ensures Persist(Merge(s, NormalizeEffective(Merge(s, u)))).speed == Persist(Merge(s, u)).speed
  {
    hide Merge, NormalizeEffective, OutputEffect, EffectOf, Persist, Speed, Settled;
    var m := NormalizeEffective(Merge(s, u));
    SpeedMerges(s, u);
    SpeedMerges(s, m);
    SpeedAligns(Merge(s, u));
    SpeedAligns(Merge(s, m));
    OutputEffectAbsorbs(s.speed, Speed(u), Speed(m));
  }

  /** Merging what a merge already gave changes nothing: the driver may merge the session's result again. */
  lemma MergeAbsorbs(s: Settings, u: Settings)
    requires Settled(s)
    ensures Persist(Merge(s, NormalizeEffective(Merge(s, u)))) == Persist(Merge(s, u))
  {
    hide Merge, NormalizeEffective, WithoutClearMarkers;
    PersistSettles(Merge(s, u));
    PersistSettles(Merge(s, NormalizeEffective(Merge(s, u))));
    AbsorbsPlain(s, u);
    AbsorbsInputFormat(s, u);
    AbsorbsTranscription(s, u);
    AbsorbsNoiseReduction(s, u);
    AbsorbsTurnDetection(s, u);
    AbsorbsOutputFormat(s, u);
    AbsorbsVoice(s, u);
    AbsorbsSpeed(s, u);
    SettledEqual(Persist(Merge(s, NormalizeEffective(Merge(s, u)))), Persist(Merge(s, u)));
  }

  lemma MergeSelf(s: Settings)
    requires Settled(s)
    ensures Persist(Merge(s, s)) == s
  {}

  /** A flat output setting always takes effect when it is merged. */
  lemma FlatVoiceWins(s: Settings, u: Settings, voice: string)
    requires u.voice == Some(voice) && !u.clearVoice
    ensures NormalizeEffective(Merge(s, u)).voice == Some(voice)
      && OutputOf(NormalizeEffective(Merge(s, u))).voice == Some(voice)
  {
    hide InputIn, MergeInput;
  }

  /** A flat input setting does not: it takes effect exactly if the update does not also clear it, and a nested
      value in the update, or else what was in effect before, is none or the same. */
  lemma FlatInputFormatWins(s: Settings, u: Settings, format: string)
    requires Settled(s) && u.inputFormat == Some(format)
    ensures Persist(Merge(s, u)).inputFormat == Some(format)
       <==> !InputFormat(u).Cleared() && Or(InputFormat(u).nested, s.inputFormat) in {None, Some(format)}
  {
    hide Merge, InputIn, Settled, NormalizeEffective, WithoutClearMarkers;
    InputFormatMerges(s, u);
    InputFormatAligns(Merge(s, u));
  }

  // ---- the steps of the original ----

  /** Merging, with the mirroring of the output settings done member by member. */
  method MergeSettings(current: Settings, update: Settings) returns (merged: Settings)
    ensures merged == Merge(current, update)
  {
    merged := MergeFields(current, update);
    if TouchesOutput(update) {
      var audio := if merged.audio.Some? then merged.audio.value else Audio(None, None);
      var output := if audio.output.Some? then audio.output.value else NO_OUTPUT;
      if update.clearOutputFormat {
        output := output.(format := None, clearFormat := true);
      } else if update.outputFormat.Some? {
        output := output.(format := update.outputFormat, clearFormat := false);
      }
      if update.clearVoice {
        output := output.(voice := None, clearVoice := true);
      } else if update.voice.Some? {
        output := output.(voice := update.voice, clearVoice := false);
      }
      if update.clearSpeed {
        output := output.(speed := None, clearSpeed := true);
      } else if update.speed.Some? {
        output := output.(speed := update.speed, clearSpeed := false);
      }
      merged := merged.(audio := Some(audio.(output := Some(output))));
    }
  }

  /** The block repeated for every setting: a marker in either place clears both, otherwise the nested
      value counts before the flat one. */
  method Align<T>(c: Channel<T>) returns (aligned: Channel<T>)
    ensures aligned == Channel(c.Value(), c.Value(), c.Cleared(), c.Cleared())
  {
    aligned := c;
    if aligned.clearFlat || aligned.clearNested {
      aligned := aligned.(flat := None, nested := None, clearFlat := true, clearNested := true);
    } else {
      var effective := Or(aligned.nested, aligned.flat);
      aligned := aligned.(nested := effective);
      aligned := aligned.(flat := effective);
    }
  }

  method NormalizeSettings(s: Settings) returns (normalized: Settings)
    ensures normalized == NormalizeEffective(s)
  {
    var f := Align(InputFormat(s));
    var t := Align(TranscriptionOf(s));
    var n := Align(NoiseReductionOf(s));
    var d := Align(TurnDetectionOf(s));
    var g := Align(OutputFormat(s));
    var v := Align(Voice(s));
    var p := Align(Speed(s));
    var input := AudioInput(f.nested, n.nested, t.nested, d.nested, f.clearNested, n.clearNested, t.clearNested,
      d.clearNested);
    var output := AudioOutput(g.nested, v.nested, p.nested, g.clearNested, v.clearNested, p.clearNested);
    normalized := s.(inputFormat := f.flat, clearInputFormat := f.clearFlat, transcription := t.flat,
      clearTranscription := t.clearFlat);
    normalized := normalized.(noiseReduction := n.flat, clearNoiseReduction := n.clearFlat);
    normalized := normalized.(turnDetection := d.flat, clearTurnDetection := d.clearFlat);
    normalized := normalized.(outputFormat := g.flat, clearOutputFormat := g.clearFlat);
    normalized := normalized.(voice := v.flat, clearVoice := v.clearFlat, speed := p.flat, clearSpeed := p.clearFlat);
    normalized := normalized.(audio := Pack(input, output));
  }
}
