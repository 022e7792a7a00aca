/** The text-to-speech helpers (backend/services/tts_service.py): voice
    resolution, the memoising `AdaptiveTTSService` keyed by the (language,
    voice) pair, the voice list and the configuration helpers. Creating an
    `OpenAITTSService` is a factory call that succeeds or raises; `factoryOk`
    says which. `fallback` is the configured `openai_tts_voice`.

    As in the speech-to-text cache, the source records the new pair before it
    calls the factory; `SetLanguageAsWritten`/`GetProcessorAsWritten` model
    that, `SetLanguage`/`GetProcessor` commit only after success. */
module Tts {
  import opened Wrappers
  import opened Enums
  import opened Strings
  import opened Config

  /** `voice` if it is given and not empty, else the voice for the language. */
  function ResolveVoice(fallback: string, l: LanguageCode, voice: Option<string>): (r: string)
    ensures voice.Some? && voice.value != [] ==> r == voice.value
    ensures voice.None? || voice.value == [] ==> r == VoiceForLanguage(fallback, LanguageValue(l))
  {
    if voice.Some? && voice.value != [] then voice.value else VoiceForLanguage(fallback, LanguageValue(l))
  }

  /** Resolving an already resolved voice changes nothing, so the factory,
      which resolves again, uses the voice the cache recorded. */
  lemma ResolveVoiceIdempotent(fallback: string, l: LanguageCode, voice: Option<string>)
    ensures var v := ResolveVoice(fallback, l, voice);
      ResolveVoice(fallback, l, Some(v)) == v
  {
  }

  datatype TtsProcessor = TtsProcessor(serial: nat, language: LanguageCode, voice: string)

  datatype AdaptiveTts = AdaptiveTts(
    currentLanguage: Option<LanguageCode>,
    currentVoice: Option<string>,
    processor: Option<TtsProcessor>,
    created: nat)

  /** `AdaptiveTTSService()`: no language, no voice, no processor. */
  const NewAdaptiveTts: AdaptiveTts := AdaptiveTts(None, None, None, 0)

  datatype FactoryError = FactoryFailed

  datatype TtsStep = TtsStep(service: AdaptiveTts, error: Option<FactoryError>)

  datatype TtsGot<P> = TtsGot(service: AdaptiveTts, result: Result<P, FactoryError>)

  /** The cache names a pair exactly when it holds a processor, and the
      processor serves that pair. */
  predicate Consistent(svc: AdaptiveTts) {
    && (svc.processor.Some? <==> svc.currentLanguage.Some?)
    && (svc.processor.Some? <==> svc.currentVoice.Some?)
    && (svc.processor.Some? ==>
          svc.processor.value.language == svc.currentLanguage.value &&
          svc.processor.value.voice == svc.currentVoice.value)
  }

  /** The processor the factory builds for `l` and `voice`. */
  function Created(svc: AdaptiveTts, fallback: string, l: LanguageCode, voice: string): TtsProcessor {
    TtsProcessor(svc.created, l, ResolveVoice(fallback, l, Some(voice)))
  }

  // ---------------------------------------------------------------------------
  // As written

  /** `set_language(l, voice)` as written: a different pair is recorded, then
      the factory is called. */
  function SetLanguageAsWritten(svc: AdaptiveTts, fallback: string, l: LanguageCode, voice: Option<string>, factoryOk: bool): (r: TtsStep)
    ensures var v := ResolveVoice(fallback, l, voice);
      && r.service.currentLanguage == Some(l) && r.service.currentVoice == Some(v)
      && (r.service.created > svc.created <==>
            (svc.currentLanguage != Some(l) || svc.currentVoice != Some(v)) && factoryOk)
      && (r.error.Some? <==> (svc.currentLanguage != Some(l) || svc.currentVoice != Some(v)) && !factoryOk)
  {
    var v := ResolveVoice(fallback, l, voice);
    if svc.currentLanguage != Some(l) || svc.currentVoice != Some(v) then
      var recorded := svc.(currentLanguage := Some(l), currentVoice := Some(v));
      if factoryOk then
        TtsStep(recorded.(processor := Some(Created(svc, fallback, l, v)), created := svc.created + 1), None)
      else TtsStep(recorded, Some(FactoryFailed))
    else TtsStep(svc, None)
  }

  /** `get_processor(l, voice)` as written: returns the held processor, which
      may be absent. */
  function GetProcessorAsWritten(svc: AdaptiveTts, fallback: string, l: LanguageCode, voice: Option<string>, factoryOk: bool)
    : (r: TtsGot<Option<TtsProcessor>>)
    ensures var v := ResolveVoice(fallback, l, voice);
      svc.currentLanguage == Some(l) && svc.currentVoice == Some(v) && svc.processor.Some? ==>
        r == TtsGot(svc, Ok(svc.processor))
    ensures r.result.Ok? ==> r.result.value == r.service.processor
  {
    var v := ResolveVoice(fallback, l, voice);
    if svc.currentLanguage != Some(l) || svc.currentVoice != Some(v) || svc.processor.None? then
      var s := SetLanguageAsWritten(svc, fallback, l, Some(v), factoryOk);
      if s.error.Some? then TtsGot(s.service, Err(s.error.value)) else TtsGot(s.service, Ok(s.service.processor))
    else TtsGot(svc, Ok(svc.processor))
  }

  /** With a factory that never fails the code as written keeps the cache
      consistent and serves the resolved pair. */
  lemma GetProcessorAsWrittenWhenFactoryOk(svc: AdaptiveTts, fallback: string, l: LanguageCode, voice: Option<string>)
    requires Consistent(svc)
    ensures var r := GetProcessorAsWritten(svc, fallback, l, voice, true);
      && Consistent(r.service)
      && r.result.Ok? && r.result.value.Some?
      && r.result.value.value.language == l
      && r.result.value.value.voice == ResolveVoice(fallback, l, voice)
  {
    ResolveVoiceIdempotent(fallback, l, voice);
  }

  /** A failed switch from English with `alloy` to Spanish leaves the English
      processor under the Spanish pair; the next request returns it. */
  lemma StaleProcessorAsWritten(fallback: string)
    ensures var first := GetProcessorAsWritten(NewAdaptiveTts, fallback, English, Some("alloy"), true);
      var failed := SetLanguageAsWritten(first.service, fallback, Spanish, Some("nova"), false);
      var again := GetProcessorAsWritten(failed.service, fallback, Spanish, Some("nova"), true);
      && first.result == Ok(Some(TtsProcessor(0, English, "alloy")))
      && failed.error == Some(FactoryFailed)
      && again.result == Ok(Some(TtsProcessor(0, English, "alloy")))
  {
  }

  // ---------------------------------------------------------------------------
  // Corrected

  /** Call the factory for the pair and, only if it succeeds, record the pair
      and the new processor. */
  function Install(svc: AdaptiveTts, fallback: string, l: LanguageCode, v: string, factoryOk: bool): (r: TtsStep)
    ensures factoryOk ==>
      && r.error.None? && r.service.created == svc.created + 1
      && r.service.currentLanguage == Some(l) && r.service.currentVoice == Some(v)
      && r.service.processor == Some(Created(svc, fallback, l, v))
    ensures !factoryOk ==> r == TtsStep(svc, Some(FactoryFailed))
  {
    if factoryOk then
      TtsStep(AdaptiveTts(Some(l), Some(v), Some(Created(svc, fallback, l, v)), svc.created + 1), None)
    else TtsStep(svc, Some(FactoryFailed))
  }

  /** `set_language(l, voice)`, committing only after success: a processor is
      created iff the resolved pair differs from the recorded one; afterwards
      the recorded pair is the resolved pair; a failure changes nothing. */
  function SetLanguage(svc: AdaptiveTts, fallback: string, l: LanguageCode, voice: Option<string>, factoryOk: bool): (r: TtsStep)
    ensures var v := ResolveVoice(fallback, l, voice);
      && (r.service.created > svc.created <==>
            (svc.currentLanguage != Some(l) || svc.currentVoice != Some(v)) && factoryOk)
      && (r.error.None? ==> r.service.currentLanguage == Some(l) && r.service.currentVoice == Some(v))
      && (r.error.Some? ==> r.service == svc)
    ensures Consistent(svc) ==> Consistent(r.service)
  {
    var v := ResolveVoice(fallback, l, voice);
    ResolveVoiceIdempotent(fallback, l, voice);
    if svc.currentLanguage != Some(l) || svc.currentVoice != Some(v) then Install(svc, fallback, l, v, factoryOk)
    else TtsStep(svc, None)
  }

  /** `get_processor(l, voice)`, corrected: a held processor is reused only if
      it serves the resolved pair, and whatever it returns is held and serves
      that pair. */
  function GetProcessor(svc: AdaptiveTts, fallback: string, l: LanguageCode, voice: Option<string>, factoryOk: bool)
    : (r: TtsGot<TtsProcessor>)
    ensures var v := ResolveVoice(fallback, l, voice);
      && (r.result.Ok? ==>
            && r.result.value.language == l && r.result.value.voice == v
            && r.service.currentLanguage == Some(l) && r.service.currentVoice == Some(v)
            && r.service.processor == Some(r.result.value))
      && (r.result.Err? ==> r.service == svc)
      && (svc.currentLanguage == Some(l) && svc.currentVoice == Some(v) && svc.processor.Some? &&
          svc.processor.value.language == l && svc.processor.value.voice == v ==>
            r == TtsGot(svc, Ok(svc.processor.value)))
    ensures Consistent(svc) ==> Consistent(r.service)
  {
    var v := ResolveVoice(fallback, l, voice);
    ResolveVoiceIdempotent(fallback, l, voice);
    if || svc.currentLanguage != Some(l) || svc.currentVoice != Some(v) || svc.processor.None?
       || svc.processor.value.language != l || svc.processor.value.voice != v then
      var s := Install(svc, fallback, l, v, factoryOk);
      if s.error.Some? then TtsGot(svc, Err(s.error.value)) else TtsGot(s.service, Ok(s.service.processor.value))
    else TtsGot(svc, Ok(svc.processor.value))
  }

  /** The sequence that exposes the stale processor is served correctly. */
  lemma NoStaleProcessor(fallback: string)
    ensures var first := GetProcessor(NewAdaptiveTts, fallback, English, Some("alloy"), true);
      var failed := SetLanguage(first.service, fallback, Spanish, Some("nova"), false);
      var again := GetProcessor(failed.service, fallback, Spanish, Some("nova"), true);
      again.result == Ok(TtsProcessor(1, Spanish, "nova"))
  {
  }

  // ---------------------------------------------------------------------------
  // Voices and configuration helpers

  /** The keys of `AVAILABLE_VOICES`, in order. */
  const AvailableVoices: seq<string> := ["alloy", "echo", "fable", "onyx", "nova", "shimmer"]

  /** Every voice the language table picks is an available voice, so with an
      available configured voice every language gets an available voice. */
  lemma VoiceForLanguageAvailable(fallback: string, code: string)
    requires fallback in AvailableVoices
    ensures VoiceForLanguage(fallback, code) in AvailableVoices
  {
    var p := LanguagePrefix(code);
    if p in VoiceMap {
      assert VoiceMap.Values <= set v | v in AvailableVoices;
      assert VoiceMap[p] in VoiceMap.Values;
    }
  }

  datatype TtsConfig = TtsConfig(model: string, defaultVoice: string, apiKey: string, timeout: int, availableVoices: seq<string>)

  /** `get_tts_config()`: the OpenAI key is shown masked and the voice list is
      exactly the available voices. */
  function GetTtsConfig(s: Settings): (r: TtsConfig)
    ensures r.model == s.openaiTtsModel && r.defaultVoice == s.openaiTtsVoice && r.timeout == s.ttsTimeoutSeconds
    ensures r.apiKey == NotSet <==> s.openaiApiKey == []
    ensures s.openaiApiKey != [] ==> r.apiKey == Take(s.openaiApiKey, 10) + Ellipsis
    ensures |r.availableVoices| == 6 && forall v :: v in r.availableVoices <==> v in AvailableVoices
  {
    MaskKeyReveals(s.openaiApiKey);
    TtsConfig(s.openaiTtsModel, s.openaiTtsVoice, MaskKey(s.openaiApiKey), s.ttsTimeoutSeconds, AvailableVoices)
  }

  /** The configuration shown to clients never depends on the OpenAI key
      beyond its first ten characters. */
  lemma GetTtsConfigHidesKeyTail(s: Settings, key: string)
    requires s.openaiApiKey != [] && key != [] && Take(key, 10) == Take(s.openaiApiKey, 10)
    ensures GetTtsConfig(s.(openaiApiKey := key)) == GetTtsConfig(s)
  {
    MaskHidesTail(key, s.openaiApiKey);
  }

  datatype TtsWarning = UnknownVoice(voice: string)

  /** `validate_tts_config()`: raises iff the OpenAI key is empty; otherwise
      an unknown configured voice is only a warning. */
  function ValidateTtsConfig(s: Settings): (r: Result<seq<TtsWarning>, string>)
    ensures r.Err? <==> s.openaiApiKey == []
    ensures r.Ok? ==> (r.value == [] <==> s.openaiTtsVoice in AvailableVoices)
    ensures r.Ok? && r.value != [] ==> r.value == [UnknownVoice(s.openaiTtsVoice)]
  {
    if s.openaiApiKey == [] then Err("OpenAI API key not configured")
    else if s.openaiTtsVoice !in AvailableVoices then Ok([UnknownVoice(s.openaiTtsVoice)])
    else Ok([])
  }

  /** The default settings pass with no warning once the key is set. */
  lemma DefaultTtsSettingsValid(openaiKey: string, openrouterKey: string)
    requires openaiKey != []
    ensures ValidateTtsConfig(DefaultSettings(openaiKey, openrouterKey)) == Ok([])
  {
  }
}
