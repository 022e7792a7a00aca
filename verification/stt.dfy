/** The speech-to-text helpers (backend/services/stt_service.py): the
    memoising `AdaptiveSTTService` and the configuration helpers. Creating
    an `OpenAISTTService` is a factory call that succeeds or raises;
    `factoryOk` says which, and a created processor is identified by a serial
    number, the count of processors created before it.

    The source records the new language before it calls the factory, so a
    failed call leaves the cache naming a language its processor does not
    serve. `SetLanguageAsWritten`/`GetProcessorAsWritten` model the code as
    written; `SetLanguage`/`GetProcessor` commit only after the factory
    succeeded. */
module Stt {
  import opened Wrappers
  import opened Enums
  import opened Strings
  import opened Config

  datatype SttProcessor = SttProcessor(serial: nat, language: LanguageCode)

  datatype AdaptiveStt = AdaptiveStt(
    currentLanguage: Option<LanguageCode>,
    processor: Option<SttProcessor>,
    created: nat)

  /** `AdaptiveSTTService()`: no language, no processor. */
  const NewAdaptiveStt: AdaptiveStt := AdaptiveStt(None, None, 0)

  /** The factory raised. */
  datatype FactoryError = FactoryFailed

  /** The cache after `set_language`, and the exception it raised, if any. */
  datatype SttStep = SttStep(service: AdaptiveStt, error: Option<FactoryError>)

  /** The cache after `get_processor`, and what it returned or raised. */
  datatype SttGot<P> = SttGot(service: AdaptiveStt, result: Result<P, FactoryError>)

  /** The cache names a language exactly when it holds a processor, and the
      processor serves that language. */
  predicate Consistent(svc: AdaptiveStt) {
    && (svc.processor.Some? <==> svc.currentLanguage.Some?)
    && (svc.processor.Some? ==> svc.processor.value.language == svc.currentLanguage.value)
  }

  lemma NewAdaptiveSttConsistent()
    ensures Consistent(NewAdaptiveStt)
    ensures NewAdaptiveStt.currentLanguage == None && NewAdaptiveStt.processor == None
  {
  }

  // ---------------------------------------------------------------------------
  // As written

  /** `set_language(l)` as written: a different language is recorded, then
      the factory is called. */
  function SetLanguageAsWritten(svc: AdaptiveStt, l: LanguageCode, factoryOk: bool): (r: SttStep)
    ensures r.service.currentLanguage == Some(l)
    ensures r.service.created == if svc.currentLanguage != Some(l) && factoryOk then svc.created + 1 else svc.created
    ensures r.error.Some? <==> svc.currentLanguage != Some(l) && !factoryOk
    ensures svc.currentLanguage == Some(l) ==> r.service == svc
  {
    if svc.currentLanguage != Some(l) then
      var recorded := svc.(currentLanguage := Some(l));
      if factoryOk then SttStep(recorded.(processor := Some(SttProcessor(svc.created, l)), created := svc.created + 1), None)
      else SttStep(recorded, Some(FactoryFailed))
    else SttStep(svc, None)
  }

  /** `get_processor(l)` as written: returns the held processor, which may be
      absent. */
  function GetProcessorAsWritten(svc: AdaptiveStt, l: LanguageCode, factoryOk: bool): (r: SttGot<Option<SttProcessor>>)
    ensures svc.currentLanguage == Some(l) && svc.processor.Some? ==> r == SttGot(svc, Ok(svc.processor))
    ensures r.result.Ok? ==> r.result.value == r.service.processor
    ensures r.service.currentLanguage == Some(l)
  {
    if svc.currentLanguage != Some(l) || svc.processor.None? then
      var s := SetLanguageAsWritten(svc, l, factoryOk);
      if s.error.Some? then SttGot(s.service, Err(s.error.value)) else SttGot(s.service, Ok(s.service.processor))
    else SttGot(svc, Ok(svc.processor))
  }

  /** With a factory that never fails the code as written keeps the cache
      consistent and serves the requested language. */
  lemma GetProcessorAsWrittenWhenFactoryOk(svc: AdaptiveStt, l: LanguageCode)
    requires Consistent(svc)
    ensures var r := GetProcessorAsWritten(svc, l, true);
      && Consistent(r.service)
      && r.result.Ok? && r.result.value.Some? && r.result.value.value.language == l
  {
  }

  /** A failed switch to Spanish leaves the English processor in place under
      the name Spanish; the next request for Spanish returns it. */
  lemma StaleProcessorAsWritten()
    ensures var first := GetProcessorAsWritten(NewAdaptiveStt, English, true);
      var failed := SetLanguageAsWritten(first.service, Spanish, false);
      var again := GetProcessorAsWritten(failed.service, Spanish, true);
      && first.result == Ok(Some(SttProcessor(0, English)))
      && failed.error == Some(FactoryFailed)
      && again.result == Ok(Some(SttProcessor(0, English)))
      && !Consistent(failed.service)
  {
  }

  /** A failed first request leaves a language and no processor; the next
      request for that language returns no processor at all. */
  lemma MissingProcessorAsWritten()
    ensures var failed := GetProcessorAsWritten(NewAdaptiveStt, English, false);
      var again := GetProcessorAsWritten(failed.service, English, true);
      && failed.result == Err(FactoryFailed)
      && again.result == Ok(None)
  {
  }

  // ---------------------------------------------------------------------------
  // Corrected

  /** Call the factory for `l` and, only if it succeeds, record `l` and the
      new processor. */
  function Install(svc: AdaptiveStt, l: LanguageCode, factoryOk: bool): (r: SttStep)
    ensures factoryOk ==> r == SttStep(AdaptiveStt(Some(l), Some(SttProcessor(svc.created, l)), svc.created + 1), None)
    ensures !factoryOk ==> r == SttStep(svc, Some(FactoryFailed))
  {
    if factoryOk then SttStep(AdaptiveStt(Some(l), Some(SttProcessor(svc.created, l)), svc.created + 1), None)
    else SttStep(svc, Some(FactoryFailed))
  }

  /** `set_language(l)`, committing only after the factory succeeded: a new
      processor is created iff the language differs; a failure changes nothing. */
  function SetLanguage(svc: AdaptiveStt, l: LanguageCode, factoryOk: bool): (r: SttStep)
    ensures r.service.created > svc.created <==> svc.currentLanguage != Some(l) && factoryOk
    ensures r.error.None? ==> r.service.currentLanguage == Some(l)
    ensures r.error.Some? ==> r.service == svc && svc.currentLanguage != Some(l)
    ensures Consistent(svc) ==> Consistent(r.service)
  {
    if svc.currentLanguage != Some(l) then Install(svc, l, factoryOk) else SttStep(svc, None)
  }

  /** `get_processor(l)`, corrected: a held processor is reused only if it
      serves `l` (in a consistent cache, exactly the source's condition), and
      whenever it returns, the processor it returns is held and serves `l`. */
  function GetProcessor(svc: AdaptiveStt, l: LanguageCode, factoryOk: bool): (r: SttGot<SttProcessor>)
    ensures r.result.Ok? ==>
      && r.result.value.language == l
      && r.service.currentLanguage == Some(l)
      && r.service.processor == Some(r.result.value)
    ensures r.result.Err? ==> r.service == svc
    ensures svc.currentLanguage == Some(l) && svc.processor.Some? && svc.processor.value.language == l ==>
      r == SttGot(svc, Ok(svc.processor.value))
    ensures Consistent(svc) ==> Consistent(r.service)
  {
    if svc.currentLanguage != Some(l) || svc.processor.None? || svc.processor.value.language != l then
      var s := Install(svc, l, factoryOk);
      if s.error.Some? then SttGot(svc, Err(s.error.value)) else SttGot(s.service, Ok(s.service.processor.value))
    else SttGot(svc, Ok(svc.processor.value))
  }

  /** The sequence that exposes the stale processor is served correctly. */
  lemma NoStaleProcessor()
    ensures var first := GetProcessor(NewAdaptiveStt, English, true);
      var failed := SetLanguage(first.service, Spanish, false);
      var again := GetProcessor(failed.service, Spanish, true);
      again.result == Ok(SttProcessor(1, Spanish))
  {
  }

  // ---------------------------------------------------------------------------
  // Configuration helpers

  datatype SttConfig = SttConfig(model: string, apiKey: string, timeout: int)

  /** `get_stt_config()`: the OpenAI key is shown masked. */
  function GetSttConfig(s: Settings): (r: SttConfig)
    ensures r.model == s.openaiSttModel && r.timeout == s.sttTimeoutSeconds
    ensures r.apiKey == NotSet <==> s.openaiApiKey == []
    ensures s.openaiApiKey != [] ==> r.apiKey == Take(s.openaiApiKey, 10) + Ellipsis
  {
    MaskKeyReveals(s.openaiApiKey);
    SttConfig(s.openaiSttModel, MaskKey(s.openaiApiKey), s.sttTimeoutSeconds)
  }

  /** The configuration shown to clients never depends on the OpenAI key
      beyond its first ten characters. */
  lemma GetSttConfigHidesKeyTail(s: Settings, key: string)
    requires s.openaiApiKey != [] && key != [] && Take(key, 10) == Take(s.openaiApiKey, 10)
    ensures GetSttConfig(s.(openaiApiKey := key)) == GetSttConfig(s)
  {
    MaskHidesTail(key, s.openaiApiKey);
  }

  /** `validate_stt_config()`: raises iff the OpenAI key is empty. */
  function ValidateSttConfig(s: Settings): (r: Result<(), string>)
    ensures r.Err? <==> s.openaiApiKey == []
  {
    if s.openaiApiKey == [] then Err("OpenAI API key not configured") else Ok(())
  }
}
