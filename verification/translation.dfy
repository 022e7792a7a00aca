/** The translation stage (backend/services/translation_service.py): which
    frames are translated, the single fallback retry after an HTTP error, and
    the configuration helpers. The OpenRouter call is an oracle `api` from the
    request to its reply; transport, headers and JSON decoding are folded
    into the reply. */
module Translation {
  import opened Wrappers
  import opened Strings
  import opened Enums
  import opened Frames
  import opened Config

  /** The system prompt: fixed instructions with the display names of the
      two languages filled in. */
  datatype SystemPrompt = SystemPrompt(sourceName: string, targetName: string)

  /** One chat-completion request. */
  datatype Request = Request(model: string, prompt: SystemPrompt, userText: string, maxTokens: nat, temperature: real)

  const MaxTokens: nat := 500
  const Temperature: real := 0.3

  /** What one API call yields: the first choice's content, an `httpx`
      error (including a non-success status), or any other failure. */
  datatype ApiReply = Content(text: string) | HttpFailure | OtherFailure

  type Api = Request -> ApiReply

  /** The exception `_translate` lets escape. `FallbackMissing` is the
      `IndexError` raised when the fallback list is empty. */
  datatype TranslationError = HttpError | FallbackMissing | OtherError

  /** The processor's state: the language pair, the prompt and `self.model`. */
  datatype Translator = Translator(source: LanguageCode, target: LanguageCode, model: string, prompt: SystemPrompt)

  /** `LANGUAGE_NAMES.get(l, l.value)`. */
  function DisplayName(l: LanguageCode): (r: string)
    ensures l in LanguageNames && r == LanguageNames[l]
  {
    LanguageNamesTotal();
    if l in LanguageNames then LanguageNames[l] else LanguageValue(l)
  }

  /** `TranslationProcessor(source, target, model)`: the model given, unless
      it is absent or empty, else the configured one. */
  function NewTranslator(source: LanguageCode, target: LanguageCode, model: Option<string>, s: Settings): (t: Translator)
    ensures t.source == source && t.target == target
    ensures model.Some? && model.value != [] ==> t.model == model.value
    ensures model.None? || model.value == [] ==> t.model == s.openrouterModel
    ensures source in LanguageNames && target in LanguageNames
    ensures t.prompt == SystemPrompt(LanguageNames[source], LanguageNames[target])
  {
    var m := if model.Some? && model.value != [] then model.value else s.openrouterModel;
    Translator(source, target, m, SystemPrompt(DisplayName(source), DisplayName(target)))
  }

  function RequestFor(t: Translator, model: string, text: string): Request {
    Request(model, t.prompt, text, MaxTokens, Temperature)
  }

  /** The result of a translation attempt, the processor state afterwards and
      the models the API was called with, in order. */
  datatype Outcome = Outcome(result: Result<string, TranslationError>, translator: Translator, calls: seq<string>)

  /** Orders the mutual recursion: `_translate` with the first fallback
      model never falls back again. */
  function Rank(model: string, fallbacks: seq<string>): nat {
    if fallbacks != [] && model == fallbacks[0] then 0 else 2
  }

  /** `_translate(text)` with `fallbacks` the configured fallback models. On
      an HTTP error the first fallback model is tried once, unless it is the
      current model, in which case the error propagates; an empty fallback
      list raises instead. The outcome is decided by the last reply: content
      gives its stripped text, any other failure raises, and an HTTP error
      raises once no retry is left. */
  function Translate(t: Translator, fallbacks: seq<string>, api: Api, text: string): (r: Outcome)
    ensures r.translator == t
    ensures 1 <= |r.calls| <= 2 && r.calls[0] == t.model
    ensures |r.calls| == 2 <==>
      api(RequestFor(t, t.model, text)).HttpFailure? && fallbacks != [] && t.model != fallbacks[0]
    ensures |r.calls| == 2 ==> r.calls[1] == fallbacks[0]
    ensures var last := api(RequestFor(t, r.calls[|r.calls| - 1], text));
      && (last.Content? ==> r.result == Ok(Strip(last.text)))
      && (last.OtherFailure? ==> r.result == Err(OtherError))
      && (last.HttpFailure? ==> r.result == if fallbacks == [] then Err(FallbackMissing) else Err(HttpError))
    ensures r.result.Ok? ==> api(RequestFor(t, r.calls[|r.calls| - 1], text)).Content?
    ensures r.result == Err(FallbackMissing) <==> api(RequestFor(t, t.model, text)).HttpFailure? && fallbacks == []
    ensures api(RequestFor(t, t.model, text)).HttpFailure? && fallbacks != [] && t.model == fallbacks[0] ==>
      r.result == Err(HttpError)
    decreases Rank(t.model, fallbacks)
  {
    match api(RequestFor(t, t.model, text))
    case Content(c) => Outcome(Ok(Strip(c)), t, [t.model])
    case OtherFailure => Outcome(Err(OtherError), t, [t.model])
    case HttpFailure =>
      if fallbacks == [] then Outcome(Err(FallbackMissing), t, [t.model])
      else if t.model != fallbacks[0] then
        var inner := TranslateWithModel(t, fallbacks, api, text, fallbacks[0]);
        Outcome(inner.result, inner.translator, [t.model] + inner.calls)
      else Outcome(Err(HttpError), t, [t.model])
  }

  /** `_translate_with_model(text, model)`: one `_translate` under `model`,
      after which `self.model` is restored whether it succeeded or not. With
      the first fallback model it makes exactly one call. */
  function TranslateWithModel(t: Translator, fallbacks: seq<string>, api: Api, text: string, model: string): (r: Outcome)
    ensures r.translator == t
    ensures |r.calls| >= 1 && r.calls[0] == model
    ensures fallbacks != [] && model == fallbacks[0] ==> r.calls == [model]
    ensures var last := api(RequestFor(t, r.calls[|r.calls| - 1], text));
      && (last.Content? ==> r.result == Ok(Strip(last.text)))
      && (last.OtherFailure? ==> r.result == Err(OtherError))
      && (last.HttpFailure? ==> r.result == if fallbacks == [] then Err(FallbackMissing) else Err(HttpError))
    decreases Rank(model, fallbacks) + 1
  {
    var inner := Translate(t.(model := model), fallbacks, api, text);
    assert RequestFor(t.(model := model), inner.calls[|inner.calls| - 1], text)
        == RequestFor(t, inner.calls[|inner.calls| - 1], text);
    Outcome(inner.result, inner.translator.(model := t.model), inner.calls)
  }

  /** When the fallback also fails over HTTP, the HTTP error propagates. */
  lemma FallbackFailureRaises(t: Translator, fallbacks: seq<string>, api: Api, text: string)
    requires fallbacks != [] && t.model != fallbacks[0]
    requires api(RequestFor(t, t.model, text)).HttpFailure?
    requires api(RequestFor(t, fallbacks[0], text)).HttpFailure?
    ensures Translate(t, fallbacks, api, text).result == Err(HttpError)
    ensures Translate(t, fallbacks, api, text).calls == [t.model, fallbacks[0]]
  {
    assert RequestFor(t.(model := fallbacks[0]), fallbacks[0], text) == RequestFor(t, fallbacks[0], text);
  }

  /** What `process_frame` does with one frame: whether it went through the
      base class, the one frame it pushed and the models the API was called with. */
  datatype TranslationStep = TranslationStep(toBase: bool, pushed: Frame, direction: Direction, calls: seq<string>)

  /** Text that is empty or only whitespace is not translated. */
  predicate IsBlank(text: string) {
    text == [] || Strip(text) == []
  }

  /** `TranslationProcessor.process_frame(frame, direction)`. */
  function ProcessFrame(t: Translator, fallbacks: seq<string>, api: Api, f: Frame, d: Direction): (r: TranslationStep)
    ensures r.direction == d
    ensures r.toBase <==> !IsText(f)
    ensures r.calls == [] <==> !IsText(f) || d == Upstream || IsBlank(f.text)
    ensures r.calls != [] ==> r.calls == Translate(t, fallbacks, api, f.text).calls
    ensures r.pushed != f ==>
      r.calls != [] && Translate(t, fallbacks, api, f.text).result.Ok? &&
      r.pushed == TextFrame(Translate(t, fallbacks, api, f.text).result.value)
    ensures r.calls != [] && Translate(t, fallbacks, api, f.text).result.Ok? ==>
      r.pushed == TextFrame(Translate(t, fallbacks, api, f.text).result.value)
    ensures r.calls != [] && Translate(t, fallbacks, api, f.text).result.Err? ==> r.pushed == f
  {
    if !IsText(f) then TranslationStep(true, f, d, [])
    else if d.Upstream? then TranslationStep(false, f, d, [])
    else if IsBlank(f.text) then TranslationStep(false, f, d, [])
    else
      var out := Translate(t, fallbacks, api, f.text);
      match out.result
      case Ok(translated) => TranslationStep(false, TextFrame(translated), d, out.calls)
      case Err(_) => TranslationStep(false, f, d, out.calls)
  }

  /** A downstream text frame worth translating, a transcription or a plain
      text frame alike, comes out as the stripped reply of the model that
      answered, or, on any failure, unchanged. */
  lemma ProcessFrameTranslates(t: Translator, fallbacks: seq<string>, api: Api, f: Frame)
    requires IsText(f) && !IsBlank(f.text)
    ensures var r := ProcessFrame(t, fallbacks, api, f, Downstream);
      var out := Translate(t, fallbacks, api, f.text);
      && !r.toBase
      && 1 <= |r.calls| <= 2 && r.calls == out.calls
      && (out.result.Ok? ==> r.pushed == TextFrame(out.result.value) && IsTrimmed(out.result.value))
      && (out.result.Err? ==> r.pushed == f)
  {
  }

  /** A model that answers on the first call is the whole story: one call,
      and its stripped content is the translation. */
  lemma FirstReplyTranslates(t: Translator, fallbacks: seq<string>, api: Api, text: string, c: string)
    requires api(RequestFor(t, t.model, text)) == Content(c)
    ensures Translate(t, fallbacks, api, text) == Outcome(Ok(Strip(c)), t, [t.model])
  {
  }

  /** After an HTTP error the first fallback model is asked once, and its
      answer is the translation. */
  lemma FallbackRecovers(t: Translator, fallbacks: seq<string>, api: Api, text: string, c: string)
    requires fallbacks != [] && t.model != fallbacks[0]
    requires api(RequestFor(t, t.model, text)).HttpFailure?
    requires api(RequestFor(t, fallbacks[0], text)) == Content(c)
    ensures Translate(t, fallbacks, api, text) == Outcome(Ok(Strip(c)), t, [t.model, fallbacks[0]])
  {
    assert RequestFor(t.(model := fallbacks[0]), fallbacks[0], text) == RequestFor(t, fallbacks[0], text);
  }

  // ---------------------------------------------------------------------------
  // Configuration helpers

  datatype TranslationConfig = TranslationConfig(
    baseUrl: string, defaultModel: string, fallbackModels: seq<string>, apiKey: string, timeout: int)

  /** `get_translation_config()`: the key is shown masked. */
  function GetTranslationConfig(s: Settings): (r: TranslationConfig)
    ensures r.baseUrl == s.openrouterBaseUrl && r.defaultModel == s.openrouterModel
    ensures r.fallbackModels == s.openrouterFallbackModels && r.timeout == s.translationTimeoutSeconds
    ensures r.apiKey == NotSet <==> s.openrouterApiKey == []
    ensures s.openrouterApiKey != [] ==> r.apiKey == Take(s.openrouterApiKey, 10) + Ellipsis
  {
    MaskKeyReveals(s.openrouterApiKey);
    TranslationConfig(s.openrouterBaseUrl, s.openrouterModel, s.openrouterFallbackModels,
      MaskKey(s.openrouterApiKey), s.translationTimeoutSeconds)
  }

  /** The configuration shown to clients never depends on the OpenRouter
      key beyond its first ten characters. */
  lemma GetTranslationConfigHidesKeyTail(s: Settings, key: string)
    requires s.openrouterApiKey != [] && key != [] && Take(key, 10) == Take(s.openrouterApiKey, 10)
    ensures GetTranslationConfig(s.(openrouterApiKey := key)) == GetTranslationConfig(s)
  {
    MaskHidesTail(key, s.openrouterApiKey);
  }

  /** `validate_translation_config()`: raises iff the OpenRouter key is empty. */
  function ValidateTranslationConfig(s: Settings): (r: Result<(), string>)
    ensures r.Err? <==> s.openrouterApiKey == []
  {
    if s.openrouterApiKey == [] then Err("OpenRouter API key not configured") else Ok(())
  }
}
