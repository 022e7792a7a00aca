/** The configuration helpers of backend/config.py: the settings record with
    its defaults, comma-separated list parsing, the language-to-voice table
    and the ICE-server list, plus the API-key masking the service
    configuration helpers share. Reading the environment and the `.env` file
    is not modelled: a `Settings` value is whatever was loaded. */
module Config {
  import opened Wrappers
  import opened Strings

  /** The settings the modelled code reads. Floating-point settings are
      `real`; the model only compares them. */
  datatype Settings = Settings(
    allowedOrigins: seq<string>,
    openaiApiKey: string,
    openaiSttModel: string,
    openaiTtsModel: string,
    openaiTtsVoice: string,
    openrouterApiKey: string,
    openrouterBaseUrl: string,
    openrouterModel: string,
    openrouterFallbackModels: seq<string>,
    stunServerUrl: string,
    turnServerUrl: Option<string>,
    turnUsername: Option<string>,
    turnCredential: Option<string>,
    vadConfidenceThreshold: real,
    vadStartSecs: real,
    vadStopSecs: real,
    audioSampleRate: int,
    audioChannels: int,
    maxSessions: int,
    sttTimeoutSeconds: int,
    translationTimeoutSeconds: int,
    ttsTimeoutSeconds: int)

  /** The defaults; the two API keys have none and must be supplied. */
  function DefaultSettings(openaiKey: string, openrouterKey: string): (s: Settings)
    ensures s.openaiApiKey == openaiKey && s.openrouterApiKey == openrouterKey
    ensures s.allowedOrigins == ["http://localhost:3000", "http://localhost:3001"]
    ensures s.openaiTtsVoice == "alloy"
    ensures s.openrouterModel == "anthropic/claude-3.5-sonnet"
    ensures s.openrouterFallbackModels == ["openai/gpt-4-turbo-preview", "anthropic/claude-3-opus"]
    ensures s.turnServerUrl == None && s.turnUsername == None && s.turnCredential == None
    ensures s.vadConfidenceThreshold == 0.7 && s.vadStartSecs == 0.2 && s.vadStopSecs == 0.8
    ensures s.audioSampleRate == 16000 && s.audioChannels == 1 && s.maxSessions == 100
    ensures s.sttTimeoutSeconds == 10 && s.translationTimeoutSeconds == 15 && s.ttsTimeoutSeconds == 10
  {
    Settings(
      ["http://localhost:3000", "http://localhost:3001"],
      openaiKey, "whisper-1", "tts-1", "alloy",
      openrouterKey, "https://openrouter.ai/api/v1", "anthropic/claude-3.5-sonnet",
      ["openai/gpt-4-turbo-preview", "anthropic/claude-3-opus"],
      "stun:stun.l.google.com:19302", None, None, None,
      0.7, 0.2, 0.8,
      16000, 1, 100,
      10, 15, 10)
  }

  // ---------------------------------------------------------------------------
  // parse_comma_separated

  /** The value handed to the validator: a raw string, or an already-parsed list. */
  datatype CommaInput = Text(text: string) | Items(items: seq<string>)

  /** Every item is non-empty and has no whitespace at either end. */
  predicate AllKept(items: seq<string>)
    decreases |items|
  {
    items != [] ==> items[0] != [] && IsTrimmed(items[0]) && AllKept(items[1..])
  }

  /** `AllKept` is the item-by-item property. */
  lemma {:induction false} AllKeptItems(items: seq<string>)
    ensures AllKept(items) <==> forall i :: 0 <= i < |items| ==> items[i] != [] && IsTrimmed(items[i])
    decreases |items|
  {
    if items != [] {
      AllKeptItems(items[1..]);
      assert forall i :: 1 <= i < |items| ==> items[1..][i - 1] == items[i];
    }
  }

  /** The stripped pieces that are not empty, in order. */
  function KeepStripped(parts: seq<string>): (r: seq<string>)
    ensures |r| <= |parts|
    ensures AllKept(r)
    decreases |parts|
  {
    if parts == [] then []
    else
      var rest := KeepStripped(parts[1..]);
      var s := Strip(parts[0]);
      if s == [] then rest
      else
        assert ([s] + rest)[1..] == rest;
        [s] + rest
  }

  /** Concatenation is associative; stated for any element type so that
      no fact about the elements gets in the way. */
  lemma AppendAssociates<T>(p: seq<T>, q: seq<T>, r: seq<T>)
    ensures p + (q + r) == (p + q) + r
  {
  }

  /** Keeping distributes over concatenation: kept items stay in the order
      of their parts. */
  lemma {:induction false} KeepStrippedAppend(a: seq<string>, b: seq<string>)
    ensures KeepStripped(a + b) == KeepStripped(a) + KeepStripped(b)
    decreases |a|
  {
    if a != [] {
      var ab := a + b;
      assert ab[1..] == a[1..] + b;
      assert ab[0] == a[0];
      KeepStrippedAppend(a[1..], b);
      var x, y, z := KeepStripped(a[1..]), KeepStripped(b), Strip(a[0]);
      if z != [] {
        assert KeepStripped(ab) == [z] + (x + y);
        assert KeepStripped(a) == [z] + x;
        AppendAssociates([z], x, y);
      } else {
        assert KeepStripped(ab) == x + y;
        assert KeepStripped(a) == x;
      }
    } else {
      assert a + b == b;
    }
  }

  /** A character no part contains is in no kept item. */
  lemma {:induction false} KeepStrippedAvoids(parts: seq<string>, c: char)
    requires forall i :: 0 <= i < |parts| ==> c !in parts[i]
    ensures forall i :: 0 <= i < |KeepStripped(parts)| ==> c !in KeepStripped(parts)[i]
    decreases |parts|
  {
    if parts != [] {
      KeepStrippedAvoids(parts[1..], c);
      if c in Strip(parts[0]) {
        StripSubset(parts[0], c);
      }
      var rest := KeepStripped(parts[1..]);
      assert forall i :: 1 <= i < |parts| ==> parts[1..][i - 1] == parts[i];
    }
  }

  /** Items that are already non-empty and trimmed are kept as they are. */
  lemma {:induction false} KeepStrippedFixes(parts: seq<string>)
    requires AllKept(parts)
    ensures KeepStripped(parts) == parts
    decreases |parts|
  {
    if parts != [] {
      StripTrimmed(parts[0]);
      KeepStrippedFixes(parts[1..]);
      assert [parts[0]] + parts[1..] == parts;
    }
  }

  /** `parse_comma_separated(v)`: a string becomes the stripped, non-empty
      comma-separated items in order; any other value is returned unchanged. */
  function ParseCommaSeparated(v: CommaInput): (r: seq<string>)
    ensures v.Items? ==> r == v.items
    ensures v.Text? ==> |r| <= Count(v.text, ',') + 1
    ensures forall i :: 0 <= i < |r| && v.Text? ==> r[i] != [] && IsTrimmed(r[i]) && ',' !in r[i]
  {
    match v
    case Items(items) => items
    case Text(s) =>
      KeepStrippedAvoids(Split(s, ','), ',');
      AllKeptItems(KeepStripped(Split(s, ',')));
      KeepStripped(Split(s, ','))
  }

  /** A piece without a comma parses to its stripped form, or to nothing
      when that is empty. */
  lemma ParseCommaSeparatedPiece(p: string)
    requires ',' !in p
    ensures ParseCommaSeparated(Text(p)) == if Strip(p) == [] then [] else [Strip(p)]
  {
    CountAbsent(p, ',');
    assert Split(p, ',') == [p];
  }

  /** The items before a comma come first, then the items after it: parsing
      keeps the order of the input. */
  lemma ParseCommaSeparatedOrder(a: string, b: string)
    ensures ParseCommaSeparated(Text(a + "," + b))
         == ParseCommaSeparated(Text(a)) + ParseCommaSeparated(Text(b))
  {
    var pa := Split(a, ',');
    var pb := Split(b, ',');
    JoinAppend(pa, pb, ',');
    assert forall i :: 0 <= i < |pa + pb| ==> ',' !in (pa + pb)[i] by {
      forall i | 0 <= i < |pa + pb|
        ensures ',' !in (pa + pb)[i]
      {
        if i >= |pa| {
          assert (pa + pb)[i] == pb[i - |pa|];
        }
      }
    }
    SplitJoin(pa + pb, ',');
    KeepStrippedAppend(pa, pb);
  }

  /** Joining the parsed items with `,` and parsing again gives the same items. */
  lemma ParseCommaSeparatedRoundTrip(s: string)
    ensures var r := ParseCommaSeparated(Text(s));
      ParseCommaSeparated(Text(Join(r, ','))) == r
  {
    var r := ParseCommaSeparated(Text(s));
    if r == [] {
      assert Split([], ',') == [[]];
      assert Strip([]) == [];
    } else {
      SplitJoin(r, ',');
      AllKeptItems(r);
      KeepStrippedFixes(r);
    }
  }

  // ---------------------------------------------------------------------------
  // get_tts_voice_for_language

  /** The voice for each language prefix that has one. */
  const VoiceMap: map<string, string> := map[
    "en" := "alloy",
    "es" := "nova",
    "fr" := "shimmer",
    "de" := "echo",
    "it" := "fable",
    "pt" := "onyx",
    "ja" := "nova",
    "ko" := "shimmer",
    "zh" := "alloy"]

  /** The lower-cased text before the first `-`. */
  function LanguagePrefix(code: string): string {
    Lower(Split(code, '-')[0])
  }

  /** `get_tts_voice_for_language(code)` with `fallback` the configured
      `openai_tts_voice`. */
  function VoiceForLanguage(fallback: string, code: string): (r: string)
    ensures LanguagePrefix(code) in VoiceMap ==> r == VoiceMap[LanguagePrefix(code)]
    ensures LanguagePrefix(code) !in VoiceMap ==> r == fallback
  {
    var prefix := LanguagePrefix(code);
    if prefix in VoiceMap then VoiceMap[prefix] else fallback
  }

  /** Whatever follows the first `-` (a region, a script) never changes the voice. */
  lemma VoiceIgnoresRegion(fallback: string, prefix: string, rest: string)
    requires '-' !in prefix
    ensures VoiceForLanguage(fallback, prefix + "-" + rest) == VoiceForLanguage(fallback, prefix)
  {
    SplitFirstPiece(prefix, '-', rest);
    assert Split(prefix, '-')[0] == prefix by {
      assert Count(prefix, '-') == 0 by {
        CountAbsent(prefix, '-');
      }
    }
  }

  lemma {:induction false} CountAbsent(s: string, c: char)
    requires c !in s
    ensures Count(s, c) == 0
    decreases |s|
  {
    if s != [] {
      assert forall x :: x in s[1..] ==> x in s;
      CountAbsent(s[1..], c);
    }
  }

  lemma {:induction false} LowerIdempotent(s: string)
    ensures Lower(Lower(s)) == Lower(s)
  {
  }

  /** The lookup ignores case. */
  lemma VoiceIgnoresCase(fallback: string, code: string)
    ensures VoiceForLanguage(fallback, code) == VoiceForLanguage(fallback, Lower(code))
  {
    LowerFirstPiece(code);
    LowerFirstPiece(Lower(code));
    LowerIdempotent(code);
    LowerIdempotent(Split(code, '-')[0]);
  }

  /** `en-US` and `EN` are both English and get `alloy`. */
  lemma EnglishVariantsGetAlloy(fallback: string)
    ensures VoiceForLanguage(fallback, "en-US") == "alloy"
    ensures VoiceForLanguage(fallback, "EN") == "alloy"
  {
    VoiceIgnoresRegion(fallback, "en", "US");
    assert "en" + "-" + "US" == "en-US";
    VoiceIgnoresCase(fallback, "EN");
    assert Lower("EN") == "en";
  }

  // ---------------------------------------------------------------------------
  // get_webrtc_config

  datatype IceServer =
    | StunServer(url: string)
    | TurnServer(url: string, username: Option<string>, credential: Option<string>)

  datatype RtcConfig = RtcConfig(
    iceServers: seq<IceServer>,
    iceTransportPolicy: string,
    bundlePolicy: string,
    rtcpMuxPolicy: string)

  /** Python truthiness of an optional string: present and not empty. */
  predicate IsSet(v: Option<string>) {
    v.Some? && v.value != []
  }

  /** `get_webrtc_config()`: the STUN server first, then one TURN entry iff a
      TURN URL is configured. */
  function WebRtcConfig(s: Settings): (r: RtcConfig)
    ensures |r.iceServers| >= 1 && r.iceServers[0] == StunServer(s.stunServerUrl)
    ensures |r.iceServers| == 2 <==> IsSet(s.turnServerUrl)
    ensures |r.iceServers| <= 2
    ensures |r.iceServers| == 2 ==>
      r.iceServers[1] == TurnServer(s.turnServerUrl.value, s.turnUsername, s.turnCredential)
    ensures r.iceTransportPolicy == "all" && r.bundlePolicy == "max-bundle" && r.rtcpMuxPolicy == "require"
  {
    var stun := [StunServer(s.stunServerUrl)];
    var servers :=
      if IsSet(s.turnServerUrl) then stun + [TurnServer(s.turnServerUrl.value, s.turnUsername, s.turnCredential)]
      else stun;
    RtcConfig(servers, "all", "max-bundle", "require")
  }

  /** Without a TURN URL, the TURN username and credential never reach the
      client. */
  lemma WebRtcIgnoresUnusedCredentials(s: Settings, username: Option<string>, credential: Option<string>)
    requires !IsSet(s.turnServerUrl)
    ensures WebRtcConfig(s.(turnUsername := username, turnCredential := credential)) == WebRtcConfig(s)
    ensures WebRtcConfig(s).iceServers == [StunServer(s.stunServerUrl)]
  {
  }

  /** With the default settings the client is given Google's public STUN
      server and nothing else. */
  lemma DefaultWebRtcConfig(openaiKey: string, openrouterKey: string)
    ensures WebRtcConfig(DefaultSettings(openaiKey, openrouterKey)).iceServers
      == [StunServer("stun:stun.l.google.com:19302")]
  {
  }

  // ---------------------------------------------------------------------------
  // API-key masking shared by the service configuration helpers

  const Ellipsis: string := "..."
  const NotSet: string := "NOT_SET"

  /** `key[:10] + "..." if key else "NOT_SET"`. */
  function MaskKey(key: string): (r: string)
  {
    if key != [] then Take(key, 10) + Ellipsis else NotSet
  }

  /** An empty key shows as `NOT_SET`; any other key shows at most its first
      ten characters, followed by `...`, and never more of the key. */
  lemma MaskKeyReveals(key: string)
    ensures key == [] <==> MaskKey(key) == NotSet
    ensures key != [] ==>
      && |MaskKey(key)| <= 13
      && MaskKey(key) == Take(key, 10) + Ellipsis
      && Take(key, 10) <= key
      && (|key| > 10 ==> key[..10] + Ellipsis == MaskKey(key))
  {
    if key != [] {
      var m := MaskKey(key);
      assert m[|m| - 3..] == Ellipsis;
      assert NotSet[|NotSet| - 3..] != Ellipsis;
    }
  }

  /** Masking depends only on the first ten characters: two keys that agree
      there show alike, so nothing after them can be recovered. */
  lemma MaskHidesTail(k1: string, k2: string)
    requires k1 != [] && k2 != [] && Take(k1, 10) == Take(k2, 10)
    ensures MaskKey(k1) == MaskKey(k2)
  {
  }
}
