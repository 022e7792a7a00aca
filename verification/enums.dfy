/** The enumerations of the backend: session states, push-to-talk states,
    speaker turns and the supported languages with their display names. Each
    Python `str` enum becomes a datatype with its string value and a parser
    back from that value. */
module Enums {
  import opened Wrappers

  /** The seven states of a session's turn controller. */
  datatype SessionState =
    | Disconnected
    | Connected
    | UserSpeaking
    | UserProcessing
    | PartnerListening
    | PartnerProcessing
    | Error

  /** Every session state. */
  const AllSessionStates: set<SessionState> :=
    {Disconnected, Connected, UserSpeaking, UserProcessing, PartnerListening, PartnerProcessing, Error}

  /** The `.value` string of a session state; parsing it gives the state back. */
  function SessionStateValue(s: SessionState): (r: string)
  {
    match s
    case Disconnected => "disconnected"
    case Connected => "connected"
    case UserSpeaking => "user_speaking"
    case UserProcessing => "user_processing"
    case PartnerListening => "partner_listening"
    case PartnerProcessing => "partner_processing"
    case Error => "error"
  }

  /** `SessionState(v)`: the state whose value is `v`, or `None` where Python
      raises `ValueError`. */
  function ParseSessionState(v: string): (r: Option<SessionState>)
    ensures r.Some? ==> SessionStateValue(r.value) == v
    ensures r.None? ==> forall s :: SessionStateValue(s) != v
  {
    if v == "disconnected" then Some(Disconnected)
    else if v == "connected" then Some(Connected)
    else if v == "user_speaking" then Some(UserSpeaking)
    else if v == "user_processing" then Some(UserProcessing)
    else if v == "partner_listening" then Some(PartnerListening)
    else if v == "partner_processing" then Some(PartnerProcessing)
    else if v == "error" then Some(Error)
    else None
  }

  /** There are exactly seven session states and their values are pairwise
      distinct. */
  lemma SessionStatesExact()
    ensures forall s: SessionState :: s in AllSessionStates
    ensures |AllSessionStates| == 7
    ensures forall a, b :: SessionStateValue(a) == SessionStateValue(b) ==> a == b
  {
    forall s: SessionState
      ensures s in AllSessionStates
    {
      match s {
        case Disconnected =>
        case Connected =>
        case UserSpeaking =>
        case UserProcessing =>
        case PartnerListening =>
        case PartnerProcessing =>
        case Error =>
      }
    }
    forall a, b | SessionStateValue(a) == SessionStateValue(b)
      ensures a == b
    {
      assert ParseSessionState(SessionStateValue(a)) == Some(b);
    }
  }

  /** The two positions of the push-to-talk button. */
  datatype PttState = Pressed | Released

  const AllPttStates: set<PttState> := {Pressed, Released}

  function PttStateValue(p: PttState): (r: string)
  {
    match p
    case Pressed => "pressed"
    case Released => "released"
  }

  function ParsePttState(v: string): (r: Option<PttState>)
    ensures r.Some? ==> PttStateValue(r.value) == v
    ensures r.None? ==> forall p :: PttStateValue(p) != v
  {
    if v == "pressed" then Some(Pressed)
    else if v == "released" then Some(Released)
    else None
  }

  /** Who is speaking: the user holding the button, or the conversation partner. */
  datatype SpeakerTurn = User | Partner

  const AllSpeakerTurns: set<SpeakerTurn> := {User, Partner}

  function SpeakerTurnValue(t: SpeakerTurn): (r: string)
  {
    match t
    case User => "user"
    case Partner => "partner"
  }

  function ParseSpeakerTurn(v: string): (r: Option<SpeakerTurn>)
    ensures r.Some? ==> SpeakerTurnValue(r.value) == v
    ensures r.None? ==> forall t :: SpeakerTurnValue(t) != v
  {
    if v == "user" then Some(User)
    else if v == "partner" then Some(Partner)
    else None
  }

  /** Both two-valued enums have exactly two members with distinct values. */
  lemma TwoValuedEnumsExact()
    ensures forall p: PttState :: p in AllPttStates
    ensures |AllPttStates| == 2 && PttStateValue(Pressed) != PttStateValue(Released)
    ensures forall t: SpeakerTurn :: t in AllSpeakerTurns
    ensures |AllSpeakerTurns| == 2 && SpeakerTurnValue(User) != SpeakerTurnValue(Partner)
  {
    forall p: PttState
      ensures p in AllPttStates
    {
      match p {
        case Pressed =>
        case Released =>
      }
    }
    forall t: SpeakerTurn
      ensures t in AllSpeakerTurns
    {
      match t {
        case User =>
        case Partner =>
      }
    }
  }

  /** The supported languages (ISO 639-1 codes). */
  datatype LanguageCode =
    | English
    | Spanish
    | French
    | German
    | Italian
    | Portuguese
    | Russian
    | Japanese
    | Korean
    | Chinese
    | Arabic
    | Hindi
    | Dutch
    | Polish
    | Turkish
    | Vietnamese
    | Indonesian
    | Thai
    | Swedish
    | Danish
    | Norwegian
    | Finnish
    | Czech
    | Greek
    | Hebrew
    | Ukrainian

  /** The position of a language in declaration order. */
  function LanguageIndex(l: LanguageCode): nat {
    match l
    case English => 0
    case Spanish => 1
    case French => 2
    case German => 3
    case Italian => 4
    case Portuguese => 5
    case Russian => 6
    case Japanese => 7
    case Korean => 8
    case Chinese => 9
    case Arabic => 10
    case Hindi => 11
    case Dutch => 12
    case Polish => 13
    case Turkish => 14
    case Vietnamese => 15
    case Indonesian => 16
    case Thai => 17
    case Swedish => 18
    case Danish => 19
    case Norwegian => 20
    case Finnish => 21
    case Czech => 22
    case Greek => 23
    case Hebrew => 24
    case Ukrainian => 25
  }

  /** The languages in four groups of declaration order, so that counting
      them stays cheap. */
  const LanguageGroup1: set<LanguageCode> := {English, Spanish, French, German, Italian, Portuguese, Russian}
  const LanguageGroup2: set<LanguageCode> := {Japanese, Korean, Chinese, Arabic, Hindi, Dutch, Polish}
  const LanguageGroup3: set<LanguageCode> := {Turkish, Vietnamese, Indonesian, Thai, Swedish, Danish}
  const LanguageGroup4: set<LanguageCode> := {Norwegian, Finnish, Czech, Greek, Hebrew, Ukrainian}

  /** Every supported language. */
  const AllLanguages: set<LanguageCode> :=
    LanguageGroup1 + LanguageGroup2 + LanguageGroup3 + LanguageGroup4

  /** The two-letter code of a language; parsing it gives the language back. */
  function LanguageValue(l: LanguageCode): (r: string)
  {
    match l
    case English => "en"
    case Spanish => "es"
    case French => "fr"
    case German => "de"
    case Italian => "it"
    case Portuguese => "pt"
    case Russian => "ru"
    case Japanese => "ja"
    case Korean => "ko"
    case Chinese => "zh"
    case Arabic => "ar"
    case Hindi => "hi"
    case Dutch => "nl"
    case Polish => "pl"
    case Turkish => "tr"
    case Vietnamese => "vi"
    case Indonesian => "id"
    case Thai => "th"
    case Swedish => "sv"
    case Danish => "da"
    case Norwegian => "no"
    case Finnish => "fi"
    case Czech => "cs"
    case Greek => "el"
    case Hebrew => "he"
    case Ukrainian => "uk"
  }

  /** `LanguageCode(v)`: the language whose code is `v`, if any. */
  function ParseLanguage(v: string): (r: Option<LanguageCode>)
    ensures r.Some? ==> LanguageValue(r.value) == v
  {
    if |v| != 2 then None
    else
      match v[0]
      case 'e' => (match v[1] case 'n' => Some(English) case 's' => Some(Spanish) case 'l' => Some(Greek) case _ => None)
      case 'f' => (match v[1] case 'r' => Some(French) case 'i' => Some(Finnish) case _ => None)
      case 'd' => (match v[1] case 'e' => Some(German) case 'a' => Some(Danish) case _ => None)
      case 'i' => (match v[1] case 't' => Some(Italian) case 'd' => Some(Indonesian) case _ => None)
      case 'p' => (match v[1] case 't' => Some(Portuguese) case 'l' => Some(Polish) case _ => None)
      case 'r' => (match v[1] case 'u' => Some(Russian) case _ => None)
      case 'j' => (match v[1] case 'a' => Some(Japanese) case _ => None)
      case 'k' => (match v[1] case 'o' => Some(Korean) case _ => None)
      case 'z' => (match v[1] case 'h' => Some(Chinese) case _ => None)
      case 'a' => (match v[1] case 'r' => Some(Arabic) case _ => None)
      case 'h' => (match v[1] case 'i' => Some(Hindi) case 'e' => Some(Hebrew) case _ => None)
      case 'n' => (match v[1] case 'l' => Some(Dutch) case 'o' => Some(Norwegian) case _ => None)
      case 't' => (match v[1] case 'r' => Some(Turkish) case 'h' => Some(Thai) case _ => None)
      case 'v' => (match v[1] case 'i' => Some(Vietnamese) case _ => None)
      case 's' => (match v[1] case 'v' => Some(Swedish) case _ => None)
      case 'c' => (match v[1] case 's' => Some(Czech) case _ => None)
      case 'u' => (match v[1] case 'k' => Some(Ukrainian) case _ => None)
      case _ => None
  }

  /** The display name of every language, in its own script. */
  const LanguageNames: map<LanguageCode, string> := map[
    English := "English",
    Spanish := "Espa\U{F1}ol",
    French := "Fran\U{E7}ais",
    German := "Deutsch",
    Italian := "Italiano",
    Portuguese := "Portugu\U{EA}s",
    Russian := "\U{420}\U{443}\U{441}\U{441}\U{43A}\U{438}\U{439}",
    Japanese := "\U{65E5}\U{672C}\U{8A9E}",
    Korean := "\U{D55C}\U{AD6D}\U{C5B4}",
    Chinese := "\U{4E2D}\U{6587}",
    Arabic := "\U{627}\U{644}\U{639}\U{631}\U{628}\U{64A}\U{629}",
    Hindi := "\U{939}\U{93F}\U{928}\U{94D}\U{926}\U{940}",
    Dutch := "Nederlands",
    Polish := "Polski",
    Turkish := "T\U{FC}rk\U{E7}e",
    Vietnamese := "Ti\U{1EBF}ng Vi\U{1EC7}t",
    Indonesian := "Bahasa Indonesia",
    Thai := "\U{E44}\U{E17}\U{E22}",
    Swedish := "Svenska",
    Danish := "Dansk",
    Norwegian := "Norsk",
    Finnish := "Suomi",
    Czech := "\U{10C}e\U{161}tina",
    Greek := "\U{395}\U{3BB}\U{3BB}\U{3B7}\U{3BD}\U{3B9}\U{3BA}\U{3AC}",
    Hebrew := "\U{5E2}\U{5D1}\U{5E8}\U{5D9}\U{5EA}",
    Ukrainian := "\U{423}\U{43A}\U{440}\U{430}\U{457}\U{43D}\U{441}\U{44C}\U{43A}\U{430}"
  ]

  /** Parsing the code of a language gives that language back. */
  lemma LanguageRoundTrip(l: LanguageCode)
    ensures ParseLanguage(LanguageValue(l)) == Some(l)
  {
    match l {
      case English =>
      case Spanish =>
      case French =>
      case German =>
      case Italian =>
      case Portuguese =>
      case Russian =>
      case Japanese =>
      case Korean =>
      case Chinese =>
      case Arabic =>
      case Hindi =>
      case Dutch =>
      case Polish =>
      case Turkish =>
      case Vietnamese =>
      case Indonesian =>
      case Thai =>
      case Swedish =>
      case Danish =>
      case Norwegian =>
      case Finnish =>
      case Czech =>
      case Greek =>
      case Hebrew =>
      case Ukrainian =>
    }
  }

  /** A string parses as a language exactly when it is some language's code. */
  lemma ParseLanguageExact(v: string)
    ensures ParseLanguage(v).Some? <==> exists l :: LanguageValue(l) == v
  {
    if l :| LanguageValue(l) == v {
      LanguageRoundTrip(l);
    }
  }

  /** Every language is listed and has a display name: `LANGUAGE_NAMES` is
      defined on exactly the 26 languages. */
  lemma LanguageNamesTotal()
    ensures forall l: LanguageCode :: l in AllLanguages
    ensures forall l: LanguageCode :: l in LanguageNames
    ensures LanguageNames.Keys == AllLanguages
  {
    forall l: LanguageCode
      ensures l in AllLanguages && l in LanguageNames
    {
      match l {
        case English =>
        case Spanish =>
        case French =>
        case German =>
        case Italian =>
        case Portuguese =>
        case Russian =>
        case Japanese =>
        case Korean =>
        case Chinese =>
        case Arabic =>
        case Hindi =>
        case Dutch =>
        case Polish =>
        case Turkish =>
        case Vietnamese =>
        case Indonesian =>
        case Thai =>
        case Swedish =>
        case Danish =>
        case Norwegian =>
        case Finnish =>
        case Czech =>
        case Greek =>
        case Hebrew =>
        case Ukrainian =>
      }
    }
  }

  lemma LanguageGroup1Count()
    ensures |LanguageGroup1| == 7
  {
  }

  lemma LanguageGroup2Count()
    ensures |LanguageGroup2| == 7
  {
  }

  lemma LanguageGroup3Count()
    ensures |LanguageGroup3| == 6
  {
  }

  lemma LanguageGroup4Count()
    ensures |LanguageGroup4| == 6
  {
  }

  lemma LanguageGroupsDisjoint()
    ensures LanguageGroup1 !! LanguageGroup2
    ensures LanguageGroup3 !! LanguageGroup4
    ensures (LanguageGroup1 + LanguageGroup2) !! (LanguageGroup3 + LanguageGroup4)
  {
    forall l | l in LanguageGroup1 + LanguageGroup2 + LanguageGroup3 + LanguageGroup4
      ensures LanguageIndex(l) < 7 <==> l in LanguageGroup1
      ensures 7 <= LanguageIndex(l) < 14 <==> l in LanguageGroup2
      ensures 14 <= LanguageIndex(l) < 20 <==> l in LanguageGroup3
      ensures 20 <= LanguageIndex(l) <==> l in LanguageGroup4
    {
    }
  }

  /** There are exactly 26 languages. */
  lemma LanguageCount()
    ensures |AllLanguages| == 26
  {
    LanguageGroup1Count();
    LanguageGroup2Count();
    LanguageGroup3Count();
    LanguageGroup4Count();
    LanguageGroupsDisjoint();
    var a := LanguageGroup1 + LanguageGroup2;
    var b := LanguageGroup3 + LanguageGroup4;
    assert |a| == 14;
    assert |b| == 12;
  }

  /** The codes of the languages are pairwise distinct. */
  lemma LanguageValuesDistinct()
    ensures forall a, b :: LanguageValue(a) == LanguageValue(b) ==> a == b
  {
    forall a, b | LanguageValue(a) == LanguageValue(b)
      ensures a == b
    {
      LanguageRoundTrip(a);
      LanguageRoundTrip(b);
    }
  }
}
