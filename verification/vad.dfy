/** The voice-activity-detection helpers (backend/services/vad_service.py):
    argument defaulting when a Silero analyzer is created, the
    enable/disable flag of `DynamicVADService`, the presets and the
    configuration check. The analyzer itself is foreign code; the model keeps
    the parameters it is built with. Floating-point values are `real` and
    are only compared. */
module Vad {
  import opened Wrappers
  import opened Config

  /** The parameters an analyzer is built with. */
  datatype VadParams = VadParams(confidence: real, startSecs: real, stopSecs: real)

  /** Python truthiness of an optional float: present and not zero. */
  predicate Truthy(x: Option<real>) {
    x.Some? && x.value != 0.0
  }

  /** `x or default`. */
  function OrDefault(x: Option<real>, default: real): (r: real)
    ensures Truthy(x) ==> r == x.value
    ensures !Truthy(x) ==> r == default
  {
    if Truthy(x) then x.value else default
  }

  /** The parameters `create_vad_processor(confidence, start, stop)` uses: each
      argument unless it is absent or zero, else the configured value. */
  function CreateVadParams(s: Settings, confidence: Option<real>, start: Option<real>, stop: Option<real>): (r: VadParams)
    ensures r.confidence == if Truthy(confidence) then confidence.value else s.vadConfidenceThreshold
    ensures r.startSecs == if Truthy(start) then start.value else s.vadStartSecs
    ensures r.stopSecs == if Truthy(stop) then stop.value else s.vadStopSecs
  {
    VadParams(OrDefault(confidence, s.vadConfidenceThreshold), OrDefault(start, s.vadStartSecs), OrDefault(stop, s.vadStopSecs))
  }

  /** A zero argument is not a value: it falls back like an absent one. */
  lemma ZeroArgumentsFallBack(s: Settings)
    ensures CreateVadParams(s, Some(0.0), Some(0.0), Some(0.0)) == CreateVadParams(s, None, None, None)
    ensures CreateVadParams(s, None, None, None) == VadParams(s.vadConfidenceThreshold, s.vadStartSecs, s.vadStopSecs)
  {
  }

  // ---------------------------------------------------------------------------
  // DynamicVADService

  datatype DynamicVad = DynamicVad(sessionId: Option<string>, params: VadParams, enabled: bool)

  /** `DynamicVADService(session_id)`: an analyzer with the configured
      parameters, disabled. */
  function NewDynamicVad(s: Settings, sessionId: Option<string>): (r: DynamicVad)
    ensures !r.enabled && r.sessionId == sessionId
    ensures r.params == VadParams(s.vadConfidenceThreshold, s.vadStartSecs, s.vadStopSecs)
  {
    DynamicVad(sessionId, CreateVadParams(s, None, None, None), false)
  }

  function Enable(v: DynamicVad): (r: DynamicVad)
    ensures r.enabled && r.sessionId == v.sessionId && r.params == v.params
  {
    v.(enabled := true)
  }

  function Disable(v: DynamicVad): (r: DynamicVad)
    ensures !r.enabled && r.sessionId == v.sessionId && r.params == v.params
  {
    v.(enabled := false)
  }

  /** Only the flag changes: disabling undoes enabling and vice versa. */
  lemma EnableDisableInverse(v: DynamicVad)
    ensures !v.enabled ==> Disable(Enable(v)) == v
    ensures v.enabled ==> Enable(Disable(v)) == v
    ensures Enable(Enable(v)) == Enable(v) && Disable(Disable(v)) == Disable(v)
  {
  }

  // ---------------------------------------------------------------------------
  // Presets and the configuration check

  /** A preset's parameters; its description text is not modelled. */
  const VadPresets: map<string, VadParams> := map[
    "aggressive" := VadParams(0.8, 0.1, 0.5),
    "balanced" := VadParams(0.7, 0.2, 0.8),
    "conservative" := VadParams(0.6, 0.3, 1.0),
    "quiet_environment" := VadParams(0.5, 0.2, 0.7),
    "noisy_environment" := VadParams(0.85, 0.3, 1.2)]

  /** `get_vad_preset(name)`: the entry, or `ValueError` for an unknown name. */
  function GetVadPreset(name: string): (r: Result<VadParams, string>)
    ensures r.Ok? <==> name in VadPresets
    ensures r.Ok? ==> r.value == VadPresets[name]
    ensures r.Err? ==> r.error == "Unknown VAD preset: " + name
  {
    if name !in VadPresets then Err("Unknown VAD preset: " + name) else Ok(VadPresets[name])
  }

  /** The five preset names are the known ones. */
  lemma PresetNames()
    ensures VadPresets.Keys == {"aggressive", "balanced", "conservative", "quiet_environment", "noisy_environment"}
    ensures GetVadPreset("balanced") == Ok(VadParams(0.7, 0.2, 0.8))
    ensures GetVadPreset("calm").Err?
  {
  }

  const MinStartSecs: real := 0.1
  const MinStopSecs: real := 0.5

  datatype VadWarning = StartSecsLow(startSecs: real) | StopSecsLow(stopSecs: real)

  /** The checks of `validate_vad_config` on one set of parameters: a
      confidence outside [0, 1] raises; low start and stop durations only
      warn, start first. */
  function CheckVadParams(p: VadParams): (r: Result<seq<VadWarning>, string>)
    ensures r.Err? <==> !(0.0 <= p.confidence <= 1.0)
    ensures r.Ok? ==> (StartSecsLow(p.startSecs) in r.value <==> p.startSecs < MinStartSecs)
    ensures r.Ok? ==> (StopSecsLow(p.stopSecs) in r.value <==> p.stopSecs < MinStopSecs)
    ensures r.Ok? ==> |r.value| <= 2 && (r.value == [] <==> p.startSecs >= MinStartSecs && p.stopSecs >= MinStopSecs)
  {
    if !(0.0 <= p.confidence <= 1.0) then Err("VAD confidence threshold must be between 0.0 and 1.0")
    else
      var start := if p.startSecs < MinStartSecs then [StartSecsLow(p.startSecs)] else [];
      var stop := if p.stopSecs < MinStopSecs then [StopSecsLow(p.stopSecs)] else [];
      Ok(start + stop)
  }

  /** `validate_vad_config()` on the configured values. */
  function ValidateVadConfig(s: Settings): (r: Result<seq<VadWarning>, string>)
    ensures r.Err? <==> s.vadConfidenceThreshold < 0.0 || s.vadConfidenceThreshold > 1.0
    ensures r.Ok? ==> (r.value == [] <==> s.vadStartSecs >= MinStartSecs && s.vadStopSecs >= MinStopSecs)
  {
    CheckVadParams(VadParams(s.vadConfidenceThreshold, s.vadStartSecs, s.vadStopSecs))
  }

  /** Every preset passes the configuration check without a warning, and so
      do the default settings. */
  lemma PresetsPassValidation()
    ensures forall name :: name in VadPresets ==> CheckVadParams(VadPresets[name]) == Ok([])
    ensures forall k1, k2 :: ValidateVadConfig(DefaultSettings(k1, k2)) == Ok([])
  {
    forall name | name in VadPresets
      ensures CheckVadParams(VadPresets[name]) == Ok([])
    {
      assert name in {"aggressive", "balanced", "conservative", "quiet_environment", "noisy_environment"};
    }
  }
}
