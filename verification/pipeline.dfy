/** The routing decisions of the pipeline manager
    (backend/core/pipeline_manager.py): what the audio router, the text router
    and the level monitor do with one frame given a snapshot of the session's
    turn controller, and the guards of the manager's lifecycle. The frame
    processor base class and the pipeline runner are not part of this model:
    handing a frame to the base class is recorded as `ToBase`. */
module Pipeline {
  import opened Wrappers
  import opened Enums
  import opened Frames
  import opened StateMachine

  /** What a processor does with one frame. */
  datatype Disposition =
    | ToBase                                // `super().process_frame(frame, direction)`
    | Push(frame: Frame, direction: Direction) // `self.push_frame(frame, direction)`
    | Dropped                               // nothing is pushed

  // ---------------------------------------------------------------------------
  // Audio router

  /** The audio router's decision and its frame counter afterwards. */
  datatype AudioRouting = AudioRouting(disposition: Disposition, frameCount: nat)

  /** `AudioRouterProcessor.process_frame`. Non-audio frames go to the base
      class and upstream audio is pushed on untouched; downstream audio is
      counted and then forwarded exactly when it is the user's turn or voice
      detection is enabled, and dropped otherwise. */
  function RouteAudio(m: Machine, count: nat, f: Frame, d: Direction): (r: AudioRouting)
    ensures !f.AudioRawFrame? ==> r == AudioRouting(ToBase, count)
    ensures f.AudioRawFrame? && d == Upstream ==> r == AudioRouting(Push(f, d), count)
    ensures f.AudioRawFrame? && d == Downstream ==>
      && r.frameCount == count + 1
      && (r.disposition == Push(f, d) || r.disposition == Dropped)
      && (r.disposition == Push(f, d) <==> IsUserTurn(m) || ShouldEnableVad(m))
  {
    if !f.AudioRawFrame? then AudioRouting(ToBase, count)
    else if d != Downstream then AudioRouting(Push(f, d), count)
    else
      var n := count + 1;
      if IsUserTurn(m) then AudioRouting(Push(f, d), n)
      else if ShouldEnableVad(m) then AudioRouting(Push(f, d), n)
      else AudioRouting(Dropped, n)
  }

  /** While the button is held every downstream audio frame is forwarded,
      whatever the session state. */
  lemma HeldButtonForwardsAudio(m: Machine, count: nat, f: Frame)
    requires f.AudioRawFrame? && m.pttPressed
    ensures RouteAudio(m, count, f, Downstream).disposition == Push(f, Downstream)
  {
  }

  /** With the button released, audio is dropped while a turn is processed,
      after an error and while disconnected. */
  lemma ReleasedButtonDropsAudio(m: Machine, count: nat, f: Frame)
    requires f.AudioRawFrame? && !m.pttPressed
    requires m.state in {UserProcessing, PartnerProcessing, Error, Disconnected}
    ensures RouteAudio(m, count, f, Downstream).disposition == Dropped
  {
  }

  /** In every reachable machine, downstream audio reaches transcription only
      outside the processing states and never while disconnected. */
  lemma ReachableForwardingStates(m: Machine, count: nat, f: Frame)
    requires Reachable(m) && f.AudioRawFrame?
    requires RouteAudio(m, count, f, Downstream).disposition.Push?
    ensures m.state !in {Disconnected, UserProcessing, PartnerProcessing}
  {
    ReachableInv(m);
  }

  // ---------------------------------------------------------------------------
  // Text router

  /** A text handed to `_emit_text_output`, tagged with its speaker. */
  datatype TextEmission = TextEmission(text: string, speaker: SpeakerTurn)

  datatype TextRouting = TextRouting(disposition: Disposition, emitted: Option<TextEmission>)

  /** `TextRouterProcessor.process_frame`, in either direction. Text goes on
      towards speech synthesis only while audio output is on; in both branches
      it is shown to the frontend, tagged with the current speaker, exactly
      when there is one. */
  function RouteText(m: Machine, f: Frame, d: Direction): (r: TextRouting)
    ensures !IsText(f) ==> r == TextRouting(ToBase, None)
    ensures IsText(f) ==>
      && (r.disposition == Push(f, d) <==> ShouldOutputAudio(m))
      && (!ShouldOutputAudio(m) ==> r.disposition == Dropped)
      && (r.emitted.Some? <==> m.currentSpeaker.Some?)
      && (r.emitted.Some? ==> r.emitted.value == TextEmission(f.text, m.currentSpeaker.value))
  {
    if !IsText(f) then TextRouting(ToBase, None)
    else
      var shown := if m.currentSpeaker.Some? then Some(TextEmission(f.text, m.currentSpeaker.value)) else None;
      if ShouldOutputAudio(m) then TextRouting(Push(f, d), shown)
      else TextRouting(Dropped, shown)
  }

  // ---------------------------------------------------------------------------
  // Level monitor

  /** A level handed to `_emit_audio_level`, tagged with its speaker. */
  datatype LevelEmission = LevelEmission(level: real, speaker: SpeakerTurn)

  /** What the level monitor does with one frame: the frame always goes to
      the base class first, and a level may be emitted afterwards. */
  datatype LevelMonitoring = LevelMonitoring(disposition: Disposition, emitted: Option<LevelEmission>)

  /** `AudioLevelMonitor.process_frame`: every frame first goes to the base
      class; a downstream audio frame then yields a level for the current
      speaker, if there is one. `level` is what the signal computation
      returns for the frame. Decoding the buffer as 16-bit samples raises,
      and so emits nothing, when it has an odd number of bytes. */
  function MonitorLevel(m: Machine, f: Frame, d: Direction, level: real): (r: LevelMonitoring)
    ensures r.disposition == ToBase
    ensures r.emitted.Some? <==>
      f.AudioRawFrame? && d == Downstream && |f.audio| % 2 == 0 && m.currentSpeaker.Some?
    ensures r.emitted.Some? ==> r.emitted.value == LevelEmission(level, m.currentSpeaker.value)
  {
    var emitted :=
      if f.AudioRawFrame? && d == Downstream && |f.audio| % 2 == 0 then
        match m.currentSpeaker
        case Some(s) => Some(LevelEmission(level, s))
        case None => None
      else None;
    LevelMonitoring(ToBase, emitted)
  }

  // ---------------------------------------------------------------------------
  // An interleaved session: control events and frames, one atomic step each

  datatype Input = Control(event: Event) | Deliver(frame: Frame, direction: Direction)

  /** One routed frame: what the router did and the turn state it saw. */
  datatype Routed = Routed(frame: Frame, direction: Direction, disposition: Disposition, seen: Machine)

  datatype Trace = Trace(machine: Machine, frameCount: nat, routed: seq<Routed>, notified: seq<Change>)

  /** The control events among the inputs, in order. */
  function Controls(ins: seq<Input>): seq<Event>
    decreases |ins|
  {
    if ins == [] then []
    else if ins[0].Control? then [ins[0].event] + Controls(ins[1..])
    else Controls(ins[1..])
  }

  /** The number of frames among the inputs. */
  function Deliveries(ins: seq<Input>): nat
    decreases |ins|
  {
    if ins == [] then 0 else (if ins[0].Deliver? then 1 else 0) + Deliveries(ins[1..])
  }

  /** Feeds the inputs to the audio router and the turn controller, in order.
      Routing never changes the controller: it ends, and notifies, exactly
      as if only the control events had been applied; every frame is
      routed once, in arrival order. */
  function Feed(m: Machine, count: nat, ins: seq<Input>): (r: Trace)
    ensures r.machine == Run(m, Controls(ins)).machine
    ensures r.notified == Run(m, Controls(ins)).notified
    ensures |r.routed| == Deliveries(ins)
    decreases |ins|
  {
    if ins == [] then Trace(m, count, [], [])
    else match ins[0]
      case Control(e) =>
        var s := Apply(m, e);
        var rest := Feed(s.machine, count, ins[1..]);
        Trace(rest.machine, rest.frameCount, rest.routed, s.notified + rest.notified)
      case Deliver(f, d) =>
        var a := RouteAudio(m, count, f, d);
        var rest := Feed(m, a.frameCount, ins[1..]);
        Trace(rest.machine, rest.frameCount, [Routed(f, d, a.disposition, m)] + rest.routed, rest.notified)
  }

  /** Number of downstream audio frames among the inputs. */
  function DownstreamAudio(ins: seq<Input>): nat
    decreases |ins|
  {
    if ins == [] then 0
    else
      var here := if ins[0].Deliver? && ins[0].frame.AudioRawFrame? && ins[0].direction == Downstream then 1 else 0;
      here + DownstreamAudio(ins[1..])
  }

  /** The frame counter goes up once per downstream audio frame, forwarded or
      dropped, and by nothing else. */
  lemma {:induction false} FeedCountsDownstreamAudio(m: Machine, count: nat, ins: seq<Input>)
    ensures Feed(m, count, ins).frameCount == count + DownstreamAudio(ins)
    decreases |ins|
  {
    if ins != [] {
      match ins[0]
      case Control(e) =>
        FeedCountsDownstreamAudio(Apply(m, e).machine, count, ins[1..]);
      case Deliver(f, d) =>
        FeedCountsDownstreamAudio(m, RouteAudio(m, count, f, d).frameCount, ins[1..]);
    }
  }

  /** Every frame in `routed` that was forwarded downstream as audio was seen
      during the user's turn or with voice detection on, and outside the
      disconnected and processing states. */
  predicate ForwardedOnlyInTurn(routed: seq<Routed>) {
    forall i :: 0 <= i < |routed| && routed[i].frame.AudioRawFrame?
                && routed[i].direction == Downstream && routed[i].disposition.Push? ==>
      && (IsUserTurn(routed[i].seen) || ShouldEnableVad(routed[i].seen))
      && routed[i].seen.state !in {Disconnected, UserProcessing, PartnerProcessing}
  }

  /** Started from a machine that keeps the invariants, however events and
      frames interleave, no downstream audio frame is forwarded while the
      session is disconnected or a turn is being processed. */
  lemma {:induction false} FeedForwardsOnlyInTurn(m: Machine, count: nat, ins: seq<Input>)
    requires Inv(m)
    ensures ForwardedOnlyInTurn(Feed(m, count, ins).routed)
    decreases |ins|
  {
    if ins != [] {
      match ins[0]
      case Control(e) =>
        ApplyKeepsInv(m, e);
        FeedForwardsOnlyInTurn(Apply(m, e).machine, count, ins[1..]);
      case Deliver(f, d) =>
        var a := RouteAudio(m, count, f, d);
        FeedForwardsOnlyInTurn(m, a.frameCount, ins[1..]);
        var rest := Feed(m, a.frameCount, ins[1..]).routed;
        assert Feed(m, count, ins).routed == [Routed(f, d, a.disposition, m)] + rest;
    }
  }

  // ---------------------------------------------------------------------------
  // Manager lifecycle guards

  /** The processors of the built pipeline, in order. */
  datatype Stage = LevelMonitorStage | AudioRouterStage | SttStage | TranslationStage | TextRouterStage | TtsStage

  const PipelineStages: seq<Stage> :=
    [LevelMonitorStage, AudioRouterStage, SttStage, TranslationStage, TextRouterStage, TtsStage]

  /** Which service processors are set, the built pipeline and whether a task exists. */
  datatype Manager = Manager(
    hasStt: bool, hasTts: bool, hasTranslation: bool, hasVad: bool,
    pipeline: Option<seq<Stage>>, hasTask: bool)

  const NewManager: Manager := Manager(false, false, false, false, None, false)

  datatype PipelineError = ServicesNotSet | PipelineNotInitialized

  /** `set_services(...)`: each argument may be set or `None`. */
  function SetServices(mgr: Manager, stt: bool, tts: bool, translation: bool, vad: bool): (r: Manager)
    ensures r.pipeline == mgr.pipeline && r.hasTask == mgr.hasTask
    ensures r.hasStt == stt && r.hasTts == tts && r.hasTranslation == translation && r.hasVad == vad
  {
    mgr.(hasStt := stt, hasTts := tts, hasTranslation := translation, hasVad := vad)
  }

  /** `initialize()`: raises unless the transcription, synthesis and
      translation processors are all set; the voice detector is never part of
      the pipeline. */
  function Initialize(mgr: Manager): (r: Result<Manager, PipelineError>)
    ensures r.Err? <==> !(mgr.hasStt && mgr.hasTts && mgr.hasTranslation)
    ensures r.Err? ==> r.error == ServicesNotSet
    ensures r.Ok? ==> r.value == mgr.(pipeline := Some(PipelineStages))
  {
    if !(mgr.hasStt && mgr.hasTts && mgr.hasTranslation) then Err(ServicesNotSet)
    else Ok(mgr.(pipeline := Some(PipelineStages)))
  }

  /** `start()`: raises before `initialize()`; otherwise creates the pipeline task
      (running it is the runner's business). */
  function Start(mgr: Manager): (r: Result<Manager, PipelineError>)
    ensures r.Err? <==> mgr.pipeline.None?
    ensures r.Err? ==> r.error == PipelineNotInitialized
    ensures r.Ok? ==> r.value == mgr.(hasTask := true)
  {
    if mgr.pipeline.None? then Err(PipelineNotInitialized) else Ok(mgr.(hasTask := true))
  }

  /** `process_audio_input(audio)`: nothing is queued without a pipeline and a
      task; otherwise one downstream 16 kHz mono audio frame is. */
  function ProcessAudioInput(mgr: Manager, audio: seq<Byte>): (r: Option<Input>)
    ensures r.None? <==> mgr.pipeline.None? || !mgr.hasTask
    ensures r.Some? ==> r.value == Deliver(AudioRawFrame(audio, 16000, 1), Downstream)
  {
    if mgr.pipeline.None? || !mgr.hasTask then None
    else Some(Deliver(AudioRawFrame(audio, 16000, 1), Downstream))
  }

  /** The lifecycle in order: initializing before the services are set fails,
      audio before `start()` is ignored, and after set, initialize and start
      audio is queued. */
  lemma ManagerLifecycle(audio: seq<Byte>)
    ensures Initialize(NewManager).Err?
    ensures Start(NewManager).Err?
    ensures var ready := SetServices(NewManager, true, true, true, false);
      && Initialize(ready).Ok?
      && ProcessAudioInput(Initialize(ready).value, audio).None?
      && Start(Initialize(ready).value).Ok?
      && ProcessAudioInput(Start(Initialize(ready).value).value, audio).Some?
  {
  }
}
