/** The push-to-talk turn controller of one session
    (backend/core/state_machine.py). Each operation is a total function from
    the machine to a `Step`: the machine afterwards together with the
    notifications its registered state-change callback receives, in order. */
module StateMachine {
  import opened Wrappers
  import opened Enums

  /** The controller's four fields. */
  datatype Machine = Machine(
    state: SessionState,
    pttPressed: bool,
    isProcessing: bool,
    currentSpeaker: Option<SpeakerTurn>)

  /** One call of the state-change callback: `callback(old, new)`. */
  datatype Change = Change(from: SessionState, to: SessionState)

  /** The machine after an operation and the callback calls it made. */
  datatype Step = Step(machine: Machine, notified: seq<Change>)

  /** A freshly constructed machine. */
  const Initial: Machine := Machine(Disconnected, false, false, None)

  /** The button is held. */
  predicate IsUserTurn(m: Machine) {
    m.pttPressed
  }

  /** The button is released and the partner is being listened to or processed. */
  predicate IsPartnerTurn(m: Machine) {
    !m.pttPressed && m.state in {PartnerListening, PartnerProcessing}
  }

  /** Voice detection should run: button released, waiting for the partner. */
  predicate ShouldEnableVad(m: Machine) {
    !m.pttPressed && m.state in {Connected, PartnerListening}
  }

  /** Synthesised speech should be played: it is the user's turn. */
  predicate ShouldOutputAudio(m: Machine) {
    m.state in {UserSpeaking, UserProcessing}
  }

  /** The user's turn and voice detection exclude each other. */
  lemma UserTurnExcludesVad(m: Machine)
    ensures !(IsUserTurn(m) && ShouldEnableVad(m))
    ensures !(IsUserTurn(m) && IsPartnerTurn(m))
  {
  }

  /** `r` reports its state change faithfully: one callback `(old, new)` when
      the state changed, none when it did not. */
  predicate Notifies(m: Machine, r: Step) {
    r.notified == if r.machine.state == m.state then [] else [Change(m.state, r.machine.state)]
  }

  /** `_transition_to(s)`: the only place that calls the callback. */
  function TransitionTo(m: Machine, s: SessionState): (r: Step)
    ensures r.machine.state == s
    ensures r.machine.pttPressed == m.pttPressed && r.machine.isProcessing == m.isProcessing
    ensures r.machine.currentSpeaker == m.currentSpeaker
    ensures Notifies(m, r)
    ensures |r.notified| == 1 <==> s != m.state
  {
    if s == m.state then Step(m, []) else Step(m.(state := s), [Change(m.state, s)])
  }

  /** `connect()`. */
  function Connect(m: Machine): (r: Step)
    ensures r.machine == m.(state := Connected)
    ensures Notifies(m, r)
  {
    TransitionTo(m, Connected)
  }

  /** `disconnect()`: the transition is notified first, then every flag is cleared. */
  function Disconnect(m: Machine): (r: Step)
    ensures r.machine == Initial
    ensures Notifies(m, r)
  {
    var t := TransitionTo(m, Disconnected);
    Step(t.machine.(pttPressed := false, isProcessing := false, currentSpeaker := None), t.notified)
  }

  /** `handle_ptt_press()`: ignored while disconnected; otherwise the user's
      turn starts whatever the state, processing states and error included. */
  function PttPress(m: Machine): (r: Step)
    ensures m.state == Disconnected ==> r == Step(m, [])
    ensures m.state != Disconnected ==>
      r.machine == Machine(UserSpeaking, true, m.isProcessing, Some(User))
    ensures Notifies(m, r)
  {
    if m.state == Disconnected then Step(m, [])
    else
      var pressed := m.(pttPressed := true, currentSpeaker := Some(User));
      if m.state != UserSpeaking then TransitionTo(pressed, UserSpeaking) else Step(pressed, [])
  }

  /** `handle_ptt_release()`: ignored while disconnected; from `USER_SPEAKING`
      it moves on to processing or to listening for the partner; in any
      other state it only releases the button. */
  function PttRelease(m: Machine): (r: Step)
    ensures m.state == Disconnected ==> r == Step(m, [])
    ensures m.state == UserSpeaking && m.isProcessing ==>
      r.machine == m.(state := UserProcessing, pttPressed := false)
    ensures m.state == UserSpeaking && !m.isProcessing ==>
      r.machine == m.(state := PartnerListening, pttPressed := false, currentSpeaker := None)
    ensures m.state !in {Disconnected, UserSpeaking} ==> r == Step(m.(pttPressed := false), [])
    ensures Notifies(m, r)
  {
    if m.state == Disconnected then Step(m, [])
    else
      var released := m.(pttPressed := false);
      if m.state == UserSpeaking then
        if m.isProcessing then TransitionTo(released, UserProcessing)
        else
          var t := TransitionTo(released, PartnerListening);
          Step(t.machine.(currentSpeaker := None), t.notified)
      else Step(released, [])
  }

  /** `start_user_processing()`: with the button held the state is assigned
      directly, without notifying the callback. */
  function StartUserProcessing(m: Machine): (r: Step)
    ensures r.machine.isProcessing
    ensures r.machine.pttPressed == m.pttPressed && r.machine.currentSpeaker == m.currentSpeaker
    ensures m.pttPressed ==> r.machine.state == UserSpeaking && r.notified == []
    ensures !m.pttPressed ==> r.machine.state == UserProcessing && Notifies(m, r)
  {
    var busy := m.(isProcessing := true);
    if m.pttPressed then Step(busy.(state := UserSpeaking), [])
    else TransitionTo(busy, UserProcessing)
  }

  /** `finish_user_processing()`: always ends processing and clears the speaker;
      only the two user states move on to listening for the partner, even
      while the button is still held. */
  function FinishUserProcessing(m: Machine): (r: Step)
    ensures !r.machine.isProcessing && r.machine.currentSpeaker == None
    ensures r.machine.pttPressed == m.pttPressed
    ensures r.machine.state == if m.state in {UserSpeaking, UserProcessing} then PartnerListening else m.state
    ensures Notifies(m, r)
  {
    var idle := m.(isProcessing := false, currentSpeaker := None);
    if m.state in {UserSpeaking, UserProcessing} then TransitionTo(idle, PartnerListening)
    else Step(idle, [])
  }

  /** `start_partner_processing()`: acts only while voice detection is
      enabled, that is with the button released in `CONNECTED` or
      `PARTNER_LISTENING`; otherwise nothing changes. */
  function StartPartnerProcessing(m: Machine): (r: Step)
    ensures !m.pttPressed && m.state in {Connected, PartnerListening} ==>
      r.machine == Machine(PartnerProcessing, false, true, Some(Partner))
    ensures !(!m.pttPressed && m.state in {Connected, PartnerListening}) ==> r == Step(m, [])
    ensures Notifies(m, r)
  {
    if !m.pttPressed && ShouldEnableVad(m) then
      TransitionTo(m.(isProcessing := true, currentSpeaker := Some(Partner)), PartnerProcessing)
    else Step(m, [])
  }

  /** `finish_partner_processing()`: always ends processing and clears the
      speaker; only `PARTNER_PROCESSING` moves back to listening. */
  function FinishPartnerProcessing(m: Machine): (r: Step)
    ensures !r.machine.isProcessing && r.machine.currentSpeaker == None
    ensures r.machine.pttPressed == m.pttPressed
    ensures r.machine.state == if m.state == PartnerProcessing then PartnerListening else m.state
    ensures Notifies(m, r)
  {
    var idle := m.(isProcessing := false, currentSpeaker := None);
    if m.state == PartnerProcessing then TransitionTo(idle, PartnerListening) else Step(idle, [])
  }

  /** `handle_error(message)`: the message is only logged. */
  function HandleError(m: Machine): (r: Step)
    ensures r.machine == m.(state := Error, isProcessing := false)
    ensures Notifies(m, r)
  {
    var t := TransitionTo(m, Error);
    Step(t.machine.(isProcessing := false), t.notified)
  }

  /** `reset()`: back to `CONNECTED` with every flag cleared, assigned
      directly, without notifying the callback. */
  function Reset(m: Machine): (r: Step)
    ensures r.machine == Machine(Connected, false, false, None)
    ensures r.notified == []
  {
    Step(Machine(Connected, false, false, None), [])
  }

  /** The operations the environment can invoke on a machine. */
  datatype Event =
    | ConnectEvent
    | DisconnectEvent
    | PttPressEvent
    | PttReleaseEvent
    | StartUserProcessingEvent
    | FinishUserProcessingEvent
    | StartPartnerProcessingEvent
    | FinishPartnerProcessingEvent
    | ErrorEvent
    | ResetEvent

  /** The two operations that change the state without calling `_transition_to`. */
  predicate BypassesCallback(e: Event) {
    e == StartUserProcessingEvent || e == ResetEvent
  }

  function Apply(m: Machine, e: Event): Step {
    match e
    case ConnectEvent => Connect(m)
    case DisconnectEvent => Disconnect(m)
    case PttPressEvent => PttPress(m)
    case PttReleaseEvent => PttRelease(m)
    case StartUserProcessingEvent => StartUserProcessing(m)
    case FinishUserProcessingEvent => FinishUserProcessing(m)
    case StartPartnerProcessingEvent => StartPartnerProcessing(m)
    case FinishPartnerProcessingEvent => FinishPartnerProcessing(m)
    case ErrorEvent => HandleError(m)
    case ResetEvent => Reset(m)
  }

  /** The events applied one after another, one atomic step each; the
      callback calls of all of them, in order. */
  function Run(m: Machine, es: seq<Event>): Step
    decreases |es|
  {
    if es == [] then Step(m, [])
    else
      var first := Apply(m, es[0]);
      var rest := Run(first.machine, es[1..]);
      Step(rest.machine, first.notified + rest.notified)
  }

  /** Every operation except the two direct assignments calls the callback
      exactly once with `(old, new)` when the state changes and never when it
      does not. */
  lemma CallbackFaithful(m: Machine, e: Event)
    requires !BypassesCallback(e)
    ensures Notifies(m, Apply(m, e))
  {
  }

  /** The direct assignments do change the state without any callback:
      after a press and a finished user turn the button is still held in
      `PARTNER_LISTENING`, and starting user processing then jumps to
      `USER_SPEAKING` silently; `reset()` does the same from any other state. */
  lemma CallbackBypassed()
    ensures var held := Run(Initial, [ConnectEvent, PttPressEvent, FinishUserProcessingEvent]).machine;
      && held.state == PartnerListening && held.pttPressed
      && StartUserProcessing(held).machine.state == UserSpeaking
      && StartUserProcessing(held).notified == []
    ensures forall m: Machine :: m.state != Connected ==> !Notifies(m, Reset(m))
  {
  }

  /** The state a listener that only sees callbacks believes in, starting from `s`. */
  function LastNotified(s: SessionState, changes: seq<Change>): SessionState {
    if changes == [] then s else changes[|changes| - 1].to
  }

  /** A listener that starts with the right state and follows the callbacks
      of a run without direct assignments ends with the machine's state. */
  lemma {:induction false} RunKeepsListenerInSync(m: Machine, es: seq<Event>)
    requires forall i :: 0 <= i < |es| ==> !BypassesCallback(es[i])
    ensures LastNotified(m.state, Run(m, es).notified) == Run(m, es).machine.state
    decreases |es|
  {
    if es != [] {
      var first := Apply(m, es[0]);
      CallbackFaithful(m, es[0]);
      RunKeepsListenerInSync(first.machine, es[1..]);
      var rest := Run(first.machine, es[1..]);
      if rest.notified == [] {
        assert first.notified + rest.notified == first.notified;
      } else {
        assert (first.notified + rest.notified)[|first.notified + rest.notified| - 1]
            == rest.notified[|rest.notified| - 1];
      }
    }
  }

  /** Pressing twice is pressing once, and the second press notifies nothing. */
  lemma PressIdempotent(m: Machine)
    ensures PttPress(PttPress(m).machine) == Step(PttPress(m).machine, [])
  {
  }

  /** Releasing twice is releasing once, and the second release notifies nothing. */
  lemma ReleaseIdempotent(m: Machine)
    ensures PttRelease(PttRelease(m).machine) == Step(PttRelease(m).machine, [])
  {
  }

  /** The invariants every reachable machine keeps. Holding the button does
      NOT imply `USER_SPEAKING`: finishing user processing leaves the button
      held in `PARTNER_LISTENING`. The converse does hold: only a press or a
      held-button `start_user_processing` enters `USER_SPEAKING`, and a
      release always leaves it. */
  predicate Inv(m: Machine) {
    && (m.state == Disconnected ==> !m.pttPressed && !m.isProcessing && m.currentSpeaker == None)
    && (m.pttPressed ==> m.state !in {UserProcessing, PartnerProcessing, Disconnected})
    && (m.state == UserSpeaking ==> m.pttPressed)
  }

  /** How the four derived properties relate in a machine that keeps the
      invariants: synthesised speech plays while the button is held only in
      `USER_SPEAKING`, and after release only in `USER_PROCESSING`; a
      released button outside the user states and errors means either the
      partner's turn or voice detection, and both only while listening. */
  lemma DerivedPropertiesUnderInv(m: Machine)
    requires Inv(m)
    ensures ShouldOutputAudio(m) && IsUserTurn(m) ==> m.state == UserSpeaking
    ensures ShouldOutputAudio(m) && !IsUserTurn(m) ==> m.state == UserProcessing
    ensures IsUserTurn(m) ==> m.state in {Connected, UserSpeaking, PartnerListening, Error}
    ensures !m.pttPressed && m.state in {Connected, PartnerListening, PartnerProcessing} <==>
      IsPartnerTurn(m) || ShouldEnableVad(m)
    ensures IsPartnerTurn(m) && ShouldEnableVad(m) <==> !m.pttPressed && m.state == PartnerListening
    ensures !(ShouldOutputAudio(m) && (IsPartnerTurn(m) || ShouldEnableVad(m)))
  {
  }

  lemma InitialInv()
    ensures Inv(Initial)
  {
  }

  /** Every operation keeps the invariants. */
  lemma ApplyKeepsInv(m: Machine, e: Event)
    requires Inv(m)
    ensures Inv(Apply(m, e).machine)
  {
  }

  /** Every machine reachable from construction keeps the invariants, and in
      it the user's turn and voice detection are never both on. */
  lemma {:induction false} RunKeepsInv(m: Machine, es: seq<Event>)
    requires Inv(m)
    ensures Inv(Run(m, es).machine)
    ensures !(IsUserTurn(Run(m, es).machine) && ShouldEnableVad(Run(m, es).machine))
    decreases |es|
  {
    if es != [] {
      ApplyKeepsInv(m, es[0]);
      RunKeepsInv(Apply(m, es[0]).machine, es[1..]);
    }
  }

  /** A machine is reachable when some run from construction leads to it. */
  ghost predicate Reachable(m: Machine) {
    exists es: seq<Event> :: Run(Initial, es).machine == m
  }

  lemma ReachableInv(m: Machine)
    requires Reachable(m)
    ensures Inv(m)
  {
    var es: seq<Event> :| Run(Initial, es).machine == m;
    RunKeepsInv(Initial, es);
  }
}
