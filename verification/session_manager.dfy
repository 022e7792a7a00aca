/** The registry of active sessions (backend/core/session_manager.py): three
    maps keyed by session id, holding each session's data, its turn
    controller and its metrics. Python dictionaries iterate in insertion
    order; `order` records that order. Fresh ids and message ids, which the
    source draws from `uuid4()`, are parameters. Timestamps, latency averages
    and the background clean-up loop are not modelled. */
module SessionManager {
  import opened Wrappers
  import opened Enums
  import opened SessionModels
  import opened StateMachine

  datatype Registry = Registry(
    order: seq<SessionId>,
    sessions: map<SessionId, SessionData>,
    machines: map<SessionId, Machine>,
    metrics: map<SessionId, SessionMetrics>)

  const EmptyRegistry: Registry := Registry([], map[], map[], map[])

  predicate NoDuplicates(ids: seq<SessionId>) {
    forall i, j :: 0 <= i < j < |ids| ==> ids[i] != ids[j]
  }

  /** The representation invariant: the three maps share one key set, which
      `order` lists once each; every entry carries its own id; histories are
      bounded and metrics balanced. */
  predicate Valid(reg: Registry) {
    && NoDuplicates(reg.order)
    && (forall id :: id in reg.order ==> id in reg.sessions)
    && (forall id :: id in reg.sessions ==> id in reg.order)
    && reg.machines.Keys == reg.sessions.Keys
    && reg.metrics.Keys == reg.sessions.Keys
    && (forall id :: id in reg.sessions ==>
          && reg.sessions[id].sessionId == id
          && HistoryBounded(reg.sessions[id])
          && reg.metrics[id].sessionId == id
          && MetricsBalanced(reg.metrics[id]))
  }

  lemma EmptyRegistryValid()
    ensures Valid(EmptyRegistry)
  {
  }

  /** The session's recorded state agrees with its controller's state. */
  predicate Mirrored(reg: Registry, id: SessionId) {
    id in reg.sessions && id in reg.machines && reg.sessions[id].state == reg.machines[id].state
  }

  // ---------------------------------------------------------------------------
  // State-change callback

  /** `_on_state_change(id, old, new)`: records the new state on the session,
      if the registry holds it. */
  function OnStateChange(reg: Registry, id: SessionId, c: Change): (r: Registry)
    ensures id in reg.sessions ==> r == reg.(sessions := reg.sessions[id := reg.sessions[id].(state := c.to)])
    ensures id !in reg.sessions ==> r == reg
  {
    if id in reg.sessions then reg.(sessions := reg.sessions[id := reg.sessions[id].(state := c.to)]) else reg
  }

  /** The callback invoked for each notification, in order. */
  function NotifyAll(reg: Registry, id: SessionId, changes: seq<Change>): (r: Registry)
    ensures r.order == reg.order && r.machines == reg.machines && r.metrics == reg.metrics
    ensures r.sessions.Keys == reg.sessions.Keys
    ensures forall k :: k in reg.sessions && k != id ==> r.sessions[k] == reg.sessions[k]
    ensures id in reg.sessions ==>
      r.sessions[id] == reg.sessions[id].(state := LastNotified(reg.sessions[id].state, changes))
    decreases |changes|
  {
    if changes == [] then reg
    else NotifyAll(OnStateChange(reg, id, changes[0]), id, changes[1..])
  }

  /** Session `id`'s controller performs `e`, its callback wired to
      `_on_state_change` as `create_session` wires it. Nothing happens for an
      id without a controller. */
  function Drive(reg: Registry, id: SessionId, e: Event): (r: Registry)
    ensures id !in reg.machines ==> r == reg
    ensures id in reg.machines ==> r.machines == reg.machines[id := Apply(reg.machines[id], e).machine]
    ensures r.order == reg.order && r.metrics == reg.metrics && r.sessions.Keys == reg.sessions.Keys
    ensures forall k :: k in reg.sessions && k != id ==> r.sessions[k] == reg.sessions[k]
    ensures id in reg.machines && id in reg.sessions ==>
      r.sessions[id] == reg.sessions[id].(state := LastNotified(reg.sessions[id].state, Apply(reg.machines[id], e).notified))
  {
    if id !in reg.machines then reg
    else
      var s := Apply(reg.machines[id], e);
      NotifyAll(reg.(machines := reg.machines[id := s.machine]), id, s.notified)
  }

  /** Through the callback, the session's recorded state follows its
      controller for every operation that goes through `_transition_to`. */
  lemma DriveKeepsMirror(reg: Registry, id: SessionId, e: Event)
    requires Mirrored(reg, id) && !BypassesCallback(e)
    ensures Mirrored(Drive(reg, id, e), id)
  {
    CallbackFaithful(reg.machines[id], e);
  }

  /** `reset()` and `start_user_processing()` with the button held bypass the
      callback, so the recorded state can fall behind the controller. */
  lemma ResetBreaksMirror(reg: Registry, id: SessionId)
    requires Mirrored(reg, id) && reg.machines[id].state != Connected
    ensures !Mirrored(Drive(reg, id, ResetEvent), id)
  {
  }

  lemma DriveKeepsValid(reg: Registry, id: SessionId, e: Event)
    requires Valid(reg)
    ensures Valid(Drive(reg, id, e))
  {
  }

  // ---------------------------------------------------------------------------
  // Creating and closing sessions

  datatype RegistryError = MaxSessionsReached

  datatype Created = Created(registry: Registry, session: SessionData)

  /** `create_session(home, target, user_id)` with `id` the generated uuid and
      `maxSessions` the configured capacity. The controller connects before
      the session is stored, so that callback finds no session and does
      nothing; the session is `CONNECTED` because it is constructed so. */
  function CreateSession(
    reg: Registry, maxSessions: int, id: SessionId,
    home: LanguageCode, target: LanguageCode, userId: Option<string>
  ): (r: Result<Created, RegistryError>)
    ensures r.Err? <==> |reg.sessions| >= maxSessions
    ensures r.Ok? ==>
      && r.value.session == NewSessionData(id, Connected, home, target, userId)
      && r.value.registry.sessions == reg.sessions[id := r.value.session]
      && r.value.registry.machines == reg.machines[id := Connect(Initial).machine]
      && r.value.registry.metrics == reg.metrics[id := NewSessionMetrics(id)]
  {
    if |reg.sessions| >= maxSessions then Err(MaxSessionsReached)
    else
      var session := NewSessionData(id, Connected, home, target, userId);
      var connected := Connect(Initial);
      var reg1 := NotifyAll(reg, id, connected.notified);
      var order := if id in reg1.order then reg1.order else reg1.order + [id];
      Ok(Created(
        Registry(order, reg1.sessions[id := session], reg1.machines[id := connected.machine],
                 reg1.metrics[id := NewSessionMetrics(id)]),
        session))
  }

  /** A new session is stored under its fresh id in all three maps, connected
      and mirrored, and every other session is untouched. */
  lemma CreateSessionStores(
    reg: Registry, maxSessions: int, id: SessionId,
    home: LanguageCode, target: LanguageCode, userId: Option<string>)
    requires Valid(reg) && id !in reg.sessions && |reg.sessions| < maxSessions
    ensures var r := CreateSession(reg, maxSessions, id, home, target, userId);
      && r.Ok?
      && Valid(r.value.registry)
      && r.value.registry.order == reg.order + [id]
      && |r.value.registry.sessions| == |reg.sessions| + 1
      && r.value.registry.machines[id].state == Connected
      && Mirrored(r.value.registry, id)
      && (forall k :: k in reg.sessions ==> r.value.registry.sessions[k] == reg.sessions[k])
  {
    var c := CreateSession(reg, maxSessions, id, home, target, userId);
    var session := NewSessionData(id, Connected, home, target, userId);
    assert c.Ok? && c.value.session == session;
    assert c.value.registry == Registry(reg.order + [id], reg.sessions[id := session],
      reg.machines[id := Connect(Initial).machine], reg.metrics[id := NewSessionMetrics(id)]);
    InsertKeepsValid(reg, id, session, Connect(Initial).machine, NewSessionMetrics(id));
  }

  lemma InsertKeepsValid(reg: Registry, id: SessionId, s: SessionData, mc: Machine, mt: SessionMetrics)
    requires Valid(reg) && id !in reg.sessions
    requires s.sessionId == id && HistoryBounded(s) && mt.sessionId == id && MetricsBalanced(mt)
    ensures Valid(Registry(reg.order + [id], reg.sessions[id := s], reg.machines[id := mc], reg.metrics[id := mt]))
  {
    var order := reg.order + [id];
    forall i, j | 0 <= i < j < |order|
      ensures order[i] != order[j]
    {
      if j == |reg.order| {
        assert reg.order[i] in reg.order;
      }
    }
  }

  /** The registry never holds more sessions than the capacity allows. */
  lemma CreateSessionRespectsCapacity(
    reg: Registry, maxSessions: int, id: SessionId,
    home: LanguageCode, target: LanguageCode, userId: Option<string>)
    requires |reg.sessions| <= maxSessions
    ensures var r := CreateSession(reg, maxSessions, id, home, target, userId);
      r.Ok? ==> |r.value.registry.sessions| <= maxSessions
  {
    var r := CreateSession(reg, maxSessions, id, home, target, userId);
    if r.Ok? {
      assert r.value.registry.sessions.Keys == reg.sessions.Keys + {id};
    }
  }

  /** The outcome of `close_session(id)`: the registry, and the session and
      controller as they were when they were removed. */
  datatype Closed = Closed(registry: Registry, session: Option<SessionData>, machine: Option<Machine>)

  /** `ids` without `id`. */
  function Without(ids: seq<SessionId>, id: SessionId): (r: seq<SessionId>)
    ensures forall k :: k in r <==> k in ids && k != id
    ensures NoDuplicates(ids) ==> NoDuplicates(r)
    decreases |ids|
  {
    if ids == [] then []
    else if ids[0] == id then Without(ids[1..], id)
    else
      var rest := Without(ids[1..], id);
      var r := [ids[0]] + rest;
      assert NoDuplicates(ids) ==> NoDuplicates(r) by {
        if NoDuplicates(ids) {
          assert ids[0] !in ids[1..] by {
            forall j | 0 <= j < |ids[1..]| ensures ids[1..][j] != ids[0] {
              assert ids[1..][j] == ids[j + 1];
            }
          }
          assert NoDuplicates(ids[1..]) by {
            forall i, j | 0 <= i < j < |ids[1..]| ensures ids[1..][i] != ids[1..][j] {
              assert ids[1..][i] == ids[i + 1] && ids[1..][j] == ids[j + 1];
            }
          }
          forall i, j | 0 <= i < j < |r| ensures r[i] != r[j] {
            assert r[j] == rest[j - 1];
            if i > 0 {
              assert r[i] == rest[i - 1];
            }
          }
        }
      }
      r
  }

  /** `close_session(id)`: an unknown id changes nothing; a known session's
      controller is disconnected (the callback marks the session
      `DISCONNECTED` while it is still stored) and the id leaves all three maps. */
  function CloseSession(reg: Registry, id: SessionId): (r: Closed)
    ensures id !in reg.sessions ==> r == Closed(reg, None, None)
    ensures id in reg.sessions ==>
      && r.registry.sessions == reg.sessions - {id}
      && r.registry.machines == reg.machines - {id}
      && r.registry.metrics == reg.metrics - {id}
      && r.session.Some?
      && (id in reg.machines ==> r.machine == Some(Initial))
  {
    if id !in reg.sessions then Closed(reg, None, None)
    else
      var disconnected := if id in reg.machines then Drive(reg, id, DisconnectEvent) else reg;
      Closed(
        Registry(Without(reg.order, id), reg.sessions - {id}, reg.machines - {id}, reg.metrics - {id}),
        Some(disconnected.sessions[id]),
        if id in reg.machines then Some(disconnected.machines[id]) else None)
  }

  /** Closing keeps the registry valid, and a closed session that was
      mirrored leaves recorded as `DISCONNECTED`. */
  lemma CloseSessionKeepsValid(reg: Registry, id: SessionId)
    requires Valid(reg)
    ensures Valid(CloseSession(reg, id).registry)
    ensures id !in CloseSession(reg, id).registry.order
    ensures Mirrored(reg, id) ==> CloseSession(reg, id).session.value.state == Disconnected
  {
    if Mirrored(reg, id) {
      DriveKeepsMirror(reg, id, DisconnectEvent);
    }
  }

  // ---------------------------------------------------------------------------
  // Messages and metrics

  /** The history after appending `m`: only the last `MaxHistory` entries are kept. */
  function AppendBounded(history: seq<Message>, m: Message): (r: seq<Message>)
    ensures |r| == if |history| + 1 <= MaxHistory then |history| + 1 else MaxHistory
    ensures r[|r| - 1] == m
    ensures r == (history + [m])[|history| + 1 - |r|..]
  {
    var all := history + [m];
    if |all| > MaxHistory then all[|all| - MaxHistory..] else all
  }

  datatype Added = Added(registry: Registry, message: Option<Message>)

  /** `add_message(...)` with `msgId` the generated uuid. Languages not given
      default from the session's pair, in the speaker's direction: home to
      target for the user, target to home for the partner. */
  function AddMessage(
    reg: Registry, id: SessionId, msgId: string, speaker: SpeakerTurn, original: string,
    translated: Option<string>, source: Option<LanguageCode>, target: Option<LanguageCode>
  ): (r: Added)
    ensures id !in reg.sessions ==> r == Added(reg, None)
    ensures id in reg.sessions ==> r.message.Some? && r.registry.sessions.Keys == reg.sessions.Keys
    ensures r.registry.order == reg.order && r.registry.machines == reg.machines
    ensures r.registry.metrics == reg.metrics
  {
    if id !in reg.sessions then Added(reg, None)
    else
      var s := reg.sessions[id];
      var src := if speaker == User then source.GetOr(s.homeLanguage) else source.GetOr(s.targetLanguage);
      var dst := if speaker == User then target.GetOr(s.targetLanguage) else target.GetOr(s.homeLanguage);
      var msg := Message(msgId, id, speaker, original, translated, src, Some(dst));
      var s' := s.(
        messages := AppendBounded(s.messages, msg),
        totalUserTurns := if speaker == User then s.totalUserTurns + 1 else s.totalUserTurns,
        totalPartnerTurns := if speaker == Partner then s.totalPartnerTurns + 1 else s.totalPartnerTurns);
      Added(reg.(sessions := reg.sessions[id := s']), Some(msg))
  }

  /** What `add_message` records for a known session: the message's languages
      are the ones given or the speaker's direction of the session's pair;
      the history ends with it and keeps the most recent entries; exactly the
      speaker's turn counter goes up; nothing else changes. */
  lemma AddMessageRecords(
    reg: Registry, id: SessionId, msgId: string, speaker: SpeakerTurn, original: string,
    translated: Option<string>, source: Option<LanguageCode>, target: Option<LanguageCode>)
    requires id in reg.sessions
    ensures var r := AddMessage(reg, id, msgId, speaker, original, translated, source, target);
      var s := reg.sessions[id];
      var s' := r.registry.sessions[id];
      var m := r.message.value;
      && m.speaker == speaker && m.originalText == original && m.translatedText == translated
      && m.sessionId == id && m.id == msgId
      && (source.Some? ==> m.sourceLanguage == source.value)
      && (target.Some? ==> m.targetLanguage == target)
      && (source.None? ==> m.sourceLanguage == if speaker == User then s.homeLanguage else s.targetLanguage)
      && (target.None? ==> m.targetLanguage == Some(if speaker == User then s.targetLanguage else s.homeLanguage))
      && s'.messages == AppendBounded(s.messages, m)
      && s'.totalUserTurns + s'.totalPartnerTurns == s.totalUserTurns + s.totalPartnerTurns + 1
      && (speaker == User <==> s'.totalUserTurns == s.totalUserTurns + 1)
      && s' == s.(messages := s'.messages, totalUserTurns := s'.totalUserTurns,
                  totalPartnerTurns := s'.totalPartnerTurns)
      && (forall k :: k in reg.sessions && k != id ==> r.registry.sessions[k] == reg.sessions[k])
  {
  }

  lemma AddMessageKeepsValid(
    reg: Registry, id: SessionId, msgId: string, speaker: SpeakerTurn, original: string,
    translated: Option<string>, source: Option<LanguageCode>, target: Option<LanguageCode>)
    requires Valid(reg)
    ensures Valid(AddMessage(reg, id, msgId, speaker, original, translated, source, target).registry)
  {
  }

  /** `update_metrics(id, ..., success, error_type)` on the integer counters. */
  function UpdateMetrics(reg: Registry, id: SessionId, success: bool, errorType: Option<string>): (r: Registry)
    ensures id !in reg.metrics || id !in reg.sessions ==> r == reg
    ensures r.order == reg.order && r.sessions == reg.sessions && r.machines == reg.machines
    ensures r.metrics.Keys == reg.metrics.Keys
  {
    if id !in reg.metrics || id !in reg.sessions then reg
    else
      var m := reg.metrics[id];
      var counted := m.(totalTurns := m.totalTurns + 1);
      var m' :=
        if success then counted.(successfulTurns := m.successfulTurns + 1)
        else
          var failed := counted.(failedTurns := m.failedTurns + 1);
          if errorType == Some("stt") then failed.(sttErrors := m.sttErrors + 1)
          else if errorType == Some("translation") then failed.(translationErrors := m.translationErrors + 1)
          else if errorType == Some("tts") then failed.(ttsErrors := m.ttsErrors + 1)
          else failed;
      reg.(metrics := reg.metrics[id := m'])
  }

  /** For a known session every update counts one turn, as exactly one of a
      success and a failure; a per-stage error counter rises only for a
      failure of that stage; the balance of the counters is kept. */
  lemma UpdateMetricsCounts(reg: Registry, id: SessionId, success: bool, errorType: Option<string>)
    requires id in reg.metrics && id in reg.sessions
    ensures var m := reg.metrics[id];
      var m' := UpdateMetrics(reg, id, success, errorType).metrics[id];
      && m'.totalTurns == m.totalTurns + 1
      && m'.successfulTurns + m'.failedTurns == m.successfulTurns + m.failedTurns + 1
      && (success <==> m'.successfulTurns == m.successfulTurns + 1)
      && (m'.sttErrors != m.sttErrors <==> !success && errorType == Some("stt"))
      && (m'.translationErrors != m.translationErrors <==> !success && errorType == Some("translation"))
      && (m'.ttsErrors != m.ttsErrors <==> !success && errorType == Some("tts"))
      && (MetricsBalanced(m) ==> MetricsBalanced(m'))
  {
  }

  lemma UpdateMetricsKeepsValid(reg: Registry, id: SessionId, success: bool, errorType: Option<string>)
    requires Valid(reg)
    ensures Valid(UpdateMetrics(reg, id, success, errorType))
  {
  }

  // ---------------------------------------------------------------------------
  // Listing

  function Snapshot(s: SessionData): SessionSnapshot {
    SessionSnapshot(s.sessionId, s.state, s.homeLanguage, s.targetLanguage, |s.messages|)
  }

  /** The snapshots of the sessions listed in `ids`, in that order. */
  function SnapshotsOf(sessions: map<SessionId, SessionData>, ids: seq<SessionId>): (r: seq<SessionSnapshot>)
    ensures (forall k :: k in ids ==> k in sessions) ==>
      |r| == |ids| && forall i :: 0 <= i < |ids| ==> r[i] == Snapshot(sessions[ids[i]])
    decreases |ids|
  {
    if ids == [] then []
    else
      var rest := SnapshotsOf(sessions, ids[1..]);
      if ids[0] in sessions then [Snapshot(sessions[ids[0]])] + rest else rest
  }

  /** `list_sessions()`: one snapshot per active session, in creation order. */
  function ListSessions(reg: Registry): (r: seq<SessionSnapshot>)
    ensures Valid(reg) ==>
      && |r| == |reg.order|
      && (forall i :: 0 <= i < |r| ==> r[i] == Snapshot(reg.sessions[reg.order[i]]))
      && (forall i :: 0 <= i < |r| ==> r[i].sessionId == reg.order[i] && r[i].messageCount <= MaxHistory)
  {
    SnapshotsOf(reg.sessions, reg.order)
  }
}
