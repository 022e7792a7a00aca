/** The records a session keeps: chat messages, the session itself, its
    metrics and the snapshot used for listings (backend/models/session.py).
    Timestamps, the audio URL and the floating-point latency averages are not
    modelled. */
module SessionModels {
  import opened Wrappers
  import opened Enums

  type SessionId = string

  /** The most messages a session's history keeps. */
  const MaxHistory: nat := 50

  /** A chat message. The speaker and the source language are required;
      the translation and the target language may be absent. */
  datatype Message = Message(
    id: string,
    sessionId: SessionId,
    speaker: SpeakerTurn,
    originalText: string,
    translatedText: Option<string>,
    sourceLanguage: LanguageCode,
    targetLanguage: Option<LanguageCode>)

  /** The data of one active session. */
  datatype SessionData = SessionData(
    sessionId: SessionId,
    state: SessionState,
    homeLanguage: LanguageCode,
    targetLanguage: LanguageCode,
    userId: Option<string>,
    currentSpeaker: Option<SpeakerTurn>,
    isProcessing: bool,
    messages: seq<Message>,
    totalUserTurns: nat,
    totalPartnerTurns: nat,
    totalProcessingTimeMs: nat)

  /** The history bound a session's data keeps. */
  predicate HistoryBounded(s: SessionData) {
    |s.messages| <= MaxHistory
  }

  /** `SessionData(...)` with every field that has a default left at it and
      the state passed explicitly. */
  function NewSessionData(
    id: SessionId, state: SessionState, home: LanguageCode, target: LanguageCode, userId: Option<string>
  ): (s: SessionData)
    ensures s.sessionId == id && s.state == state
    ensures s.homeLanguage == home && s.targetLanguage == target && s.userId == userId
    ensures s.currentSpeaker == None && !s.isProcessing
    ensures s.messages == [] && HistoryBounded(s)
    ensures s.totalUserTurns == 0 && s.totalPartnerTurns == 0 && s.totalProcessingTimeMs == 0
  {
    SessionData(id, state, home, target, userId, None, false, [], 0, 0, 0)
  }

  /** `SessionData(...)` with no state given: it starts disconnected. */
  function DefaultSessionData(id: SessionId, home: LanguageCode, target: LanguageCode): (s: SessionData)
    ensures s.state == Disconnected && s.currentSpeaker == None && !s.isProcessing
    ensures s.totalUserTurns == 0 && s.totalPartnerTurns == 0 && s.totalProcessingTimeMs == 0
    ensures s.messages == []
  {
    NewSessionData(id, Disconnected, home, target, None)
  }

  /** The integer counters of a session's metrics. */
  datatype SessionMetrics = SessionMetrics(
    sessionId: SessionId,
    totalTurns: nat,
    successfulTurns: nat,
    failedTurns: nat,
    sttErrors: nat,
    translationErrors: nat,
    ttsErrors: nat,
    silenceDetectedCount: nat)

  /** Every turn is counted as a success or as a failure, and every per-stage
      error is one of the failures. */
  predicate MetricsBalanced(m: SessionMetrics) {
    && m.totalTurns == m.successfulTurns + m.failedTurns
    && m.sttErrors + m.translationErrors + m.ttsErrors <= m.failedTurns
  }

  /** `SessionMetrics(session_id=id)`: every counter zero. */
  function NewSessionMetrics(id: SessionId): (m: SessionMetrics)
    ensures m.sessionId == id
    ensures m.totalTurns == 0 && m.successfulTurns == 0 && m.failedTurns == 0
    ensures m.sttErrors == 0 && m.translationErrors == 0 && m.ttsErrors == 0
    ensures m.silenceDetectedCount == 0
    ensures MetricsBalanced(m)
  {
    SessionMetrics(id, 0, 0, 0, 0, 0, 0, 0)
  }

  /** The summary of a session shown in listings. */
  datatype SessionSnapshot = SessionSnapshot(
    sessionId: SessionId,
    state: SessionState,
    homeLanguage: LanguageCode,
    targetLanguage: LanguageCode,
    messageCount: nat)
}
