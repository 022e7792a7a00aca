# Nebula Translate backend core in Dafny

This project models the core of the Nebula Translate backend. That backend is a real-time, push-to-talk interpreter. While the user holds the button, their speech is transcribed, translated and spoken aloud in the partner's language. Once the button is released, the partner's speech is detected by voice activity, transcribed and translated, and shown as text only.

The model is functional. Every entity is an immutable datatype, and every operation is a pure function that returns the new state together with what the operation emitted. The modules mirror the backend's files:

| module | file | what it holds |
|---|---|---|
| `Wrappers` | — | `Option` and `Result` |
| `Strings` | — | Python's `strip`, `split`, `join`, `lower` and prefix slicing |
| `Enums` | `backend/models/enums.py` | session states, PTT states, speaker turns, the 26 languages and their display names |
| `SessionModels` | `backend/models/session.py` | messages, session data, metrics and snapshots |
| `StateMachine` | `backend/core/state_machine.py` | the push-to-talk turn controller and its state-change callback |
| `Frames` | — | the frame kinds the routers tell apart |
| `Pipeline` | `backend/core/pipeline_manager.py` | the audio router, text router, level monitor and the manager's lifecycle guards |
| `SessionManager` | `backend/core/session_manager.py` | the session registry |
| `Config` | `backend/config.py` | settings, comma-list parsing, voice lookup, ICE servers, key masking |
| `Translation` | `backend/services/translation_service.py` | the translation stage and its single fallback retry |
| `Stt`, `Tts` | `backend/services/stt_service.py`, `backend/services/tts_service.py` | the memoising adaptive services and the configuration helpers |
| `Vad` | `backend/services/vad_service.py` | presets, the configuration check, argument defaulting and the enable flag |

**The turn controller.** The controller is a record of four fields: the state, whether the button is held, whether a turn is being processed, and the current speaker. Each of its ten operations returns a `Step`. A `Step` holds the new record and the `(old, new)` pairs handed to the state-change callback.

**Atomic steps.** Concurrency between button events and in-flight frames is modelled as an arbitrary interleaving of atomic steps (`Pipeline.Feed`).

**Oracles.** These parts are parameters rather than code:
- The OpenRouter call is a function from request to reply.
- Whether a speech service factory raises is a boolean.
- Fresh session and message ids are arguments.
- The audio level of a frame is an argument.

**Where the model follows the code.** The model has no turn identifiers, no manual/automatic turns and no per-turn frame counters. The code has none of them. Holding the button does not imply `USER_SPEAKING`: finishing user processing moves to `PARTNER_LISTENING` while the button is still held.

**How a new session becomes `CONNECTED`.** In `create_session` the controller's `connect()` fires its callback before the session is stored, so that callback changes nothing. The stored session is `CONNECTED` because its constructor is given that state, not because of the callback. `SessionManager.CreateSession` models it that way.

## Model

| member | source | states |
|---|---|---|
| StateMachine.IsUserTurn | backend/core/state_machine.py:50-53 | it is the user's turn exactly while the button is held, whatever the state |
| StateMachine.IsPartnerTurn | backend/core/state_machine.py:55-61 | it is the partner's turn exactly when the button is released and the state is `PARTNER_LISTENING` or `PARTNER_PROCESSING` |
| StateMachine.ShouldEnableVad | backend/core/state_machine.py:63-70 | voice detection runs exactly when the button is released and the state is `CONNECTED` or `PARTNER_LISTENING` |
| StateMachine.ShouldOutputAudio | backend/core/state_machine.py:72-76 | synthesised speech plays exactly in `USER_SPEAKING` and `USER_PROCESSING`, whether or not the button is held |
| StateMachine.UserTurnExcludesVad | backend/core/state_machine.py:50-70 | in any record, the user's turn excludes both voice detection and the partner's turn |
| StateMachine.DerivedPropertiesUnderInv | backend/core/state_machine.py:50-76 | under the invariant: speech output with the button held means `USER_SPEAKING` and without it `USER_PROCESSING`; a held button occurs only in `CONNECTED`, `USER_SPEAKING`, `PARTNER_LISTENING` or `ERROR`; partner turn or voice detection holds iff the button is released in `CONNECTED`, `PARTNER_LISTENING` or `PARTNER_PROCESSING`, both together iff released in `PARTNER_LISTENING`; speech output never coincides with either |
| StateMachine.TransitionTo | backend/core/state_machine.py:179-191 | only the state changes; exactly one `(old, new)` callback iff the new state differs, none otherwise |
| StateMachine.Connect | backend/core/state_machine.py:82-85 | the state becomes `CONNECTED`, the flags are kept, and the callback is notified faithfully |
| StateMachine.Disconnect | backend/core/state_machine.py:87-93 | the result is the initial record: disconnected, button released, not processing, no speaker; the callback is notified faithfully |
| StateMachine.PttPress | backend/core/state_machine.py:95-110 | while disconnected nothing changes and nothing is notified; in every other state, processing and error included, the result is `USER_SPEAKING` with the button held and speaker `USER` |
| StateMachine.PttRelease | backend/core/state_machine.py:112-130 | while disconnected nothing changes; from `USER_SPEAKING` it goes to `USER_PROCESSING` if processing, else to `PARTNER_LISTENING` with the speaker cleared; in any other state only the button is released |
| StateMachine.StartUserProcessing | backend/core/state_machine.py:132-143 | processing becomes true; with the button held the state becomes `USER_SPEAKING` without any callback; otherwise it becomes `USER_PROCESSING` with a faithful callback |
| StateMachine.FinishUserProcessing | backend/core/state_machine.py:145-153 | processing and speaker are always cleared; only the two user states move to `PARTNER_LISTENING`, and the button is kept |
| StateMachine.StartPartnerProcessing | backend/core/state_machine.py:155-161 | with the button released in `CONNECTED` or `PARTNER_LISTENING` the result is `PARTNER_PROCESSING`, processing, speaker `PARTNER`; otherwise nothing changes |
| StateMachine.FinishPartnerProcessing | backend/core/state_machine.py:163-171 | processing and speaker are always cleared; only `PARTNER_PROCESSING` moves to `PARTNER_LISTENING` |
| StateMachine.HandleError | backend/core/state_machine.py:173-177 | the state becomes `ERROR` and processing is cleared; the button and the speaker are kept |
| StateMachine.Reset | backend/core/state_machine.py:193-199 | the result is `CONNECTED` with every flag cleared, and nothing is notified |
| StateMachine.CallbackFaithful | backend/core/state_machine.py:179-191 | every operation except the two direct assignments notifies exactly `(old, new)` when the state changed and nothing when it did not |
| StateMachine.CallbackBypassed | backend/core/state_machine.py:136-199 | a concrete run reaches `PARTNER_LISTENING` with the button held, and from there `start_user_processing` changes the state silently; `reset` from any state but `CONNECTED` changes the state silently |
| StateMachine.RunKeepsListenerInSync | backend/core/state_machine.py:179-191 | a listener that follows only the callbacks of a run without direct assignments ends with the machine's actual state |
| StateMachine.PressIdempotent | backend/core/state_machine.py:95-110 | a second press returns the same record as the first and notifies nothing |
| StateMachine.ReleaseIdempotent | backend/core/state_machine.py:112-130 | a second release returns the same record as the first and notifies nothing |
| StateMachine.InitialInv | backend/core/state_machine.py:29-35 | the constructed record satisfies the invariant |
| StateMachine.ApplyKeepsInv | backend/core/state_machine.py:82-199 | every operation preserves the invariant: disconnected means released, idle and no speaker; a held button means neither a processing state nor disconnected; `USER_SPEAKING` means the button is held |
| StateMachine.RunKeepsInv | backend/core/state_machine.py:50-70 | any run of operations preserves the invariant, and the user's turn and voice detection are never on together |
| StateMachine.ReachableInv | backend/core/state_machine.py:29-35 | every record reachable from the constructor satisfies the invariant |
| Pipeline.RouteAudio | backend/core/pipeline_manager.py:245-284 | non-audio goes to the base class and upstream audio is pushed, both without counting; downstream audio is counted once and forwarded iff it is the user's turn or voice detection is on, else dropped |
| Pipeline.HeldButtonForwardsAudio | backend/core/pipeline_manager.py:267-270 | with the button held, downstream audio is forwarded in every state |
| Pipeline.ReleasedButtonDropsAudio | backend/core/pipeline_manager.py:272-284 | with the button released, audio is dropped in `USER_PROCESSING`, `PARTNER_PROCESSING`, `ERROR` and `DISCONNECTED` |
| Pipeline.ReachableForwardingStates | backend/core/pipeline_manager.py:267-284 | in a reachable controller, forwarded audio never occurs while disconnected or while a turn is processed |
| Pipeline.RouteText | backend/core/pipeline_manager.py:299-319 | text goes on to speech synthesis iff audio output is on, and is dropped otherwise; exactly one text emission, tagged with the current speaker, iff there is a speaker |
| Pipeline.MonitorLevel | backend/core/pipeline_manager.py:331-348 | every frame goes to the base class; a level is emitted iff the frame is downstream audio with whole 16-bit samples and there is a current speaker, tagged with that speaker |
| Pipeline.Feed | backend/core/pipeline_manager.py:245-284 | over any interleaving of controller events and frames reaching the audio router, the controller ends, and notifies its callback, exactly as if only the events had been applied; every frame is routed once |
| Pipeline.FeedCountsDownstreamAudio | backend/core/pipeline_manager.py:251-257 | over any interleaving of events and frames, the frame counter rises by exactly the number of downstream audio frames |
| Pipeline.FeedForwardsOnlyInTurn | backend/core/pipeline_manager.py:267-284 | over any interleaving from a record that satisfies the invariant, every forwarded downstream audio frame was seen in the user's turn or with voice detection on, never while disconnected or processing |
| Pipeline.SetServices | backend/core/pipeline_manager.py:73-88 | the four processors are replaced, and the pipeline and task are kept |
| Pipeline.Initialize | backend/core/pipeline_manager.py:90-116 | it raises iff the transcription, synthesis or translation processor is missing; otherwise the six stages are built, without voice detection |
| Pipeline.Start | backend/core/pipeline_manager.py:118-127 | it raises iff there is no pipeline; otherwise a task exists |
| Pipeline.ProcessAudioInput | backend/core/pipeline_manager.py:139-157 | nothing is queued without a pipeline and a task; otherwise one downstream 16 kHz mono audio frame carrying the bytes is queued |
| Pipeline.ManagerLifecycle | backend/core/pipeline_manager.py:90-157 | initialize and start fail on a fresh manager; audio is ignored before start and queued after set, initialize and start |
| SessionManager.EmptyRegistryValid | backend/core/session_manager.py:35-38 | the empty registry satisfies the registry invariant |
| SessionManager.OnStateChange | backend/core/session_manager.py:320-330 | a stored session takes the new state; an unknown id changes nothing |
| SessionManager.NotifyAll | backend/core/session_manager.py:320-330 | after a series of callbacks the session holds the last notified state, and every other entry is untouched |
| SessionManager.Drive | backend/core/session_manager.py:94-97 | the session's controller performs the event and its session's recorded state becomes the last state the callback was told, or stays as it was if none was; no other session, controller or metrics entry changes; ids without a controller change nothing |
| SessionManager.DriveKeepsMirror | backend/core/session_manager.py:320-330 | through the callback, the recorded session state keeps matching its controller for every operation that notifies |
| SessionManager.ResetBreaksMirror | backend/core/state_machine.py:193-199 | after `reset`, the recorded session state no longer matches a controller that was not `CONNECTED` |
| SessionManager.DriveKeepsValid | backend/core/session_manager.py:320-330 | driving a controller preserves the registry invariant |
| SessionManager.CreateSession | backend/core/session_manager.py:76-112 | it raises iff the registry already holds the maximum; otherwise a `CONNECTED` session, a connected controller and zeroed metrics are stored under the id |
| SessionManager.CreateSessionStores | backend/core/session_manager.py:76-112 | for a fresh id the invariant is kept, the id is appended in creation order, the count rises by one, the session mirrors its controller, and no other session changes |
| SessionManager.InsertKeepsValid | backend/core/session_manager.py:102-105 | storing one well-formed entry under a fresh id in all three maps preserves the invariant |
| SessionManager.CreateSessionRespectsCapacity | backend/core/session_manager.py:76-78 | the registry never grows beyond the maximum |
| SessionManager.Without | backend/core/session_manager.py:136-139 | it removes exactly the id and keeps the ids distinct |
| SessionManager.CloseSession | backend/core/session_manager.py:126-139 | an unknown id changes nothing and returns nothing; a known id leaves all three maps and its controller ends disconnected |
| SessionManager.CloseSessionKeepsValid | backend/core/session_manager.py:126-139 | closing preserves the invariant and removes the id from the listing order; a mirrored session leaves recorded as `DISCONNECTED` |
| SessionManager.AppendBounded | backend/core/session_manager.py:195-198 | the history ends with the new message, has length min(old + 1, 50), and keeps the most recent entries |
| SessionManager.AddMessage | backend/core/session_manager.py:149-209 | an unknown session returns nothing and changes nothing; a known one returns a message and changes only its session |
| SessionManager.AddMessageRecords | backend/core/session_manager.py:172-204 | given languages are kept; missing ones default home→target for `USER` and target→home for `PARTNER`; the bounded history ends with the message; exactly the speaker's turn counter rises; no other field or session changes |
| SessionManager.AddMessageKeepsValid | backend/core/session_manager.py:195-198 | adding a message preserves the invariant, including the 50-message bound |
| SessionManager.UpdateMetrics | backend/core/session_manager.py:221-225 | it is a no-op unless both the metrics and the session exist; it touches only the metrics |
| SessionManager.UpdateMetricsCounts | backend/core/session_manager.py:227-275 | the total rises by one and exactly one of successes and failures rises; a stage counter rises iff the update is a failure of that stage; the totals stay balanced |
| SessionManager.UpdateMetricsKeepsValid | backend/core/session_manager.py:221-275 | updating metrics preserves the invariant |
| SessionManager.SnapshotsOf | backend/core/session_manager.py:279-290 | there is one snapshot per listed stored id, in list order |
| SessionManager.ListSessions | backend/core/session_manager.py:277-292 | for a valid registry, there is one snapshot per session in creation order, each carrying its id and a message count of at most 50 |
| Enums.ParseSessionState | backend/models/enums.py:8-16 | parsing finds the state whose value is the string, and fails iff no state has that value |
| Enums.SessionStatesExact | backend/models/enums.py:8-16 | there are exactly seven states, and their values are pairwise distinct |
| Enums.ParsePttState | backend/models/enums.py:19-22 | parsing finds the PTT state whose value is the string, and fails iff none has it |
| Enums.ParseSpeakerTurn | backend/models/enums.py:25-28 | parsing finds the speaker whose value is the string, and fails iff none has it |
| Enums.TwoValuedEnumsExact | backend/models/enums.py:19-28 | PTT states and speaker turns have exactly two values each, and the values are distinct |
| Enums.ParseLanguage | backend/models/enums.py:57-85 | a parsed language has the string as its value |
| Enums.LanguageRoundTrip | backend/models/enums.py:57-85 | parsing a language's value gives the language back |
| Enums.ParseLanguageExact | backend/models/enums.py:57-85 | parsing succeeds iff some language has the string as its value |
| Enums.LanguageCount | backend/models/enums.py:57-85 | there are exactly 26 languages |
| Enums.LanguageValuesDistinct | backend/models/enums.py:57-85 | the language values are pairwise distinct |
| Enums.LanguageNamesTotal | backend/models/enums.py:89-116 | the display-name table has an entry for every one of the 26 languages and nothing else |
| SessionModels.NewSessionData | backend/models/session.py:24-46 | a session built with the given state has no speaker, is not processing, has an empty history and zero counters and time |
| SessionModels.DefaultSessionData | backend/models/session.py:27-46 | a session built without a state starts `DISCONNECTED`, with no speaker, not processing and zero counters |
| SessionModels.NewSessionMetrics | backend/models/session.py:49-71 | new metrics have every counter zero and are balanced |
| Strings.Strip | backend/config.py:15 | the result is the infix left after removing whitespace at both ends: everything removed is whitespace, and neither end of the result is |
| Strings.StripIdempotent | backend/config.py:15 | stripping twice is stripping once |
| Strings.Split | backend/config.py:15 | there is one piece more than there are separators, no piece contains the separator, and joining the pieces gives the input back |
| Strings.SplitJoin | backend/config.py:15 | splitting a join of separator-free pieces gives the pieces back |
| Strings.SplitFirstPiece | backend/config.py:141 | the first piece of `p-rest` is `p` when `p` has no `-` |
| Strings.LowerFirstPiece | backend/config.py:141 | lower-casing and taking the text before the first `-` commute |
| Config.DefaultSettings | backend/config.py:35-91 | the defaults are: two allowed origins, voice `alloy`, the default model and two fallbacks, no TURN server, VAD 0.7/0.2/0.8, 16 kHz mono, 100 sessions and 10/15/10 s timeouts |
| Config.ParseCommaSeparated | backend/config.py:12-16 | a list is returned unchanged; a string gives non-empty, trimmed, comma-free items, at most one more than there are commas |
| Config.KeepStrippedAppend | backend/config.py:15 | the filter distributes over concatenation, so kept items keep their relative order |
| Config.ParseCommaSeparatedPiece | backend/config.py:15 | a comma-free piece parses to its stripped form, or to nothing if that is empty |
| Config.ParseCommaSeparatedOrder | backend/config.py:15 | parsing `a,b` gives the items of `a` followed by the items of `b` |
| Config.ParseCommaSeparatedRoundTrip | backend/config.py:15 | joining the parsed items with `,` and parsing again gives the same items |
| Config.VoiceForLanguage | backend/config.py:126-142 | the result is the table's voice for the lower-cased prefix before the first `-`, or the configured voice when the prefix is unmapped |
| Config.VoiceIgnoresRegion | backend/config.py:140-142 | whatever follows the first `-` never changes the voice |
| Config.VoiceIgnoresCase | backend/config.py:141-142 | the lookup gives the same voice for a code and its lower-case form |
| Config.EnglishVariantsGetAlloy | backend/config.py:128-142 | `en-US` and `EN` both get `alloy` |
| Config.WebRtcConfig | backend/config.py:105-123 | the STUN server comes first, and a second TURN entry with the username and credential is present iff a TURN URL is set and not empty; the three policies are fixed |
| Config.WebRtcIgnoresUnusedCredentials | backend/config.py:110-116 | without a TURN URL the client gets only the STUN server, and the TURN username and credential have no effect |
| Config.DefaultWebRtcConfig | backend/config.py:105-123 | with the default settings the only ICE server is `stun:stun.l.google.com:19302` |
| Config.MaskKeyReveals | backend/services/translation_service.py:230 | an empty key shows as `NOT_SET`; any other key shows as at most its first ten characters followed by `...` |
| Config.MaskHidesTail | backend/services/translation_service.py:230 | two non-empty keys that agree on their first ten characters are shown identically |
| Translation.DisplayName | backend/services/translation_service.py:55-56 | the display name always comes from the language-name table |
| Translation.NewTranslator | backend/services/translation_service.py:27-46 | the given model is used unless it is absent or empty, else the configured one; the prompt names both languages by their display names |
| Translation.Translate | backend/services/translation_service.py:116-172 | it makes one or two API calls, the first with the current model; there is a second call iff the first fails over HTTP, fallbacks exist, and the current model is not the first fallback, and that call uses the first fallback; the outcome is fixed by the last reply: content gives its stripped text, any other failure raises, and an HTTP failure raises the HTTP error, or the missing-fallback error when the list is empty; the model is restored |
| Translation.TranslateWithModel | backend/services/translation_service.py:174-183 | the processor's model is restored whatever the outcome; under the first fallback model exactly one call is made |
| Translation.FallbackFailureRaises | backend/services/translation_service.py:159-168 | when the fallback also fails over HTTP, the HTTP error propagates after exactly two calls |
| Translation.FirstReplyTranslates | backend/services/translation_service.py:150-157 | a model that answers at once gives its stripped content after exactly one call |
| Translation.FallbackRecovers | backend/services/translation_service.py:159-166 | after an HTTP failure, a first fallback model that answers gives its stripped content after exactly two calls |
| Translation.ProcessFrame | backend/services/translation_service.py:74-114 | exactly one frame is pushed, in the same direction; non-text frames also go to the base class; there are no API calls iff the frame is not text, goes upstream, or is blank; otherwise the frame pushed is the translated text on success and the original frame on failure |
| Translation.ProcessFrameTranslates | backend/services/translation_service.py:88-114 | a non-blank downstream text frame, plain or a transcription, is not handed to the base class, makes one or two calls, and comes out as the trimmed translation or unchanged |
| Translation.GetTranslationConfig | backend/services/translation_service.py:224-232 | it exposes the base URL, the models, the fallbacks and the timeout; the key shows as `NOT_SET` iff it is empty, and otherwise masked |
| Translation.GetTranslationConfigHidesKeyTail | backend/services/translation_service.py:224-232 | the configuration is the same for any two OpenRouter keys that agree on their first ten characters |
| Translation.ValidateTranslationConfig | backend/services/translation_service.py:235-238 | it raises iff the OpenRouter key is empty |
| Stt.NewAdaptiveSttConsistent | backend/services/stt_service.py:62-64 | a new service has no language and no processor, and is consistent |
| Stt.SetLanguageAsWritten | backend/services/stt_service.py:66-76 | afterwards the language is always the argument, even after a failed factory call; a processor is created iff the language differs and the factory succeeds |
| Stt.GetProcessorAsWritten | backend/services/stt_service.py:78-92 | with the current language and a held processor, that processor is returned and nothing is created; what it returns is the held processor |
| Stt.GetProcessorAsWrittenWhenFactoryOk | backend/services/stt_service.py:78-92 | with a factory that never fails, the cache stays consistent and the returned processor serves the requested language |
| Stt.StaleProcessorAsWritten | backend/services/stt_service.py:73-76 | a failed switch to Spanish leaves the English processor, and the next request for Spanish returns it |
| Stt.MissingProcessorAsWritten | backend/services/stt_service.py:88-92 | after a failed first request, the next request for the same language returns no processor |
| Stt.Install | backend/services/stt_service.py:73-75 | the language and the new processor are recorded only if the factory succeeds; a failure changes nothing |
| Stt.SetLanguage | backend/services/stt_service.py:66-76 | a processor is created iff the language differs and the factory succeeds; on success the language is the argument; a failure changes nothing; consistency is kept |
| Stt.GetProcessor | backend/services/stt_service.py:78-92 | whenever it returns, the returned processor is held and serves the requested language; a matching held processor is reused; a failure changes nothing; consistency is kept |
| Stt.NoStaleProcessor | backend/services/stt_service.py:66-92 | the sequence that returned a stale processor now gets a new Spanish processor |
| Stt.GetSttConfig | backend/services/stt_service.py:97-103 | it exposes the model and timeout; the key shows as `NOT_SET` iff it is empty, and otherwise masked |
| Stt.GetSttConfigHidesKeyTail | backend/services/stt_service.py:97-103 | the configuration is the same for any two OpenAI keys that agree on their first ten characters |
| Stt.ValidateSttConfig | backend/services/stt_service.py:106-109 | it raises iff the OpenAI key is empty |
| Tts.ResolveVoice | backend/services/tts_service.py:86-87 | a given non-empty voice is kept; otherwise the voice comes from the language table |
| Tts.ResolveVoiceIdempotent | backend/services/tts_service.py:39-41 | resolving a resolved voice again changes nothing, so the factory uses the voice the cache recorded |
| Tts.SetLanguageAsWritten | backend/services/tts_service.py:73-99 | afterwards the pair is always the resolved pair, even after a failed factory call; a processor is created iff the pair differs and the factory succeeds |
| Tts.GetProcessorAsWritten | backend/services/tts_service.py:101-125 | an unchanged pair with a held processor reuses that processor; what it returns is the held processor |
| Tts.GetProcessorAsWrittenWhenFactoryOk | backend/services/tts_service.py:101-125 | with a factory that never fails, the cache stays consistent and the returned processor serves the resolved pair |
| Tts.StaleProcessorAsWritten | backend/services/tts_service.py:90-96 | a failed switch to Spanish leaves the English processor, and the next Spanish request returns it |
| Tts.Install | backend/services/tts_service.py:90-96 | the pair and the new processor are recorded only if the factory succeeds; a failure changes nothing |
| Tts.SetLanguage | backend/services/tts_service.py:73-99 | a processor is created iff the resolved pair differs and the factory succeeds; on success the pair is the resolved pair; a failure changes nothing; consistency is kept |
| Tts.GetProcessor | backend/services/tts_service.py:101-125 | whenever it returns, the returned processor is held and serves the resolved pair; a matching held processor is reused; a failure changes nothing; consistency is kept |
| Tts.NoStaleProcessor | backend/services/tts_service.py:90-125 | the sequence that returned a stale processor now gets a new Spanish processor |
| Tts.VoiceForLanguageAvailable | backend/services/tts_service.py:130-137 | with an available configured voice, every language code gets an available voice |
| Tts.GetTtsConfig | backend/services/tts_service.py:145-153 | the key is masked, and the voice list is exactly the six available voices |
| Tts.GetTtsConfigHidesKeyTail | backend/services/tts_service.py:145-153 | the configuration is the same for any two OpenAI keys that agree on their first ten characters |
| Tts.ValidateTtsConfig | backend/services/tts_service.py:156-164 | it raises iff the OpenAI key is empty; otherwise there is a warning iff the configured voice is unknown |
| Tts.DefaultTtsSettingsValid | backend/services/tts_service.py:156-164 | the default settings with a key pass with no warning |
| Vad.OrDefault | backend/services/vad_service.py:42-44 | a value is used iff it is present and not zero, else the default is used |
| Vad.CreateVadParams | backend/services/vad_service.py:40-51 | each parameter is the argument when truthy, else the configured value |
| Vad.ZeroArgumentsFallBack | backend/services/vad_service.py:42-44 | zero arguments fall back exactly like absent ones, to the configured values |
| Vad.NewDynamicVad | backend/services/vad_service.py:78-86 | a new service is disabled and built with the configured parameters |
| Vad.Enable | backend/services/vad_service.py:88-91 | the flag is set and nothing else changes |
| Vad.Disable | backend/services/vad_service.py:93-96 | the flag is cleared and nothing else changes |
| Vad.EnableDisableInverse | backend/services/vad_service.py:88-101 | enable and disable undo each other and are each idempotent |
| Vad.GetVadPreset | backend/services/vad_service.py:181-195 | it returns the table entry iff the name is known, and raises with the name otherwise |
| Vad.PresetNames | backend/services/vad_service.py:147-195 | the known names are exactly the five presets |
| Vad.CheckVadParams | backend/services/vad_service.py:121-137 | it raises iff the confidence is outside [0, 1]; otherwise there is a start warning iff start < 0.1, a stop warning iff stop < 0.5, and no warning iff both are within bounds |
| Vad.ValidateVadConfig | backend/services/vad_service.py:119-137 | it raises iff the configured confidence is outside [0, 1]; otherwise there is no warning iff start ≥ 0.1 and stop ≥ 0.5 |
| Vad.PresetsPassValidation | backend/services/vad_service.py:147-178 | every preset, and the default settings, pass the check with no warning |

## Left out

- `backend/main.py` and `backend/transports/` are left out: HTTP endpoints, WebSocket/WebRTC signalling and base64 decoding are I/O. The button messages arrive as the controller's `PttPressEvent` and `PttReleaseEvent`.
- The Pipecat frame processor base class, the pipeline task and runner, and the OpenAI, OpenRouter and Silero services are foreign code:
  - Handing a frame to the base class is recorded as `ToBase`.
  - The services are oracles or booleans.
- Audio signal processing is left out: the level computation, `backend/utils/audio_utils.py` and the numeric sample conversion. The level is an argument.
- Timestamps, processing timers, latency averages and `total_processing_time_ms` updates are left out. They depend on the wall clock and floating-point arithmetic. `SessionManager.UpdateMetrics` models only the integer counters.
- `SessionManager.UpdateMetrics`: successful updates add latency time to the session; the model leaves the session unchanged there.
- The background clean-up loop and `SessionManager.stop()` are left out. They are driven by `asyncio` and the wall clock, and are built from `close_session`.
- `PipelineManager.stop()` is left out. It only cancels the foreign task and runner.
- The getters `get_session`, `get_state_machine` and `get_metrics` are plain map lookups and are left out.
- `get_state_info` is left out because it is only used for logging. Logging itself is left out.
- The `_emit_*` helpers are left out: an emission is the value handed to them, whether or not a frontend callback is registered.
- `MessageType`, `ProcessingStage`, `backend/models/messages.py` and the `__init__` re-export files are not part of this model. They are transport schemas and re-exports.
- Descriptions attached to VAD presets and to TTS voices, `SUPPORTED_MODELS` and the translation system prompt's instruction text are left out. The prompt is modelled only by the two language names it contains.
- The model does not include the request headers, the base URL or the JSON decoding of the reply. A reply without content is an `OtherFailure`.
- `Strings.Lower` lower-cases only `A`–`Z` and the Kelvin sign. These are the characters whose lower-case form is an ASCII letter, so voice lookups are exact. Other characters are kept as they are.
- `Vad.CheckVadParams`: floats are exact reals, so NaN is not modelled.
- `Config.ParseCommaSeparated`: input that is neither a string nor a list is not modelled.
- `SessionManager.CreateSession`: the fresh id is an argument. Its freshness is stated as a precondition of the lemmas about creation, not of the operation, which overwrites like the dictionary would.

## Findings

| source | as written | input that shows it | evidently intended | confidence | as-written member | corrected member |
|---|---|---|---|---|---|---|
| backend/services/stt_service.py:73-76 | `set_language` records the new language before calling the factory, so a raising factory leaves the old processor, or none, under the new language's name | get English, then a failed switch to Spanish, then get Spanish: it returns the English processor; or a failed first get, then get again: it returns `None` | record the language only after the processor was created, so that a returned processor always serves the requested language | high, not executed | Stt.StaleProcessorAsWritten | Stt.GetProcessor |
| backend/services/tts_service.py:90-96 | `set_language` records the new (language, voice) pair before calling the factory, so a raising factory leaves the old processor under the new pair | get English/`alloy`, then a failed switch to Spanish/`nova`, then get Spanish/`nova`: it returns the English `alloy` processor | record the pair only after the processor was created | high, not executed | Tts.StaleProcessorAsWritten | Tts.GetProcessor |
