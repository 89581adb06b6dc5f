# Daily transport for the RTVI voice client — verified model

This project models the core of the Android Daily transport for the RTVI voice
client, written in Dafny. That core is:

- **`DailyTransport`**: the connection state machine (`Idle`, `Initialized`,
  `Connecting`, `Connected`, `Disconnected`, `Error`). It also covers device
  initialisation, connecting, the SDK-backed operations guarded by `withCall`, and the
  SDK listener. The listener keeps the participant registry and its derived bot user,
  and routes inbound app messages.
- **`AudioLevelProcessor`**: the speaking/silence debounce.
- **The helpers in `Utils.kt`**: the JSON field inspectors, the mapping from an SDK
  result to an outcome, and the conversions from SDK values to client-library values.

Modules, one per file:

| file | module | models |
|---|---|---|
| outcomes.dfy | `Outcomes` | `Option`, `Result`, the client library's `VoiceError` |
| json.dfy | `Json` | the JSON element shapes the helpers inspect |
| rtvi_types.dfy | `RtviTypes` | transport states, participants, devices, and the client callbacks as a datatype |
| daily_sdk.dfy | `DailySdk` | the SDK's values and the requests the transport makes on a call |
| promises.dfy | `Promises` | the promise, as a write-once cell |
| utils.dfy | `Utils` | `Utils.kt` |
| registry.dfy | `Registry` | the listener's participant map and `botUser` |
| router.dfy | `AppMessageRouter` | the classification inside `onAppMessage` |
| transport.dfy | `Transport` | `DailyTransport` |
| audio_level.dfy | `AudioLevel` | `AudioLevelProcessor` |

How the model represents the source:

- **Mutable state.** The transport, the registry, the promise and the audio processor
  are classes whose fields their methods update. The transport, the registry and
  the audio processor each keep an invariant (`Valid()`). The promise needs none:
  its state is a `Cell` value, and every settlement is `Settle` of the old one.
- **Client notifications.** Everything the transport tells its client goes into the
  append-only log `callbacks`, in order. The log holds every call on
  `transportContext.callbacks` plus `transportContext.onMessage`. The transport's
  invariant says that the state is the last state the client was told about
  (`ObservedState(callbacks)`).
- **Participant map.** The map is a Kotlin `mutableMapOf`, which iterates in insertion
  order. The registry therefore keeps the key order as a sequence beside the map.
  Re-inserting an existing key keeps its position. `botUser` is the first non-local
  value in that order.
- **SDK calls.** The SDK is not modelled. An SDK call is a `SdkRequest` value. An SDK
  answer (a `RequestResult`, a thrown exception, a participant snapshot) is a
  parameter of the method that receives it.
- **Connect.** `connect` runs until it waits for the SDK. The answers to its
  mic/camera updates and to its join then arrive through `OnConnectInputsResult` and
  `OnJoinResult`, in any order.
- **Other SDK-backed operations.** `disconnect`, `sendMessage`, `updateMic`,
  `updateCam`, `enableMic` and `enableCam` settle a fresh promise with the SDK's
  answer. They return the outcome and the request they made, and change no field.
- **Promise settlement.** The write-once behaviour is an explicit assumption about the
  client library, which is not part of this model. The first settlement wins. Later
  ones are kept in `ignored`, so a second settlement stays visible.
- **Double settlement of the connect promise.** A failed mic or camera update settles
  the connect promise with an error, and the join answer settles the same promise
  again. `MicFailureThenJoinSuccess` shows the result: the caller gets the mic error,
  yet the transport moves to `Connected` and calls `onConnected`.

Facts about the code that the model keeps as written:

- A malformed auth bundle fails `connect` with `ExceptionThrown`
  (DailyTransport.kt:218-224).
- The metrics marker is `"pipecat-metrics"` (DailyTransport.kt:147).
- `connect` sets `Connecting` from any state (DailyTransport.kt:227).
- `left` sets `Disconnected` from any state (DailyTransport.kt:123-128).
- `joined` only upserts the call's participant snapshot (DailyTransport.kt:117-119).
  It never drops a registry entry that is missing from the snapshot. So a remote
  participant whose leave was missed stays in the registry and stays the bot
  (`Registry.StaleRemoteSurvivesRebuild`).

The source also mixes two error vocabularies:

- `Utils.kt` builds `RTVIError.OtherError`.
- `DailyTransport.kt` uses `VoiceError` and `toVoiceError`.

The model uses one `VoiceError` type that has all three cases.

## Model

| member | source | states |
|---|---|---|
| `Utils.ToRtviError` | rtvi-client-android-daily/src/main/java/ai/rtvi/client/daily/Utils.kt:20-21 | the error is `OtherError` whose message is the prefix "Error from Daily client: " followed by the SDK message, or by "null" when there is no error object |
| `Utils.DailyResultOutcome` | rtvi-client-android-daily/src/main/java/ai/rtvi/client/daily/Utils.kt:23-29 | the outcome is Ok exactly when the result is not an error, and an error result gives `ToRtviError` of the SDK error |
| `Utils.ResolveWithDailyResult` | rtvi-client-android-daily/src/main/java/ai/rtvi/client/daily/Utils.kt:23-29 | the promise receives exactly one settlement attempt, the one `DailyResultOutcome` gives |
| `Utils.TryGetObject` | rtvi-client-android-daily/src/main/java/ai/rtvi/client/daily/Utils.kt:33-35 | a value comes back exactly when the receiver is an object whose named field is an object, and it is that field |
| `Utils.TryGetString` | rtvi-client-android-daily/src/main/java/ai/rtvi/client/daily/Utils.kt:37-39 | a string comes back exactly when the receiver is an object whose named field is a non-null primitive, and it is that primitive's content; absent, null, non-primitive fields and non-object receivers give none |
| `Utils.TryGetStringReadsBack` | rtvi-client-android-daily/src/main/java/ai/rtvi/client/daily/Utils.kt:37-39 | a field set to a string primitive reads back as that string, and a field set to JSON null reads back as absent, whatever the other fields are |
| `Utils.ParticipantIdToRtvi` | rtvi-client-android-daily/src/main/java/ai/rtvi/client/daily/Utils.kt:52 | the converted id is the UUID's string form |
| `Utils.ParticipantToRtvi` | rtvi-client-android-daily/src/main/java/ai/rtvi/client/daily/Utils.kt:41-45 | the converted participant's id equals the converted SDK id, which is its registry key; name and local flag are copied from the SDK's user name and local flag |
| `Utils.ParticipantIdToRtviInjective` | rtvi-client-android-daily/src/main/java/ai/rtvi/client/daily/Utils.kt:52 | distinct SDK ids give distinct registry keys |
| `Utils.MediaDeviceInfoToRtvi` | rtvi-client-android-daily/src/main/java/ai/rtvi/client/daily/Utils.kt:47-50 | the device's id is the SDK device id and its name is the SDK label |
| `Utils.MediaStreamTrackToRtvi` | rtvi-client-android-daily/src/main/java/ai/rtvi/client/daily/Utils.kt:31 | the track id is the SDK track's id |
| `Promises.Settle` | rtvi-client-android-daily/src/main/java/ai/rtvi/client/daily/DailyTransport.kt:235-250 | one settlement attempt (the write-once assumption): afterwards the cell is settled; an already settled cell keeps its outcome; the attempt becomes the outcome exactly when the cell was unsettled, and is otherwise recorded as ignored |
| `Promises.Promise.Resolve` | rtvi-client-android-daily/src/main/java/ai/rtvi/client/daily/DailyTransport.kt:235-250 | the first settlement of a promise decides its outcome; later ones change nothing but are recorded as ignored (assumption about the client library) |
| `Promises.Promise.ResolveOk` | rtvi-client-android-daily/src/main/java/ai/rtvi/client/daily/DailyTransport.kt:250 | a settlement attempt with Ok |
| `Promises.Promise.ResolveErr` | rtvi-client-android-daily/src/main/java/ai/rtvi/client/daily/DailyTransport.kt:244 | a settlement attempt with an error |
| `Promises.FirstSettlementWins` | rtvi-client-android-daily/src/main/java/ai/rtvi/client/daily/DailyTransport.kt:235-250 | whatever sequence of settlements a promise receives, an unsettled promise ends with the first one and every later one is ignored, in order |
| `Registry.UpsertOrder` | rtvi-client-android-daily/src/main/java/ai/rtvi/client/daily/DailyTransport.kt:109-111 | an upsert adds its key to the key order and keeps the keys distinct |
| `Registry.RemoveOrder` | rtvi-client-android-daily/src/main/java/ai/rtvi/client/daily/DailyTransport.kt:96 | a removal drops exactly that key from the key order and keeps the keys distinct |
| `Registry.ValuesInOrder` | rtvi-client-android-daily/src/main/java/ai/rtvi/client/daily/DailyTransport.kt:106 | the map's values are listed in key order, one per key |
| `Registry.FirstNonLocal` | rtvi-client-android-daily/src/main/java/ai/rtvi/client/daily/DailyTransport.kt:106 | there is no result exactly when every value is local; otherwise the result is a non-local value and every value before it is local |
| `Registry.Bot` | rtvi-client-android-daily/src/main/java/ai/rtvi/client/daily/DailyTransport.kt:105-107 | the bot, when there is one, is a non-local participant with only local participants before it in iteration order |
| `Registry.BotIsARemoteMember` | rtvi-client-android-daily/src/main/java/ai/rtvi/client/daily/DailyTransport.kt:105-107 | there is no bot exactly when every known participant is local, and the bot is a non-local participant stored under its own id |
| `Registry.FirstNonLocalAppendLocal` | rtvi-client-android-daily/src/main/java/ai/rtvi/client/daily/DailyTransport.kt:106 | appending a local participant never changes the first non-local one |
| `Registry.LocalJoinKeepsBot` | rtvi-client-android-daily/src/main/java/ai/rtvi/client/daily/DailyTransport.kt:87-111 | a new local participant joining leaves the bot unchanged |
| `Registry.LocalLeaveKeepsBotAux` | rtvi-client-android-daily/src/main/java/ai/rtvi/client/daily/DailyTransport.kt:92-107 | removing a local participant never changes the first non-local one |
| `Registry.LocalLeaveKeepsBot` | rtvi-client-android-daily/src/main/java/ai/rtvi/client/daily/DailyTransport.kt:92-107 | a local participant leaving keeps the registry well formed and leaves the bot unchanged |
| `Registry.RebuildCoversSnapshot` | rtvi-client-android-daily/src/main/java/ai/rtvi/client/daily/DailyTransport.kt:117-119 | after the `joined` rebuild, every snapshot participant is known, and the last one under each key gives its value; nobody known before is lost |
| `Registry.RebuildKeepsUnnamed` | rtvi-client-android-daily/src/main/java/ai/rtvi/client/daily/DailyTransport.kt:117-119 | the rebuild only upserts: an entry the snapshot does not name stays, with its value |
| `Registry.TwoJoins` | rtvi-client-android-daily/src/main/java/ai/rtvi/client/daily/DailyTransport.kt:87-111 | two joins with distinct ids leave both keys, in join order |
| `Registry.JoinJoinLeaveExample` | rtvi-client-android-daily/src/main/java/ai/rtvi/client/daily/DailyTransport.kt:87-107 | after local A joins, remote B joins and A leaves, the bot is B |
| `Registry.LocalOnlySnapshotHasNoBot` | rtvi-client-android-daily/src/main/java/ai/rtvi/client/daily/DailyTransport.kt:117-119 | a rebuild of an empty registry from a snapshot holding only the local participant leaves no bot |
| `Registry.StaleRemoteSurvivesRebuild` | rtvi-client-android-daily/src/main/java/ai/rtvi/client/daily/DailyTransport.kt:117-119 | the rebuild only upserts: a remote participant already in the registry survives a snapshot holding only the local participant, and stays the bot |
| `Registry.ParticipantRegistry.constructor` | rtvi-client-android-daily/src/main/java/ai/rtvi/client/daily/DailyTransport.kt:64-65 | the registry starts empty with no bot |
| `Registry.ParticipantRegistry.Upsert` | rtvi-client-android-daily/src/main/java/ai/rtvi/client/daily/DailyTransport.kt:109-111 | the converted participant is stored under its converted id; the key keeps its position if present, otherwise goes last; the invariant is kept |
| `Registry.ParticipantRegistry.Remove` | rtvi-client-android-daily/src/main/java/ai/rtvi/client/daily/DailyTransport.kt:96 | only that id's entry is removed, and the order of the others is kept |
| `Registry.ParticipantRegistry.UpsertAll` | rtvi-client-android-daily/src/main/java/ai/rtvi/client/daily/DailyTransport.kt:118 | every snapshot participant is upserted, first to last |
| `Registry.ParticipantRegistry.UpdateBotUser` | rtvi-client-android-daily/src/main/java/ai/rtvi/client/daily/DailyTransport.kt:105-107 | `botUser` becomes the first non-local value in iteration order, and the map is unchanged |
| `Registry.ParticipantRegistry.Reset` | rtvi-client-android-daily/src/main/java/ai/rtvi/client/daily/DailyTransport.kt:124-125 | the map is cleared and `botUser` is null |
| `AppMessageRouter.RouteAppMessage` | rtvi-client-android-daily/src/main/java/ai/rtvi/client/daily/DailyTransport.kt:136-162 | a message that does not parse to a JSON object is dropped, and only such a message; a protocol route carries the decoded message of an envelope labelled "rtvi-ai"; a metrics route needs the metrics type without that label; an unhandled message parsed to an object, has neither, and keeps the envelope label and type it was read with |
| `AppMessageRouter.Forwarded` | rtvi-client-android-daily/src/main/java/ai/rtvi/client/daily/DailyTransport.kt:142-158 | a route forwards at most one notification, and never a state change |
| `AppMessageRouter.ProtocolLabelTakesPriority` | rtvi-client-android-daily/src/main/java/ai/rtvi/client/daily/DailyTransport.kt:142-145 | with label "rtvi-ai", exactly the decoded protocol message is forwarded whatever the type field says, and nothing is forwarded if decoding fails |
| `AppMessageRouter.MetricsRoute` | rtvi-client-android-daily/src/main/java/ai/rtvi/client/daily/DailyTransport.kt:147-154 | without the label but with type "pipecat-metrics", exactly the decoded metrics record is forwarded when `metrics` is an object that decodes; nothing is forwarded otherwise |
| `AppMessageRouter.ForwardedIff` | rtvi-client-android-daily/src/main/java/ai/rtvi/client/daily/DailyTransport.kt:136-162 | one notification is forwarded exactly when the message parses to an object and passes one of the two branches; every other message, including every malformed one, forwards nothing and raises nothing |
| `Transport.StateChanges` | rtvi-client-android-daily/src/main/java/ai/rtvi/client/daily/DailyTransport.kt:283-288 | the client's state notifications, projected from the notification log: a state is among them exactly when the log holds a notification of it, and they are never more than the log |
| `Transport.StateChangesAppend` | rtvi-client-android-daily/src/main/java/ai/rtvi/client/daily/DailyTransport.kt:283-288 | the state notifications of a longer log are those of its parts, in order |
| `Transport.QuietHasNoStateChanges` | rtvi-client-android-daily/src/main/java/ai/rtvi/client/daily/DailyTransport.kt:283-288 | notifications other than state changes add no state change |
| `Transport.StateChangeObserved` | rtvi-client-android-daily/src/main/java/ai/rtvi/client/daily/DailyTransport.kt:283-288 | after a state notification, it is the newest state change and the state the client observes |
| `Transport.WithCall` | rtvi-client-android-daily/src/main/java/ai/rtvi/client/daily/DailyTransport.kt:396-407 | with no call, the result is `TransportNotInitialized`; otherwise it is the current call |
| `Transport.RemoteLevelCallbacks` | rtvi-client-android-daily/src/main/java/ai/rtvi/client/daily/DailyTransport.kt:72-85 | a callback is among the level callbacks exactly when some entry names a known participant and gives that callback, and there are never more callbacks than entries |
| `Transport.RemoteLevelsNameKnownParticipants` | rtvi-client-android-daily/src/main/java/ai/rtvi/client/daily/DailyTransport.kt:72-85 | every remote level callback names a participant in the registry |
| `Transport.DailyTransport.constructor` | rtvi-client-android-daily/src/main/java/ai/rtvi/client/daily/DailyTransport.kt:57-66 | the transport starts `Idle` with devices not initialised, no call, no notifications and an empty registry |
| `Transport.DailyTransport.SetState` | rtvi-client-android-daily/src/main/java/ai/rtvi/client/daily/DailyTransport.kt:283-288 | the state becomes `s`, and the client is notified with exactly `s`, appended to the sequence of state notifications |
| `Transport.DailyTransport.Notify` | rtvi-client-android-daily/src/main/java/ai/rtvi/client/daily/DailyTransport.kt:127 | notifications that are not state changes leave the observed state and the state-change sequence unchanged |
| `Transport.DailyTransport.InitDevices` | rtvi-client-android-daily/src/main/java/ai/rtvi/client/daily/DailyTransport.kt:173-211 | once devices are initialised it resolves Ok and changes nothing; a failed creation resolves `ExceptionThrown` and changes nothing; the first success creates the call, moves only `Idle` to `Initialized` and marks devices initialised |
| `Transport.DailyTransport.Connect` | rtvi-client-android-daily/src/main/java/ai/rtvi/client/daily/DailyTransport.kt:213-255 | a failed decode resolves `ExceptionThrown` without touching the state; otherwise `Connecting` is notified first, a failed device init then notifies `Error` and resolves that error, and otherwise the mic update, camera update and join are requested and the promise stays pending |
| `Transport.DailyTransport.OnConnectInputsResult` | rtvi-client-android-daily/src/main/java/ai/rtvi/client/daily/DailyTransport.kt:235-236 | a failed mic or camera update settles the connect promise with its error; a success leaves it alone |
| `Transport.DailyTransport.OnJoinResult` | rtvi-client-android-daily/src/main/java/ai/rtvi/client/daily/DailyTransport.kt:241-251 | a join error notifies `Error` and settles Err; a join success notifies `Connected`, then `onConnected`, then settles Ok |
| `Transport.DailyTransport.RequestOnCall` | rtvi-client-android-daily/src/main/java/ai/rtvi/client/daily/DailyTransport.kt:396-407 | with no call it fails `TransportNotInitialized` and makes no request; otherwise it makes the request and its outcome is the SDK's answer |
| `Transport.DailyTransport.Disconnect` | rtvi-client-android-daily/src/main/java/ai/rtvi/client/daily/DailyTransport.kt:257-263 | fails `TransportNotInitialized` without a call; otherwise requests a leave and reports its answer; never changes the state |
| `Transport.DailyTransport.SendMessage` | rtvi-client-android-daily/src/main/java/ai/rtvi/client/daily/DailyTransport.kt:265-277 | fails `TransportNotInitialized` without a call; otherwise sends the message to all and reports the answer |
| `Transport.DailyTransport.UpdateMic` | rtvi-client-android-daily/src/main/java/ai/rtvi/client/daily/DailyTransport.kt:302-309 | fails `TransportNotInitialized` without a call; otherwise selects that audio device and reports the answer |
| `Transport.DailyTransport.UpdateCam` | rtvi-client-android-daily/src/main/java/ai/rtvi/client/daily/DailyTransport.kt:311-326 | fails `TransportNotInitialized` without a call; otherwise selects that camera device and reports the answer |
| `Transport.DailyTransport.EnableMic` | rtvi-client-android-daily/src/main/java/ai/rtvi/client/daily/DailyTransport.kt:338-351 | fails `TransportNotInitialized` without a call; otherwise updates the microphone's enabled flag and reports the answer |
| `Transport.DailyTransport.EnableCam` | rtvi-client-android-daily/src/main/java/ai/rtvi/client/daily/DailyTransport.kt:353-366 | fails `TransportNotInitialized` without a call; otherwise updates the camera's enabled flag and reports the answer |
| `Transport.DailyTransport.Release` | rtvi-client-android-daily/src/main/java/ai/rtvi/client/daily/DailyTransport.kt:392-394 | releases the call exactly when there is one |
| `Transport.DailyTransport.OnLocalAudioLevel` | rtvi-client-android-daily/src/main/java/ai/rtvi/client/daily/DailyTransport.kt:68-70 | the local level is passed on, once |
| `Transport.DailyTransport.OnRemoteParticipantsAudioLevel` | rtvi-client-android-daily/src/main/java/ai/rtvi/client/daily/DailyTransport.kt:72-85 | one level callback per entry whose participant is known, in the entries' order, and nothing else changes |
| `Transport.DailyTransport.NotifyRemoteLevel` | rtvi-client-android-daily/src/main/java/ai/rtvi/client/daily/DailyTransport.kt:75-83 | one entry gives a callback exactly when its participant is known |
| `Transport.DailyTransport.OnParticipantJoined` | rtvi-client-android-daily/src/main/java/ai/rtvi/client/daily/DailyTransport.kt:87-90 | the participant is upserted under its id, then the bot is the first non-local participant |
| `Transport.DailyTransport.OnParticipantUpdated` | rtvi-client-android-daily/src/main/java/ai/rtvi/client/daily/DailyTransport.kt:100-103 | the participant is upserted under its id, then the bot is the first non-local participant |
| `Transport.DailyTransport.OnParticipantLeft` | rtvi-client-android-daily/src/main/java/ai/rtvi/client/daily/DailyTransport.kt:92-98 | only that id is removed, then the bot is the first non-local participant, or none |
| `Transport.DailyTransport.OnCallStateUpdated` | rtvi-client-android-daily/src/main/java/ai/rtvi/client/daily/DailyTransport.kt:113-130 | `joined` rebuilds the registry from the call's snapshot and recomputes the bot; `left` clears the registry, notifies `Disconnected`, then `onDisconnected`; other call states change nothing |
| `Transport.DailyTransport.OnJoined` | rtvi-client-android-daily/src/main/java/ai/rtvi/client/daily/DailyTransport.kt:117-120 | every snapshot participant is upserted when there is a call, then the bot is recomputed |
| `Transport.DailyTransport.OnLeft` | rtvi-client-android-daily/src/main/java/ai/rtvi/client/daily/DailyTransport.kt:123-128 | the bot is null, the map is empty, the state is `Disconnected` and the client was told, then `onDisconnected` fired |
| `Transport.DailyTransport.OnAppMessage` | rtvi-client-android-daily/src/main/java/ai/rtvi/client/daily/DailyTransport.kt:132-163 | exactly what the route forwards is notified; the state and the registry never change |
| `Transport.DailyTransport.OnInputsUpdated` | rtvi-client-android-daily/src/main/java/ai/rtvi/client/daily/DailyTransport.kt:165-170 | the camera and mic enabled flags are passed on, once |
| `Transport.MicFailureThenJoinSuccess` | rtvi-client-android-daily/src/main/java/ai/rtvi/client/daily/DailyTransport.kt:233-251 | if the mic update fails and the join then succeeds, connect reports the mic error and the join's Ok is ignored, but the state is `Connected` and `onConnected` fired |
| `Transport.MicFailureThenJoinFailure` | rtvi-client-android-daily/src/main/java/ai/rtvi/client/daily/DailyTransport.kt:233-246 | if the mic update fails and the join then fails, the state is `Error`, connect reports the mic error, and the join error is ignored |
| `AudioLevel.AudioLevelProcessor.constructor` | rtvi-client-android-daily/src/main/java/ai/rtvi/client/daily/AudioLevelProcessor.kt:5-19 | the processor starts not speaking, with no timer pending and nothing emitted |
| `AudioLevel.AudioLevelProcessor.OnLevelChanged` | rtvi-client-android-daily/src/main/java/ai/rtvi/client/daily/AudioLevelProcessor.kt:21-37 | a loud sample cancels any pending timer and emits true only if not already speaking; a quiet sample while speaking leaves exactly one timer posted and emits nothing; a quiet sample while not speaking changes nothing; the invariant is kept |
| `AudioLevel.AudioLevelProcessor.SilenceTimerFires` | rtvi-client-android-daily/src/main/java/ai/rtvi/client/daily/AudioLevelProcessor.kt:13-17 | only a posted timer fires; it leaves not speaking, no timer pending, and emits false once |
| `AudioLevel.OnLevel` | rtvi-client-android-daily/src/main/java/ai/rtvi/client/daily/AudioLevelProcessor.kt:21-36 | after a sample the processor is speaking exactly when it was or the sample is loud; a timer is pending exactly when the sample is quiet and it was speaking or already pending; onIsSpeaking is called exactly when speaking changes, with the new value |
| `AudioLevel.OnSilenceTimer` | rtvi-client-android-daily/src/main/java/ai/rtvi/client/daily/AudioLevelProcessor.kt:13-17 | the silence action leaves not speaking with nothing pending, and always emits false once |
| `AudioLevel.StepKeepsConsistent` | rtvi-client-android-daily/src/main/java/ai/rtvi/client/daily/AudioLevelProcessor.kt:13-36 | every sample or timer firing keeps the invariant: a pending timer implies speaking, and the events alternate from true with speaking equal to the last event |
| `AudioLevel.RunKeepsConsistent` | rtvi-client-android-daily/src/main/java/ai/rtvi/client/daily/AudioLevelProcessor.kt:13-36 | every run of inputs keeps that invariant |
| `AudioLevel.EventsAlternateFromStart` | rtvi-client-android-daily/src/main/java/ai/rtvi/client/daily/AudioLevelProcessor.kt:11-36 | from a fresh processor, the emitted events strictly alternate true, false, true, and so on, and a timer is pending only while speaking |
| `AudioLevel.ShortDipEmitsNothing` | rtvi-client-android-daily/src/main/java/ai/rtvi/client/daily/AudioLevelProcessor.kt:24-35 | a quiet sample followed by a loud one before the timer fires emits nothing and leaves no timer pending |
| `AudioLevel.DipThenTimerStops` | rtvi-client-android-daily/src/main/java/ai/rtvi/client/daily/AudioLevelProcessor.kt:13-35 | a quiet sample followed by the timer firing stops speaking with exactly one false event |

## Left out

- Thread confinement is not modelled. This covers `assertCurrent`, `runOnThread`,
  `runOnThreadReturningFuture`, `withPromise` and handler dispatch. Each method runs to
  completion on the single context, and work already on that context runs at once.
- The promise implementation lives in the client library. Write-once settlement is
  assumed. `chain` and `withErrorCallback` are written out inline where connect uses
  them.
- Promise.Resolve: the ignored settlement is recorded rather than logged. The model
  does not say how the library reports it.
- The SDK is not modelled. This covers creating a `CallClient`, `join`, `leave`,
  `sendAppMessage`, `setAudioDevice`, `updateInputs`, `release` and the audio-level
  observers. Their answers are parameters. Failures to start the observers are only
  logged, so they are left out.
- The SDK-backed operations (`Disconnect` and the others) assume the SDK answers
  exactly once, and they return that answer directly.
- Serialization is not modelled. Parsing the app-message text, decoding the typed
  message, the metrics and the auth bundle are parameters. Encoding the outgoing
  message is not modelled: the request carries the message itself.
- `toVoiceError` is not part of this model. The join error is mapped with the same
  `ToRtviError` as the other SDK errors.
- The UUID's string form is its canonical text, so two ids convert to the same key
  only if they are equal.
- The model does not tell numeric and string JSON primitives apart. Both carry their
  textual content, as `contentOrNull` returns.
- Pass-through queries over SDK state are not modelled: `tracks()`, `getAllCams` and
  `getAllMics`, `selectedMic` and `selectedCam`, `isCamEnabled` and `isMicEnabled`.
  The transport's own `state()` getter is the `state` field.
- Audio levels are reals, so NaN samples are not modelled. Only `level > threshold`
  matters.
- Time is not modelled. `silenceDelayMs` is stored but time is abstracted: the silence
  timer firing is an explicit event, enabled only while a post is queued. The default
  threshold and delay are not modelled.
- What the client does with a forwarded message or notification is not modelled.
- Logging is not modelled, including the diagnostics for dropped messages.
- Also not modelled: the `Factory`, `DailyVoiceClient`, `VoiceClientVideoView`, the
  auth-bundle record's serialization attributes, the build configuration, and the
  integration tests.
