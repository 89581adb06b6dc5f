/** The Daily transport: its connection state machine, the operations the client calls,
    and the SDK listener that keeps the participant registry and routes app messages.
    Everything runs on one confined context, so each method runs to completion. */
module Transport {
  import opened Outcomes
  import opened Json
  import opened RtviTypes
  import opened DailySdk
  import opened Utils
  import opened Promises
  import opened Registry
  import opened AppMessageRouter

  /** The decoded auth bundle: the room URL and an optional meeting token. */
  datatype DailyTransportAuthBundle = DailyTransportAuthBundle(roomUrl: string, token: Option<string>)

  /** The states the client has been notified of, in order. */
  function StateChanges(log: seq<ClientCallback>): (r: seq<TransportState>)
    ensures |r| <= |log|
    ensures forall s :: s in r <==> exists i :: 0 <= i < |log| && log[i] == OnTransportStateChanged(s)
  {
    if log == [] then []
    else
      var last := log[|log| - 1];
      StateChanges(log[..|log| - 1]) + if last.OnTransportStateChanged? then [last.state] else []
  }

  /** The state the client believes the transport is in. */
  function ObservedState(log: seq<ClientCallback>): TransportState
  {
    var changes := StateChanges(log);
    if changes == [] then Idle else changes[|changes| - 1]
  }

  lemma {:induction false} StateChangesAppend(log: seq<ClientCallback>, more: seq<ClientCallback>)
    ensures StateChanges(log + more) == StateChanges(log) + StateChanges(more)
    decreases |more|
  {
    if more == [] {
      assert log + more == log;
    } else {
      var init := more[..|more| - 1];
      StateChangesAppend(log, init);
      assert (log + more)[..|log + more| - 1] == log + init;
      assert (log + more)[|log + more| - 1] == more[|more| - 1];
    }
  }

  /** Notifications other than state changes contribute no state changes. */
  lemma {:induction false} QuietHasNoStateChanges(more: seq<ClientCallback>)
    requires forall i :: 0 <= i < |more| ==> !more[i].OnTransportStateChanged?
    ensures StateChanges(more) == []
    decreases |more|
  {
    if more != [] {
      QuietHasNoStateChanges(more[..|more| - 1]);
    }
  }

  /** Appending one state change makes it the newest, and the one the client sees. */
  lemma StateChangeObserved(log: seq<ClientCallback>, s: TransportState)
    ensures StateChanges(log + [OnTransportStateChanged(s)]) == StateChanges(log) + [s]
    ensures ObservedState(log + [OnTransportStateChanged(s)]) == s
  {
    StateChangesAppend(log, [OnTransportStateChanged(s)]);
    assert [OnTransportStateChanged(s)][..0] == [];
  }

  /** withCall: the current call, or TransportNotInitialized when there is none. */
  function WithCall(call: Option<CallClient>): (r: Outcome<CallClient>)
    ensures r.Err? <==> call.None?
    ensures r.Err? ==> r.error == TransportNotInitialized
    ensures r.Ok? ==> call == Some(r.value)
  {
    match call
    case Some(client) => Ok(client)
    case None => Err(TransportNotInitialized)
  }

  function EnableMicRequest(enable: bool): SdkRequest { UpdateInputs(MicrophoneEnabled(enable)) }
  function EnableCamRequest(enable: bool): SdkRequest { UpdateInputs(CameraEnabled(enable)) }

  /** A level callback for one entry of the SDK's audio-level map, if the participant is known. */
  function LevelCallback(entry: (DailyParticipantId, real), m: map<ParticipantId, Participant>): seq<ClientCallback>
  {
    var key := ParticipantIdToRtvi(entry.0);
    if key in m then [OnRemoteAudioLevel(entry.1, m[key])] else []
  }

  /** The level callbacks for all entries, in iteration order: one per known
      participant, none for an unknown one. */
  function RemoteLevelCallbacks(levels: seq<(DailyParticipantId, real)>, m: map<ParticipantId, Participant>): (cbs: seq<ClientCallback>)
    ensures |cbs| <= |levels|
    ensures forall c :: c in cbs <==> exists i :: 0 <= i < |levels| && LevelCallback(levels[i], m) == [c]
  {
    if levels == [] then []
    else RemoteLevelCallbacks(levels[..|levels| - 1], m) + LevelCallback(levels[|levels| - 1], m)
  }

  /** Every level callback names a known participant, and none is a state change. */
  lemma {:induction false} RemoteLevelsNameKnownParticipants(levels: seq<(DailyParticipantId, real)>, m: map<ParticipantId, Participant>)
    ensures forall i :: 0 <= i < |RemoteLevelCallbacks(levels, m)| ==>
      var cb := RemoteLevelCallbacks(levels, m)[i];
      cb.OnRemoteAudioLevel? && cb.participant in m.Values
    decreases |levels|
  {
    if levels != [] {
      RemoteLevelsNameKnownParticipants(levels[..|levels| - 1], m);
    }
  }

  lemma RemoteLevelCallbacksExtend(levels: seq<(DailyParticipantId, real)>, i: nat, m: map<ParticipantId, Participant>)
    requires i < |levels|
    ensures RemoteLevelCallbacks(levels[..i + 1], m) == RemoteLevelCallbacks(levels[..i], m) + LevelCallback(levels[i], m)
  {
    assert levels[..i + 1][..i] == levels[..i];
  }

  class DailyTransport {
    /** The options of the transport context. */
    const options: TransportOptions
    /** The listener's participant map and bot user. */
    const registry: ParticipantRegistry
    var state: TransportState
    var devicesInitialized: bool
    var call: Option<CallClient>
    /** Every notification pushed to the client, in order. */
    var callbacks: seq<ClientCallback>

    /** The client's view of the state is the state. */
    ghost predicate StateObserved()
      reads this
    {
      state == ObservedState(callbacks)
    }

    ghost predicate Valid()
      reads this, registry
    {
      && StateObserved()
      && (devicesInitialized <==> call.Some?)
      && registry.Valid()
      && registry.botUser == registry.CurrentBot()
    }

    constructor (options: TransportOptions)
      ensures Valid() && fresh(registry)
      ensures this.options == options
      ensures state == Idle && !devicesInitialized && call == None && callbacks == []
      ensures registry.order == [] && registry.participants == map[] && registry.botUser == None
    {
      this.options := options;
      registry := new ParticipantRegistry();
      state := Idle;
      devicesInitialized := false;
      call := None;
      callbacks := [];
    }

    /** Stores `s` and notifies the client with exactly `s`. */
    method SetState(s: TransportState)
      requires StateObserved()
      modifies this`state, this`callbacks
      ensures StateObserved()
      ensures state == s && callbacks == old(callbacks) + [OnTransportStateChanged(s)]
      ensures StateChanges(callbacks) == StateChanges(old(callbacks)) + [s]
    {
      StateChangeObserved(callbacks, s);
      state := s;
      callbacks := callbacks + [OnTransportStateChanged(s)];
    }

    /** Pushes notifications that are not state changes. */
    method Notify(more: seq<ClientCallback>)
      requires StateObserved()
      requires forall i :: 0 <= i < |more| ==> !more[i].OnTransportStateChanged?
      modifies this`callbacks
      ensures StateObserved()
      ensures callbacks == old(callbacks) + more
      ensures StateChanges(callbacks) == StateChanges(old(callbacks))
    {
      StateChangesAppend(callbacks, more);
      QuietHasNoStateChanges(more);
      assert StateChanges(callbacks) + [] == StateChanges(callbacks);
      callbacks := callbacks + more;
    }

    /** initDevices. Creating the call is the SDK's business: `creationError` is the
        exception it throws, if any. */
    method InitDevices(creationError: Option<Exception>) returns (r: Outcome<()>)
      requires Valid()
      modifies this
      ensures Valid()
      ensures old(devicesInitialized) ==> r == Ok(()) && unchanged(this)
      ensures !old(devicesInitialized) && creationError.Some? ==>
        r == Err(ExceptionThrown(creationError.value)) && unchanged(this)
      ensures !old(devicesInitialized) && creationError.None? ==>
        && r == Ok(())
        && devicesInitialized && call == Some(CallClient)
        && state == (if old(state) == Idle then Initialized else old(state))
        && callbacks == old(callbacks) + if old(state) == Idle then [OnTransportStateChanged(Initialized)] else []
    {
      if devicesInitialized {
        return Ok(());
      }
      if creationError.Some? {
        return Err(ExceptionThrown(creationError.value));
      }
      call := Some(CallClient);
      if state == Idle {
        SetState(Initialized);
      }
      devicesInitialized := true;
      r := Ok(());
    }

    /** connect, up to the point where it waits for the SDK. `auth` is the result of
        decoding the auth bundle. When devices are ready, the mic and camera updates
        and the join are requested and the returned promise is still pending: the
        SDK's answers arrive through OnConnectInputsResult and OnJoinResult. */
    method Connect(auth: Result<DailyTransportAuthBundle, Exception>, creationError: Option<Exception>)
      returns (promise: Promise<()>, requests: seq<SdkRequest>)
      requires Valid()
      modifies this
      ensures Valid() && fresh(promise) && promise.ignored == []
      ensures auth.Err? ==>
        promise.outcome == Some(Err(ExceptionThrown(auth.error))) && requests == [] && unchanged(this)
      ensures auth.Ok? && !old(devicesInitialized) && creationError.Some? ==>
        && promise.outcome == Some(Err(ExceptionThrown(creationError.value))) && requests == []
        && state == Error
        && callbacks == old(callbacks) + [OnTransportStateChanged(Connecting), OnTransportStateChanged(Error)]
        && !devicesInitialized && call == None
      ensures auth.Ok? && (old(devicesInitialized) || creationError.None?) ==>
        && promise.outcome == None
        && state == Connecting
        && callbacks == old(callbacks) + [OnTransportStateChanged(Connecting)]
        && devicesInitialized && call.Some?
        && requests == [EnableMicRequest(options.enableMic), EnableCamRequest(options.enableCam),
                        Join(auth.value.roomUrl, auth.value.token)]
    {
      promise := new Promise();
      if auth.Err? {
        promise.ResolveErr(ExceptionThrown(auth.error));
        return promise, [];
      }
      var bundle := auth.value;
      SetState(Connecting);
      var init := InitDevices(creationError);
      if init.Err? {
        SetState(Error);
        promise.ResolveErr(init.error);
        return promise, [];
      }
      var client := WithCall(call);
      assert client.Ok?;
      requests := [EnableMicRequest(options.enableMic), EnableCamRequest(options.enableCam),
                   Join(bundle.roomUrl, bundle.token)];
    }

    /** The answer to the mic or camera update that connect requested: a failure
        settles the connect promise with its error; a success does nothing. */
    method OnConnectInputsResult(promise: Promise<()>, result: RequestResult)
      modifies promise
      ensures result.isError ==>
        promise.State() == Settle(old(promise.State()), Err(ToRtviError(result.error)))
      ensures !result.isError ==> unchanged(promise)
    {
      var outcome := DailyResultOutcome(result);
      if outcome.Err? {
        promise.ResolveErr(outcome.error);
      }
    }

    /** The answer to the join that connect requested. */
    method OnJoinResult(promise: Promise<()>, result: RequestResult)
      requires Valid()
      modifies this, promise
      ensures Valid()
      ensures devicesInitialized == old(devicesInitialized) && call == old(call)
      ensures result.isError ==>
        && state == Error
        && callbacks == old(callbacks) + [OnTransportStateChanged(Error)]
        && promise.State() == Settle(old(promise.State()), Err(ToRtviError(result.error)))
      ensures !result.isError ==>
        && state == Connected
        && callbacks == old(callbacks) + [OnTransportStateChanged(Connected), OnConnected]
        && promise.State() == Settle(old(promise.State()), Ok(()))
    {
      if result.isError {
        SetState(Error);
        promise.ResolveErr(ToRtviError(result.error));
        return;
      }
      SetState(Connected);
      Notify([OnConnected]);
      promise.ResolveOk(());
    }

    /** The common shape of the SDK-backed operations: without a call, fail with
        TransportNotInitialized and request nothing; otherwise make `request` and
        settle a fresh promise with the SDK's answer `result`. */
    method RequestOnCall(request: SdkRequest, result: RequestResult) returns (r: Outcome<()>, made: Option<SdkRequest>)
      ensures call.None? ==> r == Err(TransportNotInitialized) && made == None
      ensures call.Some? ==> r == DailyResultOutcome(result) && made == Some(request)
    {
      var client := WithCall(call);
      if client.Err? {
        return Err(client.error), None;
      }
      var promise := new Promise<()>();
      ResolveWithDailyResult(promise, result);
      r := promise.outcome.value;
      made := Some(request);
    }

    /** disconnect. It never changes the state: Disconnected comes only from the
        SDK's `left` call state. */
    method Disconnect(leaveResult: RequestResult) returns (r: Outcome<()>, made: Option<SdkRequest>)
      ensures call.None? ==> r == Err(TransportNotInitialized) && made == None
      ensures call.Some? ==> r == DailyResultOutcome(leaveResult) && made == Some(Leave)
    {
      r, made := RequestOnCall(Leave, leaveResult);
    }

    method SendMessage(message: MsgClientToServer, sendResult: RequestResult) returns (r: Outcome<()>, made: Option<SdkRequest>)
      ensures call.None? ==> r == Err(TransportNotInitialized) && made == None
      ensures call.Some? ==> r == DailyResultOutcome(sendResult) && made == Some(SendAppMessage(message, All))
    {
      r, made := RequestOnCall(SendAppMessage(message, All), sendResult);
    }

    method UpdateMic(micId: MediaDeviceId, updateResult: RequestResult) returns (r: Outcome<()>, made: Option<SdkRequest>)
      ensures call.None? ==> r == Err(TransportNotInitialized) && made == None
      ensures call.Some? ==> r == DailyResultOutcome(updateResult) && made == Some(SetAudioDevice(micId.id))
    {
      r, made := RequestOnCall(SetAudioDevice(micId.id), updateResult);
    }

    method UpdateCam(camId: MediaDeviceId, updateResult: RequestResult) returns (r: Outcome<()>, made: Option<SdkRequest>)
      ensures call.None? ==> r == Err(TransportNotInitialized) && made == None
      ensures call.Some? ==> r == DailyResultOutcome(updateResult) && made == Some(UpdateInputs(CameraDevice(camId.id)))
    {
      r, made := RequestOnCall(UpdateInputs(CameraDevice(camId.id)), updateResult);
    }

    method EnableMic(enable: bool, updateResult: RequestResult) returns (r: Outcome<()>, made: Option<SdkRequest>)
      ensures call.None? ==> r == Err(TransportNotInitialized) && made == None
      ensures call.Some? ==> r == DailyResultOutcome(updateResult) && made == Some(EnableMicRequest(enable))
    {
      r, made := RequestOnCall(EnableMicRequest(enable), updateResult);
    }

    method EnableCam(enable: bool, updateResult: RequestResult) returns (r: Outcome<()>, made: Option<SdkRequest>)
      ensures call.None? ==> r == Err(TransportNotInitialized) && made == None
      ensures call.Some? ==> r == DailyResultOutcome(updateResult) && made == Some(EnableCamRequest(enable))
    {
      r, made := RequestOnCall(EnableCamRequest(enable), updateResult);
    }

    /** release: releases the call if there is one, and keeps the field as it is. */
    method Release() returns (made: Option<SdkRequest>)
      ensures made == if call.Some? then Some(ReleaseCall) else None
    {
      made := if call.Some? then Some(ReleaseCall) else None;
    }

    method OnLocalAudioLevel(level: real)
      requires Valid()
      modifies this`callbacks
      ensures Valid() && callbacks == old(callbacks) + [OnUserAudioLevel(level)]
    {
      Notify([OnUserAudioLevel(level)]);
    }

    /** One level callback per entry whose participant is known, in the map's order. */
    method OnRemoteParticipantsAudioLevel(levels: seq<(DailyParticipantId, real)>)
      requires Valid()
      modifies this`callbacks
      ensures Valid()
      ensures callbacks == old(callbacks) + RemoteLevelCallbacks(levels, registry.participants)
    {
      for i := 0 to |levels|
        invariant StateObserved()
        invariant callbacks == old(callbacks) + RemoteLevelCallbacks(levels[..i], registry.participants)
      {
        RemoteLevelCallbacksExtend(levels, i, registry.participants);
        NotifyRemoteLevel(levels[i]);
      }
      assert levels[..|levels|] == levels;
    }

    /** One entry of the audio-level map. */
    method NotifyRemoteLevel(entry: (DailyParticipantId, real))
      requires StateObserved()
      modifies this`callbacks
      ensures StateObserved()
      ensures callbacks == old(callbacks) + LevelCallback(entry, registry.participants)
    {
      var key := ParticipantIdToRtvi(entry.0);
      if key in registry.participants {
        Notify([OnRemoteAudioLevel(entry.1, registry.participants[key])]);
      }
    }

    method OnParticipantJoined(q: DailyParticipant)
      requires Valid()
      modifies registry
      ensures Valid()
      ensures registry.order == UpsertOrder(old(registry.order), ParticipantIdToRtvi(q.id))
      ensures registry.participants == old(registry.participants)[ParticipantIdToRtvi(q.id) := ParticipantToRtvi(q)]
      ensures registry.botUser == Bot(registry.order, registry.participants)
    {
      registry.Upsert(q);
      registry.UpdateBotUser();
    }

    method OnParticipantUpdated(q: DailyParticipant)
      requires Valid()
      modifies registry
      ensures Valid()
      ensures registry.order == UpsertOrder(old(registry.order), ParticipantIdToRtvi(q.id))
      ensures registry.participants == old(registry.participants)[ParticipantIdToRtvi(q.id) := ParticipantToRtvi(q)]
      ensures registry.botUser == Bot(registry.order, registry.participants)
    {
      registry.Upsert(q);
      registry.UpdateBotUser();
    }

    /** Removes only the participant's own entry, whatever the reason it left. */
    method OnParticipantLeft(q: DailyParticipant)
      requires Valid()
      modifies registry
      ensures Valid()
      ensures registry.order == RemoveOrder(old(registry.order), ParticipantIdToRtvi(q.id))
      ensures registry.participants == old(registry.participants) - {ParticipantIdToRtvi(q.id)}
      ensures registry.botUser == Bot(registry.order, registry.participants)
    {
      registry.Remove(q.id);
      registry.UpdateBotUser();
    }

    /** `snapshot` is what the call reports as all its participants when the state is
        `joined`; it is read only if there is a call. */
    method OnCallStateUpdated(cs: CallState, snapshot: seq<DailyParticipant>)
      requires Valid()
      modifies this, registry
      ensures Valid()
      ensures devicesInitialized == old(devicesInitialized) && call == old(call)
      ensures cs == Joined ==>
        && registry.order == (if call.Some? then UpsertAllOrder(old(registry.order), snapshot) else old(registry.order))
        && registry.participants == (if call.Some? then UpsertAllMap(old(registry.participants), snapshot) else old(registry.participants))
        && state == old(state) && callbacks == old(callbacks)
      ensures cs == Left ==>
        && registry.order == [] && registry.participants == map[] && registry.botUser == None
        && state == Disconnected
        && callbacks == old(callbacks) + [OnTransportStateChanged(Disconnected), OnDisconnected]
      ensures cs != Joined && cs != Left ==> unchanged(this, registry)
    {
      match cs {
        case Joined => OnJoined(snapshot);
        case Left => OnLeft();
        case _ =>
      }
    }

    /** The `joined` call state: rebuild from the call's snapshot, then recompute the bot. */
    method OnJoined(snapshot: seq<DailyParticipant>)
      requires Valid()
      modifies registry
      ensures Valid()
      ensures registry.order == (if call.Some? then UpsertAllOrder(old(registry.order), snapshot) else old(registry.order))
      ensures registry.participants == (if call.Some? then UpsertAllMap(old(registry.participants), snapshot) else old(registry.participants))
    {
      if call.Some? {
        registry.UpsertAll(snapshot);
      }
      registry.UpdateBotUser();
    }

    /** The `left` call state: forget everyone, then report Disconnected. */
    method OnLeft()
      requires Valid()
      modifies this`state, this`callbacks, registry
      ensures Valid()
      ensures registry.order == [] && registry.participants == map[] && registry.botUser == None
      ensures state == Disconnected
      ensures callbacks == old(callbacks) + [OnTransportStateChanged(Disconnected), OnDisconnected]
    {
      registry.Reset();
      SetState(Disconnected);
      Notify([OnDisconnected]);
    }

    /** onAppMessage: forwards what the route yields; every failure is caught, so the
        state and the registry never change. The sender is not used. */
    method OnAppMessage(message: string, from: DailyParticipantId, decoders: Decoders)
      requires Valid()
      modifies this`callbacks
      ensures Valid()
      ensures callbacks == old(callbacks) + Forwarded(RouteAppMessage(message, decoders))
    {
      var route := RouteAppMessage(message, decoders);
      Notify(Forwarded(route));
    }

    method OnInputsUpdated(camera: bool, mic: bool)
      requires Valid()
      modifies this`callbacks
      ensures Valid() && callbacks == old(callbacks) + [ClientCallback.OnInputsUpdated(camera, mic)]
    {
      Notify([ClientCallback.OnInputsUpdated(camera, mic)]);
    }
  }

  /** The connect promise settled twice: the mic update fails, then the join succeeds.
      The connect result stays the mic error and the later Ok is ignored, yet the
      transport goes to Connected and tells the client it is connected. */
  method MicFailureThenJoinSuccess(options: TransportOptions, bundle: DailyTransportAuthBundle, micError: RequestError)
    returns (finalState: TransportState, outcome: Option<Outcome<()>>, ignored: seq<Outcome<()>>, notified: seq<ClientCallback>)
    ensures finalState == Connected
    ensures outcome == Some(Err(ToRtviError(Some(micError))))
    ensures ignored == [Ok(())]
    ensures notified == [OnTransportStateChanged(Connecting), OnTransportStateChanged(Connected), OnConnected]
  {
    var transport := new DailyTransport(options);
    var promise, requests := transport.Connect(Ok(bundle), None);
    transport.OnConnectInputsResult(promise, RequestResult(true, Some(micError)));
    transport.OnJoinResult(promise, RequestResult(false, None));
    finalState, outcome, ignored, notified := transport.state, promise.outcome, promise.ignored, transport.callbacks;
  }

  /** A join failure after a mic failure: Error, and the connect result is the mic error. */
  method MicFailureThenJoinFailure(options: TransportOptions, bundle: DailyTransportAuthBundle, micError: RequestError, joinError: RequestError)
    returns (finalState: TransportState, outcome: Option<Outcome<()>>, ignored: seq<Outcome<()>>)
    ensures finalState == Error
    ensures outcome == Some(Err(ToRtviError(Some(micError))))
    ensures ignored == [Err(ToRtviError(Some(joinError)))]
  {
    var transport := new DailyTransport(options);
    var promise, requests := transport.Connect(Ok(bundle), None);
    transport.OnConnectInputsResult(promise, RequestResult(true, Some(micError)));
    transport.OnJoinResult(promise, RequestResult(true, Some(joinError)));
    finalState, outcome, ignored := transport.state, promise.outcome, promise.ignored;
  }
}
