/** Types of the voice-client library that the transport produces and consumes. */
module RtviTypes {
  import opened Outcomes
  import opened Json

  /** The states this transport ever sets. */
  datatype TransportState = Idle | Initialized | Connecting | Connected | Disconnected | Error

  datatype ParticipantId = ParticipantId(id: string)
  datatype Participant = Participant(id: ParticipantId, name: Option<string>, local: bool)

  datatype MediaDeviceId = MediaDeviceId(id: string)
  datatype MediaDeviceInfo = MediaDeviceInfo(id: MediaDeviceId, name: string)
  datatype MediaTrackId = MediaTrackId(id: string)

  /** Typed messages; their schemas belong to the client library, so they are kept
      as the JSON they were decoded from or will be encoded to. */
  datatype MsgServerToClient = MsgServerToClient(envelope: JsonElement)
  datatype MsgClientToServer = MsgClientToServer(envelope: JsonElement)
  datatype PipecatMetrics = PipecatMetrics(body: JsonElement)

  /** The options of the transport context that connect reads. */
  datatype TransportOptions = TransportOptions(enableMic: bool, enableCam: bool)

  /** One notification pushed to the owning client, named after the callback it calls. */
  datatype ClientCallback =
    | OnTransportStateChanged(state: TransportState)
    | OnConnected
    | OnDisconnected
    | OnUserAudioLevel(level: real)
    | OnRemoteAudioLevel(level: real, participant: Participant)
    | OnInputsUpdated(camera: bool, mic: bool)
    | OnMessage(msg: MsgServerToClient)
    | OnPipecatMetrics(metrics: PipecatMetrics)
}
