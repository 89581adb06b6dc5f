/** The values exchanged with the media SDK. The SDK itself is not modelled: its
    calls appear as requests, and its answers as parameters of the model's events. */
module DailySdk {
  import opened Outcomes
  import opened RtviTypes

  /** A java.util.UUID, represented by its canonical text (what toString yields). */
  datatype Uuid = Uuid(canonical: string)

  function UuidToString(u: Uuid): string { u.canonical }

  datatype DailyParticipantId = DailyParticipantId(uuid: Uuid)
  datatype ParticipantInfo = ParticipantInfo(userName: Option<string>, isLocal: bool)
  datatype DailyParticipant = DailyParticipant(id: DailyParticipantId, info: ParticipantInfo)

  datatype DailyMediaDeviceInfo = DailyMediaDeviceInfo(deviceId: string, labelText: string)
  datatype MediaStreamTrack = MediaStreamTrack(id: string)

  datatype RequestError = RequestError(msg: string)

  /** The SDK's completion report; `error` is nullable in the SDK. */
  datatype RequestResult = RequestResult(isError: bool, error: Option<RequestError>)

  datatype CallState = CallInitialized | Joining | Joined | Leaving | Left

  /** Stands for a live CallClient object of the SDK. */
  datatype CallClient = CallClient

  datatype InputSettingsUpdate =
    | MicrophoneEnabled(enable: bool)
    | CameraEnabled(enable: bool)
    | CameraDevice(deviceId: string)

  datatype Recipient = All

  /** A call the transport makes on the CallClient. */
  datatype SdkRequest =
    | Join(url: string, meetingToken: Option<string>)
    | Leave
    | SendAppMessage(message: MsgClientToServer, recipient: Recipient)
    | SetAudioDevice(deviceId: string)
    | UpdateInputs(update: InputSettingsUpdate)
    | ReleaseCall
}
