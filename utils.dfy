/** The JSON field helpers, the SDK-to-library conversions and the mapping of SDK
    completion reports to outcomes. */
module Utils {
  import opened Outcomes
  import opened Json
  import opened RtviTypes
  import opened DailySdk
  import opened Promises

  const DailyErrorPrefix: string := "Error from Daily client: "

  /** The error reported for a failed SDK request. A null error is rendered as the
      text "null", as a string template renders a null message. */
  function ToRtviError(e: Option<RequestError>): (r: VoiceError)
    ensures r.OtherError?
    ensures |DailyErrorPrefix| <= |r.message|
    ensures r.message[..|DailyErrorPrefix|] == DailyErrorPrefix
    ensures r.message[|DailyErrorPrefix|..] == if e.Some? then e.value.msg else "null"
  {
    var detail := match e
      case Some(err) => err.msg
      case None => "null";
    OtherError(DailyErrorPrefix + detail)
  }

  /** The outcome that resolveWithDailyResult settles a promise with. */
  function DailyResultOutcome(result: RequestResult): (r: Outcome<()>)
    ensures r.Ok? <==> !result.isError
    ensures r.Err? ==> r.error == ToRtviError(result.error)
  {
    if result.isError then Err(ToRtviError(result.error)) else Ok(())
  }

  /** Settles `p` with exactly one of resolveErr or resolveOk, as `result` says. */
  method ResolveWithDailyResult(p: Promise<()>, result: RequestResult)
    modifies p
    ensures p.State() == Settle(old(p.State()), DailyResultOutcome(result))
  {
    if result.isError {
      p.ResolveErr(ToRtviError(result.error));
    } else {
      p.ResolveOk(());
    }
  }

  /** The field `name` of an object, when that field is itself an object. */
  function TryGetObject(e: JsonElement, name: string): (r: Option<JsonElement>)
    ensures r.Some? <==> e.JsonObject? && name in e.fields && e.fields[name].JsonObject?
    ensures r.Some? ==> r.value == e.fields[name]
  {
    match e
    case JsonObject(fields) =>
      if name in fields && fields[name].JsonObject? then Some(fields[name]) else None
    case _ => None
  }

  /** The content of the field `name` of an object, when that field is a primitive
      other than null. */
  function TryGetString(e: JsonElement, name: string): (r: Option<string>)
    ensures r.Some? <==> e.JsonObject? && name in e.fields && e.fields[name].JsonPrimitive?
    ensures r.Some? ==> r.value == e.fields[name].content
  {
    match e
    case JsonObject(fields) =>
      if name in fields then
        match fields[name]
        case JsonPrimitive(content) => Some(content)
        case _ => None
      else None
    case _ => None
  }

  /** A field set to a string primitive reads back as that string, and a field set to
      JSON null reads back as absent, whatever the other fields hold. */
  lemma TryGetStringReadsBack(fields: map<string, JsonElement>, name: string, s: string)
    ensures TryGetString(JsonObject(fields[name := JsonPrimitive(s)]), name) == Some(s)
    ensures TryGetString(JsonObject(fields[name := JsonNull]), name) == None
  {
  }

  function ParticipantIdToRtvi(id: DailyParticipantId): (r: ParticipantId)
    ensures r.id == UuidToString(id.uuid)
  {
    ParticipantId(id.uuid.canonical)
  }

  /** The converted participant is keyed by its converted id. */
  function ParticipantToRtvi(p: DailyParticipant): (r: Participant)
    ensures r.id == ParticipantIdToRtvi(p.id)
    ensures r.name == p.info.userName && r.local == p.info.isLocal
  {
    Participant(ParticipantId(UuidToString(p.id.uuid)), p.info.userName, p.info.isLocal)
  }

  /** Distinct SDK ids give distinct registry keys. */
  lemma ParticipantIdToRtviInjective(a: DailyParticipantId, b: DailyParticipantId)
    requires ParticipantIdToRtvi(a) == ParticipantIdToRtvi(b)
    ensures a == b
  {
  }

  function MediaDeviceInfoToRtvi(d: DailyMediaDeviceInfo): (r: MediaDeviceInfo)
    ensures r.id.id == d.deviceId && r.name == d.labelText
  {
    MediaDeviceInfo(MediaDeviceId(d.deviceId), d.labelText)
  }

  function MediaStreamTrackToRtvi(t: MediaStreamTrack): (r: MediaTrackId)
    ensures r.id == t.id
  {
    MediaTrackId(t.id)
  }
}
