/** Classification of inbound application messages by their envelope, as the
    transport's listener does it in onAppMessage. */
module AppMessageRouter {
  import opened Outcomes
  import opened Json
  import opened RtviTypes
  import opened Utils

  const ProtocolLabel: string := "rtvi-ai"
  const MetricsType: string := "pipecat-metrics"

  /** The decoders of the serialization library, each a partial function: parsing the
      message text as a JSON element, and decoding the typed protocol message and the
      metrics record from JSON. */
  datatype Decoders = Decoders(
    parse: string -> Option<JsonElement>,
    message: JsonElement -> Option<MsgServerToClient>,
    metrics: JsonElement -> Option<PipecatMetrics>)

  /** Why a message was dropped after an exception, which is caught and logged. */
  datatype RouteFailure = NotAJsonObject | ProtocolDecodeFailed | MissingMetricsField | MetricsDecodeFailed

  datatype Route =
    | Protocol(msg: MsgServerToClient)
    | Metrics(metrics: PipecatMetrics)
    | Unhandled(envelopeLabel: Option<string>, envelopeType: Option<string>)
    | Caught(failure: RouteFailure)

  /** The route of one message: a message that does not parse to a JSON object is
      dropped; a protocol label routes it to the protocol decoder whatever its type; a
      metrics type routes it to the metrics decoder; anything else is unhandled and
      keeps the envelope fields it was read with. */
  function RouteAppMessage(message: string, d: Decoders): (r: Route)
    ensures r == Caught(NotAJsonObject) <==> d.parse(message).None? || !d.parse(message).value.JsonObject?
    ensures r.Protocol? ==> TryGetString(d.parse(message).value, "label") == Some(ProtocolLabel)
                            && d.message(d.parse(message).value) == Some(r.msg)
    ensures r.Metrics? ==> TryGetString(d.parse(message).value, "label") != Some(ProtocolLabel)
                           && TryGetString(d.parse(message).value, "type") == Some(MetricsType)
    ensures r.Unhandled? ==>
      d.parse(message).Some? && d.parse(message).value.JsonObject? &&
      r.envelopeLabel == TryGetString(d.parse(message).value, "label") && r.envelopeLabel != Some(ProtocolLabel) &&
      r.envelopeType == TryGetString(d.parse(message).value, "type") && r.envelopeType != Some(MetricsType)
  {
    match d.parse(message)
    case None => Caught(NotAJsonObject)
    case Some(json) =>
      if !json.JsonObject? then Caught(NotAJsonObject)
      else
        var envelopeLabel := TryGetString(json, "label");
        var envelopeType := TryGetString(json, "type");
        if envelopeLabel == Some(ProtocolLabel) then
          match d.message(json)
          case Some(msg) => Protocol(msg)
          case None => Caught(ProtocolDecodeFailed)
        else if envelopeType == Some(MetricsType) then
          match TryGetObject(json, "metrics")
          case None => Caught(MissingMetricsField)
          case Some(body) =>
            match d.metrics(body)
            case Some(m) => Metrics(m)
            case None => Caught(MetricsDecodeFailed)
        else Unhandled(envelopeLabel, envelopeType)
  }

  /** The notifications a route produces: one for a decoded message, none otherwise. */
  function Forwarded(r: Route): (cbs: seq<ClientCallback>)
    ensures |cbs| <= 1
    ensures forall i :: 0 <= i < |cbs| ==> !cbs[i].OnTransportStateChanged?
  {
    match r
    case Protocol(msg) => [OnMessage(msg)]
    case Metrics(m) => [OnPipecatMetrics(m)]
    case _ => []
  }

  /** A protocol label decides the route whatever the type field says: exactly one
      protocol message is forwarded when it decodes, nothing otherwise. */
  lemma ProtocolLabelTakesPriority(message: string, d: Decoders)
    requires d.parse(message).Some? && d.parse(message).value.JsonObject?
    requires TryGetString(d.parse(message).value, "label") == Some(ProtocolLabel)
    ensures var json := d.parse(message).value;
      Forwarded(RouteAppMessage(message, d)) ==
        if d.message(json).Some? then [OnMessage(d.message(json).value)] else []
  {
  }

  /** Without the protocol label, a metrics type with an object-valued metrics field
      that decodes forwards exactly that metrics record; a missing field or a failed
      decode forwards nothing. */
  lemma MetricsRoute(message: string, d: Decoders)
    requires d.parse(message).Some? && d.parse(message).value.JsonObject?
    requires TryGetString(d.parse(message).value, "label") != Some(ProtocolLabel)
    requires TryGetString(d.parse(message).value, "type") == Some(MetricsType)
    ensures var json := d.parse(message).value;
      Forwarded(RouteAppMessage(message, d)) ==
        if "metrics" in json.fields && json.fields["metrics"].JsonObject?
           && d.metrics(json.fields["metrics"]).Some?
        then [OnPipecatMetrics(d.metrics(json.fields["metrics"]).value)]
        else []
  {
  }

  /** A message is forwarded exactly when it parses to an object and either carries the
      protocol label and decodes as a protocol message, or lacks it, carries the
      metrics type and has an object-valued metrics field that decodes. Every other
      message, including every malformed one, forwards nothing. */
  lemma ForwardedIff(message: string, d: Decoders)
    ensures |Forwarded(RouteAppMessage(message, d))| == 1 <==>
      d.parse(message).Some? && d.parse(message).value.JsonObject? &&
      var json := d.parse(message).value;
      if TryGetString(json, "label") == Some(ProtocolLabel) then d.message(json).Some?
      else TryGetString(json, "type") == Some(MetricsType) &&
           TryGetObject(json, "metrics").Some? && d.metrics(TryGetObject(json, "metrics").value).Some?
  {
  }
}
