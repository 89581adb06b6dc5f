/** The shapes of a parsed JSON element that the transport inspects. */
module Json {

  /** kotlinx's JsonNull is a primitive whose content is null; it is kept as its own
      case because the field helpers treat it differently from other primitives.
      Strings, numbers and booleans are primitives carrying their textual content. */
  datatype JsonElement =
    | JsonNull
    | JsonPrimitive(content: string)
    | JsonArray(elements: seq<JsonElement>)
    | JsonObject(fields: map<string, JsonElement>)
}
