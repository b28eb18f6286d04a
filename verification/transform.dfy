/**
 * `KafkaTransform.kafkaEventStringToObjectTransform`. JSON deserialisation
 * is a library call and is a parameter here. The transform's own logic:
 * a JSON processing failure becomes a null result, and a payload that
 * deserialises to null makes the debug log line dereference null.
 */
module Transform {
  import opened Wrappers
  import opened Exceptions
  import opened KafkaEvents

  /**
   * What `objectMapper.readValue` does with a payload: an event, null (the
   * JSON literal `null`), or a `JsonProcessingException`.
   */
  datatype ParseResult =
    | Parsed(event: KafkaEvent)
    | ParsedNull
    | JsonProcessingFailed(message: Option<string>)

  /** How the transform ends: an event, a null return, or an exception it does not catch. */
  datatype TransformResult =
    | Converted(event: KafkaEvent)
    | NoEvent
    | TransformRaised(error: Exn)

  /** `kafkaEvent.toString()` on a null `kafkaEvent`. */
  function NullDereference(): Exn {
    Exn(NullPointerException, None, NoCause)
  }

  /** The transform over a given parser. */
  function TransformPayload(parse: string -> ParseResult, payload: string): (r: TransformResult)
    ensures r.Converted? <==> parse(payload).Parsed?
    ensures r.Converted? ==> r.event == parse(payload).event
    ensures r.NoEvent? <==> parse(payload).JsonProcessingFailed?
    ensures r.TransformRaised? <==> parse(payload).ParsedNull?
    ensures r.TransformRaised? ==> r.error.cls == NullPointerException && !IsKafkaException(r.error)
  {
    match parse(payload)
    case Parsed(e) => Converted(e)
    case ParsedNull => TransformRaised(NullDereference())
    case JsonProcessingFailed(_) => NoEvent
  }
}
