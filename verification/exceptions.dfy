/**
 * The exceptions that travel through the consumer: the application's own
 * `KafkaException` and the library and JDK exception classes that the error
 * handler configuration names. An exception carries its class, its (nullable)
 * message and an optional cause, as `Throwable` does.
 */
module Exceptions {
  import opened Wrappers

  /** The exception classes the model distinguishes. */
  datatype ExnClass =
    | KafkaException             // com.pinncode...exception.KafkaException
    | RuntimeException
    | IllegalArgumentException
    | NullPointerException
    | JsonParseException
    | JsonMappingException
    | OtherException(name: string)

  datatype Exn = Exn(cls: ExnClass, message: Option<string>, cause: Cause)

  datatype Cause = NoCause | CausedBy(exn: Exn)

  /** `new KafkaException(message)`. */
  function NewKafkaException(message: string): Exn
  {
    Exn(KafkaException, Some(message), NoCause)
  }

  /** `new RuntimeException(message, cause)`. */
  function NewRuntimeException(message: string, cause: Exn): Exn
  {
    Exn(RuntimeException, Some(message), CausedBy(cause))
  }

  /**
   * Whether `catch (KafkaException e)` selects the exception. No modelled
   * class is a subclass of the application's `KafkaException`.
   */
  predicate IsKafkaException(e: Exn) {
    e.cls == KafkaException
  }
}
