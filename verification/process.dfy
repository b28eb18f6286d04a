/**
 * `ProcessEventService.processEvent`: validate the event, skip it when it
 * is invalid, otherwise run the business step; any exception raised inside
 * is rethrown wrapped in a `RuntimeException`.
 *
 * The validation engine and the business step (a placeholder in the
 * service) may raise; what each raises, if anything, is a parameter.
 */
module Processing {
  import opened Wrappers
  import opened Exceptions
  import opened KafkaEvents
  import opened Validation

  /** Observable steps of one `processEvent` call, in order. */
  datatype ProcessStep = Validated(valid: bool) | ValidationRaised | BusinessStep

  /** A normal return, or an exception thrown to the caller, with the steps taken. */
  datatype ProcessResult =
    | Done(steps: seq<ProcessStep>)
    | Threw(error: Exn, steps: seq<ProcessStep>)

  const WrapMessage: string := "Error en el procesamiento del evento: "

  /** The exception `processEvent` throws for a failure `e` inside its try block. */
  function Wrap(e: Exn): Exn {
    NewRuntimeException(WrapMessage, e)
  }

  /** Number of times the validator was invoked in a list of steps. */
  function ValidatorCalls(steps: seq<ProcessStep>): nat {
    if |steps| == 0 then 0
    else (if steps[0].BusinessStep? then 0 else 1) + ValidatorCalls(steps[1..])
  }

  function ProcessEvent(e: KafkaEvent, validationFault: Option<Exn>, businessFault: Option<Exn>)
    : (r: ProcessResult)
    // the validator is asked exactly once, before anything else
    ensures |r.steps| >= 1 && !r.steps[0].BusinessStep? && ValidatorCalls(r.steps) == 1
    // the business step runs iff the validator ran normally and accepted the event
    ensures BusinessStep in r.steps <==> validationFault.None? && e.reference.Some?
    // a normal return unless something inside raised, valid or not
    ensures r.Done? <==>
      validationFault.None? && (e.reference.Some? ==> businessFault.None?)
    // every failure surfaces as a RuntimeException wrapping the original
    ensures r.Threw? ==> r.error.cls == RuntimeException && !IsKafkaException(r.error)
    ensures r.Threw? && validationFault.Some? ==> r.error.cause == CausedBy(validationFault.value)
    ensures r.Threw? && validationFault.None? ==>
      businessFault.Some? && r.error.cause == CausedBy(businessFault.value)
  {
    if validationFault.Some? then
      Threw(Wrap(validationFault.value), [ValidationRaised])
    else
      var valid := CheckBusinessRulesForTheEvent(e);
      if !valid then
        Done([Validated(false)])
      else if businessFault.Some? then
        Threw(Wrap(businessFault.value), [Validated(true), BusinessStep])
      else
        Done([Validated(true), BusinessStep])
  }

  /**
   * The caller cannot tell a valid event from an invalid one: without a
   * fault both return normally.
   */
  lemma SameReturnForValidAndInvalid(valid: KafkaEvent, invalid: KafkaEvent)
    requires CheckBusinessRulesForTheEvent(valid) && !CheckBusinessRulesForTheEvent(invalid)
    ensures ProcessEvent(valid, None, None).Done? == ProcessEvent(invalid, None, None).Done?
    ensures BusinessStep in ProcessEvent(valid, None, None).steps
    ensures BusinessStep !in ProcessEvent(invalid, None, None).steps
  {
  }

  /** Even a `KafkaException` raised inside is converted to a `RuntimeException`. */
  lemma KafkaExceptionIsWrapped(e: KafkaEvent, message: string)
    ensures var r := ProcessEvent(e, Some(NewKafkaException(message)), None);
      r.Threw? && !IsKafkaException(r.error) && r.error.cause == CausedBy(NewKafkaException(message))
  {
  }
}
