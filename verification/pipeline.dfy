/**
 * The listener wired to its collaborators: the health service's flag, the
 * transform over a JSON parser, and the processing service. Properties
 * here cross service boundaries: what can escape `event`, and how the
 * container's error handler would classify it.
 */
module Pipeline {
  import opened Wrappers
  import opened Exceptions
  import opened KafkaEvents
  import opened Validation
  import opened Transform
  import opened Processing
  import opened Health
  import opened Listener
  import opened Blank
  import KafkaConfig

  /**
   * The processing service for a given behaviour of the validation engine
   * and of the business step, as the listener observes it: a normal return
   * or the exception `processEvent` threw.
   */
  function ProcessService(validationFault: KafkaEvent -> Option<Exn>, businessFault: KafkaEvent -> Option<Exn>)
    : KafkaEvent -> CallOutcome
  {
    ev => match ProcessEvent(ev, validationFault(ev), businessFault(ev))
          case Done(_) => Completed
          case Threw(e, _) => Failed(e)
  }

  /** The transform over a given parser, as the listener calls it. */
  function Transformer(parse: string -> ParseResult): string -> TransformResult {
    p => TransformPayload(parse, p)
  }

  /**
   * The wired collaborators never raise a `KafkaException`: the transform
   * raises only the null dereference, and processing wraps everything in a
   * `RuntimeException`.
   */
  lemma WiredCollaboratorsRaiseNoKafkaException(
    parse: string -> ParseResult,
    validationFault: KafkaEvent -> Option<Exn>, businessFault: KafkaEvent -> Option<Exn>)
    ensures RaisesNoKafkaException(Transformer(parse), ProcessService(validationFault, businessFault))
  {
    forall ev | ProcessService(validationFault, businessFault)(ev).Failed?
      ensures !IsKafkaException(ProcessService(validationFault, businessFault)(ev).error)
    {
      var r := ProcessEvent(ev, validationFault(ev), businessFault(ev));
      assert r.Threw?;
    }
  }

  /** One record handled by the wired listener against the current health state. */
  function Consume(
    s: HealthState,
    payload: Option<string>,
    parse: string -> ParseResult,
    validationFault: KafkaEvent -> Option<Exn>,
    businessFault: KafkaEvent -> Option<Exn>,
    acknowledge: nat -> Option<Exn>): (r: ListenerResult)
    ensures !IsKafkaAvailable(s) ==> r == Raised(GateError(), [])
  {
    Event(IsKafkaAvailable(s), payload, Transformer(parse),
          ProcessService(validationFault, businessFault), acknowledge)
  }

  /**
   * Only the health gate's `KafkaException` can escape `event`: processing
   * wraps everything it raises in a `RuntimeException`. That exception is
   * retryable under the error handler the container factory installs when
   * retry is enabled.
   */
  lemma OnlyTheGateEscapes(
    cfg: KafkaConfig.Properties,
    s: HealthState, payload: Option<string>, parse: string -> ParseResult,
    validationFault: KafkaEvent -> Option<Exn>, businessFault: KafkaEvent -> Option<Exn>,
    acknowledge: nat -> Option<Exn>)
    requires AcksSucceed(acknowledge)
    ensures var r := Consume(s, payload, parse, validationFault, businessFault, acknowledge);
      && (r.Raised? <==> !IsKafkaAvailable(s))
      && (r.Raised? ==> r.error == GateError() && r.calls == [])
      && (r.Returned? ==> Acks(r.calls) == 1)
      && KafkaConfig.Retryable(KafkaConfig.KafkaErrorHandler(cfg), GateError().cls)
      && (cfg.retryEnabled ==>
            var h := KafkaConfig.KafkaListenerContainerFactory(cfg).commonErrorHandler;
            h.Some? && KafkaConfig.Retryable(h.value, GateError().cls))
  {
    if IsKafkaAvailable(s) {
      WiredCollaboratorsRaiseNoKafkaException(parse, validationFault, businessFault);
      OpenGateReturns(payload, Transformer(parse), ProcessService(validationFault, businessFault), acknowledge);
    }
  }

  /**
   * An event whose `reference` is null is acknowledged without the
   * business step: validation fails inside `processEvent`, which returns normally.
   */
  lemma NullReferenceIsAcknowledgedUnprocessed(
    s: HealthState, p: string, parse: string -> ParseResult,
    businessFault: KafkaEvent -> Option<Exn>, acknowledge: nat -> Option<Exn>)
    requires IsKafkaAvailable(s) && !IsBlank(Some(p)) && AcksSucceed(acknowledge)
    requires parse(p).Parsed? && parse(p).event.reference.None?
    ensures var ev := parse(p).event;
      && Consume(s, Some(p), parse, _ => None, businessFault, acknowledge)
         == Returned([Transformed(p), Processed(ev), Acknowledged])
      && BusinessStep !in ProcessEvent(ev, None, businessFault(ev)).steps
  {
  }

  /**
   * A payload that parses to null (the JSON literal `null`) makes the
   * transform raise a `NullPointerException`. The generic catch clause
   * acknowledges it once and nothing is processed; if that acknowledgement
   * fails, its exception escapes with no second attempt.
   */
  lemma NullJsonIsAcknowledgedUnprocessed(
    s: HealthState, p: string, parse: string -> ParseResult,
    validationFault: KafkaEvent -> Option<Exn>, businessFault: KafkaEvent -> Option<Exn>,
    acknowledge: nat -> Option<Exn>)
    requires IsKafkaAvailable(s) && !IsBlank(Some(p)) && parse(p).ParsedNull?
    ensures var r := Consume(s, Some(p), parse, validationFault, businessFault, acknowledge);
      && AckAttempts(r.calls) == 1 && Processings(r.calls) == 0
      && (acknowledge(0).None? ==> r == Returned([Transformed(p), Acknowledged]))
      && (acknowledge(0).Some? ==> r.Raised? && r.error == acknowledge(0).value)
  {
    TransformErrorsAreSwallowed(p, Transformer(parse),
      ProcessService(validationFault, businessFault), acknowledge);
  }

  /** The initial state closes the gate: no record is processed before the first successful check. */
  lemma InitialStateRejectsRecords(
    payload: Option<string>, parse: string -> ParseResult,
    validationFault: KafkaEvent -> Option<Exn>, businessFault: KafkaEvent -> Option<Exn>,
    acknowledge: nat -> Option<Exn>)
    ensures Initial.available == false && Initial.lastError == Some("") && Initial.lastCheckTime == 0
    ensures Consume(Initial, payload, parse, validationFault, businessFault, acknowledge)
         == Raised(GateError(), [])
    ensures Report(Initial, true).status == Down
  {
  }

  /**
   * With health checks disabled the flag keeps its initial `false` for
   * ever: after any number of scheduled executions every record is
   * rejected at the gate, while the report says UP.
   */
  lemma DisabledChecksRejectEveryRecord(
    ticks: seq<Tick>, k: nat,
    payload: Option<string>, parse: string -> ParseResult,
    validationFault: KafkaEvent -> Option<Exn>, businessFault: KafkaEvent -> Option<Exn>,
    acknowledge: nat -> Option<Exn>)
    requires k <= |ticks|
    ensures History(Initial, false, ticks)[k] == Initial
    ensures Consume(History(Initial, false, ticks)[k], payload, parse, validationFault, businessFault, acknowledge)
         == Raised(GateError(), [])
    ensures Report(History(Initial, false, ticks)[k], false).status == Up
  {
    DisabledIsInert(Initial, ticks);
  }

  /** After a check whose probes succeed at some point, records flow again. */
  lemma RecoveryOpensTheGate(
    s: HealthState, c: Check, later: seq<Check>, i: nat,
    payload: Option<string>, parse: string -> ParseResult,
    validationFault: KafkaEvent -> Option<Exn>, businessFault: KafkaEvent -> Option<Exn>,
    acknowledge: nat -> Option<Exn>)
    requires i < |[c] + later| && ([c] + later)[i].probe.Reachable?
    requires AcksSucceed(acknowledge)
    ensures var s' := CheckKafkaHealth(s, true, c, later).state;
      Consume(s', payload, parse, validationFault, businessFault, acknowledge).Returned?
  {
    WiredCollaboratorsRaiseNoKafkaException(parse, validationFault, businessFault);
    OpenGateReturns(payload, Transformer(parse), ProcessService(validationFault, businessFault), acknowledge);
  }

  /** An empty payload on a healthy broker is acknowledged and never parsed or processed. */
  lemma EmptyPayloadEndToEnd(
    s: HealthState, parse: string -> ParseResult,
    validationFault: KafkaEvent -> Option<Exn>, businessFault: KafkaEvent -> Option<Exn>,
    acknowledge: nat -> Option<Exn>)
    requires IsKafkaAvailable(s) && AcksSucceed(acknowledge)
    ensures Consume(s, Some(""), parse, validationFault, businessFault, acknowledge) == Returned([Acknowledged])
  {
  }
}
