/**
 * `KafkaListenerService.event`: the per-record decision sequence. Health
 * gate, blank check, transform, process, acknowledge; a `KafkaException`
 * from the try block is rethrown, any other exception is logged and the
 * record acknowledged.
 *
 * The transform, the processing service and each `acknowledge()` call are
 * parameters; `acknowledge(i)` is what the i-th call on this record raises,
 * if anything. Logging, including `logEvent` before the try block, is
 * total and not modelled.
 */
module Listener {
  import opened Wrappers
  import opened Exceptions
  import opened KafkaEvents
  import opened Blank
  import opened Transform

  /** What `processEvent` did, as the listener sees it. */
  datatype CallOutcome = Completed | Failed(error: Exn)

  /** Calls made on collaborators while handling one record, in order. */
  datatype Call =
    | Transformed(payload: string)
    | Processed(event: KafkaEvent)
    | Acknowledged
    | AckFailed(error: Exn)

  /** `event` either returns normally or lets an exception propagate. */
  datatype ListenerResult =
    | Returned(calls: seq<Call>)
    | Raised(error: Exn, calls: seq<Call>)

  /** How the try block ended. */
  datatype BodyResult = Normal(calls: seq<Call>) | Thrown(error: Exn, calls: seq<Call>)

  const GateMessage: string := "Kafka connection not available"

  /** The exception the health gate throws. */
  function GateError(): Exn {
    NewKafkaException(GateMessage)
  }

  /** Successful acknowledgements among the calls. */
  function Acks(calls: seq<Call>): nat {
    multiset(calls)[Acknowledged]
  }

  /** Calls to `acknowledge()`, successful or not. */
  function AckAttempts(calls: seq<Call>): nat {
    if |calls| == 0 then 0
    else (if calls[0].Acknowledged? || calls[0].AckFailed? then 1 else 0) + AckAttempts(calls[1..])
  }

  /** Calls to `processEvent`. */
  function Processings(calls: seq<Call>): nat {
    if |calls| == 0 then 0
    else (if calls[0].Processed? then 1 else 0) + Processings(calls[1..])
  }

  lemma {:induction false} CountsAppend(xs: seq<Call>, ys: seq<Call>)
    ensures AckAttempts(xs + ys) == AckAttempts(xs) + AckAttempts(ys)
    ensures Processings(xs + ys) == Processings(xs) + Processings(ys)
  {
    if |xs| > 0 {
      assert (xs + ys)[1..] == xs[1..] + ys;
      CountsAppend(xs[1..], ys);
    } else {
      assert xs + ys == ys;
    }
  }

  lemma PrefixCounts(p: string, ev: KafkaEvent)
    ensures AckAttempts([Transformed(p)]) == 0 && Processings([Transformed(p)]) == 0
    ensures AckAttempts([Transformed(p), Processed(ev)]) == 0
    ensures Processings([Transformed(p), Processed(ev)]) == 1
  {
    assert [Transformed(p), Processed(ev)] == [Transformed(p)] + [Processed(ev)];
    CountsAppend([Transformed(p)], [Processed(ev)]);
  }

  /** Every `acknowledge()` call succeeds. */
  ghost predicate AcksSucceed(acknowledge: nat -> Option<Exn>) {
    forall i: nat :: acknowledge(i).None?
  }

  /** `acknowledgment.acknowledge()` as the `attempt`-th call on this record. */
  function Acknowledge(calls: seq<Call>, acknowledge: nat -> Option<Exn>): (r: BodyResult)
    ensures AckAttempts(r.calls) == AckAttempts(calls) + 1
    ensures Processings(r.calls) == Processings(calls)
    ensures Acks(r.calls) == Acks(calls) + (if r.Normal? then 1 else 0)
    ensures r.Thrown? <==> acknowledge(AckAttempts(calls)).Some?
    ensures r.Thrown? ==> r.error == acknowledge(AckAttempts(calls)).value
    ensures |r.calls| == |calls| + 1 && r.calls[..|calls|] == calls
  {
    match acknowledge(AckAttempts(calls))
    case None =>
      CountsAppend(calls, [Acknowledged]);
      Normal(calls + [Acknowledged])
    case Some(e) =>
      CountsAppend(calls, [AckFailed(e)]);
      Thrown(e, calls + [AckFailed(e)])
  }

  /**
   * Whether the try block gets as far as an `acknowledge()` call: a blank
   * payload, a null transform result, or an event processed without an
   * exception.
   */
  predicate ReachesAcknowledge(
    payload: Option<string>,
    transform: string -> TransformResult,
    process: KafkaEvent -> CallOutcome)
  {
    || IsBlank(payload)
    || transform(payload.value).NoEvent?
    || (transform(payload.value).Converted? && process(transform(payload.value).event).Completed?)
  }

  /** The try block. */
  function TryBody(
    available: bool,
    payload: Option<string>,
    transform: string -> TransformResult,
    process: KafkaEvent -> CallOutcome,
    acknowledge: nat -> Option<Exn>): (r: BodyResult)
    ensures AckAttempts(r.calls) <= 1 && Processings(r.calls) <= 1
    ensures Acks(r.calls) <= AckAttempts(r.calls)
    ensures r.Normal? ==> Acks(r.calls) == 1
    ensures available ==> (AckAttempts(r.calls) == 1 <==> ReachesAcknowledge(payload, transform, process))
    ensures AckAttempts(r.calls) == 1 ==> (r.Thrown? <==> acknowledge(0).Some?)
    ensures r.Thrown? && AckAttempts(r.calls) == 1 ==> r.error == acknowledge(0).value
  {
    if !available then
      Thrown(GateError(), [])
    else if IsBlank(payload) then
      Acknowledge([], acknowledge)
    else
      var p := payload.value;
      match transform(p)
      case NoEvent => Acknowledge([Transformed(p)], acknowledge)
      case TransformRaised(e) => Thrown(e, [Transformed(p)])
      case Converted(ev) =>
        PrefixCounts(p, ev);
        match process(ev)
        case Completed => Acknowledge([Transformed(p), Processed(ev)], acknowledge)
        case Failed(e) => Thrown(e, [Transformed(p), Processed(ev)])
  }

  /** `event`: the try block followed by its two catch clauses. */
  function Event(
    available: bool,
    payload: Option<string>,
    transform: string -> TransformResult,
    process: KafkaEvent -> CallOutcome,
    acknowledge: nat -> Option<Exn>): (r: ListenerResult)
    ensures AckAttempts(r.calls) <= 2 && Processings(r.calls) <= 1
    ensures !available ==> r == Raised(GateError(), [])
    // with acknowledgements that succeed: one acknowledgement and a normal
    // return, or none and a propagated KafkaException
    ensures AcksSucceed(acknowledge) ==>
      || (r.Returned? && Acks(r.calls) == 1 && AckAttempts(r.calls) == 1)
      || (r.Raised? && Acks(r.calls) == 0 && AckAttempts(r.calls) == 0 && IsKafkaException(r.error))
  {
    match TryBody(available, payload, transform, process, acknowledge)
    case Normal(calls) => Returned(calls)
    case Thrown(e, calls) =>
      if IsKafkaException(e) then
        Raised(e, calls)
      else
        match Acknowledge(calls, acknowledge)
        case Normal(calls') => Returned(calls')
        case Thrown(e', calls') => Raised(e', calls')
  }

  /** A closed gate rejects every record, blank ones too, before anything else happens. */
  lemma GateComesFirst(
    payload: Option<string>, transform: string -> TransformResult,
    process: KafkaEvent -> CallOutcome, acknowledge: nat -> Option<Exn>)
    ensures Event(false, payload, transform, process, acknowledge) == Raised(GateError(), [])
    ensures IsKafkaException(GateError()) && GateError().message == Some(GateMessage)
  {
  }

  /** A blank record past the gate is acknowledged once; nothing else is called. */
  lemma BlankIsSkipped(
    payload: Option<string>, transform: string -> TransformResult,
    process: KafkaEvent -> CallOutcome, acknowledge: nat -> Option<Exn>)
    requires IsBlank(payload) && AcksSucceed(acknowledge)
    ensures Event(true, payload, transform, process, acknowledge) == Returned([Acknowledged])
  {
  }

  /** A payload the transform turns into null is acknowledged once and not processed. */
  lemma UntransformableIsSkipped(
    p: string, transform: string -> TransformResult,
    process: KafkaEvent -> CallOutcome, acknowledge: nat -> Option<Exn>)
    requires !IsBlank(Some(p)) && transform(p).NoEvent? && AcksSucceed(acknowledge)
    ensures Event(true, Some(p), transform, process, acknowledge) == Returned([Transformed(p), Acknowledged])
  {
  }

  /** A transformed event is processed exactly once, then acknowledged. */
  lemma EventIsProcessedThenAcknowledged(
    p: string, ev: KafkaEvent, transform: string -> TransformResult,
    process: KafkaEvent -> CallOutcome, acknowledge: nat -> Option<Exn>)
    requires !IsBlank(Some(p)) && transform(p) == Converted(ev) && process(ev).Completed?
    requires AcksSucceed(acknowledge)
    ensures Event(true, Some(p), transform, process, acknowledge)
         == Returned([Transformed(p), Processed(ev), Acknowledged])
  {
  }

  /** Any other exception from processing is swallowed and the record acknowledged. */
  lemma OtherErrorsAreSwallowed(
    p: string, ev: KafkaEvent, transform: string -> TransformResult,
    process: KafkaEvent -> CallOutcome, acknowledge: nat -> Option<Exn>)
    requires !IsBlank(Some(p)) && transform(p) == Converted(ev)
    requires process(ev).Failed? && !IsKafkaException(process(ev).error)
    requires AcksSucceed(acknowledge)
    ensures Event(true, Some(p), transform, process, acknowledge)
         == Returned([Transformed(p), Processed(ev), Acknowledged])
  {
  }

  /** A `KafkaException` from processing is rethrown unchanged, unacknowledged. */
  lemma KafkaErrorsAreRethrown(
    p: string, ev: KafkaEvent, transform: string -> TransformResult,
    process: KafkaEvent -> CallOutcome, acknowledge: nat -> Option<Exn>)
    requires !IsBlank(Some(p)) && transform(p) == Converted(ev)
    requires process(ev).Failed? && IsKafkaException(process(ev).error)
    ensures Event(true, Some(p), transform, process, acknowledge)
         == Raised(process(ev).error, [Transformed(p), Processed(ev)])
  {
  }

  /** Neither the transform nor processing ever raises a `KafkaException`. */
  ghost predicate RaisesNoKafkaException(transform: string -> TransformResult, process: KafkaEvent -> CallOutcome) {
    && (forall p :: transform(p).TransformRaised? ==> !IsKafkaException(transform(p).error))
    && (forall ev :: process(ev).Failed? ==> !IsKafkaException(process(ev).error))
  }

  /**
   * With collaborators that never raise a `KafkaException` and
   * acknowledgements that succeed, an open gate means a normal return.
   */
  lemma OpenGateReturns(
    payload: Option<string>, transform: string -> TransformResult,
    process: KafkaEvent -> CallOutcome, acknowledge: nat -> Option<Exn>)
    requires AcksSucceed(acknowledge) && RaisesNoKafkaException(transform, process)
    ensures var r := Event(true, payload, transform, process, acknowledge);
      r.Returned? && Acks(r.calls) == 1 && AckAttempts(r.calls) == 1
  {
  }

  /**
   * Every record ends in exactly one of two ways: one acknowledgement and a
   * normal return, or none and a propagated exception.
   */
  lemma ExactlyOneOutcome(
    available: bool, payload: Option<string>, transform: string -> TransformResult,
    process: KafkaEvent -> CallOutcome, acknowledge: nat -> Option<Exn>)
    requires AcksSucceed(acknowledge)
    ensures var r := Event(available, payload, transform, process, acknowledge);
      (r.Returned? && Acks(r.calls) == 1 && AckAttempts(r.calls) == 1)
      || (r.Raised? && Acks(r.calls) == 0 && AckAttempts(r.calls) == 0)
  {
  }

  /**
   * An exception the transform lets through, such as the null dereference
   * for the payload `null`, is caught by the generic clause: the record is
   * acknowledged once, from the catch clause, and never processed. A failing
   * acknowledgement there escapes after that one attempt.
   */
  lemma TransformErrorsAreSwallowed(
    p: string, transform: string -> TransformResult,
    process: KafkaEvent -> CallOutcome, acknowledge: nat -> Option<Exn>)
    requires !IsBlank(Some(p)) && transform(p).TransformRaised?
    requires !IsKafkaException(transform(p).error)
    ensures var r := Event(true, Some(p), transform, process, acknowledge);
      && AckAttempts(r.calls) == 1 && Processings(r.calls) == 0
      && (acknowledge(0).None? ==> r == Returned([Transformed(p), Acknowledged]))
      && (acknowledge(0).Some? ==>
            r == Raised(acknowledge(0).value, [Transformed(p), AckFailed(acknowledge(0).value)]))
  {
    assert Processings([Transformed(p)]) == 0;
  }

  /**
   * When an acknowledgement inside the try block fails with an ordinary
   * exception, the catch clause acknowledges a second time; if that fails
   * too, its exception escapes even though it is not a `KafkaException`.
   */
  lemma FailedAcknowledgeIsRepeated(
    payload: Option<string>, transform: string -> TransformResult,
    process: KafkaEvent -> CallOutcome, acknowledge: nat -> Option<Exn>)
    requires ReachesAcknowledge(payload, transform, process)
    requires acknowledge(0).Some? && !IsKafkaException(acknowledge(0).value)
    ensures var r := Event(true, payload, transform, process, acknowledge);
      && AckAttempts(r.calls) == 2
      && Acks(r.calls) == (if acknowledge(1).None? then 1 else 0)
      && (r.Returned? <==> acknowledge(1).None?)
      && (r.Raised? ==> r.error == acknowledge(1).value)
  {
  }
}
