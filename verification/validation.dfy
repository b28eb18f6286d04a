/**
 * `ValidateEventService.checkBusinessRulesForTheEvent`: run the declared
 * Bean Validation constraints of `KafkaEvent` and report whether none is
 * violated. The validation engine is modelled by `Violations`, which applies
 * every constraint declared on every property.
 */
module Validation {
  import opened Wrappers
  import opened KafkaEvents

  /** One constraint violation: the property, its rejected value and the message. */
  datatype Violation = Violation(property: Field, invalidValue: FieldValue, message: string)

  predicate Satisfies(c: Constraint, v: FieldValue) {
    match c
    case NotNull(_) => v != Null
  }

  /** `validator.validate(message)`: one violation per failed declared constraint. */
  function Violations(e: KafkaEvent): set<Violation> {
    set f, i | f in Fields && 0 <= i < |ConstraintsOn(f)| && !Satisfies(ConstraintsOn(f)[i], ValueOf(e, f))
      :: Violation(f, ValueOf(e, f), ConstraintsOn(f)[i].message)
  }

  /** True iff the event has no violation; the only rule is that `reference` is not null. */
  function CheckBusinessRulesForTheEvent(e: KafkaEvent): (valid: bool)
    ensures valid <==> e.reference.Some?
    ensures valid <==> Violations(e) == {}
  {
    ViolationsOfEvent(e);
    Violations(e) == {}
  }

  /**
   * The violation set is empty exactly when `reference` is non-null, and
   * otherwise holds the single `@NotNull` violation on `reference`.
   */
  lemma ViolationsOfEvent(e: KafkaEvent)
    ensures e.reference.Some? ==> Violations(e) == {}
    ensures e.reference.None? ==>
      Violations(e) == {Violation(Reference, Null, ReferenceNotNullMessage)}
  {
    if e.reference.None? {
      var v := Violation(Reference, Null, ReferenceNotNullMessage);
      assert ConstraintsOn(Reference)[0] == NotNull(ReferenceNotNullMessage);
      assert v in Violations(e);
    }
  }

  /** An empty `reference` passes: only nullness is constrained. */
  lemma EmptyReferenceIsValid(status: Option<string>, created: Option<Timestamp>)
    ensures CheckBusinessRulesForTheEvent(KafkaEvent(Some(""), status, created))
  {
  }

  /** `status` and `createdDateTime` never influence the verdict. */
  lemma OnlyReferenceMatters(e1: KafkaEvent, e2: KafkaEvent)
    requires e1.reference == e2.reference
    ensures CheckBusinessRulesForTheEvent(e1) == CheckBusinessRulesForTheEvent(e2)
    ensures Violations(e1) == Violations(e2)
  {
    ViolationsOfEvent(e1);
    ViolationsOfEvent(e2);
  }

  /** A no-args-constructed event fails validation. */
  lemma NoArgsEventIsInvalid()
    ensures !CheckBusinessRulesForTheEvent(NoArgsEvent())
    ensures |Violations(NoArgsEvent())| == 1
  {
    ViolationsOfEvent(NoArgsEvent());
  }
}
