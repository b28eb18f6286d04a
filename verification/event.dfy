/**
 * The `KafkaEvent` model class: three nullable properties, their JSON
 * names, and the Bean Validation constraints declared on them.
 */
module KafkaEvents {
  import opened Wrappers

  /** `java.sql.Timestamp`, as milliseconds since the epoch. */
  type Timestamp = int

  datatype KafkaEvent = KafkaEvent(
    reference: Option<string>,
    status: Option<string>,
    createdDateTime: Option<Timestamp>)

  /** The event's properties, in declaration order. */
  datatype Field = Reference | Status | CreatedDateTime

  const Fields: seq<Field> := [Reference, Status, CreatedDateTime]

  /** A property's value as the validator sees it; `Null` is Java's null. */
  datatype FieldValue = Null | Text(text: string) | Instant(millis: Timestamp)

  /** A declared Bean Validation constraint and its message. */
  datatype Constraint = NotNull(message: string)

  const ReferenceNotNullMessage: string := "La referencia no puede ser nula"

  /** The `@JsonProperty` name of each property. */
  function JsonKey(f: Field): string {
    match f
    case Reference => "reference"
    case Status => "status"
    case CreatedDateTime => "created_datetime"
  }

  /** The constraints annotated on each property: only `reference` has one. */
  function ConstraintsOn(f: Field): seq<Constraint> {
    match f
    case Reference => [NotNull(ReferenceNotNullMessage)]
    case Status => []
    case CreatedDateTime => []
  }

  function ValueOf(e: KafkaEvent, f: Field): FieldValue {
    match f
    case Reference => if e.reference.Some? then Text(e.reference.value) else Null
    case Status => if e.status.Some? then Text(e.status.value) else Null
    case CreatedDateTime =>
      if e.createdDateTime.Some? then Instant(e.createdDateTime.value) else Null
  }

  /** The Lombok no-args constructor: every property null. */
  function NoArgsEvent(): (e: KafkaEvent)
    ensures forall f :: ValueOf(e, f) == Null
  {
    KafkaEvent(None, None, None)
  }

  /** The JSON keys of the three properties are pairwise distinct, so the mapping is one-to-one. */
  lemma JsonKeysDistinct(f: Field, g: Field)
    ensures JsonKey(f) == JsonKey(g) <==> f == g
  {
  }

  /** The JSON object keys an event maps to: exactly one per property. */
  function JsonKeys(): (keys: set<string>)
    ensures |keys| == |Fields| == 3
    ensures forall f :: JsonKey(f) in keys
    ensures forall k :: k in keys ==> exists f :: JsonKey(f) == k
  {
    var keys := set f | f in Fields :: JsonKey(f);
    assert Fields[0] == Reference && Fields[1] == Status && Fields[2] == CreatedDateTime;
    assert keys == {"reference", "status", "created_datetime"} by {
      assert JsonKey(Reference) in keys && JsonKey(Status) in keys && JsonKey(CreatedDateTime) in keys;
    }
    assert "reference"[0] != "status"[0] && "status"[0] != "created_datetime"[0] && "created_datetime"[0] != "reference"[0];
    keys
  }
}
