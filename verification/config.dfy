/**
 * `KafkaConfig`: the configuration-to-policy derivations. Beans become
 * plain records: the consumer and admin-client property maps, the listener
 * container settings, the container's common error handler and the generic
 * retry template.
 */
module KafkaConfig {
  import opened Wrappers
  import opened Exceptions

  /** Java `int` and `long`. */
  type Int32 = x: int | -0x8000_0000 <= x < 0x8000_0000
  type Int64 = x: int | -0x8000_0000_0000_0000 <= x < 0x8000_0000_0000_0000

  /** The injected `kafka.*` properties. */
  datatype Properties = Properties(
    server: string,
    groupId: string,
    autoOffsetReset: string,
    enableAutoCommit: bool,
    maxPollRecords: Int32,
    sessionTimeout: Int32,
    heartbeatInterval: Int32,
    retryEnabled: bool,
    maxRetryAttempts: Int32,
    initialRetryInterval: Int64,
    maxRetryInterval: Int64,
    retryMultiplier: real,
    connectionTimeout: Int32,
    requestTimeout: Int32)

  /** A client property value. */
  datatype PropValue = Text(text: string) | Number(n: int) | Flag(b: bool) | ClassName(name: string)

  const StringDeserializer: string := "org.apache.kafka.common.serialization.StringDeserializer"

  /** Fixed pause between container redeliveries and between retry-template attempts. */
  const FixedBackOffMs: int := 5000

  /** Attempt count used when the configured one is not positive. */
  const DefaultMaxAttempts: int := 3

  /** The exception classes the error handler is told never to retry. */
  const NotRetryableClasses: set<ExnClass> :=
    {IllegalArgumentException, NullPointerException, JsonParseException, JsonMappingException}

  /** `maxRetryAttempts > 0 ? maxRetryAttempts : 3`. */
  function EffectiveMaxAttempts(configured: Int32): (n: int)
    ensures n >= 1
    ensures configured >= 1 ==> n == configured
    ensures configured < 1 ==> n == DefaultMaxAttempts
  {
    if configured > 0 then configured else DefaultMaxAttempts
  }

  /**
   * `consumerFactory()`'s property map. Auto-commit is the configured flag,
   * both deserializers read strings, and the retry and reconnect back-offs
   * both start at `initialRetryInterval`.
   */
  function ConsumerProps(p: Properties): (m: map<string, PropValue>)
    ensures "bootstrap.servers" in m && m["bootstrap.servers"] == Text(p.server)
    ensures "group.id" in m && m["group.id"] == Text(p.groupId)
    ensures "enable.auto.commit" in m && m["enable.auto.commit"] == Flag(p.enableAutoCommit)
    ensures "key.deserializer" in m && "value.deserializer" in m
    ensures m["key.deserializer"] == m["value.deserializer"] == ClassName(StringDeserializer)
    ensures "request.timeout.ms" in m && m["request.timeout.ms"] == Number(p.requestTimeout)
    ensures "retry.backoff.ms" in m && "reconnect.backoff.ms" in m && "reconnect.backoff.max.ms" in m
    ensures m["retry.backoff.ms"] == m["reconnect.backoff.ms"] == Number(p.initialRetryInterval)
    ensures m["reconnect.backoff.max.ms"] == Number(p.maxRetryInterval)
  {
    map[
      "bootstrap.servers" := Text(p.server),
      "group.id" := Text(p.groupId),
      "auto.offset.reset" := Text(p.autoOffsetReset),
      "enable.auto.commit" := Flag(p.enableAutoCommit),
      "max.poll.records" := Number(p.maxPollRecords),
      "session.timeout.ms" := Number(p.sessionTimeout),
      "heartbeat.interval.ms" := Number(p.heartbeatInterval),
      "key.deserializer" := ClassName(StringDeserializer),
      "value.deserializer" := ClassName(StringDeserializer),
      "connections.max.idle.ms" := Number(300000),
      "request.timeout.ms" := Number(p.requestTimeout),
      "retry.backoff.ms" := Number(p.initialRetryInterval),
      "reconnect.backoff.ms" := Number(p.initialRetryInterval),
      "reconnect.backoff.max.ms" := Number(p.maxRetryInterval),
      "metadata.max.age.ms" := Number(300000),
      "fetch.max.wait.ms" := Number(500)
    ]
  }

  /**
   * `kafkaAdminClient()`'s properties: a part of the consumer's, with the
   * same values, and without the consumer-group and deserializer settings.
   */
  function AdminProps(p: Properties): (m: map<string, PropValue>)
    ensures forall k :: k in m ==> k in ConsumerProps(p) && ConsumerProps(p)[k] == m[k]
    ensures "group.id" !in m && "enable.auto.commit" !in m
    ensures "key.deserializer" !in m && "value.deserializer" !in m
    ensures "reconnect.backoff.ms" in m && m["reconnect.backoff.ms"] == Number(p.initialRetryInterval)
    ensures "reconnect.backoff.max.ms" in m && m["reconnect.backoff.max.ms"] == Number(p.maxRetryInterval)
    ensures "request.timeout.ms" in m && m["request.timeout.ms"] == Number(p.requestTimeout)
  {
    map[
      "bootstrap.servers" := Text(p.server),
      "connections.max.idle.ms" := Number(300000),
      "request.timeout.ms" := Number(p.requestTimeout),
      "retry.backoff.ms" := Number(p.initialRetryInterval),
      "reconnect.backoff.ms" := Number(p.initialRetryInterval),
      "reconnect.backoff.max.ms" := Number(p.maxRetryInterval)
    ]
  }

  /**
   * Spring's `FixedBackOff(interval, maxAttempts)`: `maxAttempts` further
   * attempts after the first, `interval` milliseconds apart.
   */
  datatype FixedBackOff = FixedBackOff(intervalMs: int, maxAttempts: int)

  datatype ErrorHandlerPolicy = ErrorHandlerPolicy(backOff: FixedBackOff, notRetryable: set<ExnClass>)

  /** Whether the handler retries an exception of the class at all. */
  predicate Retryable(h: ErrorHandlerPolicy, c: ExnClass) {
    c !in h.notRetryable
  }

  /** `kafkaErrorHandler()`. */
  function KafkaErrorHandler(p: Properties): (h: ErrorHandlerPolicy)
    ensures h.backOff.intervalMs == FixedBackOffMs
    ensures h.backOff.maxAttempts >= 1
    ensures p.maxRetryAttempts >= 1 ==> h.backOff.maxAttempts == p.maxRetryAttempts
    ensures p.maxRetryAttempts < 1 ==> h.backOff.maxAttempts == DefaultMaxAttempts
    ensures forall c :: !Retryable(h, c) <==>
      c == IllegalArgumentException || c == NullPointerException || c == JsonParseException || c == JsonMappingException
    ensures Retryable(h, KafkaException) && Retryable(h, RuntimeException)
  {
    ErrorHandlerPolicy(FixedBackOff(FixedBackOffMs, EffectiveMaxAttempts(p.maxRetryAttempts)), NotRetryableClasses)
  }

  /** `retryTemplate()`: `SimpleRetryPolicy` attempts (the first included) and a fixed pause. */
  datatype RetryTemplatePolicy = RetryTemplatePolicy(maxAttempts: int, backOffPeriodMs: int)

  function RetryTemplate(p: Properties): (t: RetryTemplatePolicy)
    ensures t.backOffPeriodMs == FixedBackOffMs
    ensures t.maxAttempts >= 1
    ensures p.maxRetryAttempts >= 1 ==> t.maxAttempts == p.maxRetryAttempts
    ensures p.maxRetryAttempts < 1 ==> t.maxAttempts == DefaultMaxAttempts
  {
    RetryTemplatePolicy(EffectiveMaxAttempts(p.maxRetryAttempts), FixedBackOffMs)
  }

  datatype AckMode = Record | Batch | Time | Count | CountTime | Manual | ManualImmediate

  /** The listener container settings `kafkaListenerContainerFactory()` produces. */
  datatype ContainerFactory = ContainerFactory(
    consumerProps: map<string, PropValue>,
    ackMode: AckMode,
    pollTimeoutMs: int,
    missingTopicsFatal: bool,
    commonErrorHandler: Option<ErrorHandlerPolicy>)

  function KafkaListenerContainerFactory(p: Properties): (f: ContainerFactory)
    ensures f.commonErrorHandler.Some? <==> p.retryEnabled
    ensures f.commonErrorHandler.Some? ==> f.commonErrorHandler.value == KafkaErrorHandler(p)
    ensures f.ackMode == ManualImmediate
    ensures f.pollTimeoutMs == 30000 && !f.missingTopicsFatal
    ensures "enable.auto.commit" in f.consumerProps
    ensures f.consumerProps["enable.auto.commit"] == Flag(p.enableAutoCommit)
  {
    ContainerFactory(
      ConsumerProps(p), ManualImmediate, 30000, false,
      if p.retryEnabled then Some(KafkaErrorHandler(p)) else None)
  }

  /** The error handler and the retry template normalise the attempt count the same way. */
  lemma SameAttemptRule(p: Properties)
    ensures KafkaErrorHandler(p).backOff.maxAttempts == RetryTemplate(p).maxAttempts == EffectiveMaxAttempts(p.maxRetryAttempts)
  {
  }

  /**
   * The pauses ignore the configured intervals and multiplier: two
   * configurations with the same attempt count give the same policies.
   */
  lemma BackOffIgnoresIntervals(p1: Properties, p2: Properties)
    requires p1.maxRetryAttempts == p2.maxRetryAttempts
    ensures KafkaErrorHandler(p1) == KafkaErrorHandler(p2)
    ensures RetryTemplate(p1) == RetryTemplate(p2)
  {
  }

  /** Consumer and admin client share the reconnect and retry pauses. */
  lemma ClientsShareReconnectBackOff(p: Properties)
    ensures forall k :: k in {"retry.backoff.ms", "reconnect.backoff.ms", "reconnect.backoff.max.ms", "request.timeout.ms"} ==>
      k in ConsumerProps(p) && k in AdminProps(p) && ConsumerProps(p)[k] == AdminProps(p)[k]
    ensures AdminProps(p)["reconnect.backoff.ms"] == Number(p.initialRetryInterval)
    ensures AdminProps(p)["reconnect.backoff.max.ms"] == Number(p.maxRetryInterval)
  {
  }

  /** Auto-commit is passed through, not forced off: the manual ack mode does not override it. */
  lemma AutoCommitPassedThrough(p: Properties)
    requires p.enableAutoCommit
    ensures KafkaListenerContainerFactory(p).consumerProps["enable.auto.commit"] == Flag(true)
    ensures KafkaListenerContainerFactory(p).ackMode == ManualImmediate
  {
  }
}
