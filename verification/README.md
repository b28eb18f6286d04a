# kafka-listener: a Dafny model of the health-gated consumer

This project models the core of a Spring Kafka consumer service. The service reads JSON events from one topic. It refuses to handle a record while its health monitor reports the broker as unreachable, and otherwise runs transform → validate → business step → manual acknowledge on each record. The model covers:

- **the per-record decision procedure** of `KafkaListenerService.event` (module `Listener`);
- **the health monitor** `KafkaHealthService`, covering its state record, the connectivity check, the recursive reconnect chain, the UP/DOWN report and `isKafkaAvailable()`, the flag the listener's gate reads (`Health.IsKafkaAvailable`, module `Health`);
- **validate-then-process**: `ProcessEventService.processEvent`, `ValidateEventService` and the `@NotNull` constraint on `KafkaEvent` (modules `Processing`, `Validation`, `KafkaEvents`);
- **the transform** of `KafkaTransform`, with JSON parsing as a parameter (module `Transform`). A JSON processing failure becomes null, and a payload that parses to null raises a `NullPointerException` from the transform's debug log line;
- **`StringUtils.isBlank`**, which the listener uses to skip empty records (module `Blank`);
- **the policies `KafkaConfig` derives** from its properties: attempt normalisation, fixed back-off, non-retryable classes, error-handler gating and client properties (module `KafkaConfig`);
- **the wiring of all of the above** (module `Pipeline`), where the cross-service theorem lives. With acknowledgements that succeed, only the health gate's `KafkaException` can escape `event`. The error handler that `KafkaConfig` installs when retry is enabled treats it as retryable.

Java's `null` is `Wrappers.Option`'s `None`. Exceptions are values of `Exceptions.Exn`, holding a class tag, a nullable message and an optional cause. Everything is a pure function over immutable datatypes. Each collaborator that the source calls but does not define becomes a parameter:

- the JSON parser, which yields an event, null or a JSON processing failure;
- the behaviour of the validation engine and of the business step;
- each `acknowledge()` call;
- each cluster probe;
- the clock;
- the interruptible sleep.

The reconnect recursion (`checkKafkaHealth` → `scheduleReconnect` → `checkKafkaHealth` …) is a walk over a finite script of checks. Each check is a clock reading plus a probe outcome. The walk stops at the first successful probe. If the script runs out while probes are still failing, the next one-minute sleep counts as interrupted, and the chain returns quietly.

Behaviours of the code worth knowing:

- Validation runs inside `processEvent`, not in the listener. An event without `reference` still reaches `processEvent`, which returns normally without running the business step.
- The only rule is `reference != null`, so an empty reference is valid.
- After a failed probe, `lastError` is the exception's message, which may be null or empty.
- `lastCheckTime` is the wall clock. It is non-decreasing only when the clock is (`Health.LastCheckTimeMonotone` takes that as a hypothesis).
- `enable.auto.commit` is passed through from the configuration, not forced off, alongside the MANUAL_IMMEDIATE ack mode.
- The reconnect chain waits a fixed minute between checks. The `@Retryable` parameters on `scheduleReconnect` never take effect: `checkKafkaHealth` catches every `Exception`, and the re-entry is a self-call. The class and method Javadoc (`KafkaHealthService.java` lines 33, 149 and 201) describes exponential back-off; the code does not do it.
- The Javadoc of `kafkaErrorHandler` and `retryTemplate` (`KafkaConfig.java` lines 221 and 265) calls 3 a minimum attempt count. The code uses 3 only when the configured value is not positive, so a configured 1 or 2 is kept.

Three behaviours of the code that the model makes explicit:

- With `healthCheckEnabled` false, `checkKafkaHealth` returns at once and nothing else sets `kafkaAvailable`, which starts false. Every record is then rejected at the gate for ever, while `health()` reports UP with "Health check disabled" (`Pipeline.DisabledChecksRejectEveryRecord`).
- When `lastError` is null, `health()` cannot add it as a detail. Spring's health builder rejects null detail values with `IllegalArgumentException("Value must not be null")`, so the catch branch reports DOWN with `kafka = "Error checking health"`.
- If `acknowledge()` throws an ordinary exception inside the try block, the generic catch calls `acknowledge()` a second time. If that call throws too, its exception escapes `event` even though it is not a `KafkaException`. The "exactly one acknowledgement or a propagated `KafkaException`" theorems therefore assume acknowledgements succeed (`Listener.FailedAcknowledgeIsRepeated` states the other case). When the try block throws before reaching `acknowledge()`, as the transform does for the payload `null`, the catch clause's single call is the only attempt, and a failure there escapes (`Listener.TransformErrorsAreSwallowed`).

## Model

| member | source | states |
|---|---|---|
| Listener.Event | src/main/java/com/pinncode/service/kafkalistener/service/KafkaListenerService.java:78-127 | A closed gate yields the gate exception with no call made. `processEvent` runs at most once and `acknowledge()` at most twice. When acknowledgements succeed, the record either returns normally after exactly one acknowledgement or propagates a `KafkaException` after none. |
| Listener.TryBody | src/main/java/com/pinncode/service/kafkalistener/service/KafkaListenerService.java:88-116 | The try block acknowledges at most once and processes at most once. Past the gate, it calls `acknowledge()` iff the payload is blank, the transform returns null, or processing returns normally. A normal exit means exactly one acknowledgement. After an acknowledge attempt, the block throws iff that call failed, and what it throws is that call's exception. |
| Listener.Acknowledge | src/main/java/com/pinncode/service/kafkalistener/service/KafkaListenerService.java:111 | Each `acknowledge()` call adds one attempt, which succeeds or throws exactly as the broker side dictates. Earlier calls are kept and the processing count is unchanged. |
| Listener.GateComesFirst | src/main/java/com/pinncode/service/kafkalistener/service/KafkaListenerService.java:90-93 | With the broker unavailable, every record, blank or not, propagates `KafkaException("Kafka connection not available")` with nothing transformed, processed or acknowledged. |
| Listener.BlankIsSkipped | src/main/java/com/pinncode/service/kafkalistener/service/KafkaListenerService.java:95-99 | With acknowledgements that succeed, a null, empty or whitespace-only payload past the gate is acknowledged once, and neither transform nor process is invoked. |
| Listener.UntransformableIsSkipped | src/main/java/com/pinncode/service/kafkalistener/service/KafkaListenerService.java:101-107 | With acknowledgements that succeed, a payload the transform maps to null is acknowledged once and never processed. |
| Listener.EventIsProcessedThenAcknowledged | src/main/java/com/pinncode/service/kafkalistener/service/KafkaListenerService.java:109-111 | With acknowledgements that succeed, a transformed event is passed to `processEvent` exactly once, and the record is then acknowledged once. |
| Listener.OtherErrorsAreSwallowed | src/main/java/com/pinncode/service/kafkalistener/service/KafkaListenerService.java:122-126 | With acknowledgements that succeed, a non-`KafkaException` raised by processing is swallowed: the record is acknowledged once and the call returns normally. |
| Listener.KafkaErrorsAreRethrown | src/main/java/com/pinncode/service/kafkalistener/service/KafkaListenerService.java:117-120 | A `KafkaException` raised by processing propagates unchanged, with no acknowledgement. |
| Listener.ExactlyOneOutcome | src/main/java/com/pinncode/service/kafkalistener/service/KafkaListenerService.java:88-126 | With acknowledgements that succeed, every record ends either in one acknowledge call and a normal return, or in zero acknowledge calls and a propagated exception. |
| Listener.FailedAcknowledgeIsRepeated | src/main/java/com/pinncode/service/kafkalistener/service/KafkaListenerService.java:95-126 | On every path where the try block calls `acknowledge()` (blank payload, null transform result, processed event), a failing first call that is not a `KafkaException` leads to a second call from the catch clause. The record returns normally with one acknowledgement iff that second call succeeds; otherwise the second call's exception escapes. |
| Listener.TransformErrorsAreSwallowed | src/main/java/com/pinncode/service/kafkalistener/service/KafkaListenerService.java:103-125 | An exception the transform raises that is not a `KafkaException` is caught by the generic clause. The record is never processed and gets exactly one acknowledge call. If that call fails, its exception escapes with no second attempt. |
| Listener.OpenGateReturns | src/main/java/com/pinncode/service/kafkalistener/service/KafkaListenerService.java:88-126 | When neither the transform nor processing can raise a `KafkaException` and acknowledgements succeed, a record past the gate returns normally after exactly one acknowledgement. |
| Blank.IsBlankScan | src/main/java/com/pinncode/service/kafkalistener/service/KafkaListenerService.java:95 | The character scan returns true iff the string is null or consists only of `Character.isWhitespace` characters; the empty string is blank. |
| Transform.TransformPayload | src/main/java/com/pinncode/service/kafkalistener/transform/KafkaTransform.java:49-70 | The transform returns the parsed event iff the parser yields one. It returns null iff the parser raises a JSON processing error. It raises iff the parser yields null, and what it raises is a `NullPointerException`, never a `KafkaException`. |
| Processing.ProcessEvent | src/main/java/com/pinncode/service/kafkalistener/service/ProcessEventService.java:45-66 | The validator is asked exactly once. The business step runs iff validation ran normally and the reference is non-null. The call returns normally unless something inside raised. Any failure, including a `KafkaException`, surfaces as a `RuntimeException` whose cause is the original. |
| Processing.SameReturnForValidAndInvalid | src/main/java/com/pinncode/service/kafkalistener/service/ProcessEventService.java:53-59 | Valid and invalid events both return normally. Only the valid one runs the business step. |
| Processing.KafkaExceptionIsWrapped | src/main/java/com/pinncode/service/kafkalistener/service/ProcessEventService.java:61-64 | A `KafkaException` raised inside `processEvent` reaches the caller as a `RuntimeException` that wraps it, never as a `KafkaException`. |
| Validation.CheckBusinessRulesForTheEvent | src/main/java/com/pinncode/service/kafkalistener/service/ValidateEventService.java:50-68 | The result is true iff the violation set is empty, which holds iff `reference` is non-null. |
| Validation.ViolationsOfEvent | src/main/java/com/pinncode/service/kafkalistener/model/KafkaEvent.java:22-24 | The validation engine reports no violation for a non-null reference. For a null reference it reports exactly the one `@NotNull` violation on `reference`, with its message. |
| Validation.EmptyReferenceIsValid | src/main/java/com/pinncode/service/kafkalistener/model/KafkaEvent.java:22-24 | The empty string is a valid reference, because only nullness is constrained. |
| Validation.OnlyReferenceMatters | src/main/java/com/pinncode/service/kafkalistener/model/KafkaEvent.java:26-36 | `status` and `createdDateTime` carry no constraint, so two events with the same reference get the same verdict and the same violations. |
| Validation.NoArgsEventIsInvalid | src/main/java/com/pinncode/service/kafkalistener/model/KafkaEvent.java:15-24 | A no-args-constructed event fails validation with exactly one violation. |
| KafkaEvents.NoArgsEvent | src/main/java/com/pinncode/service/kafkalistener/model/KafkaEvent.java:15-17 | The no-args constructor leaves every property null. |
| KafkaEvents.JsonKeysDistinct | src/main/java/com/pinncode/service/kafkalistener/model/KafkaEvent.java:22-36 | Distinct properties have distinct JSON names, and equal names mean the same property. |
| KafkaEvents.JsonKeys | src/main/java/com/pinncode/service/kafkalistener/model/KafkaEvent.java:22-36 | The event maps to exactly three JSON keys, one per property: `reference`, `status` and `created_datetime`. |
| Health.RunCheck | src/main/java/com/pinncode/service/kafkalistener/service/KafkaHealthService.java:170-192 | An enabled check makes between 1 and 1 + (number of reconnects) probes. Every probe before the last one failed. The run was interrupted iff the last probe failed, and then all supplied checks were used. The final state reflects the last probe only: its clock reading; available iff it succeeded; `lastError` empty after a success, or the probe's message after a failure. |
| Health.Reconnect | src/main/java/com/pinncode/service/kafkalistener/service/KafkaHealthService.java:229-243 | An interrupted sleep returns with the state untouched and the run marked interrupted. Otherwise the chain continues with the next check, with the same guarantees as `RunCheck`. |
| Health.CheckKafkaHealth | src/main/java/com/pinncode/service/kafkalistener/service/KafkaHealthService.java:163-194 | With checks disabled, no field changes and no probe is made. With checks enabled, the run satisfies the consumed-prefix and last-probe guarantees above. |
| Health.AvailableIffSomeProbeSucceeds | src/main/java/com/pinncode/service/kafkalistener/service/KafkaHealthService.java:229-243 | After an enabled check, `available` holds iff some supplied probe succeeded. In that case the last consumed probe is the first success. Otherwise the chain ended in an interrupted sleep. |
| Health.FailuresThenRecovery | src/main/java/com/pinncode/service/kafkalistener/service/KafkaHealthService.java:174-192 | After any positive number of failed probes followed by a success, the check stops at that success with `available` true, `lastError` empty and `lastCheckTime` the success's clock reading. |
| Health.Report | src/main/java/com/pinncode/service/kafkalistener/service/KafkaHealthService.java:104-129 | With checks disabled the report is UP with "Health check disabled", whatever the state. With checks enabled: UP/"Connected" iff available, with `lastCheck` always present; otherwise DOWN/"Disconnected" with `error = lastError`, or "Error checking health" when `lastError` is null. |
| Health.LastCheckTimeMonotone | src/main/java/com/pinncode/service/kafkalistener/service/KafkaHealthService.java:157-170 | Over any sequence of scheduled executions, `lastCheckTime` never decreases, provided the clock readings never go back. |
| Health.DisabledIsInert | src/main/java/com/pinncode/service/kafkalistener/service/KafkaHealthService.java:165-167 | With checks disabled, the state is identical after any sequence of scheduled executions, and the report is UP. |
| KafkaConfig.EffectiveMaxAttempts | src/main/java/com/pinncode/service/kafkalistener/config/KafkaConfig.java:238 | The attempt count is the configured value when positive, 3 otherwise, and always at least 1. |
| KafkaConfig.KafkaErrorHandler | src/main/java/com/pinncode/service/kafkalistener/config/KafkaConfig.java:236-256 | The handler backs off a constant 5000 ms with the normalised attempt count. Among the modelled classes, exactly IllegalArgumentException, NullPointerException, JsonParseException and JsonMappingException are non-retryable, so `KafkaException` and `RuntimeException` are retryable. |
| KafkaConfig.RetryTemplate | src/main/java/com/pinncode/service/kafkalistener/config/KafkaConfig.java:277-291 | The retry template pauses a constant 5000 ms and uses the same normalised attempt count, at least 1. |
| KafkaConfig.KafkaListenerContainerFactory | src/main/java/com/pinncode/service/kafkalistener/config/KafkaConfig.java:197-213 | The common error handler is installed iff `retryEnabled`, and is then `kafkaErrorHandler()`. The ack mode is MANUAL_IMMEDIATE, the poll timeout is 30 s, missing topics are not fatal, and `enable.auto.commit` is the configured value. |
| KafkaConfig.SameAttemptRule | src/main/java/com/pinncode/service/kafkalistener/config/KafkaConfig.java:282 | The error handler and the retry template derive the same attempt count from the configuration. |
| KafkaConfig.BackOffIgnoresIntervals | src/main/java/com/pinncode/service/kafkalistener/config/KafkaConfig.java:286-287 | Configurations that agree on the attempt count yield identical policies, whatever their intervals and multiplier. |
| KafkaConfig.ClientsShareReconnectBackOff | src/main/java/com/pinncode/service/kafkalistener/config/KafkaConfig.java:308-319 | The consumer and the admin client get the same request timeout and the same retry and reconnect back-offs: `initialRetryInterval`, with `maxRetryInterval` as the reconnect maximum. |
| KafkaConfig.ConsumerProps | src/main/java/com/pinncode/service/kafkalistener/config/KafkaConfig.java:147-176 | The consumer uses the configured servers, group and auto-commit flag, string deserializers for key and value, the configured request timeout, `initialRetryInterval` for both the retry and the reconnect back-off, and `maxRetryInterval` as the reconnect maximum. |
| KafkaConfig.AdminProps | src/main/java/com/pinncode/service/kafkalistener/config/KafkaConfig.java:307-320 | Every admin-client property is also a consumer property with the same value. The admin client has no group, auto-commit or deserializer setting. Its reconnect back-off and request timeout are the configured ones. |
| KafkaConfig.AutoCommitPassedThrough | src/main/java/com/pinncode/service/kafkalistener/config/KafkaConfig.java:155 | A configuration with auto-commit enabled keeps it enabled alongside the MANUAL_IMMEDIATE ack mode. |
| Pipeline.Consume | src/main/java/com/pinncode/service/kafkalistener/service/KafkaListenerService.java:88-111 | With the wired services, a record arriving while the health state says unavailable propagates the gate exception untouched. |
| Pipeline.OnlyTheGateEscapes | src/main/java/com/pinncode/service/kafkalistener/service/KafkaListenerService.java:117-126 | With the real transform and processing service and acknowledgements that succeed, a record raises iff the broker is unavailable. What it raises is the gate exception, after no call. Otherwise it is acknowledged once. That exception is retryable under the error handler `KafkaConfig` installs when retry is enabled, whatever the other settings. |
| Pipeline.NullReferenceIsAcknowledgedUnprocessed | src/main/java/com/pinncode/service/kafkalistener/service/ProcessEventService.java:51-56 | With acknowledgements that succeed, an event with a null reference is processed (validation fails inside `processEvent`) and acknowledged once, and the business step does not run. |
| Pipeline.WiredCollaboratorsRaiseNoKafkaException | src/main/java/com/pinncode/service/kafkalistener/service/ProcessEventService.java:61-64 | Neither the real transform nor the real processing service ever raises a `KafkaException`: the transform raises only the null dereference, and processing wraps every failure in a `RuntimeException`. |
| Pipeline.NullJsonIsAcknowledgedUnprocessed | src/main/java/com/pinncode/service/kafkalistener/transform/KafkaTransform.java:56-64 | A payload that the parser turns into null makes the transform raise. The record is acknowledged with one call and never processed; if that call fails, its exception escapes. |
| Pipeline.InitialStateRejectsRecords | src/main/java/com/pinncode/service/kafkalistener/service/KafkaHealthService.java:71-77 | The initial state is unavailable, with empty error and check time 0. Every record is rejected at the gate, and the enabled report is DOWN. |
| Pipeline.DisabledChecksRejectEveryRecord | src/main/java/com/pinncode/service/kafkalistener/service/KafkaHealthService.java:165-167 | With checks disabled, the state after any number of scheduled executions from the initial state rejects every record at the gate, and the report for it is UP. |
| Pipeline.RecoveryOpensTheGate | src/main/java/com/pinncode/service/kafkalistener/service/KafkaHealthService.java:174-183 | After a check in which some probe succeeds, the next record is no longer rejected. |
| Pipeline.EmptyPayloadEndToEnd | src/main/java/com/pinncode/service/kafkalistener/service/KafkaListenerService.java:95-99 | With acknowledgements that succeed, an empty payload on a healthy broker is acknowledged once and never parsed or processed. |

## Left out

- Logging, including `logEvent` before the try block and its `LocalDateTime` conversion. Logging is treated as total. A null timestamp header, which would fail before the try block, is not modelled; the container always supplies it.
- `java.lang.Error` throwables. Neither `catch (Exception …)` catches them, so they would escape `event` unacknowledged. The model has exceptions only.
- Unchecked exceptions thrown by the JSON parser itself. The parser is the parameter `parse`, with three outcomes: an event, null, or a JSON processing failure.
- Transform.TransformPayload: the `NullPointerException` raised for a null parse result carries no message in the model. The JVM's message text is not modelled, and the listener does not look at it.
- The Bean Validation engine. It is replaced by `Validation.Violations`, which applies the constraints declared on `KafkaEvent`. The engine raising an exception is the `validationFault` parameter.
- The real cluster probe (`describeCluster` and its timeout), the clock and `Thread.sleep`. These are inputs to the model.
- Concurrency between the scheduler and listener threads. `volatile` visibility and thread interruption flags are not modelled; the model is sequential.
- Health.CheckKafkaHealth: the model covers only finite scripts of checks. In the source, each failed check calls `scheduleReconnect` (`KafkaHealthService.java` line 192), which calls `checkKafkaHealth` again (line 236), adding two stack frames per minute of outage. A chain whose probes keep failing and whose sleeps are never interrupted therefore ends when the thread's stack is exhausted. The resulting `StackOverflowError` is not caught by either `catch` clause, and the model does not include that ending.
- The `@Retryable` and `@Scheduled` annotations on the health service, and the exponential delay arithmetic they name. `checkKafkaHealth` never throws, and the reconnect re-entry is a self-call, so neither retry takes effect. The scheduling interval is timing.
- Redelivery and seek mechanics of Spring's `DefaultErrorHandler` and `RetryTemplate`. Only the policy values `KafkaConfig` derives are modelled.
- KafkaConfig.KafkaErrorHandler: the library's default non-retryable classes, which `addNotRetryableExceptions` adds to, its cause-chain traversal and its subclass matching are not modelled. In the library, subclasses of the four named classes, such as `NumberFormatException` or `MismatchedInputException`, are non-retryable too; the model treats every `OtherException` as retryable. The handler's retry listener only logs.
- Construction of the consumer factory, the container factory and the `AdminClient`. They are modelled as the records they are built from.
- The application entry point and the service interfaces. They hold no logic. `KafkaException` is the `KafkaException` class tag in `Exceptions`.
- The accessors `getLastError` and `getLastCheckTime`. They read a field of `Health.HealthState` and change nothing.
