/**
 * `KafkaHealthService`: the shared health record, the connectivity check
 * with its reconnect chain, and the UP/DOWN report.
 *
 * The cluster probe (`describeCluster` with a timeout), the wall clock and
 * the interruptible one-minute sleep are inputs. One execution of the
 * check is a first `Check` followed by the checks that the reconnect chain
 * performs after each completed sleep; when the chain still fails after the
 * last supplied check, the next sleep is taken to be interrupted.
 */
module Health {
  import opened Wrappers

  /** The three volatile fields; `lastError` is nullable as `getMessage()` is. */
  datatype HealthState = HealthState(available: bool, lastError: Option<string>, lastCheckTime: int)

  /** The field initialisers. */
  const Initial: HealthState := HealthState(false, Some(""), 0)

  /** `isKafkaAvailable()`; `getLastError()` and `getLastCheckTime()` are the other fields. */
  function IsKafkaAvailable(s: HealthState): bool {
    s.available
  }

  /** Outcome of one `describeCluster().clusterId().get(timeout)`. */
  datatype Probe = Reachable | Unreachable(message: Option<string>)

  /** One pass through the enabled check: the clock reading, then the probe. */
  datatype Check = Check(now: int, probe: Probe)

  /** Result of a `checkKafkaHealth` call, with the number of probes it made. */
  datatype CheckRun = CheckRun(state: HealthState, probes: nat, interrupted: bool)

  /** The consumed probes: all but the last failed; the run was interrupted iff the last failed too. */
  ghost predicate ConsumedPrefix(rs: seq<Check>, r: CheckRun)
    requires 1 <= r.probes <= |rs|
  {
    && (forall i :: 0 <= i < r.probes - 1 ==> rs[i].probe.Unreachable?)
    && (r.interrupted <==> rs[r.probes - 1].probe.Unreachable?)
    && (r.interrupted ==> r.probes == |rs|)
  }

  /** The state left by the consumed probes: it reflects the last of them only. */
  ghost predicate ReflectsLastProbe(rs: seq<Check>, r: CheckRun)
    requires 1 <= r.probes <= |rs|
  {
    var last := rs[r.probes - 1];
    && r.state.lastCheckTime == last.now
    && (r.state.available <==> last.probe.Reachable?)
    && (last.probe.Reachable? ==> r.state.lastError == Some(""))
    && (last.probe.Unreachable? ==> r.state.lastError == last.probe.message)
  }

  /**
   * The body of `checkKafkaHealth` when enabled: record the time, probe,
   * and on failure fall into `scheduleReconnect`, which re-enters the check.
   */
  function RunCheck(s: HealthState, c: Check, later: seq<Check>): (r: CheckRun)
    decreases |later|, 1
    ensures 1 <= r.probes <= 1 + |later|
    ensures ConsumedPrefix([c] + later, r)
    ensures ReflectsLastProbe([c] + later, r)
  {
    var stamped := s.(lastCheckTime := c.now);
    match c.probe
    case Reachable =>
      CheckRun(stamped.(available := true, lastError := Some("")), 1, false)
    case Unreachable(message) =>
      var r := Reconnect(stamped.(available := false, lastError := message), later);
      assert forall i :: 0 <= i < |later| ==> ([c] + later)[i + 1] == later[i];
      r.(probes := r.probes + 1)
  }

  /**
   * `scheduleReconnect`: sleep one minute, then check again. An exhausted
   * script means the sleep was interrupted: return quietly, state untouched.
   */
  function Reconnect(s: HealthState, later: seq<Check>): (r: CheckRun)
    decreases |later|, 0
    ensures r.probes <= |later|
    ensures r.probes == 0 <==> |later| == 0
    ensures r.probes == 0 ==> r.state == s && r.interrupted
    ensures r.probes > 0 ==> ConsumedPrefix(later, r) && ReflectsLastProbe(later, r)
  {
    if |later| == 0 then
      CheckRun(s, 0, true)
    else
      assert later == [later[0]] + later[1..];
      RunCheck(s, later[0], later[1..])
  }

  /** `checkKafkaHealth`: does nothing when checks are disabled. */
  function CheckKafkaHealth(s: HealthState, enabled: bool, c: Check, later: seq<Check>): (r: CheckRun)
    ensures !enabled ==> r.state == s && r.probes == 0 && !r.interrupted
    ensures enabled ==> 1 <= r.probes <= 1 + |later| && ConsumedPrefix([c] + later, r) && ReflectsLastProbe([c] + later, r)
  {
    if !enabled then CheckRun(s, 0, false) else RunCheck(s, c, later)
  }

  /**
   * An enabled check ends available iff some supplied probe succeeds; the
   * chain stops at the first success, and it is interrupted otherwise.
   */
  lemma AvailableIffSomeProbeSucceeds(s: HealthState, c: Check, later: seq<Check>)
    ensures var rs := [c] + later;
      var r := CheckKafkaHealth(s, true, c, later);
      && (r.state.available <==> exists i :: 0 <= i < |rs| && rs[i].probe.Reachable?)
      && (r.state.available ==> rs[r.probes - 1].probe.Reachable?)
      && (r.state.available ==> forall j :: 0 <= j < r.probes - 1 ==> rs[j].probe.Unreachable?)
      && (!r.state.available <==> r.interrupted)
  {
  }

  /** After `n` failed probes and then a success the service is available with no error. */
  lemma FailuresThenRecovery(s: HealthState, failures: seq<Check>, success: Check, rest: seq<Check>)
    requires |failures| >= 1
    requires forall i :: 0 <= i < |failures| ==> failures[i].probe.Unreachable?
    requires success.probe.Reachable?
    ensures var r := CheckKafkaHealth(s, true, failures[0], failures[1..] + [success] + rest);
      && r.probes == |failures| + 1
      && r.state.available && r.state.lastError == Some("")
      && r.state.lastCheckTime == success.now
  {
    var later := failures[1..] + [success] + rest;
    var rs := [failures[0]] + later;
    assert rs == failures + [success] + rest;
    assert forall i :: 0 <= i < |failures| ==> rs[i] == failures[i];
    assert rs[|failures|] == success;
  }

  /** The report's overall status. */
  datatype Status = Up | Down

  /** A report detail: text, or the last check time (its date conversion is not modelled). */
  datatype Detail = Text(text: string) | CheckedAt(millis: int)

  datatype HealthReport = HealthReport(status: Status, details: map<string, Detail>)

  /** Message of the exception the report builder raises for a null detail value. */
  const NullDetailMessage: string := "Value must not be null"

  /**
   * `health()`. A null `lastError` cannot be added as a detail: the
   * builder throws and the catch branch reports "Error checking health".
   */
  function Report(s: HealthState, enabled: bool): (h: HealthReport)
    ensures !enabled ==> h == HealthReport(Up, map["status" := Text("Health check disabled")])
    ensures enabled ==> (h.status == Up <==> IsKafkaAvailable(s))
    ensures enabled ==> "lastCheck" in h.details && h.details["lastCheck"] == CheckedAt(s.lastCheckTime)
    ensures enabled ==> "kafka" in h.details && ("error" in h.details <==> h.status == Down)
    ensures enabled && s.available ==> h.details["kafka"] == Text("Connected")
    ensures enabled && !s.available && s.lastError.Some? ==>
      && "error" in h.details
      && h.details["kafka"] == Text("Disconnected") && h.details["error"] == Text(s.lastError.value)
    ensures enabled && !s.available && s.lastError.None? ==>
      && "error" in h.details
      && h.details["kafka"] == Text("Error checking health") && h.details["error"] == Text(NullDetailMessage)
  {
    if !enabled then
      HealthReport(Up, map["status" := Text("Health check disabled")])
    else
      var lastCheck := CheckedAt(s.lastCheckTime);
      if s.available then
        HealthReport(Up, map["kafka" := Text("Connected"), "lastCheck" := lastCheck])
      else if s.lastError.Some? then
        HealthReport(Down, map["kafka" := Text("Disconnected"), "error" := Text(s.lastError.value),
                               "lastCheck" := lastCheck])
      else
        HealthReport(Down, map["kafka" := Text("Error checking health"), "lastCheck" := lastCheck,
                               "error" := Text(NullDetailMessage)])
  }

  /** One scheduled execution of the check. */
  datatype Tick = Tick(first: Check, later: seq<Check>)

  function Rounds(t: Tick): seq<Check> {
    [t.first] + t.later
  }

  /** The states after each scheduled execution, starting from `s`. */
  function History(s: HealthState, enabled: bool, ticks: seq<Tick>): (h: seq<HealthState>)
    decreases |ticks|
    ensures |h| == |ticks| + 1 && h[0] == s
  {
    if |ticks| == 0 then [s]
    else [s] + History(CheckKafkaHealth(s, enabled, ticks[0].first, ticks[0].later).state, enabled, ticks[1..])
  }

  /** Clock readings never go back: from `t` on, in order, across all executions. */
  ghost predicate ClockMonotone(t: int, ticks: seq<Tick>)
    decreases |ticks|
  {
    |ticks| == 0 ||
    var rs := Rounds(ticks[0]);
    && (forall i :: 0 <= i < |rs| ==> t <= rs[i].now)
    && (forall i, j :: 0 <= i < j < |rs| ==> rs[i].now <= rs[j].now)
    && ClockMonotone(rs[|rs| - 1].now, ticks[1..])
  }

  lemma ClockMonotoneWeaken(t: int, t': int, ticks: seq<Tick>)
    requires t' <= t && ClockMonotone(t, ticks)
    ensures ClockMonotone(t', ticks)
  {
  }

  ghost predicate CheckTimesNonDecreasing(h: seq<HealthState>) {
    forall i :: 0 < i < |h| ==> h[i - 1].lastCheckTime <= h[i].lastCheckTime
  }

  /**
   * `lastCheckTime` never decreases over a sequence of executions, provided
   * the clock it reads never goes back.
   */
  lemma {:induction false} LastCheckTimeMonotone(s: HealthState, enabled: bool, ticks: seq<Tick>)
    requires ClockMonotone(s.lastCheckTime, ticks)
    ensures CheckTimesNonDecreasing(History(s, enabled, ticks))
    decreases |ticks|
  {
    if |ticks| > 0 {
      var rs := Rounds(ticks[0]);
      var r := CheckKafkaHealth(s, enabled, ticks[0].first, ticks[0].later);
      var last := rs[|rs| - 1].now;
      assert r.state.lastCheckTime <= last by {
        if enabled {
          assert r.state.lastCheckTime == rs[r.probes - 1].now;
          assert rs[r.probes - 1].now <= last;
        } else {
          assert s.lastCheckTime <= rs[0].now;
        }
      }
      assert s.lastCheckTime <= r.state.lastCheckTime by {
        if enabled {
          assert r.state.lastCheckTime == rs[r.probes - 1].now;
        }
      }
      ClockMonotoneWeaken(last, r.state.lastCheckTime, ticks[1..]);
      LastCheckTimeMonotone(r.state, enabled, ticks[1..]);
      var h := History(s, enabled, ticks);
      var h' := History(r.state, enabled, ticks[1..]);
      assert h == [s] + h' && h'[0] == r.state;
      forall i | 0 < i < |h| ensures h[i - 1].lastCheckTime <= h[i].lastCheckTime {
        if i > 1 {
          assert h[i - 1] == h'[i - 2] && h[i] == h'[i - 1];
        } else {
          assert h[0] == s && h[1] == r.state;
        }
      }
    }
  }

  /** With checks disabled nothing ever changes, and the report is always UP. */
  lemma {:induction false} DisabledIsInert(s: HealthState, ticks: seq<Tick>)
    ensures forall i :: 0 <= i < |History(s, false, ticks)| ==> History(s, false, ticks)[i] == s
    ensures Report(s, false).status == Up
    decreases |ticks|
  {
    if |ticks| > 0 {
      DisabledIsInert(s, ticks[1..]);
    }
  }
}
