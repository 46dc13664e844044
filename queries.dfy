/**
 * The result checks of the metric getters of `estimator/monitoring.py`.
 * The Prometheus query itself is not modelled: each getter receives the
 * answer to its query as a value.  Every getter checks that the identity
 * it needs is set (before querying), then that the answer is not empty,
 * then that its first record carries a `value`.
 */
module Queries {
  import opened Wrappers
  import opened PyNum

  /** Why a reading raises `RuntimeError` (or, for `getCores`, another exception). */
  datatype Failure =
    | MissingIdentity          // stack or service name empty, checked before querying
    | NoData                   // the query answered an empty vector
    | InvalidFormat            // the first record has no 'value' key
    | NonPositiveResponseTime  // get_response_time only: value <= 0
    | NotAMapping              // getCores: `.get` on a YAML node that is not a mapping
    | NotANumber               // getCores: `float()` of a mapping or null

  /** The `[timestamp, value]` pair of an instant-vector record, the value already parsed. */
  datatype Point = Point(timestamp: real, value: real)

  /** One record of an instant-vector answer; `value` is absent when the record lacks the key. */
  datatype Record = Record(value: Option<Point>)

  /** A Prometheus instant-vector answer. */
  type QueryResult = seq<Record>

  /** The check every getter shares: an empty answer, then a first record without `value`. */
  function FirstValue(result: QueryResult): (r: Result<real, Failure>)
    ensures |result| == 0 ==> r == Err(NoData)
    ensures |result| > 0 && result[0].value.None? ==> r == Err(InvalidFormat)
    ensures r.Ok? <==> |result| > 0 && result[0].value.Some?
    ensures r.Ok? ==> r.value == result[0].value.value.value
  {
    if |result| == 0 then Err(NoData)
    else match result[0].value
      case None => Err(InvalidFormat)
      case Some(p) => Ok(p.value)
  }

  /**
   * `get_incoming_rps` and `get_completed_rps`: the two Envoy request rates
   * differ only in the metric they query, so they share this check.
   */
  function EnvoyRate(serviceName: string, result: QueryResult): (r: Result<real, Failure>)
    ensures serviceName == "" ==> r == Err(MissingIdentity)
    ensures serviceName != "" ==> r == FirstValue(result)
  {
    if serviceName == "" then Err(MissingIdentity) else FirstValue(result)
  }

  /** `get_response_time`: an Envoy rate that must also be strictly positive. */
  function ResponseTime(serviceName: string, result: QueryResult): (r: Result<real, Failure>)
    ensures r.Ok? ==> 0.0 < r.value
    ensures r.Ok? <==> serviceName != "" && FirstValue(result).Ok? && 0.0 < FirstValue(result).value
    ensures r.Ok? ==> r == FirstValue(result)
    ensures serviceName == "" ==> r == Err(MissingIdentity)
    ensures serviceName != "" && FirstValue(result).Ok? && FirstValue(result).value <= 0.0 ==>
      r == Err(NonPositiveResponseTime)
  {
    match EnvoyRate(serviceName, result)
    case Err(e) => Err(e)
    case Ok(v) => if v <= 0.0 then Err(NonPositiveResponseTime) else Ok(v)
  }

  /** `get_service_cpu_utilization`: needs both the stack and the service name. */
  function CpuUtilization(stackName: string, serviceName: string, result: QueryResult): (r: Result<real, Failure>)
    ensures stackName == "" || serviceName == "" ==> r == Err(MissingIdentity)
    ensures stackName != "" && serviceName != "" ==> r == FirstValue(result)
  {
    if stackName == "" || serviceName == "" then Err(MissingIdentity) else FirstValue(result)
  }

  /**
   * `get_active_replicas` (which `get_replicas` and `get_ready_replicas`
   * both return): the container count, truncated by `int(float(...))`.
   */
  function ActiveReplicas(stackName: string, serviceName: string, result: QueryResult): (r: Result<int, Failure>)
    ensures r.Ok? <==> CpuUtilization(stackName, serviceName, result).Ok?
    ensures r.Err? ==> r.error == CpuUtilization(stackName, serviceName, result).error
    ensures r.Ok? && 0.0 <= FirstValue(result).value ==>
      0 <= r.value && r.value as real <= FirstValue(result).value < r.value as real + 1.0
    ensures r.Ok? && FirstValue(result).value < 0.0 ==>
      r.value <= 0 && r.value as real - 1.0 < FirstValue(result).value <= r.value as real
  {
    if stackName == "" || serviceName == "" then Err(MissingIdentity)
    else match FirstValue(result)
      case Err(e) => Err(e)
      case Ok(v) => Ok(Int(v))
  }

  /** `get_active_users`: never raises; an absent gauge is `None`. */
  function ActiveUsers(result: QueryResult): (r: Option<real>)
    ensures r.None? <==> FirstValue(result).Err?
    ensures r.Some? ==> r.value == FirstValue(result).value
  {
    match FirstValue(result)
    case Err(_) => None
    case Ok(v) => Some(v)
  }
}
