/**
 * Health verdict from the storage probe and the metrics verdict
 * (apps/desktop/src/health.rs). Both are inputs here: the probe opens the
 * database, and the metrics verdict is `Metrics.IsHealthy`.
 */
module Health {
  import Text

  datatype HealthStatus = Healthy | Degraded | Unhealthy
  {
    /** Healthy or degraded: still serving. */
    function IsOperational(): (operational: bool)
      ensures operational <==> this != Unhealthy
    {
      match this
      case Healthy => true
      case Degraded => true
      case Unhealthy => false
    }
  }

  datatype HealthCheck = HealthCheck(
    status: HealthStatus,
    databaseHealthy: bool,
    metricsHealthy: bool,
    webviewHealthy: bool,
    message: string)
  {
    function IsReady(): (ready: bool)
      ensures ready <==> status == Healthy
      ensures ready ==> IsAlive() && status.IsOperational()
    {
      status == Healthy
    }

    function IsAlive(): (alive: bool)
      ensures alive <==> status.IsOperational()
      ensures alive <==> status != Unhealthy
    {
      status.IsOperational()
    }
  }

  /** Healthy when both parts are, degraded when exactly one is, unhealthy otherwise. */
  function OverallStatus(databaseHealthy: bool, metricsHealthy: bool): (s: HealthStatus)
    ensures s == Healthy <==> databaseHealthy && metricsHealthy
    ensures s == Degraded <==> databaseHealthy != metricsHealthy
    ensures s == Unhealthy <==> !databaseHealthy && !metricsHealthy
  {
    if databaseHealthy && metricsHealthy then Healthy
    else if databaseHealthy || metricsHealthy then Degraded
    else Unhealthy
  }

  /** The failing parts, database first. */
  function Issues(databaseHealthy: bool, metricsHealthy: bool): seq<string>
  {
    (if !databaseHealthy then ["database unreachable"] else [])
      + (if !metricsHealthy then ["high error rate"] else [])
  }

  function Message(status: HealthStatus, databaseHealthy: bool, metricsHealthy: bool): string
  {
    match status
    case Healthy => "All systems operational"
    case Degraded => "Degraded: " + Text.Join(Issues(databaseHealthy, metricsHealthy), ", ")
    case Unhealthy => "Multiple systems failing"
  }

  /**
   * The full verdict: both inputs copied, the webview always counted as up,
   * and a message naming what fails.
   */
  function CheckHealth(databaseHealthy: bool, metricsHealthy: bool): (h: HealthCheck)
    ensures h.status == OverallStatus(databaseHealthy, metricsHealthy)
    ensures h.databaseHealthy == databaseHealthy && h.metricsHealthy == metricsHealthy
    ensures h.webviewHealthy
    ensures databaseHealthy && metricsHealthy ==> h.message == "All systems operational"
    ensures !databaseHealthy && metricsHealthy ==> h.message == "Degraded: database unreachable"
    ensures databaseHealthy && !metricsHealthy ==> h.message == "Degraded: high error rate"
    ensures !databaseHealthy && !metricsHealthy ==> h.message == "Multiple systems failing"
  {
    var status := OverallStatus(databaseHealthy, metricsHealthy);
    HealthCheck(status, databaseHealthy, metricsHealthy, true,
                Message(status, databaseHealthy, metricsHealthy))
  }

  /** If this can be evaluated, the process is alive. */
  function CheckLiveness(): (alive: bool)
    ensures alive
  {
    true
  }

  /** Ready exactly when both the database and the metrics are healthy. */
  function CheckReadiness(databaseHealthy: bool, metricsHealthy: bool): (ready: bool)
    ensures ready <==> databaseHealthy && metricsHealthy
  {
    CheckHealth(databaseHealthy, metricsHealthy).IsReady()
  }

  /** 200 when healthy, 503 (service unavailable) when degraded or unhealthy. */
  function GetStatusCode(databaseHealthy: bool, metricsHealthy: bool): (code: nat)
    ensures code == 200 || code == 503
    ensures code == 200 <==> databaseHealthy && metricsHealthy
  {
    match CheckHealth(databaseHealthy, metricsHealthy).status
    case Healthy => 200
    case Degraded => 503
    case Unhealthy => 503
  }
}
