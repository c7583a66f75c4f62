/** The single-probe health classifier (internal/health/checker.go). The network
    exchange itself is an input: `ProbeIo` says what the HTTP request and the
    TCP dial would return. */
module Checker {
  import opened Basics
  import opened Models

  /** The outcome of the HTTP exchange, stage by stage. */
  datatype HttpOutcome =
    | RequestNotBuilt           // http.NewRequestWithContext failed
    | TransportFailed           // client.Do failed (refused, timeout, ...)
    | BodyReadFailed            // io.ReadAll of the body failed
    | Response(statusCode: int) // a response was read completely

  /** What the I/O of a probe would produce, for each kind of probe. */
  datatype ProbeIo = ProbeIo(http: HttpOutcome, tcpDialOk: bool)

  /** The error a probe returns; `None` in `CheckResult.err` is Go's nil. */
  datatype ProbeError =
    | UnsupportedType(kind: string)
    | MissingEndpoint
    | MissingHttpPort
    | MissingTcpPort
    | RequestBuildFailed
    | HttpFailed
    | ReadFailed
    | BadStatusCode(code: int)
    | TcpFailed
    | CommandNotImplemented

  datatype CheckResult = CheckResult(status: string, err: Option<ProbeError>)

  /** The port a probe targets: the check's own port, else the first mapped container port. */
  function ProbePort(hc: HealthCheck, ports: seq<PortMapping>): (r: Option<int>)
    ensures hc.port != 0 ==> r == Some(hc.port)
    ensures hc.port == 0 && |ports| > 0 ==> r == Some(ports[0].containerPort)
    ensures r.None? <==> hc.port == 0 && |ports| == 0
  {
    if hc.port != 0 then Some(hc.port)
    else if |ports| > 0 then Some(ports[0].containerPort)
    else None
  }

  predicate StartsWithSlash(s: string) { |s| > 0 && s[0] == '/' }

  /** The request path: a leading "/" is added only when missing. */
  function NormalizeEndpoint(e: string): (r: string)
    ensures StartsWithSlash(r)
    ensures StartsWithSlash(e) ==> r == e
    ensures !StartsWithSlash(e) ==> r == "/" + e
  {
    if StartsWithSlash(e) then e else "/" + e
  }

  /** Normalising a normalised path changes nothing. */
  lemma NormalizeEndpointIdempotent(e: string)
    ensures NormalizeEndpoint(NormalizeEndpoint(e)) == NormalizeEndpoint(e)
  {
  }

  /** Where an HTTP probe sends its GET, or why it sends none. */
  datatype HttpTarget = NoRequest(reason: ProbeError) | Get(port: int, path: string)

  function HttpTargetOf(hc: HealthCheck, ports: seq<PortMapping>): (t: HttpTarget)
    ensures hc.endpoint == "" ==> t == NoRequest(MissingEndpoint)
    ensures hc.endpoint != "" && ProbePort(hc, ports).None? ==> t == NoRequest(MissingHttpPort)
    ensures t.Get? <==> hc.endpoint != "" && ProbePort(hc, ports).Some?
    ensures t.Get? ==> t.port == ProbePort(hc, ports).value && t.path == NormalizeEndpoint(hc.endpoint)
  {
    if hc.endpoint == "" then NoRequest(MissingEndpoint)
    else match ProbePort(hc, ports)
      case None => NoRequest(MissingHttpPort)
      case Some(p) => Get(p, NormalizeEndpoint(hc.endpoint))
  }

  /** Status codes 200 to 399 count as healthy. */
  predicate HealthyStatusCode(code: int) { 200 <= code < 400 }

  function ProbeHttp(hc: HealthCheck, ports: seq<PortMapping>, io: HttpOutcome): (r: CheckResult)
    ensures HttpTargetOf(hc, ports).NoRequest? ==> r == CheckResult(HealthUnknown, Some(HttpTargetOf(hc, ports).reason))
    ensures r.status == HealthHealthy <==> HttpTargetOf(hc, ports).Get? && io.Response? && HealthyStatusCode(io.statusCode)
    ensures HttpTargetOf(hc, ports).Get? && io.Response? && !HealthyStatusCode(io.statusCode) ==>
              r == CheckResult(HealthUnhealthy, Some(BadStatusCode(io.statusCode)))
    ensures HttpTargetOf(hc, ports).Get? && !io.Response? ==> r.status == HealthUnhealthy && r.err.Some?
    ensures r.err.None? <==> r.status == HealthHealthy
  {
    match HttpTargetOf(hc, ports)
    case NoRequest(reason) => CheckResult(HealthUnknown, Some(reason))
    case Get(_, _) =>
      match io
      case RequestNotBuilt => CheckResult(HealthUnhealthy, Some(RequestBuildFailed))
      case TransportFailed => CheckResult(HealthUnhealthy, Some(HttpFailed))
      case BodyReadFailed => CheckResult(HealthUnhealthy, Some(ReadFailed))
      case Response(code) =>
        if HealthyStatusCode(code) then CheckResult(HealthHealthy, None)
        else CheckResult(HealthUnhealthy, Some(BadStatusCode(code)))
  }

  function ProbeTcp(hc: HealthCheck, ports: seq<PortMapping>, dialOk: bool): (r: CheckResult)
    ensures ProbePort(hc, ports).None? ==> r == CheckResult(HealthUnknown, Some(MissingTcpPort))
    ensures ProbePort(hc, ports).Some? ==>
              r == if dialOk then CheckResult(HealthHealthy, None) else CheckResult(HealthUnhealthy, Some(TcpFailed))
    ensures r.err.None? <==> r.status == HealthHealthy
  {
    match ProbePort(hc, ports)
    case None => CheckResult(HealthUnknown, Some(MissingTcpPort))
    case Some(_) => if dialOk then CheckResult(HealthHealthy, None) else CheckResult(HealthUnhealthy, Some(TcpFailed))
  }

  /** Command probes are not implemented. */
  function ProbeCommand(): (r: CheckResult)
    ensures r.status == HealthUnknown && r.err == Some(CommandNotImplemented)
  {
    CheckResult(HealthUnknown, Some(CommandNotImplemented))
  }

  /** `Check`: dispatch on the probe type. */
  function Check(c: Container, io: ProbeIo): (r: CheckResult)
    ensures c.healthCheck.None? ==> r == CheckResult(HealthHealthy, None)
    ensures c.healthCheck.Some? && c.healthCheck.value.kind !in {CheckHttp, CheckTcp, CheckCommand} ==>
              r == CheckResult(HealthUnknown, Some(UnsupportedType(c.healthCheck.value.kind)))
    ensures c.healthCheck.Some? && c.healthCheck.value.kind == CheckHttp ==>
              r == ProbeHttp(c.healthCheck.value, c.ports, io.http)
    ensures c.healthCheck.Some? && c.healthCheck.value.kind == CheckTcp ==>
              r == ProbeTcp(c.healthCheck.value, c.ports, io.tcpDialOk)
    ensures c.healthCheck.Some? && c.healthCheck.value.kind == CheckCommand ==>
              r == CheckResult(HealthUnknown, Some(CommandNotImplemented))
    ensures r.status == HealthHealthy || r.status == HealthUnhealthy || r.status == HealthUnknown
    ensures r.err.None? <==> r.status == HealthHealthy
  {
    match c.healthCheck
    case None => CheckResult(HealthHealthy, None)
    case Some(hc) =>
      if hc.kind == CheckHttp then ProbeHttp(hc, c.ports, io.http)
      else if hc.kind == CheckTcp then ProbeTcp(hc, c.ports, io.tcpDialOk)
      else if hc.kind == CheckCommand then ProbeCommand()
      else CheckResult(HealthUnknown, Some(UnsupportedType(hc.kind)))
  }

  /** A probe that makes no request does not depend on the network. */
  lemma NoRequestNoIo(c: Container, io1: ProbeIo, io2: ProbeIo)
    requires c.healthCheck.Some? && c.healthCheck.value.kind == CheckHttp
    requires HttpTargetOf(c.healthCheck.value, c.ports).NoRequest?
    ensures Check(c, io1) == Check(c, io2) && Check(c, io1).status == HealthUnknown
  {
  }
}
