// What a checker run reports: the result it returns, or the step whose error it returns.
module Results {

  datatype Verdict =
    | Healthy
    | Unhealthy(code: Code)
    | Skipped
    | Failed(cause: Cause)

  datatype Code =
    // PodStartup
    | PodCreationError | PodCreationTimeout | PodStartupDurationExceeded | RequestFailed | RequestTimeout
    // APIServer
    | CreateError | CreateTimeout | GetError | GetTimeout | DeleteError | DeleteTimeout
    // DNS
    | ServiceNotReady | ServiceTimeout | ServiceError | PodsNotReady | PodTimeout | PodError
    | LocalDnsTimeout | LocalDnsError

  datatype Cause =
    // PodStartup
    | LimitList | ClaimLimit | ClassLimit | CsiCreateFailed | CsiUnsupported | PodList | PodLimit
    | CrdCheck | PoolCreateFailed | NoRunningContainer | NoPullDuration | NoPodIP
    // APIServer
    | MapList | MapLimit
    // DNS
    | ServiceLookup | EndpointList | EndpointQuery

  // What measuring a started pod can come to.
  predicate Measurable(v: Verdict)
  {
    match v
    case Healthy => true
    case Unhealthy(code) => code in {PodStartupDurationExceeded, RequestFailed, RequestTimeout}
    case Failed(cause) => cause in {NoRunningContainer, NoPullDuration, NoPodIP}
    case Skipped => false
  }
}
