/**
 * The registry's data shapes: the stored service record, its routes and
 * status, and the bodies of the register and update requests together with
 * the validation rules the request binder enforces on them.
 */
module Domain {
  import opened Wrappers

  /** Timestamps are nanoseconds since the epoch. */
  type Time = int

  /** A service is either healthy or unhealthy; nothing else is representable. */
  datatype ServiceStatus = Healthy | Unhealthy

  /** The wire spelling of a status. */
  function StatusText(s: ServiceStatus): string
  {
    match s
    case Healthy => "healthy"
    case Unhealthy => "unhealthy"
  }

  /** Reads a wire spelling back; any other text is not a status. */
  function ParseStatus(t: string): Option<ServiceStatus>
  {
    if t == "healthy" then Some(Healthy)
    else if t == "unhealthy" then Some(Unhealthy)
    else None
  }

  /** The two spellings are exactly the two statuses, in both directions. */
  lemma StatusTextRoundTrip(s: ServiceStatus, t: string)
    ensures ParseStatus(StatusText(s)) == Some(s)
    ensures ParseStatus(t) == Some(s) <==> t == StatusText(s)
  {
  }

  /** A route is a path and the HTTP methods served on it; nothing ties the two together. */
  datatype Route = Route(path: string, methods: seq<string>)

  /** The record the registry stores for one registered service. */
  datatype Service = Service(
    id: string,
    name: string,
    host: string,
    port: int,
    protocol: string,
    basePath: string,
    routes: seq<Route>,
    healthCheck: string,
    tags: seq<string>,
    metadata: map<string, string>,
    status: ServiceStatus,
    lastHeartbeat: Time,
    registeredAt: Time)

  /** The body of a register request. */
  datatype RegisterRequest = RegisterRequest(
    name: string,
    host: string,
    port: int,
    protocol: string,
    basePath: string,
    routes: seq<Route>,
    healthCheck: string,
    tags: seq<string>,
    metadata: map<string, string>)

  /**
   * The body of an update request. It has no id, name, status or timestamp
   * field, so an update cannot alter those. A collection that was left out of
   * the JSON is None (Go's nil), which is told apart from an empty one.
   */
  datatype UpdateRequest = UpdateRequest(
    host: string,
    port: int,
    protocol: string,
    basePath: string,
    routes: Option<seq<Route>>,
    healthCheck: string,
    tags: Option<seq<string>>,
    metadata: Option<map<string, string>>)

  /** An update that supplies no field at all. */
  const EmptyUpdate := UpdateRequest("", 0, "", "", None, "", None, None)

  predicate ValidPort(p: int) { 1 <= p <= 65535 }

  /** `required` on name and host, `required,min=1,max=65535` on port. */
  predicate ValidRegisterRequest(r: RegisterRequest)
  {
    r.name != "" && r.host != "" && ValidPort(r.port)
  }

  /** `omitempty,min=1,max=65535` on port: zero means absent. */
  predicate ValidUpdateRequest(r: UpdateRequest)
  {
    r.port == 0 || ValidPort(r.port)
  }

  /** A request body as the JSON decoder sees it: unreadable, or decoded into a value. */
  datatype Payload<T> = Malformed | Decoded(value: T)

  /** Decoding followed by validation, as the request binder does it. */
  function BindRegister(p: Payload<RegisterRequest>): (r: Option<RegisterRequest>)
    ensures r.Some? <==> p.Decoded? && p.value.name != "" && p.value.host != "" && 1 <= p.value.port <= 65535
    ensures r.Some? ==> r.value == p.value
  {
    if p.Decoded? && ValidRegisterRequest(p.value) then Some(p.value) else None
  }

  function BindUpdate(p: Payload<UpdateRequest>): (r: Option<UpdateRequest>)
    ensures r.Some? <==> p.Decoded? && (p.value.port == 0 || 1 <= p.value.port <= 65535)
    ensures r.Some? ==> r.value == p.value
  {
    if p.Decoded? && ValidUpdateRequest(p.value) then Some(p.value) else None
  }

  /** A body that names only the service (no host, no port) is refused. */
  lemma NameOnlyRegisterIsRefused(name: string)
    ensures BindRegister(Decoded(RegisterRequest(name, "", 0, "", "", [], "", [], map[]))) == None
  {
  }
}
