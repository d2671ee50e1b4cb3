/**
 * The client library a service embeds to talk to the registry: the bounded
 * retry loop around every HTTP exchange, the per-call mapping from status
 * codes to errors, the cached service id, the heartbeat stop signal, the
 * search query string and the resolvers that fill in a service's identity
 * from overrides, the environment and fallbacks.
 *
 * The network is an input: a transport says, for a request and an attempt
 * number, whether building the request fails, the connection fails, or a
 * response arrives. Sleeping between attempts is counted, not performed.
 */
module Client {
  import opened Wrappers
  import opened Domain
  import opened Strings
  import opened Env
  import opened Options

  // ---------------------------------------------------------------------------
  // Requests, responses and the transport
  // ---------------------------------------------------------------------------

  datatype RequestBody = NoBody | RegisterBody(register: RegisterRequest) | UpdateBody(update: UpdateRequest)

  datatype HttpRequest = HttpRequest(verb: string, url: string, body: RequestBody)

  /**
   * A response body as the client's JSON decoding sees it: not a JSON object
   * at all, or an object together with what decoding it as an error reply,
   * as a service record and as a listing yields (absent fields decode to
   * zero values, so an object decodes as each of the three).
   */
  datatype HttpBody =
    | Unreadable
    | Json(error: string, asService: Service, asList: seq<Service>)

  datatype HttpResponse = HttpResponse(status: int, body: HttpBody)

  /** What happens on one attempt. */
  datatype Attempt =
    | BuildFails(reason: string)    // the request could not be built
    | ConnectFails(reason: string)  // the request was sent and no response came back
    | Responds(response: HttpResponse)

  /** The outcome of every attempt of every request. */
  type Transport = HttpRequest -> nat -> Attempt

  /** The errors a client call can return. */
  datatype ClientError =
    | ServiceNotFound
    | ConnectionFailed(cause: string)  // wraps the last transport error
    | RequestFailed(reason: string)    // building the request failed
    | ServerError(message: string)     // what parseError made of an unexpected status
    | DecodeFailed                     // the success body was not a JSON object

  // ---------------------------------------------------------------------------
  // The retry loop
  // ---------------------------------------------------------------------------

  /** The result of the retry loop, with the number of attempts made and of sleeps taken. */
  datatype Exchange = Exchange(result: Result<HttpResponse, ClientError>, attempts: nat, sleeps: nat)

  /** The retry loop from attempt `i` on, for `retries` retries after the first attempt. */
  function Run(attempt: nat -> Attempt, retries: nat, i: nat): Exchange
    requires i <= retries
    decreases retries - i
  {
    match attempt(i)
    case BuildFails(e) => Exchange(Failure(RequestFailed(e)), i + 1, i)
    case Responds(resp) => Exchange(Success(resp), i + 1, i)
    case ConnectFails(e) =>
      if i < retries then Run(attempt, retries, i + 1)
      else Exchange(Failure(ConnectionFailed(e)), i + 1, i)
  }

  /** At most retries+1 attempts, and one sleep between consecutive attempts, none after the last. */
  lemma {:induction false} RunBounds(attempt: nat -> Attempt, retries: nat, i: nat)
    requires i <= retries
    ensures var x := Run(attempt, retries, i);
      i + 1 <= x.attempts <= retries + 1 && x.sleeps + 1 == x.attempts
    decreases retries - i
  {
    if attempt(i).ConnectFails? && i < retries {
      RunBounds(attempt, retries, i + 1);
    }
  }

  /**
   * The first attempt that gets a response decides the result, whatever its
   * status: it is returned after k+1 attempts and k sleeps.
   */
  lemma {:induction false} RunFirstResponse(attempt: nat -> Attempt, retries: nat, i: nat, k: nat)
    requires i <= k <= retries
    requires forall j :: i <= j < k ==> attempt(j).ConnectFails?
    requires attempt(k).Responds?
    ensures Run(attempt, retries, i) == Exchange(Success(attempt(k).response), k + 1, k)
    decreases k - i
  {
    if i < k {
      RunFirstResponse(attempt, retries, i + 1, k);
    }
  }

  /** When every attempt fails to connect, the last failure comes back wrapped as ConnectionFailed. */
  lemma {:induction false} RunAllFail(attempt: nat -> Attempt, retries: nat, i: nat)
    requires i <= retries
    requires forall j :: i <= j <= retries ==> attempt(j).ConnectFails?
    ensures Run(attempt, retries, i)
         == Exchange(Failure(ConnectionFailed(attempt(retries).reason)), retries + 1, retries)
    decreases retries - i
  {
    if i < retries {
      RunAllFail(attempt, retries, i + 1);
    }
  }

  /** A request that cannot be built is not retried. */
  lemma RunBuildFailure(attempt: nat -> Attempt, retries: nat)
    requires attempt(0).BuildFails?
    ensures Run(attempt, retries, 0) == Exchange(Failure(RequestFailed(attempt(0).reason)), 1, 0)
  {
  }

  /** Two connection failures and then a response: with at least two retries, the response wins. */
  lemma RetryThenSucceed(resp: HttpResponse, retries: nat)
    requires retries >= 2
    ensures var attempt := (j: nat) => if j < 2 then ConnectFails("connection refused") else Responds(resp);
      Run(attempt, retries, 0) == Exchange(Success(resp), 3, 2)
  {
    var attempt := (j: nat) => if j < 2 then ConnectFails("connection refused") else Responds(resp);
    RunFirstResponse(attempt, retries, 0, 2);
  }

  // ---------------------------------------------------------------------------
  // Reading response bodies
  // ---------------------------------------------------------------------------

  const StatusPrefix := "unexpected status code: "

  /**
   * parseError: the body's "error" string when the body decodes and that
   * string is not empty, otherwise "unexpected status code: N".
   */
  function ParseErrorMessage(resp: HttpResponse): string
  {
    if resp.body.Json? && resp.body.error != "" then resp.body.error
    else StatusPrefix + IntToString(resp.status)
  }

  /** The fallback message carries the status, which can be read back from it. */
  lemma ParseErrorFallback(resp: HttpResponse)
    requires resp.body.Unreadable? || resp.body.error == ""
    requires MinInt64 <= resp.status <= MaxInt64
    ensures HasPrefix(ParseErrorMessage(resp), StatusPrefix)
    ensures ParseInt(ParseErrorMessage(resp)[|StatusPrefix|..]) == Some(resp.status)
  {
    var m := ParseErrorMessage(resp);
    assert m[|StatusPrefix|..] == IntToString(resp.status);
    ParseIntToString(resp.status);
  }

  function DecodeService(b: HttpBody): Result<Service, ClientError>
  {
    if b.Json? then Success(b.asService) else Failure(DecodeFailed)
  }

  function DecodeList(b: HttpBody): Result<seq<Service>, ClientError>
  {
    if b.Json? then Success(b.asList) else Failure(DecodeFailed)
  }

  // ---------------------------------------------------------------------------
  // The search query string
  // ---------------------------------------------------------------------------

  const ServicesPath := "/api/v1/services"
  const SearchBase := "/api/v1/services/search"

  /**
   * The non-empty search parameters as "key=value" pairs, in the key order
   * url.Values.Encode uses (name, route, tag). Percent-encoding of values is
   * the `escape` parameter.
   */
  function QueryPairs(route: string, name: string, tag: string, escape: string -> string): seq<string>
  {
    (if name != "" then ["name=" + escape(name)] else [])
    + (if route != "" then ["route=" + escape(route)] else [])
    + (if tag != "" then ["tag=" + escape(tag)] else [])
  }

  /** The search path: the pairs after a "?", or no "?" at all when every parameter is empty. */
  function SearchPath(route: string, name: string, tag: string, escape: string -> string): string
  {
    var pairs := QueryPairs(route, name, tag, escape);
    if |pairs| == 0 then SearchBase else SearchBase + "?" + Join(pairs, '&')
  }

  /** Every pair is "key=" followed by the escaped value of a non-empty parameter. */
  lemma QueryPairKeys(route: string, name: string, tag: string, escape: string -> string)
    ensures var pairs := QueryPairs(route, name, tag, escape);
      forall i :: 0 <= i < |pairs| ==>
        || (pairs[i] == "name=" + escape(name) && name != "")
        || (pairs[i] == "route=" + escape(route) && route != "")
        || (pairs[i] == "tag=" + escape(tag) && tag != "")
  {
  }

  /** A parameter is in the query exactly when it is non-empty. */
  lemma QueryPairsPresence(route: string, name: string, tag: string, escape: string -> string)
    ensures var pairs := QueryPairs(route, name, tag, escape);
      && (("route=" + escape(route)) in pairs <==> route != "")
      && (("name=" + escape(name)) in pairs <==> name != "")
      && (("tag=" + escape(tag)) in pairs <==> tag != "")
  {
    var pairs := QueryPairs(route, name, tag, escape);
    QueryPairKeys(route, name, tag, escape);
    var r, n, t := "route=" + escape(route), "name=" + escape(name), "tag=" + escape(tag);
    assert r[0] == 'r' && n[0] == 'n' && t[0] == 't';
    if r in pairs {
      var i :| 0 <= i < |pairs| && pairs[i] == r;
    }
    if n in pairs {
      var i :| 0 <= i < |pairs| && pairs[i] == n;
    }
    if t in pairs {
      var i :| 0 <= i < |pairs| && pairs[i] == t;
    }
  }

  /**
   * There is a "?" exactly when some parameter is non-empty, and, since
   * escaping removes every "&", splitting the query on "&" gives the pairs back.
   */
  lemma SearchPathShape(route: string, name: string, tag: string, escape: string -> string)
    requires forall s :: '&' !in escape(s)
    ensures var pairs := QueryPairs(route, name, tag, escape);
      && (SearchPath(route, name, tag, escape) == SearchBase <==> route == "" && name == "" && tag == "")
      && (|pairs| > 0 ==>
            SearchPath(route, name, tag, escape) == SearchBase + "?" + Join(pairs, '&')
            && Split(Join(pairs, '&'), '&') == pairs)
  {
    var pairs := QueryPairs(route, name, tag, escape);
    if |pairs| > 0 {
      assert |SearchPath(route, name, tag, escape)| > |SearchBase|;
      QueryPairKeys(route, name, tag, escape);
      forall i | 0 <= i < |pairs| ensures '&' !in pairs[i] {
        assert '&' !in "name=" && '&' !in "route=" && '&' !in "tag=";
      }
      SplitJoin(pairs, '&');
    }
  }

  // ---------------------------------------------------------------------------
  // Identity resolvers: override, then environment, then fallback
  // ---------------------------------------------------------------------------

  /** The service name: override, SERVICE_NAME, the executable's base name, "unknown". */
  function ServiceName(override: string, env: map<string, string>, executable: Option<string>): string
  {
    if override != "" then override
    else if Getenv(env, "SERVICE_NAME") != "" then Getenv(env, "SERVICE_NAME")
    else if executable.Some? then executable.value
    else "unknown"
  }

  /** The host: override, POD_IP, HOSTNAME, the OS host name, "localhost". */
  function HostName(override: string, env: map<string, string>, hostname: Option<string>): string
  {
    if override != "" then override
    else if Getenv(env, "POD_IP") != "" then Getenv(env, "POD_IP")
    else if Getenv(env, "HOSTNAME") != "" then Getenv(env, "HOSTNAME")
    else if hostname.Some? then hostname.value
    else "localhost"
  }

  /** The port: a non-zero override, PORT when it parses as an integer, 8080. */
  function PortNumber(override: int, env: map<string, string>): int
  {
    if override != 0 then override
    else if Getenv(env, "PORT") != "" && ParseInt(Getenv(env, "PORT")).Some? then ParseInt(Getenv(env, "PORT")).value
    else 8080
  }

  function ProtocolName(override: string, env: map<string, string>): string
  {
    if override != "" then override
    else if Getenv(env, "SERVICE_PROTOCOL") != "" then Getenv(env, "SERVICE_PROTOCOL")
    else "http"
  }

  function BasePath(override: string, env: map<string, string>): string
  {
    if override != "" then override else Getenv(env, "SERVICE_BASE_PATH")
  }

  function HealthCheckPath(override: string, env: map<string, string>): string
  {
    if override != "" then override
    else if Getenv(env, "SERVICE_HEALTH_CHECK") != "" then Getenv(env, "SERVICE_HEALTH_CHECK")
    else "/health"
  }

  /** The tags: a non-empty override, else SERVICE_TAGS split on ",", else none. */
  function TagList(override: seq<string>, env: map<string, string>): seq<string>
  {
    if |override| > 0 then override
    else if Getenv(env, "SERVICE_TAGS") != "" then Split(Getenv(env, "SERVICE_TAGS"), ',')
    else []
  }

  /**
   * Each field follows override > environment > fallback, level by level: a
   * given override always wins, then the variables in their order, then the
   * OS query where there is one, then the constant; PORT counts only when it
   * parses. Name, host, protocol and health check are never empty unless an
   * input supplied an empty one.
   */
  lemma IdentityPrecedence(o: RegisterOptions, env: map<string, string>, executable: Option<string>, hostname: Option<string>)
    // name: override, SERVICE_NAME, executable, "unknown"
    ensures o.name != "" ==> ServiceName(o.name, env, executable) == o.name
    ensures o.name == "" && Getenv(env, "SERVICE_NAME") != "" ==> ServiceName(o.name, env, executable) == env["SERVICE_NAME"]
    ensures o.name == "" && Getenv(env, "SERVICE_NAME") == "" && executable.Some? ==>
      ServiceName(o.name, env, executable) == executable.value
    ensures o.name == "" && Getenv(env, "SERVICE_NAME") == "" && executable == None ==>
      ServiceName(o.name, env, executable) == "unknown"
    ensures (executable.Some? ==> executable.value != "") ==> ServiceName(o.name, env, executable) != ""
    // host: override, POD_IP, HOSTNAME, OS host name, "localhost"
    ensures o.host != "" ==> HostName(o.host, env, hostname) == o.host
    ensures o.host == "" && Getenv(env, "POD_IP") != "" ==> HostName(o.host, env, hostname) == env["POD_IP"]
    ensures o.host == "" && Getenv(env, "POD_IP") == "" && Getenv(env, "HOSTNAME") != "" ==>
      HostName(o.host, env, hostname) == env["HOSTNAME"]
    ensures o.host == "" && Getenv(env, "POD_IP") == "" && Getenv(env, "HOSTNAME") == "" && hostname.Some? ==>
      HostName(o.host, env, hostname) == hostname.value
    ensures o.host == "" && Getenv(env, "POD_IP") == "" && Getenv(env, "HOSTNAME") == "" && hostname == None ==>
      HostName(o.host, env, hostname) == "localhost"
    ensures (hostname.Some? ==> hostname.value != "") ==> HostName(o.host, env, hostname) != ""
    // port: non-zero override, parsable PORT, 8080
    ensures o.port != 0 ==> PortNumber(o.port, env) == o.port
    ensures o.port == 0 && ParseInt(Getenv(env, "PORT")).Some? ==> PortNumber(o.port, env) == ParseInt(env["PORT"]).value
    ensures o.port == 0 && ParseInt(Getenv(env, "PORT")).None? ==> PortNumber(o.port, env) == 8080
    // protocol: override, SERVICE_PROTOCOL, "http"
    ensures o.protocol != "" ==> ProtocolName(o.protocol, env) == o.protocol
    ensures o.protocol == "" && Getenv(env, "SERVICE_PROTOCOL") != "" ==>
      ProtocolName(o.protocol, env) == env["SERVICE_PROTOCOL"]
    ensures o.protocol == "" && Getenv(env, "SERVICE_PROTOCOL") == "" ==> ProtocolName(o.protocol, env) == "http"
    ensures ProtocolName(o.protocol, env) != ""
    // base path: override, SERVICE_BASE_PATH (which may be empty)
    ensures o.basePath != "" ==> BasePath(o.basePath, env) == o.basePath
    ensures o.basePath == "" ==> BasePath(o.basePath, env) == Getenv(env, "SERVICE_BASE_PATH")
    // health check: override, SERVICE_HEALTH_CHECK, "/health"
    ensures o.healthCheck != "" ==> HealthCheckPath(o.healthCheck, env) == o.healthCheck
    ensures o.healthCheck == "" && Getenv(env, "SERVICE_HEALTH_CHECK") != "" ==>
      HealthCheckPath(o.healthCheck, env) == env["SERVICE_HEALTH_CHECK"]
    ensures o.healthCheck == "" && Getenv(env, "SERVICE_HEALTH_CHECK") == "" ==> HealthCheckPath(o.healthCheck, env) == "/health"
    ensures HealthCheckPath(o.healthCheck, env) != ""
    // tags: non-empty override, SERVICE_TAGS split on ",", none
    ensures |o.tags| > 0 ==> TagList(o.tags, env) == o.tags
    ensures |o.tags| == 0 && Getenv(env, "SERVICE_TAGS") != "" ==> TagList(o.tags, env) == Split(env["SERVICE_TAGS"], ',')
    ensures |o.tags| == 0 && Getenv(env, "SERVICE_TAGS") == "" ==> TagList(o.tags, env) == []
  {
  }

  /**
   * A zero-valued override given last cancels any earlier one: WithPort(0),
   * WithName("") and WithTags() leave that field to the environment and the
   * fallbacks, and change nothing else in the request AutoRegister sends.
   */
  lemma ZeroOverridesFallBack(o: RegisterOptions, env: map<string, string>, executable: Option<string>,
                              hostname: Option<string>, metadata: map<string, string>)
    ensures IdentityRequest(ApplyRegister(o, WithPort(0)), env, executable, hostname, metadata)
         == IdentityRequest(o, env, executable, hostname, metadata).(port := PortNumber(0, env))
    ensures IdentityRequest(ApplyRegister(o, WithName("")), env, executable, hostname, metadata)
         == IdentityRequest(o, env, executable, hostname, metadata).(name := ServiceName("", env, executable))
    ensures IdentityRequest(ApplyRegister(o, WithTags([])), env, executable, hostname, metadata)
         == IdentityRequest(o, env, executable, hostname, metadata).(tags := TagList([], env))
  {
  }

  /** Tags read from SERVICE_TAGS join back, with ",", into the variable's value, and none contains a comma. */
  lemma TagsFromEnvironment(env: map<string, string>)
    requires Getenv(env, "SERVICE_TAGS") != ""
    ensures Join(TagList([], env), ',') == env["SERVICE_TAGS"]
    ensures forall i :: 0 <= i < |TagList([], env)| ==> ',' !in TagList([], env)[i]
  {
    JoinSplit(env["SERVICE_TAGS"], ',');
    SplitPiecesHaveNoSeparator(env["SERVICE_TAGS"], ',');
  }

  const MetaPrefix := "SERVICE_META_"

  predicate IsMetaVar(v: string) { HasPrefix(v, MetaPrefix) }

  /** The metadata key of a SERVICE_META_ variable: the rest of its name, lower-cased. */
  function MetaKey(v: string): string
    requires IsMetaVar(v)
  {
    Lower(v[|MetaPrefix|..])
  }

  /**
   * `m` holds one key per SERVICE_META_ variable among `vars`, and each of
   * its values is the value of some such variable whose key it is.
   */
  ghost predicate CollectedFrom(m: map<string, string>, env: map<string, string>, vars: set<string>)
    requires vars <= env.Keys
  {
    && (forall v :: v in vars && IsMetaVar(v) ==> MetaKey(v) in m)
    && (forall k :: k in m ==> exists v :: v in vars && IsMetaVar(v) && MetaKey(v) == k && m[k] == env[v])
  }

  /**
   * getMetadata: a non-empty override as it is; otherwise the SERVICE_META_
   * variables collected under their lower-cased suffixes, and nothing (nil)
   * when there are none.
   */
  method Metadata(override: map<string, string>, env: map<string, string>) returns (r: Option<map<string, string>>)
    ensures |override| > 0 ==> r == Some(override)
    ensures |override| == 0 ==> (r.None? <==> forall v :: v in env ==> !IsMetaVar(v))
    ensures |override| == 0 && r.Some? ==> |r.value| > 0 && CollectedFrom(r.value, env, env.Keys)
  {
    if |override| > 0 {
      return Some(override);
    }
    var m: map<string, string> := map[];
    var pending := env.Keys;
    while pending != {}
      invariant pending <= env.Keys
      invariant CollectedFrom(m, env, env.Keys - pending)
      decreases |pending|
    {
      var v :| v in pending;
      if IsMetaVar(v) {
        m := m[MetaKey(v) := env[v]];
      }
      pending := pending - {v};
    }
    assert env.Keys - pending == env.Keys;
    if |m| == 0 {
      return None;
    }
    r := Some(m);
  }

  /** With no two SERVICE_META_ variables sharing a key, each key maps to its own variable's value. */
  lemma CollectedExact(m: map<string, string>, env: map<string, string>, v: string)
    requires CollectedFrom(m, env, env.Keys)
    requires forall a, b :: a in env && b in env && IsMetaVar(a) && IsMetaVar(b) && MetaKey(a) == MetaKey(b) ==> a == b
    requires v in env && IsMetaVar(v)
    ensures MetaKey(v) in m && m[MetaKey(v)] == env[v]
  {
  }

  /** The request AutoRegister sends, from the overrides, the environment and the two OS queries. */
  function IdentityRequest(o: RegisterOptions, env: map<string, string>, executable: Option<string>,
                           hostname: Option<string>, metadata: map<string, string>): RegisterRequest
  {
    RegisterRequest(ServiceName(o.name, env, executable), HostName(o.host, env, hostname),
                    PortNumber(o.port, env), ProtocolName(o.protocol, env), BasePath(o.basePath, env),
                    o.routes, HealthCheckPath(o.healthCheck, env), TagList(o.tags, env), metadata)
  }

  /** SERVICE_NAME=auto-service, PORT=4000, SERVICE_TAGS=api,v1 with no overrides. */
  lemma AutoRegisterExample(executable: Option<string>, hostname: Option<string>)
    ensures var env := map["SERVICE_NAME" := "auto-service", "PORT" := "4000", "SERVICE_TAGS" := "api,v1"];
      var req := IdentityRequest(NoOverrides, env, executable, hostname, map[]);
      req.name == "auto-service" && req.port == 4000 && req.tags == ["api", "v1"]
      && req.protocol == "http" && req.healthCheck == "/health" && req.basePath == ""
  {
    var env := map["SERVICE_NAME" := "auto-service", "PORT" := "4000", "SERVICE_TAGS" := "api,v1"];
    assert Getenv(env, "SERVICE_NAME") == "auto-service";
    assert Getenv(env, "PORT") == "4000";
    assert Getenv(env, "SERVICE_TAGS") == "api,v1";
    assert Getenv(env, "SERVICE_PROTOCOL") == "" && Getenv(env, "SERVICE_HEALTH_CHECK") == "";
    assert Getenv(env, "SERVICE_BASE_PATH") == "";
    ParsesFourThousand();
    SplitsApiV1();
  }

  lemma ParsesFourThousand()
    ensures ParseInt("4000") == Some(4000)
  {
    assert "4000"[..3] == "400" && "400"[..2] == "40" && "40"[..1] == "4" && "4"[..0] == "";
    assert DigitsValue("4000") == 4000;
  }

  lemma SplitsApiV1()
    ensures Split("api,v1", ',') == ["api", "v1"]
  {
    SplitPrefix("api", "v1", ',');
    assert "api" + [','] + "v1" == "api,v1";
    SplitNoSeparator("v1", ',');
  }

  // ---------------------------------------------------------------------------
  // The client
  // ---------------------------------------------------------------------------

  class Client {
    const baseURL: string
    const options: ClientOptions

    /** The id the last successful Register returned, or "". */
    var serviceID: string

    /** The stop signal of the running heartbeat loop, if any, by channel number. */
    var stopCh: Option<nat>
    /** How many stop channels have been made. */
    var made: nat
    /** The channels closed so far. */
    var closed: set<nat>

    /** The current stop channel has been made and is still open; only made channels are closed. */
    ghost predicate Valid()
      reads this
    {
      && (stopCh.Some? ==> stopCh.value < made && stopCh.value !in closed)
      && (forall c :: c in closed ==> c < made)
    }

    /** NewClient: options applied over the defaults in order, and at most one trailing "/" dropped. */
    constructor (baseURL: string, opts: seq<ClientOption>)
      ensures Valid()
      ensures this.baseURL == TrimSuffix(baseURL, "/")
      ensures options == ApplyAll(DefaultOptions, opts)
      ensures serviceID == "" && stopCh == None && made == 0 && closed == {}
    {
      var o := ResolveClientOptions(opts);
      this.baseURL := TrimSuffix(baseURL, "/");
      options := o;
      serviceID := "";
      stopCh := None;
      made := 0;
      closed := {};
    }

    /** The result of the retry loop for a request to `path` on this client. */
    function Sent(transport: Transport, httpMethod: string, path: string, body: RequestBody): Result<HttpResponse, ClientError>
      requires options.retries >= 0
    {
      Run(transport(HttpRequest(httpMethod, baseURL + path, body)), options.retries, 0).result
    }

    /**
     * doRequest: attempts the request up to retries+1 times, returns the
     * first response whatever its status, stops at once if the request
     * cannot be built, and sleeps only between failed attempts.
     */
    method DoRequest(transport: Transport, httpMethod: string, path: string, body: RequestBody)
      returns (r: Result<HttpResponse, ClientError>, attempts: nat, sleeps: nat)
      requires options.retries >= 0
      ensures Exchange(r, attempts, sleeps)
           == Run(transport(HttpRequest(httpMethod, baseURL + path, body)), options.retries, 0)
      ensures attempts <= options.retries + 1 && sleeps + 1 == attempts
    {
      var attempt := transport(HttpRequest(httpMethod, baseURL + path, body));
      RunBounds(attempt, options.retries, 0);
      var lastErr := "";
      attempts, sleeps := 0, 0;
      var i := 0;
      while i <= options.retries
        invariant 0 <= i <= options.retries
        invariant attempts == i && sleeps == i
        invariant Run(attempt, options.retries, i) == Run(attempt, options.retries, 0)
        decreases options.retries - i
      {
        attempts := attempts + 1;
        match attempt(i) {
          case BuildFails(e) =>
            return Failure(RequestFailed(e)), attempts, sleeps;
          case ConnectFails(e) =>
            lastErr := e;
            if i < options.retries {
              sleeps := sleeps + 1;
              i := i + 1;
              continue;
            }
            return Failure(ConnectionFailed(e)), attempts, sleeps;
          case Responds(resp) =>
            return Success(resp), attempts, sleeps;
        }
      }
      r := Failure(ConnectionFailed(lastErr));
    }

    /**
     * POST /api/v1/services/register. Succeeds only on 201, with the decoded
     * record, whose id becomes the cached service id; any other status goes
     * through parseError and leaves the cache alone.
     */
    method Register(req: RegisterRequest, transport: Transport) returns (r: Result<Service, ClientError>)
      requires options.retries >= 0
      modifies this`serviceID
      ensures var x := Sent(transport, "POST", ServicesPath + "/register", RegisterBody(req));
        && (x.Failure? ==> r == Failure(x.error))
        && (x.Success? && x.value.status == 201 ==> r == DecodeService(x.value.body))
        && (x.Success? && x.value.status != 201 ==> r == Failure(ServerError(ParseErrorMessage(x.value))))
      ensures serviceID == if r.Success? then r.value.id else old(serviceID)
    {
      var resp, _, _ := DoRequest(transport, "POST", ServicesPath + "/register", RegisterBody(req));
      if resp.Failure? {
        return Failure(resp.error);
      }
      if resp.value.status != 201 {
        return Failure(ServerError(ParseErrorMessage(resp.value)));
      }
      var service := DecodeService(resp.value.body);
      if service.Failure? {
        return service;
      }
      serviceID := service.value.id;
      r := service;
    }

    /** AutoRegister: the overrides in order, the identity resolvers, then Register. */
    method AutoRegister(opts: seq<RegisterOption>, env: map<string, string>, executable: Option<string>,
                        hostname: Option<string>, transport: Transport)
      returns (sent: RegisterRequest, r: Result<Service, ClientError>)
      requires options.retries >= 0
      modifies this`serviceID
      ensures var o := ApplyAllRegister(NoOverrides, opts);
        sent == IdentityRequest(o, env, executable, hostname, sent.metadata)
        && (|o.metadata| > 0 ==> sent.metadata == o.metadata)
        && (|o.metadata| == 0 ==> CollectedFrom(sent.metadata, env, env.Keys))
      ensures var x := Sent(transport, "POST", ServicesPath + "/register", RegisterBody(sent));
        && (x.Failure? ==> r == Failure(x.error))
        && (x.Success? && x.value.status == 201 ==> r == DecodeService(x.value.body))
        && (x.Success? && x.value.status != 201 ==> r == Failure(ServerError(ParseErrorMessage(x.value))))
      ensures serviceID == if r.Success? then r.value.id else old(serviceID)
    {
      var o := ResolveRegisterOptions(opts);
      var metadata := Metadata(o.metadata, env);
      var m := if metadata.Some? then metadata.value else map[];
      sent := IdentityRequest(o, env, executable, hostname, m);
      r := Register(sent, transport);
    }

    /** GET /api/v1/services/{id}: 404 is ServiceNotFound, 200 the decoded record, anything else parseError. */
    method Get(id: string, transport: Transport) returns (r: Result<Service, ClientError>)
      requires options.retries >= 0
      ensures var x := Sent(transport, "GET", ServicesPath + "/" + id, NoBody);
        && (x.Failure? ==> r == Failure(x.error))
        && (x.Success? && x.value.status == 404 ==> r == Failure(ServiceNotFound))
        && (x.Success? && x.value.status == 200 ==> r == DecodeService(x.value.body))
        && (x.Success? && x.value.status != 200 && x.value.status != 404 ==>
              r == Failure(ServerError(ParseErrorMessage(x.value))))
    {
      var resp, _, _ := DoRequest(transport, "GET", ServicesPath + "/" + id, NoBody);
      if resp.Failure? {
        return Failure(resp.error);
      }
      if resp.value.status == 404 {
        return Failure(ServiceNotFound);
      }
      if resp.value.status != 200 {
        return Failure(ServerError(ParseErrorMessage(resp.value)));
      }
      r := DecodeService(resp.value.body);
    }

    /** GET /api/v1/services/list: 200 gives the decoded listing, anything else (404 too) parseError. */
    method List(transport: Transport) returns (r: Result<seq<Service>, ClientError>)
      requires options.retries >= 0
      ensures var x := Sent(transport, "GET", ServicesPath + "/list", NoBody);
        && (x.Failure? ==> r == Failure(x.error))
        && (x.Success? && x.value.status == 200 ==> r == DecodeList(x.value.body))
        && (x.Success? && x.value.status != 200 ==> r == Failure(ServerError(ParseErrorMessage(x.value))))
    {
      var resp, _, _ := DoRequest(transport, "GET", ServicesPath + "/list", NoBody);
      if resp.Failure? {
        return Failure(resp.error);
      }
      if resp.value.status != 200 {
        return Failure(ServerError(ParseErrorMessage(resp.value)));
      }
      r := DecodeList(resp.value.body);
    }

    /** GET /api/v1/services/search with only the non-empty parameters; status handling as List. */
    method Search(route: string, name: string, tag: string, escape: string -> string, transport: Transport)
      returns (r: Result<seq<Service>, ClientError>)
      requires options.retries >= 0
      ensures var x := Sent(transport, "GET", SearchPath(route, name, tag, escape), NoBody);
        && (x.Failure? ==> r == Failure(x.error))
        && (x.Success? && x.value.status == 200 ==> r == DecodeList(x.value.body))
        && (x.Success? && x.value.status != 200 ==> r == Failure(ServerError(ParseErrorMessage(x.value))))
    {
      var pairs: seq<string> := [];
      if name != "" {
        pairs := pairs + ["name=" + escape(name)];
      }
      if route != "" {
        pairs := pairs + ["route=" + escape(route)];
      }
      if tag != "" {
        pairs := pairs + ["tag=" + escape(tag)];
      }
      var path := SearchBase;
      if |pairs| > 0 {
        path := path + "?" + Join(pairs, '&');
      }
      assert pairs == QueryPairs(route, name, tag, escape);
      var resp, _, _ := DoRequest(transport, "GET", path, NoBody);
      if resp.Failure? {
        return Failure(resp.error);
      }
      if resp.value.status != 200 {
        return Failure(ServerError(ParseErrorMessage(resp.value)));
      }
      r := DecodeList(resp.value.body);
    }

    /** PUT /api/v1/services/{id}/update: 404 is ServiceNotFound, 200 the decoded record, anything else parseError. */
    method Update(id: string, req: UpdateRequest, transport: Transport) returns (r: Result<Service, ClientError>)
      requires options.retries >= 0
      ensures var x := Sent(transport, "PUT", ServicesPath + "/" + id + "/update", UpdateBody(req));
        && (x.Failure? ==> r == Failure(x.error))
        && (x.Success? && x.value.status == 404 ==> r == Failure(ServiceNotFound))
        && (x.Success? && x.value.status == 200 ==> r == DecodeService(x.value.body))
        && (x.Success? && x.value.status != 200 && x.value.status != 404 ==>
              r == Failure(ServerError(ParseErrorMessage(x.value))))
    {
      var resp, _, _ := DoRequest(transport, "PUT", ServicesPath + "/" + id + "/update", UpdateBody(req));
      if resp.Failure? {
        return Failure(resp.error);
      }
      if resp.value.status == 404 {
        return Failure(ServiceNotFound);
      }
      if resp.value.status != 200 {
        return Failure(ServerError(ParseErrorMessage(resp.value)));
      }
      r := DecodeService(resp.value.body);
    }

    /** DELETE /api/v1/services/{id}/unregister: no error on 200, ServiceNotFound on 404, else parseError. */
    method Unregister(id: string, transport: Transport) returns (err: Option<ClientError>)
      requires options.retries >= 0
      ensures var x := Sent(transport, "DELETE", ServicesPath + "/" + id + "/unregister", NoBody);
        && (x.Failure? ==> err == Some(x.error))
        && (x.Success? && x.value.status == 404 ==> err == Some(ServiceNotFound))
        && (x.Success? && x.value.status == 200 ==> err == None)
        && (x.Success? && x.value.status != 200 && x.value.status != 404 ==>
              err == Some(ServerError(ParseErrorMessage(x.value))))
    {
      var resp, _, _ := DoRequest(transport, "DELETE", ServicesPath + "/" + id + "/unregister", NoBody);
      if resp.Failure? {
        return Some(resp.error);
      }
      if resp.value.status == 404 {
        return Some(ServiceNotFound);
      }
      if resp.value.status != 200 {
        return Some(ServerError(ParseErrorMessage(resp.value)));
      }
      err := None;
    }

    /** PUT /api/v1/services/{id}/heartbeat: no error on 200, ServiceNotFound on 404, else parseError. */
    method Heartbeat(id: string, transport: Transport) returns (err: Option<ClientError>)
      requires options.retries >= 0
      ensures var x := Sent(transport, "PUT", ServicesPath + "/" + id + "/heartbeat", NoBody);
        && (x.Failure? ==> err == Some(x.error))
        && (x.Success? && x.value.status == 404 ==> err == Some(ServiceNotFound))
        && (x.Success? && x.value.status == 200 ==> err == None)
        && (x.Success? && x.value.status != 200 && x.value.status != 404 ==>
              err == Some(ServerError(ParseErrorMessage(x.value))))
    {
      var resp, _, _ := DoRequest(transport, "PUT", ServicesPath + "/" + id + "/heartbeat", NoBody);
      if resp.Failure? {
        return Some(resp.error);
      }
      if resp.value.status == 404 {
        return Some(ServiceNotFound);
      }
      if resp.value.status != 200 {
        return Some(ServerError(ParseErrorMessage(resp.value)));
      }
      err := None;
    }

    /** Closes a stop channel; closing one twice would panic, so it must still be open. */
    method Close(ch: nat)
      requires ch !in closed
      modifies this`closed
      ensures closed == old(closed) + {ch}
    {
      closed := closed + {ch};
    }

    /** Closes the running loop's stop channel, if any, and installs a fresh open one. */
    method StartHeartbeat()
      requires Valid()
      modifies this`stopCh, this`made, this`closed
      ensures Valid()
      ensures stopCh == Some(old(made)) && made == old(made) + 1
      ensures closed == old(closed) + (if old(stopCh).Some? then {old(stopCh).value} else {})
    {
      if stopCh.Some? {
        Close(stopCh.value);
      }
      stopCh := Some(made);
      made := made + 1;
    }

    /** Closes and clears the stop channel; with no loop running it does nothing. */
    method StopHeartbeat()
      requires Valid()
      modifies this`stopCh, this`closed
      ensures Valid()
      ensures stopCh == None
      ensures closed == old(closed) + (if old(stopCh).Some? then {old(stopCh).value} else {})
    {
      if stopCh.Some? {
        Close(stopCh.value);
        stopCh := None;
      }
    }

    /** The id cached by the last successful Register. */
    method GetServiceID() returns (id: string)
      ensures id == serviceID
    {
      id := serviceID;
    }
  }

  /**
   * Start, start again, stop and stop again: each channel is closed exactly
   * once, the second stop is a no-op, and no loop is left running.
   */
  method HeartbeatRestart(baseURL: string) returns (running: Option<nat>, closedChannels: set<nat>)
    ensures running == None && closedChannels == {0, 1}
  {
    var c := new Client(baseURL, []);
    c.StartHeartbeat();
    c.StartHeartbeat();
    c.StopHeartbeat();
    c.StopHeartbeat();
    running, closedChannels := c.stopCh, c.closed;
  }

  /**
   * A Register answered with 201 caches the returned id; a later Register
   * answered with any other status keeps it.
   */
  method RegisterCachesId(req: RegisterRequest, created: Service, refused: HttpResponse)
    returns (first: Result<Service, ClientError>, second: Result<Service, ClientError>, cached: string)
    requires refused.status != 201
    ensures first == Success(created) && second.Failure? && cached == created.id
  {
    var c := new Client("http://localhost:8080", []);
    var ok: Transport := (r: HttpRequest) => (i: nat) => Responds(HttpResponse(201, Json("", created, [])));
    first := c.Register(req, ok);
    var no: Transport := (r: HttpRequest) => (i: nat) => Responds(refused);
    second := c.Register(req, no);
    cached := c.GetServiceID();
  }

  /** NewClient keeps a base URL without a trailing "/" and drops exactly one otherwise. */
  lemma BaseUrlTrim(url: string)
    ensures !(|url| > 0 && url[|url| - 1] == '/') ==> TrimSuffix(url, "/") == url
    ensures TrimSuffix("http://localhost:8080", "/") == "http://localhost:8080"
    ensures TrimSuffix(url + "/", "/") == url
    ensures TrimSuffix(url + "//", "/") == url + "/"
  {
  }
}
