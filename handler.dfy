/**
 * The registry's request semantics: register, list, get, update, unregister,
 * heartbeat and search, each taking the store, the decoded request, the
 * current time and (for register) a fresh id, and producing a status code, a
 * response body and the new store. HTTP routing, JSON binding and logging are
 * outside the model; a request body arrives already decoded (or Malformed).
 */
module Handler {
  import opened Wrappers
  import opened Domain
  import opened Repository
  import opened Strings

  // ---------------------------------------------------------------------------
  // Responses
  // ---------------------------------------------------------------------------

  const StatusOK := 200
  const StatusCreated := 201
  const StatusBadRequest := 400
  const StatusNotFound := 404
  const StatusInternalServerError := 500

  const NotFoundMessage := "service not found"
  const UnregisteredMessage := "service unregistered successfully"
  const HeartbeatMessage := "heartbeat received"

  /** The JSON bodies the handlers reply with. */
  datatype Body =
    | Record(service: Service)
    | Listing(services: seq<Service>, count: int)
    | Ack(message: string)
    | HeartbeatAck(message: string, lastHeartbeat: Time)
    | Error(error: string)
    | BindError  // the binder's own message is not modelled

  datatype Response = Response(status: int, body: Body)

  // ---------------------------------------------------------------------------
  // Register: defaulting
  // ---------------------------------------------------------------------------

  const DefaultProtocol := "http"
  const DefaultHealthCheck := "/health"

  function OrDefault(v: string, default: string): string
  {
    if v == "" then default else v
  }

  /** The record Register creates for a bound request, a fresh id and the current time. */
  function NewService(req: RegisterRequest, id: string, now: Time): Service
  {
    Service(id, req.name, req.host, req.port,
            OrDefault(req.protocol, DefaultProtocol), req.basePath, req.routes,
            OrDefault(req.healthCheck, DefaultHealthCheck), req.tags, req.metadata,
            Healthy, now, now)
  }

  /** The request with the two defaults filled in. */
  function WithDefaults(req: RegisterRequest): RegisterRequest
  {
    req.(protocol := OrDefault(req.protocol, DefaultProtocol),
         healthCheck := OrDefault(req.healthCheck, DefaultHealthCheck))
  }

  /**
   * A new record is healthy with both timestamps at `now`; a protocol or
   * health check the request supplied is kept, an empty one becomes the
   * default, and so neither is ever empty; every other field is the
   * request's own.
   */
  lemma NewServiceFields(req: RegisterRequest, id: string, now: Time)
    ensures var s := NewService(req, id, now);
      && s.id == id && s.status == Healthy && s.lastHeartbeat == now && s.registeredAt == now
      && (req.protocol != "" ==> s.protocol == req.protocol)
      && (req.protocol == "" ==> s.protocol == "http")
      && (req.healthCheck != "" ==> s.healthCheck == req.healthCheck)
      && (req.healthCheck == "" ==> s.healthCheck == "/health")
      && s.protocol != "" && s.healthCheck != ""
      && s.name == req.name && s.host == req.host && s.port == req.port && s.basePath == req.basePath
      && s.routes == req.routes && s.tags == req.tags && s.metadata == req.metadata
  {
  }

  /** Filling in the defaults beforehand makes no difference: defaulting is idempotent. */
  lemma DefaultsIdempotent(req: RegisterRequest, id: string, now: Time)
    ensures NewService(WithDefaults(req), id, now) == NewService(req, id, now)
    ensures WithDefaults(WithDefaults(req)) == WithDefaults(req)
  {
  }

  // ---------------------------------------------------------------------------
  // Update: merging, where a zero value means "not provided"
  // ---------------------------------------------------------------------------

  function MergeString(old_: string, new_: string): string { if new_ != "" then new_ else old_ }

  function MergeOption<T>(old_: T, new_: Option<T>): T { if new_.Some? then new_.value else old_ }

  /** The record after an update request has been merged into `s`. */
  function Merge(s: Service, u: UpdateRequest): Service
  {
    s.(host := MergeString(s.host, u.host),
       port := if u.port != 0 then u.port else s.port,
       protocol := MergeString(s.protocol, u.protocol),
       basePath := MergeString(s.basePath, u.basePath),
       routes := MergeOption(s.routes, u.routes),
       healthCheck := MergeString(s.healthCheck, u.healthCheck),
       tags := MergeOption(s.tags, u.tags),
       metadata := MergeOption(s.metadata, u.metadata))
  }

  /**
   * Merging never touches the identity, the status or the timestamps; a
   * supplied (non-zero, non-nil) field overwrites, an absent one keeps the
   * stored value.
   */
  lemma MergeRules(s: Service, u: UpdateRequest)
    ensures var r := Merge(s, u);
      && r.id == s.id && r.name == s.name && r.status == s.status
      && r.lastHeartbeat == s.lastHeartbeat && r.registeredAt == s.registeredAt
      && r.host == (if u.host == "" then s.host else u.host)
      && r.port == (if u.port == 0 then s.port else u.port)
      && r.protocol == (if u.protocol == "" then s.protocol else u.protocol)
      && r.basePath == (if u.basePath == "" then s.basePath else u.basePath)
      && r.healthCheck == (if u.healthCheck == "" then s.healthCheck else u.healthCheck)
      && r.routes == (if u.routes == None then s.routes else u.routes.value)
      && r.tags == (if u.tags == None then s.tags else u.tags.value)
      && r.metadata == (if u.metadata == None then s.metadata else u.metadata.value)
  {
  }

  /** An update that supplies nothing leaves the record as it was. */
  lemma MergeEmptyIsIdentity(s: Service)
    ensures Merge(s, EmptyUpdate) == s
  {
  }

  /** An update of the port alone changes the port and nothing else. */
  lemma MergePortOnly(s: Service, port: int)
    requires port != 0
    ensures Merge(s, EmptyUpdate.(port := port)) == s.(port := port)
  {
  }

  /** Applying the same update twice is the same as applying it once. */
  lemma MergeIdempotent(s: Service, u: UpdateRequest)
    ensures Merge(Merge(s, u), u) == Merge(s, u)
  {
  }

  /** A field that is set cannot be cleared by an update: zero values mean "not provided". */
  lemma MergeCannotClear(s: Service, u: UpdateRequest)
    ensures s.host != "" ==> Merge(s, u).host != ""
    ensures s.port != 0 ==> Merge(s, u).port != 0
    ensures s.protocol != "" ==> Merge(s, u).protocol != ""
    ensures s.healthCheck != "" ==> Merge(s, u).healthCheck != ""
  {
  }

  /** The update whose supplied fields are those of `second`, else those of `first`. */
  function Combine(first: UpdateRequest, second: UpdateRequest): UpdateRequest
  {
    UpdateRequest(
      MergeString(first.host, second.host),
      if second.port != 0 then second.port else first.port,
      MergeString(first.protocol, second.protocol),
      MergeString(first.basePath, second.basePath),
      if second.routes.Some? then second.routes else first.routes,
      MergeString(first.healthCheck, second.healthCheck),
      if second.tags.Some? then second.tags else first.tags,
      if second.metadata.Some? then second.metadata else first.metadata)
  }

  /** Two updates in a row act as one combined update, the later one winning field by field. */
  lemma MergeSequential(s: Service, first: UpdateRequest, second: UpdateRequest)
    ensures Merge(Merge(s, first), second) == Merge(s, Combine(first, second))
  {
  }

  // ---------------------------------------------------------------------------
  // Heartbeat
  // ---------------------------------------------------------------------------

  /** The record after a heartbeat at `now`. */
  function Touch(s: Service, now: Time): Service
  {
    s.(lastHeartbeat := now, status := Healthy)
  }

  /**
   * A heartbeat changes only the heartbeat time and the status: the status
   * becomes healthy whatever it was, and the heartbeat time does not go
   * back as long as the clock does not.
   */
  lemma TouchRules(s: Service, now: Time)
    ensures var r := Touch(s, now);
      && r.status == Healthy && r.lastHeartbeat == now
      && r.(lastHeartbeat := s.lastHeartbeat, status := s.status) == s
      && (s.lastHeartbeat <= now ==> s.lastHeartbeat <= r.lastHeartbeat)
  {
  }

  /** Heartbeats and updates touch disjoint fields, so they commute. */
  lemma TouchMergeCommute(s: Service, u: UpdateRequest, now: Time)
    ensures Touch(Merge(s, u), now) == Merge(Touch(s, now), u)
  {
  }

  // ---------------------------------------------------------------------------
  // Search filters
  // ---------------------------------------------------------------------------

  /** The three optional search filters; an empty one is not applied. */
  datatype SearchQuery = SearchQuery(route: string, name: string, tag: string)

  const NoFilter := SearchQuery("", "", "")

  /** The route test as written: a prefix match or an exact match. */
  predicate RouteHit(path: string, query: string)
  {
    HasPrefix(path, query) || path == query
  }

  /** The exact-match alternative adds nothing: an equal path is also a prefix match. */
  lemma RouteHitIsPrefix(path: string, query: string)
    ensures RouteHit(path, query) <==> query <= path
  {
  }

  predicate RouteMatches(routes: seq<Route>, query: string)
  {
    exists i :: 0 <= i < |routes| && RouteHit(routes[i].path, query)
  }

  /** Case-insensitive substring test on the name. */
  predicate NameMatches(name: string, query: string)
  {
    Contains(Lower(name), Lower(query))
  }

  predicate Matches(s: Service, q: SearchQuery)
  {
    && (q.route != "" ==> RouteMatches(s.routes, q.route))
    && (q.name != "" ==> NameMatches(s.name, q.name))
    && (q.tag != "" ==> q.tag in s.tags)
  }

  /** Lower-casing either side first changes nothing: the name match ignores case on both sides. */
  lemma NameMatchIgnoresCase(name: string, query: string)
    ensures NameMatches(Lower(name), query) == NameMatches(name, query)
    ensures NameMatches(name, Lower(query)) == NameMatches(name, query)
  {
    LowerIdempotent(name);
    LowerIdempotent(query);
  }

  /**
   * The `name != ""` guard before the name test is redundant: every name
   * matches the empty query, so the test can be applied unconditionally.
   */
  lemma EmptyNameQueryMatchesAll(s: Service, q: SearchQuery)
    ensures NameMatches(s.name, "")
    ensures Matches(s, q) <==>
      && (q.route != "" ==> RouteMatches(s.routes, q.route))
      && NameMatches(s.name, q.name)
      && (q.tag != "" ==> q.tag in s.tags)
  {
    assert Lower("") == "";
    EmptyIsContained(Lower(s.name));
  }

  /** A name query longer than a service's name never selects that service. */
  lemma LongNameQueryNeverMatches(s: Service, q: SearchQuery)
    requires |q.name| > |s.name|
    ensures !Matches(s, q)
  {
    if NameMatches(s.name, q.name) {
      ContainedIsShorter(Lower(s.name), Lower(q.name));
    }
  }

  /** The records of `ss` that match `q`, in the order of `ss`. */
  function Filtered(ss: seq<Service>, q: SearchQuery): seq<Service>
  {
    if |ss| == 0 then []
    else
      var last := ss[|ss| - 1];
      Filtered(ss[..|ss| - 1], q) + (if Matches(last, q) then [last] else [])
  }

  /** Everything the filter keeps comes from the input and matches every non-empty filter. */
  lemma {:induction false} FilteredSound(ss: seq<Service>, q: SearchQuery)
    ensures |Filtered(ss, q)| <= |ss|
    ensures forall s :: s in Filtered(ss, q) ==> s in ss && Matches(s, q)
  {
    if |ss| > 0 {
      FilteredSound(ss[..|ss| - 1], q);
    }
  }

  /** Everything in the input that matches is kept. */
  lemma {:induction false} FilteredComplete(ss: seq<Service>, q: SearchQuery)
    ensures forall s :: s in ss && Matches(s, q) ==> s in Filtered(ss, q)
  {
    if |ss| > 0 {
      FilteredComplete(ss[..|ss| - 1], q);
      assert ss == ss[..|ss| - 1] + [ss[|ss| - 1]];
    }
  }

  /** With all three filters empty the search returns its input unchanged. */
  lemma {:induction false} FilteredNoFilter(ss: seq<Service>)
    ensures Filtered(ss, NoFilter) == ss
  {
    if |ss| > 0 {
      FilteredNoFilter(ss[..|ss| - 1]);
      assert ss == ss[..|ss| - 1] + [ss[|ss| - 1]];
    }
  }

  /** The filter distributes over concatenation, which is what keeps the input's order. */
  lemma {:induction false} FilteredAppend(ss: seq<Service>, ts: seq<Service>, q: SearchQuery)
    ensures Filtered(ss + ts, q) == Filtered(ss, q) + Filtered(ts, q)
  {
    if |ts| > 0 {
      var ts' := ts[..|ts| - 1];
      FilteredAppend(ss, ts', q);
      assert (ss + ts)[..|ss + ts| - 1] == ss + ts';
    } else {
      assert ss + ts == ss;
    }
  }

  /** "test" finds "Test-Service" whatever the case, and does not find "other". */
  lemma NameMatchExamples()
    ensures NameMatches("Test-Service", "test")
    ensures !NameMatches("other", "test")
  {
    assert Lower("test") == "test";
    assert Lower("Test-Service")[0..] == "test-service";
    assert HasPrefix(Lower("Test-Service")[0..], Lower("test"));
    var o := Lower("other");
    assert o == "other";
    forall i | 0 <= i <= |o| - |Lower("test")| ensures !HasPrefix(o[i..], Lower("test")) {
      if i == 0 {
        assert o[i..][0] == 'o';
      } else {
        assert o[i..][1] == 'h';
      }
    }
  }

  /** Whether some route's path starts with (or equals) `query`; the loop stops at the first hit. */
  method AnyRouteMatches(routes: seq<Route>, query: string) returns (found: bool)
    ensures found <==> RouteMatches(routes, query)
  {
    found := false;
    var i := 0;
    while i < |routes|
      invariant 0 <= i <= |routes|
      invariant forall j :: 0 <= j < i ==> !RouteHit(routes[j].path, query)
    {
      if HasPrefix(routes[i].path, query) || routes[i].path == query {
        found := true;
        break;
      }
      i := i + 1;
    }
  }

  /** Whether `tag` is one of `tags`, compared exactly. */
  method HasTag(tags: seq<string>, tag: string) returns (found: bool)
    ensures found <==> tag in tags
  {
    found := false;
    var i := 0;
    while i < |tags|
      invariant 0 <= i <= |tags|
      invariant forall j :: 0 <= j < i ==> tags[j] != tag
    {
      if tags[i] == tag {
        found := true;
        break;
      }
      i := i + 1;
    }
  }

  /** The search loop: skips a record as soon as one non-empty filter rejects it. */
  method FilterServices(services: seq<Service>, q: SearchQuery) returns (results: seq<Service>)
    ensures results == Filtered(services, q)
  {
    results := [];
    var i := 0;
    while i < |services|
      invariant 0 <= i <= |services|
      invariant results == Filtered(services[..i], q)
    {
      var svc := services[i];
      assert services[..i + 1][..i] == services[..i];
      i := i + 1;
      if q.route != "" {
        var found := AnyRouteMatches(svc.routes, q.route);
        if !found {
          continue;
        }
      }
      if q.name != "" && !Contains(Lower(svc.name), Lower(q.name)) {
        continue;
      }
      if q.tag != "" {
        var found := HasTag(svc.tags, q.tag);
        if !found {
          continue;
        }
      }
      results := results + [svc];
    }
    assert services[..i] == services;
  }

  // ---------------------------------------------------------------------------
  // The handlers
  // ---------------------------------------------------------------------------

  class ServiceHandler {
    const repo: MemoryRepository

    constructor (repo: MemoryRepository)
      ensures this.repo == repo
    {
      this.repo := repo;
    }

    /**
     * Binds and validates the request (400 on failure), builds the record
     * with the fresh id and the current time, and stores it: 201 with the
     * record, or 500 if the store refuses the id.
     */
    method Register(body: Payload<RegisterRequest>, id: string, now: Time) returns (resp: Response)
      requires repo.Valid()
      modifies repo
      ensures repo.Valid()
      ensures BindRegister(body).None? ==>
        resp == Response(StatusBadRequest, BindError) && repo.services == old(repo.services)
      ensures BindRegister(body).Some? && id !in old(repo.services) ==>
        var s := NewService(body.value, id, now);
        resp == Response(StatusCreated, Record(s)) && repo.services == old(repo.services)[id := s]
      ensures BindRegister(body).Some? && id in old(repo.services) ==>
        resp == Response(StatusInternalServerError, Error("service already exists"))
        && repo.services == old(repo.services)
    {
      var bound := BindRegister(body);
      if bound.None? {
        return Response(StatusBadRequest, BindError);
      }
      var req := bound.value;
      var protocol := req.protocol;
      if protocol == "" {
        protocol := DefaultProtocol;
      }
      var healthCheck := req.healthCheck;
      if healthCheck == "" {
        healthCheck := DefaultHealthCheck;
      }
      var service := Service(id, req.name, req.host, req.port, protocol, req.basePath, req.routes,
                             healthCheck, req.tags, req.metadata, Healthy, now, now);
      var err := repo.Create(service);
      match err {
        case Some(e) => resp := Response(StatusInternalServerError, Error(ErrorMessage(e)));
        case None => resp := Response(StatusCreated, Record(service));
      }
    }

    /** Every stored record, with their number. */
    method List() returns (resp: Response)
      requires repo.Valid()
      ensures resp.status == StatusOK && resp.body.Listing?
      ensures resp.body.count == |resp.body.services| == |repo.services|
      ensures forall s :: s in resp.body.services ==> s.id in repo.services && repo.services[s.id] == s
      ensures forall id :: id in repo.services ==> repo.services[id] in resp.body.services
    {
      var services := repo.GetAll();
      AllListed(repo.services, services);
      resp := Response(StatusOK, Listing(services, |services|));
    }

    /** The record stored under `id` (200), or 404. */
    method Get(id: string) returns (resp: Response)
      ensures id in repo.services ==> resp == Response(StatusOK, Record(repo.services[id]))
      ensures id !in repo.services ==> resp == Response(StatusNotFound, Error(NotFoundMessage))
    {
      var r := repo.GetByID(id);
      if r.Failure? {
        return Response(StatusNotFound, Error(NotFoundMessage));
      }
      resp := Response(StatusOK, Record(r.value));
    }

    /**
     * Looks the id up first (404 whatever the body), then binds the body
     * (400, store unchanged), then merges the supplied fields into the
     * stored record and writes it back (200 with the merged record).
     */
    method Update(id: string, body: Payload<UpdateRequest>) returns (resp: Response)
      requires repo.Valid()
      modifies repo
      ensures repo.Valid()
      ensures id !in old(repo.services) ==>
        resp == Response(StatusNotFound, Error(NotFoundMessage)) && repo.services == old(repo.services)
      ensures id in old(repo.services) && BindUpdate(body).None? ==>
        resp == Response(StatusBadRequest, BindError) && repo.services == old(repo.services)
      ensures id in old(repo.services) && BindUpdate(body).Some? ==>
        var s := Merge(old(repo.services)[id], body.value);
        resp == Response(StatusOK, Record(s)) && repo.services == old(repo.services)[id := s]
    {
      var found := repo.GetByID(id);
      if found.Failure? {
        return Response(StatusNotFound, Error(NotFoundMessage));
      }
      var bound := BindUpdate(body);
      if bound.None? {
        return Response(StatusBadRequest, BindError);
      }
      var req := bound.value;
      var service := found.value;
      if req.host != "" {
        service := service.(host := req.host);
      }
      if req.port != 0 {
        service := service.(port := req.port);
      }
      if req.protocol != "" {
        service := service.(protocol := req.protocol);
      }
      if req.basePath != "" {
        service := service.(basePath := req.basePath);
      }
      if req.routes.Some? {
        service := service.(routes := req.routes.value);
      }
      if req.healthCheck != "" {
        service := service.(healthCheck := req.healthCheck);
      }
      if req.tags.Some? {
        service := service.(tags := req.tags.value);
      }
      if req.metadata.Some? {
        service := service.(metadata := req.metadata.value);
      }
      var err := repo.Update(service);
      match err {
        case Some(e) => resp := Response(StatusInternalServerError, Error(ErrorMessage(e)));
        case None => resp := Response(StatusOK, Record(service));
      }
    }

    /** Removes the record stored under `id` (200), or 404 and nothing changes. */
    method Unregister(id: string) returns (resp: Response)
      requires repo.Valid()
      modifies repo
      ensures repo.Valid()
      ensures id !in old(repo.services) ==>
        resp == Response(StatusNotFound, Error(NotFoundMessage)) && repo.services == old(repo.services)
      ensures id in old(repo.services) ==>
        resp == Response(StatusOK, Ack(UnregisteredMessage)) && repo.services == old(repo.services) - {id}
    {
      var found := repo.GetByID(id);
      if found.Failure? {
        return Response(StatusNotFound, Error(NotFoundMessage));
      }
      var err := repo.Delete(id);
      match err {
        case Some(e) => resp := Response(StatusInternalServerError, Error(ErrorMessage(e)));
        case None => resp := Response(StatusOK, Ack(UnregisteredMessage));
      }
    }

    /** Marks the record healthy with heartbeat time `now` (200 with that time), or 404. */
    method Heartbeat(id: string, now: Time) returns (resp: Response)
      requires repo.Valid()
      modifies repo
      ensures repo.Valid()
      ensures id !in old(repo.services) ==>
        resp == Response(StatusNotFound, Error(NotFoundMessage)) && repo.services == old(repo.services)
      ensures id in old(repo.services) ==>
        resp == Response(StatusOK, HeartbeatAck(HeartbeatMessage, now))
        && repo.services == old(repo.services)[id := Touch(old(repo.services)[id], now)]
    {
      var found := repo.GetByID(id);
      if found.Failure? {
        return Response(StatusNotFound, Error(NotFoundMessage));
      }
      var service := found.value;
      service := service.(lastHeartbeat := now);
      service := service.(status := Healthy);
      var err := repo.Update(service);
      match err {
        case Some(e) => resp := Response(StatusInternalServerError, Error(ErrorMessage(e)));
        case None => resp := Response(StatusOK, HeartbeatAck(HeartbeatMessage, service.lastHeartbeat));
      }
    }

    /**
     * The stored records that pass every non-empty filter, each once, with
     * their number; with no filter, every stored record.
     */
    method Search(q: SearchQuery) returns (resp: Response)
      requires repo.Valid()
      ensures resp.status == StatusOK && resp.body.Listing?
      ensures resp.body.count == |resp.body.services|
      ensures forall s :: s in resp.body.services ==> s.id in repo.services && repo.services[s.id] == s && Matches(s, q)
      ensures forall id :: id in repo.services && Matches(repo.services[id], q) ==> repo.services[id] in resp.body.services
      ensures forall i, j :: 0 <= i < j < |resp.body.services| ==> resp.body.services[i].id != resp.body.services[j].id
      ensures q == NoFilter ==> |resp.body.services| == |repo.services|
    {
      var services := repo.GetAll();
      var results := FilterServices(services, q);
      FilteredSound(services, q);
      FilteredComplete(services, q);
      AllListed(repo.services, services);
      FilteredDistinct(services, q);
      if q == NoFilter {
        FilteredNoFilter(services);
      }
      resp := Response(StatusOK, Listing(results, |results|));
    }
  }

  /**
   * The life of one service on a fresh registry: Register, Get, an Update of
   * the port alone, Heartbeat, Unregister and a final Get answer 201, 200,
   * 200, 200, 200 and 404, and the update's reply carries the new port with
   * the rest of the registered record unchanged.
   */
  method Lifecycle(req: RegisterRequest, id: string, registeredAt: Time, beatAt: Time, newPort: int)
    returns (codes: seq<int>, updated: Service)
    requires ValidRegisterRequest(req) && ValidPort(newPort)
    ensures codes == [201, 200, 200, 200, 200, 404]
    ensures updated == NewService(req, id, registeredAt).(port := newPort)
  {
    var repo := new MemoryRepository();
    var h := new ServiceHandler(repo);
    var registered := h.Register(Decoded(req), id, registeredAt);
    var got := h.Get(id);
    var changed := h.Update(id, Decoded(EmptyUpdate.(port := newPort)));
    MergePortOnly(NewService(req, id, registeredAt), newPort);
    var beat := h.Heartbeat(id, beatAt);
    var removed := h.Unregister(id);
    var gone := h.Get(id);
    codes := [registered.status, got.status, changed.status, beat.status, removed.status, gone.status];
    updated := changed.body.service;
  }

  /** A GetAll snapshot contains every stored record. */
  lemma AllListed(m: map<string, Service>, ss: seq<Service>)
    requires |ss| == |m|
    requires forall i :: 0 <= i < |ss| ==> ss[i].id in m && m[ss[i].id] == ss[i]
    requires forall i, j :: 0 <= i < j < |ss| ==> ss[i].id != ss[j].id
    ensures forall id :: id in m ==> m[id] in ss
  {
    var ids := set i | 0 <= i < |ss| :: ss[i].id;
    assert ids <= m.Keys;
    IdsCardinality(ss);
    SubsetOfSameSize(ids, m.Keys);
    forall id | id in m ensures m[id] in ss {
      assert id in ids;
      var i :| 0 <= i < |ss| && ss[i].id == id;
    }
  }

  /** A subset as large as its superset is the whole superset. */
  lemma SubsetOfSameSize<T>(a: set<T>, b: set<T>)
    requires a <= b && |a| == |b|
    ensures a == b
  {
    var rest := b - a;
    assert b == a + rest;
    assert a * rest == {};
    assert |rest| == 0;
  }

  /** A sequence with pairwise distinct ids has as many ids as elements. */
  lemma {:induction false} IdsCardinality(ss: seq<Service>)
    requires forall i, j :: 0 <= i < j < |ss| ==> ss[i].id != ss[j].id
    ensures |set i | 0 <= i < |ss| :: ss[i].id| == |ss|
  {
    if |ss| > 0 {
      var init := ss[..|ss| - 1];
      IdsCardinality(init);
      var a := set i | 0 <= i < |init| :: init[i].id;
      var b := set i | 0 <= i < |ss| :: ss[i].id;
      assert b == a + {ss[|ss| - 1].id};
      assert ss[|ss| - 1].id !in a;
    }
  }

  /** Filtering a sequence with pairwise distinct ids keeps them distinct. */
  lemma {:induction false} FilteredDistinct(ss: seq<Service>, q: SearchQuery)
    requires forall i, j :: 0 <= i < j < |ss| ==> ss[i].id != ss[j].id
    ensures forall i, j :: 0 <= i < j < |Filtered(ss, q)| ==> Filtered(ss, q)[i].id != Filtered(ss, q)[j].id
  {
    if |ss| > 0 {
      var init := ss[..|ss| - 1];
      FilteredDistinct(init, q);
      FilteredSound(init, q);
      var f := Filtered(init, q);
      var last := ss[|ss| - 1];
      forall k | 0 <= k < |f| ensures f[k].id != last.id {
        assert f[k] in init;
      }
    }
  }
}
