# Service registry and its Go client, modelled in Dafny

The system is a small service-discovery registry. Services register
themselves over HTTP (name, host, port, protocol, base path, routes, health
check path, tags, metadata), send heartbeats, update or unregister
themselves, and other services list, fetch or search them. The registry
keeps every record in an in-memory map keyed by a generated id. A Go client
library wraps the HTTP API with a bounded retry loop and fills in a
service's identity from explicit options, environment variables and
fallbacks. The server reads its own configuration (port, log level, Gin
mode) from the environment through a builder that collects every error.

The model, one module per source file:

- `wrappers.dfy`: `Option` and `Result`.
- `env.dfy`: the process environment as a map, and `Getenv` returning `""` for an unset variable.
- `strings.dfy`: what the source uses from Go's `strings` and `strconv`. That is ASCII lower-casing,
  prefix and substring tests, `TrimSuffix`, `Split`/`Join` with Go's semantics, `Atoi` (`ParseInt`,
  64-bit range) and decimal rendering.
- `domain.dfy`: the service record, the register and update requests, the request binding rules
  (`binding:"required"`, `min=1,max=65535`).
- `repository.dfy`: class `MemoryRepository` over a `map<string, Service>` field with
  `Create`/`GetByID`/`GetAll`/`Update`/`Delete`/`Exists`.
- `handler.dfy`: class `ServiceHandler` with the seven HTTP handlers. Beside it are the pure pieces
  they are made of: building a record from a register request, the partial merge of an update,
  the heartbeat touch, and the search filter, with the loops of `Search` as methods proved against
  the filter function.
- `config.dfy`: class `Builder` with `WithEnv`, `Validate` and `Build`, and the chain the server's
  entry point runs.
- `options.dfy`: client options and register options as lists of option values applied in order.
- `client.dfy`: the retry loop, status-code handling of every client call, `parseError`, the search
  query string, the identity resolvers and `getMetadata`, and class `Client`. The class holds the
  cached service id and the heartbeat stop channel.

Inputs that come from outside the program are parameters. That covers the
clock (`now`), the generated id, the environment map, the executable's base
name and the host name (`None` when the OS query fails), and the network
(`Transport`: for a request and an attempt number, whether building the
request fails, the connection fails, or a response arrives). Percent-encoding
of query values is also a parameter (`escape`).

## Model

| member | source | states |
|---|---|---|
| Strings.Lower | packages/service-discover/internal/handler/service_handler.go:272 | ASCII lower-casing: same length, each letter A-Z mapped to a-z and every other character kept |
| Strings.LowerIdempotent | packages/service-discover/internal/handler/service_handler.go:272 | lower-casing twice is lower-casing once (used by Handler.NameMatchIgnoresCase) |
| Strings.TrimSuffix | libs/go-commons/servicediscovery/client.go:36 | a suffix that is present is removed exactly once (the result followed by the suffix is the input); an absent one leaves the input unchanged |
| Strings.Split | libs/go-commons/servicediscovery/client.go:394 | splitting always yields at least one piece, as Go's `strings.Split` with a non-empty separator does |
| Strings.SplitPiecesHaveNoSeparator | libs/go-commons/servicediscovery/client.go:394 | no piece contains the separator |
| Strings.JoinSplit | libs/go-commons/servicediscovery/client.go:394 | joining the pieces with the separator gives back the original string |
| Strings.SplitJoin | libs/go-commons/servicediscovery/client.go:394 | splitting a join of separator-free pieces gives back those pieces |
| Strings.SplitNoSeparator | libs/go-commons/servicediscovery/client.go:394 | a string without the separator splits into itself alone |
| Strings.SplitPrefix | libs/go-commons/servicediscovery/client.go:394 | a separator-free head followed by the separator splits off as the first piece |
| Strings.ParseInt | packages/service-discover/internal/config/config.go:33 | `Atoi` succeeds only with a value in the 64-bit range and never on the empty string |
| Strings.DigitsValueOfNatToString | libs/go-commons/servicediscovery/client.go:318 | the decimal rendering of a natural number reads back as that number |
| Strings.ParseIntToString | libs/go-commons/servicediscovery/client.go:318 | every 64-bit integer, rendered in decimal, parses back to itself |
| Strings.ParseIntRejectsNonDigits | packages/service-discover/internal/config/config.go:33-35 | a non-digit anywhere after the first character makes `Atoi` fail |
| Domain.StatusTextRoundTrip | packages/service-discover/internal/domain/service.go:5-10 | the two statuses and their texts "healthy"/"unhealthy" correspond one to one |
| Domain.BindRegister | packages/service-discover/internal/domain/service.go:33-43 | a register body binds exactly when it decodes and has a non-empty name and host and a port in 1..65535, and then binds unchanged |
| Domain.BindUpdate | packages/service-discover/internal/domain/service.go:45-54 | an update body binds exactly when it decodes and its port is 0 (absent) or in 1..65535 |
| Domain.NameOnlyRegisterIsRefused | packages/service-discover/tests/handler_test.go:75-85 | a register body with only a name does not bind |
| Repository.MemoryRepository.constructor | packages/service-discover/internal/repository/memory.go:29-33 | a new repository is empty |
| Repository.MemoryRepository.Create | packages/service-discover/internal/repository/memory.go:35-45 | a taken id gives ErrServiceAlreadyExists and changes nothing; a new id is stored under its id and nothing else changes |
| Repository.MemoryRepository.GetByID | packages/service-discover/internal/repository/memory.go:47-57 | the stored record for a known id, ErrServiceNotFound otherwise |
| Repository.MemoryRepository.GetAll | packages/service-discover/internal/repository/memory.go:59-69 | as many records as stored, each stored under its own id, no id twice: every stored record exactly once |
| Repository.MemoryRepository.Update | packages/service-discover/internal/repository/memory.go:71-81 | an unknown id gives ErrServiceNotFound and changes nothing; a known id has its record replaced and nothing else changes |
| Repository.MemoryRepository.Delete | packages/service-discover/internal/repository/memory.go:83-93 | an unknown id gives ErrServiceNotFound and changes nothing; a known id is removed and nothing else changes |
| Repository.MemoryRepository.Exists | packages/service-discover/internal/repository/memory.go:95-101 | true exactly when the id is stored |
| Repository.DeleteAndRecreate | packages/service-discover/internal/repository/memory_test.go:235-246 | create, delete and create again succeed, and a fourth create of the same id is refused as a duplicate |
| Handler.NewServiceFields | packages/service-discover/internal/handler/service_handler.go:38-62 | a new record carries the request's fields and the generated id, is healthy, is stamped with the registration time twice, and defaults an empty protocol to "http" and an empty health check to "/health" |
| Handler.DefaultsIdempotent | packages/service-discover/internal/handler/service_handler.go:38-46 | filling in the defaults before registering changes nothing, and filling them twice is filling them once |
| Handler.NewService | packages/service-discover/internal/handler/service_handler.go:38-62 | the record Register builds (properties in Handler.NewServiceFields) |
| Handler.WithDefaults | packages/service-discover/internal/handler/service_handler.go:38-46 | the request with protocol and health check defaulted (properties in Handler.DefaultsIdempotent) |
| Handler.Merge | packages/service-discover/internal/handler/service_handler.go:141-164 | the record after Update's field-by-field assignments (properties in Handler.MergeRules and the Merge lemmas below) |
| Handler.MergeRules | packages/service-discover/internal/handler/service_handler.go:141-164 | each updatable field takes the request's value when given (non-empty, non-zero, non-nil) and keeps the old one otherwise; id, name, status and timestamps never change |
| Handler.MergeEmptyIsIdentity | packages/service-discover/internal/handler/service_handler.go:141-164 | an update request with nothing given leaves the record as it was |
| Handler.MergePortOnly | packages/service-discover/tests/handler_test.go:142-158 | an update giving only a port changes only the port |
| Handler.MergeIdempotent | packages/service-discover/internal/handler/service_handler.go:141-164 | applying the same update twice is applying it once |
| Handler.MergeCannotClear | packages/service-discover/internal/handler/service_handler.go:141-164 | an update can never clear a host, port, protocol or health check that was set |
| Handler.MergeSequential | packages/service-discover/internal/handler/service_handler.go:141-164 | two updates in a row equal one update combining them, the later winning field by field |
| Handler.Touch | packages/service-discover/internal/handler/service_handler.go:226-227 | the record after a heartbeat (properties in Handler.TouchRules) |
| Handler.TouchRules | packages/service-discover/internal/handler/service_handler.go:226-227 | a heartbeat sets the status to healthy and the last heartbeat to now and changes no other field |
| Handler.TouchMergeCommute | packages/service-discover/internal/handler/service_handler.go:141-164 | heartbeats and updates touch disjoint fields, so their order does not matter |
| Handler.Matches | packages/service-discover/internal/handler/service_handler.go:258-288 | the three search criteria, each applied only when given (properties in Handler.RouteHitIsPrefix, Handler.EmptyNameQueryMatchesAll) |
| Handler.RouteHitIsPrefix | packages/service-discover/internal/handler/service_handler.go:262 | a route matches exactly when the query is a prefix of its path (the equality test adds nothing) |
| Handler.Filtered | packages/service-discover/internal/handler/service_handler.go:258-290 | the search loop's results as a function of the listing (properties in Handler.FilteredSound, FilteredComplete, FilteredNoFilter, FilteredAppend, FilteredDistinct) |
| Handler.FilteredSound | packages/service-discover/internal/handler/service_handler.go:258-290 | every search result is one of the listed services and meets all given criteria |
| Handler.FilteredComplete | packages/service-discover/internal/handler/service_handler.go:258-290 | every listed service meeting all given criteria is a result |
| Handler.FilteredNoFilter | packages/service-discover/internal/handler/service_handler.go:258-290 | a search with no criteria returns everything, in listing order |
| Handler.FilteredAppend | packages/service-discover/internal/handler/service_handler.go:258-290 | the filter keeps the order of the listing: filtering a concatenation is concatenating the filtered parts |
| Handler.FilteredDistinct | packages/service-discover/internal/handler/service_handler.go:255-290 | results of a listing without repeated ids repeat no id |
| Handler.NameMatchExamples | packages/service-discover/internal/handler/service_handler.go:272 | "Test-Service" matches the name query "test" and "other" does not |
| Handler.NameMatchIgnoresCase | packages/service-discover/internal/handler/service_handler.go:272 | lower-casing the name or the query beforehand never changes whether they match |
| Handler.EmptyNameQueryMatchesAll | packages/service-discover/internal/handler/service_handler.go:272 | every name matches the empty query, so the `name != ""` guard changes no result |
| Handler.LongNameQueryNeverMatches | packages/service-discover/internal/handler/service_handler.go:272 | a name query longer than a service's name never selects it |
| Handler.AnyRouteMatches | packages/service-discover/internal/handler/service_handler.go:259-269 | true exactly when some route of the service matches the route query |
| Handler.HasTag | packages/service-discover/internal/handler/service_handler.go:276-286 | true exactly when the tag is one of the service's tags |
| Handler.FilterServices | packages/service-discover/internal/handler/service_handler.go:255-290 | the search loop computes the filter specification |
| Handler.ServiceHandler.constructor | packages/service-discover/internal/handler/service_handler.go:21-26 | the handler works on the repository it is given |
| Handler.ServiceHandler.Register | packages/service-discover/internal/handler/service_handler.go:28-84 | 400 and no change when the body does not bind; 201 with the new record, now stored, when it binds; 500 "service already exists" and no change when the generated id is taken |
| Handler.ServiceHandler.List | packages/service-discover/internal/handler/service_handler.go:86-97 | 200 with every stored record exactly once and a count equal to the number stored |
| Handler.ServiceHandler.Get | packages/service-discover/internal/handler/service_handler.go:99-117 | 200 with the stored record, or 404 "service not found" |
| Handler.ServiceHandler.Update | packages/service-discover/internal/handler/service_handler.go:119-181 | 404 before looking at the body for an unknown id; 400 and no change when the body does not bind; otherwise 200 with the merged record, which replaces the stored one |
| Handler.ServiceHandler.Unregister | packages/service-discover/internal/handler/service_handler.go:183-212 | 404 and no change for an unknown id; otherwise 200 with the success message and the record removed |
| Handler.ServiceHandler.Heartbeat | packages/service-discover/internal/handler/service_handler.go:214-248 | 404 and no change for an unknown id; otherwise 200 echoing the new heartbeat time, with the record touched |
| Handler.ServiceHandler.Search | packages/service-discover/internal/handler/service_handler.go:250-303 | 200 with exactly the stored records that meet every given criterion, none twice, a matching count, and all records when no criterion is given |
| Handler.Lifecycle | packages/service-discover/tests/handler_test.go:113-180 | register, get, update the port, heartbeat, unregister, get answer 201, 200, 200, 200, 200, 404, and the update changes only the port |
| Config.EnvConfig | packages/service-discover/internal/config/config.go:31-50 | the configuration WithEnv leaves (properties in Config.EnvRules) |
| Config.EnvErrors | packages/service-discover/internal/config/config.go:32-39 | the errors WithEnv adds (properties in Config.EnvRules) |
| Config.ValidationErrors | packages/service-discover/internal/config/config.go:52-77 | the errors Validate adds, in order (properties in Config.ValidationErrorsExact) |
| Config.ValidationErrorsExact | packages/service-discover/internal/config/config.go:52-77 | each validation error is reported exactly when its field is out of range, at most once each, and none exactly when the configuration is valid |
| Config.PortBoundaries | packages/service-discover/internal/config/config.go:53 | ports 1 and 65535 are accepted; 0, -1 and 65536 are refused |
| Config.EnvRules | packages/service-discover/internal/config/config.go:31-50 | an unset or empty variable keeps the default; a non-integer PORT keeps the port and records one error; an integer PORT replaces it |
| Config.Builder.constructor | packages/service-discover/internal/config/config.go:20-29 | port 8080, log level "info", Gin mode "release", no errors |
| Config.Builder.WithEnv | packages/service-discover/internal/config/config.go:31-50 | the configuration after reading the environment, with its errors appended to those already collected |
| Config.Builder.Validate | packages/service-discover/internal/config/config.go:52-77 | the configuration is untouched and its validation errors are appended in the order port, log level, Gin mode |
| Config.Builder.Build | packages/service-discover/internal/config/config.go:79-84 | fails with all collected errors exactly when there is one, otherwise returns the configuration |
| Config.Load | packages/service-discover/cmd/main.go:11 | the result of NewBuilder().WithEnv().Validate().Build() (properties in Config.LoadSucceedsExactly) |
| Config.LoadConfig | packages/service-discover/cmd/main.go:11 | the builder chain equals the pure loading function; without Validate only a non-integer PORT can fail it |
| Config.LoadSucceedsExactly | packages/service-discover/cmd/main.go:11 | loading succeeds exactly when PORT is unset or an integer and the resulting configuration is valid, and then returns that configuration |
| Config.LoadDefaults | packages/service-discover/internal/config/config_test.go:20-32 | with none of the three variables set the defaults load |
| Config.LoadRejectsNonNumericPort | packages/service-discover/internal/config/config_test.go:52-62 | PORT="not-a-number" fails with the integer error |
| Config.LoadCollectsEveryError | packages/service-discover/internal/config/config_test.go:169-185 | PORT=0 with an invalid log level and Gin mode reports all three errors, in order |
| Config.JoinedMessage | packages/service-discover/internal/config/config.go:79-84 | the text of the joined error Build returns (example in Config.MultipleErrorsText) |
| Config.MultipleErrorsText | packages/service-discover/internal/config/config_test.go:181-184 | the error text for those three errors holds each message, one per line, in the order collected |
| Options.Apply | libs/go-commons/servicediscovery/options.go:21-37 | one client option applied (properties in Options.ApplySetsOneField) |
| Options.ApplySetsOneField | libs/go-commons/servicediscovery/options.go:21-37 | each client option sets its own field and no other |
| Options.ApplyAll | libs/go-commons/servicediscovery/client.go:30-33 | the options applied in order (properties in Options.ApplyAllSnoc, Options.LastOptionWins) |
| Options.ApplyAllSnoc | libs/go-commons/servicediscovery/client.go:30-33 | options apply left to right |
| Options.LastOptionWins | libs/go-commons/servicediscovery/client.go:30-33 | each field ends with the value of the last option setting it, or keeps its default |
| Options.ResolveClientOptions | libs/go-commons/servicediscovery/client.go:29-33 | the options loop yields the defaults with every option applied in order, each field set by the last option for it |
| Options.OptionExamples | libs/go-commons/servicediscovery/options.go:13-19 | defaults are 10 s, 3 retries and 1 s; 5 s, 5 retries and 2 s override all three |
| Options.ApplyRegister | libs/go-commons/servicediscovery/options.go:53-105 | one register option applied (properties in Options.ApplyRegisterSetsOneField) |
| Options.ApplyAllRegister | libs/go-commons/servicediscovery/client.go:73-76 | the register options applied in order (properties in Options.ApplyAllRegisterSnoc, Options.LastRegisterOptionWins) |
| Options.ApplyAllRegisterSnoc | libs/go-commons/servicediscovery/client.go:73-76 | register options apply left to right |
| Options.ApplyRegisterSetsOneField | libs/go-commons/servicediscovery/options.go:53-105 | each register option sets its own field to its argument as given and no other field |
| Options.LastRegisterOptionWins | libs/go-commons/servicediscovery/client.go:73-76 | the last register option decides the field it sets and leaves every other field as the earlier options made it |
| Options.ResolveRegisterOptions | libs/go-commons/servicediscovery/client.go:73-76 | the loop starts from no overrides and applies every option in order |
| Client.Run | libs/go-commons/servicediscovery/client.go:279-307 | the retry loop's outcome, attempts and sleeps for an attempt sequence (properties in Client.RunBounds, RunFirstResponse, RunAllFail, RunBuildFailure) |
| Client.RunBounds | libs/go-commons/servicediscovery/client.go:279-305 | at most retries+1 attempts, with one sleep between consecutive attempts and none after the last |
| Client.RunFirstResponse | libs/go-commons/servicediscovery/client.go:294-304 | the first attempt that gets any response, whatever its status, decides the result after that many attempts |
| Client.RunAllFail | libs/go-commons/servicediscovery/client.go:294-301 | when every attempt fails to connect, the last failure comes back wrapped as a connection error after retries+1 attempts |
| Client.RunBuildFailure | libs/go-commons/servicediscovery/client.go:285-288 | a request that cannot be built fails at once, without retrying or sleeping |
| Client.RetryThenSucceed | libs/go-commons/servicediscovery/client.go:279-305 | two refused connections and then a response succeed on the third attempt after two sleeps when two retries are allowed |
| Client.ParseErrorMessage | libs/go-commons/servicediscovery/client.go:310-319 | parseError's message (properties in Client.ParseErrorFallback) |
| Client.ParseErrorFallback | libs/go-commons/servicediscovery/client.go:310-319 | without a non-empty error field the message is "unexpected status code: " followed by the status, which reads back from it |
| Client.QueryPairs | libs/go-commons/servicediscovery/client.go:136-149 | the encoded parameters in url.Values.Encode key order (properties in Client.QueryPairKeys, QueryPairsPresence) |
| Client.SearchPath | libs/go-commons/servicediscovery/client.go:147-150 | the search path (properties in Client.SearchPathShape) |
| Client.QueryPairKeys | libs/go-commons/servicediscovery/client.go:136-150 | every query pair is one of the given parameters, keyed by its name |
| Client.QueryPairsPresence | libs/go-commons/servicediscovery/client.go:136-145 | each parameter is in the query exactly when it is non-empty |
| Client.SearchPathShape | libs/go-commons/servicediscovery/client.go:147-150 | the path has a query exactly when some parameter is non-empty, and the query splits back into its pairs |
| Client.ServiceName | libs/go-commons/servicediscovery/client.go:321-332 | getServiceName (properties in Client.IdentityPrecedence) |
| Client.HostName | libs/go-commons/servicediscovery/client.go:334-348 | getHost (properties in Client.IdentityPrecedence) |
| Client.PortNumber | libs/go-commons/servicediscovery/client.go:350-360 | getPort (properties in Client.IdentityPrecedence) |
| Client.ProtocolName | libs/go-commons/servicediscovery/client.go:362-370 | getProtocol (properties in Client.IdentityPrecedence) |
| Client.BasePath | libs/go-commons/servicediscovery/client.go:372-377 | getBasePath (properties in Client.IdentityPrecedence) |
| Client.HealthCheckPath | libs/go-commons/servicediscovery/client.go:379-387 | getHealthCheck (properties in Client.IdentityPrecedence) |
| Client.TagList | libs/go-commons/servicediscovery/client.go:389-397 | getTags (properties in Client.IdentityPrecedence, Client.TagsFromEnvironment) |
| Client.IdentityRequest | libs/go-commons/servicediscovery/client.go:78-88 | the request AutoRegister builds (properties in Client.ZeroOverridesFallBack, Client.AutoRegisterExample) |
| Client.IdentityPrecedence | libs/go-commons/servicediscovery/client.go:321-397 | every level of every identity field: name from override, SERVICE_NAME, executable, "unknown"; host from override, POD_IP, HOSTNAME, OS host name, "localhost"; port from non-zero override, parsable PORT, 8080; protocol from override, SERVICE_PROTOCOL, "http"; base path from override, SERVICE_BASE_PATH; health check from override, SERVICE_HEALTH_CHECK, "/health"; tags from non-empty override, SERVICE_TAGS split on ",", none; name, host, protocol and health check never empty unless an input supplied an empty one |
| Client.ZeroOverridesFallBack | libs/go-commons/servicediscovery/options.go:65-69 | a final WithPort(0), WithName("") or WithTags() hands that field back to the environment and fallbacks and changes nothing else in the request sent |
| Client.TagsFromEnvironment | libs/go-commons/servicediscovery/client.go:389-397 | tags read from SERVICE_TAGS join back into the variable and contain no comma |
| Client.Metadata | libs/go-commons/servicediscovery/client.go:399-419 | a non-empty override is returned as is; otherwise one lower-cased key per SERVICE_META_ variable, each holding such a variable's value, and nil exactly when there is none |
| Client.CollectedExact | libs/go-commons/servicediscovery/client.go:405-412 | when no two SERVICE_META_ variables share a lower-cased key, each key holds its own variable's value |
| Client.AutoRegisterExample | libs/go-commons/servicediscovery/client_test.go:73-109 | SERVICE_NAME=auto-service, PORT=4000 and SERVICE_TAGS=api,v1 give that name, port 4000, tags ["api", "v1"] and the default protocol and health check |
| Client.Client.constructor | libs/go-commons/servicediscovery/client.go:29-42 | the defaults with every option applied in order, one trailing "/" dropped from the base URL, no cached id, no heartbeat running |
| Client.Client.DoRequest | libs/go-commons/servicediscovery/client.go:276-308 | the retry loop computes the retry specification: at most retries+1 attempts, the first response wins, a build error stops at once, the last connection error is wrapped |
| Client.Client.Register | libs/go-commons/servicediscovery/client.go:44-70 | success only on 201 with the decoded record, whose id becomes the cached id; any other status goes through parseError and leaves the cache alone |
| Client.Client.AutoRegister | libs/go-commons/servicediscovery/client.go:72-91 | sends the request built from the overrides applied in order and the identity resolvers, then behaves as Register |
| Client.Client.Get | libs/go-commons/servicediscovery/client.go:93-114 | 404 is ServiceNotFound, 200 the decoded record, any other status parseError, transport errors pass through |
| Client.Client.List | libs/go-commons/servicediscovery/client.go:116-133 | 200 is the decoded listing, any other status (404 included) parseError |
| Client.Client.Search | libs/go-commons/servicediscovery/client.go:135-168 | requests the search path with only the non-empty parameters; status handling as List |
| Client.Client.Update | libs/go-commons/servicediscovery/client.go:170-196 | 404 is ServiceNotFound, 200 the decoded record, any other status parseError |
| Client.Client.Unregister | libs/go-commons/servicediscovery/client.go:198-214 | no error on 200, ServiceNotFound on 404, parseError otherwise |
| Client.Client.Heartbeat | libs/go-commons/servicediscovery/client.go:216-232 | no error on 200, ServiceNotFound on 404, parseError otherwise |
| Client.Client.Close | libs/go-commons/servicediscovery/client.go:237 | a stop channel is closed only while open, as closing one twice panics |
| Client.Client.StartHeartbeat | libs/go-commons/servicediscovery/client.go:234-241 | the previous loop's channel, if any, is closed and a fresh open one is installed |
| Client.Client.StopHeartbeat | libs/go-commons/servicediscovery/client.go:260-268 | the running loop's channel is closed and cleared; with none running nothing happens |
| Client.Client.GetServiceID | libs/go-commons/servicediscovery/client.go:270-274 | the id cached by the last successful Register |
| Client.HeartbeatRestart | libs/go-commons/servicediscovery/client.go:234-268 | start, start, stop, stop closes each of the two channels exactly once and leaves no loop running |
| Client.RegisterCachesId | libs/go-commons/servicediscovery/client.go:44-70 | a 201 caches the returned id and a later refused Register keeps it |
| Client.BaseUrlTrim | libs/go-commons/servicediscovery/client_test.go:16-20 | every base URL not ending in "/" is kept as given, and exactly one trailing "/" is dropped |

## Left out

- Concurrency: the repository's read-write lock, the client's mutex and the heartbeat goroutine are not modelled. Each operation runs as one atomic step.
- The heartbeat ticker loop and its context cancellation are left out. The model keeps the stop channel bookkeeping that `StartHeartbeat`/`StopHeartbeat` do under the lock.
- Pointer aliasing: the repository stores `*Service` and the handlers mutate the record returned by `GetByID` in place before calling `Update`. The model treats records as values and `Update` as the point where the change becomes visible. A concurrent reader of the shared pointer could see the change earlier; the model does not capture that.
- `uuid.New()`, `time.Now()`, `os.Executable`, `os.Hostname` and `os.Getenv` are parameters. The two `time.Now()` calls at registration are one instant `now`.
- The HTTP and JSON layers are left out. That covers Gin routing, JSON encoding, the binder's error text (`BindError`), the response `null` for an empty search, the `Content-Type` header and the client's JSON decoding. The client's decoding is abstracted as `HttpBody`, one view per target shape. `json.Marshal` of a request cannot fail on these types and is left out.
- `escape` stands for `url.QueryEscape`. Client.SearchPathShape assumes, as percent-encoding guarantees, that escaped values hold no "&".
- `time.Sleep` and the HTTP client timeout are not performed: sleeps are counted, and a timeout is one more way an attempt fails to connect.
- Client.Client.DoRequest: requires a non-negative retry count. With a negative count the source's loop makes no attempt and returns neither a response nor an error, which every caller then dereferences.
- Client.Client.Register, Get, Update, List and Search report a body that does not decode as `DecodeFailed`, without the decoder's message.
- Client.Metadata: `os.Environ` order is not modelled. When two SERVICE_META_ variables lower-case to the same key, the contract says the value is one of theirs, not which.
- Strings.Lower: `strings.ToLower` is modelled on ASCII letters only. Unicode case mapping is left out.
- Strings.ParseInt: Go's `int` is taken as 64 bits.
- Logging (zap), the health endpoint, the bootstrap of the server and `main` are not part of this model. The one exception is the configuration chain `main` runs.
- `ErrInvalidRequest` and `ErrTimeout` in the client's error list are never returned by the client and are not modelled.
