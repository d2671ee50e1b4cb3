/**
 * The client library's options: the transport settings a client is built
 * with (timeout, retry count, delay between retries) and the overrides a
 * service may pass when it registers itself. In the original each option is
 * a closure that overwrites one field of an options struct; here each option
 * is a value and `Apply` says which field it overwrites.
 */
module Options {
  import opened Domain

  /** A duration in nanoseconds, as Go's time.Duration. */
  type Duration = int

  const Second: Duration := 1_000_000_000

  datatype ClientOptions = ClientOptions(timeout: Duration, retries: int, retryDelay: Duration)

  /** Timeout 10s, 3 retries, 1s between attempts. */
  const DefaultOptions := ClientOptions(10 * Second, 3, 1 * Second)

  datatype ClientOption = WithTimeout(d: Duration) | WithRetries(n: int) | WithRetryDelay(d: Duration)

  /** The field of the client options an option writes. */
  datatype Field = Timeout | Retries | RetryDelay

  function Get(o: ClientOptions, f: Field): int
  {
    match f
    case Timeout => o.timeout
    case Retries => o.retries
    case RetryDelay => o.retryDelay
  }

  function Target(opt: ClientOption): Field
  {
    match opt
    case WithTimeout(_) => Timeout
    case WithRetries(_) => Retries
    case WithRetryDelay(_) => RetryDelay
  }

  function Argument(opt: ClientOption): int
  {
    match opt
    case WithTimeout(d) => d
    case WithRetries(n) => n
    case WithRetryDelay(d) => d
  }

  /** One option applied to the options it is given. */
  function Apply(o: ClientOptions, opt: ClientOption): ClientOptions
  {
    match opt
    case WithTimeout(d) => o.(timeout := d)
    case WithRetries(n) => o.(retries := n)
    case WithRetryDelay(d) => o.(retryDelay := d)
  }

  /** Every option sets its own field to its argument and leaves the other two alone. */
  lemma ApplySetsOneField(o: ClientOptions, opt: ClientOption, f: Field)
    ensures Get(Apply(o, opt), f) == if f == Target(opt) then Argument(opt) else Get(o, f)
  {
  }

  /** The options applied one after another, first to last. */
  function ApplyAll(o: ClientOptions, opts: seq<ClientOption>): ClientOptions
    decreases |opts|
  {
    if |opts| == 0 then o else ApplyAll(Apply(o, opts[0]), opts[1..])
  }

  /** The argument of the last option in `opts` that writes `f`, or `fallback` when none does. */
  function LastFor(opts: seq<ClientOption>, f: Field, fallback: int): int
  {
    if |opts| == 0 then fallback
    else if Target(opts[|opts| - 1]) == f then Argument(opts[|opts| - 1])
    else LastFor(opts[..|opts| - 1], f, fallback)
  }

  lemma {:induction false} ApplyAllSnoc(o: ClientOptions, opts: seq<ClientOption>, opt: ClientOption)
    ensures ApplyAll(o, opts + [opt]) == Apply(ApplyAll(o, opts), opt)
    decreases |opts|
  {
    if |opts| > 0 {
      ApplyAllSnoc(Apply(o, opts[0]), opts[1..], opt);
      assert (opts + [opt])[1..] == opts[1..] + [opt];
    }
  }

  /**
   * Applying options in order means the last option for a field wins, and
   * a field no option writes keeps its starting value.
   */
  lemma {:induction false} LastOptionWins(o: ClientOptions, opts: seq<ClientOption>, f: Field)
    ensures Get(ApplyAll(o, opts), f) == LastFor(opts, f, Get(o, f))
  {
    if |opts| > 0 {
      var init := opts[..|opts| - 1];
      var last := opts[|opts| - 1];
      LastOptionWins(o, init, f);
      assert opts == init + [last];
      ApplyAllSnoc(o, init, last);
    }
  }

  /** NewClient's option loop: start from the defaults and apply each option in turn. */
  method ResolveClientOptions(opts: seq<ClientOption>) returns (o: ClientOptions)
    ensures o == ApplyAll(DefaultOptions, opts)
    ensures forall f :: Get(o, f) == LastFor(opts, f, Get(DefaultOptions, f))
  {
    o := DefaultOptions;
    var i := 0;
    while i < |opts|
      invariant 0 <= i <= |opts|
      invariant ApplyAll(o, opts[i..]) == ApplyAll(DefaultOptions, opts)
    {
      assert opts[i..][1..] == opts[i + 1..];
      o := Apply(o, opts[i]);
      i := i + 1;
    }
    forall f {
      LastOptionWins(DefaultOptions, opts, f);
    }
  }

  /** With no option the defaults stand; the three options given once each set all three fields. */
  lemma OptionExamples()
    ensures ApplyAll(DefaultOptions, []) == ClientOptions(10 * Second, 3, Second)
    ensures ApplyAll(DefaultOptions, [WithTimeout(5 * Second), WithRetries(5), WithRetryDelay(2 * Second)])
         == ClientOptions(5 * Second, 5, 2 * Second)
  {
    var opts := [WithTimeout(5 * Second), WithRetries(5), WithRetryDelay(2 * Second)];
    assert opts[1..] == [WithRetries(5), WithRetryDelay(2 * Second)];
    assert opts[1..][1..] == [WithRetryDelay(2 * Second)];
    var o1 := Apply(DefaultOptions, opts[0]);
    var o2 := Apply(o1, opts[1]);
    var o3 := Apply(o2, opts[2]);
    assert ApplyAll(o3, []) == o3;
    assert ApplyAll(o2, [opts[2]]) == o3;
    assert ApplyAll(o1, opts[1..]) == o3;
  }

  // ---------------------------------------------------------------------------
  // Register options
  // ---------------------------------------------------------------------------

  /** The overrides a service may pass when it registers itself; zero values mean "not given". */
  datatype RegisterOptions = RegisterOptions(
    name: string,
    host: string,
    port: int,
    protocol: string,
    basePath: string,
    routes: seq<Route>,
    healthCheck: string,
    tags: seq<string>,
    metadata: map<string, string>)

  /** Nothing overridden: empty strings, port 0, no routes, tags or metadata. */
  const NoOverrides := RegisterOptions("", "", 0, "", "", [], "", [], map[])

  datatype RegisterOption =
    | WithName(name: string)
    | WithHost(host: string)
    | WithPort(port: int)
    | WithProtocol(protocol: string)
    | WithBasePath(basePath: string)
    | WithRoutes(routes: seq<Route>)
    | WithHealthCheck(healthCheck: string)
    | WithTags(tags: seq<string>)
    | WithMetadata(metadata: map<string, string>)

  function ApplyRegister(o: RegisterOptions, opt: RegisterOption): RegisterOptions
  {
    match opt
    case WithName(v) => o.(name := v)
    case WithHost(v) => o.(host := v)
    case WithPort(v) => o.(port := v)
    case WithProtocol(v) => o.(protocol := v)
    case WithBasePath(v) => o.(basePath := v)
    case WithRoutes(v) => o.(routes := v)
    case WithHealthCheck(v) => o.(healthCheck := v)
    case WithTags(v) => o.(tags := v)
    case WithMetadata(v) => o.(metadata := v)
  }

  function ApplyAllRegister(o: RegisterOptions, opts: seq<RegisterOption>): RegisterOptions
    decreases |opts|
  {
    if |opts| == 0 then o else ApplyAllRegister(ApplyRegister(o, opts[0]), opts[1..])
  }

  /** Applying a list and then one more option is applying the longer list. */
  lemma {:induction false} ApplyAllRegisterSnoc(o: RegisterOptions, opts: seq<RegisterOption>, opt: RegisterOption)
    ensures ApplyAllRegister(o, opts + [opt]) == ApplyRegister(ApplyAllRegister(o, opts), opt)
    decreases |opts|
  {
    if |opts| > 0 {
      assert (opts + [opt])[1..] == opts[1..] + [opt];
      ApplyAllRegisterSnoc(ApplyRegister(o, opts[0]), opts[1..], opt);
    }
  }

  /** The field a register option sets. */
  datatype RegisterField = NameField | HostField | PortField | ProtocolField | BasePathField | RoutesField | HealthCheckField | TagsField | MetadataField

  function RegisterTarget(opt: RegisterOption): RegisterField
  {
    match opt
    case WithName(_) => NameField
    case WithHost(_) => HostField
    case WithPort(_) => PortField
    case WithProtocol(_) => ProtocolField
    case WithBasePath(_) => BasePathField
    case WithRoutes(_) => RoutesField
    case WithHealthCheck(_) => HealthCheckField
    case WithTags(_) => TagsField
    case WithMetadata(_) => MetadataField
  }

  /** `a` and `b` agree on every field except possibly `f`. */
  predicate SameExcept(a: RegisterOptions, b: RegisterOptions, f: RegisterField)
  {
    && (f != NameField ==> a.name == b.name)
    && (f != HostField ==> a.host == b.host)
    && (f != PortField ==> a.port == b.port)
    && (f != ProtocolField ==> a.protocol == b.protocol)
    && (f != BasePathField ==> a.basePath == b.basePath)
    && (f != RoutesField ==> a.routes == b.routes)
    && (f != HealthCheckField ==> a.healthCheck == b.healthCheck)
    && (f != TagsField ==> a.tags == b.tags)
    && (f != MetadataField ==> a.metadata == b.metadata)
  }

  /** Each register option sets its own field to its argument, as given, and no other field. */
  lemma ApplyRegisterSetsOneField(o: RegisterOptions, opt: RegisterOption)
    ensures SameExcept(ApplyRegister(o, opt), o, RegisterTarget(opt))
    ensures opt.WithName? ==> ApplyRegister(o, opt).name == opt.name
    ensures opt.WithHost? ==> ApplyRegister(o, opt).host == opt.host
    ensures opt.WithPort? ==> ApplyRegister(o, opt).port == opt.port
    ensures opt.WithProtocol? ==> ApplyRegister(o, opt).protocol == opt.protocol
    ensures opt.WithBasePath? ==> ApplyRegister(o, opt).basePath == opt.basePath
    ensures opt.WithRoutes? ==> ApplyRegister(o, opt).routes == opt.routes
    ensures opt.WithHealthCheck? ==> ApplyRegister(o, opt).healthCheck == opt.healthCheck
    ensures opt.WithTags? ==> ApplyRegister(o, opt).tags == opt.tags
    ensures opt.WithMetadata? ==> ApplyRegister(o, opt).metadata == opt.metadata
  {
  }

  /**
   * The last option given wins for the field it sets, whatever came before,
   * and leaves every other field as the earlier options made it.
   */
  lemma LastRegisterOptionWins(o: RegisterOptions, opts: seq<RegisterOption>, opt: RegisterOption)
    ensures SameExcept(ApplyAllRegister(o, opts + [opt]), ApplyAllRegister(o, opts), RegisterTarget(opt))
    ensures opt.WithName? ==> ApplyAllRegister(o, opts + [opt]) == ApplyAllRegister(o, opts).(name := opt.name)
    ensures opt.WithPort? ==> ApplyAllRegister(o, opts + [opt]) == ApplyAllRegister(o, opts).(port := opt.port)
    ensures opt.WithTags? ==> ApplyAllRegister(o, opts + [opt]) == ApplyAllRegister(o, opts).(tags := opt.tags)
    ensures opt.WithMetadata? ==> ApplyAllRegister(o, opts + [opt]) == ApplyAllRegister(o, opts).(metadata := opt.metadata)
  {
    ApplyAllRegisterSnoc(o, opts, opt);
    ApplyRegisterSetsOneField(ApplyAllRegister(o, opts), opt);
  }

  /** AutoRegister's option loop: start from no overrides and apply each option in turn. */
  method ResolveRegisterOptions(opts: seq<RegisterOption>) returns (o: RegisterOptions)
    ensures o == ApplyAllRegister(NoOverrides, opts)
  {
    o := NoOverrides;
    var i := 0;
    while i < |opts|
      invariant 0 <= i <= |opts|
      invariant ApplyAllRegister(o, opts[i..]) == ApplyAllRegister(NoOverrides, opts)
    {
      assert opts[i..][1..] == opts[i + 1..];
      o := ApplyRegister(o, opts[i]);
      i := i + 1;
    }
  }
}
