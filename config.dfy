/**
 * The registry's configuration builder: it starts from defaults, reads
 * PORT, LOG_LEVEL and GIN_MODE from the environment, validates the result
 * and collects every error it meets instead of stopping at the first one.
 * The environment is a map from variable name to value; an unset variable
 * reads as the empty string, as os.Getenv does.
 */
module Config {
  import opened Wrappers
  import opened Strings
  import opened Env

  datatype Config = Config(port: int, logLevel: string, ginMode: string)

  /** The four errors the builder can collect. */
  datatype ConfigError = PortNotInteger | PortOutOfRange | InvalidLogLevel | InvalidGinMode

  function Message(e: ConfigError): string
  {
    match e
    case PortNotInteger => "PORT must be a valid integer"
    case PortOutOfRange => "PORT must be between 1 and 65535"
    case InvalidLogLevel => "LOG_LEVEL must be one of: debug, info, warn, error"
    case InvalidGinMode => "GIN_MODE must be one of: debug, release, test"
  }

  function Messages(errs: seq<ConfigError>): seq<string>
  {
    seq(|errs|, i requires 0 <= i < |errs| => Message(errs[i]))
  }

  /** The text of the error Build returns (errors.Join): the messages, one per line. */
  function JoinedMessage(errs: seq<ConfigError>): string
    requires |errs| >= 1
  {
    Join(Messages(errs), '\n')
  }

  const DefaultConfig := Config(8080, "info", "release")

  const LogLevels: set<string> := {"debug", "info", "warn", "error"}
  const GinModes: set<string> := {"debug", "release", "test"}

  // ---------------------------------------------------------------------------
  // What each step does, as functions of the old state
  // ---------------------------------------------------------------------------

  /** The configuration after reading the environment into `c`. */
  function EnvConfig(c: Config, env: map<string, string>): Config
  {
    var port := Getenv(env, "PORT");
    var logLevel := Getenv(env, "LOG_LEVEL");
    var ginMode := Getenv(env, "GIN_MODE");
    Config(
      if port != "" && ParseInt(port).Some? then ParseInt(port).value else c.port,
      if logLevel != "" then logLevel else c.logLevel,
      if ginMode != "" then ginMode else c.ginMode)
  }

  /** The errors reading the environment adds: one when PORT is set but not an integer. */
  function EnvErrors(env: map<string, string>): seq<ConfigError>
  {
    var port := Getenv(env, "PORT");
    if port != "" && ParseInt(port).None? then [PortNotInteger] else []
  }

  /** The errors validation adds for `c`: port range, then log level, then mode. */
  function ValidationErrors(c: Config): seq<ConfigError>
  {
    (if c.port <= 0 || c.port > 65535 then [PortOutOfRange] else [])
    + (if c.logLevel !in LogLevels then [InvalidLogLevel] else [])
    + (if c.ginMode !in GinModes then [InvalidGinMode] else [])
  }

  predicate ValidConfig(c: Config)
  {
    1 <= c.port <= 65535 && c.logLevel in LogLevels && c.ginMode in GinModes
  }

  /**
   * Each check fires exactly when its own field is out of range, no check
   * stops the others, and there are no errors exactly when the
   * configuration is valid.
   */
  lemma ValidationErrorsExact(c: Config)
    ensures PortOutOfRange in ValidationErrors(c) <==> (c.port <= 0 || c.port > 65535)
    ensures InvalidLogLevel in ValidationErrors(c) <==> c.logLevel !in {"debug", "info", "warn", "error"}
    ensures InvalidGinMode in ValidationErrors(c) <==> c.ginMode !in {"debug", "release", "test"}
    ensures PortNotInteger !in ValidationErrors(c)
    ensures ValidationErrors(c) == [] <==> ValidConfig(c)
    ensures |ValidationErrors(c)| == (if c.port <= 0 || c.port > 65535 then 1 else 0)
      + (if c.logLevel in LogLevels then 0 else 1) + (if c.ginMode in GinModes then 0 else 1)
  {
  }

  /** 1 and 65535 pass the port check; 0, -1 and 65536 fail it. */
  lemma PortBoundaries(c: Config)
    ensures PortOutOfRange !in ValidationErrors(c.(port := 1))
    ensures PortOutOfRange !in ValidationErrors(c.(port := 65535))
    ensures PortOutOfRange in ValidationErrors(c.(port := 0))
    ensures PortOutOfRange in ValidationErrors(c.(port := -1))
    ensures PortOutOfRange in ValidationErrors(c.(port := 65536))
  {
  }

  /**
   * An unset or empty variable leaves its field alone, and a PORT that is
   * not an integer keeps the old port and adds PortNotInteger.
   */
  lemma EnvRules(c: Config, env: map<string, string>)
    ensures Getenv(env, "PORT") == "" ==> EnvConfig(c, env).port == c.port && EnvErrors(env) == []
    ensures Getenv(env, "LOG_LEVEL") == "" ==> EnvConfig(c, env).logLevel == c.logLevel
    ensures Getenv(env, "GIN_MODE") == "" ==> EnvConfig(c, env).ginMode == c.ginMode
    ensures Getenv(env, "PORT") != "" && ParseInt(Getenv(env, "PORT")).None? ==>
      EnvConfig(c, env).port == c.port && EnvErrors(env) == [PortNotInteger]
    ensures ParseInt(Getenv(env, "PORT")).Some? ==>
      EnvConfig(c, env).port == ParseInt(Getenv(env, "PORT")).value && EnvErrors(env) == []
  {
  }

  // ---------------------------------------------------------------------------
  // The builder
  // ---------------------------------------------------------------------------

  class Builder {
    var config: Config
    var errors: seq<ConfigError>

    /** Port 8080, log level "info", mode "release", no errors. */
    constructor ()
      ensures config == Config(8080, "info", "release") && errors == []
    {
      config := DefaultConfig;
      errors := [];
    }

    /** Reads PORT, LOG_LEVEL and GIN_MODE; only ever appends to the errors. */
    method WithEnv(env: map<string, string>)
      modifies this
      ensures config == EnvConfig(old(config), env)
      ensures errors == old(errors) + EnvErrors(env)
    {
      var port := Getenv(env, "PORT");
      if port != "" {
        var p := ParseInt(port);
        if p.None? {
          errors := errors + [PortNotInteger];
        } else {
          config := config.(port := p.value);
        }
      }
      var logLevel := Getenv(env, "LOG_LEVEL");
      if logLevel != "" {
        config := config.(logLevel := logLevel);
      }
      var ginMode := Getenv(env, "GIN_MODE");
      if ginMode != "" {
        config := config.(ginMode := ginMode);
      }
    }

    /** Runs all three checks, appending one error per failing check. */
    method Validate()
      modifies this
      ensures config == old(config)
      ensures errors == old(errors) + ValidationErrors(config)
    {
      if config.port <= 0 || config.port > 65535 {
        errors := errors + [PortOutOfRange];
      }
      if config.logLevel !in LogLevels {
        errors := errors + [InvalidLogLevel];
      }
      if config.ginMode !in GinModes {
        errors := errors + [InvalidGinMode];
      }
    }

    /** Fails with every collected error if there is one; otherwise yields the configuration as it stands. */
    method Build() returns (r: Result<Config, seq<ConfigError>>)
      ensures r.Failure? <==> |errors| > 0
      ensures r.Failure? ==> r.error == errors
      ensures r.Success? ==> r.value == config
    {
      if |errors| > 0 {
        return Failure(errors);
      }
      r := Success(config);
    }
  }

  /** NewBuilder().WithEnv().Validate().Build(), as a function of the environment. */
  function Load(env: map<string, string>): Result<Config, seq<ConfigError>>
  {
    var c := EnvConfig(DefaultConfig, env);
    var errs := EnvErrors(env) + ValidationErrors(c);
    if |errs| > 0 then Failure(errs) else Success(c)
  }

  /** Runs the builder chain the server starts with. */
  method LoadConfig(env: map<string, string>, validate: bool) returns (r: Result<Config, seq<ConfigError>>)
    ensures validate ==> r == Load(env)
    ensures !validate ==> (r.Success? <==> EnvErrors(env) == [])
    ensures !validate && r.Success? ==> r.value == EnvConfig(DefaultConfig, env)
  {
    var b := new Builder();
    b.WithEnv(env);
    assert b.errors == EnvErrors(env);
    if validate {
      b.Validate();
    }
    r := b.Build();
  }

  /**
   * Loading succeeds exactly when PORT is unset or an integer and the
   * resulting configuration is valid; it then yields that configuration.
   */
  lemma LoadSucceedsExactly(env: map<string, string>)
    ensures Load(env).Success? <==>
      (Getenv(env, "PORT") == "" || ParseInt(Getenv(env, "PORT")).Some?) && ValidConfig(EnvConfig(DefaultConfig, env))
    ensures Load(env).Success? ==> Load(env).value == EnvConfig(DefaultConfig, env)
  {
  }

  /** With none of the three variables set the defaults load. */
  lemma LoadDefaults(env: map<string, string>)
    requires "PORT" !in env && "LOG_LEVEL" !in env && "GIN_MODE" !in env
    ensures Load(env) == Success(Config(8080, "info", "release"))
  {
  }

  /** A PORT that is not a number fails the load with PortNotInteger. */
  lemma LoadRejectsNonNumericPort()
    ensures var r := Load(map["PORT" := "not-a-number"]);
      r.Failure? && PortNotInteger in r.error
  {
  }

  /** PORT=0 with an invalid log level and mode reports all three errors together. */
  lemma LoadCollectsEveryError()
    ensures Load(map["PORT" := "0", "LOG_LEVEL" := "invalid", "GIN_MODE" := "invalid"])
         == Failure([PortOutOfRange, InvalidLogLevel, InvalidGinMode])
  {
    var env := map["PORT" := "0", "LOG_LEVEL" := "invalid", "GIN_MODE" := "invalid"];
    assert ParseInt("0") == Some(0);
    var c := EnvConfig(DefaultConfig, env);
    assert c == Config(0, "invalid", "invalid");
    assert EnvErrors(env) == [];
    assert "invalid" !in LogLevels && "invalid" !in GinModes;
    assert ValidationErrors(c) == [PortOutOfRange, InvalidLogLevel, InvalidGinMode];
    assert EnvErrors(env) + ValidationErrors(c) == ValidationErrors(c);
  }

  /** The error Build returns for those three errors names each of them, one per line, in order. */
  lemma MultipleErrorsText()
    ensures JoinedMessage([PortOutOfRange, InvalidLogLevel, InvalidGinMode])
         == Message(PortOutOfRange) + "\n" + Message(InvalidLogLevel) + "\n" + Message(InvalidGinMode)
  {
    var ms := Messages([PortOutOfRange, InvalidLogLevel, InvalidGinMode]);
    assert ms == [Message(PortOutOfRange), Message(InvalidLogLevel), Message(InvalidGinMode)];
    assert ms[1..][1..] == [Message(InvalidGinMode)];
  }
}
