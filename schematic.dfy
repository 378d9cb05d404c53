/**
 * The `init` command of the schematic CLI (schematic/__init__.py:30-70): parse
 * `--auth` and `--config`, load the configuration, materialise the secrets the
 * secrets manager injected, download the credentials and, for token
 * authentication, generate the token.
 */
module Schematic {
  import opened Wrappers
  import opened JsonModel
  import opened Environ
  import opened Api

  // ---------------------------------------------------------------------
  // Command-line options

  /** The two modes of authentication `--auth` accepts. */
  datatype Auth = Token | ServiceAccount

  /** The choice string click hands to the command for each mode. */
  function AuthName(a: Auth): string {
    match a
    case Token => "token"
    case ServiceAccount => "service_account"
  }

  datatype CliError =
    | BadAuthChoice(given: string)   // "Invalid value for '-a' / '--auth'"
    | MissingConfig                  // "Missing option '-c' / '--config'"

  datatype InitOptions = InitOptions(auth: Auth, config: string)

  /** `str.casefold` of one character, on every character whose folding is a
      single ASCII letter: the capitals, KELVIN SIGN (to 'k') and LATIN SMALL
      LETTER LONG S (to 's'). Every other character is kept; none of them folds
      to text that can occur in a choice name. */
  function FoldChar(c: char): char {
    if 'A' <= c <= 'Z' then (c as int + 32) as char
    else if c == '\U{212A}' then 'k'
    else if c == '\U{017F}' then 's'
    else c
  }

  /** The case folding a case-insensitive `click.Choice` applies to the value
      and to each choice before comparing them. */
  function FoldCase(s: string): string {
    seq(|s|, i requires 0 <= i < |s| => FoldChar(s[i]))
  }

  /** `--auth`: "token" unless given; otherwise one of the two choices, compared
      without regard to case, and reported as the canonical choice. */
  function ParseAuth(arg: Option<string>): (r: Result<Auth, CliError>)
    ensures arg.None? ==> r == Success(Token)
    ensures arg.Some? && r.Success? ==> AuthName(r.value) == FoldCase(arg.value)
    ensures arg.Some? && r.Failure? ==>
      r.error == BadAuthChoice(arg.value) && forall a :: AuthName(a) != FoldCase(arg.value)
  {
    match arg
    case None => Success(Token)
    case Some(s) =>
      if FoldCase(s) == AuthName(Token) then Success(Token)
      else if FoldCase(s) == AuthName(ServiceAccount) then Success(ServiceAccount)
      else Failure(BadAuthChoice(s))
  }

  /** Both options together. A bad `--auth` can only come from the command
      line, where click meets it before it checks for the missing `--config`. */
  function ParseInitOptions(auth: Option<string>, config: Option<string>): (r: Result<InitOptions, CliError>)
    ensures r.Success? <==> ParseAuth(auth).Success? && config.Some?
    ensures r.Success? ==> r.value == InitOptions(ParseAuth(auth).value, config.value)
    ensures ParseAuth(auth).Failure? ==> r == Failure(ParseAuth(auth).error)
    ensures ParseAuth(auth).Success? && config.None? ==> r == Failure(MissingConfig)
  {
    match ParseAuth(auth)
    case Failure(e) => Failure(e)
    case Success(a) => if config.None? then Failure(MissingConfig) else Success(InitOptions(a, config.value))
  }

  // ---------------------------------------------------------------------
  // The command

  /** How `CONFIG.load_config` ends: it returns, raises `ValueError`, or raises
      anything else. */
  datatype ConfigLoad = Loaded | LoadValueError | LoadFailed

  /** The calls `init` makes into code outside the model, with the environment
      each of them sees. */
  datatype Step =
    | LoadConfig(path: string)
    | DownloadCreds(auth: Auth, visible: map<string, string>)
    | GenerateToken(visible: map<string, string>)

  /** How the command ends: normally, through `sys.exit`, or with an exception. */
  datatype Status = Completed | Exited(code: int) | Aborted(error: PyError)

  datatype InitResult = InitResult(status: Status, vars: map<string, string>, logged: seq<LogRecord>, steps: seq<Step>)

  /** The effect of the secrets block as `init` writes it: `os.setenv` does not
      exist, so the first member, whatever it holds, raises `AttributeError`
      right after its key is logged. */
  function SetenvEffect(vars: map<string, string>, parse: string -> Parsed): Effect {
    match ReadCarrier(vars, parse)
    case Absent => Effect(NoSecrets, vars, [NoCarrier(SECRETS_MANAGER_ENV_NAME)])
    case Undecodable => Effect(Raised(JsonDecodeError), vars, [FoundCarrier(SECRETS_MANAGER_ENV_NAME)])
    case NotObject => Effect(Raised(NoItemsAttribute), vars, [FoundCarrier(SECRETS_MANAGER_ENV_NAME)])
    case Object(ms) =>
      if |ms| == 0 then Effect(Materialised, vars, [FoundCarrier(SECRETS_MANAGER_ENV_NAME)])
      else Effect(Raised(NoSetenvAttribute), vars, [FoundCarrier(SECRETS_MANAGER_ENV_NAME), SetEnvVar(ms[0].0)])
  }

  /** Credential download, then token generation for token authentication,
      each seeing the environment `vars`. */
  function AuthSteps(vars: map<string, string>, auth: Auth, download: (Auth, map<string, string>) -> bool,
                     generateToken: map<string, string> -> bool): (Status, seq<Step>)
  {
    var fetched := [DownloadCreds(auth, vars)];
    if !download(auth, vars) then (Aborted(CredentialsDownloadFailed), fetched)
    else if auth != Token then (Completed, fetched)
    else if generateToken(vars) then (Completed, fetched + [GenerateToken(vars)])
    else (Aborted(TokenGenerationFailed), fetched + [GenerateToken(vars)])
  }

  /** What follows the secrets block: nothing when it raised, otherwise the
      download and token steps on the environment it left. */
  function AfterSecrets(secrets: Effect, auth: Auth, download: (Auth, map<string, string>) -> bool,
                        generateToken: map<string, string> -> bool): (Status, seq<Step>)
  {
    if secrets.outcome.Raised? then (Aborted(secrets.outcome.error), [])
    else AuthSteps(secrets.vars, auth, download, generateToken)
  }

  /** The whole command on the environment `vars`, given the effect `secrets`
      its secrets block has on `vars`. */
  function InitSpec(vars: map<string, string>, opts: InitOptions, load: string -> ConfigLoad, secrets: Effect,
                    download: (Auth, map<string, string>) -> bool,
                    generateToken: map<string, string> -> bool): InitResult
  {
    var start, loading := [LoadingConfig(opts.config)], [LoadConfig(opts.config)];
    match load(opts.config)
    case LoadValueError => InitResult(Exited(1), vars, start + [ConfigNotProvided, ConfigException], loading)
    case LoadFailed => InitResult(Aborted(ConfigLoadFailed), vars, start, loading)
    case Loaded =>
      var (status, steps) := AfterSecrets(secrets, opts.auth, download, generateToken);
      InitResult(status, secrets.vars, start + secrets.logged, loading + steps)
  }

  /** The secrets block of `init` as written, with `os.setenv`. */
  method MaterialiseSecretsAsWritten(env: Environment, parse: string -> Parsed) returns (outcome: Outcome)
    modifies env
    ensures var e := SetenvEffect(old(env.vars), parse);
      outcome == e.outcome && env.vars == e.vars && env.log == old(env.log) + e.logged
  {
    var data := env.GetEnv(SECRETS_MANAGER_ENV_NAME);
    if data.Some? {
      env.Info(FoundCarrier(SECRETS_MANAGER_ENV_NAME));
      var parsed := parse(data.value);
      if parsed.DecodeError? {
        return Raised(JsonDecodeError);
      }
      if !parsed.value.JObject? {
        return Raised(NoItemsAttribute);
      }
      var ms := parsed.value.members;
      assert ReadCarrier(old(env.vars), parse) == Object(ms);
      for i := 0 to |ms|
        invariant i == 0
      {
        env.Info(SetEnvVar(ms[i].0));
        return Raised(NoSetenvAttribute);
      }
      outcome := Materialised;
    } else {
      env.Info(NoCarrier(SECRETS_MANAGER_ENV_NAME));
      outcome := NoSecrets;
    }
  }

  /** The last two steps of `init`. */
  method RunAuthSteps(env: Environment, auth: Auth, download: (Auth, map<string, string>) -> bool,
                      generateToken: map<string, string> -> bool) returns (status: Status, steps: seq<Step>)
    ensures (status, steps) == AuthSteps(env.vars, auth, download, generateToken)
  {
    steps := [DownloadCreds(auth, env.vars)];
    if !download(auth, env.vars) {
      return Aborted(CredentialsDownloadFailed), steps;
    }
    if auth == Token {
      steps := steps + [GenerateToken(env.vars)];
      if !generateToken(env.vars) {
        return Aborted(TokenGenerationFailed), steps;
      }
    }
    status := Completed;
  }

  /** The configuration load of `init`: on `ValueError` the error is logged and
      the command exits with status 1; `stop` is `None` when it goes on. */
  method LoadConfiguration(env: Environment, config: string, load: string -> ConfigLoad) returns (stop: Option<Status>)
    modifies env`log
    ensures load(config) == Loaded <==> stop.None?
    ensures load(config) == LoadValueError ==>
      stop == Some(Exited(1)) && env.log == old(env.log) + [LoadingConfig(config), ConfigNotProvided, ConfigException]
    ensures load(config) == LoadFailed ==> stop == Some(Aborted(ConfigLoadFailed))
    ensures load(config) != LoadValueError ==> env.log == old(env.log) + [LoadingConfig(config)]
  {
    env.Info(LoadingConfig(config));
    var loaded := load(config);
    if loaded == LoadValueError {
      env.Info(ConfigNotProvided);
      env.Info(ConfigException);
      return Some(Exited(1));
    }
    if loaded == LoadFailed {
      return Some(Aborted(ConfigLoadFailed));
    }
    stop := None;
  }

  /** Everything after the configuration load, as written. */
  method SecretsThenAuthAsWritten(env: Environment, auth: Auth, parse: string -> Parsed,
                                  download: (Auth, map<string, string>) -> bool,
                                  generateToken: map<string, string> -> bool)
    returns (status: Status, steps: seq<Step>)
    modifies env
    ensures var e := SetenvEffect(old(env.vars), parse);
      (status, steps) == AfterSecrets(e, auth, download, generateToken)
      && env.vars == e.vars && env.log == old(env.log) + e.logged
  {
    var outcome := MaterialiseSecretsAsWritten(env, parse);
    if outcome.Raised? {
      return Aborted(outcome.error), [];
    }
    status, steps := RunAuthSteps(env, auth, download, generateToken);
  }

  /** Everything after the configuration load, with the secrets written
      through `os.environ`. */
  method SecretsThenAuth(env: Environment, auth: Auth, parse: string -> Parsed,
                         download: (Auth, map<string, string>) -> bool,
                         generateToken: map<string, string> -> bool)
    returns (status: Status, steps: seq<Step>)
    modifies env
    ensures var e := EnvironEffect(old(env.vars), parse);
      (status, steps) == AfterSecrets(e, auth, download, generateToken)
      && env.vars == e.vars && env.log == old(env.log) + e.logged
  {
    var outcome := MaterialiseSecrets(env, parse);
    if outcome.Raised? {
      return Aborted(outcome.error), [];
    }
    status, steps := RunAuthSteps(env, auth, download, generateToken);
  }

  /** `init` as written. */
  method InitAsWritten(env: Environment, opts: InitOptions, load: string -> ConfigLoad, parse: string -> Parsed,
                       download: (Auth, map<string, string>) -> bool, generateToken: map<string, string> -> bool)
    returns (status: Status, steps: seq<Step>)
    modifies env
    ensures var r := InitSpec(old(env.vars), opts, load, SetenvEffect(old(env.vars), parse), download, generateToken);
      status == r.status && steps == r.steps && env.vars == r.vars && env.log == old(env.log) + r.logged
  {
    var stop := LoadConfiguration(env, opts.config, load);
    if stop.Some? {
      return stop.value, [LoadConfig(opts.config)];
    }
    ghost var log1 := env.log;
    var rest: seq<Step>;
    status, rest := SecretsThenAuthAsWritten(env, opts.auth, parse, download, generateToken);
    steps := [LoadConfig(opts.config)] + rest;
    ghost var e := SetenvEffect(old(env.vars), parse);
    assert env.log == old(env.log) + ([LoadingConfig(opts.config)] + e.logged) by {
      assert log1 == old(env.log) + [LoadingConfig(opts.config)];
    }
  }

  /** `init` with its secrets block writing through `os.environ`, as `create_app` does. */
  method Init(env: Environment, opts: InitOptions, load: string -> ConfigLoad, parse: string -> Parsed,
              download: (Auth, map<string, string>) -> bool, generateToken: map<string, string> -> bool)
    returns (status: Status, steps: seq<Step>)
    modifies env
    ensures var r := InitSpec(old(env.vars), opts, load, EnvironEffect(old(env.vars), parse), download, generateToken);
      status == r.status && steps == r.steps && env.vars == r.vars && env.log == old(env.log) + r.logged
  {
    var stop := LoadConfiguration(env, opts.config, load);
    if stop.Some? {
      return stop.value, [LoadConfig(opts.config)];
    }
    ghost var log1 := env.log;
    var rest: seq<Step>;
    status, rest := SecretsThenAuth(env, opts.auth, parse, download, generateToken);
    steps := [LoadConfig(opts.config)] + rest;
    ghost var e := EnvironEffect(old(env.vars), parse);
    assert env.log == old(env.log) + ([LoadingConfig(opts.config)] + e.logged) by {
      assert log1 == old(env.log) + [LoadingConfig(opts.config)];
    }
  }
}
