/**
 * The Python process environment (`os.environ`) together with the log records
 * the start-up code emits, and the exceptions that can escape from it.
 */
module Environ {
  import opened Wrappers
  import opened JsonModel

  /** The carrier variable the secrets manager fills with a JSON object. */
  const SECRETS_MANAGER_ENV_NAME: string := "SECRETS_MANAGER_SECRETS"

  /** One log record. None of them carries a secret value. */
  datatype LogRecord =
    | FoundCarrier(name: string)     // "FOUND env var {name}."
    | NoCarrier(name: string)        // "No env var {name} found."
    | SetEnvVar(key: string)         // "Set env var for {key}"
    | LoadingConfig(path: string)    // "Loading config file contents in '{path}'"
    | ConfigNotProvided              // "'--config' not provided or environment variable not set."
    | ConfigException                // the traceback written by logger.exception

  /** The exceptions that escape from the modelled code. */
  datatype PyError =
    | JsonDecodeError                // json.loads rejects the carrier text
    | NoItemsAttribute               // the parsed value is not a dict: no `.items()`
    | ValueNotString(key: string)    // TypeError from `os.environ[key] = value`
    | PutenvRejected(key: string)    // ValueError from `os.putenv`: '=' in the name, or NUL in either
    | SetenvFailed(key: string)      // OSError (EINVAL) from setenv(3): the name is empty
    | NoSetenvAttribute              // AttributeError: module 'os' has no attribute 'setenv'
    | ConfigLoadFailed               // any exception of `load_config` other than ValueError
    | CredentialsDownloadFailed      // `download_creds_file` raised
    | TokenGenerationFailed          // `generate_token` raised

  /** How one run of the secrets materialisation ended. */
  datatype Outcome = NoSecrets | Materialised | Raised(error: PyError)

  /** What one run of the secrets materialisation does: its outcome, the
      environment afterwards and the log records it appended. */
  datatype Effect = Effect(outcome: Outcome, vars: map<string, string>, logged: seq<LogRecord>)

  /** What `os.putenv` itself accepts (CPython 3.9 or later, POSIX): a name
      without '=' and no NUL character in the name or the value. */
  predicate PutenvAccepts(key: string, value: string) {
    !Mentions(key, '=') && !Mentions(key, '\0') && !Mentions(value, '\0')
  }

  /** Whether `c` occurs in `s`. */
  predicate Mentions(s: string, c: char) {
    MentionsFrom(s, c, 0)
  }

  /** Whether `c` occurs in `s` at position `i` or later. */
  predicate MentionsFrom(s: string, c: char, i: nat)
    decreases |s| - i
  {
    i < |s| && (s[i] == c || MentionsFrom(s, c, i + 1))
  }

  /** The exception `os.environ[key] = value` raises, if any: the value is
      checked to be a `str` before `putenv` sees the pair, and `putenv` checks
      the pair before setenv(3) refuses an empty name. */
  function WriteError(key: string, value: Json): (r: Option<PyError>) {
    if !value.JString? then Some(ValueNotString(key))
    else if !PutenvAccepts(key, value.str) then Some(PutenvRejected(key))
    else if key == "" then Some(SetenvFailed(key))
    else None
  }

  /** A payload member that `os.environ` accepts. */
  predicate Writable(m: (string, Json)) {
    WriteError(m.0, m.1).None?
  }

  /** The process environment and the log it shares with the rest of the process. */
  class Environment {
    var vars: map<string, string>
    var log: seq<LogRecord>

    constructor (initial: map<string, string>)
      ensures vars == initial && log == []
    {
      vars := initial;
      log := [];
    }

    /** `os.getenv(name)`: the value, or `None` when the variable is unset. */
    method GetEnv(name: string) returns (value: Option<string>)
      ensures value.Some? <==> name in vars
      ensures value.Some? ==> value.value == vars[name]
    {
      value := if name in vars then Some(vars[name]) else None;
    }

    /** `logger.info(...)` and its siblings: append one record. */
    method Info(r: LogRecord)
      modifies this`log
      ensures log == old(log) + [r]
    {
      log := log + [r];
    }

    /** `os.environ[key] = value`: set the variable, or raise and leave the
        environment as it was. */
    method SetItem(key: string, value: Json) returns (err: Option<PyError>)
      modifies this`vars
      ensures err == WriteError(key, value)
      ensures err.None? ==> value.JString? && vars == old(vars)[key := value.str]
      ensures err.Some? ==> vars == old(vars)
    {
      err := WriteError(key, value);
      if err.None? {
        vars := vars[key := value.str];
      }
    }
  }
}
