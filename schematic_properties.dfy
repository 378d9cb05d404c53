/** What the `init` command guarantees, stated over its specification
    `Schematic.InitSpec`, for the secrets block as written (`SetenvEffect`) and
    for the same block writing through `os.environ` (`EnvironEffect`). */
module SchematicProperties {
  import opened Wrappers
  import opened JsonModel
  import opened Environ
  import opened Api
  import opened ApiProperties
  import opened Schematic

  // ---------------------------------------------------------------------
  // Options

  /** A string selects a mode exactly when it folds to that mode's name. */
  lemma ParseAuthSelects(s: string, a: Auth)
    ensures ParseAuth(Some(s)) == Success(a) <==> FoldCase(s) == AuthName(a)
  {
    assert AuthName(Token) != AuthName(ServiceAccount);
  }

  /** The canonical name of a mode, in any letter case, selects that mode. */
  lemma ParseAuthRoundTrip(a: Auth)
    ensures ParseAuth(Some(AuthName(a))) == Success(a)
    ensures ParseAuth(Some("Token")) == Success(Token)
    ensures ParseAuth(Some("SERVICE_ACCOUNT")) == Success(ServiceAccount)
  {
    var n := AuthName(a);
    assert FoldCase(n) == n;
    ParseAuthSelects(n, a);
    assert FoldCase("Token") == "token";
    ParseAuthSelects("Token", Token);
    assert FoldCase("SERVICE_ACCOUNT") == "service_account";
    ParseAuthSelects("SERVICE_ACCOUNT", ServiceAccount);
  }

  /** Letters outside ASCII that case-fold into a choice name select it too:
      KELVIN SIGN stands for 'k' and LONG S for 's'. */
  lemma ParseAuthFoldsCompatibilityLetters()
    ensures ParseAuth(Some("to\U{212A}en")) == Success(Token)
    ensures ParseAuth(Some("\U{017F}ervice_account")) == Success(ServiceAccount)
  {
    assert FoldCase("to\U{212A}en") == "token";
    ParseAuthSelects("to\U{212A}en", Token);
    assert FoldCase("\U{017F}ervice_account") == "service_account";
    ParseAuthSelects("\U{017F}ervice_account", ServiceAccount);
  }

  /** Only the two choices pass; anything else is reported with the text given. */
  lemma ParseAuthRejects()
    ensures ParseAuth(Some("oauth")) == Failure(BadAuthChoice("oauth"))
    ensures ParseAuth(Some("")) == Failure(BadAuthChoice(""))
  {
    assert FoldCase("oauth") == "oauth";
    assert FoldCase("") == "";
  }

  // ---------------------------------------------------------------------
  // Step order

  predicate GeneratesToken(steps: seq<Step>) {
    exists i :: 0 <= i < |steps| && steps[i].GenerateToken?
  }

  predicate Downloads(steps: seq<Step>) {
    exists i :: 0 <= i < |steps| && steps[i].DownloadCreds?
  }

  /** On `ValueError` from the configuration load the command exits with status
      1 before the carrier is read: no secrets record is logged and nothing in
      the environment changes. */
  lemma ConfigValueErrorExits(vars: map<string, string>, opts: InitOptions, load: string -> ConfigLoad,
                              secrets: Effect, download: (Auth, map<string, string>) -> bool,
                              generateToken: map<string, string> -> bool)
    requires load(opts.config) == LoadValueError
    ensures var r := InitSpec(vars, opts, load, secrets, download, generateToken);
      r.status == Exited(1) && r.vars == vars && r.steps == [LoadConfig(opts.config)]
      && forall i :: 0 <= i < |r.logged| ==> !r.logged[i].FoundCarrier? && !r.logged[i].NoCarrier?
  {
    var r := InitSpec(vars, opts, load, secrets, download, generateToken);
    assert r.logged == [LoadingConfig(opts.config), ConfigNotProvided, ConfigException];
  }

  /** The configuration is always loaded first, and the credentials are
      downloaded, with the chosen mode, right before any token is generated. */
  lemma DownloadPrecedesToken(vars: map<string, string>, opts: InitOptions, load: string -> ConfigLoad,
                              secrets: Effect, download: (Auth, map<string, string>) -> bool,
                              generateToken: map<string, string> -> bool)
    ensures var r := InitSpec(vars, opts, load, secrets, download, generateToken);
      |r.steps| >= 1 && r.steps[0] == LoadConfig(opts.config)
      && (forall i :: 1 <= i < |r.steps| ==> !r.steps[i].LoadConfig?)
      && (forall i :: 0 <= i < |r.steps| && r.steps[i].GenerateToken? ==>
            2 <= i && r.steps[i - 1] == DownloadCreds(opts.auth, r.steps[i].visible))
  {
  }

  /** A token is generated exactly for token authentication, once the
      configuration loaded, the secrets block finished and the download succeeded. */
  lemma TokenExactlyForTokenAuth(vars: map<string, string>, opts: InitOptions, load: string -> ConfigLoad,
                                 secrets: Effect, download: (Auth, map<string, string>) -> bool,
                                 generateToken: map<string, string> -> bool)
    ensures var r := InitSpec(vars, opts, load, secrets, download, generateToken);
      GeneratesToken(r.steps) <==>
        opts.auth == Token && load(opts.config) == Loaded && !secrets.outcome.Raised?
        && download(opts.auth, secrets.vars)
  {
    var r := InitSpec(vars, opts, load, secrets, download, generateToken);
    if opts.auth == Token && load(opts.config) == Loaded && !secrets.outcome.Raised? && download(opts.auth, secrets.vars) {
      assert r.steps[2].GenerateToken?;
    }
  }

  /** The credentials are downloaded exactly when the configuration loaded and
      the secrets block finished, and the download and the token generation
      both see the environment the secrets block left. */
  lemma DownloadSeesSecrets(vars: map<string, string>, opts: InitOptions, load: string -> ConfigLoad,
                            secrets: Effect, download: (Auth, map<string, string>) -> bool,
                            generateToken: map<string, string> -> bool)
    ensures var r := InitSpec(vars, opts, load, secrets, download, generateToken);
      (Downloads(r.steps) <==> load(opts.config) == Loaded && !secrets.outcome.Raised?)
      && forall i :: 0 <= i < |r.steps| && !r.steps[i].LoadConfig? ==> r.steps[i].visible == secrets.vars
  {
    var r := InitSpec(vars, opts, load, secrets, download, generateToken);
    if load(opts.config) == Loaded && !secrets.outcome.Raised? {
      assert r.steps[1].DownloadCreds?;
    }
  }

  // ---------------------------------------------------------------------
  // The secrets block as written and corrected

  /** Without a non-empty object in the carrier the block as written behaves
      exactly as the `os.environ` version does. */
  lemma AsWrittenAgreesWithoutPayload(vars: map<string, string>, parse: string -> Parsed)
    requires var c := ReadCarrier(vars, parse); !(c.Object? && |c.members| > 0)
    ensures SetenvEffect(vars, parse) == EnvironEffect(vars, parse)
  {
    var c := ReadCarrier(vars, parse);
    if c.Object? {
      assert FirstUnwritable(c.members) == 0;
      assert Assigned(c.members, 0) == map[];
      assert KeyLog(c.members, 0) == [];
      assert vars + map[] == vars;
    }
  }

  /** With a non-empty object in the carrier the block as written always raises
      `AttributeError` with nothing written, whatever the payload holds, while
      the `os.environ` version never raises it. */
  lemma AsWrittenDivergesOnPayload(vars: map<string, string>, parse: string -> Parsed)
    requires var c := ReadCarrier(vars, parse); c.Object? && |c.members| > 0
    ensures SetenvEffect(vars, parse).outcome == Raised(NoSetenvAttribute)
    ensures SetenvEffect(vars, parse).vars == vars
    ensures EnvironEffect(vars, parse).outcome != Raised(NoSetenvAttribute)
  {
    var ms := ReadCarrier(vars, parse).members;
    var n := FirstUnwritable(ms);
    if n < |ms| {
      var err := WriteError(ms[n].0, ms[n].1).value;
      assert err.ValueNotString? || err.PutenvRejected? || err.SetenvFailed?;
    }
  }

  /** `init` as written, given a non-empty object in the carrier, aborts on the
      first key with the environment unchanged and never downloads credentials. */
  lemma SetenvAbortsInit(vars: map<string, string>, opts: InitOptions, load: string -> ConfigLoad,
                         parse: string -> Parsed, download: (Auth, map<string, string>) -> bool,
                         generateToken: map<string, string> -> bool)
    requires load(opts.config) == Loaded
    requires var c := ReadCarrier(vars, parse); c.Object? && |c.members| > 0
    ensures var r := InitSpec(vars, opts, load, SetenvEffect(vars, parse), download, generateToken);
      r.status == Aborted(NoSetenvAttribute) && r.vars == vars && r.steps == [LoadConfig(opts.config)]
      && r.logged == [LoadingConfig(opts.config), FoundCarrier(SECRETS_MANAGER_ENV_NAME),
                      SetEnvVar(ReadCarrier(vars, parse).members[0].0)]
  {
  }

  /** Once the configuration loaded and the secrets block finished, the
      second step is the download, seeing the environment the block left. */
  lemma LoadedDownloadStep(vars: map<string, string>, opts: InitOptions, load: string -> ConfigLoad,
                           secrets: Effect, download: (Auth, map<string, string>) -> bool,
                           generateToken: map<string, string> -> bool)
    requires load(opts.config) == Loaded && !secrets.outcome.Raised?
    ensures var r := InitSpec(vars, opts, load, secrets, download, generateToken);
      |r.steps| >= 2 && r.steps[1] == DownloadCreds(opts.auth, secrets.vars)
  {
  }

  /** `init` with the secrets written through `os.environ`: when every member is
      accepted, the credentials are downloaded with every secret visible under
      its own key, and the rest of the environment as it was. */
  lemma InitDownloadsWithSecrets(vars: map<string, string>, opts: InitOptions, load: string -> ConfigLoad,
                                 parse: string -> Parsed, download: (Auth, map<string, string>) -> bool,
                                 generateToken: map<string, string> -> bool)
    requires load(opts.config) == Loaded
    requires var c := ReadCarrier(vars, parse); c.Object? && AllWritable(c.members) && DistinctKeys(c.members)
    ensures var ms := ReadCarrier(vars, parse).members;
      var r := InitSpec(vars, opts, load, EnvironEffect(vars, parse), download, generateToken);
      |r.steps| >= 2 && r.steps[1].DownloadCreds? && r.steps[1].auth == opts.auth
      && (forall j :: 0 <= j < |ms| ==> ms[j].0 in r.steps[1].visible && r.steps[1].visible[ms[j].0] == ms[j].1.str)
      && (forall k :: k in vars && !NamedBefore(ms, |ms|, k) ==> k in r.steps[1].visible && r.steps[1].visible[k] == vars[k])
  {
    var ms := ReadCarrier(vars, parse).members;
    var e := EnvironEffect(vars, parse);
    OutcomeClassifiesCarrier(vars, parse);
    LoadedDownloadStep(vars, opts, load, e, download, generateToken);
    forall j | 0 <= j < |ms|
      ensures ms[j].0 in e.vars && e.vars[ms[j].0] == ms[j].1.str
    {
      SecretsVisible(vars, parse, j);
    }
    forall k | k in vars && !NamedBefore(ms, |ms|, k)
      ensures k in e.vars && e.vars[k] == vars[k]
    {
      UntouchedOutsidePayload(vars, parse, k);
    }
  }

  /** Without a carrier both versions go on to the download with the
      environment unchanged; with undecodable carrier text both abort before it. */
  lemma CarrierAbsentOrUndecodable(vars: map<string, string>, opts: InitOptions, load: string -> ConfigLoad,
                                   parse: string -> Parsed, download: (Auth, map<string, string>) -> bool,
                                   generateToken: map<string, string> -> bool)
    requires load(opts.config) == Loaded
    ensures var asWritten := InitSpec(vars, opts, load, SetenvEffect(vars, parse), download, generateToken);
      var corrected := InitSpec(vars, opts, load, EnvironEffect(vars, parse), download, generateToken);
      (ReadCarrier(vars, parse).Absent? ==>
        asWritten.steps[1] == DownloadCreds(opts.auth, vars) && corrected.steps[1] == DownloadCreds(opts.auth, vars))
      && (ReadCarrier(vars, parse).Undecodable? ==>
        asWritten.status == Aborted(JsonDecodeError) && corrected.status == Aborted(JsonDecodeError)
        && asWritten.steps == corrected.steps == [LoadConfig(opts.config)])
  {
  }

  /** An empty object lets `init` as written go on to the download. */
  lemma EmptyPayloadProceeds(vars: map<string, string>, opts: InitOptions, load: string -> ConfigLoad,
                             parse: string -> Parsed, download: (Auth, map<string, string>) -> bool,
                             generateToken: map<string, string> -> bool)
    requires load(opts.config) == Loaded && ReadCarrier(vars, parse) == Object([])
    ensures var r := InitSpec(vars, opts, load, SetenvEffect(vars, parse), download, generateToken);
      r.vars == vars && r.steps[1] == DownloadCreds(opts.auth, vars)
  {
  }
}
