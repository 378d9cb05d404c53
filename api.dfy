/**
 * The secrets materialisation in `create_app` (api/__init__.py:38-48): read the
 * carrier variable, parse it as JSON and write every member of the resulting
 * object into `os.environ`, in payload order, logging each key first.
 */
module Api {
  import opened Wrappers
  import opened JsonModel
  import opened Environ

  /** What reading and parsing the carrier yields. */
  datatype Carrier =
    | Absent                                   // the variable is unset
    | Undecodable                              // json.loads raises
    | NotObject                                // a JSON value without `.items()`
    | Object(members: seq<(string, Json)>)     // a dict, in iteration order

  function ReadCarrier(vars: map<string, string>, parse: string -> Parsed): Carrier {
    if SECRETS_MANAGER_ENV_NAME !in vars then Absent
    else match parse(vars[SECRETS_MANAGER_ENV_NAME])
      case DecodeError => Undecodable
      case Decoded(v) => if v.JObject? then Object(v.members) else NotObject
  }

  predicate AllWritable(ms: seq<(string, Json)>) {
    forall j :: 0 <= j < |ms| ==> Writable(ms[j])
  }

  predicate DistinctKeys(ms: seq<(string, Json)>) {
    forall i, j :: 0 <= i < j < |ms| ==> ms[i].0 != ms[j].0
  }

  /** Whether one of the first `n` members has key `k`. */
  predicate NamedBefore(ms: seq<(string, Json)>, n: nat, k: string)
    requires n <= |ms|
  {
    exists j :: 0 <= j < n && ms[j].0 == k
  }

  /** Whether the payload names `k`; nothing is named when there is no object. */
  predicate PayloadNames(c: Carrier, k: string) {
    c.Object? && NamedBefore(c.members, |c.members|, k)
  }

  /** The text `os.environ` stores for a value it accepts. */
  function ValueText(v: Json): string {
    if v.JString? then v.str else ""
  }

  /** The position, from `i` on, of the first member `os.environ` refuses, or
      the length when it accepts them all. */
  function FirstUnwritableFrom(ms: seq<(string, Json)>, i: nat): (n: nat)
    requires i <= |ms|
    ensures i <= n <= |ms|
    ensures n < |ms| ==> !Writable(ms[n])
    decreases |ms| - i
  {
    if i == |ms| then i
    else if !Writable(ms[i]) then i
    else FirstUnwritableFrom(ms, i + 1)
  }

  function FirstUnwritable(ms: seq<(string, Json)>): nat {
    FirstUnwritableFrom(ms, 0)
  }

  /** The variables the first `n` members define: a later member with the same
      key overrides an earlier one, as repeated assignment does. */
  function Assigned(ms: seq<(string, Json)>, n: nat): map<string, string>
    requires n <= |ms|
  {
    if n == 0 then map[] else Assigned(ms, n - 1)[ms[n - 1].0 := ValueText(ms[n - 1].1)]
  }

  /** One "Set env var for {key}" record for each of the first `n` members. */
  function KeyLog(ms: seq<(string, Json)>, n: nat): seq<LogRecord>
    requires n <= |ms|
  {
    seq(n, j requires 0 <= j < n => SetEnvVar(ms[j].0))
  }

  /** The effect of the loop over the members of a parsed object on the
      environment `vars`: every member before the first refused one is
      assigned, and every member up to and including it is logged. */
  function MembersEffect(vars: map<string, string>, ms: seq<(string, Json)>): Effect {
    var n := FirstUnwritable(ms);
    if n == |ms| then Effect(Materialised, vars + Assigned(ms, n), KeyLog(ms, n))
    else Effect(Raised(WriteError(ms[n].0, ms[n].1).value), vars + Assigned(ms, n), KeyLog(ms, n + 1))
  }

  /** The effect of the `create_app` block on the environment `vars`. */
  function EnvironEffect(vars: map<string, string>, parse: string -> Parsed): Effect {
    match ReadCarrier(vars, parse)
    case Absent => Effect(NoSecrets, vars, [NoCarrier(SECRETS_MANAGER_ENV_NAME)])
    case Undecodable => Effect(Raised(JsonDecodeError), vars, [FoundCarrier(SECRETS_MANAGER_ENV_NAME)])
    case NotObject => Effect(Raised(NoItemsAttribute), vars, [FoundCarrier(SECRETS_MANAGER_ENV_NAME)])
    case Object(ms) =>
      var e := MembersEffect(vars, ms);
      e.(logged := [FoundCarrier(SECRETS_MANAGER_ENV_NAME)] + e.logged)
  }

  lemma KeyLogSnoc(ms: seq<(string, Json)>, i: nat)
    requires i < |ms|
    ensures KeyLog(ms, i + 1) == KeyLog(ms, i) + [SetEnvVar(ms[i].0)]
  {
  }

  lemma MergeThenAssign(a: map<string, string>, b: map<string, string>, k: string, x: string)
    ensures (a + b)[k := x] == a + b[k := x]
  {
  }

  /** On an object, the block ends as the loop does, after the carrier record. */
  lemma ObjectEffect(vars: map<string, string>, parse: string -> Parsed, ms: seq<(string, Json)>,
                     outcome: Outcome, after: map<string, string>, log0: seq<LogRecord>, log: seq<LogRecord>)
    requires ReadCarrier(vars, parse) == Object(ms)
    requires var e := MembersEffect(vars, ms);
      outcome == e.outcome && after == e.vars && log == (log0 + [FoundCarrier(SECRETS_MANAGER_ENV_NAME)]) + e.logged
    ensures var e := EnvironEffect(vars, parse);
      outcome == e.outcome && after == e.vars && log == log0 + e.logged
  {
    var e := MembersEffect(vars, ms);
    assert (log0 + [FoundCarrier(SECRETS_MANAGER_ENV_NAME)]) + e.logged
        == log0 + ([FoundCarrier(SECRETS_MANAGER_ENV_NAME)] + e.logged);
  }

  /** The loop over `json_dict.items()`: log each key, then assign it, and stop
      at the first assignment `os.environ` refuses. */
  method WriteMembers(env: Environment, ms: seq<(string, Json)>) returns (outcome: Outcome)
    modifies env
    ensures var e := MembersEffect(old(env.vars), ms);
      outcome == e.outcome && env.vars == e.vars && env.log == old(env.log) + e.logged
  {
    ghost var vars0, log0 := env.vars, env.log;
    var i := 0;
    while i < |ms|
      invariant i <= |ms|
      invariant FirstUnwritableFrom(ms, i) == FirstUnwritable(ms)
      invariant env.vars == vars0 + Assigned(ms, i)
      invariant env.log == log0 + KeyLog(ms, i)
    {
      var key, value := ms[i].0, ms[i].1;
      env.Info(SetEnvVar(key));
      KeyLogSnoc(ms, i);
      var err := env.SetItem(key, value);
      if err.Some? {
        return Raised(err.value);
      }
      MergeThenAssign(vars0, Assigned(ms, i), key, value.str);
      i := i + 1;
    }
    outcome := Materialised;
  }

  /** The block itself, run against the process environment. */
  method MaterialiseSecrets(env: Environment, parse: string -> Parsed) returns (outcome: Outcome)
    modifies env
    ensures var e := EnvironEffect(old(env.vars), parse);
      outcome == e.outcome && env.vars == e.vars && env.log == old(env.log) + e.logged
  {
    ghost var vars0, log0 := env.vars, env.log;
    var data := env.GetEnv(SECRETS_MANAGER_ENV_NAME);
    if data.None? {
      env.Info(NoCarrier(SECRETS_MANAGER_ENV_NAME));
      return NoSecrets;
    }
    env.Info(FoundCarrier(SECRETS_MANAGER_ENV_NAME));
    var parsed := parse(data.value);
    if parsed.DecodeError? {
      assert ReadCarrier(vars0, parse) == Undecodable;
      return Raised(JsonDecodeError);
    }
    if !parsed.value.JObject? {
      assert ReadCarrier(vars0, parse) == NotObject;
      return Raised(NoItemsAttribute);
    }
    var ms := parsed.value.members;
    assert ReadCarrier(vars0, parse) == Object(ms);
    outcome := WriteMembers(env, ms);
    ObjectEffect(vars0, parse, ms, outcome, env.vars, log0, env.log);
  }
}
