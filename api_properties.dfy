/** What the secrets materialisation in `create_app` guarantees, stated over
    its specification `Api.EnvironEffect`. */
module ApiProperties {
  import opened JsonModel
  import opened Environ
  import opened Api

  /** Only keys the payload names are assigned. */
  lemma {:induction false} AssignedOnlyNamed(ms: seq<(string, Json)>, n: nat, k: string)
    requires n <= |ms|
    ensures k in Assigned(ms, n) <==> NamedBefore(ms, n, k)
  {
    if n > 0 {
      AssignedOnlyNamed(ms, n - 1, k);
      if k in Assigned(ms, n - 1) {
        var j :| 0 <= j < n - 1 && ms[j].0 == k;
        assert 0 <= j < n && ms[j].0 == k;
      }
    }
  }

  /** With distinct keys, every assigned member keeps its own value. */
  lemma {:induction false} AssignedDistinct(ms: seq<(string, Json)>, n: nat, j: nat)
    requires n <= |ms| && j < n && DistinctKeys(ms)
    ensures ms[j].0 in Assigned(ms, n) && Assigned(ms, n)[ms[j].0] == ValueText(ms[j].1)
  {
    if j < n - 1 {
      AssignedDistinct(ms, n - 1, j);
      assert ms[j].0 != ms[n - 1].0;
    }
  }

  /** The refusal search stops exactly at the first refused member. */
  lemma {:induction false} FirstUnwritableFromIs(ms: seq<(string, Json)>, i: nat, n: nat)
    requires i <= n <= |ms|
    requires forall j :: i <= j < n ==> Writable(ms[j])
    requires n < |ms| ==> !Writable(ms[n])
    ensures FirstUnwritableFrom(ms, i) == n
    decreases n - i
  {
    if i < n {
      FirstUnwritableFromIs(ms, i + 1, n);
    }
  }

  /** Every member before the first refused one is accepted. */
  lemma {:induction false} WritableBeforeFirstRefusal(ms: seq<(string, Json)>, i: nat)
    requires i <= |ms|
    ensures forall j :: i <= j < FirstUnwritableFrom(ms, i) ==> Writable(ms[j])
    decreases |ms| - i
  {
    if i < |ms| && Writable(ms[i]) {
      WritableBeforeFirstRefusal(ms, i + 1);
    }
  }

  /** The loop runs to completion exactly when `os.environ` accepts every member. */
  lemma AllWritableMaterialises(vars: map<string, string>, ms: seq<(string, Json)>)
    ensures MembersEffect(vars, ms).outcome == Materialised <==> AllWritable(ms)
  {
    if AllWritable(ms) {
      FirstUnwritableFromIs(ms, 0, |ms|);
    } else {
      WritableBeforeFirstRefusal(ms, 0);
    }
  }

  /** A refused member raises its own error after every earlier member was
      assigned; later members are never reached. */
  lemma PartialWriteAtFirstRefusal(vars: map<string, string>, ms: seq<(string, Json)>, n: nat)
    requires n < |ms| && !Writable(ms[n])
    requires forall j :: 0 <= j < n ==> Writable(ms[j])
    ensures MembersEffect(vars, ms).outcome == Raised(WriteError(ms[n].0, ms[n].1).value)
    ensures MembersEffect(vars, ms).vars == vars + Assigned(ms, n)
  {
    FirstUnwritableFromIs(ms, 0, n);
  }

  /** The key of the refused member is logged, after those of the members
      before it, and no later key is. */
  lemma LoggedThroughFirstRefusal(vars: map<string, string>, ms: seq<(string, Json)>, n: nat)
    requires n < |ms| && !Writable(ms[n])
    requires forall j :: 0 <= j < n ==> Writable(ms[j])
    ensures MembersEffect(vars, ms).logged == KeyLog(ms, n) + [SetEnvVar(ms[n].0)]
  {
    FirstUnwritableFromIs(ms, 0, n);
  }

  /** The outcome tells exactly what the carrier held. */
  lemma OutcomeClassifiesCarrier(vars: map<string, string>, parse: string -> Parsed)
    ensures var c, o := ReadCarrier(vars, parse), EnvironEffect(vars, parse).outcome;
      && (o == NoSecrets <==> c.Absent?)
      && (o == Raised(JsonDecodeError) <==> c.Undecodable?)
      && (o == Raised(NoItemsAttribute) <==> c.NotObject?)
      && (o == Materialised <==> c.Object? && AllWritable(c.members))
  {
    var c := ReadCarrier(vars, parse);
    if c.Object? {
      AllWritableMaterialises(vars, c.members);
      var n := FirstUnwritable(c.members);
      if n < |c.members| {
        var err := WriteError(c.members[n].0, c.members[n].1).value;
        assert err.ValueNotString? || err.PutenvRejected? || err.SetenvFailed?;
      }
    }
  }

  /** A variable the payload does not name is left as it was. */
  lemma UntouchedOutsidePayload(vars: map<string, string>, parse: string -> Parsed, k: string)
    requires !PayloadNames(ReadCarrier(vars, parse), k)
    ensures var after := EnvironEffect(vars, parse).vars;
      (k in after <==> k in vars) && (k in vars ==> after[k] == vars[k])
  {
    var c := ReadCarrier(vars, parse);
    if c.Object? {
      var ms := c.members;
      var n := FirstUnwritable(ms);
      AssignedOnlyNamed(ms, n, k);
    }
  }

  /** When every member is accepted and the keys are distinct, each secret is
      visible in the environment under its own key with its own text. */
  lemma SecretsVisible(vars: map<string, string>, parse: string -> Parsed, j: nat)
    requires ReadCarrier(vars, parse).Object?
    requires var ms := ReadCarrier(vars, parse).members;
      j < |ms| && AllWritable(ms) && DistinctKeys(ms)
    ensures var ms := ReadCarrier(vars, parse).members;
      var e := EnvironEffect(vars, parse);
      e.outcome == Materialised && ms[j].0 in e.vars && e.vars[ms[j].0] == ms[j].1.str
  {
    var ms := ReadCarrier(vars, parse).members;
    AllWritableMaterialises(vars, ms);
    AssignedDistinct(ms, |ms|, j);
  }

  lemma MergeAgain(a: map<string, string>, b: map<string, string>)
    ensures (a + b) + b == a + b
  {
  }

  /** Running the block a second time, on the environment the first run left,
      repeats the first run's outcome and changes nothing more, provided the
      payload does not overwrite the carrier itself. */
  lemma SecondRunRepeatsFirst(vars: map<string, string>, parse: string -> Parsed)
    requires !PayloadNames(ReadCarrier(vars, parse), SECRETS_MANAGER_ENV_NAME)
    ensures var first := EnvironEffect(vars, parse);
      var second := EnvironEffect(first.vars, parse);
      second.outcome == first.outcome && second.vars == first.vars
  {
    var first := EnvironEffect(vars, parse);
    UntouchedOutsidePayload(vars, parse, SECRETS_MANAGER_ENV_NAME);
    assert ReadCarrier(first.vars, parse) == ReadCarrier(vars, parse);
    var c := ReadCarrier(vars, parse);
    if c.Object? {
      MergeAgain(vars, Assigned(c.members, FirstUnwritable(c.members)));
    }
  }

  /** `{"A": 1}`: the number is refused before anything is written. */
  lemma NonStringValueRaises(vars: map<string, string>, parse: string -> Parsed)
    requires SECRETS_MANAGER_ENV_NAME in vars
    requires parse(vars[SECRETS_MANAGER_ENV_NAME]) == Decoded(JObject([("A", JNumber("1"))]))
    ensures var e := EnvironEffect(vars, parse);
      e.outcome == Raised(ValueNotString("A")) && e.vars == vars
      && e.logged == [FoundCarrier(SECRETS_MANAGER_ENV_NAME), SetEnvVar("A")]
  {
    var ms := [("A", JNumber("1"))];
    PartialWriteAtFirstRefusal(vars, ms, 0);
    LoggedThroughFirstRefusal(vars, ms, 0);
  }

  /** `{"": "x"}`: `putenv` passes the pair on and setenv(3) refuses the empty
      name with OSError, again before anything is written. */
  lemma EmptyNameRaises(vars: map<string, string>, parse: string -> Parsed)
    requires SECRETS_MANAGER_ENV_NAME in vars
    requires parse(vars[SECRETS_MANAGER_ENV_NAME]) == Decoded(JObject([("", JString("x"))]))
    ensures var e := EnvironEffect(vars, parse);
      e.outcome == Raised(SetenvFailed("")) && e.vars == vars
  {
    var ms := [("", JString("x"))];
    assert !Mentions("x", '\0') by {
      assert !MentionsFrom("x", '\0', 1);
    }
    PartialWriteAtFirstRefusal(vars, ms, 0);
  }
}
