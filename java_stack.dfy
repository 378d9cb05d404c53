/**
 * The Java CDK stack (cdk/src/main/java/com/myorg/DockerFargateStack.java):
 * the static getters that read the deployment environment and the
 * constructor that fills the secrets map and decides the container environment.
 */
module JavaStack {
  import opened Wrappers
  import opened StackModel

  const SECRETS_MANAGER_SYNAPSE_AUTH_TOKEN_KEY: string := "synapse-auth-token"
  const SECRETS_MANAGER_GOOGLE_AUTH_JSON_KEY: string := "google-auth-json"

  /** The names the two secrets have inside the container. */
  const SECRET_ENV_NAME_SYNAPSE_AUTH_TOKEN: string := SECRETS_MANAGER_ENV_PREFIX + SECRETS_MANAGER_SYNAPSE_AUTH_TOKEN_KEY
  const SECRET_ENV_NAME_GOOGLE_AUTH_JSON: string := SECRETS_MANAGER_ENV_PREFIX + SECRETS_MANAGER_GOOGLE_AUTH_JSON_KEY

  /** `StringUtils.isEmpty`: `null` or "". */
  function IsEmpty(s: Option<string>): (empty: bool)
    ensures s.None? ==> empty
    ensures s.Some? ==> (empty <==> |s.value| == 0)
  {
    s.None? || s.value == ""
  }

  /** The text a possibly-null `String` contributes to a concatenation. */
  function Concatenated(s: Option<string>): (r: string)
    ensures s.Some? ==> r == s.value
    ensures s.None? ==> r == "null"
  {
    match s
    case None => "null"
    case Some(v) => v
  }

  /** `getRequiredEnv`: the value, unless `StringUtils.isEmpty` holds of it. */
  function GetRequiredEnv(env: Env, envName: string): (r: Result<string, StackError>)
    ensures r.Success? <==> Present(env, envName)
    ensures r.Success? ==> r.value == env[envName] && r.value != ""
    ensures r.Failure? ==> r.error == Required(envName)
  {
    var result := Getenv(env, envName);
    if IsEmpty(result) then Failure(Required(envName)) else Success(result.value)
  }

  /** `getId` */
  function GetId(env: Env): (r: Result<string, StackError>)
    ensures r.Success? <==> Present(env, STACK_NAME_PREFIX)
    ensures r.Success? ==> r.value == env[STACK_NAME_PREFIX] + ID_SUFFIX
    ensures r.Failure? ==> r.error == Required(STACK_NAME_PREFIX)
  {
    match GetRequiredEnv(env, STACK_NAME_PREFIX)
    case Failure(e) => Failure(e)
    case Success(prefix) => Success(prefix + ID_SUFFIX)
  }

  /** `getVpcName` */
  function GetVpcName(env: Env): (r: Result<string, StackError>)
    ensures r.Success? <==> Present(env, STACK_NAME_PREFIX)
    ensures r.Success? ==> r.value == env[STACK_NAME_PREFIX] + VPC_SUFFIX
    ensures r.Failure? ==> r.error == Required(STACK_NAME_PREFIX)
  {
    match GetRequiredEnv(env, STACK_NAME_PREFIX)
    case Failure(e) => Failure(e)
    case Success(prefix) => Success(prefix + VPC_SUFFIX)
  }

  /** `getClusterName` */
  function GetClusterName(env: Env): (r: Result<string, StackError>)
    ensures r.Success? <==> Present(env, STACK_NAME_PREFIX)
    ensures r.Success? ==> r.value == env[STACK_NAME_PREFIX] + CLUSTER_SUFFIX
    ensures r.Failure? ==> r.error == Required(STACK_NAME_PREFIX)
  {
    match GetRequiredEnv(env, STACK_NAME_PREFIX)
    case Failure(e) => Failure(e)
    case Success(prefix) => Success(prefix + CLUSTER_SUFFIX)
  }

  /** `getServiceName` */
  function GetServiceName(env: Env): (r: Result<string, StackError>)
    ensures r.Success? <==> Present(env, STACK_NAME_PREFIX)
    ensures r.Success? ==> r.value == env[STACK_NAME_PREFIX] + SERVICE_SUFFIX
    ensures r.Failure? ==> r.error == Required(STACK_NAME_PREFIX)
  {
    match GetRequiredEnv(env, STACK_NAME_PREFIX)
    case Failure(e) => Failure(e)
    case Success(prefix) => Success(prefix + SERVICE_SUFFIX)
  }

  /** `getDockerImageName` */
  function GetDockerImageName(env: Env): (r: Result<string, StackError>)
    ensures r.Success? <==> Present(env, DOCKER_IMAGE_NAME)
    ensures r.Success? ==> r.value == env[DOCKER_IMAGE_NAME]
    ensures r.Failure? ==> r.error == Required(DOCKER_IMAGE_NAME)
  {
    GetRequiredEnv(env, DOCKER_IMAGE_NAME)
  }

  /** `getCostCenter` */
  function GetCostCenter(env: Env): (r: Result<string, StackError>)
    ensures r.Success? <==> Present(env, COST_CENTER)
    ensures r.Success? ==> r.value == env[COST_CENTER]
    ensures r.Failure? ==> r.error == Required(COST_CENTER)
  {
    GetRequiredEnv(env, COST_CENTER)
  }

  /** `getPort`: `Integer.parseInt` of the required `PORT`; `parseInt` stands
      for `Integer.parseInt`, out-of-range literals included among those it rejects. */
  function GetPort(env: Env, parseInt: string -> Option<int>): (r: Result<int, StackError>)
    ensures r.Success? <==> Present(env, PORT_NUMBER) && parseInt(env[PORT_NUMBER]).Some?
    ensures r.Success? ==> r.value == parseInt(env[PORT_NUMBER]).value
    ensures !Present(env, PORT_NUMBER) ==> r == Failure(Required(PORT_NUMBER))
    ensures Present(env, PORT_NUMBER) && parseInt(env[PORT_NUMBER]).None? ==> r == Failure(NotAnInteger(env[PORT_NUMBER]))
  {
    match GetRequiredEnv(env, PORT_NUMBER)
    case Failure(e) => Failure(e)
    case Success(text) =>
      match parseInt(text)
      case None => Failure(NotAnInteger(text))
      case Some(n) => Success(n)
  }

  /** `getSecretsManagerSynapseAuthTokenKey`: the prefix, a slash and the
      variable `synapse-auth-token`, which is not required. */
  function GetSecretsManagerSynapseAuthTokenKey(env: Env): (r: Result<string, StackError>)
    ensures r.Success? <==> Present(env, STACK_NAME_PREFIX)
    ensures r.Success? ==> r.value == env[STACK_NAME_PREFIX] + "/" + Concatenated(Getenv(env, SECRETS_MANAGER_SYNAPSE_AUTH_TOKEN_KEY))
    ensures r.Failure? ==> r.error == Required(STACK_NAME_PREFIX)
  {
    match GetRequiredEnv(env, STACK_NAME_PREFIX)
    case Failure(e) => Failure(e)
    case Success(prefix) => Success(prefix + "/" + Concatenated(Getenv(env, SECRETS_MANAGER_SYNAPSE_AUTH_TOKEN_KEY)))
  }

  /** `getSecretsManagerGoogleAuthJSONKey` */
  function GetSecretsManagerGoogleAuthJsonKey(env: Env): (r: Result<string, StackError>)
    ensures r.Success? <==> Present(env, STACK_NAME_PREFIX)
    ensures r.Success? ==> r.value == env[STACK_NAME_PREFIX] + "/" + Concatenated(Getenv(env, SECRETS_MANAGER_GOOGLE_AUTH_JSON_KEY))
    ensures r.Failure? ==> r.error == Required(STACK_NAME_PREFIX)
  {
    match GetRequiredEnv(env, STACK_NAME_PREFIX)
    case Failure(e) => Failure(e)
    case Success(prefix) => Success(prefix + "/" + Concatenated(Getenv(env, SECRETS_MANAGER_GOOGLE_AUTH_JSON_KEY)))
  }

  /** `createSecret`: every secret is imported under the stack's own `id`,
      whatever its name. */
  function CreateSecret(id: string, name: string): (r: SecretRef)
    ensures r.constructId == id && r.secretName == name
  {
    SecretRef(id, name)
  }

  /** The container environment: `ENV` only when `CONTAINER_ENV` is not empty. */
  function ContainerEnvironment(containerEnv: Option<string>): (r: map<string, string>)
    ensures ENV_NAME in r <==> !IsEmpty(containerEnv)
    ensures r.Keys <= {ENV_NAME}
    ensures ENV_NAME in r ==> r[ENV_NAME] == containerEnv.value
  {
    if !IsEmpty(containerEnv) then map[ENV_NAME := containerEnv.value] else map[]
  }

  /** The variables the constructor requires, in the order it reads them
      before `PORT` is parsed; `COST_CENTER` is read last. */
  const REQUIRED_BEFORE_PORT: seq<string> := [STACK_NAME_PREFIX, DOCKER_IMAGE_NAME, PORT_NUMBER]

  /** The required variables are checked one after the other, in reading order. */
  lemma RequiredInOrder(env: Env)
    ensures FirstMissing(env, REQUIRED_BEFORE_PORT) ==
      if !Present(env, STACK_NAME_PREFIX) then Some(STACK_NAME_PREFIX)
      else if !Present(env, DOCKER_IMAGE_NAME) then Some(DOCKER_IMAGE_NAME)
      else if !Present(env, PORT_NUMBER) then Some(PORT_NUMBER)
      else None
  {
    var names := REQUIRED_BEFORE_PORT;
    FirstMissingCons(env, names[0], names[1..]);
    FirstMissingCons(env, names[1], names[2..]);
    FirstMissingCons(env, names[2], names[3..]);
    assert names == [names[0]] + names[1..];
    assert names[1..] == [names[1]] + names[2..];
    assert names[2..] == [names[2]] + names[3..];
  }

  /** The exception the constructor stops at, if any. */
  function ConstructionError(env: Env, parseInt: string -> Option<int>): Option<StackError> {
    match FirstMissing(env, REQUIRED_BEFORE_PORT)
    case Some(name) => Some(Required(name))
    case None =>
      RequiredInOrder(env);
      if parseInt(env[PORT_NUMBER]).None? then Some(NotAnInteger(env[PORT_NUMBER]))
      else if !Present(env, COST_CENTER) then Some(Required(COST_CENTER))
      else None
  }

  /** Every required variable present and `PORT` an integer. */
  predicate Deployable(env: Env, parseInt: string -> Option<int>) {
    Present(env, STACK_NAME_PREFIX) && Present(env, DOCKER_IMAGE_NAME)
    && Present(env, PORT_NUMBER) && parseInt(env[PORT_NUMBER]).Some? && Present(env, COST_CENTER)
  }

  /** What a successful construction hands to the constructs; `stackId` is
      also the value of the `id` field. */
  function ExpectedStack(env: Env, parseInt: string -> Option<int>): StackSpec
    requires Deployable(env, parseInt)
  {
    var prefix := env[STACK_NAME_PREFIX];
    var id := prefix + ID_SUFFIX;
    StackSpec(
      id, prefix + VPC_SUFFIX, prefix + CLUSTER_SUFFIX, prefix + SERVICE_SUFFIX,
      env[DOCKER_IMAGE_NAME], parseInt(env[PORT_NUMBER]).value,
      map[SECRET_ENV_NAME_SYNAPSE_AUTH_TOKEN :=
            CreateSecret(id, prefix + "/" + Concatenated(Getenv(env, SECRETS_MANAGER_SYNAPSE_AUTH_TOKEN_KEY))),
          SECRET_ENV_NAME_GOOGLE_AUTH_JSON :=
            CreateSecret(id, prefix + "/" + Concatenated(Getenv(env, SECRETS_MANAGER_GOOGLE_AUTH_JSON_KEY)))],
      ContainerEnvironment(Getenv(env, CONTAINER_ENV)),
      env[COST_CENTER])
  }

  /** The constructor `DockerFargateStack(scope, props)`, in its order of
      evaluation; `id` is the field it assigns. Once the id is built the
      prefix is known to be present, so the later names cannot fail. */
  method Construct(env: Env, parseInt: string -> Option<int>) returns (r: Result<StackSpec, StackError>)
    ensures r.Failure? <==> ConstructionError(env, parseInt).Some?
    ensures r.Failure? ==> r.error == ConstructionError(env, parseInt).value
    ensures r.Success? ==> Deployable(env, parseInt) && r.value == ExpectedStack(env, parseInt)
  {
    RequiredInOrder(env);
    var superId := GetId(env);
    if superId.Failure? {
      return Failure(superId.error);
    }
    var id := GetId(env).value;
    var vpcName := GetVpcName(env).value;
    var clusterName := GetClusterName(env).value;
    var image := GetDockerImageName(env);
    if image.Failure? {
      return Failure(image.error);
    }
    var port := GetPort(env, parseInt);
    if port.Failure? {
      return Failure(port.error);
    }
    var secrets: map<string, SecretRef> := map[];
    secrets := secrets[SECRET_ENV_NAME_SYNAPSE_AUTH_TOKEN := CreateSecret(id, GetSecretsManagerSynapseAuthTokenKey(env).value)];
    secrets := secrets[SECRET_ENV_NAME_GOOGLE_AUTH_JSON := CreateSecret(id, GetSecretsManagerGoogleAuthJsonKey(env).value)];
    var envVars: map<string, string> := map[];
    var containerEnvVar := Getenv(env, CONTAINER_ENV);
    if !IsEmpty(containerEnvVar) {
      envVars := map[ENV_NAME := containerEnvVar.value];
    }
    var serviceName := GetServiceName(env).value;
    var costCenter := GetCostCenter(env);
    if costCenter.Failure? {
      return Failure(costCenter.error);
    }
    r := Success(StackSpec(id, vpcName, clusterName, serviceName, image.value, port.value,
                           secrets, envVars, costCenter.value));
  }

  // ---------------------------------------------------------------------
  // Properties of the stack

  /** The two secrets have different names inside the container. */
  lemma SecretEnvNamesDistinct()
    ensures SECRET_ENV_NAME_SYNAPSE_AUTH_TOKEN != SECRET_ENV_NAME_GOOGLE_AUTH_JSON
  {
    assert |SECRET_ENV_NAME_SYNAPSE_AUTH_TOKEN| == 34 && |SECRET_ENV_NAME_GOOGLE_AUTH_JSON| == 32;
  }

  /** Construction succeeds exactly when the four required variables are
      present and `PORT` is an integer; the secret-name variables are not required. */
  lemma ConstructionSucceeds(env: Env, parseInt: string -> Option<int>)
    ensures ConstructionError(env, parseInt).None? <==> Deployable(env, parseInt)
  {
    RequiredInOrder(env);
  }

  /** The secrets map holds exactly the two container names; each secret is
      named by the prefix, a slash and its variable, "null" when that is unset. */
  lemma SecretsExactlyTwo(env: Env, parseInt: string -> Option<int>)
    requires Deployable(env, parseInt)
    ensures var secrets, prefix := ExpectedStack(env, parseInt).secrets, env[STACK_NAME_PREFIX];
      secrets.Keys == {SECRET_ENV_NAME_SYNAPSE_AUTH_TOKEN, SECRET_ENV_NAME_GOOGLE_AUTH_JSON}
      && |secrets| == 2
      && secrets[SECRET_ENV_NAME_SYNAPSE_AUTH_TOKEN].secretName
           == prefix + "/" + Concatenated(Getenv(env, SECRETS_MANAGER_SYNAPSE_AUTH_TOKEN_KEY))
      && secrets[SECRET_ENV_NAME_GOOGLE_AUTH_JSON].secretName
           == prefix + "/" + Concatenated(Getenv(env, SECRETS_MANAGER_GOOGLE_AUTH_JSON_KEY))
      && (SECRETS_MANAGER_SYNAPSE_AUTH_TOKEN_KEY !in env ==>
            secrets[SECRET_ENV_NAME_SYNAPSE_AUTH_TOKEN].secretName == prefix + "/null")
  {
    SecretEnvNamesDistinct();
    var secrets := ExpectedStack(env, parseInt).secrets;
    assert secrets.Keys == {SECRET_ENV_NAME_SYNAPSE_AUTH_TOKEN} + {SECRET_ENV_NAME_GOOGLE_AUTH_JSON};
  }

  /** Both secrets are imported under the same construct id, the stack's `id`. */
  lemma SecretConstructIdsCoincide(env: Env, parseInt: string -> Option<int>)
    requires Deployable(env, parseInt)
    ensures var s := ExpectedStack(env, parseInt);
      s.secrets[SECRET_ENV_NAME_SYNAPSE_AUTH_TOKEN].constructId == s.stackId
      && s.secrets[SECRET_ENV_NAME_GOOGLE_AUTH_JSON].constructId == s.stackId
  {
    SecretEnvNamesDistinct();
  }

  /** The container gets `ENV` exactly when `CONTAINER_ENV` is set to
      something other than "", with that value, and nothing else. */
  lemma ContainerEnvironmentRule(env: Env, parseInt: string -> Option<int>)
    requires Deployable(env, parseInt)
    ensures var environment := ExpectedStack(env, parseInt).environment;
      (ENV_NAME in environment <==> Present(env, CONTAINER_ENV))
      && environment.Keys <= {ENV_NAME}
      && (Present(env, CONTAINER_ENV) ==> environment[ENV_NAME] == env[CONTAINER_ENV])
  {
  }

  /** The stack id and the VPC, cluster and service names are pairwise distinct. */
  lemma StackNamesDistinct(env: Env, parseInt: string -> Option<int>)
    requires Deployable(env, parseInt)
    ensures var s := ExpectedStack(env, parseInt);
      s.stackId != s.vpcName && s.stackId != s.clusterName && s.stackId != s.serviceName
      && s.vpcName != s.clusterName && s.vpcName != s.serviceName && s.clusterName != s.serviceName
  {
    ResourceNamesDistinct(env[STACK_NAME_PREFIX]);
  }

  // ---------------------------------------------------------------------
  // Construct ids

  /** Both secrets share the stack's `id`, so the CDK constructs library
      refuses the second one, at the fourth child of the stack's scope, on
      every environment the constructor gets that far with. */
  lemma SecretIdsCollide(env: Env, parseInt: string -> Option<int>)
    requires Deployable(env, parseInt)
    ensures var s := ExpectedStack(env, parseInt);
      var ids := ChildIds(s, SECRET_ENV_NAME_SYNAPSE_AUTH_TOKEN, SECRET_ENV_NAME_GOOGLE_AUTH_JSON);
      FirstDuplicate(ids) == Some(3) && ids[3] == s.stackId
  {
    SecretEnvNamesDistinct();
    var s := ExpectedStack(env, parseInt);
    var ids := ChildIds(s, SECRET_ENV_NAME_SYNAPSE_AUTH_TOKEN, SECRET_ENV_NAME_GOOGLE_AUTH_JSON);
    ResourceNamesDistinct(env[STACK_NAME_PREFIX]);
    assert ids[..3] == [ids[0], ids[1], ids[2]];
    assert ids[3] == ids[..3][2];
    FirstDuplicateAt(ids, 3);
  }

  /** The stack with each secret imported under its own container name, the
      one key it has in the secrets map, rather than under the shared `id`. */
  function CorrectedStack(env: Env, parseInt: string -> Option<int>): StackSpec
    requires Deployable(env, parseInt)
  {
    var s := ExpectedStack(env, parseInt);
    s.(secrets := map[
      SECRET_ENV_NAME_SYNAPSE_AUTH_TOKEN :=
        CreateSecret(SECRET_ENV_NAME_SYNAPSE_AUTH_TOKEN, s.secrets[SECRET_ENV_NAME_SYNAPSE_AUTH_TOKEN].secretName),
      SECRET_ENV_NAME_GOOGLE_AUTH_JSON :=
        CreateSecret(SECRET_ENV_NAME_GOOGLE_AUTH_JSON, s.secrets[SECRET_ENV_NAME_GOOGLE_AUTH_JSON].secretName)])
  }

  /** Neither container name of a secret can be the name of the VPC, the
      cluster or the service, whatever the prefix: those end in 'C', 'r'
      and 'e', and both container names end in 'n'. */
  lemma ContainerNamesAreNotResourceNames(p: string)
    ensures SECRET_ENV_NAME_SYNAPSE_AUTH_TOKEN !in {p + VPC_SUFFIX, p + CLUSTER_SUFFIX, p + SERVICE_SUFFIX}
    ensures SECRET_ENV_NAME_GOOGLE_AUTH_JSON !in {p + VPC_SUFFIX, p + CLUSTER_SUFFIX, p + SERVICE_SUFFIX}
  {
    var a, b := SECRET_ENV_NAME_SYNAPSE_AUTH_TOKEN, SECRET_ENV_NAME_GOOGLE_AUTH_JSON;
    assert |a| == 34 && a[33] == 'n';
    assert |b| == 32 && b[31] == 'n';
    LastCharDiffers(a, p, VPC_SUFFIX);
    LastCharDiffers(a, p, CLUSTER_SUFFIX);
    LastCharDiffers(a, p, SERVICE_SUFFIX);
    LastCharDiffers(b, p, VPC_SUFFIX);
    LastCharDiffers(b, p, CLUSTER_SUFFIX);
    LastCharDiffers(b, p, SERVICE_SUFFIX);
  }

  /** With those ids every child of the stack's scope has an id of its own,
      for every prefix, and nothing else about the stack changes: the same
      secrets under the same container names. */
  lemma CorrectedSecretIdsUnique(env: Env, parseInt: string -> Option<int>)
    requires Deployable(env, parseInt)
    ensures var s, c := ExpectedStack(env, parseInt), CorrectedStack(env, parseInt);
      FirstDuplicate(ChildIds(c, SECRET_ENV_NAME_SYNAPSE_AUTH_TOKEN, SECRET_ENV_NAME_GOOGLE_AUTH_JSON)).None?
      && c.secrets.Keys == s.secrets.Keys
      && c.secrets[SECRET_ENV_NAME_SYNAPSE_AUTH_TOKEN].secretName == s.secrets[SECRET_ENV_NAME_SYNAPSE_AUTH_TOKEN].secretName
      && c.secrets[SECRET_ENV_NAME_GOOGLE_AUTH_JSON].secretName == s.secrets[SECRET_ENV_NAME_GOOGLE_AUTH_JSON].secretName
      && c.(secrets := s.secrets) == s
  {
    SecretEnvNamesDistinct();
    var p := env[STACK_NAME_PREFIX];
    ResourceNamesDistinct(p);
    ContainerNamesAreNotResourceNames(p);
    var s, c := ExpectedStack(env, parseInt), CorrectedStack(env, parseInt);
    var ids := ChildIds(c, SECRET_ENV_NAME_SYNAPSE_AUTH_TOKEN, SECRET_ENV_NAME_GOOGLE_AUTH_JSON);
    assert ids == [p + VPC_SUFFIX, p + CLUSTER_SUFFIX, SECRET_ENV_NAME_SYNAPSE_AUTH_TOKEN,
                   SECRET_ENV_NAME_GOOGLE_AUTH_JSON, p + SERVICE_SUFFIX];
    assert UniqueIds(ids);
    assert s.secrets.Keys == {SECRET_ENV_NAME_SYNAPSE_AUTH_TOKEN} + {SECRET_ENV_NAME_GOOGLE_AUTH_JSON};
  }
}
