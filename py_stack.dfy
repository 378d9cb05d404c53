/**
 * The Python CDK stack (cdk/docker_fargate/docker_fargate_stack.py): the
 * helpers that read the deployment environment and the construction of the
 * stack's secrets and container environment.
 */
module PyStack {
  import opened Wrappers
  import opened StackModel

  const SECRETS_MANAGER_SYNAPSE_AUTH_TOKEN_KEY: string := "SECRETS_MANAGER_SYNAPSE_AUTH_TOKEN_KEY"
  const SECRETS_MANAGER_GOOGLE_AUTH_JSON_KEY: string := "SECRETS_MANAGER_GOOGLE_AUTH_JSON_KEY"

  /** The names the two secrets have inside the container. */
  const SECRET_ENV_NAME_SYNAPSE_AUTH_TOKEN: string := SECRETS_MANAGER_ENV_PREFIX + SECRETS_MANAGER_SYNAPSE_AUTH_TOKEN_KEY
  const SECRET_ENV_NAME_GOOGLE_AUTH_JSON: string := SECRETS_MANAGER_ENV_PREFIX + SECRETS_MANAGER_GOOGLE_AUTH_JSON_KEY

  /** `get_required_env`: the value, unless the variable is unset or empty. */
  function GetRequiredEnv(env: Env, name: string): (r: Result<string, StackError>)
    ensures r.Success? <==> Present(env, name)
    ensures r.Success? ==> r.value == env[name] && r.value != ""
    ensures r.Failure? ==> r.error == Required(name)
  {
    var value := Getenv(env, name);
    if value.None? || |value.value| == 0 then Failure(Required(name)) else Success(value.value)
  }

  /** `create_id` */
  function CreateId(env: Env): (r: Result<string, StackError>)
    ensures r.Success? <==> Present(env, STACK_NAME_PREFIX)
    ensures r.Success? ==> r.value == env[STACK_NAME_PREFIX] + ID_SUFFIX
    ensures r.Failure? ==> r.error == Required(STACK_NAME_PREFIX)
  {
    match GetRequiredEnv(env, STACK_NAME_PREFIX)
    case Failure(e) => Failure(e)
    case Success(prefix) => Success(prefix + ID_SUFFIX)
  }

  /** `get_vpc_name` */
  function GetVpcName(env: Env): (r: Result<string, StackError>)
    ensures r.Success? <==> Present(env, STACK_NAME_PREFIX)
    ensures r.Success? ==> r.value == env[STACK_NAME_PREFIX] + VPC_SUFFIX
    ensures r.Failure? ==> r.error == Required(STACK_NAME_PREFIX)
  {
    match GetRequiredEnv(env, STACK_NAME_PREFIX)
    case Failure(e) => Failure(e)
    case Success(prefix) => Success(prefix + VPC_SUFFIX)
  }

  /** `get_cluster_name` */
  function GetClusterName(env: Env): (r: Result<string, StackError>)
    ensures r.Success? <==> Present(env, STACK_NAME_PREFIX)
    ensures r.Success? ==> r.value == env[STACK_NAME_PREFIX] + CLUSTER_SUFFIX
    ensures r.Failure? ==> r.error == Required(STACK_NAME_PREFIX)
  {
    match GetRequiredEnv(env, STACK_NAME_PREFIX)
    case Failure(e) => Failure(e)
    case Success(prefix) => Success(prefix + CLUSTER_SUFFIX)
  }

  /** `get_service_name` */
  function GetServiceName(env: Env): (r: Result<string, StackError>)
    ensures r.Success? <==> Present(env, STACK_NAME_PREFIX)
    ensures r.Success? ==> r.value == env[STACK_NAME_PREFIX] + SERVICE_SUFFIX
    ensures r.Failure? ==> r.error == Required(STACK_NAME_PREFIX)
  {
    match GetRequiredEnv(env, STACK_NAME_PREFIX)
    case Failure(e) => Failure(e)
    case Success(prefix) => Success(prefix + SERVICE_SUFFIX)
  }

  /** `get_docker_image_name` */
  function GetDockerImageName(env: Env): (r: Result<string, StackError>)
    ensures r.Success? <==> Present(env, DOCKER_IMAGE_NAME)
    ensures r.Success? ==> r.value == env[DOCKER_IMAGE_NAME]
    ensures r.Failure? ==> r.error == Required(DOCKER_IMAGE_NAME)
  {
    GetRequiredEnv(env, DOCKER_IMAGE_NAME)
  }

  /** `get_cost_center` */
  function GetCostCenter(env: Env): (r: Result<string, StackError>)
    ensures r.Success? <==> Present(env, COST_CENTER)
    ensures r.Success? ==> r.value == env[COST_CENTER]
    ensures r.Failure? ==> r.error == Required(COST_CENTER)
  {
    GetRequiredEnv(env, COST_CENTER)
  }

  /** `get_port`: `int()` of the required `PORT`; `parseInt` stands for `int()`. */
  function GetPort(env: Env, parseInt: string -> Option<int>): (r: Result<int, StackError>)
    ensures r.Success? <==> Present(env, PORT_NUMBER) && parseInt(env[PORT_NUMBER]).Some?
    ensures r.Success? ==> r.value == parseInt(env[PORT_NUMBER]).value
    ensures !Present(env, PORT_NUMBER) ==> r == Failure(Required(PORT_NUMBER))
    ensures Present(env, PORT_NUMBER) && parseInt(env[PORT_NUMBER]).None? ==> r == Failure(NotAnInteger(env[PORT_NUMBER]))
  {
    match GetRequiredEnv(env, PORT_NUMBER)
    case Failure(e) => Failure(e)
    case Success(text) =>
      match parseInt(text)
      case None => Failure(NotAnInteger(text))
      case Some(n) => Success(n)
  }

  /** `get_secrets_manager_synapse_auth_token_key`: the name of the secret is
      itself a required variable. */
  function GetSecretsManagerSynapseAuthTokenKey(env: Env): (r: Result<string, StackError>)
    ensures r.Success? <==> Present(env, SECRETS_MANAGER_SYNAPSE_AUTH_TOKEN_KEY)
    ensures r.Success? ==> r.value == env[SECRETS_MANAGER_SYNAPSE_AUTH_TOKEN_KEY]
    ensures r.Failure? ==> r.error == Required(SECRETS_MANAGER_SYNAPSE_AUTH_TOKEN_KEY)
  {
    GetRequiredEnv(env, SECRETS_MANAGER_SYNAPSE_AUTH_TOKEN_KEY)
  }

  /** `get_secrets_manager_google_auth_json_key` */
  function GetSecretsManagerGoogleAuthJsonKey(env: Env): (r: Result<string, StackError>)
    ensures r.Success? <==> Present(env, SECRETS_MANAGER_GOOGLE_AUTH_JSON_KEY)
    ensures r.Success? ==> r.value == env[SECRETS_MANAGER_GOOGLE_AUTH_JSON_KEY]
    ensures r.Failure? ==> r.error == Required(SECRETS_MANAGER_GOOGLE_AUTH_JSON_KEY)
  {
    GetRequiredEnv(env, SECRETS_MANAGER_GOOGLE_AUTH_JSON_KEY)
  }

  /** `create_secret`: the secret is imported under a construct id equal to its name. */
  function CreateSecret(name: string): (r: SecretRef)
    ensures r.constructId == name && r.secretName == name
  {
    SecretRef(name, name)
  }

  /** The variables the stack requires, in the order construction reads them;
      `PORT` must moreover be an integer, which is checked as soon as it is read. */
  const REQUIRED_BEFORE_PORT: seq<string> :=
    [STACK_NAME_PREFIX, SECRETS_MANAGER_SYNAPSE_AUTH_TOKEN_KEY, SECRETS_MANAGER_GOOGLE_AUTH_JSON_KEY,
     DOCKER_IMAGE_NAME, PORT_NUMBER]

  /** The required variables are checked one after the other, in reading order. */
  lemma RequiredInOrder(env: Env)
    ensures FirstMissing(env, REQUIRED_BEFORE_PORT) ==
      if !Present(env, STACK_NAME_PREFIX) then Some(STACK_NAME_PREFIX)
      else if !Present(env, SECRETS_MANAGER_SYNAPSE_AUTH_TOKEN_KEY) then Some(SECRETS_MANAGER_SYNAPSE_AUTH_TOKEN_KEY)
      else if !Present(env, SECRETS_MANAGER_GOOGLE_AUTH_JSON_KEY) then Some(SECRETS_MANAGER_GOOGLE_AUTH_JSON_KEY)
      else if !Present(env, DOCKER_IMAGE_NAME) then Some(DOCKER_IMAGE_NAME)
      else if !Present(env, PORT_NUMBER) then Some(PORT_NUMBER)
      else None
  {
    var names := REQUIRED_BEFORE_PORT;
    FirstMissingCons(env, names[0], names[1..]);
    FirstMissingCons(env, names[1], names[2..]);
    FirstMissingCons(env, names[2], names[3..]);
    FirstMissingCons(env, names[3], names[4..]);
    FirstMissingCons(env, names[4], names[5..]);
    assert names == [names[0]] + names[1..];
    assert names[1..] == [names[1]] + names[2..];
    assert names[2..] == [names[2]] + names[3..];
    assert names[3..] == [names[3]] + names[4..];
    assert names[4..] == [names[4]] + names[5..];
  }

  /** The error construction stops at, if any: the first required variable
      missing, in reading order, with `COST_CENTER` read last. */
  function ConstructionError(env: Env, parseInt: string -> Option<int>): Option<StackError> {
    match FirstMissing(env, REQUIRED_BEFORE_PORT)
    case Some(name) => Some(Required(name))
    case None =>
      RequiredInOrder(env);
      if parseInt(env[PORT_NUMBER]).None? then Some(NotAnInteger(env[PORT_NUMBER]))
      else if !Present(env, COST_CENTER) then Some(Required(COST_CENTER))
      else None
  }

  /** The container environment: `ENV` whenever `CONTAINER_ENV` is set, even to "". */
  function ContainerEnvironment(containerEnv: Option<string>): (r: map<string, string>)
    ensures ENV_NAME in r <==> containerEnv.Some?
    ensures r.Keys <= {ENV_NAME}
    ensures ENV_NAME in r ==> r[ENV_NAME] == containerEnv.value
  {
    if containerEnv.Some? then map[ENV_NAME := containerEnv.value] else map[]
  }

  /** Every required variable present and `PORT` an integer. */
  predicate Deployable(env: Env, parseInt: string -> Option<int>) {
    Present(env, STACK_NAME_PREFIX) && Present(env, SECRETS_MANAGER_SYNAPSE_AUTH_TOKEN_KEY)
    && Present(env, SECRETS_MANAGER_GOOGLE_AUTH_JSON_KEY) && Present(env, DOCKER_IMAGE_NAME)
    && Present(env, PORT_NUMBER) && parseInt(env[PORT_NUMBER]).Some? && Present(env, COST_CENTER)
  }

  /** What a successful construction hands to the constructs. */
  function ExpectedStack(env: Env, parseInt: string -> Option<int>): StackSpec
    requires Deployable(env, parseInt)
  {
    var prefix := env[STACK_NAME_PREFIX];
    StackSpec(
      prefix + ID_SUFFIX, prefix + VPC_SUFFIX, prefix + CLUSTER_SUFFIX, prefix + SERVICE_SUFFIX,
      env[DOCKER_IMAGE_NAME], parseInt(env[PORT_NUMBER]).value,
      map[SECRET_ENV_NAME_SYNAPSE_AUTH_TOKEN := CreateSecret(env[SECRETS_MANAGER_SYNAPSE_AUTH_TOKEN_KEY]),
          SECRET_ENV_NAME_GOOGLE_AUTH_JSON := CreateSecret(env[SECRETS_MANAGER_GOOGLE_AUTH_JSON_KEY])],
      ContainerEnvironment(Getenv(env, CONTAINER_ENV)),
      env[COST_CENTER])
  }

  /** `DockerFargateStack.__init__`, in its order of evaluation. Once the stack
      id is built the prefix is known to be present, so the later names cannot fail. */
  method Construct(env: Env, parseInt: string -> Option<int>) returns (r: Result<StackSpec, StackError>)
    ensures r.Failure? <==> ConstructionError(env, parseInt).Some?
    ensures r.Failure? ==> r.error == ConstructionError(env, parseInt).value
    ensures r.Success? ==> Deployable(env, parseInt) && r.value == ExpectedStack(env, parseInt)
  {
    RequiredInOrder(env);
    var stackId := CreateId(env);
    if stackId.Failure? {
      return Failure(stackId.error);
    }
    var vpcName := GetVpcName(env).value;
    var clusterName := GetClusterName(env).value;
    var synapseKey := GetSecretsManagerSynapseAuthTokenKey(env);
    if synapseKey.Failure? {
      return Failure(synapseKey.error);
    }
    var googleKey := GetSecretsManagerGoogleAuthJsonKey(env);
    if googleKey.Failure? {
      return Failure(googleKey.error);
    }
    var secrets := map[SECRET_ENV_NAME_SYNAPSE_AUTH_TOKEN := CreateSecret(synapseKey.value),
                       SECRET_ENV_NAME_GOOGLE_AUTH_JSON := CreateSecret(googleKey.value)];
    var envVars: map<string, string> := map[];
    var containerEnv := Getenv(env, CONTAINER_ENV);
    if containerEnv.Some? {
      envVars := envVars[ENV_NAME := containerEnv.value];
    }
    var image := GetDockerImageName(env);
    if image.Failure? {
      return Failure(image.error);
    }
    var port := GetPort(env, parseInt);
    if port.Failure? {
      return Failure(port.error);
    }
    var serviceName := GetServiceName(env).value;
    var costCenter := GetCostCenter(env);
    if costCenter.Failure? {
      return Failure(costCenter.error);
    }
    r := Success(StackSpec(stackId.value, vpcName, clusterName, serviceName, image.value, port.value,
                           secrets, envVars, costCenter.value));
  }

  // ---------------------------------------------------------------------
  // Properties of the stack

  /** The two secrets have different names inside the container. */
  lemma SecretEnvNamesDistinct()
    ensures SECRET_ENV_NAME_SYNAPSE_AUTH_TOKEN != SECRET_ENV_NAME_GOOGLE_AUTH_JSON
  {
    assert |SECRET_ENV_NAME_SYNAPSE_AUTH_TOKEN| == 54 && |SECRET_ENV_NAME_GOOGLE_AUTH_JSON| == 52;
  }

  /** Construction succeeds exactly when all six required variables are
      present and `PORT` is an integer. */
  lemma ConstructionSucceeds(env: Env, parseInt: string -> Option<int>)
    ensures ConstructionError(env, parseInt).None? <==> Deployable(env, parseInt)
  {
    RequiredInOrder(env);
  }

  /** The secrets map holds exactly the two container names, each importing
      the secret its own variable names, under a construct id equal to that name. */
  lemma SecretsExactlyTwo(env: Env, parseInt: string -> Option<int>)
    requires Deployable(env, parseInt)
    ensures var secrets := ExpectedStack(env, parseInt).secrets;
      secrets.Keys == {SECRET_ENV_NAME_SYNAPSE_AUTH_TOKEN, SECRET_ENV_NAME_GOOGLE_AUTH_JSON}
      && |secrets| == 2
      && secrets[SECRET_ENV_NAME_SYNAPSE_AUTH_TOKEN] == SecretRef(env[SECRETS_MANAGER_SYNAPSE_AUTH_TOKEN_KEY], env[SECRETS_MANAGER_SYNAPSE_AUTH_TOKEN_KEY])
      && secrets[SECRET_ENV_NAME_GOOGLE_AUTH_JSON] == SecretRef(env[SECRETS_MANAGER_GOOGLE_AUTH_JSON_KEY], env[SECRETS_MANAGER_GOOGLE_AUTH_JSON_KEY])
  {
    SecretEnvNamesDistinct();
    var secrets := ExpectedStack(env, parseInt).secrets;
    assert secrets.Keys == {SECRET_ENV_NAME_SYNAPSE_AUTH_TOKEN} + {SECRET_ENV_NAME_GOOGLE_AUTH_JSON};
  }

  /** The container gets `ENV` exactly when `CONTAINER_ENV` is set, with its
      value, the empty string included, and nothing else. */
  lemma ContainerEnvironmentRule(env: Env, parseInt: string -> Option<int>)
    requires Deployable(env, parseInt)
    ensures var environment := ExpectedStack(env, parseInt).environment;
      (ENV_NAME in environment <==> CONTAINER_ENV in env)
      && environment.Keys <= {ENV_NAME}
      && (CONTAINER_ENV in env ==> environment[ENV_NAME] == env[CONTAINER_ENV])
  {
  }

  /** The stack id and the VPC, cluster and service names are pairwise distinct. */
  lemma StackNamesDistinct(env: Env, parseInt: string -> Option<int>)
    requires Deployable(env, parseInt)
    ensures var s := ExpectedStack(env, parseInt);
      s.stackId != s.vpcName && s.stackId != s.clusterName && s.stackId != s.serviceName
      && s.vpcName != s.clusterName && s.vpcName != s.serviceName && s.clusterName != s.serviceName
  {
    ResourceNamesDistinct(env[STACK_NAME_PREFIX]);
  }

  /** Each secret is imported under its own construct id exactly when the two
      secret-name variables differ. */
  lemma SecretConstructIdsDistinct(env: Env, parseInt: string -> Option<int>)
    requires Deployable(env, parseInt)
    ensures var secrets := ExpectedStack(env, parseInt).secrets;
      secrets[SECRET_ENV_NAME_SYNAPSE_AUTH_TOKEN].constructId != secrets[SECRET_ENV_NAME_GOOGLE_AUTH_JSON].constructId
      <==> env[SECRETS_MANAGER_SYNAPSE_AUTH_TOKEN_KEY] != env[SECRETS_MANAGER_GOOGLE_AUTH_JSON_KEY]
  {
    SecretsExactlyTwo(env, parseInt);
  }

  /** Each secret is imported under its own name, so the children of the
      stack's scope have ids of their own exactly when the two secret names
      differ from each other and from the VPC, cluster and service names;
      otherwise the CDK constructs library refuses the stack. */
  lemma SecretIdsUnique(env: Env, parseInt: string -> Option<int>)
    requires Deployable(env, parseInt)
    ensures var s := ExpectedStack(env, parseInt);
      var a, b := env[SECRETS_MANAGER_SYNAPSE_AUTH_TOKEN_KEY], env[SECRETS_MANAGER_GOOGLE_AUTH_JSON_KEY];
      FirstDuplicate(ChildIds(s, SECRET_ENV_NAME_SYNAPSE_AUTH_TOKEN, SECRET_ENV_NAME_GOOGLE_AUTH_JSON)).None?
      <==> a != b && a !in {s.vpcName, s.clusterName, s.serviceName} && b !in {s.vpcName, s.clusterName, s.serviceName}
  {
    SecretsExactlyTwo(env, parseInt);
    var s := ExpectedStack(env, parseInt);
    ResourceNamesDistinct(env[STACK_NAME_PREFIX]);
    var ids := ChildIds(s, SECRET_ENV_NAME_SYNAPSE_AUTH_TOKEN, SECRET_ENV_NAME_GOOGLE_AUTH_JSON);
    var a, b := env[SECRETS_MANAGER_SYNAPSE_AUTH_TOKEN_KEY], env[SECRETS_MANAGER_GOOGLE_AUTH_JSON_KEY];
    assert ids == [s.vpcName, s.clusterName, a, b, s.serviceName];
    if UniqueIds(ids) {
      assert ids[2] != ids[3] && ids[0] != ids[2] && ids[1] != ids[2] && ids[2] != ids[4];
      assert ids[0] != ids[3] && ids[1] != ids[3] && ids[3] != ids[4];
    }
    if a != b && a !in {s.vpcName, s.clusterName, s.serviceName} && b !in {s.vpcName, s.clusterName, s.serviceName} {
      assert UniqueIds(ids);
    }
  }
}
