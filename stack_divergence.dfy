/**
 * Where the Python and the Java stack, built from the same deployment
 * environment, agree and where they differ.
 */
module StackDivergence {
  import opened Wrappers
  import opened StackModel
  import Py = PyStack
  import Java = JavaStack

  /** Both treat a variable as required in the same way, with the same message. */
  lemma RequiredEnvAgrees(env: Env, name: string)
    ensures Py.GetRequiredEnv(env, name) == Java.GetRequiredEnv(env, name)
  {
  }

  /** Both derive the same stack id and resource names from the prefix. */
  lemma ResourceNamesAgree(env: Env)
    ensures Py.CreateId(env) == Java.GetId(env)
    ensures Py.GetVpcName(env) == Java.GetVpcName(env)
    ensures Py.GetClusterName(env) == Java.GetClusterName(env)
    ensures Py.GetServiceName(env) == Java.GetServiceName(env)
  {
  }

  /** The container environments differ exactly when `CONTAINER_ENV` is set to
      the empty string: Python passes `ENV=""`, Java passes nothing. */
  lemma ContainerEnvironmentDiverges(containerEnv: Option<string>)
    ensures Py.ContainerEnvironment(containerEnv) != Java.ContainerEnvironment(containerEnv)
            <==> containerEnv == Some("")
    ensures containerEnv == Some("") ==>
      Py.ContainerEnvironment(containerEnv) == map[ENV_NAME := ""] && Java.ContainerEnvironment(containerEnv) == map[]
  {
    if containerEnv == Some("") {
      assert ENV_NAME in Py.ContainerEnvironment(containerEnv);
    }
  }

  /** The secret-name lookups differ: Python requires its variable and fails
      without it, while Java, given the prefix, always yields a name, "null"
      standing in for its unset variable. */
  lemma SecretLookupDiverges(env: Env)
    requires Present(env, STACK_NAME_PREFIX)
    requires Py.SECRETS_MANAGER_SYNAPSE_AUTH_TOKEN_KEY !in env
    requires Java.SECRETS_MANAGER_SYNAPSE_AUTH_TOKEN_KEY !in env
    ensures Py.GetSecretsManagerSynapseAuthTokenKey(env) == Failure(Required(Py.SECRETS_MANAGER_SYNAPSE_AUTH_TOKEN_KEY))
    ensures Java.GetSecretsManagerSynapseAuthTokenKey(env) == Success(env[STACK_NAME_PREFIX] + "/null")
  {
    var prefix := env[STACK_NAME_PREFIX];
    assert prefix + "/" + "null" == prefix + "/null";
  }

  /** With the prefix present but both the Python secret-name variable and
      `DOCKER_IMAGE` missing, the two stacks report different variables,
      because Python reads the secret names before the image and Java does
      not require them at all. Neither reaches its integer parser. */
  lemma FailureOrderDiverges(env: Env, pyInt: string -> Option<int>, javaInt: string -> Option<int>)
    requires Present(env, STACK_NAME_PREFIX)
    requires !Present(env, Py.SECRETS_MANAGER_SYNAPSE_AUTH_TOKEN_KEY)
    requires !Present(env, DOCKER_IMAGE_NAME)
    ensures Py.ConstructionError(env, pyInt) == Some(Required(Py.SECRETS_MANAGER_SYNAPSE_AUTH_TOKEN_KEY))
    ensures Java.ConstructionError(env, javaInt) == Some(Required(DOCKER_IMAGE_NAME))
  {
    Py.RequiredInOrder(env);
    Java.RequiredInOrder(env);
  }

  /** `int()` and `Integer.parseInt` are different parsers: on a `PORT` text
      the first accepts and the second rejects (" 8080", "8_080", or
      "2147483648", beyond 32 bits), an environment the Python stack accepts
      makes the Java constructor fail on that text. */
  lemma PortParsersDiverge(env: Env, pyInt: string -> Option<int>, javaInt: string -> Option<int>)
    requires Py.Deployable(env, pyInt)
    requires javaInt(env[PORT_NUMBER]).None?
    ensures Py.ConstructionError(env, pyInt).None?
    ensures Java.ConstructionError(env, javaInt) == Some(NotAnInteger(env[PORT_NUMBER]))
  {
    Py.ConstructionSucceeds(env, pyInt);
    Java.RequiredInOrder(env);
  }

  /** Whenever the Python stack can be built and `Integer.parseInt` accepts
      the `PORT` text, the Java one can be built too, with the same names, image
      and cost centre, and with the same port when both parsers read that text
      alike. The converse fails because Java does not require the secret-name
      variables. */
  lemma PythonDeployableImpliesJava(env: Env, pyInt: string -> Option<int>, javaInt: string -> Option<int>)
    requires Py.Deployable(env, pyInt)
    requires javaInt(env[PORT_NUMBER]).Some?
    ensures Java.Deployable(env, javaInt)
    ensures var p, j := Py.ExpectedStack(env, pyInt), Java.ExpectedStack(env, javaInt);
      p.stackId == j.stackId && p.vpcName == j.vpcName && p.clusterName == j.clusterName
      && p.serviceName == j.serviceName && p.image == j.image && p.costCenter == j.costCenter
      && (pyInt(env[PORT_NUMBER]) == javaInt(env[PORT_NUMBER]) <==> p.port == j.port)
  {
  }
}
