# Secrets materialisation and the Fargate stacks of schematic

This project models, in Dafny, the start-up glue of the schematic repository:

- **The secrets block of `create_app`** (`api/__init__.py`). An AWS secrets manager
  injects a JSON object into the carrier variable `SECRETS_MANAGER_SECRETS`.
  The block reads that variable and parses it. It then writes each member of the object
  into `os.environ` in payload order, logging the key (never the value) before each write.
  `Environ.Environment` is a class holding the process environment and the log.
  `Api.MaterialiseSecrets` and `Api.WriteMembers` are methods over it. They are proved
  against the specification function `Api.EnvironEffect`.
- **The `init` command** (`schematic/__init__.py`). It parses `--auth` (a
  case-insensitive choice between `token` and `service_account`, default `token`) and the
  required `--config`. It loads the configuration and exits with status 1 on `ValueError`.
  It then runs its own copy of the secrets block, downloads the credentials for the
  chosen mode and, for token authentication, generates a token. `Schematic.InitAsWritten`
  models the command as written. `Schematic.Init` models it with the secrets block
  corrected (see Findings). Both are proved against `Schematic.InitSpec`.
- **The two CDK stacks** (`cdk/docker_fargate/docker_fargate_stack.py` and
  `cdk/src/main/java/com/myorg/DockerFargateStack.java`). Each reads its deployment
  environment and derives the stack id and the VPC, cluster and service names from
  `STACK_NAME_PREFIX`. Each declares two secrets and decides the container environment.
  `PyStack.Construct` and `JavaStack.Construct` follow each constructor's order of
  evaluation. Each returns either the record of what it hands to the CDK constructs
  (`StackModel.StackSpec`) or the first error raised. `StackDivergence` proves where the
  two stacks agree and where they differ.

Calls into code outside the model are parameters:

- `json.loads` is `parse: string -> Parsed`.
- `CONFIG.load_config` is `load`.
- `download_creds_file` is `download`, and `generate_token` is `generateToken`.
- `int()` is the Python stack's `parseInt`, and `Integer.parseInt` is the Java stack's.
  `StackDivergence` takes the two separately, as `pyInt` and `javaInt`, because they accept
  different texts.

The steps `init` takes (`Schematic.Step`) record the environment each outside call
sees.

Three behaviours of the code are worth stating up front:

- A refused member does not roll back. The block stops at the first member `os.environ`
  refuses, and the members before it stay written
  (`ApiProperties.PartialWriteAtFirstRefusal`).
- `init` loads its configuration before it reads the carrier
  (`SchematicProperties.ConfigValueErrorExits`, `SchematicProperties.DownloadPrecedesToken`).
- `init` calls `os.setenv`, which does not exist. See Findings.

## Model

| member | source | states |
|---|---|---|
| `Environ.Environment.constructor` | api/__init__.py:40 | The environment starts with the given variables and an empty log. |
| `Environ.Environment.GetEnv` | api/__init__.py:40 | `os.getenv` yields a value exactly when the variable is set, and that value is the variable's. |
| `Environ.Environment.Info` | api/__init__.py:45 | A log call appends exactly one record and changes nothing else. |
| `Environ.Environment.SetItem` | api/__init__.py:46 | `os.environ[key] = value` first raises TypeError for a non-string value, then ValueError for "=" in the name or NUL in the name or value, then OSError for an empty name. Otherwise it sets exactly that key. After an error the environment is unchanged. |
| `Api.FirstUnwritableFrom` | api/__init__.py:44-46 | The loop stops at a position within bounds, and a member there is refused. |
| `Api.WriteMembers` | api/__init__.py:44-46 | The loop logs each key before assigning it. It stops at the first refused member with that member's error. The environment and log it leaves are those of `MembersEffect`. |
| `Api.MaterialiseSecrets` | api/__init__.py:40-48 | The whole block's outcome, new environment and appended log are those of `EnvironEffect`. These are: no carrier means a "No env var" record; undecodable text means JSONDecodeError; a non-object means no `.items()`; an object means its members are written. |
| `ApiProperties.AssignedOnlyNamed` | api/__init__.py:44-46 | A key is assigned by the first n members exactly when one of them names it. |
| `ApiProperties.AssignedDistinct` | api/__init__.py:44-46 | With distinct keys, each assigned member keeps its own value. |
| `ApiProperties.FirstUnwritableFromIs` | api/__init__.py:44-46 | The refusal search returns exactly the first refused position, or the length if every member is accepted. |
| `ApiProperties.WritableBeforeFirstRefusal` | api/__init__.py:44-46 | Every member before the first refused one is accepted. |
| `ApiProperties.AllWritableMaterialises` | api/__init__.py:44-46 | The loop completes exactly when `os.environ` accepts every member. |
| `ApiProperties.PartialWriteAtFirstRefusal` | api/__init__.py:44-46 | A refused member raises its own error. Every earlier member stays written, and no later member is written. |
| `ApiProperties.LoggedThroughFirstRefusal` | api/__init__.py:45 | The log holds the keys up to and including the refused one, and no later key. |
| `ApiProperties.OutcomeClassifiesCarrier` | api/__init__.py:40-48 | Each outcome holds exactly for its carrier case: NoSecrets for no carrier, a decode error for undecodable text, a missing `.items()` for a non-object, and Materialised for an object whose members are all accepted. |
| `ApiProperties.UntouchedOutsidePayload` | api/__init__.py:44-46 | A variable the payload does not name is neither added, removed nor changed. |
| `ApiProperties.SecretsVisible` | api/__init__.py:44-46 | If every member is accepted and the keys are distinct, each secret ends up in the environment under its key, with its text. |
| `ApiProperties.SecondRunRepeatsFirst` | api/__init__.py:40-48 | A second run on the environment the first run left repeats its outcome and leaves the same environment, unless the payload overwrites the carrier. |
| `ApiProperties.EmptyNameRaises` | api/__init__.py:46 | The payload `{"": "x"}` raises OSError for the empty name, and the environment is unchanged. |
| `ApiProperties.NonStringValueRaises` | api/__init__.py:46 | The payload `{"A": 1}` raises TypeError for "A". Nothing is written, and the log holds the carrier record and "A". |
| `Schematic.ParseAuth` | schematic/__init__.py:32-38 | `--auth` defaults to token. It is accepted exactly when it case-folds to a choice, and that choice is the one selected. Otherwise it is rejected with the given text, and no choice matches. |
| `Schematic.ParseInitOptions` | schematic/__init__.py:32-41 | Parsing succeeds exactly when `--auth` is valid and `--config` is given. A bad `--auth` is reported before a missing `--config`. |
| `Schematic.LoadConfiguration` | schematic/__init__.py:44-50 | The "Loading" record is logged first. On ValueError, "not provided" and the exception are logged and the command exits with 1. Any other exception aborts the command. Otherwise the command goes on. |
| `Schematic.MaterialiseSecretsAsWritten` | schematic/__init__.py:54-62 | The block as written has the effect `SetenvEffect`: the first member of a non-empty object is logged, then AttributeError is raised, and nothing is written. |
| `Schematic.RunAuthSteps` | schematic/__init__.py:64-70 | The credentials are downloaded for the chosen mode. A token is generated only for token authentication and only after a successful download. |
| `Schematic.SecretsThenAuthAsWritten` | schematic/__init__.py:52-70 | If the setenv block raises, `init` aborts with that error before any download. Otherwise it runs the authentication steps on the environment the block left. |
| `Schematic.SecretsThenAuth` | schematic/__init__.py:52-70 | The same sequence, with the secrets written through `os.environ`. |
| `Schematic.InitAsWritten` | schematic/__init__.py:42-70 | The command as written has the status, steps, environment and log of `InitSpec` with `SetenvEffect`. |
| `Schematic.Init` | schematic/__init__.py:42-70 | The command with the corrected secrets block has the status, steps, environment and log of `InitSpec` with `EnvironEffect`. |
| `SchematicProperties.ParseAuthSelects` | schematic/__init__.py:36 | A string selects a mode exactly when it case-folds to that mode's name. |
| `SchematicProperties.ParseAuthFoldsCompatibilityLetters` | schematic/__init__.py:36 | "to\u212Aen" (Kelvin sign) selects token and "\u017Fervice_account" (long s) selects service_account, because `casefold` maps those letters to "k" and "s". |
| `SchematicProperties.ParseAuthRoundTrip` | schematic/__init__.py:36 | Each mode's own name selects that mode, and so do "Token" and "SERVICE_ACCOUNT". |
| `SchematicProperties.ParseAuthRejects` | schematic/__init__.py:36 | "oauth" and "" are rejected, each reported with the text given. |
| `SchematicProperties.ConfigValueErrorExits` | schematic/__init__.py:47-50 | ValueError from the configuration load exits with 1, with the environment unchanged. Only the configuration is loaded, and no carrier record is logged. |
| `SchematicProperties.DownloadPrecedesToken` | schematic/__init__.py:44-70 | The configuration is loaded first and only once. Every token generation comes right after a download in the chosen mode that saw the same environment. |
| `SchematicProperties.TokenExactlyForTokenAuth` | schematic/__init__.py:64-70 | A token is generated exactly when the mode is token, the configuration loaded, the secrets block did not raise and the download succeeded. |
| `SchematicProperties.DownloadSeesSecrets` | schematic/__init__.py:52-65 | The download happens exactly when the configuration loaded and the secrets block did not raise. Every download and token step sees the environment the block left. |
| `SchematicProperties.AsWrittenAgreesWithoutPayload` | schematic/__init__.py:54-62 | Without a non-empty object in the carrier, the setenv block and the `os.environ` block have identical effects. |
| `SchematicProperties.AsWrittenDivergesOnPayload` | schematic/__init__.py:60 | With a non-empty object, the setenv block always raises AttributeError and writes nothing. The `os.environ` block never raises AttributeError. |
| `SchematicProperties.SetenvAbortsInit` | schematic/__init__.py:60 | With a non-empty object, `init` as written aborts with AttributeError after logging the first key. The environment is unchanged and the credentials are never downloaded. |
| `SchematicProperties.LoadedDownloadStep` | schematic/__init__.py:65 | Once the configuration loaded and the block finished, the second step is the download, seeing the block's environment. |
| `SchematicProperties.InitDownloadsWithSecrets` | schematic/__init__.py:52-65 | With the corrected block and an object whose members are all accepted and whose keys are distinct, the download sees every secret under its key. Every other variable keeps its old value. |
| `SchematicProperties.CarrierAbsentOrUndecodable` | schematic/__init__.py:54-62 | Without a carrier, both versions download with the environment unchanged. With undecodable text, both abort before the download. |
| `SchematicProperties.EmptyPayloadProceeds` | schematic/__init__.py:57-59 | An empty object lets `init` as written go on to the download with the environment unchanged. |
| `StackModel.Getenv` | cdk/docker_fargate/docker_fargate_stack.py:26 | The lookup yields a value exactly when the variable is set, and that value is the variable's. |
| `StackModel.FirstMissing` | cdk/docker_fargate/docker_fargate_stack.py:25-29 | There is no result exactly when every name is set and non-empty. Otherwise the result is the first name, in order, that is not. |
| `StackModel.FirstMissingCons` | cdk/docker_fargate/docker_fargate_stack.py:78-114 | The first name is checked before the rest. |
| `StackModel.ResourceNamesDistinct` | cdk/docker_fargate/docker_fargate_stack.py:13-16 | For any prefix, the stack id and the VPC, cluster and service names are pairwise distinct. |
| `StackModel.ResourceNamesInjective` | cdk/docker_fargate/docker_fargate_stack.py:31-50 | One suffix on two prefixes gives the same name exactly when the prefixes are equal. |
| `StackModel.FirstDuplicate` | cdk/src/main/java/com/myorg/DockerFargateStack.java:118-149 | There is no result exactly when the children's ids are pairwise distinct. Otherwise the result is the first child whose id an earlier child already has, with all ids before it distinct. |
| `StackModel.FirstDuplicateAt` | cdk/src/main/java/com/myorg/DockerFargateStack.java:118-149 | A child whose id is already taken, after children with distinct ids, is the first duplicate. |
| `PyStack.GetRequiredEnv` | cdk/docker_fargate/docker_fargate_stack.py:25-29 | The value is returned exactly when the variable is set and non-empty. Otherwise the error names the variable. |
| `PyStack.CreateId` | cdk/docker_fargate/docker_fargate_stack.py:31-32 | The stack id is the prefix followed by "-DockerFargateStack". It fails exactly when the prefix is missing. |
| `PyStack.GetVpcName` | cdk/docker_fargate/docker_fargate_stack.py:43-44 | The VPC name is the prefix followed by "-FargateVPC". It fails exactly when the prefix is missing. |
| `PyStack.GetClusterName` | cdk/docker_fargate/docker_fargate_stack.py:46-47 | The cluster name is the prefix followed by "-Cluster". It fails exactly when the prefix is missing. |
| `PyStack.GetServiceName` | cdk/docker_fargate/docker_fargate_stack.py:49-50 | The service name is the prefix followed by "-Service". It fails exactly when the prefix is missing. |
| `PyStack.GetDockerImageName` | cdk/docker_fargate/docker_fargate_stack.py:52-53 | The image is the required `DOCKER_IMAGE`. |
| `PyStack.GetCostCenter` | cdk/docker_fargate/docker_fargate_stack.py:55-56 | The cost centre is the required `COST_CENTER`. |
| `PyStack.GetPort` | cdk/docker_fargate/docker_fargate_stack.py:58-59 | The port is `int()` of the required `PORT`. A missing `PORT` and a non-integer one are separate errors. |
| `PyStack.GetSecretsManagerSynapseAuthTokenKey` | cdk/docker_fargate/docker_fargate_stack.py:61-62 | The secret's name is the required variable of the same name. |
| `PyStack.GetSecretsManagerGoogleAuthJsonKey` | cdk/docker_fargate/docker_fargate_stack.py:64-65 | The secret's name is the required variable of the same name. |
| `PyStack.CreateSecret` | cdk/docker_fargate/docker_fargate_stack.py:70-72 | The secret is imported under a construct id equal to its name, and that name is the secret's. |
| `PyStack.ContainerEnvironment` | cdk/docker_fargate/docker_fargate_stack.py:91-94 | `ENV` is passed exactly when `CONTAINER_ENV` is set, including when it is "". Its value is that variable's, and no other key is passed. |
| `PyStack.RequiredInOrder` | cdk/docker_fargate/docker_fargate_stack.py:79-100 | The required variables are checked in reading order: prefix, two secret names, image, port. |
| `PyStack.Construct` | cdk/docker_fargate/docker_fargate_stack.py:78-114 | The constructor fails exactly when a required variable is missing or `PORT` is not an integer, with the first such error in reading order. Otherwise it yields `ExpectedStack`, the values handed to the CDK constructs. |
| `PyStack.SecretEnvNamesDistinct` | cdk/docker_fargate/docker_fargate_stack.py:35-38 | The two container secret names differ. |
| `PyStack.ConstructionSucceeds` | cdk/docker_fargate/docker_fargate_stack.py:78-114 | Construction has no error exactly when all six required variables are present and `PORT` is an integer. |
| `PyStack.SecretsExactlyTwo` | cdk/docker_fargate/docker_fargate_stack.py:86-89 | The secrets map has exactly the two container names. Each imports the secret its variable names, under a construct id equal to that name. |
| `PyStack.ContainerEnvironmentRule` | cdk/docker_fargate/docker_fargate_stack.py:91-94 | The container gets `ENV` exactly when `CONTAINER_ENV` is set, including when it is "", with its value, and nothing else. |
| `PyStack.StackNamesDistinct` | cdk/docker_fargate/docker_fargate_stack.py:79-106 | The built stack's id and VPC, cluster and service names are pairwise distinct. |
| `PyStack.SecretConstructIdsDistinct` | cdk/docker_fargate/docker_fargate_stack.py:70-71 | The two secret constructs have distinct ids exactly when the two secret-name variables differ. |
| `PyStack.SecretIdsUnique` | cdk/docker_fargate/docker_fargate_stack.py:82-106 | The children of the stack's scope have distinct ids exactly when the two secret names differ from each other and from the VPC, cluster and service names. |
| `JavaStack.IsEmpty` | cdk/src/main/java/com/myorg/DockerFargateStack.java:55 | `StringUtils.isEmpty` holds for null and for a String exactly when it has no characters. |
| `JavaStack.Concatenated` | cdk/src/main/java/com/myorg/DockerFargateStack.java:90-91 | A null String contributes "null" to a concatenation, and any other String contributes its own text. |
| `JavaStack.GetRequiredEnv` | cdk/src/main/java/com/myorg/DockerFargateStack.java:53-59 | The value is returned exactly when `StringUtils.isEmpty` is false for it. Otherwise the error names the variable. |
| `JavaStack.GetId` | cdk/src/main/java/com/myorg/DockerFargateStack.java:61-63 | The id is the prefix followed by "-DockerFargateStack". It fails exactly when the prefix is missing. |
| `JavaStack.GetVpcName` | cdk/src/main/java/com/myorg/DockerFargateStack.java:65-67 | The VPC name is the prefix followed by "-FargateVPC". It fails exactly when the prefix is missing. |
| `JavaStack.GetClusterName` | cdk/src/main/java/com/myorg/DockerFargateStack.java:69-71 | The cluster name is the prefix followed by "-Cluster". It fails exactly when the prefix is missing. |
| `JavaStack.GetServiceName` | cdk/src/main/java/com/myorg/DockerFargateStack.java:73-75 | The service name is the prefix followed by "-Service". It fails exactly when the prefix is missing. |
| `JavaStack.GetDockerImageName` | cdk/src/main/java/com/myorg/DockerFargateStack.java:77-79 | The image is the required `DOCKER_IMAGE`. |
| `JavaStack.GetCostCenter` | cdk/src/main/java/com/myorg/DockerFargateStack.java:81-83 | The cost centre is the required `COST_CENTER`. |
| `JavaStack.GetPort` | cdk/src/main/java/com/myorg/DockerFargateStack.java:85-87 | The port is `Integer.parseInt` of the required `PORT`. A missing `PORT` and an unparsable one are separate errors. |
| `JavaStack.GetSecretsManagerSynapseAuthTokenKey` | cdk/src/main/java/com/myorg/DockerFargateStack.java:89-92 | The name is the required prefix, "/", and the unrequired `synapse-auth-token` ("null" when it is unset). |
| `JavaStack.GetSecretsManagerGoogleAuthJsonKey` | cdk/src/main/java/com/myorg/DockerFargateStack.java:94-97 | The name is the required prefix, "/", and the unrequired `google-auth-json` ("null" when it is unset). |
| `JavaStack.CreateSecret` | cdk/src/main/java/com/myorg/DockerFargateStack.java:107-111 | The secret is imported under the given construct id, the stack's `id` at every call, with the given name. |
| `JavaStack.ContainerEnvironment` | cdk/src/main/java/com/myorg/DockerFargateStack.java:139-143 | `ENV` is passed exactly when `CONTAINER_ENV` is not empty in the sense of `StringUtils.isEmpty`. Its value is that variable's, and no other key is passed. |
| `JavaStack.RequiredInOrder` | cdk/src/main/java/com/myorg/DockerFargateStack.java:115-128 | The required variables are checked in reading order: prefix, image, port. |
| `JavaStack.Construct` | cdk/src/main/java/com/myorg/DockerFargateStack.java:114-159 | The constructor fails exactly when a required variable is missing or `PORT` does not parse, with the first such error in reading order. Otherwise it yields `ExpectedStack`, the values handed to the CDK constructs, whose stack id is the value of the `id` field. The CDK then refuses those values (see `JavaStack.SecretIdsCollide`). |
| `JavaStack.SecretEnvNamesDistinct` | cdk/src/main/java/com/myorg/DockerFargateStack.java:43-46 | The two container secret names differ. |
| `JavaStack.ConstructionSucceeds` | cdk/src/main/java/com/myorg/DockerFargateStack.java:114-159 | Construction has no error exactly when the four required variables are present and `PORT` parses. The secret-name variables are not required. This is construction up to the values handed to the CDK constructs. |
| `JavaStack.SecretsExactlyTwo` | cdk/src/main/java/com/myorg/DockerFargateStack.java:130-136 | The secrets map has exactly the two container names. Each name is the prefix, "/" and its variable, and ends in "/null" when that variable is unset. |
| `JavaStack.SecretConstructIdsCoincide` | cdk/src/main/java/com/myorg/DockerFargateStack.java:107-111 | Both secrets are imported under the same construct id, the stack's `id`. |
| `JavaStack.SecretIdsCollide` | cdk/src/main/java/com/myorg/DockerFargateStack.java:107-135 | On every environment the constructor gets through, the second secret repeats the first one's construct id, the stack's `id`. It is the first duplicate id in the stack's scope. |
| `JavaStack.CorrectedSecretIdsUnique` | cdk/src/main/java/com/myorg/DockerFargateStack.java:107-111 | With each secret imported under its container name, every child of the stack's scope has its own id, for every prefix. The secrets, their names and the rest of the stack are unchanged. |
| `JavaStack.ContainerNamesAreNotResourceNames` | cdk/src/main/java/com/myorg/DockerFargateStack.java:43-46 | Neither container secret name is the VPC, cluster or service name of any prefix. |
| `JavaStack.ContainerEnvironmentRule` | cdk/src/main/java/com/myorg/DockerFargateStack.java:139-143 | The container gets `ENV` exactly when `CONTAINER_ENV` is set and not "", with its value, and nothing else. |
| `JavaStack.StackNamesDistinct` | cdk/src/main/java/com/myorg/DockerFargateStack.java:115-149 | The built stack's id and VPC, cluster and service names are pairwise distinct. |
| `StackDivergence.RequiredEnvAgrees` | cdk/src/main/java/com/myorg/DockerFargateStack.java:53-59 | Java's `getRequiredEnv` and Python's `get_required_env` agree on every variable of every environment. |
| `StackDivergence.ResourceNamesAgree` | cdk/src/main/java/com/myorg/DockerFargateStack.java:61-75 | The two stacks derive the same id and the same VPC, cluster and service names from every environment. |
| `StackDivergence.ContainerEnvironmentDiverges` | cdk/src/main/java/com/myorg/DockerFargateStack.java:139-143 | The container environments differ exactly when `CONTAINER_ENV` is "". Python then passes `ENV=""` and Java passes nothing. |
| `StackDivergence.SecretLookupDiverges` | cdk/src/main/java/com/myorg/DockerFargateStack.java:89-92 | Without the secret-name variable, Python fails on it while Java yields the name "<prefix>/null". |
| `StackDivergence.FailureOrderDiverges` | cdk/src/main/java/com/myorg/DockerFargateStack.java:115-136 | With the prefix set but a secret-name variable and `DOCKER_IMAGE` missing, Python reports the secret-name variable and Java reports `DOCKER_IMAGE`. |
| `StackDivergence.PortParsersDiverge` | cdk/src/main/java/com/myorg/DockerFargateStack.java:85-87 | When `Integer.parseInt` rejects a `PORT` that `int()` accepts, the Python stack is built and the Java stack fails on `PORT`. |
| `StackDivergence.PythonDeployableImpliesJava` | cdk/src/main/java/com/myorg/DockerFargateStack.java:114-159 | If the Python stack accepts an environment and `Integer.parseInt` accepts its `PORT`, the Java stack accepts it too, up to the values handed to the CDK constructs. The names, image and cost centre are the same. The ports are equal exactly when the two parsers agree on `PORT`. |

## Left out

- Flask, connexion and the rest of `create_app` are not modelled. Only the secrets block is.
- `json.loads` is an abstract parameter. The model takes the parsed object's members in
  the order the resulting dict iterates them. How the parser resolves duplicate keys is
  its own business.
- `Environ.Environment.SetItem` states the rules of CPython 3.9 or later on POSIX: a name
  holding "=" or NUL and a value holding NUL raise ValueError, and an empty name makes
  `setenv` fail with OSError. Windows rules and surrogate
  encoding errors are not modelled.
- Log formats, levels, timestamps and the traceback `logger.exception` prints are not
  modelled. Each record is one constructor of `Environ.LogRecord`.
- `CONFIG.load_config`, `download_creds_file` and `generate_token` are parameters. Only
  their success or failure and the environment they see are modelled. The files they
  write are not.
- click's argument handling beyond `--auth` and `--config` is not modelled. This covers
  `--help`, the verbosity option, and help texts drawn from `query_dict`. Click's own
  error messages and exit codes are not modelled either.
- `Schematic.ParseAuth`: `Schematic.FoldChar` folds only the characters whose
  `str.casefold` is one ASCII letter: "A" to "Z", the Kelvin sign (U+212A) and the long s
  (U+017F). The casefold of any other character either holds a non-ASCII character, which
  no choice name has, or is one of "ss", "ff", "fi", "fl", "ffi", "ffl" and "st" (from "ß",
  "ẞ" and the Latin ligatures), none of which occurs in "token" or "service_account".
  Those multi-letter folds are not modelled, and they cannot select a choice.
- `sys.exit(1)` is modelled as the status `Exited(1)`. Process termination is not modelled.
- The CDK constructs are not modelled. This covers the VPC with two availability zones,
  the cluster, the load-balanced Fargate service (256 CPU, two tasks, 1024 MiB, public),
  and the `CostCenter` tag. The stacks are modelled up to `StackModel.StackSpec`, the values
  they pass to those constructs. Of the CDK's own checks, only the rule that the children of
  one scope need distinct ids is modelled (`StackModel.FirstDuplicate`).
- `JavaStack.Construct`, `JavaStack.ConstructionSucceeds`: they return the values handed to
  the CDK and do not raise the CDK's duplicate-id error. `JavaStack.SecretIdsCollide` states
  that error separately.
- `PyStack.Construct`, `PyStack.ConstructionSucceeds`: they do not raise the CDK's
  duplicate-id error either. `PyStack.SecretIdsUnique` states when it arises.
- `PyStack.GetPort`, `JavaStack.GetPort`: `int()` and `Integer.parseInt` are abstract
  parameters. Java's 32-bit range is folded into the parameter: an out-of-range literal is
  one that parameter rejects.
- The Java constructor's `props` argument and the one-argument constructor that passes
  `null` are not modelled. The `id` field is the `stackId` of the returned record.
- `cdk/src/main/java/com/myorg/DockerFargateApp.java` (the CDK app entry point) and `tests/conftest.py` (test fixtures) are not part of this model.

## Findings

| source | as written | input that shows it | evidently intended | confidence | as-written member | corrected member |
|---|---|---|---|---|---|---|
| schematic/__init__.py:60 | the secrets block of `init` calls `os.setenv(key, value)`, but the `os` module has no `setenv`, so the first member raises AttributeError | carrier `SECRETS_MANAGER_SECRETS` set to `{"A": "b"}` with a loadable configuration: `init` aborts before downloading credentials, and "A" is never set | write each member into `os.environ`, as `api/__init__.py:46` does, so the credential download sees the secrets | high, not executed | `SchematicProperties.SetenvAbortsInit` | `SchematicProperties.InitDownloadsWithSecrets` |
| cdk/src/main/java/com/myorg/DockerFargateStack.java:109 | `createSecret` imports every secret under the construct id `id`, so both secrets get the stack's id and the CDK refuses the second one, created at line 135, as a duplicate | any environment with `STACK_NAME_PREFIX`, `DOCKER_IMAGE`, `PORT` and `COST_CENTER` set and `PORT` parsable: the stack is never synthesised | import each secret under its own id, as the Python stack does at `cdk/docker_fargate/docker_fargate_stack.py:71` | high, not executed | `JavaStack.SecretIdsCollide` | `JavaStack.CorrectedSecretIdsUnique` |
