/**
 * What the two CDK stacks (cdk/docker_fargate/docker_fargate_stack.py and
 * cdk/src/main/java/com/myorg/DockerFargateStack.java) have in common: the
 * deployment environment they read, the errors they raise, the names they
 * derive and the record of what they hand to the CDK constructs.
 */
module StackModel {
  import opened Wrappers

  /** The deployment environment the stack reads with `os.getenv` / `System.getenv`. */
  type Env = map<string, string>

  const STACK_NAME_PREFIX: string := "STACK_NAME_PREFIX"
  const ID_SUFFIX: string := "-DockerFargateStack"
  const VPC_SUFFIX: string := "-FargateVPC"
  const CLUSTER_SUFFIX: string := "-Cluster"
  const SERVICE_SUFFIX: string := "-Service"
  const DOCKER_IMAGE_NAME: string := "DOCKER_IMAGE"
  const COST_CENTER: string := "COST_CENTER"
  const PORT_NUMBER: string := "PORT"
  const SECRETS_MANAGER_ENV_PREFIX: string := "secrets-manager-"
  const CONTAINER_ENV: string := "CONTAINER_ENV"
  const ENV_NAME: string := "ENV"

  /** Why building a stack fails. */
  datatype StackError =
    | Required(name: string)       // "{name} is required.": the variable is unset or empty
    | NotAnInteger(text: string)   // `PORT` is not an integer literal

  /** The lookup itself: `None` for an unset variable (`None` in Python, `null` in Java). */
  function Getenv(env: Env, name: string): (r: Option<string>)
    ensures r.Some? <==> name in env
    ensures r.Some? ==> r.value == env[name]
  {
    if name in env then Some(env[name]) else None
  }

  /** A variable that is set to something other than the empty string. */
  predicate Present(env: Env, name: string) {
    name in env && env[name] != ""
  }

  /** A secret as the stack declares it: the id of the construct that imports
      it and the name it has in the secrets manager. */
  datatype SecretRef = SecretRef(constructId: string, secretName: string)

  /** What a successful construction hands to the CDK constructs. */
  datatype StackSpec = StackSpec(
    stackId: string,
    vpcName: string,
    clusterName: string,
    serviceName: string,
    image: string,
    port: int,
    secrets: map<string, SecretRef>,
    environment: map<string, string>,
    costCenter: string)   // the value of the stack's `CostCenter` tag

  /** The first of `names`, in order, that is not present. */
  function FirstMissing(env: Env, names: seq<string>): (r: Option<string>)
    ensures r.None? <==> forall i :: 0 <= i < |names| ==> Present(env, names[i])
    ensures r.Some? ==> exists i :: 0 <= i < |names| && names[i] == r.value
                          && !Present(env, names[i]) && forall j :: 0 <= j < i ==> Present(env, names[j])
  {
    if |names| == 0 then None
    else if !Present(env, names[0]) then Some(names[0])
    else
      var rest := FirstMissing(env, names[1..]);
      if rest.Some? then
        var i :| 0 <= i < |names[1..]| && names[1..][i] == rest.value
                 && !Present(env, names[1..][i]) && forall j :: 0 <= j < i ==> Present(env, names[1..][j]);
        assert names[i + 1] == rest.value && !Present(env, names[i + 1]);
        assert forall j :: 0 <= j < i + 1 ==> Present(env, names[j]) by {
          forall j | 0 <= j < i + 1 ensures Present(env, names[j]) {
            if j > 0 { assert names[j] == names[1..][j - 1]; }
          }
        }
        rest
      else
        assert forall i :: 0 <= i < |names| ==> Present(env, names[i]) by {
          forall i | 0 <= i < |names| ensures Present(env, names[i]) {
            if i > 0 { assert names[i] == names[1..][i - 1]; }
          }
        }
        rest
  }

  /** `FirstMissing` checks the first name before the others. */
  lemma FirstMissingCons(env: Env, name: string, rest: seq<string>)
    ensures FirstMissing(env, [name] + rest) == if !Present(env, name) then Some(name) else FirstMissing(env, rest)
  {
    assert ([name] + rest)[1..] == rest;
  }

  /** Two names built on the same prefix are equal only if their suffixes are. */
  lemma PrefixCancel(p: string, a: string, b: string)
    requires p + a == p + b
    ensures a == b
  {
    assert a == (p + a)[|p|..];
    assert b == (p + b)[|p|..];
  }

  /** Two names with the same suffix are equal only if their prefixes are. */
  lemma SuffixCancel(p: string, q: string, s: string)
    requires p + s == q + s
    ensures p == q
  {
    assert |p| == |q|;
    assert p == (p + s)[..|p|];
    assert q == (q + s)[..|q|];
  }

  /** For one prefix, the stack id and the VPC, cluster and service names are
      pairwise distinct, because the four suffixes are. */
  lemma ResourceNamesDistinct(p: string)
    ensures p + ID_SUFFIX != p + VPC_SUFFIX && p + ID_SUFFIX != p + CLUSTER_SUFFIX
    ensures p + ID_SUFFIX != p + SERVICE_SUFFIX && p + VPC_SUFFIX != p + CLUSTER_SUFFIX
    ensures p + VPC_SUFFIX != p + SERVICE_SUFFIX && p + CLUSTER_SUFFIX != p + SERVICE_SUFFIX
  {
    DistinctSuffixes(p, ID_SUFFIX, VPC_SUFFIX);
    DistinctSuffixes(p, ID_SUFFIX, CLUSTER_SUFFIX);
    DistinctSuffixes(p, ID_SUFFIX, SERVICE_SUFFIX);
    DistinctSuffixes(p, VPC_SUFFIX, CLUSTER_SUFFIX);
    DistinctSuffixes(p, VPC_SUFFIX, SERVICE_SUFFIX);
    DistinctSuffixes(p, CLUSTER_SUFFIX, SERVICE_SUFFIX);
  }

  lemma DistinctSuffixes(p: string, a: string, b: string)
    requires a != b
    ensures p + a != p + b
  {
    if p + a == p + b {
      PrefixCancel(p, a, b);
    }
  }

  /** Different prefixes give different names: two stacks deployed from
      different environments never share a resource name. */
  lemma ResourceNamesInjective(p: string, q: string, suffix: string)
    ensures p + suffix == q + suffix <==> p == q
  {
    if p + suffix == q + suffix {
      SuffixCancel(p, q, suffix);
    }
  }

  // ---------------------------------------------------------------------
  // Construct ids in the stack's scope

  /** The ids of the constructs each stack creates directly in its own scope,
      in creation order: the VPC, the cluster, the secret stored under `first`,
      the one stored under `second`, and the service. */
  function ChildIds(s: StackSpec, first: string, second: string): seq<string>
    requires first in s.secrets && second in s.secrets
  {
    [s.vpcName, s.clusterName, s.secrets[first].constructId, s.secrets[second].constructId, s.serviceName]
  }

  /** No two children share an id, as the CDK constructs library demands of
      the children of one scope. */
  predicate UniqueIds(ids: seq<string>) {
    forall i, j :: 0 <= i < j < |ids| ==> ids[i] != ids[j]
  }

  /** The position of the first child whose id an earlier sibling already has:
      the CDK constructs library throws when that child is created. */
  function FirstDuplicate(ids: seq<string>): (r: Option<nat>)
    ensures r.None? <==> UniqueIds(ids)
    ensures r.Some? ==> r.value < |ids| && ids[r.value] in ids[..r.value] && UniqueIds(ids[..r.value])
  {
    if |ids| == 0 then None
    else
      var front := ids[..|ids| - 1];
      match FirstDuplicate(front)
      case Some(n) =>
        assert ids[..n] == front[..n] && ids[n] == front[n];
        Some(n)
      case None =>
        if ids[|ids| - 1] in front then
          assert ids[..|ids| - 1] == front;
          Some(|ids| - 1)
        else
          assert UniqueIds(ids) by {
            forall i, j | 0 <= i < j < |ids| ensures ids[i] != ids[j] {
              if j < |ids| - 1 {
                assert ids[i] == front[i] && ids[j] == front[j];
              } else {
                assert ids[i] == front[i];
              }
            }
          }
          None
  }

  /** The first repeated id is at `n` when the id there is already taken and
      the ids before it are all different. */
  lemma FirstDuplicateAt(ids: seq<string>, n: nat)
    requires n < |ids| && ids[n] in ids[..n] && UniqueIds(ids[..n])
    ensures FirstDuplicate(ids) == Some(n)
  {
    var k :| 0 <= k < n && ids[..n][k] == ids[n];
    forall m | n < m <= |ids| ensures !UniqueIds(ids[..m]) {
      assert ids[..m][k] == ids[..m][n];
    }
    forall m | 0 <= m < n ensures ids[m] !in ids[..m] {
      forall l | 0 <= l < m ensures ids[..m][l] != ids[m] {
        assert ids[..m][l] == ids[..n][l] && ids[m] == ids[..n][m];
      }
    }
    assert ids[k] == ids[n];
    var r := FirstDuplicate(ids);
    assert r.Some?;
    assert n <= r.value <= n;
  }

  /** A name that does not end as `suffix` does is not `p + suffix`, for any `p`. */
  lemma LastCharDiffers(a: string, p: string, suffix: string)
    requires |a| > 0 && |suffix| > 0 && a[|a| - 1] != suffix[|suffix| - 1]
    ensures a != p + suffix
  {
    assert (p + suffix)[|p + suffix| - 1] == suffix[|suffix| - 1];
  }
}
