/** The incremental builder's base: a function whose configuration is changed
    step by step through fluent `with*` calls, each returning the same object. */
module LambdaFunctionBase {
  import opened Wrappers
  import opened Environments
  import Naming
  import opened Resources
  import opened Iam
  import Policies
  import opened Functions
  import opened EnvVars

  /** The configuration right after construction: nothing set, no variables,
      the role with the builder's default inline policy. */
  function InitialConfig(): (c: FunctionConfig)
    ensures c.role == NewRole(Policies.BuilderDefaultStatements())
    ensures c.environmentVariables == map[]
  {
    FunctionConfig(None, NewRole(Policies.BuilderDefaultStatements()), None, None, None, map[],
                   None, None, None, None, None)
  }

  /** The security groups as a list: a single group becomes a one-element list. */
  function GroupList(groups: SecurityGroups): (r: seq<SecurityGroup>)
    ensures groups.OneGroup? ==> r == [groups.group]
    ensures groups.Groups? ==> r == groups.groups
  {
    match groups
    case OneGroup(g) => [g]
    case Groups(gs) => gs
  }

  /** The subnets `withVpc` uses: the given selection, or private subnets with egress. */
  function SubnetsOrDefault(vpcSubnets: Option<SubnetSelection>): (r: SubnetSelection)
    ensures vpcSubnets.None? ==> r == SubnetSelection(PrivateWithEgress)
    ensures vpcSubnets.Some? ==> r == vpcSubnets.value
  {
    vpcSubnets.GetOr(SubnetSelection(PrivateWithEgress))
  }

  class LambdaFunction {
    const id: string
    const name: string
    const environment: Environment
    const lambdaName: string

    var logGroup: Option<LogGroup>
    var role: Role
    var duration: Option<Duration>
    var memorySize: Option<int>
    var concurrency: Option<int>
    var environmentVariables: EnvMap
    var vpc: Option<Vpc>
    var vpcSubnets: Option<SubnetSelection>
    var securityGroups: Option<seq<SecurityGroup>>
    var layers: Option<seq<Layer>>
    var runtime: Option<Runtime>

    /** The mutable fields as one value. */
    function Config(): FunctionConfig
      reads this
    {
      FunctionConfig(logGroup, role, duration, memorySize, concurrency, environmentVariables,
                     vpc, vpcSubnets, securityGroups, layers, runtime)
    }

    /** The builder's invariant: the deployed name follows the naming policy,
        the role only ever grows from the initial role, and a log group, once
        created, is the one named after the function. */
    ghost predicate Valid()
      reads this
    {
      && lambdaName == Naming.GetPrefixed(name, environment)
      && Extends(role, InitialConfig().role)
      && (logGroup.Some? ==> logGroup.value == FunctionLogGroup(lambdaName))
    }

    constructor (id: string, name: string, environment: Environment)
      ensures Valid()
      ensures this.id == id && this.name == name && this.environment == environment
      ensures lambdaName == Naming.GetPrefixed(name, environment)
      ensures Config() == InitialConfig()
    {
      this.id := id;
      this.name := name;
      this.environment := environment;
      lambdaName := Naming.GetPrefixed(name, environment);
      environmentVariables := map[];
      role := NewRole(Policies.BuilderDefaultStatements());
      logGroup, duration, memorySize, concurrency := None, None, None, None;
      vpc, vpcSubnets, securityGroups, layers, runtime := None, None, None, None, None;
    }

    method WithLogGroup() returns (self: LambdaFunction)
      requires Valid()
      modifies this
      ensures Valid() && self == this
      ensures Config() == old(Config()).(logGroup := Some(FunctionLogGroup(lambdaName)))
    {
      logGroup := Some(FunctionLogGroup(lambdaName));
      self := this;
    }

    method WithDuration(seconds: int) returns (self: LambdaFunction)
      requires Valid()
      modifies this
      ensures Valid() && self == this
      ensures Config() == old(Config()).(duration := Some(Seconds(seconds)))
    {
      duration := Some(Seconds(seconds));
      self := this;
    }

    /** Grants read access on the secret, then maps its name into the variable
        `asEnvironmentVariable` when that name is truthy. */
    method WithSecret(secret: Secret, asEnvironmentVariable: Option<string>) returns (self: LambdaFunction)
      requires Valid()
      modifies this
      ensures Valid() && self == this
      ensures Config() == old(Config()).(
                role := Attach(old(role), Granted(SecretRead(secret))),
                environmentVariables := Bind(old(environmentVariables), Binding(asEnvironmentVariable, secret.secretName)))
    {
      AttachExtends(role, InitialConfig().role, Granted(SecretRead(secret)));
      role := Attach(role, Granted(SecretRead(secret)));
      if Truthy(asEnvironmentVariable) {
        var _ := WithEnvironmentVariable(asEnvironmentVariable.value, secret.secretName);
      }
      self := this;
    }

    method WithManagedPolicy(managedPolicy: ManagedPolicy) returns (self: LambdaFunction)
      requires Valid()
      modifies this
      ensures Valid() && self == this
      ensures Config() == old(Config()).(role := Attach(old(role), ManagedPolicyAttached(managedPolicy)))
    {
      AttachExtends(role, InitialConfig().role, ManagedPolicyAttached(managedPolicy));
      role := Attach(role, ManagedPolicyAttached(managedPolicy));
      self := this;
    }

    method WithMemorySize(memorySizeInMB: int) returns (self: LambdaFunction)
      requires Valid()
      modifies this
      ensures Valid() && self == this
      ensures Config() == old(Config()).(memorySize := Some(memorySizeInMB))
    {
      memorySize := Some(memorySizeInMB);
      self := this;
    }

    method WithConcurrency(reservedConcurrentExecutions: int) returns (self: LambdaFunction)
      requires Valid()
      modifies this
      ensures Valid() && self == this
      ensures Config() == old(Config()).(concurrency := Some(reservedConcurrentExecutions))
    {
      concurrency := Some(reservedConcurrentExecutions);
      self := this;
    }

    /** Overlays the given variables: new keys are added, given values win,
        and no earlier key is dropped. */
    method WithEnvironmentVariables(variables: EnvMap) returns (self: LambdaFunction)
      requires Valid()
      modifies this
      ensures Valid() && self == this
      ensures Config() == old(Config()).(environmentVariables := Overlay(old(environmentVariables), variables))
    {
      environmentVariables := Overlay(environmentVariables, variables);
      self := this;
    }

    /** Sets the three network fields together; subnets default to private
        with egress and a single security group becomes a list. */
    method WithVpc(vpc: Vpc, securityGroups: SecurityGroups, vpcSubnets: Option<SubnetSelection>) returns (self: LambdaFunction)
      requires Valid()
      modifies this
      ensures Valid() && self == this
      ensures Config() == old(Config()).(
                vpc := Some(vpc),
                vpcSubnets := Some(SubnetsOrDefault(vpcSubnets)),
                securityGroups := Some(GroupList(securityGroups)))
    {
      var subnets := SubnetsOrDefault(vpcSubnets);
      var groups := GroupList(securityGroups);
      this.vpc := Some(vpc);
      this.vpcSubnets := Some(subnets);
      this.securityGroups := Some(groups);
      self := this;
    }

    /** Sets the runtime without checking it. */
    method WithRuntime(runtime: Runtime) returns (self: LambdaFunction)
      requires Valid()
      modifies this
      ensures Valid() && self == this
      ensures Config() == old(Config()).(runtime := Some(runtime))
    {
      this.runtime := Some(runtime);
      self := this;
    }

    /** Writes one variable in place; every other key is untouched. */
    method WithEnvironmentVariable(name: string, value: string) returns (self: LambdaFunction)
      requires Valid()
      modifies this
      ensures Valid() && self == this
      ensures Config() == old(Config()).(environmentVariables := SetVar(old(environmentVariables), name, value))
    {
      environmentVariables := environmentVariables[name := value];
      self := this;
    }

    method WithLayers(layers: seq<Layer>) returns (self: LambdaFunction)
      requires Valid()
      modifies this
      ensures Valid() && self == this
      ensures Config() == old(Config()).(layers := Some(layers))
    {
      this.layers := Some(layers);
      self := this;
    }
  }
}
