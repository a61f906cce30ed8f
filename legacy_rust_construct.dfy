/** The older all-in-one Rust construct kept in the Python constructor's file:
    it derives everything from its own property bag (a record of secrets,
    extra policy statements, foundation models, a database network) instead of
    the shared construct base. Modelled as the descriptor it assembles. */
module LegacyRustConstruct {
  import opened Wrappers
  import opened Environments
  import Naming
  import opened Resources
  import opened Iam
  import Policies
  import opened Functions
  import opened EnvVars
  import RustConstruct
  import LambdaConstructBase

  /** A database the function must reach: its network and credentials. */
  datatype DatabaseProps = DatabaseProps(vpc: Vpc, securityGroup: SecurityGroup, secret: Secret)

  /** The property bag. `secrets` is a record from variable name to secret,
      listed in the order `for...in` enumerates its keys (integer-like keys
      first, in ascending numeric order, then the rest in insertion order);
      `rdsDatabase` is read by the constructor though the property type does
      not declare it. */
  datatype LegacyRustProps = LegacyRustProps(
    name: string,
    path: string,
    basePath: Option<string>,
    duration: Option<Duration>,
    memorySize: Option<int>,
    environmentVariables: Option<EnvMap>,
    concurrency: Option<int>,
    layers: Option<seq<Layer>>,
    bundling: Option<Bundling>,
    policies: Option<seq<PolicyStatement>>,
    environment: Environment,
    secrets: Option<seq<(string, Secret)>>,
    bedrockModelsIdentifiers: Option<seq<Policies.FoundationModelIdentifier>>,
    database: Option<DatabaseProps>,
    rdsDatabase: Option<DatabaseProps>)

  /** A record has each key once. */
  predicate DistinctKeys(record: seq<(string, Secret)>) {
    forall i, j :: 0 <= i < j < |record| ==> record[i].0 != record[j].0
  }

  /** The manifest: `__dirname` joined with "<base>/<path>/Cargo.toml". */
  function LegacyManifest(props: LegacyRustProps): Path {
    Join([ConstructorsDir, props.basePath.GetOr(LambdaBasePath) + "/" + props.path + "/Cargo.toml"])
  }

  /** This manifest lacks the leading "../" step the current Rust construct
      takes from the same directory, so the two name different files. */
  lemma LegacyManifestLacksParentStep(props: LegacyRustProps, construct: LambdaConstructBase.LambdaConstructProps)
    ensures var current := RustConstruct.RustConstructManifest(props.name,
                             RustConstruct.RustLambdaProps(Some(props.path), props.basePath, construct));
            && current.segments[0] == LegacyManifest(props).segments[0]
            && current.segments[1] == "../" + LegacyManifest(props).segments[1]
            && current != LegacyManifest(props)
  {
    var b := props.basePath.GetOr(LambdaBasePath);
    assert "../" + b + "/" + props.path + "/Cargo.toml" == "../" + (b + "/" + props.path + "/Cargo.toml");
    var current := RustConstruct.RustConstructManifest(props.name,
                     RustConstruct.RustLambdaProps(Some(props.path), props.basePath, construct));
    assert |current.segments[1]| != |LegacyManifest(props).segments[1]|;
  }

  /** The inline policy: the construct defaults, then the given statements,
      then one statement per foundation model with the default model actions. */
  function LegacyStatements(props: LegacyRustProps): (r: seq<PolicyStatement>)
    ensures var p := props.policies.GetOr([]); var m := props.bedrockModelsIdentifiers.GetOr([]);
            && |r| == 2 + |p| + |m|
            && r[..2] == Policies.ConstructDefaultStatements()
            && r[2..2 + |p|] == p
            && forall i :: 0 <= i < |m| ==>
                 r[2 + |p| + i] == PolicyStatement(Allow, [Policies.ModelArn(m[i])], Policies.DefaultModelActions)
  {
    Policies.ConstructDefaultStatements() + props.policies.GetOr([])
    + Policies.ModelStatements(props.bedrockModelsIdentifiers, None)
  }

  datatype VpcSettings = VpcSettings(vpc: Vpc, vpcSubnets: SubnetSelection, securityGroups: seq<SecurityGroup>)

  /** The network: the RDS database's if given, else the database's, always on
      private subnets with egress and the database's one security group. */
  function LegacyVpcSettings(rdsDatabase: Option<DatabaseProps>, database: Option<DatabaseProps>): (r: Option<VpcSettings>)
    ensures r.None? <==> rdsDatabase.None? && database.None?
    ensures rdsDatabase.Some? ==> r.value.vpc == rdsDatabase.value.vpc
                                  && r.value.securityGroups == [rdsDatabase.value.securityGroup]
    ensures rdsDatabase.None? && database.Some? ==> r.value.vpc == database.value.vpc
                                                    && r.value.securityGroups == [database.value.securityGroup]
    ensures r.Some? ==> r.value.vpcSubnets == SubnetSelection(PrivateWithEgress)
  {
    var chosen := if rdsDatabase.Some? then rdsDatabase else database;
    if chosen.None? then None
    else Some(VpcSettings(chosen.value.vpc, SubnetSelection(PrivateWithEgress), [chosen.value.securityGroup]))
  }

  /** The variable names the secrets record writes, entry by entry. */
  function RecordNames(record: seq<(string, Secret)>): EnvMap
  {
    if record == [] then map[]
    else RecordNames(record[..|record| - 1])[record[|record| - 1].0 := record[|record| - 1].1.secretName]
  }

  /** Every key of the record, and nothing else, becomes a variable. */
  lemma {:induction false} RecordNamesKeys(record: seq<(string, Secret)>)
    ensures RecordNames(record).Keys == set i | 0 <= i < |record| :: record[i].0
  {
    if record != [] {
      var n := |record| - 1;
      RecordNamesKeys(record[..n]);
      assert forall i :: 0 <= i < n ==> record[..n][i] == record[i];
      assert (set i | 0 <= i < |record| :: record[i].0)
             == (set i | 0 <= i < n :: record[..n][i].0) + {record[n].0};
    }
  }

  /** Each key holds its own secret's name. */
  lemma {:induction false} RecordNamesValues(record: seq<(string, Secret)>, i: nat)
    requires DistinctKeys(record) && i < |record|
    ensures record[i].0 in RecordNames(record)
    ensures RecordNames(record)[record[i].0] == record[i].1.secretName
  {
    var n := |record| - 1;
    if i < n {
      assert record[..n][i] == record[i];
      assert DistinctKeys(record[..n]) by {
        assert forall j :: 0 <= j < n ==> record[..n][j] == record[j];
      }
      RecordNamesValues(record[..n], i);
    }
  }

  /** The read grants on the record's secrets, in record order. */
  function RecordGrants(record: seq<(string, Secret)>): (r: seq<Attachment>)
    ensures |r| == |record| && forall i :: 0 <= i < |record| ==> r[i] == Granted(SecretRead(record[i].1))
  {
    seq(|record|, i requires 0 <= i < |record| => Granted(SecretRead(record[i].1)))
  }

  /** The secrets loop: every key is written as a variable holding its
      secret's name, whatever its spelling, and read access is granted on
      every secret. */
  method WireSecretRecord(given: EnvMap, role0: Role, record: seq<(string, Secret)>) returns (env: EnvMap, role: Role)
    ensures env == Overlay(given, RecordNames(record))
    ensures role == Role(role0.assumedBy, role0.attachments + RecordGrants(record))
  {
    env, role := given, role0;
    for i := 0 to |record|
      invariant env == Overlay(given, RecordNames(record[..i]))
      invariant role == Role(role0.assumedBy, role0.attachments + RecordGrants(record[..i]))
    {
      RecordStep(given, record, i);
      var (key, secret) := record[i];
      env := env[key := secret.secretName];
      role := Role(role.assumedBy, role.attachments + [Granted(SecretRead(secret))]);
    }
    assert record[..|record|] == record;
  }

  /** One more record entry: one more variable written and one more grant. */
  lemma RecordStep(given: EnvMap, record: seq<(string, Secret)>, i: nat)
    requires i < |record|
    ensures Overlay(given, RecordNames(record[..i + 1]))
            == Overlay(given, RecordNames(record[..i]))[record[i].0 := record[i].1.secretName]
    ensures RecordGrants(record[..i + 1]) == RecordGrants(record[..i]) + [Granted(SecretRead(record[i].1))]
  {
    assert record[..i + 1][..i] == record[..i];
  }

  /** The role the construct ends with. */
  function LegacyRole(props: LegacyRustProps): Role
  {
    var r0 := NewRole(LegacyStatements(props));
    Role(r0.assumedBy, r0.attachments + RecordGrants(props.secrets.GetOr([])))
  }

  /** The descriptor the construct assembles: a log group always, the
      secrets' names over the given variables, the given timeout, memory and
      concurrency, the network of the RDS database or else of the database
      (subnets and security groups included), the given layers, and the
      bundling options copied (empty if none). */
  function LegacyDescriptor(props: LegacyRustProps): (d: FunctionDescriptor)
    ensures d.functionName == Naming.GetPrefixed(props.name, props.environment)
    ensures d.logGroup == Some(FunctionLogGroup(d.functionName))
    ensures d.source == RustSource(LegacyManifest(props), Some(props.bundling.GetOr(Bundling(map[]))))
    ensures d.environment == Overlay(props.environmentVariables.GetOr(map[]), RecordNames(props.secrets.GetOr([])))
    ensures d.role == LegacyRole(props) && d.layers == props.layers && d.architecture == Arm64
    ensures d.timeout == props.duration && d.memorySize == props.memorySize
    ensures d.reservedConcurrentExecutions == props.concurrency
    ensures d.vpc.Some? <==> props.rdsDatabase.Some? || props.database.Some?
    ensures var s := LegacyVpcSettings(props.rdsDatabase, props.database);
            && d.vpc == (if s.Some? then Some(s.value.vpc) else None)
            && d.vpcSubnets == (if s.Some? then Some(s.value.vpcSubnets) else None)
            && d.securityGroups == (if s.Some? then Some(s.value.securityGroups) else None)
  {
    var functionName := Naming.GetPrefixed(props.name, props.environment);
    var settings := LegacyVpcSettings(props.rdsDatabase, props.database);
    FunctionDescriptor(
      RustSource(LegacyManifest(props), Some(props.bundling.GetOr(Bundling(map[])))),
      functionName, props.duration, props.memorySize, Some(FunctionLogGroup(functionName)),
      Overlay(props.environmentVariables.GetOr(map[]), RecordNames(props.secrets.GetOr([]))),
      props.concurrency, Arm64, LegacyRole(props),
      if settings.Some? then Some(settings.value.vpc) else None,
      if settings.Some? then Some(settings.value.vpcSubnets) else None,
      if settings.Some? then Some(settings.value.securityGroups) else None,
      props.layers)
  }

  /** The constructor's assembly, step by step. */
  method Assemble(props: LegacyRustProps) returns (d: FunctionDescriptor)
    ensures d == LegacyDescriptor(props)
  {
    var functionName := Naming.GetPrefixed(props.name, props.environment);
    var manifestPath := LegacyManifest(props);
    var logGroup := FunctionLogGroup(functionName);
    var role := NewRole(LegacyStatements(props));
    var env;
    env, role := WireSecretRecord(props.environmentVariables.GetOr(map[]), role, props.secrets.GetOr([]));
    var settings := LegacyVpcSettings(props.rdsDatabase, props.database);
    d := FunctionDescriptor(
      RustSource(manifestPath, Some(props.bundling.GetOr(Bundling(map[])))),
      functionName, props.duration, props.memorySize, Some(logGroup), env,
      props.concurrency, Arm64, role,
      if settings.Some? then Some(settings.value.vpc) else None,
      if settings.Some? then Some(settings.value.vpcSubnets) else None,
      if settings.Some? then Some(settings.value.securityGroups) else None,
      props.layers);
  }
}
