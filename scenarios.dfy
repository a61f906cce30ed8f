/** The "complex Python" function of the two example stacks, assembled once
    with the incremental builder and once with the all-in-constructor base,
    and what the two strategies give alike and apart. */
module Scenarios {
  import opened Wrappers
  import Environments
  import Naming
  import opened Resources
  import opened Iam
  import Policies
  import opened Functions
  import opened EnvVars
  import LambdaFunctionBase
  import PythonLambda
  import PythonBuilder
  import RustLambda
  import GoBuilder
  import RustBuilder
  import LambdaConstructBase
  import NodejsConstruct
  import GoConstruct
  import RustConstruct

  const BedrockFullAccess: ManagedPolicy := ManagedPolicy("AmazonBedrockFullAccess")
  const S3FullAccess: ManagedPolicy := ManagedPolicy("AmazonS3FullAccess")

  /** The role both example stacks give their complex function: the base's
      default inline policy, read access on the secret, then the two managed
      policies. */
  function ScenarioRole(defaults: seq<PolicyStatement>, secret: Secret): Role {
    Role(LambdaServicePrincipal, NewRole(defaults).attachments
         + [Granted(SecretRead(secret)), ManagedPolicyAttached(BedrockFullAccess), ManagedPolicyAttached(S3FullAccess)])
  }

  /** The builder stack's complex Python function: log group, entry, index,
      handler, a 90-second timeout, the secret under `SECRET_NAME`, one layer,
      two managed policies, then `build()`. */
  method BuilderComplexPython(environment: Environments.Environment, secret: Secret, layer: Layer, pythonRuntimes: set<Runtime>)
    returns (r: Result<FunctionDescriptor, BuildError>)
    requires Python3_13 in pythonRuntimes
    ensures r.Success?
    ensures r.value.functionName == Naming.GetPrefixed("complex-builder-python", environment)
    ensures r.value.source == PythonSource(Some(Python3_13), PythonBuilder.BuilderPythonEntry("dummy-python-lambda", None),
                                           Some("index.py"), Some("handler"))
    ensures r.value.logGroup == Some(FunctionLogGroup(r.value.functionName))
    ensures r.value.timeout == Some(Seconds(90))
    ensures r.value.environment == map["SECRET_NAME" := secret.secretName]
    ensures r.value.layers == Some([layer])
    ensures r.value.role == ScenarioRole(Policies.BuilderDefaultStatements(), secret)
    ensures r.value.vpc.None? && r.value.memorySize.None? && r.value.reservedConcurrentExecutions.None?
  {
    var props := PythonBuilder.PythonLambdaFunctionProps("complex-builder-python", environment);
    var b := new PythonBuilder.PythonLambdaFunctionBuilder("BuilderComplexPythonLambda", props, pythonRuntimes);
    var f := b.core;
    var _ := f.WithLogGroup();
    var _ := b.WithEntry("dummy-python-lambda", None);
    var _ := b.WithIndex("index.py");
    var _ := b.WithHandler("handler");
    ConfigureComplex(f, secret, layer);
    r := b.Build();
  }

  /** The configuration part of the builder stack's chain: a 90-second
      timeout, the secret under `SECRET_NAME`, one layer and two managed
      policies, in that order. */
  method ConfigureComplex(f: LambdaFunctionBase.LambdaFunction, secret: Secret, layer: Layer)
    requires f.Valid() && f.role == NewRole(Policies.BuilderDefaultStatements()) && f.environmentVariables == map[]
    modifies f
    ensures f.Valid()
    ensures f.Config() == old(f.Config()).(
              duration := Some(Seconds(90)),
              environmentVariables := map["SECRET_NAME" := secret.secretName],
              layers := Some([layer]),
              role := ScenarioRole(Policies.BuilderDefaultStatements(), secret))
  {
    var _ := f.WithDuration(90);
    var _ := f.WithSecret(secret, Some("SECRET_NAME"));
    assert f.environmentVariables == map["SECRET_NAME" := secret.secretName];
    assert f.role == Attach(NewRole(Policies.BuilderDefaultStatements()), Granted(SecretRead(secret)));
    var _ := f.WithLayers([layer]);
    var _ := f.WithManagedPolicy(BedrockFullAccess);
    var _ := f.WithManagedPolicy(S3FullAccess);
  }

  /** The property bag of the constructor stack's complex Python function. */
  function ComplexConstructProps(environment: Environments.Environment, secret: Secret, layer: Layer)
    : LambdaConstructBase.LambdaConstructProps
  {
    LambdaConstructBase.LambdaConstructProps(
      "complex-constructor-python-lambda", environment, true, Some(Seconds(90)), None, None, None,
      None, None, None, Some([layer]),
      Some([LambdaConstructBase.SecretItem(secret, Some("SECRET_NAME"))]), None, None, None,
      Some([BedrockFullAccess, S3FullAccess]))
  }

  /** Its one collaborator, the secret, writes `SECRET_NAME` and nothing else. */
  lemma ComplexConstructEnvironment(environment: Environments.Environment, secret: Secret, layer: Layer)
    ensures LambdaConstructBase.ConstructEnvironment(ComplexConstructProps(environment, secret, layer))
            == map["SECRET_NAME" := secret.secretName]
  {
    var props := ComplexConstructProps(environment, secret, layer);
    var all := LambdaConstructBase.AllCollaborators(props);
    assert all == [LambdaConstructBase.SecretCollaborator(props.secrets.value[0])];
    assert all[..0] == [];
    var bs := [Binding(Some("SECRET_NAME"), secret.secretName)];
    assert LambdaConstructBase.CollaboratorBindings(all) == bs;
    assert bs[..0] == [];
    assert ApplyBindings(map[], bs) == Bind(ApplyBindings(map[], bs[..0]), bs[0]);
    assert Truthy(bs[0].name);
  }

  /** Its role: the read grant on the secret, then the two managed policies. */
  lemma ComplexConstructRole(environment: Environments.Environment, secret: Secret, layer: Layer)
    ensures LambdaConstructBase.ConstructRole(ComplexConstructProps(environment, secret, layer))
            == ScenarioRole(Policies.ConstructDefaultStatements(), secret)
  {
    var props := ComplexConstructProps(environment, secret, layer);
    var all := LambdaConstructBase.AllCollaborators(props);
    assert all == [LambdaConstructBase.SecretCollaborator(props.secrets.value[0])];
    assert all[..0] == [];
    assert LambdaConstructBase.CollaboratorGrants(all[..0]) == [];
    assert LambdaConstructBase.CollaboratorGrants(all) == [Granted(SecretRead(secret))];
    var m := props.managedPolicies.value;
    assert m[..1][..0] == [] && m[..1] == [BedrockFullAccess];
    assert LambdaConstructBase.ManagedAttachments(m)
           == [ManagedPolicyAttached(BedrockFullAccess), ManagedPolicyAttached(S3FullAccess)];
  }

  /** The constructor stack's complex Python function, as its shared base
      builds it: log group, the secret under `SECRET_NAME`, one layer, a
      90-second timeout and two managed policies. */
  method ConstructorComplexPython(environment: Environments.Environment, secret: Secret, layer: Layer)
    returns (c: FunctionConfig, lambdaName: string)
    ensures lambdaName == Naming.GetPrefixed("complex-constructor-python-lambda", environment)
    ensures c.logGroup == Some(FunctionLogGroup(lambdaName))
    ensures c.duration == Some(Seconds(90))
    ensures c.environmentVariables == map["SECRET_NAME" := secret.secretName]
    ensures c.layers == Some([layer])
    ensures c.role == ScenarioRole(Policies.ConstructDefaultStatements(), secret)
    ensures c.vpc.None? && c.memorySize.None? && c.concurrency.None?
  {
    var props := ComplexConstructProps(environment, secret, layer);
    var construct := new LambdaConstructBase.LambdaConstruct("ComplexConstructorPythonLambda", props);
    c, lambdaName := construct.Config(), construct.lambdaName;
    ComplexConstructEnvironment(environment, secret, layer);
    ComplexConstructRole(environment, secret, layer);
  }

  /** The property bag of the constructor stack's simple functions: a name,
      the environment, and nothing else. */
  function SimpleConstructProps(name: string, environment: Environments.Environment)
    : LambdaConstructBase.LambdaConstructProps
  {
    LambdaConstructBase.LambdaConstructProps(
      name, environment, false, None, None, None, None, None, None, None, None, None, None, None, None, None)
  }

  /** With no collaborators and no policies, the constructor leaves the
      default role and an empty set of variables. */
  lemma SimpleConstructDefaults(name: string, environment: Environments.Environment)
    ensures LambdaConstructBase.ConstructEnvironment(SimpleConstructProps(name, environment)) == map[]
    ensures LambdaConstructBase.ConstructRole(SimpleConstructProps(name, environment))
            == NewRole(Policies.ConstructDefaultStatements())
  {
    var props := SimpleConstructProps(name, environment);
    assert LambdaConstructBase.AllCollaborators(props) == [];
    assert LambdaConstructBase.ManagedAttachments([]) == [];
    assert NewRole(Policies.ConstructDefaultStatements()).attachments + [] + []
           == NewRole(Policies.ConstructDefaultStatements()).attachments;
  }

  /** The constructor stack's simple Rust function: its manifest steps up out
      of the constructors directory into the crate named by `path`. */
  method ConstructorSimpleRust(environment: Environments.Environment) returns (lambda: FunctionDescriptor)
    ensures lambda.functionName == Naming.GetPrefixed("dummy-constructor-rust-lambda", environment)
    ensures lambda.source == RustSource(Join([ConstructorsDir, "../" + LambdaBasePath + "/" + "dummy-rust-lambda" + "/Cargo.toml"]), None)
    ensures lambda.environment == map[] && lambda.role == NewRole(Policies.ConstructDefaultStatements())
    ensures lambda.logGroup.None? && lambda.layers.None?
  {
    var props := RustConstruct.RustLambdaProps(Some("dummy-rust-lambda"), None,
                   SimpleConstructProps("dummy-constructor-rust-lambda", environment));
    var c := new RustConstruct.RustFunctionConstruct("ConstructorSimpleRustLambda", props);
    SimpleConstructDefaults("dummy-constructor-rust-lambda", environment);
    lambda := c.lambda;
  }

  /** The constructor stack's simple Go function: entry and module file side
      by side in the `path` directory. */
  method ConstructorSimpleGo(environment: Environments.Environment) returns (lambda: FunctionDescriptor)
    ensures lambda.functionName == Naming.GetPrefixed("dummy-constructor-go-lambda", environment)
    ensures lambda.source == GoSource(Join([LambdaBasePath, "dummy-go-lambda", "main.go"]),
                                      Join([LambdaBasePath, "dummy-go-lambda", "go.mod"]))
    ensures lambda.environment == map[] && lambda.role == NewRole(Policies.ConstructDefaultStatements())
  {
    var props := GoConstruct.GoLambdaProps(Some("dummy-go-lambda"), None, None,
                   SimpleConstructProps("dummy-constructor-go-lambda", environment));
    var c := new GoConstruct.GoFunctionConstruct("ConstructorSimpleGoLambda", props);
    SimpleConstructDefaults("dummy-constructor-go-lambda", environment);
    lambda := c.lambda;
  }

  /** The constructor stack's simple Node.js function: no runtime given, so
      the latest Node.js runtime, which passes the check when it is one of
      the accepted runtimes and throws otherwise. */
  method ConstructorSimpleNodejs(environment: Environments.Environment, nodejsRuntimes: set<Runtime>)
    returns (r: Result<FunctionDescriptor, BuildError>)
    ensures r.Success? <==> NodejsLatest in nodejsRuntimes
    ensures r.Success? ==> r.value.functionName == Naming.GetPrefixed("dummy-constructor-nodejs-lambda", environment)
    ensures r.Success? ==> r.value.source == NodejsSource(Some(NodejsLatest),
                             Join([LambdaBasePath, "dummy-nodejs-lambda", "index.ts"]), None)
    ensures r.Success? ==> r.value.environment == map[]
    ensures r.Failure? ==> r.error == BuildError.TypeError(
              "Expected a Nodejs runtime to be given. Got " + NodejsLatest.name + " instead.")
  {
    var props := NodejsConstruct.NodejsLambdaProps(Some("dummy-nodejs-lambda"), None, None, None,
                   SimpleConstructProps("dummy-constructor-nodejs-lambda", environment));
    var c := NodejsConstruct.NodejsFunctionConstruct.Create("ConstructorSimpleNodejsLambda", props, nodejsRuntimes);
    if c.Failure? {
      return Failure(c.error);
    }
    SimpleConstructDefaults("dummy-constructor-nodejs-lambda", environment);
    r := Success(c.value.lambda);
  }

  /** The two strategies give the example function the same variables and
      the same grants and managed policies in the same order; their roles
      differ only in the default inline policy, where the builder alone allows
      `ec2:DetachNetworkInterface`. */
  lemma StrategiesDifferInDefaultPolicyOnly(secret: Secret)
    ensures var b := ScenarioRole(Policies.BuilderDefaultStatements(), secret);
            var c := ScenarioRole(Policies.ConstructDefaultStatements(), secret);
            && b.assumedBy == c.assumedBy && |b.attachments| == |c.attachments| == 5
            && (forall k :: 0 <= k < 5 && k != 1 ==> b.attachments[k] == c.attachments[k])
            && b.attachments[1] == InlinePolicyAttached(Policies.BuilderDefaultStatements())
            && c.attachments[1] == InlinePolicyAttached(Policies.ConstructDefaultStatements())
            && b != c
  {
    Policies.DefaultStatementsDiverge();
    var b := ScenarioRole(Policies.BuilderDefaultStatements(), secret);
    assert b.attachments[1] == InlinePolicyAttached(Policies.BuilderDefaultStatements());
  }

  /** The builder stack's simple Python function: the builder's defaults alone
      give a buildable function. */
  method BuilderSimplePython(environment: Environments.Environment, pythonRuntimes: set<Runtime>)
    returns (r: Result<FunctionDescriptor, BuildError>)
    requires Python3_13 in pythonRuntimes
    ensures r.Success?
    ensures r.value.functionName == Naming.GetPrefixed("dummy-python-lambda", environment)
    ensures r.value.source == PythonSource(Some(Python3_13), PythonBuilder.BuilderPythonEntry("dummy-python-lambda", None),
                                           None, Some("handler"))
    ensures r.value.environment == map[] && r.value.role == NewRole(Policies.BuilderDefaultStatements())
    ensures r.value.logGroup.None? && r.value.layers.None?
  {
    var props := PythonBuilder.PythonLambdaFunctionProps("dummy-python-lambda", environment);
    var b := new PythonBuilder.PythonLambdaFunctionBuilder("BuilderSimplePythonLambda", props, pythonRuntimes);
    r := b.Build();
  }

  /** The builder stack's simple Rust function: the default manifest is the
      crate named after the function, so building succeeds. */
  method BuilderSimpleRust(environment: Environments.Environment) returns (r: Result<FunctionDescriptor, BuildError>)
    ensures r.Success?
    ensures r.value.functionName == Naming.GetPrefixed("dummy-rust-lambda", environment)
    ensures r.value.source == RustSource(RustBuilder.BuilderRustManifest("dummy-rust-lambda", None), None)
    ensures r.value.environment == map[] && r.value.layers.None?
  {
    var props := RustBuilder.RustLambdaFunctionProps("dummy-rust-lambda", environment);
    var b := new RustBuilder.RustLambdaFunctionBuilder("BuilderSimpleRustLambda", props);
    r := b.Build();
  }

  /** The builder stack's complex Rust function: the same chain as the
      complex Python one after `withManifest`; the builder forwards the layer. */
  method BuilderComplexRust(environment: Environments.Environment, secret: Secret, layer: Layer)
    returns (r: Result<FunctionDescriptor, BuildError>)
    ensures r.Success?
    ensures r.value.functionName == Naming.GetPrefixed("complex-rust-lambda", environment)
    ensures r.value.source == RustSource(RustBuilder.BuilderRustManifest("dummy-rust-lambda", None), None)
    ensures r.value.logGroup == Some(FunctionLogGroup(r.value.functionName))
    ensures r.value.timeout == Some(Seconds(90))
    ensures r.value.environment == map["SECRET_NAME" := secret.secretName]
    ensures r.value.layers == Some([layer])
    ensures r.value.role == ScenarioRole(Policies.BuilderDefaultStatements(), secret)
  {
    var props := RustBuilder.RustLambdaFunctionProps("complex-rust-lambda", environment);
    var b := new RustBuilder.RustLambdaFunctionBuilder("BuilderComplexRustLambda", props);
    var _ := b.WithManifest("dummy-rust-lambda", None);
    var f := b.core;
    var _ := f.WithLogGroup();
    ConfigureComplex(f, secret, layer);
    r := b.Build();
  }

  /** The same chain on the Rust function beside the builders: once a
      manifest is given the build succeeds, but the layer is not forwarded. */
  method ComplexRustDropsLayer(environment: Environments.Environment, secret: Secret, layer: Layer)
    returns (r: Result<FunctionDescriptor, BuildError>)
    ensures r.Success?
    ensures r.value.functionName == Naming.GetPrefixed("complex-rust-lambda", environment)
    ensures r.value.source == RustSource(RustLambda.RustLambdaManifest("dummy-rust-lambda", None), None)
    ensures r.value.logGroup == Some(FunctionLogGroup(r.value.functionName))
    ensures r.value.timeout == Some(Seconds(90))
    ensures r.value.environment == map["SECRET_NAME" := secret.secretName]
    ensures r.value.role == ScenarioRole(Policies.BuilderDefaultStatements(), secret)
    ensures r.value.layers.None?
  {
    var props := RustLambda.RustLambdaFunctionProps("complex-rust-lambda", environment);
    var f := new RustLambda.RustLambdaFunction("ComplexRustLambda", props);
    var _ := f.WithManifest(Some("dummy-rust-lambda"), None);
    var _ := f.core.WithLogGroup();
    ConfigureComplex(f.core, secret, layer);
    r := f.Build();
  }

  /** The builder stack's simple Go function: entry and module directory are
      the same default path, so both checks pass. */
  method BuilderSimpleGo(environment: Environments.Environment) returns (r: Result<FunctionDescriptor, BuildError>)
    ensures r.Success?
    ensures r.value.functionName == Naming.GetPrefixed("dummy-go-lambda", environment)
    ensures r.value.source == GoSource(GoBuilder.GoPath("dummy-go-lambda", None), GoBuilder.GoPath("dummy-go-lambda", None))
  {
    var props := GoBuilder.GoLambdaFunctionProps("dummy-go-lambda", environment);
    var b := new GoBuilder.GoLambdaFunctionBuilder("BuilderSimpleGoLambda", props);
    r := b.Build();
  }

  /** The builder-side Rust function has no manifest until one is given, so
      building it straight away fails. */
  method RustWithoutManifest(environment: Environments.Environment) returns (r: Result<FunctionDescriptor, BuildError>)
    ensures r == Failure(Thrown(ManifestUndefined))
  {
    var f := new RustLambda.RustLambdaFunction("RustLambda", RustLambda.RustLambdaFunctionProps("dummy-rust-lambda", environment));
    r := f.Build();
  }
}
