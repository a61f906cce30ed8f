/** The builder-side Rust function: no manifest until `WithManifest` is called,
    and a build that does not forward layers. */
module RustLambda {
  import opened Wrappers
  import Environments
  import opened Resources
  import opened Functions
  import opened LambdaFunctionBase

  datatype RustLambdaFunctionProps = RustLambdaFunctionProps(name: string, environment: Environments.Environment)

  /** The manifest: `__dirname` joined with "<base>/<path>/Cargo.toml". */
  function RustLambdaManifest(path: string, basePath: Option<string>): Path {
    Join([LambdaDir, basePath.GetOr(LambdaBasePath) + "/" + path + "/Cargo.toml"])
  }

  /** The build step: it fails exactly when no manifest is set; otherwise it
      forwards the name, the manifest and the configuration, except layers,
      which it never passes on. */
  function RustLambdaBuild(lambdaName: string, config: FunctionConfig, manifestPath: Option<Path>): (r: Result<FunctionDescriptor, BuildError>)
    ensures r.Failure? <==> manifestPath.None?
    ensures r.Failure? ==> r.error == Thrown(ManifestUndefined)
    ensures r.Success? ==> r.value.source == RustSource(manifestPath.value, None)
    ensures r.Success? ==> r.value.layers.None?
    ensures r.Success? ==> r.value.functionName == lambdaName && r.value.architecture == Arm64
    ensures r.Success? ==> r.value.environment == config.environmentVariables && r.value.role == config.role
    ensures r.Success? ==> r.value.logGroup == config.logGroup && r.value.vpc == config.vpc
                           && r.value.vpcSubnets == config.vpcSubnets && r.value.securityGroups == config.securityGroups
    ensures r.Success? ==> r.value.timeout == config.duration && r.value.memorySize == config.memorySize
                           && r.value.reservedConcurrentExecutions == config.concurrency
  {
    if manifestPath.None? then Failure(Thrown(ManifestUndefined))
    else Success(Describe(lambdaName, config, RustSource(manifestPath.value, None)).(layers := None))
  }

  class RustLambdaFunction {
    const core: LambdaFunction
    var manifestPath: Option<Path>
    var lambda: Option<FunctionDescriptor>

    /** Construction sets no manifest. */
    constructor (id: string, props: RustLambdaFunctionProps)
      ensures fresh(core) && core.Valid()
      ensures core.id == id && core.name == props.name && core.environment == props.environment
      ensures core.Config() == InitialConfig()
      ensures manifestPath.None? && lambda.None?
    {
      core := new LambdaFunction(id, props.name, props.environment);
      manifestPath, lambda := None, None;
    }

    /** Sets the manifest; the path defaults to the function's name. */
    method WithManifest(path: Option<string>, basePath: Option<string>) returns (self: RustLambdaFunction)
      modifies this`manifestPath
      ensures self == this
      ensures manifestPath == Some(RustLambdaManifest(path.GetOr(core.name), basePath))
    {
      var p := path.GetOr(core.name);
      manifestPath := Some(RustLambdaManifest(p, basePath));
      self := this;
    }

    method Build() returns (r: Result<FunctionDescriptor, BuildError>)
      modifies this`lambda
      ensures r == RustLambdaBuild(core.lambdaName, core.Config(), manifestPath)
      ensures r.Success? ==> lambda == Some(r.value)
      ensures r.Failure? ==> lambda == old(lambda)
    {
      if manifestPath.None? {
        return Failure(Thrown(ManifestUndefined));
      }
      var d := Describe(core.lambdaName, core.Config(), RustSource(manifestPath.value, None)).(layers := None);
      lambda := Some(d);
      r := Success(d);
    }
  }
}
