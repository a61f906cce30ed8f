/** The Rust function builder: a manifest derived from the name at
    construction, replaceable by `WithManifest`. */
module RustBuilder {
  import opened Wrappers
  import Environments
  import opened Resources
  import opened Functions
  import opened LambdaFunctionBase
  import RustLambda

  datatype RustLambdaFunctionProps = RustLambdaFunctionProps(name: string, environment: Environments.Environment)

  /** The manifest: `path.join(base, path + "/Cargo.toml")`. */
  function BuilderRustManifest(path: string, basePath: Option<string>): Path {
    Join([basePath.GetOr(LambdaBasePath), path + "/Cargo.toml"])
  }

  /** The manifest always ends in "/Cargo.toml" after the given path. */
  lemma ManifestNamesCargoToml(path: string, basePath: Option<string>)
    ensures var segments := BuilderRustManifest(path, basePath).segments;
            |segments| == 2 && segments[0] == basePath.GetOr(LambdaBasePath)
            && segments[1][..|path|] == path && segments[1][|path|..] == "/Cargo.toml"
  {
    var last := path + "/Cargo.toml";
    assert last[..|path|] == path;
    assert last[|path|..] == "/Cargo.toml";
  }

  /** The build step: fails exactly when no manifest is set; otherwise forwards
      the name, the manifest and the configuration, layers included. */
  function RustBuild(lambdaName: string, config: FunctionConfig, manifestPath: Option<Path>): (r: Result<FunctionDescriptor, BuildError>)
    ensures r.Failure? <==> manifestPath.None?
    ensures r.Failure? ==> r.error == Thrown(ManifestUndefined)
    ensures r.Success? ==> r.value.source == RustSource(manifestPath.value, None)
    ensures r.Success? ==> r.value.functionName == lambdaName && r.value.architecture == Arm64
    ensures r.Success? ==> r.value.environment == config.environmentVariables && r.value.role == config.role
    ensures r.Success? ==> r.value.layers == config.layers && r.value.logGroup == config.logGroup
    ensures r.Success? ==> r.value.vpc == config.vpc && r.value.vpcSubnets == config.vpcSubnets
                           && r.value.securityGroups == config.securityGroups
    ensures r.Success? ==> r.value.timeout == config.duration && r.value.memorySize == config.memorySize
                           && r.value.reservedConcurrentExecutions == config.concurrency
  {
    if manifestPath.None? then Failure(Thrown(ManifestUndefined))
    else Success(Describe(lambdaName, config, RustSource(manifestPath.value, None)))
  }

  /** The two Rust builders build the same descriptor except for layers, which
      only this one forwards. */
  lemma RustBuildersDifferOnlyInLayers(lambdaName: string, config: FunctionConfig, manifestPath: Path)
    ensures RustLambda.RustLambdaBuild(lambdaName, config, Some(manifestPath)).value
            == RustBuild(lambdaName, config, Some(manifestPath)).value.(layers := None)
    ensures config.layers.Some? ==>
              RustLambda.RustLambdaBuild(lambdaName, config, Some(manifestPath))
              != RustBuild(lambdaName, config, Some(manifestPath))
  {
  }

  class RustLambdaFunctionBuilder {
    const core: LambdaFunction
    var manifestPath: Option<Path>
    var lambda: Option<FunctionDescriptor>

    /** Default: the manifest of the crate named after the function. */
    constructor (id: string, props: RustLambdaFunctionProps)
      ensures fresh(core) && core.Valid()
      ensures core.id == id && core.name == props.name && core.environment == props.environment
      ensures core.Config() == InitialConfig()
      ensures manifestPath == Some(BuilderRustManifest(props.name, None)) && lambda.None?
    {
      core := new LambdaFunction(id, props.name, props.environment);
      manifestPath, lambda := None, None;
      new;
      var _ := WithManifest(props.name, None);
    }

    method WithManifest(path: string, basePath: Option<string>) returns (self: RustLambdaFunctionBuilder)
      modifies this`manifestPath
      ensures self == this && manifestPath == Some(BuilderRustManifest(path, basePath))
    {
      manifestPath := Some(BuilderRustManifest(path, basePath));
      self := this;
    }

    method Build() returns (r: Result<FunctionDescriptor, BuildError>)
      modifies this`lambda
      ensures r == RustBuild(core.lambdaName, core.Config(), manifestPath)
      ensures r.Success? ==> lambda == Some(r.value)
      ensures r.Failure? ==> lambda == old(lambda)
    {
      if manifestPath.None? {
        return Failure(Thrown(ManifestUndefined));
      }
      var d := Describe(core.lambdaName, core.Config(), RustSource(manifestPath.value, None));
      lambda := Some(d);
      r := Success(d);
    }
  }
}
