/** The Go function builder: entry and module directory, both derived from the
    name at construction, checked in that order at build time. */
module GoBuilder {
  import opened Wrappers
  import Environments
  import opened Resources
  import opened Functions
  import opened LambdaFunctionBase

  datatype GoLambdaFunctionProps = GoLambdaFunctionProps(name: string, environment: Environments.Environment)

  /** Entry and module directory alike: `__dirname` joined with "../<base>/<path>". */
  function GoPath(path: string, basePath: Option<string>): Path {
    Join([BuildersDir, "../" + basePath.GetOr(LambdaBasePath) + "/" + path])
  }

  /** The build step: the entry is checked first, then the module directory;
      on success the name, both paths and the configuration are forwarded. */
  function GoBuild(lambdaName: string, config: FunctionConfig, entry: Option<Path>, moduleDir: Option<Path>): (r: Result<FunctionDescriptor, BuildError>)
    ensures entry.None? ==> r == Failure(Thrown(EntryUndefined))
    ensures entry.Some? && moduleDir.None? ==> r == Failure(Thrown(ModuleDirUndefined))
    ensures r.Success? <==> entry.Some? && moduleDir.Some?
    ensures r.Success? ==> r.value.source == GoSource(entry.value, moduleDir.value)
    ensures r.Success? ==> r.value.functionName == lambdaName && r.value.architecture == Arm64
    ensures r.Success? ==> r.value.environment == config.environmentVariables && r.value.role == config.role
    ensures r.Success? ==> r.value.layers == config.layers && r.value.logGroup == config.logGroup
    ensures r.Success? ==> r.value.vpc == config.vpc && r.value.vpcSubnets == config.vpcSubnets
                           && r.value.securityGroups == config.securityGroups
    ensures r.Success? ==> r.value.timeout == config.duration && r.value.memorySize == config.memorySize
                           && r.value.reservedConcurrentExecutions == config.concurrency
  {
    if entry.None? then Failure(Thrown(EntryUndefined))
    else if moduleDir.None? then Failure(Thrown(ModuleDirUndefined))
    else Success(Describe(lambdaName, config, GoSource(entry.value, moduleDir.value)))
  }

  class GoLambdaFunctionBuilder {
    const core: LambdaFunction
    var entry: Option<Path>
    var moduleDir: Option<Path>
    var lambda: Option<FunctionDescriptor>

    /** Defaults: entry and module directory both derived from the name, hence equal. */
    constructor (id: string, props: GoLambdaFunctionProps)
      ensures fresh(core) && core.Valid()
      ensures core.id == id && core.name == props.name && core.environment == props.environment
      ensures core.Config() == InitialConfig()
      ensures entry == Some(GoPath(props.name, None)) && moduleDir == entry
      ensures lambda.None?
    {
      core := new LambdaFunction(id, props.name, props.environment);
      entry, moduleDir, lambda := None, None, None;
      new;
      var _ := WithEntry(props.name, None);
      var _ := WithModuleDir(props.name, None);
    }

    /** Sets the entry; the module directory is untouched. */
    method WithEntry(path: string, basePath: Option<string>) returns (self: GoLambdaFunctionBuilder)
      modifies this`entry
      ensures self == this && entry == Some(GoPath(path, basePath))
    {
      entry := Some(GoPath(path, basePath));
      self := this;
    }

    /** Sets the module directory; the entry is untouched. */
    method WithModuleDir(path: string, basePath: Option<string>) returns (self: GoLambdaFunctionBuilder)
      modifies this`moduleDir
      ensures self == this && moduleDir == Some(GoPath(path, basePath))
    {
      moduleDir := Some(GoPath(path, basePath));
      self := this;
    }

    method Build() returns (r: Result<FunctionDescriptor, BuildError>)
      modifies this`lambda
      ensures r == GoBuild(core.lambdaName, core.Config(), entry, moduleDir)
      ensures r.Success? ==> lambda == Some(r.value)
      ensures r.Failure? ==> lambda == old(lambda)
    {
      if entry.None? {
        return Failure(Thrown(EntryUndefined));
      }
      if moduleDir.None? {
        return Failure(Thrown(ModuleDirUndefined));
      }
      var d := Describe(core.lambdaName, core.Config(), GoSource(entry.value, moduleDir.value));
      lambda := Some(d);
      r := Success(d);
    }
  }
}
