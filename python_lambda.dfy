/** The builder-side Python function: an entry directory derived from the
    name, optional index file and handler, and a build that requires an entry. */
module PythonLambda {
  import opened Wrappers
  import opened Environments
  import opened Resources
  import opened Functions
  import opened LambdaFunctionBase

  datatype PythonLambdaFunctionProps = PythonLambdaFunctionProps(name: string, environment: Environment)

  /** The entry directory: `__dirname` joined with "../<base>/<path>". */
  function PythonEntry(path: string, basePath: Option<string>): Path {
    Join([LambdaDir, "../" + basePath.GetOr(LambdaBasePath) + "/" + path])
  }

  /** The build step shared by both Python variants: it fails exactly when the
      entry is unset, and otherwise forwards the name, runtime, entry, index,
      handler and the whole configuration unchanged. */
  function PythonBuild(lambdaName: string, config: FunctionConfig, entry: Option<Path>,
                       index: Option<string>, handler: Option<string>): (r: Result<FunctionDescriptor, BuildError>)
    ensures r.Failure? <==> entry.None?
    ensures r.Failure? ==> r.error == Thrown(EntryUndefined)
    ensures r.Success? ==> r.value.source == PythonSource(config.runtime, entry.value, index, handler)
    ensures r.Success? ==> r.value.functionName == lambdaName && r.value.architecture == Arm64
    ensures r.Success? ==> r.value.environment == config.environmentVariables && r.value.role == config.role
    ensures r.Success? ==> r.value.layers == config.layers && r.value.logGroup == config.logGroup
    ensures r.Success? ==> r.value.vpc == config.vpc && r.value.vpcSubnets == config.vpcSubnets
                           && r.value.securityGroups == config.securityGroups
    ensures r.Success? ==> r.value.timeout == config.duration && r.value.memorySize == config.memorySize
                           && r.value.reservedConcurrentExecutions == config.concurrency
  {
    if entry.None? then Failure(Thrown(EntryUndefined))
    else Success(Describe(lambdaName, config, PythonSource(config.runtime, entry.value, index, handler)))
  }

  class PythonLambdaFunction {
    /** The inherited state and `with*` operations of the base. */
    const core: LambdaFunction
    var entry: Option<Path>
    var handler: Option<string>
    var index: Option<string>
    var lambda: Option<FunctionDescriptor>

    /** Defaults: the entry derived from the name and the Python 3.13 runtime;
        no handler and no index. */
    constructor (id: string, props: PythonLambdaFunctionProps)
      ensures fresh(core) && core.Valid()
      ensures core.id == id && core.name == props.name && core.environment == props.environment
      ensures core.Config() == InitialConfig().(runtime := Some(Python3_13))
      ensures entry == Some(PythonEntry(props.name, None))
      ensures handler.None? && index.None? && lambda.None?
    {
      core := new LambdaFunction(id, props.name, props.environment);
      entry, handler, index, lambda := None, None, None, None;
      new;
      var _ := WithEntry(props.name, None);
      var _ := core.WithRuntime(Python3_13);
    }

    method WithEntry(path: string, basePath: Option<string>) returns (self: PythonLambdaFunction)
      modifies this`entry
      ensures self == this && entry == Some(PythonEntry(path, basePath))
    {
      entry := Some(PythonEntry(path, basePath));
      self := this;
    }

    method WithIndex(index: string) returns (self: PythonLambdaFunction)
      modifies this`index
      ensures self == this && this.index == Some(index)
    {
      this.index := Some(index);
      self := this;
    }

    method WithHandler(handler: string) returns (self: PythonLambdaFunction)
      modifies this`handler
      ensures self == this && this.handler == Some(handler)
    {
      this.handler := Some(handler);
      self := this;
    }

    /** Fails when no entry is set; otherwise records and returns the descriptor. */
    method Build() returns (r: Result<FunctionDescriptor, BuildError>)
      modifies this`lambda
      ensures r == PythonBuild(core.lambdaName, core.Config(), entry, index, handler)
      ensures r.Success? ==> lambda == Some(r.value)
      ensures r.Failure? ==> lambda == old(lambda)
    {
      if entry.None? {
        return Failure(Thrown(EntryUndefined));
      }
      var d := Describe(core.lambdaName, core.Config(), PythonSource(core.runtime, entry.value, index, handler));
      lambda := Some(d);
      r := Success(d);
    }
  }
}
