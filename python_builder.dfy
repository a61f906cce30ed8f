/** The Python function builder: defaults for handler, entry and runtime, and a
    runtime setter that accepts only Python runtimes. */
module PythonBuilder {
  import opened Wrappers
  import Environments
  import opened Resources
  import opened Functions
  import opened LambdaFunctionBase
  import PythonLambda

  datatype PythonLambdaFunctionProps = PythonLambdaFunctionProps(name: string, environment: Environments.Environment)

  /** The entry directory: `path.join(base, path)`. */
  function BuilderPythonEntry(path: string, basePath: Option<string>): Path {
    Join([basePath.GetOr(LambdaBasePath), path])
  }

  function NotPythonRuntime(runtime: Runtime): BuildError {
    BuildError.TypeError("Expected a Python runtime to be given. Got " + runtime.name + " instead.")
  }

  class PythonLambdaFunctionBuilder {
    const core: LambdaFunction
    /** The accepted runtimes (the `PYTHON_RUNTIME` constant). */
    const pythonRuntimes: set<Runtime>
    var entry: Option<Path>
    var handler: Option<string>
    var index: Option<string>
    var lambda: Option<FunctionDescriptor>

    /** The class invariant the overriding `withRuntime` keeps: the runtime is
        always set and always one of the Python runtimes. */
    ghost predicate Valid()
      reads core
    {
      core.Valid() && core.runtime.Some? && core.runtime.value in pythonRuntimes
    }

    /** Defaults: handler "handler", the entry under the lambda base path named
        after the function, and the Python 3.13 runtime; no index. */
    constructor (id: string, props: PythonLambdaFunctionProps, pythonRuntimes: set<Runtime>)
      requires Python3_13 in pythonRuntimes
      ensures fresh(core) && Valid() && this.pythonRuntimes == pythonRuntimes
      ensures core.id == id && core.name == props.name && core.environment == props.environment
      ensures core.Config() == InitialConfig().(runtime := Some(Python3_13))
      ensures handler == Some("handler") && entry == Some(BuilderPythonEntry(props.name, None))
      ensures index.None? && lambda.None?
    {
      core := new LambdaFunction(id, props.name, props.environment);
      this.pythonRuntimes := pythonRuntimes;
      entry, handler, index, lambda := None, None, None, None;
      new;
      var _ := WithHandler("handler");
      var _ := WithEntry(props.name, None);
      var _ := WithRuntime(Python3_13);
    }

    /** Throws a `TypeError` for a runtime outside the Python runtimes, leaving
        the configuration as it was; otherwise sets the runtime. */
    method WithRuntime(runtime: Runtime) returns (r: Result<PythonLambdaFunctionBuilder, BuildError>)
      requires core.Valid()
      modifies core
      ensures core.Valid()
      ensures runtime in pythonRuntimes ==> Valid()
      ensures old(Valid()) ==> Valid()
      ensures runtime in pythonRuntimes ==>
                r == Success(this) && core.Config() == old(core.Config()).(runtime := Some(runtime))
      ensures runtime !in pythonRuntimes ==>
                r == Failure(NotPythonRuntime(runtime)) && core.Config() == old(core.Config())
    {
      if runtime !in pythonRuntimes {
        return Failure(NotPythonRuntime(runtime));
      }
      var _ := core.WithRuntime(runtime);
      r := Success(this);
    }

    method WithEntry(path: string, basePath: Option<string>) returns (self: PythonLambdaFunctionBuilder)
      modifies this`entry
      ensures self == this && entry == Some(BuilderPythonEntry(path, basePath))
    {
      entry := Some(BuilderPythonEntry(path, basePath));
      self := this;
    }

    method WithIndex(index: string) returns (self: PythonLambdaFunctionBuilder)
      modifies this`index
      ensures self == this && this.index == Some(index)
    {
      this.index := Some(index);
      self := this;
    }

    method WithHandler(handler: string) returns (self: PythonLambdaFunctionBuilder)
      modifies this`handler
      ensures self == this && this.handler == Some(handler)
    {
      this.handler := Some(handler);
      self := this;
    }

    method Build() returns (r: Result<FunctionDescriptor, BuildError>)
      requires Valid()
      modifies this`lambda
      ensures r == PythonLambda.PythonBuild(core.lambdaName, core.Config(), entry, index, handler)
      ensures r.Success? ==> r.value.source.runtime.Some? && r.value.source.runtime.value in pythonRuntimes
      ensures r.Success? ==> lambda == Some(r.value)
      ensures r.Failure? ==> lambda == old(lambda)
    {
      if entry.None? {
        return Failure(Thrown(EntryUndefined));
      }
      var d := Describe(core.lambdaName, core.Config(), PythonSource(core.runtime, entry.value, index, handler));
      lambda := Some(d);
      r := Success(d);
    }
  }
}
