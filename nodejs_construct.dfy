/** The Node.js function built entirely in its constructor; the runtime is
    checked against the Node.js runtimes, and the constructor throws on any
    other. */
module NodejsConstruct {
  import opened Wrappers
  import opened Resources
  import opened Functions
  import Naming
  import opened LambdaConstructBase

  datatype NodejsLambdaProps = NodejsLambdaProps(
    path: Option<string>,
    basePath: Option<string>,
    runtime: Option<Runtime>,
    bundling: Option<Bundling>,
    construct: LambdaConstructProps)

  /** The runtime check: the given runtime, or the latest Node.js runtime,
      must be one of the accepted ones. */
  function NodejsRuntimeCheck(runtime: Option<Runtime>, nodejsRuntimes: set<Runtime>): (r: Result<Runtime, BuildError>)
    ensures r.Success? <==> runtime.GetOr(NodejsLatest) in nodejsRuntimes
    ensures r.Success? ==> r.value == runtime.GetOr(NodejsLatest)
    ensures runtime.None? && r.Success? ==> r.value == NodejsLatest
    ensures r.Failure? ==> r.error == BuildError.TypeError(
              "Expected a Nodejs runtime to be given. Got " + runtime.GetOr(NodejsLatest).name + " instead.")
  {
    var chosen := runtime.GetOr(NodejsLatest);
    if chosen in nodejsRuntimes then Success(chosen)
    else Failure(BuildError.TypeError("Expected a Nodejs runtime to be given. Got " + chosen.name + " instead."))
  }

  /** The entry: `<base>/<path>/index.ts`, the path defaulting to the name. */
  function NodejsEntry(name: string, path: Option<string>, basePath: Option<string>): (r: Path)
    ensures |r.segments| == 3 && r.segments[2] == "index.ts"
    ensures r.segments[1] == path.GetOr(name) && r.segments[0] == basePath.GetOr(LambdaBasePath)
  {
    Join([basePath.GetOr(LambdaBasePath), path.GetOr(name), "index.ts"])
  }

  class NodejsFunctionConstruct {
    const base: LambdaConstruct
    const entry: Path
    const bundling: Option<Bundling>
    const lambda: FunctionDescriptor

    /** The construct once its runtime, the given one or the latest Node.js
        runtime, has passed the check. */
    constructor (id: string, props: NodejsLambdaProps, nodejsRuntimes: set<Runtime>)
      requires NodejsRuntimeCheck(props.runtime, nodejsRuntimes).Success?
      ensures fresh(base) && base.id == id && base.name == props.construct.name
      ensures base.lambdaName == Naming.GetPrefixed(props.construct.name, props.construct.environment)
      ensures base.Config() == ConstructConfig(props.construct, base.lambdaName).(runtime := Some(props.runtime.GetOr(NodejsLatest)))
      ensures base.runtime.Some? && base.runtime.value in nodejsRuntimes
      ensures entry == NodejsEntry(base.name, props.path, props.basePath) && bundling == props.bundling
      ensures lambda == Describe(base.lambdaName, base.Config(), NodejsSource(base.runtime, entry, bundling))
    {
      var b := new LambdaConstruct(id, props.construct);
      b.runtime := Some(props.runtime.GetOr(NodejsLatest));
      var e := NodejsEntry(b.name, props.path, props.basePath);
      base := b;
      entry := e;
      bundling := props.bundling;
      lambda := Describe(b.lambdaName, b.Config(), NodejsSource(b.runtime, e, props.bundling));
    }

    /** Construction: a `TypeError` for a runtime outside the Node.js
        runtimes, otherwise the construct with its function. */
    static method Create(id: string, props: NodejsLambdaProps, nodejsRuntimes: set<Runtime>)
      returns (r: Result<NodejsFunctionConstruct, BuildError>)
      ensures r.Failure? ==> NodejsRuntimeCheck(props.runtime, nodejsRuntimes) == Failure(r.error)
      ensures r.Success? ==> NodejsRuntimeCheck(props.runtime, nodejsRuntimes).Success?
      ensures r.Success? ==> fresh(r.value) && fresh(r.value.base) && r.value.base.id == id
      ensures r.Success? ==> r.value.base.lambdaName == Naming.GetPrefixed(props.construct.name, props.construct.environment)
      ensures r.Success? ==> r.value.entry == NodejsEntry(props.construct.name, props.path, props.basePath)
      ensures r.Success? ==> r.value.base.Config()
                             == ConstructConfig(props.construct, r.value.base.lambdaName).(runtime := Some(props.runtime.GetOr(NodejsLatest)))
      ensures r.Success? ==> r.value.lambda == Describe(r.value.base.lambdaName, r.value.base.Config(),
                               NodejsSource(Some(props.runtime.GetOr(NodejsLatest)), r.value.entry, props.bundling))
    {
      var checked := NodejsRuntimeCheck(props.runtime, nodejsRuntimes);
      if checked.Failure? {
        return Failure(checked.error);
      }
      var c := new NodejsFunctionConstruct(id, props, nodejsRuntimes);
      r := Success(c);
    }
  }
}
