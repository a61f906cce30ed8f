/** The Go function built entirely in its constructor. */
module GoConstruct {
  import opened Wrappers
  import opened Resources
  import opened Functions
  import Naming
  import opened LambdaConstructBase

  datatype GoLambdaProps = GoLambdaProps(
    path: Option<string>,
    basePath: Option<string>,
    moduleDir: Option<string>,
    construct: LambdaConstructProps)

  /** The entry file: `<base>/<path>/main.go`, the path defaulting to the name. */
  function GoConstructEntry(name: string, props: GoLambdaProps): (r: Path)
    ensures |r.segments| == 3 && r.segments[2] == "main.go"
    ensures r.segments[0] == props.basePath.GetOr(LambdaBasePath) && r.segments[1] == props.path.GetOr(name)
  {
    Join([props.basePath.GetOr(LambdaBasePath), props.path.GetOr(name), "main.go"])
  }

  /** The module file: `<moduleDir>/<path>/go.mod`. It sits beside the entry
      unless a module directory is given, in which case only it moves there. */
  function GoConstructModuleDir(name: string, props: GoLambdaProps): (r: Path)
    ensures |r.segments| == 3 && r.segments[2] == "go.mod"
    ensures r.segments[1] == GoConstructEntry(name, props).segments[1]
    ensures props.moduleDir.None? ==> r.segments[0] == GoConstructEntry(name, props).segments[0]
    ensures props.moduleDir.Some? ==> r.segments[0] == props.moduleDir.value
  {
    Join([props.moduleDir.GetOr(props.basePath.GetOr(LambdaBasePath)), props.path.GetOr(name), "go.mod"])
  }

  class GoFunctionConstruct {
    const base: LambdaConstruct
    const entry: Path
    const moduleDir: Path
    const lambda: FunctionDescriptor

    constructor (id: string, props: GoLambdaProps)
      ensures fresh(base) && base.id == id && base.name == props.construct.name
      ensures base.lambdaName == Naming.GetPrefixed(props.construct.name, props.construct.environment)
      ensures base.Config() == ConstructConfig(props.construct, base.lambdaName)
      ensures entry == GoConstructEntry(base.name, props) && moduleDir == GoConstructModuleDir(base.name, props)
      ensures lambda == Describe(base.lambdaName, base.Config(), GoSource(entry, moduleDir))
    {
      var b := new LambdaConstruct(id, props.construct);
      var e := GoConstructEntry(b.name, props);
      var m := GoConstructModuleDir(b.name, props);
      base, entry, moduleDir := b, e, m;
      lambda := Describe(b.lambdaName, b.Config(), GoSource(e, m));
    }
  }
}
