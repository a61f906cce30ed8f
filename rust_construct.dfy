/** The Rust function built entirely in its constructor. */
module RustConstruct {
  import opened Wrappers
  import opened Resources
  import opened Functions
  import Naming
  import opened LambdaConstructBase

  datatype RustLambdaProps = RustLambdaProps(
    path: Option<string>,
    basePath: Option<string>,
    construct: LambdaConstructProps)

  /** The manifest: `__dirname` joined with "../<base>/<path>/Cargo.toml". */
  function RustConstructManifest(name: string, props: RustLambdaProps): (r: Path)
    ensures |r.segments| == 2 && r.segments[0] == ConstructorsDir
    ensures var m := r.segments[1]; var p := props.path.GetOr(name);
            |m| > 14 + |p| && m[..3] == "../" && m[|m| - 11..] == "/Cargo.toml" && m[|m| - 11 - |p|..|m| - 11] == p
  {
    Join([ConstructorsDir, "../" + props.basePath.GetOr(LambdaBasePath) + "/" + props.path.GetOr(name) + "/Cargo.toml"])
  }

  class RustFunctionConstruct {
    const base: LambdaConstruct
    const manifestPath: Path
    const lambda: FunctionDescriptor

    constructor (id: string, props: RustLambdaProps)
      ensures fresh(base) && base.id == id && base.name == props.construct.name
      ensures base.lambdaName == Naming.GetPrefixed(props.construct.name, props.construct.environment)
      ensures base.Config() == ConstructConfig(props.construct, base.lambdaName)
      ensures manifestPath == RustConstructManifest(base.name, props)
      ensures lambda == Describe(base.lambdaName, base.Config(), RustSource(manifestPath, None))
    {
      var b := new LambdaConstruct(id, props.construct);
      var m := RustConstructManifest(b.name, props);
      base, manifestPath := b, m;
      lambda := Describe(b.lambdaName, b.Config(), RustSource(m, None));
    }
  }
}
