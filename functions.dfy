/** The function descriptor handed to the cloud library's function constructor,
    the configuration both bases accumulate, and the errors they throw. */
module Functions {
  import opened Wrappers
  import opened Resources
  import opened Iam

  datatype Architecture = Arm64 | X86_64

  /** Bundling options, passed through opaquely. */
  datatype Bundling = Bundling(options: map<string, string>)

  /** The runtime-specific part of a descriptor. */
  datatype Source =
    | PythonSource(runtime: Option<Runtime>, entry: Path, index: Option<string>, handler: Option<string>)
    | GoSource(entry: Path, moduleDir: Path)
    | RustSource(manifestPath: Path, bundling: Option<Bundling>)
    | NodejsSource(runtime: Option<Runtime>, entry: Path, bundling: Option<Bundling>)

  /** The configurable state shared by both bases (everything but identity). */
  datatype FunctionConfig = FunctionConfig(
    logGroup: Option<LogGroup>,
    role: Role,
    duration: Option<Duration>,
    memorySize: Option<int>,
    concurrency: Option<int>,
    environmentVariables: map<string, string>,
    vpc: Option<Vpc>,
    vpcSubnets: Option<SubnetSelection>,
    securityGroups: Option<seq<SecurityGroup>>,
    layers: Option<seq<Layer>>,
    runtime: Option<Runtime>)

  /** The properties given to the cloud library's function constructor. */
  datatype FunctionDescriptor = FunctionDescriptor(
    source: Source,
    functionName: string,
    timeout: Option<Duration>,
    memorySize: Option<int>,
    logGroup: Option<LogGroup>,
    environment: map<string, string>,
    reservedConcurrentExecutions: Option<int>,
    architecture: Architecture,
    role: Role,
    vpc: Option<Vpc>,
    vpcSubnets: Option<SubnetSelection>,
    securityGroups: Option<seq<SecurityGroup>>,
    layers: Option<seq<Layer>>)

  /** The descriptor every variant builds: the configuration forwarded as is,
      on the ARM64 architecture. */
  function Describe(functionName: string, config: FunctionConfig, source: Source): FunctionDescriptor {
    FunctionDescriptor(source, functionName, config.duration, config.memorySize, config.logGroup,
                       config.environmentVariables, config.concurrency, Arm64, config.role,
                       config.vpc, config.vpcSubnets, config.securityGroups, config.layers)
  }

  /** A thrown string literal, or a thrown `TypeError`. */
  datatype BuildError = Thrown(message: string) | TypeError(message: string)

  const EntryUndefined: string := "Expected entry to be defined."
  const ModuleDirUndefined: string := "Expected moduleDir to be defined."
  const ManifestUndefined: string := "Expected manifestPath to be defined."
}
