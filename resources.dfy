/** Opaque references to cloud resources the functions are wired to, the
    symbolic file-system paths, and the source-layout constants. The cloud
    library owns what these references stand for; the model only passes them
    around and compares them. */
module Resources {

  datatype Secret = Secret(ref: string, secretName: string)
  datatype Bucket = Bucket(ref: string, bucketName: string)
  datatype Table = Table(ref: string, tableName: string)
  datatype Queue = Queue(ref: string, queueName: string)
  datatype Layer = Layer(arn: string)
  datatype Vpc = Vpc(ref: string)
  datatype SecurityGroup = SecurityGroup(ref: string)

  datatype SubnetType = PrivateWithEgress | PrivateIsolated | Public
  datatype SubnetSelection = SubnetSelection(subnetType: SubnetType)

  /** The `ISecurityGroup | ISecurityGroup[]` argument of `withVpc`. */
  datatype SecurityGroups = OneGroup(group: SecurityGroup) | Groups(groups: seq<SecurityGroup>)

  /** `cdk.Duration.seconds(n)`. */
  datatype Duration = Seconds(amount: int)

  datatype RemovalPolicy = Destroy | Retain
  datatype LogGroup = LogGroup(logGroupName: string, retentionDays: nat, removalPolicy: RemovalPolicy)

  /** The log group both bases create for a function: named after the
      function, kept one week, destroyed with the stack. */
  function FunctionLogGroup(lambdaName: string): LogGroup {
    LogGroup("/aws/lambda/" + lambdaName, 7, Destroy)
  }

  /** A Lambda runtime, identified by its name. */
  datatype Runtime = Runtime(name: string)

  const Python3_13: Runtime := Runtime("python3.13")
  const NodejsLatest: Runtime := Runtime("nodejs-latest")

  /** A path built by `path.join`, kept symbolic: the segments in call order,
      without normalisation. */
  datatype Path = Join(segments: seq<string>)

  const SrcBasePath: string := "../../../src"
  const LambdaBasePath: string := SrcBasePath + "/lambda"

  /** `__dirname` of the modules under constructs/lambda, builders and constructors. */
  const LambdaDir: string := "cdk/lib/constructs/lambda"
  const BuildersDir: string := LambdaDir + "/builders"
  const ConstructorsDir: string := LambdaDir + "/constructors"
}
