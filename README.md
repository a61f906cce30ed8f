# Lambda function descriptors for a CDK application, modelled in Dafny

The application deploys AWS Lambda functions written in Python, Go, Rust and
Node.js. Each function ends up as a **function descriptor**: the record of
properties handed to the cloud library's function constructor. That record
holds the deployed name, the source location, the timeout, memory and
concurrency, the log group, the environment variables, the execution role,
the network settings and the layers. The application assembles it in two
ways, and this project models both.

- **Incremental builder.** A `LambdaFunction` object is configured through
  fluent `with*` calls. Each call changes one part of its state and returns
  the same object. A terminal `build()` then checks the field the runtime
  needs and emits the descriptor. This strategy covers the Python, Go and
  Rust builders and the Python/Rust functions beside them.
- **All-in-constructor.** A `LambdaConstruct` receives one property bag. Its
  constructor processes that bag in a fixed order: the log group, the role,
  then secrets, buckets, DynamoDB tables, SQS queues, and finally managed
  policies. The Node.js, Go and Rust constructs are built on it.

Both strategies rely on the same pieces, which are modelled too:

- The naming policy (`getPrefixed` and `getSSMPrefixed`).
- The environment registry (`getEnvironment`).
- The policy-statement factories: the default logs/EC2 statements and the
  Bedrock model and knowledge-base statements.

Each stateful entity is a Dafny `class` whose methods change its fields under
`modifies` clauses. Pure computations are functions with named results.
Loops are `for` loops with invariants. Every method is proved against a
specification function, and that function's meaning is stated in lemmas.

Cloud objects are opaque references: secrets, buckets, tables, queues,
layers, VPCs, security groups, log groups and managed policies. An execution
role is a value holding one ordered sequence of attachments. Each managed
policy, inline policy or access grant appends one entry, so order and
multiplicity are visible. Paths built by `path.join` are the symbolic
`Join(segments)`, with no normalisation.

Modules, one per source file or concept:

| module | models |
|---|---|
| `Environments` | `cdk/lib/types/environment.ts`, `cdk/lib/config/environments/dev.ts`, `cdk/lib/config/environments/index.ts` |
| `Naming` | `cdk/lib/utils/prefix.ts` (ASCII lower-casing) |
| `Resources`, `Iam`, `Functions` | opaque references, the role value, the descriptor and the configuration both bases accumulate |
| `Policies` | the statement factories of both bases |
| `EnvVars` | object spread, single writes and the "write if named" step of the constructor loops |
| `LambdaFunctionBase` | `cdk/lib/constructs/lambda/lambda-function.base.ts` |
| `PythonLambda`, `RustLambda` | `cdk/lib/constructs/lambda/python-lambda-function.ts`, `rust-lambda-function.ts` |
| `PythonBuilder`, `GoBuilder`, `RustBuilder` | `cdk/lib/constructs/lambda/builders/*.ts` |
| `LambdaConstructBase` | `cdk/lib/constructs/lambda/constructors/lambda-function-constructor.base.ts` |
| `NodejsConstruct`, `GoConstruct`, `RustConstruct` | the Node.js, Go and Rust constructors |
| `LegacyRustConstruct` | the `RustFunctionConstruct` kept in `constructors/python-lambda-function-constructor.ts` |
| `Scenarios` | the functions of `cdk/lib/stacks/stack-with-builder-pattern.ts` and `stack-with-allin-constructor.ts` |

## Model

| member | source | states |
|---|---|---|
| Environments.ParseEnvironmentName | cdk/lib/config/environments/index.ts:20 | the name whose literal is the given string, if any; every name literal round-trips and no other string names one |
| Environments.GetEnvironment | cdk/lib/config/environments/index.ts:4-27 | a missing ENV_NAME fails with the TypeError "Missing ENV_NAME environment variable"; the lookup succeeds iff the name is "dev", and then returns the `dev` record, a value stored in the registry; any other name fails with "No environment found for name: " + name |
| Environments.UnregisteredNamesFail | cdk/lib/config/environments/index.ts:20-24 | a valid environment name other than `dev` (e.g. "prod") is not registered and fails with the not-found error |
| Naming.ToLower | cdk/lib/utils/prefix.ts:4 | ASCII lower-casing keeps the length, lowers every character in place and leaves no upper-case letter |
| Naming.ToLowerJoined | cdk/lib/utils/prefix.ts:8 | lower-casing a string of four segments and three lower-case separators lowers each segment and keeps the separators |
| Naming.GetSSMPrefixed | cdk/lib/utils/prefix.ts:3-5 | "/" + app + "-" + envName + "/" + name with each part lower-cased; it starts with "/", its length is the parts' lengths plus 3, and it is a fixed point of lower-casing |
| Naming.GetPrefixed | cdk/lib/utils/prefix.ts:7-9 | org + "-" + app + "-" + envName + "-" + name with each part lower-cased, in that order; its length is the parts' lengths plus 3, and it is a fixed point of lower-casing |
| Naming.NamesIgnoreOtherFields | cdk/lib/utils/prefix.ts:3-9 | region and provisioned concurrency never change a name; the parameter path also ignores the organisation |
| Naming.DevPrefixed | cdk/lib/config/environments/dev.ts:3-9 | under the `dev` record, every function name starts "wizeline-olympic-games-kb-dev-" followed by the lower-cased name |
| Iam.NewRole | cdk/lib/constructs/lambda/lambda-function.base.ts:45-66 | a new role is assumed by lambda.amazonaws.com and holds the VPC-access managed policy, then one inline policy of the given statements |
| Iam.Attach | cdk/lib/constructs/lambda/lambda-function.base.ts:86-100 | a grant or managed policy is appended after all earlier attachments, which stay as they were |
| Iam.AttachExtends | cdk/lib/constructs/lambda/lambda-function.base.ts:86-100 | attaching never removes anything: a role extending another still extends it after an attachment |
| Policies.DefaultStatements | cdk/lib/constructs/lambda/lambda-function.base.ts:152-178 | exactly two ALLOW statements on "*": the five logs actions, then the given EC2 actions |
| Policies.BuilderDefaultStatements | cdk/lib/constructs/lambda/lambda-function.base.ts:152-178 | the builder base's defaults: 5 logs actions, then 6 EC2 actions |
| Policies.ConstructDefaultStatements | cdk/lib/constructs/lambda/constructors/lambda-function-constructor.base.ts:164-189 | the constructor base's defaults: 5 logs actions, then 5 EC2 actions |
| Policies.DefaultStatementsDiverge | cdk/lib/constructs/lambda/lambda-function.base.ts:168-175 | the two bases agree on the logs statement; their EC2 statements differ by exactly `ec2:DetachNetworkInterface`, which only the builder base grants |
| Policies.StatementsFor | cdk/lib/constructs/lambda/lambda-function.base.ts:189-195 | one ALLOW statement per resource, on that resource alone, in input order |
| Policies.ModelStatements | cdk/lib/constructs/lambda/lambda-function.base.ts:180-196 | no statements when no identifiers are given; otherwise one statement per model, in order, on its foundation-model ARN, with the default invoke actions unless actions are given |
| Policies.KnowledgeBaseStatements | cdk/lib/constructs/lambda/lambda-function.base.ts:198-221 | no statements when no ids are given; otherwise one statement per knowledge base, in order, on its ARN, with the default retrieval/ingestion actions unless actions are given |
| Policies.StatementsForAppend | cdk/lib/constructs/lambda/lambda-function.base.ts:189-195 | statements follow input order: concatenated resources give the concatenated statements |
| Policies.ModelStatementsAppend | cdk/lib/constructs/lambda/lambda-function.base.ts:180-196 | the model factory distributes over concatenation of the identifier lists |
| Policies.ModelArnInjective | cdk/lib/constructs/lambda/lambda-function.base.ts:192 | the model id is what follows the ARN prefix, so distinct models never share a statement |
| Policies.KnowledgeBaseArnInjective | cdk/lib/constructs/lambda/lambda-function.base.ts:216 | the knowledge-base id is what follows the ARN prefix, so distinct ids never share a statement |
| Policies.NoIdentifiersNoGrant | cdk/lib/constructs/lambda/constructors/lambda-function-constructor.base.ts:191-232 | absent identifiers and an empty list both give no statements, for models and knowledge bases alike |
| EnvVars.Overlay | cdk/lib/constructs/lambda/lambda-function.base.ts:112-118 | keys become old ∪ new, new values win, old keys absent from the input keep their values |
| EnvVars.SetVar | cdk/lib/constructs/lambda/lambda-function.base.ts:138-141 | the named key gets the value and every other key is unchanged |
| EnvVars.Bind | cdk/lib/constructs/lambda/constructors/lambda-function-constructor.base.ts:108-110 | a truthy name is set to the value; an absent or empty name writes nothing |
| EnvVars.ApplyBindingsAppend | cdk/lib/constructs/lambda/constructors/lambda-function-constructor.base.ts:104-152 | applying two runs of writes one after the other is applying their concatenation |
| EnvVars.ApplyBindingsLookup | cdk/lib/constructs/lambda/constructors/lambda-function-constructor.base.ts:104-152 | last write wins: a key some write names holds the value of the last such write (`LastWrite`, the reference definition); any other key keeps its given entry or stays absent |
| EnvVars.LastWriteAt | cdk/lib/constructs/lambda/constructors/lambda-function-constructor.base.ts:104-152 | the last write is the one at the last index naming the key |
| EnvVars.LastWriteNone | cdk/lib/constructs/lambda/constructors/lambda-function-constructor.base.ts:104-152 | when no write names a key there is no last write for it |
| EnvVars.ApplyBindingsKeys | cdk/lib/constructs/lambda/constructors/lambda-function-constructor.base.ts:104-152 | the keys afterwards are the given ones plus every truthy name written |
| EnvVars.BindTwice | cdk/lib/constructs/lambda/constructors/lambda-function-constructor.base.ts:108-110 | repeating the same write changes nothing more |
| LambdaFunctionBase.InitialConfig | cdk/lib/constructs/lambda/lambda-function.base.ts:37-69 | a new function has no variables and the role with the builder's default inline policy, and nothing else set |
| LambdaFunctionBase.GroupList | cdk/lib/constructs/lambda/lambda-function.base.ts:123-125 | a single security group becomes a one-element list; a list is kept |
| LambdaFunctionBase.SubnetsOrDefault | cdk/lib/constructs/lambda/lambda-function.base.ts:121 | subnets default to private with egress |
| LambdaFunctionBase.LambdaFunction.constructor | cdk/lib/constructs/lambda/lambda-function.base.ts:37-69 | lambdaName = getPrefixed(name, environment), the initial configuration, and the class invariant |
| LambdaFunctionBase.LambdaFunction.WithLogGroup | cdk/lib/constructs/lambda/lambda-function.base.ts:71-79 | sets the log group named "/aws/lambda/" + lambdaName; every other field is unchanged |
| LambdaFunctionBase.LambdaFunction.WithDuration | cdk/lib/constructs/lambda/lambda-function.base.ts:81-84 | sets the timeout in seconds, only that field; returns the same object |
| LambdaFunctionBase.LambdaFunction.WithSecret | cdk/lib/constructs/lambda/lambda-function.base.ts:86-94 | always appends a read grant; writes the secret's name under `asEnvironmentVariable` only when that name is truthy; nothing else changes |
| LambdaFunctionBase.LambdaFunction.WithManagedPolicy | cdk/lib/constructs/lambda/lambda-function.base.ts:96-100 | appends the managed policy to the role; nothing else changes |
| LambdaFunctionBase.LambdaFunction.WithMemorySize | cdk/lib/constructs/lambda/lambda-function.base.ts:102-105 | sets the memory size, only that field |
| LambdaFunctionBase.LambdaFunction.WithConcurrency | cdk/lib/constructs/lambda/lambda-function.base.ts:107-110 | sets the reserved concurrency, only that field |
| LambdaFunctionBase.LambdaFunction.WithEnvironmentVariables | cdk/lib/constructs/lambda/lambda-function.base.ts:112-118 | overlays the given variables on the current ones; nothing else changes |
| LambdaFunctionBase.LambdaFunction.WithVpc | cdk/lib/constructs/lambda/lambda-function.base.ts:120-131 | sets the VPC, the subnets (default private with egress) and the security groups as a list together; nothing else changes |
| LambdaFunctionBase.LambdaFunction.WithRuntime | cdk/lib/constructs/lambda/lambda-function.base.ts:133-136 | sets any runtime unchecked, only that field |
| LambdaFunctionBase.LambdaFunction.WithEnvironmentVariable | cdk/lib/constructs/lambda/lambda-function.base.ts:138-141 | sets one variable in place; nothing else changes |
| LambdaFunctionBase.LambdaFunction.WithLayers | cdk/lib/constructs/lambda/lambda-function.base.ts:143-146 | replaces the layers, only that field |
| PythonLambda.PythonBuild | cdk/lib/constructs/lambda/python-lambda-function.ts:46-71 | fails with "Expected entry to be defined." exactly when there is no entry; otherwise forwards the runtime, entry, index and handler, and forwards name, variables, role, VPC fields and layers unchanged, on ARM64 |
| PythonLambda.PythonLambdaFunction.constructor | cdk/lib/constructs/lambda/python-lambda-function.ts:22-28 | entry derived from the name, runtime Python 3.13, handler and index unset |
| PythonLambda.PythonLambdaFunction.WithEntry | cdk/lib/constructs/lambda/python-lambda-function.ts:30-34 | entry = Join(dirname, "../" + (basePath ?? LAMBDA_BASEPATH) + "/" + path); only the entry changes |
| PythonLambda.PythonLambdaFunction.WithIndex | cdk/lib/constructs/lambda/python-lambda-function.ts:36-39 | sets only the index, last write wins |
| PythonLambda.PythonLambdaFunction.WithHandler | cdk/lib/constructs/lambda/python-lambda-function.ts:41-44 | sets only the handler, last write wins |
| PythonLambda.PythonLambdaFunction.Build | cdk/lib/constructs/lambda/python-lambda-function.ts:46-71 | returns PythonBuild of the current state and records the descriptor on success |
| RustLambda.RustLambdaBuild | cdk/lib/constructs/lambda/rust-lambda-function.ts:30-56 | fails with "Expected manifestPath to be defined." exactly when there is no manifest; otherwise forwards everything except the layers, which are never forwarded |
| RustLambda.RustLambdaFunction.constructor | cdk/lib/constructs/lambda/rust-lambda-function.ts:20-22 | no manifest is set at construction |
| RustLambda.RustLambdaFunction.WithManifest | cdk/lib/constructs/lambda/rust-lambda-function.ts:24-28 | manifest = Join(dirname, base + "/" + path + "/Cargo.toml"), the path defaulting to the function's name and the base to LAMBDA_BASEPATH; afterwards the manifest check passes |
| RustLambda.RustLambdaFunction.Build | cdk/lib/constructs/lambda/rust-lambda-function.ts:30-56 | returns RustLambdaBuild of the current state and records the descriptor on success |
| PythonBuilder.PythonLambdaFunctionBuilder.constructor | cdk/lib/constructs/lambda/builders/python-lambda-function-builder.ts:22-29 | handler "handler", entry Join(LAMBDA_BASEPATH, name), runtime Python 3.13, index unset; the builder's invariant holds: its runtime is set and is a Python runtime |
| PythonBuilder.PythonLambdaFunctionBuilder.WithRuntime | cdk/lib/constructs/lambda/builders/python-lambda-function-builder.ts:31-37 | a Python runtime is set; any other runtime throws the TypeError "Expected a Python runtime to be given. Got <name> instead." and leaves the configuration unchanged; a Python runtime establishes the builder's invariant and either branch keeps it |
| PythonBuilder.PythonLambdaFunctionBuilder.WithEntry | cdk/lib/constructs/lambda/builders/python-lambda-function-builder.ts:39-43 | entry = Join(basePath ?? LAMBDA_BASEPATH, path); only the entry changes |
| PythonBuilder.PythonLambdaFunctionBuilder.WithIndex | cdk/lib/constructs/lambda/builders/python-lambda-function-builder.ts:45-48 | sets only the index, last write wins |
| PythonBuilder.PythonLambdaFunctionBuilder.WithHandler | cdk/lib/constructs/lambda/builders/python-lambda-function-builder.ts:50-53 | sets only the handler, last write wins |
| PythonBuilder.PythonLambdaFunctionBuilder.Build | cdk/lib/constructs/lambda/builders/python-lambda-function-builder.ts:55-80 | same check and forwarding as PythonBuild, over the builder's state; a built function's runtime is always a Python runtime |
| GoBuilder.GoBuild | cdk/lib/constructs/lambda/builders/go-lambda-function-builder.ts:40-67 | checks the entry first ("Expected entry to be defined."), then the module directory ("Expected moduleDir to be defined."); succeeds iff both are set and forwards both, the name, the variables, the role and the layers unchanged |
| GoBuilder.GoLambdaFunctionBuilder.constructor | cdk/lib/constructs/lambda/builders/go-lambda-function-builder.ts:20-26 | entry and module directory both derived from the name, hence equal |
| GoBuilder.GoLambdaFunctionBuilder.WithEntry | cdk/lib/constructs/lambda/builders/go-lambda-function-builder.ts:28-32 | entry = Join(dirname, "../" + (basePath ?? LAMBDA_BASEPATH) + "/" + path); the module directory is untouched |
| GoBuilder.GoLambdaFunctionBuilder.WithModuleDir | cdk/lib/constructs/lambda/builders/go-lambda-function-builder.ts:34-38 | module directory computed the same way; the entry is untouched |
| GoBuilder.GoLambdaFunctionBuilder.Build | cdk/lib/constructs/lambda/builders/go-lambda-function-builder.ts:40-67 | returns GoBuild of the current state and records the descriptor on success |
| RustBuilder.ManifestNamesCargoToml | cdk/lib/constructs/lambda/builders/rust-lambda-function-builder.ts:28 | the manifest path's last segment ends in "/Cargo.toml" after the crate path |
| RustBuilder.RustBuild | cdk/lib/constructs/lambda/builders/rust-lambda-function-builder.ts:32-54 | fails with "Expected manifestPath to be defined." exactly when there is no manifest; otherwise forwards the name, variables, role and layers unchanged |
| RustBuilder.RustBuildersDifferOnlyInLayers | cdk/lib/constructs/lambda/rust-lambda-function.ts:45 | for the same state the two Rust builds give the same descriptor except the layers, which only the builder keeps; with layers set they differ |
| RustBuilder.RustLambdaFunctionBuilder.constructor | cdk/lib/constructs/lambda/builders/rust-lambda-function-builder.ts:19-24 | the default manifest is the crate named after the function |
| RustBuilder.RustLambdaFunctionBuilder.WithManifest | cdk/lib/constructs/lambda/builders/rust-lambda-function-builder.ts:26-30 | manifest = Join(basePath ?? LAMBDA_BASEPATH, path + "/Cargo.toml"), last write wins |
| RustBuilder.RustLambdaFunctionBuilder.Build | cdk/lib/constructs/lambda/builders/rust-lambda-function-builder.ts:32-54 | returns RustBuild of the current state and records the descriptor on success |
| LambdaConstructBase.SecretCollaborators | cdk/lib/constructs/lambda/constructors/lambda-function-constructor.base.ts:104-112 | each secret, in order, is granted read and may write its name |
| LambdaConstructBase.BucketCollaborators | cdk/lib/constructs/lambda/constructors/lambda-function-constructor.base.ts:117-125 | each bucket, in order, is granted read/write and may write its name |
| LambdaConstructBase.TableCollaborators | cdk/lib/constructs/lambda/constructors/lambda-function-constructor.base.ts:130-138 | each table, in order, is granted data read/write and may write its name |
| LambdaConstructBase.QueueCollaborators | cdk/lib/constructs/lambda/constructors/lambda-function-constructor.base.ts:143-152 | each queue, in order, is granted consumption then sending and may write its name |
| LambdaConstructBase.AllCollaborators | cdk/lib/constructs/lambda/constructors/lambda-function-constructor.base.ts:104-152 | secrets, then buckets, then tables, then queues, every given item once |
| LambdaConstructBase.GrantAttachments | cdk/lib/constructs/lambda/constructors/lambda-function-constructor.base.ts:106 | each grant becomes one role attachment, in order |
| LambdaConstructBase.CollaboratorBindings | cdk/lib/constructs/lambda/constructors/lambda-function-constructor.base.ts:108-110 | one variable write per collaborator, in order |
| LambdaConstructBase.ManagedAttachments | cdk/lib/constructs/lambda/constructors/lambda-function-constructor.base.ts:157-161 | one attachment per managed policy, in list order |
| LambdaConstructBase.CollaboratorGrantsAppend | cdk/lib/constructs/lambda/constructors/lambda-function-constructor.base.ts:104-152 | the grants of a concatenation are the concatenated grants |
| LambdaConstructBase.CollaboratorBindingsAppend | cdk/lib/constructs/lambda/constructors/lambda-function-constructor.base.ts:104-152 | the writes of a concatenation are the concatenated writes |
| LambdaConstructBase.CollaboratorStep | cdk/lib/constructs/lambda/constructors/lambda-function-constructor.base.ts:105-111 | one more loop iteration adds that collaborator's grants and its write |
| LambdaConstructBase.GrantsCompose | cdk/lib/constructs/lambda/constructors/lambda-function-constructor.base.ts:104-152 | the four loops one after another grant what one pass over secrets + buckets + tables + queues grants |
| LambdaConstructBase.BindingsCompose | cdk/lib/constructs/lambda/constructors/lambda-function-constructor.base.ts:104-152 | the four loops one after another write what one pass over the concatenation writes |
| LambdaConstructBase.CollaboratorGrantsContain | cdk/lib/constructs/lambda/constructors/lambda-function-constructor.base.ts:104-152 | any grant any collaborator makes is among the collaborators' grants |
| LambdaConstructBase.GrantsOnly | cdk/lib/constructs/lambda/constructors/lambda-function-constructor.base.ts:104-152 | the collaborator loops add nothing but grants to the role |
| LambdaConstructBase.PairedGrantsPositions | cdk/lib/constructs/lambda/constructors/lambda-function-constructor.base.ts:143-152 | when each collaborator makes two grants, collaborator i's sit at positions 2i and 2i+1 in the order made |
| LambdaConstructBase.QueueGrantOrder | cdk/lib/constructs/lambda/constructors/lambda-function-constructor.base.ts:143-152 | every queue receives consumption immediately followed by sending, queue by queue in the given order |
| LambdaConstructBase.ConstructRoleLayout | cdk/lib/constructs/lambda/constructors/lambda-function-constructor.base.ts:78-161 | the built role: assumed by Lambda, VPC-access policy first, the default inline policy second, only grants in between, the managed policies last in list order |
| LambdaConstructBase.GrantedOnRole | cdk/lib/constructs/lambda/constructors/lambda-function-constructor.base.ts:104-152 | every grant of every collaborator is on the built role |
| LambdaConstructBase.SecretGranted | cdk/lib/constructs/lambda/constructors/lambda-function-constructor.base.ts:104-112 | every given secret is granted read, whether or not it names a variable |
| LambdaConstructBase.BucketGranted | cdk/lib/constructs/lambda/constructors/lambda-function-constructor.base.ts:117-125 | every given bucket is granted read/write |
| LambdaConstructBase.TableGranted | cdk/lib/constructs/lambda/constructors/lambda-function-constructor.base.ts:130-138 | every given table is granted data read/write |
| LambdaConstructBase.QueueGranted | cdk/lib/constructs/lambda/constructors/lambda-function-constructor.base.ts:143-152 | every given queue is granted both consumption and sending |
| LambdaConstructBase.QueueWriteWins | cdk/lib/constructs/lambda/constructors/lambda-function-constructor.base.ts:143-152 | the last queue naming a variable decides its value, over any secret, bucket, table or given value of that name |
| LambdaConstructBase.UnnamedVariableKept | cdk/lib/constructs/lambda/constructors/lambda-function-constructor.base.ts:61 | a variable no collaborator names is present exactly when given, with the given value |
| LambdaConstructBase.ConstructDescribeForwards | cdk/lib/constructs/lambda/constructors/lambda-function-constructor.base.ts:52-73 | a construct's descriptor carries its name, the given settings, the built role and variables, and a log group named "/aws/lambda/" + name exactly when one was asked for, on ARM64 |
| LambdaConstructBase.LambdaConstruct.constructor | cdk/lib/constructs/lambda/constructors/lambda-function-constructor.base.ts:52-162 | lambdaName = getPrefixed(name, environment); the configuration is ConstructConfig (the given settings, the log group iff asked for, the built role and variables) |
| LambdaConstructBase.LambdaConstruct.Wire | cdk/lib/constructs/lambda/constructors/lambda-function-constructor.base.ts:67-161 | from the default role and a copy of the given variables: the log group iff asked for, then the collaborators, then the managed policies |
| LambdaConstructBase.LambdaConstruct.WireAllCollaborators | cdk/lib/constructs/lambda/constructors/lambda-function-constructor.base.ts:104-152 | the four loops append all collaborators' grants and apply all their writes, secrets to queues |
| LambdaConstructBase.LambdaConstruct.WireCollaborators | cdk/lib/constructs/lambda/constructors/lambda-function-constructor.base.ts:105-111 | one loop: the role gains the collaborators' grants in order and the variables receive their writes in order |
| LambdaConstructBase.LambdaConstruct.AttachManagedPolicies | cdk/lib/constructs/lambda/constructors/lambda-function-constructor.base.ts:157-161 | the managed policies are appended in list order |
| NodejsConstruct.NodejsRuntimeCheck | cdk/lib/constructs/lambda/constructors/nodejs-lambda-function-constructor.ts:23-27 | the runtime defaults to the latest Node.js; it passes iff it is an accepted Node.js runtime, otherwise the TypeError "Expected a Nodejs runtime to be given. Got <name> instead." |
| NodejsConstruct.NodejsEntry | cdk/lib/constructs/lambda/constructors/nodejs-lambda-function-constructor.ts:29-31 | entry = Join(basePath ?? LAMBDA_BASEPATH, path ?? name, "index.ts") |
| NodejsConstruct.NodejsFunctionConstruct.constructor | cdk/lib/constructs/lambda/constructors/nodejs-lambda-function-constructor.ts:19-53 | only for props whose runtime (the given one, or NODEJS_LATEST) passes the runtime check: the base's configuration with that runtime, which is one of the Node.js runtimes; the entry; the bundling passed through; the descriptor uses the base's name and variables |
| NodejsConstruct.NodejsFunctionConstruct.Create | cdk/lib/constructs/lambda/constructors/nodejs-lambda-function-constructor.ts:19-53 | a runtime failing the check throws and no function is built; otherwise the construct with its descriptor |
| GoConstruct.GoConstructEntry | cdk/lib/constructs/lambda/constructors/go-lambda-function-constructor.ts:21-24 | entry = Join(basePath ?? LAMBDA_BASEPATH, path ?? name, "main.go") |
| GoConstruct.GoConstructModuleDir | cdk/lib/constructs/lambda/constructors/go-lambda-function-constructor.ts:21-25 | module file = Join(moduleDir ?? basePath, path, "go.mod"); without moduleDir it shares the entry's directory |
| GoConstruct.GoFunctionConstruct.constructor | cdk/lib/constructs/lambda/constructors/go-lambda-function-constructor.ts:18-43 | always built, with the base's name, variables, role and layers and both paths |
| RustConstruct.RustConstructManifest | cdk/lib/constructs/lambda/constructors/rust-lambda-function-constructor.ts:19-21 | manifest = Join(dirname, "../" + base + "/" + path + "/Cargo.toml"), path defaulting to the name |
| RustConstruct.RustFunctionConstruct.constructor | cdk/lib/constructs/lambda/constructors/rust-lambda-function-constructor.ts:16-38 | always built, with the base's configuration, layers included |
| LegacyRustConstruct.LegacyManifestLacksParentStep | cdk/lib/constructs/lambda/constructors/python-lambda-function-constructor.ts:50 | this manifest lacks the "../" step the current Rust construct takes from the same directory, so the two name different files |
| LegacyRustConstruct.LegacyStatements | cdk/lib/constructs/lambda/constructors/python-lambda-function-constructor.ts:73-82 | inline statements = the construct defaults, then the given policies, then one statement per foundation model, in that order |
| LegacyRustConstruct.LegacyVpcSettings | cdk/lib/constructs/lambda/constructors/python-lambda-function-constructor.ts:115-133 | the RDS database's network if given, else the database's, else none; always private subnets with egress and a one-element security-group list |
| LegacyRustConstruct.RecordNamesKeys | cdk/lib/constructs/lambda/constructors/python-lambda-function-constructor.ts:105-113 | every record key, and nothing else, becomes a variable |
| LegacyRustConstruct.RecordNamesValues | cdk/lib/constructs/lambda/constructors/python-lambda-function-constructor.ts:105-113 | each key holds its own secret's name |
| LegacyRustConstruct.RecordGrants | cdk/lib/constructs/lambda/constructors/python-lambda-function-constructor.ts:111 | one read grant per record entry, in record order |
| LegacyRustConstruct.RecordStep | cdk/lib/constructs/lambda/constructors/python-lambda-function-constructor.ts:106-112 | one more entry writes one more variable and adds one more grant |
| LegacyRustConstruct.WireSecretRecord | cdk/lib/constructs/lambda/constructors/python-lambda-function-constructor.ts:100-113 | the loop leaves the given variables overlaid with the record's names and the role with one read grant per secret |
| LegacyRustConstruct.LegacyDescriptor | cdk/lib/constructs/lambda/constructors/python-lambda-function-constructor.ts:45-155 | name getPrefixed(name, environment), a log group always, the legacy manifest, the record's names over the given variables, the given timeout, memory size and concurrency, a network exactly when a database is given: the RDS database's VPC, subnets and security groups if given, else the database's, layers kept, bundling copied |
| LegacyRustConstruct.Assemble | cdk/lib/constructs/lambda/constructors/python-lambda-function-constructor.ts:45-155 | the constructor's step-by-step assembly yields LegacyDescriptor |
| Scenarios.BuilderSimplePython | cdk/lib/stacks/stack-with-builder-pattern.ts:40-44 | the builder's defaults alone build: entry from the name, handler "handler", Python 3.13, no variables, the default role |
| Scenarios.BuilderComplexPython | cdk/lib/stacks/stack-with-builder-pattern.ts:46-65 | the chain gives a log group, the entry, index and handler, a 90 s timeout, `SECRET_NAME`, the layer, and the role with read grant then the two managed policies |
| Scenarios.BuilderSimpleRust | cdk/lib/stacks/stack-with-builder-pattern.ts:67-71 | the default manifest makes the build succeed |
| Scenarios.BuilderComplexRust | cdk/lib/stacks/stack-with-builder-pattern.ts:73-90 | the same chain on the Rust builder forwards the layer |
| Scenarios.ComplexRustDropsLayer | cdk/lib/constructs/lambda/rust-lambda-function.ts:24-53 | the same chain on the Rust function beside the builders builds once a manifest is given, with the prefixed name, the log group, the 90-second timeout, the variable and the role, but without the layer |
| Scenarios.BuilderSimpleGo | cdk/lib/stacks/stack-with-builder-pattern.ts:92-96 | the default entry and module directory coincide and the build succeeds |
| Scenarios.ConfigureComplex | cdk/lib/stacks/stack-with-builder-pattern.ts:55-64 | timeout, secret, layer and two managed policies change exactly those parts of the configuration |
| Scenarios.ComplexConstructEnvironment | cdk/lib/stacks/stack-with-allin-constructor.ts:46-58 | the constructor stack's complex function gets exactly `SECRET_NAME` |
| Scenarios.ComplexConstructRole | cdk/lib/stacks/stack-with-allin-constructor.ts:46-58 | its role: the read grant, then the two managed policies, after the defaults |
| Scenarios.ConstructorComplexPython | cdk/lib/stacks/stack-with-allin-constructor.ts:46-58 | the base builds log group, 90 s timeout, `SECRET_NAME`, the layer and that role |
| Scenarios.StrategiesDifferInDefaultPolicyOnly | cdk/lib/constructs/lambda/constructors/lambda-function-constructor.base.ts:180-186 | both strategies give the complex function the same grants and managed policies in the same order; their roles differ only in the default inline policy |
| Scenarios.SimpleConstructDefaults | cdk/lib/constructs/lambda/constructors/lambda-function-constructor.base.ts:61-99 | with nothing but a name, the construct has no variables and the default role |
| Scenarios.ConstructorSimpleRust | cdk/lib/stacks/stack-with-allin-constructor.ts:60-64 | the simple Rust construct's manifest steps up from the constructors directory into the named crate |
| Scenarios.ConstructorSimpleGo | cdk/lib/stacks/stack-with-allin-constructor.ts:66-70 | the simple Go construct's entry and module file sit side by side in the named directory |
| Scenarios.ConstructorSimpleNodejs | cdk/lib/stacks/stack-with-allin-constructor.ts:72-76 | the simple Node.js construct builds iff the latest Node.js runtime is accepted, and otherwise throws the runtime TypeError |
| Scenarios.RustWithoutManifest | cdk/lib/constructs/lambda/rust-lambda-function.ts:20-33 | building the Rust function before `withManifest` fails with "Expected manifestPath to be defined." |

## Left out

- Construct scopes, construct ids and their uniqueness are not modelled: the cloud library checks them, and no descriptor field depends on them.
- `CfnOutput` exports, `app.synth()` and the application entry point are not modelled. The stacks appear only as the scenarios above.
- The Lambda handler programs under `src/lambda` are not part of this model.
- The cloud library's own behaviour is not modelled. This covers the role, grants, log groups, the function constructors and the runtime objects. Grants and policies are appended entries, and each descriptor is a plain record.
- `path.join` normalisation and `__dirname` are not modelled. A path is the uninterpreted `Join` of its segments, and each directory is a named constant.
- Lower-casing covers ASCII letters only. Unicode case mapping is not modelled.
- `cdk.Aws.REGION` and `cdk.Aws.ACCOUNT_ID` in ARNs are opaque token strings.
- `PYTHON_RUNTIME` and `NODEJS_RUNTIME` are not defined in `cdk/lib/utils/constants.ts`, and that file is not part of this model. Both sets are parameters (`pythonRuntimes`, `nodejsRuntimes`). Runtime membership compares runtimes by name.
- PythonBuilder.PythonLambdaFunctionBuilder.constructor: requires Python 3.13 to be among the Python runtimes. Otherwise the constructor's own `withRuntime` call would throw, and that throw is not modelled.
- The process variable ENV_NAME is the `envName` parameter of `GetEnvironment`. The module-level throw becomes its first failure case.
- `PythonFunctionConstruct` and `NodejsLambdaFunctionBuilder` are used by the stacks but are not part of the sources of this model. The constructor stack's Python functions are modelled through the shared `LambdaConstruct` base, and the Node.js builder function is left out.
- PythonBuilder.PythonLambdaFunctionBuilder.Valid: the inherited setters are reached through the public `core` field, so `core.WithRuntime` can still set a non-Python runtime that the overriding `withRuntime` would refuse. Such a builder no longer satisfies `Valid()`, and `Build` requires `Valid()`, so it cannot be built.
- `LambdaFunctionBuilder`, the parent of the builders, is not shown in the sources. Its inherited `with*` behaviour is taken from `LambdaFunction`. The runtime classes hold their base as a `core`/`base` field rather than inheriting from it.
- A `Runtime` prints as its name in the Python builder's error message.
- The stale `RustFunctionConstruct` in `constructors/python-lambda-function-constructor.ts` calls `super(scope, id)` without properties, so the base constructor it inherits would fail on its first property read, `props.environment` (`constructors/lambda-function-constructor.base.ts:55`). It also reads `props.rdsDatabase`, which its property type does not declare. Only its own assembly is modelled, as `LegacyDescriptor`/`Assemble`, with `rdsDatabase` as an optional property. Its assignments to the base's fields and the unused database secret are not modelled.
- The secrets record of the stale construct is a sequence of (key, secret) pairs, given in the order `for...in` enumerates the record's keys: integer-like keys first in ascending numeric order, then the other keys in insertion order. The model does not compute that order from insertion order; whoever builds the sequence must list the pairs that way. `RecordNamesValues` assumes distinct keys, as a record has.
- Bundling options are an opaque value passed through.
- Memory sizes, concurrency and durations are unbounded integers. The source does no range checks, and the cloud library's limits are not modelled.
