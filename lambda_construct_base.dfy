/** The all-in-constructor base: every setting arrives in one property bag and
    the constructor wires the log group, the role, the collaborators' grants
    and environment variables, and the managed policies in a fixed order. */
module LambdaConstructBase {
  import opened Wrappers
  import opened Environments
  import Naming
  import opened Resources
  import opened Iam
  import Policies
  import opened Functions
  import opened EnvVars

  datatype SecretItem = SecretItem(secret: Secret, environmentVariable: Option<string>)
  datatype BucketItem = BucketItem(bucket: Bucket, environmentVariable: Option<string>)
  datatype TableItem = TableItem(table: Table, environmentVariable: Option<string>)
  datatype QueueItem = QueueItem(queue: Queue, environmentVariable: Option<string>)

  /** The property bag of the constructor; every optional property is an `Option`. */
  datatype LambdaConstructProps = LambdaConstructProps(
    name: string,
    environment: Environment,
    withLogGroup: bool,
    duration: Option<Duration>,
    memorySize: Option<int>,
    concurrency: Option<int>,
    environmentVariables: Option<EnvMap>,
    vpc: Option<Vpc>,
    vpcSubnets: Option<SubnetSelection>,
    securityGroups: Option<seq<SecurityGroup>>,
    layers: Option<seq<Layer>>,
    secrets: Option<seq<SecretItem>>,
    buckets: Option<seq<BucketItem>>,
    sqs: Option<seq<QueueItem>>,
    dynamoDBTables: Option<seq<TableItem>>,
    managedPolicies: Option<seq<ManagedPolicy>>)

  /** What one loop iteration does for a collaborator: the grants it makes on
      the role, in order, and the variable it may write. */
  datatype Collaborator = Collaborator(grants: seq<Grant>, binding: Binding)

  function SecretCollaborator(item: SecretItem): Collaborator {
    Collaborator([SecretRead(item.secret)], Binding(item.environmentVariable, item.secret.secretName))
  }

  function BucketCollaborator(item: BucketItem): Collaborator {
    Collaborator([BucketReadWrite(item.bucket)], Binding(item.environmentVariable, item.bucket.bucketName))
  }

  function TableCollaborator(item: TableItem): Collaborator {
    Collaborator([TableReadWriteData(item.table)], Binding(item.environmentVariable, item.table.tableName))
  }

  /** A queue is granted consumption, then sending. */
  function QueueCollaborator(item: QueueItem): Collaborator {
    Collaborator([QueueConsumeMessages(item.queue), QueueSendMessages(item.queue)],
                 Binding(item.environmentVariable, item.queue.queueName))
  }

  function SecretCollaborators(items: seq<SecretItem>): (r: seq<Collaborator>)
    ensures |r| == |items| && forall i :: 0 <= i < |items| ==> r[i] == SecretCollaborator(items[i])
  {
    seq(|items|, i requires 0 <= i < |items| => SecretCollaborator(items[i]))
  }

  function BucketCollaborators(items: seq<BucketItem>): (r: seq<Collaborator>)
    ensures |r| == |items| && forall i :: 0 <= i < |items| ==> r[i] == BucketCollaborator(items[i])
  {
    seq(|items|, i requires 0 <= i < |items| => BucketCollaborator(items[i]))
  }

  function TableCollaborators(items: seq<TableItem>): (r: seq<Collaborator>)
    ensures |r| == |items| && forall i :: 0 <= i < |items| ==> r[i] == TableCollaborator(items[i])
  {
    seq(|items|, i requires 0 <= i < |items| => TableCollaborator(items[i]))
  }

  function QueueCollaborators(items: seq<QueueItem>): (r: seq<Collaborator>)
    ensures |r| == |items| && forall i :: 0 <= i < |items| ==> r[i] == QueueCollaborator(items[i])
  {
    seq(|items|, i requires 0 <= i < |items| => QueueCollaborator(items[i]))
  }

  /** The collaborators in the order the constructor visits them: secrets,
      buckets, tables, then queues. */
  function AllCollaborators(props: LambdaConstructProps): (r: seq<Collaborator>)
    ensures |r| == |props.secrets.GetOr([])| + |props.buckets.GetOr([])|
                   + |props.dynamoDBTables.GetOr([])| + |props.sqs.GetOr([])|
  {
    SecretCollaborators(props.secrets.GetOr([])) + BucketCollaborators(props.buckets.GetOr([]))
    + TableCollaborators(props.dynamoDBTables.GetOr([])) + QueueCollaborators(props.sqs.GetOr([]))
  }

  function GrantAttachments(grants: seq<Grant>): (r: seq<Attachment>)
    ensures |r| == |grants| && forall i :: 0 <= i < |grants| ==> r[i] == Granted(grants[i])
  {
    seq(|grants|, i requires 0 <= i < |grants| => Granted(grants[i]))
  }

  /** Every grant of the collaborators, collaborator by collaborator. */
  function CollaboratorGrants(cs: seq<Collaborator>): seq<Attachment>
  {
    if cs == [] then [] else CollaboratorGrants(cs[..|cs| - 1]) + GrantAttachments(cs[|cs| - 1].grants)
  }

  /** The collaborators' variable writes, in order. */
  function CollaboratorBindings(cs: seq<Collaborator>): (r: seq<Binding>)
    ensures |r| == |cs| && forall i :: 0 <= i < |cs| ==> r[i] == cs[i].binding
  {
    if cs == [] then [] else CollaboratorBindings(cs[..|cs| - 1]) + [cs[|cs| - 1].binding]
  }

  /** The managed policies as attachments, in order. */
  function ManagedAttachments(policies: seq<ManagedPolicy>): (r: seq<Attachment>)
    ensures |r| == |policies| && forall i :: 0 <= i < |policies| ==> r[i] == ManagedPolicyAttached(policies[i])
  {
    if policies == [] then []
    else ManagedAttachments(policies[..|policies| - 1]) + [ManagedPolicyAttached(policies[|policies| - 1])]
  }

  lemma {:induction false} CollaboratorGrantsAppend(a: seq<Collaborator>, b: seq<Collaborator>)
    ensures CollaboratorGrants(a + b) == CollaboratorGrants(a) + CollaboratorGrants(b)
  {
    if b == [] {
      assert a + b == a;
    } else {
      var n := |b| - 1;
      assert (a + b)[..|a + b| - 1] == a + b[..n];
      assert (a + b)[|a + b| - 1] == b[n];
      CollaboratorGrantsAppend(a, b[..n]);
      var ga, gb, last := CollaboratorGrants(a), CollaboratorGrants(b[..n]), GrantAttachments(b[n].grants);
      assert CollaboratorGrants(a + b) == ga + gb + last;
      assert CollaboratorGrants(b) == gb + last;
      assert ga + gb + last == ga + (gb + last);
    }
  }

  /** The role the constructor ends with: the VPC-access managed policy, the
      default inline policy, every collaborator's grants, then the managed
      policies. */
  function ConstructRole(props: LambdaConstructProps): Role {
    var r0 := NewRole(Policies.ConstructDefaultStatements());
    Role(r0.assumedBy, r0.attachments + CollaboratorGrants(AllCollaborators(props))
                       + ManagedAttachments(props.managedPolicies.GetOr([])))
  }

  /** The variables the constructor ends with: a copy of the given ones, then
      each collaborator's write. */
  function ConstructEnvironment(props: LambdaConstructProps): EnvMap {
    ApplyBindings(props.environmentVariables.GetOr(map[]), CollaboratorBindings(AllCollaborators(props)))
  }

  /** The whole configuration the constructor produces. */
  function ConstructConfig(props: LambdaConstructProps, lambdaName: string): FunctionConfig {
    FunctionConfig(
      if props.withLogGroup then Some(FunctionLogGroup(lambdaName)) else None,
      ConstructRole(props), props.duration, props.memorySize, props.concurrency,
      ConstructEnvironment(props), props.vpc, props.vpcSubnets, props.securityGroups,
      props.layers, None)
  }

  class LambdaConstruct {
    const id: string
    const name: string
    const environment: Environment
    const lambdaName: string

    var logGroup: Option<LogGroup>
    var role: Role
    var duration: Option<Duration>
    var memorySize: Option<int>
    var concurrency: Option<int>
    var environmentVariables: EnvMap
    var vpc: Option<Vpc>
    var vpcSubnets: Option<SubnetSelection>
    var securityGroups: Option<seq<SecurityGroup>>
    var layers: Option<seq<Layer>>
    var runtime: Option<Runtime>

    function Config(): FunctionConfig
      reads this
    {
      FunctionConfig(logGroup, role, duration, memorySize, concurrency, environmentVariables,
                     vpc, vpcSubnets, securityGroups, layers, runtime)
    }

    constructor (id: string, props: LambdaConstructProps)
      ensures this.id == id && name == props.name && environment == props.environment
      ensures lambdaName == Naming.GetPrefixed(props.name, props.environment)
      ensures Config() == ConstructConfig(props, lambdaName)
    {
      this.id := id;
      environment := props.environment;
      name := props.name;
      lambdaName := Naming.GetPrefixed(props.name, props.environment);
      duration := props.duration;
      memorySize := props.memorySize;
      concurrency := props.concurrency;
      environmentVariables := props.environmentVariables.GetOr(map[]);
      vpc := props.vpc;
      vpcSubnets := props.vpcSubnets;
      securityGroups := props.securityGroups;
      layers := props.layers;
      runtime := None;
      logGroup := None;
      role := NewRole(Policies.ConstructDefaultStatements());
      new;
      Wire(props);
    }

    /** The part of the constructor after the fields are copied: the log
        group if asked for, the collaborator loops over the default role and
        the given variables, then the managed policies. */
    method Wire(props: LambdaConstructProps)
      requires role == NewRole(Policies.ConstructDefaultStatements()) && logGroup.None?
      requires environmentVariables == props.environmentVariables.GetOr(map[])
      modifies this`logGroup, this`role, this`environmentVariables
      ensures logGroup == ConstructConfig(props, lambdaName).logGroup
      ensures role == ConstructRole(props) && environmentVariables == ConstructEnvironment(props)
    {
      if props.withLogGroup {
        logGroup := Some(FunctionLogGroup(lambdaName));
      }
      WireAllCollaborators(props);
      AttachManagedPolicies(props.managedPolicies.GetOr([]));
    }

    /** The four collaborator loops: secrets, buckets, tables, then queues. */
    method WireAllCollaborators(props: LambdaConstructProps)
      modifies this`role, this`environmentVariables
      ensures role == Role(old(role).assumedBy, old(role).attachments + CollaboratorGrants(AllCollaborators(props)))
      ensures environmentVariables == ApplyBindings(old(environmentVariables), CollaboratorBindings(AllCollaborators(props)))
    {
      var secrets := SecretCollaborators(props.secrets.GetOr([]));
      var buckets := BucketCollaborators(props.buckets.GetOr([]));
      var tables := TableCollaborators(props.dynamoDBTables.GetOr([]));
      var queues := QueueCollaborators(props.sqs.GetOr([]));
      ghost var env0, r0 := environmentVariables, role;
      WireCollaborators(secrets);
      WireCollaborators(buckets);
      WireCollaborators(tables);
      WireCollaborators(queues);
      GrantsCompose(r0.attachments, secrets, buckets, tables, queues);
      BindingsCompose(env0, secrets, buckets, tables, queues);
      assert environmentVariables == ApplyBindings(env0, CollaboratorBindings(secrets + buckets + tables + queues));
      assert secrets + buckets + tables + queues == AllCollaborators(props);
    }

    /** One collaborator loop of the constructor: for each item, its grants
        on the role, then its variable when it names one. */
    method WireCollaborators(cs: seq<Collaborator>)
      modifies this`role, this`environmentVariables
      ensures role == Role(old(role).assumedBy, old(role).attachments + CollaboratorGrants(cs))
      ensures environmentVariables == ApplyBindings(old(environmentVariables), CollaboratorBindings(cs))
    {
      for i := 0 to |cs|
        invariant role == Role(old(role).assumedBy, old(role).attachments + CollaboratorGrants(cs[..i]))
        invariant environmentVariables == ApplyBindings(old(environmentVariables), CollaboratorBindings(cs[..i]))
      {
        CollaboratorStep(old(environmentVariables), cs, i);
        role := Role(role.assumedBy, role.attachments + GrantAttachments(cs[i].grants));
        environmentVariables := Bind(environmentVariables, cs[i].binding);
      }
      assert cs[..|cs|] == cs;
    }

    /** The managed-policy loop: each policy added to the role in order. */
    method AttachManagedPolicies(policies: seq<ManagedPolicy>)
      modifies this`role
      ensures role == Role(old(role).assumedBy, old(role).attachments + ManagedAttachments(policies))
    {
      for i := 0 to |policies|
        invariant role == Role(old(role).assumedBy, old(role).attachments + ManagedAttachments(policies[..i]))
      {
        assert policies[..i + 1][..i] == policies[..i];
        role := Attach(role, ManagedPolicyAttached(policies[i]));
      }
      assert policies[..|policies|] == policies;
    }
  }

  lemma {:induction false} CollaboratorBindingsAppend(a: seq<Collaborator>, b: seq<Collaborator>)
    ensures CollaboratorBindings(a + b) == CollaboratorBindings(a) + CollaboratorBindings(b)
  {
    if b == [] {
      assert a + b == a;
    } else {
      var n := |b| - 1;
      assert (a + b)[..|a + b| - 1] == a + b[..n];
      CollaboratorBindingsAppend(a, b[..n]);
    }
  }

  /** One more collaborator extends the grants and the writes by its own. */
  lemma CollaboratorStep(env: EnvMap, cs: seq<Collaborator>, i: nat)
    requires i < |cs|
    ensures CollaboratorGrants(cs[..i + 1]) == CollaboratorGrants(cs[..i]) + GrantAttachments(cs[i].grants)
    ensures ApplyBindings(env, CollaboratorBindings(cs[..i + 1]))
            == Bind(ApplyBindings(env, CollaboratorBindings(cs[..i])), cs[i].binding)
  {
    assert cs[..i + 1][..i] == cs[..i];
    assert CollaboratorBindings(cs[..i + 1])[..i] == CollaboratorBindings(cs[..i]);
  }

  /** Four collaborator loops run one after another grant what one pass
      over the concatenation grants. */
  lemma GrantsCompose(prior: seq<Attachment>, s: seq<Collaborator>, b: seq<Collaborator>, t: seq<Collaborator>, q: seq<Collaborator>)
    ensures prior + CollaboratorGrants(s) + CollaboratorGrants(b) + CollaboratorGrants(t) + CollaboratorGrants(q)
            == prior + CollaboratorGrants(s + b + t + q)
  {
    CollaboratorGrantsAppend(s, b);
    CollaboratorGrantsAppend(s + b, t);
    CollaboratorGrantsAppend(s + b + t, q);
    ConcatRegroup(prior, CollaboratorGrants(s), CollaboratorGrants(b), CollaboratorGrants(t), CollaboratorGrants(q));
  }

  lemma ConcatRegroup<T>(p: seq<T>, a: seq<T>, b: seq<T>, c: seq<T>, d: seq<T>)
    ensures p + a + b + c + d == p + (a + b + c + d)
  {
  }

  /** Four collaborator loops run one after another write what one pass over
      the concatenation writes. */
  lemma BindingsCompose(env: EnvMap, s: seq<Collaborator>, b: seq<Collaborator>, t: seq<Collaborator>, q: seq<Collaborator>)
    ensures ApplyBindings(ApplyBindings(ApplyBindings(ApplyBindings(env, CollaboratorBindings(s)),
              CollaboratorBindings(b)), CollaboratorBindings(t)), CollaboratorBindings(q))
            == ApplyBindings(env, CollaboratorBindings(s + b + t + q))
  {
    CollaboratorBindingsAppend(s, b);
    CollaboratorBindingsAppend(s + b, t);
    CollaboratorBindingsAppend(s + b + t, q);
    ApplyBindingsAppend(env, CollaboratorBindings(s), CollaboratorBindings(b));
    ApplyBindingsAppend(env, CollaboratorBindings(s + b), CollaboratorBindings(t));
    ApplyBindingsAppend(env, CollaboratorBindings(s + b + t), CollaboratorBindings(q));
  }

  /** A grant any collaborator makes appears among the collaborators' grants. */
  lemma {:induction false} CollaboratorGrantsContain(cs: seq<Collaborator>, i: nat, j: nat)
    requires i < |cs| && j < |cs[i].grants|
    ensures Granted(cs[i].grants[j]) in CollaboratorGrants(cs)
  {
    var n := |cs| - 1;
    if i < n {
      assert cs[..n][i] == cs[i];
      CollaboratorGrantsContain(cs[..n], i, j);
    } else {
      assert GrantAttachments(cs[n].grants)[j] == Granted(cs[i].grants[j]);
    }
  }

  /** The collaborators contribute nothing but grants. */
  lemma {:induction false} GrantsOnly(cs: seq<Collaborator>)
    ensures forall k :: 0 <= k < |CollaboratorGrants(cs)| ==> CollaboratorGrants(cs)[k].Granted?
  {
    if cs != [] {
      GrantsOnly(cs[..|cs| - 1]);
    }
  }

  /** When every collaborator makes exactly two grants, collaborator `i`'s
      grants sit at positions `2i` and `2i + 1`, in the order it made them. */
  lemma {:induction false} PairedGrantsPositions(cs: seq<Collaborator>)
    requires forall i :: 0 <= i < |cs| ==> |cs[i].grants| == 2
    ensures |CollaboratorGrants(cs)| == 2 * |cs|
    ensures forall i :: 0 <= i < |cs| ==>
              CollaboratorGrants(cs)[2 * i] == Granted(cs[i].grants[0]) &&
              CollaboratorGrants(cs)[2 * i + 1] == Granted(cs[i].grants[1])
  {
    if cs != [] {
      var n := |cs| - 1;
      PairedGrantsPositions(cs[..n]);
      assert forall i :: 0 <= i < n ==> cs[..n][i] == cs[i];
    }
  }

  /** Every queue is granted consumption immediately followed by sending,
      queue by queue in the given order. */
  lemma QueueGrantOrder(items: seq<QueueItem>)
    ensures |CollaboratorGrants(QueueCollaborators(items))| == 2 * |items|
    ensures forall i :: 0 <= i < |items| ==>
              CollaboratorGrants(QueueCollaborators(items))[2 * i] == Granted(QueueConsumeMessages(items[i].queue)) &&
              CollaboratorGrants(QueueCollaborators(items))[2 * i + 1] == Granted(QueueSendMessages(items[i].queue))
  {
    PairedGrantsPositions(QueueCollaborators(items));
  }

  /** The constructed role: assumed by the Lambda service, the VPC-access
      policy first, the construct's default inline policy second, the managed
      policies last in the given order, and only grants in between. */
  lemma ConstructRoleLayout(props: LambdaConstructProps)
    ensures var r := ConstructRole(props);
            var m := props.managedPolicies.GetOr([]);
            && r.assumedBy == LambdaServicePrincipal
            && |r.attachments| >= 2 + |m|
            && r.attachments[0] == ManagedPolicyAttached(VpcAccessExecutionRole)
            && r.attachments[1] == InlinePolicyAttached(Policies.ConstructDefaultStatements())
            && (forall k :: 2 <= k < |r.attachments| - |m| ==> r.attachments[k].Granted?)
            && (forall i :: 0 <= i < |m| ==> r.attachments[|r.attachments| - |m| + i] == ManagedPolicyAttached(m[i]))
  {
    var r0 := NewRole(Policies.ConstructDefaultStatements());
    var g := CollaboratorGrants(AllCollaborators(props));
    var m := props.managedPolicies.GetOr([]);
    var r := ConstructRole(props);
    GrantsOnly(AllCollaborators(props));
    assert r.attachments == r0.attachments + g + ManagedAttachments(m);
    assert forall k :: 2 <= k < |r.attachments| - |m| ==> r.attachments[k] == g[k - 2];
  }

  /** Any grant of any collaborator ends up on the constructed role. */
  lemma GrantedOnRole(props: LambdaConstructProps, i: nat, j: nat)
    requires i < |AllCollaborators(props)| && j < |AllCollaborators(props)[i].grants|
    ensures Granted(AllCollaborators(props)[i].grants[j]) in ConstructRole(props).attachments
  {
    var all := AllCollaborators(props);
    var r0 := NewRole(Policies.ConstructDefaultStatements());
    CollaboratorGrantsContain(all, i, j);
    var a := ConstructRole(props).attachments;
    assert a == r0.attachments + CollaboratorGrants(all) + ManagedAttachments(props.managedPolicies.GetOr([]));
  }

  /** Every secret given to the constructor is granted read access. */
  lemma SecretGranted(props: LambdaConstructProps, x: SecretItem)
    requires x in props.secrets.GetOr([])
    ensures Granted(SecretRead(x.secret)) in ConstructRole(props).attachments
  {
    var secrets := props.secrets.GetOr([]);
    var i :| 0 <= i < |secrets| && secrets[i] == x;
    assert AllCollaborators(props)[i] == SecretCollaborator(x);
    GrantedOnRole(props, i, 0);
  }

  /** Every bucket given to the constructor is granted read and write access. */
  lemma BucketGranted(props: LambdaConstructProps, x: BucketItem)
    requires x in props.buckets.GetOr([])
    ensures Granted(BucketReadWrite(x.bucket)) in ConstructRole(props).attachments
  {
    var buckets := props.buckets.GetOr([]);
    var i :| 0 <= i < |buckets| && buckets[i] == x;
    var k := |props.secrets.GetOr([])| + i;
    assert AllCollaborators(props)[k] == BucketCollaborator(x);
    GrantedOnRole(props, k, 0);
  }

  /** Every table given to the constructor is granted data read and write access. */
  lemma TableGranted(props: LambdaConstructProps, x: TableItem)
    requires x in props.dynamoDBTables.GetOr([])
    ensures Granted(TableReadWriteData(x.table)) in ConstructRole(props).attachments
  {
    var tables := props.dynamoDBTables.GetOr([]);
    var i :| 0 <= i < |tables| && tables[i] == x;
    var k := |props.secrets.GetOr([])| + |props.buckets.GetOr([])| + i;
    assert AllCollaborators(props)[k] == TableCollaborator(x);
    GrantedOnRole(props, k, 0);
  }

  /** Every queue given to the constructor is granted both consumption and sending. */
  lemma QueueGranted(props: LambdaConstructProps, x: QueueItem)
    requires x in props.sqs.GetOr([])
    ensures Granted(QueueConsumeMessages(x.queue)) in ConstructRole(props).attachments
    ensures Granted(QueueSendMessages(x.queue)) in ConstructRole(props).attachments
  {
    var queues := props.sqs.GetOr([]);
    var i :| 0 <= i < |queues| && queues[i] == x;
    var k := |props.secrets.GetOr([])| + |props.buckets.GetOr([])| + |props.dynamoDBTables.GetOr([])| + i;
    assert AllCollaborators(props)[k] == QueueCollaborator(x);
    GrantedOnRole(props, k, 0);
    GrantedOnRole(props, k, 1);
  }

  /** The last queue naming a variable decides its value, whatever secrets,
      buckets, tables or given variables wrote under that name before. */
  lemma QueueWriteWins(props: LambdaConstructProps, i: nat, key: string)
    requires i < |props.sqs.GetOr([])|
    requires Truthy(props.sqs.GetOr([])[i].environmentVariable)
    requires props.sqs.GetOr([])[i].environmentVariable.value == key
    requires forall j :: i < j < |props.sqs.GetOr([])| ==> !Names(QueueCollaborator(props.sqs.GetOr([])[j]).binding, key)
    ensures key in ConstructEnvironment(props)
    ensures ConstructEnvironment(props)[key] == props.sqs.GetOr([])[i].queue.queueName
  {
    var queues := props.sqs.GetOr([]);
    var all := AllCollaborators(props);
    var bs := CollaboratorBindings(all);
    var nq := |all| - |queues|;
    assert forall j :: nq <= j < |all| ==> all[j] == QueueCollaborator(queues[j - nq]);
    assert forall j :: nq + i < j < |bs| ==> !Names(bs[j], key);
    LastWriteAt(bs, key, nq + i);
    ApplyBindingsLookup(props.environmentVariables.GetOr(map[]), bs, key);
  }

  /** A variable no collaborator names keeps what was given for it: present
      exactly when given, with the given value. */
  lemma UnnamedVariableKept(props: LambdaConstructProps, key: string)
    requires forall x :: x in props.secrets.GetOr([]) ==> !Names(SecretCollaborator(x).binding, key)
    requires forall x :: x in props.buckets.GetOr([]) ==> !Names(BucketCollaborator(x).binding, key)
    requires forall x :: x in props.dynamoDBTables.GetOr([]) ==> !Names(TableCollaborator(x).binding, key)
    requires forall x :: x in props.sqs.GetOr([]) ==> !Names(QueueCollaborator(x).binding, key)
    ensures var given := props.environmentVariables.GetOr(map[]);
            && (key in ConstructEnvironment(props) <==> key in given)
            && (key in given ==> ConstructEnvironment(props)[key] == given[key])
  {
    var all := AllCollaborators(props);
    var bs := CollaboratorBindings(all);
    var s, b := SecretCollaborators(props.secrets.GetOr([])), BucketCollaborators(props.buckets.GetOr([]));
    var t, q := TableCollaborators(props.dynamoDBTables.GetOr([])), QueueCollaborators(props.sqs.GetOr([]));
    forall j | 0 <= j < |bs| ensures !Names(bs[j], key) {
      if j < |s| {
        assert all[j] == s[j];
      } else if j < |s| + |b| {
        assert all[j] == b[j - |s|];
      } else if j < |s| + |b| + |t| {
        assert all[j] == t[j - |s| - |b|];
      } else {
        assert all[j] == q[j - |s| - |b| - |t|];
      }
    }
    LastWriteNone(bs, key);
    ApplyBindingsLookup(props.environmentVariables.GetOr(map[]), bs, key);
  }

  /** Any function a construct describes carries the constructed
      configuration: its name, the given settings, the constructed role and
      variables, a log group exactly when one was asked for, on ARM64. */
  lemma ConstructDescribeForwards(props: LambdaConstructProps, lambdaName: string, config: FunctionConfig, source: Source)
    requires config == ConstructConfig(props, lambdaName).(runtime := config.runtime)
    ensures var d := Describe(lambdaName, config, source);
            && d.source == source && d.functionName == lambdaName && d.architecture == Arm64
            && d.role == ConstructRole(props) && d.environment == ConstructEnvironment(props)
            && (d.logGroup.Some? <==> props.withLogGroup)
            && (d.logGroup.Some? ==> d.logGroup.value.logGroupName == "/aws/lambda/" + lambdaName)
            && d.timeout == props.duration && d.memorySize == props.memorySize
            && d.reservedConcurrentExecutions == props.concurrency && d.layers == props.layers
            && d.vpc == props.vpc && d.vpcSubnets == props.vpcSubnets && d.securityGroups == props.securityGroups
  {
  }
}
