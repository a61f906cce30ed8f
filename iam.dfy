/** Authorization statements and the execution role of a function. The role is
    a value whose attachments (managed policies, inline policies and access
    grants) form one sequence in the order they were made. */
module Iam {
  import opened Resources

  datatype Effect = Allow | Deny

  datatype PolicyStatement = PolicyStatement(effect: Effect, resources: seq<string>, actions: seq<string>)

  /** An opaque managed policy, e.g. `fromAwsManagedPolicyName(name)`. */
  datatype ManagedPolicy = ManagedPolicy(policyName: string)

  datatype Grant =
    | SecretRead(secret: Secret)
    | BucketReadWrite(bucket: Bucket)
    | TableReadWriteData(table: Table)
    | QueueConsumeMessages(queue: Queue)
    | QueueSendMessages(queue: Queue)

  datatype Attachment =
    | ManagedPolicyAttached(policy: ManagedPolicy)
    | InlinePolicyAttached(statements: seq<PolicyStatement>)
    | Granted(grant: Grant)

  datatype Role = Role(assumedBy: string, attachments: seq<Attachment>)

  const LambdaServicePrincipal: string := "lambda.amazonaws.com"
  const VpcAccessExecutionRole: ManagedPolicy := ManagedPolicy("service-role/AWSLambdaVPCAccessExecutionRole")

  /** The role both bases create: assumed by the Lambda service, with the
      VPC-access managed policy, then one inline policy of `statements`. */
  function NewRole(statements: seq<PolicyStatement>): (r: Role)
    ensures r.assumedBy == LambdaServicePrincipal
    ensures |r.attachments| == 2
    ensures r.attachments[0] == ManagedPolicyAttached(VpcAccessExecutionRole)
    ensures r.attachments[1] == InlinePolicyAttached(statements)
  {
    Role(LambdaServicePrincipal, [ManagedPolicyAttached(VpcAccessExecutionRole), InlinePolicyAttached(statements)])
  }

  /** The role after one more attachment (a grant or `addManagedPolicy`). */
  function Attach(role: Role, a: Attachment): (r: Role)
    ensures r.assumedBy == role.assumedBy
    ensures |r.attachments| == |role.attachments| + 1
    ensures r.attachments[..|role.attachments|] == role.attachments
    ensures r.attachments[|role.attachments|] == a
  {
    Role(role.assumedBy, role.attachments + [a])
  }

  /** `role` was obtained from `base` by attaching more, never removing. */
  predicate Extends(role: Role, base: Role) {
    role.assumedBy == base.assumedBy && base.attachments <= role.attachments
  }

  lemma AttachExtends(role: Role, base: Role, a: Attachment)
    requires Extends(role, base)
    ensures Extends(Attach(role, a), base)
  {
  }
}
