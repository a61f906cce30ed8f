/** The policy-statement factories of the two function bases: the default
    execution statements and the Bedrock model / knowledge-base statements. */
module Policies {
  import opened Wrappers
  import opened Iam

  const LogsActions: seq<string> := [
    "logs:CreateLogGroup",
    "logs:CreateLogStream",
    "logs:DescribeLogGroups",
    "logs:DescribeLogStreams",
    "logs:PutLogEvents"
  ]

  /** The network-interface actions of the incremental builder's base. */
  const BuilderEc2Actions: seq<string> := [
    "ec2:DescribeNetworkInterfaces",
    "ec2:DetachNetworkInterface",
    "ec2:CreateNetworkInterface",
    "ec2:DeleteNetworkInterface",
    "ec2:DescribeInstances",
    "ec2:AttachNetworkInterface"
  ]

  /** The network-interface actions of the all-in-constructor base. */
  const ConstructEc2Actions: seq<string> := [
    "ec2:DescribeNetworkInterfaces",
    "ec2:CreateNetworkInterface",
    "ec2:DeleteNetworkInterface",
    "ec2:DescribeInstances",
    "ec2:AttachNetworkInterface"
  ]

  /** Two ALLOW statements over every resource: the logs actions, then the
      network-interface actions given. */
  function DefaultStatements(ec2Actions: seq<string>): (r: seq<PolicyStatement>)
    ensures |r| == 2
    ensures forall st :: st in r ==> st.effect == Allow && st.resources == ["*"]
    ensures r[0].actions == LogsActions && r[1].actions == ec2Actions
  {
    [PolicyStatement(Allow, ["*"], LogsActions), PolicyStatement(Allow, ["*"], ec2Actions)]
  }

  /** `createDefaultLambdaPolicyStatementProps` of the builder base. */
  function BuilderDefaultStatements(): (r: seq<PolicyStatement>)
    ensures r == DefaultStatements(BuilderEc2Actions)
    ensures |r[0].actions| == 5 && |r[1].actions| == 6
  {
    DefaultStatements(BuilderEc2Actions)
  }

  /** `createDefaultLambdaPolicyStatementProps` of the constructor base. */
  function ConstructDefaultStatements(): (r: seq<PolicyStatement>)
    ensures r == DefaultStatements(ConstructEc2Actions)
    ensures |r[0].actions| == 5 && |r[1].actions| == 5
  {
    DefaultStatements(ConstructEc2Actions)
  }

  /** The two bases agree on the logs statement; their network-interface
      statements differ by exactly `ec2:DetachNetworkInterface`, which only
      the builder base grants. */
  lemma DefaultStatementsDiverge()
    ensures BuilderDefaultStatements()[0] == ConstructDefaultStatements()[0]
    ensures BuilderDefaultStatements()[1].actions
            == ConstructEc2Actions[..1] + ["ec2:DetachNetworkInterface"] + ConstructEc2Actions[1..]
    ensures "ec2:DetachNetworkInterface" in BuilderDefaultStatements()[1].actions
    ensures "ec2:DetachNetworkInterface" !in ConstructDefaultStatements()[1].actions
    ensures BuilderDefaultStatements() != ConstructDefaultStatements()
  {
    assert ConstructEc2Actions[..1] + ["ec2:DetachNetworkInterface"] + ConstructEc2Actions[1..]
        == BuilderEc2Actions;
  }

  const DefaultModelActions: seq<string> := [
    "bedrock:InvokeModel",
    "bedrock:InvokeModelWithResponseStream"
  ]

  const DefaultKnowledgeBaseActions: seq<string> := [
    "bedrock:InvokeAgent",
    "bedrock:InvokeModelWithResponseStream",
    "bedrock:Retrieve",
    "bedrock:RetrieveAndGenerate",
    "bedrock:StartIngestionJob",
    "bedrock:StopIngestionJob",
    "bedrock:ListIngestionJobs"
  ]

  /** The region and account pseudo-parameters, unresolved at synthesis time. */
  const AwsRegion: string := "${AWS::Region}"
  const AwsAccountId: string := "${AWS::AccountId}"

  datatype FoundationModelIdentifier = FoundationModelIdentifier(modelId: string)

  const ModelArnPrefix: string := "arn:aws:bedrock:" + AwsRegion + "::foundation-model/"
  const KnowledgeBaseArnPrefix: string := "arn:aws:bedrock:" + AwsRegion + ":" + AwsAccountId + ":knowledge-base/"

  function ModelArn(model: FoundationModelIdentifier): string {
    ModelArnPrefix + model.modelId
  }

  function KnowledgeBaseArn(knowledgeBaseId: string): string {
    KnowledgeBaseArnPrefix + knowledgeBaseId
  }

  /** One ALLOW statement per resource, each on that resource alone, in order. */
  function StatementsFor(arns: seq<string>, actions: seq<string>): (r: seq<PolicyStatement>)
    ensures |r| == |arns|
    ensures forall i :: 0 <= i < |arns| ==> r[i] == PolicyStatement(Allow, [arns[i]], actions)
  {
    if arns == [] then []
    else [PolicyStatement(Allow, [arns[0]], actions)] + StatementsFor(arns[1..], actions)
  }

  function ModelArns(models: seq<FoundationModelIdentifier>): (r: seq<string>)
    ensures |r| == |models|
    ensures forall i :: 0 <= i < |models| ==> r[i] == ModelArn(models[i])
  {
    seq(|models|, i requires 0 <= i < |models| => ModelArn(models[i]))
  }

  function KnowledgeBaseArns(ids: seq<string>): (r: seq<string>)
    ensures |r| == |ids|
    ensures forall i :: 0 <= i < |ids| ==> r[i] == KnowledgeBaseArn(ids[i])
  {
    seq(|ids|, i requires 0 <= i < |ids| => KnowledgeBaseArn(ids[i]))
  }

  /** `createBedrockFoundationModelPolicyStatementProps`: nothing when no
      identifiers are given; otherwise one statement per model, in order,
      with the default invoke actions unless `actions` is given. */
  function ModelStatements(models: Option<seq<FoundationModelIdentifier>>, actions: Option<seq<string>>): (r: seq<PolicyStatement>)
    ensures models.None? ==> r == []
    ensures models.Some? ==> |r| == |models.value|
    ensures models.Some? ==> forall i :: 0 <= i < |r| ==>
              r[i] == PolicyStatement(Allow, [ModelArn(models.value[i])], actions.GetOr(DefaultModelActions))
  {
    match models
    case None => []
    case Some(ms) => StatementsFor(ModelArns(ms), actions.GetOr(DefaultModelActions))
  }

  /** `createBedrockKnowledegeBasePolicyStatementProps`: same contract, one
      statement per knowledge base, default retrieval/ingestion actions. */
  function KnowledgeBaseStatements(ids: Option<seq<string>>, actions: Option<seq<string>>): (r: seq<PolicyStatement>)
    ensures ids.None? ==> r == []
    ensures ids.Some? ==> |r| == |ids.value|
    ensures ids.Some? ==> forall i :: 0 <= i < |r| ==>
              r[i] == PolicyStatement(Allow, [KnowledgeBaseArn(ids.value[i])], actions.GetOr(DefaultKnowledgeBaseActions))
  {
    match ids
    case None => []
    case Some(ks) => StatementsFor(KnowledgeBaseArns(ks), actions.GetOr(DefaultKnowledgeBaseActions))
  }

  /** Statements follow the input order: a concatenation of resources yields
      the concatenation of their statements. */
  lemma {:induction false} StatementsForAppend(a: seq<string>, b: seq<string>, actions: seq<string>)
    ensures StatementsFor(a + b, actions) == StatementsFor(a, actions) + StatementsFor(b, actions)
  {
    if a != [] {
      assert (a + b)[1..] == a[1..] + b;
      StatementsForAppend(a[1..], b, actions);
    }
  }

  lemma ModelStatementsAppend(a: seq<FoundationModelIdentifier>, b: seq<FoundationModelIdentifier>, actions: Option<seq<string>>)
    ensures ModelStatements(Some(a + b), actions) == ModelStatements(Some(a), actions) + ModelStatements(Some(b), actions)
  {
    assert ModelArns(a + b) == ModelArns(a) + ModelArns(b);
    StatementsForAppend(ModelArns(a), ModelArns(b), actions.GetOr(DefaultModelActions));
  }

  /** A statement names its model: the model id is what follows the ARN prefix,
      so distinct models never share a statement. */
  lemma ModelArnInjective(m1: FoundationModelIdentifier, m2: FoundationModelIdentifier)
    ensures ModelArn(m1)[|ModelArnPrefix|..] == m1.modelId
    ensures ModelArn(m1) == ModelArn(m2) ==> m1 == m2
  {
    assert ModelArn(m1)[|ModelArnPrefix|..] == m1.modelId;
    assert ModelArn(m2)[|ModelArnPrefix|..] == m2.modelId;
  }

  lemma KnowledgeBaseArnInjective(k1: string, k2: string)
    ensures KnowledgeBaseArn(k1)[|KnowledgeBaseArnPrefix|..] == k1
    ensures KnowledgeBaseArn(k1) == KnowledgeBaseArn(k2) ==> k1 == k2
  {
    assert KnowledgeBaseArn(k1)[|KnowledgeBaseArnPrefix|..] == k1;
    assert KnowledgeBaseArn(k2)[|KnowledgeBaseArnPrefix|..] == k2;
  }

  /** Absent identifiers and an empty list both grant nothing. */
  lemma NoIdentifiersNoGrant(actions: Option<seq<string>>)
    ensures ModelStatements(None, actions) == [] && ModelStatements(Some([]), actions) == []
    ensures KnowledgeBaseStatements(None, actions) == [] && KnowledgeBaseStatements(Some([]), actions) == []
  {
  }
}
