/** The Deployment create table, stated over the model. */
module DeploymentCases {
  import opened FieldPaths
  import opened Names
  import opened IntOrPercent
  import opened Meta
  import opened PodTemplates
  import opened Deployments

  const NameAbc := map["name" := "abc"]
  const NoDeploymentStrategy := DeploymentStrategy("", None)

  /** The valid deployment the table starts from, with a replaced restart
      policy, selector, unique label key or strategy. */
  function Variant(selector: map<string, string>, restartPolicy: string, strategy: DeploymentStrategy, uniqueLabelKey: string): Deployment
  {
    Deployment(NamedMeta("abc", NamespaceDefault),
      DeploymentSpec(0, selector, SimpleTemplate(NameAbc, restartPolicy), strategy, uniqueLabelKey))
  }

  const ValidDeployment := Variant(NameAbc, RestartPolicyAlways, NoDeploymentStrategy, "my-label")

  function WithDeploymentStrategy(strategy: DeploymentStrategy): Deployment
  {
    Variant(NameAbc, RestartPolicyAlways, strategy, "my-label")
  }

  function RollingDeployment(maxUnavailable: IntOrString, maxSurge: IntOrString): DeploymentStrategy
  {
    DeploymentStrategy(RollingUpdateStrategyType, Some(RollingUpdateDeployment(maxUnavailable, maxSurge, 0)))
  }

  lemma ValidDeploymentParts()
    ensures MetaValid(NamedMeta("abc", NamespaceDefault), DNSSubdomainName)
    ensures PodTemplateValid(SimpleTemplate(NameAbc, RestartPolicyAlways))
    ensures PodTemplateValid(SimpleTemplate(NameAbc, RestartPolicyNever))
  {
    AcceptedNameExamples();
    assert IsValidLabelValue("abc");
    assert LabelsValid(map[]) && AnnotationsValid(map[]);
  }

  lemma DeploymentSuccessCase()
    ensures ValidateDeployment(ValidDeployment) == []
  {
    ValidDeploymentParts();
    AcceptedNameExamples();
  }

  /** A deployment with only a namespace is reported first for its name. */
  lemma MissingNameCase()
    ensures var errs := ValidateDeployment(Deployment(NamedMeta("", NamespaceDefault),
      DeploymentSpec(0, map[], PodTemplateSpec(map[], map[], PodSpec("", false)), NoDeploymentStrategy, "")));
      |errs| >= 1 && errs[0] == RequiredError(MetaPath("name"), "name or generateName is required")
  {
    EmptyNameFirst(NamedMeta("", NamespaceDefault), DNSSubdomainName);
  }

  lemma SelectorMismatchCase()
    ensures var errs := ValidateDeployment(Variant(map["name" := "def"], RestartPolicyAlways, NoDeploymentStrategy, "my-label"));
      |errs| >= 1 && errs[0] == InvalidError(Fields(["spec", "template", "metadata", "labels"]), "", "`selector` does not match template `labels`")
  {
    ValidDeploymentParts();
    var d := Variant(map["name" := "def"], RestartPolicyAlways, NoDeploymentStrategy, "my-label");
    assert ValidateObjectMeta(d.meta, DNSSubdomainName) == [];
    assert !MatchesAll(d.spec.selector, d.spec.template.labels) by { assert d.spec.template.labels["name"] == "abc"; }
  }

  lemma RestartPolicyCase()
    ensures var errs := ValidateDeployment(Variant(NameAbc, RestartPolicyNever, NoDeploymentStrategy, "my-label"));
      |errs| >= 1 && errs[0] == NotSupportedError(Fields(["spec", "template", "spec", "restartPolicy"]), RestartPolicyNever, [RestartPolicyAlways])
  {
    ValidDeploymentParts();
    RestartPolicyErrorFirst(Variant(NameAbc, RestartPolicyNever, NoDeploymentStrategy, "my-label"));
  }

  lemma UniqueLabelCase()
    ensures ValidateDeployment(Variant(NameAbc, RestartPolicyAlways, NoDeploymentStrategy, "abc/def/ghi"))
      == [InvalidError(Fields(["spec", "uniqueLabel"]), "abc/def/ghi", QualifiedNameErrorMsg)]
  {
    ValidDeploymentParts();
    TwoSlashKeyExample();
    StrategyErrorsFirst(Variant(NameAbc, RestartPolicyAlways, NoDeploymentStrategy, "abc/def/ghi"));
  }

  /** With every other field of the valid deployment, the strategy alone
      decides the errors. */
  lemma StrategyCase(s: DeploymentStrategy)
    ensures ValidateDeployment(WithDeploymentStrategy(s)) == ValidateDeploymentStrategy(s)
  {
    ValidDeploymentParts();
    AcceptedQualifiedNames();
    StrategyErrorsFirst(WithDeploymentStrategy(s));
  }

  lemma RecreateWithParametersCase()
    ensures ValidateDeployment(WithDeploymentStrategy(DeploymentStrategy(RecreateStrategyType,
      Some(RollingUpdateDeployment(FromInt(0), FromInt(0), 0)))))
      == [ForbiddenError(StrategyPath(["rollingUpdate"]), "may not be specified when strategy `type` is 'Recreate'")]
  {
    StrategyCase(DeploymentStrategy(RecreateStrategyType, Some(RollingUpdateDeployment(FromInt(0), FromInt(0), 0))));
  }

  lemma TwentyPercentReadsAsZero()
    ensures !IsValidPercent("20Percent") && IntOrPercentValue(FromString("20Percent")) == 0
  {
    PercentExamples();
    assert !AllDigits("20Percent") by { assert "20Percent"[2] == 'P'; }
    assert !AllDigits("20Percent"[1..]) by { assert "20Percent"[1..][1] == 'P'; }
  }

  /** "20Percent" is not a percentage, and as a count it reads as 0, so the
      both-zero error follows the format error. */
  lemma MalformedMaxSurgeErrors()
    ensures ValidateRollingUpdateDeployment(RollingUpdateDeployment(FromInt(0), FromString("20Percent"), 0))
      == [InvalidError(StrategyPath(["rollingUpdate", "maxSurge"]), "20Percent", "must be an integer or percentage (e.g '5%')"),
          InvalidError(StrategyPath(["rollingUpdate", "maxUnavailable"]), "0", "may not be 0 when `maxSurge` is 0")]
  {
    TwentyPercentReadsAsZero();
    assert IntToString(0) == "0";
    var r := RollingUpdateDeployment(FromInt(0), FromString("20Percent"), 0);
    var unavailable := StrategyPath(["rollingUpdate", "maxUnavailable"]);
    assert ValidatePositiveIntOrPercent(r.maxUnavailable, unavailable) == [];
    assert IsNotMoreThan100Percent(r.maxUnavailable, unavailable) == [];
  }

  lemma MalformedMaxSurgeCase()
    ensures ValidateDeployment(WithDeploymentStrategy(RollingDeployment(FromInt(0), FromString("20Percent"))))
      == [InvalidError(StrategyPath(["rollingUpdate", "maxSurge"]), "20Percent", "must be an integer or percentage (e.g '5%')"),
          InvalidError(StrategyPath(["rollingUpdate", "maxUnavailable"]), "0", "may not be 0 when `maxSurge` is 0")]
  {
    StrategyCase(RollingDeployment(FromInt(0), FromString("20Percent")));
    MalformedMaxSurgeErrors();
  }

  /** `0%` is a well-formed percentage of 0, so with a count of 0 beside it
      the both-zero error is the only one. */
  lemma BothZeroErrors()
    ensures ValidateRollingUpdateDeployment(RollingUpdateDeployment(FromInt(0), FromString("0%"), 0))
      == [InvalidError(StrategyPath(["rollingUpdate", "maxUnavailable"]), "0", "may not be 0 when `maxSurge` is 0")]
  {
    PercentExamples();
    assert IsValidPercent("0%") by { assert "0%"[..1] == "0"; }
    assert IntToString(0) == "0";
    var r := RollingUpdateDeployment(FromInt(0), FromString("0%"), 0);
    var unavailable := StrategyPath(["rollingUpdate", "maxUnavailable"]);
    assert ValidatePositiveIntOrPercent(r.maxUnavailable, unavailable) == [];
    assert ValidatePositiveIntOrPercent(r.maxSurge, StrategyPath(["rollingUpdate", "maxSurge"])) == [];
    assert IsNotMoreThan100Percent(r.maxUnavailable, unavailable) == [];
  }

  lemma BothZeroCase()
    ensures ValidateDeployment(WithDeploymentStrategy(RollingDeployment(FromInt(0), FromString("0%"))))
      == [InvalidError(StrategyPath(["rollingUpdate", "maxUnavailable"]), "0", "may not be 0 when `maxSurge` is 0")]
  {
    StrategyCase(RollingDeployment(FromInt(0), FromString("0%")));
    BothZeroErrors();
  }

  /** `110%` is well formed but over 100, and the surge count 0 beside a
      non-zero percentage is allowed. */
  lemma Over100Errors()
    ensures ValidateRollingUpdateDeployment(RollingUpdateDeployment(FromString("110%"), FromInt(0), 0))
      == [InvalidError(StrategyPath(["rollingUpdate", "maxUnavailable"]), "110%", "must not be greater than 100%")]
  {
    PercentExamples();
    var r := RollingUpdateDeployment(FromString("110%"), FromInt(0), 0);
    var unavailable := StrategyPath(["rollingUpdate", "maxUnavailable"]);
    assert ValidatePositiveIntOrPercent(r.maxUnavailable, unavailable) == [];
    assert ValidatePositiveIntOrPercent(r.maxSurge, StrategyPath(["rollingUpdate", "maxSurge"])) == [];
  }

  lemma MaxUnavailableOver100Case()
    ensures ValidateDeployment(WithDeploymentStrategy(RollingDeployment(FromString("110%"), FromInt(0))))
      == [InvalidError(StrategyPath(["rollingUpdate", "maxUnavailable"]), "110%", "must not be greater than 100%")]
  {
    StrategyCase(RollingDeployment(FromString("110%"), FromInt(0)));
    Over100Errors();
  }
}
