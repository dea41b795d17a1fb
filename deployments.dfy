/** Deployment: a replicated pod template selected by a plain label map,
    replaced either all at once (Recreate) or by a rolling update. */
module Deployments {
  import opened FieldPaths
  import opened Names
  import opened IntOrPercent
  import opened Meta
  import opened PodTemplates

  const RecreateStrategyType := "Recreate"
  const RollingUpdateStrategyType := "RollingUpdate"

  datatype RollingUpdateDeployment = RollingUpdateDeployment(maxUnavailable: IntOrString, maxSurge: IntOrString, minReadySeconds: int)

  datatype DeploymentStrategy = DeploymentStrategy(strategyType: string, rollingUpdate: Option<RollingUpdateDeployment>)

  datatype DeploymentSpec = DeploymentSpec(
    replicas: int,
    selector: map<string, string>,
    template: PodTemplateSpec,
    strategy: DeploymentStrategy,
    uniqueLabelKey: string)

  datatype Deployment = Deployment(meta: ObjectMeta, spec: DeploymentSpec)

  function StrategyPath(fields: seq<string>): Path
  {
    Fields(["spec", "strategy"] + fields)
  }

  // ---- strategy --------------------------------------------------------

  /** An int-or-percent is well formed: a non-negative count or a percentage. */
  predicate WellFormedAmount(v: IntOrString)
  {
    match v case FromInt(n) => n >= 0 case FromString(s) => IsValidPercent(s)
  }

  /** Both amounts well formed, not both zero, maxUnavailable at most 100%,
      and minReadySeconds not negative. */
  predicate RollingUpdateDeploymentValid(r: RollingUpdateDeployment)
  {
    && WellFormedAmount(r.maxUnavailable)
    && WellFormedAmount(r.maxSurge)
    && (IntOrPercentValue(r.maxUnavailable) != 0 || IntOrPercentValue(r.maxSurge) != 0)
    && (PercentValue(r.maxUnavailable).Some? ==> PercentValue(r.maxUnavailable).value <= 100)
    && r.minReadySeconds >= 0
  }

  function ValidateRollingUpdateDeployment(r: RollingUpdateDeployment): (errs: seq<Error>)
    ensures errs == [] <==> RollingUpdateDeploymentValid(r)
    ensures forall e :: e in errs ==> HasPrefix(e.field, StrategyPath(["rollingUpdate"]))
  {
    var unavailable := StrategyPath(["rollingUpdate", "maxUnavailable"]);
    var surge := StrategyPath(["rollingUpdate", "maxSurge"]);
    var minReady := StrategyPath(["rollingUpdate", "minReadySeconds"]);
    assert unavailable == StrategyPath(["rollingUpdate"]) + [Child("maxUnavailable")];
    assert surge == StrategyPath(["rollingUpdate"]) + [Child("maxSurge")];
    assert minReady == StrategyPath(["rollingUpdate"]) + [Child("minReadySeconds")];
    ExtendHasPrefix(StrategyPath(["rollingUpdate"]), [Child("maxUnavailable")]);
    ExtendHasPrefix(StrategyPath(["rollingUpdate"]), [Child("maxSurge")]);
    ExtendHasPrefix(StrategyPath(["rollingUpdate"]), [Child("minReadySeconds")]);
    ValidatePositiveIntOrPercent(r.maxUnavailable, unavailable)
    + ValidatePositiveIntOrPercent(r.maxSurge, surge)
    + (if IntOrPercentValue(r.maxUnavailable) == 0 && IntOrPercentValue(r.maxSurge) == 0
       then [InvalidError(unavailable, ValueText(r.maxUnavailable), "may not be 0 when `maxSurge` is 0")]
       else [])
    + IsNotMoreThan100Percent(r.maxUnavailable, unavailable)
    + ValidateNonnegativeField(r.minReadySeconds, minReady)
  }

  /** Without rolling-update parameters any strategy passes; with them, a
      Recreate strategy is refused and a RollingUpdate strategy checks them. */
  predicate StrategyValid(s: DeploymentStrategy)
  {
    s.rollingUpdate.Some? ==>
      s.strategyType != RecreateStrategyType
      && (s.strategyType == RollingUpdateStrategyType ==> RollingUpdateDeploymentValid(s.rollingUpdate.value))
  }

  function ValidateDeploymentStrategy(s: DeploymentStrategy): (errs: seq<Error>)
    ensures errs == [] <==> StrategyValid(s)
    ensures forall e :: e in errs ==> HasPrefix(e.field, StrategyPath(["rollingUpdate"]))
  {
    match s.rollingUpdate
    case None => []
    case Some(r) =>
      if s.strategyType == RecreateStrategyType then
        ExtendHasPrefix(StrategyPath(["rollingUpdate"]), []);
        assert StrategyPath(["rollingUpdate"]) + [] == StrategyPath(["rollingUpdate"]);
        [ForbiddenError(StrategyPath(["rollingUpdate"]), "may not be specified when strategy `type` is 'Recreate'")]
      else if s.strategyType == RollingUpdateStrategyType then ValidateRollingUpdateDeployment(r)
      else []
  }

  // ---- spec ------------------------------------------------------------

  /** What a Deployment spec must satisfy. The selector must be non-empty and
      its pairs must all appear among the template labels. */
  ghost predicate DeploymentSpecValid(spec: DeploymentSpec)
  {
    && |spec.selector| > 0
    && spec.replicas >= 0
    && MatchesAll(spec.selector, spec.template.labels)
    && PodTemplateValid(spec.template)
    && spec.template.spec.restartPolicy == RestartPolicyAlways
    && StrategyValid(spec.strategy)
    && (spec.uniqueLabelKey != "" ==> IsQualifiedName(spec.uniqueLabelKey))
  }

  /** The template checks shared with replication controllers: selector
      match (skipped for an empty selector), the template itself, and the
      Always restart policy. */
  ghost function ValidateTemplateForReplicas(selector: map<string, string>, template: PodTemplateSpec): (errs: seq<Error>)
    ensures errs == [] <==>
      (|selector| > 0 ==> MatchesAll(selector, template.labels))
      && PodTemplateValid(template)
      && template.spec.restartPolicy == RestartPolicyAlways
  {
    (if |selector| > 0 && !MatchesAll(selector, template.labels)
     then [InvalidError(Fields(["spec", "template", "metadata", "labels"]), "", "`selector` does not match template `labels`")]
     else [])
    + ValidatePodTemplateSpec(template, Fields(["spec", "template"]))
    + (if template.spec.restartPolicy == RestartPolicyAlways then []
       else [NotSupportedError(Fields(["spec", "template", "spec", "restartPolicy"]), template.spec.restartPolicy, [RestartPolicyAlways])])
  }

  ghost function ValidateDeploymentSpec(spec: DeploymentSpec): (errs: seq<Error>)
    ensures errs == [] <==> DeploymentSpecValid(spec)
  {
    (if |spec.selector| == 0 then [RequiredError(Fields(["spec", "selector"]), "")] else [])
    + ValidateNonnegativeField(spec.replicas, Fields(["spec", "replicas"]))
    + ValidateTemplateForReplicas(spec.selector, spec.template)
    + ValidateDeploymentStrategy(spec.strategy)
    + (if spec.uniqueLabelKey != "" && !IsQualifiedName(spec.uniqueLabelKey)
       then [InvalidError(Fields(["spec", "uniqueLabel"]), spec.uniqueLabelKey, QualifiedNameErrorMsg)]
       else [])
  }

  ghost function ValidateDeployment(d: Deployment): (errs: seq<Error>)
    ensures errs == [] <==> MetaValid(d.meta, DNSSubdomainName) && DeploymentSpecValid(d.spec)
  {
    ValidateObjectMeta(d.meta, DNSSubdomainName) + ValidateDeploymentSpec(d.spec)
  }

  /** With valid metadata, selector, replicas and template, the strategy
      errors come first, followed only by the unique-label error. */
  lemma StrategyErrorsFirst(d: Deployment)
    requires MetaValid(d.meta, DNSSubdomainName)
    requires |d.spec.selector| > 0 && d.spec.replicas >= 0
    requires MatchesAll(d.spec.selector, d.spec.template.labels) && PodTemplateValid(d.spec.template)
    requires d.spec.template.spec.restartPolicy == RestartPolicyAlways
    ensures ValidateDeployment(d) == ValidateDeploymentStrategy(d.spec.strategy)
      + (if d.spec.uniqueLabelKey != "" && !IsQualifiedName(d.spec.uniqueLabelKey)
         then [InvalidError(Fields(["spec", "uniqueLabel"]), d.spec.uniqueLabelKey, QualifiedNameErrorMsg)]
         else [])
  {
    assert ValidateObjectMeta(d.meta, DNSSubdomainName) == [];
    SpecStrategyErrorsFirst(d.spec);
  }

  /** With valid metadata, selector, replicas and pod template, a restart
      policy other than Always is the first error. */
  lemma RestartPolicyErrorFirst(d: Deployment)
    requires MetaValid(d.meta, DNSSubdomainName)
    requires |d.spec.selector| > 0 && d.spec.replicas >= 0
    requires MatchesAll(d.spec.selector, d.spec.template.labels) && PodTemplateValid(d.spec.template)
    requires d.spec.template.spec.restartPolicy != RestartPolicyAlways
    ensures var errs := ValidateDeployment(d);
      |errs| >= 1 && errs[0] == NotSupportedError(Fields(["spec", "template", "spec", "restartPolicy"]),
        d.spec.template.spec.restartPolicy, [RestartPolicyAlways])
  {
    assert ValidateObjectMeta(d.meta, DNSSubdomainName) == [];
    assert ValidateNonnegativeField(d.spec.replicas, Fields(["spec", "replicas"])) == [];
    assert ValidatePodTemplateSpec(d.spec.template, Fields(["spec", "template"])) == [];
  }

  /** The spec-level half of StrategyErrorsFirst. */
  lemma SpecStrategyErrorsFirst(spec: DeploymentSpec)
    requires |spec.selector| > 0 && spec.replicas >= 0
    requires MatchesAll(spec.selector, spec.template.labels) && PodTemplateValid(spec.template)
    requires spec.template.spec.restartPolicy == RestartPolicyAlways
    ensures ValidateDeploymentSpec(spec) == ValidateDeploymentStrategy(spec.strategy)
      + (if spec.uniqueLabelKey != "" && !IsQualifiedName(spec.uniqueLabelKey)
         then [InvalidError(Fields(["spec", "uniqueLabel"]), spec.uniqueLabelKey, QualifiedNameErrorMsg)]
         else [])
  {
    assert ValidateNonnegativeField(spec.replicas, Fields(["spec", "replicas"])) == [];
    assert ValidateTemplateForReplicas(spec.selector, spec.template) == [];
  }

}
