/** Pod templates as the workload kinds embed them. The pod spec is reduced
    to its restart policy plus one flag that stands for every other pod-spec
    check (containers, volumes, DNS policy, ...), which lives outside this
    model. */
module PodTemplates {
  import opened FieldPaths
  import opened Names
  import opened Meta

  const RestartPolicyAlways := "Always"
  const RestartPolicyOnFailure := "OnFailure"
  const RestartPolicyNever := "Never"

  datatype PodSpec = PodSpec(restartPolicy: string, otherFieldsValid: bool)

  datatype PodTemplateSpec = PodTemplateSpec(
    labels: map<string, string>,
    annotations: map<string, string>,
    spec: PodSpec)

  /** A template with the given labels and restart policy and nothing wrong elsewhere. */
  function SimpleTemplate(labels: map<string, string>, restartPolicy: string): PodTemplateSpec
  {
    PodTemplateSpec(labels, map[], PodSpec(restartPolicy, true))
  }

  predicate IsKnownRestartPolicy(policy: string)
  {
    policy == RestartPolicyAlways || policy == RestartPolicyOnFailure || policy == RestartPolicyNever
  }

  /** Empty is Required; anything outside the three known policies is NotSupported. */
  function ValidateRestartPolicy(policy: string, p: Path): (errs: seq<Error>)
    ensures errs == [] <==> IsKnownRestartPolicy(policy)
    ensures policy == "" ==> errs == [RequiredError(p, "")]
    ensures policy != "" && !IsKnownRestartPolicy(policy) ==> |errs| == 1 && errs[0].kind == NotSupported
    ensures forall e :: e in errs ==> e.field == p
  {
    if IsKnownRestartPolicy(policy) then []
    else if policy == "" then [RequiredError(p, "")]
    else [NotSupportedError(p, policy, [RestartPolicyAlways, RestartPolicyOnFailure, RestartPolicyNever])]
  }

  predicate PodSpecValid(spec: PodSpec)
  {
    spec.otherFieldsValid && IsKnownRestartPolicy(spec.restartPolicy)
  }

  function ValidatePodSpec(spec: PodSpec, p: Path): (errs: seq<Error>)
    ensures errs == [] <==> PodSpecValid(spec)
    ensures forall e :: e in errs ==> HasPrefix(e.field, p)
  {
    ExtendHasPrefix(p, [Child("restartPolicy")]);
    (if spec.otherFieldsValid then [] else [InvalidError(p, "", "pod spec is invalid")])
    + ValidateRestartPolicy(spec.restartPolicy, p + [Child("restartPolicy")])
  }

  ghost predicate PodTemplateValid(t: PodTemplateSpec)
  {
    LabelsValid(t.labels) && AnnotationsValid(t.annotations) && PodSpecValid(t.spec)
  }

  /** The template's labels (reported at `<p>.labels`), annotations and pod spec. */
  ghost function ValidatePodTemplateSpec(t: PodTemplateSpec, p: Path): (errs: seq<Error>)
    ensures errs == [] <==> PodTemplateValid(t)
    ensures forall e :: e in errs ==> HasPrefix(e.field, p) && |e.field| > |p|
  {
    var labelErrs := ValidateLabels(t.labels, p + [Child("labels")]);
    var annotationErrs := ValidateAnnotations(t.annotations, p + [Child("annotations")]);
    var specErrs := ValidatePodSpec(t.spec, p + [Child("spec")]);
    ExtendHasPrefix(p, [Child("labels")]);
    ExtendHasPrefix(p, [Child("annotations")]);
    PrefixTransitive(p, [Child("spec")]);
    assert forall e :: e in labelErrs + annotationErrs + specErrs ==>
      e in labelErrs || e in annotationErrs || e in specErrs;
    labelErrs + annotationErrs + specErrs
  }
}
