/** Job: pods run to completion, selected by a label selector. */
module Jobs {
  import opened FieldPaths
  import opened Names
  import opened IntOrPercent
  import opened Meta
  import opened PodTemplates

  datatype JobSpec = JobSpec(
    parallelism: Option<int>,
    completions: Option<int>,
    activeDeadlineSeconds: Option<int>,
    selector: Option<LabelSelector>,
    template: PodTemplateSpec)

  datatype Job = Job(meta: ObjectMeta, spec: JobSpec)

  /** An optional count, checked only when present. */
  function ValidateOptionalNonnegative(value: Option<int>, p: Path): (errs: seq<Error>)
    ensures errs == [] <==> OptionalNonnegative(value)
    ensures forall e :: e in errs ==> e.field == p && e.detail == "must be greater than or equal to 0"
  {
    match value case None => [] case Some(n) => ValidateNonnegativeField(n, p)
  }

  predicate OptionalNonnegative(value: Option<int>)
  {
    value.Some? ==> value.value >= 0
  }

  /** A job's pods are meant to finish: only OnFailure and Never are allowed. */
  predicate JobRestartPolicy(policy: string)
  {
    policy == RestartPolicyOnFailure || policy == RestartPolicyNever
  }

  ghost predicate JobSpecValid(spec: JobSpec)
  {
    && OptionalNonnegative(spec.parallelism)
    && OptionalNonnegative(spec.completions)
    && OptionalNonnegative(spec.activeDeadlineSeconds)
    && spec.selector.Some? && LabelsValid(spec.selector.value.matchLabels)
    && SelectorMatches(spec.selector, spec.template.labels)
    && PodTemplateValid(spec.template)
    && JobRestartPolicy(spec.template.spec.restartPolicy)
  }

  /** The three counts, in field order. */
  function CountErrors(spec: JobSpec): (errs: seq<Error>)
    ensures errs == [] <==>
      OptionalNonnegative(spec.parallelism) && OptionalNonnegative(spec.completions) && OptionalNonnegative(spec.activeDeadlineSeconds)
    ensures forall e :: e in errs ==> e.field in {Fields(["spec", "parallelism"]), Fields(["spec", "completions"]), Fields(["spec", "activeDeadlineSeconds"])}
  {
    ValidateOptionalNonnegative(spec.parallelism, Fields(["spec", "parallelism"]))
    + ValidateOptionalNonnegative(spec.completions, Fields(["spec", "completions"]))
    + ValidateOptionalNonnegative(spec.activeDeadlineSeconds, Fields(["spec", "activeDeadlineSeconds"]))
  }

  /** The selector (required), its match against the template labels (a
      missing selector matches nothing), the template, and the restart policy. */
  ghost function SelectorAndTemplateErrors(spec: JobSpec): (errs: seq<Error>)
    ensures errs == [] <==>
      && spec.selector.Some? && LabelsValid(spec.selector.value.matchLabels)
      && SelectorMatches(spec.selector, spec.template.labels)
      && PodTemplateValid(spec.template)
      && JobRestartPolicy(spec.template.spec.restartPolicy)
  {
    (if spec.selector.None? then [RequiredError(Fields(["spec", "selector"]), "")]
     else ValidateLabelSelector(spec.selector, Fields(["spec", "selector"])))
    + (if SelectorMatches(spec.selector, spec.template.labels) then []
       else [InvalidError(Fields(["spec", "template", "metadata", "labels"]), "", "`selector` does not match template `labels`")])
    + ValidatePodTemplateSpec(spec.template, Fields(["spec", "template"]))
    + (if JobRestartPolicy(spec.template.spec.restartPolicy) then []
       else [NotSupportedError(Fields(["spec", "template", "spec", "restartPolicy"]), spec.template.spec.restartPolicy,
               [RestartPolicyOnFailure, RestartPolicyNever])])
  }

  ghost function ValidateJobSpec(spec: JobSpec): (errs: seq<Error>)
    ensures errs == [] <==> JobSpecValid(spec)
  {
    CountErrors(spec) + SelectorAndTemplateErrors(spec)
  }

  ghost function ValidateJob(job: Job): (errs: seq<Error>)
    ensures errs == [] <==> MetaValid(job.meta, DNSSubdomainName) && JobSpecValid(job.spec)
  {
    ValidateObjectMeta(job.meta, DNSSubdomainName) + ValidateJobSpec(job.spec)
  }

  /** The field of the first negative count, in field order. */
  function FirstNegativeCount(spec: JobSpec): Path
  {
    if !OptionalNonnegative(spec.parallelism) then Fields(["spec", "parallelism"])
    else if !OptionalNonnegative(spec.completions) then Fields(["spec", "completions"])
    else Fields(["spec", "activeDeadlineSeconds"])
  }

  /** Among the counts, the first negative one is reported first. */
  lemma {:induction false} NegativeCountErrorFirst(spec: JobSpec)
    requires !OptionalNonnegative(spec.parallelism) || !OptionalNonnegative(spec.completions)
      || !OptionalNonnegative(spec.activeDeadlineSeconds)
    ensures var errs := CountErrors(spec);
      |errs| >= 1 && errs[0].detail == "must be greater than or equal to 0" && errs[0].field == FirstNegativeCount(spec)
  {
    var e1 := ValidateOptionalNonnegative(spec.parallelism, Fields(["spec", "parallelism"]));
    var e2 := ValidateOptionalNonnegative(spec.completions, Fields(["spec", "completions"]));
    var e3 := ValidateOptionalNonnegative(spec.activeDeadlineSeconds, Fields(["spec", "activeDeadlineSeconds"]));
    assert CountErrors(spec) == e1 + e2 + e3;
    if e1 != [] {
      assert e1[0] in e1;
    } else if e2 != [] {
      assert e2[0] in e2;
    } else {
      assert e3[0] in e3;
    }
  }

  /** With valid metadata, a negative count is the first error, reported at
      that count's field. The counts come before the selector and template. */
  lemma NegativeCountFirst(job: Job)
    requires MetaValid(job.meta, DNSSubdomainName)
    requires !OptionalNonnegative(job.spec.parallelism) || !OptionalNonnegative(job.spec.completions)
      || !OptionalNonnegative(job.spec.activeDeadlineSeconds)
    ensures var errs := ValidateJob(job);
      |errs| >= 1 && errs[0].detail == "must be greater than or equal to 0"
      && errs[0].field == FirstNegativeCount(job.spec)
  {
    assert ValidateObjectMeta(job.meta, DNSSubdomainName) == [];
    NegativeCountErrorFirst(job.spec);
    assert ValidateJob(job) == CountErrors(job.spec) + SelectorAndTemplateErrors(job.spec);
  }

  /** With valid metadata and counts, the selector and template errors are
      all there is. */
  lemma SelectorAndTemplateErrorsOnly(job: Job)
    requires MetaValid(job.meta, DNSSubdomainName)
    requires OptionalNonnegative(job.spec.parallelism) && OptionalNonnegative(job.spec.completions)
      && OptionalNonnegative(job.spec.activeDeadlineSeconds)
    ensures ValidateJob(job) == SelectorAndTemplateErrors(job.spec)
  {
    assert ValidateObjectMeta(job.meta, DNSSubdomainName) == [];
    assert CountErrors(job.spec) == [];
  }
}
