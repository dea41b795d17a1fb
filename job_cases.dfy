/** The Job create table, stated over the model. */
module JobCases {
  import opened FieldPaths
  import opened Names
  import opened Meta
  import opened PodTemplates
  import opened Jobs

  const JobSelector := Some(LabelSelector(map["a" := "b"]))
  const JobTemplate := SimpleTemplate(map["a" := "b"], RestartPolicyOnFailure)

  function MyJob(parallelism: Option<int>, completions: Option<int>, deadline: Option<int>,
                 selector: Option<LabelSelector>, template: PodTemplateSpec): Job
  {
    Job(NamedMeta("myjob", NamespaceDefault), JobSpec(parallelism, completions, deadline, selector, template))
  }

  lemma MyJobMeta()
    ensures MetaValid(NamedMeta("myjob", NamespaceDefault), DNSSubdomainName)
  {
    ScannedNameShapes("myjob");
    AcceptedLabel();
    NamedMetaValid("myjob", NamespaceDefault);
  }

  lemma SingleLabelValid(k: string, v: string)
    requires IsQualifiedName(k) && IsValidLabelValue(v)
    ensures LabelsValid(map[k := v])
    ensures PodTemplateValid(SimpleTemplate(map[k := v], RestartPolicyOnFailure))
    ensures PodTemplateValid(SimpleTemplate(map[k := v], RestartPolicyAlways))
  {
    assert AnnotationsValid(map[]);
  }

  lemma MyJobParts()
    ensures MetaValid(NamedMeta("myjob", NamespaceDefault), DNSSubdomainName)
    ensures LabelsValid(map["a" := "b"])
    ensures PodTemplateValid(JobTemplate)
    ensures PodTemplateValid(SimpleTemplate(map["y" := "z"], RestartPolicyOnFailure))
    ensures PodTemplateValid(SimpleTemplate(map["a" := "b"], RestartPolicyAlways))
  {
    MyJobMeta();
    AcceptedQualifiedNames();
    ScannedNameShapes("b");
    ScannedNameShapes("y");
    ScannedNameShapes("z");
    SingleLabelValid("a", "b");
    SingleLabelValid("y", "z");
  }

  lemma JobSuccessCase()
    ensures ValidateJob(MyJob(None, None, None, JobSelector, JobTemplate)) == []
  {
    MyJobParts();
  }

  /** Each negative count is the first error, at exactly its own field. */
  lemma NegativeCountCases()
    ensures var errs := ValidateJob(MyJob(Some(-1), None, None, JobSelector, JobTemplate));
      |errs| >= 1 && errs[0].field == Fields(["spec", "parallelism"]) && errs[0].detail == "must be greater than or equal to 0"
    ensures var errs := ValidateJob(MyJob(None, Some(-1), None, JobSelector, JobTemplate));
      |errs| >= 1 && errs[0].field == Fields(["spec", "completions"]) && errs[0].detail == "must be greater than or equal to 0"
    ensures var errs := ValidateJob(MyJob(None, None, Some(-1), JobSelector, JobTemplate));
      |errs| >= 1 && errs[0].field == Fields(["spec", "activeDeadlineSeconds"]) && errs[0].detail == "must be greater than or equal to 0"
  {
    MyJobMeta();
    NegativeCountFirst(MyJob(Some(-1), None, None, JobSelector, JobTemplate));
    NegativeCountFirst(MyJob(None, Some(-1), None, JobSelector, JobTemplate));
    NegativeCountFirst(MyJob(None, None, Some(-1), JobSelector, JobTemplate));
  }

  lemma MissingSelectorCase()
    ensures var errs := ValidateJob(MyJob(None, None, None, None, JobTemplate));
      |errs| >= 1 && errs[0] == RequiredError(Fields(["spec", "selector"]), "")
  {
    MyJobParts();
    SelectorAndTemplateErrorsOnly(MyJob(None, None, None, None, JobTemplate));
  }

  lemma JobSelectorMismatchCase()
    ensures var errs := ValidateJob(MyJob(None, None, None, JobSelector, SimpleTemplate(map["y" := "z"], RestartPolicyOnFailure)));
      |errs| >= 1 && errs[0] == InvalidError(Fields(["spec", "template", "metadata", "labels"]), "", "`selector` does not match template `labels`")
  {
    MyJobParts();
    var job := MyJob(None, None, None, JobSelector, SimpleTemplate(map["y" := "z"], RestartPolicyOnFailure));
    SelectorAndTemplateErrorsOnly(job);
    assert ValidateLabelSelector(JobSelector, Fields(["spec", "selector"])) == [];
    assert !SelectorMatches(JobSelector, job.spec.template.labels) by { assert "a" !in job.spec.template.labels; }
  }

  lemma JobRestartPolicyCase()
    ensures var errs := ValidateJob(MyJob(None, None, None, JobSelector, SimpleTemplate(map["a" := "b"], RestartPolicyAlways)));
      errs == [NotSupportedError(Fields(["spec", "template", "spec", "restartPolicy"]), RestartPolicyAlways,
                 [RestartPolicyOnFailure, RestartPolicyNever])]
  {
    MyJobParts();
    var job := MyJob(None, None, None, JobSelector, SimpleTemplate(map["a" := "b"], RestartPolicyAlways));
    SelectorAndTemplateErrorsOnly(job);
    assert ValidateLabelSelector(JobSelector, Fields(["spec", "selector"])) == [];
    assert ValidatePodTemplateSpec(job.spec.template, Fields(["spec", "template"])) == [];
  }
}
