/** The DaemonSet create, update and status-update tables, stated over the model. */
module DaemonSetCases {
  import opened FieldPaths
  import opened Names
  import opened IntOrPercent
  import opened Meta
  import opened PodTemplates
  import opened DaemonSets

  const SelectorAB := map["a" := "b"]
  const SelectorCD := map["c" := "d"]
  const BadKey := "NoUppercaseOrSpecialCharsLike=Equals"

  const ValidStrategy := DaemonSetUpdateStrategy(RollingUpdateStrategyType, Some(RollingUpdateDaemonSet(FromInt(1), 0)))
  /** The zero value of the strategy, which the error cases leave in place. */
  const NoStrategy := DaemonSetUpdateStrategy("", None)
  const ValidTemplate := SimpleTemplate(SelectorAB, RestartPolicyAlways)
  /** Labels with a bad key and a pod spec without containers. */
  const InvalidTemplate := PodTemplateSpec(map[BadKey := "b"], map[], PodSpec(RestartPolicyAlways, false))

  function Daemon(meta: ObjectMeta, selector: Option<LabelSelector>, template: Option<PodTemplateSpec>, strategy: DaemonSetUpdateStrategy): DaemonSet
  {
    DaemonSet(meta, DaemonSetSpec(selector, template, strategy), DaemonSetStatus(0, 0, 0))
  }

  function Named(name: string): ObjectMeta
  {
    NamedMeta(name, NamespaceDefault)
  }

  /** What the create table checks of every error case: at least one error,
      and every error at an allowed field. */
  ghost predicate RejectedAtAllowedFields(ds: DaemonSet)
  {
    ValidateDaemonSet(ds) != [] && forall e :: e in ValidateDaemonSet(ds) ==> AllowedDaemonSetField(e.field)
  }

  lemma SimpleLabelsValid()
    ensures LabelsValid(SelectorAB) && LabelsValid(SelectorCD)
  {
    ScannedNameShapes("a");
    ScannedNameShapes("b");
    ScannedNameShapes("c");
    ScannedNameShapes("d");
  }

  lemma ValidTemplateValid()
    ensures PodTemplateValid(ValidTemplate)
    ensures UpdateStrategyValid(ValidStrategy)
  {
    SimpleLabelsValid();
  }

  lemma DaemonSetSuccessCases()
    ensures ValidateDaemonSet(Daemon(Named("abc"), Some(LabelSelector(SelectorAB)), Some(ValidTemplate), ValidStrategy)) == []
    ensures ValidateDaemonSet(Daemon(Named("abc-123"), Some(LabelSelector(SelectorAB)), Some(ValidTemplate), ValidStrategy)) == []
  {
    AcceptedSubdomains();
    ValidDaemonAccepted("abc");
    ValidDaemonAccepted("abc-123");
  }

  /** Under any subdomain name, the valid selector, template and strategy are accepted. */
  lemma ValidDaemonAccepted(name: string)
    requires IsDNS1123Subdomain(name)
    ensures ValidateDaemonSet(Daemon(Named(name), Some(LabelSelector(SelectorAB)), Some(ValidTemplate), ValidStrategy)) == []
  {
    ValidTemplateValid();
    AcceptedLabel();
    NamedMetaValid(name, NamespaceDefault);
  }

  lemma ZeroLengthNameCase()
    ensures RejectedAtAllowedFields(Daemon(Named(""), Some(LabelSelector(SelectorAB)), Some(ValidTemplate), NoStrategy))
  {
    SimpleLabelsValid();
    DaemonSetErrorFields(Daemon(Named(""), Some(LabelSelector(SelectorAB)), Some(ValidTemplate), NoStrategy));
  }

  lemma MissingNamespaceCase()
    ensures RejectedAtAllowedFields(Daemon(NamedMeta("abc-123", ""), Some(LabelSelector(SelectorAB)), Some(ValidTemplate), NoStrategy))
  {
    SimpleLabelsValid();
    DaemonSetErrorFields(Daemon(NamedMeta("abc-123", ""), Some(LabelSelector(SelectorAB)), Some(ValidTemplate), NoStrategy));
  }

  /** A missing selector selects nothing, so the template labels do not match it. */
  lemma EmptySelectorCase()
    ensures RejectedAtAllowedFields(Daemon(Named("abc"), None, Some(ValidTemplate), NoStrategy))
  {
    DaemonSetErrorFields(Daemon(Named("abc"), None, Some(ValidTemplate), NoStrategy));
  }

  lemma SelectorMismatchCase()
    ensures RejectedAtAllowedFields(Daemon(Named("abc"), Some(LabelSelector(map["foo" := "bar"])), Some(ValidTemplate), NoStrategy))
  {
    assert LabelsValid(map["foo" := "bar"]) by { assert IsQualifiedName("foo"); }
    DaemonSetErrorFields(Daemon(Named("abc"), Some(LabelSelector(map["foo" := "bar"])), Some(ValidTemplate), NoStrategy));
  }

  lemma MissingTemplateCase()
    ensures RejectedAtAllowedFields(Daemon(Named("abc"), Some(LabelSelector(SelectorAB)), None, NoStrategy))
  {
    SimpleLabelsValid();
    DaemonSetErrorFields(Daemon(Named("abc"), Some(LabelSelector(SelectorAB)), None, NoStrategy));
  }

  const BadLabels := ObjectMeta("abc-123", NamespaceDefault, "", "", map[BadKey := "bar"], map[])
  const BadAnnotations := ObjectMeta("abc-123", NamespaceDefault, "", "", map[], map[BadKey := "bar"])

  lemma InvalidLabelCase()
    ensures RejectedAtAllowedFields(Daemon(BadLabels, Some(LabelSelector(SelectorAB)), Some(ValidTemplate), NoStrategy))
  {
    SimpleLabelsValid();
    EqualsSignExamples();
    assert !LabelsValid(BadLabels.labels);
    DaemonSetErrorFields(Daemon(BadLabels, Some(LabelSelector(SelectorAB)), Some(ValidTemplate), NoStrategy));
  }

  lemma InvalidLabelAndTemplateCase()
    ensures RejectedAtAllowedFields(Daemon(BadLabels, None, Some(InvalidTemplate), NoStrategy))
  {
    EqualsSignExamples();
    assert !LabelsValid(BadLabels.labels);
    DaemonSetErrorFields(Daemon(BadLabels, None, Some(InvalidTemplate), NoStrategy));
  }

  lemma BadAnnotationsInvalid()
    ensures !AnnotationsValid(map[BadKey := "bar"])
  {
    NotQualifiedLower(BadKey, 29);
  }

  lemma InvalidAnnotationCase()
    ensures RejectedAtAllowedFields(Daemon(BadAnnotations, Some(LabelSelector(SelectorAB)), Some(ValidTemplate), NoStrategy))
  {
    SimpleLabelsValid();
    BadAnnotationsInvalid();
    DaemonSetErrorFields(Daemon(BadAnnotations, Some(LabelSelector(SelectorAB)), Some(ValidTemplate), NoStrategy));
  }

  /** Restart policies other than Always. */
  lemma DaemonSetRestartPolicyCases()
    ensures RejectedAtAllowedFields(Daemon(Named("abc-123"), Some(LabelSelector(SelectorAB)),
      Some(SimpleTemplate(SelectorAB, RestartPolicyOnFailure)), NoStrategy))
    ensures RejectedAtAllowedFields(Daemon(Named("abc-123"), Some(LabelSelector(SelectorAB)),
      Some(SimpleTemplate(SelectorAB, RestartPolicyNever)), NoStrategy))
  {
    SimpleLabelsValid();
    DaemonSetErrorFields(Daemon(Named("abc-123"), Some(LabelSelector(SelectorAB)),
      Some(SimpleTemplate(SelectorAB, RestartPolicyOnFailure)), NoStrategy));
    DaemonSetErrorFields(Daemon(Named("abc-123"), Some(LabelSelector(SelectorAB)),
      Some(SimpleTemplate(SelectorAB, RestartPolicyNever)), NoStrategy));
  }

  function WithStrategy(strategy: DaemonSetUpdateStrategy): DaemonSet
  {
    Daemon(Named("abc-123"), Some(LabelSelector(SelectorAB)), Some(ValidTemplate), strategy)
  }

  function Rolling(maxUnavailable: IntOrString, minReadySeconds: int): DaemonSetUpdateStrategy
  {
    DaemonSetUpdateStrategy(RollingUpdateStrategyType, Some(RollingUpdateDaemonSet(maxUnavailable, minReadySeconds)))
  }

  /** The update-strategy cases: wrong type, missing parameters, and bad
      maxUnavailable or minReadySeconds. */
  lemma DaemonSetStrategyCases()
    ensures RejectedAtAllowedFields(WithStrategy(DaemonSetUpdateStrategy("", Some(RollingUpdateDaemonSet(FromInt(1), 0)))))
    ensures RejectedAtAllowedFields(WithStrategy(DaemonSetUpdateStrategy(RollingUpdateStrategyType, None)))
    ensures RejectedAtAllowedFields(WithStrategy(Rolling(FromInt(0), 1)))
    ensures RejectedAtAllowedFields(WithStrategy(Rolling(FromString("150%"), 1)))
    ensures RejectedAtAllowedFields(WithStrategy(Rolling(FromInt(-1), 0)))
    ensures RejectedAtAllowedFields(WithStrategy(Rolling(FromInt(-1), -1)))
  {
    SimpleLabelsValid();
    PercentExamples();
    DaemonSetErrorFields(WithStrategy(DaemonSetUpdateStrategy("", Some(RollingUpdateDaemonSet(FromInt(1), 0)))));
    DaemonSetErrorFields(WithStrategy(DaemonSetUpdateStrategy(RollingUpdateStrategyType, None)));
    DaemonSetErrorFields(WithStrategy(Rolling(FromInt(0), 1)));
    DaemonSetErrorFields(WithStrategy(Rolling(FromString("150%"), 1)));
    DaemonSetErrorFields(WithStrategy(Rolling(FromInt(-1), 0)));
    DaemonSetErrorFields(WithStrategy(Rolling(FromInt(-1), -1)));
  }

  // ---- updates --------------------------------------------------------

  function Versioned(name: string, resourceVersion: string): ObjectMeta
  {
    ObjectMeta(name, NamespaceDefault, "", resourceVersion, map[], map[])
  }

  function Spec(selector: map<string, string>, template: PodTemplateSpec, strategy: DaemonSetUpdateStrategy): DaemonSetSpec
  {
    DaemonSetSpec(Some(LabelSelector(selector)), Some(template), strategy)
  }

  const NoStatus := DaemonSetStatus(0, 0, 0)

  /** Unchanged, selector and template labels changed together ({a:b} to
      {c:d}), and a node selector added (the node selector is part of the pod
      spec, which the model does not look into, so that case coincides with
      the unchanged one). */
  lemma DaemonSetUpdateSuccessCases()
    ensures ValidateDaemonSetUpdate(
      DaemonSet(Versioned("abc", "1"), Spec(SelectorAB, ValidTemplate, ValidStrategy), NoStatus),
      DaemonSet(Versioned("abc", "1"), Spec(SelectorAB, ValidTemplate, ValidStrategy), NoStatus)) == []
    ensures ValidateDaemonSetUpdate(
      DaemonSet(Versioned("abc", "1"), Spec(SelectorCD, SimpleTemplate(SelectorCD, RestartPolicyAlways), ValidStrategy), NoStatus),
      DaemonSet(Versioned("abc", "1"), Spec(SelectorAB, ValidTemplate, ValidStrategy), NoStatus)) == []
  {
    ValidSpecs();
    SameVersionUpdate(Spec(SelectorAB, ValidTemplate, ValidStrategy), Spec(SelectorAB, ValidTemplate, ValidStrategy));
    SameVersionUpdate(Spec(SelectorCD, SimpleTemplate(SelectorCD, RestartPolicyAlways), ValidStrategy),
      Spec(SelectorAB, ValidTemplate, ValidStrategy));
  }

  /** The original spec and the one with selector and labels changed to {c:d}. */
  lemma ValidSpecs()
    ensures DaemonSetSpecValid(Spec(SelectorAB, ValidTemplate, ValidStrategy))
    ensures DaemonSetSpecValid(Spec(SelectorCD, SimpleTemplate(SelectorCD, RestartPolicyAlways), ValidStrategy))
  {
    ValidTemplateValid();
    assert PodTemplateValid(SimpleTemplate(SelectorCD, RestartPolicyAlways));
  }

  /** Between two objects with the same name and resource version, a valid
      new spec is accepted whatever the old spec was. */
  lemma SameVersionUpdate(newSpec: DaemonSetSpec, oldSpec: DaemonSetSpec)
    requires DaemonSetSpecValid(newSpec)
    ensures ValidateDaemonSetUpdate(DaemonSet(Versioned("abc", "1"), newSpec, NoStatus), DaemonSet(Versioned("abc", "1"), oldSpec, NoStatus)) == []
  {
    assert LabelsValid(map[]) && AnnotationsValid(map[]);
  }

  /** As the update error table is written, the old object has an empty name
      and neither object has a resource version, so every one of its cases is
      refused for its metadata whatever the specs say. */
  lemma DaemonSetUpdateErrorCasesAsWritten(newSpec: DaemonSetSpec, oldSpec: DaemonSetSpec)
    ensures var errs := ValidateDaemonSetUpdate(DaemonSet(Named("abc"), newSpec, NoStatus), DaemonSet(Named(""), oldSpec, NoStatus));
      |errs| >= 2
      && errs[0] == InvalidError(MetaPath("resourceVersion"), "", "must be specified for an update")
      && errs[1] == InvalidError(MetaPath("name"), "abc", "field is immutable")
  {
    MissingResourceVersionFirst(Named("abc"), Named(""));
    var metaErrs := ValidateObjectMetaUpdate(Named("abc"), Named(""));
    assert ValidateDaemonSetUpdate(DaemonSet(Named("abc"), newSpec, NoStatus), DaemonSet(Named(""), oldSpec, NoStatus))
      == metaErrs + ValidateDaemonSetSpec(newSpec);
  }

  /** With the metadata put right (same name, resource version "1"), the
      invalid-selector, invalid-pod, changed-image and invalid-strategy cases
      are still refused by the spec checks. The changed-image case is refused
      only because its template labels {c:d} miss the selector {a:b}. */
  lemma DaemonSetUpdateErrorCasesCorrected()
    ensures ValidateDaemonSetUpdate(
      DaemonSet(Versioned("abc", "1"), Spec(map[BadKey := "b"], ValidTemplate, ValidStrategy), NoStatus),
      DaemonSet(Versioned("abc", "1"), Spec(SelectorAB, ValidTemplate, ValidStrategy), NoStatus)) != []
    ensures ValidateDaemonSetUpdate(
      DaemonSet(Versioned("abc", "1"), Spec(SelectorAB, InvalidTemplate, ValidStrategy), NoStatus),
      DaemonSet(Versioned("abc", "1"), Spec(SelectorAB, ValidTemplate, ValidStrategy), NoStatus)) != []
    ensures ValidateDaemonSetUpdate(
      DaemonSet(Versioned("abc", "1"), Spec(SelectorAB, SimpleTemplate(SelectorCD, RestartPolicyAlways), ValidStrategy), NoStatus),
      DaemonSet(Versioned("abc", "1"), Spec(SelectorAB, ValidTemplate, ValidStrategy), NoStatus)) != []
    ensures ValidateDaemonSetUpdate(
      DaemonSet(Versioned("abc", "1"), Spec(map[BadKey := "b"], ValidTemplate, DaemonSetUpdateStrategy(RollingUpdateStrategyType, None)), NoStatus),
      DaemonSet(Versioned("abc", "1"), Spec(SelectorAB, ValidTemplate, ValidStrategy), NoStatus)) != []
  {
    EqualsSignExamples();
    assert !LabelsValid(map[BadKey := "b"]);
    assert !LabelsValid(InvalidTemplate.labels);
    assert "a" !in SelectorCD;
  }

  /** Lowering numberMisscheduled from 2 to 1 is accepted; the table's
      objects carry no spec, only the zero value. */
  lemma DaemonSetStatusUpdateSuccessCase()
    ensures ValidateDaemonSetStatusUpdate(
      DaemonSet(Versioned("abc", "1"), DaemonSetSpec(None, None, NoStrategy), DaemonSetStatus(1, 1, 3)),
      DaemonSet(Versioned("abc", "1"), DaemonSetSpec(None, None, NoStrategy), DaemonSetStatus(1, 2, 3))) == []
  {
    assert LabelsValid(map[]) && AnnotationsValid(map[]);
  }

  /** As the status error case is written, the objects are passed in the
      wrong order and carry no resource version: the counters checked are the
      old, non-negative ones, and the one error is the missing resource version. */
  lemma DaemonSetStatusUpdateErrorCaseAsWritten()
    ensures ValidateDaemonSetStatusUpdate(
      DaemonSet(Named("abc"), DaemonSetSpec(None, None, NoStrategy), DaemonSetStatus(1, 2, 3)),
      DaemonSet(Named("abc"), DaemonSetSpec(None, None, NoStrategy), DaemonSetStatus(-1, -1, -3)))
      == [InvalidError(MetaPath("resourceVersion"), "", "must be specified for an update")]
  {
    assert LabelsValid(map[]) && AnnotationsValid(map[]);
  }

  /** Called in the intended order with a resource version, the three negative
      counters are each reported, in field order. */
  lemma DaemonSetStatusUpdateErrorCaseCorrected()
    ensures FieldsOf(ValidateDaemonSetStatusUpdate(
      DaemonSet(Versioned("abc", "1"), DaemonSetSpec(None, None, NoStrategy), DaemonSetStatus(-1, -1, -3)),
      DaemonSet(Versioned("abc", "1"), DaemonSetSpec(None, None, NoStrategy), DaemonSetStatus(1, 2, 3))))
      == [[Child("status"), Child("currentNumberScheduled")],
          [Child("status"), Child("numberMisscheduled")],
          [Child("status"), Child("desiredNumberScheduled")]]
  {
    assert LabelsValid(map[]) && AnnotationsValid(map[]);
    assert MetaUpdateValid(Versioned("abc", "1"), Versioned("abc", "1"));
  }
}
