/** DaemonSet: a pod template run once per node, selected by a label
    selector and replaced by a rolling update. */
module DaemonSets {
  import opened FieldPaths
  import opened Names
  import opened IntOrPercent
  import opened Meta
  import opened PodTemplates

  const RollingUpdateStrategyType := "RollingUpdate"

  datatype RollingUpdateDaemonSet = RollingUpdateDaemonSet(maxUnavailable: IntOrString, minReadySeconds: int)

  datatype DaemonSetUpdateStrategy = DaemonSetUpdateStrategy(strategyType: string, rollingUpdate: Option<RollingUpdateDaemonSet>)

  datatype DaemonSetSpec = DaemonSetSpec(
    selector: Option<LabelSelector>,
    template: Option<PodTemplateSpec>,
    updateStrategy: DaemonSetUpdateStrategy)

  datatype DaemonSetStatus = DaemonSetStatus(currentNumberScheduled: int, numberMisscheduled: int, desiredNumberScheduled: int)

  datatype DaemonSet = DaemonSet(meta: ObjectMeta, spec: DaemonSetSpec, status: DaemonSetStatus)

  function SpecPath(fields: seq<string>): Path
  {
    Fields(["spec"] + fields)
  }

  // ---- update strategy -------------------------------------------------

  /** maxUnavailable is a positive count or a percentage from 1% to 100%,
      and minReadySeconds is not negative. */
  predicate RollingUpdateDaemonSetValid(r: RollingUpdateDaemonSet)
  {
    && (match r.maxUnavailable
        case FromInt(n) => n >= 1
        case FromString(s) => IsValidPercent(s) && 1 <= PercentValue(r.maxUnavailable).value <= 100)
    && r.minReadySeconds >= 0
  }

  function ValidateRollingUpdateDaemonSet(r: RollingUpdateDaemonSet, p: Path): (errs: seq<Error>)
    ensures errs == [] <==> RollingUpdateDaemonSetValid(r)
    ensures forall e :: e in errs ==> e.field == p + [Child("maxUnavailable")] || e.field == p + [Child("minReadySeconds")]
  {
    var unavailable := p + [Child("maxUnavailable")];
    ValidatePositiveIntOrPercent(r.maxUnavailable, unavailable)
    + (if IntOrPercentValue(r.maxUnavailable) == 0 then [InvalidError(unavailable, ValueText(r.maxUnavailable), "cannot be 0")] else [])
    + IsNotMoreThan100Percent(r.maxUnavailable, unavailable)
    + ValidateNonnegativeField(r.minReadySeconds, p + [Child("minReadySeconds")])
  }

  predicate UpdateStrategyValid(s: DaemonSetUpdateStrategy)
  {
    s.strategyType == RollingUpdateStrategyType && s.rollingUpdate.Some? && RollingUpdateDaemonSetValid(s.rollingUpdate.value)
  }

  /** Only RollingUpdate is supported, and it needs its parameters. */
  function ValidateDaemonSetUpdateStrategy(s: DaemonSetUpdateStrategy, p: Path): (errs: seq<Error>)
    ensures errs == [] <==> UpdateStrategyValid(s)
    ensures forall e :: e in errs ==> HasPrefix(e.field, p)
  {
    ExtendHasPrefix(p, [Child("type")]);
    ExtendHasPrefix(p, [Child("rollingUpdate")]);
    PrefixTransitive(p, [Child("rollingUpdate")]);
    (if s.strategyType != RollingUpdateStrategyType
     then [InvalidError(p + [Child("type")], s.strategyType, "RollingUpdate is the only supported type")]
     else [])
    + (match s.rollingUpdate
       case None => [RequiredError(p + [Child("rollingUpdate")], "")]
       case Some(r) => ValidateRollingUpdateDaemonSet(r, p + [Child("rollingUpdate")]))
  }

  // ---- spec ------------------------------------------------------------

  /** What a DaemonSet spec must satisfy: a well-formed selector, a template
      whose labels the selector picks (a missing selector picks nothing), a
      valid template that always restarts, and a usable update strategy. */
  ghost predicate DaemonSetSpecValid(spec: DaemonSetSpec)
  {
    && (spec.selector.Some? ==> LabelsValid(spec.selector.value.matchLabels))
    && spec.template.Some?
    && SelectorMatches(spec.selector, spec.template.value.labels)
    && PodTemplateValid(spec.template.value)
    && spec.template.value.spec.restartPolicy == RestartPolicyAlways
    && UpdateStrategyValid(spec.updateStrategy)
  }

  /** The template's labels and restart policy lie below spec.template. */
  lemma TemplateChildPaths()
    ensures HasPrefix(SpecPath(["template", "metadata", "labels"]), SpecPath(["template"]))
    ensures HasPrefix(SpecPath(["template", "spec", "restartPolicy"]), SpecPath(["template"]))
  {
    var t := SpecPath(["template"]);
    ExtendHasPrefix(t, [Child("metadata"), Child("labels")]);
    ExtendHasPrefix(t, [Child("spec"), Child("restartPolicy")]);
    assert SpecPath(["template", "metadata", "labels"]) == t + [Child("metadata"), Child("labels")];
    assert SpecPath(["template", "spec", "restartPolicy"]) == t + [Child("spec"), Child("restartPolicy")];
  }

  /** Errors about the template and what depends on it; with no template,
      only Required at spec.template. */
  ghost function TemplateErrors(spec: DaemonSetSpec): (errs: seq<Error>)
    ensures errs == [] <==>
      && spec.template.Some?
      && SelectorMatches(spec.selector, spec.template.value.labels)
      && PodTemplateValid(spec.template.value)
      && spec.template.value.spec.restartPolicy == RestartPolicyAlways
      && UpdateStrategyValid(spec.updateStrategy)
    ensures forall e :: e in errs ==>
      (HasPrefix(e.field, SpecPath(["template"])) || HasPrefix(e.field, SpecPath(["updateStrategy"])))
  {
    var t := SpecPath(["template"]);
    match spec.template
    case None => [RequiredError(t, "")]
    case Some(template) =>
      TemplateChildPaths();
      var matchErrs := if SelectorMatches(spec.selector, template.labels) then []
        else [InvalidError(SpecPath(["template", "metadata", "labels"]), "", "`selector` does not match template `labels`")];
      var templateErrs := ValidatePodTemplateSpec(template, t);
      var policyErrs := if template.spec.restartPolicy == RestartPolicyAlways then []
        else [NotSupportedError(SpecPath(["template", "spec", "restartPolicy"]), template.spec.restartPolicy, [RestartPolicyAlways])];
      var strategyErrs := ValidateDaemonSetUpdateStrategy(spec.updateStrategy, SpecPath(["updateStrategy"]));
      matchErrs + templateErrs + policyErrs + strategyErrs
  }

  ghost function ValidateDaemonSetSpec(spec: DaemonSetSpec): (errs: seq<Error>)
    ensures errs == [] <==> DaemonSetSpecValid(spec)
    ensures forall e :: e in errs ==>
      || e.field == SpecPath(["selector", "matchLabels"])
      || HasPrefix(e.field, SpecPath(["template"]))
      || HasPrefix(e.field, SpecPath(["updateStrategy"]))
  {
    assert SpecPath(["selector"]) + [Child("matchLabels")] == SpecPath(["selector", "matchLabels"]);
    ValidateLabelSelector(spec.selector, SpecPath(["selector"])) + TemplateErrors(spec)
  }

  ghost function ValidateDaemonSet(ds: DaemonSet): (errs: seq<Error>)
    ensures errs == [] <==> MetaValid(ds.meta, DNSSubdomainName) && DaemonSetSpecValid(ds.spec)
  {
    ValidateObjectMeta(ds.meta, DNSSubdomainName) + ValidateDaemonSetSpec(ds.spec)
  }

  /** The field paths a DaemonSet error may name: the metadata fields, the
      selector, or anything at or below spec.template or spec.updateStrategy. */
  predicate AllowedDaemonSetField(f: Path)
  {
    || f in {MetaPath("name"), MetaPath("namespace"), MetaPath("labels"), MetaPath("annotations")}
    || f == SpecPath(["selector"])
    || HasPrefix(f, SpecPath(["template"]))
    || HasPrefix(f, SpecPath(["updateStrategy"]))
  }

  /** A metadata field renders as `metadata.<field>`. */
  lemma MetaPathRendering(field: string)
    ensures Render(MetaPath(field)) == "metadata." + field
  {
    assert RenderTail([Child(field)]) == "." + field + RenderTail([]);
  }

  /** A spec field renders as `spec.<field>`. */
  lemma SpecPathRendering(field: string)
    ensures Render(SpecPath([field])) == "spec." + field
  {
    assert SpecPath([field]) == [Child("spec"), Child(field)];
    assert RenderTail([Child(field)]) == "." + field + RenderTail([]);
  }

  /** A path at or below a spec field renders with `spec.<field>` in front;
      when the next step is itself a field, with `spec.<field>.` in front. So
      every path AllowedDaemonSetField admits below spec.template or
      spec.updateStrategy renders with the prefix the create table tests. */
  lemma BelowSpecFieldRendering(field: string, f: Path)
    requires HasPrefix(f, SpecPath([field]))
    ensures "spec." + field <= Render(f)
    ensures |f| > 2 && f[2].Child? ==> "spec." + field + "." <= Render(f)
  {
    var q := SpecPath([field]);
    assert f == q + f[2..];
    RenderAppend(q, f[2..]);
    SpecPathRendering(field);
    if |f| > 2 && f[2].Child? {
      assert RenderTail(f[2..]) == "." + f[2].name + RenderTail(f[3..]);
    }
  }

  /** Every error of a DaemonSet whose selector labels are well formed lies in
      the allowed field set. A malformed selector label is the one exception:
      it is reported at spec.selector.matchLabels. */
  lemma {:induction false} DaemonSetErrorFields(ds: DaemonSet)
    requires ds.spec.selector.Some? ==> LabelsValid(ds.spec.selector.value.matchLabels)
    ensures forall e :: e in ValidateDaemonSet(ds) ==> AllowedDaemonSetField(e.field)
  {
    var metaErrs := ValidateObjectMeta(ds.meta, DNSSubdomainName);
    var selErrs := ValidateLabelSelector(ds.spec.selector, SpecPath(["selector"]));
    assert selErrs == [];
    assert ValidateDaemonSetSpec(ds.spec) == TemplateErrors(ds.spec);
    assert ValidateDaemonSet(ds) == metaErrs + TemplateErrors(ds.spec);
  }

  // ---- updates ---------------------------------------------------------

  /** spec.selector.matchLabels is not among the fields the create table allows. */
  lemma SelectorLabelsFieldNotAllowed()
    ensures !AllowedDaemonSetField(SpecPath(["selector", "matchLabels"]))
  {
    var f := SpecPath(["selector", "matchLabels"]);
    assert f[1] == Child("selector");
    assert !HasPrefix(f, SpecPath(["template"])) by { assert f[..2][1] != SpecPath(["template"])[1]; }
    assert !HasPrefix(f, SpecPath(["updateStrategy"])) by { assert f[..2][1] != SpecPath(["updateStrategy"])[1]; }
  }

  /** The exception to DaemonSetErrorFields: a malformed selector label is
      reported at spec.selector.matchLabels, outside the create table's list
      of allowed fields. */
  lemma MalformedSelectorLabelOutsideAllowed(ds: DaemonSet)
    requires ds.spec.selector.Some? && !LabelsValid(ds.spec.selector.value.matchLabels)
    ensures exists e :: e in ValidateDaemonSet(ds) && !AllowedDaemonSetField(e.field)
  {
    var e := MalformedSelectorLabelError(ds.spec);
    assert e in ValidateDaemonSet(ds);
    SelectorLabelsFieldNotAllowed();
  }

  /** A malformed selector label gives an error of the spec at spec.selector.matchLabels. */
  lemma MalformedSelectorLabelError(spec: DaemonSetSpec) returns (e: Error)
    requires spec.selector.Some? && !LabelsValid(spec.selector.value.matchLabels)
    ensures e in ValidateDaemonSetSpec(spec) && e.field == SpecPath(["selector", "matchLabels"])
  {
    var selErrs := ValidateLabelSelector(spec.selector, SpecPath(["selector"]));
    assert ValidateDaemonSetSpec(spec) == selErrs + TemplateErrors(spec);
    e := selErrs[0];
    assert SpecPath(["selector"]) + [Child("matchLabels")] == SpecPath(["selector", "matchLabels"]);
  }

  /** A spec update: the metadata update rules plus a full check of the new spec. */
  ghost function ValidateDaemonSetUpdate(newDS: DaemonSet, oldDS: DaemonSet): (errs: seq<Error>)
    ensures errs == [] <==> MetaUpdateValid(newDS.meta, oldDS.meta) && DaemonSetSpecValid(newDS.spec)
  {
    ValidateObjectMetaUpdate(newDS.meta, oldDS.meta) + ValidateDaemonSetSpec(newDS.spec)
  }

  predicate StatusValid(s: DaemonSetStatus)
  {
    s.currentNumberScheduled >= 0 && s.numberMisscheduled >= 0 && s.desiredNumberScheduled >= 0
  }

  function ValidateDaemonSetStatus(s: DaemonSetStatus): (errs: seq<Error>)
    ensures errs == [] <==> StatusValid(s)
    ensures forall e :: e in errs ==> |e.field| == 2 && e.field[0] == Child("status") && e.kind == Invalid
  {
    ValidateNonnegativeField(s.currentNumberScheduled, [Child("status"), Child("currentNumberScheduled")])
    + ValidateNonnegativeField(s.numberMisscheduled, [Child("status"), Child("numberMisscheduled")])
    + ValidateNonnegativeField(s.desiredNumberScheduled, [Child("status"), Child("desiredNumberScheduled")])
  }

  /** A status update checks metadata and the three counters of the new
      object, and ignores the spec and the old counters. */
  ghost function ValidateDaemonSetStatusUpdate(newDS: DaemonSet, oldDS: DaemonSet): (errs: seq<Error>)
    ensures errs == [] <==> MetaUpdateValid(newDS.meta, oldDS.meta) && StatusValid(newDS.status)
  {
    ValidateObjectMetaUpdate(newDS.meta, oldDS.meta) + ValidateDaemonSetStatus(newDS.status)
  }

  /** Counters may move in either direction: only their sign matters, so the
      outcome does not depend on the old status at all, nor on either spec. */
  lemma StatusUpdateIgnoresOldStatus(newDS: DaemonSet, oldDS: DaemonSet, newSpec: DaemonSetSpec, oldSpec: DaemonSetSpec,
                                     otherStatus: DaemonSetStatus)
    ensures ValidateDaemonSetStatusUpdate(newDS.(spec := newSpec), oldDS.(spec := oldSpec, status := otherStatus))
         == ValidateDaemonSetStatusUpdate(newDS, oldDS)
  {
  }
}
