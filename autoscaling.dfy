/** HorizontalPodAutoscaler, ClusterAutoscaler and Scale: the three kinds
    whose specs are replica or node counts. */
module Autoscaling {
  import opened FieldPaths
  import opened Names
  import opened IntOrPercent
  import opened Meta

  // ---- shared count checks ---------------------------------------------

  /** A count below one is refused with "must be greater than 0". */
  function ValidatePositive(value: int, p: Path): (errs: seq<Error>)
    ensures errs == [] <==> value >= 1
    ensures forall e :: e in errs ==> e == InvalidError(p, IntToString(value), "must be greater than 0")
  {
    if value < 1 then [InvalidError(p, IntToString(value), "must be greater than 0")] else []
  }

  /** The upper bound of an ordered pair may not lie below the lower one; the
      detail names the lower-bound field. */
  function ValidateNotBelow(high: int, low: int, lowName: string, p: Path): (errs: seq<Error>)
    ensures errs == [] <==> low <= high
    ensures forall e :: e in errs ==> e == InvalidError(p, IntToString(high), "must be greater than or equal to `" + lowName + "`")
  {
    if high < low then [InvalidError(p, IntToString(high), "must be greater than or equal to `" + lowName + "`")] else []
  }

  // ---- subresource references ------------------------------------------

  datatype SubresourceReference = SubresourceReference(kind: string, name: string, subresource: string)

  predicate SegmentValid(value: string)
  {
    value != "" && IsValidPathSegmentName(value)
  }

  function PathSegmentErrorMsg(value: string): string
  {
    if value == "." || value == ".." then "may not be '" + value + "'"
    else if '/' in value then "may not contain '/'"
    else "may not contain '%'"
  }

  /** Empty is Required; `.`, `..` or a value with `/` or `%` is Invalid. */
  function ValidateSegment(value: string, p: Path): (errs: seq<Error>)
    ensures errs == [] <==> SegmentValid(value)
    ensures value == "" ==> errs == [RequiredError(p, "")]
    ensures value != "" && !IsValidPathSegmentName(value) ==> errs == [InvalidError(p, value, PathSegmentErrorMsg(value))]
  {
    if value == "" then [RequiredError(p, "")]
    else if IsValidPathSegmentName(value) then []
    else [InvalidError(p, value, PathSegmentErrorMsg(value))]
  }

  predicate ReferenceValid(ref: SubresourceReference)
  {
    SegmentValid(ref.kind) && SegmentValid(ref.name) && SegmentValid(ref.subresource)
  }

  function RefPath(field: string): Path
  {
    [Child("spec"), Child("scaleRef"), Child(field)]
  }

  function ValidateSubresourceReference(ref: SubresourceReference): (errs: seq<Error>)
    ensures errs == [] <==> ReferenceValid(ref)
  {
    ValidateSegment(ref.kind, RefPath("kind"))
    + ValidateSegment(ref.name, RefPath("name"))
    + ValidateSegment(ref.subresource, RefPath("subresource"))
  }

  // ---- HorizontalPodAutoscaler -----------------------------------------

  datatype HorizontalPodAutoscalerSpec = HorizontalPodAutoscalerSpec(
    scaleRef: SubresourceReference,
    minReplicas: Option<int>,
    maxReplicas: int,
    cpuTargetPercentage: Option<int>)

  datatype HorizontalPodAutoscaler = HorizontalPodAutoscaler(meta: ObjectMeta, spec: HorizontalPodAutoscalerSpec)

  /** The replica bounds and CPU target on their own, without the scale reference. */
  predicate RangesValid(spec: HorizontalPodAutoscalerSpec)
  {
    && (spec.minReplicas.Some? ==> 1 <= spec.minReplicas.value <= spec.maxReplicas)
    && 1 <= spec.maxReplicas
    && (spec.cpuTargetPercentage.Some? ==> spec.cpuTargetPercentage.value >= 1)
  }

  /** A usable spec: sane bounds and a reference to the `scale` subresource of a named object. */
  predicate HorizontalPodAutoscalerSpecValid(spec: HorizontalPodAutoscalerSpec)
  {
    RangesValid(spec) && ReferenceValid(spec.scaleRef) && spec.scaleRef.subresource == "scale"
  }

  function RangeErrors(spec: HorizontalPodAutoscalerSpec): (errs: seq<Error>)
    ensures errs == [] <==> RangesValid(spec)
  {
    (if spec.minReplicas.Some? then ValidatePositive(spec.minReplicas.value, [Child("spec"), Child("minReplicas")]) else [])
    + ValidatePositive(spec.maxReplicas, [Child("spec"), Child("maxReplicas")])
    + (if spec.minReplicas.Some?
       then ValidateNotBelow(spec.maxReplicas, spec.minReplicas.value, "minReplicas", [Child("spec"), Child("maxReplicas")])
       else [])
    + (if spec.cpuTargetPercentage.Some?
       then ValidatePositive(spec.cpuTargetPercentage.value, [Child("spec"), Child("cpuUtilization"), Child("targetPercentage")])
       else [])
  }

  /** Range checks first, then the reference; only a well-formed reference is
      checked for naming the `scale` subresource. */
  function ValidateHorizontalPodAutoscalerSpec(spec: HorizontalPodAutoscalerSpec): (errs: seq<Error>)
    ensures errs == [] <==> HorizontalPodAutoscalerSpecValid(spec)
  {
    var refErrs := ValidateSubresourceReference(spec.scaleRef);
    RangeErrors(spec)
    + (if refErrs != [] then refErrs
       else if spec.scaleRef.subresource != "scale" then [NotSupportedError(RefPath("subresource"), spec.scaleRef.subresource, ["scale"])]
       else [])
  }

  ghost function ValidateHorizontalPodAutoscaler(h: HorizontalPodAutoscaler): (errs: seq<Error>)
    ensures errs == [] <==> MetaValid(h.meta, DNSSubdomainName) && HorizontalPodAutoscalerSpecValid(h.spec)
  {
    ValidateObjectMeta(h.meta, DNSSubdomainName) + ValidateHorizontalPodAutoscalerSpec(h.spec)
  }

  /** With valid metadata, the errors are exactly those of the spec. */
  lemma SpecErrorsOnly(h: HorizontalPodAutoscaler)
    requires MetaValid(h.meta, DNSSubdomainName)
    ensures ValidateHorizontalPodAutoscaler(h) == ValidateHorizontalPodAutoscalerSpec(h.spec)
  {
    assert ValidateObjectMeta(h.meta, DNSSubdomainName) == [];
  }

  /** A bad replica bound or CPU target is reported before anything about the
      scale reference, even when the reference is empty. */
  lemma {:induction false} RangeErrorsComeFirst(spec: HorizontalPodAutoscalerSpec)
    requires !RangesValid(spec)
    ensures var errs := ValidateHorizontalPodAutoscalerSpec(spec);
      |errs| >= 1 && errs[0].kind == Invalid && errs[0].field[1] != Child("scaleRef")
  {
    var r := RangeErrors(spec);
    assert r != [];
    var minErrs := if spec.minReplicas.Some? then ValidatePositive(spec.minReplicas.value, [Child("spec"), Child("minReplicas")]) else [];
    var maxErrs := ValidatePositive(spec.maxReplicas, [Child("spec"), Child("maxReplicas")]);
    var orderErrs := if spec.minReplicas.Some?
       then ValidateNotBelow(spec.maxReplicas, spec.minReplicas.value, "minReplicas", [Child("spec"), Child("maxReplicas")])
       else [];
    assert r == minErrs + maxErrs + orderErrs + (if spec.cpuTargetPercentage.Some?
       then ValidatePositive(spec.cpuTargetPercentage.value, [Child("spec"), Child("cpuUtilization"), Child("targetPercentage")])
       else []);
    assert r[0] in r;
  }

  // ---- ClusterAutoscaler -----------------------------------------------

  /** One utilisation target; its floating-point value is not modelled. */
  datatype NodeUtilization = NodeUtilization(resource: string)

  datatype ClusterAutoscalerSpec = ClusterAutoscalerSpec(minNodes: int, maxNodes: int, targetUtilization: seq<NodeUtilization>)

  datatype ClusterAutoscaler = ClusterAutoscaler(meta: ObjectMeta, spec: ClusterAutoscalerSpec)

  /** The only name a ClusterAutoscaler may have. */
  const ClusterAutoscalerName := "ClusterAutoscaler"

  predicate ClusterAutoscalerSpecValid(spec: ClusterAutoscalerSpec)
  {
    0 <= spec.minNodes <= spec.maxNodes && |spec.targetUtilization| >= 1
  }

  function ValidateClusterAutoscalerSpec(spec: ClusterAutoscalerSpec): (errs: seq<Error>)
    ensures errs == [] <==> ClusterAutoscalerSpecValid(spec)
  {
    ValidateNonnegativeField(spec.minNodes, [Child("spec"), Child("minNodes")])
    + ValidateNotBelow(spec.maxNodes, spec.minNodes, "minNodes", [Child("spec"), Child("maxNodes")])
    + (if spec.targetUtilization == [] then [RequiredError([Child("spec"), Child("targetUtilization")], "")] else [])
  }

  /** The singleton is named exactly `ClusterAutoscaler` (no DNS rule, so the
      capital letters are fine) and lives in the `default` namespace. */
  ghost predicate ClusterAutoscalerValid(c: ClusterAutoscaler)
  {
    && c.meta.name == ClusterAutoscalerName
    && c.meta.namespace == NamespaceDefault
    && LabelsValid(c.meta.labels)
    && AnnotationsValid(c.meta.annotations)
    && ClusterAutoscalerSpecValid(c.spec)
  }

  ghost function ValidateClusterAutoscaler(c: ClusterAutoscaler): (errs: seq<Error>)
    ensures errs == [] <==> ClusterAutoscalerValid(c)
  {
    DefaultIsLabel();
    ValidateObjectMeta(c.meta, ExactName(ClusterAutoscalerName))
    + (if c.meta.namespace != NamespaceDefault
       then [InvalidError(MetaPath("namespace"), c.meta.namespace, "must be '" + NamespaceDefault + "'")]
       else [])
    + ValidateClusterAutoscalerSpec(c.spec)
  }

  lemma DefaultIsLabel()
    ensures IsDNS1123Label(NamespaceDefault)
  {
  }

  // ---- Scale -----------------------------------------------------------

  datatype Scale = Scale(meta: ObjectMeta, replicas: int)

  /** Zero replicas is a valid scale ("scaled to nothing"); only negatives are refused. */
  ghost function ValidateScale(s: Scale): (errs: seq<Error>)
    ensures errs == [] <==> MetaValid(s.meta, DNSSubdomainName) && s.replicas >= 0
    ensures MetaValid(s.meta, DNSSubdomainName) && s.replicas < 0 ==>
      errs == [InvalidError([Child("spec"), Child("replicas")], IntToString(s.replicas), "must be greater than or equal to 0")]
  {
    ValidateObjectMeta(s.meta, DNSSubdomainName) + ValidateNonnegativeField(s.replicas, [Child("spec"), Child("replicas")])
  }
}
