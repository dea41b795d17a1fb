/** The success and error tables for HorizontalPodAutoscaler,
    ClusterAutoscaler and Scale, stated over the model. */
module AutoscalingCases {
  import opened FieldPaths
  import opened Names
  import opened Meta
  import opened Autoscaling

  const ValidRef := SubresourceReference("ReplicationController", "myrc", "scale")

  function Autoscaler(ref: SubresourceReference, minReplicas: Option<int>, maxReplicas: int, cpu: Option<int>): HorizontalPodAutoscaler
  {
    HorizontalPodAutoscaler(NamedMeta("myautoscaler", NamespaceDefault), HorizontalPodAutoscalerSpec(ref, minReplicas, maxReplicas, cpu))
  }

  lemma AutoscalerMetaValid()
    ensures MetaValid(NamedMeta("myautoscaler", NamespaceDefault), DNSSubdomainName)
  {
    ScannedNameShapes("myautoscaler");
    AcceptedLabel();
    NamedMetaValid("myautoscaler", NamespaceDefault);
  }

  /** With the test autoscaler's metadata, the spec alone decides the errors. */
  lemma AutoscalerCase(ref: SubresourceReference, minReplicas: Option<int>, maxReplicas: int, cpu: Option<int>)
    ensures ValidateHorizontalPodAutoscaler(Autoscaler(ref, minReplicas, maxReplicas, cpu))
      == ValidateHorizontalPodAutoscalerSpec(HorizontalPodAutoscalerSpec(ref, minReplicas, maxReplicas, cpu))
  {
    AutoscalerMetaValid();
    SpecErrorsOnly(Autoscaler(ref, minReplicas, maxReplicas, cpu));
  }

  lemma HorizontalPodAutoscalerSuccessCases()
    ensures ValidateHorizontalPodAutoscaler(Autoscaler(ValidRef, Some(1), 5, Some(70))) == []
    ensures ValidateHorizontalPodAutoscaler(Autoscaler(ValidRef, Some(1), 5, None)) == []
  {
    AutoscalerCase(ValidRef, Some(1), 5, Some(70));
    AutoscalerCase(ValidRef, Some(1), 5, None);
    SegmentsOfValidRef();
    assert ReferenceValid(ValidRef);
  }

  /** With sane bounds, the reference checks alone decide the outcome. */
  lemma ReferenceCase(ref: SubresourceReference)
    ensures ValidateHorizontalPodAutoscaler(Autoscaler(ref, Some(1), 5, Some(70)))
      == (var refErrs := ValidateSubresourceReference(ref);
          if refErrs != [] then refErrs
          else if ref.subresource != "scale" then [NotSupportedError(RefPath("subresource"), ref.subresource, ["scale"])]
          else [])
  {
    AutoscalerCase(ref, Some(1), 5, Some(70));
    assert RangesValid(HorizontalPodAutoscalerSpec(ref, Some(1), 5, Some(70)));
  }

  /** With a bare reference to `scale`, the range checks alone decide the outcome. */
  lemma RangeCase(minReplicas: Option<int>, maxReplicas: int, cpu: Option<int>)
    ensures ValidateHorizontalPodAutoscaler(Autoscaler(SubresourceReference("", "", "scale"), minReplicas, maxReplicas, cpu))
      == RangeErrors(HorizontalPodAutoscalerSpec(SubresourceReference("", "", "scale"), minReplicas, maxReplicas, cpu))
        + [RequiredError(RefPath("kind"), ""), RequiredError(RefPath("name"), "")]
  {
    AutoscalerCase(SubresourceReference("", "", "scale"), minReplicas, maxReplicas, cpu);
    EmptyRefErrors();
  }

  lemma EmptyRefErrors()
    ensures ValidateSubresourceReference(SubresourceReference("", "", "scale"))
      == [RequiredError(RefPath("kind"), ""), RequiredError(RefPath("name"), "")]
  {
    assert SegmentValid("scale");
  }

  /** An empty or malformed kind is the first error, at spec.scaleRef.kind. */
  lemma ScaleRefKindCases()
    ensures ValidateHorizontalPodAutoscaler(Autoscaler(SubresourceReference("", "myrc", "scale"), Some(1), 5, Some(70)))[0]
      == RequiredError(RefPath("kind"), "")
    ensures var e := ValidateHorizontalPodAutoscaler(Autoscaler(SubresourceReference("..", "myrc", "scale"), Some(1), 5, Some(70)))[0];
      e.field == RefPath("kind") && e.kind == Invalid
  {
    ReferenceCase(SubresourceReference("", "myrc", "scale"));
    ReferenceCase(SubresourceReference("..", "myrc", "scale"));
  }

  lemma SegmentsOfValidRef()
    ensures ValidateSegment("ReplicationController", RefPath("kind")) == []
    ensures ValidateSegment("myrc", RefPath("name")) == []
    ensures ValidateSegment("scale", RefPath("subresource")) == []
  {
    assert SegmentValid("ReplicationController");
    assert SegmentValid("myrc");
    assert SegmentValid("scale");
  }

  /** An empty or malformed name is the first error, at spec.scaleRef.name. */
  lemma ScaleRefNameCases()
    ensures ValidateHorizontalPodAutoscaler(Autoscaler(SubresourceReference("ReplicationController", "", "scale"), Some(1), 5, Some(70)))[0]
      == RequiredError(RefPath("name"), "")
    ensures var e := ValidateHorizontalPodAutoscaler(Autoscaler(SubresourceReference("ReplicationController", "..", "scale"), Some(1), 5, Some(70)))[0];
      e.field == RefPath("name") && e.kind == Invalid
  {
    SegmentsOfValidRef();
    ReferenceCase(SubresourceReference("ReplicationController", "", "scale"));
    ReferenceCase(SubresourceReference("ReplicationController", "..", "scale"));
  }

  /** An empty, malformed or unsupported subresource is the first error, at spec.scaleRef.subresource. */
  lemma ScaleRefSubresourceCases()
    ensures ValidateHorizontalPodAutoscaler(Autoscaler(SubresourceReference("ReplicationController", "myrc", ""), Some(1), 5, Some(70)))[0]
      == RequiredError(RefPath("subresource"), "")
    ensures var e := ValidateHorizontalPodAutoscaler(Autoscaler(SubresourceReference("ReplicationController", "myrc", ".."), Some(1), 5, Some(70)))[0];
      e.field == RefPath("subresource") && e.kind == Invalid
  {
    SegmentsOfValidRef();
    ReferenceCase(SubresourceReference("ReplicationController", "myrc", ""));
    ReferenceCase(SubresourceReference("ReplicationController", "myrc", ".."));
  }

  lemma ScaleRefUnsupportedCase()
    ensures var e := ValidateHorizontalPodAutoscaler(Autoscaler(SubresourceReference("ReplicationController", "myrc", "randomsubresource"), Some(1), 5, Some(70)))[0];
      e.field == RefPath("subresource") && e.kind == NotSupported && e.value == "randomsubresource"
  {
    assert SegmentValid("randomsubresource");
    UnsupportedSubresourceCase("randomsubresource");
  }

  /** A well-formed subresource other than `scale` is the only error of the valid reference. */
  lemma UnsupportedSubresourceCase(subresource: string)
    requires SegmentValid(subresource) && subresource != "scale"
    ensures ValidateHorizontalPodAutoscaler(Autoscaler(SubresourceReference("ReplicationController", "myrc", subresource), Some(1), 5, Some(70)))
      == [NotSupportedError(RefPath("subresource"), subresource, ["scale"])]
  {
    SegmentsOfValidRef();
    ReferenceCase(SubresourceReference("ReplicationController", "myrc", subresource));
  }

  /** The range errors come first although kind and name of the reference
      are empty: a minimum of -1 is not positive. */
  lemma MinReplicasBelowOneCase()
    ensures ValidateHorizontalPodAutoscaler(Autoscaler(SubresourceReference("", "", "scale"), Some(-1), 5, None))[0]
      == InvalidError([Child("spec"), Child("minReplicas")], "-1", "must be greater than 0")
  {
    RangeCase(Some(-1), 5, None);
    assert IntToString(-1) == "-1";
  }

  /** A maximum below the minimum is reported against `minReplicas`. */
  lemma MaxBelowMinCase()
    ensures var e := ValidateHorizontalPodAutoscaler(Autoscaler(SubresourceReference("", "", "scale"), Some(7), 5, None))[0];
      e.field == [Child("spec"), Child("maxReplicas")] && e.detail == "must be greater than or equal to `minReplicas`"
  {
    RangeCase(Some(7), 5, None);
  }

  /** A negative CPU target is not positive. */
  lemma CpuTargetBelowOneCase()
    ensures var e := ValidateHorizontalPodAutoscaler(Autoscaler(SubresourceReference("", "", "scale"), Some(1), 5, Some(-70)))[0];
      e.field == [Child("spec"), Child("cpuUtilization"), Child("targetPercentage")] && e.detail == "must be greater than 0"
  {
    RangeCase(Some(1), 5, Some(-70));
  }

  lemma ScaleRefPathRendering()
    ensures Render(RefPath("kind")) == "spec.scaleRef.kind"
  {
  }

  // ---- ClusterAutoscaler ----------------------------------------------

  function NodeAutoscaler(name: string, namespace: string, minNodes: int, maxNodes: int, targets: seq<NodeUtilization>): ClusterAutoscaler
  {
    ClusterAutoscaler(NamedMeta(name, namespace), ClusterAutoscalerSpec(minNodes, maxNodes, targets))
  }

  const CpuTarget := [NodeUtilization("cpuRequest")]

  lemma ClusterAutoscalerSuccessCase()
    ensures ValidateClusterAutoscaler(NodeAutoscaler("ClusterAutoscaler", NamespaceDefault, 1, 5, CpuTarget)) == []
  {
    assert ClusterAutoscalerValid(NodeAutoscaler("ClusterAutoscaler", NamespaceDefault, 1, 5, CpuTarget));
  }

  /** With the fixed name and namespace, the spec checks alone decide the outcome. */
  lemma NodeSpecCase(minNodes: int, maxNodes: int, targets: seq<NodeUtilization>)
    ensures ValidateClusterAutoscaler(NodeAutoscaler("ClusterAutoscaler", NamespaceDefault, minNodes, maxNodes, targets))
      == ValidateClusterAutoscalerSpec(ClusterAutoscalerSpec(minNodes, maxNodes, targets))
  {
    var meta := NamedMeta("ClusterAutoscaler", NamespaceDefault);
    assert MetaValid(meta, ExactName(ClusterAutoscalerName));
  }

  /** A name other than `ClusterAutoscaler` is the first error, at metadata.name. */
  lemma ClusterAutoscalerNameCase()
    ensures var e := ValidateClusterAutoscaler(NodeAutoscaler("TestClusterAutoscaler", NamespaceDefault, 1, 5, CpuTarget))[0];
      e.field == MetaPath("name") && e.kind == Invalid && e.detail == "must be '" + ClusterAutoscalerName + "'"
  {
    WrongNameCase("TestClusterAutoscaler", 1, 5, CpuTarget);
  }

  /** Any other name in the default namespace is reported first, at metadata.name. */
  lemma WrongNameCase(name: string, minNodes: int, maxNodes: int, targets: seq<NodeUtilization>)
    requires name != "" && name != ClusterAutoscalerName
    ensures var errs := ValidateClusterAutoscaler(NodeAutoscaler(name, NamespaceDefault, minNodes, maxNodes, targets));
      |errs| >= 1 && errs[0] == InvalidError(MetaPath("name"), name, "must be '" + ClusterAutoscalerName + "'")
  {
    NamedMetaErrors(name, NamespaceDefault, ExactName(ClusterAutoscalerName));
    DefaultIsLabel();
  }

  /** A namespace other than `default` is the first error, at metadata.namespace. */
  lemma ClusterAutoscalerNamespaceCase()
    ensures ValidateClusterAutoscaler(NodeAutoscaler("ClusterAutoscaler", "test", 1, 5, CpuTarget))[0]
      == InvalidError(MetaPath("namespace"), "test", "must be 'default'")
  {
    NamedMetaErrors("ClusterAutoscaler", "test", ExactName(ClusterAutoscalerName));
    assert IsDNS1123Label("test");
  }

  lemma ClusterAutoscalerSpecCases()
    ensures ValidateClusterAutoscaler(NodeAutoscaler("ClusterAutoscaler", NamespaceDefault, -1, 5, CpuTarget))[0].detail
      == "must be greater than or equal to 0"
    ensures ValidateClusterAutoscaler(NodeAutoscaler("ClusterAutoscaler", NamespaceDefault, 10, 5, CpuTarget))[0].detail
      == "must be greater than or equal to `minNodes`"
    ensures ValidateClusterAutoscaler(NodeAutoscaler("ClusterAutoscaler", NamespaceDefault, 1, 5, []))[0]
      == RequiredError([Child("spec"), Child("targetUtilization")], "")
  {
    NodeSpecCase(-1, 5, CpuTarget);
    NodeSpecCase(10, 5, CpuTarget);
    NodeSpecCase(1, 5, []);
  }

  // ---- Scale ----------------------------------------------------------

  lemma ScaleCases()
    ensures ValidateScale(Scale(NamedMeta("frontend", NamespaceDefault), 0)) == []
    ensures ValidateScale(Scale(NamedMeta("frontend", NamespaceDefault), 1)) == []
    ensures ValidateScale(Scale(NamedMeta("frontend", NamespaceDefault), 10)) == []
    ensures ValidateScale(Scale(NamedMeta("frontend", NamespaceDefault), -1))[0].detail == "must be greater than or equal to 0"
  {
    ScannedNameShapes("frontend");
    AcceptedLabel();
    NamedMetaValid("frontend", NamespaceDefault);
  }
}
