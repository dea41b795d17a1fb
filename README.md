# Admission validation for the `extensions` API group

This project models the admission-time validators of the Kubernetes
`extensions` API group: HorizontalPodAutoscaler, DaemonSet (create, update and
status update), Deployment, Job, Ingress (create and status update),
ClusterAutoscaler, Scale and ConfigMap (create and update). Each validator is a
pure function from an object, or from a new/old pair, to a list of field
errors. The list is built by concatenating smaller checks in a fixed order, so
"the first error" is meaningful, as the table-driven tests in
`pkg/apis/extensions/validation/validation_test.go` rely on.

- An error carries a field path, a kind (Required, Invalid, NotSupported,
  Forbidden, TooLong), the offending value and a detail message. A path is a
  sequence of child, index and key steps. It renders as
  `spec.rules[0].http.paths[0].path`.
- The shared primitive checks live in `FieldPaths`, `Names`, `IntOrPercent`,
  `Meta` and `PodTemplates`. They cover DNS-1123 labels and subdomains
  (section 2.1 of RFC 1123 as Kubernetes restricts it), qualified label keys,
  label values, the config-map key rule and dotted-quad IPv4 literals. They
  also cover int-or-percent amounts, object metadata on create and on update,
  and label-selector matching.
- Each kind has a module with its validator and a declarative validity
  predicate. The validator's main contract is `errs == [] <==> Valid(x)`.
  Lemmas about the validator state where errors are reported and in which
  order.
- The success and error tables of the test file are restated as lemmas in the
  `*Cases` modules, one lemma per row or small group of rows.

The production validators are not part of this model's sources. Their
behaviour is fixed by the test tables. Where the tables are silent, the
model makes its own choices, and these are not claimed to match the
production code:
- Pod-template labels are reported at `<template>.labels`; the DaemonSet
  table's allowed-field list contains `spec.template.labels`.
- A selector/template mismatch is reported at `spec.template.metadata.labels`.
- An ingress backend's service name must be a DNS subdomain.
- An ingress path's errors carry the index of its rule and of the path, and
  a path's backend is checked at `...paths[j].backend`.
- A missing DaemonSet or Job selector selects nothing.
- The config-map key rule is a DNS subdomain with an optional leading dot.
  It is at most 253 characters, so `.`, `..` and `a..b` are refused.

## Model

| member | source | states |
|---|---|---|
| FieldPaths.Fields | pkg/apis/extensions/validation/validation_test.go:1166-1173 | a path of named children has one Child step per name, in order |
| FieldPaths.ParseNatToString | pkg/apis/extensions/validation/validation_test.go:1448 | reading back the decimal text of a count gives the count, so rendered values can be parsed again |
| FieldPaths.RenderAppend | pkg/apis/extensions/validation/validation_test.go:1166-1173 | rendering a path extended by more steps extends the rendered text |
| FieldPaths.FieldsOf | pkg/apis/extensions/validation/validation_test.go:825-839 | the field list of an error list has one entry per error, in order |
| FieldPaths.DigitChar | pkg/apis/extensions/validation/validation_test.go:1448 | every digit value maps to a decimal digit character |
| FieldPaths.NatToString | pkg/apis/extensions/validation/validation_test.go:1448 | a count is written as decimal digits without a leading zero |
| FieldPaths.IntToString | pkg/apis/extensions/validation/validation_test.go:995-1026 | an integer's text starts with `-` exactly when it is negative |
| FieldPaths.RenderTailAppend | pkg/apis/extensions/validation/validation_test.go:1166-1173 | the rendered steps of a joined path are those of its parts |
| FieldPaths.ExtendHasPrefix | pkg/apis/extensions/validation/validation_test.go:825-839 | a path extended by more steps lies under the original path |
| FieldPaths.PrefixTransitive | pkg/apis/extensions/validation/validation_test.go:825-839 | a path under an extended path also lies under the shorter one |
| Names.SplitNone | pkg/apis/extensions/validation/validation_test.go:1110-1112 | a string without the separator splits into itself |
| Names.SplitAt | pkg/apis/extensions/validation/validation_test.go:1110-1112 | splitting at the first separator gives the piece before it, then the rest split |
| Names.JoinedLabelsAreSubdomainShaped | pkg/apis/extensions/validation/validation_test.go:1110-1112 | labels joined with dots form a subdomain-shaped name |
| Names.SubdomainPiecesFrom | pkg/apis/extensions/validation/validation_test.go:1110-1112 | every dot-separated piece of a subdomain-shaped name is a label |
| Names.NotQualifiedWith | pkg/apis/extensions/validation/validation_test.go:646-658 | a key with a character other than letters, digits, `-`, `_`, `.` or `/` is not a qualified name |
| Meta.ValidateImmutableField | pkg/apis/extensions/validation/validation_test.go:437-454 | an immutable field passes exactly when it is unchanged; the error is Invalid at that field |
| Autoscaling.RangeErrors | pkg/apis/extensions/validation/validation_test.go:157-205 | no errors exactly when maxReplicas is at least 1, minReplicas (when given) is positive and not above maxReplicas, and the CPU target (when given) is positive |
| Names.JoinSplit | pkg/apis/extensions/validation/validation_test.go:1110-1112 | joining the dot-separated pieces of a string gives the string back |
| Names.SubdomainPiecesAreLabels | pkg/apis/extensions/validation/validation_test.go:1110-1112 | every dot-separated piece of a DNS subdomain is label-shaped |
| Names.QualifiedNameAgreesWithSplit | pkg/apis/extensions/validation/validation_test.go:646-670 | the qualified-name rule agrees with splitting the key at its one slash into a subdomain prefix and a name |
| Names.TwoSlashesNotQualified | pkg/apis/extensions/validation/validation_test.go:910 | a key with two slashes is never a qualified name |
| Names.NotIPv4 | pkg/apis/extensions/validation/validation_test.go:1243-1250 | a string with a character other than a digit or dot is not an IPv4 literal |
| Names.FirstIndexOf | pkg/apis/extensions/validation/validation_test.go:907-910 | the first occurrence of a character, or its absence |
| Names.Split | pkg/apis/extensions/validation/validation_test.go:1110-1112 | splitting never leaves a separator inside a piece |
| Names.Repeat | pkg/apis/extensions/validation/validation_test.go:1479 | `n` copies of one character have length `n` |
| Names.ToLower | pkg/apis/extensions/validation/validation_test.go:671-683 | lower-casing keeps the length and maps only A-Z |
| Names.AcceptedNameExamples | pkg/apis/extensions/validation/validation_test.go:588-605 | `abc`, `abc-123` are subdomains, `default` a label, `a`, `name`, `my-label` qualified names |
| Names.PortNameExamples | pkg/apis/extensions/validation/validation_test.go:1135-1169 | `-http` and `http-` are not IANA service names; `h-1` and `http` are |
| Names.NeighbourPairs | pkg/apis/extensions/validation/validation_test.go:588-605 | the neighbour scan from a position covers every adjacent pair from there on |
| Names.ScannedNameShapes | pkg/apis/extensions/validation/validation_test.go:588-605 | a name that starts and ends with a letter or digit and whose neighbours all pass the scan is subdomain-shaped, label-shaped without a dot, and a qualified-name part without a slash |
| Names.AcceptedSubdomains | pkg/apis/extensions/validation/validation_test.go:588-605 | `abc` and `abc-123` are DNS subdomains |
| Names.AcceptedLabel | pkg/apis/extensions/validation/validation_test.go:588-605 | `default` is a DNS label |
| Names.AcceptedQualifiedNames | pkg/apis/extensions/validation/validation_test.go:588-605 | `a`, `name` and `my-label` are qualified names |
| Names.RefusedNameExamples | pkg/apis/extensions/validation/validation_test.go:1137-1138 | `..` and `defaultBackend` are refused as names |
| Names.TwoSlashKeyExample | pkg/apis/extensions/validation/validation_test.go:908-910 | `abc/def/ghi` is not a qualified name |
| Names.EqualsSignExamples | pkg/apis/extensions/validation/validation_test.go:646-683 | the key `NoUppercaseOrSpecialCharsLike=Equals` is neither a qualified name, a subdomain nor a label |
| Names.NotQualifiedLower | pkg/apis/extensions/validation/validation_test.go:671-683 | an `=` in a key keeps it unqualified after lower-casing, as annotation keys are checked |
| IntOrPercent.PercentValue | pkg/apis/extensions/validation/validation_test.go:920-949 | a value has a percentage exactly when it is a string of digits followed by `%` |
| IntOrPercent.PercentRoundTrip | pkg/apis/extensions/validation/validation_test.go:769-785 | writing `n%` and reading it back gives `n` |
| IntOrPercent.AtoiIntToString | pkg/apis/extensions/validation/validation_test.go:752-768 | reading back the text of any integer gives it |
| IntOrPercent.ValidatePositiveIntOrPercent | pkg/apis/extensions/validation/validation_test.go:920-928 | accepted exactly when a string is a percentage and a count is not negative; errors are Invalid at the field |
| IntOrPercent.ValidateNonnegativeField | pkg/apis/extensions/validation/validation_test.go:995-1026 | accepted exactly when the value is not negative; the detail is "must be greater than or equal to 0" |
| IntOrPercent.IsNotMoreThan100Percent | pkg/apis/extensions/validation/validation_test.go:941-949 | accepted exactly when a percentage is at most 100 |
| IntOrPercent.PercentExamples | pkg/apis/extensions/validation/validation_test.go:920-949 | `20Percent` is no percentage; `110%`, `150%` and `0%` read as 110, 150 and 0 |
| Meta.SetToSeq | pkg/apis/extensions/validation/validation_test.go:646-683 | the listed keys are exactly the map's keys (the map is ranged over in some order) |
| Meta.SetToSeqDistinct | pkg/apis/extensions/validation/validation_test.go:646-683 | the listed keys are pairwise distinct and as many as the map's keys |
| Meta.ValidateLabels | pkg/apis/extensions/validation/validation_test.go:646-670 | no errors exactly when every key is qualified and every value a label value; all errors at the given field |
| Meta.ValidateLabelsBlamesBadEntries | pkg/apis/extensions/validation/validation_test.go:646-670 | every unqualified label key, and every bad label value, is reported by an Invalid error naming it |
| Meta.LabelErrors | pkg/apis/extensions/validation/validation_test.go:646-670 | no errors exactly when every listed key is qualified and its value a label value; all errors Invalid at the given field; each unqualified key gets an Invalid error naming it, and each bad value one naming the value |
| Meta.ValidateAnnotations | pkg/apis/extensions/validation/validation_test.go:671-683 | no errors exactly when lower-cased keys are qualified and the total size fits 256 KiB |
| Meta.AnnotationKeyErrors | pkg/apis/extensions/validation/validation_test.go:671-683 | no errors exactly when every listed key is qualified once lower-cased; all errors Invalid at the given field; each such unqualified key gets an Invalid error naming it |
| Meta.ValidateName | pkg/apis/extensions/validation/validation_test.go:1309-1324 | empty names are Required; otherwise a subdomain or the one expected name |
| Meta.ValidateNamespace | pkg/apis/extensions/validation/validation_test.go:1325-1341 | empty namespaces are Required; otherwise a DNS label |
| Meta.ValidateObjectMeta | pkg/apis/extensions/validation/validation_test.go:613-683 | no errors exactly when name, namespace, labels and annotations are valid; every error sits at one of the four metadata fields |
| Meta.NamedMetaErrors | pkg/apis/extensions/validation/validation_test.go:613-626 | for metadata with only a name and a namespace, those two decide the errors |
| Meta.NamedMetaValid | pkg/apis/extensions/validation/validation_test.go:588-611 | metadata with a subdomain name, a label namespace and nothing else is valid and draws no errors |
| Meta.EmptyNameFirst | pkg/apis/extensions/validation/validation_test.go:890-894 | an empty name is the first error, Required at metadata.name |
| Meta.ValidateObjectMetaUpdate | pkg/apis/extensions/validation/validation_test.go:1535-1555 | an update is accepted exactly when the new object has a resource version, name, namespace and uid are unchanged, and the new labels and annotations are valid |
| Meta.MissingResourceVersionFirst | pkg/apis/extensions/validation/validation_test.go:437-454 | a missing resource version is the first error, and a changed name the second |
| Meta.UnchangedMetaUpdate | pkg/apis/extensions/validation/validation_test.go:1535-1540 | an unchanged object with a resource version passes the metadata update check |
| Meta.MatchesAllProperties | pkg/apis/extensions/validation/validation_test.go:633-639 | an empty selector matches any labels, and extra labels never break a match |
| Meta.MismatchFails | pkg/apis/extensions/validation/validation_test.go:1037-1055 | a selector key missing from the labels, or with another value, is a mismatch |
| Meta.ValidateLabelSelector | pkg/apis/extensions/validation/validation_test.go:455-472 | a present selector's labels are checked under `matchLabels` |
| PodTemplates.ValidateRestartPolicy | pkg/apis/extensions/validation/validation_test.go:684-721 | empty policies are Required and unknown ones NotSupported, listing Always, OnFailure, Never |
| PodTemplates.ValidatePodSpec | pkg/apis/extensions/validation/validation_test.go:640-645 | no errors exactly when the abstracted rest of the pod spec is valid and the restart policy is known |
| PodTemplates.ValidatePodTemplateSpec | pkg/apis/extensions/validation/validation_test.go:640-670 | no errors exactly when labels, annotations and pod spec are valid; every error lies strictly below the template's path |
| Autoscaling.ValidatePositive | pkg/apis/extensions/validation/validation_test.go:157-172 | accepted exactly when the value is above 0 |
| Autoscaling.ValidateNotBelow | pkg/apis/extensions/validation/validation_test.go:173-188 | accepted exactly when the upper bound is at least the lower; the detail names the lower field |
| Autoscaling.ValidateSegment | pkg/apis/extensions/validation/validation_test.go:73-156 | empty segments are Required; `.`, `..`, or ones with `/` or `%` are Invalid |
| Autoscaling.ValidateSubresourceReference | pkg/apis/extensions/validation/validation_test.go:73-156 | accepted exactly when kind, name and subresource are valid path segments; errors under spec.scaleRef |
| Autoscaling.ValidateHorizontalPodAutoscalerSpec | pkg/apis/extensions/validation/validation_test.go:29-215 | accepted exactly when the ranges are valid, the reference is valid and the subresource is `scale` |
| Autoscaling.ValidateHorizontalPodAutoscaler | pkg/apis/extensions/validation/validation_test.go:29-215 | accepted exactly when the metadata and the spec are valid |
| Autoscaling.SpecErrorsOnly | pkg/apis/extensions/validation/validation_test.go:69-215 | with valid metadata, the errors are exactly the spec's |
| Autoscaling.RangeErrorsComeFirst | pkg/apis/extensions/validation/validation_test.go:157-215 | a bad replica range or CPU target is the first error, even when the scale reference is empty |
| Autoscaling.ValidateClusterAutoscalerSpec | pkg/apis/extensions/validation/validation_test.go:1342-1386 | accepted exactly when 0 <= minNodes <= maxNodes and there is at least one utilisation target |
| Autoscaling.ValidateClusterAutoscaler | pkg/apis/extensions/validation/validation_test.go:1283-1395 | accepted exactly when the name is `ClusterAutoscaler`, the namespace `default`, labels and annotations valid and the spec valid |
| Autoscaling.DefaultIsLabel | pkg/apis/extensions/validation/validation_test.go:1325-1341 | `default` is a DNS label |
| Autoscaling.ValidateScale | pkg/apis/extensions/validation/validation_test.go:1397-1459 | accepted exactly when metadata is valid and replicas >= 0; with valid metadata a negative count is the one error, at spec.replicas |
| AutoscalingCases.AutoscalerMetaValid | pkg/apis/extensions/validation/validation_test.go:32-35 | the autoscaler's metadata is valid |
| AutoscalingCases.HorizontalPodAutoscalerSuccessCases | pkg/apis/extensions/validation/validation_test.go:29-67 | min 1, max 5, with and without a CPU target, are accepted |
| AutoscalingCases.AutoscalerCase | pkg/apis/extensions/validation/validation_test.go:29-67 | with the `myautoscaler` metadata, the spec alone decides the errors |
| AutoscalingCases.ReferenceCase | pkg/apis/extensions/validation/validation_test.go:73-156 | with valid ranges, the reference alone decides the errors |
| AutoscalingCases.RangeCase | pkg/apis/extensions/validation/validation_test.go:157-215 | with an empty reference, the range errors come first |
| AutoscalingCases.EmptyRefErrors | pkg/apis/extensions/validation/validation_test.go:157-205 | a reference with only the `scale` subresource gives Required for kind and then for name |
| AutoscalingCases.SegmentsOfValidRef | pkg/apis/extensions/validation/validation_test.go:37-41 | the valid reference's segments pass |
| AutoscalingCases.ScaleRefKindCases | pkg/apis/extensions/validation/validation_test.go:70-96 | an empty kind is Required and `..` Invalid, at spec.scaleRef.kind |
| AutoscalingCases.ScaleRefNameCases | pkg/apis/extensions/validation/validation_test.go:97-120 | an empty name is Required and `..` Invalid, at spec.scaleRef.name |
| AutoscalingCases.ScaleRefSubresourceCases | pkg/apis/extensions/validation/validation_test.go:121-144 | an empty subresource is Required and `..` Invalid |
| AutoscalingCases.ScaleRefUnsupportedCase | pkg/apis/extensions/validation/validation_test.go:145-156 | any subresource other than `scale` is NotSupported |
| AutoscalingCases.UnsupportedSubresourceCase | pkg/apis/extensions/validation/validation_test.go:145-156 | a well-formed subresource other than `scale` is the one error, NotSupported with `scale` as the allowed value |
| AutoscalingCases.MinReplicasBelowOneCase | pkg/apis/extensions/validation/validation_test.go:157-171 | a minimum of -1 is reported first, as not greater than 0, although kind and name of the reference are empty |
| AutoscalingCases.MaxBelowMinCase | pkg/apis/extensions/validation/validation_test.go:172-186 | a maximum of 5 under a minimum of 7 is reported first, against `minReplicas` |
| AutoscalingCases.CpuTargetBelowOneCase | pkg/apis/extensions/validation/validation_test.go:187-205 | a CPU target of -70 is reported first, as not greater than 0 |
| AutoscalingCases.ScaleRefPathRendering | pkg/apis/extensions/validation/validation_test.go:83 | the kind's path renders as `spec.scaleRef.kind` |
| AutoscalingCases.ClusterAutoscalerSuccessCase | pkg/apis/extensions/validation/validation_test.go:1284-1306 | the well-formed cluster autoscaler is accepted |
| AutoscalingCases.NodeSpecCase | pkg/apis/extensions/validation/validation_test.go:1342-1386 | with the right name and namespace, the spec alone decides the errors |
| AutoscalingCases.ClusterAutoscalerNameCase | pkg/apis/extensions/validation/validation_test.go:1309-1324 | any other name gives "must be 'ClusterAutoscaler'" first |
| AutoscalingCases.WrongNameCase | pkg/apis/extensions/validation/validation_test.go:1309-1324 | in the default namespace, any other non-empty name is reported first as Invalid at metadata.name |
| AutoscalingCases.ClusterAutoscalerNamespaceCase | pkg/apis/extensions/validation/validation_test.go:1325-1341 | another namespace gives "must be 'default'" first |
| AutoscalingCases.ClusterAutoscalerSpecCases | pkg/apis/extensions/validation/validation_test.go:1342-1386 | minNodes -1, min 10 over max 5, and no targets are the first errors |
| AutoscalingCases.ScaleCases | pkg/apis/extensions/validation/validation_test.go:1397-1459 | replicas 0, 1 and 10 are accepted; -1 gives "must be greater than or equal to 0" |
| DaemonSets.ValidateRollingUpdateDaemonSet | pkg/apis/extensions/validation/validation_test.go:752-820 | accepted exactly when maxUnavailable is a count >= 1 or a percentage in 1..100, and minReadySeconds >= 0 |
| DaemonSets.ValidateDaemonSetUpdateStrategy | pkg/apis/extensions/validation/validation_test.go:722-820 | only RollingUpdate is supported, and its parameters are required and checked |
| DaemonSets.TemplateErrors | pkg/apis/extensions/validation/validation_test.go:627-721 | a missing template is Required; otherwise selector match, the template, the Always policy and the strategy |
| DaemonSets.ValidateDaemonSetSpec | pkg/apis/extensions/validation/validation_test.go:556-820 | accepted exactly when the selector and template match, the template is valid with policy Always, and the strategy is valid |
| DaemonSets.ValidateDaemonSet | pkg/apis/extensions/validation/validation_test.go:556-841 | accepted exactly when metadata and spec are valid |
| DaemonSets.DaemonSetErrorFields | pkg/apis/extensions/validation/validation_test.go:821-841 | when the selector's labels are valid, every error lies in the allowed field set of the create table |
| DaemonSets.ValidateDaemonSetUpdate | pkg/apis/extensions/validation/validation_test.go:281-435 | accepted exactly when the metadata update and the new spec are valid |
| DaemonSets.ValidateDaemonSetStatus | pkg/apis/extensions/validation/validation_test.go:253-279 | accepted exactly when the three counters are not negative; every error is Invalid and lies at a direct child of status |
| DaemonSets.ValidateDaemonSetStatusUpdate | pkg/apis/extensions/validation/validation_test.go:218-279 | accepted exactly when the metadata update is valid and the new counters are not negative |
| DaemonSets.StatusUpdateIgnoresOldStatus | pkg/apis/extensions/validation/validation_test.go:224-251 | a status update does not depend on the old status or on either spec |
| DaemonSets.SelectorLabelsFieldNotAllowed | pkg/apis/extensions/validation/validation_test.go:826-839 | spec.selector.matchLabels is not in the create table's allowed field list |
| DaemonSets.MetaPathRendering | pkg/apis/extensions/validation/validation_test.go:826-839 | a metadata field's path renders as `metadata.<field>`, the text the create table compares |
| DaemonSets.SpecPathRendering | pkg/apis/extensions/validation/validation_test.go:826-839 | a spec field's path renders as `spec.<field>` |
| DaemonSets.BelowSpecFieldRendering | pkg/apis/extensions/validation/validation_test.go:826-839 | a path below a spec field renders with `spec.<field>` in front, and with `spec.<field>.` in front when the next step is a field, matching the table's prefix tests |
| DaemonSets.MalformedSelectorLabelError | pkg/apis/extensions/validation/validation_test.go:821-841 | a malformed selector label gives a spec error at spec.selector.matchLabels |
| DaemonSets.MalformedSelectorLabelOutsideAllowed | pkg/apis/extensions/validation/validation_test.go:821-841 | a malformed selector label gives an error outside the allowed field set, so DaemonSetErrorFields needs its hypothesis |
| DaemonSetCases.SimpleLabelsValid | pkg/apis/extensions/validation/validation_test.go:282-283 | `{a:b}` and `{c:d}` are valid labels |
| DaemonSetCases.ValidTemplateValid | pkg/apis/extensions/validation/validation_test.go:557-575 | the table's template and strategy are valid |
| DaemonSetCases.DaemonSetSuccessCases | pkg/apis/extensions/validation/validation_test.go:588-611 | `abc` and `abc-123` with matching selector and template are accepted |
| DaemonSetCases.ValidDaemonAccepted | pkg/apis/extensions/validation/validation_test.go:588-611 | under any subdomain name, the valid selector, template and strategy are accepted |
| DaemonSetCases.ZeroLengthNameCase | pkg/apis/extensions/validation/validation_test.go:613-619 | an empty name is refused, at allowed fields |
| DaemonSetCases.MissingNamespaceCase | pkg/apis/extensions/validation/validation_test.go:620-626 | an empty namespace is refused, at allowed fields |
| DaemonSetCases.EmptySelectorCase | pkg/apis/extensions/validation/validation_test.go:627-632 | a missing selector is refused, at allowed fields |
| DaemonSetCases.SelectorMismatchCase | pkg/apis/extensions/validation/validation_test.go:633-639 | selector `{foo:bar}` against labels `{a:b}` is refused |
| DaemonSetCases.MissingTemplateCase | pkg/apis/extensions/validation/validation_test.go:640-645 | a missing template is refused |
| DaemonSetCases.InvalidLabelCase | pkg/apis/extensions/validation/validation_test.go:646-658 | an invalid label key is refused |
| DaemonSetCases.InvalidLabelAndTemplateCase | pkg/apis/extensions/validation/validation_test.go:659-670 | an invalid label key with an invalid template is refused |
| DaemonSetCases.BadAnnotationsInvalid | pkg/apis/extensions/validation/validation_test.go:671-683 | the annotation key with `=` is invalid |
| DaemonSetCases.InvalidAnnotationCase | pkg/apis/extensions/validation/validation_test.go:671-683 | an invalid annotation key is refused |
| DaemonSetCases.DaemonSetRestartPolicyCases | pkg/apis/extensions/validation/validation_test.go:684-721 | restart policies OnFailure and Never are refused |
| DaemonSetCases.DaemonSetStrategyCases | pkg/apis/extensions/validation/validation_test.go:722-820 | type `""`, a nil rolling update, maxUnavailable 0, 150% or -1, and minReadySeconds -1 are refused |
| DaemonSetCases.DaemonSetUpdateSuccessCases | pkg/apis/extensions/validation/validation_test.go:373-435 | an unchanged update and one changing selector and labels together are accepted; the nodeSelector row (validation_test.go:410-427) is the same as the first under the pod-spec abstraction |
| DaemonSetCases.ValidSpecs | pkg/apis/extensions/validation/validation_test.go:373-435 | the original spec and the one with selector and labels both {c:d} are valid |
| DaemonSetCases.SameVersionUpdate | pkg/apis/extensions/validation/validation_test.go:373-435 | between objects with the same name and resource version, a valid new spec is accepted whatever the old one was |
| DaemonSetCases.DaemonSetUpdateErrorCasesAsWritten | pkg/apis/extensions/validation/validation_test.go:437-547 | as written, every update error row is refused for its metadata: missing resource version, then changed name |
| DaemonSetCases.DaemonSetUpdateErrorCasesCorrected | pkg/apis/extensions/validation/validation_test.go:455-547 | with the metadata put right, the selector, pod, image and strategy rows are still refused |
| DaemonSetCases.DaemonSetStatusUpdateSuccessCase | pkg/apis/extensions/validation/validation_test.go:224-251 | lowering numberMisscheduled from 2 to 1 is accepted, on objects whose spec is the zero value |
| DaemonSetCases.DaemonSetStatusUpdateErrorCaseAsWritten | pkg/apis/extensions/validation/validation_test.go:253-279 | as written, the status error row is refused only for the missing resource version |
| DaemonSetCases.DaemonSetStatusUpdateErrorCaseCorrected | pkg/apis/extensions/validation/validation_test.go:253-279 | in the intended order, the three negative counters are reported in field order |
| Deployments.ValidateRollingUpdateDeployment | pkg/apis/extensions/validation/validation_test.go:920-949 | accepted exactly when both amounts are well formed, not both 0, maxUnavailable at most 100% and minReadySeconds >= 0 |
| Deployments.ValidateDeploymentStrategy | pkg/apis/extensions/validation/validation_test.go:912-949 | without parameters any strategy passes; Recreate refuses them; RollingUpdate checks them |
| Deployments.ValidateTemplateForReplicas | pkg/apis/extensions/validation/validation_test.go:895-905 | a non-empty selector must match the labels, the template must be valid and the policy Always |
| Deployments.ValidateDeploymentSpec | pkg/apis/extensions/validation/validation_test.go:844-958 | accepted exactly when selector, replicas, template, strategy and unique label key are valid |
| Deployments.ValidateDeployment | pkg/apis/extensions/validation/validation_test.go:879-958 | accepted exactly when metadata and spec are valid |
| Deployments.StrategyErrorsFirst | pkg/apis/extensions/validation/validation_test.go:912-949 | with everything else valid, the strategy errors come first, followed only by the unique-label error |
| Deployments.SpecStrategyErrorsFirst | pkg/apis/extensions/validation/validation_test.go:912-949 | with selector, replicas and template valid, the spec errors are the strategy errors followed only by the unique-label error |
| Deployments.RestartPolicyErrorFirst | pkg/apis/extensions/validation/validation_test.go:902-905 | with everything before it valid, a restart policy other than Always is the first error, NotSupported with Always allowed |
| DeploymentCases.ValidDeploymentParts | pkg/apis/extensions/validation/validation_test.go:844-877 | the valid deployment's metadata and templates are valid |
| DeploymentCases.DeploymentSuccessCase | pkg/apis/extensions/validation/validation_test.go:880-887 | the valid deployment is accepted |
| DeploymentCases.MissingNameCase | pkg/apis/extensions/validation/validation_test.go:890-894 | a deployment with only a namespace reports metadata.name Required first |
| DeploymentCases.SelectorMismatchCase | pkg/apis/extensions/validation/validation_test.go:895-900 | selector `{name:def}` gives the mismatch error first |
| DeploymentCases.RestartPolicyCase | pkg/apis/extensions/validation/validation_test.go:902-905 | policy Never gives NotSupported "Never" first |
| DeploymentCases.UniqueLabelCase | pkg/apis/extensions/validation/validation_test.go:907-910 | key `abc/def/ghi` gives exactly spec.uniqueLabel Invalid |
| DeploymentCases.RecreateWithParametersCase | pkg/apis/extensions/validation/validation_test.go:912-918 | Recreate with parameters gives exactly the Forbidden error |
| DeploymentCases.StrategyCase | pkg/apis/extensions/validation/validation_test.go:912-949 | with the valid deployment's other fields, the strategy alone decides the errors |
| DeploymentCases.TwentyPercentReadsAsZero | pkg/apis/extensions/validation/validation_test.go:920-928 | `20Percent` is no percentage and counts as 0 |
| DeploymentCases.MalformedMaxSurgeErrors | pkg/apis/extensions/validation/validation_test.go:920-928 | the malformed maxSurge is reported first, then the both-zero error |
| DeploymentCases.MalformedMaxSurgeCase | pkg/apis/extensions/validation/validation_test.go:920-928 | the deployment's errors are those two |
| DeploymentCases.BothZeroCase | pkg/apis/extensions/validation/validation_test.go:930-939 | `0%` and 0 give exactly "may not be 0 when `maxSurge` is 0" |
| DeploymentCases.BothZeroErrors | pkg/apis/extensions/validation/validation_test.go:930-939 | `0%` with a surge of 0 gives exactly the both-zero error |
| DeploymentCases.MaxUnavailableOver100Case | pkg/apis/extensions/validation/validation_test.go:941-949 | `110%` gives exactly "must not be greater than 100%" |
| DeploymentCases.Over100Errors | pkg/apis/extensions/validation/validation_test.go:941-949 | `110%` with a surge of 0 gives exactly the over-100% error |
| Jobs.ValidateOptionalNonnegative | pkg/apis/extensions/validation/validation_test.go:995-1026 | an absent count passes; a present one must not be negative |
| Jobs.CountErrors | pkg/apis/extensions/validation/validation_test.go:995-1026 | no errors exactly when the three counts are not negative; errors at their own fields |
| Jobs.SelectorAndTemplateErrors | pkg/apis/extensions/validation/validation_test.go:1028-1075 | a selector is required and valid, matches the labels, the template is valid and the policy OnFailure or Never |
| Jobs.ValidateJobSpec | pkg/apis/extensions/validation/validation_test.go:961-1088 | accepted exactly when counts, selector, match, template and policy are valid |
| Jobs.ValidateJob | pkg/apis/extensions/validation/validation_test.go:961-1088 | accepted exactly when metadata and spec are valid |
| Jobs.NegativeCountFirst | pkg/apis/extensions/validation/validation_test.go:995-1026 | with valid metadata, the first negative count is the first error, at exactly its field |
| Jobs.NegativeCountErrorFirst | pkg/apis/extensions/validation/validation_test.go:995-1026 | among the counts, the first negative one in field order is reported first |
| Jobs.SelectorAndTemplateErrorsOnly | pkg/apis/extensions/validation/validation_test.go:1028-1075 | with valid metadata and counts, the selector and template errors are all |
| JobCases.MyJobMeta | pkg/apis/extensions/validation/validation_test.go:976-979 | the job's metadata is valid |
| JobCases.SingleLabelValid | pkg/apis/extensions/validation/validation_test.go:962-967 | a one-entry label map with a valid key and value is valid, as is a template carrying it |
| JobCases.MyJobParts | pkg/apis/extensions/validation/validation_test.go:962-973 | the job's selector and templates are valid |
| JobCases.JobSuccessCase | pkg/apis/extensions/validation/validation_test.go:975-991 | the valid job is accepted |
| JobCases.NegativeCountCases | pkg/apis/extensions/validation/validation_test.go:995-1026 | each negative count is the first error, at spec.parallelism, spec.completions or spec.activeDeadlineSeconds |
| JobCases.MissingSelectorCase | pkg/apis/extensions/validation/validation_test.go:1028-1036 | no selector gives spec.selector Required first |
| JobCases.JobSelectorMismatchCase | pkg/apis/extensions/validation/validation_test.go:1037-1055 | labels `{y:z}` give the mismatch at spec.template.metadata.labels first |
| JobCases.JobRestartPolicyCase | pkg/apis/extensions/validation/validation_test.go:1056-1075 | policy Always gives exactly NotSupported at spec.template.spec.restartPolicy |
| Ingresses.ValidateIngressBackend | pkg/apis/extensions/validation/validation_test.go:1135-1169 | a missing service name is the one error; otherwise the name is a subdomain and the port a number in 1..65535 or a name that is both a DNS label and an IANA service name |
| Ingresses.HyphenEdgedPortNameRefused | pkg/apis/extensions/validation/validation_test.go:1135-1169 | a named port starting or ending with `-` gets the IANA service-name error |
| Ingresses.ValidateHTTPPath | pkg/apis/extensions/validation/validation_test.go:1141-1160 | a non-empty path is absolute and compiles; the backend is valid |
| Ingresses.ValidatePathText | pkg/apis/extensions/validation/validation_test.go:1141-1160 | no errors exactly when the path is empty, or absolute and compiling; every error is Invalid at the path field |
| Ingresses.NoBracketCompiles | pkg/apis/extensions/validation/validation_test.go:1141-1147 | a path without `[` compiles |
| Ingresses.PatternCompilesClosesBrackets | pkg/apis/extensions/validation/validation_test.go:1152-1160 | a path compiles exactly when every `[` has a `]` after it |
| Ingresses.HTTPPathsErrors | pkg/apis/extensions/validation/validation_test.go:1141-1160 | no errors exactly when every path is valid; errors under the rule |
| Ingresses.HTTPRuleErrors | pkg/apis/extensions/validation/validation_test.go:1148-1149 | an HTTP rule needs at least one path |
| Ingresses.ValidateRule | pkg/apis/extensions/validation/validation_test.go:1150-1164 | a host is a subdomain and not an address; the paths are valid |
| Ingresses.RulesErrors | pkg/apis/extensions/validation/validation_test.go:1093-1189 | no errors exactly when every rule is valid |
| Ingresses.RuleErrorsBlameTheirRule | pkg/apis/extensions/validation/validation_test.go:1166-1175 | every rule error is reported under the index of an invalid rule |
| Ingresses.FirstRuleBlamed | pkg/apis/extensions/validation/validation_test.go:1166-1175 | the first rule's errors are reported under its own index |
| Ingresses.ValidateIngressSpec | pkg/apis/extensions/validation/validation_test.go:1093-1189 | a default backend is valid, without one there are rules, and every rule is valid |
| Ingresses.ValidateIngress | pkg/apis/extensions/validation/validation_test.go:1093-1189 | accepted exactly when metadata and spec are valid |
| Ingresses.RuleErrorsOnly | pkg/apis/extensions/validation/validation_test.go:1166-1175 | with valid metadata and backend, the rule errors are all |
| Ingresses.ValidateLoadBalancerIngress | pkg/apis/extensions/validation/validation_test.go:1243-1267 | an IP must be an address; a hostname a subdomain and not an address |
| Ingresses.LoadBalancerErrors | pkg/apis/extensions/validation/validation_test.go:1191-1281 | no errors exactly when every entry is valid; all Invalid under status.loadBalancer.ingress |
| Ingresses.ValidateIngressStatusUpdate | pkg/apis/extensions/validation/validation_test.go:1191-1281 | accepted exactly when the metadata update is valid and every new entry is valid |
| Ingresses.StatusUpdateIgnoresSpec | pkg/apis/extensions/validation/validation_test.go:1191-1281 | a status update depends on neither spec nor on the old status |
| IngressCases.IPv4Examples | pkg/apis/extensions/validation/validation_test.go:1161-1255 | `127.0.0.1`, `127.0.0.2` are addresses; `abcd`, `foo.bar.com`, `foo.com`, `foobar:80` are not |
| IngressCases.LoopbackAddresses | pkg/apis/extensions/validation/validation_test.go:1161-1164 | `127.0.0.1` and `127.0.0.2` are IPv4 literals |
| IngressCases.NamesAreNotAddresses | pkg/apis/extensions/validation/validation_test.go:1243-1258 | `abcd`, `foo.bar.com`, `foo.com` and `foobar:80` are not IPv4 literals |
| IngressCases.ServiceNameExamples | pkg/apis/extensions/validation/validation_test.go:1094-1102 | `foo` and `default-backend` are subdomains |
| IngressCases.HostNameExamples | pkg/apis/extensions/validation/validation_test.go:1110-1239 | `foo.bar.com` and `foo.com` are subdomains |
| IngressCases.AddressIsSubdomain | pkg/apis/extensions/validation/validation_test.go:1161-1163 | `127.0.0.1` is shaped like a subdomain |
| IngressCases.RefusedHostExamples | pkg/apis/extensions/validation/validation_test.go:1137-1151 | `foobar:80` and `defaultBackend` are not subdomains |
| IngressCases.FooMetaValid | pkg/apis/extensions/validation/validation_test.go:1101-1104 | the ingress's metadata is valid |
| IngressCases.FooRuleValid | pkg/apis/extensions/validation/validation_test.go:1105-1124 | the default backend and the one rule are valid |
| IngressCases.ValidIngressParts | pkg/apis/extensions/validation/validation_test.go:1099-1134 | the valid ingress's parts are valid |
| IngressCases.OneRuleErrors | pkg/apis/extensions/validation/validation_test.go:1166-1175 | for one rule, the rule's errors are all |
| IngressCases.OnePathErrors | pkg/apis/extensions/validation/validation_test.go:1172-1174 | for one path under a valid host, the path's errors are all |
| IngressCases.IngressSuccessCase | pkg/apis/extensions/validation/validation_test.go:1099-1134 | the base ingress that every error row alters is accepted, so each row fails only because of its own change |
| IngressCases.BackendErrors | pkg/apis/extensions/validation/validation_test.go:1135-1140 | with valid rules, the default backend decides the errors |
| IngressCases.ServicelessBackendCase | pkg/apis/extensions/validation/validation_test.go:1135-1167 | an empty service name gives exactly spec.backend.serviceName Required |
| IngressCases.BackendFieldErrors | pkg/apis/extensions/validation/validation_test.go:1135-1169 | over the valid rules, a backend error at a backend field is reported at spec.backend and that field |
| IngressCases.InvalidServiceNameCase | pkg/apis/extensions/validation/validation_test.go:1137-1168 | `defaultBackend` gives exactly spec.backend.serviceName Invalid |
| IngressCases.PortRangeErrors | pkg/apis/extensions/validation/validation_test.go:1139-1140 | a port number outside 1..65535 is the only error of a backend with a valid name |
| IngressCases.MissingPortErrors | pkg/apis/extensions/validation/validation_test.go:1139-1140 | a backend without a port has exactly the port-range error |
| IngressCases.MissingPortCase | pkg/apis/extensions/validation/validation_test.go:1139-1169 | the ingress's errors are that one |
| IngressCases.RuleCase | pkg/apis/extensions/validation/validation_test.go:1141-1175 | with the original backend, the one rule decides the errors |
| IngressCases.FooPathErrors | pkg/apis/extensions/validation/validation_test.go:1115-1120 | the original path list passes |
| IngressCases.MalformedHostErrors | pkg/apis/extensions/validation/validation_test.go:1150-1151 | a host neither subdomain nor address gets exactly the subdomain error |
| IngressCases.AddressHostErrors | pkg/apis/extensions/validation/validation_test.go:1161-1164 | an address host gets exactly the not-an-address error |
| IngressCases.BadHostCase | pkg/apis/extensions/validation/validation_test.go:1150-1170 | `foobar:80` gives exactly spec.rules[0].host Invalid |
| IngressCases.HostIPCase | pkg/apis/extensions/validation/validation_test.go:1161-1175 | `127.0.0.1` gives exactly spec.rules[0].host Invalid |
| IngressCases.NoPathsCase | pkg/apis/extensions/validation/validation_test.go:1148-1171 | empty paths give exactly spec.rules[0].http.paths Required |
| IngressCases.PathCase | pkg/apis/extensions/validation/validation_test.go:1141-1160 | under the original host, one path decides the errors |
| IngressCases.PathTextCase | pkg/apis/extensions/validation/validation_test.go:1141-1160 | under the valid host and backend, a path's own text (absolute, compiling) decides the errors |
| IngressCases.RelativePathCase | pkg/apis/extensions/validation/validation_test.go:1141-1172 | `invalid` gives exactly the path's Invalid error |
| IngressCases.UnclosedBracketCase | pkg/apis/extensions/validation/validation_test.go:1152-1174 | `/invalid[` gives exactly the path's Invalid error |
| IngressCases.OneEntryErrors | pkg/apis/extensions/validation/validation_test.go:1265-1280 | with unchanged metadata, the one entry decides the errors |
| IngressCases.IngressStatusUpdateSuccessCase | pkg/apis/extensions/validation/validation_test.go:1234-1263 | changing IP and hostname to valid values is accepted |
| IngressCases.InvalidIPCase | pkg/apis/extensions/validation/validation_test.go:1243-1266 | IP `abcd` gives exactly status.loadBalancer.ingress[0].ip Invalid |
| IngressCases.IPAsHostnameCase | pkg/apis/extensions/validation/validation_test.go:1251-1267 | hostname `127.0.0.1` gives exactly the hostname Invalid error |
| ConfigMaps.SingletonKeys | pkg/apis/extensions/validation/validation_test.go:1479 | a single key is listed alone |
| ConfigMaps.SingleEntrySize | pkg/apis/extensions/validation/validation_test.go:1479-1480 | a one-entry map's data is as large as its value |
| ConfigMaps.DataKeyErrors | pkg/apis/extensions/validation/validation_test.go:1486-1490 | no errors exactly when every listed key obeys the key rule; every error lies at data[key] for a listed bad key; each bad key gets an Invalid error at data[key] naming it |
| ConfigMaps.ValidateConfigMap | pkg/apis/extensions/validation/validation_test.go:1467-1519 | accepted exactly when metadata is valid, every key is a config-map key and the data fits 1 MiB |
| ConfigMaps.DataErrorsNameBadKeys | pkg/apis/extensions/validation/validation_test.go:1486-1490 | every data-key error names a key of the map that breaks the rule |
| ConfigMaps.ValidateConfigMapUpdate | pkg/apis/extensions/validation/validation_test.go:1521-1567 | accepted exactly when the metadata update is valid and the new object is valid |
| ConfigMapCases.ValidMetaValid | pkg/apis/extensions/validation/validation_test.go:1479 | `validname` in `validns` is valid metadata |
| ConfigMapCases.OneEntryCase | pkg/apis/extensions/validation/validation_test.go:1479-1490 | with valid metadata, one key alone decides the outcome: accepted, or exactly one error at data[key] |
| ConfigMapCases.RepeatedKey | pkg/apis/extensions/validation/validation_test.go:1480-1490 | a run of `a`s is a key exactly when it has at most 253 characters |
| ConfigMapCases.KeyExamples | pkg/apis/extensions/validation/validation_test.go:1479-1489 | `key` and `.ab` are keys; `a..b`, `.` and `..` are not |
| ConfigMapCases.ConfigMapSuccessCases | pkg/apis/extensions/validation/validation_test.go:1493-1518 | the valid and leading-dot maps are accepted |
| ConfigMapCases.MaxKeyLengthCase | pkg/apis/extensions/validation/validation_test.go:1480-1498 | a 253-character key is accepted |
| ConfigMapCases.ConfigMapKeyCases | pkg/apis/extensions/validation/validation_test.go:1486-1506 | `a..b`, `.` and `..` are refused |
| ConfigMapCases.OverMaxKeyLengthCase | pkg/apis/extensions/validation/validation_test.go:1490-1507 | a 254-character key is refused |
| ConfigMapCases.NoDataCase | pkg/apis/extensions/validation/validation_test.go:1482-1485 | with no data, the metadata decides the errors |
| ConfigMapCases.ConfigMapMetaCases | pkg/apis/extensions/validation/validation_test.go:1482-1504 | an empty or malformed name or namespace is refused |
| ConfigMapCases.ConfigMapUpdateValidCase | pkg/apis/extensions/validation/validation_test.go:1533-1549 | updating the config map at resource version "1" with itself is accepted |
| ConfigMapCases.VersionedSelfUpdate | pkg/apis/extensions/validation/validation_test.go:1533-1549 | a valid config map given a resource version may be updated with itself |
| ConfigMapCases.ConfigMapUpdateNoVersionCase | pkg/apis/extensions/validation/validation_test.go:1533-1555 | a new object without a resource version is refused, and that is its first error |

## Left out

- Pod spec validation (containers, images, pull and DNS policies, volumes) belongs to the core `api` validation. It is abstracted as a `otherFieldsValid` flag reported at the pod spec; only the restart policy is modelled.
- The GCE persistent-disk read-only check of the DaemonSet tables is part of that pod spec validation. The field `GCEPersistentDisk.ReadOnly` is not modelled.
- Immutability of a DaemonSet's selector or template on update is not modelled, because the update error rows never isolate it.
- IP parsing recognises dotted-quad IPv4 literals only; IPv6 literals are not modelled.
- Ingress path pattern compilation is approximated: a `[` must be closed by a later `]`. Other regular-expression syntax errors are not modelled.
- The ClusterAutoscaler utilisation value is a floating-point number, and its resource name is not checked. Only the list's non-emptiness is modelled.
- Annotation values, `generateName` and name prefixes are not modelled. Neither are label-selector expressions beyond `matchLabels`.
- Percentages are not resolved against a replica count, and the rounding that would involve is not modelled.
- Integers are unbounded; the 32- and 64-bit widths of the counters are not modelled.
- Error rendering beyond the field path, kind, value and detail is not modelled. Where the value is a map (the template labels of a selector mismatch), it is recorded as the empty string.
- Map iteration order is not fixed. The model picks one order of the keys with a non-deterministic choice. So the order of several label, annotation or config-map key errors is not specified.
- DaemonSetErrorFields: holds only when the selector's labels are valid. A malformed selector label is reported at `spec.selector.matchLabels`, which the create table's allowed list leaves out; no row of that table has one (MalformedSelectorLabelOutsideAllowed states the exception).
- Ingresses.ValidateIngressBackend: the service name is checked as a DNS subdomain. Kubernetes 1.2 checks it as a DNS-952 label, which refuses names such as `a.b` and `1abc` that a subdomain allows; the tables do not tell the two apart.
- AnnotationsSize, EntriesSize, DataSize, ValuesSize: sizes count characters, not the UTF-8 bytes Go's `len` counts, so values with multi-byte characters come out smaller than in Go.
- ToLower: folds only the ASCII letters A-Z. Go's `strings.ToLower` also folds other Unicode letters (U+212A KELVIN SIGN becomes `k`).
- The generated fake service client in `pkg/client/typed/generated/legacy/unversioned/fake/fake_service.go` is test plumbing and is not part of this model.

## Findings

| source | as written | input that shows it | evidently intended | confidence | as-written member | corrected member |
|---|---|---|---|---|---|---|
| pkg/apis/extensions/validation/validation_test.go:253-279 | the status-update error row calls the validator with the new and old objects swapped and neither object has a resource version | new status (1, 2, 3), old status (-1, -1, -3), no resource version: the only error is the missing resource version | the negative counters, in the new object, are each reported | not executed | DaemonSetCases.DaemonSetStatusUpdateErrorCaseAsWritten | DaemonSetCases.DaemonSetStatusUpdateErrorCaseCorrected |
| pkg/apis/extensions/validation/validation_test.go:437-547 | every update error row renames the object from `""` to `abc` and omits the resource version | any of the rows: the first errors are the missing resource version and the immutable name, whatever the spec | each row is refused for the spec change it names | not executed | DaemonSetCases.DaemonSetUpdateErrorCasesAsWritten | DaemonSetCases.DaemonSetUpdateErrorCasesCorrected |
