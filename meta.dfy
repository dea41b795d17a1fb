/** Object metadata (name, namespace, labels, annotations, resource version,
    uid), the label-selector matcher, and the checks every object validator
    runs on its metadata at creation and at update. */
module Meta {
  import opened FieldPaths
  import opened Names

  const NamespaceDefault := "default"
  /** Upper bound on the summed length of all annotation keys and values (256 KiB). */
  const TotalAnnotationSizeLimit := 256 * 1024

  datatype ObjectMeta = ObjectMeta(
    name: string,
    namespace: string,
    uid: string,
    resourceVersion: string,
    labels: map<string, string>,
    annotations: map<string, string>)

  /** Metadata with only a name and a namespace, as most test objects carry. */
  function NamedMeta(name: string, namespace: string): ObjectMeta
  {
    ObjectMeta(name, namespace, "", "", map[], map[])
  }

  /** Go ranges over a map in no fixed order; this picks one order of the keys. */
  ghost function SetToSeq(s: set<string>): (r: seq<string>)
    ensures forall x :: x in r <==> x in s
  {
    if s == {} then [] else var x :| x in s; [x] + SetToSeq(s - {x})
  }

  /** Each element of the set is listed once: no repeats, and as many entries as elements. */
  lemma {:induction false} SetToSeqDistinct(s: set<string>)
    ensures |SetToSeq(s)| == |s|
    ensures forall i, j :: 0 <= i < j < |SetToSeq(s)| ==> SetToSeq(s)[i] != SetToSeq(s)[j]
  {
    var r := SetToSeq(s);
    if s != {} {
      var x := r[0];
      var rest := SetToSeq(s - {x});
      assert r == [x] + rest;
      SetToSeqDistinct(s - {x});
      assert x !in rest;
      forall i, j | 0 <= i < j < |r|
        ensures r[i] != r[j]
      {
        if i == 0 {
          assert r[j] == rest[j - 1];
        } else {
          assert r[i] == rest[i - 1] && r[j] == rest[j - 1];
        }
      }
    }
  }

  // ---- labels ----------------------------------------------------------

  /** Every key is a qualified name and every value a valid label value. */
  ghost predicate LabelsValid(labels: map<string, string>)
  {
    forall k :: k in labels ==> IsQualifiedName(k) && IsValidLabelValue(labels[k])
  }

  /** Invalid errors, all at `p` itself; ValidateLabelsBlamesBadEntries shows
      that each bad key and each bad value gets one. */
  ghost function ValidateLabels(labels: map<string, string>, p: Path): (errs: seq<Error>)
    ensures errs == [] <==> LabelsValid(labels)
    ensures forall e :: e in errs ==> e.field == p && e.kind == Invalid
  {
    LabelErrors(SetToSeq(labels.Keys), labels, p)
  }

  /** Every bad key, and the value of every key whose value is bad, is reported. */
  lemma ValidateLabelsBlamesBadEntries(labels: map<string, string>, p: Path)
    ensures forall k :: k in labels && !IsQualifiedName(k) ==>
      InvalidError(p, k, QualifiedNameErrorMsg) in ValidateLabels(labels, p)
    ensures forall k :: k in labels && !IsValidLabelValue(labels[k]) ==>
      InvalidError(p, labels[k], LabelValueErrorMsg) in ValidateLabels(labels, p)
  {
  }

  ghost function LabelErrors(keys: seq<string>, labels: map<string, string>, p: Path): (errs: seq<Error>)
    requires forall k :: k in keys ==> k in labels
    ensures errs == [] <==> forall k :: k in keys ==> IsQualifiedName(k) && IsValidLabelValue(labels[k])
    ensures forall e :: e in errs ==> e.field == p && e.kind == Invalid
    ensures forall k :: k in keys && !IsQualifiedName(k) ==> InvalidError(p, k, QualifiedNameErrorMsg) in errs
    ensures forall k :: k in keys && !IsValidLabelValue(labels[k]) ==> InvalidError(p, labels[k], LabelValueErrorMsg) in errs
  {
    if keys == [] then []
    else
      var k := keys[0];
      (if IsQualifiedName(k) then [] else [InvalidError(p, k, QualifiedNameErrorMsg)])
      + (if IsValidLabelValue(labels[k]) then [] else [InvalidError(p, labels[k], LabelValueErrorMsg)])
      + LabelErrors(keys[1..], labels, p)
  }

  // ---- annotations -----------------------------------------------------

  /** Summed length of the keys and values listed in `keys`. */
  ghost function EntriesSize(keys: seq<string>, m: map<string, string>): nat
    requires forall k :: k in keys ==> k in m
  {
    if keys == [] then 0 else |keys[0]| + |m[keys[0]]| + EntriesSize(keys[1..], m)
  }

  ghost function AnnotationsSize(annotations: map<string, string>): nat
  {
    EntriesSize(SetToSeq(annotations.Keys), annotations)
  }

  /** Keys, once lower-cased, are qualified names, and the whole map fits the size limit. */
  ghost predicate AnnotationsValid(annotations: map<string, string>)
  {
    && (forall k :: k in annotations ==> IsQualifiedName(ToLower(k)))
    && AnnotationsSize(annotations) <= TotalAnnotationSizeLimit
  }

  ghost function ValidateAnnotations(annotations: map<string, string>, p: Path): (errs: seq<Error>)
    ensures errs == [] <==> AnnotationsValid(annotations)
    ensures forall e :: e in errs ==> e.field == p
  {
    AnnotationKeyErrors(SetToSeq(annotations.Keys), p)
    + (if AnnotationsSize(annotations) > TotalAnnotationSizeLimit
       then [Error(p, TooLong, "", "must have at most 262144 characters")]
       else [])
  }

  ghost function AnnotationKeyErrors(keys: seq<string>, p: Path): (errs: seq<Error>)
    ensures errs == [] <==> forall k :: k in keys ==> IsQualifiedName(ToLower(k))
    ensures forall e :: e in errs ==> e.field == p && e.kind == Invalid
    ensures forall k :: k in keys && !IsQualifiedName(ToLower(k)) ==> InvalidError(p, k, QualifiedNameErrorMsg) in errs
  {
    if keys == [] then []
    else
      var ok := IsQualifiedName(ToLower(keys[0]));
      var rest := AnnotationKeyErrors(keys[1..], p);
      assert forall k :: k in keys ==> k == keys[0] || k in keys[1..];
      assert forall k :: k in keys[1..] ==> k in keys;
      assert keys[0] in keys;
      (if ok then [] else [InvalidError(p, keys[0], QualifiedNameErrorMsg)]) + rest
  }

  // ---- names -----------------------------------------------------------

  /** How a kind constrains its object names: a DNS subdomain, or one fixed name. */
  datatype NameRule = DNSSubdomainName | ExactName(expected: string)

  predicate NameAllowed(name: string, rule: NameRule)
  {
    match rule
    case DNSSubdomainName => IsDNS1123Subdomain(name)
    case ExactName(expected) => name == expected
  }

  function ValidateName(name: string, rule: NameRule, p: Path): (errs: seq<Error>)
    ensures errs == [] <==> name != "" && NameAllowed(name, rule)
    ensures name == "" ==> errs == [RequiredError(p, "name or generateName is required")]
    ensures forall e :: e in errs ==> e.field == p
  {
    if name == "" then [RequiredError(p, "name or generateName is required")]
    else if NameAllowed(name, rule) then []
    else match rule
      case DNSSubdomainName => [InvalidError(p, name, DNS1123SubdomainErrorMsg)]
      case ExactName(expected) => [InvalidError(p, name, "must be '" + expected + "'")]
  }

  function ValidateNamespace(namespace: string, p: Path): (errs: seq<Error>)
    ensures errs == [] <==> IsDNS1123Label(namespace)
    ensures namespace == "" ==> errs == [RequiredError(p, "")]
    ensures forall e :: e in errs ==> e.field == p
  {
    if namespace == "" then [RequiredError(p, "")]
    else if IsDNS1123Label(namespace) then []
    else [InvalidError(p, namespace, DNS1123LabelErrorMsg)]
  }

  // ---- object metadata -------------------------------------------------

  /** What ValidateObjectMeta accepts, stated field by field. */
  ghost predicate MetaValid(meta: ObjectMeta, rule: NameRule)
  {
    && meta.name != "" && NameAllowed(meta.name, rule)
    && IsDNS1123Label(meta.namespace)
    && LabelsValid(meta.labels)
    && AnnotationsValid(meta.annotations)
  }

  /** Field paths of the metadata checks, below `metadata`. */
  function MetaPath(field: string): Path
  {
    [Child("metadata"), Child(field)]
  }

  /** Metadata checks of a namespaced object at creation. Every error sits at
      metadata.name, metadata.namespace, metadata.labels or metadata.annotations. */
  ghost function ValidateObjectMeta(meta: ObjectMeta, rule: NameRule): (errs: seq<Error>)
    ensures errs == [] <==> MetaValid(meta, rule)
    ensures forall e :: e in errs ==> e.field in {MetaPath("name"), MetaPath("namespace"), MetaPath("labels"), MetaPath("annotations")}
  {
    ValidateName(meta.name, rule, MetaPath("name"))
    + ValidateNamespace(meta.namespace, MetaPath("namespace"))
    + ValidateLabels(meta.labels, MetaPath("labels"))
    + ValidateAnnotations(meta.annotations, MetaPath("annotations"))
  }

  /** For metadata with only a name and a namespace, those two decide the errors. */
  lemma NamedMetaErrors(name: string, namespace: string, rule: NameRule)
    ensures ValidateObjectMeta(NamedMeta(name, namespace), rule)
      == ValidateName(name, rule, MetaPath("name")) + ValidateNamespace(namespace, MetaPath("namespace"))
  {
    assert LabelsValid(map[]);
    assert AnnotationsValid(map[]);
  }

  /** Metadata with a subdomain name, a label namespace and nothing else is valid. */
  lemma NamedMetaValid(name: string, namespace: string)
    requires IsDNS1123Subdomain(name) && IsDNS1123Label(namespace)
    ensures MetaValid(NamedMeta(name, namespace), DNSSubdomainName)
    ensures ValidateObjectMeta(NamedMeta(name, namespace), DNSSubdomainName) == []
  {
    assert LabelsValid(map[]);
    assert AnnotationsValid(map[]);
  }

  /** An empty name is reported first, as Required at metadata.name. */
  lemma EmptyNameFirst(meta: ObjectMeta, rule: NameRule)
    requires meta.name == ""
    ensures |ValidateObjectMeta(meta, rule)| >= 1
    ensures ValidateObjectMeta(meta, rule)[0] == RequiredError(MetaPath("name"), "name or generateName is required")
  {
  }

  // ---- updates ---------------------------------------------------------

  /** The uid an update is checked with: an empty new uid is repaired to the old one. */
  function EffectiveUid(newMeta: ObjectMeta, oldMeta: ObjectMeta): string
  {
    if newMeta.uid == "" then oldMeta.uid else newMeta.uid
  }

  function ValidateImmutableField(newValue: string, oldValue: string, p: Path): (errs: seq<Error>)
    ensures errs == [] <==> newValue == oldValue
    ensures forall e :: e in errs ==> e.field == p && e.kind == Invalid
  {
    if newValue == oldValue then [] else [InvalidError(p, newValue, "field is immutable")]
  }

  /** What ValidateObjectMetaUpdate accepts, stated field by field. */
  ghost predicate MetaUpdateValid(newMeta: ObjectMeta, oldMeta: ObjectMeta)
  {
    && newMeta.resourceVersion != ""
    && newMeta.name == oldMeta.name
    && newMeta.namespace == oldMeta.namespace
    && (newMeta.uid == "" || newMeta.uid == oldMeta.uid)
    && LabelsValid(newMeta.labels)
    && AnnotationsValid(newMeta.annotations)
  }

  /** Metadata checks of an update: a resource version must be given, name,
      namespace and uid may not change, and the new labels and annotations
      must be valid. */
  ghost function ValidateObjectMetaUpdate(newMeta: ObjectMeta, oldMeta: ObjectMeta): (errs: seq<Error>)
    ensures errs == [] <==> MetaUpdateValid(newMeta, oldMeta)
    ensures forall e :: e in errs ==> |e.field| == 2 && e.field[0] == Child("metadata")
  {
    (if newMeta.resourceVersion == ""
     then [InvalidError(MetaPath("resourceVersion"), "", "must be specified for an update")]
     else [])
    + ValidateImmutableField(newMeta.name, oldMeta.name, MetaPath("name"))
    + ValidateImmutableField(newMeta.namespace, oldMeta.namespace, MetaPath("namespace"))
    + ValidateImmutableField(EffectiveUid(newMeta, oldMeta), oldMeta.uid, MetaPath("uid"))
    + ValidateLabels(newMeta.labels, MetaPath("labels"))
    + ValidateAnnotations(newMeta.annotations, MetaPath("annotations"))
  }

  /** An update without a resource version is reported first, at
      metadata.resourceVersion; a renamed object is reported next. */
  lemma MissingResourceVersionFirst(newMeta: ObjectMeta, oldMeta: ObjectMeta)
    requires newMeta.resourceVersion == ""
    ensures var errs := ValidateObjectMetaUpdate(newMeta, oldMeta);
      |errs| >= 1 && errs[0] == InvalidError(MetaPath("resourceVersion"), "", "must be specified for an update")
    ensures newMeta.name != oldMeta.name ==> var errs := ValidateObjectMetaUpdate(newMeta, oldMeta);
      |errs| >= 2 && errs[1] == InvalidError(MetaPath("name"), newMeta.name, "field is immutable")
  {
    var e1 := [InvalidError(MetaPath("resourceVersion"), "", "must be specified for an update")]
      + ValidateImmutableField(newMeta.name, oldMeta.name, MetaPath("name"));
    var e2 := e1 + ValidateImmutableField(newMeta.namespace, oldMeta.namespace, MetaPath("namespace"));
    var e3 := e2 + ValidateImmutableField(EffectiveUid(newMeta, oldMeta), oldMeta.uid, MetaPath("uid"));
    var e4 := e3 + ValidateLabels(newMeta.labels, MetaPath("labels"));
    var e5 := e4 + ValidateAnnotations(newMeta.annotations, MetaPath("annotations"));
    assert e5 == ValidateObjectMetaUpdate(newMeta, oldMeta);
    assert e5[..|e1|] == e1 by {
      assert e2[..|e1|] == e1;
      assert e3[..|e1|] == e1;
      assert e4[..|e1|] == e1;
    }
  }

  /** Resubmitting unchanged valid metadata with a resource version is accepted. */
  lemma UnchangedMetaUpdate(meta: ObjectMeta)
    requires meta.resourceVersion != "" && LabelsValid(meta.labels) && AnnotationsValid(meta.annotations)
    ensures ValidateObjectMetaUpdate(meta, meta) == []
  {
  }

  // ---- label selectors -------------------------------------------------

  /** A selector by equality on labels (set-based match expressions are not modelled). */
  datatype LabelSelector = LabelSelector(matchLabels: map<string, string>)

  /** Every pair of `selector` is present in `labels`: the logical AND of equalities. */
  predicate MatchesAll(selector: map<string, string>, labels: map<string, string>)
  {
    forall k :: k in selector ==> k in labels && labels[k] == selector[k]
  }

  /** A missing selector selects nothing; an empty one selects everything. */
  predicate SelectorMatches(selector: Option<LabelSelector>, labels: map<string, string>)
  {
    match selector
    case None => false
    case Some(s) => MatchesAll(s.matchLabels, labels)
  }

  /** A label set satisfies the selector built from it, and keeps satisfying
      a selector when labels are added. */
  lemma MatchesAllProperties(selector: map<string, string>, labels: map<string, string>, more: map<string, string>)
    ensures MatchesAll(labels, labels)
    ensures MatchesAll(selector, labels) && labels.Keys !! more.Keys ==> MatchesAll(selector, labels + more)
    ensures MatchesAll(map[], labels)
  {
  }

  /** A selector that names a key the labels lack, or a different value, fails. */
  lemma MismatchFails(selector: map<string, string>, labels: map<string, string>, k: string)
    requires k in selector && (k !in labels || labels[k] != selector[k])
    ensures !MatchesAll(selector, labels)
  {
  }

  /** The selector's own labels are checked like any label map, under `matchLabels`. */
  ghost function ValidateLabelSelector(selector: Option<LabelSelector>, p: Path): (errs: seq<Error>)
    ensures errs == [] <==> (selector.Some? ==> LabelsValid(selector.value.matchLabels))
    ensures forall e :: e in errs ==> e.field == p + [Child("matchLabels")]
  {
    match selector
    case None => []
    case Some(s) => ValidateLabels(s.matchLabels, p + [Child("matchLabels")])
  }
}
