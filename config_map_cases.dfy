/** The ConfigMap create and update tables, stated over the model. */
module ConfigMapCases {
  import opened FieldPaths
  import opened Names
  import opened Meta
  import opened ConfigMaps

  const ValidMeta := NamedMeta("validname", "validns")

  lemma ValidMetaValid()
    ensures MetaValid(ValidMeta, DNSSubdomainName)
  {
    ScannedNameShapes("validname");
    ScannedNameShapes("validns");
    assert '.' !in "validns";
    NamedMetaValid("validname", "validns");
  }

  /** With valid metadata and one entry, the key alone decides the outcome. */
  lemma OneEntryCase(k: string)
    ensures IsConfigMapKey(k) ==> ValidateConfigMap(ConfigMap(ValidMeta, map[k := "value"])) == []
    ensures !IsConfigMapKey(k) ==>
      ValidateConfigMap(ConfigMap(ValidMeta, map[k := "value"])) == [InvalidError([Child("data"), Key(k)], k, ConfigMapKeyErrorMsg)]
  {
    ValidMetaValid();
    SingleEntrySize(k, "value");
    var cfg := ConfigMap(ValidMeta, map[k := "value"]);
    assert cfg.data.Keys == {k};
    var keys := SetToSeq({k});
    SingletonKeys(k);
    assert DataKeyErrors(keys[1..]) == [];
    assert ValidateObjectMeta(ValidMeta, DNSSubdomainName) == [];
  }

  /** A run of `a`s is a key exactly when it fits in 253 characters. */
  lemma RepeatedKey(n: nat)
    requires 1 <= n
    ensures IsConfigMapKey(Repeat('a', n)) <==> n <= 253
  {
    assert SubdomainShaped(Repeat('a', n));
  }

  lemma KeyExamples()
    ensures IsConfigMapKey("key") && IsConfigMapKey(".ab")
    ensures !IsConfigMapKey("a..b") && !IsConfigMapKey(".") && !IsConfigMapKey("..")
  {
    assert ".ab"[1..] == "ab";
    assert "a..b"[1] == '.' && "a..b"[2] == '.';
    assert ".."[1..] == ".";
  }

  lemma ConfigMapSuccessCases()
    ensures ValidateConfigMap(ConfigMap(ValidMeta, map["key" := "value"])) == []
    ensures ValidateConfigMap(ConfigMap(ValidMeta, map[".ab" := "value"])) == []
  {
    KeyExamples();
    OneEntryCase("key");
    OneEntryCase(".ab");
  }

  lemma MaxKeyLengthCase()
    ensures ValidateConfigMap(ConfigMap(ValidMeta, map[Repeat('a', 253) := "value"])) == []
  {
    RepeatedKey(253);
    OneEntryCase(Repeat('a', 253));
  }

  lemma ConfigMapKeyCases()
    ensures ValidateConfigMap(ConfigMap(ValidMeta, map["a..b" := "value"])) != []
    ensures ValidateConfigMap(ConfigMap(ValidMeta, map["." := "value"])) != []
    ensures ValidateConfigMap(ConfigMap(ValidMeta, map[".." := "value"])) != []
  {
    KeyExamples();
    OneEntryCase("a..b");
    OneEntryCase(".");
    OneEntryCase("..");
  }

  lemma OverMaxKeyLengthCase()
    ensures ValidateConfigMap(ConfigMap(ValidMeta, map[Repeat('a', 254) := "value"])) != []
  {
    RepeatedKey(254);
    OneEntryCase(Repeat('a', 254));
  }

  /** With no data, the metadata decides the outcome. */
  lemma NoDataCase(meta: ObjectMeta)
    ensures ValidateConfigMap(ConfigMap(meta, map[])) == ValidateObjectMeta(meta, DNSSubdomainName)
  {
    var empty: map<string, string> := map[];
    assert empty.Keys == {};
    assert SetToSeq({}) == [];
    assert DataSize(empty) == 0;
  }

  lemma ConfigMapMetaCases()
    ensures ValidateConfigMap(ConfigMap(NamedMeta("", "validns"), map[])) != []
    ensures ValidateConfigMap(ConfigMap(NamedMeta("NoUppercaseOrSpecialCharsLike=Equals", "validns"), map[])) != []
    ensures ValidateConfigMap(ConfigMap(NamedMeta("validname", ""), map[])) != []
    ensures ValidateConfigMap(ConfigMap(NamedMeta("validname", "NoUppercaseOrSpecialCharsLike=Equals"), map[])) != []
  {
    EqualsSignExamples();
    NoDataCase(NamedMeta("", "validns"));
    NoDataCase(NamedMeta("NoUppercaseOrSpecialCharsLike=Equals", "validns"));
    NoDataCase(NamedMeta("validname", ""));
    NoDataCase(NamedMeta("validname", "NoUppercaseOrSpecialCharsLike=Equals"));
  }

  const VersionedConfigMap := ConfigMap(ValidMeta.(resourceVersion := "1"), map["key" := "value"])

  /** Updating the versioned config map with itself is accepted. */
  lemma ConfigMapUpdateValidCase()
    ensures ValidateConfigMapUpdate(VersionedConfigMap, VersionedConfigMap) == []
  {
    KeyExamples();
    OneEntryCase("key");
    VersionedSelfUpdate(ConfigMap(ValidMeta, map["key" := "value"]), "1");
  }

  /** A valid config map given a resource version may be updated with itself. */
  lemma VersionedSelfUpdate(cfg: ConfigMap, version: string)
    requires ConfigMapValid(cfg) && version != ""
    ensures var versioned := cfg.(meta := cfg.meta.(resourceVersion := version));
      ValidateConfigMapUpdate(versioned, versioned) == []
  {
    var versioned := cfg.(meta := cfg.meta.(resourceVersion := version));
    assert ConfigMapValid(versioned);
    UnchangedMetaUpdate(versioned.meta);
  }

  /** Without a resource version, that is the first error. */
  lemma ConfigMapUpdateNoVersionCase()
    ensures var errs := ValidateConfigMapUpdate(ConfigMap(ValidMeta, map["key" := "value"]), VersionedConfigMap);
      |errs| >= 1 && errs[0] == InvalidError(MetaPath("resourceVersion"), "", "must be specified for an update")
  {
    MissingResourceVersionFirst(ValidMeta, VersionedConfigMap.meta);
  }
}
