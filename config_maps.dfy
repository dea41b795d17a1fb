/** ConfigMap: a named bag of string data, keyed by file-name-like keys. */
module ConfigMaps {
  import opened FieldPaths
  import opened Names
  import opened Meta

  /** The data of a config map shares the one-mebibyte bound of secrets. */
  const MaxDataSize := 1024 * 1024

  const ConfigMapKeyErrorMsg := "must have at most 253 characters and match regex \\.?[a-z0-9]([-a-z0-9]*[a-z0-9])?(\\.[a-z0-9]([-a-z0-9]*[a-z0-9])?)*"

  datatype ConfigMap = ConfigMap(meta: ObjectMeta, data: map<string, string>)

  /** Summed length of the values listed under `keys`. */
  ghost function ValuesSize(keys: seq<string>, data: map<string, string>): nat
    requires forall k :: k in keys ==> k in data
  {
    if keys == [] then 0 else |data[keys[0]]| + ValuesSize(keys[1..], data)
  }

  ghost function DataSize(data: map<string, string>): nat
  {
    ValuesSize(SetToSeq(data.Keys), data)
  }

  /** A single key is listed alone. */
  lemma SingletonKeys(k: string)
    ensures SetToSeq({k}) == [k]
  {
    var r := SetToSeq({k});
    assert r[0] == k;
    assert {k} - {k} == {};
    assert r[1..] == SetToSeq({});
  }

  /** The data of a single entry is as large as its value. */
  lemma SingleEntrySize(k: string, v: string)
    ensures DataSize(map[k := v]) == |v|
  {
    assert map[k := v].Keys == {k};
    var keys := SetToSeq({k});
    SingletonKeys(k);
    assert [k][1..] == [];
    assert DataSize(map[k := v]) == ValuesSize(keys, map[k := v]);
  }

  ghost predicate ConfigMapValid(cfg: ConfigMap)
  {
    && MetaValid(cfg.meta, DNSSubdomainName)
    && (forall k :: k in cfg.data ==> IsConfigMapKey(k))
    && DataSize(cfg.data) <= MaxDataSize
  }

  /** An error for each bad key, at `data[key]` and naming that key; no other errors. */
  ghost function DataKeyErrors(keys: seq<string>): (errs: seq<Error>)
    ensures errs == [] <==> forall k :: k in keys ==> IsConfigMapKey(k)
    ensures forall e :: e in errs ==>
      |e.field| == 2 && e.field[0] == Child("data") && e.field[1].Key?
      && e.field[1].k in keys && !IsConfigMapKey(e.field[1].k)
    ensures forall k :: k in keys && !IsConfigMapKey(k) ==> InvalidError([Child("data"), Key(k)], k, ConfigMapKeyErrorMsg) in errs
  {
    if keys == [] then []
    else
      var rest := DataKeyErrors(keys[1..]);
      assert forall k :: k in keys ==> k == keys[0] || k in keys[1..];
      assert forall k :: k in keys[1..] ==> k in keys;
      assert keys[0] in keys;
      (if IsConfigMapKey(keys[0]) then [] else [InvalidError([Child("data"), Key(keys[0])], keys[0], ConfigMapKeyErrorMsg)])
      + rest
  }

  ghost function ValidateConfigMap(cfg: ConfigMap): (errs: seq<Error>)
    ensures errs == [] <==> ConfigMapValid(cfg)
  {
    ValidateObjectMeta(cfg.meta, DNSSubdomainName)
    + DataKeyErrors(SetToSeq(cfg.data.Keys))
    + (if DataSize(cfg.data) > MaxDataSize then [Error(Fields(["data"]), TooLong, "", "must have at most 1048576 characters")] else [])
  }

  /** Every data-key error names a key of the map that breaks the key format. */
  lemma DataErrorsNameBadKeys(cfg: ConfigMap)
    ensures forall e :: e in ValidateConfigMap(cfg) && |e.field| >= 1 && e.field[0] == Child("data") && e.kind == Invalid ==>
      |e.field| == 2 && e.field[1].Key? && e.field[1].k in cfg.data && !IsConfigMapKey(e.field[1].k)
  {
    var metaErrs := ValidateObjectMeta(cfg.meta, DNSSubdomainName);
    var keyErrs := DataKeyErrors(SetToSeq(cfg.data.Keys));
    var sizeErrs := if DataSize(cfg.data) > MaxDataSize then [Error(Fields(["data"]), TooLong, "", "must have at most 1048576 characters")] else [];
    assert ValidateConfigMap(cfg) == metaErrs + keyErrs + sizeErrs;
    forall e | e in ValidateConfigMap(cfg) && |e.field| >= 1 && e.field[0] == Child("data") && e.kind == Invalid
      ensures |e.field| == 2 && e.field[1].Key? && e.field[1].k in cfg.data && !IsConfigMapKey(e.field[1].k)
    {
      assert e !in metaErrs;
      assert e !in sizeErrs;
      assert e in keyErrs;
    }
  }

  /** An update checks the metadata change and then the new object as if created. */
  ghost function ValidateConfigMapUpdate(newCfg: ConfigMap, oldCfg: ConfigMap): (errs: seq<Error>)
    ensures errs == [] <==> MetaUpdateValid(newCfg.meta, oldCfg.meta) && ConfigMapValid(newCfg)
  {
    ValidateObjectMetaUpdate(newCfg.meta, oldCfg.meta) + ValidateConfigMap(newCfg)
  }
}
