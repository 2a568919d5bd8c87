/**
  The host adapter of fluent-bit-s3.go: configuration parsing and checking,
  the process-wide registry of plugin instances (the ID of an instance is its
  position in the registry, which the host keeps in the instance's context),
  `FLBPluginInit`, and `FLBPluginFlushCtx`, which feeds one decoded batch to
  `AddRecord` record by record and then flushes once.
*/
module FluentBitS3 {
  import opened Wrappers
  import opened Format
  import opened S3Output

  /** The `[OUTPUT]` section of the host configuration, key to value. */
  type PluginConfig = map<string, string>

  /** `FLBPluginConfigKey`: the configured value, or the empty string when the key is absent. */
  function ConfigKey(cfg: PluginConfig, key: string): (v: string)
    ensures key !in cfg ==> v == ""
  {
    if key in cfg then cfg[key] else ""
  }

  /** `getBoolParam`: "true" or "false" in any letter case, anything else gives the default. */
  function GetBoolParam(cfg: PluginConfig, param: string, defaultVal: bool): bool
  {
    var val := ToLower(ConfigKey(cfg, param));
    if val == "true" then true
    else if val == "false" then false
    else defaultVal
  }

  lemma GetBoolParamCases(cfg: PluginConfig, param: string, defaultVal: bool)
    ensures var v := ConfigKey(cfg, param);
      GetBoolParam(cfg, param, defaultVal) <==> EqualFold(v, "true") || (!EqualFold(v, "false") && defaultVal)
    ensures param !in cfg ==> GetBoolParam(cfg, param, defaultVal) == defaultVal
  {
    var v := ConfigKey(cfg, param);
    assert ToLower("true") == "true";
    assert ToLower("false") == "false";
    ToLowerMatches(v, "true");
    ToLowerMatches(v, "false");
    if param !in cfg {
      assert !EqualFold("", "true") && !EqualFold("", "false");
    }
  }

  datatype InitError = RegionAndBucketRequired

  /** `newS3Output`: the checked configuration of a new instance. */
  function NewS3Output(cfg: PluginConfig, pluginId: int): (r: Result<Target, InitError>)
    ensures r.Failure? <==> ConfigKey(cfg, "region") == "" || ConfigKey(cfg, "bucket") == ""
    ensures r.Success? ==>
      && r.value.region == ConfigKey(cfg, "region") && r.value.bucket == ConfigKey(cfg, "bucket")
      && r.value.prefix == ConfigKey(cfg, "prefix") && r.value.pluginId == pluginId
  {
    var region := ConfigKey(cfg, "region");
    var bucket := ConfigKey(cfg, "bucket");
    if region == "" || bucket == "" then Failure(RegionAndBucketRequired)
    else
      var prefix := ConfigKey(cfg, "prefix");
      var gzip := GetBoolParam(cfg, "gzip", true);
      Success(Target(region, bucket, prefix, gzip, pluginId))
  }

  /** Compression is on unless `gzip` is set to "false" in some letter case; an unset prefix is empty. */
  lemma NewS3OutputDefaults(cfg: PluginConfig, pluginId: int)
    requires NewS3Output(cfg, pluginId).Success?
    ensures NewS3Output(cfg, pluginId).value.gzip <==> !EqualFold(ConfigKey(cfg, "gzip"), "false")
    ensures "prefix" !in cfg ==> NewS3Output(cfg, pluginId).value.prefix == ""
  {
    GetBoolParamCases(cfg, "gzip", true);
    if EqualFold(ConfigKey(cfg, "gzip"), "true") {
      var v := ConfigKey(cfg, "gzip");
      assert LowerChar(v[0]) == 't';
    }
  }

  /** `pluginInstances`: every instance created so far, indexed by its ID. */
  class Registry {
    var instances: seq<OutputPlugin>

    /** The instance at position `i` was created with ID `i`, and no two instances share a client. */
    ghost predicate Valid()
      reads this
    {
      && (forall i :: 0 <= i < |instances| ==> instances[i].pluginId == i)
      && (forall i, j :: 0 <= i < j < |instances| ==> instances[i].client != instances[j].client)
    }

    constructor ()
      ensures Valid() && instances == []
    {
      instances := [];
    }

    /** `addPluginInstance`: the new ID is the current count; the instance is added only if its configuration checks out. */
    method AddPluginInstance(cfg: PluginConfig, codecs: Codecs) returns (pluginId: nat, err: Option<InitError>)
      requires Valid()
      modifies this
      ensures Valid()
      ensures pluginId == |old(instances)|
      ensures err.None? <==> NewS3Output(cfg, pluginId).Success?
      ensures err.Some? ==> instances == old(instances)
      ensures err.None? ==>
        && |instances| == pluginId + 1 && instances[..pluginId] == old(instances)
        && fresh(instances[pluginId]) && fresh(instances[pluginId].client)
        && instances[pluginId].Config() == NewS3Output(cfg, pluginId).value
        && instances[pluginId].codecs == codecs
        && instances[pluginId].State() == Snapshot([], [])
    {
      pluginId := |instances|;
      var checked := NewS3Output(cfg, pluginId);
      if checked.Failure? {
        return pluginId, Some(checked.error);
      }
      var t := checked.value;
      var instance := new OutputPlugin(t.region, t.bucket, t.prefix, t.gzip, pluginId, codecs);
      instances := instances + [instance];
      err := None;
    }

    /** `getPluginInstance`: the instance whose ID the context holds. */
    function GetPluginInstance(pluginId: nat): (p: OutputPlugin)
      reads this
      requires Valid() && pluginId < |instances|
      ensures p.pluginId == pluginId && p in instances
    {
      instances[pluginId]
    }
  }

  /** `FLBPluginInit`: FLB_ERROR exactly when the instance could not be created. */
  method PluginInit(registry: Registry, cfg: PluginConfig, codecs: Codecs) returns (status: Status, ctxId: nat)
    requires registry.Valid()
    modifies registry
    ensures registry.Valid()
    ensures ctxId == |old(registry.instances)|
    ensures status == (if NewS3Output(cfg, ctxId).Success? then FlbOk else FlbError)
    ensures status == FlbOk ==>
      && |registry.instances| == ctxId + 1 && registry.instances[..ctxId] == old(registry.instances)
      && registry.instances[ctxId].pluginId == ctxId
      && registry.instances[ctxId].Config() == NewS3Output(cfg, ctxId).value
      && registry.instances[ctxId].codecs == codecs
      && registry.instances[ctxId].State() == Snapshot([], [])
    ensures status == FlbError ==> registry.instances == old(registry.instances)
  {
    var err;
    ctxId, err := registry.AddPluginInstance(cfg, codecs);
    if err.Some? {
      return FlbError, ctxId;
    }
    status := FlbOk;
  }

  /** The buffer and uploads after `AddRecord` has taken every record of the batch, record `i` under `world(i)`. */
  function AddRecordsStep(t: Target, codecs: Codecs, s: Snapshot, records: seq<Record>, tag: string, world: nat -> Env): Snapshot
  {
    if records == [] then s
    else
      var n := |records| - 1;
      AddRecordStep(t, codecs, AddRecordsStep(t, codecs, s, records[..n], tag, world), records[n], tag, world(n))
  }

  /** A whole `FLBPluginFlushCtx`: every record in order, then one flush under `world(|records|)`. */
  function FlushCtxStep(t: Target, codecs: Codecs, s: Snapshot, records: seq<Record>, tag: string, world: nat -> Env): Snapshot
  {
    SendStep(t, codecs, AddRecordsStep(t, codecs, s, records, tag, world), tag, world(|records|))
  }

  /**
    `FLBPluginFlushCtx` for the instance whose ID is `ctxId`, with the decoder's
    output as `records`. `count` is the number of records handed to AddRecord,
    the figure the plugin logs.
  */
  method PluginFlushCtx(registry: Registry, ctxId: nat, records: seq<Record>, tag: string, world: nat -> Env)
    returns (status: Status, count: nat)
    requires registry.Valid() && ctxId < |registry.instances|
    modifies registry.instances[ctxId], registry.instances[ctxId].client
    ensures var p := registry.instances[ctxId];
      p.State() == FlushCtxStep(p.Config(), p.codecs, old(p.State()), records, tag, world)
    ensures status == (if world(|records|).putSucceeds then FlbOk else FlbError)
    ensures count == |records|
    ensures forall j :: 0 <= j < |registry.instances| && j != ctxId ==>
      registry.instances[j].State() == old(registry.instances[j].State())
  {
    var instance := registry.GetPluginInstance(ctxId);
    var i := 0;
    count := 0;
    var ret := FlbOk;
    while i < |records|
      invariant 0 <= i <= |records| && count == i && ret == FlbOk
      invariant instance.State() == AddRecordsStep(instance.Config(), instance.codecs, old(instance.State()), records[..i], tag, world)
    {
      ret := instance.AddRecord(records[i], tag, world(i));
      if ret != FlbOk {
        break;
      }
      count := count + 1;
      assert records[..i + 1][..i] == records[..i];
      i := i + 1;
    }
    assert records[..i] == records;
    if ret != FlbOk {
      status := ret;
    } else {
      var err := instance.Flush(tag, world(|records|));
      status := if err.Some? then FlbError else FlbOk;

    }
  }
}
