/** The VM section of a deployment configuration. */
module VmConfig {
  import opened Wrappers
  import opened Json
  import opened CloudConfig
  import opened Args

  const DefaultApiPort := 7878
  const DefaultClientProxyPort := 8080

  datatype VmConfigs = VmConfigs(
    resourceGroup: string,
    name: string,
    nsgName: string,
    cloud: CloudProvider,
    region: string,
    size: string,
    apiPort: int := DefaultApiPort,
    clientProxyPort: int := DefaultClientProxyPort)
  {
    /** The older name for the region, kept as an alias. */
    function Location(): string { region }

    /** to_dict: six keys, with the provider serialised as its string value and the ports left out. */
    function ToDict(): (r: Json)
      ensures r.JObj? && UniqueKeys(r.fields)
      ensures Keys(r.fields) == ["resourceGroup", "name", "nsgName", "cloud", "region", "size"]
      ensures Lookup(r.fields, "cloud").Some? && Lookup(r.fields, "cloud").value.JStr?
      ensures FromValue(Lookup(r.fields, "cloud").value.s) == Ok(cloud)
      ensures Lookup(r.fields, "resourceGroup") == Some(JStr(resourceGroup))
      ensures Lookup(r.fields, "name") == Some(JStr(name))
      ensures Lookup(r.fields, "nsgName") == Some(JStr(nsgName))
      ensures Lookup(r.fields, "region") == Some(JStr(region))
      ensures Lookup(r.fields, "size") == Some(JStr(size))
    {
      var fields := [("resourceGroup", JStr(resourceGroup)),
                     ("name", JStr(name)),
                     ("nsgName", JStr(nsgName)),
                     ("cloud", JStr(cloud.Value())),
                     ("region", JStr(region)),
                     ("size", JStr(size))];
      DictKeys(fields);
      forall i | 0 <= i < |fields|
        ensures Lookup(fields, fields[i].0) == Some(fields[i].1)
      {
        LookupAt(fields, i);
      }
      ProviderValues(cloud);
      JObj(fields)
    }
  }

  /** The six keys to_dict writes, in order; they are distinct. */
  lemma DictKeys(fields: Fields)
    requires |fields| == 6
    requires fields[0].0 == "resourceGroup" && fields[1].0 == "name" && fields[2].0 == "nsgName"
    requires fields[3].0 == "cloud" && fields[4].0 == "region" && fields[5].0 == "size"
    ensures Keys(fields) == ["resourceGroup", "name", "nsgName", "cloud", "region", "size"]
    ensures UniqueKeys(fields)
  {
    var ks := Keys(fields);
    assert ks[0] == "resourceGroup" && ks[1] == "name" && ks[2] == "nsgName";
    assert ks[3] == "cloud" && ks[4] == "region" && ks[5] == "size";
    // the keys differ in their first or their third character
    var first := ['r', 'n', 'n', 'c', 'r', 's'];
    var third := ['s', 'm', 'g', 'o', 'g', 'z'];
    forall i, j | 0 <= i < j < |fields|
      ensures fields[i].0 != fields[j].0
    {
      assert fields[i].0[0] == first[i] && fields[i].0[2] == third[i];
      assert fields[j].0[0] == first[j] && fields[j].0[2] == third[j];
    }
  }

  /**
   * VmConfigs.from_args: options left as None take the provider's defaults,
   * the final region is checked against the provider's table, and the VM and
   * its security group are both named after the resource group.
   */
  function FromArgs(args: Namespace): (r: Result<VmConfigs>)
    ensures args.cloud.None? ==> r == Err(ValueError)
    ensures r.Err? ==> r.error == ValueError
    ensures r.Ok? ==> args.cloud.Some? && FromValue(args.cloud.value) == Ok(r.value.cloud)
    ensures r.Ok? ==> r.value.name == r.value.resourceGroup && r.value.nsgName == r.value.resourceGroup
    ensures r.Ok? ==> ValidateRegion(r.value.cloud, r.value.Location()).Ok?
    ensures r.Ok? ==>
      && r.value.resourceGroup == IfNone(args.resourceGroup, GetDefaultResourceGroup(r.value.cloud))
      && r.value.region == IfNone(args.region, GetDefaultRegion(r.value.cloud))
      && r.value.size == IfNone(args.vmSize, GetDefaultVmSize(r.value.cloud))
    ensures r.Ok? ==> r.value.apiPort == DefaultApiPort && r.value.clientProxyPort == DefaultClientProxyPort
    // a known provider with no region given never fails: its default always validates
    ensures args.cloud.Some? && FromValue(args.cloud.value).Ok? && args.region.None? ==> r.Ok?
  {
    if args.cloud.None? then Err(ValueError)
    else
      var cloud :- FromValue(args.cloud.value);
      var resourceGroup := IfNone(args.resourceGroup, GetDefaultResourceGroup(cloud));
      var region := IfNone(args.region, GetDefaultRegion(cloud));
      var size := IfNone(args.vmSize, GetDefaultVmSize(cloud));
      DefaultRegionValidates(cloud);
      var _ :- ValidateRegion(cloud, region);
      Ok(VmConfigs(resourceGroup, resourceGroup, resourceGroup, cloud, region, size))
  }
}
