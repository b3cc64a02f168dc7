/** The two supported providers and the per-provider defaults and validation. */
module CloudConfig {
  import opened Wrappers
  import AzureDefaults
  import GcpDefaults

  /**
   * A string-valued enumeration: a member compares equal to its value, so
   * code that receives "azure" or "gcp" as a plain string behaves as if it
   * had received the member.
   */
  datatype CloudProvider = Azure | Gcp {
    function Value(): string {
      match this
      case Azure => "azure"
      case Gcp => "gcp"
    }
  }

  /** CloudProvider(v): the member with that value, or ValueError. */
  function FromValue(v: string): (r: Result<CloudProvider>)
    ensures r.Ok? <==> v == "azure" || v == "gcp"
    ensures r.Ok? ==> r.value.Value() == v
    ensures r.Err? ==> r.error == ValueError
  {
    if v == "azure" then Ok(Azure)
    else if v == "gcp" then Ok(Gcp)
    else Err(ValueError)
  }

  /** Exactly two members, with distinct values, each recovered from its value. */
  lemma ProviderValues(p: CloudProvider)
    ensures p == Azure || p == Gcp
    ensures FromValue(p.Value()) == Ok(p)
    ensures Azure.Value() != Gcp.Value()
  {
  }

  /** Checks the region (a zone for GCP) against the chosen provider's table. */
  function ValidateRegion(cloud: CloudProvider, region: string): (r: Result<()>)
    ensures r.Ok? <==> region in (if cloud.Azure? then AzureDefaults.ValidRegions else GcpDefaults.ValidZones)
    ensures r.Err? ==> r.error == ValueError
  {
    match cloud
    case Azure => AzureDefaults.ValidateRegion(region)
    case Gcp => GcpDefaults.ValidateRegion(region)
  }

  /** For GCP the default location is the default zone, not the default region. */
  function GetDefaultRegion(cloud: CloudProvider): (r: string)
    ensures cloud.Azure? ==> r == AzureDefaults.DefaultRegion
    ensures cloud.Gcp? ==> r == GcpDefaults.DefaultZone && r != GcpDefaults.DefaultRegion
  {
    match cloud
    case Azure => AzureDefaults.DefaultRegion
    case Gcp => GcpDefaults.DefaultZone
  }

  function GetDefaultResourceGroup(cloud: CloudProvider): (r: string)
    ensures r == (if cloud.Azure? then AzureDefaults.DefaultResourceGroup else GcpDefaults.DefaultProject)
  {
    match cloud
    case Azure => AzureDefaults.DefaultResourceGroup
    case Gcp => GcpDefaults.DefaultProject
  }

  function GetDefaultVmSize(cloud: CloudProvider): (r: string)
    ensures r == (if cloud.Azure? then AzureDefaults.DefaultVmSize else GcpDefaults.DefaultVmType)
  {
    match cloud
    case Azure => AzureDefaults.DefaultVmSize
    case Gcp => GcpDefaults.DefaultVmType
  }

  /** Every provider's default location passes that provider's validation. */
  lemma DefaultRegionValidates(cloud: CloudProvider)
    ensures ValidateRegion(cloud, GetDefaultRegion(cloud)).Ok?
  {
    if cloud.Gcp? {
      GcpDefaults.DefaultZoneAndRegion();
    }
  }

  /** The defaults of the two providers never coincide, and both use the same consensus port. */
  lemma DefaultsDiffer()
    ensures GetDefaultRegion(Azure) != GetDefaultRegion(Gcp)
    ensures GetDefaultResourceGroup(Azure) != GetDefaultResourceGroup(Gcp)
    ensures GetDefaultVmSize(Azure) != GetDefaultVmSize(Gcp)
    ensures AzureDefaults.ConsensusPort == GcpDefaults.ConsensusPort == 18551
  {
  }
}
