/**
 * The fixed names, sizes and zones a GCP deployment falls back on.  In GCP
 * a zone lies inside a region; the tool keeps a zone in the field that holds
 * an Azure region, and uses the region only for regional resources such as
 * static addresses and buckets.
 */
module GcpDefaults {
  import opened Wrappers

  const DefaultProject := "testnet-477314"
  /** Used for regional resources (addresses, buckets). */
  const DefaultRegion := "us-central1"
  /** Used for zonal resources (VMs, disks), and as the default location. */
  const DefaultZone := "us-central1-a"
  const DefaultVmType := "c3-standard-4"
  const ConsensusPort := 18551

  const DefaultNetworkTier := "PREMIUM"
  const DefaultNicType := "GVNIC"
  const DefaultProvisioningModel := "STANDARD"
  const DefaultDiskType := "pd-balanced"
  const DefaultDiskSizeGb := 32

  const ValidZones: set<string> := {"us-central1-a", "asia-northeast1-b"}

  /** Raises ValueError exactly for a zone outside the supported table. */
  function ValidateRegion(zone: string): (r: Result<()>)
    ensures r.Ok? <==> zone in ValidZones
    ensures r.Err? ==> r.error == ValueError
  {
    if zone !in ValidZones then Err(ValueError) else Ok(())
  }

  /**
   * The default zone is valid; the default region is a prefix of it but is
   * not itself accepted where a zone is expected.
   */
  lemma DefaultZoneAndRegion()
    ensures ValidateRegion(DefaultZone).Ok?
    ensures DefaultRegion < DefaultZone
    ensures ValidateRegion(DefaultRegion).Err?
  {
    assert DefaultZone == DefaultRegion + "-a";
  }
}
