/** The fixed names, sizes and regions an Azure deployment falls back on. */
module AzureDefaults {
  import opened Wrappers

  /** The resource group that owns the VM, its IP address, disk and so on. */
  const DefaultResourceGroup := "tdx-testnet"
  /** The resource group that owns only the DNS zone. */
  const DefaultDomainResourceGroup := "yocto-testnet"
  const DefaultDomainName := "seismictest.net"
  const DefaultCertbotEmail := "c@seismic.systems"
  const DefaultRegion := "eastus"
  /** A TDX-capable size, needed for attestation. */
  const DefaultVmSize := "Standard_DC4es_v6"
  const ConsensusPort := 18551

  const ValidRegions: set<string> := {"eastus", "westus3", "westeurope"}

  /** Raises ValueError exactly for a region outside the supported table. */
  function ValidateRegion(region: string): (r: Result<()>)
    ensures r.Ok? <==> region in ValidRegions
    ensures r.Err? ==> r.error == ValueError
  {
    if region !in ValidRegions then Err(ValueError) else Ok(())
  }

  /** The default region passes validation. */
  lemma DefaultRegionIsValid()
    ensures ValidateRegion(DefaultRegion).Ok?
  {
  }
}
