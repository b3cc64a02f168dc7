/** get_cloud_api: from a provider to the binding that serves it. */
module CloudFactory {
  import opened Wrappers
  import opened CloudApi
  import CloudConfig

  /**
   * The provider arrives as its string value (a member of the string-valued
   * enumeration compares equal to it), so any other value is refused.
   */
  function GetCloudApi(cloud: string): (r: Result<Api>)
    ensures cloud == CloudConfig.CloudProvider.Azure.Value() ==> r == Ok(AzureApi)
    ensures cloud == CloudConfig.CloudProvider.Gcp.Value() ==> r == Ok(GcpApi)
    ensures r.Err? <==> cloud != "azure" && cloud != "gcp"
    ensures r.Err? ==> r.error == ValueError
  {
    if cloud == CloudConfig.CloudProvider.Azure.Value() then Ok(AzureApi)
    else if cloud == CloudConfig.CloudProvider.Gcp.Value() then Ok(GcpApi)
    else Err(ValueError)
  }

  /** Every provider gets the binding that reports that same provider, and the two bindings differ. */
  lemma GetCloudApiRoundTrip(p: CloudConfig.CloudProvider)
    ensures GetCloudApi(p.Value()).Ok?
    ensures GetCloudApi(p.Value()).value.Provider() == p
    ensures GetCloudApi(CloudConfig.CloudProvider.Azure.Value()) != GetCloudApi(CloudConfig.CloudProvider.Gcp.Value())
  {
  }

  /** Conversely, the binding a provider's value selects is the one whose provider has that value. */
  lemma ProviderRoundTrip(api: Api)
    ensures GetCloudApi(api.Provider().Value()) == Ok(api)
  {
  }
}
