/**
 * What the two provider bindings share: which binding is which, the raw
 * name of a VM's OS disk, and the contract of running a CLI command.
 */
module CloudApi {
  import opened Wrappers
  import CloudConfig

  /**
   * The two implementations of the cloud interface.  Each operation of the
   * interface dispatches on this tag to the binding of that provider.
   */
  datatype Api = AzureApi | GcpApi
  {
    /** get_cloud_provider: the provider each binding serves. */
    function Provider(): (p: CloudConfig.CloudProvider)
      ensures this.AzureApi? <==> p.Azure?
    {
      match this
      case AzureApi => CloudConfig.CloudProvider.Azure
      case GcpApi => CloudConfig.CloudProvider.Gcp
    }
  }

  /** get_raw_disk_name: the VM name and the artifact name joined by an underscore. */
  function GetRawDiskName(vmName: string, artifact: string): (r: string)
    ensures |r| == |vmName| + 1 + |artifact|
    ensures r[..|vmName|] == vmName && r[|vmName|] == '_' && r[|vmName| + 1..] == artifact
  {
    vmName + "_" + artifact
  }

  /** For one VM, distinct artifacts give distinct raw disk names. */
  lemma RawDiskNameInjective(vmName: string, a1: string, a2: string)
    requires GetRawDiskName(vmName, a1) == GetRawDiskName(vmName, a2)
    ensures a1 == a2
  {
    assert a1 == GetRawDiskName(vmName, a1)[|vmName| + 1..];
  }

  /** A finished process: its exit status and what it printed. */
  datatype Completed = Completed(returncode: int, stdout: string, stderr: string)

  /**
   * run_command: a command run with checking on returns its completed
   * process when it exits with 0 and raises CalledProcessError otherwise.
   */
  function RunCommand(p: Completed): (r: Result<Completed>)
    ensures r.Ok? <==> p.returncode == 0
    ensures r.Ok? ==> r.value == p
    ensures r.Err? ==> r.error == CalledProcessError
  {
    if p.returncode == 0 then Ok(p) else Err(CalledProcessError)
  }
}
