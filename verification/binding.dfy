/**
 * The cloud interface as the orchestrators see it: each operation takes the
 * binding a provider selected (an `Api` tag) and runs that provider's
 * implementation.  Every call through the interface is also recorded, with
 * its binding and arguments, in a `Ledger`, so the orchestrators can state
 * in which order they use the interface; what each call does to the world
 * is stated by the provider modules.
 */
module Binding {
  import opened Wrappers
  import opened Json
  import opened Paths
  import opened Env
  import opened CloudApi
  import AzureApi
  import GcpApi
  import DeployConfig
  import GcpDefaults
  import CloudParser

  type DeployConfigs = DeployConfig.DeployConfigs

  /** The operations of the cloud interface, with the arguments they were given. */
  datatype Operation =
    | CheckDependencies
    | EnsureCreatedResourceGroup(name: string, location: string)
    | GetExistingPublicIp(ipName: string, resourceGroup: string)
    | CreatePublicIp(ipName: string, resourceGroup: string, location: string)
    | UpdateDnsRecord(config: DeployConfigs, ip: string, removeOld: bool)
    | DiskExists(config: DeployConfigs, imagePath: Path)
    | GetDiskName(config: DeployConfigs, imagePath: Path)
    | CreateDisk(config: DeployConfigs, imagePath: Path)
    | DeleteDisk(resourceGroup: string, vmName: string, artifact: string, location: string)
    | UploadDisk(config: DeployConfigs, imagePath: Path)
    | CreateNsg(config: DeployConfigs)
    | AddNsgRule(config: DeployConfigs, rule: NsgRule)
    | CreateStandardNsgRules(config: DeployConfigs)
    | CreateDataDisk(resourceGroup: string, diskName: string, location: string, sizeGb: int)
    | AttachDataDisk(resourceGroup: string, vmName: string, diskName: string, location: string, lun: int)
    | CreateVmSimple(vmName: string, vmSize: string, resourceGroup: string, location: string,
                     osDiskName: string, nsgName: string, ipName: string)
    | CreateVm(config: DeployConfigs, imagePath: Path, ipName: string, diskName: string)
    | GetVmIp(vmName: string, resourceGroup: string, location: string)
    | DeleteVm(vmName: string, storedGroup: Json, storedRegion: Json, artifact: string, home: string)

  /** The record of the interface calls made so far, oldest first. */
  class Ledger {
    ghost var calls: seq<(Api, Operation)>

    constructor ()
      ensures calls == []
    {
      calls := [];
    }
  }

  // ---------------------------------------------------------------------
  // What the two bindings share, stated once for both.

  /** get_disk_name: Azure uses the raw name, GCP its sanitised form. */
  function DiskName(api: Api, config: DeployConfigs, imagePath: Path): (r: string)
    ensures api.AzureApi? ==> r == GetRawDiskName(config.vm.name, Name(imagePath))
    ensures api.GcpApi? ==> r == GcpApi.SanitizeGcpName(GetRawDiskName(config.vm.name, Name(imagePath)))
  {
    match api
    case AzureApi => AzureApi.GetDiskName(config, imagePath)
    case GcpApi => GcpApi.GetDiskName(config, imagePath)
  }

  /** The OS disk of the deployment exists in the binding's cloud. */
  ghost predicate DiskPresent(api: Api, w: World, config: DeployConfigs, imagePath: Path)
    reads w`azDisks, w`gcpDisks
  {
    match api
    case AzureApi => AzureApi.DiskKey(config, imagePath) in w.azDisks
    case GcpApi => GcpApi.DiskKey(config, imagePath) in w.gcpDisks
  }

  /** What disk_exists answers in the current world. */
  ghost function DiskAnswer(api: Api, w: World, config: DeployConfigs, imagePath: Path): Result<bool>
    reads w`azDisks, w`gcpDisks
  {
    match api
    case AzureApi =>
      if AzDiskList(config.vm.resourceGroup) in w.broken then Err(CalledProcessError)
      else Ok(DiskPresent(api, w, config, imagePath))
    case GcpApi =>
      var key := GcpApi.DiskKey(config, imagePath);
      Ok(DiskPresent(api, w, config, imagePath) && GcpDiskGet(key.0, key.1, key.2) !in w.broken)
  }

  /** What get_vm_ip answers in the current world (the GCP address as a JSON string). */
  ghost function VmIpAnswer(api: Api, w: World, vmName: string, resourceGroup: string, location: string): Result<Json>
    reads w`instances
  {
    match api
    case AzureApi => AzureApi.VmIpFrom(w.azIpReplies, vmName, 0)
    case GcpApi =>
      if GcpInstanceGet(resourceGroup, location, vmName) in w.broken || (resourceGroup, location, vmName) !in w.instances
      then Err(ApiError)
      else
        match GcpApi.InstanceIp(w.instances[(resourceGroup, location, vmName)])
        case Ok(ip) => Ok(JStr(ip))
        case Err(e) => Err(e)
  }

  /** The VM has a record in the binding's own metadata partition. */
  ghost predicate Listed(api: Api, docs: map<Path, Json>, home: string, vmName: string) {
    match api
    case AzureApi => AzureApi.StoredVmSection(docs, home, vmName).Ok? && AzureApi.StoredVmSection(docs, home, vmName).value.Some?
    case GcpApi => GcpApi.StoredVmSection(docs, home, vmName).Ok? && GcpApi.StoredVmSection(docs, home, vmName).value.Some?
  }

  /** The metadata holds no record of the VM in the binding's own partition. */
  ghost predicate Unlisted(api: Api, docs: map<Path, Json>, home: string, vmName: string) {
    match api
    case AzureApi => AzureApi.StoredVmSection(docs, home, vmName) == Ok(None)
    case GcpApi => GcpApi.StoredVmSection(docs, home, vmName) == Ok(None)
  }

  /** delete_vm of the binding, as its provider states it, leaving the other provider's resources alone. */
  ghost predicate VmDeleteOutcome(
    api: Api, docs0: map<Path, Json>, stdin0: seq<string>, broken: set<Call>, vmName: string, artifact: string, home: string,
    trace0: seq<Call>, trace1: seq<Call>,
    azVms0: map<(string, string), AzureVm>, azVms1: map<(string, string), AzureVm>,
    azDisks0: set<(string, string)>, azDisks1: set<(string, string)>,
    instances0: map<(string, string, string), Instance>, instances1: map<(string, string, string), Instance>,
    gcpDisks0: set<(string, string, string)>, gcpDisks1: set<(string, string, string)>,
    docs1: map<Path, Json>,
    r: Result<bool>)
  {
    match api
    case AzureApi =>
      && AzureApi.DeleteVmOutcome(docs0, stdin0, broken, vmName, artifact, home, trace0, trace1,
                                  azVms0, azVms1, azDisks0, azDisks1, docs1, r)
      && instances1 == instances0 && gcpDisks1 == gcpDisks0
    case GcpApi =>
      && GcpApi.DeleteVmOutcome(docs0, stdin0, broken, vmName, artifact, home, trace0, trace1,
                                instances0, instances1, gcpDisks0, gcpDisks1, docs1, r)
      && azVms1 == azVms0 && azDisks1 == azDisks0
  }

  /** A VM the binding's partition does not list is reported as not deleted with nothing run, and a failed deletion leaves the metadata alone. */
  lemma OutcomeOfUnlisted(
    api: Api, docs0: map<Path, Json>, stdin0: seq<string>, broken: set<Call>, vmName: string, artifact: string, home: string,
    trace0: seq<Call>, trace1: seq<Call>,
    azVms0: map<(string, string), AzureVm>, azVms1: map<(string, string), AzureVm>,
    azDisks0: set<(string, string)>, azDisks1: set<(string, string)>,
    instances0: map<(string, string, string), Instance>, instances1: map<(string, string, string), Instance>,
    gcpDisks0: set<(string, string, string)>, gcpDisks1: set<(string, string, string)>,
    docs1: map<Path, Json>,
    r: Result<bool>)
    requires VmDeleteOutcome(api, docs0, stdin0, broken, vmName, artifact, home, trace0, trace1,
                             azVms0, azVms1, azDisks0, azDisks1, instances0, instances1, gcpDisks0, gcpDisks1, docs1, r)
    ensures Unlisted(api, docs0, home, vmName) ==> r == Ok(false) && trace1 == trace0
    ensures r.Err? || r == Ok(false) ==> docs1 == docs0
  {
  }

  // ---------------------------------------------------------------------
  // The dispatching operations.

  /** check_dependencies: the Azure CLI tools are probed; for GCP there is nothing to check. */
  method CheckDependenciesOf(api: Api, l: Ledger, w: World) returns (r: Result<()>)
    modifies l, w`trace
    ensures l.calls == old(l.calls) + [(api, CheckDependencies)]
    ensures api.AzureApi? ==>
      && w.trace == old(w.trace) + AzureApi.Probes(w.broken, AzureApi.Tools).0
      && (r.Ok? <==> forall k :: 0 <= k < |AzureApi.Tools| ==> ToolVersion(AzureApi.Tools[k]) !in w.broken)
    ensures api.GcpApi? ==> r.Ok? && w.trace == old(w.trace)
    ensures r.Err? ==> r.error == RuntimeError
  {
    l.calls := l.calls + [(api, CheckDependencies)];
    if api.AzureApi? {
      r := AzureApi.CheckDependencies(w);
      AzureApi.ProbesOutcome(w.broken, AzureApi.Tools);
    } else {
      r := Ok(());
    }
  }

  /**
   * When ensure_created_resource_group succeeds: on Azure when the group
   * answers, or when the operator agrees and the group is created; on GCP
   * always.
   */
  ghost predicate GroupEnsured(api: Api, groups: set<string>, broken: set<Call>, stdin: seq<string>, name: string, location: string) {
    match api
    case AzureApi =>
      || (name in groups && AzGroupShow(name) !in broken)
      || (CloudParser.ConfirmOutcome(stdin).Ok? && AzGroupCreate(name, location) !in broken)
    case GcpApi => true
  }

  /**
   * ensure_created_resource_group: Azure asks before creating a missing
   * group; GCP only looks the project up and never fails.
   */
  method EnsureCreatedResourceGroupOf(api: Api, l: Ledger, w: World, name: string, location: string) returns (r: Result<()>)
    modifies l, w`trace, w`groups, w`stdin
    ensures l.calls == old(l.calls) + [(api, EnsureCreatedResourceGroup(name, location))]
    ensures api.AzureApi? && old(name in w.groups) && AzGroupShow(name) !in w.broken ==>
      r == Ok(()) && w.groups == old(w.groups) && w.stdin == old(w.stdin)
      && w.trace == old(w.trace) + [AzGroupShow(name)]
    ensures api.AzureApi? && !(old(name in w.groups) && AzGroupShow(name) !in w.broken)
            && CloudParser.ConfirmOutcome(old(w.stdin)).Err? ==>
      r == Err(CloudParser.ConfirmOutcome(old(w.stdin)).error) && w.groups == old(w.groups)
      && w.trace == old(w.trace) + [AzGroupShow(name), Prompt(Confirming(CreateGroup(name, location)))]
    ensures api.AzureApi? && !(old(name in w.groups) && AzGroupShow(name) !in w.broken)
            && CloudParser.ConfirmOutcome(old(w.stdin)).Ok? ==>
      && w.trace == old(w.trace) + [AzGroupShow(name), Prompt(Confirming(CreateGroup(name, location))), AzGroupCreate(name, location)]
      && (r.Ok? <==> AzGroupCreate(name, location) !in w.broken)
    ensures api.AzureApi? && r.Ok? ==> name in w.groups
    ensures r.Ok? <==> GroupEnsured(api, old(w.groups), w.broken, old(w.stdin), name, location)
    ensures api.GcpApi? ==>
      r.Ok? && w.stdin == old(w.stdin) && w.groups == old(w.groups) && w.trace == old(w.trace) + [GcpProjectGet(name)]
    ensures old(w.groups) <= w.groups
  {
    l.calls := l.calls + [(api, EnsureCreatedResourceGroup(name, location))];
    if api.AzureApi? {
      r := AzureApi.EnsureCreatedResourceGroup(w, name, location);
    } else {
      r := GcpApi.EnsureCreatedResourceGroup(w, name, location);
    }
  }

  /** The address stored under the name, as get_existing_public_ip reports it. */
  ghost function ExistingAddress(api: Api, w: World, ipName: string, resourceGroup: string): Option<string>
    reads w`azIps, w`addresses
  {
    match api
    case AzureApi => AzureApi.ExistingIp(w.azIps, AzIpShow(resourceGroup, ipName) in w.broken, resourceGroup, ipName)
    case GcpApi =>
      GcpApi.ExistingAddress(w.addresses, GcpAddressGet(resourceGroup, GcpDefaults.DefaultRegion, ipName) in w.broken,
                             resourceGroup, ipName)
  }

  /** Python truthiness of an optional address: present and not empty. */
  predicate Present(a: Option<string>) {
    a.Some? && a.value != ""
  }

  method GetExistingPublicIpOf(api: Api, l: Ledger, w: World, ipName: string, resourceGroup: string) returns (r: Option<string>)
    modifies l, w`trace
    ensures l.calls == old(l.calls) + [(api, GetExistingPublicIp(ipName, resourceGroup))]
    ensures r == ExistingAddress(api, w, ipName, resourceGroup)
  {
    l.calls := l.calls + [(api, GetExistingPublicIp(ipName, resourceGroup))];
    if api.AzureApi? {
      r := AzureApi.GetExistingPublicIp(w, ipName, resourceGroup);
    } else {
      r := GcpApi.GetExistingPublicIp(w, ipName, resourceGroup);
    }
  }

  /**
   * A later lookup of the name can return the address: the lookup does not
   * fail and the address is not one get_existing_public_ip reads as missing.
   */
  ghost predicate Retrievable(api: Api, w: World, ipName: string, resourceGroup: string, ip: string)
  {
    match api
    case AzureApi => AzIpShow(resourceGroup, ipName) !in w.broken && ip != "" && ip != "None"
    case GcpApi => GcpAddressGet(resourceGroup, GcpDefaults.DefaultRegion, ipName) !in w.broken && ip != ""
  }

  /** create_public_ip: the address it returns is the one a later lookup of the name finds. */
  method CreatePublicIpOf(api: Api, l: Ledger, w: World, ipName: string, resourceGroup: string, location: string)
    returns (r: Result<string>)
    modifies l, w`trace, w`azIps, w`addresses
    ensures l.calls == old(l.calls) + [(api, CreatePublicIp(ipName, resourceGroup, location))]
    ensures r.Ok? && Retrievable(api, w, ipName, resourceGroup, r.value) ==>
      ExistingAddress(api, w, ipName, resourceGroup) == Some(r.value)
  {
    l.calls := l.calls + [(api, CreatePublicIp(ipName, resourceGroup, location))];
    if api.AzureApi? {
      ghost var ips := w.azIps;
      r := AzureApi.CreatePublicIp(w, ipName, resourceGroup, location);
      if r.Ok? && r.value != "" && r.value != "None" {
        AzureApi.CreatedIpIsFound(ips, w.azAllocate(resourceGroup, ipName), resourceGroup, ipName);
      }
    } else {
      ghost var addresses := w.addresses;
      r := GcpApi.CreatePublicIp(w, ipName, resourceGroup, location);
      if r.Ok? {
        GcpApi.CreatedAddressIsFound(addresses, r.value, resourceGroup, ipName);
      }
    }
  }

  /**
   * update_dns_record: both bindings use the Azure DNS zone.  With removal
   * the record set ends as the new address alone (every listed address is
   * removed first); without, the address is added to those already there.
   */
  method UpdateDnsRecordOf(api: Api, l: Ledger, w: World, config: DeployConfigs, ip: string, removeOld: bool)
    returns (r: Result<()>)
    modifies l, w`trace, w`dns
    ensures l.calls == old(l.calls) + [(api, UpdateDnsRecord(config, ip, removeOld))]
    ensures r.Ok? && !removeOld ==>
      AzureApi.Records(w.dns, AzureApi.DnsKey(config.domain)) == AzureApi.Records(old(w.dns), AzureApi.DnsKey(config.domain)) + [ip]
    ensures r.Ok? && removeOld ==>
      AzureApi.Records(w.dns, AzureApi.DnsKey(config.domain))
      == AzureApi.Purged(AzureApi.Records(old(w.dns), AzureApi.DnsKey(config.domain)), AzureApi.Listed(old(w.dns), config.domain)) + [ip]
  {
    l.calls := l.calls + [(api, UpdateDnsRecord(config, ip, removeOld))];
    r := AzureApi.UpdateDnsRecord(w, config, ip, removeOld);
  }

  // ---------------------------------------------------------------------
  // OS disks.

  method DiskExistsOf(api: Api, l: Ledger, w: World, config: DeployConfigs, imagePath: Path) returns (r: Result<bool>)
    modifies l, w`trace
    ensures l.calls == old(l.calls) + [(api, DiskExists(config, imagePath))]
    ensures r == DiskAnswer(api, w, config, imagePath)
    ensures r.Ok? && r.value ==> DiskPresent(api, w, config, imagePath)
  {
    l.calls := l.calls + [(api, DiskExists(config, imagePath))];
    if api.AzureApi? {
      r := AzureApi.DiskExists(w, config, imagePath);
    } else {
      var b := GcpApi.DiskExists(w, config, imagePath);
      r := Ok(b);
    }
  }

  method GetDiskNameOf(api: Api, l: Ledger, config: DeployConfigs, imagePath: Path) returns (r: string)
    modifies l
    ensures l.calls == old(l.calls) + [(api, GetDiskName(config, imagePath))]
    ensures r == DiskName(api, config, imagePath)
  {
    l.calls := l.calls + [(api, GetDiskName(config, imagePath))];
    r := DiskName(api, config, imagePath);
  }

  /** create_disk: a missing image file raises FileNotFoundError; the disk created is named as get_disk_name says. */
  /** create_disk succeeds: on Azure the image is there and the create call goes through; on GCP all three stages do. */
  ghost predicate DiskMade(api: Api, w: World, config: DeployConfigs, imagePath: Path)
    reads w`files, w`buckets, w`images
  {
    match api
    case AzureApi =>
      imagePath in w.files && AzureApi.DiskCreateCall(config, imagePath, w.files[imagePath]) !in w.broken
    case GcpApi => GcpApi.DiskCreated(w, config, imagePath)
  }

  method CreateDiskOf(api: Api, l: Ledger, w: World, config: DeployConfigs, imagePath: Path) returns (r: Result<string>)
    modifies l, w`trace, w`azDisks, w`buckets, w`files, w`blobs, w`images, w`gcpDisks
    ensures l.calls == old(l.calls) + [(api, CreateDisk(config, imagePath))]
    ensures api.AzureApi? ==>
      && w.files == old(w.files)
      && (imagePath !in old(w.files) ==> r == Err(FileNotFoundError) && w.trace == old(w.trace))
      && (imagePath in old(w.files) ==>
            var c := AzureApi.DiskCreateCall(config, imagePath, old(w.files)[imagePath]);
            w.trace == old(w.trace) + [c] && (r.Ok? <==> c !in w.broken))
    ensures api.GcpApi? ==>
      var project := config.vm.resourceGroup;
      && |old(w.trace)| < |w.trace| && w.trace[|old(w.trace)|] == GcsBucketGet(project, GcpApi.BucketName(project))
      && (imagePath !in old(w.files) ==>
            r == Err(if old(GcpApi.BucketFails(w, project)) then ApiError
                     else if GcpApi.IsVhd(imagePath) then RuntimeError else FileNotFoundError))
      && (w.files == old(w.files)
          || (GcpApi.IsVhd(imagePath) && w.files == old(w.files)[GcpApi.PackedPath(imagePath) := w.packedSize(imagePath)]))
    ensures api.GcpApi? ==>
      && w.trace == old(w.trace) + old(GcpApi.CreateDiskCalls(w, config, imagePath))
      && (r.Ok? <==> old(GcpApi.DiskCreated(w, config, imagePath)))
    ensures r.Ok? <==> old(DiskMade(api, w, config, imagePath))
    ensures r.Ok? ==> r.value == DiskName(api, config, imagePath) && DiskPresent(api, w, config, imagePath)
  {
    l.calls := l.calls + [(api, CreateDisk(config, imagePath))];
    if api.AzureApi? {
      r := AzureApi.CreateDisk(w, config, imagePath);
    } else {
      r := GcpApi.CreateDisk(w, config, imagePath);
    }
  }

  /** The disk delete_disk removes for (VM, artifact) is gone. */
  ghost predicate DiskGone(api: Api, w: World, resourceGroup: string, vmName: string, artifact: string, location: string)
    reads w`azDisks, w`gcpDisks
  {
    match api
    case AzureApi => AzureApi.DeletedDisk(resourceGroup, vmName, artifact) !in w.azDisks
    case GcpApi => GcpApi.DeletedDisk(resourceGroup, vmName, artifact, location) !in w.gcpDisks
  }

  method DeleteDiskOf(api: Api, l: Ledger, w: World, resourceGroup: string, vmName: string, artifact: string, location: string)
    returns (r: Result<()>)
    modifies l, w`trace, w`azDisks, w`gcpDisks
    ensures l.calls == old(l.calls) + [(api, DeleteDisk(resourceGroup, vmName, artifact, location))]
    ensures r.Ok? ==> DiskGone(api, w, resourceGroup, vmName, artifact, location)
  {
    l.calls := l.calls + [(api, DeleteDisk(resourceGroup, vmName, artifact, location))];
    if api.AzureApi? {
      r := AzureApi.DeleteDisk(w, resourceGroup, vmName, artifact);
    } else {
      r := GcpApi.DeleteDisk(w, resourceGroup, vmName, artifact, location);
    }
  }

  /** upload_disk: Azure grants, copies and revokes; on GCP the image was uploaded by create_disk. */
  /** upload_disk succeeds: on Azure the grant, the copy and the revoke all go through; on GCP it does nothing. */
  ghost predicate UploadSucceeds(api: Api, w: World, config: DeployConfigs, imagePath: Path) {
    api.AzureApi? ==>
      |AzureApi.UploadCalls(w.broken, config, imagePath)| == 3 && AzureApi.RevokeCall(config, imagePath) !in w.broken
  }

  /** create_nsg succeeds: on Azure the create call goes through; on GCP it does nothing. */
  ghost predicate NsgSucceeds(api: Api, w: World, config: DeployConfigs) {
    api.AzureApi? ==> AzNsgCreate(config.vm.resourceGroup, config.vm.nsgName, config.vm.Location()) !in w.broken
  }

  /**
   * create_standard_nsg_rules succeeds: on Azure every rule call goes
   * through; on GCP a failed insert is only logged and the standard
   * priorities all build.
   */
  ghost predicate RulesSucceed(api: Api, w: World, config: DeployConfigs) {
    api.AzureApi? ==>
      AzureApi.RunOk(w.broken, config.vm.resourceGroup, config.vm.nsgName, AzureApi.StandardRules(config.sourceIp))
  }

  /** create_vm succeeds: the provider's create or insert request for the VM goes through. */
  ghost predicate VmSucceeds(api: Api, w: World, config: DeployConfigs, ipName: string, diskName: string)
    reads w`addresses
  {
    match api
    case AzureApi => AzureApi.VmCreateCall(config, ipName, diskName) !in w.broken
    case GcpApi =>
      var project, zone, name := config.vm.resourceGroup, config.vm.Location(), config.vm.name;
      var natIp := GcpApi.ReservedIp(w.addresses, w.broken, ipName, project);
      GcpInstanceInsert(project, zone, name,
                        GcpApi.Requested(zone, config.vm.size, natIp, diskName, name, Some(AzureApi.UserDataFor(config))))
        !in w.broken
  }

  method UploadDiskOf(api: Api, l: Ledger, w: World, config: DeployConfigs, imagePath: Path) returns (r: Result<()>)
    modifies l, w`trace, w`granted, w`uploaded
    ensures l.calls == old(l.calls) + [(api, UploadDisk(config, imagePath))]
    ensures api.AzureApi? && r.Ok? ==> w.uploaded == old(w.uploaded)[AzureApi.DiskKey(config, imagePath) := imagePath]
    ensures api.GcpApi? ==> r.Ok? && w.trace == old(w.trace)
    ensures r.Ok? <==> UploadSucceeds(api, w, config, imagePath)
  {
    l.calls := l.calls + [(api, UploadDisk(config, imagePath))];
    if api.AzureApi? {
      r := AzureApi.UploadDisk(w, config, imagePath);
    } else {
      r := GcpApi.UploadDisk(config, imagePath);
    }
  }

  // ---------------------------------------------------------------------
  // Security groups and firewall rules.

  method CreateNsgOf(api: Api, l: Ledger, w: World, config: DeployConfigs) returns (r: Result<()>)
    modifies l, w`trace, w`nsgs
    ensures l.calls == old(l.calls) + [(api, CreateNsg(config))]
    ensures api.AzureApi? && r.Ok? ==> (config.vm.resourceGroup, config.vm.nsgName) in w.nsgs
    ensures api.GcpApi? ==> r.Ok? && w.trace == old(w.trace)
    ensures r.Ok? <==> NsgSucceeds(api, w, config)
  {
    l.calls := l.calls + [(api, CreateNsg(config))];
    if api.AzureApi? {
      r := AzureApi.CreateNsg(w, config);
    } else {
      r := GcpApi.CreateNsg(config);
    }
  }

  /** The rule is in force: an Azure security rule, or the GCP firewall translated from it. */
  ghost predicate RuleInstalled(api: Api, w: World, config: DeployConfigs, rule: NsgRule)
    reads w`nsgRules, w`firewalls
  {
    match api
    case AzureApi => (config.vm.resourceGroup, config.vm.nsgName, rule) in w.nsgRules
    case GcpApi =>
      GcpApi.FirewallFor(config, rule).Ok?
      && (config.vm.resourceGroup, GcpApi.FirewallFor(config, rule).value.name) in w.firewalls
  }

  /** add_nsg_rule: once it succeeds the rule is in force (on GCP a rule of that name may have been there already). */
  method AddNsgRuleOf(api: Api, l: Ledger, w: World, config: DeployConfigs, rule: NsgRule) returns (r: Result<()>)
    modifies l, w`trace, w`nsgRules, w`firewalls
    ensures l.calls == old(l.calls) + [(api, AddNsgRule(config, rule))]
    ensures api.AzureApi? && r.Ok? ==> RuleInstalled(api, w, config, rule)
    ensures api.GcpApi? && r.Ok? && GcpApi.FirewallFor(config, rule).Ok?
            && GcpFirewallInsert(config.vm.resourceGroup, GcpApi.FirewallFor(config, rule).value) !in w.broken ==>
      RuleInstalled(api, w, config, rule)
    ensures api.GcpApi? ==> (r.Ok? <==> GcpApi.FirewallFor(config, rule).Ok?)
    ensures old(w.nsgRules) <= w.nsgRules
  {
    l.calls := l.calls + [(api, AddNsgRule(config, rule))];
    if api.AzureApi? {
      r := AzureApi.AddNsgRule(w, config, rule);
    } else {
      r := AddFirewallOf(w, config, rule);
    }
  }

  /** The GCP side of add_nsg_rule: the firewall built from the rule is inserted, unless the rule cannot be expressed. */
  method AddFirewallOf(w: World, config: DeployConfigs, rule: NsgRule) returns (r: Result<()>)
    modifies w`trace, w`firewalls
    ensures r.Ok? <==> GcpApi.FirewallFor(config, rule).Ok?
    ensures r.Ok? && GcpFirewallInsert(config.vm.resourceGroup, GcpApi.FirewallFor(config, rule).value) !in w.broken ==>
      RuleInstalled(GcpApi, w, config, rule)
  {
    ghost var built := GcpApi.FirewallFor(config, rule);
    ghost var before := w.firewalls;
    r := GcpApi.AddNsgRule(w, config, rule);
    if built.Ok? {
      assert w.firewalls == GcpApi.Install(w.broken, before, config.vm.resourceGroup, built.value);
    }
  }

  method CreateStandardNsgRulesOf(api: Api, l: Ledger, w: World, config: DeployConfigs) returns (r: Result<()>)
    modifies l, w`trace, w`nsgRules, w`firewalls
    ensures l.calls == old(l.calls) + [(api, CreateStandardNsgRules(config))]
    ensures api.GcpApi? ==> r.Ok?
    ensures r.Ok? <==> RulesSucceed(api, w, config)
  {
    l.calls := l.calls + [(api, CreateStandardNsgRules(config))];
    if api.AzureApi? {
      r := AzureApi.CreateStandardNsgRules(w, config);
    } else {
      r := GcpApi.CreateStandardNsgRules(w, config);
    }
  }

  // ---------------------------------------------------------------------
  // Data disks.

  /** The data disk exists in the binding's cloud (Azure disks are per group, GCP disks per zone). */
  ghost predicate DataDiskPresent(api: Api, w: World, resourceGroup: string, diskName: string, location: string)
    reads w`azDisks, w`gcpDisks
  {
    match api
    case AzureApi => (resourceGroup, diskName) in w.azDisks
    case GcpApi => (resourceGroup, location, diskName) in w.gcpDisks
  }

  /** create_data_disk with the provider's default disk type. */
  method CreateDataDiskOf(api: Api, l: Ledger, w: World, resourceGroup: string, diskName: string, location: string, sizeGb: int)
    returns (r: Result<()>)
    modifies l, w`trace, w`azDisks, w`gcpDisks
    ensures l.calls == old(l.calls) + [(api, CreateDataDisk(resourceGroup, diskName, location, sizeGb))]
    ensures r.Ok? ==> DataDiskPresent(api, w, resourceGroup, diskName, location)
  {
    l.calls := l.calls + [(api, CreateDataDisk(resourceGroup, diskName, location, sizeGb))];
    if api.AzureApi? {
      r := AzureApi.CreateDataDisk(w, resourceGroup, diskName, location, sizeGb, AzureApi.DefaultDataDiskSku);
    } else {
      r := GcpApi.CreateDataDisk(w, resourceGroup, diskName, location, sizeGb, GcpApi.DefaultDataDiskType);
    }
  }

  /** The VM exists and carries the data disk (on Azure at that LUN; GCP ignores the LUN). */
  ghost predicate DataDiskAttached(api: Api, w: World, resourceGroup: string, vmName: string, diskName: string, location: string, lun: int)
    reads w`azVms, w`instances
  {
    match api
    case AzureApi =>
      (resourceGroup, vmName) in w.azVms && lun in w.azVms[(resourceGroup, vmName)].dataDisks
      && w.azVms[(resourceGroup, vmName)].dataDisks[lun] == diskName
    case GcpApi =>
      (resourceGroup, location, vmName) in w.instances && diskName in w.instances[(resourceGroup, location, vmName)].dataDisks
  }

  /** The VM exists in the binding's cloud. */
  ghost predicate VmPresent(api: Api, w: World, resourceGroup: string, vmName: string, location: string)
    reads w`azVms, w`instances
  {
    match api
    case AzureApi => (resourceGroup, vmName) in w.azVms
    case GcpApi => (resourceGroup, location, vmName) in w.instances
  }

  method AttachDataDiskOf(api: Api, l: Ledger, w: World, resourceGroup: string, vmName: string, diskName: string,
                          location: string, lun: int) returns (r: Result<()>)
    modifies l, w`trace, w`azVms, w`instances
    ensures l.calls == old(l.calls) + [(api, AttachDataDisk(resourceGroup, vmName, diskName, location, lun))]
    ensures r.Ok? && old(VmPresent(api, w, resourceGroup, vmName, location)) ==>
      DataDiskAttached(api, w, resourceGroup, vmName, diskName, location, lun)
    ensures forall osDisk :: old(VmBootsFrom(api, w, resourceGroup, vmName, location, osDisk)) ==>
      VmBootsFrom(api, w, resourceGroup, vmName, location, osDisk)
  {
    l.calls := l.calls + [(api, AttachDataDisk(resourceGroup, vmName, diskName, location, lun))];
    if api.AzureApi? {
      r := AzureApi.AttachDataDisk(w, resourceGroup, vmName, diskName, lun);
    } else {
      r := GcpApi.AttachDataDisk(w, resourceGroup, vmName, diskName, location, lun);
    }
  }

  // ---------------------------------------------------------------------
  // Virtual machines.

  /** The VM exists and boots from the named disk. */
  ghost predicate VmBootsFrom(api: Api, w: World, resourceGroup: string, vmName: string, location: string, diskName: string)
    reads w`azVms, w`instances
  {
    match api
    case AzureApi => (resourceGroup, vmName) in w.azVms && w.azVms[(resourceGroup, vmName)].osDisk == diskName
    case GcpApi => (resourceGroup, location, vmName) in w.instances && w.instances[(resourceGroup, location, vmName)].bootDisk == diskName
  }

  method CreateVmSimpleOf(api: Api, l: Ledger, w: World, vmName: string, vmSize: string, resourceGroup: string, location: string,
                          osDiskName: string, nsgName: string, ipName: string) returns (r: Result<()>)
    modifies l, w`trace, w`azVms, w`instances
    ensures l.calls == old(l.calls) + [(api, CreateVmSimple(vmName, vmSize, resourceGroup, location, osDiskName, nsgName, ipName))]
    ensures r.Ok? ==> VmBootsFrom(api, w, resourceGroup, vmName, location, osDiskName)
  {
    l.calls := l.calls + [(api, CreateVmSimple(vmName, vmSize, resourceGroup, location, osDiskName, nsgName, ipName))];
    if api.AzureApi? {
      r := AzureApi.CreateVmSimple(w, vmName, vmSize, resourceGroup, location, osDiskName, nsgName, ipName);
    } else {
      r := GcpApi.CreateVmSimple(w, vmName, vmSize, resourceGroup, location, osDiskName, nsgName, ipName);
    }
  }

  /** create_vm: the user-data file is gone afterwards whether or not the VM was created. */
  method CreateVmOf(api: Api, l: Ledger, w: World, config: DeployConfigs, imagePath: Path, ipName: string, diskName: string)
    returns (r: Result<()>)
    requires w.Valid()
    modifies l, w`temps, w`nextTemp, w`trace, w`azVms, w`instances
    ensures w.Valid() && w.temps == old(w.temps)
    ensures l.calls == old(l.calls) + [(api, CreateVm(config, imagePath, ipName, diskName))]
    ensures r.Ok? ==> VmBootsFrom(api, w, config.vm.resourceGroup, config.vm.name, config.vm.Location(), diskName)
    ensures r.Ok? <==> VmSucceeds(api, w, config, ipName, diskName)
  {
    l.calls := l.calls + [(api, CreateVm(config, imagePath, ipName, diskName))];
    if api.AzureApi? {
      r := AzureApi.CreateVm(w, config, ipName, diskName);
    } else {
      r := GcpApi.CreateVm(w, config, imagePath, ipName, diskName);
    }
  }

  /** get_vm_ip: Azure retries on its reply oracle; GCP reads the instance once. */
  method GetVmIpOf(api: Api, l: Ledger, w: World, vmName: string, resourceGroup: string, location: string)
    returns (r: Result<Json>)
    modifies l, w`trace
    ensures l.calls == old(l.calls) + [(api, GetVmIp(vmName, resourceGroup, location))]
    ensures r == VmIpAnswer(api, w, vmName, resourceGroup, location)
  {
    l.calls := l.calls + [(api, GetVmIp(vmName, resourceGroup, location))];
    if api.AzureApi? {
      r := AzureApi.GetVmIp(w, vmName);
    } else {
      var ip := GcpApi.GetVmIp(w, vmName, resourceGroup, location);
      match ip
      case Ok(s) => r := Ok(JStr(s));
      case Err(e) => r := Err(e);
    }
  }

  /** The provider's delete_vm, selected by the binding. */
  method DeleteVmBy(api: Api, w: World, vmName: string, artifact: string, home: string) returns (r: Result<bool>)
    modifies w`trace, w`stdin, w`azVms, w`azDisks, w`instances, w`gcpDisks, w`docs
    ensures VmDeleteOutcome(api, old(w.docs), old(w.stdin), w.broken, vmName, artifact, home, old(w.trace), w.trace,
                            old(w.azVms), w.azVms, old(w.azDisks), w.azDisks,
                            old(w.instances), w.instances, old(w.gcpDisks), w.gcpDisks, w.docs, r)
  {
    ghost var docs0, stdin0, trace0 := w.docs, w.stdin, w.trace;
    ghost var azVms0, azDisks0, instances0, gcpDisks0 := w.azVms, w.azDisks, w.instances, w.gcpDisks;
    if api.AzureApi? {
      r := AzureApi.DeleteVm(w, vmName, artifact, home);
      assert AzureApi.DeleteVmOutcome(docs0, stdin0, w.broken, vmName, artifact, home, trace0, w.trace,
                                      azVms0, w.azVms, azDisks0, w.azDisks, w.docs, r);
    } else {
      r := GcpApi.DeleteVm(w, vmName, artifact, home);
      assert GcpApi.DeleteVmOutcome(docs0, stdin0, w.broken, vmName, artifact, home, trace0, w.trace,
                                    instances0, w.instances, gcpDisks0, w.gcpDisks, w.docs, r);
    }
  }

  /**
   * delete_vm: the binding looks the VM up in its own metadata partition
   * (the group and location passed in are not used); an unlisted VM gives
   * False with nothing done, and metadata changes only on success.
   */
  method DeleteVmOf(api: Api, l: Ledger, w: World, vmName: string, resourceGroup: Json, location: Json,
                    artifact: string, home: string) returns (r: Result<bool>)
    modifies l, w`trace, w`stdin, w`azVms, w`azDisks, w`instances, w`gcpDisks, w`docs
    ensures l.calls == old(l.calls) + [(api, DeleteVm(vmName, resourceGroup, location, artifact, home))]
    ensures VmDeleteOutcome(api, old(w.docs), old(w.stdin), w.broken, vmName, artifact, home, old(w.trace), w.trace,
                            old(w.azVms), w.azVms, old(w.azDisks), w.azDisks,
                            old(w.instances), w.instances, old(w.gcpDisks), w.gcpDisks, w.docs, r)
    ensures Unlisted(api, old(w.docs), home, vmName) ==> r == Ok(false) && w.trace == old(w.trace)
    ensures r.Err? || r == Ok(false) ==> w.docs == old(w.docs)
  {
    l.calls := l.calls + [(api, DeleteVm(vmName, resourceGroup, location, artifact, home))];
    ghost var docs0, stdin0, trace0 := w.docs, w.stdin, w.trace;
    ghost var azVms0, azDisks0, instances0, gcpDisks0 := w.azVms, w.azDisks, w.instances, w.gcpDisks;
    r := DeleteVmBy(api, w, vmName, artifact, home);
    OutcomeOfUnlisted(api, docs0, stdin0, w.broken, vmName, artifact, home, trace0, w.trace, azVms0, w.azVms, azDisks0, w.azDisks,
                      instances0, w.instances, gcpDisks0, w.gcpDisks, w.docs, r);
  }
}
