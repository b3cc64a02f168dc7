/**
 * The world the deployment tool acts on: the local machine (files, the JSON
 * metadata documents, temporary files, standard input) and the two clouds
 * (Azure resource groups, addresses, DNS records, disks, security groups and
 * VMs; GCP projects, addresses, images, disks, firewall rules and
 * instances).  Every command or SDK call the tool makes is appended to
 * `trace`; `broken` names the calls that fail, so each failure path can be
 * reached.  Lookups whose answer the tool cannot influence (the address a
 * cloud allocates, the replies to a VM's address query) are oracle functions
 * fixed when the world is created.
 */
module Env {
  import opened Wrappers
  import opened Json
  import opened Paths

  /** One inbound security rule as the Azure CLI receives it. */
  datatype NsgRule = NsgRule(name: string, priority: string, port: string, protocol: string, source: string)

  /** One GCP firewall rule as the tool builds it. */
  datatype Firewall = Firewall(
    name: string,
    direction: string,
    priority: int,
    network: string,
    protocol: string,
    ports: seq<string>,
    sourceRanges: seq<string>,
    targetTags: seq<string>)

  /** The contents of a temporary file the tool writes. */
  datatype TempContent =
    | UserData(email: string, record: string, domain: string)
    | MeasurementsFile(measurements: Json)

  /** An Azure VM: its size, OS disk, security group, address name, user data and data disks by LUN. */
  datatype AzureVm = AzureVm(
    size: string,
    location: Option<string>,
    osDisk: string,
    nsg: string,
    ipName: string,
    userData: Option<TempContent>,
    dataDisks: map<int, string>)

  datatype AccessConfig = AccessConfig(natIp: string)
  datatype NetworkInterface = NetworkInterface(accessConfigs: seq<AccessConfig>)

  /** A GCP instance: machine type, network interfaces, boot disk, tags, user data and data disks. */
  datatype Instance = Instance(
    machineType: string,
    interfaces: seq<NetworkInterface>,
    bootDisk: string,
    tags: seq<string>,
    userData: Option<TempContent>,
    dataDisks: seq<string>)

  /**
   * What confirm(what) asks to go ahead with; the question put is
   * "Are you sure you want to <what>? [y/N]".
   */
  datatype Deed =
    | CreateGroup(group: string, location: string)
    | CreateNodeIp(node: int, ipName: string)
    | DeleteVmNamed(vmName: string)

  /** A question put on standard input. */
  datatype Question =
    | Confirming(deed: Deed)
    /** delete_artifact's warning, listing the (VM, cloud) pairs the artifact is deployed to. */
    | DeletingDeployed(artifact: string, deployedTo: seq<(string, string)>)

  /** The reply of one `az vm list-ip-addresses` run; stdout is None when it is not JSON. */
  datatype Reply = Reply(returncode: int, stdout: Option<Json>)

  /** An action on the local machine. */
  datatype LocalOp =
    | Ask(question: Question)
    | Rm(path: Path)
    | Write(path: Path)
    | Mkstemp(handle: nat)
    | UnlinkFile(handle: nat)
    | StartProxy(publicIp: Json)
    | StopProxy(publicIp: Json)
    /** `qemu-img convert -f vpc -O raw` of a VHD into a scratch directory. */
    | QemuImg(vhdPath: Path)
    /** `tar --format=oldgnu -czf` of the converted raw disk. */
    | Tar(vhdPath: Path)

  /** An Azure CLI command on tools, resource groups, addresses or DNS records. */
  datatype AzNetOp =
    | Version(tool: string)
    | GroupShow(group: string)
    | GroupCreate(group: string, location: string)
    | IpCreate(group: string, name: string, location: string)
    | IpShow(group: string, name: string)
    | DnsList(group: string, zone: string, record: string)
    | DnsRemove(group: string, zone: string, record: string, ip: string)
    | DnsAdd(group: string, zone: string, record: string, ip: string)

  /** An Azure CLI command on disks. */
  datatype AzDiskOp =
    | DiskList(group: string)
    | DiskCreate(group: string, name: string, location: string, size: nat)
    | DiskGrant(group: string, name: string)
    | Copy(imagePath: Path, group: string, disk: string)
    | DiskRevoke(group: string, name: string)
    | DiskDelete(group: string, name: string)
    | DataDiskCreate(group: string, name: string, location: string, sizeGb: int, sku: string)
    | DiskAttach(group: string, vm: string, disk: string, lun: int)

  /** An Azure CLI command on security groups or VMs. */
  datatype AzVmOp =
    | NsgCreate(group: string, name: string, location: string)
    | RuleCreate(group: string, nsg: string, rule: NsgRule)
    | VmCreate(group: string, name: string, vmLocation: Option<string>, disk: string, nsg: string, ipName: string)
    | VmListIp(name: string, attempt: nat)
    | VmDelete(group: string, name: string)

  /** A GCP request on projects, addresses, storage, images or firewalls. */
  datatype GcpProjectOp =
    | ProjectGet(project: string)
    | AddressInsert(project: string, region: string, name: string)
    | AddressGet(project: string, region: string, name: string)
    | ImageGet(project: string, image: string)
    | ImageCreate(project: string, image: string, bucket: string, blob: string)
    | FirewallInsert(project: string, firewall: Firewall)

  /** A Cloud Storage request on the bucket images are staged in. */
  datatype GcpStorageOp =
    | BucketGet(project: string, bucket: string)
    | BucketCreate(project: string, bucket: string, location: string)
    | Upload(project: string, bucket: string, blob: string, uploadPath: Path)

  /** A GCP request on disks or instances. */
  datatype GcpComputeOp =
    | GcpDisk(project: string, zone: string, name: string)
    | DiskInsert(project: string, zone: string, name: string, image: string)
    | GcpDiskRemove(project: string, zone: string, name: string)
    | DataDiskInsert(project: string, zone: string, name: string, sizeGb: int, diskType: string)
    | AttachDisk(project: string, zone: string, instanceName: string, disk: string)
    | InstanceInsert(project: string, zone: string, name: string, instance: Instance)
    | InstanceGet(project: string, zone: string, name: string)
    | InstanceDelete(project: string, zone: string, name: string)

  /**
   * Every external action the tool takes, with the arguments that identify
   * it, grouped by where it goes; the functions below name each one.
   */
  datatype Call =
    | Local(local: LocalOp)
    | AzNet(azNet: AzNetOp)
    | AzDisk(azDisk: AzDiskOp)
    | AzVm(azVm: AzVmOp)
    | GcpProject(gcpProject: GcpProjectOp)
    | GcpStorage(gcpStorage: GcpStorageOp)
    | GcpCompute(gcpCompute: GcpComputeOp)

  // The local machine.
  function Prompt(question: Question): Call { Local(LocalOp.Ask(question)) }
  function RemoveFile(path: Path): Call { Local(LocalOp.Rm(path)) }
  function WriteDoc(path: Path): Call { Local(LocalOp.Write(path)) }
  function MakeTemp(handle: nat): Call { Local(LocalOp.Mkstemp(handle)) }
  function Unlink(handle: nat): Call { Local(LocalOp.UnlinkFile(handle)) }
  function ProxyStart(publicIp: Json): Call { Local(LocalOp.StartProxy(publicIp)) }
  function ProxyStop(publicIp: Json): Call { Local(LocalOp.StopProxy(publicIp)) }
  function ConvertVhd(vhdPath: Path): Call { Local(QemuImg(vhdPath)) }
  function PackRaw(vhdPath: Path): Call { Local(Tar(vhdPath)) }

  // The Azure CLI.
  function ToolVersion(tool: string): Call { AzNet(AzNetOp.Version(tool)) }
  function AzGroupShow(group: string): Call { AzNet(GroupShow(group)) }
  function AzGroupCreate(group: string, location: string): Call { AzNet(GroupCreate(group, location)) }
  function AzIpCreate(group: string, name: string, location: string): Call { AzNet(IpCreate(group, name, location)) }
  function AzIpShow(group: string, name: string): Call { AzNet(IpShow(group, name)) }
  function AzDnsList(group: string, zone: string, record: string): Call { AzNet(DnsList(group, zone, record)) }
  function AzDnsRemove(group: string, zone: string, record: string, ip: string): Call {
    AzNet(DnsRemove(group, zone, record, ip))
  }
  function AzDnsAdd(group: string, zone: string, record: string, ip: string): Call { AzNet(DnsAdd(group, zone, record, ip)) }
  function AzDiskList(group: string): Call { AzDisk(DiskList(group)) }
  function AzDiskCreate(group: string, name: string, location: string, size: nat): Call {
    AzDisk(DiskCreate(group, name, location, size))
  }
  function AzDiskGrant(group: string, name: string): Call { AzDisk(DiskGrant(group, name)) }
  /** azcopy of the image onto the disk; the SAS URI stands for the disk it unlocks. */
  function AzCopy(imagePath: Path, group: string, disk: string): Call { AzDisk(Copy(imagePath, group, disk)) }
  function AzDiskRevoke(group: string, name: string): Call { AzDisk(DiskRevoke(group, name)) }
  function AzDiskDelete(group: string, name: string): Call { AzDisk(DiskDelete(group, name)) }
  function AzDataDiskCreate(group: string, name: string, location: string, sizeGb: int, sku: string): Call {
    AzDisk(DataDiskCreate(group, name, location, sizeGb, sku))
  }
  function AzDiskAttach(group: string, vm: string, disk: string, lun: int): Call { AzDisk(DiskAttach(group, vm, disk, lun)) }
  function AzNsgCreate(group: string, name: string, location: string): Call { AzVm(NsgCreate(group, name, location)) }
  function AzRuleCreate(group: string, nsg: string, rule: NsgRule): Call { AzVm(RuleCreate(group, nsg, rule)) }
  function AzVmCreate(group: string, name: string, vmLocation: Option<string>, disk: string, nsg: string, ipName: string): Call {
    AzVm(VmCreate(group, name, vmLocation, disk, nsg, ipName))
  }
  function AzVmListIp(name: string, attempt: nat): Call { AzVm(VmListIp(name, attempt)) }
  function AzVmDelete(group: string, name: string): Call { AzVm(VmDelete(group, name)) }

  // The GCP SDK.
  function GcpProjectGet(project: string): Call { GcpProject(ProjectGet(project)) }
  function GcpAddressInsert(project: string, region: string, name: string): Call {
    GcpProject(AddressInsert(project, region, name))
  }
  function GcpAddressGet(project: string, region: string, name: string): Call { GcpProject(AddressGet(project, region, name)) }
  function GcsBucketGet(project: string, bucket: string): Call { GcpStorage(BucketGet(project, bucket)) }
  function GcsBucketCreate(project: string, bucket: string, location: string): Call {
    GcpStorage(BucketCreate(project, bucket, location))
  }
  function GcpUpload(project: string, bucket: string, blob: string, uploadPath: Path): Call {
    GcpStorage(Upload(project, bucket, blob, uploadPath))
  }
  function GcpImageGet(project: string, image: string): Call { GcpProject(ImageGet(project, image)) }
  function GcpImageCreate(project: string, image: string, bucket: string, blob: string): Call {
    GcpProject(ImageCreate(project, image, bucket, blob))
  }
  function GcpFirewallInsert(project: string, firewall: Firewall): Call { GcpProject(FirewallInsert(project, firewall)) }
  function GcpDiskGet(project: string, zone: string, name: string): Call { GcpCompute(GcpDisk(project, zone, name)) }
  function GcpDiskInsert(project: string, zone: string, name: string, image: string): Call {
    GcpCompute(DiskInsert(project, zone, name, image))
  }
  function GcpDiskDelete(project: string, zone: string, name: string): Call { GcpCompute(GcpDiskRemove(project, zone, name)) }
  function GcpDataDiskInsert(project: string, zone: string, name: string, sizeGb: int, diskType: string): Call {
    GcpCompute(DataDiskInsert(project, zone, name, sizeGb, diskType))
  }
  function GcpAttachDisk(project: string, zone: string, instanceName: string, disk: string): Call {
    GcpCompute(AttachDisk(project, zone, instanceName, disk))
  }
  function GcpInstanceInsert(project: string, zone: string, name: string, instance: Instance): Call {
    GcpCompute(InstanceInsert(project, zone, name, instance))
  }
  function GcpInstanceGet(project: string, zone: string, name: string): Call { GcpCompute(InstanceGet(project, zone, name)) }
  function GcpInstanceDelete(project: string, zone: string, name: string): Call {
    GcpCompute(InstanceDelete(project, zone, name))
  }

  class World {
    // The local machine.
    /** Regular files and their sizes in bytes. */
    var files: map<Path, nat>
    /** The JSON documents on disk, by path. */
    var docs: map<Path, Json>
    /** Temporary files by handle; handles below `nextTemp` have been used. */
    var temps: map<nat, TempContent>
    var nextTemp: nat
    /** The lines standard input still holds. */
    var stdin: seq<string>
    /** Every external call made so far, oldest first. */
    var trace: seq<Call>
    /** The calls that fail when made. */
    const broken: set<Call>

    // Azure.
    var groups: set<string>
    /** What the address query prints for (group, name). */
    var azIps: map<(string, string), string>
    /** What `az network public-ip create` prints for (group, name). */
    const azAllocate: (string, string) -> string
    /** DNS A record sets by (resource group, zone, record name). */
    var dns: map<(string, string, string), seq<string>>
    /** Managed disks by (resource group, name). */
    var azDisks: set<(string, string)>
    /** Disks whose write access is currently granted. */
    var granted: set<(string, string)>
    /** The image copied onto each uploaded disk. */
    var uploaded: map<(string, string), Path>
    var nsgs: set<(string, string)>
    /** Security rules in creation order, as (resource group, security group, rule). */
    var nsgRules: seq<(string, string, NsgRule)>
    var azVms: map<(string, string), AzureVm>
    /** The reply to the n-th address query for a VM name. */
    const azIpReplies: (string, nat) -> Reply

    // GCP.
    var projects: set<string>
    /** Static addresses by (project, region, name). */
    var addresses: map<(string, string, string), string>
    /** The address GCP reserves for (project, region, name). */
    const gcpAllocate: (string, string, string) -> string
    /** The ephemeral address GCP gives an instance created without a reserved one. */
    const ephemeral: (string, string, string) -> string
    /** Cloud Storage buckets by (project, name). */
    var buckets: set<(string, string)>
    /** Objects by (bucket, name). */
    var blobs: set<(string, string)>
    /** The size of the .tar.gz the conversion of a VHD produces. */
    const packedSize: Path -> nat
    var images: set<(string, string)>
    /** Disks by (project, zone, name). */
    var gcpDisks: set<(string, string, string)>
    var firewalls: map<(string, string), Firewall>
    var instances: map<(string, string, string), Instance>

    /** Temporary-file handles are never reused. */
    ghost predicate Valid()
      reads this`temps, this`nextTemp
    {
      forall h :: h in temps ==> h < nextTemp
    }

    constructor (
      broken: set<Call>,
      azAllocate: (string, string) -> string,
      azIpReplies: (string, nat) -> Reply,
      gcpAllocate: (string, string, string) -> string,
      ephemeral: (string, string, string) -> string,
      packedSize: Path -> nat)
      ensures Valid()
      ensures this.broken == broken && trace == [] && temps == map[]
      ensures this.azAllocate == azAllocate && this.azIpReplies == azIpReplies
      ensures this.gcpAllocate == gcpAllocate && this.ephemeral == ephemeral && this.packedSize == packedSize
    {
      this.broken := broken;
      this.azAllocate := azAllocate;
      this.azIpReplies := azIpReplies;
      this.gcpAllocate := gcpAllocate;
      this.ephemeral := ephemeral;
      this.packedSize := packedSize;
      files := map[];
      docs := map[];
      temps := map[];
      nextTemp := 0;
      stdin := [];
      trace := [];
      groups := {};
      azIps := map[];
      dns := map[];
      azDisks := {};
      granted := {};
      uploaded := map[];
      nsgs := {};
      nsgRules := [];
      azVms := map[];
      projects := {};
      addresses := map[];
      buckets := {};
      blobs := {};
      images := {};
      gcpDisks := {};
      firewalls := map[];
      instances := map[];
    }

    /** Makes a call: logs it and reports whether it succeeded. */
    method Attempt(c: Call) returns (ok: bool)
      modifies this`trace
      ensures trace == old(trace) + [c]
      ensures ok <==> c !in broken
    {
      trace := trace + [c];
      ok := c !in broken;
    }

    /** One `az vm list-ip-addresses` run, whose exit status is not checked by the runner. */
    method ListIpAddresses(name: string, attempt: nat) returns (reply: Reply)
      modifies this`trace
      ensures trace == old(trace) + [AzVmListIp(name, attempt)]
      ensures reply == azIpReplies(name, attempt)
    {
      trace := trace + [AzVmListIp(name, attempt)];
      reply := azIpReplies(name, attempt);
    }

    /** tempfile.mkstemp followed by a write: a fresh handle holding the content. */
    method MakeTempFile(content: TempContent) returns (h: nat)
      requires Valid()
      modifies this`temps, this`nextTemp, this`trace
      ensures Valid()
      ensures h == old(nextTemp) && h !in old(temps)
      ensures temps == old(temps)[h := content]
      ensures trace == old(trace) + [MakeTemp(h)]
    {
      h := nextTemp;
      temps := temps[h := content];
      nextTemp := nextTemp + 1;
      trace := trace + [MakeTemp(h)];
    }

    /** os.unlink of a temporary file. */
    method UnlinkTemp(h: nat)
      requires Valid()
      modifies this`temps, this`trace
      ensures Valid()
      ensures temps == old(temps) - {h}
      ensures trace == old(trace) + [Unlink(h)]
    {
      temps := temps - {h};
      trace := trace + [Unlink(h)];
    }
  }

  /** Regrouping a concatenation, for the proofs that build a trace or a ledger piece by piece. */
  lemma AppendAssoc<T>(a: seq<T>, b: seq<T>, c: seq<T>)
    ensures (a + b) + c == a + (b + c)
  {
  }
}
