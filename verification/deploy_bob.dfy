/**
 * The BOB searcher deployment: an Azure-only pipeline that keeps the VM's
 * public address, replaces the OS disk with a fresh upload of the image,
 * creates a persistent data disk before the VM and attaches it at LUN 10
 * after, and opens the searcher's firewall table.
 */
module DeployBob {
  import opened Wrappers
  import opened Json
  import opened Paths
  import opened Env
  import opened CloudApi
  import opened Binding
  import AzureApi
  import DeploymentConfig
  import Deploy

  // ---------------------------------------------------------------------
  // The firewall table.

  /**
   * The searcher's security rules in creation order: the control-plane,
   * key-registration and container SSH ports for the operator's address
   * only, the searcher service ports and the standard ports for everyone.
   */
  function BobRules(sourceIp: string): seq<NsgRule> {
    [NsgRule("AllowSSH", "100", "22", "Tcp", sourceIp),
     NsgRule("AllowSSHKeyReg", "101", "8080", "Tcp", sourceIp),
     NsgRule("AllowContainerSSH", "102", "10022", "Tcp", sourceIp),
     NsgRule("AllowAttestation", "110", "8745", "Tcp", "*"),
     NsgRule("AllowSearcherInput", "111", "27017", "Udp", "*"),
     NsgRule("AllowConsensusP2P", "112", "9000", "*", "*"),
     NsgRule("AllowExecutionP2P", "113", "30303", "*", "*"),
     NsgRule("AllowEngineAPI", "114", "8551", "Tcp", "*"),
     NsgRule("AllowHTTP", "120", "80", "Tcp", "*"),
     NsgRule("AllowHTTPS", "121", "443", "Tcp", "*"),
     NsgRule("Allow8545", "122", "8545", "Tcp", "*"),
     NsgRule("Allow8645", "123", "8645", "Tcp", "*"),
     NsgRule("Allow7878", "124", "7878", "Tcp", "*"),
     NsgRule("Allow7936", "125", "7936", "Tcp", "*")]
  }

  /** The ports only the operator's address may reach. */
  const OperatorPorts: set<string> := {"22", "8080", "10022"}

  /** Fourteen rules; each admits only the operator's address exactly when its port is an operator port, and any source otherwise. */
  lemma BobRulesSources(sourceIp: string)
    ensures |BobRules(sourceIp)| == 14
    ensures forall i :: 0 <= i < |BobRules(sourceIp)| ==>
      && (BobRules(sourceIp)[i].port in OperatorPorts ==> BobRules(sourceIp)[i].source == sourceIp)
      && (BobRules(sourceIp)[i].port !in OperatorPorts ==> BobRules(sourceIp)[i].source == "*")
  {
  }

  /** No two rules of the table share a name. */
  lemma BobRuleNamesDistinct(sourceIp: string)
    ensures forall i, j :: 0 <= i < j < |BobRules(sourceIp)| ==> BobRules(sourceIp)[i].name != BobRules(sourceIp)[j].name
  {
  }

  /** No two rules of the table share a priority, as Azure requires within one security group. */
  lemma BobRulePrioritiesDistinct(sourceIp: string)
    ensures forall i, j :: 0 <= i < j < |BobRules(sourceIp)| ==> BobRules(sourceIp)[i].priority != BobRules(sourceIp)[j].priority
  {
  }

  /** No two rules of the table open the same port. */
  lemma BobRulePortsDistinct(sourceIp: string)
    ensures forall i, j :: 0 <= i < j < |BobRules(sourceIp)| ==> BobRules(sourceIp)[i].port != BobRules(sourceIp)[j].port
  {
  }

  /** The add_nsg_rule calls create_bob_nsg_rules makes, one per rule in table order. */
  function RuleCalls(config: DeployConfigs): seq<(Api, Operation)> {
    var rules := BobRules(config.sourceIp);
    seq(|rules|, i requires 0 <= i < |rules| => (AzureApi, AddNsgRule(config, rules[i])))
  }

  /** Everything in a prefix of a sequence is in the sequence. */
  lemma PrefixMembers<T>(a: seq<T>, b: seq<T>)
    requires a <= b
    ensures forall x :: x in a ==> x in b
  {
    forall x | x in a
      ensures x in b
    {
      var i :| 0 <= i < |a| && a[i] == x;
      assert b[i] == x;
    }
  }

  /**
   * create_bob_nsg_rules: adds the table's rules to the VM's security
   * group in order, stopping at the first that fails.  `done` counts the
   * calls made; on success all fourteen were made and every rule is in
   * force, and on failure every rule before the failing one is.
   */
  method CreateBobNsgRules(l: Ledger, w: World, config: DeployConfigs) returns (r: Result<()>, ghost done: nat)
    modifies l, w`trace, w`nsgRules, w`firewalls
    ensures done <= |BobRules(config.sourceIp)|
    ensures l.calls == old(l.calls) + RuleCalls(config)[..done]
    ensures r.Ok? ==> done == |BobRules(config.sourceIp)| && l.calls == old(l.calls) + RuleCalls(config)
    ensures r.Err? ==> done >= 1
    ensures forall j :: 0 <= j < |BobRules(config.sourceIp)| && (r.Ok? || j + 1 < done) ==>
      RuleInstalled(AzureApi, w, config, BobRules(config.sourceIp)[j])
    ensures old(w.nsgRules) <= w.nsgRules
  {
    var rules := BobRules(config.sourceIp);
    ghost var calls0 := l.calls;
    ghost var steps := RuleCalls(config);
    done := 0;
    var i := 0;
    while i < |rules|
      invariant 0 <= i <= |rules| && done == i
      invariant l.calls == calls0 + steps[..i]
      invariant old(w.nsgRules) <= w.nsgRules
      invariant forall j :: 0 <= j < i ==> (config.vm.resourceGroup, config.vm.nsgName, rules[j]) in w.nsgRules
    {
      ghost var before := w.nsgRules;
      var added := AddNsgRuleOf(AzureApi, l, w, config, rules[i]);
      Deploy.StepTaken(calls0, steps, i, l.calls);
      done := i + 1;
      if added.Err? {
        return Err(added.error), done;
      }
      PrefixMembers(before, w.nsgRules);
      i := i + 1;
    }
    assert steps[..i] == steps;
    r := Ok(());
  }

  // ---------------------------------------------------------------------
  // deploy_bob_vm.

  /** The name of the VM's public address. */
  function IpName(config: DeployConfigs): string {
    config.vm.name + "-ip"
  }

  /** The name of the VM's persistent data disk. */
  function DataDiskName(config: DeployConfigs): string {
    config.vm.name + "-datadisk"
  }

  /** The LUN the searcher image expects its data disk at. */
  const DataDiskLun := 10

  /** Steps 1 to 3: prerequisites, the resource group, the address looked up and created when missing. */
  function AddressSteps(config: DeployConfigs, found: bool): seq<(Api, Operation)> {
    [(AzureApi, CheckDependencies),
     (AzureApi, EnsureCreatedResourceGroup(config.vm.resourceGroup, config.vm.Location())),
     (AzureApi, GetExistingPublicIp(IpName(config), config.vm.resourceGroup))]
    + (if found then [] else [(AzureApi, CreatePublicIp(IpName(config), config.vm.resourceGroup, config.vm.Location()))])
  }

  /** Steps 4 and 5: an existing OS disk is deleted, then the disk is created and the image uploaded. */
  function OsDiskSteps(config: DeployConfigs, imagePath: Path, replaced: bool): seq<(Api, Operation)> {
    [(AzureApi, DiskExists(config, imagePath))]
    + (if replaced
       then [(AzureApi, GetDiskName(config, imagePath)),
             (AzureApi, DeleteDisk(config.vm.resourceGroup, config.vm.name, Name(imagePath), config.vm.Location()))]
       else [])
    + [(AzureApi, CreateDisk(config, imagePath)), (AzureApi, UploadDisk(config, imagePath))]
  }

  /** Steps 6 and 7: the data disk, the security group and its rules. */
  function NetworkSteps(config: DeployConfigs, dataDiskSize: int): seq<(Api, Operation)> {
    [(AzureApi, CreateDataDisk(config.vm.resourceGroup, DataDiskName(config), config.vm.Location(), dataDiskSize)),
     (AzureApi, CreateNsg(config))]
    + RuleCalls(config)
  }

  /** Steps 8 and 9: the VM on the uploaded disk and the address, then the data disk attached. */
  function VmSteps(config: DeployConfigs, imagePath: Path): seq<(Api, Operation)> {
    [(AzureApi, GetDiskName(config, imagePath)),
     (AzureApi, CreateVmSimple(config.vm.name, config.vm.size, config.vm.resourceGroup, config.vm.Location(),
                               DiskName(AzureApi, config, imagePath), config.vm.nsgName, IpName(config))),
     (AzureApi, AttachDataDisk(config.vm.resourceGroup, config.vm.name, DataDiskName(config), config.vm.Location(), DataDiskLun))]
  }

  /** Steps 1 to 5. */
  function PrepareSteps(config: DeployConfigs, imagePath: Path, found: bool, replaced: bool): seq<(Api, Operation)> {
    AddressSteps(config, found) + OsDiskSteps(config, imagePath, replaced)
  }

  /** Steps 6 to 9. */
  function ProvisionSteps(config: DeployConfigs, imagePath: Path, dataDiskSize: int): seq<(Api, Operation)> {
    NetworkSteps(config, dataDiskSize) + VmSteps(config, imagePath)
  }

  /** The calls a successful deploy_bob_vm makes, given whether the address and the OS disk were already there. */
  function BobPlan(config: DeployConfigs, imagePath: Path, dataDiskSize: int, found: bool, replaced: bool): seq<(Api, Operation)> {
    PrepareSteps(config, imagePath, found, replaced) + ProvisionSteps(config, imagePath, dataDiskSize)
  }

  /** Steps 1 and 2: the dependency check, then the resource group, created after confirmation when missing. */
  method BobGroup(l: Ledger, w: World, config: DeployConfigs) returns (r: Result<()>)
    modifies l, w`trace, w`groups, w`stdin
    ensures r.Ok? ==> l.calls == old(l.calls) + AddressSteps(config, true)[..2]
    ensures r.Ok? ==> config.vm.resourceGroup in w.groups
  {
    ghost var calls0 := l.calls;
    r := CheckDependenciesOf(AzureApi, l, w);
    if r.Err? {
      return;
    }
    r := EnsureCreatedResourceGroupOf(AzureApi, l, w, config.vm.resourceGroup, config.vm.Location());
  }

  /** Steps 1 to 3. */
  method BobAddress(l: Ledger, w: World, config: DeployConfigs) returns (r: Result<string>, ghost found: bool)
    modifies l, w`trace, w`groups, w`stdin, w`azIps, w`addresses
    ensures r.Ok? ==> l.calls == old(l.calls) + AddressSteps(config, found)
    ensures r.Ok? ==> config.vm.resourceGroup in w.groups
    ensures r.Ok? ==> (found <==> Present(old(ExistingAddress(AzureApi, w, IpName(config), config.vm.resourceGroup))))
    ensures r.Ok? && found ==>
      r.value == old(ExistingAddress(AzureApi, w, IpName(config), config.vm.resourceGroup)).value && w.azIps == old(w.azIps)
    ensures r.Ok? && Retrievable(AzureApi, w, IpName(config), config.vm.resourceGroup, r.value) ==>
      ExistingAddress(AzureApi, w, IpName(config), config.vm.resourceGroup) == Some(r.value)
  {
    found := false;
    ghost var calls0 := l.calls;
    ghost var steps := AddressSteps(config, true);
    ghost var before := ExistingAddress(AzureApi, w, IpName(config), config.vm.resourceGroup);
    ghost var ips := w.azIps;
    var grouped := BobGroup(l, w, config);
    if grouped.Err? {
      return Err(grouped.error), found;
    }
    assert w.azIps == ips;
    var existing := GetExistingPublicIpOf(AzureApi, l, w, IpName(config), config.vm.resourceGroup);
    assert existing == before;
    assert l.calls == calls0 + steps;
    if existing.Some? && existing.value != "" {
      found := true;
      return Ok(existing.value), found;
    }
    assert !Present(before);
    r := CreatePublicIpOf(AzureApi, l, w, IpName(config), config.vm.resourceGroup, config.vm.Location());
    assert AddressSteps(config, false) == steps + [(AzureApi, CreatePublicIp(IpName(config), config.vm.resourceGroup, config.vm.Location()))];
  }

  /** Step 4's first half: an OS disk already there for the image is deleted. */
  method ClearOsDisk(l: Ledger, w: World, config: DeployConfigs, imagePath: Path) returns (r: Result<()>, ghost replaced: bool)
    modifies l, w`trace, w`azDisks, w`gcpDisks
    ensures r.Ok? ==> replaced == (old(DiskAnswer(AzureApi, w, config, imagePath)) == Ok(true))
    ensures r.Ok? ==> l.calls == old(l.calls) + OsDiskSteps(config, imagePath, replaced)[..|OsDiskSteps(config, imagePath, replaced)| - 2]
    ensures r.Ok? && replaced ==> !DiskPresent(AzureApi, w, config, imagePath)
  {
    replaced := false;
    var present := DiskExistsOf(AzureApi, l, w, config, imagePath);
    if present.Err? {
      return Err(present.error), replaced;
    }
    if present.value {
      replaced := true;
      var diskName := GetDiskNameOf(AzureApi, l, config, imagePath);
      r := DeleteDiskOf(AzureApi, l, w, config.vm.resourceGroup, config.vm.name, Name(imagePath), config.vm.Location());
      if r.Ok? {
        AzureApi.DiskNamesAgree(config, imagePath, Name(imagePath));
      }
    } else {
      r := Ok(());
    }
  }

  /** Steps 4 and 5: the OS disk is created afresh and the image uploaded onto it. */
  method BobOsDisk(l: Ledger, w: World, config: DeployConfigs, imagePath: Path) returns (r: Result<()>, ghost replaced: bool)
    modifies l, w`trace, w`azDisks, w`gcpDisks, w`buckets, w`files, w`blobs, w`images, w`granted, w`uploaded
    ensures r.Ok? ==> replaced == (old(DiskAnswer(AzureApi, w, config, imagePath)) == Ok(true))
    ensures r.Ok? ==> l.calls == old(l.calls) + OsDiskSteps(config, imagePath, replaced)
    ensures r.Ok? ==> w.uploaded == old(w.uploaded)[AzureApi.DiskKey(config, imagePath) := imagePath]
  {
    ghost var calls0 := l.calls;
    r, replaced := ClearOsDisk(l, w, config, imagePath);
    if r.Err? {
      return;
    }
    ghost var calls1 := l.calls;
    var created := CreateDiskOf(AzureApi, l, w, config, imagePath);
    if created.Err? {
      return Err(created.error), replaced;
    }
    r := UploadDiskOf(AzureApi, l, w, config, imagePath);
    if r.Ok? {
      ghost var steps := OsDiskSteps(config, imagePath, replaced);
      assert steps == steps[..|steps| - 2] + [(AzureApi, CreateDisk(config, imagePath)), (AzureApi, UploadDisk(config, imagePath))];
      AppendAssoc(calls0, steps[..|steps| - 2], [(AzureApi, CreateDisk(config, imagePath)), (AzureApi, UploadDisk(config, imagePath))]);
    }
  }

  /** Steps 6 and 7: the data disk exists, and so do the security group and every rule of the table. */
  method BobNetwork(l: Ledger, w: World, config: DeployConfigs, dataDiskSize: int) returns (r: Result<()>)
    modifies l, w`trace, w`azDisks, w`gcpDisks, w`nsgs, w`nsgRules, w`firewalls
    ensures r.Ok? ==> l.calls == old(l.calls) + NetworkSteps(config, dataDiskSize)
    ensures r.Ok? ==> DataDiskPresent(AzureApi, w, config.vm.resourceGroup, DataDiskName(config), config.vm.Location())
    ensures r.Ok? ==> (config.vm.resourceGroup, config.vm.nsgName) in w.nsgs
    ensures r.Ok? ==> forall rule :: rule in BobRules(config.sourceIp) ==> RuleInstalled(AzureApi, w, config, rule)
  {
    ghost var calls0 := l.calls;
    r := CreateDataDiskOf(AzureApi, l, w, config.vm.resourceGroup, DataDiskName(config), config.vm.Location(), dataDiskSize);
    if r.Err? {
      return;
    }
    r := CreateNsgOf(AzureApi, l, w, config);
    if r.Err? {
      return;
    }
    ghost var calls2 := l.calls;
    ghost var done;
    r, done := CreateBobNsgRules(l, w, config);
    if r.Ok? {
      AppendAssoc(calls0, [(AzureApi, CreateDataDisk(config.vm.resourceGroup, DataDiskName(config), config.vm.Location(), dataDiskSize)),
                                  (AzureApi, CreateNsg(config))], RuleCalls(config));
    }
  }

  /** Steps 8 and 9: the VM boots from the uploaded disk and carries the data disk at LUN 10. */
  method BobVm(l: Ledger, w: World, config: DeployConfigs, imagePath: Path) returns (r: Result<()>)
    modifies l, w`trace, w`azVms, w`instances
    ensures r.Ok? ==> l.calls == old(l.calls) + VmSteps(config, imagePath)
    ensures r.Ok? ==> VmBootsFrom(AzureApi, w, config.vm.resourceGroup, config.vm.name, config.vm.Location(), DiskName(AzureApi, config, imagePath))
    ensures r.Ok? ==>
      DataDiskAttached(AzureApi, w, config.vm.resourceGroup, config.vm.name, DataDiskName(config), config.vm.Location(), DataDiskLun)
  {
    var diskName := GetDiskNameOf(AzureApi, l, config, imagePath);
    r := CreateVmSimpleOf(AzureApi, l, w, config.vm.name, config.vm.size, config.vm.resourceGroup, config.vm.Location(),
                          diskName, config.vm.nsgName, IpName(config));
    if r.Err? {
      return;
    }
    r := AttachDataDiskOf(AzureApi, l, w, config.vm.resourceGroup, config.vm.name, DataDiskName(config), config.vm.Location(), DataDiskLun);
  }

  /**
   * How a successful deploy_bob_vm left the world: it made the calls of
   * its plan; the address it returns is the one stored under the VM's
   * address name when that was truthy, and otherwise a newly created one
   * that a later lookup finds; the OS disk was replaced exactly when it
   * already existed and holds a fresh upload of the image; the VM boots
   * from that disk under the name get_disk_name gives; the data disk
   * exists and is attached at LUN 10; every rule of the table is in force.
   */
  ghost predicate BobDeployed(config: DeployConfigs, imagePath: Path, w: World, existing: Option<string>, disk: Result<bool>,
                              uploaded: map<(string, string), Path>, ip: string, found: bool, replaced: bool)
    reads w`azIps, w`addresses, w`azDisks, w`gcpDisks, w`uploaded, w`nsgRules, w`firewalls, w`azVms, w`instances
  {
    && (found <==> Present(existing))
    && (found ==> ip == existing.value)
    && (Retrievable(AzureApi, w, IpName(config), config.vm.resourceGroup, ip) ==>
          ExistingAddress(AzureApi, w, IpName(config), config.vm.resourceGroup) == Some(ip))
    && (replaced <==> disk == Ok(true))
    && w.uploaded == uploaded[AzureApi.DiskKey(config, imagePath) := imagePath]
    && VmBootsFrom(AzureApi, w, config.vm.resourceGroup, config.vm.name, config.vm.Location(), DiskName(AzureApi, config, imagePath))
    && DataDiskPresent(AzureApi, w, config.vm.resourceGroup, DataDiskName(config), config.vm.Location())
    && DataDiskAttached(AzureApi, w, config.vm.resourceGroup, config.vm.name, DataDiskName(config), config.vm.Location(), DataDiskLun)
    && (forall rule :: rule in BobRules(config.sourceIp) ==> RuleInstalled(AzureApi, w, config, rule))
  }

  /** The address and the OS disk: steps 1 to 5. */
  method BobPrepare(l: Ledger, w: World, config: DeployConfigs, imagePath: Path)
    returns (r: Result<string>, ghost found: bool, ghost replaced: bool)
    modifies l, w`trace, w`groups, w`stdin, w`azIps, w`addresses, w`azDisks, w`gcpDisks, w`buckets, w`files, w`blobs, w`images, w`granted, w`uploaded
    ensures r.Ok? ==> l.calls == old(l.calls) + PrepareSteps(config, imagePath, found, replaced)
    ensures r.Ok? ==> (found <==> Present(old(ExistingAddress(AzureApi, w, IpName(config), config.vm.resourceGroup))))
    ensures r.Ok? && found ==> r.value == old(ExistingAddress(AzureApi, w, IpName(config), config.vm.resourceGroup)).value
    ensures r.Ok? && Retrievable(AzureApi, w, IpName(config), config.vm.resourceGroup, r.value) ==>
      ExistingAddress(AzureApi, w, IpName(config), config.vm.resourceGroup) == Some(r.value)
    ensures r.Ok? ==> replaced == (old(DiskAnswer(AzureApi, w, config, imagePath)) == Ok(true))
    ensures r.Ok? ==> w.uploaded == old(w.uploaded)[AzureApi.DiskKey(config, imagePath) := imagePath]
  {
    replaced := false;
    ghost var calls0 := l.calls;
    r, found := BobAddress(l, w, config);
    if r.Err? {
      return;
    }
    var disk;
    disk, replaced := BobOsDisk(l, w, config, imagePath);
    if disk.Err? {
      return Err(disk.error), found, replaced;
    }
    AppendAssoc(calls0, AddressSteps(config, found), OsDiskSteps(config, imagePath, replaced));
  }

  /**
   * deploy_bob_vm, on the Azure binding whatever the configured cloud:
   * steps 1 to 9 in order, stopping at the first that raises, and on
   * success the address of step 3.
   */
  method DeployBobVm(l: Ledger, w: World, d: DeploymentConfig.DeploymentConfig, imagePath: Path, dataDiskSize: int)
    returns (r: Result<string>, ghost found: bool, ghost replaced: bool)
    modifies l, w`trace, w`groups, w`stdin, w`azIps, w`addresses, w`azDisks, w`gcpDisks, w`buckets, w`files, w`blobs, w`images, w`granted,
             w`uploaded, w`nsgs, w`nsgRules, w`firewalls, w`azVms, w`instances
    ensures r.Ok? ==>
      var config := DeploymentConfig.ToConfigs(d).deploy.value;
      && l.calls == old(l.calls) + BobPlan(config, imagePath, dataDiskSize, found, replaced)
      && BobDeployed(config, imagePath, w,
                     old(ExistingAddress(AzureApi, w, IpName(config), config.vm.resourceGroup)),
                     old(DiskAnswer(AzureApi, w, config, imagePath)), old(w.uploaded), r.value, found, replaced)
  {
    r, found, replaced := RunBob(l, w, DeploymentConfig.ToConfigs(d).deploy.value, imagePath, dataDiskSize);
  }

  /** Steps 6 to 9: the data disk, the security group and rules, the VM and the attached data disk. */
  method BobFinish(l: Ledger, w: World, config: DeployConfigs, imagePath: Path, dataDiskSize: int) returns (r: Result<()>)
    modifies l, w`trace, w`azDisks, w`gcpDisks, w`nsgs, w`nsgRules, w`firewalls, w`azVms, w`instances
    ensures r.Ok? ==> l.calls == old(l.calls) + ProvisionSteps(config, imagePath, dataDiskSize)
    ensures r.Ok? ==> VmBootsFrom(AzureApi, w, config.vm.resourceGroup, config.vm.name, config.vm.Location(), DiskName(AzureApi, config, imagePath))
    ensures r.Ok? ==> DataDiskPresent(AzureApi, w, config.vm.resourceGroup, DataDiskName(config), config.vm.Location())
    ensures r.Ok? ==>
      DataDiskAttached(AzureApi, w, config.vm.resourceGroup, config.vm.name, DataDiskName(config), config.vm.Location(), DataDiskLun)
    ensures r.Ok? ==> forall rule :: rule in BobRules(config.sourceIp) ==> RuleInstalled(AzureApi, w, config, rule)
  {
    ghost var calls0 := l.calls;
    r := BobNetwork(l, w, config, dataDiskSize);
    if r.Err? {
      return;
    }
    r := BobVm(l, w, config, imagePath);
    if r.Ok? {
      AppendAssoc(calls0, NetworkSteps(config, dataDiskSize), VmSteps(config, imagePath));
    }
  }

  /** deploy_bob_vm on the deployment section of the configuration. */
  method RunBob(l: Ledger, w: World, config: DeployConfigs, imagePath: Path, dataDiskSize: int)
    returns (r: Result<string>, ghost found: bool, ghost replaced: bool)
    modifies l, w`trace, w`groups, w`stdin, w`azIps, w`addresses, w`azDisks, w`gcpDisks, w`buckets, w`files, w`blobs, w`images, w`granted,
             w`uploaded, w`nsgs, w`nsgRules, w`firewalls, w`azVms, w`instances
    ensures r.Ok? ==> l.calls == old(l.calls) + BobPlan(config, imagePath, dataDiskSize, found, replaced)
    ensures r.Ok? ==>
      BobDeployed(config, imagePath, w,
                  old(ExistingAddress(AzureApi, w, IpName(config), config.vm.resourceGroup)),
                  old(DiskAnswer(AzureApi, w, config, imagePath)), old(w.uploaded), r.value, found, replaced)
  {
    ghost var calls0 := l.calls;
    r, found, replaced := BobPrepare(l, w, config, imagePath);
    if r.Err? {
      return;
    }
    ghost var calls1 := l.calls;
    ghost var ips, addresses, uploaded := w.azIps, w.addresses, w.uploaded;
    var finished := BobFinish(l, w, config, imagePath, dataDiskSize);
    if finished.Err? {
      return Err(finished.error), found, replaced;
    }
    assert w.azIps == ips && w.addresses == addresses && w.uploaded == uploaded;
    AppendAssoc(calls0, PrepareSteps(config, imagePath, found, replaced), ProvisionSteps(config, imagePath, dataDiskSize));
  }

  // ---------------------------------------------------------------------
  // What the plan says.

  /**
   * The data disk is created before the VM, the VM is created on the
   * uploaded disk and the address of step 3, and attaching the data disk
   * at LUN 10 is the last call.
   */
  lemma BobPlanOrder(config: DeployConfigs, imagePath: Path, dataDiskSize: int, found: bool, replaced: bool)
    ensures var plan := BobPlan(config, imagePath, dataDiskSize, found, replaced);
      var k := |AddressSteps(config, found)| + |OsDiskSteps(config, imagePath, replaced)|;
      && k + 2 + |BobRules(config.sourceIp)| + 3 == |plan|
      && plan[k] == (AzureApi, CreateDataDisk(config.vm.resourceGroup, DataDiskName(config), config.vm.Location(), dataDiskSize))
      && plan[k + 2..k + 2 + |BobRules(config.sourceIp)|] == RuleCalls(config)
      && plan[|plan| - 2] == (AzureApi, CreateVmSimple(config.vm.name, config.vm.size, config.vm.resourceGroup, config.vm.Location(),
                                                       DiskName(AzureApi, config, imagePath), config.vm.nsgName, IpName(config)))
      && plan[|plan| - 1] == (AzureApi, AttachDataDisk(config.vm.resourceGroup, config.vm.name, DataDiskName(config), config.vm.Location(), DataDiskLun))
  {
    var a, o, n, v := AddressSteps(config, found), OsDiskSteps(config, imagePath, replaced), NetworkSteps(config, dataDiskSize), VmSteps(config, imagePath);
    var plan := BobPlan(config, imagePath, dataDiskSize, found, replaced);
    var k := |a| + |o|;
    assert plan == (a + o) + (n + v);
    assert plan == (a + o) + n + v;
    assert plan[k] == n[0];
    assert plan[k + 2..k + 2 + |BobRules(config.sourceIp)|] == n[2..];
  }

  /** A new address is created exactly when none was found, and an OS disk deleted exactly when one was there. */
  lemma BobPlanBranches(config: DeployConfigs, imagePath: Path, dataDiskSize: int, found: bool, replaced: bool)
    ensures ((AzureApi, CreatePublicIp(IpName(config), config.vm.resourceGroup, config.vm.Location()))
               in BobPlan(config, imagePath, dataDiskSize, found, replaced)) <==> !found
    ensures ((AzureApi, DeleteDisk(config.vm.resourceGroup, config.vm.name, Name(imagePath), config.vm.Location()))
               in BobPlan(config, imagePath, dataDiskSize, found, replaced)) <==> replaced
    ensures (AzureApi, CreateDisk(config, imagePath)) in BobPlan(config, imagePath, dataDiskSize, found, replaced)
  {
    var a, o, n, v := AddressSteps(config, found), OsDiskSteps(config, imagePath, replaced), NetworkSteps(config, dataDiskSize), VmSteps(config, imagePath);
    assert BobPlan(config, imagePath, dataDiskSize, found, replaced) == (a + o) + (n + v);
    assert BobPlan(config, imagePath, dataDiskSize, found, replaced) == a + o + n + v;
    assert forall x :: x in n ==> x.1.CreateDataDisk? || x.1.CreateNsg? || x.1.AddNsgRule?;
  }
}
