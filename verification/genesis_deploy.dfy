/**
 * Genesis deployment: every genesis node keeps a persistent public address
 * named after its number, registered in DNS next to the other nodes'
 * addresses, and the node's VM is deployed on that address.  The addresses
 * live in their own resource group, managed by `GenesisIpManager`.
 */
module GenesisDeploy {
  import opened Wrappers
  import opened Json
  import opened Paths
  import opened Env
  import opened CloudApi
  import opened Binding
  import opened Text
  import Args
  import CloudParser
  import AzureApi
  import DeploymentConfig
  import Deploy

  /** The name of a genesis node's persistent address. */
  function NodeIpName(node: int): string {
    "genesis-node-" + IntToString(node)
  }

  /** Different nodes never share an address name. */
  lemma NodeIpNamesDistinct(n1: int, n2: int)
    ensures NodeIpName(n1) == NodeIpName(n2) <==> n1 == n2
  {
    if NodeIpName(n1) == NodeIpName(n2) {
      var prefix := "genesis-node-";
      assert IntToString(n1) == NodeIpName(n1)[|prefix|..];
      assert IntToString(n2) == NodeIpName(n2)[|prefix|..];
      IntToStringInjective(n1, n2);
    }
  }

  /**
   * The interface calls get_or_create_node_ip makes: the address group,
   * the lookup once the group is there, the creation when the lookup
   * found nothing and the creation was confirmed.
   */
  function NodeIpSteps(api: Api, ipRg: string, node: int, region: string, looked: bool, created: bool): seq<(Api, Operation)> {
    [(api, EnsureCreatedResourceGroup(ipRg, region))]
    + (if looked then [(api, GetExistingPublicIp(NodeIpName(node), ipRg))] else [])
    + (if created then [(api, CreatePublicIp(NodeIpName(node), ipRg, region))] else [])
  }

  /** The persistent addresses of the genesis nodes, kept in one resource group. */
  class GenesisIpManager {
    const api: Api
    const ipRg: string

    constructor (api: Api, ipRg: string)
      ensures this.api == api && this.ipRg == ipRg
    {
      this.api := api;
      this.ipRg := ipRg;
    }

    /** ensure_genesis_resource_group: the address group, in the node's region. */
    method EnsureGenesisResourceGroup(l: Ledger, w: World, region: string) returns (r: Result<()>)
      modifies l, w`trace, w`groups, w`stdin
      ensures l.calls == old(l.calls) + [(api, EnsureCreatedResourceGroup(ipRg, region))]
      ensures api.AzureApi? && r.Ok? ==> ipRg in w.groups
      ensures r.Ok? <==> GroupEnsured(api, old(w.groups), w.broken, old(w.stdin), ipRg, region)
      ensures old(w.groups) <= w.groups
      ensures w.azIps == old(w.azIps) && w.addresses == old(w.addresses)
    {
      r := EnsureCreatedResourceGroupOf(api, l, w, ipRg, region);
    }

    /**
     * get_or_create_node_ip: after ensuring the address group, an address
     * already stored under the node's name is returned as it is, with no
     * question asked and nothing created; otherwise the creation is
     * confirmed on standard input (a refusal raises) and the new address
     * is returned, with the name, in a form a later lookup finds.
     * `looked` says whether the lookup was reached, which is exactly when
     * the group was ensured; `asked` is standard input as the confirmation
     * would read it.
     */
    method GetOrCreateNodeIp(l: Ledger, w: World, node: int, region: string)
      returns (r: Result<(string, string)>, ghost looked: bool, ghost created: bool, ghost asked: seq<string>)
      modifies l, w`trace, w`groups, w`stdin, w`azIps, w`addresses
      ensures l.calls == old(l.calls) + NodeIpSteps(api, ipRg, node, region, looked, created)
      ensures looked <==> GroupEnsured(api, old(w.groups), w.broken, old(w.stdin), ipRg, region)
      ensures !looked ==> r.Err? && !created
      ensures looked && Present(old(ExistingAddress(api, w, NodeIpName(node), ipRg))) ==>
        && r == Ok((old(ExistingAddress(api, w, NodeIpName(node), ipRg)).value, NodeIpName(node)))
        && !created && w.stdin == asked
        && w.azIps == old(w.azIps) && w.addresses == old(w.addresses)
      ensures looked && !Present(old(ExistingAddress(api, w, NodeIpName(node), ipRg))) ==>
        && (created <==> CloudParser.ConfirmOutcome(asked).Ok?)
        && (!created ==> r == Err(CloudParser.ConfirmOutcome(asked).error))
      ensures r.Ok? ==> r.value.1 == NodeIpName(node)
      ensures r.Ok? && Retrievable(api, w, NodeIpName(node), ipRg, r.value.0) ==>
        ExistingAddress(api, w, NodeIpName(node), ipRg) == Some(r.value.0)
    {
      var name := NodeIpName(node);
      looked, created := false, false;
      ghost var calls0 := l.calls;
      ghost var before := ExistingAddress(api, w, name, ipRg);
      var ensured := EnsureGenesisResourceGroup(l, w, region);
      asked := w.stdin;
      if ensured.Err? {
        assert NodeIpSteps(api, ipRg, node, region, looked, created) == [(api, EnsureCreatedResourceGroup(ipRg, region))];
        return Err(ensured.error), looked, created, asked;
      }
      assert ExistingAddress(api, w, name, ipRg) == before;
      looked := true;
      ghost var calls1 := l.calls;
      r, created := FindOrCreate(l, w, node, region);
      AppendAssoc(calls0, [(api, EnsureCreatedResourceGroup(ipRg, region))], l.calls[|calls1|..]);
    }

    /** get_or_create_node_ip once the group is there: the stored address, or a confirmed new one. */
    method FindOrCreate(l: Ledger, w: World, node: int, region: string) returns (r: Result<(string, string)>, ghost created: bool)
      modifies l, w`trace, w`stdin, w`azIps, w`addresses
      ensures l.calls == old(l.calls) + [(api, GetExistingPublicIp(NodeIpName(node), ipRg))]
                         + (if created then [(api, CreatePublicIp(NodeIpName(node), ipRg, region))] else [])
      ensures Present(old(ExistingAddress(api, w, NodeIpName(node), ipRg))) ==>
        && r == Ok((old(ExistingAddress(api, w, NodeIpName(node), ipRg)).value, NodeIpName(node)))
        && !created && w.stdin == old(w.stdin)
        && w.azIps == old(w.azIps) && w.addresses == old(w.addresses)
      ensures !Present(old(ExistingAddress(api, w, NodeIpName(node), ipRg))) ==>
        && (created <==> CloudParser.ConfirmOutcome(old(w.stdin)).Ok?)
        && (!created ==> r == Err(CloudParser.ConfirmOutcome(old(w.stdin)).error))
      ensures r.Ok? ==> r.value.1 == NodeIpName(node)
      ensures r.Ok? && Retrievable(api, w, NodeIpName(node), ipRg, r.value.0) ==>
        ExistingAddress(api, w, NodeIpName(node), ipRg) == Some(r.value.0)
    {
      var name := NodeIpName(node);
      created := false;
      ghost var before := ExistingAddress(api, w, name, ipRg);
      var existing := GetExistingPublicIpOf(api, l, w, name, ipRg);
      if existing.Some? && existing.value != "" {
        assert Present(before);
        return Ok((existing.value, name)), created;
      }
      assert !Present(before);
      var ip;
      ip, created := ConfirmAndCreate(l, w, node, region);
      if ip.Err? {
        return Err(ip.error), created;
      }
      r := Ok((ip.value, name));
    }

    /** The creation branch of get_or_create_node_ip: confirm, then create the address. */
    method ConfirmAndCreate(l: Ledger, w: World, node: int, region: string) returns (r: Result<string>, ghost created: bool)
      modifies l, w`trace, w`stdin, w`azIps, w`addresses
      ensures created <==> CloudParser.ConfirmOutcome(old(w.stdin)).Ok?
      ensures !created ==> r == Err(CloudParser.ConfirmOutcome(old(w.stdin)).error) && l.calls == old(l.calls)
      ensures created ==> l.calls == old(l.calls) + [(api, CreatePublicIp(NodeIpName(node), ipRg, region))]
      ensures r.Ok? && Retrievable(api, w, NodeIpName(node), ipRg, r.value) ==>
        ExistingAddress(api, w, NodeIpName(node), ipRg) == Some(r.value)
    {
      var name := NodeIpName(node);
      created := false;
      var confirmed := CloudParser.Confirm(w, CreateNodeIp(node, name));
      if confirmed.Err? {
        return Err(confirmed.error), created;
      }
      r := CreatePublicIpOf(api, l, w, name, ipRg, region);
      created := true;
    }

    /**
     * Asking twice for the same node: once the first call has produced an
     * address a lookup can read back, a second call that gets as far as the
     * lookup returns the same address and name and creates nothing.
     */
    method GetOrCreateTwice(l: Ledger, w: World, node: int, region: string)
      returns (first: Result<(string, string)>, second: Result<(string, string)>, ghost createdAgain: bool)
      modifies l, w`trace, w`groups, w`stdin, w`azIps, w`addresses
      ensures first.Ok? && Retrievable(api, w, NodeIpName(node), ipRg, first.value.0) && second.Ok? ==>
        second == first && !createdAgain
    {
      ghost var looked, created, asked;
      first, looked, created, asked := GetOrCreateNodeIp(l, w, node, region);
      second, looked, createdAgain, asked := GetOrCreateNodeIp(l, w, node, region);
    }
  }

  /** The deployment section of a genesis node's configuration. */
  function NodeDeployConfigs(d: DeploymentConfig.DeploymentConfig): DeployConfigs {
    DeploymentConfig.ToConfigs(d).deploy.value
  }

  /**
   * The interface calls that give a node its address: the dependency
   * check, the VM's resource group, then get_or_create_node_ip's group,
   * lookup and, when the address was missing, creation.
   */
  function AllocationSteps(api: Api, cfg: DeployConfigs, ipRg: string, node: int, created: bool): seq<(Api, Operation)> {
    [(api, CheckDependencies), (api, EnsureCreatedResourceGroup(cfg.vm.resourceGroup, cfg.vm.Location()))]
    + NodeIpSteps(api, ipRg, node, cfg.vm.Location(), true, created)
  }

  /** The dependency check, then the VM's own resource group. */
  method PrepareGroups(l: Ledger, w: World, cfg: DeployConfigs) returns (r: Result<()>)
    modifies l, w`trace, w`groups, w`stdin
    ensures old(l.calls) <= l.calls
    ensures r.Ok? ==>
      var api := Deploy.BindingFor(cfg.vm.cloud);
      l.calls == old(l.calls) + [(api, CheckDependencies), (api, EnsureCreatedResourceGroup(cfg.vm.resourceGroup, cfg.vm.Location()))]
    ensures Deploy.BindingFor(cfg.vm.cloud).AzureApi? && r.Ok? ==> cfg.vm.resourceGroup in w.groups
  {
    var api := Deploy.BindingFor(cfg.vm.cloud);
    ghost var calls0 := l.calls;
    r := CheckDependenciesOf(api, l, w);
    if r.Err? {
      return;
    }
    r := EnsureCreatedResourceGroupOf(api, l, w, cfg.vm.resourceGroup, cfg.vm.Location());
  }

  /**
   * The first half of deploy_genesis_vm: dependencies, the VM's group, the
   * node's address, and its DNS record, which always goes through the Azure
   * binding and keeps the addresses already registered.
   */
  method AllocateNode(l: Ledger, w: World, cfg: DeployConfigs, ipRg: string, node: int)
    returns (r: Result<(string, string)>, ghost created: bool)
    modifies l, w`trace, w`groups, w`stdin, w`azIps, w`addresses, w`dns
    ensures old(l.calls) <= l.calls
    ensures r.Ok? ==>
      && r.value.1 == NodeIpName(node)
      && l.calls == old(l.calls) + NodeAllocation(cfg, ipRg, node, created, r.value.0)
      && AzureApi.Records(w.dns, AzureApi.DnsKey(cfg.domain)) == AzureApi.Records(old(w.dns), AzureApi.DnsKey(cfg.domain)) + [r.value.0]
  {
    var api := Deploy.BindingFor(cfg.vm.cloud);
    created := false;
    ghost var calls0 := l.calls;
    var prepared := PrepareGroups(l, w, cfg);
    if prepared.Err? {
      return Err(prepared.error), created;
    }
    ghost var calls1 := l.calls;
    r, created := RegisterNode(l, w, cfg, ipRg, node);
    if r.Ok? {
      ghost var groups := AllocationSteps(api, cfg, ipRg, node, created)[..2];
      ghost var dns := [(AzureApi, UpdateDnsRecord(cfg, r.value.0, false))];
      ghost var steps := NodeIpSteps(api, ipRg, node, cfg.vm.Location(), true, created);
      assert calls1 == calls0 + groups;
      AppendAssoc(calls0 + groups, steps, dns);
      AppendAssoc(calls0, groups, steps);
    }
  }

  /** The node's address from the manager, then its DNS record through the Azure binding. */
  method RegisterNode(l: Ledger, w: World, cfg: DeployConfigs, ipRg: string, node: int)
    returns (r: Result<(string, string)>, ghost created: bool)
    modifies l, w`trace, w`groups, w`stdin, w`azIps, w`addresses, w`dns
    ensures old(l.calls) <= l.calls
    ensures r.Ok? ==>
      && r.value.1 == NodeIpName(node)
      && l.calls == old(l.calls) + NodeIpSteps(Deploy.BindingFor(cfg.vm.cloud), ipRg, node, cfg.vm.Location(), true, created)
                    + [(AzureApi, UpdateDnsRecord(cfg, r.value.0, false))]
      && AzureApi.Records(w.dns, AzureApi.DnsKey(cfg.domain)) == AzureApi.Records(old(w.dns), AzureApi.DnsKey(cfg.domain)) + [r.value.0]
  {
    var manager := new GenesisIpManager(Deploy.BindingFor(cfg.vm.cloud), ipRg);
    ghost var looked, asked;
    var ip;
    ip, looked, created, asked := manager.GetOrCreateNodeIp(l, w, node, cfg.vm.Location());
    if ip.Err? {
      return Err(ip.error), created;
    }
    assert w.dns == old(w.dns);
    var dns := UpdateDnsRecordOf(AzureApi, l, w, cfg, ip.value.0, false);
    if dns.Err? {
      return Err(dns.error), created;
    }
    r := Ok(ip.value);
  }

  /** The calls that give a node its address and DNS record. */
  function NodeAllocation(cfg: DeployConfigs, ipRg: string, node: int, created: bool, ip: string): seq<(Api, Operation)> {
    AllocationSteps(Deploy.BindingFor(cfg.vm.cloud), cfg, ipRg, node, created)
    + [(AzureApi, UpdateDnsRecord(cfg, ip, false))]
  }

  /**
   * deploy_genesis_vm.  Without an artifact and without `ipOnly` it raises
   * ValueError before any call.  Otherwise the node gets its address and
   * DNS record, added next to the addresses already registered; with
   * `ipOnly` it stops there, leaving the metadata alone; otherwise it
   * deploys the image `built` names on that address and records the
   * deployment, so the metadata changes only after the whole deployment
   * plan ran.
   */
  method DeployGenesisVm(l: Ledger, w: World, d: DeploymentConfig.DeploymentConfig, built: Result<(Path, Json)>)
    returns (r: Result<()>, ghost created: bool, ghost ip: string, ghost reuse: bool)
    requires w.Valid()
    modifies l, w`trace, w`groups, w`stdin, w`azIps, w`addresses, w`dns, w`temps, w`nextTemp, w`azDisks, w`buckets, w`files, w`blobs,
             w`images, w`gcpDisks, w`granted, w`uploaded, w`nsgs, w`nsgRules, w`firewalls, w`azVms, w`instances, w`docs
    ensures old(l.calls) <= l.calls
    ensures w.Valid()
    ensures d.artifact == "" && !d.ipOnly ==> r == Err(ValueError) && l.calls == old(l.calls) && w.trace == old(w.trace)
    ensures GenesisNodeRan(NodeDeployConfigs(d), d.resourceGroup, d.node, d.ipOnly, built, old(l.calls), l.calls,
                           old(w.dns), w.dns, old(w.docs), w.docs, r.Ok?, created, ip, reuse)
    ensures var cfg := NodeDeployConfigs(d);
      r.Ok? && !d.ipOnly ==>
      built.Ok? && Recorded(old(w.docs), w.docs, cfg, built.value.0,
                            VmIpAnswer(Deploy.BindingFor(cfg.vm.cloud), w, cfg.vm.name, cfg.vm.resourceGroup, cfg.vm.Location()), d.home)
  {
    created, ip, reuse := false, "", false;
    if d.artifact == "" && !d.ipOnly {
      return Err(ValueError), created, ip, reuse;
    }
    r, created, ip, reuse := DeployGenesisNode(l, w, NodeDeployConfigs(d), d.resourceGroup, d.node, d.ipOnly, d.home, d.showLogs, built);
  }

  /**
   * How the node's deployment went: on success its address and DNS record
   * were set up, next to the addresses already registered; with `ipOnly`
   * nothing else happened, in particular to the metadata; otherwise the
   * whole deployment plan ran on that address, and only then can the
   * metadata have changed.
   */
  ghost predicate GenesisNodeRan(cfg: DeployConfigs, ipRg: string, node: int, ipOnly: bool, built: Result<(Path, Json)>,
                                 calls0: seq<(Api, Operation)>, calls1: seq<(Api, Operation)>,
                                 dns0: map<(string, string, string), seq<string>>, dns1: map<(string, string, string), seq<string>>,
                                 docs0: map<Path, Json>, docs1: map<Path, Json>,
                                 ok: bool, created: bool, ip: string, reuse: bool)
  {
    && (ok ==> AzureApi.Records(dns1, AzureApi.DnsKey(cfg.domain)) == AzureApi.Records(dns0, AzureApi.DnsKey(cfg.domain)) + [ip])
    && (ok && ipOnly ==> calls1 == calls0 + NodeAllocation(cfg, ipRg, node, created, ip) && docs1 == docs0)
    && ((ok && !ipOnly) || docs1 != docs0 ==>
          && !ipOnly && built.Ok?
          && calls1 == calls0 + NodeAllocation(cfg, ipRg, node, created, ip)
                       + Deploy.DeployPlan(Deploy.BindingFor(cfg.vm.cloud), cfg, built.value.0, NodeIpName(node), reuse))
  }

  /**
   * A genesis deployment that changed the metadata ended on the VM's
   * address lookup, after the VM was created on the node's own address.
   */
  lemma MetadataFollowsLookup(cfg: DeployConfigs, ipRg: string, node: int, ipOnly: bool, built: Result<(Path, Json)>,
                              calls0: seq<(Api, Operation)>, calls1: seq<(Api, Operation)>,
                              dns0: map<(string, string, string), seq<string>>, dns1: map<(string, string, string), seq<string>>,
                              docs0: map<Path, Json>, docs1: map<Path, Json>,
                              ok: bool, created: bool, ip: string, reuse: bool)
    requires GenesisNodeRan(cfg, ipRg, node, ipOnly, built, calls0, calls1, dns0, dns1, docs0, docs1, ok, created, ip, reuse)
    requires docs1 != docs0
    ensures |calls1| >= 7
    ensures calls1[|calls1| - 1] == (Deploy.BindingFor(cfg.vm.cloud), GetVmIp(cfg.vm.name, cfg.vm.resourceGroup, cfg.vm.Location()))
    ensures calls1[|calls1| - 2] == (Deploy.BindingFor(cfg.vm.cloud), CreateVm(cfg, built.value.0, NodeIpName(node), DiskName(Deploy.BindingFor(cfg.vm.cloud), cfg, built.value.0)))
  {
    var api := Deploy.BindingFor(cfg.vm.cloud);
    var plan := Deploy.DeployPlan(api, cfg, built.value.0, NodeIpName(node), reuse);
    Deploy.PlanCut(api, cfg, built.value.0, NodeIpName(node), reuse, 2);
    assert plan[2..] == Deploy.FinishSteps(api, cfg, built.value.0, NodeIpName(node), DiskName(api, cfg, built.value.0));
    assert plan[6] == plan[2..][4] && plan[5] == plan[2..][3];
  }

  /** deploy_genesis_vm once the artifact check passed. */
  method DeployGenesisNode(l: Ledger, w: World, cfg: DeployConfigs, ipRg: string, node: int, ipOnly: bool,
                           home: string, showLogs: bool, built: Result<(Path, Json)>)
    returns (r: Result<()>, ghost created: bool, ghost ip: string, ghost reuse: bool)
    requires w.Valid()
    modifies l, w`trace, w`groups, w`stdin, w`azIps, w`addresses, w`dns, w`temps, w`nextTemp, w`azDisks, w`buckets, w`files, w`blobs,
             w`images, w`gcpDisks, w`granted, w`uploaded, w`nsgs, w`nsgRules, w`firewalls, w`azVms, w`instances, w`docs
    ensures old(l.calls) <= l.calls
    ensures w.Valid()
    ensures GenesisNodeRan(cfg, ipRg, node, ipOnly, built, old(l.calls), l.calls, old(w.dns), w.dns, old(w.docs), w.docs,
                           r.Ok?, created, ip, reuse)
    ensures r.Ok? && !ipOnly ==>
      built.Ok? && Recorded(old(w.docs), w.docs, cfg, built.value.0,
                            VmIpAnswer(Deploy.BindingFor(cfg.vm.cloud), w, cfg.vm.name, cfg.vm.resourceGroup, cfg.vm.Location()), home)
  {
    reuse := false;
    ghost var calls0, dns0, docs0 := l.calls, w.dns, w.docs;
    var allocation;
    allocation, created := AllocateNode(l, w, cfg, ipRg, node);
    if allocation.Err? {
      assert w.docs == docs0;
      return Err(allocation.error), created, "", reuse;
    }
    ip := allocation.value.0;
    ghost var calls1, dns1 := l.calls, w.dns;
    if ipOnly {
      r := Ok(());
    } else {
      r, reuse := DeployNode(l, w, cfg, home, showLogs, built, allocation.value.1);
      assert w.dns == dns1;
    }
    NodeRanFrom(cfg, ipRg, node, ipOnly, built, calls0, calls1, l.calls, dns0, dns1, docs0, w.docs, r.Ok?, created, ip, reuse);
  }

  /** The allocation, then (unless only the address was wanted) the node's deployment, make up GenesisNodeRan. */
  lemma NodeRanFrom(cfg: DeployConfigs, ipRg: string, node: int, ipOnly: bool, built: Result<(Path, Json)>,
                    calls0: seq<(Api, Operation)>, calls1: seq<(Api, Operation)>, calls2: seq<(Api, Operation)>,
                    dns0: map<(string, string, string), seq<string>>, dns1: map<(string, string, string), seq<string>>,
                    docs0: map<Path, Json>, docs2: map<Path, Json>, ok: bool, created: bool, ip: string, reuse: bool)
    requires calls1 == calls0 + NodeAllocation(cfg, ipRg, node, created, ip)
    requires AzureApi.Records(dns1, AzureApi.DnsKey(cfg.domain)) == AzureApi.Records(dns0, AzureApi.DnsKey(cfg.domain)) + [ip]
    requires ipOnly ==> ok && calls2 == calls1 && docs2 == docs0
    requires !ipOnly && (ok || docs2 != docs0) ==>
      built.Ok? && calls2 == calls1 + Deploy.DeployPlan(Deploy.BindingFor(cfg.vm.cloud), cfg, built.value.0, NodeIpName(node), reuse)
    ensures GenesisNodeRan(cfg, ipRg, node, ipOnly, built, calls0, calls2, dns0, dns1, docs0, docs2, ok, created, ip, reuse)
  {
  }

  /**
   * The Deployer for the node's address, and its deployment: on success
   * the whole plan ran and the output names the image's artifact.
   */
  method RunDeployer(l: Ledger, w: World, cfg: DeployConfigs, imagePath: Path, measurements: Json, ipName: string,
                     home: string, showLogs: bool)
    returns (r: Result<Deploy.DeployOutput>, ghost reuse: bool)
    requires w.Valid()
    modifies l, w`trace, w`temps, w`nextTemp, w`azDisks, w`buckets, w`files, w`blobs, w`images, w`gcpDisks, w`granted, w`uploaded,
             w`nsgs, w`nsgRules, w`firewalls, w`azVms, w`instances
    ensures old(l.calls) <= l.calls
    ensures w.Valid()
    ensures r.Ok? ==>
      && l.calls == old(l.calls) + Deploy.DeployPlan(Deploy.BindingFor(cfg.vm.cloud), cfg, imagePath, ipName, reuse)
      && VmIpAnswer(Deploy.BindingFor(cfg.vm.cloud), w, cfg.vm.name, cfg.vm.resourceGroup, cfg.vm.Location()).Ok?
      && r.value == Deploy.DeployOutput(cfg, Name(imagePath),
                                        VmIpAnswer(Deploy.BindingFor(cfg.vm.cloud), w, cfg.vm.name, cfg.vm.resourceGroup, cfg.vm.Location()).value,
                                        home)
  {
    var api := Deploy.BindingFor(cfg.vm.cloud);
    reuse := DiskAnswer(api, w, cfg, imagePath) == Ok(true);
    ghost var calls0 := l.calls;
    var deployer := new Deploy.Deployer(w, cfg, imagePath, measurements, ipName, home, showLogs);
    assert (DiskAnswer(api, w, cfg, imagePath) == Ok(true)) == reuse;
    ghost var ip, done;
    r, ip, done := deployer.Deploy(l, w);
    if r.Ok? {
      Deploy.PlanCut(api, cfg, imagePath, ipName, reuse, 7);
      assert Deploy.DeployPlan(api, cfg, imagePath, ipName, reuse)[..7] == Deploy.DeployPlan(api, cfg, imagePath, ipName, reuse);
    }
  }

  /**
   * The metadata after a genesis node was deployed from `imagePath`: the
   * stored document with the node's deployment record (named after the
   * image file, with the address get_vm_ip answered) filed under its cloud
   * and VM name.
   */
  ghost predicate Recorded(docs0: map<Path, Json>, docs1: map<Path, Json>, cfg: DeployConfigs, imagePath: Path,
                           publicIp: Result<Json>, home: string)
  {
    && publicIp.Ok?
    && Deploy.Filed(docs0, docs1, Deploy.DeployOutput(cfg, Name(imagePath), publicIp.value, home))
  }

  /** update_deploy_metadata for the output of a genesis node's deployment. */
  method RecordNode(w: World, cfg: DeployConfigs, imagePath: Path, home: string, out: Deploy.DeployOutput) returns (r: Result<()>)
    requires VmIpAnswer(Deploy.BindingFor(cfg.vm.cloud), w, cfg.vm.name, cfg.vm.resourceGroup, cfg.vm.Location()).Ok?
    requires out == Deploy.DeployOutput(cfg, Name(imagePath),
                                        VmIpAnswer(Deploy.BindingFor(cfg.vm.cloud), w, cfg.vm.name, cfg.vm.resourceGroup, cfg.vm.Location()).value,
                                        home)
    modifies w`docs, w`trace
    ensures r.Ok? ==>
      Recorded(old(w.docs), w.docs, cfg, imagePath,
               VmIpAnswer(Deploy.BindingFor(cfg.vm.cloud), w, cfg.vm.name, cfg.vm.resourceGroup, cfg.vm.Location()), home)
    ensures r.Err? ==> w.docs == old(w.docs)
  {
    ghost var ip := VmIpAnswer(Deploy.BindingFor(cfg.vm.cloud), w, cfg.vm.name, cfg.vm.resourceGroup, cfg.vm.Location());
    r := Deploy.FileRecord(w, out);
    assert VmIpAnswer(Deploy.BindingFor(cfg.vm.cloud), w, cfg.vm.name, cfg.vm.resourceGroup, cfg.vm.Location()) == ip;
  }

  /** The second half of deploy_genesis_vm: the image deployed on the node's address, then recorded. */
  method DeployNode(l: Ledger, w: World, cfg: DeployConfigs, home: string, showLogs: bool, built: Result<(Path, Json)>,
                    ipName: string)
    returns (r: Result<()>, ghost reuse: bool)
    requires w.Valid()
    modifies l, w`trace, w`temps, w`nextTemp, w`azDisks, w`buckets, w`files, w`blobs, w`images, w`gcpDisks, w`granted, w`uploaded,
             w`nsgs, w`nsgRules, w`firewalls, w`azVms, w`instances, w`docs
    ensures old(l.calls) <= l.calls
    ensures w.Valid()
    ensures r.Ok? || w.docs != old(w.docs) ==>
      && built.Ok?
      && l.calls == old(l.calls) + Deploy.DeployPlan(Deploy.BindingFor(cfg.vm.cloud), cfg, built.value.0, ipName, reuse)
    ensures r.Ok? ==>
      built.Ok? && Recorded(old(w.docs), w.docs, cfg, built.value.0,
                            VmIpAnswer(Deploy.BindingFor(cfg.vm.cloud), w, cfg.vm.name, cfg.vm.resourceGroup, cfg.vm.Location()), home)
  {
    reuse := false;
    if built.Err? {
      return Err(built.error), reuse;
    }
    var out;
    out, reuse := RunDeployer(l, w, cfg, built.value.0, built.value.1, ipName, home, showLogs);
    if out.Err? {
      return Err(out.error), reuse;
    }
    ghost var calls1 := l.calls;
    r := RecordNode(w, cfg, built.value.0, home, out.value);
    assert l.calls == calls1;
  }

  // ---------------------------------------------------------------------
  // main.

  /** The integers lo, lo + 1, ..., hi - 1, as Python's range. */
  function Range(lo: int, hi: int): (r: seq<int>)
    decreases hi - lo
  {
    if lo >= hi then [] else [lo] + Range(lo + 1, hi)
  }

  lemma {:induction false} RangeContents(lo: int, hi: int)
    ensures |Range(lo, hi)| == if lo >= hi then 0 else hi - lo
    ensures forall i :: 0 <= i < |Range(lo, hi)| ==> Range(lo, hi)[i] == lo + i
    decreases hi - lo
  {
    if lo < hi {
      RangeContents(lo + 1, hi);
    }
  }

  /**
   * The node numbers main deploys: the one node when `--node` is truthy,
   * else 1..count when `--count` is truthy; with neither, `configs` is never
   * bound and the loop raises UnboundLocalError.
   */
  function GenesisNodes(node: Option<int>, count: Option<int>): Result<seq<int>> {
    if node.Some? && node.value != 0 then Ok([node.value])
    else if count.Some? && count.value != 0 then Ok(Range(1, count.value + 1))
    else Err(UnboundLocalError)
  }

  /** With a count, the nodes are 1 to count in order, each once; a negative count deploys nothing. */
  lemma CountedNodes(count: int)
    requires count != 0
    ensures GenesisNodes(None, Some(count)).Ok?
    ensures var nodes := GenesisNodes(None, Some(count)).value;
      && |nodes| == (if count < 0 then 0 else count)
      && (forall i :: 0 <= i < |nodes| ==> nodes[i] == i + 1)
      && (forall i, j :: 0 <= i < j < |nodes| ==> nodes[i] < nodes[j])
  {
    RangeContents(1, count + 1);
  }

  /** The node configurations main builds, in order; the first node whose configuration fails raises. */
  function GenesisConfigs(args: Args.Namespace, nodes: seq<int>, hostIp: Result<string>, userHome: string)
    : Result<seq<DeploymentConfig.DeploymentConfig>>
  {
    if nodes == [] then Ok([])
    else
      var init :- GenesisConfigs(args, nodes[..|nodes| - 1], hostIp, userHome);
      var last :- DeploymentConfig.FromGenesisArgs(args, nodes[|nodes| - 1], hostIp, userHome);
      Ok(init + [last])
  }

  /** A successful build gives one configuration per node, for that node. */
  lemma {:induction false} GenesisConfigsPerNode(args: Args.Namespace, nodes: seq<int>, hostIp: Result<string>, userHome: string)
    requires GenesisConfigs(args, nodes, hostIp, userHome).Ok?
    ensures |GenesisConfigs(args, nodes, hostIp, userHome).value| == |nodes|
    ensures forall i :: 0 <= i < |nodes| ==>
      DeploymentConfig.FromGenesisArgs(args, nodes[i], hostIp, userHome) == Ok(GenesisConfigs(args, nodes, hostIp, userHome).value[i])
  {
    if nodes != [] {
      var init := nodes[..|nodes| - 1];
      GenesisConfigsPerNode(args, init, hostIp, userHome);
      var configs := GenesisConfigs(args, init, hostIp, userHome).value;
      var last := DeploymentConfig.FromGenesisArgs(args, nodes[|nodes| - 1], hostIp, userHome);
      assert GenesisConfigs(args, nodes, hostIp, userHome) == Ok(configs + [last.value]);
      ConfiguredSnoc(n => DeploymentConfig.FromGenesisArgs(args, n, hostIp, userHome), nodes, configs, last.value);
    }
  }

  /** Extending a per-node correspondence by the last node. */
  lemma ConfiguredSnoc<T>(f: int -> Result<T>, nodes: seq<int>, configs: seq<T>, last: T)
    requires |nodes| == |configs| + 1
    requires forall i :: 0 <= i < |configs| ==> f(nodes[..|configs|][i]) == Ok(configs[i])
    requires f(nodes[|configs|]) == Ok(last)
    ensures forall i :: 0 <= i < |nodes| ==> f(nodes[i]) == Ok((configs + [last])[i])
  {
    forall i | 0 <= i < |nodes|
      ensures f(nodes[i]) == Ok((configs + [last])[i])
    {
      if i < |configs| {
        assert nodes[..|configs|][i] == nodes[i];
      }
    }
  }

  /** Once a prefix of the nodes fails to configure, the whole build fails with the same error. */
  lemma {:induction false} FirstFailureStands(args: Args.Namespace, nodes: seq<int>, k: nat, hostIp: Result<string>, userHome: string)
    requires k <= |nodes|
    requires GenesisConfigs(args, nodes[..k], hostIp, userHome).Err?
    ensures GenesisConfigs(args, nodes, hostIp, userHome) == GenesisConfigs(args, nodes[..k], hostIp, userHome)
    decreases |nodes| - k
  {
    if k < |nodes| {
      var init := nodes[..|nodes| - 1];
      assert init[..k] == nodes[..k];
      FirstFailureStands(args, init, k, hostIp, userHome);
    } else {
      assert nodes[..k] == nodes;
    }
  }

  /**
   * Every configuration the build yields names an artifact, because
   * from_genesis_args parses it with expect_artifact.  So deploy_genesis_vm's
   * test for a missing artifact never fires on these configurations, and
   * the ip_only runs it would let through without one cannot occur.
   */
  lemma {:induction false} GenesisConfigsHaveArtifact(args: Args.Namespace, nodes: seq<int>, hostIp: Result<string>, userHome: string)
    requires GenesisConfigs(args, nodes, hostIp, userHome).Ok?
    ensures forall d :: d in GenesisConfigs(args, nodes, hostIp, userHome).value ==> d.artifact != ""
  {
    var configs := GenesisConfigs(args, nodes, hostIp, userHome).value;
    GenesisConfigsPerNode(args, nodes, hostIp, userHome);
    forall d | d in configs
      ensures d.artifact != ""
    {
      var i :| 0 <= i < |configs| && configs[i] == d;
      assert DeploymentConfig.FromGenesisArgs(args, nodes[i], hostIp, userHome) == Ok(d);
    }
  }

  /** One more node: its configuration is appended, or its error ends the build. */
  lemma GenesisConfigsStep(args: Args.Namespace, nodes: seq<int>, i: nat, hostIp: Result<string>, userHome: string,
                           configs: seq<DeploymentConfig.DeploymentConfig>)
    requires i < |nodes|
    requires GenesisConfigs(args, nodes[..i], hostIp, userHome) == Ok(configs)
    ensures var c := DeploymentConfig.FromGenesisArgs(args, nodes[i], hostIp, userHome);
      GenesisConfigs(args, nodes[..i + 1], hostIp, userHome) == if c.Ok? then Ok(configs + [c.value]) else Err(c.error)
  {
    assert nodes[..i + 1][..i] == nodes[..i];
  }

  /** The list comprehension over the nodes. */
  method BuildGenesisConfigs(args: Args.Namespace, nodes: seq<int>, hostIp: Result<string>, userHome: string)
    returns (r: Result<seq<DeploymentConfig.DeploymentConfig>>)
    ensures r == GenesisConfigs(args, nodes, hostIp, userHome)
  {
    var configs := [];
    var i := 0;
    while i < |nodes|
      invariant 0 <= i <= |nodes|
      invariant GenesisConfigs(args, nodes[..i], hostIp, userHome) == Ok(configs)
    {
      var config := DeploymentConfig.FromGenesisArgs(args, nodes[i], hostIp, userHome);
      GenesisConfigsStep(args, nodes, i, hostIp, userHome, configs);
      if config.Err? {
        FirstFailureStands(args, nodes, i + 1, hostIp, userHome);
        return Err(config.error);
      }
      configs := configs + [config.value];
      i := i + 1;
    }
    assert nodes[..i] == nodes;
    return Ok(configs);
  }

  /** The node configurations main deploys, for the node and count arguments. */
  function PlannedConfigs(args: Args.Namespace, count: Option<int>, hostIp: Result<string>, userHome: string)
    : Result<seq<DeploymentConfig.DeploymentConfig>>
  {
    var nodes :- GenesisNodes(args.node, count);
    GenesisConfigs(args, nodes, hostIp, userHome)
  }

  /** The choices one node's deployment made: whether its address was created, the address, whether its disk was reused. */
  datatype NodeRun = NodeRun(created: bool, ip: string, reuse: bool)

  /** The calls of a node whose deployment returned: its allocation, then, unless only the address was wanted, the deployment plan. */
  function NodeSteps(d: DeploymentConfig.DeploymentConfig, built: Result<(Path, Json)>, run: NodeRun): seq<(Api, Operation)> {
    var cfg := NodeDeployConfigs(d);
    NodeAllocation(cfg, d.resourceGroup, d.node, run.created, run.ip)
    + if d.ipOnly || built.Err? then []
      else Deploy.DeployPlan(Deploy.BindingFor(cfg.vm.cloud), cfg, built.value.0, NodeIpName(d.node), run.reuse)
  }

  /** The calls of the first |runs| nodes of `configs`, each with its own choices. */
  function NodesSteps(configs: seq<DeploymentConfig.DeploymentConfig>, built: Result<(Path, Json)>, runs: seq<NodeRun>)
    : seq<(Api, Operation)>
    requires |runs| <= |configs|
  {
    if runs == [] then []
    else NodesSteps(configs, built, runs[..|runs| - 1]) + NodeSteps(configs[|runs| - 1], built, runs[|runs| - 1])
  }

  /** Node k's calls follow those of the nodes before it. */
  lemma NodesStepsCut(configs: seq<DeploymentConfig.DeploymentConfig>, built: Result<(Path, Json)>, runs: seq<NodeRun>, k: nat)
    requires k < |runs| <= |configs|
    ensures NodesSteps(configs, built, runs[..k + 1]) == NodesSteps(configs, built, runs[..k]) + NodeSteps(configs[k], built, runs[k])
  {
    assert runs[..k + 1][..k] == runs[..k];
  }

  /** The calls of a prefix of the nodes open the calls of all of them. */
  lemma {:induction false} NodesStepsPrefix(configs: seq<DeploymentConfig.DeploymentConfig>, built: Result<(Path, Json)>,
                                            runs: seq<NodeRun>, k: nat)
    requires k <= |runs| <= |configs|
    ensures NodesSteps(configs, built, runs[..k]) <= NodesSteps(configs, built, runs)
    decreases |runs| - k
  {
    if k < |runs| {
      NodesStepsPrefix(configs, built, runs, k + 1);
      NodesStepsCut(configs, built, runs, k);
    } else {
      assert runs[..k] == runs;
    }
  }

  /** Each of the first n nodes either wanted only its address or had an image to deploy. */
  predicate NodesDeployable(configs: seq<DeploymentConfig.DeploymentConfig>, built: Result<(Path, Json)>, n: nat)
    requires n <= |configs|
  {
    n == 0 || (NodesDeployable(configs, built, n - 1) && (configs[n - 1].ipOnly || built.Ok?))
  }

  /** NodesDeployable node by node. */
  lemma {:induction false} EachNodeDeployable(configs: seq<DeploymentConfig.DeploymentConfig>, built: Result<(Path, Json)>, n: nat)
    requires n <= |configs| && NodesDeployable(configs, built, n)
    ensures forall k :: 0 <= k < n ==> configs[k].ipOnly || built.Ok?
  {
    if n > 0 {
      EachNodeDeployable(configs, built, n - 1);
    }
  }

  /**
   * The nodes of `configs` deployed one after the other, stopping at the
   * first deployment that raises: the ledger holds the calls of the nodes
   * whose deployment returned, each as NodeSteps says with the choices in
   * `runs`, and then, after a failure, the calls `failed` of the failing
   * node, with nothing after them.  A node that was deployed beyond its
   * address had an image to deploy (EachNodeDeployable).
   */
  ghost predicate NodesRan(configs: seq<DeploymentConfig.DeploymentConfig>, built: Result<(Path, Json)>,
                           calls0: seq<(Api, Operation)>, calls1: seq<(Api, Operation)>,
                           r: Result<()>, runs: seq<NodeRun>, failed: seq<(Api, Operation)>)
  {
    && |runs| <= |configs|
    && calls1 == calls0 + NodesSteps(configs, built, runs) + failed
    && NodesDeployable(configs, built, |runs|)
    && (r.Ok? ==> |runs| == |configs| && failed == [])
    && (r.Err? ==> |runs| < |configs|)
    && (r.Err? && |runs| < |configs| && configs[|runs|].artifact == "" && !configs[|runs|].ipOnly ==>
          r == Err(ValueError) && failed == [])
  }

  /** One node of main's loop: deploy_genesis_vm, with the calls it made. */
  method DeployGenesisStep(l: Ledger, w: World, d: DeploymentConfig.DeploymentConfig, built: Result<(Path, Json)>)
    returns (r: Result<()>, ghost segment: seq<(Api, Operation)>, ghost run: NodeRun)
    requires w.Valid()
    modifies l, w`trace, w`groups, w`stdin, w`azIps, w`addresses, w`dns, w`temps, w`nextTemp, w`azDisks, w`buckets, w`files, w`blobs,
             w`images, w`gcpDisks, w`granted, w`uploaded, w`nsgs, w`nsgRules, w`firewalls, w`azVms, w`instances, w`docs
    ensures w.Valid()
    ensures l.calls == old(l.calls) + segment
    ensures r.Ok? ==> segment == NodeSteps(d, built, run) && (d.ipOnly || built.Ok?)
    ensures d.artifact == "" && !d.ipOnly ==> r == Err(ValueError) && segment == []
  {
    ghost var before := l.calls;
    ghost var docs, dns := w.docs, w.dns;
    ghost var created, ip, reuse;
    r, created, ip, reuse := DeployGenesisVm(l, w, d, built);
    segment := l.calls[|before|..];
    run := NodeRun(created, ip, reuse);
    assert l.calls == before + segment;
    if r.Ok? {
      NodeRanSteps(d, built, before, l.calls, dns, w.dns, docs, w.docs, run);
    }
  }

  /** A node whose deployment succeeded made exactly its allocation and, unless only the address was wanted, its plan. */
  lemma NodeRanSteps(d: DeploymentConfig.DeploymentConfig, built: Result<(Path, Json)>,
                     calls0: seq<(Api, Operation)>, calls1: seq<(Api, Operation)>,
                     dns0: map<(string, string, string), seq<string>>, dns1: map<(string, string, string), seq<string>>,
                     docs0: map<Path, Json>, docs1: map<Path, Json>, run: NodeRun)
    requires GenesisNodeRan(NodeDeployConfigs(d), d.resourceGroup, d.node, d.ipOnly, built, calls0, calls1,
                            dns0, dns1, docs0, docs1, true, run.created, run.ip, run.reuse)
    ensures calls0 <= calls1
    ensures calls1[|calls0|..] == NodeSteps(d, built, run) && (d.ipOnly || built.Ok?)
  {
    var cfg := NodeDeployConfigs(d);
    var allocation := NodeAllocation(cfg, d.resourceGroup, d.node, run.created, run.ip);
    if !d.ipOnly {
      var plan := Deploy.DeployPlan(Deploy.BindingFor(cfg.vm.cloud), cfg, built.value.0, NodeIpName(d.node), run.reuse);
      AppendAssoc(calls0, allocation, plan);
    }
    assert calls1 == calls0 + NodeSteps(d, built, run);
  }

  /** main's loop over the node configurations. */
  method DeployConfiguredNodes(l: Ledger, w: World, configs: seq<DeploymentConfig.DeploymentConfig>, built: Result<(Path, Json)>)
    returns (r: Result<()>, ghost runs: seq<NodeRun>, ghost failed: seq<(Api, Operation)>)
    requires w.Valid()
    modifies l, w`trace, w`groups, w`stdin, w`azIps, w`addresses, w`dns, w`temps, w`nextTemp, w`azDisks, w`buckets, w`files, w`blobs,
             w`images, w`gcpDisks, w`granted, w`uploaded, w`nsgs, w`nsgRules, w`firewalls, w`azVms, w`instances, w`docs
    ensures NodesRan(configs, built, old(l.calls), l.calls, r, runs, failed)
  {
    runs, failed := [], [];
    ghost var calls0 := l.calls;
    var i := 0;
    while i < |configs|
      invariant 0 <= i <= |configs|
      invariant |runs| == i
      invariant w.Valid()
      invariant l.calls == calls0 + NodesSteps(configs, built, runs)
      invariant NodesDeployable(configs, built, i)
    {
      ghost var before := l.calls;
      ghost var segment, run;
      var done;
      done, segment, run := DeployGenesisStep(l, w, configs[i], built);
      if done.Err? {
        failed := segment;
        return Err(done.error), runs, failed;
      }
      assert (runs + [run])[..i] == runs;
      AppendAssoc(calls0, NodesSteps(configs, built, runs), segment);
      runs := runs + [run];
      i := i + 1;
    }
    return Ok(()), runs, failed;
  }

  /** main: the nodes to deploy, their configurations, then their deployments in order. */
  method DeployGenesisNodes(l: Ledger, w: World, args: Args.Namespace, count: Option<int>, hostIp: Result<string>,
                            userHome: string, built: Result<(Path, Json)>)
    returns (r: Result<()>, ghost runs: seq<NodeRun>, ghost failed: seq<(Api, Operation)>)
    requires w.Valid()
    modifies l, w`trace, w`groups, w`stdin, w`azIps, w`addresses, w`dns, w`temps, w`nextTemp, w`azDisks, w`buckets, w`files, w`blobs,
             w`images, w`gcpDisks, w`granted, w`uploaded, w`nsgs, w`nsgRules, w`firewalls, w`azVms, w`instances, w`docs
    ensures GenesisNodes(args.node, count).Err? ==> r == Err(UnboundLocalError) && l.calls == old(l.calls)
    ensures PlannedConfigs(args, count, hostIp, userHome).Err? ==>
      r == Err(PlannedConfigs(args, count, hostIp, userHome).error) && l.calls == old(l.calls)
    ensures PlannedConfigs(args, count, hostIp, userHome).Ok? ==>
      NodesRan(PlannedConfigs(args, count, hostIp, userHome).value, built, old(l.calls), l.calls, r, runs, failed)
  {
    runs, failed := [], [];
    var nodes :- GenesisNodes(args.node, count);
    var configs :- BuildGenesisConfigs(args, nodes, hostIp, userHome);
    r, runs, failed := DeployConfiguredNodes(l, w, configs, built);
  }
}
