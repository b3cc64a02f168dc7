/**
 * Configuration of a numbered node or a genesis node: the shared options
 * (provider, location, size, addresses, DNS zone, artifact) plus the
 * per-node names, and its translation into the general run configuration.
 */
module DeploymentConfig {
  import opened Wrappers
  import opened Text
  import opened Args
  import opened CloudConfig
  import Artifact
  import Json
  import Configs
  import Mode
  import DeployConfig
  import VmConfig
  import Domain

  /** The DNS record prefix of each provider's genesis nodes. */
  function DomainRecordPrefix(cloud: CloudProvider): string {
    match cloud
    case Azure => "az"
    case Gcp => "gcp"
  }

  /** The genesis VM prefix is the record prefix followed by "-genesis". */
  function GenesisVmPrefix(cloud: CloudProvider): (r: string)
    ensures r == DomainRecordPrefix(cloud) + "-genesis"
    ensures cloud.Azure? ==> r == "az-genesis"
    ensures cloud.Gcp? ==> r == "gcp-genesis"
  {
    match cloud
    case Azure => "az-genesis"
    case Gcp => "gcp-genesis"
  }

  /** The options every node shares, as parse_base_kwargs collects them. */
  datatype Base = Base(
    home: string,
    artifact: string,
    ipOnly: bool,
    cloud: CloudProvider,
    region: string,
    resourceGroup: string,
    vmSize: string,
    sourceIp: string,
    domainResourceGroup: string,
    domainName: string,
    certbotEmail: string,
    showLogs: bool)

  /** The per-node options: its number and the names derived from it. */
  datatype NodeNaming = NodeNaming(node: int, recordName: string, vmName: string, nsgName: string)

  datatype DeploymentConfig = DeploymentConfig(
    vmName: string,
    cloud: CloudProvider,
    region: string,
    vmSize: string,
    node: int,
    recordName: string,
    sourceIp: string,
    ipOnly: bool,
    artifact: string,
    home: string,
    domainResourceGroup: string,
    domainName: string,
    certbotEmail: string,
    resourceGroup: string,
    nsgName: string,
    showLogs: bool)

  /**
   * parse_base_kwargs.  Falsy location, group and size options take the
   * provider's defaults and the location is NOT checked against the
   * provider's table; the host's address (`hostIp`, the outcome of asking an
   * external service) is fetched only when no source address was given,
   * and before the artifact is parsed.
   */
  function ParseBaseKwargs(args: Namespace, hostIp: Result<string>, userHome: string): (r: Result<Base>)
    ensures args.cloud.None? ==> r == Err(ValueError)
    ensures r.Ok? <==>
      && args.cloud.Some? && FromValue(args.cloud.value).Ok?
      && (args.sourceIp.Some? || hostIp.Ok?)
      && Artifact.ExpectArtifact(args.artifact).Ok?
    ensures r.Err? ==> r.error == ValueError || (hostIp.Err? && r.error == hostIp.error)
    ensures r.Ok? ==>
      && FromValue(args.cloud.value) == Ok(r.value.cloud)
      && r.value.region == OrElse(args.region, GetDefaultRegion(r.value.cloud))
      && r.value.resourceGroup == OrElse(args.resourceGroup, GetDefaultResourceGroup(r.value.cloud))
      && r.value.vmSize == OrElse(args.vmSize, GetDefaultVmSize(r.value.cloud))
    ensures r.Ok? ==> r.value.sourceIp == (if args.sourceIp.Some? then args.sourceIp.value else hostIp.value)
    ensures r.Ok? ==> r.value.home == Configs.HomeDir(userHome, args.codePath)
    ensures r.Ok? ==> r.value.artifact != "" && Artifact.ParseArtifact(args.artifact) == Ok(Some(r.value.artifact))
  {
    if args.cloud.None? then Err(ValueError)
    else
      var cloud :- FromValue(args.cloud.value);
      var region := OrElse(args.region, GetDefaultRegion(cloud));
      var resourceGroup := OrElse(args.resourceGroup, GetDefaultResourceGroup(cloud));
      var vmSize := OrElse(args.vmSize, GetDefaultVmSize(cloud));
      var sourceIp :- if args.sourceIp.Some? then Ok(args.sourceIp.value) else hostIp;
      var artifact :- Artifact.ExpectArtifact(args.artifact);
      Ok(Base(Configs.HomeDir(userHome, args.codePath), artifact, args.ipOnly, cloud, region, resourceGroup,
              vmSize, sourceIp, args.domainResourceGroup, args.domainName, args.certbotEmail, args.logs))
  }

  /** parse_deploy_args: a missing, zero or negative node number is refused. */
  function ParseDeployArgs(args: Namespace): (r: Result<NodeNaming>)
    ensures r.Ok? <==> args.node.Some? && args.node.value >= 1
    ensures r.Err? ==> r.error == ValueError
    ensures r.Ok? ==>
      && r.value.node == args.node.value
      && r.value.vmName == "yocto-node-" + IntToString(r.value.node)
      && r.value.recordName == "node-" + IntToString(r.value.node)
      && r.value.nsgName == r.value.vmName
  {
    if args.node.None? || args.node.value == 0 || args.node.value < 1 then Err(ValueError)
    else
      var n := args.node.value;
      var vmName := "yocto-node-" + IntToString(n);
      Ok(NodeNaming(n, "node-" + IntToString(n), vmName, vmName))
  }

  /**
   * configure_genesis_node: a node below 1 is refused; a non-empty manual
   * name replaces the generated VM name, but never the DNS record name.
   */
  function ConfigureGenesisNode(node: int, cloud: CloudProvider, manualName: Option<string>): (r: Result<NodeNaming>)
    ensures r.Ok? <==> node >= 1
    ensures r.Err? ==> r.error == ValueError
    ensures r.Ok? ==>
      && r.value.node == node
      && r.value.recordName == DomainRecordPrefix(cloud) + "-" + IntToString(node)
      && r.value.vmName == (if Given(manualName) then manualName.value else GenesisVmPrefix(cloud) + "-" + IntToString(node))
      && r.value.nsgName == r.value.vmName
  {
    if node < 1 then Err(ValueError)
    else
      var vmName := if Given(manualName) then manualName.value else GenesisVmPrefix(cloud) + "-" + IntToString(node);
      Ok(NodeNaming(node, DomainRecordPrefix(cloud) + "-" + IntToString(node), vmName, vmName))
  }

  /**
   * The shared options updated with the per-node ones.  The two key sets
   * are disjoint, so the update adds keys and overrides none.
   */
  function Combine(base: Base, naming: NodeNaming): DeploymentConfig {
    DeploymentConfig(naming.vmName, base.cloud, base.region, base.vmSize, naming.node, naming.recordName,
                     base.sourceIp, base.ipOnly, base.artifact, base.home, base.domainResourceGroup,
                     base.domainName, base.certbotEmail, base.resourceGroup, naming.nsgName, base.showLogs)
  }

  /** from_deploy_args: the shared options, then the numbered node's names. */
  function FromDeployArgs(args: Namespace, hostIp: Result<string>, userHome: string): (r: Result<DeploymentConfig>)
    ensures r.Ok? <==> ParseBaseKwargs(args, hostIp, userHome).Ok? && ParseDeployArgs(args).Ok?
    ensures r.Ok? ==> r.value == Combine(ParseBaseKwargs(args, hostIp, userHome).value, ParseDeployArgs(args).value)
    ensures r.Err? ==> r.error == ValueError || (hostIp.Err? && r.error == hostIp.error)
  {
    var base :- ParseBaseKwargs(args, hostIp, userHome);
    var naming :- ParseDeployArgs(args);
    Ok(Combine(base, naming))
  }

  /** from_genesis_args: the shared options, then the genesis names for the given node. */
  function FromGenesisArgs(args: Namespace, node: int, hostIp: Result<string>, userHome: string): (r: Result<DeploymentConfig>)
    ensures r.Ok? <==> ParseBaseKwargs(args, hostIp, userHome).Ok? && node >= 1
    ensures r.Ok? ==>
      r.value == Combine(ParseBaseKwargs(args, hostIp, userHome).value,
                         ConfigureGenesisNode(node, r.value.cloud, args.name).value)
    ensures r.Err? ==> r.error == ValueError || (hostIp.Err? && r.error == hostIp.error)
  {
    var base :- ParseBaseKwargs(args, hostIp, userHome);
    var naming :- ConfigureGenesisNode(node, base.cloud, args.name);
    Ok(Combine(base, naming))
  }

  /**
   * to_configs: a deploy-only run with no build section whose VM and
   * domain sections are the node's own names, copied verbatim.
   */
  function ToConfigs(d: DeploymentConfig): (r: Configs.Configs)
    ensures r.mode == Mode.DeployOnly() && r.build.None? && r.deploy.Some?
    ensures r.deploy.value.vm.name == d.vmName && r.deploy.value.vm.nsgName == d.nsgName
    ensures r.deploy.value.vm.resourceGroup == d.resourceGroup && r.deploy.value.vm.Location() == d.region
    ensures r.deploy.value.vm.cloud == d.cloud && r.deploy.value.vm.size == d.vmSize
    ensures r.deploy.value.domain == Domain.DomainConfig(d.recordName, d.domainResourceGroup, d.domainName)
    ensures r.deploy.value.artifact == d.artifact && r.deploy.value.email == d.certbotEmail
    ensures r.deploy.value.sourceIp == d.sourceIp && r.deploy.value.showLogs == d.showLogs == r.showLogs
    ensures r.home == d.home
  {
    var vm := VmConfig.VmConfigs(d.resourceGroup, d.vmName, d.nsgName, d.cloud, d.region, d.vmSize);
    var domain := Domain.DomainConfig(d.recordName, d.domainResourceGroup, d.domainName);
    var deploy := DeployConfig.DeployConfigs(vm, domain, d.artifact, d.certbotEmail, d.sourceIp, d.showLogs);
    Configs.Configs(Mode.DeployOnly(), None, Some(deploy), d.showLogs, d.home)
  }

  /**
   * A numbered node's configuration serialises with its artifact, and its
   * VM, security group and DNS record are all named after the node number,
   * unlike the general path where the VM is named after its resource group.
   */
  lemma DeployedNodeConfigs(args: Namespace, hostIp: Result<string>, userHome: string)
    requires FromDeployArgs(args, hostIp, userHome).Ok?
    ensures var c := ToConfigs(FromDeployArgs(args, hostIp, userHome).value);
      && "artifact" in Json.Keys(c.deploy.value.ToDict().fields)
      && c.deploy.value.vm.name == c.deploy.value.vm.nsgName == "yocto-node-" + IntToString(args.node.value)
      && c.deploy.value.domain.record == "node-" + IntToString(args.node.value)
  {
  }

  /** Distinct numbered nodes get distinct VM names and distinct DNS records. */
  lemma {:induction false} NodeNamesDistinct(args1: Namespace, args2: Namespace)
    requires ParseDeployArgs(args1).Ok? && ParseDeployArgs(args2).Ok?
    requires args1.node != args2.node
    ensures ParseDeployArgs(args1).value.vmName != ParseDeployArgs(args2).value.vmName
    ensures ParseDeployArgs(args1).value.recordName != ParseDeployArgs(args2).value.recordName
  {
    var n1, n2 := args1.node.value, args2.node.value;
    var p, q := "yocto-node-", "node-";
    if (p + IntToString(n1)) == (p + IntToString(n2)) {
      assert IntToString(n1) == (p + IntToString(n1))[|p|..];
      IntToStringInjective(n1, n2);
    }
    if (q + IntToString(n1)) == (q + IntToString(n2)) {
      assert IntToString(n1) == (q + IntToString(n1))[|q|..];
      IntToStringInjective(n1, n2);
    }
  }

  /**
   * Genesis DNS records never collide: two records are equal only for the
   * same provider and the same node number, whatever manual VM names are
   * given.
   */
  lemma {:induction false} GenesisRecordsDistinct(n1: int, c1: CloudProvider, m1: Option<string>,
                                                  n2: int, c2: CloudProvider, m2: Option<string>)
    requires ConfigureGenesisNode(n1, c1, m1).Ok? && ConfigureGenesisNode(n2, c2, m2).Ok?
    ensures ConfigureGenesisNode(n1, c1, m1).value.recordName == ConfigureGenesisNode(n2, c2, m2).value.recordName
            <==> n1 == n2 && c1 == c2
  {
    var r1 := DomainRecordPrefix(c1) + "-" + IntToString(n1);
    var r2 := DomainRecordPrefix(c2) + "-" + IntToString(n2);
    if r1 == r2 {
      assert r1[0] == DomainRecordPrefix(c1)[0] && r2[0] == DomainRecordPrefix(c2)[0];
      assert c1 == c2;
      var k := |DomainRecordPrefix(c1) + "-"|;
      assert IntToString(n1) == r1[k..] && IntToString(n2) == r2[k..];
      IntToStringInjective(n1, n2);
    }
  }
}
