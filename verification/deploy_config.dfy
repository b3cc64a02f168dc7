/** The deploy section of a configuration: where the VM goes, its DNS name and the image it boots. */
module DeployConfig {
  import opened Wrappers
  import opened Json
  import opened Args
  import VmConfig
  import Domain
  import Artifact

  datatype DeployConfigs = DeployConfigs(
    vm: VmConfig.VmConfigs,
    domain: Domain.DomainConfig,
    artifact: string,
    email: string,
    sourceIp: string,
    showLogs: bool := false)
  {
    /** The key list of to_dict: `artifact` sits between domain and email, and only when set. */
    static function DictKeys(withArtifact: bool): seq<string> {
      ["vm", "domain"] + (if withArtifact then ["artifact"] else []) + ["email", "sourceIp", "showLogs"]
    }

    /** to_dict: the nested vm and domain dicts, the artifact only when non-empty, then the rest. */
    function ToDict(): (r: Json)
      ensures r.JObj? && Keys(r.fields) == DictKeys(artifact != "")
      ensures ("artifact" in Keys(r.fields)) <==> artifact != ""
      ensures Lookup(r.fields, "vm") == Some(vm.ToDict())
      ensures Lookup(r.fields, "domain") == Some(domain.ToDict())
      ensures artifact != "" ==> Lookup(r.fields, "artifact") == Some(JStr(artifact))
    {
      Assemble(vm.ToDict(), domain.ToDict(), artifact, email, sourceIp, showLogs)
    }
  }

  /** The dict to_dict builds around the already serialised vm and domain sections. */
  function Assemble(vmDict: Json, domainDict: Json, artifact: string, email: string, sourceIp: string, showLogs: bool): (r: Json)
    ensures r.JObj? && Keys(r.fields) == DeployConfigs.DictKeys(artifact != "")
    ensures ("artifact" in Keys(r.fields)) <==> artifact != ""
    ensures Lookup(r.fields, "vm") == Some(vmDict)
    ensures Lookup(r.fields, "domain") == Some(domainDict)
    ensures artifact != "" ==> Lookup(r.fields, "artifact") == Some(JStr(artifact))
  {
    var head := [("vm", vmDict), ("domain", domainDict)];
    var tail := [("email", JStr(email)), ("sourceIp", JStr(sourceIp)), ("showLogs", JBool(showLogs))];
    assert Keys(head) == ["vm", "domain"];
    assert Keys(tail) == ["email", "sourceIp", "showLogs"];
    if artifact != "" then
      var middle := [("artifact", JStr(artifact))];
      assert Keys(middle) == ["artifact"];
      KeysAppend(head, middle);
      KeysAppend(head + middle, tail);
      var fields := head + middle + tail;
      assert fields[1..][1..] == middle + tail;
      assert Lookup(fields[1..][1..], "artifact") == Some(JStr(artifact));
      assert Lookup(fields[1..], "artifact") == Some(JStr(artifact));
      JObj(fields)
    else
      KeysAppend(head, tail);
      JObj(head + tail)
  }

  /**
   * DeployConfigs.from_args: the VM section, then the domain section, then
   * the artifact (normalised and required), then the host's public address
   * (`hostIp`, the outcome of asking an external service), in that order.
   */
  function FromArgs(args: Namespace, hostIp: Result<string>): (r: Result<DeployConfigs>)
    ensures r.Ok? <==>
      VmConfig.FromArgs(args).Ok? && Domain.FromArgs(args).Ok?
      && Artifact.ExpectArtifact(args.artifact).Ok? && hostIp.Ok?
    ensures r.Err? ==> r.error == ValueError || (hostIp.Err? && r.error == hostIp.error)
    ensures r.Ok? ==>
      && r.value.vm == VmConfig.FromArgs(args).value
      && r.value.domain == Domain.FromArgs(args).value
      && r.value.sourceIp == hostIp.value
      && r.value.email == args.email
      && r.value.showLogs == args.logs
    // the artifact is always a canonical, non-empty image name
    ensures r.Ok? ==> r.value.artifact != "" && Artifact.ParseArtifact(args.artifact) == Ok(Some(r.value.artifact))
  {
    var vm :- VmConfig.FromArgs(args);
    var domain :- Domain.FromArgs(args);
    var artifact :- Artifact.ExpectArtifact(args.artifact);
    var sourceIp :- hostIp;
    Ok(DeployConfigs(vm, domain, artifact, args.email, sourceIp, args.logs))
  }
}
