/**
 * The deployment pipeline every entry point shares: deleting a VM recorded
 * in the metadata, deploying an image through the binding of the
 * configured provider, recording the deployment, and the `Deployer` that
 * owns a deployment's temporary measurements file and proxy.
 */
module Deploy {
  import opened Wrappers
  import opened Json
  import opened Paths
  import opened Env
  import opened CloudApi
  import opened Binding
  import CloudConfig
  import CloudFactory
  import Metadata

  /** get_cloud_api on a configured provider: always the binding that serves it. */
  function BindingFor(cloud: CloudConfig.CloudProvider): (api: Api)
    ensures CloudFactory.GetCloudApi(cloud.Value()) == Ok(api)
    ensures api.Provider() == cloud
  {
    CloudFactory.GetCloudApiRoundTrip(cloud);
    CloudFactory.GetCloudApi(cloud.Value()).value
  }

  // ---------------------------------------------------------------------
  // delete_vm.

  /**
   * The search of delete_vm's loop: the record of the first partition, in
   * the document's order, whose `in` test finds the VM.  A partition that
   * is not a dict may raise on the test or on the lookup.
   */
  function FirstRecord(partitions: Fields, vmName: string): Result<Option<Json>> {
    if partitions == [] then Ok(None)
    else
      var found :- Contains(partitions[0].1, vmName);
      if found then
        var meta :- Index(partitions[0].1, vmName);
        Ok(Some(meta))
      else FirstRecord(partitions[1..], vmName)
  }

  /** The loop over `resources.items()`, stopping at the first partition that has the VM. */
  method FindRecord(partitions: Fields, vmName: string) returns (r: Result<Option<Json>>)
    ensures r == FirstRecord(partitions, vmName)
  {
    var i := 0;
    while i < |partitions|
      invariant 0 <= i <= |partitions|
      invariant FirstRecord(partitions, vmName) == FirstRecord(partitions[i..], vmName)
    {
      assert partitions[i..][1..] == partitions[i + 1..];
      var found :- Contains(partitions[i].1, vmName);
      if found {
        var meta :- Index(partitions[i].1, vmName);
        return Ok(Some(meta));
      }
      i := i + 1;
    }
    return Ok(None);
  }

  /** The first partition whose `in` test finds the VM decides, whatever the later partitions hold. */
  lemma {:induction false} FirstMatchWins(partitions: Fields, vmName: string, i: nat)
    requires i < |partitions|
    requires forall j :: 0 <= j < i ==> Contains(partitions[j].1, vmName) == Ok(false)
    requires Contains(partitions[i].1, vmName) == Ok(true)
    ensures FirstRecord(partitions, vmName) ==
      match Index(partitions[i].1, vmName)
      case Ok(meta) => Ok(Some(meta))
      case Err(e) => Err(e)
  {
    if i > 0 {
      FirstMatchWins(partitions[1..], vmName, i - 1);
    }
  }

  /** The search looks only at the partitions' contents: their keys (the provider names) play no part. */
  lemma {:induction false} FirstRecordIgnoresKeys(p1: Fields, p2: Fields, vmName: string)
    requires |p1| == |p2|
    requires forall j :: 0 <= j < |p1| ==> p1[j].1 == p2[j].1
    ensures FirstRecord(p1, vmName) == FirstRecord(p2, vmName)
  {
    if p1 != [] {
      FirstRecordIgnoresKeys(p1[1..], p2[1..], vmName);
    }
  }

  /** What delete_vm passes on to the binding it selects. */
  datatype Target = Target(api: Api, resourceGroup: Json, region: Json, artifact: string)

  /**
   * What delete_vm reads from a record: the binding named by the record's
   * own `vm.cloud` and the record's group, region and artifact.  A cloud
   * value that names no provider raises ValueError.  The artifact is passed
   * on as str() of what the record holds, since the providers only ever
   * format it into the disk name: a null artifact names the disk `<vm>_None`.
   */
  function RecordTarget(record: Json): (r: Result<Target>)
    ensures r.Ok? ==>
      && Index(record, "vm").Ok?
      && Index(Index(record, "vm").value, "cloud") == Ok(JStr(r.value.api.Provider().Value()))
      && Index(Index(record, "vm").value, "resourceGroup") == Ok(r.value.resourceGroup)
      && Index(Index(record, "vm").value, "region") == Ok(r.value.region)
      && Index(record, "artifact").Ok?
      && r.value.artifact == PyStr(Index(record, "artifact").value)
  {
    var vm :- Index(record, "vm");
    var resourceGroup :- Index(vm, "resourceGroup");
    var region :- Index(vm, "region");
    var artifact :- Index(record, "artifact");
    var cloud :- Index(vm, "cloud");
    if !cloud.JStr? then Err(ValueError)
    else
      var provider :- CloudConfig.FromValue(cloud.s);
      Ok(Target(BindingFor(provider), resourceGroup, region, PyStr(artifact)))
  }

  /**
   * What delete_vm reads from the metadata document: None when no
   * partition has a truthy record of the VM, otherwise the target of the
   * first record found.
   */
  function TargetOf(doc: Json, vmName: string): Result<Option<Target>> {
    var resources :- GetOr(doc, "resources", JObj([]));
    var partitions :- Items(resources);
    var meta :- FirstRecord(partitions, vmName);
    if meta.None? || !Truthy(meta.value) then Ok(None)
    else
      var t :- RecordTarget(meta.value);
      Ok(Some(t))
  }

  /** The same read on the stored metadata. */
  function StoredTarget(docs: map<Path, Json>, home: string, vmName: string): Result<Option<Target>> {
    var doc :- Metadata.Loaded(docs, home);
    TargetOf(doc, vmName)
  }

  /**
   * Which binding deletes the VM depends on the records alone: filing the
   * same records under other provider keys changes nothing.
   */
  lemma TargetIgnoresPartitionKeys(d1: Json, d2: Json, p1: Fields, p2: Fields, vmName: string)
    requires GetOr(d1, "resources", JObj([])) == Ok(JObj(p1))
    requires GetOr(d2, "resources", JObj([])) == Ok(JObj(p2))
    requires |p1| == |p2|
    requires forall j :: 0 <= j < |p1| ==> p1[j].1 == p2[j].1
    ensures TargetOf(d1, vmName) == TargetOf(d2, vmName)
  {
    FirstRecordIgnoresKeys(p1, p2, vmName);
  }

  /**
   * delete_vm: False when no partition records the VM; otherwise one call
   * of the selected binding's delete_vm, whose answer is returned.
   */
  method DeleteVm(l: Ledger, w: World, vmName: string, home: string) returns (r: Result<bool>)
    modifies l, w`trace, w`stdin, w`azVms, w`azDisks, w`instances, w`gcpDisks, w`docs
    ensures StoredTarget(old(w.docs), home, vmName).Err? ==>
      r == Err(StoredTarget(old(w.docs), home, vmName).error) && l.calls == old(l.calls) && w.trace == old(w.trace)
    ensures StoredTarget(old(w.docs), home, vmName) == Ok(None) ==>
      r == Ok(false) && l.calls == old(l.calls) && w.trace == old(w.trace)
    ensures StoredTarget(old(w.docs), home, vmName).Ok? && StoredTarget(old(w.docs), home, vmName).value.Some? ==>
      var t := StoredTarget(old(w.docs), home, vmName).value.value;
      && l.calls == old(l.calls) + [(t.api, Operation.DeleteVm(vmName, t.resourceGroup, t.region, t.artifact, home))]
      && VmDeleteOutcome(t.api, old(w.docs), old(w.stdin), w.broken, vmName, t.artifact, home, old(w.trace), w.trace,
                         old(w.azVms), w.azVms, old(w.azDisks), w.azDisks,
                         old(w.instances), w.instances, old(w.gcpDisks), w.gcpDisks, w.docs, r)
      && (Unlisted(t.api, old(w.docs), home, vmName) ==> r == Ok(false))
    ensures r.Err? || r == Ok(false) ==> w.docs == old(w.docs)
  {
    var doc :- Metadata.LoadMetadata(w, home);
    var resources :- GetOr(doc, "resources", JObj([]));
    var partitions :- Items(resources);
    var meta :- FindRecord(partitions, vmName);
    if meta.None? || !Truthy(meta.value) {
      return Ok(false);
    }
    var t :- RecordTarget(meta.value);
    r := DeleteVmOf(t.api, l, w, vmName, t.resourceGroup, t.region, t.artifact, home);
  }

  // ---------------------------------------------------------------------
  // deploy_image.

  /** The disk steps: the check, then get_disk_name when the disk exists (`reuse`) and create_disk otherwise. */
  function DiskSteps(api: Api, config: DeployConfigs, imagePath: Path, reuse: bool): seq<(Api, Operation)> {
    [(api, DiskExists(config, imagePath)),
     (api, if reuse then GetDiskName(config, imagePath) else CreateDisk(config, imagePath))]
  }

  /** The steps after the disk ones, for the VM on `diskName`: upload, security group, standard rules, VM, address lookup. */
  function FinishSteps(api: Api, config: DeployConfigs, imagePath: Path, ipName: string, diskName: string): seq<(Api, Operation)> {
    [(api, UploadDisk(config, imagePath)),
     (api, CreateNsg(config)),
     (api, CreateStandardNsgRules(config)),
     (api, CreateVm(config, imagePath, ipName, diskName)),
     (api, GetVmIp(config.vm.name, config.vm.resourceGroup, config.vm.Location()))]
  }

  /**
   * The interface calls deploy_image makes when all of them succeed: the
   * disk steps, then upload_disk in both cases, the security group and its
   * standard rules, the VM on the disk get_disk_name names, and the address
   * lookup.
   */
  function DeployPlan(api: Api, config: DeployConfigs, imagePath: Path, ipName: string, reuse: bool): seq<(Api, Operation)> {
    DiskSteps(api, config, imagePath, reuse) + FinishSteps(api, config, imagePath, ipName, DiskName(api, config, imagePath))
  }

  /** A reused disk is never created: the plan then takes the name from get_disk_name. */
  lemma ReusedDiskNotCreated(api: Api, config: DeployConfigs, imagePath: Path, ipName: string)
    ensures (api, CreateDisk(config, imagePath)) !in DeployPlan(api, config, imagePath, ipName, true)
    ensures DeployPlan(api, config, imagePath, ipName, true)[1] == (api, GetDiskName(config, imagePath))
  {
    var finish := FinishSteps(api, config, imagePath, ipName, DiskName(api, config, imagePath));
    assert (api, CreateDisk(config, imagePath)) !in finish;
  }

  /**
   * A missing disk is always created; the image is uploaded either way, and
   * from the upload on the two plans coincide, the VM being created on the
   * same name and its address being the answer.
   */
  lemma DeployPlanBranches(api: Api, config: DeployConfigs, imagePath: Path, ipName: string)
    ensures |DeployPlan(api, config, imagePath, ipName, true)| == |DeployPlan(api, config, imagePath, ipName, false)| == 7
    ensures DeployPlan(api, config, imagePath, ipName, false)[1] == (api, CreateDisk(config, imagePath))
    ensures DeployPlan(api, config, imagePath, ipName, true)[2] == (api, UploadDisk(config, imagePath))
    ensures DeployPlan(api, config, imagePath, ipName, false)[2] == (api, UploadDisk(config, imagePath))
    ensures DeployPlan(api, config, imagePath, ipName, true)[2..] == DeployPlan(api, config, imagePath, ipName, false)[2..]
    ensures DeployPlan(api, config, imagePath, ipName, true)[6]
      == (api, GetVmIp(config.vm.name, config.vm.resourceGroup, config.vm.Location()))
  {
    PlanCut(api, config, imagePath, ipName, true, 2);
    PlanCut(api, config, imagePath, ipName, false, 2);
  }

  /** Cutting the plan after `done` steps: a prefix of the disk steps, or all of them and a prefix of the rest. */
  lemma PlanCut(api: Api, config: DeployConfigs, imagePath: Path, ipName: string, reuse: bool, done: nat)
    requires done <= 7
    ensures |DeployPlan(api, config, imagePath, ipName, reuse)| == 7
    ensures done <= 2 ==> DeployPlan(api, config, imagePath, ipName, reuse)[..done] == DiskSteps(api, config, imagePath, reuse)[..done]
    ensures 2 <= done ==>
      DeployPlan(api, config, imagePath, ipName, reuse)[..done]
      == DiskSteps(api, config, imagePath, reuse) + FinishSteps(api, config, imagePath, ipName, DiskName(api, config, imagePath))[..done - 2]
    ensures DeployPlan(api, config, imagePath, ipName, reuse)[2..] == FinishSteps(api, config, imagePath, ipName, DiskName(api, config, imagePath))
  {
    var disk := DiskSteps(api, config, imagePath, reuse);
    var finish := FinishSteps(api, config, imagePath, ipName, DiskName(api, config, imagePath));
    if 2 <= done {
      assert (disk + finish)[..done] == disk + finish[..done - 2];
    }
  }

  /** Logging step k of a plan after its first k steps logs its first k + 1. */
  lemma StepTaken<T>(calls0: seq<T>, steps: seq<T>, k: nat, calls: seq<T>)
    requires k < |steps|
    requires calls == calls0 + steps[..k] + [steps[k]]
    ensures calls == calls0 + steps[..k + 1]
  {
    assert steps[..k + 1] == steps[..k] + [steps[k]];
  }

  /**
   * How a run of deploy_image went, given the image files and what
   * disk_exists answers: a missing image stops it before any interface
   * call; otherwise it made the first `done` calls of its plan and stopped
   * at the first step that failed. It stops after the check exactly when
   * that fails, after two steps only when the disk had to be created and
   * that failed (get_disk_name cannot fail), never on GCP at the upload or
   * the security group steps (those do nothing there), and it succeeded
   * only when all seven steps ran.
   */
  ghost predicate RanDeployImage(api: Api, calls0: seq<(Api, Operation)>, calls1: seq<(Api, Operation)>,
                                 files: map<Path, nat>, answer: Result<bool>,
                                 config: DeployConfigs, imagePath: Path, ipName: string, done: nat, ok: bool)
  {
    && (imagePath !in files ==> !ok && calls1 == calls0)
    && (imagePath in files ==>
          && 1 <= done <= 7
          && calls1 == calls0 + DeployPlan(api, config, imagePath, ipName, answer == Ok(true))[..done]
          && (answer.Err? <==> done == 1)
          && (answer.Err? ==> !ok)
          && (done == 2 ==> answer == Ok(false) && !ok)
          && (api.GcpApi? ==> done <= 2 || 6 <= done)
          && (ok ==> done == 7))
  }

  /** The first disk step, as the plan sees it: its ledger entry and the answer. */
  method DiskCheckStep(api: Api, l: Ledger, w: World, config: DeployConfigs, imagePath: Path) returns (r: Result<bool>)
    modifies l, w`trace
    ensures l.calls == old(l.calls) + [(api, DiskExists(config, imagePath))]
    ensures r == old(DiskAnswer(api, w, config, imagePath))
    ensures DiskMade(api, w, config, imagePath) == old(DiskMade(api, w, config, imagePath))
  {
    r := DiskExistsOf(api, l, w, config, imagePath);
  }

  /** The second disk step, as the plan sees it: get_disk_name when `reuse`, create_disk otherwise; its ledger entry, whether it succeeds and the name. */
  method DiskStep(api: Api, l: Ledger, w: World, config: DeployConfigs, imagePath: Path, reuse: bool) returns (r: Result<string>)
    modifies l, w`trace, w`azDisks, w`buckets, w`files, w`blobs, w`images, w`gcpDisks
    ensures l.calls == old(l.calls) + [DiskSteps(api, config, imagePath, reuse)[1]]
    ensures r.Ok? <==> reuse || old(DiskMade(api, w, config, imagePath))
    ensures r.Ok? ==> r.value == DiskName(api, config, imagePath)
  {
    if reuse {
      var name := GetDiskNameOf(api, l, config, imagePath);
      r := Ok(name);
    } else {
      r := CreateDiskOf(api, l, w, config, imagePath);
    }
  }

  /** The disk steps: the check, then the name of the existing disk or of the newly created one. */
  method PrepareDisk(api: Api, l: Ledger, w: World, config: DeployConfigs, imagePath: Path)
    returns (r: Result<string>, ghost done: nat)
    requires imagePath in w.files
    modifies l, w`trace, w`azDisks, w`buckets, w`files, w`blobs, w`images, w`gcpDisks
    ensures 1 <= done <= 2
    ensures l.calls == old(l.calls) + DiskSteps(api, config, imagePath, old(DiskAnswer(api, w, config, imagePath)) == Ok(true))[..done]
    ensures old(DiskAnswer(api, w, config, imagePath)).Err? <==> done == 1
    ensures old(DiskAnswer(api, w, config, imagePath)).Err? ==> r == Err(old(DiskAnswer(api, w, config, imagePath)).error)
    ensures r.Err? && done == 2 ==> old(DiskAnswer(api, w, config, imagePath)) == Ok(false)
    ensures old(DiskAnswer(api, w, config, imagePath)) == Ok(false) ==> (r.Ok? <==> old(DiskMade(api, w, config, imagePath)))
    ensures r.Ok? ==> done == 2 && r.value == DiskName(api, config, imagePath)
  {
    ghost var answer := DiskAnswer(api, w, config, imagePath);
    ghost var made := DiskMade(api, w, config, imagePath);
    ghost var steps := DiskSteps(api, config, imagePath, answer == Ok(true));
    ghost var calls0 := l.calls;
    var present := DiskCheckStep(api, l, w, config, imagePath);
    ghost var calls1 := l.calls;
    if present.Err? {
      r, done := Err(present.error), 1;
    } else {
      r := DiskStep(api, l, w, config, imagePath, present.value);
      done := 2;
    }
    DiskPrepared(api, config, imagePath, calls0, calls1, l.calls, answer, made, r, done);
  }

  /** What the disk steps leave behind, stated on the snapshots PrepareDisk takes. */
  lemma DiskPrepared(api: Api, config: DeployConfigs, imagePath: Path, calls0: seq<(Api, Operation)>,
                     calls1: seq<(Api, Operation)>, calls: seq<(Api, Operation)>, answer: Result<bool>, made: bool,
                     r: Result<string>, done: nat)
    requires calls1 == calls0 + [(api, DiskExists(config, imagePath))]
    requires answer.Err? ==> done == 1 && calls == calls1 && r == Err(answer.error)
    requires answer.Ok? ==> done == 2 && calls == calls1 + [DiskSteps(api, config, imagePath, answer.value)[1]]
    requires answer.Ok? ==> (r.Ok? <==> answer.value || made)
    requires r.Ok? ==> r.value == DiskName(api, config, imagePath)
    ensures 1 <= done <= 2
    ensures calls == calls0 + DiskSteps(api, config, imagePath, answer == Ok(true))[..done]
    ensures answer.Err? <==> done == 1
    ensures answer.Err? ==> r == Err(answer.error)
    ensures r.Err? && done == 2 ==> answer == Ok(false)
    ensures answer == Ok(false) ==> (r.Ok? <==> made)
    ensures r.Ok? ==> done == 2 && r.value == DiskName(api, config, imagePath)
  {
    var steps := DiskSteps(api, config, imagePath, answer == Ok(true));
    assert steps[..1] == [(api, DiskExists(config, imagePath))];
    if answer.Ok? {
      StepTaken(calls0, steps, 1, calls);
    }
  }

  /** How many of upload, security group, standard rules and VM run: up to the first that fails. */
  ghost function BuildMade(api: Api, w: World, config: DeployConfigs, imagePath: Path): (made: nat)
    ensures 1 <= made <= 4
    ensures api.GcpApi? ==> made == 4
  {
    if !UploadSucceeds(api, w, config, imagePath) then 1
    else if !NsgSucceeds(api, w, config) then 2
    else if !RulesSucceed(api, w, config) then 3
    else 4
  }

  /** How many of the steps after the disk ones run: the build steps, then the address lookup if the VM was made. */
  ghost function FinishMade(api: Api, w: World, config: DeployConfigs, imagePath: Path, ipName: string, diskName: string)
    : (made: nat)
    reads w`addresses
    ensures 1 <= made <= 5
    ensures api.GcpApi? ==> 4 <= made
  {
    if BuildMade(api, w, config, imagePath) == 4 && VmSucceeds(api, w, config, ipName, diskName) then 5
    else BuildMade(api, w, config, imagePath)
  }

  /** Upload, security group and standard rules: the steps before the VM. */
  method BuildNetwork(api: Api, l: Ledger, w: World, config: DeployConfigs, imagePath: Path, ipName: string, diskName: string)
    returns (r: Result<()>, ghost made: nat)
    modifies l, w`trace, w`granted, w`uploaded, w`nsgs, w`nsgRules, w`firewalls
    ensures 1 <= made <= 3
    ensures l.calls == old(l.calls) + FinishSteps(api, config, imagePath, ipName, diskName)[..made]
    ensures r.Ok? <==> BuildMade(api, w, config, imagePath) == 4
    ensures r.Ok? ==> made == 3
    ensures r.Err? ==> made == BuildMade(api, w, config, imagePath)
  {
    ghost var steps := FinishSteps(api, config, imagePath, ipName, diskName);
    ghost var calls0 := l.calls;
    ghost var built := BuildMade(api, w, config, imagePath);
    var uploaded := UploadDiskOf(api, l, w, config, imagePath);
    made := 1;
    assert l.calls == calls0 + steps[..1];
    if uploaded.Err? {
      assert built == 1;
      return Err(uploaded.error), made;
    }
    var nsg := CreateNsgOf(api, l, w, config);
    made := 2;
    StepTaken(calls0, steps, 1, l.calls);
    if nsg.Err? {
      assert built == 2;
      return Err(nsg.error), made;
    }
    r := CreateStandardNsgRulesOf(api, l, w, config);
    made := 3;
    StepTaken(calls0, steps, 2, l.calls);
  }

  /** Upload, security group, standard rules and the VM on the prepared disk. */
  method BuildVm(api: Api, l: Ledger, w: World, config: DeployConfigs, imagePath: Path, ipName: string, diskName: string)
    returns (r: Result<()>, ghost made: nat)
    requires w.Valid()
    modifies l, w`temps, w`nextTemp, w`trace, w`granted, w`uploaded, w`nsgs, w`nsgRules, w`firewalls, w`azVms, w`instances
    ensures w.Valid() && w.temps == old(w.temps)
    ensures 1 <= made <= 4
    ensures l.calls == old(l.calls) + FinishSteps(api, config, imagePath, ipName, diskName)[..made]
    ensures r.Ok? ==> made == 4 && VmBootsFrom(api, w, config.vm.resourceGroup, config.vm.name, config.vm.Location(), diskName)
    ensures made < 4 ==> r.Err?
    ensures api.GcpApi? ==> made == 4
    ensures made == BuildMade(api, w, config, imagePath)
    ensures r.Ok? <==> made == 4 && VmSucceeds(api, w, config, ipName, diskName)
  {
    ghost var steps := FinishSteps(api, config, imagePath, ipName, diskName);
    ghost var calls0 := l.calls;
    ghost var vmMade := VmSucceeds(api, w, config, ipName, diskName);
    var network;
    network, made := BuildNetwork(api, l, w, config, imagePath, ipName, diskName);
    if network.Err? {
      return Err(network.error), made;
    }
    assert VmSucceeds(api, w, config, ipName, diskName) == vmMade;
    r := CreateVmOf(api, l, w, config, imagePath, ipName, diskName);
    made := 4;
    StepTaken(calls0, steps, 3, l.calls);
  }

  /** The steps after the disk ones: the VM built on the prepared disk, then its address. */
  method FinishPlan(api: Api, l: Ledger, w: World, config: DeployConfigs, imagePath: Path, ipName: string, diskName: string)
    returns (r: Result<Json>, ghost made: nat)
    requires w.Valid()
    modifies l, w`temps, w`nextTemp, w`trace, w`granted, w`uploaded, w`nsgs, w`nsgRules, w`firewalls, w`azVms, w`instances
    ensures w.Valid() && w.temps == old(w.temps)
    ensures 1 <= made <= 5
    ensures l.calls == old(l.calls) + FinishSteps(api, config, imagePath, ipName, diskName)[..made]
    ensures made < 5 ==> r.Err?
    ensures api.GcpApi? ==> 4 <= made
    ensures made == 5 ==> r == VmIpAnswer(api, w, config.vm.name, config.vm.resourceGroup, config.vm.Location())
    ensures made == FinishMade(api, w, config, imagePath, ipName, diskName)
    ensures r.Ok? ==>
      && made == 5
      && r == VmIpAnswer(api, w, config.vm.name, config.vm.resourceGroup, config.vm.Location())
      && VmBootsFrom(api, w, config.vm.resourceGroup, config.vm.name, config.vm.Location(), diskName)
  {
    ghost var steps := FinishSteps(api, config, imagePath, ipName, diskName);
    ghost var calls0 := l.calls;
    var vm;
    vm, made := BuildVm(api, l, w, config, imagePath, ipName, diskName);
    if vm.Err? {
      return Err(vm.error), made;
    }
    r := GetVmIpOf(api, l, w, config.vm.name, config.vm.resourceGroup, config.vm.Location());
    made := 5;
    StepTaken(calls0, steps, 4, l.calls);
  }

  /** deploy_image once the image is known to exist: the plan in order, stopping at the first failure. */
  method RunPlan(api: Api, l: Ledger, w: World, imagePath: Path, config: DeployConfigs, ipName: string)
    returns (r: Result<Json>, ghost done: nat)
    requires w.Valid() && imagePath in w.files
    modifies l, w`temps, w`nextTemp, w`trace, w`azDisks, w`buckets, w`files, w`blobs, w`images, w`gcpDisks, w`granted, w`uploaded,
             w`nsgs, w`nsgRules, w`firewalls, w`azVms, w`instances
    ensures w.Valid() && w.temps == old(w.temps)
    ensures RanDeployImage(api, old(l.calls), l.calls, old(w.files), old(DiskAnswer(api, w, config, imagePath)),
                           config, imagePath, ipName, done, r.Ok?)
    ensures old(DiskAnswer(api, w, config, imagePath)).Err? ==> r == Err(old(DiskAnswer(api, w, config, imagePath)).error)
    ensures done == 7 ==> r == VmIpAnswer(api, w, config.vm.name, config.vm.resourceGroup, config.vm.Location())
    ensures done == 2 <==> old(DiskAnswer(api, w, config, imagePath)) == Ok(false) && !old(DiskMade(api, w, config, imagePath))
    ensures 2 < done ==> done == 2 + FinishMade(api, w, config, imagePath, ipName, DiskName(api, config, imagePath))
    ensures r.Ok? ==>
      && r == VmIpAnswer(api, w, config.vm.name, config.vm.resourceGroup, config.vm.Location())
      && VmBootsFrom(api, w, config.vm.resourceGroup, config.vm.name, config.vm.Location(), DiskName(api, config, imagePath))
  {
    ghost var answer := DiskAnswer(api, w, config, imagePath);
    ghost var files := w.files;
    ghost var calls0 := l.calls;
    var disk;
    disk, done := PrepareDisk(api, l, w, config, imagePath);
    if disk.Err? {
      r := Err(disk.error);
      StoppedAtDisk(api, calls0, l.calls, files, answer, config, imagePath, ipName, done);
    } else {
      ghost var calls2 := l.calls;
      ghost var made;
      r, made := FinishPlan(api, l, w, config, imagePath, ipName, disk.value);
      RanAfterDisk(api, calls0, calls2, l.calls, files, answer, config, imagePath, ipName, done, disk.value, made, r.Ok?);
      done := 2 + made;
    }
  }

  /** A run that stops at the disk steps. */
  lemma StoppedAtDisk(api: Api, calls0: seq<(Api, Operation)>, calls1: seq<(Api, Operation)>,
                      files: map<Path, nat>, answer: Result<bool>,
                      config: DeployConfigs, imagePath: Path, ipName: string, done: nat)
    requires imagePath in files && 1 <= done <= 2
    requires calls1 == calls0 + DiskSteps(api, config, imagePath, answer == Ok(true))[..done]
    requires answer.Err? <==> done == 1
    requires done == 2 ==> answer == Ok(false)
    ensures RanDeployImage(api, calls0, calls1, files, answer, config, imagePath, ipName, done, false)
  {
    PlanCut(api, config, imagePath, ipName, answer == Ok(true), done);
  }

  /** A run whose disk steps succeeded and whose later steps made `made` calls. */
  lemma RanAfterDisk(api: Api, calls0: seq<(Api, Operation)>, calls2: seq<(Api, Operation)>, calls1: seq<(Api, Operation)>,
                     files: map<Path, nat>, answer: Result<bool>,
                     config: DeployConfigs, imagePath: Path, ipName: string,
                     done: nat, diskName: string, made: nat, ok: bool)
    requires imagePath in files && 1 <= made <= 5
    requires done == 2 && (answer.Err? <==> done == 1) && diskName == DiskName(api, config, imagePath)
    requires calls2 == calls0 + DiskSteps(api, config, imagePath, answer == Ok(true))[..done]
    requires calls1 == calls2 + FinishSteps(api, config, imagePath, ipName, diskName)[..made]
    requires made < 5 ==> !ok
    requires api.GcpApi? ==> 4 <= made
    ensures RanDeployImage(api, calls0, calls1, files, answer, config, imagePath, ipName, 2 + made, ok)
  {
    var diskSteps := DiskSteps(api, config, imagePath, answer == Ok(true));
    var finishSteps := FinishSteps(api, config, imagePath, ipName, DiskName(api, config, imagePath));
    assert diskSteps[..2] == diskSteps;
    AppendAssoc(calls0, diskSteps, finishSteps[..made]);
    PlanCut(api, config, imagePath, ipName, answer == Ok(true), 2 + made);
  }

  /**
   * deploy_image: a missing image raises FileNotFoundError before any
   * interface call; otherwise the plan of the configured provider's binding
   * runs, and the answer is the address get_vm_ip reports for a VM that
   * boots from the disk get_disk_name names.
   */
  method DeployImage(l: Ledger, w: World, imagePath: Path, config: DeployConfigs, ipName: string)
    returns (r: Result<Json>, ghost done: nat)
    requires w.Valid()
    modifies l, w`temps, w`nextTemp, w`trace, w`azDisks, w`buckets, w`files, w`blobs, w`images, w`gcpDisks, w`granted, w`uploaded,
             w`nsgs, w`nsgRules, w`firewalls, w`azVms, w`instances
    ensures w.Valid() && w.temps == old(w.temps)
    ensures imagePath !in old(w.files) ==> r == Err(FileNotFoundError) && w.trace == old(w.trace)
    ensures RanDeployImage(BindingFor(config.vm.cloud), old(l.calls), l.calls, old(w.files),
                           old(DiskAnswer(BindingFor(config.vm.cloud), w, config, imagePath)),
                           config, imagePath, ipName, done, r.Ok?)
    ensures imagePath in old(w.files) && old(DiskAnswer(BindingFor(config.vm.cloud), w, config, imagePath)).Err? ==>
      r == Err(old(DiskAnswer(BindingFor(config.vm.cloud), w, config, imagePath)).error)
    ensures imagePath in old(w.files) && done == 7 ==>
      r == VmIpAnswer(BindingFor(config.vm.cloud), w, config.vm.name, config.vm.resourceGroup, config.vm.Location())
    ensures imagePath in old(w.files) ==>
      var api := BindingFor(config.vm.cloud);
      (done == 2 <==> old(DiskAnswer(api, w, config, imagePath)) == Ok(false) && !old(DiskMade(api, w, config, imagePath)))
    ensures imagePath in old(w.files) && 2 < done ==>
      var api := BindingFor(config.vm.cloud);
      done == 2 + FinishMade(api, w, config, imagePath, ipName, DiskName(api, config, imagePath))
    ensures r.Ok? ==>
      var api := BindingFor(config.vm.cloud);
      && r == VmIpAnswer(api, w, config.vm.name, config.vm.resourceGroup, config.vm.Location())
      && VmBootsFrom(api, w, config.vm.resourceGroup, config.vm.name, config.vm.Location(), DiskName(api, config, imagePath))
  {
    var api := BindingFor(config.vm.cloud);
    if imagePath !in w.files {
      return Err(FileNotFoundError), 0;
    }
    r, done := RunPlan(api, l, w, imagePath, config, ipName);
  }

  // ---------------------------------------------------------------------
  // Recording a deployment.

  /** What a finished deployment reports: its configuration, the artifact deployed and the VM's address. */
  datatype DeployOutput = DeployOutput(config: DeployConfigs, artifact: string, publicIp: Json, home: string)

  /** The record update_deploy_metadata files under the VM's name. */
  function DeployRecord(out: DeployOutput): Json {
    JObj([("artifact", JStr(out.artifact)),
          ("public_ip", out.publicIp),
          ("domain", out.config.domain.ToDict()),
          ("vm", out.config.vm.ToDict())])
  }

  /**
   * delete_vm reads back what the deployment recorded: the binding of the
   * configured cloud, the VM's resource group and region, and the artifact.
   */
  lemma {:induction false} RecordReadBack(out: DeployOutput)
    ensures RecordTarget(DeployRecord(out))
      == Ok(Target(BindingFor(out.config.vm.cloud), JStr(out.config.vm.resourceGroup), JStr(out.config.vm.region), out.artifact))
  {
    var vm := out.config.vm;
    RecordKeys(JStr(out.artifact), out.publicIp, out.config.domain.ToDict(), vm.ToDict());
    CloudConfig.ProviderValues(vm.cloud);
  }

  /** The artifact and the vm section of a deploy record are what was filed under those keys. */
  lemma RecordKeys(artifact: Json, publicIp: Json, domain: Json, vm: Json)
    ensures Lookup([("artifact", artifact), ("public_ip", publicIp), ("domain", domain), ("vm", vm)], "artifact") == Some(artifact)
    ensures Lookup([("artifact", artifact), ("public_ip", publicIp), ("domain", domain), ("vm", vm)], "vm") == Some(vm)
  {
    var last := [("vm", vm)];
    var tail := [("domain", domain)] + last;
    assert Lookup(last, "vm") == Some(vm);
    assert tail[1..] == last;
    assert Lookup(tail, "vm") == Some(vm);
    var mid := [("public_ip", publicIp)] + tail;
    assert mid[1..] == tail;
    assert Lookup(mid, "vm") == Some(vm);
    var fields := [("artifact", artifact)] + mid;
    assert fields[1..] == mid;
    assert Lookup(fields, "vm") == Some(vm);
    assert fields == [("artifact", artifact), ("public_ip", publicIp), ("domain", domain), ("vm", vm)];
  }

  /** The document update_deploy_metadata writes, for the stored one. */
  function RecordedDoc(docs: map<Path, Json>, out: DeployOutput): Result<Json> {
    var doc :- Metadata.Loaded(docs, out.home);
    Metadata.PutVm(doc, out.config.vm.cloud, out.config.vm.name, DeployRecord(out))
  }

  /** update_deploy_metadata as a caller that only files the record sees it: the document it writes, or no change. */
  method FileRecord(w: World, out: DeployOutput) returns (r: Result<()>)
    modifies w`docs, w`trace
    ensures r.Ok? <==> RecordedDoc(old(w.docs), out).Ok?
    ensures r.Ok? ==> Filed(old(w.docs), w.docs, out)
    ensures r.Err? ==> w.docs == old(w.docs)
  {
    r := UpdateDeployMetadata(w, out);
  }

  /** `docs1` is `docs0` with the metadata document replaced by the one holding the record of `out`. */
  ghost predicate Filed(docs0: map<Path, Json>, docs1: map<Path, Json>, out: DeployOutput) {
    && RecordedDoc(docs0, out).Ok?
    && docs1 == docs0[DeployMetadata(out.home) := RecordedDoc(docs0, out).value]
  }

  /**
   * update_deploy_metadata: files the record as resources[cloud][vm] and
   * writes the document back.  On a well-shaped document it succeeds, the
   * record can be read back, and no other VM's record and no other
   * top-level key changes.
   */
  method UpdateDeployMetadata(w: World, out: DeployOutput) returns (r: Result<()>)
    modifies w`docs, w`trace
    ensures RecordedDoc(old(w.docs), out).Err? ==>
      r == Err(RecordedDoc(old(w.docs), out).error) && w.docs == old(w.docs) && w.trace == old(w.trace)
    ensures RecordedDoc(old(w.docs), out).Ok? ==>
      && r.Ok?
      && w.docs == old(w.docs)[DeployMetadata(out.home) := RecordedDoc(old(w.docs), out).value]
      && w.trace == old(w.trace) + [WriteDoc(DeployMetadata(out.home))]
    ensures Metadata.Loaded(old(w.docs), out.home).Ok?
            && Metadata.PartitionShaped(Metadata.Loaded(old(w.docs), out.home).value, out.config.vm.cloud.Value()) ==>
      var doc, doc' := Metadata.Loaded(old(w.docs), out.home).value, Metadata.Loaded(w.docs, out.home).value;
      && r.Ok?
      && Metadata.Entry(doc', out.config.vm.cloud.Value(), out.config.vm.name) == Some(DeployRecord(out))
      && (forall c, v :: (c, v) != (out.config.vm.cloud.Value(), out.config.vm.name) && Metadata.Entry(doc, c, v).Some? ==>
            Metadata.Entry(doc', c, v) == Metadata.Entry(doc, c, v))
      && (forall k :: k != "resources" ==> Metadata.Section(doc', k) == Metadata.Section(doc, k))
  {
    var doc :- Metadata.LoadMetadata(w, out.home);
    var record := DeployRecord(out);
    if doc.JObj? && Metadata.PartitionShaped(doc, out.config.vm.cloud.Value()) {
      if Metadata.Section(doc, "resources").None? {
        Metadata.PutVmFresh(doc, out.config.vm.cloud, out.config.vm.name, record);
      } else {
        Metadata.PutVmEffect(doc, out.config.vm.cloud, out.config.vm.name, record);
      }
    }
    var updated :- Metadata.PutVm(doc, out.config.vm.cloud, out.config.vm.name, record);
    Metadata.WriteMetadata(w, updated, out.home);
    Metadata.LoadAfterWrite(old(w.docs), out.home, updated, out.home);
    return Ok(());
  }

  // ---------------------------------------------------------------------
  // The deployer.

  /** One deployment: its configuration, the image, the measurements file it wrote, and the proxy once started. */
  class Deployer {
    const config: DeployConfigs
    const imagePath: Path
    const ipName: string
    const home: string
    const showLogs: bool
    /** The temporary file holding the measurements, written when the deployer is made. */
    const measurementsFile: nat
    /** The address the proxy client was started for, once it has been. */
    var proxy: Option<Json>

    constructor (w: World, config: DeployConfigs, imagePath: Path, measurements: Json, ipName: string, home: string, showLogs: bool)
      requires w.Valid()
      modifies w`temps, w`nextTemp, w`trace
      ensures w.Valid()
      ensures this.config == config && this.imagePath == imagePath && this.ipName == ipName
      ensures this.home == home && this.showLogs == showLogs && proxy.None?
      ensures measurementsFile == old(w.nextTemp) && measurementsFile !in old(w.temps)
      ensures w.temps == old(w.temps)[measurementsFile := MeasurementsFile(JArr([measurements]))]
      ensures w.trace == old(w.trace) + [MakeTemp(measurementsFile)]
    {
      this.config := config;
      this.imagePath := imagePath;
      this.ipName := ipName;
      this.home := home;
      this.showLogs := showLogs;
      var h := w.MakeTempFile(MeasurementsFile(JArr([measurements])));
      measurementsFile := h;
      proxy := None;
    }

    /**
     * deploy: runs deploy_image; an address that is empty (falsy) raises
     * RuntimeError, and otherwise the output names the image file as the
     * artifact.
     */
    method Deploy(l: Ledger, w: World) returns (r: Result<DeployOutput>, ghost ip: Result<Json>, ghost done: nat)
      requires w.Valid()
      modifies l, w`temps, w`nextTemp, w`trace, w`azDisks, w`buckets, w`files, w`blobs, w`images, w`gcpDisks, w`granted, w`uploaded,
               w`nsgs, w`nsgRules, w`firewalls, w`azVms, w`instances
      ensures w.Valid() && w.temps == old(w.temps)
      ensures RanDeployImage(BindingFor(config.vm.cloud), old(l.calls), l.calls, old(w.files),
                             old(DiskAnswer(BindingFor(config.vm.cloud), w, config, imagePath)),
                             config, imagePath, ipName, done, ip.Ok?)
      ensures ip.Ok? ==> ip == VmIpAnswer(BindingFor(config.vm.cloud), w, config.vm.name, config.vm.resourceGroup, config.vm.Location())
      ensures ip.Err? ==> r == Err(ip.error)
      ensures ip.Ok? && !Truthy(ip.value) ==> r == Err(RuntimeError)
      ensures r.Ok? <==> ip.Ok? && Truthy(ip.value)
      ensures r.Ok? ==> r.value == DeployOutput(config, Name(imagePath), ip.value, home)
    {
      var publicIp;
      publicIp, done := DeployImage(l, w, imagePath, config, ipName);
      ip := publicIp;
      if publicIp.Err? {
        return Err(publicIp.error), ip, done;
      }
      if !Truthy(publicIp.value) {
        return Err(RuntimeError), ip, done;
      }
      r := Ok(DeployOutput(config, Name(imagePath), publicIp.value, home));
    }

    /** start_proxy_server: the proxy is recorded before it starts; a start that fails raises RuntimeError. */
    method StartProxyServer(w: World, publicIp: Json) returns (r: Result<()>)
      modifies this, w`trace
      ensures proxy == Some(publicIp)
      ensures w.trace == old(w.trace) + [ProxyStart(publicIp)]
      ensures r.Ok? <==> ProxyStart(publicIp) !in w.broken
      ensures r.Err? ==> r.error == RuntimeError
    {
      proxy := Some(publicIp);
      var ok := w.Attempt(ProxyStart(publicIp));
      if !ok {
        return Err(RuntimeError);
      }
      return Ok(());
    }

    /** cleanup: stops the proxy only when one was started, and removes the measurements file only while it exists. */
    method Cleanup(w: World)
      requires w.Valid()
      modifies w`temps, w`trace
      ensures w.Valid()
      ensures w.temps == old(w.temps) - {measurementsFile}
      ensures w.trace == old(w.trace)
        + (if proxy.Some? then [ProxyStop(proxy.value)] else [])
        + (if measurementsFile in old(w.temps) then [Unlink(measurementsFile)] else [])
    {
      if proxy.Some? {
        var _ := w.Attempt(ProxyStop(proxy.value));
      }
      if measurementsFile in w.temps {
        w.UnlinkTemp(measurementsFile);
      }
    }
  }
}
