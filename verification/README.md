# yocto deployment tool — a verified Dafny model

The yocto tool deploys confidential VMs, booted from reproducibly built disk
images, to Azure or to GCP. Through one cloud interface with two bindings it
reserves a public address, uploads the image as an OS disk, opens firewall
rules, boots the VM, registers the address in DNS and records the deployment
in a JSON metadata document kept under the user's home directory. It also
deletes VMs and built artifacts again, allocates persistent addresses for
numbered "genesis" nodes, and runs the nine-step "BOB" searcher pipeline.

This project models the tool's core and proves what that core promises.

- **Values.**
  - Configurations (`VmConfig`, `Domain`, `DeployConfig`, `Mode`, `Configs`, `DeploymentConfig`) are datatypes.
  - Their builders are functions that return a `Result`, so every `ValueError` the source raises is a value.
  - The `to_dict` serialisers produce `Json` values. `Json` is an ordered JSON tree, because the first-match search in `delete_vm` depends on key order.
  - `Paths` models `pathlib` paths as component lists.
  - `Text` models the `str` built-ins the source relies on (strip, split, lower, integer formatting and parsing), on ASCII.
- **The world.**
  - `Env.World` is a class holding what the tool changes: local files, the metadata documents, temporary files, standard input, Azure groups, addresses, DNS record sets, disks, security rules and VMs, and GCP addresses, images, disks, firewalls and instances.
  - Every CLI command or SDK request is appended to `trace`.
  - A request fails exactly when it is in the world's `broken` set, so every failure path can be reached.
  - Answers the tool cannot influence are functions fixed when the world is made: the address a cloud allocates, and the replies to Azure's address query.
- **The two bindings.**
  - `AzureApi` and `GcpApi` are modules of methods over the world. Each states the requests it makes, in order, its result, and what it changes in the world. Where a contract leaves part of the effect out, "## Left out" names it.
  - The abstract `CloudApi` class becomes `CloudApi.Api`, a tag naming a binding.
  - `Binding` holds one dispatching method per interface operation. Each one forwards, under `api.AzureApi?` and `api.GcpApi?`, the provider guarantees the orchestrators rely on. The full effect is stated on the provider method.
  - Each dispatching method also records the call, with its binding and arguments, in a `Binding.Ledger`. The orchestrators (`Deploy`, `GenesisDeploy`, `DeployBob`) are then proved against named step sequences in that ledger.
- **The metadata store.**
  - `Metadata` models the document as `resources[provider][vm]` and `artifacts[name]`.
  - It proves "nothing else changes" for every add and remove.

## Model

| member | source | states |
|---|---|---|
| Paths.ToStringRoundTrip | yocto/utils/paths.py:7-8 | a path rendered as text and parsed back is the same path |
| Paths.ComponentsOfJoin | yocto/utils/paths.py:7-8 | joining well-formed components with "/" and splitting again gives the components back |
| Paths.DivComponents | yocto/utils/paths.py:11-12 | `/` keeps components well formed; a relative part keeps the path's kind and extends its components, and an absolute part replaces the path |
| Paths.DivJoin | yocto/utils/paths.py:11-12 | `p / "a/b/c"` appends exactly the components a, b and c |
| Paths.NameOfChild | yocto/utils/paths.py:11-12 | the name of `dir / name` is `name` for a single component |
| Paths.ArtifactsLayout | yocto/utils/paths.py:10-16 | the artifacts directory is home/yocto-manifests/reproducible-build/artifacts |
| Paths.ArtifactsUnder | yocto/utils/paths.py:10-16 | every artifacts directory lies strictly below its home |
| Paths.DeployMetadataLayout | yocto/utils/paths.py:42-52 | the metadata file is home/deploy/deploy_metadata.json |
| Paths.ProxyClientLayout | yocto/utils/paths.py:54-56 | the proxy client is home/cvm-reverse-proxy/build/proxy-client |
| Paths.MetadataOutsideArtifacts | yocto/utils/paths.py:50-52 | the metadata file is never an artifact file, so deleting artifacts cannot remove it |
| Paths.DeployMetadataInjective | yocto/utils/paths.py:50-52 | different homes have different metadata files |
| Artifact.ExtractTimestamp | yocto/utils/artifact.py:13-28 | the result is the earliest run of 14 digits; ValueError exactly when there is none |
| Artifact.ParseArtifact | yocto/utils/artifact.py:48-58 | None or "" give None; a 14-digit argument gives its canonical artifact name; any other result is a canonical name or ValueError (ParseArtifactFirstRun says which) |
| Artifact.BareTimestampIsFirstRun | yocto/utils/artifact.py:52-54 | a bare 14-digit argument is its own first timestamp, so the shortcut agrees with the regex search |
| Artifact.ParseArtifactFirstRun | yocto/utils/artifact.py:48-58 | every non-empty argument parses to the canonical name built from its first 14-digit run, and raises ValueError exactly when it has none |
| Artifact.ExpectArtifact | yocto/utils/artifact.py:61-65 | ValueError for a missing or empty argument, otherwise the parsed name |
| Artifact.ExtractFromCanonical | yocto/utils/artifact.py:44-58 | the timestamp extracted from a canonical name is the one it was built from |
| Artifact.ParseArtifactIdempotent | yocto/utils/artifact.py:48-58 | parsing a parsed name returns it unchanged |
| Artifact.ScanPartition | yocto/utils/artifact.py:74-76 | the (vm, cloud) pairs of one partition whose record uses the artifact, in order |
| Artifact.ScanResourcesExact | yocto/utils/artifact.py:69-77 | on well-shaped records the scan lists exactly the (vm, cloud) pairs deployed from the artifact |
| Artifact.Decide | yocto/utils/artifact.py:68-93 | files are removed only when the operator agrees or nothing uses the artifact |
| Artifact.ScanPartitionAt | yocto/utils/artifact.py:74-76 | one record either fails the scan (its artifact field is unreadable) or contributes its hit ahead of the rest |
| Artifact.ScanPartitionLoop | yocto/utils/artifact.py:74-76 | the inner loop computes the one-partition scan |
| Artifact.ScanLoop | yocto/utils/artifact.py:72-76 | the nested loops compute the whole scan |
| Artifact.RemoveAll | yocto/utils/artifact.py:92-95 | every matching file is removed; the count is how many there were |
| Artifact.Guard | yocto/utils/artifact.py:69-88 | a refused warning leaves files and metadata unchanged |
| Artifact.Purge | yocto/utils/artifact.py:90-104 | the metadata entry goes only when at least one file was deleted |
| Artifact.DeleteArtifact | yocto/utils/artifact.py:68-104 | the whole deletion: guard, file removal, then metadata |
| Metadata.CloudResources | yocto/utils/metadata.py:69-81 | `{}` when `resources` or the partition is missing, else the partition |
| Metadata.RemoveVmEffect | yocto/utils/metadata.py:22-38 | removal drops exactly (cloud, name); other VMs, other partitions and artifacts stay; an absent name writes nothing |
| Metadata.RemoveArtifactEffect | yocto/utils/metadata.py:41-48 | removal drops exactly one `artifacts` entry, and nothing for an absent name |
| Metadata.ArtifactMeasurementsCases | yocto/utils/metadata.py:51-66 | ValueError for an unknown artifact, FileNotFoundError for a missing file, else (artifacts/artifact, record image) |
| Metadata.Loaded | yocto/utils/metadata.py:11-14 | loading a missing file raises FileNotFoundError |
| Metadata.LoadAfterWrite | yocto/utils/metadata.py:11-19 | loading after a write returns the written document |
| Metadata.LoadMetadata | yocto/utils/metadata.py:11-14 | reads the stored document and changes nothing |
| Metadata.WriteMetadata | yocto/utils/metadata.py:17-19 | the file now holds the document; nothing else changes |
| Metadata.RemoveVmFromMetadata | yocto/utils/metadata.py:22-38 | stores the VM removal, or writes nothing when the VM is absent |
| Metadata.RemoveArtifactFromMetadata | yocto/utils/metadata.py:41-48 | stores the artifact removal, or writes nothing when the artifact is absent |
| Metadata.LoadArtifactMeasurements | yocto/utils/metadata.py:51-66 | the lookup on the stored document |
| Metadata.GetCloudResources | yocto/utils/metadata.py:69-81 | the partition lookup on the stored document |
| Metadata.PutVmFresh | yocto/deployment/deploy.py:98-113 | without `resources`, both provider partitions appear and only the new entry is filled |
| Metadata.PutVmEffect | yocto/deployment/deploy.py:98-113 | resources[cloud][vm] becomes the record, a missing partition is created, and every other entry and top-level key stays |
| Mode.Mode.ToDict | yocto/config/mode.py:45-52 | `build` and `deploy` always appear; `delete` appears exactly when a delete is set |
| Mode.Mode.DeleteDict | yocto/config/mode.py:46-51 | `vm` and `artifact` appear exactly when set |
| Mode.DeployOnly | yocto/config/mode.py:36-43 | deploy only: build off, no deletes |
| Mode.FromArgs | yocto/config/mode.py:16-34 | ValueError exactly when build, deploy and both deletes are all unset; the artifact to delete is parsed |
| Mode.ParsedArtifactGiven | yocto/config/mode.py:22 | a parsed delete-artifact argument is set exactly when the argument was, and is then a canonical name built from a 14-digit timestamp |
| Configs.Configs.ToDict | yocto/config/configs.py:44-54 | `build` and `deploy` appear exactly when present; `mode` and `show_logs` always appear |
| Configs.HomeDir | yocto/config/configs.py:33-35 | the home is the user's home, or home/code_path when code_path is non-empty |
| Configs.DeploySection | yocto/config/configs.py:26 | the deploy section is None exactly when deploy is off |
| Configs.Parse | yocto/config/configs.py:22-42 | build and deploy follow their flags; the artifact guard can never fire, because the deploy section already requires an artifact |
| DeployConfig.DeployConfigs.ToDict | yocto/config/deploy_config.py:33-44 | `artifact` appears exactly when non-empty; the VM and domain sections are nested |
| DeployConfig.FromArgs | yocto/config/deploy_config.py:22-31 | the artifact is normalised by expect_artifact, and its errors propagate |
| Domain.DomainConfig.ToDict | yocto/config/domain_config.py:27-33 | exactly the keys url, record, name and resource_group; each holds the configuration's own value, and url is https://<record>.<name> |
| Domain.FromArgs | yocto/config/domain_config.py:14-25 | ValueError for an empty record, otherwise the fields are copied unchanged |
| Domain.UrlParts | yocto/config/domain_config.py:28 | the URL is "https://" + record + "." + name |
| VmConfig.VmConfigs.ToDict | yocto/config/vm_config.py:59-67 | exactly six keys, in the source's order; resourceGroup, name, nsgName, region and size hold the configuration's own values, and `cloud` holds the provider's string value |
| VmConfig.DictKeys | yocto/config/vm_config.py:59-67 | the six keys to_dict writes, in order, are distinct |
| VmConfig.FromArgs | yocto/config/vm_config.py:27-57 | ValueError without a cloud or for an invalid final region; defaults fill unset fields; name, security group and resource group coincide |
| DeploymentConfig.GenesisVmPrefix | yocto/config/deployment_config.py:29-43 | az-genesis and gcp-genesis: the record prefix followed by "-genesis" |
| DeploymentConfig.ToConfigs | yocto/config/deployment_config.py:77-102 | deploy-only mode, no build, and the VM and domain fields copied verbatim |
| DeploymentConfig.ParseBaseKwargs | yocto/config/deployment_config.py:104-144 | ValueError without a cloud; empty region, group or size fall back to the provider defaults; the region is not validated |
| DeploymentConfig.ParseDeployArgs | yocto/config/deployment_config.py:146-158 | ValueError for a missing or non-positive node; otherwise yocto-node-n and node-n, with the security group named like the VM |
| DeploymentConfig.ConfigureGenesisNode | yocto/config/deployment_config.py:160-194 | ValueError for node < 1; a given manual name replaces the VM name; the record is prefix-node |
| DeploymentConfig.FromDeployArgs | yocto/config/deployment_config.py:196-201 | node-specific keys override the shared ones |
| DeploymentConfig.FromGenesisArgs | yocto/config/deployment_config.py:203-215 | node-specific keys override the shared ones |
| DeploymentConfig.DeployedNodeConfigs | yocto/config/deployment_config.py:146-158 | a numbered node serialises with its artifact and is named after its number |
| DeploymentConfig.NodeNamesDistinct | yocto/config/deployment_config.py:146-158 | distinct nodes get distinct VM names and DNS records |
| DeploymentConfig.GenesisRecordsDistinct | yocto/config/deployment_config.py:160-194 | two genesis records are equal only for the same provider and node |
| CloudConfig.FromValue | yocto/cloud/cloud_config.py:36-40 | "azure" and "gcp" name the two providers, and any other value raises ValueError |
| CloudConfig.ProviderValues | yocto/cloud/cloud_config.py:36-40 | each provider's value parses back to it |
| CloudConfig.ValidateRegion | yocto/cloud/cloud_config.py:55-70 | dispatches to the Azure or the GCP validator |
| CloudConfig.GetDefaultRegion | yocto/cloud/cloud_config.py:73-87 | Azure's default region, and GCP's default zone (not its region) |
| CloudConfig.GetDefaultResourceGroup | yocto/cloud/cloud_config.py:90-104 | each provider's own default group or project |
| CloudConfig.GetDefaultVmSize | yocto/cloud/cloud_config.py:107-121 | each provider's own default VM size |
| CloudConfig.DefaultRegionValidates | yocto/cloud/cloud_config.py:73-87 | the default region always validates |
| CloudConfig.DefaultsDiffer | yocto/cloud/cloud_config.py:73-121 | the two providers' defaults differ |
| AzureDefaults.ValidateRegion | yocto/cloud/azure/defaults.py:33-48 | ValueError exactly when the region is not eastus, westus3 or westeurope |
| AzureDefaults.DefaultRegionIsValid | yocto/cloud/azure/defaults.py:17-30 | the default region eastus is valid |
| GcpDefaults.ValidateRegion | yocto/cloud/gcp/defaults.py:42-55 | ValueError exactly when the zone is not one of the two valid zones |
| GcpDefaults.DefaultZoneAndRegion | yocto/cloud/gcp/defaults.py:20-39 | the default zone is valid; the default region prefixes it and is not itself valid; both consensus ports are 18551 |
| CloudApi.Api.Provider | yocto/cloud/cloud_api.py:24-28 | each binding serves its own provider |
| CloudApi.GetRawDiskName | yocto/cloud/cloud_api.py:137-145 | exactly vm + "_" + artifact |
| CloudApi.RawDiskNameInjective | yocto/cloud/cloud_api.py:137-145 | for one VM, different artifacts give different raw names |
| CloudApi.RunCommand | yocto/cloud/cloud_api.py:30-47 | the completed process on exit code 0, CalledProcessError otherwise |
| CloudFactory.GetCloudApi | yocto/cloud/cloud_factory.py:15-29 | the Azure binding for "azure", the GCP binding for "gcp", ValueError otherwise |
| CloudFactory.GetCloudApiRoundTrip | yocto/cloud/cloud_factory.py:24-27 | the binding selected for a provider serves that provider |
| CloudFactory.ProviderRoundTrip | yocto/cloud/cloud_factory.py:24-27 | each binding is selected by its own provider's value |
| CloudParser.ConfirmOutcome | yocto/cloud/cloud_parser.py:177-189 | True when the stripped, lower-cased answer is "y", ValueError otherwise (EOFError on empty input) |
| CloudParser.Confirm | yocto/cloud/cloud_parser.py:177-189 | asks once, consumes one line and answers as ConfirmOutcome says |
| CloudParser.AcceptsLowered | yocto/cloud/cloud_parser.py:186-187 | "Y" and surrounding blanks are accepted too |
| CloudParser.AcceptsExactly | yocto/cloud/cloud_parser.py:186-187 | only answers that strip and lower-case to "y" are accepted |
| CloudParser.ConfirmQuestion | yocto/cloud/cloud_parser.py:186 | the question wording put to the operator |
| AzureApi.ProbesOutcome | yocto/cloud/azure/api.py:36-47 | the check passes exactly when every tool answers, and stops at the first one that does not |
| AzureApi.CheckDependencies | yocto/cloud/azure/api.py:36-47 | probes az then azcopy, and raises RuntimeError at the first missing tool |
| AzureApi.ResourceGroupExists | yocto/cloud/azure/api.py:50-57 | true exactly when the group exists and the query does not fail |
| AzureApi.CreateResourceGroup | yocto/cloud/azure/api.py:60-64 | adds the group, or raises CalledProcessError and changes nothing |
| AzureApi.EnsureCreatedResourceGroup | yocto/cloud/azure/api.py:67-76 | an existing group is kept with no question; a missing one is created only after confirmation, and a refusal raises |
| AzureApi.CreatePublicIp | yocto/cloud/azure/api.py:79-109 | reserves the address and returns what the command printed, stripped |
| AzureApi.ExistingIp | yocto/cloud/azure/api.py:112-137 | None when the query fails or prints nothing or "None"; otherwise the stripped address |
| AzureApi.GetExistingPublicIp | yocto/cloud/azure/api.py:112-137 | answers as ExistingIp says, with one query |
| AzureApi.CreatedIpIsFound | yocto/cloud/azure/api.py:79-137 | an address just created is found by the next lookup |
| AzureApi.ParseDnsList | yocto/cloud/azure/api.py:161-163 | blank output is no addresses; otherwise one address per line |
| AzureApi.DnsListRoundTrip | yocto/cloud/azure/api.py:140-163 | parsing the listing of a record set gives back its addresses |
| AzureApi.GetExistingDnsIps | yocto/cloud/azure/api.py:140-163 | the parsed listing of the record set, or CalledProcessError |
| AzureApi.Drop | yocto/cloud/azure/api.py:166-189 | removes every copy of the address and keeps every other one |
| AzureApi.RemoveDnsIp | yocto/cloud/azure/api.py:166-189 | only this record set loses the address |
| AzureApi.AddDnsIp | yocto/cloud/azure/api.py:192-214 | only this record set gains the address, at the end |
| AzureApi.PurgedSurvivors | yocto/cloud/azure/api.py:224-228 | whatever survives the removals was stored before and was not a listed non-empty address |
| AzureApi.RemoveListedIps | yocto/cloud/azure/api.py:224-228 | the removal loop: each non-empty listed address in order; the commands stop at the first failure, and it succeeds exactly when every removal does |
| AzureApi.UpdateDnsRecord | yocto/cloud/azure/api.py:217-230 | with removal: list, remove each listed address, then add; without: only add; each failure ends the run, the commands are exactly those up to it, and success means every one succeeded; no other record set changes |
| AzureApi.PurgedSelf | yocto/cloud/azure/api.py:224-228 | removing every listed address from the listed set leaves nothing |
| AzureApi.DnsUpdateOutcome | yocto/cloud/azure/api.py:217-230 | with removal, {A, B} ends as {new} |
| AzureApi.DiskNamesAgree | yocto/cloud/azure/api.py:316-338 | the disk delete_disk removes is the one checked and created for an image exactly when the artifact is the image's file name |
| AzureApi.DiskExists | yocto/cloud/azure/api.py:242-253 | true exactly when the disk named as get_disk_name says is listed |
| AzureApi.CreateDisk | yocto/cloud/azure/api.py:256-290 | a missing image raises before any command; otherwise the disk sized from the file is created and its name returned |
| AzureApi.GrantDiskAccess | yocto/cloud/azure/api.py:293-313 | write access is granted to the image's disk |
| AzureApi.CopyDisk | yocto/cloud/azure/api.py:341-350 | the image is written onto the disk |
| AzureApi.RevokeDiskAccess | yocto/cloud/azure/api.py:353-367 | write access is taken back |
| AzureApi.CopyThenRevoke | yocto/cloud/azure/api.py:370-374 | the copy, then the revocation only after a successful copy; the image is on the disk exactly when the copy succeeded |
| AzureApi.UploadCalls | yocto/cloud/azure/api.py:370-374 | grant, copy and revoke, each made only after the previous one succeeded |
| AzureApi.UploadDisk | yocto/cloud/azure/api.py:370-374 | grant, copy, revoke in order; a failed copy leaves access granted; the image is on the disk exactly when the copy ran |
| AzureApi.DeleteDisk | yocto/cloud/azure/api.py:316-338 | removes the raw-named disk; the zone is ignored |
| AzureApi.CreateNsg | yocto/cloud/azure/api.py:377-392 | the security group is created |
| AzureApi.AddNsgRule | yocto/cloud/azure/api.py:395-428 | one Allow rule is appended to the group's rules |
| AzureApi.StandardRules | yocto/cloud/azure/api.py:431-465 | ten rules; only SSH, the first, is limited to the operator's address; the consensus rule allows any protocol |
| AzureApi.StandardPrioritiesDistinct | yocto/cloud/azure/api.py:433-465 | no two standard rules share a priority |
| AzureApi.RunCallsInOrder | yocto/cloud/azure/api.py:466-469 | the rule commands follow the table order |
| AzureApi.RunMadeInOrder | yocto/cloud/azure/api.py:466-469 | the created rules follow the table order |
| AzureApi.RunOutcome | yocto/cloud/azure/api.py:466-469 | every rule is created when no command fails; otherwise those before the first failure are created and the rest are never tried |
| AzureApi.RunStep | yocto/cloud/azure/api.py:466-469 | one loop step: the rule is tried, and the run continues only past a success |
| AzureApi.AddNsgRules | yocto/cloud/azure/api.py:466-469 | the loop creates the rules in order and stops at the first failure |
| AzureApi.CreateStandardNsgRules | yocto/cloud/azure/api.py:431-469 | the standard table is run through the loop |
| AzureApi.CreateDataDisk | yocto/cloud/azure/api.py:472-502 | an empty data disk is added |
| AzureApi.WithDataDisk | yocto/cloud/azure/api.py:505-536 | only the VM's data disk at that LUN changes |
| AzureApi.AttachDataDisk | yocto/cloud/azure/api.py:505-536 | the VM carries the disk at the LUN; the zone is ignored |
| AzureApi.CreateUserDataFile | yocto/cloud/azure/api.py:539-555 | a fresh temporary file with e-mail, record and domain |
| AzureApi.CreateVmSimple | yocto/cloud/azure/api.py:558-603 | a confidential VM in the given location, with no user data |
| AzureApi.CreateVm | yocto/cloud/azure/api.py:606-650 | the VM boots from the disk with the user data, and the temporary file is unlinked whether or not creation succeeded |
| AzureApi.Queries | yocto/cloud/azure/api.py:653-713 | between 1 and 10 queries are made |
| AzureApi.QueryCalls | yocto/cloud/azure/api.py:661-666 | the numbered address queries, in order |
| AzureApi.ReadReply | yocto/cloud/azure/api.py:667-711 | a failed command raises RuntimeError; empty info or a missing field retries, except on the last attempt |
| AzureApi.RetriesThenFound | yocto/cloud/azure/api.py:653-713 | a run of retry steps followed by a found step ends the loop with that address, after one query per step |
| AzureApi.FirstAddressWins | yocto/cloud/azure/api.py:653-713 | after "not yet" replies, the first reply carrying an address wins, after exactly that many queries |
| AzureApi.NeverReadyFails | yocto/cloud/azure/api.py:653-713 | ten "not yet" replies end in RuntimeError after exactly ten queries |
| AzureApi.VmIpStep | yocto/cloud/azure/api.py:660-711 | each attempt either decides the outcome or hands over to the next attempt |
| AzureApi.QueryCallsSnoc | yocto/cloud/azure/api.py:660-666 | each further query extends the queries made so far |
| AzureApi.GetVmIp | yocto/cloud/azure/api.py:653-713 | the retry loop returns the outcome the replies determine, after exactly that many queries |
| AzureApi.VmSection | yocto/cloud/azure/api.py:730-740 | None exactly when the VM is not in the `azure` partition; otherwise its `vm` section |
| AzureApi.RemoveVmRemnants | yocto/cloud/azure/api.py:778-782 | after the VM is gone: the disk, then the `azure` metadata entry |
| AzureApi.DeleteVmIn | yocto/cloud/azure/api.py:753-782 | a failed delete gives False with metadata untouched; otherwise the VM, then the disk, then the entry |
| AzureApi.DeleteListedVm | yocto/cloud/azure/api.py:740-782 | a refusal raises ValueError rather than returning False; a non-string group raises TypeError; otherwise the VM, the disk and the entry, as DeleteVmIn states |
| AzureApi.DeleteVm | yocto/cloud/azure/api.py:716-782 | an unreadable `azure` partition raises; a VM missing from it gives False with nothing done; a listed VM is deleted as DeleteListedVm states |
| GcpApi.HyphenateSeparators | yocto/cloud/gcp/api.py:85 | underscores and dots become hyphens, character by character |
| GcpApi.KeepNameChars | yocto/cloud/gcp/api.py:88 | only a-z, 0-9 and '-' survive, in order |
| GcpApi.StartWithLetter | yocto/cloud/gcp/api.py:91-92 | a non-empty result starts with a letter |
| GcpApi.Truncate | yocto/cloud/gcp/api.py:95-96 | at most n characters, a prefix of the input |
| GcpApi.RStripHyphens | yocto/cloud/gcp/api.py:99 | no trailing hyphen remains |
| GcpApi.Filtered | yocto/cloud/gcp/api.py:82-88 | what survives the filter holds only name characters |
| GcpApi.SanitizeGcpName | yocto/cloud/gcp/api.py:73-101 | only a-z, 0-9 and '-', at most 63 characters, never ending in '-', starting with a letter, and empty exactly when nothing survives the filter |
| GcpApi.SanitizeFixesGcpNames | yocto/cloud/gcp/api.py:73-101 | a name GCP already accepts is unchanged |
| GcpApi.SanitizeIdempotent | yocto/cloud/gcp/api.py:73-101 | sanitising twice is sanitising once |
| GcpApi.HyphenateLowerConcat | yocto/cloud/gcp/api.py:82-85 | lower-casing and hyphenating work piece by piece |
| GcpApi.LowerConcat | yocto/cloud/gcp/api.py:82 | lower-casing works piece by piece |
| GcpApi.HyphenateConcat | yocto/cloud/gcp/api.py:85 | hyphenating works piece by piece |
| GcpApi.DotAndUnderscoreCollide | yocto/cloud/gcp/api.py:85 | two artifacts differing only in '.' against '_' share one GCP disk name |
| GcpApi.ResourceGroupExists | yocto/cloud/gcp/api.py:428-435 | true exactly when the project can be fetched |
| GcpApi.CreateResourceGroup | yocto/cloud/gcp/api.py:438-449 | always raises RuntimeError |
| GcpApi.EnsureCreatedResourceGroup | yocto/cloud/gcp/api.py:452-460 | only looks the project up; never asks and never fails |
| GcpApi.ExistingAddress | yocto/cloud/gcp/api.py:495-510 | None when the lookup fails or the address is empty, otherwise the address |
| GcpApi.GetExistingPublicIp | yocto/cloud/gcp/api.py:495-510 | answers as ExistingAddress says, in the default region |
| GcpApi.CreatePublicIp | yocto/cloud/gcp/api.py:463-492 | reserves the address in the default region, ignoring the location, and reads back what was allocated |
| GcpApi.CreatedAddressIsFound | yocto/cloud/gcp/api.py:463-510 | a reserved non-empty address is found by the next lookup |
| GcpApi.GetDiskName | yocto/cloud/gcp/api.py:544-551 | the sanitised raw name, a name GCP accepts |
| GcpApi.DiskNamesAgree | yocto/cloud/gcp/api.py:544-569 | the disk checked and created for an image is the one deleted for its file name |
| GcpApi.DiskExists | yocto/cloud/gcp/api.py:554-569 | true exactly when the disk can be fetched |
| GcpApi.ImageName | yocto/cloud/gcp/api.py:572-627 | the image name is one GCP accepts |
| GcpApi.UploadedBlobIsName | yocto/cloud/gcp/api.py:202-212 | the object name is the uploaded file's name: the `.tar.gz` archive's for a VHD, else the image's |
| GcpApi.EnsureBucket | yocto/cloud/gcp/api.py:192-200 | get_bucket, and create_bucket in the default region only when that fails; it raises exactly when both fail |
| GcpApi.ConvertVhdToTarGz | yocto/cloud/gcp/api.py:104-173 | qemu-img then tar, each failure (a missing VHD included) raising RuntimeError; on success the archive lies beside the VHD |
| GcpApi.PutObject | yocto/cloud/gcp/api.py:202-227 | a VHD is converted first; a missing file raises RuntimeError for a VHD and FileNotFoundError otherwise; the requests are the conversion steps up to the first that fails, then the upload; success exactly when conversion and upload succeed, adding one object |
| GcpApi.UploadToGcs | yocto/cloud/gcp/api.py:176-227 | the bucket request (and its creation when missing) comes first, and a bucket failure raises ApiError; then exactly PutObject's requests, so a missing file raises only after the bucket request |
| GcpApi.CreateImageFromGcs | yocto/cloud/gcp/api.py:230-389 | an existing image is kept; otherwise it is created from the staged object |
| GcpApi.CreateDiskFromImage | yocto/cloud/gcp/api.py:392-416 | the disk is created from the image |
| GcpApi.StageImageAsDisk | yocto/cloud/gcp/api.py:572-627 | upload, image, then disk: the requests are the upload's, then the image's, then the disk insert, ending at the first failure; success exactly when the upload, the image and the disk insert all succeed; a missing file raises after the bucket request, with no image or disk made |
| GcpApi.CreateDisk | yocto/cloud/gcp/api.py:572-627 | returns get_disk_name's name, with its image and that disk now present; its requests are StageImageAsDisk's, and it succeeds exactly when they all do; a missing file raises after the bucket request, with no image or disk made |
| GcpApi.DeleteDisk | yocto/cloud/gcp/api.py:630-657 | removes the disk under the sanitised raw name |
| GcpApi.UploadDisk | yocto/cloud/gcp/api.py:660-664 | does nothing: create_disk already uploaded |
| GcpApi.CreateNsg | yocto/cloud/gcp/api.py:667-671 | does nothing: GCP has no security groups |
| GcpApi.FirewallFor | yocto/cloud/gcp/api.py:684-710 | ValueError exactly when the priority does not parse |
| GcpApi.FirewallShape | yocto/cloud/gcp/api.py:684-710 | name vm-lower(name); `*`/all become "all" with no ports; a source of `*` becomes 0.0.0.0/0; the target tag is the VM |
| GcpApi.LowerIdempotent | yocto/cloud/gcp/api.py:684-685 | lower-casing twice is lower-casing once |
| GcpApi.FirewallIgnoresCase | yocto/cloud/gcp/api.py:684-685 | a rule and its lower-cased twin build the same firewall |
| GcpApi.BuildIgnoresCase | yocto/cloud/gcp/api.py:684-710 | the same for a parsed priority |
| GcpApi.InsertCalls | yocto/cloud/gcp/api.py:712-716 | one insert request per firewall, in order |
| GcpApi.InstallAllKeeps | yocto/cloud/gcp/api.py:712-719 | inserting never replaces or removes an existing rule |
| GcpApi.InstallAllInstalls | yocto/cloud/gcp/api.py:712-719 | distinct new firewalls whose inserts succeed are all installed as built |
| GcpApi.AddNsgRule | yocto/cloud/gcp/api.py:674-719 | builds and inserts the firewall; a failed insert is only logged, and only a bad priority raises |
| GcpApi.Attempts | yocto/cloud/gcp/api.py:758-760 | each rule of the table, built in order |
| GcpApi.BuiltOutcome | yocto/cloud/gcp/api.py:758-760 | the walk keeps every rule when all build, else stops just before the first that does not |
| GcpApi.BuildStep | yocto/cloud/gcp/api.py:758-760 | one step of the walk |
| GcpApi.InsertCallsCons | yocto/cloud/gcp/api.py:758-760 | requests for a longer table extend the shorter one's |
| GcpApi.AddNsgRules | yocto/cloud/gcp/api.py:758-760 | the loop inserts in order; a bad priority stops it with ValueError, a failed insert does not |
| GcpApi.StandardRules | yocto/cloud/gcp/api.py:722-756 | ten rules, the Azure table's with protocols in lower case: SSH first and limited to the operator's address, every other rule open to any source, the consensus port open to all protocols, and no two rules share a priority |
| GcpApi.BuildIgnoresProtocolSpelling | yocto/cloud/gcp/api.py:685-705 | protocol spellings that lower-case alike build the same firewall |
| GcpApi.FirewallIgnoresProtocolSpelling | yocto/cloud/gcp/api.py:685-705 | the same, priority included |
| GcpApi.StandardRulesAgree | yocto/cloud/gcp/api.py:722-760 | each rule of the GCP table builds the firewall its Azure counterpart would |
| GcpApi.StandardRulesBuild | yocto/cloud/gcp/api.py:722-760 | every standard priority parses |
| GcpApi.CreateStandardNsgRules | yocto/cloud/gcp/api.py:722-760 | never raises and inserts the ten firewalls in order |
| GcpApi.CreateDataDisk | yocto/cloud/gcp/api.py:763-797 | an empty disk in the zone |
| GcpApi.AttachDataDisk | yocto/cloud/gcp/api.py:800-833 | the instance gains the disk; the LUN is unused |
| GcpApi.InstanceIp | yocto/cloud/gcp/api.py:1080-1092 | the first NAT address; ValueError when the interface, the access config or the address is missing |
| GcpApi.BootedIp | yocto/cloud/gcp/api.py:855-1092 | a created VM answers with its reserved address, else with the ephemeral one |
| GcpApi.ReservedIp | yocto/cloud/gcp/api.py:855-948 | the reserved address when the name resolves, else "" (ephemeral) |
| GcpApi.ReservedNatIp | yocto/cloud/gcp/api.py:855-948 | looks the reserved address up only when a name is given |
| GcpApi.InsertInstance | yocto/cloud/gcp/api.py:855-948 | the instance GCP stores, with an ephemeral address filled in |
| GcpApi.CreateVmSimple | yocto/cloud/gcp/api.py:855-948 | a confidential VM in the zone, tagged for its firewall rules, with no user data |
| GcpApi.CreateVm | yocto/cloud/gcp/api.py:951-1067 | as create_vm_simple with user data; the temporary file is unlinked either way |
| GcpApi.GetVmIp | yocto/cloud/gcp/api.py:1070-1092 | one fetch with no retry; a failed fetch raises |
| GcpApi.VmSection | yocto/cloud/gcp/api.py:1107-1117 | the project and zone of the VM's `gcp` record, or None |
| GcpApi.RemoveVmRemnants | yocto/cloud/gcp/api.py:1141-1144 | the disk, then the `gcp` metadata entry |
| GcpApi.DeleteVmIn | yocto/cloud/gcp/api.py:1124-1144 | a failed deletion gives False with metadata untouched |
| GcpApi.DeleteListedVm | yocto/cloud/gcp/api.py:1115-1144 | a refusal raises; a non-string project or zone gives False; then the VM, the disk and the entry, in that order |
| GcpApi.DeleteVm | yocto/cloud/gcp/api.py:1095-1144 | an unreadable `gcp` partition raises; a VM missing from it gives False with nothing done; a listed VM is deleted as DeleteListedVm states |
| Binding.DiskName | yocto/cloud/cloud_api.py:147-158 | Azure uses the raw name, GCP the sanitised one |
| Binding.CheckDependenciesOf | yocto/cloud/cloud_api.py:49-53 | on Azure the tools are probed and the check passes exactly when every tool answers; it fails only with RuntimeError; GCP checks nothing |
| Binding.EnsureCreatedResourceGroupOf | yocto/cloud/cloud_api.py:67-71 | on Azure an existing group is kept with no question, a missing one is created only after confirmation, a refusal raises, and the group exists afterwards; GCP only looks the project up; success exactly when GroupEnsured holds |
| Binding.GetExistingPublicIpOf | yocto/cloud/cloud_api.py:81-89 | the binding's stored address under the name |
| Binding.CreatePublicIpOf | yocto/cloud/cloud_api.py:73-79 | a later lookup finds the returned address |
| Binding.UpdateDnsRecordOf | yocto/cloud/cloud_api.py:109-118 | both bindings update the Azure DNS zone as AzureApi.UpdateDnsRecord states |
| Binding.DiskExistsOf | yocto/cloud/cloud_api.py:120-124 | a true answer means the disk is present |
| Binding.GetDiskNameOf | yocto/cloud/cloud_api.py:147-158 | the binding's disk name |
| Binding.CreateDiskOf | yocto/cloud/cloud_api.py:126-135 | returns get_disk_name's name, and that disk is present; success exactly when DiskMade holds: on Azure the file is there and the create command succeeds; on GCP the bucket, upload, image and disk requests succeed, and the requests are exactly GcpApi.CreateDisk's |
| Binding.DeleteDiskOf | yocto/cloud/cloud_api.py:160-166 | the disk for (VM, artifact) is gone |
| Binding.UploadDiskOf | yocto/cloud/cloud_api.py:168-172 | on Azure the image is on the disk, and the upload succeeds exactly when its three commands and the access revocation do; GCP does nothing and succeeds |
| Binding.CreateNsgOf | yocto/cloud/cloud_api.py:174-178 | on Azure the group exists, and the step succeeds exactly when its create command does; GCP does nothing and succeeds |
| Binding.AddNsgRuleOf | yocto/cloud/cloud_api.py:180-192 | after success the rule is in force |
| Binding.CreateStandardNsgRulesOf | yocto/cloud/cloud_api.py:194-198 | succeeds exactly when every standard rule is added; GCP never raises |
| Binding.CreateDataDiskOf | yocto/cloud/cloud_api.py:200-212 | the data disk is present |
| Binding.AttachDataDiskOf | yocto/cloud/cloud_api.py:214-226 | an existing VM carries the disk, and still boots from the disk it booted from |
| Binding.CreateVmSimpleOf | yocto/cloud/cloud_api.py:234-248 | the VM boots from the named disk |
| Binding.CreateVmOf | yocto/cloud/cloud_api.py:250-260 | the VM boots from the disk, and the step succeeds exactly when the VM request does (on GCP, with the node's reserved address); the temporary files are as before |
| Binding.GetVmIpOf | yocto/cloud/cloud_api.py:262-278 | the binding's answer for the VM's address |
| Binding.DeleteVmBy | yocto/cloud/cloud_api.py:280-302 | the selected provider's delete_vm outcome (refusal, unlisted VM, listed VM deleted), with the other cloud's resources untouched |
| Binding.OutcomeOfUnlisted | yocto/cloud/cloud_api.py:280-302 | under either provider an unlisted VM gives False with no request, and a failure or False leaves metadata unchanged |
| Binding.DeleteVmOf | yocto/cloud/cloud_api.py:280-302 | one ledger entry, then the provider's outcome as DeleteVmBy states: an unlisted VM gives False with nothing done, a listed one is deleted with the VM, the disk and its entry, and a failure leaves metadata unchanged |
| Deploy.BindingFor | yocto/deployment/deploy.py:45 | the binding get_cloud_api selects for the provider |
| Deploy.FindRecord | yocto/deployment/deploy.py:28-34 | the loop returns the record of the first partition that has the VM |
| Deploy.FirstMatchWins | yocto/deployment/deploy.py:30-34 | the first matching partition decides, whatever later partitions hold |
| Deploy.FirstRecordIgnoresKeys | yocto/deployment/deploy.py:30-34 | the partition keys play no part in the search |
| Json.StrRepr | yocto/cloud/cloud_api.py:137-145 | Python's repr of a string: quoted, and a plain string is its text between single quotes |
| Json.PyStr | yocto/cloud/cloud_api.py:137-145 | str() as an f-string applies it: a string is itself, an integer its decimal digits, anything else its repr |
| Json.PyStrForgetsType | yocto/cloud/cloud_api.py:137-145 | str() maps null and "None", true and "True", [] and "[]" to the same text |
| Deploy.RecordTarget | yocto/deployment/deploy.py:40-45 | the binding named by the record's own vm.cloud, with its group and region as stored, and its artifact as str() writes it (a null artifact becomes "None") |
| Deploy.RecordReadBack | yocto/deployment/deploy.py:98-112 | the record update_deploy_metadata files is read back by delete_vm as the VM's own binding, group, region and artifact |
| Deploy.TargetIgnoresPartitionKeys | yocto/deployment/deploy.py:24-46 | dispatch uses the record's vm.cloud, not the partition key |
| Deploy.DeleteVm | yocto/deployment/deploy.py:19-46 | False when no partition has the VM; otherwise one call of the selected binding's delete_vm, whose result and effect are that provider's delete_vm outcome |
| Deploy.ReusedDiskNotCreated | yocto/deployment/deploy.py:65-73 | a reused disk is never created, and its name comes from get_disk_name |
| Deploy.DeployPlanBranches | yocto/deployment/deploy.py:64-88 | a missing disk is created; the image is uploaded either way; both plans then coincide and end with get_vm_ip |
| Deploy.PlanCut | yocto/deployment/deploy.py:64-88 | how a plan stopped early splits into disk steps and the rest |
| Deploy.StepTaken | yocto/deployment/deploy.py:64-88 | taking the next step of a plan extends the steps taken |
| Deploy.PrepareDisk | yocto/deployment/deploy.py:65-73 | the check, then get_disk_name or create_disk; it stops after the check exactly when that fails, with its error; after a negative check it succeeds exactly when the disk can be created; the name is the binding's disk name |
| Deploy.BuildVm | yocto/deployment/deploy.py:74-81 | upload, security group, rules, VM, in order; it stops at the first failing step, as BuildMade counts them, and succeeds exactly when all four succeed; on GCP the first three cannot fail |
| Deploy.FinishPlan | yocto/deployment/deploy.py:74-88 | then the address lookup, reached exactly when the VM was made (FinishMade counts the steps); its answer is returned whenever it is reached |
| Deploy.RunPlan | yocto/deployment/deploy.py:64-88 | the plan in order, stopping at the first failure: after the check exactly when it fails (with its error); after two steps exactly when the check said no and the disk cannot be created; past the disk steps exactly FinishMade's steps; never at a GCP no-op step; get_vm_ip's answer when all seven ran |
| Deploy.DeployImage | yocto/deployment/deploy.py:49-88 | a missing image raises FileNotFoundError before any call; otherwise the plan as RunPlan states, stopping exactly where a step fails; the answer is get_vm_ip's, and the VM boots from the binding's disk |
| Deploy.UpdateDeployMetadata | yocto/deployment/deploy.py:98-113 | the record is filed as resources[cloud][vm], can be read back, and no other record changes |
| Deploy.Deployer.constructor | yocto/deployment/deploy.py:117-133 | the measurements file is written and no proxy runs |
| Deploy.Deployer.Deploy | yocto/deployment/deploy.py:135-149 | an empty address raises RuntimeError; otherwise the artifact is the image's file name |
| Deploy.Deployer.StartProxyServer | yocto/deployment/deploy.py:151-156 | the proxy is recorded, and a failed start raises RuntimeError |
| Deploy.Deployer.Cleanup | yocto/deployment/deploy.py:174-179 | the proxy is stopped only when set, and the file is removed only while it exists |
| GenesisDeploy.NodeIpNamesDistinct | yocto/genesis_deploy.py:41 | different nodes never share an address name |
| GenesisDeploy.GenesisIpManager.constructor | yocto/genesis_deploy.py:28-30 | the manager keeps the binding and the address group |
| GenesisDeploy.GenesisIpManager.EnsureGenesisResourceGroup | yocto/genesis_deploy.py:32-33 | the address group, in the node's region |
| GenesisDeploy.GenesisIpManager.GetOrCreateNodeIp | yocto/genesis_deploy.py:35-58 | the group first, and genesis-node-n is looked up exactly when the group is ensured; an existing address is returned with no question and nothing created; otherwise confirm, then create |
| GenesisDeploy.GenesisIpManager.ConfirmAndCreate | yocto/genesis_deploy.py:52-58 | creation happens exactly when the operator confirms |
| GenesisDeploy.GenesisIpManager.GetOrCreateTwice | yocto/genesis_deploy.py:35-58 | a second call returns the same address and name and creates nothing |
| GenesisDeploy.PrepareGroups | yocto/genesis_deploy.py:76-83 | the dependency check, then the VM's group |
| GenesisDeploy.AllocateNode | yocto/genesis_deploy.py:76-95 | the node gets its address, and DNS gains it next to the existing records |
| GenesisDeploy.RegisterNode | yocto/genesis_deploy.py:89-95 | the manager's address, then DNS through the Azure binding, with no removals |
| GenesisDeploy.DeployGenesisVm | yocto/genesis_deploy.py:61-113 | ValueError before any call without an artifact or ip_only; ip_only stops after DNS with the metadata untouched; otherwise success files the node's record under resources[cloud][vm] |
| GenesisDeploy.MetadataFollowsLookup | yocto/genesis_deploy.py:101-111 | changed metadata means the whole plan ran, ending with the VM on the node's address and its lookup |
| GenesisDeploy.DeployGenesisNode | yocto/genesis_deploy.py:68-113 | the run after the artifact check; a successful full run files the node's record |
| GenesisDeploy.RunDeployer | yocto/genesis_deploy.py:102-110 | on success the whole deploy plan ran, and the output carries the configuration, the image's file name and get_vm_ip's address |
| GenesisDeploy.RecordNode | yocto/genesis_deploy.py:111 | update_deploy_metadata on that output: the record is filed, or the metadata is unchanged on failure |
| GenesisDeploy.DeployNode | yocto/genesis_deploy.py:101-111 | metadata is written only after deploy returned, and success files the record of the deployed address |
| GenesisDeploy.RangeContents | yocto/genesis_deploy.py:149 | range(lo, hi) in order |
| GenesisDeploy.CountedNodes | yocto/genesis_deploy.py:146-150 | with a count, nodes 1..count, each once, in order |
| GenesisDeploy.GenesisConfigsPerNode | yocto/genesis_deploy.py:147-150 | one configuration per node, for that node |
| GenesisDeploy.GenesisConfigsHaveArtifact | yocto/config/deployment_config.py:133 | every genesis configuration names a non-empty artifact, so the missing-artifact test of deploy_genesis_vm never fires on them |
| GenesisDeploy.FirstFailureStands | yocto/genesis_deploy.py:147-150 | the first node that fails to configure decides the error |
| GenesisDeploy.BuildGenesisConfigs | yocto/genesis_deploy.py:147-150 | the list comprehension |
| GenesisDeploy.NodesStepsCut | yocto/genesis_deploy.py:152-154 | node k's calls follow those of the nodes before it |
| GenesisDeploy.NodesStepsPrefix | yocto/genesis_deploy.py:152-154 | the calls of the first k nodes begin the calls of all of them |
| GenesisDeploy.EachNodeDeployable | yocto/genesis_deploy.py:152-154 | every node that returned either wanted only its address or had an image |
| GenesisDeploy.DeployGenesisStep | yocto/genesis_deploy.py:152-154 | one node's deployment: a success made its allocation and, unless ip_only, its deploy plan; a missing artifact raises ValueError with no call |
| GenesisDeploy.DeployConfiguredNodes | yocto/genesis_deploy.py:152-154 | the nodes in order: the ledger holds each returned node's calls, then only the failing node's, and success means every node returned |
| GenesisDeploy.DeployGenesisNodes | yocto/genesis_deploy.py:141-154 | without a node or a count it raises before any call, and so does a node that fails to configure; otherwise the configured nodes are deployed in order, stopping at the first failure |
| DeployBob.BobRulesSources | yocto/deployment/deploy_bob.py:42-116 | 14 rules; exactly ports 22, 8080 and 10022 are limited to the operator's address |
| DeployBob.BobRuleNamesDistinct | yocto/deployment/deploy_bob.py:42-116 | the rule names are distinct |
| DeployBob.BobRulePrioritiesDistinct | yocto/deployment/deploy_bob.py:42-116 | the priorities are distinct |
| DeployBob.BobRulePortsDistinct | yocto/deployment/deploy_bob.py:42-116 | the ports are distinct |
| DeployBob.CreateBobNsgRules | yocto/deployment/deploy_bob.py:118-120 | every rule is added in table order, stopping at the first failure; all are in force on success |
| DeployBob.BobGroup | yocto/deployment/deploy_bob.py:145-151 | the dependency check, then the resource group, which exists afterwards |
| DeployBob.BobAddress | yocto/deployment/deploy_bob.py:155-169 | an existing `<vm>-ip` address is reused; otherwise one is created |
| DeployBob.ClearOsDisk | yocto/deployment/deploy_bob.py:175-186 | an existing OS disk is deleted first |
| DeployBob.BobOsDisk | yocto/deployment/deploy_bob.py:175-193 | create_disk is always called, then the upload |
| DeployBob.BobNetwork | yocto/deployment/deploy_bob.py:197-209 | the data disk, the security group and the BOB rules |
| DeployBob.BobVm | yocto/deployment/deploy_bob.py:213-233 | the VM boots from the OS disk get_disk_name names, and carries the data disk at LUN 10 |
| DeployBob.BobPrepare | yocto/deployment/deploy_bob.py:145-193 | dependencies, group, address and OS disk |
| DeployBob.BobFinish | yocto/deployment/deploy_bob.py:197-233 | the data disk, the network, the VM booting from the OS disk and the attachment |
| DeployBob.RunBob | yocto/deployment/deploy_bob.py:141-235 | the nine steps in order; returns the step-3 address, with the VM booting from the fresh OS disk, the data disk attached and every rule in force |
| DeployBob.DeployBobVm | yocto/deployment/deploy_bob.py:126-235 | the pipeline on the node's configuration: on success the nine steps ran, the VM boots from the fresh OS disk and the step-3 address is returned |
| DeployBob.BobPlanOrder | yocto/deployment/deploy_bob.py:197-233 | the data disk comes before the VM, the rules in table order, and the attachment at LUN 10 comes last |
| DeployBob.BobPlanBranches | yocto/deployment/deploy_bob.py:161-188 | an address is created exactly when none was found; the disk is deleted exactly when it existed; create_disk always runs |

## Left out

- Process, CLI and SDK calls are abstract operations on `Env.World`, which the world's `broken` set makes succeed or fail. Their output formats and errors beyond the exception class are not modelled.
- `wait_for_extended_operation` and every `time.sleep` are left out, because they are wall-clock polling. A GCP operation either finishes or fails.
- `ProxyClient` is a subprocess with a monitoring thread. The model records only its start and stop.
- The qemu-img and tar runs of the VHD conversion are one request each on the world. The scratch directory they work in is not modelled; only the archive copied beside the VHD is.
- GcpApi.CreateImageFromGcs: the grant of bucket read access to the Compute Engine service accounts is not modelled (project lookup, IAM policy read and write, and the two-second wait). A failure there raises before the image request; the model goes straight to the image request.
- Argument parsing is out; a `Namespace` datatype stands for its result. `get_host_ip` and the user's home directory are parameters.
- The build pipeline is out. `BuildConfigs` is its serialised dictionary, and `maybe_build` is a parameter: the image path and measurements, or the error.
- `artifact_timestamp` is left out, because it depends on strptime and the local time zone.
- `find_latest_image` is left out, because it is a glob and mtime scan.
- JSON text encoding is left out; documents are `Json` values.
- `str.lower`, `isdigit` and `\d` are modelled on ASCII only.
- Logging, rule descriptions and the `to_dict` printouts are left out.
- `filter_resources_by_cloud` is left out, because it only calls `get_cloud_resources`.
- `deploy_bob.main`, `parse_bob_args` and `print_next_steps` are left out. `main` cannot build its configuration, because it omits the required `cloud` field.
- `deploy_genesis_vm` never removes the measurements file its Deployer writes. The model keeps that.
- `deploy_genesis_vm` has a branch for a missing node. `from_genesis_args` always sets the node, so that branch cannot be reached and is not modelled.
- The legacy modules `yocto/deploy.py`, `yocto/metadata.py`, `yocto/azure_common.py`, `yocto/cfg.py`, `yocto/conf/conf.py`, `yocto/validators.py` and `yocto/azure_deploy.py` are not part of this model.
- The `CloudApi` abstract class is a `CloudApi.Api` tag, and `Binding` dispatches on it. The model does not capture Python's dynamic dispatch through class objects.
- DeployBob.RunBob: on an error it does not state which ledger entries were made. It states the error-free run and the final cloud state.
- DeployBob.DeployBobVm: the same holds. On an error nothing is stated about the calls made or the state left behind.
- Json.PyStr: repr() treats every character above U+00A0 except U+00AD as printable. Python's own printability test for characters beyond Latin-1 is not modelled.
- Binding.CreateStandardNsgRulesOf: for Azure it states the ledger entry and when it succeeds, not the rules it leaves in force. AzureApi.CreateStandardNsgRules states that effect.
- AzureApi.GetExistingDnsIps: the `--recordsetnamesuffix` option lists every record set whose name ends with the record, not only the record set itself. The model reads the one record set (`AzureApi.Listed`), so addresses in other record sets sharing that suffix are neither listed nor removed.
- The missing-artifact test of `deploy_genesis_vm` is dead code in the source: `from_genesis_args` parses the artifact with `expect_artifact`, which raises ValueError when it is missing, also under `--ip-only`, so the test never fires on a parsed configuration (GenesisDeploy.GenesisConfigsHaveArtifact). An `--ip-only` run still needs an artifact argument, and then it reaches the ip-only branch. The model keeps the test as the source has it.
