/**
 * The Azure binding: each operation runs one or more `az`/`azcopy` commands,
 * modelled as calls on the world whose success depends on the failure
 * oracle and, where the command checks it, on the current cloud state.
 */
module AzureApi {
  import opened Wrappers
  import opened Text
  import opened Json
  import opened Paths
  import opened Env
  import CloudParser
  import CloudApi
  import AzureDefaults
  import Metadata
  import DeployConfig
  import Domain

  type DeployConfigs = DeployConfig.DeployConfigs

  // ---------------------------------------------------------------------
  // Dependencies and resource groups.

  const Tools: seq<string> := ["az", "azcopy"]

  /**
   * The version probes check_dependencies makes, in order, up to and
   * including the first that fails, and whether all of them succeeded.
   */
  function Probes(broken: set<Call>, tools: seq<string>): (r: (seq<Call>, bool))
    ensures |r.0| <= |tools|
  {
    if tools == [] then ([], true)
    else if ToolVersion(tools[0]) in broken then ([ToolVersion(tools[0])], false)
    else
      var rest := Probes(broken, tools[1..]);
      ([ToolVersion(tools[0])] + rest.0, rest.1)
  }

  /** The check passes exactly when every tool answers; a failing run stops at the first tool that does not. */
  lemma {:induction false} ProbesOutcome(broken: set<Call>, tools: seq<string>)
    ensures Probes(broken, tools).1 <==> forall k :: 0 <= k < |tools| ==> ToolVersion(tools[k]) !in broken
    ensures Probes(broken, tools).1 ==>
      |Probes(broken, tools).0| == |tools| && forall k :: 0 <= k < |tools| ==> Probes(broken, tools).0[k] == ToolVersion(tools[k])
    ensures !Probes(broken, tools).1 ==>
      var n := |Probes(broken, tools).0| - 1;
      0 <= n < |tools| && ToolVersion(tools[n]) in broken
      && forall k :: 0 <= k < n ==> ToolVersion(tools[k]) !in broken
  {
    if tools != [] && ToolVersion(tools[0]) !in broken {
      ProbesOutcome(broken, tools[1..]);
      assert forall k :: 1 <= k < |tools| ==> tools[k] == tools[1..][k - 1];
    }
  }

  /** check_dependencies: probes each tool in turn and stops with RuntimeError at the first one missing. */
  method CheckDependencies(w: World) returns (r: Result<()>)
    modifies w`trace
    ensures w.trace == old(w.trace) + Probes(w.broken, Tools).0
    ensures r.Ok? <==> Probes(w.broken, Tools).1
    ensures r.Err? ==> r.error == RuntimeError
  {
    var i := 0;
    while i < |Tools|
      invariant 0 <= i <= |Tools|
      invariant old(w.trace) + Probes(w.broken, Tools).0 == w.trace + Probes(w.broken, Tools[i..]).0
      invariant Probes(w.broken, Tools).1 == Probes(w.broken, Tools[i..]).1
    {
      var ok := w.Attempt(ToolVersion(Tools[i]));
      if !ok {
        return Err(RuntimeError);
      }
      assert Tools[i..][1..] == Tools[i + 1..];
      i := i + 1;
    }
    return Ok(());
  }

  /** resource_group_exists: `az group show` succeeds only for a group that exists. */
  method ResourceGroupExists(w: World, name: string) returns (b: bool)
    modifies w`trace
    ensures w.trace == old(w.trace) + [AzGroupShow(name)]
    ensures b <==> name in w.groups && AzGroupShow(name) !in w.broken
  {
    var ok := w.Attempt(AzGroupShow(name));
    b := ok && name in w.groups;
  }

  method CreateResourceGroup(w: World, name: string, location: string) returns (r: Result<()>)
    modifies w`trace, w`groups
    ensures w.trace == old(w.trace) + [AzGroupCreate(name, location)]
    ensures r.Ok? <==> AzGroupCreate(name, location) !in w.broken
    ensures r.Err? ==> r.error == CalledProcessError
    ensures w.groups == if r.Ok? then old(w.groups) + {name} else old(w.groups)
  {
    var ok := w.Attempt(AzGroupCreate(name, location));
    if !ok {
      return Err(CalledProcessError);
    }
    w.groups := w.groups + {name};
    return Ok(());
  }

  /**
   * ensure_created_resource_group: an existing group is left alone with no
   * question asked; a missing one is created only after the operator
   * confirms, and a refusal raises.
   */
  method EnsureCreatedResourceGroup(w: World, name: string, location: string) returns (r: Result<()>)
    modifies w`trace, w`groups, w`stdin
    ensures old(name in w.groups) && AzGroupShow(name) !in w.broken ==>
      r == Ok(()) && w.groups == old(w.groups) && w.stdin == old(w.stdin)
      && w.trace == old(w.trace) + [AzGroupShow(name)]
    ensures !(old(name in w.groups) && AzGroupShow(name) !in w.broken) && CloudParser.ConfirmOutcome(old(w.stdin)).Err? ==>
      r == Err(CloudParser.ConfirmOutcome(old(w.stdin)).error) && w.groups == old(w.groups)
      && w.trace == old(w.trace) + [AzGroupShow(name), Prompt(Confirming(CreateGroup(name, location)))]
    ensures !(old(name in w.groups) && AzGroupShow(name) !in w.broken) && CloudParser.ConfirmOutcome(old(w.stdin)).Ok? ==>
      && w.trace == old(w.trace) + [AzGroupShow(name), Prompt(Confirming(CreateGroup(name, location))), AzGroupCreate(name, location)]
      && (r.Ok? <==> AzGroupCreate(name, location) !in w.broken)
    ensures r.Ok? ==> name in w.groups
    ensures r.Err? ==> r.error != RuntimeError
    ensures old(w.groups) <= w.groups <= old(w.groups) + {name}
  {
    var present := ResourceGroupExists(w, name);
    if present {
      return Ok(());
    }
    var _ :- CloudParser.Confirm(w, CreateGroup(name, location));
    r := CreateResourceGroup(w, name, location);
  }

  // ---------------------------------------------------------------------
  // Public addresses.

  /** create_public_ip: reserves the address and returns what the command printed, stripped. */
  method CreatePublicIp(w: World, name: string, resourceGroup: string, location: string) returns (r: Result<string>)
    modifies w`trace, w`azIps
    ensures w.trace == old(w.trace) + [AzIpCreate(resourceGroup, name, location)]
    ensures r.Ok? <==> AzIpCreate(resourceGroup, name, location) !in w.broken
    ensures r.Err? ==> r.error == CalledProcessError && w.azIps == old(w.azIps)
    ensures r.Ok? ==> r.value == Strip(w.azAllocate(resourceGroup, name))
                      && w.azIps == old(w.azIps)[(resourceGroup, name) := r.value]
  {
    var ok := w.Attempt(AzIpCreate(resourceGroup, name, location));
    if !ok {
      return Err(CalledProcessError);
    }
    var ip := Strip(w.azAllocate(resourceGroup, name));
    w.azIps := w.azIps[(resourceGroup, name) := ip];
    return Ok(ip);
  }

  /**
   * What get_existing_public_ip reports: nothing when the query fails (no
   * such address, or the command broke) or prints an empty string or the
   * literal "None", and the stripped address otherwise.
   */
  function ExistingIp(azIps: map<(string, string), string>, failed: bool, resourceGroup: string, name: string): (r: Option<string>)
    ensures r.None? <==> failed || (resourceGroup, name) !in azIps
                         || Strip(azIps[(resourceGroup, name)]) == "" || Strip(azIps[(resourceGroup, name)]) == "None"
    ensures r.Some? ==> r.value == Strip(azIps[(resourceGroup, name)]) && r.value != "" && r.value != "None"
  {
    if failed || (resourceGroup, name) !in azIps then None
    else
      var ip := Strip(azIps[(resourceGroup, name)]);
      if ip != "" && ip != "None" then Some(ip) else None
  }

  method GetExistingPublicIp(w: World, name: string, resourceGroup: string) returns (r: Option<string>)
    modifies w`trace
    ensures w.trace == old(w.trace) + [AzIpShow(resourceGroup, name)]
    ensures r == ExistingIp(w.azIps, AzIpShow(resourceGroup, name) in w.broken, resourceGroup, name)
  {
    var ok := w.Attempt(AzIpShow(resourceGroup, name));
    if !ok || (resourceGroup, name) !in w.azIps {
      return None;
    }
    var ip := Strip(w.azIps[(resourceGroup, name)]);
    r := if ip != "" && ip != "None" then Some(ip) else None;
  }

  /** An address just created is found again by the next query, unless that query breaks. */
  lemma CreatedIpIsFound(azIps: map<(string, string), string>, printed: string, resourceGroup: string, name: string)
    requires Strip(printed) != "" && Strip(printed) != "None"
    ensures ExistingIp(azIps[(resourceGroup, name) := Strip(printed)], false, resourceGroup, name) == Some(Strip(printed))
  {
    StripIdempotent(printed);
  }

  // ---------------------------------------------------------------------
  // DNS.

  /** The record set a domain section names: (resource group, zone, record). */
  function DnsKey(domain: Domain.DomainConfig): (string, string, string) {
    (domain.resourceGroup, domain.name, domain.record)
  }

  function Records(dns: map<(string, string, string), seq<string>>, key: (string, string, string)): seq<string> {
    if key in dns then dns[key] else []
  }

  /** What the list command prints in tsv form: one address per line. */
  function ListOutput(records: seq<string>): string {
    if records == [] then "" else Join(records, '\n') + "\n"
  }

  /** get_existing_dns_ips' parsing: blank output is no addresses, otherwise one per line. */
  function ParseDnsList(stdout: string): (r: seq<string>)
    ensures Strip(stdout) == "" ==> r == []
    ensures Strip(stdout) != "" ==> |r| >= 1
  {
    var s := Strip(stdout);
    if s != "" then Split(s, '\n') else []
  }

  /** Parsing the listing gives back the stored addresses, as long as each is a token. */
  lemma DnsListRoundTrip(records: seq<string>)
    requires forall k :: 0 <= k < |records| ==> IsToken(records[k])
    ensures ParseDnsList(ListOutput(records)) == records
  {
    if records != [] {
      JoinFramed(records, '\n');
      StripFramed(Join(records, '\n'));
      assert IsSpace('\n');
      SplitJoin(records, '\n');
    }
  }

  /** The record set with every copy of one address taken out. */
  function Drop(records: seq<string>, ip: string): (r: seq<string>)
    ensures ip !in r
    ensures forall x :: x in r ==> x in records
    ensures forall x :: x in records && x != ip ==> x in r
  {
    if records == [] then []
    else if records[0] == ip then Drop(records[1..], ip)
    else [records[0]] + Drop(records[1..], ip)
  }

  /** The record set after removing each non-empty listed address in turn. */
  function Purged(records: seq<string>, listed: seq<string>): seq<string>
    decreases |listed|
  {
    if listed == [] then records
    else Purged(if listed[0] != "" then Drop(records, listed[0]) else records, listed[1..])
  }

  /** The removal commands for the non-empty listed addresses, in list order. */
  function Removals(key: (string, string, string), listed: seq<string>): seq<Call>
    decreases |listed|
  {
    if listed == [] then []
    else (if listed[0] != "" then [AzDnsRemove(key.0, key.1, key.2, listed[0])] else []) + Removals(key, listed[1..])
  }

  /** Every non-empty listed address can be removed. */
  predicate RemovesOk(broken: set<Call>, key: (string, string, string), listed: seq<string>) {
    forall k :: 0 <= k < |listed| && listed[k] != "" ==> AzDnsRemove(key.0, key.1, key.2, listed[k]) !in broken
  }

  /** The removal commands the loop issues: as Removals, up to and including the first that fails. */
  function RemoveRun(broken: set<Call>, key: (string, string, string), listed: seq<string>): seq<Call>
    decreases |listed|
  {
    if listed == [] then []
    else if listed[0] == "" then RemoveRun(broken, key, listed[1..])
    else if AzDnsRemove(key.0, key.1, key.2, listed[0]) in broken then [AzDnsRemove(key.0, key.1, key.2, listed[0])]
    else [AzDnsRemove(key.0, key.1, key.2, listed[0])] + RemoveRun(broken, key, listed[1..])
  }

  /** Past a prefix whose removals all succeed, the loop's commands are that prefix's removals, then the rest's run. */
  lemma {:induction false} RemoveRunSplit(broken: set<Call>, key: (string, string, string), listed: seq<string>, i: nat)
    requires i <= |listed|
    requires RemovesOk(broken, key, listed[..i])
    ensures RemoveRun(broken, key, listed) == Removals(key, listed[..i]) + RemoveRun(broken, key, listed[i..])
    decreases i
  {
    if i > 0 {
      var rest := listed[1..];
      assert rest[..i - 1] == listed[..i][1..];
      assert rest[i - 1..] == listed[i..];
      var tail := rest[..i - 1];
      assert RemovesOk(broken, key, tail) by {
        forall k | 0 <= k < |tail| && tail[k] != ""
          ensures AzDnsRemove(key.0, key.1, key.2, tail[k]) !in broken
        {
          assert tail[k] == listed[..i][k + 1];
        }
      }
      RemoveRunSplit(broken, key, rest, i - 1);
      assert listed[..i][0] == listed[0];
      assert RemoveRun(broken, key, listed) == (if listed[0] != "" then [AzDnsRemove(key.0, key.1, key.2, listed[0])] else [])
                                               + RemoveRun(broken, key, rest);
      AppendAssoc((if listed[0] != "" then [AzDnsRemove(key.0, key.1, key.2, listed[0])] else []),
                  Removals(key, rest[..i - 1]), RemoveRun(broken, key, rest[i - 1..]));
    } else {
      assert listed[i..] == listed;
    }
  }

  /** One more address whose removal succeeds, or that is skipped, keeps the prefix removable. */
  lemma RemovesOkNext(broken: set<Call>, key: (string, string, string), listed: seq<string>, i: nat)
    requires i < |listed|
    requires RemovesOk(broken, key, listed[..i])
    requires listed[i] != "" ==> AzDnsRemove(key.0, key.1, key.2, listed[i]) !in broken
    ensures RemovesOk(broken, key, listed[..i + 1])
  {
    var next := listed[..i + 1];
    forall k | 0 <= k < |next| && next[k] != ""
      ensures AzDnsRemove(key.0, key.1, key.2, next[k]) !in broken
    {
      if k < i {
        assert next[k] == listed[..i][k];
      }
    }
  }

  /** The removal that fails ends the loop's commands, and the list is then not removable. */
  lemma RemoveRunStops(broken: set<Call>, key: (string, string, string), listed: seq<string>, i: nat)
    requires i < |listed|
    requires RemovesOk(broken, key, listed[..i])
    requires listed[i] != "" && AzDnsRemove(key.0, key.1, key.2, listed[i]) in broken
    ensures RemoveRun(broken, key, listed) == Removals(key, listed[..i]) + [AzDnsRemove(key.0, key.1, key.2, listed[i])]
    ensures !RemovesOk(broken, key, listed)
  {
    RemoveRunSplit(broken, key, listed, i);
    assert listed[i..][0] == listed[i];
  }

  /** Whatever survives the purge was stored before and was not a non-empty listed address. */
  lemma {:induction false} PurgedSurvivors(records: seq<string>, listed: seq<string>)
    ensures forall x :: x in Purged(records, listed) ==> x in records && (x == "" || x !in listed)
    decreases |listed|
  {
    if listed != [] {
      var next := if listed[0] != "" then Drop(records, listed[0]) else records;
      PurgedSurvivors(next, listed[1..]);
      forall x | x in Purged(records, listed) ensures x in records && (x == "" || x !in listed) {
        assert x in next && (x == "" || x !in listed[1..]);
        assert listed == [listed[0]] + listed[1..];
      }
    }
  }

  /** Only the record set under `key` may differ between the two DNS states. */
  ghost predicate DnsOnly(dns0: map<(string, string, string), seq<string>>, dns1: map<(string, string, string), seq<string>>,
                          key: (string, string, string)) {
    forall k :: k != key ==> (k in dns1 <==> k in dns0) && (k in dns1 ==> dns1[k] == dns0[k])
  }

  method GetExistingDnsIps(w: World, domain: Domain.DomainConfig) returns (r: Result<seq<string>>)
    modifies w`trace
    ensures w.trace == old(w.trace) + [AzDnsList(domain.resourceGroup, domain.name, domain.record)]
    ensures r.Ok? <==> AzDnsList(domain.resourceGroup, domain.name, domain.record) !in w.broken
    ensures r.Ok? ==> r.value == ParseDnsList(ListOutput(Records(w.dns, DnsKey(domain))))
    ensures r.Err? ==> r.error == CalledProcessError
  {
    var ok := w.Attempt(AzDnsList(domain.resourceGroup, domain.name, domain.record));
    if !ok {
      return Err(CalledProcessError);
    }
    return Ok(ParseDnsList(ListOutput(Records(w.dns, DnsKey(domain)))));
  }

  method RemoveDnsIp(w: World, domain: Domain.DomainConfig, ip: string) returns (r: Result<()>)
    modifies w`trace, w`dns
    ensures w.trace == old(w.trace) + [AzDnsRemove(domain.resourceGroup, domain.name, domain.record, ip)]
    ensures r.Ok? <==> AzDnsRemove(domain.resourceGroup, domain.name, domain.record, ip) !in w.broken
    ensures r.Err? ==> r.error == CalledProcessError && w.dns == old(w.dns)
    ensures r.Ok? ==> w.dns == old(w.dns)[DnsKey(domain) := Drop(Records(old(w.dns), DnsKey(domain)), ip)]
  {
    var ok := w.Attempt(AzDnsRemove(domain.resourceGroup, domain.name, domain.record, ip));
    if !ok {
      return Err(CalledProcessError);
    }
    w.dns := w.dns[DnsKey(domain) := Drop(Records(w.dns, DnsKey(domain)), ip)];
    return Ok(());
  }

  method AddDnsIp(w: World, domain: Domain.DomainConfig, ip: string) returns (r: Result<()>)
    modifies w`trace, w`dns
    ensures w.trace == old(w.trace) + [AzDnsAdd(domain.resourceGroup, domain.name, domain.record, ip)]
    ensures r.Ok? <==> AzDnsAdd(domain.resourceGroup, domain.name, domain.record, ip) !in w.broken
    ensures r.Err? ==> r.error == CalledProcessError && w.dns == old(w.dns)
    ensures r.Ok? ==> w.dns == old(w.dns)[DnsKey(domain) := Records(old(w.dns), DnsKey(domain)) + [ip]]
  {
    var ok := w.Attempt(AzDnsAdd(domain.resourceGroup, domain.name, domain.record, ip));
    if !ok {
      return Err(CalledProcessError);
    }
    w.dns := w.dns[DnsKey(domain) := Records(w.dns, DnsKey(domain)) + [ip]];
    return Ok(());
  }

  /** The addresses update_dns_record lists before adding, when it removes old ones. */
  function Listed(dns: map<(string, string, string), seq<string>>, domain: Domain.DomainConfig): seq<string> {
    ParseDnsList(ListOutput(Records(dns, DnsKey(domain))))
  }

  /** The loop of update_dns_record: removes each non-empty listed address in turn, stopping at a failure. */
  method RemoveListedIps(w: World, domain: Domain.DomainConfig, listed: seq<string>) returns (r: Result<()>)
    modifies w`trace, w`dns
    ensures r.Err? ==> r.error == CalledProcessError
    ensures r.Ok? <==> RemovesOk(w.broken, DnsKey(domain), listed)
    ensures w.trace == old(w.trace) + RemoveRun(w.broken, DnsKey(domain), listed)
    ensures DnsOnly(old(w.dns), w.dns, DnsKey(domain))
    ensures r.Ok? ==> Records(w.dns, DnsKey(domain)) == Purged(Records(old(w.dns), DnsKey(domain)), listed)
                      && w.trace == old(w.trace) + Removals(DnsKey(domain), listed)
  {
    var key := DnsKey(domain);
    var i := 0;
    while i < |listed|
      invariant 0 <= i <= |listed|
      invariant DnsOnly(old(w.dns), w.dns, key)
      invariant Purged(Records(old(w.dns), key), listed) == Purged(Records(w.dns, key), listed[i..])
      invariant w.trace == old(w.trace) + Removals(key, listed[..i])
      invariant RemovesOk(w.broken, key, listed[..i])
    {
      assert listed[i..][1..] == listed[i + 1..];
      ghost var dns, before := w.dns, w.trace;
      var removed := RemoveEntry(w, domain, listed[i]);
      RemovalTraced(old(w.trace), key, listed, i, before, w.trace);
      if removed.Err? {
        RemoveRunStops(w.broken, key, listed, i);
        DnsOnlyTrans(old(w.dns), dns, w.dns, key);
        return removed;
      }
      RemovesOkNext(w.broken, key, listed, i);
      DnsOnlyTrans(old(w.dns), dns, w.dns, key);
      PurgedStep(Records(dns, key), listed, i);
      i := i + 1;
    }
    assert listed[..i] == listed;
    RemoveRunSplit(w.broken, key, listed, i);
    assert listed[i..] == [];
    return Ok(());
  }

  /** One more removal extends the trace of the removals done so far. */
  lemma RemovalTraced(trace0: seq<Call>, key: (string, string, string), listed: seq<string>, i: nat,
                      before: seq<Call>, after: seq<Call>)
    requires i < |listed|
    requires before == trace0 + Removals(key, listed[..i])
    requires after == before + Removals(key, [listed[i]])
    ensures after == trace0 + Removals(key, listed[..i + 1])
    ensures listed[i] != "" ==> after == trace0 + (Removals(key, listed[..i]) + [AzDnsRemove(key.0, key.1, key.2, listed[i])])
  {
    assert listed[..i + 1] == listed[..i] + [listed[i]];
    RemovalsAppend(key, listed[..i], [listed[i]]);
    AppendAssoc(trace0, Removals(key, listed[..i]), Removals(key, [listed[i]]));
    assert [listed[i]][1..] == [];
  }

  lemma DnsOnlyTrans(dns0: map<(string, string, string), seq<string>>, dns1: map<(string, string, string), seq<string>>,
                     dns2: map<(string, string, string), seq<string>>, key: (string, string, string))
    requires DnsOnly(dns0, dns1, key) && DnsOnly(dns1, dns2, key)
    ensures DnsOnly(dns0, dns2, key)
  {
  }

  /** Purging the rest of a list is purging its next entry, then what follows. */
  lemma PurgedStep(records: seq<string>, listed: seq<string>, i: nat)
    requires i < |listed|
    ensures Purged(records, listed[i..]) == Purged(Purged(records, [listed[i]]), listed[i + 1..])
  {
    assert listed[i..][1..] == listed[i + 1..];
    assert [listed[i]][1..] == [];
  }

  /** One pass of the loop: an empty entry is skipped, any other address removed. */
  method RemoveEntry(w: World, domain: Domain.DomainConfig, ip: string) returns (r: Result<()>)
    modifies w`trace, w`dns
    ensures r.Ok? <==> ip == "" || AzDnsRemove(domain.resourceGroup, domain.name, domain.record, ip) !in w.broken
    ensures r.Err? ==> r.error == CalledProcessError
    ensures w.trace == old(w.trace) + Removals(DnsKey(domain), [ip])
    ensures DnsOnly(old(w.dns), w.dns, DnsKey(domain))
    ensures r.Ok? ==> Records(w.dns, DnsKey(domain)) == Purged(Records(old(w.dns), DnsKey(domain)), [ip])
  {
    assert [ip][1..] == [];
    if ip == "" {
      return Ok(());
    }
    r := RemoveDnsIp(w, domain, ip);
  }

  /**
   * The commands update_dns_record issues: with removal the listing, then
   * the removals up to the first that fails, then the addition; each
   * failure ends the run.
   */
  function DnsUpdateCalls(broken: set<Call>, dns: map<(string, string, string), seq<string>>, config: DeployConfigs,
                          ip: string, removeOld: bool): seq<Call>
  {
    var d := config.domain;
    var add := [AzDnsAdd(d.resourceGroup, d.name, d.record, ip)];
    if !removeOld then add
    else if AzDnsList(d.resourceGroup, d.name, d.record) in broken then [AzDnsList(d.resourceGroup, d.name, d.record)]
    else if !RemovesOk(broken, DnsKey(d), Listed(dns, d)) then
      [AzDnsList(d.resourceGroup, d.name, d.record)] + RemoveRun(broken, DnsKey(d), Listed(dns, d))
    else [AzDnsList(d.resourceGroup, d.name, d.record)] + Removals(DnsKey(d), Listed(dns, d)) + add
  }

  /** update_dns_record succeeds: the listing and every removal (with removal), and the addition. */
  predicate DnsUpdateOk(broken: set<Call>, dns: map<(string, string, string), seq<string>>, config: DeployConfigs,
                        ip: string, removeOld: bool) {
    var d := config.domain;
    && (removeOld ==> AzDnsList(d.resourceGroup, d.name, d.record) !in broken && RemovesOk(broken, DnsKey(d), Listed(dns, d)))
    && AzDnsAdd(d.resourceGroup, d.name, d.record, ip) !in broken
  }

  /**
   * update_dns_record: with removal, lists the record set and removes every
   * non-empty listed address, then adds the new one; without, only adds.
   */
  method UpdateDnsRecord(w: World, config: DeployConfigs, ip: string, removeOld: bool) returns (r: Result<()>)
    modifies w`trace, w`dns
    ensures r.Err? ==> r.error == CalledProcessError
    ensures r.Ok? <==> DnsUpdateOk(w.broken, old(w.dns), config, ip, removeOld)
    ensures w.trace == old(w.trace) + DnsUpdateCalls(w.broken, old(w.dns), config, ip, removeOld)
    ensures DnsOnly(old(w.dns), w.dns, DnsKey(config.domain))
    ensures r.Ok? && removeOld ==>
      && Records(w.dns, DnsKey(config.domain)) ==
           Purged(Records(old(w.dns), DnsKey(config.domain)), Listed(old(w.dns), config.domain)) + [ip]
      && w.trace == old(w.trace) + [AzDnsList(config.domain.resourceGroup, config.domain.name, config.domain.record)]
                    + Removals(DnsKey(config.domain), Listed(old(w.dns), config.domain))
                    + [AzDnsAdd(config.domain.resourceGroup, config.domain.name, config.domain.record, ip)]
    ensures r.Ok? && !removeOld ==>
      && Records(w.dns, DnsKey(config.domain)) == Records(old(w.dns), DnsKey(config.domain)) + [ip]
      && w.trace == old(w.trace) + [AzDnsAdd(config.domain.resourceGroup, config.domain.name, config.domain.record, ip)]
  {
    var domain := config.domain;
    ghost var trace0 := w.trace;
    ghost var listed := Listed(w.dns, domain);
    ghost var removals := Removals(DnsKey(domain), listed);
    ghost var calls := DnsUpdateCalls(w.broken, w.dns, config, ip, removeOld);
    var list := AzDnsList(domain.resourceGroup, domain.name, domain.record);
    var add := AzDnsAdd(domain.resourceGroup, domain.name, domain.record, ip);
    if removeOld {
      var removed := ListAndRemove(w, domain);
      if removed.Err? {
        ghost var rest := if list in w.broken then [] else RemoveRun(w.broken, DnsKey(domain), listed);
        AppendAssoc(trace0, [list], rest);
        assert calls == [list] + rest;
        return removed;
      }
      AppendAssoc(trace0, [list], removals);
      assert calls == [list] + removals + [add];
    } else {
      assert calls == [add];
    }
    r := AddDnsIp(w, domain, ip);
    if removeOld {
      AppendAssoc(trace0, [list] + removals, [add]);
    }
  }

  /** The removal half of update_dns_record: the listing, then the removal of every listed address. */
  method ListAndRemove(w: World, domain: Domain.DomainConfig) returns (r: Result<()>)
    modifies w`trace, w`dns
    ensures r.Err? ==> r.error == CalledProcessError
    ensures r.Ok? <==> AzDnsList(domain.resourceGroup, domain.name, domain.record) !in w.broken
                       && RemovesOk(w.broken, DnsKey(domain), old(Listed(w.dns, domain)))
    ensures w.trace == old(w.trace) + [AzDnsList(domain.resourceGroup, domain.name, domain.record)]
                       + if AzDnsList(domain.resourceGroup, domain.name, domain.record) in w.broken then []
                         else RemoveRun(w.broken, DnsKey(domain), old(Listed(w.dns, domain)))
    ensures DnsOnly(old(w.dns), w.dns, DnsKey(domain))
    ensures r.Ok? ==> Records(w.dns, DnsKey(domain)) == Purged(Records(old(w.dns), DnsKey(domain)), old(Listed(w.dns, domain)))
    ensures r.Ok? ==> w.trace == old(w.trace) + [AzDnsList(domain.resourceGroup, domain.name, domain.record)]
                                 + Removals(DnsKey(domain), old(Listed(w.dns, domain)))
  {
    ghost var trace0 := w.trace;
    var previous := GetExistingDnsIps(w, domain);
    ghost var list := AzDnsList(domain.resourceGroup, domain.name, domain.record);
    if previous.Err? {
      return Err(previous.error);
    }
    ghost var listed := old(Listed(w.dns, domain));
    assert previous.value == listed;
    r := RemoveListedIps(w, domain, previous.value);
    assert w.trace == trace0 + [list] + RemoveRun(w.broken, DnsKey(domain), listed);
  }

  lemma {:induction false} RemovalsAppend(key: (string, string, string), a: seq<string>, b: seq<string>)
    ensures Removals(key, a + b) == Removals(key, a) + Removals(key, b)
    decreases |a|
  {
    if a != [] {
      assert (a + b)[1..] == a[1..] + b;
      RemovalsAppend(key, a[1..], b);
    } else {
      assert a + b == b;
    }
  }

  lemma FirstIn<T>(s: seq<T>)
    requires s != []
    ensures s[0] in s
  {
  }

  /** Removing each listed address from the very set that was listed leaves nothing, when every address is a token. */
  lemma PurgedSelf(records: seq<string>)
    requires forall k :: 0 <= k < |records| ==> IsToken(records[k])
    ensures Purged(records, records) == []
  {
    PurgedSurvivors(records, records);
    var p := Purged(records, records);
    if p != [] {
      FirstIn(p);
      assert false;
    }
  }

  /**
   * With removal, a record set of well-formed addresses ends up holding
   * only the new address.
   */
  lemma DnsUpdateOutcome(records: seq<string>, ip: string)
    requires forall k :: 0 <= k < |records| ==> IsToken(records[k])
    ensures Purged(records, ParseDnsList(ListOutput(records))) + [ip] == [ip]
  {
    DnsListRoundTrip(records);
    PurgedSelf(records);
  }

  // ---------------------------------------------------------------------
  // OS disks and their upload.

  /** get_disk_name: Azure takes the raw disk name as it is, with no sanitising. */
  function GetDiskName(config: DeployConfigs, imagePath: Path): string {
    CloudApi.GetRawDiskName(config.vm.name, Name(imagePath))
  }

  /** The (resource group, name) of the disk an image is uploaded to. */
  function DiskKey(config: DeployConfigs, imagePath: Path): (string, string) {
    (config.vm.resourceGroup, GetDiskName(config, imagePath))
  }

  /** The (resource group, name) of the disk delete_disk removes. */
  function DeletedDisk(resourceGroup: string, vmName: string, artifact: string): (string, string) {
    (resourceGroup, CloudApi.GetRawDiskName(vmName, artifact))
  }

  /**
   * The disk that is checked, created, unlocked and locked for an image is
   * the disk deleted for an artifact exactly when the artifact is the
   * image's file name.
   */
  lemma DiskNamesAgree(config: DeployConfigs, imagePath: Path, artifact: string)
    ensures DeletedDisk(config.vm.resourceGroup, config.vm.name, artifact) == DiskKey(config, imagePath)
            <==> artifact == Name(imagePath)
  {
    if DeletedDisk(config.vm.resourceGroup, config.vm.name, artifact) == DiskKey(config, imagePath) {
      CloudApi.RawDiskNameInjective(config.vm.name, artifact, Name(imagePath));
    }
  }

  /** disk_exists: lists the group's disks and looks for the name get_disk_name gives. */
  method DiskExists(w: World, config: DeployConfigs, imagePath: Path) returns (r: Result<bool>)
    modifies w`trace
    ensures w.trace == old(w.trace) + [AzDiskList(config.vm.resourceGroup)]
    ensures r.Ok? <==> AzDiskList(config.vm.resourceGroup) !in w.broken
    ensures r.Err? ==> r.error == CalledProcessError
    ensures r.Ok? ==> (r.value <==> DiskKey(config, imagePath) in w.azDisks)
  {
    var ok := w.Attempt(AzDiskList(config.vm.resourceGroup));
    if !ok {
      return Err(CalledProcessError);
    }
    return Ok(DiskKey(config, imagePath) in w.azDisks);
  }

  /** The creation command for an image of `size` bytes. */
  function DiskCreateCall(config: DeployConfigs, imagePath: Path, size: nat): Call {
    AzDiskCreate(config.vm.resourceGroup, GetDiskName(config, imagePath), config.vm.Location(), size)
  }

  /**
   * create_disk: sizes the upload from the image file (a missing file raises
   * before any command) and returns the name it created, get_disk_name's.
   */
  method CreateDisk(w: World, config: DeployConfigs, imagePath: Path) returns (r: Result<string>)
    modifies w`trace, w`azDisks
    ensures imagePath !in w.files ==>
      r == Err(FileNotFoundError) && w.trace == old(w.trace) && w.azDisks == old(w.azDisks)
    ensures imagePath in w.files ==>
      && w.trace == old(w.trace) + [DiskCreateCall(config, imagePath, w.files[imagePath])]
      && (r.Ok? <==> DiskCreateCall(config, imagePath, w.files[imagePath]) !in w.broken)
    ensures r.Ok? ==> r.value == GetDiskName(config, imagePath) && w.azDisks == old(w.azDisks) + {DiskKey(config, imagePath)}
    ensures r.Err? ==> w.azDisks == old(w.azDisks) && (r.error == FileNotFoundError || r.error == CalledProcessError)
  {
    if imagePath !in w.files {
      return Err(FileNotFoundError);
    }
    var ok := w.Attempt(DiskCreateCall(config, imagePath, w.files[imagePath]));
    if !ok {
      return Err(CalledProcessError);
    }
    w.azDisks := w.azDisks + {DiskKey(config, imagePath)};
    return Ok(GetDiskName(config, imagePath));
  }

  function GrantCall(config: DeployConfigs, imagePath: Path): Call {
    AzDiskGrant(config.vm.resourceGroup, GetDiskName(config, imagePath))
  }

  function CopyCall(config: DeployConfigs, imagePath: Path): Call {
    AzCopy(imagePath, config.vm.resourceGroup, GetDiskName(config, imagePath))
  }

  function RevokeCall(config: DeployConfigs, imagePath: Path): Call {
    AzDiskRevoke(config.vm.resourceGroup, GetDiskName(config, imagePath))
  }

  /** _grant_disk_access: opens the disk for writing (the SAS address it returns stands for the disk). */
  method GrantDiskAccess(w: World, config: DeployConfigs, imagePath: Path) returns (r: Result<()>)
    modifies w`trace, w`granted
    ensures w.trace == old(w.trace) + [GrantCall(config, imagePath)]
    ensures r.Ok? <==> GrantCall(config, imagePath) !in w.broken
    ensures r.Err? ==> r.error == CalledProcessError
    ensures w.granted == if r.Ok? then old(w.granted) + {DiskKey(config, imagePath)} else old(w.granted)
  {
    var ok := w.Attempt(GrantCall(config, imagePath));
    if !ok {
      return Err(CalledProcessError);
    }
    w.granted := w.granted + {DiskKey(config, imagePath)};
    return Ok(());
  }

  /** _copy_disk: azcopy writes the image onto the disk the access grant unlocked. */
  method CopyDisk(w: World, config: DeployConfigs, imagePath: Path) returns (r: Result<()>)
    modifies w`trace, w`uploaded
    ensures w.trace == old(w.trace) + [CopyCall(config, imagePath)]
    ensures r.Ok? <==> CopyCall(config, imagePath) !in w.broken
    ensures r.Err? ==> r.error == CalledProcessError
    ensures w.uploaded == if r.Ok? then old(w.uploaded)[DiskKey(config, imagePath) := imagePath] else old(w.uploaded)
  {
    var ok := w.Attempt(CopyCall(config, imagePath));
    if !ok {
      return Err(CalledProcessError);
    }
    w.uploaded := w.uploaded[DiskKey(config, imagePath) := imagePath];
    return Ok(());
  }

  method RevokeDiskAccess(w: World, config: DeployConfigs, imagePath: Path) returns (r: Result<()>)
    modifies w`trace, w`granted
    ensures w.trace == old(w.trace) + [RevokeCall(config, imagePath)]
    ensures r.Ok? <==> RevokeCall(config, imagePath) !in w.broken
    ensures r.Err? ==> r.error == CalledProcessError
    ensures w.granted == if r.Ok? then old(w.granted) - {DiskKey(config, imagePath)} else old(w.granted)
  {
    var ok := w.Attempt(RevokeCall(config, imagePath));
    if !ok {
      return Err(CalledProcessError);
    }
    w.granted := w.granted - {DiskKey(config, imagePath)};
    return Ok(());
  }

  /**
   * The commands upload_disk runs: grant, copy, revoke, each only after the
   * previous one succeeded, since nothing guards the copy with a finally.
   */
  function UploadCalls(broken: set<Call>, config: DeployConfigs, imagePath: Path): (r: seq<Call>)
    ensures 1 <= |r| <= 3 && r[0] == GrantCall(config, imagePath)
    ensures |r| >= 2 <==> GrantCall(config, imagePath) !in broken
    ensures |r| >= 2 ==> r[1] == CopyCall(config, imagePath)
    // access is taken back only when the copy went through
    ensures |r| == 3 <==> GrantCall(config, imagePath) !in broken && CopyCall(config, imagePath) !in broken
    ensures |r| == 3 ==> r[2] == RevokeCall(config, imagePath)
  {
    if GrantCall(config, imagePath) in broken then [GrantCall(config, imagePath)]
    else if CopyCall(config, imagePath) in broken then [GrantCall(config, imagePath), CopyCall(config, imagePath)]
    else [GrantCall(config, imagePath), CopyCall(config, imagePath), RevokeCall(config, imagePath)]
  }

  /** The second half of upload_disk: the copy, then, only when it succeeded, the revocation. */
  method CopyThenRevoke(w: World, config: DeployConfigs, imagePath: Path) returns (r: Result<()>)
    modifies w`trace, w`granted, w`uploaded
    ensures w.trace == old(w.trace) + UploadCalls(w.broken, config, imagePath)[1..]
      || GrantCall(config, imagePath) in w.broken
    ensures r.Ok? <==> CopyCall(config, imagePath) !in w.broken && RevokeCall(config, imagePath) !in w.broken
    ensures r.Err? ==> r.error == CalledProcessError
    ensures w.uploaded == if CopyCall(config, imagePath) !in w.broken
                          then old(w.uploaded)[DiskKey(config, imagePath) := imagePath] else old(w.uploaded)
    ensures w.granted == if r.Ok? then old(w.granted) - {DiskKey(config, imagePath)} else old(w.granted)
  {
    r := CopyDisk(w, config, imagePath);
    if r.Err? {
      return;
    }
    r := RevokeDiskAccess(w, config, imagePath);
  }

  /**
   * upload_disk: grant, copy, revoke in that order.  A failed copy leaves
   * write access granted; the image is on the disk exactly when the copy ran.
   */
  method UploadDisk(w: World, config: DeployConfigs, imagePath: Path) returns (r: Result<()>)
    modifies w`trace, w`granted, w`uploaded
    ensures w.trace == old(w.trace) + UploadCalls(w.broken, config, imagePath)
    ensures r.Ok? <==> |UploadCalls(w.broken, config, imagePath)| == 3 && RevokeCall(config, imagePath) !in w.broken
    ensures r.Err? ==> r.error == CalledProcessError
    ensures w.uploaded == if |UploadCalls(w.broken, config, imagePath)| == 3
                          then old(w.uploaded)[DiskKey(config, imagePath) := imagePath] else old(w.uploaded)
    ensures w.granted == if |UploadCalls(w.broken, config, imagePath)| == 1 then old(w.granted)
                         else if r.Ok? then old(w.granted) - {DiskKey(config, imagePath)}
                         else old(w.granted) + {DiskKey(config, imagePath)}
  {
    ghost var calls := UploadCalls(w.broken, config, imagePath);
    ghost var trace0 := w.trace;
    r := GrantDiskAccess(w, config, imagePath);
    if r.Err? {
      return;
    }
    assert calls == [calls[0]] + calls[1..];
    r := CopyThenRevoke(w, config, imagePath);
    assert w.trace == trace0 + calls;
  }

  /** delete_disk: removes the disk named after the VM and the artifact (the zone argument is unused). */
  method DeleteDisk(w: World, resourceGroup: string, vmName: string, artifact: string) returns (r: Result<()>)
    modifies w`trace, w`azDisks
    ensures w.trace == old(w.trace) + [AzDiskDelete(resourceGroup, CloudApi.GetRawDiskName(vmName, artifact))]
    ensures r.Ok? <==> AzDiskDelete(resourceGroup, CloudApi.GetRawDiskName(vmName, artifact)) !in w.broken
    ensures r.Err? ==> r.error == CalledProcessError
    ensures w.azDisks == if r.Ok? then old(w.azDisks) - {DeletedDisk(resourceGroup, vmName, artifact)} else old(w.azDisks)
  {
    var ok := w.Attempt(AzDiskDelete(resourceGroup, CloudApi.GetRawDiskName(vmName, artifact)));
    if !ok {
      return Err(CalledProcessError);
    }
    w.azDisks := w.azDisks - {DeletedDisk(resourceGroup, vmName, artifact)};
    return Ok(());
  }

  // ---------------------------------------------------------------------
  // Network security groups.

  method CreateNsg(w: World, config: DeployConfigs) returns (r: Result<()>)
    modifies w`trace, w`nsgs
    ensures w.trace == old(w.trace) + [AzNsgCreate(config.vm.resourceGroup, config.vm.nsgName, config.vm.Location())]
    ensures r.Ok? <==> AzNsgCreate(config.vm.resourceGroup, config.vm.nsgName, config.vm.Location()) !in w.broken
    ensures r.Err? ==> r.error == CalledProcessError
    ensures w.nsgs == if r.Ok? then old(w.nsgs) + {(config.vm.resourceGroup, config.vm.nsgName)} else old(w.nsgs)
  {
    var ok := w.Attempt(AzNsgCreate(config.vm.resourceGroup, config.vm.nsgName, config.vm.Location()));
    if !ok {
      return Err(CalledProcessError);
    }
    w.nsgs := w.nsgs + {(config.vm.resourceGroup, config.vm.nsgName)};
    return Ok(());
  }

  /** add_nsg_rule: one inbound Allow rule on the configuration's security group. */
  method AddNsgRule(w: World, config: DeployConfigs, rule: NsgRule) returns (r: Result<()>)
    modifies w`trace, w`nsgRules
    ensures w.trace == old(w.trace) + [AzRuleCreate(config.vm.resourceGroup, config.vm.nsgName, rule)]
    ensures r.Ok? <==> AzRuleCreate(config.vm.resourceGroup, config.vm.nsgName, rule) !in w.broken
    ensures r.Err? ==> r.error == CalledProcessError
    ensures w.nsgRules == if r.Ok? then old(w.nsgRules) + [(config.vm.resourceGroup, config.vm.nsgName, rule)]
                          else old(w.nsgRules)
  {
    var ok := w.Attempt(AzRuleCreate(config.vm.resourceGroup, config.vm.nsgName, rule));
    if !ok {
      return Err(CalledProcessError);
    }
    w.nsgRules := w.nsgRules + [(config.vm.resourceGroup, config.vm.nsgName, rule)];
    return Ok(());
  }

  /**
   * The table create_standard_nsg_rules walks: SSH from the operator's
   * address, then HTTP, HTTPS, the node's TCP ports and the consensus port,
   * each open to any source.
   */
  function StandardRules(sourceIp: string): (r: seq<NsgRule>)
    ensures |r| == 10
    ensures r[0].name == "AllowSSH" && r[0].port == "22" && r[0].source == sourceIp
    ensures forall k :: 1 <= k < |r| ==> r[k].source == "*"
    ensures forall k :: 0 <= k < 9 ==> r[k].protocol == "Tcp"
    ensures r[9].port == IntToString(AzureDefaults.ConsensusPort) && r[9].protocol == "*"
  {
    var consensus := IntToString(AzureDefaults.ConsensusPort);
    [ NsgRule("AllowSSH", "100", "22", "Tcp", sourceIp),
      NsgRule("AllowAnyHTTPInbound", "101", "80", "Tcp", "*"),
      NsgRule("AllowAnyHTTPSInbound", "102", "443", "Tcp", "*"),
      NsgRule("TCP7878", "115", "7878", "Tcp", "*"),
      NsgRule("TCP7936", "116", "7936", "Tcp", "*"),
      NsgRule("TCP8545", "110", "8545", "Tcp", "*"),
      NsgRule("TCP8551", "111", "8551", "Tcp", "*"),
      NsgRule("TCP8645", "112", "8645", "Tcp", "*"),
      NsgRule("TCP8745", "113", "8745", "Tcp", "*"),
      NsgRule("ANY" + consensus, "114", consensus, "*", "*") ]
  }

  /** No two standard rules share a priority, which Azure requires within one security group. */
  lemma StandardPrioritiesDistinct(sourceIp: string)
    ensures forall i, j :: 0 <= i < j < |StandardRules(sourceIp)| ==>
      StandardRules(sourceIp)[i].priority != StandardRules(sourceIp)[j].priority
  {
    var r := StandardRules(sourceIp);
    var last := ['0', '1', '2', '5', '6', '0', '1', '2', '3', '4'];
    var middle := ['0', '0', '0', '1', '1', '1', '1', '1', '1', '1'];
    forall i, j | 0 <= i < j < |r|
      ensures r[i].priority != r[j].priority
    {
      assert r[i].priority[1] == middle[i] && r[i].priority[2] == last[i];
      assert r[j].priority[1] == middle[j] && r[j].priority[2] == last[j];
    }
  }

  /** The creation commands adding `rules` one after another makes, up to and including the first that fails. */
  function RunCalls(broken: set<Call>, resourceGroup: string, nsg: string, rules: seq<NsgRule>): seq<Call> {
    if rules == [] then []
    else if AzRuleCreate(resourceGroup, nsg, rules[0]) in broken then [AzRuleCreate(resourceGroup, nsg, rules[0])]
    else [AzRuleCreate(resourceGroup, nsg, rules[0])] + RunCalls(broken, resourceGroup, nsg, rules[1..])
  }

  /** The security-group entries that run creates. */
  function RunMade(broken: set<Call>, resourceGroup: string, nsg: string, rules: seq<NsgRule>): seq<(string, string, NsgRule)> {
    if rules == [] || AzRuleCreate(resourceGroup, nsg, rules[0]) in broken then []
    else [(resourceGroup, nsg, rules[0])] + RunMade(broken, resourceGroup, nsg, rules[1..])
  }

  /** Whether every command of the run succeeds. */
  predicate RunOk(broken: set<Call>, resourceGroup: string, nsg: string, rules: seq<NsgRule>) {
    forall k :: 0 <= k < |rules| ==> AzRuleCreate(resourceGroup, nsg, rules[k]) !in broken
  }

  /** The commands a rule run makes follow the table order. */
  lemma {:induction false} RunCallsInOrder(broken: set<Call>, resourceGroup: string, nsg: string, rules: seq<NsgRule>)
    ensures |RunCalls(broken, resourceGroup, nsg, rules)| <= |rules|
    ensures forall k :: 0 <= k < |RunCalls(broken, resourceGroup, nsg, rules)| ==>
      RunCalls(broken, resourceGroup, nsg, rules)[k] == AzRuleCreate(resourceGroup, nsg, rules[k])
  {
    if rules != [] && AzRuleCreate(resourceGroup, nsg, rules[0]) !in broken {
      RunCallsInOrder(broken, resourceGroup, nsg, rules[1..]);
      assert forall k :: 1 <= k < |rules| ==> rules[k] == rules[1..][k - 1];
    }
  }

  /** The entries a rule run creates follow the table order. */
  lemma {:induction false} RunMadeInOrder(broken: set<Call>, resourceGroup: string, nsg: string, rules: seq<NsgRule>)
    ensures |RunMade(broken, resourceGroup, nsg, rules)| <= |rules|
    ensures forall k :: 0 <= k < |RunMade(broken, resourceGroup, nsg, rules)| ==>
      RunMade(broken, resourceGroup, nsg, rules)[k] == (resourceGroup, nsg, rules[k])
  {
    if rules != [] && AzRuleCreate(resourceGroup, nsg, rules[0]) !in broken {
      RunMadeInOrder(broken, resourceGroup, nsg, rules[1..]);
      assert forall k :: 1 <= k < |rules| ==> rules[k] == rules[1..][k - 1];
    }
  }

  /**
   * Every rule is created when no command fails; otherwise the rules
   * before the first failing one are created and the rest are never
   * attempted.
   */
  lemma {:induction false} RunOutcome(broken: set<Call>, resourceGroup: string, nsg: string, rules: seq<NsgRule>)
    ensures var calls, made := RunCalls(broken, resourceGroup, nsg, rules), RunMade(broken, resourceGroup, nsg, rules);
      && (RunOk(broken, resourceGroup, nsg, rules) ==> |calls| == |made| == |rules|)
      && (!RunOk(broken, resourceGroup, nsg, rules) ==>
            && |calls| == |made| + 1 <= |rules|
            && AzRuleCreate(resourceGroup, nsg, rules[|made|]) in broken
            && forall k :: 0 <= k < |made| ==> AzRuleCreate(resourceGroup, nsg, rules[k]) !in broken)
  {
    if rules != [] && AzRuleCreate(resourceGroup, nsg, rules[0]) !in broken {
      RunOutcome(broken, resourceGroup, nsg, rules[1..]);
      assert forall k :: 1 <= k < |rules| ==> rules[k] == rules[1..][k - 1];
    }
  }

  /** One step of a rule run: the rule at i is tried, and the run goes on past it only when it succeeds. */
  lemma RunStep(broken: set<Call>, resourceGroup: string, nsg: string, rules: seq<NsgRule>, i: nat)
    requires i < |rules|
    ensures var call := AzRuleCreate(resourceGroup, nsg, rules[i]);
      && RunCalls(broken, resourceGroup, nsg, rules[i..]) ==
           (if call in broken then [call] else [call] + RunCalls(broken, resourceGroup, nsg, rules[i + 1..]))
      && RunMade(broken, resourceGroup, nsg, rules[i..]) ==
           (if call in broken then [] else [(resourceGroup, nsg, rules[i])] + RunMade(broken, resourceGroup, nsg, rules[i + 1..]))
      && (RunOk(broken, resourceGroup, nsg, rules[i..]) <==> call !in broken && RunOk(broken, resourceGroup, nsg, rules[i + 1..]))
  {
    assert rules[i..][0] == rules[i] && rules[i..][1..] == rules[i + 1..];
    assert forall k :: 1 <= k < |rules[i..]| ==> rules[i..][k] == rules[i + 1..][k - 1];
  }

  /** The loop of create_standard_nsg_rules: adds each rule in order, stopping at the first that fails. */
  method AddNsgRules(w: World, config: DeployConfigs, rules: seq<NsgRule>) returns (r: Result<()>)
    modifies w`trace, w`nsgRules
    ensures w.trace == old(w.trace) + RunCalls(w.broken, config.vm.resourceGroup, config.vm.nsgName, rules)
    ensures w.nsgRules == old(w.nsgRules) + RunMade(w.broken, config.vm.resourceGroup, config.vm.nsgName, rules)
    ensures r.Ok? <==> RunOk(w.broken, config.vm.resourceGroup, config.vm.nsgName, rules)
    ensures r.Err? ==> r.error == CalledProcessError
  {
    var rg, nsg := config.vm.resourceGroup, config.vm.nsgName;
    var i := 0;
    while i < |rules|
      invariant 0 <= i <= |rules|
      invariant old(w.trace) + RunCalls(w.broken, rg, nsg, rules) == w.trace + RunCalls(w.broken, rg, nsg, rules[i..])
      invariant old(w.nsgRules) + RunMade(w.broken, rg, nsg, rules) == w.nsgRules + RunMade(w.broken, rg, nsg, rules[i..])
      invariant RunOk(w.broken, rg, nsg, rules) == RunOk(w.broken, rg, nsg, rules[i..])
    {
      RunStep(w.broken, rg, nsg, rules, i);
      ghost var calls, made := RunCalls(w.broken, rg, nsg, rules[i + 1..]), RunMade(w.broken, rg, nsg, rules[i + 1..]);
      ghost var trace0, made0 := w.trace, w.nsgRules;
      var added := AddNsgRule(w, config, rules[i]);
      if added.Err? {
        return added;
      }
      AppendAssoc(trace0, [AzRuleCreate(rg, nsg, rules[i])], calls);
      AppendAssoc(made0, [(rg, nsg, rules[i])], made);
      i := i + 1;
    }
    return Ok(());
  }

  /** create_standard_nsg_rules: the standard table, SSH open to the operator's address only. */
  method CreateStandardNsgRules(w: World, config: DeployConfigs) returns (r: Result<()>)
    modifies w`trace, w`nsgRules
    ensures w.trace == old(w.trace) + RunCalls(w.broken, config.vm.resourceGroup, config.vm.nsgName, StandardRules(config.sourceIp))
    ensures w.nsgRules == old(w.nsgRules) + RunMade(w.broken, config.vm.resourceGroup, config.vm.nsgName, StandardRules(config.sourceIp))
    ensures r.Ok? <==> RunOk(w.broken, config.vm.resourceGroup, config.vm.nsgName, StandardRules(config.sourceIp))
    ensures r.Err? ==> r.error == CalledProcessError
  {
    r := AddNsgRules(w, config, StandardRules(config.sourceIp));
  }

  // ---------------------------------------------------------------------
  // Data disks and VMs.

  const DefaultDataDiskSku := "Premium_LRS"
  const DefaultDataDiskLun := 10

  /** create_data_disk: an empty confidential data disk of `sizeGb` gigabytes. */
  method CreateDataDisk(w: World, resourceGroup: string, diskName: string, location: string, sizeGb: int, sku: string)
    returns (r: Result<()>)
    modifies w`trace, w`azDisks
    ensures w.trace == old(w.trace) + [AzDataDiskCreate(resourceGroup, diskName, location, sizeGb, sku)]
    ensures r.Ok? <==> AzDataDiskCreate(resourceGroup, diskName, location, sizeGb, sku) !in w.broken
    ensures r.Err? ==> r.error == CalledProcessError
    ensures w.azDisks == if r.Ok? then old(w.azDisks) + {(resourceGroup, diskName)} else old(w.azDisks)
  {
    var ok := w.Attempt(AzDataDiskCreate(resourceGroup, diskName, location, sizeGb, sku));
    if !ok {
      return Err(CalledProcessError);
    }
    w.azDisks := w.azDisks + {(resourceGroup, diskName)};
    return Ok(());
  }

  /** The VM with one more data disk at `lun`. */
  function WithDataDisk(vm: AzureVm, lun: int, diskName: string): (r: AzureVm)
    ensures r.dataDisks == vm.dataDisks[lun := diskName]
    ensures r.(dataDisks := vm.dataDisks) == vm
  {
    vm.(dataDisks := vm.dataDisks[lun := diskName])
  }

  /** attach_data_disk: attaches the disk to the VM at `lun` (the zone argument is unused). */
  method AttachDataDisk(w: World, resourceGroup: string, vmName: string, diskName: string, lun: int) returns (r: Result<()>)
    modifies w`trace, w`azVms
    ensures w.trace == old(w.trace) + [AzDiskAttach(resourceGroup, vmName, diskName, lun)]
    ensures r.Ok? <==> AzDiskAttach(resourceGroup, vmName, diskName, lun) !in w.broken
    ensures r.Err? ==> r.error == CalledProcessError
    ensures w.azVms == if r.Ok? && (resourceGroup, vmName) in old(w.azVms)
                       then old(w.azVms)[(resourceGroup, vmName) := WithDataDisk(old(w.azVms)[(resourceGroup, vmName)], lun, diskName)]
                       else old(w.azVms)
  {
    var ok := w.Attempt(AzDiskAttach(resourceGroup, vmName, diskName, lun));
    if !ok {
      return Err(CalledProcessError);
    }
    if (resourceGroup, vmName) in w.azVms {
      w.azVms := w.azVms[(resourceGroup, vmName) := WithDataDisk(w.azVms[(resourceGroup, vmName)], lun, diskName)];
    }
    return Ok(());
  }

  /** The three settings the user-data file hands the VM: certbot's e-mail, the record name and the zone. */
  function UserDataFor(config: DeployConfigs): TempContent {
    UserData(config.email, config.domain.record, config.domain.name)
  }

  /** create_user_data_file: a fresh temporary file holding the VM's user data. */
  method CreateUserDataFile(w: World, config: DeployConfigs) returns (h: nat)
    requires w.Valid()
    modifies w`temps, w`nextTemp, w`trace
    ensures w.Valid()
    ensures h == old(w.nextTemp) && h !in old(w.temps)
    ensures w.temps == old(w.temps)[h := UserDataFor(config)]
    ensures w.trace == old(w.trace) + [MakeTemp(h)]
  {
    h := w.MakeTempFile(UserDataFor(config));
  }

  /** create_vm_simple: a confidential VM in an explicit location, with no user data. */
  method CreateVmSimple(w: World, vmName: string, vmSize: string, resourceGroup: string, location: string,
                        osDiskName: string, nsgName: string, ipName: string) returns (r: Result<()>)
    modifies w`trace, w`azVms
    ensures w.trace == old(w.trace) + [AzVmCreate(resourceGroup, vmName, Some(location), osDiskName, nsgName, ipName)]
    ensures r.Ok? <==> AzVmCreate(resourceGroup, vmName, Some(location), osDiskName, nsgName, ipName) !in w.broken
    ensures r.Err? ==> r.error == CalledProcessError
    ensures w.azVms == if r.Ok?
                       then old(w.azVms)[(resourceGroup, vmName) := AzureVm(vmSize, Some(location), osDiskName, nsgName, ipName, None, map[])]
                       else old(w.azVms)
  {
    var ok := w.Attempt(AzVmCreate(resourceGroup, vmName, Some(location), osDiskName, nsgName, ipName));
    if !ok {
      return Err(CalledProcessError);
    }
    w.azVms := w.azVms[(resourceGroup, vmName) := AzureVm(vmSize, Some(location), osDiskName, nsgName, ipName, None, map[])];
    return Ok(());
  }

  function VmCreateCall(config: DeployConfigs, ipName: string, diskName: string): Call {
    AzVmCreate(config.vm.resourceGroup, config.vm.name, None, diskName, config.vm.nsgName, ipName)
  }

  /**
   * create_vm: writes the user data to a temporary file, boots the VM from
   * the uploaded disk with it, and unlinks the file whether or not the
   * boot succeeded.
   */
  method CreateVm(w: World, config: DeployConfigs, ipName: string, diskName: string) returns (r: Result<()>)
    requires w.Valid()
    modifies w`temps, w`nextTemp, w`trace, w`azVms
    ensures w.Valid()
    ensures w.temps == old(w.temps)
    ensures w.trace == old(w.trace) + [MakeTemp(old(w.nextTemp)), VmCreateCall(config, ipName, diskName), Unlink(old(w.nextTemp))]
    ensures r.Ok? <==> VmCreateCall(config, ipName, diskName) !in w.broken
    ensures r.Err? ==> r.error == CalledProcessError
    ensures w.azVms == if r.Ok?
                       then old(w.azVms)[(config.vm.resourceGroup, config.vm.name) :=
                              AzureVm(config.vm.size, None, diskName, config.vm.nsgName, ipName, Some(UserDataFor(config)), map[])]
                       else old(w.azVms)
  {
    var userData := CreateUserDataFile(w, config);
    var ok := w.Attempt(VmCreateCall(config, ipName, diskName));
    if ok {
      w.azVms := w.azVms[(config.vm.resourceGroup, config.vm.name) :=
                   AzureVm(config.vm.size, None, diskName, config.vm.nsgName, ipName, Some(w.temps[userData]), map[])];
      r := Ok(());
    } else {
      r := Err(CalledProcessError);
    }
    w.UnlinkTemp(userData);
  }

  // ---------------------------------------------------------------------
  // Reading a VM's address.

  const MaxRetries := 10

  /** What one reply to the address query leads to. */
  datatype Step = Found(ip: Json) | Retry | Fail(error: Exc)

  /** vm_info[0]["virtualMachine"]["network"]["publicIpAddresses"][0]["ipAddress"]. */
  function IpOf(info: Json): Result<Json> {
    var vm :- First(info);
    var machine :- Index(vm, "virtualMachine");
    var network :- Index(machine, "network");
    var addresses :- Index(network, "publicIpAddresses");
    var address :- First(addresses);
    Index(address, "ipAddress")
  }

  /**
   * One attempt of get_vm_ip: a failed command or a reply that is not JSON
   * raises at once; empty VM info, or an address path that is missing a key
   * or an element, retries unless this is the last attempt, which raises
   * RuntimeError; any other error on the path propagates.
   */
  function ReadReply(reply: Reply, last: bool): (r: Step)
    ensures reply.returncode != 0 ==> r == Fail(RuntimeError)
    ensures r.Retry? ==> !last
    ensures r.Found? ==> reply.returncode == 0 && reply.stdout.Some? && IpOf(reply.stdout.value) == Ok(r.ip)
  {
    if reply.returncode != 0 then Fail(RuntimeError)
    else if reply.stdout.None? then Fail(ValueError)
    else if !Truthy(reply.stdout.value) then (if last then Fail(RuntimeError) else Retry)
    else
      match IpOf(reply.stdout.value)
      case Ok(ip) => Found(ip)
      case Err(e) =>
        if e == KeyError || e == IndexError then (if last then Fail(RuntimeError) else Retry)
        else Fail(e)
  }

  /** What each attempt of get_vm_ip does with the reply it gets. */
  function StepsOf(replies: (string, nat) -> Reply, name: string): nat -> Step {
    (k: nat) => ReadReply(replies(name, k), k == MaxRetries - 1)
  }

  /** The outcome of a retry loop from attempt `attempt` on, given what each attempt does. */
  function OutcomeFrom(steps: nat -> Step, attempt: nat): Result<Json>
    decreases MaxRetries - attempt
  {
    if attempt >= MaxRetries then Err(RuntimeError)
    else
      match steps(attempt)
      case Found(ip) => Ok(ip)
      case Fail(e) => Err(e)
      case Retry => OutcomeFrom(steps, attempt + 1)
  }

  /** How many attempts a retry loop makes from attempt `attempt` on. */
  function AttemptsFrom(steps: nat -> Step, attempt: nat): (n: nat)
    ensures attempt < MaxRetries ==> 1 <= n <= MaxRetries - attempt
    ensures attempt >= MaxRetries ==> n == 0
    decreases MaxRetries - attempt
  {
    if attempt >= MaxRetries then 0
    else if steps(attempt).Retry? then 1 + AttemptsFrom(steps, attempt + 1)
    else 1
  }

  /** The outcome of get_vm_ip from attempt `attempt` on, for the replies the query gives. */
  function VmIpFrom(replies: (string, nat) -> Reply, name: string, attempt: nat): Result<Json> {
    OutcomeFrom(StepsOf(replies, name), attempt)
  }

  /** How many queries get_vm_ip makes from attempt `attempt` on. */
  function Queries(replies: (string, nat) -> Reply, name: string, attempt: nat): (n: nat)
    ensures attempt < MaxRetries ==> 1 <= n <= MaxRetries - attempt
    ensures attempt >= MaxRetries ==> n == 0
  {
    AttemptsFrom(StepsOf(replies, name), attempt)
  }

  /** The queries numbered `lo` up to, not including, `hi`. */
  function QueryCalls(name: string, lo: nat, hi: nat): (r: seq<Call>)
    requires lo <= hi
    ensures |r| == hi - lo
    ensures forall k :: 0 <= k < |r| ==> r[k] == AzVmListIp(name, lo + k)
    decreases hi - lo
  {
    if lo == hi then [] else [AzVmListIp(name, lo)] + QueryCalls(name, lo + 1, hi)
  }

  /** A reply that says "not yet": empty VM info, or info without the address. */
  predicate NotYet(reply: Reply) {
    reply.returncode == 0 && reply.stdout.Some?
    && (!Truthy(reply.stdout.value) || IpOf(reply.stdout.value) == Err(KeyError) || IpOf(reply.stdout.value) == Err(IndexError))
  }

  /** The first reply that carries an address wins, after as many "not yet" replies as came before it. */
  lemma FirstAddressWins(replies: (string, nat) -> Reply, name: string, attempt: nat, n: nat, ip: Json)
    requires attempt <= n < MaxRetries
    requires forall k :: attempt <= k < n ==> NotYet(replies(name, k))
    requires replies(name, n).returncode == 0 && replies(name, n).stdout.Some?
    requires Truthy(replies(name, n).stdout.value) && IpOf(replies(name, n).stdout.value) == Ok(ip)
    ensures VmIpFrom(replies, name, attempt) == Ok(ip)
    ensures Queries(replies, name, attempt) == n - attempt + 1
  {
    forall k | attempt <= k < n
      ensures StepsOf(replies, name)(k) == Retry
    {
      NotYetRetries(replies(name, k), k == MaxRetries - 1);
    }
    AddressFound(replies(name, n), n == MaxRetries - 1, ip);
    RetriesThenFound(StepsOf(replies, name), attempt, n, ip);
  }

  /** Retries up to attempt n, which finds an address: the loop returns it after n - attempt + 1 attempts. */
  lemma {:induction false} RetriesThenFound(steps: nat -> Step, attempt: nat, n: nat, ip: Json)
    requires attempt <= n < MaxRetries
    requires forall k :: attempt <= k < n ==> steps(k) == Retry
    requires steps(n) == Found(ip)
    ensures OutcomeFrom(steps, attempt) == Ok(ip)
    ensures AttemptsFrom(steps, attempt) == n - attempt + 1
    decreases n - attempt
  {
    if attempt < n {
      assert steps(attempt) == Retry;
      RetriesThenFound(steps, attempt + 1, n, ip);
    }
  }

  /** A "not yet" reply before the last attempt retries. */
  lemma NotYetRetries(reply: Reply, last: bool)
    requires NotYet(reply) && !last
    ensures ReadReply(reply, last) == Retry
  {
  }

  /** A reply carrying an address returns it. */
  lemma AddressFound(reply: Reply, last: bool, ip: Json)
    requires reply.returncode == 0 && reply.stdout.Some?
    requires Truthy(reply.stdout.value) && IpOf(reply.stdout.value) == Ok(ip)
    ensures ReadReply(reply, last) == Found(ip)
  {
  }

  /** Ten "not yet" replies in a row end in RuntimeError, after exactly ten queries. */
  lemma {:induction false} NeverReadyFails(replies: (string, nat) -> Reply, name: string, attempt: nat)
    requires attempt < MaxRetries
    requires forall k :: attempt <= k < MaxRetries ==> NotYet(replies(name, k))
    ensures VmIpFrom(replies, name, attempt) == Err(RuntimeError)
    ensures Queries(replies, name, attempt) == MaxRetries - attempt
    decreases MaxRetries - attempt
  {
    VmIpStep(replies, name, attempt);
    if attempt < MaxRetries - 1 {
      NeverReadyFails(replies, name, attempt + 1);
    }
  }

  /** One attempt decides the outcome, or hands it on to the next attempt. */
  lemma VmIpStep(replies: (string, nat) -> Reply, name: string, attempt: nat)
    requires attempt < MaxRetries
    ensures var step := ReadReply(replies(name, attempt), attempt == MaxRetries - 1);
      && VmIpFrom(replies, name, attempt) ==
           (match step
            case Found(ip) => Ok(ip)
            case Fail(e) => Err(e)
            case Retry => VmIpFrom(replies, name, attempt + 1))
      && Queries(replies, name, attempt) == (if step.Retry? then 1 + Queries(replies, name, attempt + 1) else 1)
  {
  }

  /** Adding the next query to those already made. */
  lemma QueryCallsSnoc(name: string, hi: nat)
    ensures QueryCalls(name, 0, hi + 1) == QueryCalls(name, 0, hi) + [AzVmListIp(name, hi)]
  {
  }

  /**
   * get_vm_ip: queries the VM's addresses up to ten times and returns the
   * first address a reply carries.
   */
  method GetVmIp(w: World, vmName: string) returns (r: Result<Json>)
    modifies w`trace
    ensures r == VmIpFrom(w.azIpReplies, vmName, 0)
    ensures w.trace == old(w.trace) + QueryCalls(vmName, 0, Queries(w.azIpReplies, vmName, 0))
  {
    var attempt: nat := 0;
    while attempt < MaxRetries
      invariant attempt <= MaxRetries
      invariant VmIpFrom(w.azIpReplies, vmName, 0) == VmIpFrom(w.azIpReplies, vmName, attempt)
      invariant Queries(w.azIpReplies, vmName, 0) == attempt + Queries(w.azIpReplies, vmName, attempt)
      invariant w.trace == old(w.trace) + QueryCalls(vmName, 0, attempt)
      decreases MaxRetries - attempt
    {
      VmIpStep(w.azIpReplies, vmName, attempt);
      QueryCallsSnoc(vmName, attempt);
      var reply := w.ListIpAddresses(vmName, attempt);
      // the branches of one attempt: raise, return the address, or sleep and retry
      var step := ReadReply(reply, attempt == MaxRetries - 1);
      match step
      case Found(ip) =>
        return Ok(ip);
      case Fail(e) =>
        return Err(e);
      case Retry =>
        attempt := attempt + 1;
    }
    // not reached: the last attempt never retries
    return Err(RuntimeError);
  }

  // ---------------------------------------------------------------------
  // Deleting a VM.

  /**
   * What delete_vm reads from the metadata before it asks: the `vm` section
   * of the VM's record in the `azure` partition, or None when the name is
   * not in that partition.  The record must have a `vm` section holding a
   * `resourceGroup`.
   */
  function VmSection(doc: Json, name: string): (r: Result<Option<Json>>)
    ensures Metadata.PartitionShaped(doc, "azure") ==> (r == Ok(None) <==> Metadata.Entry(doc, "azure", name).None?)
    ensures r.Ok? && r.value.Some? ==>
      && Metadata.Entry(doc, "azure", name).Some?
      && Index(Metadata.Entry(doc, "azure", name).value, "vm") == Ok(r.value.value)
      && Index(r.value.value, "resourceGroup").Ok?
  {
    var partition :- Metadata.CloudResources(doc, "azure");
    var present :- Contains(partition, name);
    if !present then Ok(None)
    else
      var meta :- Index(partition, name);
      var vm :- Index(meta, "vm");
      var _ :- Index(vm, "resourceGroup");
      Ok(Some(vm))
  }

  /** The same read on the stored metadata: a missing file raises FileNotFoundError. */
  function StoredVmSection(docs: map<Path, Json>, home: string, name: string): Result<Option<Json>> {
    var doc :- Metadata.Loaded(docs, home);
    VmSection(doc, name)
  }

  /** The commands delete_vm runs once the operator has confirmed, when every step succeeds. */
  function DeleteVmCalls(resourceGroup: string, vmName: string, artifact: string): seq<Call> {
    [AzVmDelete(resourceGroup, vmName), AzDiskDelete(resourceGroup, CloudApi.GetRawDiskName(vmName, artifact))]
  }

  /**
   * What delete_vm does once the VM itself is gone: reads the record's
   * region (for delete_disk, which ignores it), deletes the disk and then
   * the `azure` metadata entry.  The first failure stops it.
   */
  method RemoveVmRemnants(w: World, rg: string, vmName: string, vm: Json, artifact: string, home: string)
    returns (r: Result<bool>)
    modifies w`trace, w`azDisks, w`docs
    ensures r.Ok? ==> r.value
    ensures Index(vm, "region").Err? ==> r == Err(Index(vm, "region").error) && w.trace == old(w.trace)
    ensures r.Err? ==> w.docs == old(w.docs)
    ensures r.Ok? ==>
      && w.azDisks == old(w.azDisks) - {DeletedDisk(rg, vmName, artifact)}
      && Metadata.Rewrote(old(w.docs), w.docs, old(w.trace) + [AzDiskDelete(rg, CloudApi.GetRawDiskName(vmName, artifact))],
                          w.trace, home, Metadata.VmRemoval(old(w.docs), home, vmName, "azure"), Ok(()))
  {
    var region := Index(vm, "region");
    if region.Err? {
      return Err(region.error);
    }
    var disk := DeleteDisk(w, rg, vmName, artifact);
    if disk.Err? {
      return Err(disk.error);
    }
    var removed := Metadata.RemoveVmFromMetadata(w, vmName, home, "azure");
    if removed.Err? {
      return Err(removed.error);
    }
    return Ok(true);
  }

  /**
   * The outcome of delete_vm once the operator has confirmed and the VM's
   * resource group `rg` is known, as a relation between the state before
   * (suffix 0) and after (suffix 1): a failed VM delete is reported as False
   * with only the command logged; a successful one removes the VM, and then
   * True means its disk and its `azure` metadata entry are gone too, in that
   * order; an exception after the VM delete leaves the metadata as it was.
   */
  ghost predicate VmDeletedIn(
    broken: set<Call>, rg: string, vmName: string, artifact: string, home: string,
    trace0: seq<Call>, trace1: seq<Call>,
    vms0: map<(string, string), AzureVm>, vms1: map<(string, string), AzureVm>,
    disks0: set<(string, string)>, disks1: set<(string, string)>,
    docs0: map<Path, Json>, docs1: map<Path, Json>,
    r: Result<bool>)
  {
    && (AzVmDelete(rg, vmName) in broken <==> r == Ok(false))
    && (r == Ok(false) ==> trace1 == trace0 + [AzVmDelete(rg, vmName)] && vms1 == vms0 && disks1 == disks0)
    && (AzVmDelete(rg, vmName) !in broken ==> vms1 == vms0 - {(rg, vmName)})
    && (r.Err? || r == Ok(false) ==> docs1 == docs0)
    && (r == Ok(true) ==>
          && disks1 == disks0 - {DeletedDisk(rg, vmName, artifact)}
          && Metadata.Rewrote(docs0, docs1, trace0 + DeleteVmCalls(rg, vmName, artifact), trace1,
                              home, Metadata.VmRemoval(docs0, home, vmName, "azure"), Ok(())))
  }

  /** The part of delete_vm after the operator confirmed, for a VM in resource group `rg`. */
  method DeleteVmIn(w: World, rg: string, vmName: string, vm: Json, artifact: string, home: string) returns (r: Result<bool>)
    modifies w`trace, w`azVms, w`azDisks, w`docs
    ensures VmDeletedIn(w.broken, rg, vmName, artifact, home, old(w.trace), w.trace, old(w.azVms), w.azVms,
                        old(w.azDisks), w.azDisks, old(w.docs), w.docs, r)
  {
    ghost var trace0 := w.trace;
    var deleted := w.Attempt(AzVmDelete(rg, vmName));
    if !deleted {
      return Ok(false);
    }
    w.azVms := w.azVms - {(rg, vmName)};
    r := RemoveVmRemnants(w, rg, vmName, vm, artifact, home);
    assert DeleteVmCalls(rg, vmName, artifact) == [AzVmDelete(rg, vmName)] + [AzDiskDelete(rg, CloudApi.GetRawDiskName(vmName, artifact))];
    AppendAssoc(trace0, [AzVmDelete(rg, vmName)], [AzDiskDelete(rg, CloudApi.GetRawDiskName(vmName, artifact))]);
  }

  /**
   * What delete_vm does for a VM its metadata lists, with the record's `vm`
   * section: the operator is asked, and a refusal raises rather than
   * returning False; a resource group that is not a string cannot be joined
   * into the command line; otherwise the VM, its disk and its entry go.
   */
  ghost predicate ListedVmDeleted(
    stdin0: seq<string>, broken: set<Call>, vmName: string, vm: Json, artifact: string, home: string,
    trace0: seq<Call>, trace1: seq<Call>,
    vms0: map<(string, string), AzureVm>, vms1: map<(string, string), AzureVm>,
    disks0: set<(string, string)>, disks1: set<(string, string)>,
    docs0: map<Path, Json>, docs1: map<Path, Json>,
    r: Result<bool>)
  {
    var asked := trace0 + [Prompt(Confirming(DeleteVmNamed(vmName)))];
    var rg := Index(vm, "resourceGroup");
    && (CloudParser.ConfirmOutcome(stdin0).Err? ==>
          r == Err(CloudParser.ConfirmOutcome(stdin0).error) && trace1 == asked && vms1 == vms0 && disks1 == disks0)
    && (CloudParser.ConfirmOutcome(stdin0).Ok? && !(rg.Ok? && rg.value.JStr?) ==>
          r == Err(TypeError) && trace1 == asked && vms1 == vms0 && disks1 == disks0)
    && (CloudParser.ConfirmOutcome(stdin0).Ok? && rg.Ok? && rg.value.JStr? ==>
          VmDeletedIn(broken, rg.value.s, vmName, artifact, home, asked, trace1, vms0, vms1, disks0, disks1, docs0, docs1, r))
    && (r.Err? || r == Ok(false) ==> docs1 == docs0)
  }

  /**
   * The whole of delete_vm: a metadata file that cannot be read or an
   * `azure` partition of the wrong shape raises, a VM unknown there is
   * reported as not deleted, and a listed one goes as ListedVmDeleted says.
   */
  ghost predicate DeleteVmOutcome(
    docs0: map<Path, Json>, stdin0: seq<string>, broken: set<Call>, vmName: string, artifact: string, home: string,
    trace0: seq<Call>, trace1: seq<Call>,
    vms0: map<(string, string), AzureVm>, vms1: map<(string, string), AzureVm>,
    disks0: set<(string, string)>, disks1: set<(string, string)>,
    docs1: map<Path, Json>,
    r: Result<bool>)
  {
    var section := StoredVmSection(docs0, home, vmName);
    && (section.Err? ==> r == Err(section.error) && trace1 == trace0 && vms1 == vms0 && disks1 == disks0 && docs1 == docs0)
    && (section == Ok(None) ==> r == Ok(false) && trace1 == trace0 && vms1 == vms0 && disks1 == disks0 && docs1 == docs0)
    && (section.Ok? && section.value.Some? ==>
          ListedVmDeleted(stdin0, broken, vmName, section.value.value, artifact, home,
                          trace0, trace1, vms0, vms1, disks0, disks1, docs0, docs1, r))
  }

  /** delete_vm for a VM its metadata lists, with the record's `vm` section. */
  method DeleteListedVm(w: World, vmName: string, vm: Json, artifact: string, home: string) returns (r: Result<bool>)
    requires Index(vm, "resourceGroup").Ok?
    modifies w`trace, w`stdin, w`azVms, w`azDisks, w`docs
    ensures ListedVmDeleted(old(w.stdin), w.broken, vmName, vm, artifact, home, old(w.trace), w.trace,
                            old(w.azVms), w.azVms, old(w.azDisks), w.azDisks, old(w.docs), w.docs, r)
  {
    var _ :- CloudParser.Confirm(w, DeleteVmNamed(vmName));
    var resourceGroup := Index(vm, "resourceGroup").value;
    if !resourceGroup.JStr? {
      // the command line is joined from strings
      return Err(TypeError);
    }
    r := DeleteVmIn(w, resourceGroup.s, vmName, vm, artifact, home);
  }

  /** delete_vm: looks the VM up in the `azure` partition of the metadata, then deletes it as listed. */
  method DeleteVm(w: World, vmName: string, artifact: string, home: string) returns (r: Result<bool>)
    modifies w`trace, w`stdin, w`azVms, w`azDisks, w`docs
    ensures DeleteVmOutcome(old(w.docs), old(w.stdin), w.broken, vmName, artifact, home, old(w.trace), w.trace,
                            old(w.azVms), w.azVms, old(w.azDisks), w.azDisks, w.docs, r)
  {
    ghost var stored := StoredVmSection(w.docs, home, vmName);
    var doc := Metadata.LoadMetadata(w, home);
    if doc.Err? {
      return Err(doc.error);
    }
    var section := VmSection(doc.value, vmName);
    assert stored == section;
    if section.Err? {
      return Err(section.error);
    }
    if section.value.None? {
      return Ok(false);
    }
    r := DeleteListedVm(w, vmName, section.value.value, artifact, home);
  }
}
