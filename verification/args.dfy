/**
 * The parsed command line as the configuration builders see it.  Optional
 * options hold None when not given; `cloud` is also None when the namespace
 * has no such attribute, which every builder treats as the same ValueError.
 */
module Args {
  import opened Wrappers

  datatype Namespace = Namespace(
    cloud: Option<string>,
    resourceGroup: Option<string>,
    region: Option<string>,
    vmSize: Option<string>,
    domainRecord: Option<string>,
    domainResourceGroup: string,
    domainName: string,
    artifact: Option<string>,
    email: string,
    certbotEmail: string,
    sourceIp: Option<string>,
    ipOnly: bool,
    logs: bool,
    build: bool,
    deploy: bool,
    deleteVm: Option<string>,
    deleteArtifact: Option<string>,
    codePath: Option<string>,
    node: Option<int>,
    name: Option<string>)

  /** Python truthiness of an optional string: neither None nor empty. */
  predicate Given(o: Option<string>) {
    o.Some? && o.value != ""
  }

  /** `x or default`: the default replaces None and the empty string alike. */
  function OrElse(o: Option<string>, default: string): (r: string)
    ensures Given(o) ==> r == o.value
    ensures !Given(o) ==> r == default
  {
    if Given(o) then o.value else default
  }

  /** `default if x is None else x`: only None is replaced; an empty string is kept. */
  function IfNone(o: Option<string>, default: string): (r: string)
    ensures o.Some? ==> r == o.value
    ensures o.None? ==> r == default
  {
    if o.Some? then o.value else default
  }
}
