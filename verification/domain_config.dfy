/** The DNS section of a deployment configuration. */
module Domain {
  import opened Wrappers
  import opened Json
  import opened Args

  datatype DomainConfig = DomainConfig(record: string, resourceGroup: string, name: string)
  {
    /** The public URL of the node: the record inside the zone, over HTTPS. */
    function Url(): string { "https://" + record + "." + name }

    /** to_dict: exactly url, record, name and resource_group. */
    function ToDict(): (r: Json)
      ensures r.JObj? && UniqueKeys(r.fields)
      ensures Keys(r.fields) == ["url", "record", "name", "resource_group"]
      ensures Lookup(r.fields, "url") == Some(JStr(Url()))
      ensures Lookup(r.fields, "record") == Some(JStr(record))
      ensures Lookup(r.fields, "name") == Some(JStr(name))
      ensures Lookup(r.fields, "resource_group") == Some(JStr(resourceGroup))
    {
      var fields := [("url", JStr(Url())),
                     ("record", JStr(record)),
                     ("name", JStr(name)),
                     ("resource_group", JStr(resourceGroup))];
      assert UniqueKeys(fields);
      LookupAt(fields, 2);
      LookupAt(fields, 3);
      JObj(fields)
    }
  }

  /** DomainConfig.from_args: a missing or empty record is refused; the rest is copied. */
  function FromArgs(args: Namespace): (r: Result<DomainConfig>)
    ensures r.Ok? <==> Given(args.domainRecord)
    ensures r.Err? ==> r.error == ValueError
    ensures r.Ok? ==> r.value.record == args.domainRecord.value && r.value.record != ""
    ensures r.Ok? ==> r.value.resourceGroup == args.domainResourceGroup && r.value.name == args.domainName
  {
    if !Given(args.domainRecord) then Err(ValueError)
    else Ok(DomainConfig(args.domainRecord.value, args.domainResourceGroup, args.domainName))
  }

  /** The URL starts with the scheme, and the record and zone can be read back from it. */
  lemma UrlParts(d: DomainConfig)
    ensures d.Url()[..8] == "https://"
    ensures d.Url()[8..8 + |d.record|] == d.record
    ensures d.Url()[|d.Url()| - |d.name|..] == d.name
    ensures d.Url()[8 + |d.record|] == '.'
  {
  }
}
