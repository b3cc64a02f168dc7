/** The top-level configuration of a run, assembled from the command line. */
module Configs {
  import opened Wrappers
  import opened Json
  import opened Args
  import opened Paths
  import Mode
  import DeployConfig

  /**
   * A run's configuration.  The build section is kept as its serialised
   * dict: how it is derived from the command line is not part of this model.
   */
  datatype Configs = Configs(
    mode: Mode.Mode,
    build: Option<Json>,
    deploy: Option<DeployConfig.DeployConfigs>,
    showLogs: bool,
    home: string)
  {
    /** to_dict: mode, then build and deploy only when present, then show_logs. */
    function ToDict(): (r: Json)
      ensures r.JObj?
      ensures Keys(r.fields) == ["mode"] + (if build.Some? then ["build"] else [])
                                + (if deploy.Some? then ["deploy"] else []) + ["show_logs"]
      ensures Lookup(r.fields, "mode") == Some(mode.ToDict())
      ensures Lookup(r.fields, "show_logs") == Some(JBool(showLogs))
    {
      Assemble(mode.ToDict(), build, if deploy.Some? then Some(deploy.value.ToDict()) else None, showLogs)
    }
  }

  /** The dict to_dict builds around the serialised mode and the optional sections. */
  function Assemble(modeDict: Json, build: Option<Json>, deploy: Option<Json>, showLogs: bool): (r: Json)
    ensures r.JObj?
    ensures Keys(r.fields) == ["mode"] + (if build.Some? then ["build"] else [])
                              + (if deploy.Some? then ["deploy"] else []) + ["show_logs"]
    ensures Lookup(r.fields, "mode") == Some(modeDict)
    ensures Lookup(r.fields, "show_logs") == Some(JBool(showLogs))
  {
    var head := [("mode", modeDict)];
    var b := if build.Some? then [("build", build.value)] else [];
    var d := if deploy.Some? then [("deploy", deploy.value)] else [];
    var last := [("show_logs", JBool(showLogs))];
    assert Keys(head) == ["mode"];
    assert Keys(b) == if build.Some? then ["build"] else [];
    assert Keys(d) == if deploy.Some? then ["deploy"] else [];
    assert Keys(last) == ["show_logs"];
    KeysAppend(head, b);
    KeysAppend(head + b, d);
    KeysAppend(head + b + d, last);
    LookupAfter(head + b + d, last, "show_logs");
    JObj(head + b + d + last)
  }

  /**
   * The home directory: the user's home, or the code path below it when one
   * is given, rendered as a string and parsed again by every later path
   * computation.
   */
  function HomeDir(userHome: string, codePath: Option<string>): (r: string)
    ensures Home(r) == (if Given(codePath) then Div(Home(userHome), codePath.value) else Home(userHome))
  {
    var p := if Given(codePath) then Div(FromString(userHome), codePath.value) else FromString(userHome);
    ToStringRoundTrip(p);
    ToString(p)
  }

  /** The deploy section, built only when deploying was requested. */
  function DeploySection(args: Namespace, hostIp: Result<string>): (r: Result<Option<DeployConfig.DeployConfigs>>)
    ensures r.Ok? ==> (r.value.Some? <==> args.deploy)
    ensures r.Err? <==> args.deploy && DeployConfig.FromArgs(args, hostIp).Err?
    ensures r.Ok? && r.value.Some? ==> DeployConfig.FromArgs(args, hostIp) == Ok(r.value.value)
  {
    if args.deploy then
      var deploy :- DeployConfig.FromArgs(args, hostIp);
      Ok(Some(deploy))
    else Ok(None)
  }

  /**
   * Configs.parse, given the command line, the build section's dict, the
   * outcome of asking for the host's public address, and the user's home.
   * The mode is checked first, then the deploy section is built, then a
   * deploy without a build and without an artifact is refused.
   */
  function Parse(args: Namespace, buildDict: Json, hostIp: Result<string>, userHome: string): (r: Result<Configs>)
    ensures r.Ok? ==> (r.value.build.Some? <==> args.build) && (r.value.deploy.Some? <==> args.deploy)
    ensures r.Ok? ==> Mode.FromArgs(args) == Ok(r.value.mode) && r.value.showLogs == args.logs
    ensures r.Ok? ==> r.value.home == HomeDir(userHome, args.codePath)
    ensures r.Err? ==> r.error == ValueError || (hostIp.Err? && r.error == hostIp.error)
    // the explicit artifact check can never fire: a deploy section always carries an artifact
    ensures r.Err? <==> Mode.FromArgs(args).Err? || (args.deploy && DeployConfig.FromArgs(args, hostIp).Err?)
  {
    var mode :- Mode.FromArgs(args);
    var build := if args.build then Some(buildDict) else None;
    var deploy :- DeploySection(args, hostIp);
    if deploy.Some? && build.None? && deploy.value.artifact == "" then Err(ValueError)
    else Ok(Configs(mode, build, deploy, args.logs, HomeDir(userHome, args.codePath)))
  }
}
