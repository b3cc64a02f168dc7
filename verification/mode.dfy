/** What a run of the tool is asked to do: build, deploy, and/or delete a VM or an artifact. */
module Mode {
  import opened Wrappers
  import opened Json
  import opened Args
  import Artifact
  import Text

  datatype Mode = Mode(build: bool, deploy: bool, deleteVm: Option<string>, deleteArtifact: Option<string>)
  {
    /** At least one action is requested. */
    predicate Requested() {
      build || deploy || Given(deleteVm) || Given(deleteArtifact)
    }

    /** The `delete` sub-dict: `vm` and `artifact`, each only when set. */
    function DeleteDict(): (r: Fields)
      ensures Keys(r) == (if Given(deleteVm) then ["vm"] else []) + (if Given(deleteArtifact) then ["artifact"] else [])
      ensures Given(deleteVm) ==> Lookup(r, "vm") == Some(JStr(deleteVm.value))
      ensures Given(deleteArtifact) ==> Lookup(r, "artifact") == Some(JStr(deleteArtifact.value))
    {
      (if Given(deleteVm) then [("vm", JStr(deleteVm.value))] else [])
      + (if Given(deleteArtifact) then [("artifact", JStr(deleteArtifact.value))] else [])
    }

    /** to_dict: always build and deploy; `delete` only when some deletion is set. */
    function ToDict(): (r: Json)
      ensures r.JObj?
      ensures Keys(r.fields) == ["build", "deploy"] + (if Given(deleteVm) || Given(deleteArtifact) then ["delete"] else [])
      ensures Lookup(r.fields, "build") == Some(JBool(build)) && Lookup(r.fields, "deploy") == Some(JBool(deploy))
      ensures Given(deleteVm) || Given(deleteArtifact) ==> Lookup(r.fields, "delete") == Some(JObj(DeleteDict()))
    {
      var delete := DeleteDict();
      var head := [("build", JBool(build)), ("deploy", JBool(deploy))];
      if delete != [] then
        var fields := head + [("delete", JObj(delete))];
        assert fields[1..][1..] == [("delete", JObj(delete))];
        assert Lookup(fields[1..], "delete") == Some(JObj(delete));
        JObj(fields)
      else JObj(head)
    }
  }

  /** Mode.deploy_only: deploy and nothing else, so its dict holds just the two flags. */
  function DeployOnly(): (m: Mode)
    ensures m.Requested() && m.deploy && !m.build
    ensures m.deleteVm.None? && m.deleteArtifact.None?
    ensures m.ToDict() == JObj([("build", JBool(false)), ("deploy", JBool(true))])
  {
    Mode(false, true, None, None)
  }

  /**
   * Mode.from_args: the artifact to delete is normalised first (an
   * unparsable one raises), then a run that requests nothing is refused.
   */
  function FromArgs(args: Namespace): (r: Result<Mode>)
    ensures r.Err? ==> r.error == ValueError
    ensures r.Err? <==>
      Artifact.ParseArtifact(args.deleteArtifact).Err?
      || !(args.build || args.deploy || Given(args.deleteVm) || Given(args.deleteArtifact))
    ensures r.Ok? ==> r.value.Requested()
    ensures r.Ok? ==>
      && r.value.build == args.build && r.value.deploy == args.deploy
      && r.value.deleteVm == args.deleteVm
      && Artifact.ParseArtifact(args.deleteArtifact) == Ok(r.value.deleteArtifact)
  {
    var deleteArtifact :- Artifact.ParseArtifact(args.deleteArtifact);
    var mode := Mode(args.build, args.deploy, args.deleteVm, deleteArtifact);
    assert Given(deleteArtifact) <==> Given(args.deleteArtifact) by {
      ParsedArtifactGiven(args.deleteArtifact);
    }
    if !mode.Requested() then Err(ValueError) else Ok(mode)
  }

  /** A successfully parsed artifact argument is set exactly when the argument was, and is then a canonical name. */
  lemma ParsedArtifactGiven(arg: Option<string>)
    requires Artifact.ParseArtifact(arg).Ok?
    ensures Given(Artifact.ParseArtifact(arg).value) <==> Given(arg)
    ensures Given(arg) ==> exists ts :: |ts| == Artifact.TimestampLength && Text.AllDigits(ts)
                                       && Artifact.ParseArtifact(arg).value == Some(Artifact.ArtifactFromTimestamp(ts))
  {
    var r := Artifact.ParseArtifact(arg);
    if r.value.Some? {
      var ts :| r.value.value == Artifact.ArtifactFromTimestamp(ts);
      assert |r.value.value| > 0;
    }
  }
}
