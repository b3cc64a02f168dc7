/**
 * Artifact names: finding the build timestamp inside a name, rebuilding the
 * canonical image file name from it, and deleting an artifact's files and
 * metadata entry.
 */
module Artifact {
  import opened Wrappers
  import opened Text
  import opened Json
  import opened Paths
  import opened Env
  import Metadata
  import CloudParser

  /** A build timestamp is 14 digits, YYYYMMDDHHMMSS. */
  const TimestampLength := 14

  /** s holds a 14-digit run starting at i. */
  predicate DigitsAt(s: string, i: nat) {
    i + TimestampLength <= |s| && AllDigits(s[i..i + TimestampLength])
  }

  /** The first index at or after `from` where a 14-digit run starts. */
  function FirstRun(s: string, from: nat): (r: Option<nat>)
    decreases |s| - from
    ensures r.Some? ==> from <= r.value && DigitsAt(s, r.value)
    ensures forall j: nat :: from <= j && (r.None? || j < r.value) ==> !DigitsAt(s, j)
  {
    if from + TimestampLength > |s| then None
    else if DigitsAt(s, from) then Some(from)
    else FirstRun(s, from + 1)
  }

  /**
   * _extract_timestamp: the regex `.*?(\d{14}).*` under re.search yields the
   * earliest run of 14 digits (a line break before it only moves the start
   * of the match), and no match raises ValueError.
   */
  function ExtractTimestamp(s: string): (r: Result<string>)
    ensures r.Ok? <==> exists i: nat :: DigitsAt(s, i)
    ensures r.Err? ==> r.error == ValueError
    ensures r.Ok? ==> |r.value| == TimestampLength && AllDigits(r.value)
    ensures r.Ok? ==> exists i: nat :: DigitsAt(s, i) && s[i..i + TimestampLength] == r.value
                                    && forall j: nat :: j < i ==> !DigitsAt(s, j)
  {
    match FirstRun(s, 0)
    case None => Err(ValueError)
    case Some(i) => Ok(s[i..i + TimestampLength])
  }

  /** _artifact_from_timestamp. */
  function ArtifactFromTimestamp(ts: string): string {
    ArtifactPrefix + "-" + ts + ".wic.vhd"
  }

  /**
   * parse_artifact: None for a missing or empty argument, the canonical
   * name for a bare timestamp, and otherwise the canonical name rebuilt
   * from the first timestamp in the argument.
   */
  function ParseArtifact(arg: Option<string>): (r: Result<Option<string>>)
    ensures arg.None? || arg == Some("") ==> r == Ok(None)
    ensures arg.Some? && |arg.value| == TimestampLength && AllDigits(arg.value) ==>
      r == Ok(Some(ArtifactFromTimestamp(arg.value)))
    ensures r.Err? ==> r.error == ValueError
    ensures r.Ok? && r.value.Some? ==>
      exists ts :: |ts| == TimestampLength && AllDigits(ts) && r.value.value == ArtifactFromTimestamp(ts)
  {
    match arg
    case None => Ok(None)
    case Some(s) =>
      if s == "" then Ok(None)
      else if |s| == TimestampLength && AllDigits(s) then Ok(Some(ArtifactFromTimestamp(s)))
      else
        var ts :- ExtractTimestamp(s);
        Ok(Some(ArtifactFromTimestamp(ts)))
  }

  /** A run of exactly 14 digits is its own first timestamp. */
  lemma BareTimestampIsFirstRun(s: string)
    requires |s| == TimestampLength && AllDigits(s)
    ensures ExtractTimestamp(s) == Ok(s)
  {
    assert s[0..TimestampLength] == s;
    assert DigitsAt(s, 0);
  }

  /**
   * Every non-empty argument, a bare timestamp included, parses to the
   * canonical name rebuilt from its first 14-digit run, and raises
   * ValueError exactly when it has none.
   */
  lemma ParseArtifactFirstRun(s: string)
    requires s != ""
    ensures ParseArtifact(Some(s)).Err? <==> forall i: nat :: !DigitsAt(s, i)
    ensures ParseArtifact(Some(s)).Ok? ==>
      exists i: nat :: DigitsAt(s, i) && (forall j: nat :: j < i ==> !DigitsAt(s, j))
                       && ParseArtifact(Some(s)).value == Some(ArtifactFromTimestamp(s[i..i + TimestampLength]))
  {
    if |s| == TimestampLength && AllDigits(s) {
      BareTimestampIsFirstRun(s);
    }
  }

  /** expect_artifact: parse_artifact, with an empty argument raising ValueError. */
  function ExpectArtifact(arg: Option<string>): (r: Result<string>)
    ensures arg.None? || arg == Some("") ==> r == Err(ValueError)
    ensures r.Ok? <==> ParseArtifact(arg).Ok? && ParseArtifact(arg).value.Some?
    ensures r.Ok? ==> ParseArtifact(arg) == Ok(Some(r.value)) && r.value != ""
    ensures r.Err? ==> r.error == ValueError
  {
    var artifact :- ParseArtifact(arg);
    if artifact.None? then Err(ValueError) else Ok(artifact.value)
  }

  /** The only 14-digit run in a canonical name is its timestamp, because the prefix holds no digit. */
  lemma ExtractFromCanonical(ts: string)
    requires |ts| == TimestampLength && AllDigits(ts)
    ensures ExtractTimestamp(ArtifactFromTimestamp(ts)) == Ok(ts)
  {
    var s := ArtifactFromTimestamp(ts);
    var n := |ArtifactPrefix| + 1;
    assert NoDigits(ArtifactPrefix + "-");
    assert s[n..n + TimestampLength] == ts;
    assert DigitsAt(s, n);
    forall j: nat | j < n
      ensures !DigitsAt(s, j)
    {
      assert s[j] == (ArtifactPrefix + "-")[j];
      if j + TimestampLength <= |s| {
        assert s[j..j + TimestampLength][0] == s[j];
      }
    }
    var i: nat :| DigitsAt(s, i) && s[i..i + TimestampLength] == ExtractTimestamp(s).value
             && forall j: nat :: j < i ==> !DigitsAt(s, j);
    assert i == n;
  }

  /** parse_artifact is idempotent on its own results. */
  lemma ParseArtifactIdempotent(arg: Option<string>)
    requires ParseArtifact(arg).Ok? && ParseArtifact(arg).value.Some?
    ensures ParseArtifact(ParseArtifact(arg).value) == ParseArtifact(arg)
  {
    var ts :| |ts| == TimestampLength && AllDigits(ts) && ParseArtifact(arg).value.value == ArtifactFromTimestamp(ts);
    ExtractFromCanonical(ts);
  }

  // ---------------------------------------------------------------------
  // delete_artifact

  /** A VM record in a partition whose `artifact` is the given name. */
  predicate Uses(vms: Fields, i: int, artifact: string) {
    0 <= i < |vms| && vms[i].1.JObj? && Lookup(vms[i].1.fields, "artifact") == Some(JStr(artifact))
  }

  /** acc followed by the result of the rest of a scan. */
  function Prefixed<T>(acc: seq<T>, rest: Result<seq<T>>): Result<seq<T>> {
    match rest
    case Ok(tail) => Ok(acc + tail)
    case Err(e) => Err(e)
  }

  lemma PrefixedAppend<T>(acc: seq<T>, more: seq<T>, rest: Result<seq<T>>)
    ensures Prefixed(acc, Prefixed(more, rest)) == Prefixed(acc + more, rest)
  {
    if rest.Ok? {
      assert acc + (more + rest.value) == (acc + more) + rest.value;
    }
  }

  /** The (vm, cloud) pairs of one partition whose record names the artifact, in order. */
  function ScanPartition(cloud: string, vms: Fields, artifact: string): (r: Result<seq<(string, string)>>)
    ensures (forall i :: 0 <= i < |vms| ==> vms[i].1.JObj?) ==>
      && r.Ok?
      && forall vm, c :: (vm, c) in r.value <==> c == cloud && exists i :: Uses(vms, i, artifact) && vms[i].0 == vm
  {
    if vms == [] then Ok([])
    else
      var value :- GetOr(vms[0].1, "artifact", JNull);
      var rest :- ScanPartition(cloud, vms[1..], artifact);
      var here := if value == JStr(artifact) then [(vms[0].0, cloud)] else [];
      assert forall i :: 0 <= i < |vms| - 1 ==> vms[1..][i] == vms[i + 1];
      Ok(here + rest)
  }

  /** The scan over every partition, in partition order. */
  function ScanResources(partitions: Fields, artifact: string): Result<seq<(string, string)>> {
    if partitions == [] then Ok([])
    else
      var vms :- Items(partitions[0].1);
      var here :- ScanPartition(partitions[0].0, vms, artifact);
      var rest :- ScanResources(partitions[1..], artifact);
      Ok(here + rest)
  }

  /** deployed_to for a metadata document. */
  function DeployedTo(doc: Json, artifact: string): Result<seq<(string, string)>> {
    var resources :- GetOr(doc, "resources", JObj([]));
    var partitions :- Items(resources);
    ScanResources(partitions, artifact)
  }

  /** Every partition of a well-formed store is an object of VM records. */
  predicate RecordsShaped(partitions: Fields) {
    forall p :: 0 <= p < |partitions| ==>
      partitions[p].1.JObj? && forall i :: 0 <= i < |partitions[p].1.fields| ==> partitions[p].1.fields[i].1.JObj?
  }

  /** Some partition named c holds a record named vm that uses the artifact. */
  ghost predicate DeployedAt(partitions: Fields, artifact: string, vm: string, c: string) {
    exists p :: 0 <= p < |partitions| && partitions[p].0 == c && partitions[p].1.JObj?
                && exists i :: Uses(partitions[p].1.fields, i, artifact) && partitions[p].1.fields[i].0 == vm
  }

  /** A deployment is in the first partition or in the rest. */
  lemma DeployedAtCons(partitions: Fields, artifact: string, vm: string, c: string)
    requires partitions != []
    ensures DeployedAt(partitions, artifact, vm, c) <==>
      (partitions[0].0 == c && partitions[0].1.JObj? && exists i :: Uses(partitions[0].1.fields, i, artifact) && partitions[0].1.fields[i].0 == vm)
      || DeployedAt(partitions[1..], artifact, vm, c)
  {
    if DeployedAt(partitions[1..], artifact, vm, c) {
      var p :| 0 <= p < |partitions[1..]| && partitions[1..][p].0 == c && partitions[1..][p].1.JObj?
               && exists i :: Uses(partitions[1..][p].1.fields, i, artifact) && partitions[1..][p].1.fields[i].0 == vm;
      assert partitions[1..][p] == partitions[p + 1];
    }
    if DeployedAt(partitions, artifact, vm, c) {
      var p :| 0 <= p < |partitions| && partitions[p].0 == c && partitions[p].1.JObj?
               && exists i :: Uses(partitions[p].1.fields, i, artifact) && partitions[p].1.fields[i].0 == vm;
      if p > 0 {
        assert partitions[1..][p - 1] == partitions[p];
      }
    }
  }

  /** deployed_to holds exactly the (vm, cloud) pairs whose record names the artifact. */
  lemma {:induction false} ScanResourcesExact(partitions: Fields, artifact: string)
    requires RecordsShaped(partitions)
    ensures ScanResources(partitions, artifact).Ok?
    ensures forall vm, c :: (vm, c) in ScanResources(partitions, artifact).value <==> DeployedAt(partitions, artifact, vm, c)
  {
    if partitions != [] {
      assert RecordsShaped(partitions[1..]) by {
        forall p | 0 <= p < |partitions[1..]| ensures partitions[1..][p] == partitions[p + 1] { }
      }
      ScanResourcesExact(partitions[1..], artifact);
      forall vm, c
        ensures (vm, c) in ScanResources(partitions, artifact).value <==> DeployedAt(partitions, artifact, vm, c)
      {
        DeployedAtCons(partitions, artifact, vm, c);
      }
    }
  }

  /** The files the artifacts-directory glob for a timestamp matches: visible entries of the directory whose name holds ts. */
  predicate Globbed(p: Path, dir: Path, ts: string) {
    && p.absolute == dir.absolute
    && |p.parts| == |dir.parts| + 1
    && p.parts[..|dir.parts|] == dir.parts
    && IsSubstring(ts, Name(p))
    && Name(p) != "" && Name(p)[0] != '.'
  }

  function Matches(files: map<Path, nat>, home: string, ts: string): set<Path> {
    set p | p in files && Globbed(p, Artifacts(home), ts)
  }

  /** What delete_artifact decides before it touches anything. */
  datatype Decision = Declined | Delete(matches: set<Path>)

  /** Whether delete_artifact asks the operator: it does when the artifact is in use. */
  predicate Asks(docs: map<Path, Json>, artifact: string, home: string) {
    && Metadata.Loaded(docs, home).Ok?
    && DeployedTo(Metadata.Loaded(docs, home).value, artifact).Ok?
    && DeployedTo(Metadata.Loaded(docs, home).value, artifact).value != []
  }

  /** The guard of delete_artifact: false when the artifact is in use and the answer is not yes. */
  function Proceeds(docs: map<Path, Json>, stdin: seq<string>, artifact: string, home: string): Result<bool> {
    var doc :- Metadata.Loaded(docs, home);
    var deployedTo :- DeployedTo(doc, artifact);
    if deployedTo != [] && stdin == [] then Err(EOFError)
    else Ok(deployedTo == [] || CloudParser.Accepts(stdin[0]))
  }

  /** Standard input after the guard: one line is consumed when the operator is asked. */
  function StdinAfter(docs: map<Path, Json>, stdin: seq<string>, artifact: string, home: string): seq<string> {
    if Asks(docs, artifact, home) && stdin != [] then stdin[1..] else stdin
  }

  function Decide(docs: map<Path, Json>, files: map<Path, nat>, stdin: seq<string>, artifact: string, home: string): (r: Result<Decision>)
    ensures r == Ok(Declined) <==> Asks(docs, artifact, home) && stdin != [] && !CloudParser.Accepts(stdin[0])
    ensures r.Ok? && r.value.Delete? ==> forall p :: p in r.value.matches ==> p in files
  {
    var proceeds :- Proceeds(docs, stdin, artifact, home);
    if !proceeds then Ok(Declined)
    else
      var ts :- ExtractTimestamp(artifact);
      Ok(Delete(Matches(files, home, ts)))
  }

  /** One step of the partition scan: the record at i either fails the scan or contributes its hit. */
  lemma ScanPartitionAt(cloud: string, vms: Fields, i: nat, artifact: string)
    requires i < |vms|
    ensures GetOr(vms[i].1, "artifact", JNull).Err? ==>
      ScanPartition(cloud, vms[i..], artifact) == Err(GetOr(vms[i].1, "artifact", JNull).error)
    ensures GetOr(vms[i].1, "artifact", JNull).Ok? ==>
      ScanPartition(cloud, vms[i..], artifact)
      == Prefixed(if GetOr(vms[i].1, "artifact", JNull).value == JStr(artifact) then [(vms[i].0, cloud)] else [],
                  ScanPartition(cloud, vms[i + 1..], artifact))
  {
    assert vms[i..][0] == vms[i];
    assert vms[i..][1..] == vms[i + 1..];
  }

  /** The inner loop of the scan: one partition's records. */
  method ScanPartitionLoop(cloud: string, vms: Fields, artifact: string) returns (r: Result<seq<(string, string)>>)
    ensures r == ScanPartition(cloud, vms, artifact)
  {
    var i := 0;
    var here: seq<(string, string)> := [];
    assert vms[i..] == vms;
    assert Prefixed(here, ScanPartition(cloud, vms, artifact)) == ScanPartition(cloud, vms, artifact) by {
      if ScanPartition(cloud, vms, artifact).Ok? {
        assert here + ScanPartition(cloud, vms, artifact).value == ScanPartition(cloud, vms, artifact).value;
      }
    }
    while i < |vms|
      invariant 0 <= i <= |vms|
      invariant ScanPartition(cloud, vms, artifact) == Prefixed(here, ScanPartition(cloud, vms[i..], artifact))
    {
      ScanPartitionAt(cloud, vms, i, artifact);
      var value :- GetOr(vms[i].1, "artifact", JNull);
      var hit := if value == JStr(artifact) then [(vms[i].0, cloud)] else [];
      PrefixedAppend(here, hit, ScanPartition(cloud, vms[i + 1..], artifact));
      here := here + hit;
      i := i + 1;
    }
    assert vms[i..] == [];
    assert here + [] == here;
    return Ok(here);
  }

  /** The scan of delete_artifact: the nested loop that builds deployed_to. */
  method ScanLoop(partitions: Fields, artifact: string) returns (r: Result<seq<(string, string)>>)
    ensures r == ScanResources(partitions, artifact)
  {
    var deployedTo: seq<(string, string)> := [];
    var p := 0;
    assert partitions[p..] == partitions;
    assert Prefixed(deployedTo, ScanResources(partitions, artifact)) == ScanResources(partitions, artifact) by {
      if ScanResources(partitions, artifact).Ok? {
        assert deployedTo + ScanResources(partitions, artifact).value == ScanResources(partitions, artifact).value;
      }
    }
    while p < |partitions|
      invariant 0 <= p <= |partitions|
      invariant ScanResources(partitions, artifact) == Prefixed(deployedTo, ScanResources(partitions[p..], artifact))
    {
      assert partitions[p..][1..] == partitions[p + 1..];
      var vms :- Items(partitions[p].1);
      var here :- ScanPartitionLoop(partitions[p].0, vms, artifact);
      assert ScanResources(partitions[p..], artifact) == Prefixed(here, ScanResources(partitions[p + 1..], artifact));
      PrefixedAppend(deployedTo, here, ScanResources(partitions[p + 1..], artifact));
      deployedTo := deployedTo + here;
      p := p + 1;
    }
    assert partitions[p..] == [];
    assert deployedTo + [] == deployedTo;
    return Ok(deployedTo);
  }

  /** The removal loop: os.remove on every match, counting them. */
  method RemoveAll(w: World, matches: set<Path>) returns (deleted: nat)
    modifies w`files, w`trace
    ensures w.files == old(w.files) - matches
    ensures deleted == |matches|
    ensures |w.trace| == |old(w.trace)| + |matches| && old(w.trace) <= w.trace
  {
    var remaining := matches;
    deleted := 0;
    while remaining != {}
      invariant remaining <= matches
      invariant w.files == old(w.files) - (matches - remaining)
      invariant deleted == |matches - remaining|
      invariant |w.trace| == |old(w.trace)| + deleted && old(w.trace) <= w.trace
      decreases |remaining|
    {
      var f :| f in remaining;
      w.files := w.files - {f};
      w.trace := w.trace + [RemoveFile(f)];
      assert matches - (remaining - {f}) == (matches - remaining) + {f};
      remaining := remaining - {f};
      deleted := deleted + 1;
    }
    assert matches - remaining == matches;
  }

  /** The metadata part of delete_artifact once files were removed. */
  predicate ArtifactDropped(docs0: map<Path, Json>, docs1: map<Path, Json>, artifact: string, home: string, r: Result<()>) {
    match Metadata.ArtifactRemoval(docs0, home, artifact)
    case Err(e) => r == Err(e) && docs1 == docs0
    case Ok(None) => r == Ok(()) && docs1 == docs0
    case Ok(Some(doc)) => r == Ok(()) && docs1 == docs0[DeployMetadata(home) := doc]
  }

  /** Load, scan and ask: the part of delete_artifact before any file is touched. */
  method Guard(w: World, artifact: string, home: string) returns (r: Result<bool>)
    modifies w`stdin, w`trace
    ensures r == Proceeds(old(w.docs), old(w.stdin), artifact, home)
    ensures w.stdin == StdinAfter(old(w.docs), old(w.stdin), artifact, home)
  {
    var doc :- Metadata.LoadMetadata(w, home);
    var resources :- GetOr(doc, "resources", JObj([]));
    var partitions :- Items(resources);
    var deployedTo :- ScanLoop(partitions, artifact);
    if deployedTo != [] {
      var answer :- CloudParser.Input(w, DeletingDeployed(artifact, deployedTo));
      if !CloudParser.Accepts(answer) {
        return Ok(false);
      }
    }
    return Ok(true);
  }

  /** The part of delete_artifact after the guard: remove the matching files, then the metadata entry if any went. */
  method Purge(w: World, artifact: string, home: string, ts: string) returns (r: Result<()>)
    modifies w`files, w`trace, w`docs
    ensures w.files == old(w.files) - Matches(old(w.files), home, ts)
    ensures Matches(old(w.files), home, ts) == {} ==> r == Ok(()) && w.docs == old(w.docs)
    ensures Matches(old(w.files), home, ts) != {} ==> ArtifactDropped(old(w.docs), w.docs, artifact, home, r)
  {
    var matches := Matches(w.files, home, ts);
    var deleted := RemoveAll(w, matches);
    if deleted == 0 {
      return Ok(());
    }
    r := Metadata.RemoveArtifactFromMetadata(w, artifact, home);
  }

  /**
   * delete_artifact: when the artifact is in use and the operator does not
   * answer yes, nothing is removed; otherwise every matching file is
   * removed, and the metadata entry goes only when at least one file did.
   */
  method DeleteArtifact(w: World, artifact: string, home: string) returns (r: Result<()>)
    modifies w`stdin, w`trace, w`files, w`docs
    ensures w.stdin == StdinAfter(old(w.docs), old(w.stdin), artifact, home)
    ensures var d := Decide(old(w.docs), old(w.files), old(w.stdin), artifact, home);
      && (d.Err? ==> r == Err(d.error) && w.files == old(w.files) && w.docs == old(w.docs))
      && (d == Ok(Declined) ==> r == Ok(()) && w.files == old(w.files) && w.docs == old(w.docs))
      && (d.Ok? && d.value.Delete? ==> w.files == old(w.files) - d.value.matches)
      && (d.Ok? && d.value.Delete? && d.value.matches == {} ==> r == Ok(()) && w.docs == old(w.docs))
      && (d.Ok? && d.value.Delete? && d.value.matches != {} ==> ArtifactDropped(old(w.docs), w.docs, artifact, home, r))
  {
    ghost var d := Decide(w.docs, w.files, w.stdin, artifact, home);
    ghost var stdin1 := StdinAfter(w.docs, w.stdin, artifact, home);
    var proceeds := Guard(w, artifact, home);
    assert w.stdin == stdin1;
    if proceeds.Err? {
      assert d == Err(proceeds.error);
      return Err(proceeds.error);
    }
    if !proceeds.value {
      assert d == Ok(Declined);
      return Ok(());
    }
    var ts := ExtractTimestamp(artifact);
    if ts.Err? {
      assert d == Err(ts.error);
      return Err(ts.error);
    }
    assert d == Ok(Delete(Matches(w.files, home, ts.value)));
    r := Purge(w, artifact, home, ts.value);
  }
}
