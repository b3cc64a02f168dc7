/**
 * File-system paths as pathlib builds them, and the fixed layout of a build
 * home: where artifacts, the deploy metadata file and the proxy client live.
 */
module Paths {
  import Text

  /**
   * A POSIX path: whether it is absolute, and its components.  pathlib drops
   * empty and "." components, so `Path("a//./b")` equals `Path("a/b")`.
   */
  datatype Path = Path(absolute: bool, parts: seq<string>)

  predicate IsComponent(c: string) {
    c != "" && c != "." && '/' !in c
  }

  predicate AllComponents(parts: seq<string>) {
    forall i :: 0 <= i < |parts| ==> IsComponent(parts[i])
  }

  function DropEmpty(pieces: seq<string>): (r: seq<string>)
    requires forall i :: 0 <= i < |pieces| ==> '/' !in pieces[i]
    ensures AllComponents(r)
    ensures AllComponents(pieces) ==> r == pieces
  {
    if pieces == [] then []
    else if pieces[0] == "" || pieces[0] == "." then DropEmpty(pieces[1..])
    else [pieces[0]] + DropEmpty(pieces[1..])
  }

  /** The components of a path string. */
  function Components(s: string): (r: seq<string>)
    ensures AllComponents(r)
  {
    DropEmpty(Text.Split(s, '/'))
  }

  /** Components written with single slashes parse back to themselves. */
  lemma ComponentsOfJoin(parts: seq<string>)
    requires |parts| >= 1 && AllComponents(parts)
    ensures Components(Text.Join(parts, '/')) == parts
  {
    Text.SplitJoin(parts, '/');
  }

  /** Path(s). */
  function FromString(s: string): Path {
    Path(|s| > 0 && s[0] == '/', Components(s))
  }

  /** p / rel: an absolute right-hand side replaces p. */
  function Div(p: Path, rel: string): Path {
    if |rel| > 0 && rel[0] == '/' then FromString(rel)
    else Path(p.absolute, p.parts + Components(rel))
  }

  /** str(p): "/" for the root, "." for the empty relative path, components joined by '/' otherwise. */
  function ToString(p: Path): string {
    if p.parts == [] then (if p.absolute then "/" else ".")
    else Text.Join((if p.absolute then [""] else []) + p.parts, '/')
  }

  /** Path(str(p)) == p for every path pathlib can produce. */
  lemma ToStringRoundTrip(p: Path)
    requires AllComponents(p.parts)
    ensures FromString(ToString(p)) == p
  {
    if p.parts == [] {
      EmptyRoundTrip(p.absolute);
    } else if p.absolute {
      AbsoluteRoundTrip(p.parts);
    } else {
      RelativeRoundTrip(p.parts);
    }
  }

  /** A relative path's string is its components joined by slashes, and parses back. */
  lemma RelativeRoundTrip(parts: seq<string>)
    requires parts != [] && AllComponents(parts)
    ensures FromString(ToString(Path(false, parts))) == Path(false, parts)
  {
    assert [] + parts == parts;
    Text.SplitJoin(parts, '/');
    var s := Text.Join(parts, '/');
    JoinStart(parts, '/');
    assert s[0] == parts[0][0];
  }

  /** A join starts with the start of its first piece. */
  lemma JoinStart(pieces: seq<string>, sep: char)
    requires |pieces| >= 1 && pieces[0] != ""
    ensures Text.Join(pieces, sep)[0] == pieces[0][0]
  {
  }

  /** "/" and "." parse back to the root and the empty relative path. */
  lemma EmptyRoundTrip(absolute: bool)
    ensures FromString(ToString(Path(absolute, []))) == Path(absolute, [])
  {
    if absolute {
      assert Text.IndexOf("/", '/') == 0;
      assert Text.Split("/", '/') == ["", ""] by {
        assert "/"[1..] == "";
      }
    } else {
      assert Text.Split(".", '/') == ["."];
    }
  }

  /** An absolute path's string is a slash followed by its components, and parses back. */
  lemma AbsoluteRoundTrip(parts: seq<string>)
    requires parts != [] && AllComponents(parts)
    ensures FromString(ToString(Path(true, parts))) == Path(true, parts)
  {
    var pieces := [""] + parts;
    Text.SplitJoin(pieces, '/');
    assert pieces[1..] == parts;
    var s := Text.Join(pieces, '/');
    assert s == "/" + Text.Join(parts, '/');
    assert DropEmpty(pieces) == DropEmpty(parts);
  }

  /** Appending a relative string keeps every component well formed. */
  lemma DivComponents(p: Path, rel: string)
    requires AllComponents(p.parts)
    ensures AllComponents(Div(p, rel).parts)
    ensures (|rel| == 0 || rel[0] != '/') ==>
      Div(p, rel).absolute == p.absolute && |p.parts| <= |Div(p, rel).parts| && Div(p, rel).parts[..|p.parts|] == p.parts
    ensures |rel| > 0 && rel[0] == '/' ==> Div(p, rel) == FromString(rel) && Div(p, rel).absolute
  {
    if |rel| == 0 || rel[0] != '/' {
      assert (p.parts + Components(rel))[..|p.parts|] == p.parts;
    }
  }

  /** p / "a/b/c" appends exactly the components a, b and c. */
  lemma DivJoin(p: Path, pieces: seq<string>)
    requires |pieces| >= 1 && AllComponents(pieces)
    ensures Div(p, Text.Join(pieces, '/')) == Path(p.absolute, p.parts + pieces)
  {
    assert IsComponent(pieces[0]);
    JoinStart(pieces, '/');
    ComponentsOfJoin(pieces);
  }

  /** The final component, or "" for a root or empty path. */
  function Name(p: Path): string {
    if p.parts == [] then "" else p.parts[|p.parts| - 1]
  }

  /** The last dot of a name that neither starts nor ends with it. */
  function SuffixDot(name: string): (i: int)
    ensures -1 <= i < |name|
    ensures i >= 0 ==> 0 < i < |name| - 1 && name[i] == '.'
  {
    LastDot(name, |name|)
  }

  function LastDot(name: string, end: nat): (i: int)
    requires end <= |name|
    ensures -1 <= i < end
    ensures i >= 0 ==> 0 < i < |name| - 1 && name[i] == '.'
  {
    if end == 0 then -1
    else if name[end - 1] == '.' then
      (if 0 < end - 1 < |name| - 1 then end - 1 else -1)
    else LastDot(name, end - 1)
  }

  /** p.parent: the path without its last component; the root and "." are their own parents. */
  function Parent(p: Path): (r: Path)
    ensures r.absolute == p.absolute
    ensures p.parts != [] ==> r.parts + [Name(p)] == p.parts
  {
    if p.parts == [] then p else Path(p.absolute, p.parts[..|p.parts| - 1])
  }

  /** The name without its last suffix: "a.wic.vhd" has stem "a.wic". */
  function Stem(p: Path): (r: string)
    ensures r <= Name(p)
  {
    var name := Name(p);
    var i := SuffixDot(name);
    if i >= 0 then name[..i] else name
  }

  /** Adding one component to a directory gives a path whose name is that component. */
  lemma NameOfChild(dir: Path, name: string)
    requires IsComponent(name)
    ensures Div(dir, name) == Path(dir.absolute, dir.parts + [name])
    ensures Name(Div(dir, name)) == name
  {
    ComponentsOfJoin([name]);
  }

  // The layout under a build home.

  function Home(home: string): Path { FromString(home) }

  function YoctoManifests(home: string): Path { Div(Home(home), "yocto-manifests") }

  /** "reproducible-build/artifacts", written as its components. */
  function Artifacts(home: string): Path { Div(YoctoManifests(home), Text.Join(["reproducible-build", "artifacts"], '/')) }

  /** The file-name prefix of every image the build produces; it does not depend on the home. */
  const ArtifactPrefix := "cvm-image-azure-tdx.rootfs"

  function RepoRoot(home: string): Path { Div(Home(home), "deploy") }

  function DeployMetadata(home: string): Path { Div(RepoRoot(home), "deploy_metadata.json") }

  /** "cvm-reverse-proxy/build/proxy-client", written as its components. */
  function ProxyClient(home: string): Path { Div(Home(home), Text.Join(["cvm-reverse-proxy", "build", "proxy-client"], '/')) }

  /** The artifacts directory is home/yocto-manifests/reproducible-build/artifacts. */
  lemma ArtifactsLayout(home: string)
    ensures Artifacts(home) == Path(Home(home).absolute, Home(home).parts + ["yocto-manifests", "reproducible-build", "artifacts"])
  {
    ArtifactsUnder(Home(home));
  }

  /** The artifacts directory below any home path. */
  lemma ArtifactsUnder(h: Path)
    ensures Div(Div(h, "yocto-manifests"), Text.Join(["reproducible-build", "artifacts"], '/'))
            == Path(h.absolute, h.parts + ["yocto-manifests", "reproducible-build", "artifacts"])
  {
    NameOfChild(h, "yocto-manifests");
    var pieces := ["reproducible-build", "artifacts"];
    assert IsComponent(pieces[0]) && IsComponent(pieces[1]);
    ComponentsOfJoin(pieces);
    var rel := Text.Join(pieces, '/');
    assert rel[0] == 'r';
    assert Div(Div(h, "yocto-manifests"), rel) == Path(h.absolute, (h.parts + ["yocto-manifests"]) + pieces);
    assert (h.parts + ["yocto-manifests"]) + pieces == h.parts + ["yocto-manifests", "reproducible-build", "artifacts"];
  }

  /** The metadata file is home/deploy/deploy_metadata.json. */
  lemma DeployMetadataLayout(home: string)
    ensures DeployMetadata(home) == Path(Home(home).absolute, Home(home).parts + ["deploy", "deploy_metadata.json"])
  {
    var h := Home(home);
    ComponentsOfJoin(["deploy"]);
    ComponentsOfJoin(["deploy_metadata.json"]);
    assert (h.parts + ["deploy"]) + ["deploy_metadata.json"] == h.parts + ["deploy", "deploy_metadata.json"];
  }

  /** The proxy client binary is home/cvm-reverse-proxy/build/proxy-client. */
  lemma ProxyClientLayout(home: string)
    ensures ProxyClient(home) == Path(Home(home).absolute, Home(home).parts + ["cvm-reverse-proxy", "build", "proxy-client"])
  {
    ComponentsOfJoin(["cvm-reverse-proxy", "build", "proxy-client"]);
  }

  /** The metadata file is never inside the artifacts directory, so deleting artifacts leaves it alone. */
  lemma MetadataOutsideArtifacts(home: string, name: string)
    ensures DeployMetadata(home) != Path(Artifacts(home).absolute, Artifacts(home).parts + [name])
  {
    ArtifactsLayout(home);
    DeployMetadataLayout(home);
    var n := |Home(home).parts|;
    assert DeployMetadata(home).parts[n] == "deploy";
    assert (Artifacts(home).parts + [name])[n] == "yocto-manifests";
  }

  /** Two homes share a metadata file exactly when they are the same directory. */
  lemma DeployMetadataInjective(home1: string, home2: string)
    ensures DeployMetadata(home1) == DeployMetadata(home2) <==> Home(home1) == Home(home2)
  {
    DeployMetadataLayout(home1);
    DeployMetadataLayout(home2);
    var p1, p2 := Home(home1).parts, Home(home2).parts;
    if DeployMetadata(home1) == DeployMetadata(home2) {
      var q1, q2 := p1 + ["deploy", "deploy_metadata.json"], p2 + ["deploy", "deploy_metadata.json"];
      assert q1 == q2;
      assert |p1| == |p2|;
      assert p1 == q1[..|p1|] == q2[..|p2|] == p2;
    }
  }
}
