/**
 * The GCP binding: each operation is one or more Compute Engine or Cloud
 * Storage requests, modelled as calls on the world.  A request whose
 * long-running operation finishes with an error fails like a request that
 * raises.  Resource names are sanitised to the characters GCP accepts.
 */
module GcpApi {
  import opened Wrappers
  import opened Text
  import opened Json
  import opened Paths
  import opened Env
  import CloudParser
  import CloudApi
  import GcpDefaults
  import Metadata
  import DeployConfig
  import AzureApi

  type DeployConfigs = DeployConfig.DeployConfigs

  // ---------------------------------------------------------------------
  // Name sanitising.

  /** The characters a GCP resource name may hold: lower-case letters, digits and hyphens. */
  predicate IsNameChar(ch: char) {
    IsLowerLetter(ch) || IsDigit(ch) || ch == '-'
  }

  predicate AllNameChars(s: string) {
    forall i :: 0 <= i < |s| ==> IsNameChar(s[i])
  }

  const MaxNameLength := 63

  /** Underscores and dots become hyphens. */
  function HyphenateSeparators(s: string): (r: string)
    ensures |r| == |s|
    ensures forall i :: 0 <= i < |s| ==> r[i] == if s[i] == '_' || s[i] == '.' then '-' else s[i]
  {
    if s == [] then []
    else [if s[0] == '_' || s[0] == '.' then '-' else s[0]] + HyphenateSeparators(s[1..])
  }

  /** Drops every character outside the name alphabet, keeping the order of the rest. */
  function KeepNameChars(s: string): (r: string)
    ensures |r| <= |s|
    ensures AllNameChars(r)
    ensures AllNameChars(s) ==> r == s
  {
    if s == [] then []
    else if IsNameChar(s[0]) then [s[0]] + KeepNameChars(s[1..])
    else KeepNameChars(s[1..])
  }

  /** A name that does not start with a letter gets the prefix "disk-". */
  function StartWithLetter(s: string): (r: string)
    ensures AllNameChars(s) ==> AllNameChars(r)
    ensures r == [] <==> s == []
    ensures r != [] ==> IsLowerLetter(r[0])
    ensures s == [] || IsLowerLetter(s[0]) ==> r == s
  {
    if s != [] && !IsLowerLetter(s[0]) then
      assert forall i :: 5 <= i < 5 + |s| ==> ("disk-" + s)[i] == s[i - 5];
      "disk-" + s
    else s
  }

  function Truncate(s: string, n: nat): (r: string)
    ensures |r| <= n && r <= s
    ensures |s| <= n ==> r == s
    ensures AllNameChars(s) ==> AllNameChars(r)
    ensures s != [] && n >= 1 ==> r != [] && r[0] == s[0]
  {
    if |s| > n then s[..n] else s
  }

  /** str.rstrip("-"). */
  function RStripHyphens(s: string): (r: string)
    ensures r <= s
    ensures r == [] || r[|r| - 1] != '-'
    ensures s == [] || s[|s| - 1] != '-' ==> r == s
    ensures AllNameChars(s) ==> AllNameChars(r)
    ensures s != [] && s[0] != '-' ==> r != [] && r[0] == s[0]
  {
    if s != [] && s[|s| - 1] == '-' then RStripHyphens(s[..|s| - 1]) else s
  }

  /** What survives lower-casing, hyphenating and filtering. */
  function Filtered(name: string): (r: string)
    ensures AllNameChars(r)
  {
    KeepNameChars(HyphenateSeparators(Lower(name)))
  }

  /** _sanitize_gcp_name. */
  function SanitizeGcpName(name: string): (r: string)
    ensures AllNameChars(r)
    ensures |r| <= MaxNameLength
    ensures r == [] || r[|r| - 1] != '-'
    ensures r != [] ==> IsLowerLetter(r[0])
    ensures r == [] <==> Filtered(name) == []
  {
    RStripHyphens(Truncate(StartWithLetter(Filtered(name)), MaxNameLength))
  }

  /** A name GCP accepts as it is. */
  predicate IsGcpName(s: string) {
    && AllNameChars(s)
    && |s| <= MaxNameLength
    && (s == [] || (IsLowerLetter(s[0]) && s[|s| - 1] != '-'))
  }

  /** Sanitising leaves a name GCP already accepts unchanged. */
  lemma SanitizeFixesGcpNames(s: string)
    requires IsGcpName(s)
    ensures SanitizeGcpName(s) == s
  {
    forall i | 0 <= i < |s|
      ensures LowerChar(s[i]) == s[i] && s[i] != '_' && s[i] != '.'
    {
      assert IsNameChar(s[i]);
    }
    assert Lower(s) == s;
    assert HyphenateSeparators(s) == s;
    assert Filtered(s) == s;
    assert StartWithLetter(s) == s;
    assert Truncate(s, MaxNameLength) == s;
  }

  /** _sanitize_gcp_name is idempotent. */
  lemma SanitizeIdempotent(name: string)
    ensures SanitizeGcpName(SanitizeGcpName(name)) == SanitizeGcpName(name)
  {
    SanitizeFixesGcpNames(SanitizeGcpName(name));
  }

  /** Lower-casing and hyphenating work character by character. */
  lemma HyphenateLowerConcat(p: string, q: string)
    ensures HyphenateSeparators(Lower(p + q)) == HyphenateSeparators(Lower(p)) + HyphenateSeparators(Lower(q))
  {
    LowerConcat(p, q);
    HyphenateConcat(Lower(p), Lower(q));
  }

  lemma LowerConcat(p: string, q: string)
    ensures Lower(p + q) == Lower(p) + Lower(q)
  {
    var l, r := Lower(p + q), Lower(p) + Lower(q);
    assert |l| == |r|;
    forall i | 0 <= i < |l| ensures l[i] == r[i] {
      if i < |p| {
        assert (p + q)[i] == p[i];
      } else {
        assert (p + q)[i] == q[i - |p|];
      }
    }
  }

  lemma HyphenateConcat(p: string, q: string)
    ensures HyphenateSeparators(p + q) == HyphenateSeparators(p) + HyphenateSeparators(q)
  {
    var l, r := HyphenateSeparators(p + q), HyphenateSeparators(p) + HyphenateSeparators(q);
    assert |l| == |r|;
    forall i | 0 <= i < |l| ensures l[i] == r[i] {
      if i < |p| {
        assert (p + q)[i] == p[i];
      } else {
        assert (p + q)[i] == q[i - |p|];
      }
    }
  }

  /**
   * Sanitising forgets the difference between a dot and an underscore, so
   * two artifacts whose names differ only there share one GCP disk name.
   */
  lemma DotAndUnderscoreCollide(vmName: string, x: string, y: string)
    ensures x + "." + y != x + "_" + y
    ensures SanitizeGcpName(CloudApi.GetRawDiskName(vmName, x + "." + y))
            == SanitizeGcpName(CloudApi.GetRawDiskName(vmName, x + "_" + y))
  {
    assert (x + "." + y)[|x|] != (x + "_" + y)[|x|];
    var front := vmName + "_" + x;
    assert CloudApi.GetRawDiskName(vmName, x + "." + y) == (front + ".") + y;
    assert CloudApi.GetRawDiskName(vmName, x + "_" + y) == (front + "_") + y;
    HyphenateLowerConcat(front + ".", y);
    HyphenateLowerConcat(front + "_", y);
    HyphenateLowerConcat(front, ".");
    HyphenateLowerConcat(front, "_");
    assert HyphenateSeparators(Lower(".")) == HyphenateSeparators(Lower("_"));
  }

  // ---------------------------------------------------------------------
  // Projects, GCP's resource groups.

  /** resource_group_exists: the project can be fetched; any error counts as absence. */
  method ResourceGroupExists(w: World, name: string) returns (b: bool)
    modifies w`trace
    ensures w.trace == old(w.trace) + [GcpProjectGet(name)]
    ensures b <==> name in w.projects && GcpProjectGet(name) !in w.broken
  {
    var ok := w.Attempt(GcpProjectGet(name));
    b := ok && name in w.projects;
  }

  /** create_resource_group: projects cannot be created without organisation access, so it always raises. */
  method CreateResourceGroup(name: string, location: string) returns (r: Result<()>)
    ensures r.Err? && r.error == RuntimeError
  {
    return Err(RuntimeError);
  }

  /**
   * ensure_created_resource_group: only looks the project up and warns when
   * it is missing; unlike the Azure binding it never asks and never creates.
   */
  method EnsureCreatedResourceGroup(w: World, name: string, location: string) returns (r: Result<()>)
    modifies w`trace
    ensures r == Ok(())
    ensures w.trace == old(w.trace) + [GcpProjectGet(name)]
  {
    var _ := ResourceGroupExists(w, name);
    return Ok(());
  }

  // ---------------------------------------------------------------------
  // Static addresses, reserved in the default region.

  function AddressKey(project: string, name: string): (string, string, string) {
    (project, GcpDefaults.DefaultRegion, name)
  }

  /**
   * What get_existing_public_ip reports: nothing when the lookup raises (no
   * such address, or the request broke) or the address is empty.
   */
  function ExistingAddress(addresses: map<(string, string, string), string>, failed: bool, project: string, name: string)
    : (r: Option<string>)
    ensures r.None? <==> failed || AddressKey(project, name) !in addresses || addresses[AddressKey(project, name)] == ""
    ensures r.Some? ==> r.value == addresses[AddressKey(project, name)] && r.value != ""
  {
    if failed || AddressKey(project, name) !in addresses then None
    else if addresses[AddressKey(project, name)] == "" then None
    else Some(addresses[AddressKey(project, name)])
  }

  method GetExistingPublicIp(w: World, name: string, project: string) returns (r: Option<string>)
    modifies w`trace
    ensures w.trace == old(w.trace) + [GcpAddressGet(project, GcpDefaults.DefaultRegion, name)]
    ensures r == ExistingAddress(w.addresses, GcpAddressGet(project, GcpDefaults.DefaultRegion, name) in w.broken, project, name)
  {
    var ok := w.Attempt(GcpAddressGet(project, GcpDefaults.DefaultRegion, name));
    if !ok || AddressKey(project, name) !in w.addresses || w.addresses[AddressKey(project, name)] == "" {
      return None;
    }
    return Some(w.addresses[AddressKey(project, name)]);
  }

  /**
   * create_public_ip: reserves the address in the default region (the
   * location argument is ignored), then reads back what GCP allocated.
   */
  method CreatePublicIp(w: World, name: string, project: string, location: string) returns (r: Result<string>)
    modifies w`trace, w`addresses
    ensures GcpAddressInsert(project, GcpDefaults.DefaultRegion, name) in w.broken ==>
      && r == Err(ApiError) && w.addresses == old(w.addresses)
      && w.trace == old(w.trace) + [GcpAddressInsert(project, GcpDefaults.DefaultRegion, name)]
    ensures GcpAddressInsert(project, GcpDefaults.DefaultRegion, name) !in w.broken ==>
      && w.addresses == old(w.addresses)[AddressKey(project, name) := w.gcpAllocate(project, GcpDefaults.DefaultRegion, name)]
      && w.trace == old(w.trace) + [GcpAddressInsert(project, GcpDefaults.DefaultRegion, name),
                                    GcpAddressGet(project, GcpDefaults.DefaultRegion, name)]
      && r == if GcpAddressGet(project, GcpDefaults.DefaultRegion, name) in w.broken then Err(ApiError)
              else Ok(w.gcpAllocate(project, GcpDefaults.DefaultRegion, name))
  {
    var inserted := w.Attempt(GcpAddressInsert(project, GcpDefaults.DefaultRegion, name));
    if !inserted {
      return Err(ApiError);
    }
    w.addresses := w.addresses[AddressKey(project, name) := w.gcpAllocate(project, GcpDefaults.DefaultRegion, name)];
    var fetched := w.Attempt(GcpAddressGet(project, GcpDefaults.DefaultRegion, name));
    if !fetched {
      return Err(ApiError);
    }
    return Ok(w.addresses[AddressKey(project, name)]);
  }

  /** An address just reserved is found by the next lookup, unless that lookup breaks or GCP allocated nothing. */
  lemma CreatedAddressIsFound(addresses: map<(string, string, string), string>, reserved: string, project: string, name: string)
    ensures ExistingAddress(addresses[AddressKey(project, name) := reserved], false, project, name)
            == if reserved == "" then None else Some(reserved)
  {
  }

  // ---------------------------------------------------------------------
  // OS disks.

  /** get_disk_name: the sanitised raw disk name. */
  function GetDiskName(config: DeployConfigs, imagePath: Path): (r: string)
    ensures IsGcpName(r)
  {
    SanitizeGcpName(CloudApi.GetRawDiskName(config.vm.name, Name(imagePath)))
  }

  /** The (project, zone, name) of the disk an image becomes. */
  function DiskKey(config: DeployConfigs, imagePath: Path): (string, string, string) {
    (config.vm.resourceGroup, config.vm.Location(), GetDiskName(config, imagePath))
  }

  /** The (project, zone, name) of the disk delete_disk removes. */
  function DeletedDisk(project: string, vmName: string, artifact: string, zone: string): (string, string, string) {
    (project, zone, SanitizeGcpName(CloudApi.GetRawDiskName(vmName, artifact)))
  }

  /**
   * The disk checked and created for an image is the disk deleted for the
   * artifact named like the image file.  The converse does not hold: see
   * DotAndUnderscoreCollide.
   */
  lemma DiskNamesAgree(config: DeployConfigs, imagePath: Path)
    ensures DeletedDisk(config.vm.resourceGroup, config.vm.name, Name(imagePath), config.vm.Location()) == DiskKey(config, imagePath)
  {
  }

  /** disk_exists: the disk can be fetched; any error counts as absence. */
  method DiskExists(w: World, config: DeployConfigs, imagePath: Path) returns (b: bool)
    modifies w`trace
    ensures w.trace == old(w.trace) + [GcpDiskGet(DiskKey(config, imagePath).0, DiskKey(config, imagePath).1, DiskKey(config, imagePath).2)]
    ensures b <==> DiskKey(config, imagePath) in w.gcpDisks
                   && GcpDiskGet(DiskKey(config, imagePath).0, DiskKey(config, imagePath).1, DiskKey(config, imagePath).2) !in w.broken
  {
    var key := DiskKey(config, imagePath);
    var ok := w.Attempt(GcpDiskGet(key.0, key.1, key.2));
    b := ok && key in w.gcpDisks;
  }

  /** The bucket images are staged in: one per project. */
  function BucketName(project: string): string {
    project + "-images"
  }

  /** The image a VM's disk is made from, named after the VM and the image file's stem. */
  function ImageName(config: DeployConfigs, imagePath: Path): (r: string)
    ensures IsGcpName(r)
  {
    SanitizeGcpName(config.vm.name + "-" + Stem(imagePath))
  }

  /** The file's suffix, dot included, or "" when it has none. */
  function Suffix(p: Path): string {
    Name(p)[|Stem(p)|..]
  }

  /** A VHD, which GCP cannot import directly, is recognised by its suffix in any case. */
  predicate IsVhd(imagePath: Path) {
    var suffix := Lower(Suffix(imagePath));
    suffix == ".vhd" || suffix == ".vhdx"
  }

  /** Where _convert_vhd_to_targz leaves its archive: beside the VHD, named after its stem. */
  function PackedPath(vhdPath: Path): Path {
    Div(Parent(vhdPath), Stem(vhdPath) + ".tar.gz")
  }

  /** The file that is uploaded: the archive for a VHD, else the image itself. */
  function UploadPath(imagePath: Path): Path {
    if IsVhd(imagePath) then PackedPath(imagePath) else imagePath
  }

  /** The object an image is stored as: a VHD is converted to a .tar.gz first. */
  function UploadedBlob(imagePath: Path): string {
    if IsVhd(imagePath) then Stem(imagePath) + ".tar.gz" else Name(imagePath)
  }

  /** The object name is the uploaded file's name, as the source takes it from upload_path.name. */
  lemma UploadedBlobIsName(imagePath: Path)
    requires AllComponents(imagePath.parts)
    ensures UploadedBlob(imagePath) == Name(UploadPath(imagePath))
  {
    if IsVhd(imagePath) {
      var stem := Stem(imagePath);
      var name := Name(imagePath);
      assert imagePath.parts != [] by {
        assert Suffix(imagePath) != "";
      }
      assert IsComponent(name) by {
        assert name == imagePath.parts[|imagePath.parts| - 1];
      }
      assert '/' !in stem by {
        forall k | 0 <= k < |stem| ensures stem[k] != '/' {
          assert stem[k] == name[k];
        }
      }
      var packed := stem + ".tar.gz";
      assert '/' !in packed by {
        forall k | 0 <= k < |packed| ensures packed[k] != '/' {
          if k < |stem| { assert packed[k] == stem[k]; }
        }
      }
      assert packed != "." by { assert |packed| >= 7; }
      NameOfChild(Parent(imagePath), packed);
    }
  }

  /** get_bucket finds the project's image bucket. */
  ghost predicate BucketFound(w: World, project: string)
    reads w`buckets
  {
    GcsBucketGet(project, BucketName(project)) !in w.broken && (project, BucketName(project)) in w.buckets
  }

  /** Neither get_bucket nor create_bucket succeeds, so the upload raises before it looks at the file. */
  ghost predicate BucketFails(w: World, project: string)
    reads w`buckets
  {
    !BucketFound(w, project) && GcsBucketCreate(project, BucketName(project), GcpDefaults.DefaultRegion) in w.broken
  }

  /**
   * The start of _upload_to_gcs: get_bucket, and when that raises for any
   * reason, create_bucket in DEFAULT_REGION.
   */
  method EnsureBucket(w: World, project: string) returns (r: Result<()>)
    modifies w`trace, w`buckets
    ensures var bucket := BucketName(project);
      old(BucketFound(w, project)) ==>
        r == Ok(()) && w.trace == old(w.trace) + [GcsBucketGet(project, bucket)] && w.buckets == old(w.buckets)
    ensures var bucket := BucketName(project);
      var create := GcsBucketCreate(project, bucket, GcpDefaults.DefaultRegion);
      !old(BucketFound(w, project)) ==>
        && w.trace == old(w.trace) + [GcsBucketGet(project, bucket), create]
        && (r.Ok? <==> create !in w.broken)
        && w.buckets == if r.Ok? then old(w.buckets) + {(project, bucket)} else old(w.buckets)
    ensures r.Err? <==> old(BucketFails(w, project))
    ensures r.Ok? ==> (project, BucketName(project)) in w.buckets
    ensures r.Err? ==> r.error == ApiError
  {
    var bucket := BucketName(project);
    var found := w.Attempt(GcsBucketGet(project, bucket));
    if found && (project, bucket) in w.buckets {
      return Ok(());
    }
    var created := w.Attempt(GcsBucketCreate(project, bucket, GcpDefaults.DefaultRegion));
    if !created {
      return Err(ApiError);
    }
    w.buckets := w.buckets + {(project, bucket)};
    return Ok(());
  }

  /**
   * _convert_vhd_to_targz: qemu-img turns the VHD into a raw disk, tar packs
   * it, and the archive is copied beside the VHD.  Either tool failing, a
   * missing VHD included, raises RuntimeError.
   */
  method ConvertVhdToTarGz(w: World, vhdPath: Path) returns (r: Result<Path>)
    modifies w`trace, w`files
    ensures vhdPath !in old(w.files) || ConvertVhd(vhdPath) in w.broken ==>
      r == Err(RuntimeError) && w.trace == old(w.trace) + [ConvertVhd(vhdPath)] && w.files == old(w.files)
    ensures vhdPath in old(w.files) && ConvertVhd(vhdPath) !in w.broken ==>
      && w.trace == old(w.trace) + [ConvertVhd(vhdPath), PackRaw(vhdPath)]
      && (r.Ok? <==> PackRaw(vhdPath) !in w.broken)
    ensures r.Err? ==> r.error == RuntimeError && w.files == old(w.files)
    ensures r.Ok? ==> r.value == PackedPath(vhdPath) && w.files == old(w.files)[PackedPath(vhdPath) := w.packedSize(vhdPath)]
  {
    var converted := w.Attempt(ConvertVhd(vhdPath));
    if !converted || vhdPath !in w.files {
      return Err(RuntimeError);
    }
    var packed := w.Attempt(PackRaw(vhdPath));
    if !packed {
      return Err(RuntimeError);
    }
    w.files := w.files[PackedPath(vhdPath) := w.packedSize(vhdPath)];
    return Ok(PackedPath(vhdPath));
  }

  /** The conversion and the upload succeed: what the upload needs once the bucket is there. */
  predicate Uploads(broken: set<Call>, project: string, imagePath: Path) {
    && (IsVhd(imagePath) ==> ConvertVhd(imagePath) !in broken && PackRaw(imagePath) !in broken)
    && GcpUpload(project, BucketName(project), UploadedBlob(imagePath), UploadPath(imagePath)) !in broken
  }

  /**
   * The requests of _upload_to_gcs once the bucket is there: a VHD is
   * converted and packed, stopping at the first tool that fails (a missing
   * VHD fails the conversion); a missing plain file is refused by its stat
   * before any request; then the upload.
   */
  function PutCalls(broken: set<Call>, files: map<Path, nat>, project: string, imagePath: Path): (r: seq<Call>)
    ensures |r| <= 3
    ensures imagePath in files && Uploads(broken, project, imagePath) ==>
      0 < |r| && r[|r| - 1] == GcpUpload(project, BucketName(project), UploadedBlob(imagePath), UploadPath(imagePath))
  {
    var upload := GcpUpload(project, BucketName(project), UploadedBlob(imagePath), UploadPath(imagePath));
    if IsVhd(imagePath) then
      if imagePath !in files || ConvertVhd(imagePath) in broken then [ConvertVhd(imagePath)]
      else if PackRaw(imagePath) in broken then [ConvertVhd(imagePath), PackRaw(imagePath)]
      else [ConvertVhd(imagePath), PackRaw(imagePath), upload]
    else if imagePath !in files then []
    else [upload]
  }

  /** The bucket requests: get_bucket, and create_bucket when the get does not find it. */
  ghost function BucketCalls(w: World, project: string): (r: seq<Call>)
    reads w`buckets
    ensures 1 <= |r| <= 2 && r[0] == GcsBucketGet(project, BucketName(project))
    ensures |r| == 2 <==> !BucketFound(w, project)
  {
    var bucket := BucketName(project);
    if BucketFound(w, project) then [GcsBucketGet(project, bucket)]
    else [GcsBucketGet(project, bucket), GcsBucketCreate(project, bucket, GcpDefaults.DefaultRegion)]
  }

  /** Every request of _upload_to_gcs: the bucket ones, then, when the bucket is there, the rest. */
  ghost function UploadCalls(w: World, project: string, imagePath: Path): (r: seq<Call>)
    reads w`buckets, w`files
    ensures BucketFails(w, project) ==> r == BucketCalls(w, project)
    ensures !BucketFails(w, project) ==> r == BucketCalls(w, project) + PutCalls(w.broken, w.files, project, imagePath)
  {
    BucketCalls(w, project) + if BucketFails(w, project) then [] else PutCalls(w.broken, w.files, project, imagePath)
  }

  /**
   * The rest of _upload_to_gcs once the bucket is there: a VHD is converted,
   * then the file to upload is stat'ed and uploaded.
   */
  method PutObject(w: World, project: string, imagePath: Path) returns (r: Result<string>)
    modifies w`trace, w`files, w`blobs
    ensures w.trace == old(w.trace) + PutCalls(w.broken, old(w.files), project, imagePath)
    ensures imagePath !in old(w.files) ==>
      r == Err(if IsVhd(imagePath) then RuntimeError else FileNotFoundError) && w.files == old(w.files)
    ensures imagePath in old(w.files) ==> (r.Ok? <==> Uploads(w.broken, project, imagePath))
    ensures r.Ok? ==> r.value == UploadedBlob(imagePath) && w.blobs == old(w.blobs) + {(BucketName(project), r.value)}
    ensures r.Err? ==> w.blobs == old(w.blobs)
    ensures w.files == old(w.files) || (IsVhd(imagePath) && w.files == old(w.files)[PackedPath(imagePath) := w.packedSize(imagePath)])
  {
    var uploadPath := imagePath;
    if IsVhd(imagePath) {
      var packed := ConvertVhdToTarGz(w, imagePath);
      if packed.Err? {
        return Err(packed.error);
      }
      uploadPath := packed.value;
    } else if imagePath !in w.files {
      return Err(FileNotFoundError);
    }
    var blob := UploadedBlob(imagePath);
    var ok := w.Attempt(GcpUpload(project, BucketName(project), blob, uploadPath));
    if !ok {
      return Err(ApiError);
    }
    w.blobs := w.blobs + {(BucketName(project), blob)};
    return Ok(blob);
  }

  /**
   * _upload_to_gcs: gets or creates the project's bucket first, converts a
   * VHD, then stats and uploads the file and returns the object name.  A
   * missing file is noticed only after the bucket request: the conversion
   * of a missing VHD raises RuntimeError, the stat of any other missing
   * file FileNotFoundError.
   */
  method UploadToGcs(w: World, project: string, imagePath: Path) returns (r: Result<string>)
    modifies w`trace, w`buckets, w`files, w`blobs
    ensures |old(w.trace)| < |w.trace| && w.trace[|old(w.trace)|] == GcsBucketGet(project, BucketName(project))
    ensures w.trace == old(w.trace) + old(UploadCalls(w, project, imagePath))
    ensures old(BucketFails(w, project)) ==> r == Err(ApiError) && w.files == old(w.files)
    ensures !old(BucketFails(w, project)) ==> (project, BucketName(project)) in w.buckets
    ensures !old(BucketFails(w, project)) && imagePath !in old(w.files) ==>
      r == Err(if IsVhd(imagePath) then RuntimeError else FileNotFoundError) && w.files == old(w.files)
    ensures !old(BucketFails(w, project)) && imagePath in old(w.files) ==>
      (r.Ok? <==> Uploads(w.broken, project, imagePath))
    ensures r.Ok? ==> r.value == UploadedBlob(imagePath) && w.blobs == old(w.blobs) + {(BucketName(project), r.value)}
    ensures r.Err? ==> w.blobs == old(w.blobs)
    ensures w.files == old(w.files) || (IsVhd(imagePath) && w.files == old(w.files)[PackedPath(imagePath) := w.packedSize(imagePath)])
  {
    ghost var trace0 := w.trace;
    ghost var bucketCalls := BucketCalls(w, project);
    ghost var putCalls := PutCalls(w.broken, w.files, project, imagePath);
    ghost var fails := BucketFails(w, project);
    assert UploadCalls(w, project, imagePath) == bucketCalls + if fails then [] else putCalls;
    var bucket := EnsureBucket(w, project);
    assert w.trace == trace0 + bucketCalls;
    if bucket.Err? {
      assert bucketCalls + [] == bucketCalls;
      return Err(bucket.error);
    }
    ghost var trace1 := w.trace;
    r := PutObject(w, project, imagePath);
    AppendAssoc(trace0, bucketCalls, putCalls);
    assert w.trace[|trace0|] == trace1[|trace0|];
  }

  /**
   * _create_image_from_gcs: an image that already exists is kept; otherwise
   * the staged object must exist and the image is created from it.
   */
  method CreateImageFromGcs(w: World, project: string, image: string, bucket: string, blob: string) returns (r: Result<()>)
    modifies w`trace, w`images
    ensures r.Ok? ==> (project, image) in w.images
    ensures w.images == if r.Ok? then old(w.images) + {(project, image)} else old(w.images)
    ensures (project, image) in old(w.images) && GcpImageGet(project, image) !in w.broken ==>
      r == Ok(()) && w.trace == old(w.trace) + [GcpImageGet(project, image)]
    ensures !((project, image) in old(w.images) && GcpImageGet(project, image) !in w.broken) ==>
      if (bucket, blob) !in w.blobs then r == Err(FileNotFoundError) && w.trace == old(w.trace) + [GcpImageGet(project, image)]
      else && w.trace == old(w.trace) + [GcpImageGet(project, image), GcpImageCreate(project, image, bucket, blob)]
           && (r.Ok? <==> GcpImageCreate(project, image, bucket, blob) !in w.broken)
           && (r.Err? ==> r.error == ApiError)
  {
    var found := w.Attempt(GcpImageGet(project, image));
    if found && (project, image) in w.images {
      return Ok(());
    }
    if (bucket, blob) !in w.blobs {
      return Err(FileNotFoundError);
    }
    var ok := w.Attempt(GcpImageCreate(project, image, bucket, blob));
    if !ok {
      return Err(ApiError);
    }
    w.images := w.images + {(project, image)};
    return Ok(());
  }

  /** _create_disk_from_image. */
  method CreateDiskFromImage(w: World, project: string, zone: string, diskName: string, image: string) returns (r: Result<()>)
    modifies w`trace, w`gcpDisks
    ensures w.trace == old(w.trace) + [GcpDiskInsert(project, zone, diskName, image)]
    ensures r.Ok? <==> GcpDiskInsert(project, zone, diskName, image) !in w.broken
    ensures r.Err? ==> r.error == ApiError
    ensures w.gcpDisks == if r.Ok? then old(w.gcpDisks) + {(project, zone, diskName)} else old(w.gcpDisks)
  {
    var ok := w.Attempt(GcpDiskInsert(project, zone, diskName, image));
    if !ok {
      return Err(ApiError);
    }
    w.gcpDisks := w.gcpDisks + {(project, zone, diskName)};
    return Ok(());
  }

  /** _upload_to_gcs succeeds: the bucket is there, the file is present, and conversion and upload go through. */
  ghost predicate Staged(w: World, project: string, imagePath: Path)
    reads w`buckets, w`files
  {
    !BucketFails(w, project) && imagePath in w.files && Uploads(w.broken, project, imagePath)
  }

  /** _create_image_from_gcs succeeds once the object is staged: the image is found, or it is created. */
  ghost predicate ImageReady(w: World, project: string, image: string, blob: string)
    reads w`images
  {
    || ((project, image) in w.images && GcpImageGet(project, image) !in w.broken)
    || GcpImageCreate(project, image, BucketName(project), blob) !in w.broken
  }

  /** The requests of _create_image_from_gcs once the object is staged. */
  ghost function ImageCalls(w: World, project: string, image: string, blob: string): seq<Call>
    reads w`images
  {
    if (project, image) in w.images && GcpImageGet(project, image) !in w.broken then [GcpImageGet(project, image)]
    else [GcpImageGet(project, image), GcpImageCreate(project, image, BucketName(project), blob)]
  }

  /**
   * Every request of create_disk's three stages, in order: the upload's,
   * then, if it succeeded, the image's, then, if that succeeded, the disk
   * insert.
   */
  ghost function StageCalls(w: World, project: string, zone: string, diskName: string, image: string, imagePath: Path)
    : (r: seq<Call>)
    reads w`buckets, w`files, w`images
    ensures UploadCalls(w, project, imagePath) <= r
    ensures Staged(w, project, imagePath) && ImageReady(w, project, image, UploadedBlob(imagePath)) ==>
      r[|r| - 1] == GcpDiskInsert(project, zone, diskName, image)
  {
    var blob := UploadedBlob(imagePath);
    UploadCalls(w, project, imagePath)
      + if !Staged(w, project, imagePath) then []
        else ImageCalls(w, project, image, blob)
             + if ImageReady(w, project, image, blob) then [GcpDiskInsert(project, zone, diskName, image)] else []
  }

  /** The three stages of create_disk, for a disk and image already named. */
  method StageImageAsDisk(w: World, project: string, zone: string, diskName: string, image: string, imagePath: Path)
    returns (r: Result<()>)
    modifies w`trace, w`buckets, w`files, w`blobs, w`images, w`gcpDisks
    ensures |old(w.trace)| < |w.trace| && w.trace[|old(w.trace)|] == GcsBucketGet(project, BucketName(project))
    ensures w.trace == old(w.trace) + old(StageCalls(w, project, zone, diskName, image, imagePath))
    ensures r.Ok? <==>
      && old(Staged(w, project, imagePath))
      && old(ImageReady(w, project, image, UploadedBlob(imagePath)))
      && GcpDiskInsert(project, zone, diskName, image) !in w.broken
    ensures imagePath !in old(w.files) ==>
      && r == Err(if old(BucketFails(w, project)) then ApiError else if IsVhd(imagePath) then RuntimeError else FileNotFoundError)
      && w.images == old(w.images) && w.files == old(w.files)
    ensures r.Ok? ==> (project, image) in w.images && w.gcpDisks == old(w.gcpDisks) + {(project, zone, diskName)}
    ensures r.Err? ==> w.gcpDisks == old(w.gcpDisks)
    ensures w.files == old(w.files) || (IsVhd(imagePath) && w.files == old(w.files)[PackedPath(imagePath) := w.packedSize(imagePath)])
  {
    ghost var trace0 := w.trace;
    ghost var uploadCalls := UploadCalls(w, project, imagePath);
    ghost var staged := Staged(w, project, imagePath);
    ghost var imageCalls := ImageCalls(w, project, image, UploadedBlob(imagePath));
    ghost var ready := ImageReady(w, project, image, UploadedBlob(imagePath));
    ghost var calls := StageCalls(w, project, zone, diskName, image, imagePath);
    var blob := UploadToGcs(w, project, imagePath);
    assert blob.Ok? <==> staged;
    if blob.Err? {
      assert calls == uploadCalls + [];
      return Err(blob.error);
    }
    ghost var trace1 := w.trace;
    ghost var rest;
    r, rest := ImageAsDisk(w, project, zone, diskName, image, blob.value);
    assert calls == uploadCalls + rest;
    AppendAssoc(trace0, uploadCalls, rest);
    assert w.trace[|trace0|] == trace1[|trace0|];
  }

  /** The image and disk stages of create_disk, once the object is staged. */
  method ImageAsDisk(w: World, project: string, zone: string, diskName: string, image: string, blob: string)
    returns (r: Result<()>, ghost calls: seq<Call>)
    requires (BucketName(project), blob) in w.blobs
    modifies w`trace, w`images, w`gcpDisks
    ensures calls == old(ImageCalls(w, project, image, blob))
                     + if old(ImageReady(w, project, image, blob)) then [GcpDiskInsert(project, zone, diskName, image)] else []
    ensures w.trace == old(w.trace) + calls
    ensures r.Ok? <==> old(ImageReady(w, project, image, blob)) && GcpDiskInsert(project, zone, diskName, image) !in w.broken
    ensures r.Ok? ==> (project, image) in w.images && w.gcpDisks == old(w.gcpDisks) + {(project, zone, diskName)}
    ensures r.Err? ==> w.gcpDisks == old(w.gcpDisks)
    ensures r.Err? ==> r.error == ApiError
  {
    ghost var trace0 := w.trace;
    ghost var imageCalls := ImageCalls(w, project, image, blob);
    ghost var ready := ImageReady(w, project, image, blob);
    var made := CreateImageFromGcs(w, project, image, BucketName(project), blob);
    assert w.trace == trace0 + imageCalls;
    if made.Err? {
      return Err(made.error), imageCalls + [];
    }
    r := CreateDiskFromImage(w, project, zone, diskName, image);
    calls := imageCalls + [GcpDiskInsert(project, zone, diskName, image)];
    AppendAssoc(trace0, imageCalls, [GcpDiskInsert(project, zone, diskName, image)]);
  }

  /** Every request create_disk makes, in order. */
  ghost function CreateDiskCalls(w: World, config: DeployConfigs, imagePath: Path): seq<Call>
    reads w`buckets, w`files, w`images
  {
    var key := DiskKey(config, imagePath);
    StageCalls(w, key.0, key.1, key.2, ImageName(config, imagePath), imagePath)
  }

  /** create_disk succeeds: the upload, the image and the disk insert all go through. */
  ghost predicate DiskCreated(w: World, config: DeployConfigs, imagePath: Path)
    reads w`buckets, w`files, w`images
  {
    var key := DiskKey(config, imagePath);
    && Staged(w, key.0, imagePath)
    && ImageReady(w, key.0, ImageName(config, imagePath), UploadedBlob(imagePath))
    && GcpDiskInsert(key.0, key.1, key.2, ImageName(config, imagePath)) !in w.broken
  }

  /**
   * create_disk: stages the image, makes a GCP image of it and a disk from
   * that, and returns the name it created, get_disk_name's.  The bucket
   * request comes first; a missing file then raises before any image or
   * disk request.
   */
  method CreateDisk(w: World, config: DeployConfigs, imagePath: Path) returns (r: Result<string>)
    modifies w`trace, w`buckets, w`files, w`blobs, w`images, w`gcpDisks
    ensures var project := config.vm.resourceGroup;
      |old(w.trace)| < |w.trace| && w.trace[|old(w.trace)|] == GcsBucketGet(project, BucketName(project))
    ensures var project := config.vm.resourceGroup;
      imagePath !in old(w.files) ==>
      && r == Err(if old(BucketFails(w, project)) then ApiError else if IsVhd(imagePath) then RuntimeError else FileNotFoundError)
      && w.images == old(w.images) && w.files == old(w.files)
    ensures w.files == old(w.files) || (IsVhd(imagePath) && w.files == old(w.files)[PackedPath(imagePath) := w.packedSize(imagePath)])
    ensures w.trace == old(w.trace) + old(CreateDiskCalls(w, config, imagePath))
    ensures r.Ok? <==> old(DiskCreated(w, config, imagePath))
    ensures r.Ok? ==>
      && r.value == GetDiskName(config, imagePath)
      && (config.vm.resourceGroup, ImageName(config, imagePath)) in w.images
      && w.gcpDisks == old(w.gcpDisks) + {DiskKey(config, imagePath)}
    ensures r.Err? ==> w.gcpDisks == old(w.gcpDisks)
  {
    var key := DiskKey(config, imagePath);
    var staged := StageImageAsDisk(w, key.0, key.1, key.2, ImageName(config, imagePath), imagePath);
    if staged.Err? {
      return Err(staged.error);
    }
    return Ok(key.2);
  }

  /** delete_disk: removes the disk named after the VM and the artifact, sanitised as create_disk names it. */
  method DeleteDisk(w: World, project: string, vmName: string, artifact: string, zone: string) returns (r: Result<()>)
    modifies w`trace, w`gcpDisks
    ensures var key := DeletedDisk(project, vmName, artifact, zone);
      && w.trace == old(w.trace) + [GcpDiskDelete(key.0, key.1, key.2)]
      && (r.Ok? <==> GcpDiskDelete(key.0, key.1, key.2) !in w.broken)
      && (r.Err? ==> r.error == ApiError)
      && w.gcpDisks == if r.Ok? then old(w.gcpDisks) - {key} else old(w.gcpDisks)
  {
    var key := DeletedDisk(project, vmName, artifact, zone);
    var ok := w.Attempt(GcpDiskDelete(key.0, key.1, key.2));
    if !ok {
      return Err(ApiError);
    }
    w.gcpDisks := w.gcpDisks - {key};
    return Ok(());
  }

  /** upload_disk: the upload already happened inside create_disk, so this does nothing. */
  method UploadDisk(config: DeployConfigs, imagePath: Path) returns (r: Result<()>)
    ensures r == Ok(())
  {
    return Ok(());
  }

  /** create_nsg: GCP has firewall rules instead of security groups, so this does nothing. */
  method CreateNsg(config: DeployConfigs) returns (r: Result<()>)
    ensures r == Ok(())
  {
    return Ok(());
  }

  // ---------------------------------------------------------------------
  // Firewall rules, GCP's security-group rules.

  /** The firewall rule's name: the VM name, a hyphen and the rule name in lower case. */
  function RuleName(config: DeployConfigs, rule: NsgRule): string {
    config.vm.name + "-" + Lower(rule.name)
  }

  /** Whether a protocol, in lower case, stands for every protocol. */
  predicate AnyProtocol(protocol: string) {
    protocol == "*" || protocol == "all"
  }

  /**
   * The firewall add_nsg_rule builds from a security rule: inbound, on the
   * project's default network, for instances tagged with the VM's name.  A
   * priority int() rejects raises ValueError before any request.
   */
  function FirewallFor(config: DeployConfigs, rule: NsgRule): (r: Result<Firewall>)
    ensures r.Err? <==> ParseInt(rule.priority).None?
    ensures r.Err? ==> r.error == ValueError
  {
    var priority := ParseInt(rule.priority);
    if priority.None? then Err(ValueError) else Ok(BuildFirewall(config, rule, priority.value))
  }

  /** The firewall for a rule whose priority parsed. */
  function BuildFirewall(config: DeployConfigs, rule: NsgRule, priority: int): Firewall {
    var protocol := Lower(rule.protocol);
    Firewall(
      RuleName(config, rule),
      "INGRESS",
      priority,
      "projects/" + config.vm.resourceGroup + "/global/networks/default",
      if AnyProtocol(protocol) then "all" else protocol,
      if AnyProtocol(protocol) || rule.port == "" then [] else [rule.port],
      [if rule.source == "*" then "0.0.0.0/0" else rule.source],
      [config.vm.name])
  }

  /**
   * What a built firewall allows: traffic in, from the rule's source ("*"
   * meaning anywhere), to the VM's instances, on the rule's port under its
   * protocol; "*" and "all" in any case mean every protocol and port, and an
   * empty port means every port of the protocol.
   */
  lemma FirewallShape(config: DeployConfigs, rule: NsgRule)
    requires FirewallFor(config, rule).Ok?
    ensures var fw := FirewallFor(config, rule).value;
      && fw.name == config.vm.name + "-" + Lower(rule.name)
      && fw.priority == ParseInt(rule.priority).value
      && fw.direction == "INGRESS"
      && fw.targetTags == [config.vm.name]
      && (fw.protocol == "all" <==> AnyProtocol(Lower(rule.protocol)))
      && (fw.protocol != "all" ==> fw.protocol == Lower(rule.protocol))
      && (fw.ports == [] <==> AnyProtocol(Lower(rule.protocol)) || rule.port == "")
      && (fw.ports != [] ==> fw.ports == [rule.port])
      && fw.sourceRanges == [if rule.source == "*" then "0.0.0.0/0" else rule.source]
  {
  }

  lemma {:induction false} LowerIdempotent(s: string)
    ensures Lower(Lower(s)) == Lower(s)
  {
    var l, ll := Lower(s), Lower(Lower(s));
    assert |ll| == |l|;
    forall i | 0 <= i < |l| ensures ll[i] == l[i] {
      assert l[i] == LowerChar(s[i]);
    }
  }

  /**
   * Rule names and protocols are case-insensitive on GCP: a rule and its
   * lower-cased twin build the same firewall, so two rules whose names
   * differ only in case collide on one firewall name.
   */
  lemma FirewallIgnoresCase(config: DeployConfigs, rule: NsgRule)
    ensures FirewallFor(config, rule) == FirewallFor(config, rule.(name := Lower(rule.name), protocol := Lower(rule.protocol)))
  {
    if ParseInt(rule.priority).Some? {
      BuildIgnoresCase(config, rule, ParseInt(rule.priority).value);
    }
  }

  lemma BuildIgnoresCase(config: DeployConfigs, rule: NsgRule, priority: int)
    ensures BuildFirewall(config, rule, priority)
            == BuildFirewall(config, rule.(name := Lower(rule.name), protocol := Lower(rule.protocol)), priority)
  {
    LowerIdempotent(rule.name);
    LowerIdempotent(rule.protocol);
  }

  /** Inserts a firewall; an existing rule of that name is kept, as is everything when the request fails. */
  function Install(broken: set<Call>, firewalls: map<(string, string), Firewall>, project: string, fw: Firewall)
    : map<(string, string), Firewall>
  {
    if GcpFirewallInsert(project, fw) in broken || (project, fw.name) in firewalls then firewalls
    else firewalls[(project, fw.name) := fw]
  }

  /** The firewalls after inserting `fws` in order. */
  function InstallAll(broken: set<Call>, firewalls: map<(string, string), Firewall>, project: string, fws: seq<Firewall>)
    : map<(string, string), Firewall>
    decreases |fws|
  {
    if fws == [] then firewalls else InstallAll(broken, Install(broken, firewalls, project, fws[0]), project, fws[1..])
  }

  /** The insert requests for `fws`, in order. */
  function InsertCalls(project: string, fws: seq<Firewall>): (r: seq<Call>)
    ensures |r| == |fws|
    ensures forall k :: 0 <= k < |fws| ==> r[k] == GcpFirewallInsert(project, fws[k])
  {
    if fws == [] then [] else [GcpFirewallInsert(project, fws[0])] + InsertCalls(project, fws[1..])
  }

  /** Inserting a list is inserting its head, then its tail. */
  lemma InstallAllCons(broken: set<Call>, firewalls: map<(string, string), Firewall>, project: string, fw: Firewall, rest: seq<Firewall>)
    ensures InstallAll(broken, firewalls, project, [fw] + rest) == InstallAll(broken, Install(broken, firewalls, project, fw), project, rest)
  {
    assert ([fw] + rest)[1..] == rest;
  }

  /** Inserting never replaces or removes a rule already there. */
  lemma {:induction false} InstallAllKeeps(broken: set<Call>, firewalls: map<(string, string), Firewall>, project: string,
                                           fws: seq<Firewall>)
    ensures forall key :: key in firewalls ==> key in InstallAll(broken, firewalls, project, fws)
                                               && InstallAll(broken, firewalls, project, fws)[key] == firewalls[key]
    decreases |fws|
  {
    if fws != [] {
      InstallAllKeeps(broken, Install(broken, firewalls, project, fws[0]), project, fws[1..]);
    }
  }

  /** Firewalls with distinct names whose inserts all succeed are all installed, each as built. */
  lemma {:induction false} InstallAllInstalls(broken: set<Call>, firewalls: map<(string, string), Firewall>, project: string,
                                              fws: seq<Firewall>)
    requires forall i, j :: 0 <= i < j < |fws| ==> fws[i].name != fws[j].name
    requires forall k :: 0 <= k < |fws| ==> GcpFirewallInsert(project, fws[k]) !in broken && (project, fws[k].name) !in firewalls
    ensures forall k :: 0 <= k < |fws| ==>
      (project, fws[k].name) in InstallAll(broken, firewalls, project, fws)
      && InstallAll(broken, firewalls, project, fws)[(project, fws[k].name)] == fws[k]
    decreases |fws|
  {
    if fws != [] {
      var next := Install(broken, firewalls, project, fws[0]);
      assert forall k :: 1 <= k < |fws| ==> fws[k] == fws[1..][k - 1];
      InstallAllInstalls(broken, next, project, fws[1..]);
      InstallAllKeeps(broken, next, project, fws[1..]);
    }
  }

  /**
   * add_nsg_rule: builds the firewall and inserts it.  A failed insert (the
   * rule may already exist) is only logged; only a bad priority raises.
   */
  method AddNsgRule(w: World, config: DeployConfigs, rule: NsgRule) returns (r: Result<()>)
    modifies w`trace, w`firewalls
    ensures FirewallFor(config, rule).Err? ==>
      r == Err(ValueError) && w.trace == old(w.trace) && w.firewalls == old(w.firewalls)
    ensures FirewallFor(config, rule).Ok? ==>
      var fw := FirewallFor(config, rule).value;
      && r == Ok(())
      && w.trace == old(w.trace) + [GcpFirewallInsert(config.vm.resourceGroup, fw)]
      && w.firewalls == Install(w.broken, old(w.firewalls), config.vm.resourceGroup, fw)
  {
    var fw := FirewallFor(config, rule);
    if fw.Err? {
      return Err(fw.error);
    }
    var ok := w.Attempt(GcpFirewallInsert(config.vm.resourceGroup, fw.value));
    if ok && (config.vm.resourceGroup, fw.value.name) !in w.firewalls {
      w.firewalls := w.firewalls[(config.vm.resourceGroup, fw.value.name) := fw.value];
    }
    return Ok(());
  }

  /** What building each rule of a table gives, rule by rule. */
  function Attempts(config: DeployConfigs, rules: seq<NsgRule>): (r: seq<Result<Firewall>>)
    ensures |r| == |rules|
    ensures forall k :: 0 <= k < |rules| ==> r[k] == FirewallFor(config, rules[k])
  {
    seq(|rules|, k requires 0 <= k < |rules| => FirewallFor(config, rules[k]))
  }

  /** The firewalls of a walk over built rules: those before the first rule that failed to build. */
  function Built(attempts: seq<Result<Firewall>>): seq<Firewall> {
    if attempts == [] || attempts[0].Err? then [] else [attempts[0].value] + Built(attempts[1..])
  }

  /** Whether every rule built. */
  predicate AllBuilt(attempts: seq<Result<Firewall>>) {
    forall k :: 0 <= k < |attempts| ==> attempts[k].Ok?
  }

  /**
   * A walk keeps the firewall of every rule, in order, when every rule
   * builds; otherwise it stops just before the first that does not.
   */
  lemma {:induction false} BuiltOutcome(attempts: seq<Result<Firewall>>)
    ensures var built := Built(attempts);
      && (forall k :: 0 <= k < |built| ==> k < |attempts| && attempts[k] == Ok(built[k]))
      && (AllBuilt(attempts) ==> |built| == |attempts|)
      && (!AllBuilt(attempts) ==> |built| < |attempts| && attempts[|built|].Err?)
  {
    if attempts != [] && attempts[0].Ok? {
      BuiltOutcome(attempts[1..]);
      assert forall k :: 1 <= k < |attempts| ==> attempts[k] == attempts[1..][k - 1];
    }
  }

  /** One step of the walk: the rule at i is built, and the walk goes on past it only when it builds. */
  lemma BuildStep(attempts: seq<Result<Firewall>>, i: nat)
    requires i < |attempts|
    ensures Built(attempts[i..]) == if attempts[i].Err? then [] else [attempts[i].value] + Built(attempts[i + 1..])
    ensures AllBuilt(attempts[i..]) <==> attempts[i].Ok? && AllBuilt(attempts[i + 1..])
  {
    assert attempts[i..][0] == attempts[i] && attempts[i..][1..] == attempts[i + 1..];
    assert forall k :: 1 <= k < |attempts[i..]| ==> attempts[i..][k] == attempts[i + 1..][k - 1];
  }

  lemma InsertCallsCons(project: string, fw: Firewall, rest: seq<Firewall>)
    ensures InsertCalls(project, [fw] + rest) == [GcpFirewallInsert(project, fw)] + InsertCalls(project, rest)
  {
    assert ([fw] + rest)[1..] == rest;
  }

  /**
   * The loop of create_standard_nsg_rules over a rule table: every rule is
   * inserted in order; a bad priority stops the walk with ValueError, a
   * failed insert does not.
   */
  method AddNsgRules(w: World, config: DeployConfigs, rules: seq<NsgRule>) returns (r: Result<()>)
    modifies w`trace, w`firewalls
    ensures w.trace == old(w.trace) + InsertCalls(config.vm.resourceGroup, Built(Attempts(config, rules)))
    ensures w.firewalls == InstallAll(w.broken, old(w.firewalls), config.vm.resourceGroup, Built(Attempts(config, rules)))
    ensures r.Ok? <==> AllBuilt(Attempts(config, rules))
    ensures r.Err? ==> r.error == ValueError
  {
    var project := config.vm.resourceGroup;
    ghost var attempts := Attempts(config, rules);
    var i := 0;
    while i < |rules|
      invariant 0 <= i <= |rules|
      invariant WalkedTo(w.broken, project, attempts, i, old(w.trace), w.trace, old(w.firewalls), w.firewalls)
    {
      ghost var trace0 := w.trace;
      ghost var firewalls0 := w.firewalls;
      assert attempts[i] == FirewallFor(config, rules[i]);
      var added := AddNsgRule(w, config, rules[i]);
      if added.Err? {
        WalkStops(w.broken, project, attempts, i, old(w.trace), w.trace, old(w.firewalls), w.firewalls);
        return added;
      }
      WalkSteps(w.broken, project, attempts, i, old(w.trace), trace0, old(w.firewalls), firewalls0, attempts[i].value);
      i := i + 1;
    }
    WalkStops(w.broken, project, attempts, i, old(w.trace), w.trace, old(w.firewalls), w.firewalls);
    return Ok(());
  }

  /**
   * The walk invariant after the first i rules: what is still to be inserted
   * completes the requests and the firewalls of the whole walk.
   */
  ghost predicate WalkedTo(broken: set<Call>, project: string, attempts: seq<Result<Firewall>>, i: nat,
                           trace0: seq<Call>, trace: seq<Call>,
                           firewalls0: map<(string, string), Firewall>, firewalls: map<(string, string), Firewall>)
  {
    && i <= |attempts|
    && trace0 + InsertCalls(project, Built(attempts)) == trace + InsertCalls(project, Built(attempts[i..]))
    && InstallAll(broken, firewalls0, project, Built(attempts)) == InstallAll(broken, firewalls, project, Built(attempts[i..]))
    && AllBuilt(attempts) == AllBuilt(attempts[i..])
  }

  /** Inserting the firewall rule i builds moves the walk on to rule i + 1. */
  lemma WalkSteps(broken: set<Call>, project: string, attempts: seq<Result<Firewall>>, i: nat,
                  trace0: seq<Call>, trace: seq<Call>,
                  firewalls0: map<(string, string), Firewall>, firewalls: map<(string, string), Firewall>, fw: Firewall)
    requires i < |attempts| && attempts[i] == Ok(fw)
    requires WalkedTo(broken, project, attempts, i, trace0, trace, firewalls0, firewalls)
    ensures WalkedTo(broken, project, attempts, i + 1, trace0, trace + [GcpFirewallInsert(project, fw)],
                     firewalls0, Install(broken, firewalls, project, fw))
  {
    BuildStep(attempts, i);
    var rest := Built(attempts[i + 1..]);
    InstallAllCons(broken, firewalls, project, fw, rest);
    InsertCallsCons(project, fw, rest);
    AppendAssoc(trace, [GcpFirewallInsert(project, fw)], InsertCalls(project, rest));
  }

  /** A walk that ran out of rules, or reached one that does not build, has made all its requests. */
  lemma WalkStops(broken: set<Call>, project: string, attempts: seq<Result<Firewall>>, i: nat,
                  trace0: seq<Call>, trace: seq<Call>,
                  firewalls0: map<(string, string), Firewall>, firewalls: map<(string, string), Firewall>)
    requires WalkedTo(broken, project, attempts, i, trace0, trace, firewalls0, firewalls)
    requires i == |attempts| || attempts[i].Err?
    ensures trace == trace0 + InsertCalls(project, Built(attempts))
    ensures firewalls == InstallAll(broken, firewalls0, project, Built(attempts))
    ensures AllBuilt(attempts) <==> i == |attempts|
  {
    if i < |attempts| {
      BuildStep(attempts, i);
    } else {
      assert attempts[i..] == [];
    }
    assert InsertCalls(project, []) == [];
    assert trace + [] == trace;
  }

  /**
   * The table GCP's create_standard_nsg_rules walks: the Azure table's
   * rules with the protocols spelled in lower case and the consensus port
   * open to all protocols.
   */
  function StandardRules(sourceIp: string): (r: seq<NsgRule>)
    ensures |r| == 10
    ensures r[0].name == "AllowSSH" && r[0].port == "22" && r[0].source == sourceIp
    ensures forall k :: 1 <= k < |r| ==> r[k].source == "*"
    ensures forall k :: 0 <= k < 9 ==> r[k].protocol == "tcp"
    ensures r[9].port == IntToString(GcpDefaults.ConsensusPort) && r[9].protocol == "all"
    ensures forall k :: 0 <= k < |r| ==> r[k] == AzureApi.StandardRules(sourceIp)[k].(protocol := r[k].protocol)
    ensures forall i, j :: 0 <= i < j < |r| ==> r[i].priority != r[j].priority
  {
    var consensus := IntToString(GcpDefaults.ConsensusPort);
    AzureApi.StandardPrioritiesDistinct(sourceIp);
    [ NsgRule("AllowSSH", "100", "22", "tcp", sourceIp),
      NsgRule("AllowAnyHTTPInbound", "101", "80", "tcp", "*"),
      NsgRule("AllowAnyHTTPSInbound", "102", "443", "tcp", "*"),
      NsgRule("TCP7878", "115", "7878", "tcp", "*"),
      NsgRule("TCP7936", "116", "7936", "tcp", "*"),
      NsgRule("TCP8545", "110", "8545", "tcp", "*"),
      NsgRule("TCP8551", "111", "8551", "tcp", "*"),
      NsgRule("TCP8645", "112", "8645", "tcp", "*"),
      NsgRule("TCP8745", "113", "8745", "tcp", "*"),
      NsgRule("ANY" + consensus, "114", consensus, "all", "*") ]
  }

  /** Two protocol spellings add_nsg_rule treats alike. */
  predicate SameProtocol(p: string, q: string) {
    && (AnyProtocol(Lower(p)) <==> AnyProtocol(Lower(q)))
    && (!AnyProtocol(Lower(p)) ==> Lower(p) == Lower(q))
  }

  lemma BuildIgnoresProtocolSpelling(config: DeployConfigs, rule: NsgRule, protocol: string, priority: int)
    requires SameProtocol(rule.protocol, protocol)
    ensures BuildFirewall(config, rule, priority) == BuildFirewall(config, rule.(protocol := protocol), priority)
  {
  }

  /** Rules that differ only in how their protocol is spelled build the same firewall. */
  lemma FirewallIgnoresProtocolSpelling(config: DeployConfigs, rule: NsgRule, protocol: string)
    requires SameProtocol(rule.protocol, protocol)
    ensures FirewallFor(config, rule) == FirewallFor(config, rule.(protocol := protocol))
  {
    if ParseInt(rule.priority).Some? {
      BuildIgnoresProtocolSpelling(config, rule, protocol, ParseInt(rule.priority).value);
    }
  }

  /**
   * Both bindings open the same ports to the same sources: each rule of the
   * GCP table builds the firewall its Azure counterpart would.
   */
  lemma StandardRulesAgree(config: DeployConfigs, sourceIp: string)
    ensures forall k :: 0 <= k < 10 ==>
      FirewallFor(config, StandardRules(sourceIp)[k]) == FirewallFor(config, AzureApi.StandardRules(sourceIp)[k])
  {
    var gcp, azure := StandardRules(sourceIp), AzureApi.StandardRules(sourceIp);
    assert Lower("Tcp") == "tcp" == Lower("tcp");
    assert Lower("*") == "*" && Lower("all") == "all";
    forall k | 0 <= k < 10
      ensures FirewallFor(config, gcp[k]) == FirewallFor(config, azure[k])
    {
      assert gcp[k] == azure[k].(protocol := gcp[k].protocol);
      FirewallIgnoresProtocolSpelling(config, azure[k], gcp[k].protocol);
    }
  }

  /** Every priority of the standard table parses, so creating the standard rules never raises. */
  lemma StandardRulesBuild(config: DeployConfigs, sourceIp: string)
    ensures AllBuilt(Attempts(config, StandardRules(sourceIp)))
  {
    var rules := StandardRules(sourceIp);
    forall k | 0 <= k < |rules| ensures ParseInt(rules[k].priority).Some? {
      assert AllDigits(rules[k].priority) && |rules[k].priority| == 3;
    }
  }

  /** create_standard_nsg_rules. */
  method CreateStandardNsgRules(w: World, config: DeployConfigs) returns (r: Result<()>)
    modifies w`trace, w`firewalls
    ensures r.Ok?
    ensures w.trace == old(w.trace) + InsertCalls(config.vm.resourceGroup, Built(Attempts(config, StandardRules(config.sourceIp))))
    ensures w.firewalls == InstallAll(w.broken, old(w.firewalls), config.vm.resourceGroup,
                                      Built(Attempts(config, StandardRules(config.sourceIp))))
  {
    StandardRulesBuild(config, config.sourceIp);
    r := AddNsgRules(w, config, StandardRules(config.sourceIp));
  }

  // ---------------------------------------------------------------------
  // Data disks.

  const DefaultDataDiskType := "pd-ssd"

  /** create_data_disk: an empty disk of `sizeGb` gigabytes in zone `location`. */
  method CreateDataDisk(w: World, project: string, diskName: string, location: string, sizeGb: int, diskType: string)
    returns (r: Result<()>)
    modifies w`trace, w`gcpDisks
    ensures w.trace == old(w.trace) + [GcpDataDiskInsert(project, location, diskName, sizeGb, diskType)]
    ensures r.Ok? <==> GcpDataDiskInsert(project, location, diskName, sizeGb, diskType) !in w.broken
    ensures r.Err? ==> r.error == ApiError
    ensures w.gcpDisks == if r.Ok? then old(w.gcpDisks) + {(project, location, diskName)} else old(w.gcpDisks)
  {
    var ok := w.Attempt(GcpDataDiskInsert(project, location, diskName, sizeGb, diskType));
    if !ok {
      return Err(ApiError);
    }
    w.gcpDisks := w.gcpDisks + {(project, location, diskName)};
    return Ok(());
  }

  /** attach_data_disk: attaches the disk to the instance in `zone` (the LUN argument is unused on GCP). */
  method AttachDataDisk(w: World, project: string, vmName: string, diskName: string, zone: string, lun: int)
    returns (r: Result<()>)
    modifies w`trace, w`instances
    ensures w.trace == old(w.trace) + [GcpAttachDisk(project, zone, vmName, diskName)]
    ensures r.Ok? <==> GcpAttachDisk(project, zone, vmName, diskName) !in w.broken
    ensures r.Err? ==> r.error == ApiError
    ensures w.instances == if r.Ok? && (project, zone, vmName) in old(w.instances)
      then old(w.instances)[(project, zone, vmName) :=
             old(w.instances)[(project, zone, vmName)].(dataDisks := old(w.instances)[(project, zone, vmName)].dataDisks + [diskName])]
      else old(w.instances)
  {
    var ok := w.Attempt(GcpAttachDisk(project, zone, vmName, diskName));
    if !ok {
      return Err(ApiError);
    }
    var key := (project, zone, vmName);
    if key in w.instances {
      w.instances := w.instances[key := w.instances[key].(dataDisks := w.instances[key].dataDisks + [diskName])];
    }
    return Ok(());
  }

  // ---------------------------------------------------------------------
  // Instances.

  /** The instance create_vm and create_vm_simple request: one interface with one NAT access config. */
  function Requested(zone: string, size: string, natIp: string, diskName: string, vmName: string, userData: Option<TempContent>)
    : Instance
  {
    Instance("zones/" + zone + "/machineTypes/" + size, [NetworkInterface([AccessConfig(natIp)])], diskName, [vmName], userData, [])
  }

  /** The instance GCP stores for a request: a NAT config without an address gets an ephemeral one. */
  function Booted(request: Instance, ephemeralIp: string): Instance {
    if |request.interfaces| > 0 && |request.interfaces[0].accessConfigs| > 0
       && request.interfaces[0].accessConfigs[0].natIp == ""
    then
      var nic := request.interfaces[0];
      request.(interfaces := [nic.(accessConfigs := [AccessConfig(ephemeralIp)] + nic.accessConfigs[1..])] + request.interfaces[1..])
    else request
  }

  /** get_vm_ip on a fetched instance: the first address of its first interface, which must exist and be set. */
  function InstanceIp(instance: Instance): (r: Result<string>)
    ensures r.Ok? ==> r.value != ""
    ensures r.Err? ==> r.error == ValueError
  {
    if |instance.interfaces| == 0 then Err(ValueError)
    else if |instance.interfaces[0].accessConfigs| == 0 then Err(ValueError)
    else if instance.interfaces[0].accessConfigs[0].natIp == "" then Err(ValueError)
    else Ok(instance.interfaces[0].accessConfigs[0].natIp)
  }

  /**
   * A VM created by either creation method answers get_vm_ip with its
   * reserved address when it was given one, else with the ephemeral address
   * GCP assigned; only an empty ephemeral address raises.
   */
  lemma BootedIp(zone: string, size: string, natIp: string, diskName: string, vmName: string, userData: Option<TempContent>,
                 ephemeralIp: string)
    ensures InstanceIp(Booted(Requested(zone, size, natIp, diskName, vmName, userData), ephemeralIp))
            == if natIp != "" then Ok(natIp) else if ephemeralIp != "" then Ok(ephemeralIp) else Err(ValueError)
  {
  }

  /** The address the creation methods ask for: the reserved one, or "" (ephemeral) when there is none. */
  function ReservedIp(addresses: map<(string, string, string), string>, broken: set<Call>, ipName: string, project: string)
    : (r: string)
    ensures ipName == "" ==> r == ""
    ensures ipName != "" ==>
      (r != "" <==> ExistingAddress(addresses, GcpAddressGet(project, GcpDefaults.DefaultRegion, ipName) in broken, project, ipName).Some?)
  {
    if ipName == "" then ""
    else
      var found := ExistingAddress(addresses, GcpAddressGet(project, GcpDefaults.DefaultRegion, ipName) in broken, project, ipName);
      if found.Some? then found.value else ""
  }

  /** The lookups the creation methods make for the reserved address. */
  function IpLookups(ipName: string, project: string): seq<Call> {
    if ipName == "" then [] else [GcpAddressGet(project, GcpDefaults.DefaultRegion, ipName)]
  }

  /** Looks the reserved address up when a name is given; a missing one falls back to an ephemeral address. */
  method ReservedNatIp(w: World, ipName: string, project: string) returns (ip: string)
    modifies w`trace
    ensures ip == ReservedIp(w.addresses, w.broken, ipName, project)
    ensures w.trace == old(w.trace) + IpLookups(ipName, project)
  {
    if ipName == "" {
      return "";
    }
    var reserved := GetExistingPublicIp(w, ipName, project);
    ip := if reserved.Some? then reserved.value else "";
  }

  /** Inserts an instance; GCP fills in an ephemeral address where none was asked for. */
  method InsertInstance(w: World, project: string, zone: string, name: string, request: Instance) returns (r: Result<()>)
    modifies w`trace, w`instances
    ensures w.trace == old(w.trace) + [GcpInstanceInsert(project, zone, name, request)]
    ensures r.Ok? <==> GcpInstanceInsert(project, zone, name, request) !in w.broken
    ensures r.Err? ==> r.error == ApiError
    ensures w.instances == if r.Ok? then old(w.instances)[(project, zone, name) := Booted(request, w.ephemeral(project, zone, name))]
                           else old(w.instances)
  {
    var ok := w.Attempt(GcpInstanceInsert(project, zone, name, request));
    if !ok {
      return Err(ApiError);
    }
    w.instances := w.instances[(project, zone, name) := Booted(request, w.ephemeral(project, zone, name))];
    return Ok(());
  }

  /**
   * create_vm_simple: a confidential VM in zone `location` booting from
   * `osDiskName`, tagged for the VM's firewall rules, with no user data
   * (the security-group name is unused on GCP).
   */
  method CreateVmSimple(w: World, vmName: string, vmSize: string, project: string, location: string,
                        osDiskName: string, nsgName: string, ipName: string) returns (r: Result<()>)
    modifies w`trace, w`instances
    ensures var request := Requested(location, vmSize, ReservedIp(w.addresses, w.broken, ipName, project), osDiskName, vmName, None);
      && w.trace == old(w.trace) + IpLookups(ipName, project) + [GcpInstanceInsert(project, location, vmName, request)]
      && (r.Ok? <==> GcpInstanceInsert(project, location, vmName, request) !in w.broken)
      && (r.Err? ==> r.error == ApiError)
      && w.instances == if r.Ok? then old(w.instances)[(project, location, vmName) := Booted(request, w.ephemeral(project, location, vmName))]
                        else old(w.instances)
  {
    var ip := ReservedNatIp(w, ipName, project);
    r := InsertInstance(w, project, location, vmName, Requested(location, vmSize, ip, osDiskName, vmName, None));
  }

  /**
   * create_vm: like create_vm_simple in the configured zone, with the user
   * data written to a temporary file and passed as instance metadata; the
   * file is unlinked whether or not the insert succeeded.  The image path
   * is unused.
   */
  method CreateVm(w: World, config: DeployConfigs, imagePath: Path, ipName: string, diskName: string) returns (r: Result<()>)
    requires w.Valid()
    modifies w`temps, w`nextTemp, w`trace, w`instances
    ensures w.Valid()
    ensures w.temps == old(w.temps)
    ensures var project, zone, name := config.vm.resourceGroup, config.vm.Location(), config.vm.name;
      var request := Requested(zone, config.vm.size, ReservedIp(w.addresses, w.broken, ipName, project), diskName, name,
                               Some(AzureApi.UserDataFor(config)));
      && w.trace == old(w.trace) + [MakeTemp(old(w.nextTemp))] + IpLookups(ipName, project)
                    + [GcpInstanceInsert(project, zone, name, request), Unlink(old(w.nextTemp))]
      && (r.Ok? <==> GcpInstanceInsert(project, zone, name, request) !in w.broken)
      && (r.Err? ==> r.error == ApiError)
      && w.instances == if r.Ok? then old(w.instances)[(project, zone, name) := Booted(request, w.ephemeral(project, zone, name))]
                        else old(w.instances)
  {
    var userData := AzureApi.CreateUserDataFile(w, config);
    var ip := ReservedNatIp(w, ipName, config.vm.resourceGroup);
    var request := Requested(config.vm.Location(), config.vm.size, ip, diskName, config.vm.name, Some(w.temps[userData]));
    r := InsertInstance(w, config.vm.resourceGroup, config.vm.Location(), config.vm.name, request);
    w.UnlinkTemp(userData);
  }

  /** get_vm_ip: one fetch of the instance, with no retry; a failed or missing fetch raises. */
  method GetVmIp(w: World, vmName: string, project: string, location: string) returns (r: Result<string>)
    modifies w`trace
    ensures w.trace == old(w.trace) + [GcpInstanceGet(project, location, vmName)]
    ensures r == if GcpInstanceGet(project, location, vmName) in w.broken || (project, location, vmName) !in w.instances
                 then Err(ApiError)
                 else InstanceIp(w.instances[(project, location, vmName)])
  {
    var ok := w.Attempt(GcpInstanceGet(project, location, vmName));
    if !ok || (project, location, vmName) !in w.instances {
      return Err(ApiError);
    }
    return InstanceIp(w.instances[(project, location, vmName)]);
  }

  // ---------------------------------------------------------------------
  // Deleting a VM.

  /**
   * What delete_vm reads from the metadata before it asks: the resource
   * group (the project) and the region (the zone) of the VM's record in the
   * `gcp` partition, or None when the name is not in that partition.
   */
  function VmSection(doc: Json, name: string): (r: Result<Option<(Json, Json)>>)
    ensures Metadata.PartitionShaped(doc, "gcp") ==> (r == Ok(None) <==> Metadata.Entry(doc, "gcp", name).None?)
    ensures r.Ok? && r.value.Some? ==>
      && Metadata.Entry(doc, "gcp", name).Some?
      && Index(Metadata.Entry(doc, "gcp", name).value, "vm").Ok?
      && var vm := Index(Metadata.Entry(doc, "gcp", name).value, "vm").value;
         Index(vm, "resourceGroup") == Ok(r.value.value.0) && Index(vm, "region") == Ok(r.value.value.1)
  {
    var partition :- Metadata.CloudResources(doc, "gcp");
    var present :- Contains(partition, name);
    if !present then Ok(None)
    else
      var meta :- Index(partition, name);
      var vm :- Index(meta, "vm");
      var resourceGroup :- Index(vm, "resourceGroup");
      var region :- Index(vm, "region");
      Ok(Some((resourceGroup, region)))
  }

  /** The same read on the stored metadata: a missing file raises FileNotFoundError. */
  function StoredVmSection(docs: map<Path, Json>, home: string, name: string): Result<Option<(Json, Json)>> {
    var doc :- Metadata.Loaded(docs, home);
    VmSection(doc, name)
  }

  /** The requests delete_vm makes once the operator has confirmed, when every step succeeds. */
  function DeleteVmCalls(project: string, zone: string, vmName: string, artifact: string): seq<Call> {
    var disk := DeletedDisk(project, vmName, artifact, zone);
    [GcpInstanceDelete(project, zone, vmName), GcpDiskDelete(disk.0, disk.1, disk.2)]
  }

  /** What delete_vm does once the instance is gone: deletes its disk, then its `gcp` metadata entry. */
  method RemoveVmRemnants(w: World, project: string, zone: string, vmName: string, artifact: string, home: string)
    returns (r: Result<bool>)
    modifies w`trace, w`gcpDisks, w`docs
    ensures r.Ok? ==> r.value
    ensures r.Err? ==> w.docs == old(w.docs)
    ensures r.Ok? ==>
      var disk := DeletedDisk(project, vmName, artifact, zone);
      && w.gcpDisks == old(w.gcpDisks) - {disk}
      && Metadata.Rewrote(old(w.docs), w.docs, old(w.trace) + [GcpDiskDelete(disk.0, disk.1, disk.2)], w.trace,
                          home, Metadata.VmRemoval(old(w.docs), home, vmName, "gcp"), Ok(()))
  {
    var disk := DeleteDisk(w, project, vmName, artifact, zone);
    if disk.Err? {
      return Err(disk.error);
    }
    var removed := Metadata.RemoveVmFromMetadata(w, vmName, home, "gcp");
    if removed.Err? {
      return Err(removed.error);
    }
    return Ok(true);
  }

  /**
   * The outcome of delete_vm once the operator has confirmed, for an
   * instance in `project` and `zone`, as a relation between the state
   * before (suffix 0) and after (suffix 1): a failed instance delete is
   * reported as False with only the request logged; a successful one removes
   * the instance, and then True means its disk and its `gcp` metadata entry
   * are gone too, in that order; an exception after the instance delete
   * leaves the metadata as it was.
   */
  ghost predicate VmDeletedIn(
    broken: set<Call>, project: string, zone: string, vmName: string, artifact: string, home: string,
    trace0: seq<Call>, trace1: seq<Call>,
    instances0: map<(string, string, string), Instance>, instances1: map<(string, string, string), Instance>,
    disks0: set<(string, string, string)>, disks1: set<(string, string, string)>,
    docs0: map<Path, Json>, docs1: map<Path, Json>,
    r: Result<bool>)
  {
    && (GcpInstanceDelete(project, zone, vmName) in broken <==> r == Ok(false))
    && (r == Ok(false) ==> trace1 == trace0 + [GcpInstanceDelete(project, zone, vmName)] && instances1 == instances0 && disks1 == disks0)
    && (GcpInstanceDelete(project, zone, vmName) !in broken ==> instances1 == instances0 - {(project, zone, vmName)})
    && (r.Err? || r == Ok(false) ==> docs1 == docs0)
    && (r == Ok(true) ==>
          && disks1 == disks0 - {DeletedDisk(project, vmName, artifact, zone)}
          && Metadata.Rewrote(docs0, docs1, trace0 + DeleteVmCalls(project, zone, vmName, artifact), trace1,
                              home, Metadata.VmRemoval(docs0, home, vmName, "gcp"), Ok(())))
  }

  /** The part of delete_vm after the operator confirmed. */
  method DeleteVmIn(w: World, project: string, zone: string, vmName: string, artifact: string, home: string)
    returns (r: Result<bool>)
    modifies w`trace, w`instances, w`gcpDisks, w`docs
    ensures VmDeletedIn(w.broken, project, zone, vmName, artifact, home, old(w.trace), w.trace, old(w.instances), w.instances,
                        old(w.gcpDisks), w.gcpDisks, old(w.docs), w.docs, r)
  {
    ghost var trace0 := w.trace;
    var deleted := w.Attempt(GcpInstanceDelete(project, zone, vmName));
    if !deleted {
      return Ok(false);
    }
    w.instances := w.instances - {(project, zone, vmName)};
    r := RemoveVmRemnants(w, project, zone, vmName, artifact, home);
    ghost var disk := DeletedDisk(project, vmName, artifact, zone);
    assert DeleteVmCalls(project, zone, vmName, artifact) == [GcpInstanceDelete(project, zone, vmName)] + [GcpDiskDelete(disk.0, disk.1, disk.2)];
    AppendAssoc(trace0, [GcpInstanceDelete(project, zone, vmName)], [GcpDiskDelete(disk.0, disk.1, disk.2)]);
  }

  /**
   * What delete_vm does for a VM its metadata lists, with the project and
   * zone of its record: the operator is asked (a refusal raises), then the
   * instance is deleted inside a handler that turns any exception, such as
   * a project or zone that is not a string, into False.
   */
  ghost predicate ListedVmDeleted(
    stdin0: seq<string>, broken: set<Call>, vmName: string, project: Json, zone: Json, artifact: string, home: string,
    trace0: seq<Call>, trace1: seq<Call>,
    instances0: map<(string, string, string), Instance>, instances1: map<(string, string, string), Instance>,
    disks0: set<(string, string, string)>, disks1: set<(string, string, string)>,
    docs0: map<Path, Json>, docs1: map<Path, Json>,
    r: Result<bool>)
  {
    var asked := trace0 + [Prompt(Confirming(DeleteVmNamed(vmName)))];
    && (CloudParser.ConfirmOutcome(stdin0).Err? ==>
          r == Err(CloudParser.ConfirmOutcome(stdin0).error) && trace1 == asked && instances1 == instances0 && disks1 == disks0)
    && (CloudParser.ConfirmOutcome(stdin0).Ok? && !(project.JStr? && zone.JStr?) ==>
          r == Ok(false) && trace1 == asked && instances1 == instances0 && disks1 == disks0)
    && (CloudParser.ConfirmOutcome(stdin0).Ok? && project.JStr? && zone.JStr? ==>
          VmDeletedIn(broken, project.s, zone.s, vmName, artifact, home, asked, trace1,
                      instances0, instances1, disks0, disks1, docs0, docs1, r))
    && (r.Err? || r == Ok(false) ==> docs1 == docs0)
  }

  /**
   * The whole of delete_vm: a metadata file that cannot be read or a `gcp`
   * partition of the wrong shape raises, a VM unknown there is reported as
   * not deleted, and a listed one goes as ListedVmDeleted says.  The
   * resource-group and location arguments are unused.
   */
  ghost predicate DeleteVmOutcome(
    docs0: map<Path, Json>, stdin0: seq<string>, broken: set<Call>, vmName: string, artifact: string, home: string,
    trace0: seq<Call>, trace1: seq<Call>,
    instances0: map<(string, string, string), Instance>, instances1: map<(string, string, string), Instance>,
    disks0: set<(string, string, string)>, disks1: set<(string, string, string)>,
    docs1: map<Path, Json>,
    r: Result<bool>)
  {
    var section := StoredVmSection(docs0, home, vmName);
    && (section.Err? ==>
          r == Err(section.error) && trace1 == trace0 && instances1 == instances0 && disks1 == disks0 && docs1 == docs0)
    && (section == Ok(None) ==>
          r == Ok(false) && trace1 == trace0 && instances1 == instances0 && disks1 == disks0 && docs1 == docs0)
    && (section.Ok? && section.value.Some? ==>
          ListedVmDeleted(stdin0, broken, vmName, section.value.value.0, section.value.value.1, artifact, home,
                          trace0, trace1, instances0, instances1, disks0, disks1, docs0, docs1, r))
  }

  /** delete_vm for a VM its metadata lists, with the project and zone of its record. */
  method DeleteListedVm(w: World, vmName: string, project: Json, zone: Json, artifact: string, home: string)
    returns (r: Result<bool>)
    modifies w`trace, w`stdin, w`instances, w`gcpDisks, w`docs
    ensures ListedVmDeleted(old(w.stdin), w.broken, vmName, project, zone, artifact, home, old(w.trace), w.trace,
                            old(w.instances), w.instances, old(w.gcpDisks), w.gcpDisks, old(w.docs), w.docs, r)
  {
    var confirmed := CloudParser.Confirm(w, DeleteVmNamed(vmName));
    if confirmed.Err? {
      return Err(confirmed.error);
    }
    if !(project.JStr? && zone.JStr?) {
      return Ok(false);
    }
    r := DeleteVmIn(w, project.s, zone.s, vmName, artifact, home);
  }

  /** delete_vm: looks the VM up in the `gcp` partition of the metadata, then deletes it as listed. */
  method DeleteVm(w: World, vmName: string, artifact: string, home: string) returns (r: Result<bool>)
    modifies w`trace, w`stdin, w`instances, w`gcpDisks, w`docs
    ensures DeleteVmOutcome(old(w.docs), old(w.stdin), w.broken, vmName, artifact, home, old(w.trace), w.trace,
                            old(w.instances), w.instances, old(w.gcpDisks), w.gcpDisks, w.docs, r)
  {
    ghost var stored := StoredVmSection(w.docs, home, vmName);
    var doc := Metadata.LoadMetadata(w, home);
    if doc.Err? {
      return Err(doc.error);
    }
    var section := VmSection(doc.value, vmName);
    assert stored == section;
    if section.Err? {
      return Err(section.error);
    }
    if section.value.None? {
      return Ok(false);
    }
    r := DeleteListedVm(w, vmName, section.value.value.0, section.value.value.1, artifact, home);
  }
}
