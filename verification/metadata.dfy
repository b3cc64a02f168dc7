/**
 * The deploy metadata store: one JSON document per build home, holding
 * `resources[provider][vm]` (one record per deployed VM) and
 * `artifacts[name]` (one record per built image).  The pure functions say
 * what each operation does to the document; the methods load it from and
 * write it back to the world.
 */
module Metadata {
  import opened Wrappers
  import opened Json
  import opened Paths
  import opened Env
  import CloudConfig

  // ---------------------------------------------------------------------
  // Looking into the document.

  /** doc[k] when doc is an object that has k. */
  function Section(doc: Json, k: string): (r: Option<Json>)
    ensures r.Some? <==> doc.JObj? && k in Keys(doc.fields)
  {
    if doc.JObj? then Lookup(doc.fields, k) else None
  }

  /** resources[cloud][vm], when every level is present. */
  function Entry(doc: Json, cloud: string, vm: string): Option<Json> {
    match Section(doc, "resources")
    case None => None
    case Some(resources) =>
      match Section(resources, cloud)
      case None => None
      case Some(partition) => Section(partition, vm)
  }

  /** artifacts[name], when present. */
  function ArtifactEntry(doc: Json, name: string): Option<Json> {
    match Section(doc, "artifacts")
    case None => None
    case Some(artifacts) => Section(artifacts, name)
  }

  /** The document is an object, and `resources` and its `cloud` partition are objects where present. */
  predicate PartitionShaped(doc: Json, cloud: string) {
    doc.JObj? &&
    match Section(doc, "resources")
    case None => true
    case Some(resources) =>
      resources.JObj? &&
      match Section(resources, cloud)
      case None => true
      case Some(partition) => partition.JObj?
  }

  /** The document is an object and `artifacts` is an object where present. */
  predicate ArtifactsShaped(doc: Json) {
    doc.JObj? &&
    match Section(doc, "artifacts")
    case None => true
    case Some(artifacts) => artifacts.JObj?
  }

  // ---------------------------------------------------------------------
  // The document operations.

  /** metadata.get("resources", {}).get(cloud, {}). */
  function CloudResources(doc: Json, cloud: string): (r: Result<Json>)
    ensures PartitionShaped(doc, cloud) ==> r.Ok? && r.value.JObj?
    ensures PartitionShaped(doc, cloud) && Section(doc, "resources").None? ==> r == Ok(JObj([]))
    ensures PartitionShaped(doc, cloud) ==>
      forall vm :: Section(r.value, vm) == Entry(doc, cloud, vm)
  {
    var resources :- GetOr(doc, "resources", JObj([]));
    GetOr(resources, cloud, JObj([]))
  }

  /**
   * The document remove_vm_from_metadata writes back, or None when it
   * returns without writing.
   */
  function RemoveVm(doc: Json, name: string, cloud: string): Result<Option<Json>> {
    var resources :- GetOr(doc, "resources", JObj([]));
    var partition :- GetOr(resources, cloud, JObj([]));
    var present :- Contains(partition, name);
    if !present then Ok(None)
    else
      var popped :- Pop(partition, name);
      var resources' :- SetItem(resources, cloud, popped);
      var doc' :- SetItem(doc, "resources", resources');
      Ok(Some(doc'))
  }

  /** The document remove_artifact_from_metadata writes back, or None when it returns without writing. */
  function RemoveArtifact(doc: Json, name: string): Result<Option<Json>> {
    var artifacts :- GetOr(doc, "artifacts", JObj([]));
    var present :- Contains(artifacts, name);
    if !present then Ok(None)
    else
      var popped :- Pop(artifacts, name);
      var doc' :- SetItem(doc, "artifacts", popped);
      Ok(Some(doc'))
  }

  /** The value stored under `resources` when the key is absent. */
  const EmptyResources := JObj([("azure", JObj([])), ("gcp", JObj([]))])

  /** The document update_deploy_metadata writes back: resources[cloud][vm] = record. */
  function PutVm(doc: Json, cloud: CloudConfig.CloudProvider, vm: string, record: Json): Result<Json> {
    var hasResources :- Contains(doc, "resources");
    var doc1 :- if hasResources then Ok(doc) else SetItem(doc, "resources", EmptyResources);
    var resources :- Index(doc1, "resources");
    var hasCloud :- Contains(resources, cloud.Value());
    var resources1 :- if hasCloud then Ok(resources) else SetItem(resources, cloud.Value(), JObj([]));
    var partition :- Index(resources1, cloud.Value());
    var partition1 :- SetItem(partition, vm, record);
    var resources2 :- SetItem(resources1, cloud.Value(), partition1);
    SetItem(doc1, "resources", resources2)
  }

  /** What load_artifact_measurements returns for a document and the files on disk. */
  function ArtifactMeasurements(doc: Json, files: map<Path, nat>, artifact: string, home: string): Result<(Path, Json)> {
    var artifacts :- GetOr(doc, "artifacts", JObj([]));
    var known :- Contains(artifacts, artifact);
    if !known then Err(ValueError)
    else
      var imagePath := Div(Artifacts(home), artifact);
      var record :- Index(artifacts, artifact);
      if imagePath !in files then Err(FileNotFoundError)
      else
        var image :- Index(record, "image");
        Ok((imagePath, image))
  }

  // ---------------------------------------------------------------------
  // What the operations guarantee.

  /**
   * Removing a VM: nothing is written when (cloud, name) has no entry;
   * otherwise exactly that entry goes, and every other VM, every other
   * partition and every other top-level key (`artifacts` among them) stay.
   */
  lemma RemoveVmEffect(doc: Json, name: string, cloud: string)
    requires PartitionShaped(doc, cloud)
    ensures RemoveVm(doc, name, cloud).Ok?
    ensures RemoveVm(doc, name, cloud).value.None? <==> Entry(doc, cloud, name).None?
    ensures RemoveVm(doc, name, cloud).value.Some? ==>
      var doc' := RemoveVm(doc, name, cloud).value.value;
      && Entry(doc', cloud, name).None?
      && (forall c, v :: (c, v) != (cloud, name) ==> Entry(doc', c, v) == Entry(doc, c, v))
      && (forall k :: k != "resources" ==> Section(doc', k) == Section(doc, k))
  {
    var resources := GetOr(doc, "resources", JObj([])).value;
    var partition := GetOr(resources, cloud, JObj([])).value;
    assert Section(partition, name).None? <==> Entry(doc, cloud, name).None?;
    if name in Keys(partition.fields) {
      var popped := JObj(Remove(partition.fields, name));
      var resources' := JObj(Put(resources.fields, cloud, popped));
      var doc' := JObj(Put(doc.fields, "resources", resources'));
      assert RemoveVm(doc, name, cloud) == Ok(Some(doc'));
      PutLookup(doc.fields, "resources", resources');
      PutLookup(resources.fields, cloud, popped);
      RemoveLookup(partition.fields, name);
      forall c, v | (c, v) != (cloud, name)
        ensures Entry(doc', c, v) == Entry(doc, c, v)
      {
        if c == cloud {
          RemoveLookupOther(partition.fields, name, v);
        } else {
          PutLookupOther(resources.fields, cloud, popped, c);
        }
      }
      forall k | k != "resources"
        ensures Section(doc', k) == Section(doc, k)
      {
        PutLookupOther(doc.fields, "resources", resources', k);
      }
    }
  }

  /**
   * Removing an artifact: nothing is written for an absent name; otherwise
   * exactly that `artifacts` entry goes and everything else stays.
   */
  lemma RemoveArtifactEffect(doc: Json, name: string)
    requires ArtifactsShaped(doc)
    ensures RemoveArtifact(doc, name).Ok?
    ensures RemoveArtifact(doc, name).value.None? <==> ArtifactEntry(doc, name).None?
    ensures RemoveArtifact(doc, name).value.Some? ==>
      var doc' := RemoveArtifact(doc, name).value.value;
      && ArtifactEntry(doc', name).None?
      && (forall a :: a != name ==> ArtifactEntry(doc', a) == ArtifactEntry(doc, a))
      && (forall k :: k != "artifacts" ==> Section(doc', k) == Section(doc, k))
  {
    var artifacts := GetOr(doc, "artifacts", JObj([])).value;
    if name in Keys(artifacts.fields) {
      var popped := JObj(Remove(artifacts.fields, name));
      var doc' := JObj(Put(doc.fields, "artifacts", popped));
      assert RemoveArtifact(doc, name) == Ok(Some(doc'));
      PutLookup(doc.fields, "artifacts", popped);
      RemoveLookup(artifacts.fields, name);
      forall a | a != name
        ensures ArtifactEntry(doc', a) == ArtifactEntry(doc, a)
      {
        RemoveLookupOther(artifacts.fields, name, a);
      }
      forall k | k != "artifacts"
        ensures Section(doc', k) == Section(doc, k)
      {
        PutLookupOther(doc.fields, "artifacts", popped, k);
      }
    }
  }

  /** Recording a VM when `resources` is absent: both partitions appear, only the new entry is filled. */
  lemma PutVmFresh(doc: Json, cloud: CloudConfig.CloudProvider, vm: string, record: Json)
    requires doc.JObj? && Section(doc, "resources").None?
    ensures PutVm(doc, cloud, vm, record).Ok?
    ensures var doc' := PutVm(doc, cloud, vm, record).value;
      && Entry(doc', cloud.Value(), vm) == Some(record)
      && (forall c, v :: (c, v) != (cloud.Value(), vm) ==> Entry(doc', c, v).None?)
      && Keys(Section(doc', "resources").value.fields) == ["azure", "gcp"]
      && (forall k :: k != "resources" ==> Section(doc', k) == Section(doc, k))
  {
    CloudConfig.ProviderValues(cloud);
    var c := cloud.Value();
    var doc1 := JObj(Put(doc.fields, "resources", EmptyResources));
    PutLookup(doc.fields, "resources", EmptyResources);
    assert Lookup(EmptyResources.fields, c) == Some(JObj([]));
    var partition1 := JObj(Put([], vm, record));
    var resources2 := JObj(Put(EmptyResources.fields, c, partition1));
    var doc' := JObj(Put(doc1.fields, "resources", resources2));
    assert PutVm(doc, cloud, vm, record) == Ok(doc');
    PutLookup(doc1.fields, "resources", resources2);
    PutLookup(EmptyResources.fields, c, partition1);
    PutKeys(EmptyResources.fields, c, partition1);
    forall c', v | (c', v) != (c, vm)
      ensures Entry(doc', c', v).None?
    {
      if c' != c {
        PutLookupOther(EmptyResources.fields, c, partition1, c');
      }
    }
    forall k | k != "resources"
      ensures Section(doc', k) == Section(doc, k)
    {
      PutLookupOther(doc1.fields, "resources", resources2, k);
      PutLookupOther(doc.fields, "resources", EmptyResources, k);
    }
  }

  /** The entries of a document whose `resources` section was replaced are those of the new section. */
  lemma EntryOfPut(doc: Json, resources: Json, c: string, v: string)
    requires doc.JObj?
    ensures Entry(JObj(Put(doc.fields, "resources", resources)), c, v) ==
      match Section(resources, c)
      case None => None
      case Some(partition) => Section(partition, v)
  {
    PutLookup(doc.fields, "resources", resources);
  }

  /**
   * Recording a VM in an existing store: the partition is created when
   * missing, resources[cloud][vm] becomes the record, and every other entry
   * and every other top-level key stay.
   */
  lemma PutVmEffect(doc: Json, cloud: CloudConfig.CloudProvider, vm: string, record: Json)
    requires PartitionShaped(doc, cloud.Value()) && Section(doc, "resources").Some?
    ensures PutVm(doc, cloud, vm, record).Ok?
    ensures var doc' := PutVm(doc, cloud, vm, record).value;
      && Entry(doc', cloud.Value(), vm) == Some(record)
      && (forall c, v :: (c, v) != (cloud.Value(), vm) ==> Entry(doc', c, v) == Entry(doc, c, v))
      && (forall k :: k != "resources" ==> Section(doc', k) == Section(doc, k))
  {
    var c := cloud.Value();
    var resources := Section(doc, "resources").value;
    var resources1 := if c in Keys(resources.fields) then resources else JObj(Put(resources.fields, c, JObj([])));
    PutLookup(resources.fields, c, JObj([]));
    var partition := Section(resources1, c).value;
    var partition1 := JObj(Put(partition.fields, vm, record));
    var resources2 := JObj(Put(resources1.fields, c, partition1));
    var doc' := JObj(Put(doc.fields, "resources", resources2));
    assert PutVm(doc, cloud, vm, record) == Ok(doc');
    PutLookup(resources1.fields, c, partition1);
    PutLookup(partition.fields, vm, record);
    EntryOfPut(doc, resources2, c, vm);
    forall c', v | (c', v) != (c, vm)
      ensures Entry(doc', c', v) == Entry(doc, c', v)
    {
      EntryOfPut(doc, resources2, c', v);
      if c' == c {
        PutLookupOther(partition.fields, vm, record, v);
      } else {
        PutLookupOther(resources1.fields, c, partition1, c');
        if c !in Keys(resources.fields) {
          PutLookupOther(resources.fields, c, JObj([]), c');
        }
      }
    }
    forall k | k != "resources"
      ensures Section(doc', k) == Section(doc, k)
    {
      PutLookupOther(doc.fields, "resources", resources2, k);
    }
  }

  /**
   * load_artifact_measurements: ValueError for an unknown artifact,
   * FileNotFoundError when its image is missing, and otherwise the image
   * path inside the artifacts directory with the record's `image` value.
   */
  lemma ArtifactMeasurementsCases(doc: Json, files: map<Path, nat>, artifact: string, home: string)
    requires ArtifactsShaped(doc)
    ensures var r := ArtifactMeasurements(doc, files, artifact, home);
      && (ArtifactEntry(doc, artifact).None? ==> r == Err(ValueError))
      && (ArtifactEntry(doc, artifact).Some? && Div(Artifacts(home), artifact) !in files ==> r == Err(FileNotFoundError))
      && (ArtifactEntry(doc, artifact).Some? && Div(Artifacts(home), artifact) in files
          && Section(ArtifactEntry(doc, artifact).value, "image").Some? ==>
            r == Ok((Div(Artifacts(home), artifact), Section(ArtifactEntry(doc, artifact).value, "image").value)))
  {
  }

  // ---------------------------------------------------------------------
  // The store on disk.

  /** load_metadata: the document at home/deploy/deploy_metadata.json, or FileNotFoundError. */
  function Loaded(docs: map<Path, Json>, home: string): (r: Result<Json>)
    ensures r.Ok? <==> DeployMetadata(home) in docs
    ensures r.Err? ==> r.error == FileNotFoundError
  {
    if DeployMetadata(home) in docs then Ok(docs[DeployMetadata(home)]) else Err(FileNotFoundError)
  }

  /**
   * Loading after writing returns the written document, and writing one
   * home's metadata leaves every other home's metadata as it was.
   */
  lemma LoadAfterWrite(docs: map<Path, Json>, home: string, doc: Json, other: string)
    ensures Loaded(docs[DeployMetadata(home) := doc], home) == Ok(doc)
    ensures Home(other) != Home(home) ==>
      Loaded(docs[DeployMetadata(home) := doc], other) == Loaded(docs, other)
  {
    DeployMetadataInjective(home, other);
  }

  method LoadMetadata(w: World, home: string) returns (r: Result<Json>)
    ensures r == Loaded(w.docs, home)
  {
    if DeployMetadata(home) !in w.docs {
      return Err(FileNotFoundError);
    }
    r := Ok(w.docs[DeployMetadata(home)]);
  }

  /** write_metadata: replaces the document (the file was just loaded, so its directory exists). */
  method WriteMetadata(w: World, doc: Json, home: string)
    modifies w`docs, w`trace
    ensures w.docs == old(w.docs)[DeployMetadata(home) := doc]
    ensures w.trace == old(w.trace) + [WriteDoc(DeployMetadata(home))]
  {
    w.docs := w.docs[DeployMetadata(home) := doc];
    w.trace := w.trace + [WriteDoc(DeployMetadata(home))];
  }

  /** Loads, applies an edit that may decline to write, and writes back. */
  predicate Rewrote(docs0: map<Path, Json>, docs1: map<Path, Json>, trace0: seq<Call>, trace1: seq<Call>,
                    home: string, edit: Result<Option<Json>>, r: Result<()>)
  {
    match edit
    case Err(e) => r == Err(e) && docs1 == docs0 && trace1 == trace0
    case Ok(None) => r == Ok(()) && docs1 == docs0 && trace1 == trace0
    case Ok(Some(doc)) =>
      r == Ok(()) && docs1 == docs0[DeployMetadata(home) := doc]
      && trace1 == trace0 + [WriteDoc(DeployMetadata(home))]
  }

  /** remove_vm_from_metadata on the stored document. */
  function VmRemoval(docs: map<Path, Json>, home: string, name: string, cloud: string): Result<Option<Json>> {
    var doc :- Loaded(docs, home);
    RemoveVm(doc, name, cloud)
  }

  /** remove_artifact_from_metadata on the stored document. */
  function ArtifactRemoval(docs: map<Path, Json>, home: string, name: string): Result<Option<Json>> {
    var doc :- Loaded(docs, home);
    RemoveArtifact(doc, name)
  }

  method RemoveVmFromMetadata(w: World, name: string, home: string, cloud: string) returns (r: Result<()>)
    modifies w`docs, w`trace
    ensures Rewrote(old(w.docs), w.docs, old(w.trace), w.trace, home,
                    VmRemoval(old(w.docs), home, name, cloud), r)
  {
    var doc :- LoadMetadata(w, home);
    var edited :- RemoveVm(doc, name, cloud);
    if edited.None? {
      return Ok(());
    }
    WriteMetadata(w, edited.value, home);
    return Ok(());
  }

  method RemoveArtifactFromMetadata(w: World, name: string, home: string) returns (r: Result<()>)
    modifies w`docs, w`trace
    ensures Rewrote(old(w.docs), w.docs, old(w.trace), w.trace, home,
                    ArtifactRemoval(old(w.docs), home, name), r)
  {
    var doc :- LoadMetadata(w, home);
    var edited :- RemoveArtifact(doc, name);
    if edited.None? {
      return Ok(());
    }
    WriteMetadata(w, edited.value, home);
    return Ok(());
  }

  method LoadArtifactMeasurements(w: World, artifact: string, home: string) returns (r: Result<(Path, Json)>)
    ensures Loaded(w.docs, home).Err? ==> r == Err(FileNotFoundError)
    ensures Loaded(w.docs, home).Ok? ==> r == ArtifactMeasurements(Loaded(w.docs, home).value, w.files, artifact, home)
  {
    var doc :- LoadMetadata(w, home);
    r := ArtifactMeasurements(doc, w.files, artifact, home);
  }

  method GetCloudResources(w: World, home: string, cloud: string) returns (r: Result<Json>)
    ensures Loaded(w.docs, home).Err? ==> r == Err(FileNotFoundError)
    ensures Loaded(w.docs, home).Ok? ==> r == CloudResources(Loaded(w.docs, home).value, cloud)
  {
    var doc :- LoadMetadata(w, home);
    r := CloudResources(doc, cloud);
  }
}
