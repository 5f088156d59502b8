/** The Ark block store for DigitalOcean: reads and writes the volume handle of a persistent volume by
    dotted-path access to its generic document, and translates snapshot operations into storage calls. */
module Ark {
  import opened Wrappers
  import opened Gateway
  import opened Conventions
  import opened Collections

  const TOOL := "Ark"
  const CSI_PATH: Path := ["spec", "csi"]
  const HANDLE_KEY := "volumeHandle"
  const HANDLE_PATH: Path := ["spec", "csi", "volumeHandle"]

  /** Whatever the document holds at spec.csi, read directly off its maps. */
  function CsiField(content: map<string, Value>): Option<Value> {
    if "spec" in content && content["spec"].Obj? && "csi" in content["spec"].fields
    then Some(content["spec"].fields["csi"])
    else None
  }

  /** The handle at spec.csi.volumeHandle; the empty string, with no error, when there is no spec.csi. */
  function GetVolumeID(content: map<string, Value>): (r: Result<string, PathError>)
    ensures match CsiField(content)
      case None => r == Success("")
      case Some(Obj(csi)) =>
        if HANDLE_KEY !in csi then r == Failure(KeyNotFound(HANDLE_KEY))
        else if csi[HANDLE_KEY].Str? then r == Success(csi[HANDLE_KEY].s)
        else r == Failure(NotAStringAtPath(HANDLE_PATH))
      case Some(_) => r == Failure(NotAMapAtKey("csi"))
  {
    if !Exists(content, CSI_PATH) then Success("")
    else GetString(content, HANDLE_PATH)
  }

  /** The persistent volume handed to the adapter: a mutable object around its document. */
  class Document {
    var content: map<string, Value>

    constructor (content: map<string, Value>)
      ensures this.content == content
    {
      this.content := content;
    }
  }

  /** After a successful write the volume handle reads back as written. */
  lemma GetAfterSet(content: map<string, Value>, volumeID: string)
    requires GetMap(content, CSI_PATH).Success?
    ensures GetVolumeID(SetValue(content, HANDLE_PATH, Str(volumeID))) == Success(volumeID)
  {
    assert HANDLE_PATH == CSI_PATH + [HANDLE_KEY];
    assert HANDLE_PATH[..2] == CSI_PATH;
    Collections.GetAfterSet(content, HANDLE_PATH, Str(volumeID));
    GetMapAfterWrite(content, CSI_PATH, HANDLE_KEY, Str(volumeID));
  }

  /** A write of the handle leaves the other entries of spec.csi as they were. */
  lemma SetKeepsOtherCsiEntries(content: map<string, Value>, volumeID: string)
    requires GetMap(content, CSI_PATH).Success?
    ensures var before := GetMap(content, CSI_PATH).value;
      var after := GetMap(SetValue(content, HANDLE_PATH, Str(volumeID)), CSI_PATH);
      && after.Success?
      && after.value.Keys == before.Keys + {HANDLE_KEY}
      && (forall k :: k in before && k != HANDLE_KEY ==> after.value[k] == before[k])
  {
    assert HANDLE_PATH == CSI_PATH + [HANDLE_KEY];
    GetMapAfterWrite(content, CSI_PATH, HANDLE_KEY, Str(volumeID));
  }

  /** A write of the handle changes the lookup of no path that parts ways with spec.csi.volumeHandle. */
  lemma SetKeepsRestOfDocument(content: map<string, Value>, volumeID: string, other: Path)
    requires Diverges(HANDLE_PATH, other)
    ensures GetValue(SetValue(content, HANDLE_PATH, Str(volumeID)), other) == GetValue(content, other)
  {
    SetLeavesDivergentPaths(content, HANDLE_PATH, Str(volumeID), other);
  }

  /** The write is refused exactly when spec.csi is not a map. */
  lemma SetVolumeIDRefusedWithoutCsiMap(content: map<string, Value>)
    ensures GetMap(content, CSI_PATH).Success? <==> CsiField(content).Some? && CsiField(content).value.Obj?
  {
  }

  /** Where spec.csi is missing the read reports an empty handle and no error, while the write fails:
      the two operations disagree on such a document. */
  lemma ReadAndWriteDisagreeWithoutCsi(content: map<string, Value>)
    requires CsiField(content) == None
    ensures GetVolumeID(content) == Success("")
    ensures GetMap(content, CSI_PATH).Failure?
  {
  }

  class BlockStore {
    var config: map<string, string>
    var client: StorageClient?

    /** The plugin as the plugin server creates it, before Init. */
    constructor ()
      ensures config == map[] && client == null
    {
      config := map[];
      client := null;
    }

    /** Keeps the configuration and the client handle; always returns a nil error. */
    method Init(config: map<string, string>, client: StorageClient) returns (err: Option<ApiError>)
      modifies this
      ensures this.config == config && this.client == client
      ensures err == None
    {
      err := None;
      this.config := config;
      this.client := client;
    }

    /** Looks the snapshot up for its minimum disk size, then asks for a volume of exactly that size
        restored from it, named "restore-<uuid>". A failed call is logged and the nil result is then
        dereferenced: the call panics and returns no error. */
    method CreateVolumeFromSnapshot(snapshotID: string, volumeType: string, volumeAZ: string, iops: Option<int>, uuid: string)
      returns (r: Exit<string, ApiError>)
      requires client != null && client.Valid()
      modifies client
      ensures client.Valid()
      ensures match GetSnapshotResponse(old(client.account), snapshotID)
        case Failure(e) =>
          && r == Panic(e)
          && client.account == old(client.account)
          && client.log == old(client.log) + [GetSnapshotCall(snapshotID)]
        case Success(s) =>
          var request := RestoreRequest(snapshotID, s.minDiskSize, uuid);
          && client.log == old(client.log) + [GetSnapshotCall(snapshotID), CreateVolumeCall(request)]
          && client.account == CreateVolumeEffect(old(client.account), request)
          && r == match CreateVolumeResponse(old(client.account), request)
                  case Success(v) => Return(v.id)
                  case Failure(e) => Panic(e)
    {
      var snapshot := client.GetSnapshot(snapshotID);
      if snapshot.Failure? {
        return Panic(snapshot.error);
      }
      var request := RestoreRequest(snapshotID, snapshot.value.minDiskSize, uuid);
      var newVolume := client.CreateVolume(request);
      if newVolume.Failure? {
        return Panic(newVolume.error);
      }
      return Return(newVolume.value.id);
    }

    /** The volume's filesystem type, and no IOPS figure. */
    method GetVolumeInfo(volumeID: string, volumeAZ: string) returns (r: Exit<(string, Option<int>), ApiError>)
      requires client != null && client.Valid()
      modifies client
      ensures client.Valid() && client.account == old(client.account)
      ensures client.log == old(client.log) + [GetVolumeCall(volumeID)]
      ensures match GetVolumeResponse(old(client.account), volumeID)
        case Success(v) => r == Return((v.filesystemType, None))
        case Failure(e) => r == Panic(e)
    {
      var volume := client.GetVolume(volumeID);
      if volume.Failure? {
        return Panic(volume.error);
      }
      return Return((volume.value.filesystemType, None));
    }

    /** Every volume is reported ready; nothing is asked of the service. */
    method IsVolumeReady(volumeID: string, volumeAZ: string) returns (ready: bool, err: Option<ApiError>)
      ensures ready && err == None
    {
      return true, None;
    }

    /** Asks for a snapshot of the volume named "pvs-<volumeID>-<uuid>" and described as an Ark
        snapshot of it; a failed call panics as in CreateVolumeFromSnapshot. */
    method CreateSnapshot(volumeID: string, volumeAZ: string, tags: map<string, string>, uuid: string)
      returns (r: Exit<string, ApiError>)
      requires client != null && client.Valid()
      modifies client
      ensures client.Valid()
      ensures var request := SnapshotRequest(TOOL, volumeID, uuid);
        && client.log == old(client.log) + [CreateSnapshotCall(request)]
        && client.account == CreateSnapshotEffect(old(client.account), request)
        && r == match CreateSnapshotResponse(old(client.account), request)
                case Success(s) => Return(s.id)
                case Failure(e) => Panic(e)
    {
      var request := SnapshotRequest(TOOL, volumeID, uuid);
      var newSnapshot := client.CreateSnapshot(request);
      if newSnapshot.Failure? {
        return Panic(newSnapshot.error);
      }
      return Return(newSnapshot.value.id);
    }

    /** The service's error, unchanged (None when the deletion succeeded). */
    method DeleteSnapshot(snapshotID: string) returns (err: Option<ApiError>)
      requires client != null && client.Valid()
      modifies client
      ensures client.Valid()
      ensures err == DeleteSnapshotResponse(old(client.account), snapshotID)
      ensures client.account == DeleteSnapshotEffect(old(client.account), snapshotID)
      ensures client.log == old(client.log) + [DeleteSnapshotCall(snapshotID)]
    {
      err := client.DeleteSnapshot(snapshotID);
    }

    /** Writes the handle into the spec.csi map of the given document in place and returns that same
        document; fails with the lookup error, changing nothing, when spec.csi is not a map. */
    method SetVolumeID(pv: Document, volumeID: string) returns (r: Result<Document, PathError>)
      modifies pv
      ensures match GetMap(old(pv.content), CSI_PATH)
        case Failure(e) => r == Failure(e) && pv.content == old(pv.content)
        case Success(_) => r == Success(pv) && pv.content == SetValue(old(pv.content), HANDLE_PATH, Str(volumeID))
    {
      var csi := GetMap(pv.content, CSI_PATH);
      if csi.Failure? {
        return Failure(csi.error);
      }
      assert HANDLE_PATH == CSI_PATH + [HANDLE_KEY];
      WriteThroughMap(pv.content, CSI_PATH, HANDLE_KEY, Str(volumeID));
      pv.content := SetValue(pv.content, CSI_PATH, Obj(csi.value[HANDLE_KEY := Str(volumeID)]));
      return Success(pv);
    }
  }
}
