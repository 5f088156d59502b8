/** The velero volume snapshotter for DigitalOcean block storage: reads and writes the volume handle of
    a persistent volume through its typed form, and translates snapshot operations into storage calls. */
module Velero {
  import opened Wrappers
  import opened Gateway
  import opened Conventions
  import Collections

  const TOOL := "velero"

  datatype CSIPersistentVolumeSource = CSIPersistentVolumeSource(
    driver: string, volumeHandle: string, readOnly: bool,
    fsType: string, volumeAttributes: map<string, string>)

  datatype PersistentVolumeSpec = PersistentVolumeSpec(
    capacity: map<string, string>, accessModes: seq<string>, reclaimPolicy: string,
    storageClassName: string, csi: Option<CSIPersistentVolumeSource>)

  datatype PersistentVolume = PersistentVolume(
    name: string, labels: map<string, string>, spec: PersistentVolumeSpec, phase: string)

  /** A structured document as seen through the typed converter: either it converts to a persistent
      volume, with `extra` holding the top-level fields the typed volume has no place for, or the
      converter rejects it. Converting a typed volume back gives a document with no extra fields. */
  datatype Unstructured =
    | Convertible(pv: PersistentVolume, extra: map<string, Collections.Value>)
    | Unconvertible(reason: string)

  datatype DescriptorError =
    | ConversionFailed(reason: string)
    | CsiSpecNotRetrievable // read: the volume has no CSI source
    | VolumeHandleEmpty     // read: the CSI source carries an empty handle
    | CsiSpecNotFound       // write: the volume has no CSI source

  /** The volume handle, if the volume has a CSI source. */
  function HandleOf(pv: PersistentVolume): Option<string> {
    match pv.spec.csi
    case None => None
    case Some(c) => Some(c.volumeHandle)
  }

  /** The volume with its handle blanked: everything that setting the handle must leave alone. */
  function Skeleton(pv: PersistentVolume): PersistentVolume {
    match pv.spec.csi
    case None => pv
    case Some(c) => pv.(spec := pv.spec.(csi := Some(c.(volumeHandle := ""))))
  }

  /** A volume is determined by its skeleton and its handle. */
  lemma SkeletonAndHandleDetermine(p: PersistentVolume, q: PersistentVolume)
    requires Skeleton(p) == Skeleton(q) && HandleOf(p) == HandleOf(q)
    ensures p == q
  {
    if p.spec.csi.Some? {
      assert p.spec.csi.value.(volumeHandle := "") == q.spec.csi.value.(volumeHandle := "");
      assert p.spec.csi.value == q.spec.csi.value;
    }
  }

  function GetVolumeID(u: Unstructured): (r: Result<string, DescriptorError>)
    ensures u.Unconvertible? ==> r == Failure(ConversionFailed(u.reason))
    ensures u.Convertible? && HandleOf(u.pv) == None ==> r == Failure(CsiSpecNotRetrievable)
    ensures u.Convertible? && HandleOf(u.pv) == Some("") ==> r == Failure(VolumeHandleEmpty)
    ensures r.Success? <==> u.Convertible? && HandleOf(u.pv).Some? && HandleOf(u.pv).value != ""
    ensures r.Success? ==> HandleOf(u.pv) == Some(r.value)
  {
    match u
    case Unconvertible(reason) => Failure(ConversionFailed(reason))
    case Convertible(pv, _) =>
      if pv.spec.csi.None? then Failure(CsiSpecNotRetrievable)
      else if pv.spec.csi.value.volumeHandle == "" then Failure(VolumeHandleEmpty)
      else Success(pv.spec.csi.value.volumeHandle)
  }

  /** A new document built from the typed volume with its handle replaced; the input is not changed.
      The new document is the typed volume converted back, so fields outside it are dropped. */
  function SetVolumeID(u: Unstructured, volumeID: string): (r: Result<Unstructured, DescriptorError>)
    ensures u.Unconvertible? ==> r == Failure(ConversionFailed(u.reason))
    ensures u.Convertible? && HandleOf(u.pv) == None ==> r == Failure(CsiSpecNotFound)
    ensures r.Success? <==> u.Convertible? && HandleOf(u.pv).Some?
    ensures r.Success? ==> r.value.Convertible? && HandleOf(r.value.pv) == Some(volumeID)
    ensures r.Success? ==> Skeleton(r.value.pv) == Skeleton(u.pv) && r.value.extra == map[]
  {
    match u
    case Unconvertible(reason) => Failure(ConversionFailed(reason))
    case Convertible(pv, _) =>
      if pv.spec.csi.None? then Failure(CsiSpecNotFound)
      else
        var csi := pv.spec.csi.value.(volumeHandle := volumeID);
        Success(Convertible(pv.(spec := pv.spec.(csi := Some(csi))), map[]))
  }

  /** Reading back a non-empty handle just written gives that handle. */
  lemma GetAfterSet(u: Unstructured, volumeID: string)
    requires volumeID != "" && SetVolumeID(u, volumeID).Success?
    ensures GetVolumeID(SetVolumeID(u, volumeID).value) == Success(volumeID)
  {
  }

  /** An empty handle can be written but is refused when read back. */
  lemma GetAfterSetEmpty(u: Unstructured)
    requires SetVolumeID(u, "").Success?
    ensures GetVolumeID(SetVolumeID(u, "").value) == Failure(VolumeHandleEmpty)
  {
  }

  /** Writing back the handle just read reproduces the typed volume, and so the whole document when it
      has no fields outside the typed volume. */
  lemma SetAfterGet(u: Unstructured)
    requires GetVolumeID(u).Success?
    ensures SetVolumeID(u, GetVolumeID(u).value) == Success(Convertible(u.pv, map[]))
    ensures u.extra == map[] ==> SetVolumeID(u, GetVolumeID(u).value) == Success(u)
  {
    var r := SetVolumeID(u, GetVolumeID(u).value);
    SkeletonAndHandleDetermine(r.value.pv, u.pv);
  }

  /** The second of two writes wins, as if the first had not happened. */
  lemma SetTwice(u: Unstructured, first: string, second: string)
    requires SetVolumeID(u, first).Success?
    ensures SetVolumeID(SetVolumeID(u, first).value, second) == SetVolumeID(u, second)
  {
    var twice := SetVolumeID(SetVolumeID(u, first).value, second);
    var once := SetVolumeID(u, second);
    SkeletonAndHandleDetermine(twice.value.pv, once.value.pv);
  }

  /** Writing fails exactly where reading fails for a shape reason: with the converter's same error,
      or with the write's own no-CSI error where the read gives its no-CSI error. An empty handle stops
      only the read. */
  lemma SetFailsWhereGetFindsNoCsi(u: Unstructured, volumeID: string)
    ensures SetVolumeID(u, volumeID).Failure? <==>
      GetVolumeID(u).Failure? && GetVolumeID(u).error != VolumeHandleEmpty
    ensures SetVolumeID(u, volumeID).Failure? ==>
      SetVolumeID(u, volumeID).error ==
        if GetVolumeID(u).error == CsiSpecNotRetrievable then CsiSpecNotFound else GetVolumeID(u).error
  {
  }

  class VolumeSnapshotter {
    var config: map<string, string>
    var client: StorageClient?

    /** The plugin as the host creates it, before Init. */
    constructor ()
      ensures config == map[] && client == null
    {
      config := map[];
      client := null;
    }

    /** Keeps the configuration and the client handle; always returns a nil error. */
    method Init(config: map<string, string>, client: StorageClient) returns (err: Option<ApiError>)
      modifies this
      ensures this.config == config && this.client == client
      ensures err == None
    {
      err := None;
      this.config := config;
      this.client := client;
    }

    /** Looks the snapshot up for its minimum disk size, then asks for a volume of exactly that size
        restored from it, named "restore-<uuid>". A failed call is logged and the nil result is then
        dereferenced: the call panics and returns no error. */
    method CreateVolumeFromSnapshot(snapshotID: string, volumeType: string, volumeAZ: string, iops: Option<int>, uuid: string)
      returns (r: Exit<string, ApiError>)
      requires client != null && client.Valid()
      modifies client
      ensures client.Valid()
      ensures match GetSnapshotResponse(old(client.account), snapshotID)
        case Failure(e) =>
          && r == Panic(e)
          && client.account == old(client.account)
          && client.log == old(client.log) + [GetSnapshotCall(snapshotID)]
        case Success(s) =>
          var request := RestoreRequest(snapshotID, s.minDiskSize, uuid);
          && client.log == old(client.log) + [GetSnapshotCall(snapshotID), CreateVolumeCall(request)]
          && client.account == CreateVolumeEffect(old(client.account), request)
          && r == match CreateVolumeResponse(old(client.account), request)
                  case Success(v) => Return(v.id)
                  case Failure(e) => Panic(e)
    {
      var snapshot := client.GetSnapshot(snapshotID);
      if snapshot.Failure? {
        return Panic(snapshot.error);
      }
      var request := RestoreRequest(snapshotID, snapshot.value.minDiskSize, uuid);
      var newVolume := client.CreateVolume(request);
      if newVolume.Failure? {
        return Panic(newVolume.error);
      }
      return Return(newVolume.value.id);
    }

    /** The volume's filesystem type, and no IOPS figure. */
    method GetVolumeInfo(volumeID: string, volumeAZ: string) returns (r: Exit<(string, Option<int>), ApiError>)
      requires client != null && client.Valid()
      modifies client
      ensures client.Valid() && client.account == old(client.account)
      ensures client.log == old(client.log) + [GetVolumeCall(volumeID)]
      ensures match GetVolumeResponse(old(client.account), volumeID)
        case Success(v) => r == Return((v.filesystemType, None))
        case Failure(e) => r == Panic(e)
    {
      var volume := client.GetVolume(volumeID);
      if volume.Failure? {
        return Panic(volume.error);
      }
      return Return((volume.value.filesystemType, None));
    }

    /** Every volume is reported ready; nothing is asked of the service. */
    method IsVolumeReady(volumeID: string, volumeAZ: string) returns (ready: bool, err: Option<ApiError>)
      ensures ready && err == None
    {
      return true, None;
    }

    /** Asks for a snapshot of the volume named "pvs-<volumeID>-<uuid>" and described as a velero
        snapshot of it; a failed call panics as in CreateVolumeFromSnapshot. */
    method CreateSnapshot(volumeID: string, volumeAZ: string, tags: map<string, string>, uuid: string)
      returns (r: Exit<string, ApiError>)
      requires client != null && client.Valid()
      modifies client
      ensures client.Valid()
      ensures var request := SnapshotRequest(TOOL, volumeID, uuid);
        && client.log == old(client.log) + [CreateSnapshotCall(request)]
        && client.account == CreateSnapshotEffect(old(client.account), request)
        && r == match CreateSnapshotResponse(old(client.account), request)
                case Success(s) => Return(s.id)
                case Failure(e) => Panic(e)
    {
      var request := SnapshotRequest(TOOL, volumeID, uuid);
      var newSnapshot := client.CreateSnapshot(request);
      if newSnapshot.Failure? {
        return Panic(newSnapshot.error);
      }
      return Return(newSnapshot.value.id);
    }

    /** The service's error, unchanged (None when the deletion succeeded). */
    method DeleteSnapshot(snapshotID: string) returns (err: Option<ApiError>)
      requires client != null && client.Valid()
      modifies client
      ensures client.Valid()
      ensures err == DeleteSnapshotResponse(old(client.account), snapshotID)
      ensures client.account == DeleteSnapshotEffect(old(client.account), snapshotID)
      ensures client.log == old(client.log) + [DeleteSnapshotCall(snapshotID)]
    {
      err := client.DeleteSnapshot(snapshotID);
    }
  }
}
