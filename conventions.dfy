/** The naming rules both adapters apply to what they create, with the inverse readings that show each
    generated name gives back the inputs it was built from. */
module Conventions {
  import opened Wrappers
  import opened Gateway

  const RESTORE_PREFIX := "restore-"
  const SNAPSHOT_PREFIX := "pvs-"
  const DESCRIPTION_INFIX := " snapshot of pv-"

  predicate IsLowerHex(c: char) {
    '0' <= c <= '9' || 'a' <= c <= 'f'
  }

  /** The canonical text of a random (version 4) UUID: 8-4-4-4-12 lower-case hex digits, the version
      digit 4 and a variant digit among 8, 9, a, b. */
  predicate IsUuid(u: string) {
    && |u| == 36
    && (forall i :: 0 <= i < 36 ==> if i == 8 || i == 13 || i == 18 || i == 23 then u[i] == '-' else IsLowerHex(u[i]))
    && u[14] == '4'
    && u[19] in "89ab"
  }

  /** The name of a restored volume: the restore prefix followed by exactly the UUID. */
  function RestoreVolumeName(uuid: string): (name: string)
    ensures StripPrefix(RESTORE_PREFIX, name) == Some(uuid)
  {
    StripPrefixOfConcat(RESTORE_PREFIX, uuid);
    RESTORE_PREFIX + uuid
  }

  /** The name of a new snapshot: the snapshot prefix, the volume identifier, '-', then the UUID,
      which ends the name. */
  function SnapshotName(volumeID: string, uuid: string): (name: string)
    ensures StripPrefix(SNAPSHOT_PREFIX, name) == Some(volumeID + "-" + uuid)
    ensures |name| > |uuid| && name[|name| - |uuid|..] == uuid && name[|name| - |uuid| - 1] == '-'
  {
    StripPrefixOfConcat(SNAPSHOT_PREFIX, volumeID + "-" + uuid);
    assert SNAPSHOT_PREFIX + volumeID + "-" + uuid == SNAPSHOT_PREFIX + (volumeID + "-" + uuid);
    SNAPSHOT_PREFIX + volumeID + "-" + uuid
  }

  /** `tool` is the orchestrator's name as it appears in the description, which ends with the volume
      identifier. */
  function SnapshotDescription(tool: string, volumeID: string): (description: string)
    ensures StripPrefix(tool + DESCRIPTION_INFIX, description) == Some(volumeID)
  {
    StripPrefixOfConcat(tool + DESCRIPTION_INFIX, volumeID);
    tool + DESCRIPTION_INFIX + volumeID
  }

  /** The volume a restore asks for: named after the UUID, sourced from the snapshot, sized to it. */
  function RestoreRequest(snapshotID: string, minDiskSize: int, uuid: string): (req: VolumeCreateRequest)
    ensures req.snapshotID == snapshotID && req.sizeGigaBytes == minDiskSize
    ensures StripPrefix(RESTORE_PREFIX, req.name) == Some(uuid)
    ensures IsUuid(uuid) ==> ParseRestoreVolumeName(req.name) == Some(uuid)
  {
    assert IsUuid(uuid) ==> ParseRestoreVolumeName(RestoreVolumeName(uuid)) == Some(uuid) by {
      if IsUuid(uuid) {
        RestoreVolumeNameRoundTrip(uuid);
      }
    }
    VolumeCreateRequest(RestoreVolumeName(uuid), snapshotID, minDiskSize)
  }

  /** The snapshot a backup asks for: of the given volume, with a name and a description that both
      give the volume back, and a name that also gives the UUID back. */
  function SnapshotRequest(tool: string, volumeID: string, uuid: string): (req: SnapshotCreateRequest)
    ensures req.volumeID == volumeID
    ensures ParseSnapshotDescription(tool, req.description) == Some(volumeID)
    ensures IsUuid(uuid) ==> ParseSnapshotName(req.name) == Some((volumeID, uuid))
  {
    assert IsUuid(uuid) ==> ParseSnapshotName(SnapshotName(volumeID, uuid)) == Some((volumeID, uuid)) by {
      if IsUuid(uuid) {
        SnapshotNameRoundTrip(volumeID, uuid);
      }
    }
    SnapshotDescriptionRoundTrip(tool, volumeID);
    SnapshotCreateRequest(volumeID, SnapshotName(volumeID, uuid), SnapshotDescription(tool, volumeID))
  }

  function StripPrefix(prefix: string, s: string): (r: Option<string>)
    ensures r.Some? <==> |prefix| <= |s| && s[..|prefix|] == prefix
    ensures r.Some? ==> s == prefix + r.value
  {
    if |prefix| <= |s| && s[..|prefix|] == prefix then Some(s[|prefix|..]) else None
  }

  lemma StripPrefixOfConcat(prefix: string, rest: string)
    ensures StripPrefix(prefix, prefix + rest) == Some(rest)
  {
    assert (prefix + rest)[..|prefix|] == prefix;
    assert (prefix + rest)[|prefix|..] == rest;
  }

  /** The UUID a restore-volume name was made from, if it is one. */
  function ParseRestoreVolumeName(name: string): (r: Option<string>)
    ensures r.Some? ==> IsUuid(r.value) && RestoreVolumeName(r.value) == name
  {
    match StripPrefix(RESTORE_PREFIX, name)
    case Some(u) => if IsUuid(u) then Some(u) else None
    case None => None
  }

  /** The volume identifier and the UUID a snapshot name was made from. The UUID's fixed length is
      what makes the split unambiguous: a volume identifier may itself contain '-'. */
  function ParseSnapshotName(name: string): (r: Option<(string, string)>)
    ensures r.Some? ==> IsUuid(r.value.1) && SnapshotName(r.value.0, r.value.1) == name
  {
    if |name| >= |SNAPSHOT_PREFIX| + 1 + 36 && name[..|SNAPSHOT_PREFIX|] == SNAPSHOT_PREFIX
       && name[|name| - 37] == '-' && IsUuid(name[|name| - 36..])
    then
      var volumeID, uuid := name[|SNAPSHOT_PREFIX|..|name| - 37], name[|name| - 36..];
      assert name == SNAPSHOT_PREFIX + volumeID + "-" + uuid by {
        assert name == name[..|SNAPSHOT_PREFIX|] + name[|SNAPSHOT_PREFIX|..|name| - 37]
                       + [name[|name| - 37]] + name[|name| - 36..];
      }
      Some((volumeID, uuid))
    else None
  }

  function ParseSnapshotDescription(tool: string, description: string): (r: Option<string>)
    ensures r.Some? ==> SnapshotDescription(tool, r.value) == description
  {
    StripPrefix(tool + DESCRIPTION_INFIX, description)
  }

  lemma RestoreVolumeNameRoundTrip(uuid: string)
    requires IsUuid(uuid)
    ensures ParseRestoreVolumeName(RestoreVolumeName(uuid)) == Some(uuid)
  {
    StripPrefixOfConcat(RESTORE_PREFIX, uuid);
  }

  lemma {:induction false} SnapshotNameRoundTrip(volumeID: string, uuid: string)
    requires IsUuid(uuid)
    ensures ParseSnapshotName(SnapshotName(volumeID, uuid)) == Some((volumeID, uuid))
  {
    var name := SnapshotName(volumeID, uuid);
    assert |name| == 4 + |volumeID| + 1 + 36;
    assert name[..4] == SNAPSHOT_PREFIX;
    assert name[|name| - 37] == '-';
    assert name[|name| - 36..] == uuid;
    assert name[4..|name| - 37] == volumeID;
  }

  lemma SnapshotDescriptionRoundTrip(tool: string, volumeID: string)
    ensures ParseSnapshotDescription(tool, SnapshotDescription(tool, volumeID)) == Some(volumeID)
  {
    StripPrefixOfConcat(tool + DESCRIPTION_INFIX, volumeID);
  }

  /** Two restores with different UUIDs never ask for the same volume name; this holds for any
      strings, since the prefix is fixed. */
  lemma RestoreVolumeNameInjective(u1: string, u2: string)
    requires RestoreVolumeName(u1) == RestoreVolumeName(u2)
    ensures u1 == u2
  {
    assert Some(u1) == StripPrefix(RESTORE_PREFIX, RestoreVolumeName(u1));
  }

  /** Two snapshots named from different (volume, UUID) pairs never share a name. */
  lemma SnapshotNameInjective(v1: string, u1: string, v2: string, u2: string)
    requires IsUuid(u1) && IsUuid(u2) && SnapshotName(v1, u1) == SnapshotName(v2, u2)
    ensures v1 == v2 && u1 == u2
  {
    SnapshotNameRoundTrip(v1, u1);
    SnapshotNameRoundTrip(v2, u2);
  }

  /** Without the UUID's fixed shape the snapshot name would not determine its parts. */
  lemma SnapshotNameAmbiguousForArbitrarySuffix()
    ensures SnapshotName("a", "b-c") == SnapshotName("a-b", "c")
  {
  }

  /** On an account that answers, holds the snapshot and has room for a volume, the restore request is
      accepted: its size is exactly the snapshot's minimum, so the size check never rejects it, and the
      new volume is fresh, restore-named and sourced from that snapshot. */
  lemma RestoreRequestAccepted(a: Account, snapshotID: string, uuid: string)
    requires Consistent(a)
    requires GetSnapshotResponse(a, snapshotID).Success? && |a.volumes| < a.volumeLimit
    ensures var s := GetSnapshotResponse(a, snapshotID).value;
      var r := CreateVolumeResponse(a, RestoreRequest(snapshotID, s.minDiskSize, uuid));
      && r.Success?
      && r.value.id !in a.volumes
      && r.value.name == RESTORE_PREFIX + uuid
      && r.value.snapshotID == snapshotID
      && r.value.sizeGigaBytes == s.minDiskSize
      && r.value.filesystemType == s.filesystemType
  {
    CreateVolumeKeepsConsistent(a, RestoreRequest(snapshotID, GetSnapshotResponse(a, snapshotID).value.minDiskSize, uuid));
  }

  /** On an account that answers and holds the volume, the snapshot request is accepted and the new
      snapshot is fresh, records the volume, its name and its description, and is as large as the volume. */
  lemma SnapshotRequestAccepted(a: Account, tool: string, volumeID: string, uuid: string)
    requires Consistent(a)
    requires GetVolumeResponse(a, volumeID).Success?
    ensures var r := CreateSnapshotResponse(a, SnapshotRequest(tool, volumeID, uuid));
      && r.Success?
      && r.value.id !in a.snapshots
      && r.value.volumeID == volumeID
      && r.value.name == SNAPSHOT_PREFIX + volumeID + "-" + uuid
      && r.value.description == tool + DESCRIPTION_INFIX + volumeID
      && r.value.minDiskSize == a.volumes[volumeID].sizeGigaBytes
  {
    CreateSnapshotKeepsConsistent(a, SnapshotRequest(tool, volumeID, uuid));
  }
}
