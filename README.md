# DigitalOcean block-storage snapshot adapters, modelled in Dafny

The repository holds two near-identical plugins. Each lets a backup orchestrator drive DigitalOcean
block-storage snapshots: `VolumeSnapshotter` for velero and `BlockStore` for its predecessor Ark.
Each plugin does two things:

- It translates the orchestrator's operations into calls on the provider's storage client: restore a
  volume from a snapshot, read a volume's filesystem type, report readiness, take a snapshot, delete a
  snapshot.
- It reads and writes the volume handle inside a persistent-volume document, at `spec.csi.volumeHandle`.

The model has six modules:

- `Wrappers`: `Option`, `Result`, and `Exit`. `Exit` is how a Go call ends when the code may dereference
  a nil result. It either returns a value with a nil error (`Return`) or panics (`Panic`). `Panic`
  records the error that was logged just before the dereference.
- `Gateway`: the storage service behind the provider's client.
  - An `Account` value holds whether the service answers, the snapshots, the volumes, a volume limit,
    and a counter that issues identifiers.
  - Pure response and effect functions give each of the five calls (get-snapshot, create-volume,
    get-volume, create-snapshot, delete-snapshot).
  - The class `StorageClient` is the client handle. Its methods update the account and append to a
    ghost call log.
  - `Consistent` keeps every stored object under its own identifier and every identifier not yet
    issued unused.
  - This module is the adapters' collaborator, not code of the repository.
- `Conventions`: the naming rules both plugins share.
  - A restore volume is named `restore-<uuid>`.
  - A snapshot is named `pvs-<volumeID>-<uuid>` and described as `<tool> snapshot of pv-<volumeID>`.
  - The restore request is sized to the snapshot's minimum disk size.
  - Each name has an inverse parser, with round-trip and injectivity lemmas.
- `Collections`: the generic document (string-keyed maps nested in each other) and the dotted-path
  helpers Ark uses on it (`GetValue`, `GetString`, `GetMap`, `Exists`). `SetValue` gives the effect of
  writing an entry in place into a map reached by a path.
- `Velero` (`velero-digitalocean/volume_snapshotter.go`): the typed persistent volume with an optional
  CSI source, the pure `GetVolumeID`/`SetVolumeID`, and the class `VolumeSnapshotter`.
- `Ark` (`ark-blockstore-digitalocean/digitalocean-blockstore.go`): `GetVolumeID` over the document's
  content, the class `Document` (the mutable document handed to the plugin), and the class `BlockStore`.
  Its `SetVolumeID` writes into the document and returns that same object.

Behaviour of the code that the model keeps, although a cleaner design would differ:

- Failed storage calls in the create and get operations do not return an error, and they do not hand
  back a partial result either. The error is logged, then the nil result is dereferenced. The model
  gives this outcome as `Panic(cause)`, and a restore whose get-snapshot fails makes no create-volume call.
- The Ark `GetVolumeID` returns the empty string with no error when `spec.csi` is absent. The velero one
  fails in that case.
- `Init` always returns a nil error.
- The names are built from a UUID passed in as a parameter, because generating it is randomness. The
  model proves that distinct UUIDs give distinct names. That a fresh UUID differs from earlier ones
  cannot be proved, only assumed.

## Model

| member | source | states |
|---|---|---|
| `Velero.GetVolumeID` | velero-digitalocean/volume_snapshotter.go:160-174 | fails with the converter's error on an unconvertible document, with `CsiSpecNotRetrievable` when there is no CSI source, with `VolumeHandleEmpty` when the handle is ""; succeeds exactly when a non-empty handle is present, and then returns that handle |
| `Velero.SetVolumeID` | velero-digitalocean/volume_snapshotter.go:177-197 | fails with the converter's error or `CsiSpecNotFound` (no document) unless a CSI source is present; on success the new document is the typed volume converted back: it carries the given handle, agrees with the input's typed volume everywhere else, and has no fields outside the typed volume |
| `Velero.GetAfterSet` | velero-digitalocean/volume_snapshotter.go:170-189 | reading back a non-empty handle just written gives that handle |
| `Velero.GetAfterSetEmpty` | velero-digitalocean/volume_snapshotter.go:170-189 | an empty handle is accepted by the write but refused by the read |
| `Velero.SetAfterGet` | velero-digitalocean/volume_snapshotter.go:173-196 | writing back the handle just read reproduces the input's typed volume, and the whole input document when it has no fields outside the typed volume |
| `Velero.SetTwice` | velero-digitalocean/volume_snapshotter.go:189-196 | of two successive writes only the second matters |
| `Velero.SetFailsWhereGetFindsNoCsi` | velero-digitalocean/volume_snapshotter.go:164-187 | the write fails exactly where the read fails for a reason other than an empty handle; with the converter's same error, or with the write's no-CSI error where the read gives its own, different no-CSI error |
| `Velero.VolumeSnapshotter.constructor` | velero-digitalocean/volume_snapshotter.go:36-40 | the plugin starts with no configuration and no client |
| `Velero.VolumeSnapshotter.Init` | velero-digitalocean/volume_snapshotter.go:51-63 | stores the configuration and the client handle, and returns a nil error |
| `Velero.VolumeSnapshotter.CreateVolumeFromSnapshot` | velero-digitalocean/volume_snapshotter.go:75-99 | one get-snapshot call; if it fails, a panic with no further call; otherwise one create-volume call for `restore-<uuid>` from that snapshot at its minimum disk size; returns the new volume's id, or panics with the create error |
| `Velero.VolumeSnapshotter.GetVolumeInfo` | velero-digitalocean/volume_snapshotter.go:102-113 | one get-volume call; returns the filesystem type and no IOPS, or panics with the call's error; the account is unchanged |
| `Velero.VolumeSnapshotter.IsVolumeReady` | velero-digitalocean/volume_snapshotter.go:116-118 | returns ready with a nil error for every input, touching no state and needing no client |
| `Velero.VolumeSnapshotter.CreateSnapshot` | velero-digitalocean/volume_snapshotter.go:121-143 | one create-snapshot call with volume `volumeID`, name `pvs-<volumeID>-<uuid>`, description `velero snapshot of pv-<volumeID>`; returns the new snapshot's id or panics with the call's error |
| `Velero.VolumeSnapshotter.DeleteSnapshot` | velero-digitalocean/volume_snapshotter.go:146-157 | one delete-snapshot call; returns exactly the service's error, nil on success |
| `Conventions.RestoreVolumeName` | velero-digitalocean/volume_snapshotter.go:88 | the name is the prefix `restore-` followed by exactly the UUID |
| `Conventions.SnapshotName` | velero-digitalocean/volume_snapshotter.go:126 | the name is the prefix `pvs-` followed by `<volumeID>-<uuid>`; it ends with the UUID, preceded by '-' |
| `Conventions.SnapshotDescription` | velero-digitalocean/volume_snapshotter.go:131 | the description is `<tool> snapshot of pv-` followed by exactly the volume id |
| `Conventions.RestoreRequest` | velero-digitalocean/volume_snapshotter.go:87-91 | the request names the given snapshot and asks for exactly the given size; its name strips to the UUID and, for a well-formed UUID, parses back to it |
| `Conventions.SnapshotRequest` | velero-digitalocean/volume_snapshotter.go:128-132 | the request is for the given volume; its description parses back to the volume id, and for a well-formed UUID its name parses back to (volume id, UUID) |
| `Conventions.ParseRestoreVolumeName` | velero-digitalocean/volume_snapshotter.go:88 | a parsed name is a UUID that rebuilds the name |
| `Conventions.RestoreVolumeNameRoundTrip` | velero-digitalocean/volume_snapshotter.go:88 | `restore-<uuid>` parses back to the UUID |
| `Conventions.RestoreVolumeNameInjective` | velero-digitalocean/volume_snapshotter.go:88 | distinct UUIDs, indeed any distinct strings, give distinct restore-volume names |
| `Conventions.ParseSnapshotName` | velero-digitalocean/volume_snapshotter.go:126 | a parsed snapshot name splits into a volume id and a UUID that rebuild it |
| `Conventions.SnapshotNameRoundTrip` | velero-digitalocean/volume_snapshotter.go:126 | `pvs-<volumeID>-<uuid>` parses back to the pair, even when the volume id contains '-' |
| `Conventions.SnapshotNameInjective` | velero-digitalocean/volume_snapshotter.go:126 | distinct (volume id, UUID) pairs give distinct snapshot names |
| `Conventions.SnapshotNameAmbiguousForArbitrarySuffix` | velero-digitalocean/volume_snapshotter.go:126 | without the UUID's fixed shape two different pairs give the same name |
| `Conventions.ParseSnapshotDescription` | velero-digitalocean/volume_snapshotter.go:131 | a parsed description names the volume it rebuilds |
| `Conventions.SnapshotDescriptionRoundTrip` | ark-blockstore-digitalocean/digitalocean-blockstore.go:102 | `<tool> snapshot of pv-<volumeID>` gives back the volume id |
| `Conventions.RestoreRequestAccepted` | velero-digitalocean/volume_snapshotter.go:80-93 | on an answering account that holds the snapshot and has room, the restore request is accepted: sized exactly to the snapshot's minimum, fresh id, restore name, sourced from the snapshot, same filesystem |
| `Conventions.SnapshotRequestAccepted` | velero-digitalocean/volume_snapshotter.go:126-137 | on an answering account that holds the volume, the snapshot request is accepted with a fresh id, the conventional name and description, and the volume's size as minimum disk size |
| `Collections.WriteThroughMap` | ark-blockstore-digitalocean/digitalocean-blockstore.go:145-151 | writing an entry into the map found at a path equals writing at the extended path |
| `Collections.GetAfterSet` | ark-blockstore-digitalocean/digitalocean-blockstore.go:135-151 | after a write at a path whose parent is a map, the path reads back the written value |
| `Collections.SetLeavesDivergentPaths` | ark-blockstore-digitalocean/digitalocean-blockstore.go:151 | a write changes no lookup along a path that parts ways with the written one |
| `Collections.GetMapAfterWrite` | ark-blockstore-digitalocean/digitalocean-blockstore.go:145-153 | the map at a path after writing one key inside it is the old map with that key updated |
| `Collections.PrefixOfMapIsMap` | ark-blockstore-digitalocean/digitalocean-blockstore.go:145 | every proper prefix of a path that resolves leads to a map |
| `Ark.GetVolumeID` | ark-blockstore-digitalocean/digitalocean-blockstore.go:128-141 | "" with no error when spec.csi is absent; the string at spec.csi.volumeHandle when present; otherwise the lookup's error (csi not a map, handle key missing, handle not a string) |
| `Ark.GetAfterSet` | ark-blockstore-digitalocean/digitalocean-blockstore.go:135-151 | after a successful write, the read returns the written handle |
| `Ark.SetKeepsOtherCsiEntries` | ark-blockstore-digitalocean/digitalocean-blockstore.go:151-153 | after the write, spec.csi holds the same other keys with the same values |
| `Ark.SetKeepsRestOfDocument` | ark-blockstore-digitalocean/digitalocean-blockstore.go:151-153 | no path that parts ways with spec.csi.volumeHandle changes its value |
| `Ark.SetVolumeIDRefusedWithoutCsiMap` | ark-blockstore-digitalocean/digitalocean-blockstore.go:145-149 | the write's lookup succeeds exactly when spec.csi holds a map |
| `Ark.ReadAndWriteDisagreeWithoutCsi` | ark-blockstore-digitalocean/digitalocean-blockstore.go:130-149 | without spec.csi the read reports "" with no error while the write fails |
| `Ark.Document.constructor` | ark-blockstore-digitalocean/digitalocean-blockstore.go:143-145 | a document object holding exactly the given content, the mutable document the plugin is handed |
| `Ark.BlockStore.constructor` | ark-blockstore-digitalocean/main.go:15-17 | the plugin starts with no configuration and no client |
| `Ark.BlockStore.Init` | ark-blockstore-digitalocean/digitalocean-blockstore.go:30-42 | stores the configuration and the client handle, and returns a nil error |
| `Ark.BlockStore.CreateVolumeFromSnapshot` | ark-blockstore-digitalocean/digitalocean-blockstore.go:52-75 | as the velero one: get-snapshot, then create-volume `restore-<uuid>` at the snapshot's minimum size; returns the new id or panics with the failing call's error |
| `Ark.BlockStore.GetVolumeInfo` | ark-blockstore-digitalocean/digitalocean-blockstore.go:77-87 | one get-volume call; the filesystem type and no IOPS, or a panic |
| `Ark.BlockStore.IsVolumeReady` | ark-blockstore-digitalocean/digitalocean-blockstore.go:89-91 | ready with a nil error for every input, with no call to the service |
| `Ark.BlockStore.CreateSnapshot` | ark-blockstore-digitalocean/digitalocean-blockstore.go:93-114 | one create-snapshot call named `pvs-<volumeID>-<uuid>` and described `Ark snapshot of pv-<volumeID>`; the new id or a panic |
| `Ark.BlockStore.DeleteSnapshot` | ark-blockstore-digitalocean/digitalocean-blockstore.go:116-126 | one delete-snapshot call; the service's error returned unchanged |
| `Ark.BlockStore.SetVolumeID` | ark-blockstore-digitalocean/digitalocean-blockstore.go:143-154 | when spec.csi is not a map: that lookup error and an unchanged document; otherwise the handle written in place at spec.csi.volumeHandle and the same document object returned |

## Left out

- Plugin registration and serving (`ark-blockstore-digitalocean/main.go`) are plumbing. Only the
  plugin's initial state is modelled.
- The provider's client library: its HTTP transport, the OAuth2 token source (`TokenSource.Token`),
  retries and authentication. `Gateway` takes its place, and its failure modes are the model's own
  abstraction: `Unreachable`, `NotFound`, `Undersized`, `VolumeLimitReached`.
- The second value each storage call returns (the HTTP response) is ignored by the code and is not modelled.
- Velero.VolumeSnapshotter.Init: does not read `DIGITALOCEAN_TOKEN` or build the client. It receives
  the client handle ready-made, because reading the environment and constructing the transport are I/O.
- Ark.BlockStore.Init: the same.
- UUID generation is randomness. The UUID is a parameter of the create operations, and it is not
  proved that two calls get different UUIDs.
- Logging (`Infof`, `Errorf`, `Error`) has no effect on results. Concurrent use of the shared client
  is not modelled either.
- The typed converter is foreign code. `Velero.Unstructured` stands for its outcome on a document:
  the document converts to a persistent volume, with the top-level fields the typed volume has no place
  for kept aside, or the converter rejects it with a reason. Fields dropped deeper inside the volume are
  not represented.
- Velero.SetVolumeID: converting the updated volume back to a document cannot fail in the model, so the
  error branch at lines 191-194 of the velero file is not represented.
- Velero.SetVolumeID: the result is the typed volume converted back, not the input with its handle
  changed. Content of the input outside the typed volume is therefore not preserved; the model states
  this only for top-level fields, which come back empty.
- `Velero.PersistentVolume` carries a representative subset of the fields of a Kubernetes persistent
  volume, enough to state that only the handle of the typed volume changes.
- Service availability is one account-wide flag, `Account.online`. A transport failure between the
  get-snapshot and create-volume calls of a restore, or on a create-snapshot for a volume that exists,
  cannot be represented. `RestoreRequestAccepted` and `SnapshotRequestAccepted` are facts about this
  abstract service, not about the provider's.
- The path helpers are foreign code and are not part of this model. Their observable behaviour is
  modelled as `Collections.GetValue` and its three wrappers. A dotted path is given as its list of
  segments, so splitting the string on '.' is not modelled.
- Ark.BlockStore.SetVolumeID: modelled on values. The document's content is replaced by the value that
  the in-place write produces. Sharing of the inner map with other documents (aliasing) is therefore
  not captured. Neither is the panic on a nil inner map, which a decoded document never holds.
- Sizes and the `int`/`int64` conversion of the minimum disk size are unbounded integers. The
  conversion is the identity on the 64-bit platforms the plugin runs on.
- `volumeType`, `volumeAZ`, `iops` and `tags` are accepted and ignored, as in the code.
