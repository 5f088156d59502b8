/** The remote block-storage service as the adapters see it through the provider's client library:
    snapshots and volumes held by an account, and the five storage calls the adapters make.
    Each call is one round trip; the client neither retries nor caches. */
module Gateway {
  import opened Wrappers

  /** Why a storage call failed. */
  datatype ApiError =
    | Unreachable                                // no usable response: network, token or transport failure
    | NotFound(id: string)                       // the snapshot or volume named in the request does not exist
    | Undersized(requested: int, minimum: int)   // a volume asked to be smaller than its source snapshot
    | VolumeLimitReached(limit: nat)             // the account already holds as many volumes as it may

  datatype Snapshot = Snapshot(
    id: string, name: string, description: string,
    volumeID: string, minDiskSize: int, filesystemType: string)

  datatype Volume = Volume(
    id: string, name: string, sizeGigaBytes: int,
    snapshotID: string, filesystemType: string)

  /** A `snapshotID` of "" asks for a blank volume. */
  datatype VolumeCreateRequest = VolumeCreateRequest(name: string, snapshotID: string, sizeGigaBytes: int)

  datatype SnapshotCreateRequest = SnapshotCreateRequest(volumeID: string, name: string, description: string)

  /** One call issued to the service, as recorded in the client's call log. */
  datatype Call =
    | GetSnapshotCall(snapshotID: string)
    | CreateVolumeCall(volumeRequest: VolumeCreateRequest)
    | GetVolumeCall(volumeID: string)
    | CreateSnapshotCall(snapshotRequest: SnapshotCreateRequest)
    | DeleteSnapshotCall(deletedID: string)

  /** The remote state: whether the service answers, what it stores, how many volumes it allows, and
      how many identifiers it has handed out. Identifiers are issued as the decimal form of a counter. */
  datatype Account = Account(
    online: bool,
    snapshots: map<string, Snapshot>,
    volumes: map<string, Volume>,
    volumeLimit: nat,
    issued: nat)

  function DigitChar(d: nat): char
    requires d < 10
  {
    (('0' as int) + d) as char
  }

  /** The decimal form of `n`, without leading zeros. */
  function Decimal(n: nat): (s: string)
    ensures |s| >= 1
    ensures |s| == 1 <==> n < 10
    decreases n
  {
    if n < 10 then [DigitChar(n)] else Decimal(n / 10) + [DigitChar(n % 10)]
  }

  lemma {:induction false} DecimalInjective(a: nat, b: nat)
    requires Decimal(a) == Decimal(b)
    ensures a == b
    decreases a
  {
    var s := Decimal(a);
    if |s| > 1 {
      assert a >= 10 && b >= 10;
      assert Decimal(a / 10) == s[..|s| - 1] == Decimal(b / 10);
      DecimalInjective(a / 10, b / 10);
      assert DigitChar(a % 10) == DigitChar(b % 10);
      assert (DigitChar(a % 10) as int) == ('0' as int) + a % 10;
    } else {
      assert DigitChar(a) as int == ('0' as int) + a;
      assert DigitChar(b) as int == ('0' as int) + b;
    }
  }

  /** Every stored object is filed under its own, non-empty identifier, and no identifier the counter
      has yet to issue is in use. */
  ghost predicate Consistent(a: Account) {
    && "" !in a.snapshots && "" !in a.volumes
    && (forall id :: id in a.snapshots ==> a.snapshots[id].id == id)
    && (forall id :: id in a.volumes ==> a.volumes[id].id == id)
    && (forall n: nat :: a.issued <= n ==> Decimal(n) !in a.snapshots && Decimal(n) !in a.volumes)
  }

  function GetSnapshotResponse(a: Account, id: string): Result<Snapshot, ApiError> {
    if !a.online then Failure(Unreachable)
    else if id !in a.snapshots then Failure(NotFound(id))
    else Success(a.snapshots[id])
  }

  function GetVolumeResponse(a: Account, id: string): Result<Volume, ApiError> {
    if !a.online then Failure(Unreachable)
    else if id !in a.volumes then Failure(NotFound(id))
    else Success(a.volumes[id])
  }

  /** A new volume must fit under the account's volume limit. A volume restored from a snapshot must be
      at least the snapshot's minimum disk size and takes over the snapshot's filesystem; a blank volume
      has none. */
  function CreateVolumeResponse(a: Account, req: VolumeCreateRequest): Result<Volume, ApiError> {
    if !a.online then Failure(Unreachable)
    else if |a.volumes| >= a.volumeLimit then Failure(VolumeLimitReached(a.volumeLimit))
    else if req.snapshotID == "" then
      Success(Volume(Decimal(a.issued), req.name, req.sizeGigaBytes, "", ""))
    else if req.snapshotID !in a.snapshots then Failure(NotFound(req.snapshotID))
    else if req.sizeGigaBytes < a.snapshots[req.snapshotID].minDiskSize then
      Failure(Undersized(req.sizeGigaBytes, a.snapshots[req.snapshotID].minDiskSize))
    else
      var s := a.snapshots[req.snapshotID];
      Success(Volume(Decimal(a.issued), req.name, req.sizeGigaBytes, req.snapshotID, s.filesystemType))
  }

  function CreateVolumeEffect(a: Account, req: VolumeCreateRequest): Account {
    match CreateVolumeResponse(a, req)
    case Success(v) => a.(volumes := a.volumes[v.id := v], issued := a.issued + 1)
    case Failure(_) => a
  }

  /** A snapshot's minimum disk size is the size of the volume it was taken from. */
  function CreateSnapshotResponse(a: Account, req: SnapshotCreateRequest): Result<Snapshot, ApiError> {
    if !a.online then Failure(Unreachable)
    else if req.volumeID !in a.volumes then Failure(NotFound(req.volumeID))
    else
      var v := a.volumes[req.volumeID];
      Success(Snapshot(Decimal(a.issued), req.name, req.description, req.volumeID, v.sizeGigaBytes, v.filesystemType))
  }

  function CreateSnapshotEffect(a: Account, req: SnapshotCreateRequest): Account {
    match CreateSnapshotResponse(a, req)
    case Success(s) => a.(snapshots := a.snapshots[s.id := s], issued := a.issued + 1)
    case Failure(_) => a
  }

  /** None is the nil error of a successful deletion. */
  function DeleteSnapshotResponse(a: Account, id: string): Option<ApiError> {
    if !a.online then Some(Unreachable)
    else if id !in a.snapshots then Some(NotFound(id))
    else None
  }

  function DeleteSnapshotEffect(a: Account, id: string): Account {
    if DeleteSnapshotResponse(a, id) == None then a.(snapshots := a.snapshots - {id}) else a
  }

  /** Identifiers issued from now on are still unused after the counter moves past `a.issued`. */
  lemma FutureIdsUnused(a: Account, keys: set<string>)
    requires forall n: nat :: a.issued <= n ==> Decimal(n) !in keys
    ensures forall n: nat :: a.issued + 1 <= n ==> Decimal(n) !in keys + {Decimal(a.issued)}
  {
    forall n: nat | a.issued + 1 <= n
      ensures Decimal(n) != Decimal(a.issued)
    {
      if Decimal(n) == Decimal(a.issued) {
        DecimalInjective(n, a.issued);
      }
    }
  }

  lemma AddVolumeKeepsConsistent(a: Account, v: Volume)
    requires Consistent(a) && v.id == Decimal(a.issued)
    ensures Consistent(a.(volumes := a.volumes[v.id := v], issued := a.issued + 1))
    ensures v.id !in a.volumes && v.id !in a.snapshots
  {
    FutureIdsUnused(a, a.volumes.Keys);
    FutureIdsUnused(a, a.snapshots.Keys);
  }

  lemma AddSnapshotKeepsConsistent(a: Account, s: Snapshot)
    requires Consistent(a) && s.id == Decimal(a.issued)
    ensures Consistent(a.(snapshots := a.snapshots[s.id := s], issued := a.issued + 1))
    ensures s.id !in a.volumes && s.id !in a.snapshots
  {
    FutureIdsUnused(a, a.volumes.Keys);
    FutureIdsUnused(a, a.snapshots.Keys);
  }

  lemma CreateVolumeKeepsConsistent(a: Account, req: VolumeCreateRequest)
    requires Consistent(a)
    ensures Consistent(CreateVolumeEffect(a, req))
    ensures CreateVolumeResponse(a, req).Success? ==>
      var v := CreateVolumeResponse(a, req).value;
      v.id !in a.volumes && v.id !in a.snapshots
  {
    var r := CreateVolumeResponse(a, req);
    if r.Success? {
      AddVolumeKeepsConsistent(a, r.value);
    }
  }

  lemma CreateSnapshotKeepsConsistent(a: Account, req: SnapshotCreateRequest)
    requires Consistent(a)
    ensures Consistent(CreateSnapshotEffect(a, req))
    ensures CreateSnapshotResponse(a, req).Success? ==>
      var s := CreateSnapshotResponse(a, req).value;
      s.id !in a.volumes && s.id !in a.snapshots
  {
    var r := CreateSnapshotResponse(a, req);
    if r.Success? {
      AddSnapshotKeepsConsistent(a, r.value);
    }
  }

  /** The provider's client: a handle on one account. `log` records every call made through it. */
  class StorageClient {
    var account: Account
    ghost var log: seq<Call>

    ghost predicate Valid()
      reads this
    {
      Consistent(account)
    }

    constructor (account: Account)
      requires Consistent(account)
      ensures Valid() && this.account == account && log == []
    {
      this.account := account;
      log := [];
    }

    method GetSnapshot(id: string) returns (r: Result<Snapshot, ApiError>)
      requires Valid()
      modifies this
      ensures Valid() && account == old(account)
      ensures r == GetSnapshotResponse(account, id)
      ensures log == old(log) + [GetSnapshotCall(id)]
    {
      r := GetSnapshotResponse(account, id);
      log := log + [GetSnapshotCall(id)];
    }

    method GetVolume(id: string) returns (r: Result<Volume, ApiError>)
      requires Valid()
      modifies this
      ensures Valid() && account == old(account)
      ensures r == GetVolumeResponse(account, id)
      ensures log == old(log) + [GetVolumeCall(id)]
    {
      r := GetVolumeResponse(account, id);
      log := log + [GetVolumeCall(id)];
    }

    method CreateVolume(req: VolumeCreateRequest) returns (r: Result<Volume, ApiError>)
      requires Valid()
      modifies this
      ensures Valid()
      ensures r == CreateVolumeResponse(old(account), req)
      ensures account == CreateVolumeEffect(old(account), req)
      ensures log == old(log) + [CreateVolumeCall(req)]
    {
      CreateVolumeKeepsConsistent(account, req);
      r := CreateVolumeResponse(account, req);
      account := CreateVolumeEffect(account, req);
      log := log + [CreateVolumeCall(req)];
    }

    method CreateSnapshot(req: SnapshotCreateRequest) returns (r: Result<Snapshot, ApiError>)
      requires Valid()
      modifies this
      ensures Valid()
      ensures r == CreateSnapshotResponse(old(account), req)
      ensures account == CreateSnapshotEffect(old(account), req)
      ensures log == old(log) + [CreateSnapshotCall(req)]
    {
      CreateSnapshotKeepsConsistent(account, req);
      r := CreateSnapshotResponse(account, req);
      account := CreateSnapshotEffect(account, req);
      log := log + [CreateSnapshotCall(req)];
    }

    method DeleteSnapshot(id: string) returns (err: Option<ApiError>)
      requires Valid()
      modifies this
      ensures Valid()
      ensures err == DeleteSnapshotResponse(old(account), id)
      ensures account == DeleteSnapshotEffect(old(account), id)
      ensures log == old(log) + [DeleteSnapshotCall(id)]
    {
      err := DeleteSnapshotResponse(account, id);
      account := DeleteSnapshotEffect(account, id);
      log := log + [DeleteSnapshotCall(id)];
    }
  }
}
