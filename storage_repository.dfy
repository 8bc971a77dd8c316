/** The archived `StorageRepository`: storage CRUD scoped to one user. */
module StorageRepository {
  import opened Wrappers
  import opened Geometry
  import opened StorageSchema
  import opened Store

  /** The row a create writes for `userId`. */
  ghost function NewOwnedStorage(data: StorageCreate, userId: string, id: string): (row: StorageInDB)
    ensures row.userId == Some(userId) && row.totalPositions == TotalPositions(data.zones)
    ensures row.name == data.name && row.kind == data.kind && row.zones == data.zones && row.scheme == data.scheme
  {
    StorageInDB(id, Some(userId), data.name, data.kind, data.zones, TotalPositions(data.zones), data.scheme)
  }

  /** The storages of one user, in table order. */
  function OwnedBy(rows: seq<StorageInDB>, userId: string): (r: seq<StorageInDB>)
    ensures forall s :: s in r <==> s in rows && s.userId == Some(userId)
    ensures |r| <= |rows|
  {
    if rows == [] then []
    else if rows[0].userId == Some(userId) then [rows[0]] + OwnedBy(rows[1..], userId)
    else OwnedBy(rows[1..], userId)
  }

  /** The query keeps table order: the caller's rows of `a + b` are those of `a`, then those
      of `b`. */
  lemma {:induction false} OwnedByDistributes(a: seq<StorageInDB>, b: seq<StorageInDB>, userId: string)
    ensures OwnedBy(a + b, userId) == OwnedBy(a, userId) + OwnedBy(b, userId)
  {
    if a == [] {
      assert a + b == b;
    } else {
      assert (a + b)[0] == a[0];
      assert (a + b)[1..] == a[1..] + b;
      OwnedByDistributes(a[1..], b, userId);
    }
  }

  /** A single row is listed exactly when the caller owns it. */
  lemma OwnedBySingle(row: StorageInDB, userId: string)
    ensures OwnedBy([row], userId) == if row.userId == Some(userId) then [row] else []
  {
    assert [row][1..] == [];
  }

  /** Another user's storage is "not found" even though its id exists. */
  lemma ForeignStorageNotFound(rows: seq<StorageInDB>, i: nat, userId: string)
    requires i < |rows| && rows[i].userId != Some(userId) && UniqueStorageIds(rows)
    ensures FirstStorage(rows, rows[i].id, Some(userId)).None?
  {
    forall j | 0 <= j < |rows| ensures !StorageMatches(rows[j], rows[i].id, Some(userId)) {
      if j < i {
        assert rows[j].id != rows[i].id;
      } else if j > i {
        assert rows[i].id != rows[j].id;
      }
    }
  }

  class StorageRepository {
    const db: Database

    constructor (db: Database)
      ensures this.db == db
    {
      this.db := db;
    }

    /** `get_all(user_id)`. */
    method GetAll(userId: string) returns (rows: seq<StorageInDB>)
      ensures rows == OwnedBy(db.storages, userId)
    {
      rows := OwnedBy(db.storages, userId);
    }

    /** `get_by_id(storage_id, user_id)`: found only when both id and owner match. */
    method GetById(storageId: string, userId: string) returns (row: Option<StorageInDB>)
      ensures row.Some? ==> row.value in db.storages && row.value.id == storageId && row.value.userId == Some(userId)
      ensures row.None? <==>
        forall j :: 0 <= j < |db.storages| ==> !(db.storages[j].id == storageId && db.storages[j].userId == Some(userId))
    {
      var i := FirstStorage(db.storages, storageId, Some(userId));
      row := if i.Some? then Some(db.storages[i.value]) else None;
    }

    /** `create(storage_data, user_id)`: appends one row owned by the caller. */
    method Create(data: StorageCreate, userId: string, freshId: string) returns (row: StorageInDB)
      requires db.Valid()
      requires forall j :: 0 <= j < |db.storages| ==> db.storages[j].id != freshId
      modifies db
      ensures db.Valid()
      ensures row == NewOwnedStorage(data, userId, freshId)
      ensures db.storages == old(db.storages) + [row] && db.wines == old(db.wines)
    {
      var total := ComputeTotalPositions(data.zones);
      row := StorageInDB(freshId, Some(userId), data.name, data.kind, data.zones, total, data.scheme);
      db.storages := db.storages + [row];
    }

    /** `update(storage_id, user_id, storage_data)`: 404 with no change unless the caller owns
        the storage; otherwise the set fields are applied, the total recomputed iff zones set. */
    method Update(storageId: string, userId: string, u: StorageUpdate) returns (r: Result<StorageInDB>)
      requires db.Valid()
      modifies db
      ensures db.Valid() && db.wines == old(db.wines)
      ensures FirstStorage(old(db.storages), storageId, Some(userId)).None? ==>
        r == Err(NotFound("Storage configuration not found")) && db.storages == old(db.storages)
      ensures FirstStorage(old(db.storages), storageId, Some(userId)).Some? ==>
        var i := FirstStorage(old(db.storages), storageId, Some(userId)).value;
        r == ApplyUpdate(old(db.storages)[i], u) &&
        db.storages == (if r.Ok? then old(db.storages)[i := r.value] else old(db.storages))
    {
      var k := FirstStorage(db.storages, storageId, Some(userId));
      if k.None? {
        return Err(NotFound("Storage configuration not found"));
      }
      var row := db.storages[k.value];
      if u.zones.Some? {
        if u.zones.value.None? {
          return Err(ServerError(NullZones));
        }
        var total := ComputeTotalPositions(u.zones.value.value);
        row := row.(zones := u.zones.value.value, totalPositions := total);
      }
      if u.name.Some? && u.name.value.Some? { row := row.(name := u.name.value.value); }
      if u.kind.Some? && u.kind.value.Some? { row := row.(kind := u.kind.value.value); }
      if u.scheme.Some? && u.scheme.value.Some? { row := row.(scheme := u.scheme.value.value); }
      // the commit's NOT NULL check
      if SetsNull(u.name) {
        return Err(ServerError(NotNull("name")));
      } else if SetsNull(u.kind) {
        return Err(ServerError(NotNull("type")));
      } else if SetsNull(u.scheme) {
        return Err(ServerError(NotNull("position_naming_scheme")));
      }
      db.storages := db.storages[k.value := row];
      r := Ok(row);
    }

    /** `delete(storage_id, user_id)`: removes an owned storage and its wines, or 404. */
    method Delete(storageId: string, userId: string) returns (r: Result<bool>)
      requires db.Valid()
      modifies db
      ensures db.Valid()
      ensures FirstStorage(old(db.storages), storageId, Some(userId)).None? ==>
        r == Err(NotFound("Storage configuration not found")) &&
        db.storages == old(db.storages) && db.wines == old(db.wines)
      ensures FirstStorage(old(db.storages), storageId, Some(userId)).Some? ==>
        r == Ok(true) &&
        db.storages == RemoveAt(old(db.storages), FirstStorage(old(db.storages), storageId, Some(userId)).value) &&
        db.wines == WinesOutside(old(db.wines), storageId)
    {
      var k := FirstStorage(db.storages, storageId, Some(userId));
      if k.None? {
        return Err(NotFound("Storage configuration not found"));
      }
      RemoveStorageKeepsUnique(db.storages, k.value);
      WinesOutsideKeepsUnique(db.wines, storageId);
      db.storages := RemoveAt(db.storages, k.value);
      db.wines := WinesOutside(db.wines, storageId);
      r := Ok(true);
    }
  }
}
