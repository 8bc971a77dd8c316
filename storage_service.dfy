/** `StorageService`: storage CRUD over the shared database, by id only (no owner filter). */
module StorageService {
  import opened Wrappers
  import opened Geometry
  import opened StorageSchema
  import opened Store
  import PositionValidator

  /** The row a create writes: the payload's fields, the computed total, and no owner. */
  ghost function NewStorage(data: StorageCreate, id: string): (row: StorageInDB)
    ensures row.totalPositions == TotalPositions(data.zones)
    ensures row.zones == data.zones && row.userId.None?
  {
    StorageInDB(id, None, data.name, data.kind, data.zones, TotalPositions(data.zones), data.scheme)
  }

  /** What `validate_position` returns; `None` is Python's `None` from the bare `return`. */
  function ValidatePositionResult(storages: seq<StorageInDB>, wines: seq<Wine>, storageId: string, position: string): (r: Option<bool>)
    ensures r == Some(true) <==> FirstStorage(storages, storageId, None).Some? && position == ""
    ensures r == Some(false) <==>
      FirstStorage(storages, storageId, None).None? ||
      (position != "" && PositionValidator.IsPositionOccupied(position, storageId, wines, None))
    ensures r.None? <==>
      FirstStorage(storages, storageId, None).Some? && position != "" &&
      !PositionValidator.IsPositionOccupied(position, storageId, wines, None)
  {
    if FirstStorage(storages, storageId, None).None? then Some(false)
    else if position == "" then Some(true)
    else if PositionValidator.IsPositionOccupied(position, storageId, wines, None) then Some(false)
    else None
  }

  /** The bare `return` makes every non-empty position falsy, so a caller testing the result
      accepts only the empty position; zone geometry is never consulted. */
  lemma OnlyEmptyPositionPasses(storages: seq<StorageInDB>, wines: seq<Wine>, storageId: string, position: string)
    requires position != ""
    ensures ValidatePositionResult(storages, wines, storageId, position) != Some(true)
  {
  }

  /** The result is the same however the storage's zones look: only existence and occupancy
      matter. */
  lemma GeometryIgnored(storages: seq<StorageInDB>, wines: seq<Wine>, i: nat, zones: seq<Zone>, position: string)
    requires i < |storages|
    ensures ValidatePositionResult(storages[i := storages[i].(zones := zones)], wines, storages[i].id, position) ==
            ValidatePositionResult(storages, wines, storages[i].id, position)
  {
    var s' := storages[i := storages[i].(zones := zones)];
    assert StorageMatches(s'[i], storages[i].id, None);
    assert StorageMatches(storages[i], storages[i].id, None);
  }

  class StorageService {
    const db: Database

    constructor (db: Database)
      ensures this.db == db
    {
      this.db := db;
    }

    /** `get_all_storages`. */
    method GetAllStorages() returns (rows: seq<StorageInDB>)
      ensures rows == db.storages
    {
      rows := db.storages;
    }

    /** `get_storage_by_id`: the first row with that id, or none. */
    method GetStorageById(storageId: string) returns (row: Option<StorageInDB>)
      ensures row.Some? ==> row.value in db.storages && row.value.id == storageId
      ensures row.None? <==> forall j :: 0 <= j < |db.storages| ==> db.storages[j].id != storageId
    {
      var k := FirstStorage(db.storages, storageId, None);
      row := if k.Some? then Some(db.storages[k.value]) else None;
    }

    /** `create_storage`: appends one row whose total is the zones' capacity. */
    method CreateStorage(data: StorageCreate, freshId: string) returns (row: StorageInDB)
      requires db.Valid()
      requires forall j :: 0 <= j < |db.storages| ==> db.storages[j].id != freshId
      modifies db
      ensures db.Valid()
      ensures row == NewStorage(data, freshId)
      ensures db.storages == old(db.storages) + [row] && db.wines == old(db.wines)
    {
      var total := ComputeTotalPositions(data.zones);
      row := StorageInDB(freshId, None, data.name, data.kind, data.zones, total, data.scheme);
      db.storages := db.storages + [row];
    }

    /** `update_storage`: 404 with no change for an unknown id; otherwise the set fields are
        applied and the total recomputed exactly when zones were set. */
    method UpdateStorage(storageId: string, u: StorageUpdate) returns (r: Result<StorageInDB>)
      requires db.Valid()
      modifies db
      ensures db.Valid() && db.wines == old(db.wines)
      ensures FirstStorage(old(db.storages), storageId, None).None? ==>
        r == Err(NotFound("Storage configuration not found")) && db.storages == old(db.storages)
      ensures FirstStorage(old(db.storages), storageId, None).Some? ==>
        var i := FirstStorage(old(db.storages), storageId, None).value;
        r == ApplyUpdate(old(db.storages)[i], u) &&
        db.storages == (if r.Ok? then old(db.storages)[i := r.value] else old(db.storages))
    {
      var k := FirstStorage(db.storages, storageId, None);
      if k.None? {
        return Err(NotFound("Storage configuration not found"));
      }
      var row := db.storages[k.value];
      if u.zones.Some? {
        if u.zones.value.None? {
          return Err(ServerError(NullZones));
        }
        var total := ComputeTotalPositions(u.zones.value.value);
        row := row.(zones := u.zones.value.value, totalPositions := total);
      }
      if u.name.Some? && u.name.value.Some? { row := row.(name := u.name.value.value); }
      if u.kind.Some? && u.kind.value.Some? { row := row.(kind := u.kind.value.value); }
      if u.scheme.Some? && u.scheme.value.Some? { row := row.(scheme := u.scheme.value.value); }
      // the commit's NOT NULL check
      if SetsNull(u.name) {
        return Err(ServerError(NotNull("name")));
      } else if SetsNull(u.kind) {
        return Err(ServerError(NotNull("type")));
      } else if SetsNull(u.scheme) {
        return Err(ServerError(NotNull("position_naming_scheme")));
      }
      db.storages := db.storages[k.value := row];
      r := Ok(row);
    }

    /** `delete_storage`: removes the row (and, by the cascade, its wines), or 404. */
    method DeleteStorage(storageId: string) returns (r: Result<bool>)
      requires db.Valid()
      modifies db
      ensures db.Valid()
      ensures FirstStorage(old(db.storages), storageId, None).None? ==>
        r == Err(NotFound("Storage configuration not found")) &&
        db.storages == old(db.storages) && db.wines == old(db.wines)
      ensures FirstStorage(old(db.storages), storageId, None).Some? ==>
        r == Ok(true) &&
        db.storages == RemoveAt(old(db.storages), FirstStorage(old(db.storages), storageId, None).value) &&
        db.wines == WinesOutside(old(db.wines), storageId)
    {
      var k := FirstStorage(db.storages, storageId, None);
      if k.None? {
        return Err(NotFound("Storage configuration not found"));
      }
      RemoveStorageKeepsUnique(db.storages, k.value);
      WinesOutsideKeepsUnique(db.wines, storageId);
      db.storages := RemoveAt(db.storages, k.value);
      db.wines := WinesOutside(db.wines, storageId);
      r := Ok(true);
    }

    /** `validate_position(storage_id, position)`, occupancy only. */
    method ValidatePosition(storageId: string, position: string) returns (r: Option<bool>)
      ensures r == ValidatePositionResult(db.storages, db.wines, storageId, position)
    {
      var k := FirstStorage(db.storages, storageId, None);
      if k.None? {
        return Some(false);
      }
      if position == "" {
        return Some(true);
      }
      if PositionValidator.IsPositionOccupied(position, storageId, db.wines, None) {
        return Some(false);
      }
      return None;
    }
  }
}
