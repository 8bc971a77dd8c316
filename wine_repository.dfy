/** `WineRepository`: wine CRUD scoped to one user, where a write that names a position is
    accepted only after the position validates for the storage and is free. */
module WineRepository {
  import opened Wrappers
  import opened StorageSchema
  import opened Store
  import opened PositionValidator
  import opened Text

  /** `WineCreate`.  Its metadata field is already called `wine_metadata`, so the
      `metadata` to `wine_metadata` rename in the repository never has a key to rename. */
  datatype WineCreate = WineCreate(
    name: string,
    storageId: string,
    position: Option<string>,
    description: Option<string>,
    metadata: Option<string>)

  /** `WineUpdate`: the outer `None` is a field the client did not set (left out by
      `model_dump(exclude_unset=True)`); `Some(None)` is a field explicitly set to null. */
  datatype WineUpdate = WineUpdate(
    name: Option<Option<string>>,
    storageId: Option<Option<string>>,
    position: Option<Option<string>>,
    description: Option<Option<string>>,
    metadata: Option<Option<string>>)

  const StorageNotFound := "Storage not found"
  const WineNotFound := "Wine not found"
  const InvalidPosition := "Invalid position for this storage configuration"
  const PositionTaken := "Position already occupied by another wine"
  /** The `AttributeError` raised when the validator reads the zones of a missing storage. */
  const NoStorageZones := "'NoneType' object has no attribute 'zones'"
  /** The `IntegrityError` of the commit when `name`, a `nullable=False` column, was set to null. */
  const NullWineName := "NOT NULL constraint failed: wines.name"

  /** No two wines of one storage hold the same non-empty position. */
  ghost predicate SingleOccupancy(wines: seq<Wine>)
  {
    forall i, j :: 0 <= i < j < |wines| ==>
      !(Truthy(wines[i].position) && wines[i].storageId.Some? &&
        wines[i].storageId == wines[j].storageId && wines[i].position == wines[j].position)
  }

  // ---------------------------------------------------------------------------
  // Create

  /** The row a successful create inserts. */
  function NewWine(data: WineCreate, userId: string, id: string, now: string): (w: Wine)
    ensures w.userId == userId && w.storageId == Some(data.storageId) && w.position == data.position
    ensures w.name == data.name && w.description == data.description && w.metadata == data.metadata
  {
    Wine(id, userId, data.name, Some(data.storageId), data.position, data.description, data.metadata, now)
  }

  /** What `create` decides. */
  ghost function CreateOutcome(storages: seq<StorageInDB>, wines: seq<Wine>, data: WineCreate,
                               userId: string, freshId: string, now: string): (r: Result<Wine>)
    ensures r == Err(NotFound(StorageNotFound)) <==> FirstStorage(storages, data.storageId, Some(userId)).None?
    ensures r.Ok? <==>
      FirstStorage(storages, data.storageId, Some(userId)).Some? &&
      (Truthy(data.position) ==>
        IsValidPosition(data.position.value, storages[FirstStorage(storages, data.storageId, Some(userId)).value]) &&
        !IsPositionOccupied(data.position.value, data.storageId, wines, None))
    ensures r == Err(BadRequest(InvalidPosition)) <==>
      FirstStorage(storages, data.storageId, Some(userId)).Some? && Truthy(data.position) &&
      !IsValidPosition(data.position.value, storages[FirstStorage(storages, data.storageId, Some(userId)).value])
    ensures r == Err(BadRequest(PositionTaken)) <==>
      FirstStorage(storages, data.storageId, Some(userId)).Some? && Truthy(data.position) &&
      IsValidPosition(data.position.value, storages[FirstStorage(storages, data.storageId, Some(userId)).value]) &&
      IsPositionOccupied(data.position.value, data.storageId, wines, None)
    ensures r.Ok? ==> r.value == NewWine(data, userId, freshId, now)
  {
    match FirstStorage(storages, data.storageId, Some(userId))
    case None => Err(NotFound(StorageNotFound))
    case Some(i) =>
      if Truthy(data.position) && !IsValidPosition(data.position.value, storages[i]) then
        Err(BadRequest(InvalidPosition))
      else if Truthy(data.position) && IsPositionOccupied(data.position.value, storages[i].id, wines, None) then
        Err(BadRequest(PositionTaken))
      else
        Ok(NewWine(data, userId, freshId, now))
  }

  /** A successful create keeps every occupied slot held by one wine. */
  lemma CreateKeepsSingleOccupancy(storages: seq<StorageInDB>, wines: seq<Wine>, data: WineCreate,
                                   userId: string, freshId: string, now: string)
    requires SingleOccupancy(wines)
    requires CreateOutcome(storages, wines, data, userId, freshId, now).Ok?
    ensures SingleOccupancy(wines + [NewWine(data, userId, freshId, now)])
  {
    var w := NewWine(data, userId, freshId, now);
    var ws := wines + [w];
    forall i, j | 0 <= i < j < |ws|
      ensures !(Truthy(ws[i].position) && ws[i].storageId.Some? &&
                ws[i].storageId == ws[j].storageId && ws[i].position == ws[j].position)
    {
      if j == |wines| {
        assert ws[i] == wines[i];
      }
    }
  }

  // ---------------------------------------------------------------------------
  // Update

  /** The `setattr` loop: every field that was set takes its new value, the rest stay.  A
      `null` name never gets this far: `UpdateOutcome` fails it at the commit. */
  function ApplyWineUpdate(w: Wine, u: WineUpdate): (r: Wine)
    ensures r.id == w.id && r.userId == w.userId && r.addedDate == w.addedDate
    ensures r.name == NewValue(u.name, w.name)
    ensures r.storageId == (if u.storageId.Some? then u.storageId.value else w.storageId)
    ensures r.position == (if u.position.Some? then u.position.value else w.position)
    ensures r.description == (if u.description.Some? then u.description.value else w.description)
    ensures r.metadata == (if u.metadata.Some? then u.metadata.value else w.metadata)
  {
    w.(name := NewValue(u.name, w.name),
       storageId := if u.storageId.Some? then u.storageId.value else w.storageId,
       position := if u.position.Some? then u.position.value else w.position,
       description := if u.description.Some? then u.description.value else w.description,
       metadata := if u.metadata.Some? then u.metadata.value else w.metadata)
  }

  /** The storage an update checks positions against: the supplied `storage_id`, which must
      be the caller's, or else the wine's current storage (`db_wine.storage`, any owner). */
  function TargetStorage(storages: seq<StorageInDB>, w: Wine, userId: string, u: WineUpdate): (r: Result<Option<StorageInDB>>)
    ensures u.storageId.Some? ==>
      (r.Err? <==> u.storageId.value.None? || FirstStorage(storages, u.storageId.value.value, Some(userId)).None?)
    ensures u.storageId.Some? && r.Ok? ==>
      r.value.Some? && Some(r.value.value.id) == u.storageId.value && r.value.value.userId == Some(userId)
    ensures r.Err? ==> r == Err(NotFound(StorageNotFound))
    ensures u.storageId.None? ==> r.Ok?
    ensures u.storageId.None? && r.value.Some? ==> Some(r.value.value.id) == w.storageId
    ensures u.storageId.None? ==>
      r == Ok(if w.storageId.Some? && FirstStorage(storages, w.storageId.value, None).Some?
              then Some(storages[FirstStorage(storages, w.storageId.value, None).value]) else None)
  {
    if u.storageId.Some? then
      if u.storageId.value.None? then Err(NotFound(StorageNotFound))
      else match FirstStorage(storages, u.storageId.value.value, Some(userId))
        case None => Err(NotFound(StorageNotFound))
        case Some(i) => Ok(Some(storages[i]))
    else if w.storageId.None? then Ok(None)
    else match FirstStorage(storages, w.storageId.value, None)
      case None => Ok(None)
      case Some(i) => Ok(Some(storages[i]))
  }

  /** The update sets `position` to a non-empty string, so the position checks run. */
  predicate PositionSupplied(u: WineUpdate)
  {
    u.position.Some? && Truthy(u.position.value)
  }

  /** The storage lookup succeeded and, when a position is supplied, it validates for the
      target storage and no other wine there holds it. */
  ghost predicate PositionChecksPass(wines: seq<Wine>, wineId: string, u: WineUpdate, t: Result<Option<StorageInDB>>)
  {
    t.Ok? &&
    (PositionSupplied(u) ==>
      t.value.Some? && IsValidPosition(u.position.value.value, t.value.value) &&
      !IsPositionOccupied(u.position.value.value, t.value.value.id, wines, Some(wineId)))
  }

  /** The `setattr` loop and the commit. */
  function Commit(w: Wine, u: WineUpdate): (r: Result<Wine>)
    ensures r.Err? <==> SetsNull(u.name)
    ensures r.Err? ==> r == Err(ServerError(NullWineName))
    ensures r.Ok? ==> r.value == ApplyWineUpdate(w, u) && r.value.id == w.id
  {
    if SetsNull(u.name) then Err(ServerError(NullWineName)) else Ok(ApplyWineUpdate(w, u))
  }

  /** What `update` decides. */
  ghost function UpdateOutcome(storages: seq<StorageInDB>, wines: seq<Wine>, wineId: string,
                               userId: string, u: WineUpdate): (r: Result<Wine>)
    ensures FirstWine(wines, wineId, Some(userId)).None? ==> r == Err(NotFound(WineNotFound))
    ensures FirstWine(wines, wineId, Some(userId)).Some? ==>
      var k := FirstWine(wines, wineId, Some(userId)).value;
      var t := TargetStorage(storages, wines[k], userId, u);
      (t.Err? ==> r == Err(NotFound(StorageNotFound))) &&
      (r.Ok? <==> PositionChecksPass(wines, wineId, u, t) && !SetsNull(u.name)) &&
      (r == Err(ServerError(NullWineName)) <==> PositionChecksPass(wines, wineId, u, t) && SetsNull(u.name)) &&
      (r == Err(BadRequest(InvalidPosition)) <==>
        t.Ok? && PositionSupplied(u) &&
        (if t.value.Some? then !IsValidPosition(u.position.value.value, t.value.value)
         else Count(u.position.value.value, Separator) != 1)) &&
      (r == Err(BadRequest(PositionTaken)) <==>
        t.Ok? && PositionSupplied(u) && t.value.Some? &&
        IsValidPosition(u.position.value.value, t.value.value) &&
        IsPositionOccupied(u.position.value.value, t.value.value.id, wines, Some(wineId))) &&
      (r == Err(ServerError(NoStorageZones)) <==>
        t.Ok? && PositionSupplied(u) && t.value.None? && Count(u.position.value.value, Separator) == 1)
    ensures r.Ok? ==>
      FirstWine(wines, wineId, Some(userId)).Some? &&
      r.value == ApplyWineUpdate(wines[FirstWine(wines, wineId, Some(userId)).value], u)
  {
    match FirstWine(wines, wineId, Some(userId))
    case None => Err(NotFound(WineNotFound))
    case Some(k) =>
      match TargetStorage(storages, wines[k], userId, u)
      case Err(e) => Err(e)
      case Ok(target) =>
        if PositionSupplied(u) then
          var position := u.position.value.value;
          if target.None? then
            // the validator splits before it reads `storage.zones`
            if |Split(position, Separator)| != 2 then Err(BadRequest(InvalidPosition))
            else Err(ServerError(NoStorageZones))
          else if !IsValidPosition(position, target.value) then Err(BadRequest(InvalidPosition))
          else if IsPositionOccupied(position, target.value.id, wines, Some(wineId)) then Err(BadRequest(PositionTaken))
          else Commit(wines[k], u)
        else Commit(wines[k], u)
  }

  /** A supplied non-empty position is written only after it validates for the target storage
      and no other wine there holds it; an empty or null position skips both checks. */
  lemma UpdateChecksSuppliedPosition(storages: seq<StorageInDB>, wines: seq<Wine>, wineId: string,
                                     userId: string, u: WineUpdate)
    requires UpdateOutcome(storages, wines, wineId, userId, u).Ok?
    requires u.position.Some? && Truthy(u.position.value)
    ensures var k := FirstWine(wines, wineId, Some(userId)).value;
      var t := TargetStorage(storages, wines[k], userId, u);
      t.Ok? && t.value.Some? &&
      IsValidPosition(u.position.value.value, t.value.value) &&
      !IsPositionOccupied(u.position.value.value, t.value.value.id, wines, Some(wineId))
  {
  }

  /** An update that supplies a new position (or leaves both storage and position alone) keeps
      every occupied slot held by one wine. */
  lemma UpdateKeepsSingleOccupancy(storages: seq<StorageInDB>, wines: seq<Wine>, wineId: string,
                                   userId: string, u: WineUpdate)
    requires UniqueWineIds(wines) && SingleOccupancy(wines)
    requires UpdateOutcome(storages, wines, wineId, userId, u).Ok?
    requires u.position.Some? || u.storageId.None?
    ensures var k := FirstWine(wines, wineId, Some(userId)).value;
      SingleOccupancy(wines[k := UpdateOutcome(storages, wines, wineId, userId, u).value])
  {
    var k := FirstWine(wines, wineId, Some(userId)).value;
    var w' := UpdateOutcome(storages, wines, wineId, userId, u).value;
    var ws := wines[k := w'];
    if u.position.Some? && Truthy(u.position.value) {
      var t := TargetStorage(storages, wines[k], userId, u).value.value;
      assert w'.storageId == Some(t.id);
      forall j | 0 <= j < |wines| && j != k
        ensures !(wines[j].storageId == w'.storageId && wines[j].position == w'.position)
      {
        assert wines[j].id != wineId by {
          if j < k { assert wines[j].id != wines[k].id; } else { assert wines[k].id != wines[j].id; }
        }
        assert !Occupies(wines[j], u.position.value.value, t.id, Some(wineId));
      }
    }
    forall i, j | 0 <= i < j < |ws|
      ensures !(Truthy(ws[i].position) && ws[i].storageId.Some? &&
                ws[i].storageId == ws[j].storageId && ws[i].position == ws[j].position)
    {
      if i != k && j != k {
        assert ws[i] == wines[i] && ws[j] == wines[j];
      }
    }
  }

  /** Moving a wine to another storage without supplying a position skips every position
      check, so two wines can end up in the same slot. */
  lemma MoveWithoutPositionCanDoubleOccupy()
    ensures var storages := [
        StorageInDB("s1", Some("u"), "Fridge", "fridge", [], 0, RowColumn),
        StorageInDB("s2", Some("u"), "Rack", "rack", [], 0, RowColumn)];
      var wines := [
        Wine("w1", "u", "A", Some("s1"), Some("Red-A1"), None, None, "t"),
        Wine("w2", "u", "B", Some("s2"), Some("Red-A1"), None, None, "t")];
      var u := WineUpdate(None, Some(Some("s1")), None, None, None);
      SingleOccupancy(wines) &&
      UpdateOutcome(storages, wines, "w2", "u", u).Ok? &&
      !SingleOccupancy(wines[1 := UpdateOutcome(storages, wines, "w2", "u", u).value])
  {
    var storages := [
        StorageInDB("s1", Some("u"), "Fridge", "fridge", [], 0, RowColumn),
        StorageInDB("s2", Some("u"), "Rack", "rack", [], 0, RowColumn)];
    var wines := [
        Wine("w1", "u", "A", Some("s1"), Some("Red-A1"), None, None, "t"),
        Wine("w2", "u", "B", Some("s2"), Some("Red-A1"), None, None, "t")];
    var u := WineUpdate(None, Some(Some("s1")), None, None, None);
    assert StorageMatches(storages[0], "s1", Some("u"));
    assert FirstStorage(storages, "s1", Some("u")) == Some(0);
    assert !WineMatches(wines[0], "w2", Some("u")) && WineMatches(wines[1], "w2", Some("u"));
    assert FirstWine(wines, "w2", Some("u")) == Some(1);
    var ws := wines[1 := UpdateOutcome(storages, wines, "w2", "u", u).value];
    assert ws[1].storageId == Some("s1") && ws[1].position == Some("Red-A1");
    assert Truthy(ws[0].position) && ws[0].storageId == ws[1].storageId && ws[0].position == ws[1].position;
  }

  // ---------------------------------------------------------------------------
  // Queries

  /** The user's wines, restricted to one storage when a truthy `storage_id` is given. */
  function WinesOf(wines: seq<Wine>, userId: string, storageId: Option<string>): (r: seq<Wine>)
    ensures forall w :: w in r <==> w in wines && w.userId == userId && (Truthy(storageId) ==> w.storageId == storageId)
  {
    if wines == [] then []
    else
      var rest := WinesOf(wines[1..], userId, storageId);
      if wines[0].userId == userId && (Truthy(storageId) ==> wines[0].storageId == storageId)
      then [wines[0]] + rest else rest
  }

  /** The query keeps table order: the listed wines of `a + b` are those of `a`, then those
      of `b`. */
  lemma {:induction false} WinesOfDistributes(a: seq<Wine>, b: seq<Wine>, userId: string, storageId: Option<string>)
    ensures WinesOf(a + b, userId, storageId) == WinesOf(a, userId, storageId) + WinesOf(b, userId, storageId)
  {
    if a == [] {
      assert a + b == b;
    } else {
      assert (a + b)[0] == a[0];
      assert (a + b)[1..] == a[1..] + b;
      WinesOfDistributes(a[1..], b, userId, storageId);
    }
  }

  /** A single wine is listed exactly when the caller owns it and, for a truthy storage id,
      it lies in that storage. */
  lemma WinesOfSingle(w: Wine, userId: string, storageId: Option<string>)
    ensures WinesOf([w], userId, storageId) ==
      if w.userId == userId && (Truthy(storageId) ==> w.storageId == storageId) then [w] else []
  {
    assert [w][1..] == [];
  }

  class WineRepository {
    const db: Database

    constructor (db: Database)
      ensures this.db == db
    {
      this.db := db;
    }

    /** `get_all(user_id, storage_id)`: the query's rows in table order. */
    method GetAll(userId: string, storageId: Option<string>) returns (ws: seq<Wine>)
      ensures ws == WinesOf(db.wines, userId, storageId)
    {
      ws := WinesOf(db.wines, userId, storageId);
    }

    /** `get_by_id(wine_id, user_id)`: only the owner finds the wine. */
    method GetById(wineId: string, userId: string) returns (w: Option<Wine>)
      ensures w.Some? ==> w.value in db.wines && w.value.id == wineId && w.value.userId == userId
      ensures w.None? <==> forall j :: 0 <= j < |db.wines| ==> !(db.wines[j].id == wineId && db.wines[j].userId == userId)
    {
      var k := FirstWine(db.wines, wineId, Some(userId));
      w := if k.Some? then Some(db.wines[k.value]) else None;
    }

    /** `create(wine_data, user_id)`: checks ownership, then position validity, then
        occupancy; writes one row only when all pass. */
    method Create(data: WineCreate, userId: string, freshId: string, now: string) returns (r: Result<Wine>)
      requires db.Valid()
      requires forall j :: 0 <= j < |db.wines| ==> db.wines[j].id != freshId
      modifies db
      ensures db.Valid() && db.storages == old(db.storages)
      ensures r == CreateOutcome(old(db.storages), old(db.wines), data, userId, freshId, now)
      ensures db.wines == if r.Ok? then old(db.wines) + [r.value] else old(db.wines)
    {
      var k := FirstStorage(db.storages, data.storageId, Some(userId));
      if k.None? {
        return Err(NotFound(StorageNotFound));
      }
      var storage := db.storages[k.value];
      if Truthy(data.position) {
        var valid := ValidatePosition(data.position.value, storage);
        if !valid {
          return Err(BadRequest(InvalidPosition));
        }
        if IsPositionOccupied(data.position.value, storage.id, db.wines, None) {
          return Err(BadRequest(PositionTaken));
        }
      }
      var w := NewWine(data, userId, freshId, now);
      db.wines := db.wines + [w];
      r := Ok(w);
    }

    /** `update(wine_id, user_id, wine_data)`: changes exactly the supplied fields of the
        caller's wine, after the storage and position checks. */
    method Update(wineId: string, userId: string, u: WineUpdate) returns (r: Result<Wine>)
      requires db.Valid()
      modifies db
      ensures db.Valid() && db.storages == old(db.storages)
      ensures r == UpdateOutcome(old(db.storages), old(db.wines), wineId, userId, u)
      ensures r.Err? ==> db.wines == old(db.wines)
      ensures r.Ok? ==> db.wines == old(db.wines)[FirstWine(old(db.wines), wineId, Some(userId)).value := r.value]
    {
      var k := FirstWine(db.wines, wineId, Some(userId));
      if k.None? {
        return Err(NotFound(WineNotFound));
      }
      var w := db.wines[k.value];
      var target := TargetStorage(db.storages, w, userId, u);
      if target.Err? {
        return Err(target.error);
      }
      if u.position.Some? && Truthy(u.position.value) {
        var position := u.position.value.value;
        if target.value.None? {
          if |Split(position, Separator)| != 2 {
            return Err(BadRequest(InvalidPosition));
          }
          return Err(ServerError(NoStorageZones));
        }
        var valid := ValidatePosition(position, target.value.value);
        if !valid {
          return Err(BadRequest(InvalidPosition));
        }
        if IsPositionOccupied(position, target.value.value.id, db.wines, Some(wineId)) {
          return Err(BadRequest(PositionTaken));
        }
      }
      if SetsNull(u.name) {
        return Err(ServerError(NullWineName));
      }
      var w' := ApplyWineUpdate(w, u);
      assert UniqueWineIds(db.wines[k.value := w']) by {
        var ws := db.wines[k.value := w'];
        forall i, j | 0 <= i < j < |ws| ensures ws[i].id != ws[j].id {
          assert ws[i].id == db.wines[i].id && ws[j].id == db.wines[j].id;
        }
      }
      db.wines := db.wines[k.value := w'];
      r := Ok(w');
    }

    /** `delete(wine_id, user_id)`: removes the caller's wine, or 404. */
    method Delete(wineId: string, userId: string) returns (r: Result<bool>)
      requires db.Valid()
      modifies db
      ensures db.Valid() && db.storages == old(db.storages)
      ensures FirstWine(old(db.wines), wineId, Some(userId)).None? ==>
        r == Err(NotFound(WineNotFound)) && db.wines == old(db.wines)
      ensures FirstWine(old(db.wines), wineId, Some(userId)).Some? ==>
        r == Ok(true) && db.wines == RemoveAt(old(db.wines), FirstWine(old(db.wines), wineId, Some(userId)).value)
    {
      var k := FirstWine(db.wines, wineId, Some(userId));
      if k.None? {
        return Err(NotFound(WineNotFound));
      }
      RemoveAtKeepsUnique(db.wines, k.value);
      db.wines := RemoveAt(db.wines, k.value);
      r := Ok(true);
    }
  }
}
