/** The prototype server: two module-level lists of JSON dictionaries, changed in place by
    the CRUD handlers, with no validation of any field. */
module Prototype {
  import opened Wrappers
  import opened JsonValue
  import opened Store
  import opened Geometry
  import opened StorageSchema
  import opened PositionValidator
  import opened Text

  const StorageNotFound := "Storage not found"
  const WineNotFound := "Wine not found"
  const InvalidJson := "Invalid JSON in wine_data"
  /** FastAPI's answer to an exception the handler does not catch. */
  const Uncaught := "Internal Server Error"

  /** `record["id"] == id`: a missing key is not a match here; equality with a string holds
      only for the same string. */
  predicate HasId(r: Record, id: string)
  {
    "id" in r && r["id"] == Str(id)
  }

  /** Every dictionary in the list has an `"id"` key, so `record["id"]` never raises. */
  ghost predicate AllHaveId(rs: seq<Record>)
  {
    forall i :: 0 <= i < |rs| ==> "id" in rs[i]
  }

  /** Index of the first dictionary whose `"id"` is `id`, the element the `for` loops stop at. */
  function FirstWithId(rs: seq<Record>, id: string): (r: Option<nat>)
    ensures r.Some? ==> r.value < |rs| && HasId(rs[r.value], id)
    ensures r.Some? ==> forall j :: 0 <= j < r.value ==> !HasId(rs[j], id)
    ensures r.None? <==> forall j :: 0 <= j < |rs| ==> !HasId(rs[j], id)
  {
    if rs == [] then None
    else if HasId(rs[0], id) then Some(0)
    else match FirstWithId(rs[1..], id)
      case None => None
      case Some(k) => Some(k + 1)
  }

  /** `{"id": id, **payload}`: a payload key `"id"` overrides the given one. */
  function WithId(id: string, payload: Record): (r: Record)
    ensures r.Keys == payload.Keys + {"id"}
    ensures forall k :: k in payload ==> r[k] == payload[k]
    ensures "id" !in payload ==> r["id"] == Str(id)
  {
    map["id" := Str(id)] + payload
  }

  /** `{**base, **payload}`: payload values win, every other key of `base` stays. */
  function Merge(base: Record, payload: Record): (r: Record)
    ensures r.Keys == base.Keys + payload.Keys
    ensures forall k :: k in payload ==> r[k] == payload[k]
    ensures forall k :: k in base && k !in payload ==> r[k] == base[k]
  {
    base + payload
  }

  /** The wines listed by `GET /api/wines`: all of them unless `storage_id` is truthy, else
      those whose `"storage_id"` equals it, with an uncaught `KeyError` when any wine has no
      `"storage_id"` key. */
  function WinesInStorage(wines: seq<Record>, storageId: string): (r: Result<seq<Record>>)
    ensures r.Err? <==> exists i :: 0 <= i < |wines| && "storage_id" !in wines[i]
    ensures r.Err? ==> r == Err(ServerError(Uncaught))
    ensures r.Ok? ==> forall w :: w in r.value <==> w in wines && w["storage_id"] == Str(storageId)
    ensures r.Ok? ==> |r.value| <= |wines|
  {
    if wines == [] then Ok([])
    else
      var last := wines[|wines| - 1];
      var init := wines[..|wines| - 1];
      assert forall i :: 0 <= i < |init| ==> init[i] == wines[i];
      assert wines == init + [last];
      match WinesInStorage(init, storageId)
      case Err(e) => Err(e)
      case Ok(acc) =>
        if "storage_id" !in last then Err(ServerError(Uncaught))
        else if last["storage_id"] == Str(storageId) then Ok(acc + [last])
        else Ok(acc)
  }

  /** The comprehension keeps order: listing the wines of `a + b` lists those of `a`, then
      those of `b`, and fails exactly when one of the halves does. */
  lemma {:induction false} WinesInStorageDistributes(a: seq<Record>, b: seq<Record>, storageId: string)
    ensures WinesInStorage(a + b, storageId).Ok? <==>
      WinesInStorage(a, storageId).Ok? && WinesInStorage(b, storageId).Ok?
    ensures WinesInStorage(a, storageId).Ok? && WinesInStorage(b, storageId).Ok? ==>
      WinesInStorage(a + b, storageId).value ==
      WinesInStorage(a, storageId).value + WinesInStorage(b, storageId).value
    decreases |b|
  {
    if b == [] {
      assert a + b == a;
    } else {
      var last := b[|b| - 1];
      var init := b[..|b| - 1];
      assert (a + b)[..|a + b| - 1] == a + init;
      assert (a + b)[|a + b| - 1] == last;
      WinesInStorageDistributes(a, init, storageId);
    }
  }

  /** A single wine is listed exactly when its `"storage_id"` matches. */
  lemma WinesInStorageSingle(w: Record, storageId: string)
    requires "storage_id" in w
    ensures WinesInStorage([w], storageId) ==
      Ok(if w["storage_id"] == Str(storageId) then [w] else [])
  {
    assert [w][..0] == [] && [w][0] == w;
    var empty: seq<Record> := [];
    assert WinesInStorage(empty, storageId) == Ok(empty);
    assert empty + [w] == [w];
  }

  /** `type(v).__name__` for the values `json.loads` can produce. */
  function TypeName(v: Value): (name: string)
    ensures name == "dict" <==> v.Obj?
  {
    match v
    case Null => "NoneType"
    case Bool(_) => "bool"
    case Num(_) => "int"
    case Str(_) => "str"
    case Arr(_) => "list"
    case Obj(_) => "dict"
  }

  /** The dictionary `add_wine` appends: id, timestamp and label file name, then the
      client's fields on top. */
  function NewWineRecord(fields: Record, freshId: string, now: string, labelImage: Option<string>): (r: Record)
    ensures r.Keys == fields.Keys + {"id", "added_date", "label_image_url"}
    ensures forall k :: k in fields ==> r[k] == fields[k]
    ensures "id" !in fields ==> r["id"] == Str(freshId)
    ensures "label_image_url" !in fields ==>
      r["label_image_url"] == (if labelImage.Some? then Str(labelImage.value) else Null)
  {
    map["id" := Str(freshId), "added_date" := Str(now),
        "label_image_url" := if labelImage.Some? then Str(labelImage.value) else Null] + fields
  }

  /** What `add_wine` answers for the parsed `wine_data` form field (`None` when
      `json.loads` raised `JSONDecodeError`): 400 for bad JSON, 500 when the JSON is not an
      object (`**` needs a mapping), otherwise the new record.  No field is checked. */
  function AddWineOutcome(parsed: Option<Value>, freshId: string, now: string, labelImage: Option<string>): (r: Result<Record>)
    ensures parsed.None? <==> r == Err(BadRequest(InvalidJson))
    ensures r.Ok? <==> parsed.Some? && parsed.value.Obj?
    ensures r.Ok? ==> r.value == NewWineRecord(parsed.value.fields, freshId, now, labelImage)
    ensures r.Ok? ==> "id" in r.value
  {
    match parsed
    case None => Err(BadRequest(InvalidJson))
    case Some(Obj(fields)) => Ok(NewWineRecord(fields, freshId, now, labelImage))
    case Some(v) => Err(ServerError("'" + TypeName(v) + "' object is not a mapping"))
  }

  /** The list after the `del` in a delete handler, or unchanged when nothing matched. */
  function RemoveFirstWithId(rs: seq<Record>, id: string): (r: seq<Record>)
    ensures FirstWithId(rs, id).None? ==> r == rs
    ensures FirstWithId(rs, id).Some? ==> r == RemoveAt(rs, FirstWithId(rs, id).value)
  {
    match FirstWithId(rs, id)
    case None => rs
    case Some(i) => RemoveAt(rs, i)
  }

  // ---------------------------------------------------------------------------
  // Properties

  /** A created storage is found again by its id, provided the id is new and the payload
      does not bring its own `"id"`. */
  lemma CreatedStorageIsFound(storages: seq<Record>, payload: Record, freshId: string)
    requires forall j :: 0 <= j < |storages| ==> !HasId(storages[j], freshId)
    requires "id" !in payload
    ensures FirstWithId(storages + [WithId(freshId, payload)], freshId) == Some(|storages|)
  {
    var rs := storages + [WithId(freshId, payload)];
    assert HasId(rs[|storages|], freshId);
    assert forall j :: 0 <= j < |storages| ==> rs[j] == storages[j];
  }

  /** A payload that keeps the path's id leaves the replaced record first in line for it. */
  lemma UpdatedStorageIsFound(storages: seq<Record>, storageId: string, payload: Record)
    requires FirstWithId(storages, storageId).Some?
    requires "id" !in payload || payload["id"] == Str(storageId)
    ensures var i := FirstWithId(storages, storageId).value;
      FirstWithId(storages[i := WithId(storageId, payload)], storageId) == Some(i)
  {
    var i := FirstWithId(storages, storageId).value;
    var rs := storages[i := WithId(storageId, payload)];
    assert HasId(rs[i], storageId);
    assert forall j :: 0 <= j < i ==> rs[j] == storages[j];
  }

  /** A payload `"id"` that differs from the path's renames the storage: the put record no
      longer answers to the id it was put under. */
  lemma PayloadIdOverridesPathId(storageId: string, payload: Record, other: string)
    requires "id" in payload && payload["id"] == Str(other) && other != storageId
    ensures !HasId(WithId(storageId, payload), storageId)
  {
  }

  /** When ids are unique, a deleted record cannot be found again. */
  lemma DeletedIsGone(rs: seq<Record>, id: string)
    requires forall i, j :: 0 <= i < j < |rs| && HasId(rs[i], id) ==> !HasId(rs[j], id)
    requires FirstWithId(rs, id).Some?
    ensures FirstWithId(RemoveFirstWithId(rs, id), id).None?
  {
    var k := FirstWithId(rs, id).value;
    var r := RemoveFirstWithId(rs, id);
    forall j | 0 <= j < |r| ensures !HasId(r[j], id) {
      if j >= k { assert r[j] == rs[j + 1]; }
    }
  }

  /** `update_wine` never loses a key: the merged record keeps the wine's id unless the
      payload replaces it. */
  lemma MergeKeepsId(wine: Record, payload: Record, id: string)
    requires HasId(wine, id) && "id" !in payload
    ensures HasId(Merge(wine, payload), id)
  {
  }

  /** The prototype stores any position string: a wine at an occupied or malformed
      position is accepted as readily as one at a free, valid position. */
  lemma AddWineIgnoresPosition(fields: Record, freshId: string, now: string, p: string, q: string)
    ensures AddWineOutcome(Some(Obj(fields["position" := Str(p)])), freshId, now, None).Ok? ==
            AddWineOutcome(Some(Obj(fields["position" := Str(q)])), freshId, now, None).Ok?
  {
  }

  // ---------------------------------------------------------------------------
  // Sample data (`init_sample_data`)

  function SampleStorage(): Record
  {
    map["id" := Str("sample-storage-1"),
        "name" := Str("Living Room Wine Rack"),
        "type" := Str("Wine Rack"),
        "position_naming_scheme" := Str("Row-Column"),
        "zones" := Arr([Obj(map["name" := Str("Main Zone"),
                                "dimensions" := Obj(map["rows" := Num(4), "columns" := Num(6)])])]),
        "total_positions" := Num(24)]
  }

  function SampleWine(now: string): Record
  {
    map["id" := Str("sample-wine-1"),
        "name" := Str("Chateau Sample"),
        "producer" := Str("Sample Winery"),
        "vintage" := Num(2019),
        "type" := Str("Red"),
        "region" := Str("Bordeaux"),
        "country" := Str("France"),
        "storage_id" := Str("sample-storage-1"),
        "position" := Str("1A"),
        "added_date" := Str(now),
        "description" := Str("A wonderful red wine with notes of black fruits and oak.")]
  }

  /** The sample storage as a database row (it has no owner). */
  function SampleStorageRow(): StorageInDB
  {
    StorageInDB("sample-storage-1", None, "Living Room Wine Rack", "Wine Rack",
                [Zone("Main Zone", map["rows" := 4, "columns" := 6], None, None)], 24, "Row-Column")
  }

  /** The sample data disagrees with the validator: its total of 24 is right for four rows by
      six columns, but its scheme is spelled `Row-Column` where the validator expects
      `row-column`, and its wine's position `1A` names no zone, so the validator rejects it
      under either spelling. */
  lemma SampleDataAgainstValidator()
    ensures SampleStorageRow().totalPositions == TotalPositions(SampleStorageRow().zones)
    ensures SampleStorageRow().scheme != RowColumn
    ensures !IsValidPosition("1A", SampleStorageRow())
    ensures !IsValidPosition("1A", SampleStorageRow().(scheme := RowColumn))
  {
    var z := SampleStorageRow().zones[0];
    RowsColumnsCapacity(z.dimensions, 4, 6);
    assert SampleStorageRow().zones[..0] == [];
    CountZero("1A", Separator);
    SeparatorCountRejects("1A", SampleStorageRow());
    SeparatorCountRejects("1A", SampleStorageRow().(scheme := RowColumn));
  }

  // ---------------------------------------------------------------------------
  // The server state

  class PrototypeApi {
    /** `STORAGE_DATA` */
    var storages: seq<Record>
    /** `WINE_DATA` */
    var wines: seq<Record>

    ghost predicate Valid()
      reads this
    {
      AllHaveId(storages) && AllHaveId(wines)
    }

    /** Module import: both lists start empty and `init_sample_data()` appends one storage
        and one wine. */
    constructor (now: string)
      ensures Valid()
      ensures storages == [SampleStorage()] && wines == [SampleWine(now)]
    {
      storages := [SampleStorage()];
      wines := [SampleWine(now)];
    }

    /** `GET /api/storage` */
    method GetStorageUnits() returns (rs: seq<Record>)
      ensures rs == storages
    {
      rs := storages;
    }

    /** `GET /api/storage/{id}` */
    method GetStorageById(storageId: string) returns (r: Result<Record>)
      requires Valid()
      ensures FirstWithId(storages, storageId).None? ==> r == Err(NotFound(StorageNotFound))
      ensures FirstWithId(storages, storageId).Some? ==> r == Ok(storages[FirstWithId(storages, storageId).value])
    {
      var i := 0;
      while i < |storages|
        invariant 0 <= i <= |storages|
        invariant forall j :: 0 <= j < i ==> !HasId(storages[j], storageId)
      {
        if storages[i]["id"] == Str(storageId) {
          assert HasId(storages[i], storageId);
          return Ok(storages[i]);
        }
        i := i + 1;
      }
      r := Err(NotFound(StorageNotFound));
    }

    /** `POST /api/storage`: appends the payload under a fresh id, unchecked. */
    method CreateStorage(payload: Record, freshId: string) returns (r: Record)
      requires Valid()
      modifies this
      ensures Valid()
      ensures r == WithId(freshId, payload)
      ensures storages == old(storages) + [r] && wines == old(wines)
    {
      r := WithId(freshId, payload);
      storages := storages + [r];
    }

    /** `PUT /api/storage/{id}`: replaces the first match wholesale; fields the payload
        omits are dropped. */
    method UpdateStorage(storageId: string, payload: Record) returns (r: Result<Record>)
      requires Valid()
      modifies this
      ensures Valid() && wines == old(wines)
      ensures FirstWithId(old(storages), storageId).None? ==>
        r == Err(NotFound(StorageNotFound)) && storages == old(storages)
      ensures FirstWithId(old(storages), storageId).Some? ==>
        r == Ok(WithId(storageId, payload)) &&
        storages == old(storages)[FirstWithId(old(storages), storageId).value := WithId(storageId, payload)]
    {
      var i := 0;
      while i < |storages|
        invariant 0 <= i <= |storages|
        invariant storages == old(storages)
        invariant forall j :: 0 <= j < i ==> !HasId(storages[j], storageId)
      {
        if storages[i]["id"] == Str(storageId) {
          assert HasId(storages[i], storageId);
          storages := storages[i := WithId(storageId, payload)];
          return Ok(storages[i]);
        }
        i := i + 1;
      }
      r := Err(NotFound(StorageNotFound));
    }

    /** `DELETE /api/storage/{id}`: removes the first match; its wines stay behind. */
    method DeleteStorage(storageId: string) returns (r: Result<bool>)
      requires Valid()
      modifies this
      ensures Valid() && wines == old(wines)
      ensures storages == RemoveFirstWithId(old(storages), storageId)
      ensures r.Ok? <==> FirstWithId(old(storages), storageId).Some?
      ensures r.Err? ==> r == Err(NotFound(StorageNotFound))
      ensures r.Ok? ==> r.value
    {
      var i := 0;
      while i < |storages|
        invariant 0 <= i <= |storages|
        invariant storages == old(storages)
        invariant forall j :: 0 <= j < i ==> !HasId(storages[j], storageId)
      {
        if storages[i]["id"] == Str(storageId) {
          assert HasId(storages[i], storageId);
          storages := RemoveAt(storages, i);
          return Ok(true);
        }
        i := i + 1;
      }
      r := Err(NotFound(StorageNotFound));
    }

    /** `GET /api/wines?storage_id=...` */
    method GetWines(storageId: Option<string>) returns (r: Result<seq<Record>>)
      ensures !Truthy(storageId) ==> r == Ok(wines)
      ensures Truthy(storageId) ==> r == WinesInStorage(wines, storageId.value)
    {
      if !Truthy(storageId) {
        return Ok(wines);
      }
      var acc := [];
      var i := 0;
      while i < |wines|
        invariant 0 <= i <= |wines|
        invariant WinesInStorage(wines[..i], storageId.value) == Ok(acc)
      {
        assert wines[..i + 1][..i] == wines[..i];
        if "storage_id" !in wines[i] {
          assert "storage_id" !in wines[..i + 1][i];
          assert wines[..i + 1] + wines[i + 1..] == wines;
          return Err(ServerError(Uncaught));
        }
        if wines[i]["storage_id"] == Str(storageId.value) {
          acc := acc + [wines[i]];
        }
        i := i + 1;
      }
      assert wines[..i] == wines;
      r := Ok(acc);
    }

    /** `GET /api/wines/{id}` */
    method GetWineById(wineId: string) returns (r: Result<Record>)
      requires Valid()
      ensures FirstWithId(wines, wineId).None? ==> r == Err(NotFound(WineNotFound))
      ensures FirstWithId(wines, wineId).Some? ==> r == Ok(wines[FirstWithId(wines, wineId).value])
    {
      var i := 0;
      while i < |wines|
        invariant 0 <= i <= |wines|
        invariant forall j :: 0 <= j < i ==> !HasId(wines[j], wineId)
      {
        if wines[i]["id"] == Str(wineId) {
          assert HasId(wines[i], wineId);
          return Ok(wines[i]);
        }
        i := i + 1;
      }
      r := Err(NotFound(WineNotFound));
    }

    /** `POST /api/wines` with the form field already parsed and the label file saved. */
    method AddWine(parsed: Option<Value>, freshId: string, now: string, labelImage: Option<string>) returns (r: Result<Record>)
      requires Valid()
      modifies this
      ensures Valid() && storages == old(storages)
      ensures r == AddWineOutcome(parsed, freshId, now, labelImage)
      ensures wines == if r.Ok? then old(wines) + [r.value] else old(wines)
    {
      r := AddWineOutcome(parsed, freshId, now, labelImage);
      if r.Ok? {
        wines := wines + [r.value];
      }
    }

    /** `PUT /api/wines/{id}`: merges the payload into the first match. */
    method UpdateWine(wineId: string, payload: Record) returns (r: Result<Record>)
      requires Valid()
      modifies this
      ensures Valid() && storages == old(storages)
      ensures FirstWithId(old(wines), wineId).None? ==>
        r == Err(NotFound(WineNotFound)) && wines == old(wines)
      ensures FirstWithId(old(wines), wineId).Some? ==>
        var i := FirstWithId(old(wines), wineId).value;
        r == Ok(Merge(old(wines)[i], payload)) && wines == old(wines)[i := Merge(old(wines)[i], payload)]
    {
      var i := 0;
      while i < |wines|
        invariant 0 <= i <= |wines|
        invariant wines == old(wines)
        invariant forall j :: 0 <= j < i ==> !HasId(wines[j], wineId)
      {
        if wines[i]["id"] == Str(wineId) {
          assert HasId(wines[i], wineId);
          wines := wines[i := Merge(wines[i], payload)];
          return Ok(wines[i]);
        }
        i := i + 1;
      }
      r := Err(NotFound(WineNotFound));
    }

    /** `DELETE /api/wines/{id}` */
    method DeleteWine(wineId: string) returns (r: Result<bool>)
      requires Valid()
      modifies this
      ensures Valid() && storages == old(storages)
      ensures wines == RemoveFirstWithId(old(wines), wineId)
      ensures r.Ok? <==> FirstWithId(old(wines), wineId).Some?
      ensures r.Err? ==> r == Err(NotFound(WineNotFound))
      ensures r.Ok? ==> r.value
    {
      var i := 0;
      while i < |wines|
        invariant 0 <= i <= |wines|
        invariant wines == old(wines)
        invariant forall j :: 0 <= j < i ==> !HasId(wines[j], wineId)
      {
        if wines[i]["id"] == Str(wineId) {
          assert HasId(wines[i], wineId);
          wines := RemoveAt(wines, i);
          return Ok(true);
        }
        i := i + 1;
      }
      r := Err(NotFound(WineNotFound));
    }
  }
}
