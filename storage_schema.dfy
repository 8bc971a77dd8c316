/** The storage records the Python layers exchange: the create payload, the partial-update
    payload and the stored row. */
module StorageSchema {
  import opened Wrappers
  import opened Geometry

  /** `StorageCreate`: what a client sends to create a storage unit.  Its `total_positions`
      is computed from `zones` (Geometry.ComputeTotalPositions is that loop). */
  datatype StorageCreate = StorageCreate(name: string, kind: string, zones: seq<Zone>, scheme: string)

  /** `StorageUpdate`: every field optional.  The outer `None` is a field the client did not
      set, which `model_dump(exclude_unset=True)` leaves out; `Some(None)` is a field the
      client set to an explicit `null`, which is kept and written. */
  datatype StorageUpdate = StorageUpdate(
    name: Option<Option<string>>,
    kind: Option<Option<string>>,
    zones: Option<Option<seq<Zone>>>,
    scheme: Option<Option<string>>)

  /** The field was set to an explicit `null`. */
  predicate SetsNull<T>(field: Option<Option<T>>)
  {
    field.Some? && field.value.None?
  }

  /** The value a field holds after `setattr`: the new one when it was set to a value. */
  function NewValue<T>(field: Option<Option<T>>, current: T): T
  {
    if field.Some? && field.value.Some? then field.value.value else current
  }

  /** The `TypeError` of the total loop run over `zones = None`. */
  const NullZones := "'NoneType' object is not iterable"

  /** The `IntegrityError` of the commit when a `nullable=False` column holds `None`. */
  function NotNull(column: string): string
  {
    "NOT NULL constraint failed: storages." + column
  }

  /** The update with no field set (every field's default). */
  const NoChange := StorageUpdate(None, None, None, None)

  /** `StorageInDB` / the `storages` table row.  `totalPositions` is a plain stored column:
      nothing in the type ties it to `zones`.  `userId` is `None` for rows written by code that
      does not attach an owner. */
  datatype StorageInDB = StorageInDB(
    id: string,
    userId: Option<string>,
    name: string,
    kind: string,
    zones: seq<Zone>,
    totalPositions: int,
    scheme: string)

  /** The `setattr` loop over the fields that were set, plus the recomputed `total_positions`
      exactly when `zones` was among them.  A `null` for `zones` fails in the total loop; a
      `null` for any other column fails the commit's NOT NULL check, reported for the first
      such column in table order. */
  ghost function ApplyUpdate(row: StorageInDB, u: StorageUpdate): (r: Result<StorageInDB>)
    ensures r.Err? <==> SetsNull(u.name) || SetsNull(u.kind) || SetsNull(u.zones) || SetsNull(u.scheme)
    ensures SetsNull(u.zones) ==> r == Err(ServerError(NullZones))
    ensures !SetsNull(u.zones) && SetsNull(u.name) ==> r == Err(ServerError(NotNull("name")))
    ensures !SetsNull(u.zones) && !SetsNull(u.name) && SetsNull(u.kind) ==>
      r == Err(ServerError(NotNull("type")))
    ensures !SetsNull(u.zones) && !SetsNull(u.name) && !SetsNull(u.kind) && SetsNull(u.scheme) ==>
      r == Err(ServerError(NotNull("position_naming_scheme")))
    ensures r.Ok? ==> r.value.id == row.id && r.value.userId == row.userId
    ensures r.Ok? ==>
      r.value.name == NewValue(u.name, row.name) && r.value.kind == NewValue(u.kind, row.kind) &&
      r.value.scheme == NewValue(u.scheme, row.scheme)
    ensures r.Ok? && u.zones.Some? ==>
      r.value.zones == u.zones.value.value && r.value.totalPositions == TotalPositions(u.zones.value.value)
    ensures r.Ok? && u.zones.None? ==>
      r.value.zones == row.zones && r.value.totalPositions == row.totalPositions
  {
    if SetsNull(u.zones) then Err(ServerError(NullZones))
    else if SetsNull(u.name) then Err(ServerError(NotNull("name")))
    else if SetsNull(u.kind) then Err(ServerError(NotNull("type")))
    else if SetsNull(u.scheme) then Err(ServerError(NotNull("position_naming_scheme")))
    else
      var zones := NewValue(u.zones, row.zones);
      var total := if u.zones.Some? then TotalPositions(zones) else row.totalPositions;
      Ok(row.(
        name := NewValue(u.name, row.name),
        kind := NewValue(u.kind, row.kind),
        zones := zones,
        totalPositions := total,
        scheme := NewValue(u.scheme, row.scheme)))
  }

  /** An update that sets nothing leaves the row as it was. */
  lemma NoChangeIsIdentity(row: StorageInDB)
    ensures ApplyUpdate(row, NoChange) == Ok(row)
  {
  }

  /** The stored total is consistent with the zones after a successful update that sets them,
      and stays consistent after one that does not. */
  lemma UpdateKeepsTotalConsistent(row: StorageInDB, u: StorageUpdate)
    requires u.zones.Some? || row.totalPositions == TotalPositions(row.zones)
    ensures ApplyUpdate(row, u).Ok? ==>
      ApplyUpdate(row, u).value.totalPositions == TotalPositions(ApplyUpdate(row, u).value.zones)
  {
  }

  /** The row type admits a stored total that disagrees with the zones.  */
  lemma StoredTotalIsNotDerived()
    ensures var row := StorageInDB("s", None, "Rack", "rack", [], 7, "numeric");
            row.totalPositions != TotalPositions(row.zones)
  {
  }
}
