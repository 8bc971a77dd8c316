# Wine Concierge storage slots, modelled in Dafny

Wine Concierge keeps a user's wine collection in storage units: fridges, racks and cellars.
Each unit is divided into named zones, and each zone has a grid of dimensions. This project
models the code that decides where a bottle may go:

- The position validator parses a slot name such as `Red-A3` or `Rack-12` and checks it
  against the zone's dimensions. It also asks whether another wine already holds the slot.
- Capacity: a zone holds the product of its dimension values, and a storage holds the sum
  over its zones. The storage schema, the storage service and the archived storage
  repository each write this out as nested loops.
- The storage service and the archived storage repository create, update and delete storage
  rows. The repository scopes every query to the calling user.
- The wine repository accepts a create or an update that names a position only when the
  position validates for the storage and no other wine holds it.
- The prototype server (`main.py`) keeps two in-memory lists of JSON dictionaries. Its CRUD
  handlers perform no validation at all.
- The web client's storage manager generates the slot names it offers, computes its own
  capacity, and filters out the occupied slots.
- The web client's wine manager filters, sorts and de-duplicates wine lists, and attaches
  storage names.

Modules follow the source files:

| module (file) | models |
|---|---|
| `Wrappers`, `JsonValue`, `Text` | options and HTTP errors; JSON values and `dict`s; Python `str.split`, `int()`, `str()`, ASCII case mapping, `includes`, JavaScript string `<` |
| `Geometry` | zones, and the capacity product and sum |
| `StorageSchema` | `StorageCreate`, `StorageUpdate`, `StorageInDB` |
| `Store` | the database session: a storage table and a wine table with unique ids |
| `PositionValidator` | `archive/app/utils/position_validator.py` |
| `StorageService` | `app/services/storage_service.py` |
| `StorageRepository` | `archive/app/repositories/storage_repository.py` |
| `WineRepository` | `app/repositories/wine_repository.py` |
| `Prototype` | `main.py` |
| `StorageManager` | `static/js/storage-manager.js` |
| `WineManager` | `static/js/wine-manager.js` |

The form follows the source:

- Loops in the source are methods with loop invariants. Each is proved equal to a
  specification function, and the properties are lemmas about those functions.
- A repository or service is a class holding the database (`Store.Database`). The
  prototype's global lists are fields of `Prototype.PrototypeApi`.
- The following become parameters: UUIDs (`freshId`), `datetime.now()` (`now`), the label
  file's saved name, the parsed JSON of a form field, and the results of the client's HTTP
  requests.

Some quirks of the source are proved as lemmas rather than corrected:

- The storage service's `validate_position` never returns `True` for a non-empty position.
- The client's slot names never pass the validator (`StorageManager.GeneratedNamesNeverValidate`).
- Moving a wine to another storage without naming a position skips every occupancy check
  (`WineRepository.MoveWithoutPositionCanDoubleOccupy`).

## Model

| member | source | states |
|---|---|---|
| Text.Split | archive/app/utils/position_validator.py:24 | `str.split('-')`: one more part than there are separators, no part holds a separator, and joining the parts with it gives the input back |
| Text.SplitJoin | archive/app/utils/position_validator.py:24-28 | splitting a separator-joined list of separator-free parts gives that list back |
| Text.ParseInt | archive/app/utils/position_validator.py:49-52 | `int()` succeeds exactly on an optional sign followed by one or more ASCII digits |
| Text.ParsePrintedInt | archive/app/utils/position_validator.py:49-52 | `int(str(n)) == n` for every integer |
| Text.Contains | static/js/wine-manager.js:21-25 | `includes` holds iff the needle occurs at some index of the haystack |
| Text.LexTransitive | static/js/wine-manager.js:87-105 | JavaScript string `<` is transitive (with LexIrreflexive, LexTotal and LexAsymmetric it is a strict total order) |
| Geometry.ProductRemove | app/schemas/storage.py:23-25 | the dimension product is the same whichever key the loop takes first |
| Geometry.ZonePositions | app/schemas/storage.py:23-25 | the `positions *= value` loop computes the product of the zone's dimension values |
| Geometry.TotalPositions | app/schemas/storage.py:17-27 | the storage total: non-negative when every zone's capacity is, and a single zone's capacity for one zone |
| Geometry.ComputeTotalPositions | app/schemas/storage.py:17-27 | the `total +=` loop computes the sum of the zones' products |
| Geometry.EmptyDimensionsGiveOne | app/schemas/storage.py:23 | a zone with no dimensions counts as one position |
| Geometry.ZeroDimensionGivesZero | app/schemas/storage.py:24-25 | a zero extent on any axis empties the zone |
| Geometry.RowsColumnsCapacity | app/schemas/storage.py:23-25 | a `rows`×`columns` zone holds `rows * columns` positions |
| Geometry.PositiveDimensionsGivePositive | app/schemas/storage.py:23-25 | positive extents give a positive capacity |
| Geometry.TotalPositionsAppend | app/schemas/storage.py:21-26 | the storage total of concatenated zone lists is the sum of their totals |
| Geometry.ExampleCapacity | app/models/storage.py:13 | the documented 6×8 zone plus a 2×2 zone hold 52 positions |
| StorageSchema.ApplyUpdate | app/services/storage_service.py:57-71 | fails iff some field is set to `null`: a 500 `TypeError` for `zones` (in the total loop), otherwise a 500 NOT NULL failure at commit for the first null column; on success each field set takes its new value and every other field keeps its old one, and `total_positions` is recomputed exactly when `zones` is set |
| StorageSchema.NoChangeIsIdentity | app/services/storage_service.py:57-71 | an update that sets no field succeeds and changes nothing |
| StorageSchema.UpdateKeepsTotalConsistent | app/services/storage_service.py:60-68 | a successful update keeps `total_positions` equal to the capacity of `zones` when it was before, or when `zones` is set |
| StorageSchema.StoredTotalIsNotDerived | app/schemas/storage.py:35-38 | a stored row's `total_positions` is a plain field that may disagree with its zones |
| Store.WinesOutside | app/models/storage.py:18 | the cascade keeps exactly the wines of other storages (and those with no storage), in table order by the two lemmas below |
| Store.WinesOutsideDistributes | app/models/storage.py:18 | the cascade keeps table order: it distributes over concatenation |
| Store.WinesOutsideSingle | app/models/storage.py:18 | a single wine survives exactly when it is not in the deleted storage |
| Store.WinesOutsideKeepsUnique | app/models/storage.py:18 | the cascade keeps wine ids unique |
| Store.FirstStorage | archive/app/repositories/storage_repository.py:19-22 | `.first()`: the least index whose row matches the id (and the owner when one is given), or none when no row matches |
| Store.FirstWine | app/repositories/wine_repository.py:25-28 | the same first-match query on wines |
| PositionValidator.FirstZoneNamed | archive/app/utils/position_validator.py:31-35 | the first zone whose name equals the zone part, or none |
| PositionValidator.FindZone | archive/app/utils/position_validator.py:31-38 | the `for ... break` loop finds that first matching zone |
| PositionValidator.IsValidPosition | archive/app/utils/position_validator.py:8-85 | `validate_position`: a valid non-empty position has exactly one `-` and names a zone of the storage (its full meaning is the lemmas below) |
| PositionValidator.ValidatePosition | archive/app/utils/position_validator.py:8-85 | the imperative validator returns exactly `IsValidPosition` |
| PositionValidator.EmptyPositionValid | archive/app/utils/position_validator.py:19-21 | the empty position is valid for every storage |
| PositionValidator.SeparatorCountRejects | archive/app/utils/position_validator.py:24-26 | a non-empty position without exactly one `-` is rejected |
| PositionValidator.HyphenatedPartNeverValid | archive/app/utils/position_validator.py:24-26 | a zone name or code containing `-` can never be addressed |
| PositionValidator.UnknownZoneRejects | archive/app/utils/position_validator.py:37-38 | a position naming no zone of the storage is rejected |
| PositionValidator.FirstZoneDecides | archive/app/utils/position_validator.py:32-35 | when two zones share a name, the first one's dimensions decide |
| PositionValidator.RowColumnValidIff | archive/app/utils/position_validator.py:43-64 | under `row-column`, valid iff the code has at least 2 characters, its tail parses as an integer in `1..columns`, and its upper-cased first letter gives a row in `1..rows` |
| PositionValidator.MissingAxisAcceptsNothing | archive/app/utils/position_validator.py:58-62 | when the first zone with the position's zone name lacks `rows` or `columns`, no `row-column` code is accepted (the missing axis defaults to 0) |
| PositionValidator.NumericValidIff | archive/app/utils/position_validator.py:66-82 | under `numeric`, valid iff the code parses as an integer in `1..product of dimensions` |
| PositionValidator.OtherSchemeRejects | archive/app/utils/position_validator.py:84-85 | every other scheme rejects every non-empty position |
| PositionValidator.ClientSchemeTagsRejectEverything | archive/app/utils/position_validator.py:43-85 | the client's and the prototype's scheme tags (`Row-Column`, ...) reject every non-empty position |
| PositionValidator.RowsThirtyThreeToFiftyEightUnreachable | archive/app/utils/position_validator.py:48-55 | upper-casing folds lower-case letters, so rows 33 to 58 cannot be named |
| PositionValidator.Decode | archive/app/utils/position_validator.py:24-82 | a decoded position names a zone of the storage (its meaning is ValidIffDecodesInRange and EncodeDecode) |
| PositionValidator.ValidIffDecodesInRange | archive/app/utils/position_validator.py:19-85 | a non-empty position is valid iff it decodes to a slot inside its zone's range |
| PositionValidator.EncodeDecode | archive/app/utils/position_validator.py:24-82 | every in-range slot of a zone whose name holds no `-` is written as a position that decodes back to that slot and validates |
| PositionValidator.RedA3Valid | archive/app/utils/position_validator.py:43-64 | `Red-A3` is valid in a 6×8 `Red` zone |
| PositionValidator.RedG1Invalid | archive/app/utils/position_validator.py:58-59 | row G (7) is past 6 rows |
| PositionValidator.RedA9Invalid | archive/app/utils/position_validator.py:61-62 | column 9 is past 8 columns |
| PositionValidator.Red3AInvalid | archive/app/utils/position_validator.py:48-52 | the number-first `3A` does not parse |
| PositionValidator.BadZoneInvalid | archive/app/utils/position_validator.py:37-38 | an unknown zone name is rejected |
| PositionValidator.SmallRackLookup | archive/app/utils/position_validator.py:66-82 | in a 2×2 numeric zone `Rack`, `Rack-n` is valid exactly for n in 1..4 |
| PositionValidator.SmallRackExamples | archive/app/utils/position_validator.py:66-82 | in that zone `Rack-4` is valid, and `Rack-5` and `Rack-0` are not |
| PositionValidator.AnyOccupies | archive/app/utils/position_validator.py:107-116 | some wine of the storage holds the position and, when a truthy wine id is given, is not that wine |
| PositionValidator.IsPositionOccupied | archive/app/utils/position_validator.py:103-116 | the empty position is never occupied; otherwise occupied iff such a wine exists |
| PositionValidator.SelfExcluded | archive/app/utils/position_validator.py:113-114 | a wine never counts as occupying its own position during its update |
| StorageService.NewStorage | app/services/storage_service.py:21-38 | the created row carries the payload's zones, the sum of their products as its total, and no owner |
| StorageService.ValidatePositionResult | app/services/storage_service.py:93-121 | `False` for an unknown storage or an occupied position; `True` only for the empty position; otherwise the bare `return`, i.e. `None` |
| StorageService.OnlyEmptyPositionPasses | app/services/storage_service.py:108-121 | no non-empty position is ever reported valid |
| StorageService.GeometryIgnored | app/services/storage_service.py:112-121 | the answer does not depend on the storage's zones |
| StorageService.StorageService.GetAllStorages | app/services/storage_service.py:13-15 | every row |
| StorageService.StorageService.GetStorageById | app/services/storage_service.py:17-19 | a row with that id, or none iff no row has it |
| StorageService.StorageService.CreateStorage | app/services/storage_service.py:21-44 | appends exactly `NewStorage` and keeps ids unique |
| StorageService.StorageService.UpdateStorage | app/services/storage_service.py:46-76 | 404 with no change for an unknown id; otherwise returns `ApplyUpdate` of the first match, writing it in place only on success |
| StorageService.StorageService.DeleteStorage | app/services/storage_service.py:78-91 | 404 with no change for an unknown id; otherwise removes the first match and, by cascade, its wines |
| StorageService.StorageService.ValidatePosition | app/services/storage_service.py:93-121 | returns `ValidatePositionResult` of the current tables |
| StorageRepository.NewOwnedStorage | archive/app/repositories/storage_repository.py:26-44 | the created row carries the caller as owner and the sum of zone products as its total |
| StorageRepository.OwnedBy | archive/app/repositories/storage_repository.py:13-15 | exactly the caller's rows, in table order by the two lemmas below |
| StorageRepository.OwnedByDistributes | archive/app/repositories/storage_repository.py:13-15 | the query keeps table order: it distributes over concatenation |
| StorageRepository.OwnedBySingle | archive/app/repositories/storage_repository.py:13-15 | a single row is listed exactly when the caller owns it |
| StorageRepository.ForeignStorageNotFound | archive/app/repositories/storage_repository.py:17-24 | another user's storage is not found |
| StorageRepository.StorageRepository.GetAll | archive/app/repositories/storage_repository.py:13-15 | returns `OwnedBy` |
| StorageRepository.StorageRepository.GetById | archive/app/repositories/storage_repository.py:17-24 | a row with that id owned by the caller, or none iff there is no such row |
| StorageRepository.StorageRepository.Create | archive/app/repositories/storage_repository.py:26-44 | appends exactly `NewOwnedStorage` |
| StorageRepository.StorageRepository.Update | archive/app/repositories/storage_repository.py:46-77 | 404 with no change unless the caller owns the row; otherwise returns `ApplyUpdate` of it, writing it in place only on success |
| StorageRepository.StorageRepository.Delete | archive/app/repositories/storage_repository.py:79-97 | 404 with no change unless the caller owns the row; otherwise removes it and its wines |
| WineRepository.NewWine | app/repositories/wine_repository.py:59-69 | the inserted row carries the payload's name, storage, position, description and metadata, and the caller as owner |
| WineRepository.CreateOutcome | app/repositories/wine_repository.py:30-75 | 404 iff the caller owns no storage with the id; otherwise a truthy position that does not validate gives 400 `Invalid position…`, and one that validates but is held gives 400 `Position already occupied…`; success in every other case, with the new wine owned by the caller |
| WineRepository.CreateKeepsSingleOccupancy | app/repositories/wine_repository.py:44-57 | a successful create keeps every occupied slot held by one wine |
| WineRepository.ApplyWineUpdate | app/repositories/wine_repository.py:133-135 | each field the update sets takes its new value and every other field keeps its old one |
| WineRepository.Commit | app/repositories/wine_repository.py:133-138 | the commit fails with the NOT NULL error exactly when `name` was set to `null`; otherwise it stores `ApplyWineUpdate` of the wine, under the same id |
| WineRepository.TargetStorage | app/repositories/wine_repository.py:95-108 | a supplied `storage_id` must name a storage of the caller, else 404 `Storage not found` (a `null` one too); without one, the wine's current storage, if any |
| WineRepository.UpdateOutcome | app/repositories/wine_repository.py:77-140 | 404 for a wine the caller does not own; else the storage 404 of `TargetStorage`; else, for a truthy position, 400 `Invalid position…` when it does not validate (with no target storage: when it lacks exactly one `-`), 500 when there is no target storage but it has one `-`, and 400 `Position already occupied…` when another wine holds it; else 500 for a `null` name; success iff none of these, and then it is `ApplyWineUpdate` of the wine. A null or empty position skips both checks |
| WineRepository.UpdateChecksSuppliedPosition | app/repositories/wine_repository.py:111-131 | a successful update with a truthy position has a target storage for which the position validates and no other wine holds it |
| WineRepository.UpdateKeepsSingleOccupancy | app/repositories/wine_repository.py:111-135 | an update that sets its position, or leaves the storage alone, keeps every occupied slot held by one wine |
| WineRepository.MoveWithoutPositionCanDoubleOccupy | app/repositories/wine_repository.py:95-111 | moving a wine to another storage without a position can put two wines in one slot |
| WineRepository.WinesOf | app/repositories/wine_repository.py:14-21 | exactly the caller's wines, restricted to the storage when a truthy id is given, in table order by the two lemmas below |
| WineRepository.WinesOfDistributes | app/repositories/wine_repository.py:14-21 | the query keeps table order: it distributes over concatenation |
| WineRepository.WinesOfSingle | app/repositories/wine_repository.py:14-21 | a single wine is listed exactly when the caller owns it and, for a truthy storage id, it lies in that storage |
| WineRepository.WineRepository.GetAll | app/repositories/wine_repository.py:14-21 | returns `WinesOf` |
| WineRepository.WineRepository.GetById | app/repositories/wine_repository.py:23-28 | a wine with that id owned by the caller, or none iff there is no such wine |
| WineRepository.WineRepository.Create | app/repositories/wine_repository.py:30-75 | returns `CreateOutcome`, appends the wine only on success, never touches storages |
| WineRepository.WineRepository.Update | app/repositories/wine_repository.py:77-140 | returns `UpdateOutcome`, writes the updated wine in place only on success |
| WineRepository.WineRepository.Delete | app/repositories/wine_repository.py:142-155 | 404 with no change for a wine the caller does not own; otherwise removes that wine |
| Prototype.FirstWithId | main.py:53-55 | the first record whose `"id"` equals the id, or none |
| Prototype.WithId | main.py:61-64 | `{"id": id, **payload}`: exactly the payload's keys plus `"id"`, the payload's values winning |
| Prototype.Merge | main.py:174-177 | `{**wine, **payload}`: payload values win and every other key is kept |
| Prototype.WinesInStorage | main.py:88-92 | an uncaught `KeyError` iff some wine lacks `"storage_id"`; otherwise exactly the wines with that storage id |
| Prototype.WinesInStorageDistributes | main.py:88-92 | the comprehension keeps order: the wines of `a + b` are those of `a` followed by those of `b`, and the `KeyError` occurs iff it occurs in either half |
| Prototype.WinesInStorageSingle | main.py:88-92 | a single wine is listed exactly when its `"storage_id"` equals the requested one |
| Prototype.NewWineRecord | main.py:122-127 | the id, date and label name, with the client's fields on top |
| Prototype.TypeName | main.py:122-134 | `type(v).__name__` in the 500 detail of a non-object payload: `dict` exactly for objects |
| Prototype.AddWineOutcome | main.py:101-134 | 400 exactly when the JSON does not parse; success exactly when it is an object, and the stored record then has an `"id"` |
| Prototype.RemoveFirstWithId | main.py:81-84 | removes the first match only, or nothing |
| Prototype.CreatedStorageIsFound | main.py:51-66 | a storage created under a new id, with no payload `"id"`, is found by that id |
| Prototype.UpdatedStorageIsFound | main.py:68-77 | a replaced storage is still found under its id, unless the payload changes it |
| Prototype.PayloadIdOverridesPathId | main.py:72-75 | a payload `"id"` replaces the path's id |
| Prototype.DeletedIsGone | main.py:79-85 | with unique ids, a deleted record is no longer found |
| Prototype.MergeKeepsId | main.py:174-177 | a merge without a payload `"id"` keeps the wine's id |
| Prototype.AddWineIgnoresPosition | main.py:101-130 | whether a wine is accepted does not depend on its position |
| Prototype.SampleDataAgainstValidator | main.py:190-226 | the sample storage's total matches its 4×6 zone, but its `Row-Column` tag and its wine's `1A` position are both refused by the validator |
| Prototype.PrototypeApi.constructor | main.py:190-229 | the lists start with the sample storage and the sample wine |
| Prototype.PrototypeApi.GetStorageUnits | main.py:47-49 | the whole list |
| Prototype.PrototypeApi.GetStorageById | main.py:51-56 | the first record with the id, or 404 |
| Prototype.PrototypeApi.CreateStorage | main.py:58-66 | appends exactly `WithId(freshId, payload)` |
| Prototype.PrototypeApi.UpdateStorage | main.py:68-77 | replaces the first match with `WithId(id, payload)`, so keys the payload omits are dropped; 404 with no change for an unknown id |
| Prototype.PrototypeApi.DeleteStorage | main.py:79-85 | removes the first match, or 404 with no change; wines stay |
| Prototype.PrototypeApi.GetWines | main.py:88-92 | all wines unless the storage id is truthy, else `WinesInStorage` |
| Prototype.PrototypeApi.GetWineById | main.py:94-99 | the first wine with the id, or 404 |
| Prototype.PrototypeApi.AddWine | main.py:101-134 | returns `AddWineOutcome` and appends only on success |
| Prototype.PrototypeApi.UpdateWine | main.py:170-179 | merges the payload into exactly the first match, or 404 with no change |
| Prototype.PrototypeApi.DeleteWine | main.py:181-187 | removes the first match, or 404 with no change |
| StorageManager.OrOne | static/js/storage-manager.js:22-23 | `value || 1`: 1 exactly when the extent is missing, 0 or 1, else the extent |
| StorageManager.FromCharCode | static/js/storage-manager.js:33-37 | the letter `A`..`Z` for codes 65..90 |
| StorageManager.ZoneLabelsAt | static/js/storage-manager.js:25-45 | row-major order: slot (i, j) of a zone is name number `(i-1)*columns + j` |
| StorageManager.ZoneLabelsLength | static/js/storage-manager.js:25-26 | a zone yields `rows * columns` names |
| StorageManager.SequentialZoneCountsFromOne | static/js/storage-manager.js:27-30 | under `Sequential Numbering`, a zone's names are `"1"`, `"2"`, ... in order |
| StorageManager.SequentialNamesRestartPerZone | static/js/storage-manager.js:20-29 | the numbering restarts in every zone, so two zones both offer `"1"` |
| StorageManager.Fallback | static/js/storage-manager.js:47-52 | name k is `"Position k+1"` |
| StorageManager.FallbackNames | static/js/storage-manager.js:47-52 | with no zones, one `Position i` per stored slot |
| StorageManager.GeneratedCountIsClientTotal | static/js/storage-manager.js:20-26 | with positive extents the number of names equals `calculateTotalPositions` |
| StorageManager.NegativeExtentsMiscount | static/js/storage-manager.js:22-26 | negative extents count a slot while naming none |
| StorageManager.ClientTotalMatchesServer | static/js/storage-manager.js:96-103 | for zones with exactly non-zero `rows` and `columns`, the client's total equals the server's |
| StorageManager.ZeroExtentDiverges | static/js/storage-manager.js:99-102 | a zero extent counts 1 on the client and 0 on the server |
| StorageManager.ExtraAxisDiverges | static/js/storage-manager.js:99-102 | the client ignores a third axis that the server multiplies in |
| StorageManager.GeneratedNamesNeverValidate | static/js/storage-manager.js:14-55 | no name the client offers for a storage passes the server's validator for that storage |
| StorageManager.Available | static/js/storage-manager.js:74-81 | exactly the generated names that no wine of the storage holds |
| StorageManager.AvailableDistributes | static/js/storage-manager.js:81 | the filter preserves order (it distributes over concatenation) |
| StorageManager.PushRow | static/js/storage-manager.js:26-44 | the column loop appends row r's names |
| StorageManager.PushZone | static/js/storage-manager.js:25-45 | the row loop appends a zone's names |
| StorageManager.GeneratedPositions | static/js/storage-manager.js:14-55 | what `generatePositions` returns: with no zones, as many names as stored positions (its meaning is the index and count lemmas above) |
| StorageManager.GeneratePositions | static/js/storage-manager.js:14-55 | the nested loops return exactly `GeneratedPositions` |
| StorageManager.ClientTotal | static/js/storage-manager.js:93-107 | what `calculateTotalPositions` returns: with positive extents, at least one position per zone |
| StorageManager.CalculateTotalPositions | static/js/storage-manager.js:93-107 | the `total +=` loop returns the sum of `(rows||1)*(columns||1)`, 0 without zones |
| StorageManager.GetAvailablePositions | static/js/storage-manager.js:62-86 | `[]` when a request failed, else the available names in order |
| StorageManager.StorageForm.StampTotalPositions | static/js/storage-manager.js:114-132 | overwrites `total_positions` with the client's total and changes nothing else |
| WineManager.FilterWines | static/js/wine-manager.js:15-47 | keeps exactly the wines that match the search and the set filters |
| WineManager.FilterDistributes | static/js/wine-manager.js:16 | the filter preserves order (it distributes over concatenation) |
| WineManager.FilterIdempotent | static/js/wine-manager.js:15-47 | filtering twice is filtering once |
| WineManager.NoFiltersKeepAll | static/js/wine-manager.js:15-47 | with no criterion set the list comes back whole |
| WineManager.SearchIgnoresTermCase | static/js/wine-manager.js:19 | the search depends on the term only through its lower-case form |
| WineManager.InsertSorted | static/js/wine-manager.js:62-72 | adding to a sorted list of distinct strings keeps it sorted and distinct, holding exactly the old members and the new one |
| WineManager.ExtractFilterOptions | static/js/wine-manager.js:54-75 | sorted, duplicate-free lists holding exactly the truthy countries and regions, and the fixed type list |
| WineManager.BeforeTransitive | static/js/wine-manager.js:87-105 | the comparator's "before" is transitive (asymmetry is BeforeAsymmetric) |
| WineManager.InsertWine | static/js/wine-manager.js:87-105 | inserting into a sorted list keeps it sorted and adds exactly that wine |
| WineManager.SortWines | static/js/wine-manager.js:84-108 | a permutation of the input in which no wine comes after one it sorts before |
| WineManager.MissingVintageSortsAsZero | static/js/wine-manager.js:94-95 | sorted by vintage ascending, a wine with no vintage comes before every positive vintage |
| WineManager.NameMap | static/js/wine-manager.js:117-122 | `storageMap` has a key for exactly the storage ids present |
| WineManager.NameMapIsLast | static/js/wine-manager.js:120-122 | the map holds the name of the last storage with each id |
| WineManager.StorageNameFor | static/js/wine-manager.js:127 | the mapped name when it is non-empty, else `Unknown Storage` |
| WineManager.MatchStorageNames | static/js/wine-manager.js:116-129 | the same wines in the same order, each paired with `StorageNameFor` |
| WineManager.LastStorageNameWins | static/js/wine-manager.js:120-122 | when two storages share an id, the later name is shown |

## Left out

- HTTP routing, Pydantic coercion, the ORM session, commits and refreshes. The database is
  two sequences in `Store.Database`; a query's row order is table order.
- `app/models/storage.py` declares no `user_id` column. As written, every owner-scoped query's
  `Storage.user_id` raises `AttributeError`, and the archived repository's
  `Storage(user_id=…)` raises `TypeError`, so all of them answer 500. The model assumes the
  column exists: a storage row carries an optional owner, which the archived repository sets
  and the service leaves `None`, and the ownership filters compare against it.
- Concurrency: the check-then-act race between the occupancy check and the write. Every call
  is modelled as sequential.
- File uploads, label images, the OpenAI calls and `update-structure.py`. The label file's
  saved name is a parameter.
- UUIDs, `datetime.now()` and `json.loads` are parameters. The JSON parser itself is not
  modelled: `AddWine` takes its result, or `None` for a `JSONDecodeError`.
- Text.ParseInt: Python's `int()` also accepts surrounding whitespace, underscores and
  non-ASCII digits. The model accepts only an optional sign and ASCII digits.
- Text.Upper, Text.Lower: case mapping covers ASCII letters only. Python's and JavaScript's
  full Unicode mappings are not modelled.
- Text.LexLess: compares by code point. JavaScript compares UTF-16 code units, which differs
  only for characters outside the Basic Multilingual Plane.
- StorageManager.FromCharCode: a lone surrogate code unit is not a Dafny `char`, so it
  becomes U+FFFD.
- Everything is an integer: JSON floats, non-integer extents, `NaN` dates and
  `temperature`/`humidity` arithmetic are not modelled. `added_date`'s `getTime()` is an
  abstract integer.
- WineManager.SortWines: proved to be a sorted permutation, but stability is not proved.
  The engine's own sort algorithm is replaced by insertion into a sorted copy.
- WineManager.SortWines: `sortBy` and `ascending` are always passed. The defaults of
  `sortWines(wines, sortBy = 'date', ascending = false)` are not modelled.
- StorageNameFor: `storageMap` is modelled as a map. In the source it is a plain object, so
  an id such as `toString`, `constructor` or `__proto__` with no storage of its own finds an
  inherited, truthy property. That property becomes `storage_name` where the model gives
  `Unknown Storage`.
- NameMap: assigning a string to `storageMap["__proto__"]` is ignored in the source, but the
  model records it.
- LookupKey: a wine's `storage_id` is either a string or absent (the key `"undefined"`). A
  `null` id, which looks up the key `"null"`, is not distinguished from an absent one.
- WineManager.ExtractFilterOptions: builds each list by sorted insertion instead of a `Set`
  followed by `sort()`. The resulting list is the same.
- The client's `api.js` requests and the `await`s in `getAvailablePositions` are not
  modelled. Their results are parameters.
- Explicit `null` is modelled in the storage update (`StorageSchema.ApplyUpdate`, used by
  `StorageService.StorageService.UpdateStorage` and `StorageRepository.StorageRepository.Update`)
  and in the wine update (`WineRepository.UpdateOutcome`). The NOT NULL failure names the first
  null column in table order, with SQLite's wording. Whether the session is left dirty after
  the failed commit is not modelled: the table stays as it was.
- An explicit `null` for a required field of a create payload (`name`, `storage_id`, `zones`
  and the like) is refused by request validation before any modelled code runs. The optional
  fields are `Option`s.
- The `metadata` to `wine_metadata` rename in the wine repository is not modelled as a
  step. The schemas already name the field `wine_metadata`, so the rename never fires.
- The fixed `types` list keeps the third entry as the file spells it: the two characters
  U+00C3 U+00A9 after `Ros`.
- NewWine: builds the row with a `description` field. The imported `app/models/wine.py`
  declares no such column (see the next line), so the source cannot build this row.
- CreateOutcome: the model stores `description` on the new wine. The imported
  `app/models/wine.py` has no `description` column; only the archived model
  (`archive/app/models/wine.py:31`) and a migration add one. As written, `Wine(**wine_dict)`
  gets a `description` key from `model_dump()` on every create and raises `TypeError`, a 500.
  The model assumes the archived column.
- ApplyWineUpdate: for the same reason, the source's `setattr(db_wine, "description", …)` is
  never persisted. The model assumes the column and stores it.
- ORM columns that no modelled operation reads (producer, varietal, alcohol percentage and
  the like) are absent from `Store.Wine`.
