/** `PositionValidator`: whether a position string names an in-range slot of a storage unit,
    and whether another wine already holds it. */
module PositionValidator {
  import opened Wrappers
  import opened Text
  import opened Geometry
  import opened StorageSchema
  import opened Store

  /** The two naming schemes the validator recognises (compared case-sensitively). */
  const RowColumn: string := "row-column"
  const Numeric: string := "numeric"

  /** The separator between the zone name and the position code. */
  const Separator: char := '-'

  // ---------------------------------------------------------------------------
  // The decision

  /** Index of the first zone whose name equals `name` exactly. */
  function FirstZoneNamed(zones: seq<Zone>, name: string): (r: Option<nat>)
    ensures r.Some? ==> r.value < |zones| && zones[r.value].name == name
    ensures r.Some? ==> forall j :: 0 <= j < r.value ==> zones[j].name != name
    ensures r.None? <==> forall j :: 0 <= j < |zones| ==> zones[j].name != name
  {
    if zones == [] then None
    else if zones[0].name == name then Some(0)
    else match FirstZoneNamed(zones[1..], name)
      case None => None
      case Some(k) => Some(k + 1)
  }

  /** `dimensions.get(axis, default)`. */
  function DimOr(dims: Dimensions, axis: string, default: int): int
  {
    if axis in dims then dims[axis] else default
  }

  /** `ord(c.upper()) - ord('A') + 1`: A (or a) is row 1, B row 2, and so on. */
  function RowNumber(c: char): int
  {
    (Upper(c) as int) - ('A' as int) + 1
  }

  /** Whether a position code fits a zone's dimensions under a naming scheme. */
  ghost predicate CodeFits(scheme: string, code: string, dims: Dimensions)
  {
    if scheme == RowColumn then
      |code| >= 2 &&
      match ParseInt(code[1..])
      case None => false
      case Some(column) =>
        1 <= RowNumber(code[0]) <= DimOr(dims, "rows", 0) &&
        1 <= column <= DimOr(dims, "columns", 0)
    else if scheme == Numeric then
      match ParseInt(code)
      case None => false
      case Some(n) => 1 <= n <= Product(dims)
    else
      false
  }

  /** `validate_position(position, storage)`. */
  ghost predicate IsValidPosition(position: string, storage: StorageInDB)
    ensures IsValidPosition(position, storage) && position != "" ==>
      Count(position, Separator) == 1 && FirstZoneNamed(storage.zones, Split(position, Separator)[0]).Some?
  {
    if position == "" then true
    else
      var parts := Split(position, Separator);
      if |parts| != 2 then false
      else match FirstZoneNamed(storage.zones, parts[0])
        case None => false
        case Some(i) => CodeFits(storage.scheme, parts[1], storage.zones[i].dimensions)
  }

  /** The zone-search loop: `for zone in storage.zones: if zone.get('name') == zone_name: ... break`. */
  method FindZone(zones: seq<Zone>, name: string) returns (found: Option<nat>)
    ensures found == FirstZoneNamed(zones, name)
  {
    found := None;
    var i := 0;
    while i < |zones|
      invariant 0 <= i <= |zones|
      invariant forall j :: 0 <= j < i ==> zones[j].name != name
    {
      if zones[i].name == name {
        found := Some(i);
        break;
      }
      i := i + 1;
    }
  }

  /** `PositionValidator.validate_position`, computing the zone's position count with the
      product loop. */
  method ValidatePosition(position: string, storage: StorageInDB) returns (valid: bool)
    ensures valid == IsValidPosition(position, storage)
  {
    if position == "" {
      return true;
    }
    var parts := Split(position, Separator);
    if |parts| != 2 {
      return false;
    }
    var zoneName, code := parts[0], parts[1];
    var matching := FindZone(storage.zones, zoneName);
    if matching.None? {
      return false;
    }
    var dims := storage.zones[matching.value].dimensions;
    if storage.scheme == RowColumn {
      if |code| < 2 {
        return false;
      }
      var column := ParseInt(code[1..]);
      if column.None? {
        return false;
      }
      var row := RowNumber(code[0]);
      if row < 1 || row > DimOr(dims, "rows", 0) {
        return false;
      }
      if column.value < 1 || column.value > DimOr(dims, "columns", 0) {
        return false;
      }
      return true;
    } else if storage.scheme == Numeric {
      var n := ParseInt(code);
      if n.None? {
        return false;
      }
      var total := ZonePositions(dims);
      if n.value < 1 || n.value > total {
        return false;
      }
      return true;
    }
    return false;
  }

  // ---------------------------------------------------------------------------
  // Occupancy

  /** Wine `w` holds `position` in storage `storageId`, and is not the wine being updated. */
  predicate Occupies(w: Wine, position: string, storageId: string, wineId: Option<string>)
  {
    w.storageId == Some(storageId) && w.position == Some(position) &&
    (Truthy(wineId) ==> w.id != wineId.value)
  }

  function AnyOccupies(wines: seq<Wine>, position: string, storageId: string, wineId: Option<string>): (b: bool)
    ensures b <==> exists i :: 0 <= i < |wines| && Occupies(wines[i], position, storageId, wineId)
  {
    if wines == [] then false
    else
      Occupies(wines[0], position, storageId, wineId) ||
      (AnyOccupies(wines[1..], position, storageId, wineId) &&
       assert forall i :: 0 <= i < |wines| - 1 ==> wines[1..][i] == wines[i + 1];
       true)
  }

  /** `PositionValidator.is_position_occupied(position, storage_id, db, wine_id)`. */
  function IsPositionOccupied(position: string, storageId: string, wines: seq<Wine>, wineId: Option<string>): (occupied: bool)
    ensures occupied <==>
      position != "" && exists i :: 0 <= i < |wines| && Occupies(wines[i], position, storageId, wineId)
  {
    position != "" && AnyOccupies(wines, position, storageId, wineId)
  }

  /** The empty position is never occupied, whatever the store holds. */
  lemma EmptyNeverOccupied(storageId: string, wines: seq<Wine>, wineId: Option<string>)
    ensures !IsPositionOccupied("", storageId, wines, wineId)
  {
  }

  /** Re-saving a wine at its own position does not conflict with itself. */
  lemma SelfExcluded(position: string, storageId: string, wines: seq<Wine>, k: nat)
    requires k < |wines| && wines[k].id != ""
    requires forall j :: 0 <= j < |wines| && j != k ==> !Occupies(wines[j], position, storageId, None)
    ensures !IsPositionOccupied(position, storageId, wines, Some(wines[k].id))
  {
    forall j | 0 <= j < |wines|
      ensures !Occupies(wines[j], position, storageId, Some(wines[k].id))
    {
      if j != k {
        assert !Occupies(wines[j], position, storageId, None);
      }
    }
  }

  // ---------------------------------------------------------------------------
  // Properties of the decision

  /** The empty position is valid for every storage. */
  lemma EmptyPositionValid(storage: StorageInDB)
    ensures IsValidPosition("", storage)
  {
  }

  /** A non-empty position without exactly one separator is invalid. */
  lemma SeparatorCountRejects(position: string, storage: StorageInDB)
    requires position != "" && Count(position, Separator) != 1
    ensures !IsValidPosition(position, storage)
  {
  }

  /** A zone name or code with a `-` in it can never validate. */
  lemma HyphenatedPartNeverValid(zoneName: string, code: string, storage: StorageInDB)
    requires Separator in zoneName || Separator in code
    ensures !IsValidPosition(zoneName + [Separator] + code, storage)
  {
    CountAppend(zoneName, [Separator] + code, Separator);
    CountAppend([Separator], code, Separator);
    CountZero(zoneName, Separator);
    CountZero(code, Separator);
    assert zoneName + [Separator] + code == zoneName + ([Separator] + code);
  }

  /** A position made of a zone name and a code splits back into those two. */
  lemma SplitPosition(zoneName: string, code: string)
    requires Separator !in zoneName && Separator !in code
    ensures Split(zoneName + [Separator] + code, Separator) == [zoneName, code]
  {
    SplitJoin([zoneName, code], Separator);
    assert Join([zoneName, code], Separator) == zoneName + [Separator] + Join([code], Separator);
  }

  /** With no zone of that name the position is invalid. */
  lemma UnknownZoneRejects(zoneName: string, code: string, storage: StorageInDB)
    requires Separator !in zoneName && Separator !in code
    requires forall j :: 0 <= j < |storage.zones| ==> storage.zones[j].name != zoneName
    ensures !IsValidPosition(zoneName + [Separator] + code, storage)
  {
    SplitPosition(zoneName, code);
  }

  /** The first zone with the name decides; later zones of the same name are never consulted. */
  lemma FirstZoneDecides(zoneName: string, code: string, storage: StorageInDB, i: nat)
    requires Separator !in zoneName && Separator !in code
    requires i < |storage.zones| && storage.zones[i].name == zoneName
    requires forall j :: 0 <= j < i ==> storage.zones[j].name != zoneName
    ensures IsValidPosition(zoneName + [Separator] + code, storage) ==
            CodeFits(storage.scheme, code, storage.zones[i].dimensions)
  {
    SplitPosition(zoneName, code);
    var r := FirstZoneNamed(storage.zones, zoneName);
    assert r.Some?;
    assert !(r.value < i);
  }

  /** Row-column scheme: valid iff the code is a row character and an integer column, the row
      number (A = 1) is in `1..rows` and the column in `1..columns`, missing axes counting 0. */
  lemma RowColumnValidIff(zoneName: string, code: string, storage: StorageInDB, i: nat)
    requires Separator !in zoneName && Separator !in code
    requires storage.scheme == RowColumn
    requires FirstZoneNamed(storage.zones, zoneName) == Some(i)
    ensures IsValidPosition(zoneName + [Separator] + code, storage) <==>
      |code| >= 2 && ParseInt(code[1..]).Some? &&
      1 <= RowNumber(code[0]) <= DimOr(storage.zones[i].dimensions, "rows", 0) &&
      1 <= ParseInt(code[1..]).value <= DimOr(storage.zones[i].dimensions, "columns", 0)
  {
    SplitPosition(zoneName, code);
  }

  /** Row-column scheme: a zone without a `rows` or a `columns` entry accepts no position. */
  lemma MissingAxisAcceptsNothing(zoneName: string, code: string, storage: StorageInDB, i: nat)
    requires Separator !in zoneName && Separator !in code
    requires storage.scheme == RowColumn
    requires FirstZoneNamed(storage.zones, zoneName) == Some(i)
    requires "rows" !in storage.zones[i].dimensions || "columns" !in storage.zones[i].dimensions
    ensures !IsValidPosition(zoneName + [Separator] + code, storage)
  {
    RowColumnValidIff(zoneName, code, storage, i);
  }

  /** Numeric scheme: valid iff the code is an integer in `1..` the product of the zone's
      dimension values. */
  lemma NumericValidIff(zoneName: string, code: string, storage: StorageInDB, i: nat)
    requires Separator !in zoneName && Separator !in code
    requires storage.scheme == Numeric
    requires FirstZoneNamed(storage.zones, zoneName) == Some(i)
    ensures IsValidPosition(zoneName + [Separator] + code, storage) <==>
      ParseInt(code).Some? && 1 <= ParseInt(code).value <= ZoneCapacity(storage.zones[i])
  {
    SplitPosition(zoneName, code);
  }

  /** Any other naming scheme rejects every non-empty position. */
  lemma OtherSchemeRejects(position: string, storage: StorageInDB)
    requires storage.scheme != RowColumn && storage.scheme != Numeric
    requires position != ""
    ensures !IsValidPosition(position, storage)
  {
  }

  /** The scheme tags the web client and the prototype use are none of the validator's, so a
      storage created with one of them accepts only the empty position. */
  lemma ClientSchemeTagsRejectEverything(position: string, storage: StorageInDB)
    requires storage.scheme in {"Row-Column", "Sequential Numbering", "Zone-Position", "Section-Row-Column"}
    requires position != ""
    ensures !IsValidPosition(position, storage)
  {
    OtherSchemeRejects(position, storage);
  }

  /** Upper-casing folds `a`..`z` onto `A`..`Z`, so row numbers 33 to 58 cannot be written. */
  lemma RowsThirtyThreeToFiftyEightUnreachable(c: char)
    ensures !(33 <= RowNumber(c) <= 58)
  {
  }

  // ---------------------------------------------------------------------------
  // Round trip: slots, their names, and decoding

  /** A decoded position: a zone (by index) and a row and column, or a flat index. */
  datatype Slot = Cell(zone: nat, row: int, column: int) | Index(zone: nat, n: int)

  /** The letter for a row number: `chr(64 + row)`. */
  function RowLetter(row: int): (c: char)
    requires 1 <= row <= 32
    ensures RowNumber(c) == row
  {
    ((row + 64) as char)
  }

  /** What a position string names, before any range check. */
  function Decode(position: string, storage: StorageInDB): (r: Option<Slot>)
    ensures r.Some? ==> r.value.zone < |storage.zones|
  {
    var parts := Split(position, Separator);
    if |parts| != 2 then None
    else match FirstZoneNamed(storage.zones, parts[0])
      case None => None
      case Some(i) =>
        var code := parts[1];
        if storage.scheme == RowColumn then
          if |code| < 2 then None
          else match ParseInt(code[1..])
            case None => None
            case Some(column) => Some(Cell(i, RowNumber(code[0]), column))
        else if storage.scheme == Numeric then
          match ParseInt(code)
          case None => None
          case Some(n) => Some(Index(i, n))
        else None
  }

  /** A slot lies inside its zone's declared dimensions. */
  ghost predicate InRange(slot: Slot, storage: StorageInDB)
  {
    slot.zone < |storage.zones| &&
    var dims := storage.zones[slot.zone].dimensions;
    match slot
    case Cell(_, row, column) =>
      "rows" in dims && "columns" in dims &&
      1 <= row <= dims["rows"] && 1 <= column <= dims["columns"]
    case Index(_, n) => 1 <= n <= Product(dims)
  }

  /** A non-empty position is valid exactly when it decodes to a slot strictly inside its
      zone's dimensions. */
  lemma ValidIffDecodesInRange(position: string, storage: StorageInDB)
    requires position != ""
    ensures IsValidPosition(position, storage) <==>
      Decode(position, storage).Some? && InRange(Decode(position, storage).value, storage)
  {
  }

  /** The name the validator expects for a slot: zone name, `-`, then the row letter and the
      column number, or the flat index. */
  function Encode(slot: Slot, storage: StorageInDB): string
    requires slot.zone < |storage.zones|
    requires slot.Cell? ==> 1 <= slot.row <= 32 && slot.column >= 0
    requires slot.Index? ==> slot.n >= 0
  {
    storage.zones[slot.zone].name + [Separator] +
    match slot
    case Cell(_, row, column) => [RowLetter(row)] + NatToString(column)
    case Index(_, n) => NatToString(n)
  }

  /** Every in-range slot of a uniquely addressable zone has a name, and that name decodes back
      to the slot and is accepted. */
  lemma {:induction false} EncodeDecode(slot: Slot, storage: StorageInDB)
    requires slot.zone < |storage.zones|
    requires Separator !in storage.zones[slot.zone].name
    requires FirstZoneNamed(storage.zones, storage.zones[slot.zone].name) == Some(slot.zone)
    requires slot.Cell? ==> storage.scheme == RowColumn && slot.row <= 32
    requires slot.Index? ==> storage.scheme == Numeric
    requires InRange(slot, storage)
    ensures Decode(Encode(slot, storage), storage) == Some(slot)
    ensures IsValidPosition(Encode(slot, storage), storage)
  {
    var name := storage.zones[slot.zone].name;
    match slot
    case Cell(_, row, column) =>
      var code := [RowLetter(row)] + NatToString(column);
      assert code[1..] == NatToString(column);
      ParsePrintedInt(column);
      SplitPosition(name, code);
    case Index(_, n) =>
      var code := NatToString(n);
      ParsePrintedInt(n);
      SplitPosition(name, code);
  }

  // ---------------------------------------------------------------------------
  // Worked examples

  /** A fridge whose zone "Red" has 6 rows and 8 columns, named row-column. */
  function RedFridge(): StorageInDB
  {
    StorageInDB("s", None, "Fridge", "fridge",
                [Zone("Red", map["rows" := 6, "columns" := 8], None, None)], 48, RowColumn)
  }

  /** A rack whose zone "Rack" has 2 rows and 2 columns, numbered. */
  function SmallRack(): StorageInDB
  {
    StorageInDB("r", None, "Rack", "rack",
                [Zone("Rack", map["rows" := 2, "columns" := 2], None, None)], 4, Numeric)
  }

  lemma RedFridgeLookup(code: string)
    requires Separator !in code
    ensures IsValidPosition("Red" + [Separator] + code, RedFridge()) <==>
      |code| >= 2 && ParseInt(code[1..]).Some? &&
      1 <= RowNumber(code[0]) <= 6 && 1 <= ParseInt(code[1..]).value <= 8
  {
    assert FirstZoneNamed(RedFridge().zones, "Red") == Some(0);
    RowColumnValidIff("Red", code, RedFridge(), 0);
  }

  /** "Red-A3" is in range. */
  lemma RedA3Valid()
    ensures IsValidPosition("Red-A3", RedFridge())
  {
    RedFridgeLookup("A3");
    assert "Red-A3" == "Red" + [Separator] + "A3";
    assert "A3"[1..] == NatToString(3);
    ParsePrintedInt(3);
  }

  /** "Red-G1" is out of range: row G is 7 and the zone has 6 rows. */
  lemma RedG1Invalid()
    ensures !IsValidPosition("Red-G1", RedFridge())
  {
    RedFridgeLookup("G1");
    assert "Red-G1" == "Red" + [Separator] + "G1";
  }

  /** "Red-A9" is out of range: column 9 of 8. */
  lemma RedA9Invalid()
    ensures !IsValidPosition("Red-A9", RedFridge())
  {
    RedFridgeLookup("A9");
    assert "Red-A9" == "Red" + [Separator] + "A9";
    assert "A9"[1..] == NatToString(9);
    ParsePrintedInt(9);
  }

  /** "Red-3A" is malformed: the column part "A" is not an integer. */
  lemma Red3AInvalid()
    ensures !IsValidPosition("Red-3A", RedFridge())
  {
    RedFridgeLookup("3A");
    assert "Red-3A" == "Red" + [Separator] + "3A";
    assert "3A"[1..] == "A" && !IsDigit('A');
  }

  /** "BadZone-A1" names no zone. */
  lemma BadZoneInvalid()
    ensures !IsValidPosition("BadZone-A1", RedFridge())
  {
    UnknownZoneRejects("BadZone", "A1", RedFridge());
    assert "BadZone-A1" == "BadZone" + [Separator] + "A1";
  }

  /** In the 2 x 2 numeric rack, "Rack-n" is valid exactly for n in 1..4. */
  lemma SmallRackLookup(n: nat)
    ensures IsValidPosition("Rack" + [Separator] + NatToString(n), SmallRack()) <==> 1 <= n <= 4
  {
    assert FirstZoneNamed(SmallRack().zones, "Rack") == Some(0);
    NumericValidIff("Rack", NatToString(n), SmallRack(), 0);
    ParsePrintedInt(n);
    RowsColumnsCapacity(SmallRack().zones[0].dimensions, 2, 2);
  }

  /** Numeric zone of 2 x 2: 4 is in, 5 and 0 are out. */
  lemma SmallRackExamples()
    ensures IsValidPosition("Rack-4", SmallRack())
    ensures !IsValidPosition("Rack-5", SmallRack())
    ensures !IsValidPosition("Rack-0", SmallRack())
  {
    SmallRackLookup(4);
    SmallRackLookup(5);
    SmallRackLookup(0);
    assert "Rack-4" == "Rack" + [Separator] + NatToString(4);
    assert "Rack-5" == "Rack" + [Separator] + NatToString(5);
    assert "Rack-0" == "Rack" + [Separator] + NatToString(0);
  }
}
