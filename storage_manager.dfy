/** The web client's storage manager: the slot names it offers for a storage, the capacity it
    computes before saving, and the free-slot filter. */
module StorageManager {
  import opened Wrappers
  import opened Text
  import opened Geometry
  import opened StorageSchema
  import opened Store
  import opened PositionValidator

  /** The client's scheme tags. */
  const SequentialNumbering := "Sequential Numbering"
  const RowColumnTag := "Row-Column"
  const ZonePositionTag := "Zone-Position"

  function Max0(n: int): nat
  {
    if n > 0 then n else 0
  }

  /** `dimensions.<axis> || 1`: a missing or zero extent counts as 1; any other value,
      negative ones included, is kept. */
  function OrOne(dims: Dimensions, axis: string): (v: int)
    ensures v != 0
    ensures v == 1 <==> axis !in dims || dims[axis] == 0 || dims[axis] == 1
    ensures axis in dims && dims[axis] != 0 ==> v == dims[axis]
  {
    if axis in dims && dims[axis] != 0 then dims[axis] else 1
  }

  function Rows(z: Zone): int { OrOne(z.dimensions, "rows") }
  function Columns(z: Zone): int { OrOne(z.dimensions, "columns") }

  /** `String.fromCharCode(n)`: the UTF-16 code unit `n` modulo 2^16.  A lone surrogate code
      unit is not a Dafny `char`; it becomes U+FFFD here. */
  function FromCharCode(n: int): (ch: char)
    ensures 65 <= n <= 90 ==> ch as int == n
  {
    var u := n % 0x1_0000;
    if 0xD800 <= u < 0xE000 then '�' else u as char
  }

  /** The name of slot (`r`, `c`) of `zone` under `scheme`; `columns` is the zone's width. */
  function Label(zone: Zone, scheme: string, r: int, c: int, columns: int): string
  {
    if scheme == SequentialNumbering then IntToString((r - 1) * columns + c)
    else if scheme == RowColumnTag then IntToString(r) + [FromCharCode(64 + c)]
    else if scheme == ZonePositionTag then zone.name + "-" + IntToString(r) + [FromCharCode(64 + c)]
    else zone.name + "-" + IntToString(r) + "-" + IntToString(c)
  }

  /** The names of columns `1..c` of row `r`, left to right. */
  function RowLabels(zone: Zone, scheme: string, r: int, columns: int, c: int): (res: seq<string>)
    ensures |res| == Max0(c)
    decreases c
  {
    if c <= 0 then [] else RowLabels(zone, scheme, r, columns, c - 1) + [Label(zone, scheme, r, c, columns)]
  }

  /** Column `k + 1` of the row is name number `k` of the row. */
  lemma {:induction false} RowLabelsAt(zone: Zone, scheme: string, r: int, columns: int, c: int, k: int)
    requires 0 <= k < c
    ensures RowLabels(zone, scheme, r, columns, c)[k] == Label(zone, scheme, r, k + 1, columns)
    decreases c
  {
    if k < c - 1 {
      RowLabelsAt(zone, scheme, r, columns, c - 1, k);
    }
  }

  /** The names of rows `1..r` of a zone `columns` wide, row by row. */
  function ZoneLabels(zone: Zone, scheme: string, columns: int, r: int): seq<string>
    decreases r
  {
    if r <= 0 then [] else ZoneLabels(zone, scheme, columns, r - 1) + RowLabels(zone, scheme, r, columns, columns)
  }

  /** A zone yields `rows * columns` names (none if either is not positive). */
  lemma {:induction false} ZoneLabelsLength(zone: Zone, scheme: string, columns: int, r: int)
    ensures |ZoneLabels(zone, scheme, columns, r)| == Max0(r) * Max0(columns)
    decreases r
  {
    if r > 0 {
      ZoneLabelsLength(zone, scheme, columns, r - 1);
      MulStep(r - 1, Max0(columns));
    }
  }

  lemma MulStep(n: nat, m: nat)
    ensures n * m + m == (n + 1) * m
  {
  }

  lemma MulMono(a: int, b: int, c: nat)
    requires a <= b
    ensures a * c <= b * c
  {
  }

  lemma MulNonneg(a: nat, b: nat)
    ensures 0 <= a * b
  {
  }

  /** Every zone's names in zone order. */
  function ZonesLabels(zones: seq<Zone>, scheme: string): seq<string>
  {
    if zones == [] then []
    else
      var z := zones[|zones| - 1];
      ZonesLabels(zones[..|zones| - 1], scheme) + ZoneLabels(z, scheme, Columns(z), Rows(z))
  }

  /** `"Position 1"` .. `"Position n"`. */
  function Fallback(n: int): (res: seq<string>)
    ensures |res| == Max0(n)
    ensures forall k :: 0 <= k < |res| ==> res[k] == "Position " + IntToString(k + 1)
    decreases n
  {
    if n <= 0 then [] else Fallback(n - 1) + ["Position " + IntToString(n)]
  }

  /** What `generatePositions` returns. */
  function GeneratedPositions(storage: StorageInDB): (names: seq<string>)
    ensures storage.zones == [] ==> |names| == Max0(storage.totalPositions)
  {
    if |storage.zones| > 0 then ZonesLabels(storage.zones, storage.scheme)
    else Fallback(storage.totalPositions)
  }

  /** What `calculateTotalPositions` returns: the sum of `(rows||1) * (columns||1)`. */
  function ClientTotal(zones: seq<Zone>): (total: int)
    ensures (forall i :: 0 <= i < |zones| ==> Rows(zones[i]) > 0 && Columns(zones[i]) > 0) ==> total >= |zones|
  {
    if zones == [] then 0
    else ClientTotal(zones[..|zones| - 1]) + Rows(zones[|zones| - 1]) * Columns(zones[|zones| - 1])
  }

  // ---------------------------------------------------------------------------
  // Properties of the generated names

  /** Row-major order: slot (`i`, `j`) of a zone is name number `(i-1)*columns + j`. */
  lemma {:induction false} ZoneLabelsAt(zone: Zone, scheme: string, columns: int, rows: int, i: int, j: int)
    requires 1 <= i <= rows && 1 <= j <= columns
    ensures 0 <= (i - 1) * columns + j - 1 < |ZoneLabels(zone, scheme, columns, rows)|
    ensures ZoneLabels(zone, scheme, columns, rows)[(i - 1) * columns + j - 1] == Label(zone, scheme, i, j, columns)
    decreases rows
  {
    var prev := ZoneLabels(zone, scheme, columns, rows - 1);
    var row := RowLabels(zone, scheme, rows, columns, columns);
    assert ZoneLabels(zone, scheme, columns, rows) == prev + row;
    MulNonneg(i - 1, columns);
    ZoneLabelsLength(zone, scheme, columns, rows - 1);
    assert |prev| == (rows - 1) * columns;
    if i == rows {
      RowLabelsAt(zone, scheme, rows, columns, columns, j - 1);
    } else {
      ZoneLabelsAt(zone, scheme, columns, rows - 1, i, j);
    }
  }

  /** `k` is name number `k + 1`: its row and column. */
  lemma RowMajorIndex(k: int, rows: int, columns: int) returns (i: int, j: int)
    requires columns >= 1 && 0 <= k < rows * columns
    ensures 1 <= i <= rows && 1 <= j <= columns
    ensures k == (i - 1) * columns + j - 1
  {
    i := k / columns + 1;
    j := k % columns + 1;
    if i > rows {
      MulMono(rows, i - 1, columns);
    }
  }

  /** Under `Sequential Numbering` a zone's names are `"1"`, `"2"`, ... in order. */
  lemma SequentialZoneCountsFromOne(zone: Zone, columns: int, rows: int, k: int)
    requires columns >= 1 && rows >= 1
    requires 0 <= k < rows * columns
    ensures k < |ZoneLabels(zone, SequentialNumbering, columns, rows)|
    ensures ZoneLabels(zone, SequentialNumbering, columns, rows)[k] == IntToString(k + 1)
  {
    var i, j := RowMajorIndex(k, rows, columns);
    ZoneLabelsAt(zone, SequentialNumbering, columns, rows, i, j);
  }

  /** ... and they restart in every zone: two one-slot zones both offer `"1"`. */
  lemma SequentialNamesRestartPerZone()
    ensures var storage := StorageInDB("s", None, "Cellar", "cellar",
        [Zone("A", map[], None, None), Zone("B", map[], None, None)], 2, SequentialNumbering);
      GeneratedPositions(storage) == ["1", "1"]
  {
    var zones := [Zone("A", map[], None, None), Zone("B", map[], None, None)];
    assert zones[..1] == [zones[0]];
    assert zones[..1][..0] == [];
    assert IntToString(1) == "1";
    forall z | z in zones
      ensures ZoneLabels(z, SequentialNumbering, Columns(z), Rows(z)) == ["1"]
    {
      assert Rows(z) == 1 && Columns(z) == 1;
      assert Label(z, SequentialNumbering, 1, 1, 1) == "1";
      assert RowLabels(z, SequentialNumbering, 1, 1, 1) == ["1"];
      assert ZoneLabels(z, SequentialNumbering, 1, 0) == [];
    }
    assert ZonesLabels(zones[..1], SequentialNumbering) == ZonesLabels([], SequentialNumbering) + ["1"];
    assert ZonesLabels(zones, SequentialNumbering) == ZonesLabels(zones[..1], SequentialNumbering) + ["1"];
  }

  /** For a storage with zones whose extents are not negative, one name is generated per
      counted slot. */
  lemma {:induction false} GeneratedCountIsClientTotal(zones: seq<Zone>, scheme: string)
    requires forall i :: 0 <= i < |zones| ==> Rows(zones[i]) > 0 && Columns(zones[i]) > 0
    ensures |ZonesLabels(zones, scheme)| == ClientTotal(zones)
  {
    if zones != [] {
      var init := zones[..|zones| - 1];
      var z := zones[|zones| - 1];
      assert forall i :: 0 <= i < |init| ==> init[i] == zones[i];
      GeneratedCountIsClientTotal(init, scheme);
      ZoneLabelsLength(z, scheme, Columns(z), Rows(z));
    }
  }

  /** A negative extent makes the two disagree: `rows = columns = -1` counts one slot and
      names none. */
  lemma NegativeExtentsMiscount()
    ensures var zones := [Zone("Z", map["rows" := -1, "columns" := -1], None, None)];
      ClientTotal(zones) == 1 && ZonesLabels(zones, RowColumnTag) == []
  {
    var zones := [Zone("Z", map["rows" := -1, "columns" := -1], None, None)];
    assert zones[..0] == [];
  }

  /** With no zones, one `"Position i"` per stored slot. */
  lemma FallbackNames(storage: StorageInDB, k: int)
    requires storage.zones == [] && 0 <= k < storage.totalPositions
    ensures k < |GeneratedPositions(storage)|
    ensures GeneratedPositions(storage)[k] == "Position " + IntToString(k + 1)
  {
  }

  /** The client's total agrees with the server's for zones that have exactly a non-zero
      `rows` and `columns`. */
  lemma {:induction false} ClientTotalMatchesServer(zones: seq<Zone>)
    requires forall i :: 0 <= i < |zones| ==>
      zones[i].dimensions.Keys == {"rows", "columns"} &&
      zones[i].dimensions["rows"] != 0 && zones[i].dimensions["columns"] != 0
    ensures ClientTotal(zones) == TotalPositions(zones)
  {
    if zones != [] {
      var init := zones[..|zones| - 1];
      var z := zones[|zones| - 1];
      assert forall i :: 0 <= i < |init| ==> init[i] == zones[i];
      ClientTotalMatchesServer(init);
      var d := z.dimensions;
      assert d == map["rows" := d["rows"], "columns" := d["columns"]];
      RowsColumnsCapacity(d, d["rows"], d["columns"]);
    }
  }

  /** It disagrees otherwise: a zero extent counts as 1 on the client and 0 on the server, ... */
  lemma ZeroExtentDiverges()
    ensures var flat := [Zone("Z", map["rows" := 0, "columns" := 5], None, None)];
      ClientTotal(flat) == 5 && TotalPositions(flat) == 0
  {
    var flat := [Zone("Z", map["rows" := 0, "columns" := 5], None, None)];
    assert flat[..0] == [];
    RowsColumnsCapacity(flat[0].dimensions, 0, 5);
  }

  /** ... and a third axis counts on the server only. */
  lemma ExtraAxisDiverges()
    ensures var deep := [Zone("Z", map["rows" := 2, "columns" := 3, "depth" := 2], None, None)];
      ClientTotal(deep) == 6 && TotalPositions(deep) == 12
  {
    var deep := [Zone("Z", map["rows" := 2, "columns" := 3, "depth" := 2], None, None)];
    assert deep[..0] == [];
    var d := deep[0].dimensions;
    ProductRemove(d, "depth");
    assert d - {"depth"} == map["rows" := 2, "columns" := 3];
    RowsColumnsCapacity(d - {"depth"}, 2, 3);
  }

  /** A name the validator turns down for `storage`: non-empty, and either the storage's
      scheme is a client tag, or the name has two or more `-`, or the storage has no zones. */
  predicate Unvalidatable(p: string, storage: StorageInDB)
  {
    p != "" &&
    (storage.scheme in {SequentialNumbering, RowColumnTag, ZonePositionTag} ||
     Count(p, Separator) >= 2 || storage.zones == [])
  }

  lemma UnvalidatableRejected(p: string, storage: StorageInDB)
    requires Unvalidatable(p, storage)
    ensures !IsValidPosition(p, storage)
  {
    if storage.scheme in {SequentialNumbering, RowColumnTag, ZonePositionTag} {
      OtherSchemeRejects(p, storage);
    } else if Count(p, Separator) >= 2 {
      SeparatorCountRejects(p, storage);
    }
  }

  lemma LabelUnvalidatable(zone: Zone, r: int, c: int, columns: int, storage: StorageInDB)
    ensures Unvalidatable(Label(zone, storage.scheme, r, c, columns), storage)
  {
    var scheme := storage.scheme;
    if scheme !in {SequentialNumbering, RowColumnTag, ZonePositionTag} {
      var a := IntToString(r);
      var b := IntToString(c);
      CountAppend(zone.name + "-" + a + "-", b, Separator);
      CountAppend(zone.name + "-" + a, "-", Separator);
      CountAppend(zone.name + "-", a, Separator);
      CountAppend(zone.name, "-", Separator);
    }
  }

  lemma {:induction false} ZoneLabelsUnvalidatable(zone: Zone, columns: int, r: int, storage: StorageInDB)
    ensures forall p :: p in ZoneLabels(zone, storage.scheme, columns, r) ==> Unvalidatable(p, storage)
    decreases r
  {
    if r > 0 {
      ZoneLabelsUnvalidatable(zone, columns, r - 1, storage);
      var row := RowLabels(zone, storage.scheme, r, columns, columns);
      forall k | 0 <= k < |row| ensures Unvalidatable(row[k], storage) {
        RowLabelsAt(zone, storage.scheme, r, columns, columns, k);
        LabelUnvalidatable(zone, r, k + 1, columns, storage);
      }
    }
  }

  lemma {:induction false} ZonesLabelsUnvalidatable(zones: seq<Zone>, storage: StorageInDB)
    ensures forall p :: p in ZonesLabels(zones, storage.scheme) ==> Unvalidatable(p, storage)
  {
    if zones != [] {
      var z := zones[|zones| - 1];
      ZonesLabelsUnvalidatable(zones[..|zones| - 1], storage);
      ZoneLabelsUnvalidatable(z, Columns(z), Rows(z), storage);
    }
  }

  /** No name the client offers for a storage passes the server's position validator for
      that same storage: the client's scheme tags are not the validator's, the client's
      default format has two `-`, and the no-zone names match no zone. */
  lemma GeneratedNamesNeverValidate(storage: StorageInDB, p: string)
    requires p in GeneratedPositions(storage)
    ensures !IsValidPosition(p, storage)
  {
    if |storage.zones| > 0 {
      ZonesLabelsUnvalidatable(storage.zones, storage);
    } else {
      var k :| 0 <= k < |GeneratedPositions(storage)| && GeneratedPositions(storage)[k] == p;
      assert p[0] == 'P';
    }
    UnvalidatableRejected(p, storage);
  }

  // ---------------------------------------------------------------------------
  // Free slots

  /** Some wine of the storage sits at `p` (the `Set` of occupied positions). */
  predicate Held(p: string, wines: seq<Wine>, storageId: string)
  {
    exists i :: 0 <= i < |wines| && wines[i].storageId == Some(storageId) && wines[i].position == Some(p)
  }

  /** The filtering step of `getAvailablePositions`: the names in order, minus the held ones. */
  function Available(all: seq<string>, wines: seq<Wine>, storageId: string): (r: seq<string>)
    ensures forall p :: p in r <==> p in all && !Held(p, wines, storageId)
    ensures |r| <= |all|
  {
    if all == [] then []
    else
      var rest := Available(all[1..], wines, storageId);
      assert forall p :: p in all <==> p == all[0] || p in all[1..];
      if Held(all[0], wines, storageId) then rest else [all[0]] + rest
  }

  /** The filter works name by name, so it keeps the order of what it keeps: filtering a
      concatenation is concatenating the filtered parts. */
  lemma {:induction false} AvailableDistributes(a: seq<string>, b: seq<string>, wines: seq<Wine>, storageId: string)
    ensures Available(a + b, wines, storageId) == Available(a, wines, storageId) + Available(b, wines, storageId)
  {
    if a == [] {
      assert a + b == b;
    } else {
      assert (a + b)[0] == a[0];
      assert (a + b)[1..] == a[1..] + b;
      AvailableDistributes(a[1..], b, wines, storageId);
    }
  }

  // ---------------------------------------------------------------------------
  // The client's operations

  /** The inner loop of `generatePositions`: pushes the names of row `r`. */
  method PushRow(positions: seq<string>, zone: Zone, scheme: string, r: int, columns: int)
    returns (out: seq<string>)
    ensures out == positions + RowLabels(zone, scheme, r, columns, columns)
  {
    out := positions;
    var c := 1;
    while c <= columns
      invariant 1 <= c && c - 1 <= Max0(columns)
      invariant out == positions + RowLabels(zone, scheme, r, columns, c - 1)
    {
      out := out + [Label(zone, scheme, r, c, columns)];
      c := c + 1;
    }
  }

  /** The row loop of `generatePositions`: pushes the names of one zone. */
  method PushZone(positions: seq<string>, zone: Zone, scheme: string, rows: int, columns: int)
    returns (out: seq<string>)
    ensures out == positions + ZoneLabels(zone, scheme, columns, rows)
  {
    out := positions;
    var r := 1;
    while r <= rows
      invariant 1 <= r && r - 1 <= Max0(rows)
      invariant out == positions + ZoneLabels(zone, scheme, columns, r - 1)
    {
      ghost var done := ZoneLabels(zone, scheme, columns, r - 1);
      ghost var row := RowLabels(zone, scheme, r, columns, columns);
      assert ZoneLabels(zone, scheme, columns, r) == done + row;
      assert (positions + done) + row == positions + (done + row);
      out := PushRow(out, zone, scheme, r, columns);
      r := r + 1;
    }
  }

  /** `generatePositions(storage)`: one name per slot, zone by zone, or the numbered
      fallback when the storage has no zones. */
  method GeneratePositions(storage: StorageInDB) returns (positions: seq<string>)
    ensures positions == GeneratedPositions(storage)
  {
    positions := [];
    var scheme := storage.scheme;
    var zones := storage.zones;
    if |zones| > 0 {
      var z := 0;
      while z < |zones|
        invariant 0 <= z <= |zones|
        invariant positions == ZonesLabels(zones[..z], scheme)
      {
        assert zones[..z + 1][..z] == zones[..z];
        positions := PushZone(positions, zones[z], scheme, Rows(zones[z]), Columns(zones[z]));
        z := z + 1;
      }
      assert zones[..z] == zones;
    } else {
      var i := 1;
      while i <= storage.totalPositions
        invariant 1 <= i && i - 1 <= Max0(storage.totalPositions)
        invariant positions == Fallback(i - 1)
      {
        positions := positions + ["Position " + IntToString(i)];
        i := i + 1;
      }
    }
  }

  /** `calculateTotalPositions(storage)`: the `total +=` loop over zones. */
  method CalculateTotalPositions(zones: seq<Zone>) returns (total: int)
    ensures total == ClientTotal(zones)
  {
    total := 0;
    var z := 0;
    while z < |zones|
      invariant 0 <= z <= |zones|
      invariant total == ClientTotal(zones[..z])
    {
      assert zones[..z + 1][..z] == zones[..z];
      total := total + Rows(zones[z]) * Columns(zones[z]);
      z := z + 1;
    }
    assert zones[..z] == zones;
  }

  /** `getAvailablePositions(storageId)` once both requests have answered; a failed request
      (`None`) ends in the `catch`, which returns `[]`. */
  method GetAvailablePositions(storageId: string, storage: Option<StorageInDB>, wines: Option<seq<Wine>>)
    returns (available: seq<string>)
    ensures storage.None? || wines.None? ==> available == []
    ensures storage.Some? && wines.Some? ==>
      available == Available(GeneratedPositions(storage.value), wines.value, storageId)
  {
    if storage.None? || wines.None? {
      return [];
    }
    var all := GeneratePositions(storage.value);
    available := Available(all, wines.value, storageId);
  }

  /** The form object `createStorage` and `updateStorage` receive and send on. */
  class StorageForm {
    var name: string
    var kind: string
    var zones: seq<Zone>
    var scheme: string
    var totalPositions: int

    constructor (name: string, kind: string, zones: seq<Zone>, scheme: string, totalPositions: int)
      ensures this.name == name && this.kind == kind && this.zones == zones
      ensures this.scheme == scheme && this.totalPositions == totalPositions
    {
      this.name := name;
      this.kind := kind;
      this.zones := zones;
      this.scheme := scheme;
      this.totalPositions := totalPositions;
    }

    /** `storageData.total_positions = calculateTotalPositions(storageData)`, the step
        `createStorage` and `updateStorage` take before sending the form. */
    method StampTotalPositions()
      modifies this
      ensures totalPositions == ClientTotal(zones)
      ensures name == old(name) && kind == old(kind) && zones == old(zones) && scheme == old(scheme)
    {
      totalPositions := CalculateTotalPositions(zones);
    }
  }
}
