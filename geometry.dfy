/** Storage geometry: zones with their dimension dictionaries, and the capacity the Python
    layers derive from them (the product of each zone's dimension values, summed over zones). */
module Geometry {
  import opened Wrappers

  /** A zone's `dimensions` dictionary, axis label to extent (for example `rows`, `columns`).
      Extents are arbitrary integers: nothing checks that they are positive. */
  type Dimensions = map<string, int>

  /** `StorageZone`: a named sub-region with its own dimension grid. */
  datatype Zone = Zone(name: string, dimensions: Dimensions, temperature: Option<real>, humidity: Option<real>)

  /** The product of all the values of `dims`, 1 for an empty dictionary.  Which key is taken
      first does not matter (see ProductRemove). */
  ghost function Product(dims: Dimensions): int
    decreases |dims|
  {
    if |dims| == 0 then 1
    else var k :| k in dims; dims[k] * Product(dims - {k})
  }

  /** Removing any one key divides it out of the product: the product is independent of the
      order in which a loop visits the dictionary. */
  lemma {:induction false} ProductRemove(dims: Dimensions, k: string)
    requires k in dims
    ensures Product(dims) == dims[k] * Product(dims - {k})
    decreases |dims|
  {
    var j :| j in dims && Product(dims) == dims[j] * Product(dims - {j});
    if j != k {
      var rest := dims - {j} - {k};
      assert rest == dims - {k} - {j};
      ProductRemove(dims - {j}, k);
      ProductRemove(dims - {k}, j);
      var p := Product(rest);
      assert Product(dims - {j}) == dims[k] * p;
      assert Product(dims - {k}) == dims[j] * p;
      MulSwap(dims[j], dims[k], p);
    }
  }

  lemma MulSwap(a: int, b: int, c: int)
    ensures a * (b * c) == b * (a * c)
  {
  }

  lemma MulAssoc(a: int, b: int, c: int)
    ensures a * b * c == a * (b * c)
  {
  }

  /** The number of positions one zone contributes. */
  ghost function ZoneCapacity(z: Zone): int
  {
    Product(z.dimensions)
  }

  /** `total_positions`: the sum over zones of each zone's dimension product. */
  ghost function TotalPositions(zones: seq<Zone>): (total: int)
    ensures (forall i :: 0 <= i < |zones| ==> ZoneCapacity(zones[i]) >= 0) ==> total >= 0
    ensures |zones| == 1 ==> total == ZoneCapacity(zones[0])
  {
    if zones == [] then 0 else TotalPositions(zones[..|zones| - 1]) + ZoneCapacity(zones[|zones| - 1])
  }

  /** The inner accumulator loop: `positions = 1; for v in dims.values(): positions *= v`. */
  method ZonePositions(dims: Dimensions) returns (positions: int)
    ensures positions == Product(dims)
  {
    positions := 1;
    var remaining := dims;
    while remaining != map[]
      invariant remaining.Keys <= dims.Keys
      invariant forall k :: k in remaining ==> remaining[k] == dims[k]
      invariant positions * Product(remaining) == Product(dims)
      decreases |remaining|
    {
      var k :| k in remaining;
      ProductRemove(remaining, k);
      MulAssoc(positions, remaining[k], Product(remaining - {k}));
      positions := positions * remaining[k];
      remaining := remaining - {k};
    }
  }

  /** The nested accumulator loops that compute `total_positions` (the same code appears in the
      schema, the service, the archived repository and their update paths). */
  method ComputeTotalPositions(zones: seq<Zone>) returns (total: int)
    ensures total == TotalPositions(zones)
  {
    total := 0;
    var i := 0;
    while i < |zones|
      invariant 0 <= i <= |zones|
      invariant total == TotalPositions(zones[..i])
    {
      var positions := ZonePositions(zones[i].dimensions);
      assert zones[..i + 1][..i] == zones[..i];
      total := total + positions;
      i := i + 1;
    }
    assert zones[..|zones|] == zones;
  }

  // ---------------------------------------------------------------------------
  // Properties of the capacity

  /** An empty dimension dictionary contributes exactly one position. */
  lemma EmptyDimensionsGiveOne(z: Zone)
    requires z.dimensions == map[]
    ensures ZoneCapacity(z) == 1
  {
  }

  /** A zero extent anywhere makes its zone contribute nothing. */
  lemma ZeroDimensionGivesZero(z: Zone, axis: string)
    requires axis in z.dimensions && z.dimensions[axis] == 0
    ensures ZoneCapacity(z) == 0
  {
    ProductRemove(z.dimensions, axis);
  }

  /** The usual two-axis zone holds rows times columns positions. */
  lemma RowsColumnsCapacity(dims: Dimensions, rows: int, columns: int)
    requires dims == map["rows" := rows, "columns" := columns]
    ensures Product(dims) == rows * columns
  {
    ProductRemove(dims, "rows");
    var rest := dims - {"rows"};
    assert rest == map["columns" := columns];
    ProductRemove(rest, "columns");
    assert rest - {"columns"} == map[];
  }

  /** Positive extents everywhere give a positive capacity. */
  lemma {:induction false} PositiveDimensionsGivePositive(dims: Dimensions)
    requires forall k :: k in dims ==> dims[k] > 0
    ensures Product(dims) > 0
    decreases |dims|
  {
    if |dims| != 0 {
      var k :| k in dims;
      ProductRemove(dims, k);
      PositiveDimensionsGivePositive(dims - {k});
    }
  }

  /** Capacity is additive over a concatenation of zone lists. */
  lemma {:induction false} TotalPositionsAppend(a: seq<Zone>, b: seq<Zone>)
    ensures TotalPositions(a + b) == TotalPositions(a) + TotalPositions(b)
    decreases |b|
  {
    if b == [] {
      assert a + b == a;
    } else {
      var b' := b[..|b| - 1];
      assert (a + b)[..|a + b| - 1] == a + b';
      TotalPositionsAppend(a, b');
    }
  }

  /** An empty zone list has no positions. */
  lemma NoZonesNoPositions()
    ensures TotalPositions([]) == 0
  {
  }

  /** Worked example: zones of 6 x 8 and 2 x 2 hold 48 + 4 = 52 positions. */
  lemma ExampleCapacity()
    ensures TotalPositions([
      Zone("Red", map["rows" := 6, "columns" := 8], None, None),
      Zone("White", map["rows" := 2, "columns" := 2], None, None)]) == 52
  {
    var red := Zone("Red", map["rows" := 6, "columns" := 8], None, None);
    var white := Zone("White", map["rows" := 2, "columns" := 2], None, None);
    RowsColumnsCapacity(red.dimensions, 6, 8);
    RowsColumnsCapacity(white.dimensions, 2, 2);
    assert [red, white][..1] == [red];
    assert [red][..0] == [];
  }
}
