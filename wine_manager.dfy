/** The web client's wine-list helpers: search and filters, the filter drop-down options,
    sorting, and attaching storage names. */
module WineManager {
  import opened Wrappers
  import opened Text
  import opened StorageSchema

  /** A wine as the client holds it; any field may be missing.  `addedDate` is the
      `getTime()` of `added_date`, an abstract timestamp. */
  datatype JsWine = JsWine(
    id: string,
    name: Option<string>,
    producer: Option<string>,
    region: Option<string>,
    country: Option<string>,
    vintage: Option<int>,
    kind: Option<string>,
    storageId: Option<string>,
    addedDate: int)

  /** The filter form; an unset or empty field does not filter. */
  datatype Filters = Filters(search: Option<string>, kind: Option<string>, country: Option<string>, storage: Option<string>)

  const NoFilters := Filters(None, None, None, None)

  // ---------------------------------------------------------------------------
  // filterWines

  /** `field && field.toLowerCase().includes(term)` */
  predicate FieldMatches(field: Option<string>, term: string)
  {
    Truthy(field) && Contains(LowerStr(field.value), term)
  }

  /** The text search: the lowercased term inside the lowercased name, producer, region or
      country, or inside a non-zero vintage written in decimal. */
  predicate SearchMatches(w: JsWine, term: string)
  {
    FieldMatches(w.name, term) || FieldMatches(w.producer, term) ||
    FieldMatches(w.region, term) || FieldMatches(w.country, term) ||
    (w.vintage.Some? && w.vintage.value != 0 && Contains(IntToString(w.vintage.value), term))
  }

  /** The callback `filterWines` passes to `Array.prototype.filter`. */
  predicate Keeps(w: JsWine, f: Filters)
  {
    (Truthy(f.search) ==> SearchMatches(w, LowerStr(f.search.value))) &&
    (Truthy(f.kind) ==> w.kind == f.kind) &&
    (Truthy(f.country) ==> w.country == f.country) &&
    (Truthy(f.storage) ==> w.storageId == f.storage)
  }

  /** `filterWines(wines, filters)`. */
  function FilterWines(wines: seq<JsWine>, f: Filters): (r: seq<JsWine>)
    ensures forall w :: w in r <==> w in wines && Keeps(w, f)
    ensures |r| <= |wines|
  {
    if wines == [] then []
    else
      var rest := FilterWines(wines[1..], f);
      assert forall w :: w in wines <==> w == wines[0] || w in wines[1..];
      if Keeps(wines[0], f) then [wines[0]] + rest else rest
  }

  /** The filter keeps the order of what it keeps: filtering a concatenation concatenates
      the filtered parts. */
  lemma {:induction false} FilterDistributes(a: seq<JsWine>, b: seq<JsWine>, f: Filters)
    ensures FilterWines(a + b, f) == FilterWines(a, f) + FilterWines(b, f)
  {
    if a == [] {
      assert a + b == b;
    } else {
      assert (a + b)[0] == a[0];
      assert (a + b)[1..] == a[1..] + b;
      FilterDistributes(a[1..], b, f);
    }
  }

  /** Filtering twice is filtering once. */
  lemma {:induction false} FilterIdempotent(wines: seq<JsWine>, f: Filters)
    ensures FilterWines(FilterWines(wines, f), f) == FilterWines(wines, f)
  {
    if wines != [] {
      FilterIdempotent(wines[1..], f);
    }
  }

  /** With no criterion set the list comes back whole. */
  lemma {:induction false} NoFiltersKeepAll(wines: seq<JsWine>)
    ensures FilterWines(wines, NoFilters) == wines
  {
    if wines != [] {
      NoFiltersKeepAll(wines[1..]);
    }
  }

  lemma {:induction false} LowerStrIdempotent(s: string)
    ensures LowerStr(LowerStr(s)) == LowerStr(s)
  {
  }

  /** The search ignores the case of ASCII letters in the term. */
  lemma SearchIgnoresTermCase(w: JsWine, f: Filters, term: string)
    ensures Keeps(w, f.(search := Some(term))) == Keeps(w, f.(search := Some(LowerStr(term))))
  {
    LowerStrIdempotent(term);
  }

  // ---------------------------------------------------------------------------
  // extractFilterOptions

  datatype FilterOptions = FilterOptions(countries: seq<string>, regions: seq<string>, types: seq<string>)

  /** The fixed `types` list, with its third entry spelled as the file has it. */
  const WineTypes: seq<string> := ["Red", "White", "Ros\U{C3}\U{A9}", "Sparkling", "Dessert"]

  /** Ascending with no repeats. */
  predicate StrictlySorted(s: seq<string>)
  {
    forall i, j :: 0 <= i < j < |s| ==> LexLess(s[i], s[j])
  }

  /** Adds `x` to a sorted list of distinct strings, keeping it so (a `Set` add followed by
      the final sort). */
  function InsertSorted(s: seq<string>, x: string): (r: seq<string>)
    requires StrictlySorted(s)
    ensures StrictlySorted(r)
    ensures forall y :: y in r <==> y in s || y == x
  {
    if s == [] then [x]
    else if x == s[0] then s
    else if LexLess(x, s[0]) then
      assert forall j :: 0 <= j < |s| ==> LexLess(x, s[j]) by {
        forall j | 0 <= j < |s| ensures LexLess(x, s[j]) {
          if j > 0 { LexTransitive(x, s[0], s[j]); }
        }
      }
      [x] + s
    else
      LexTotal(x, s[0]);
      var rest := InsertSorted(s[1..], x);
      assert forall y :: y in s <==> y == s[0] || y in s[1..];
      assert forall j :: 0 <= j < |rest| ==> LexLess(s[0], rest[j]) by {
        forall j | 0 <= j < |rest| ensures LexLess(s[0], rest[j]) {
          assert rest[j] in rest;
          if rest[j] != x {
            assert rest[j] in s[1..];
            var k :| 0 <= k < |s[1..]| && s[1..][k] == rest[j];
            assert s[k + 1] == rest[j];
          }
        }
      }
      [s[0]] + rest
  }

  /** `field` holds a truthy value equal to `v` in some wine. */
  predicate SomeWineHas(wines: seq<JsWine>, country: bool, v: string)
  {
    exists i :: 0 <= i < |wines| && (if country then wines[i].country else wines[i].region) == Some(v) && v != ""
  }

  /** `extractFilterOptions(wines)`: the distinct truthy countries and regions, sorted, and
      the fixed type list. */
  method ExtractFilterOptions(wines: seq<JsWine>) returns (options: FilterOptions)
    ensures StrictlySorted(options.countries) && StrictlySorted(options.regions)
    ensures forall c :: c in options.countries <==> SomeWineHas(wines, true, c)
    ensures forall r :: r in options.regions <==> SomeWineHas(wines, false, r)
    ensures options.types == WineTypes
  {
    var countries: seq<string> := [];
    var regions: seq<string> := [];
    var i := 0;
    while i < |wines|
      invariant 0 <= i <= |wines|
      invariant StrictlySorted(countries) && StrictlySorted(regions)
      invariant forall c :: c in countries <==> SomeWineHas(wines[..i], true, c)
      invariant forall r :: r in regions <==> SomeWineHas(wines[..i], false, r)
    {
      var w := wines[i];
      assert forall j :: 0 <= j < i ==> wines[..i + 1][j] == wines[..i][j];
      assert wines[..i + 1][i] == w;
      if Truthy(w.country) {
        countries := InsertSorted(countries, w.country.value);
      }
      if Truthy(w.region) {
        regions := InsertSorted(regions, w.region.value);
      }
      assert forall c :: SomeWineHas(wines[..i + 1], true, c) <==>
        SomeWineHas(wines[..i], true, c) || (w.country == Some(c) && c != "");
      assert forall r :: SomeWineHas(wines[..i + 1], false, r) <==>
        SomeWineHas(wines[..i], false, r) || (w.region == Some(r) && r != "");
      i := i + 1;
    }
    assert wines[..i] == wines;
    options := FilterOptions(countries, regions, WineTypes);
  }

  // ---------------------------------------------------------------------------
  // sortWines

  /** The compared value: a number or a string. */
  datatype SortKey = NumKey(n: int) | StrKey(s: string)

  /** `'date'`, `'vintage'`, or anything else (by name). */
  function KeyOf(w: JsWine, sortBy: string): SortKey
  {
    if sortBy == "date" then NumKey(w.addedDate)
    else if sortBy == "vintage" then NumKey(if w.vintage.Some? then w.vintage.value else 0)
    else StrKey(if w.name.Some? then w.name.value else "")
  }

  /** JavaScript `<` on two keys of the same kind. */
  predicate KeyLess(a: SortKey, b: SortKey)
  {
    match (a, b)
    case (NumKey(x), NumKey(y)) => x < y
    case (StrKey(x), StrKey(y)) => LexLess(x, y)
    case _ => false
  }

  /** The comparator returns a negative number for (`a`, `b`). */
  predicate Before(a: JsWine, b: JsWine, sortBy: string, ascending: bool)
  {
    if ascending then KeyLess(KeyOf(a, sortBy), KeyOf(b, sortBy))
    else KeyLess(KeyOf(b, sortBy), KeyOf(a, sortBy))
  }

  lemma BeforeTransitive(a: JsWine, b: JsWine, c: JsWine, sortBy: string, ascending: bool)
    requires Before(a, b, sortBy, ascending) && Before(b, c, sortBy, ascending)
    ensures Before(a, c, sortBy, ascending)
  {
    var ka, kb, kc := KeyOf(a, sortBy), KeyOf(b, sortBy), KeyOf(c, sortBy);
    if ka.StrKey? && kb.StrKey? && kc.StrKey? {
      if ascending { LexTransitive(ka.s, kb.s, kc.s); } else { LexTransitive(kc.s, kb.s, ka.s); }
    }
  }

  lemma BeforeAsymmetric(a: JsWine, b: JsWine, sortBy: string, ascending: bool)
    requires Before(a, b, sortBy, ascending)
    ensures !Before(b, a, sortBy, ascending)
  {
    var ka, kb := KeyOf(a, sortBy), KeyOf(b, sortBy);
    if ka.StrKey? && kb.StrKey? {
      if ascending { LexAsymmetric(ka.s, kb.s); } else { LexAsymmetric(kb.s, ka.s); }
    }
  }

  /** No later wine belongs before an earlier one. */
  predicate SortedBy(s: seq<JsWine>, sortBy: string, ascending: bool)
  {
    forall i, j :: 0 <= i < j < |s| ==> !Before(s[j], s[i], sortBy, ascending)
  }

  /** Places `x` before the first wine it belongs before, after all the others. */
  function InsertWine(s: seq<JsWine>, x: JsWine, sortBy: string, ascending: bool): (r: seq<JsWine>)
    requires SortedBy(s, sortBy, ascending)
    ensures SortedBy(r, sortBy, ascending)
    ensures multiset(r) == multiset(s) + multiset{x}
  {
    if s == [] then [x]
    else if Before(x, s[0], sortBy, ascending) then
      NothingBeforeSmaller(s, x, sortBy, ascending);
      SortedPrepend(x, s, sortBy, ascending);
      [x] + s
    else
      var rest := InsertWine(s[1..], x, sortBy, ascending);
      assert s == [s[0]] + s[1..];
      NothingBeforeHead(s, x, rest, sortBy, ascending);
      SortedPrepend(s[0], rest, sortBy, ascending);
      [s[0]] + rest
  }

  lemma SortedPrepend(y: JsWine, s: seq<JsWine>, sortBy: string, ascending: bool)
    requires SortedBy(s, sortBy, ascending)
    requires forall j :: 0 <= j < |s| ==> !Before(s[j], y, sortBy, ascending)
    ensures SortedBy([y] + s, sortBy, ascending)
  {
    var t := [y] + s;
    forall i, j | 0 <= i < j < |t| ensures !Before(t[j], t[i], sortBy, ascending) {
      assert t[j] == s[j - 1];
      if i > 0 { assert t[i] == s[i - 1]; }
    }
  }

  lemma NothingBeforeSmaller(s: seq<JsWine>, x: JsWine, sortBy: string, ascending: bool)
    requires SortedBy(s, sortBy, ascending) && s != [] && Before(x, s[0], sortBy, ascending)
    ensures forall j :: 0 <= j < |s| ==> !Before(s[j], x, sortBy, ascending)
  {
    forall j | 0 <= j < |s| ensures !Before(s[j], x, sortBy, ascending) {
      if Before(s[j], x, sortBy, ascending) {
        BeforeTransitive(s[j], x, s[0], sortBy, ascending);
        if j == 0 { BeforeAsymmetric(s[0], s[0], sortBy, ascending); }
      }
    }
  }

  lemma NothingBeforeHead(s: seq<JsWine>, x: JsWine, rest: seq<JsWine>, sortBy: string, ascending: bool)
    requires SortedBy(s, sortBy, ascending) && s != [] && !Before(x, s[0], sortBy, ascending)
    requires multiset(rest) == multiset(s[1..]) + multiset{x}
    ensures forall j :: 0 <= j < |rest| ==> !Before(rest[j], s[0], sortBy, ascending)
  {
    forall j | 0 <= j < |rest| ensures !Before(rest[j], s[0], sortBy, ascending) {
      assert rest[j] in multiset(rest);
      if rest[j] != x {
        assert rest[j] in multiset(s[1..]);
        var k :| 0 <= k < |s[1..]| && s[1..][k] == rest[j];
        assert s[k + 1] == rest[j];
      }
    }
  }

  /** `sortWines(wines, sortBy, ascending)`: sorts a copy (the input list is a value here and
      stays as it was) into a reordering of the input with no inversion. */
  method SortWines(wines: seq<JsWine>, sortBy: string, ascending: bool) returns (sorted: seq<JsWine>)
    ensures multiset(sorted) == multiset(wines)
    ensures SortedBy(sorted, sortBy, ascending)
  {
    sorted := [];
    var i := 0;
    while i < |wines|
      invariant 0 <= i <= |wines|
      invariant multiset(sorted) == multiset(wines[..i])
      invariant SortedBy(sorted, sortBy, ascending)
    {
      assert wines[..i + 1] == wines[..i] + [wines[i]];
      assert multiset(wines[..i + 1]) == multiset(wines[..i]) + multiset{wines[i]};
      sorted := InsertWine(sorted, wines[i], sortBy, ascending);
      i := i + 1;
    }
    assert wines[..i] == wines;
  }

  /** Sorted by vintage ascending, a wine without a vintage ranks with vintage 0, before
      every positive vintage. */
  lemma MissingVintageSortsAsZero(s: seq<JsWine>, i: nat, j: nat)
    requires SortedBy(s, "vintage", true)
    requires i < |s| && j < |s|
    requires s[i].vintage.None? && s[j].vintage.Some? && s[j].vintage.value > 0
    ensures i < j
  {
  }

  // ---------------------------------------------------------------------------
  // matchStorageNames

  /** A wine with the `storage_name` the client attaches. */
  datatype NamedWine = NamedWine(wine: JsWine, storageName: string)

  const UnknownStorage := "Unknown Storage"

  /** The `storageMap` object after the `forEach`: each id maps to the name of the last
      storage carrying it. */
  function NameMap(storages: seq<StorageInDB>): (m: map<string, string>)
    ensures forall id :: id in m <==> exists i :: 0 <= i < |storages| && storages[i].id == id
  {
    if storages == [] then map[]
    else
      var s := storages[|storages| - 1];
      var init := storages[..|storages| - 1];
      assert forall i :: 0 <= i < |init| ==> init[i] == storages[i];
      NameMap(init)[s.id := s.name]
  }

  /** The map holds, for each id, the name of the last storage with that id. */
  lemma {:induction false} NameMapIsLast(storages: seq<StorageInDB>, k: nat)
    requires k < |storages|
    requires forall j :: k < j < |storages| ==> storages[j].id != storages[k].id
    ensures storages[k].id in NameMap(storages) && NameMap(storages)[storages[k].id] == storages[k].name
  {
    var n := |storages| - 1;
    if k < n {
      var init := storages[..n];
      assert forall i :: 0 <= i < |init| ==> init[i] == storages[i];
      NameMapIsLast(init, k);
    }
  }

  /** The lookup key: a missing `storage_id` is coerced to the key `"undefined"`. */
  function LookupKey(w: JsWine): string
  {
    if w.storageId.Some? then w.storageId.value else "undefined"
  }

  /** `storageMap[wine.storage_id] || 'Unknown Storage'` */
  function StorageNameFor(m: map<string, string>, w: JsWine): (name: string)
    ensures name != ""
    ensures LookupKey(w) in m && m[LookupKey(w)] != "" ==> name == m[LookupKey(w)]
    ensures name == UnknownStorage <== LookupKey(w) !in m || m[LookupKey(w)] == ""
  {
    var key := LookupKey(w);
    if key in m && m[key] != "" then m[key] else UnknownStorage
  }

  /** `matchStorageNames(wines, storages)`: the same wines, in order, each with the name of
      the last storage with its id, or `Unknown Storage`. */
  method MatchStorageNames(wines: seq<JsWine>, storages: seq<StorageInDB>) returns (named: seq<NamedWine>)
    ensures |named| == |wines|
    ensures forall i :: 0 <= i < |wines| ==>
      named[i].wine == wines[i] && named[i].storageName == StorageNameFor(NameMap(storages), wines[i])
  {
    var storageMap: map<string, string> := map[];
    var k := 0;
    while k < |storages|
      invariant 0 <= k <= |storages|
      invariant storageMap == NameMap(storages[..k])
    {
      assert storages[..k + 1][..k] == storages[..k];
      storageMap := storageMap[storages[k].id := storages[k].name];
      k := k + 1;
    }
    assert storages[..k] == storages;
    named := [];
    var i := 0;
    while i < |wines|
      invariant 0 <= i <= |wines|
      invariant |named| == i
      invariant forall j :: 0 <= j < i ==>
        named[j].wine == wines[j] && named[j].storageName == StorageNameFor(storageMap, wines[j])
    {
      named := named + [NamedWine(wines[i], StorageNameFor(storageMap, wines[i]))];
      i := i + 1;
    }
  }

  /** When a later storage reuses an id, its name wins. */
  lemma LastStorageNameWins()
    ensures var storages := [
        StorageInDB("s1", None, "Old Rack", "rack", [], 0, "Row-Column"),
        StorageInDB("s1", None, "New Rack", "rack", [], 0, "Row-Column")];
      var w := JsWine("w", None, None, None, None, None, None, Some("s1"), 0);
      StorageNameFor(NameMap(storages), w) == "New Rack"
  {
    var storages := [
        StorageInDB("s1", None, "Old Rack", "rack", [], 0, "Row-Column"),
        StorageInDB("s1", None, "New Rack", "rack", [], 0, "Row-Column")];
    NameMapIsLast(storages, 1);
  }
}
