/** The database the Python layers share: the `storages` and `wines` tables as sequences of
    rows (a single session, calls one after another). */
module Store {
  import opened Wrappers
  import opened StorageSchema

  /** A row of the `wines` table, reduced to the columns the repository reads or writes
      (`metadata` is the JSON column `wine_metadata`, kept as its text). */
  datatype Wine = Wine(
    id: string,
    userId: string,
    name: string,
    storageId: Option<string>,
    position: Option<string>,
    description: Option<string>,
    metadata: Option<string>,
    addedDate: string)

  class Database {
    var storages: seq<StorageInDB>
    var wines: seq<Wine>

    /** Primary keys are unique in both tables. */
    ghost predicate Valid()
      reads this
    {
      UniqueStorageIds(storages) && UniqueWineIds(wines)
    }

    constructor ()
      ensures Valid() && storages == [] && wines == []
    {
      storages := [];
      wines := [];
    }
  }

  ghost predicate UniqueStorageIds(rows: seq<StorageInDB>)
  {
    forall i, j :: 0 <= i < j < |rows| ==> rows[i].id != rows[j].id
  }

  ghost predicate UniqueWineIds(rows: seq<Wine>)
  {
    forall i, j :: 0 <= i < j < |rows| ==> rows[i].id != rows[j].id
  }

  /** The wines that survive deleting storage `storageId`: the relationship's
      `cascade="all, delete-orphan"` deletes every wine of that storage with it. */
  function WinesOutside(wines: seq<Wine>, storageId: string): (r: seq<Wine>)
    ensures forall w :: w in r <==> w in wines && w.storageId != Some(storageId)
  {
    if wines == [] then []
    else if wines[0].storageId != Some(storageId) then [wines[0]] + WinesOutside(wines[1..], storageId)
    else WinesOutside(wines[1..], storageId)
  }

  /** The cascade keeps table order: the survivors of `a + b` are those of `a`, then those
      of `b`. */
  lemma {:induction false} WinesOutsideDistributes(a: seq<Wine>, b: seq<Wine>, storageId: string)
    ensures WinesOutside(a + b, storageId) == WinesOutside(a, storageId) + WinesOutside(b, storageId)
  {
    if a == [] {
      assert a + b == b;
    } else {
      assert (a + b)[0] == a[0];
      assert (a + b)[1..] == a[1..] + b;
      WinesOutsideDistributes(a[1..], b, storageId);
    }
  }

  /** A single wine survives exactly when it is not in the deleted storage. */
  lemma WinesOutsideSingle(w: Wine, storageId: string)
    ensures WinesOutside([w], storageId) == if w.storageId != Some(storageId) then [w] else []
  {
    assert [w][1..] == [];
  }

  lemma {:induction false} WinesOutsideKeepsUnique(wines: seq<Wine>, storageId: string)
    requires UniqueWineIds(wines)
    ensures UniqueWineIds(WinesOutside(wines, storageId))
  {
    if wines != [] {
      var rest := WinesOutside(wines[1..], storageId);
      assert UniqueWineIds(wines[1..]);
      WinesOutsideKeepsUnique(wines[1..], storageId);
      if wines[0].storageId != Some(storageId) {
        var r := [wines[0]] + rest;
        forall i, j | 0 <= i < j < |r| ensures r[i].id != r[j].id {
          if i == 0 {
            assert r[j] in wines[1..];
            var k :| 0 <= k < |wines[1..]| && wines[1..][k] == r[j];
            assert wines[k + 1] == r[j];
          } else {
            assert r[i] == rest[i - 1] && r[j] == rest[j - 1];
          }
        }
      }
    }
  }

  /** Removing one row keeps primary keys unique. */
  lemma RemoveAtKeepsUnique(rows: seq<Wine>, i: nat)
    requires i < |rows| && UniqueWineIds(rows)
    ensures UniqueWineIds(RemoveAt(rows, i))
  {
    var r := RemoveAt(rows, i);
    forall a, b | 0 <= a < b < |r| ensures r[a].id != r[b].id {
      var a' := if a < i then a else a + 1;
      var b' := if b < i then b else b + 1;
      assert r[a] == rows[a'] && r[b] == rows[b'];
    }
  }

  lemma RemoveStorageKeepsUnique(rows: seq<StorageInDB>, i: nat)
    requires i < |rows| && UniqueStorageIds(rows)
    ensures UniqueStorageIds(RemoveAt(rows, i))
  {
    var r := RemoveAt(rows, i);
    forall a, b | 0 <= a < b < |r| ensures r[a].id != r[b].id {
      var a' := if a < i then a else a + 1;
      var b' := if b < i then b else b + 1;
      assert r[a] == rows[a'] && r[b] == rows[b'];
    }
  }

  /** Index of the first row satisfying a filter, as `query(...).filter(...).first()`. */
  function FirstStorage(rows: seq<StorageInDB>, id: string, owner: Option<string>): (r: Option<nat>)
    ensures r.Some? ==> r.value < |rows| && StorageMatches(rows[r.value], id, owner)
    ensures r.Some? ==> forall j :: 0 <= j < r.value ==> !StorageMatches(rows[j], id, owner)
    ensures r.None? ==> forall j :: 0 <= j < |rows| ==> !StorageMatches(rows[j], id, owner)
  {
    if rows == [] then None
    else if StorageMatches(rows[0], id, owner) then Some(0)
    else match FirstStorage(rows[1..], id, owner)
      case None => None
      case Some(k) => Some(k + 1)
  }

  /** `Storage.id == id`, and `Storage.user_id == owner` when an owner filter is given. */
  predicate StorageMatches(row: StorageInDB, id: string, owner: Option<string>)
  {
    row.id == id && (owner.Some? ==> row.userId == Some(owner.value))
  }

  function FirstWine(rows: seq<Wine>, id: string, owner: Option<string>): (r: Option<nat>)
    ensures r.Some? ==> r.value < |rows| && WineMatches(rows[r.value], id, owner)
    ensures r.Some? ==> forall j :: 0 <= j < r.value ==> !WineMatches(rows[j], id, owner)
    ensures r.None? ==> forall j :: 0 <= j < |rows| ==> !WineMatches(rows[j], id, owner)
  {
    if rows == [] then None
    else if WineMatches(rows[0], id, owner) then Some(0)
    else match FirstWine(rows[1..], id, owner)
      case None => None
      case Some(k) => Some(k + 1)
  }

  predicate WineMatches(row: Wine, id: string, owner: Option<string>)
  {
    row.id == id && (owner.Some? ==> row.userId == owner.value)
  }

  /** `s` with the element at `i` removed. */
  function RemoveAt<T>(s: seq<T>, i: nat): (r: seq<T>)
    requires i < |s|
    ensures |r| == |s| - 1
    ensures forall j :: 0 <= j < i ==> r[j] == s[j]
    ensures forall j :: i <= j < |r| ==> r[j] == s[j + 1]
  {
    s[..i] + s[i + 1..]
  }
}
