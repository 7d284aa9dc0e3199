/** InventoryRepo: profile-scoped inventory rows and the upsert with a floor at zero. */
module Inventory {
  import opened Collections
  import opened Models
  import opened Store

  /** The table after an upsert and the row the call returns. */
  datatype Upsert = Upsert(rows: seq<InventoryItem>, item: InventoryItem)

  /** `upsertQuantity` on the table's value: the (profileId, itemId) row gains `delta`,
      floored at 0, or a row with `max(0, delta)` is appended when there is none. */
  function ApplyDelta(rows: seq<InventoryItem>, profileId: string, itemId: string, delta: int,
                      freshId: string, now: string): Upsert
  {
    match FindInventoryRow(rows, profileId, itemId)
    case Some(i) =>
      var item := rows[i].(quantity := Max(0, rows[i].quantity + delta), updatedAt := now);
      Upsert(rows[i := item], item)
    case None =>
      var item := InventoryItem(freshId, profileId, itemId, Max(0, delta), now, now);
      Upsert(rows + [item], item)
  }

  /** The returned row belongs to the pair, its quantity is the floored sum, and it is the
      table's row for the pair. */
  lemma ApplyDeltaQuantity(rows: seq<InventoryItem>, profileId: string, itemId: string, delta: int,
                           freshId: string, now: string)
    ensures var u := ApplyDelta(rows, profileId, itemId, delta, freshId, now);
      && u.item.profileId == profileId && u.item.itemId == itemId
      && u.item.quantity >= 0
      && u.item.quantity == (match FindInventoryRow(rows, profileId, itemId)
                             case Some(i) => Max(0, rows[i].quantity + delta)
                             case None => Max(0, delta))
      && u.item in u.rows
  {
    var u := ApplyDelta(rows, profileId, itemId, delta, freshId, now);
    match FindInventoryRow(rows, profileId, itemId)
    case Some(i) => assert u.rows[i] == u.item;
    case None => assert u.rows[|rows|] == u.item;
  }

  /** On an existing row: nothing but its quantity and updatedAt changes, and no row is added. */
  lemma ApplyDeltaExistingRow(rows: seq<InventoryItem>, profileId: string, itemId: string, delta: int,
                              freshId: string, now: string, i: nat)
    requires FindInventoryRow(rows, profileId, itemId) == Some(i)
    ensures var u := ApplyDelta(rows, profileId, itemId, delta, freshId, now);
      && |u.rows| == |rows|
      && u.rows[i] == u.item
      && u.item.id == rows[i].id && u.item.createdAt == rows[i].createdAt
      && u.item.profileId == rows[i].profileId && u.item.itemId == rows[i].itemId
      && u.item.quantity == Max(0, rows[i].quantity + delta) && u.item.updatedAt == now
      && forall k :: 0 <= k < |rows| && k != i ==> u.rows[k] == rows[k]
  {
  }

  /** With no row for the pair exactly one row is appended, holding `max(0, delta)`. */
  lemma ApplyDeltaNewRow(rows: seq<InventoryItem>, profileId: string, itemId: string, delta: int,
                         freshId: string, now: string)
    requires FindInventoryRow(rows, profileId, itemId).None?
    ensures var u := ApplyDelta(rows, profileId, itemId, delta, freshId, now);
      && u.rows == rows + [u.item]
      && u.item == InventoryItem(freshId, profileId, itemId, Max(0, delta), now, now)
  {
  }

  /** The upsert never creates a second row for a pair: the compound key stays unique. */
  lemma ApplyDeltaKeepsKeysUnique(rows: seq<InventoryItem>, profileId: string, itemId: string, delta: int,
                                  freshId: string, now: string)
    requires UniqueInventoryKeys(rows)
    requires freshId !in InventoryIds(rows)
    ensures UniqueInventoryKeys(ApplyDelta(rows, profileId, itemId, delta, freshId, now).rows)
  {
    var u := ApplyDelta(rows, profileId, itemId, delta, freshId, now);
    match FindInventoryRow(rows, profileId, itemId)
    case Some(i) =>
      forall a, b | 0 <= a < b < |u.rows|
        ensures u.rows[a].id != u.rows[b].id
        ensures u.rows[a].profileId != u.rows[b].profileId || u.rows[a].itemId != u.rows[b].itemId
      {
        assert u.rows[a].id == rows[a].id && u.rows[b].id == rows[b].id;
        assert u.rows[a].profileId == rows[a].profileId && u.rows[b].profileId == rows[b].profileId;
        assert u.rows[a].itemId == rows[a].itemId && u.rows[b].itemId == rows[b].itemId;
      }
    case None =>
      forall a, b | 0 <= a < b < |u.rows|
        ensures u.rows[a].id != u.rows[b].id
        ensures u.rows[a].profileId != u.rows[b].profileId || u.rows[a].itemId != u.rows[b].itemId
      {
        if b == |rows| {
          assert rows[a] in rows;
        }
      }
  }

  /** The inventory floor is kept: a table without negative quantities never gets one. */
  lemma ApplyDeltaKeepsFloor(rows: seq<InventoryItem>, profileId: string, itemId: string, delta: int,
                             freshId: string, now: string)
    requires QuantitiesNonNegative(rows)
    ensures QuantitiesNonNegative(ApplyDelta(rows, profileId, itemId, delta, freshId, now).rows)
  {
  }

  /** The quantity left by a series of upserts starting from `start`: each step is floored. */
  function FloorFold(start: int, deltas: seq<int>): int
    decreases |deltas|
  {
    if deltas == [] then start else FloorFold(Max(0, start + deltas[0]), deltas[1..])
  }

  /** A series of `upsertQuantity` calls on one pair (each later call finds the row). */
  function ApplyDeltas(rows: seq<InventoryItem>, profileId: string, itemId: string, deltas: seq<int>,
                       freshId: string, now: string): seq<InventoryItem>
    decreases |deltas|
  {
    if deltas == [] then rows
    else ApplyDeltas(ApplyDelta(rows, profileId, itemId, deltas[0], freshId, now).rows,
                     profileId, itemId, deltas[1..], freshId, now)
  }

  /** Starting without a row, a non-empty series of deltas leaves exactly one row for the
      pair whose quantity is the step-by-step floored sum, never negative. (That is not
      `max(0, sum)`: deltas 2, -5, 3 leave 3.) */
  lemma {:induction false} ApplyDeltasFromEmpty(rows: seq<InventoryItem>, profileId: string, itemId: string,
                                                 deltas: seq<int>, freshId: string, now: string)
    requires FindInventoryRow(rows, profileId, itemId).None?
    requires deltas != []
    ensures var after := ApplyDeltas(rows, profileId, itemId, deltas, freshId, now);
      && |after| == |rows| + 1
      && after[..|rows|] == rows
      && after[|rows|].profileId == profileId && after[|rows|].itemId == itemId
      && after[|rows|].quantity == FloorFold(0, deltas)
      && after[|rows|].quantity >= 0
  {
    var first := ApplyDelta(rows, profileId, itemId, deltas[0], freshId, now).rows;
    assert first == rows + [InventoryItem(freshId, profileId, itemId, Max(0, deltas[0]), now, now)];
    assert FindInventoryRow(first, profileId, itemId) == Some(|rows|) by {
      forall k | 0 <= k < |rows| ensures first[k].profileId != profileId || first[k].itemId != itemId {
        assert first[k] == rows[k];
      }
      assert first[|rows|].profileId == profileId && first[|rows|].itemId == itemId;
    }
    FoldOnFoundRow(first, profileId, itemId, deltas[1..], freshId, now, |rows|);
    FloorFoldNonNegative(Max(0, deltas[0]), deltas[1..]);
    var after := ApplyDeltas(rows, profileId, itemId, deltas, freshId, now);
    assert after == ApplyDeltas(first, profileId, itemId, deltas[1..], freshId, now);
    assert after[..|rows|] == rows by {
      forall k | 0 <= k < |rows| ensures after[..|rows|][k] == rows[k] {
        assert after[k] == first[k];
      }
    }
  }

  lemma {:induction false} FloorFoldNonNegative(start: int, deltas: seq<int>)
    requires start >= 0
    ensures FloorFold(start, deltas) >= 0
    decreases |deltas|
  {
    if deltas != [] {
      FloorFoldNonNegative(Max(0, start + deltas[0]), deltas[1..]);
    }
  }

  lemma {:induction false} FoldOnFoundRow(rows: seq<InventoryItem>, profileId: string, itemId: string,
                                          deltas: seq<int>, freshId: string, now: string, i: nat)
    requires FindInventoryRow(rows, profileId, itemId) == Some(i)
    ensures var after := ApplyDeltas(rows, profileId, itemId, deltas, freshId, now);
      && |after| == |rows|
      && FindInventoryRow(after, profileId, itemId) == Some(i)
      && after[i].quantity == FloorFold(rows[i].quantity, deltas)
      && forall k :: 0 <= k < |rows| && k != i ==> after[k] == rows[k]
    decreases |deltas|
  {
    if deltas != [] {
      var next := ApplyDelta(rows, profileId, itemId, deltas[0], freshId, now).rows;
      ApplyDeltaExistingRow(rows, profileId, itemId, deltas[0], freshId, now, i);
      assert FindInventoryRow(next, profileId, itemId) == Some(i) by {
        forall k | 0 <= k < i ensures next[k].profileId != profileId || next[k].itemId != itemId {
          assert next[k] == rows[k];
        }
      }
      FoldOnFoundRow(next, profileId, itemId, deltas[1..], freshId, now, i);
    }
  }

  /** `listByProfile`: exactly the rows of the profile, with their multiplicities. */
  function RowsOfProfile(rows: seq<InventoryItem>, profileId: string): (r: seq<InventoryItem>)
    ensures forall x :: x in r <==> x in rows && x.profileId == profileId
  {
    Filter(rows, (x: InventoryItem) => x.profileId == profileId)
  }

  /** Each row of the profile is listed as often as it is stored, and no other row is. */
  lemma RowsOfProfileCounts(rows: seq<InventoryItem>, profileId: string)
    ensures forall x :: multiset(RowsOfProfile(rows, profileId))[x]
                        == if x.profileId == profileId then multiset(rows)[x] else 0
  {
    FilterMultiset(rows, (x: InventoryItem) => x.profileId == profileId);
  }

  class InventoryRepo {
    const db: Database

    constructor (db: Database)
      ensures this.db == db
    {
      this.db := db;
    }

    method ListByProfile(profileId: string) returns (rows: seq<InventoryItem>)
      ensures rows == RowsOfProfile(db.inventoryItems, profileId)
    {
      rows := RowsOfProfile(db.inventoryItems, profileId);
    }

    method GetByProfileAndItem(profileId: string, itemId: string) returns (row: Option<InventoryItem>)
      ensures row.Some? <==> (exists k :: 0 <= k < |db.inventoryItems|
                                && db.inventoryItems[k].profileId == profileId
                                && db.inventoryItems[k].itemId == itemId)
      ensures row.Some? ==> (row.value in db.inventoryItems
                             && row.value.profileId == profileId && row.value.itemId == itemId)
    {
      match FindInventoryRow(db.inventoryItems, profileId, itemId)
      case Some(i) => row := Some(db.inventoryItems[i]);
      case None => row := None;
    }

    method UpsertQuantity(profileId: string, itemId: string, quantityDelta: int, freshId: string, now: string)
      returns (item: InventoryItem)
      requires db.Valid()
      requires freshId !in InventoryIds(db.inventoryItems)
      modifies db
      ensures db.Valid()
      ensures Upsert(db.inventoryItems, item)
        == ApplyDelta(old(db.inventoryItems), profileId, itemId, quantityDelta, freshId, now)
      ensures db.Snapshot() == old(db.Snapshot()).(inventoryItems := db.inventoryItems)
      ensures QuantitiesNonNegative(old(db.inventoryItems)) ==> QuantitiesNonNegative(db.inventoryItems)
    {
      ApplyDeltaKeepsKeysUnique(db.inventoryItems, profileId, itemId, quantityDelta, freshId, now);
      if QuantitiesNonNegative(db.inventoryItems) {
        ApplyDeltaKeepsFloor(db.inventoryItems, profileId, itemId, quantityDelta, freshId, now);
      }
      var existing := FindInventoryRow(db.inventoryItems, profileId, itemId);
      if existing.Some? {
        var i := existing.value;
        var nextQuantity := Max(0, db.inventoryItems[i].quantity + quantityDelta);
        item := db.inventoryItems[i].(quantity := nextQuantity, updatedAt := now);
        db.inventoryItems := db.inventoryItems[i := item];
      } else {
        item := InventoryItem(freshId, profileId, itemId, Max(0, quantityDelta), now, now);
        db.inventoryItems := db.inventoryItems + [item];
      }
    }
  }
}
